/** The scope registry with deferred binding (scope/scope.go): named,
    individually leveled loggers that can be registered and decorated before
    a backend exists, and that are replayed onto that backend exactly once
    when `UseLogger` installs it. */
module Scopes {
  import opened Wrappers
  import opened Levels
  import opened KeyValues
  import opened Strings
  import LW = LevelWrapper

  /** The characters a scope name may not contain. */
  const Reserved: string := ":,."

  /** Names are trimmed of `"\r\n\t "` and lower-cased. */
  function Normalize(name: string): (n: string)
    ensures |n| <= |name|
    ensures forall i :: 0 <= i < |n| ==> !IsUpper(n[i])
    ensures n != [] ==> !IsSpace(n[0]) && !IsSpace(n[|n| - 1])
  {
    var t := Trim(name);
    if t == [] then t
    else
      LowerCharKeepsSpace(t[0]);
      LowerCharKeepsSpace(t[|t| - 1]);
      ToLower(t)
  }

  /** Normalizing twice is normalizing once, so `Find` of a registered name
      finds it. */
  lemma NormalizeIdempotent(name: string)
    ensures Normalize(Normalize(name)) == Normalize(name)
  {
    var n := Normalize(name);
    TrimTrimmed(n);
    assert forall i :: 0 <= i < |n| ==> LowerChar(n[i]) == n[i];
    assert ToLower(n) == n;
  }

  /** The decorations a pending scope holds: context, metric, pairs. */
  datatype Entry = Entry(ctx: Option<Context>, metric: Option<Metric>, kvs: seq<Value>)

  const EmptyEntry: Entry := Entry(None, None, [])

  /** The `scope` struct. Before bind `logger` is nil and the decorations are
      kept in `kvs`, `ctx` and `metric`; after bind `logger` plays their role. */
  class Scope {
    var logger: Option<LW.Wrapper>
    var kvs: seq<Value>
    var ctx: Option<Context>
    var metric: Option<Metric>
    const name: string
    const description: string

    /** The scope `Register` creates. */
    constructor (name: string, description: string)
      ensures this.name == name && this.description == description
      ensures logger == None && kvs == [] && ctx == None && metric == None
    {
      this.name := name;
      this.description := description;
      logger := None;
      kvs := [];
      ctx := None;
      metric := None;
    }

    /** The scope a pre-bind decoration creates. */
    constructor Derived(name: string, description: string, kvs: seq<Value>, ctx: Option<Context>, metric: Option<Metric>)
      ensures this.name == name && this.description == description
      ensures logger == None && this.kvs == kvs && this.ctx == ctx && this.metric == metric
    {
      this.name := name;
      this.description := description;
      logger := None;
      this.kvs := kvs;
      this.ctx := ctx;
      this.metric := metric;
    }

    /** The level cell of the bound logger, if any. */
    function LoggerFrame(): set<object>
      reads this
    {
      if logger.Some? then {logger.value.lvl} else {}
    }

    /** `Debug`: forwarded to the bound logger's `Debug` with the call's pairs
        as ONE value (no `...`); the uninitialized-use check panics whenever
        its flag is set, bound or not. */
    function Debug(msg: string, kvs: seq<Value>, panicOnUninitialized: bool): (r: CallOutcome)
      reads this, LoggerFrame()
      ensures r.panics == panicOnUninitialized
      ensures r.forwarded.Some? <==> logger.Some? && LW.Level(logger.value) >= LevelDebug
      ensures r.forwarded.Some? ==>
        r.forwarded.value == LW.Forward(logger.value.logger, LW.DebugMethod, msg, None, LW.DebugLevel + [List(kvs)])
    {
      CallOutcome(if logger.Some? then LW.Debug(logger.value, msg, [List(kvs)]) else None, panicOnUninitialized)
    }

    /** `Info`: forwarded to the bound logger's `Debug`, so it is gated at
        Debug; pairs again as one value. */
    function Info(msg: string, kvs: seq<Value>, panicOnUninitialized: bool): (r: CallOutcome)
      reads this, LoggerFrame()
      ensures r.panics == panicOnUninitialized
      ensures r.forwarded.Some? <==> logger.Some? && LW.Level(logger.value) >= LevelDebug
      ensures r.forwarded.Some? ==>
        r.forwarded.value == LW.Forward(logger.value.logger, LW.DebugMethod, msg, None, LW.DebugLevel + [List(kvs)])
    {
      CallOutcome(if logger.Some? then LW.Debug(logger.value, msg, [List(kvs)]) else None, panicOnUninitialized)
    }

    /** `Error`: forwarded to the bound logger's `Error` with the pairs spread. */
    function Error(msg: string, err: Option<nat>, kvs: seq<Value>, panicOnUninitialized: bool): (r: CallOutcome)
      reads this, LoggerFrame()
      ensures r.panics == panicOnUninitialized
      ensures r.forwarded.Some? <==> logger.Some? && LW.Level(logger.value) >= LevelError
      ensures r.forwarded.Some? ==>
        r.forwarded.value == LW.Forward(logger.value.logger, LW.ErrorMethod, msg, err, LW.ErrorLevel + kvs)
    {
      CallOutcome(if logger.Some? then LW.Error(logger.value, msg, err, kvs) else None, panicOnUninitialized)
    }

    /** `With`. No pairs: the scope itself. Bound: the bound logger decorated
        with the padded pairs as ONE value. Unbound: a new pending scope whose
        pairs are `len(s.kvs)` slots filled from the NEW pairs (Go's `copy`),
        followed by the new pairs that have string keys. */
    method With(reg: Registry, kvs: seq<Value>) returns (h: Handle)
      requires reg.Valid() && this in reg.all
      modifies reg
      ensures reg.Valid()
      ensures reg.scopes == old(reg.scopes) && reg.defaultLogger == old(reg.defaultLogger)
      ensures kvs == [] ==> h == ScopeHandle(this) && reg.pending == old(reg.pending) && reg.all == old(reg.all)
      ensures kvs != [] && logger.Some? ==>
        h == WrapperHandle(LW.With(logger.value, [List(Padded(kvs))]))
        && reg.pending == old(reg.pending) && reg.all == old(reg.all)
      ensures kvs != [] && logger.None? ==>
        && h.ScopeHandle? && fresh(h.scope) && h.scope.logger == None
        && h.scope.name == name && h.scope.description == description
        && h.scope.kvs == CopyInto(|this.kvs|, Padded(kvs)) + StringKeyedPairs(Padded(kvs))
        && h.scope.ctx == ctx && h.scope.metric == metric
        && reg.all == old(reg.all) + {h.scope}
        && reg.pending == Some(old(reg.pending).value[name := Get(old(reg.pending).value, name) + [h.scope]])
    {
      if |kvs| == 0 {
        return ScopeHandle(this);
      }
      var p := Padded(kvs);
      if logger.Some? {
        return WrapperHandle(LW.With(logger.value, [List(p)]));
      }
      assert reg.defaultLogger.Some? ==> logger.Some?;
      var sc := new Scope.Derived(name, description, CopyInto(|this.kvs|, p), ctx, metric);
      sc.AppendStringKeyed(p);
      reg.AddPending(sc);
      h := ScopeHandle(sc);
    }

    /** Appends the pairs whose key is a string, in order. */
    method AppendStringKeyed(p: seq<Value>)
      requires |p| % 2 == 0
      modifies this
      ensures kvs == old(kvs) + StringKeyedPairs(p)
      ensures logger == old(logger) && ctx == old(ctx) && metric == old(metric)
    {
      var i := 0;
      while i < |p|
        invariant 0 <= i <= |p| && i % 2 == 0
        invariant kvs == old(kvs) + StringKeyedPairs(p[..i])
        invariant logger == old(logger) && ctx == old(ctx) && metric == old(metric)
      {
        StringKeyedPairsStep(p, i);
        if p[i].Str? {
          kvs := kvs + [p[i], p[i + 1]];
        }
        i := i + 2;
      }
      assert p[..i] == p;
    }

    /** `Context`. Bound: the bound logger given the context. Unbound: a new
        pending scope with a copy of the pairs, the given context and the
        same metric. */
    method Context(reg: Registry, c: KeyValues.Context) returns (h: Handle)
      requires reg.Valid() && this in reg.all
      modifies reg
      ensures reg.Valid()
      ensures reg.scopes == old(reg.scopes) && reg.defaultLogger == old(reg.defaultLogger)
      ensures logger.Some? ==>
        h == WrapperHandle(LW.Context(logger.value, c)) && reg.pending == old(reg.pending) && reg.all == old(reg.all)
      ensures logger.None? ==>
        && h.ScopeHandle? && fresh(h.scope) && h.scope.logger == None
        && h.scope.name == name && h.scope.description == description
        && h.scope.kvs == kvs && h.scope.ctx == Some(c) && h.scope.metric == metric
        && reg.all == old(reg.all) + {h.scope}
        && reg.pending == Some(old(reg.pending).value[name := Get(old(reg.pending).value, name) + [h.scope]])
    {
      if logger.Some? {
        return WrapperHandle(LW.Context(logger.value, c));
      }
      assert reg.defaultLogger.Some? ==> logger.Some?;
      var sc := new Scope.Derived(name, description, kvs, Some(c), metric);
      reg.AddPending(sc);
      h := ScopeHandle(sc);
    }

    /** `Metric`. Bound: the bound logger given the metric. Unbound: a new
        pending scope that keeps the scope's OWN metric; the argument is not
        used. */
    method Metric(reg: Registry, m: KeyValues.Metric) returns (h: Handle)
      requires reg.Valid() && this in reg.all
      modifies reg
      ensures reg.Valid()
      ensures reg.scopes == old(reg.scopes) && reg.defaultLogger == old(reg.defaultLogger)
      ensures logger.Some? ==>
        h == WrapperHandle(LW.Metric(logger.value, m)) && reg.pending == old(reg.pending) && reg.all == old(reg.all)
      ensures logger.None? ==>
        && h.ScopeHandle? && fresh(h.scope) && h.scope.logger == None
        && h.scope.name == name && h.scope.description == description
        && h.scope.kvs == kvs && h.scope.ctx == ctx && h.scope.metric == metric
        && reg.all == old(reg.all) + {h.scope}
        && reg.pending == Some(old(reg.pending).value[name := Get(old(reg.pending).value, name) + [h.scope]])
    {
      if logger.Some? {
        return WrapperHandle(LW.Metric(logger.value, m));
      }
      assert reg.defaultLogger.Some? ==> logger.Some?;
      var sc := new Scope.Derived(name, description, kvs, ctx, metric);
      reg.AddPending(sc);
      h := ScopeHandle(sc);
    }

    /** `New`: bound, the bound logger's `New` (a forked level cell);
        unbound, the scope itself. */
    method New() returns (h: Handle)
      ensures logger.None? ==> h == ScopeHandle(this)
      ensures logger.Some? ==> h.WrapperHandle? && fresh(h.wrapper.lvl)
      ensures logger.Some? ==> h.WrapperHandle? && LW.Level(h.wrapper) == LW.Level(logger.value)
      ensures logger.Some? ==> h.WrapperHandle? && h.wrapper.logger == LW.Context(logger.value, Background).logger
    {
      if logger.None? {
        return ScopeHandle(this);
      }
      var w := LW.New(logger.value);
      h := WrapperHandle(w);
    }

    /** `SetLevel`: bound, the bound logger's clamping `SetLevel`; unbound,
        nothing. */
    method SetLevel(v: Level)
      modifies LoggerFrame()
      ensures logger.Some? ==> LW.Level(logger.value) == LW.Clamp(v)
    {
      if logger.Some? {
        LW.SetLevel(logger.value, v);
      }
    }

    /** `Level`: the bound logger's level; None while unbound. */
    function Level(): (r: Level)
      reads this, LoggerFrame()
      ensures logger.None? ==> r == LevelNone
      ensures logger.Some? ==> r == LW.Level(logger.value)
    {
      if logger.Some? then LW.Level(logger.value) else LevelNone
    }
  }

  /** A `telemetry.Logger` a scope hands out: a scope, or (once bound) the
      bound logger's decorated copy. */
  datatype Handle = ScopeHandle(scope: Scope) | WrapperHandle(wrapper: LW.Wrapper)

  /** What a logging call on a scope does: the call it forwards, if any, and
      whether it panics. */
  datatype CallOutcome = CallOutcome(forwarded: Option<LW.Forward>, panics: bool)

  /** Go's `copy(make([]interface{}, n), src)`: `n` slots, the first filled
      from `src`, the rest nil. */
  function CopyInto(n: nat, src: seq<Value>): (r: seq<Value>)
    ensures |r| == n
    ensures forall j :: 0 <= j < n ==> r[j] == if j < |src| then src[j] else Nil
  {
    seq(n, j requires 0 <= j < n => if j < |src| then src[j] else Nil)
  }

  /** A map lookup yielding Go's nil slice for a missing key. */
  function Get(m: map<string, seq<Scope>>, n: string): seq<Scope> {
    if n in m then m[n] else []
  }

  /** The decorations a scope currently holds. */
  ghost function Fields(s: Scope): Entry
    reads s
  {
    Entry(s.ctx, s.metric, s.kvs)
  }

  /** The decorations of each scope of a list. */
  ghost function Snapshot(L: seq<Scope>): (r: seq<Entry>)
    reads L
    ensures |r| == |L|
    ensures forall j {:trigger r[j]} :: 0 <= j < |L| ==> r[j] == Fields(L[j])
  {
    if L == [] then [] else [Fields(L[0])] + Snapshot(L[1..])
  }

  /** Replay applies a pending entry's context, then its metric, then its
      pairs, each only when present. */
  function Apply(l: LW.Wrapper, e: Entry): LW.Wrapper {
    var l1 := if e.ctx.Some? then LW.Context(l, e.ctx.value) else l;
    var l2 := if e.metric.Some? then LW.Metric(l1, e.metric.value) else l1;
    if |e.kvs| > 0 then LW.With(l2, e.kvs) else l2
  }

  /** The logger accumulated by replaying entries in order. */
  function Accumulate(base: LW.Wrapper, es: seq<Entry>): LW.Wrapper
    decreases |es|
  {
    if es == [] then base else Apply(Accumulate(base, es[..|es| - 1]), es[|es| - 1])
  }

  /** Accumulating one more entry applies it to what was accumulated. */
  lemma AccumulateStep(base: LW.Wrapper, es: seq<Entry>, i: nat)
    requires i < |es|
    ensures Accumulate(base, es[..i + 1]) == Apply(Accumulate(base, es[..i]), es[i])
  {
    assert es[..i + 1][..i] == es[..i];
  }

  /** The logger after each step of a replay. */
  function Prefixes(base: LW.Wrapper, es: seq<Entry>): (r: seq<LW.Wrapper>)
    ensures |r| == |es|
    decreases |es|
  {
    if es == [] then [] else Prefixes(base, es[..|es| - 1]) + [Accumulate(base, es)]
  }

  lemma PrefixesStep(base: LW.Wrapper, es: seq<Entry>, i: nat)
    requires i < |es|
    ensures Prefixes(base, es[..i + 1]) == Prefixes(base, es[..i]) + [Accumulate(base, es[..i + 1])]
  {
    assert es[..i + 1][..i] == es[..i];
  }

  /** Step `k` of a replay yields the accumulation of the first `k + 1`
      entries. */
  lemma {:induction false} PrefixesAt(base: LW.Wrapper, es: seq<Entry>, k: nat)
    requires k < |es|
    ensures Prefixes(base, es)[k] == Accumulate(base, es[..k + 1])
    decreases |es|
  {
    if k < |es| - 1 {
      var init := es[..|es| - 1];
      PrefixesAt(base, init, k);
      assert init[..k + 1] == es[..k + 1];
    } else {
      assert es[..k + 1] == es;
    }
  }

  /** Applying an entry keeps the level cell. */
  lemma ApplyKeepsLevel(l: LW.Wrapper, e: Entry)
    ensures Apply(l, e).lvl == l.lvl
  {
  }

  /** The decorations one entry contributes. */
  function EntryDecorations(e: Entry): seq<LW.Decoration> {
    (if e.ctx.Some? then [LW.DecorateContext(e.ctx.value)] else [])
    + (if e.metric.Some? then [LW.DecorateMetric(e.metric.value)] else [])
    + (if |e.kvs| > 0 then [LW.DecorateWith(e.kvs)] else [])
  }

  /** The decorations of a list of entries, in order. */
  function AllDecorations(es: seq<Entry>): seq<LW.Decoration>
    decreases |es|
  {
    if es == [] then [] else AllDecorations(es[..|es| - 1]) + EntryDecorations(es[|es| - 1])
  }

  /** Nothing accumulated before bind is lost: the replayed logger is the
      base's backend with every entry's decorations appended in order, and it
      keeps the base's level cell. */
  lemma {:induction false} AccumulateDecorations(base: LW.Wrapper, es: seq<Entry>)
    ensures Accumulate(base, es).lvl == base.lvl
    ensures Accumulate(base, es).logger.root == base.logger.root
    ensures Accumulate(base, es).logger.decorations == base.logger.decorations + AllDecorations(es)
    decreases |es|
  {
    if es != [] {
      var init, e := es[..|es| - 1], es[|es| - 1];
      AccumulateDecorations(base, init);
      var a := Accumulate(base, init);
      assert Accumulate(base, es) == Apply(a, e);
      assert AllDecorations(es) == AllDecorations(init) + EntryDecorations(e);
      ApplyDecorations(a, e);
      assert base.logger.decorations + AllDecorations(init) + EntryDecorations(e)
        == base.logger.decorations + (AllDecorations(init) + EntryDecorations(e));
    }
  }

  /** Applying one entry appends its decorations and keeps the cell. */
  lemma ApplyDecorations(l: LW.Wrapper, e: Entry)
    ensures Apply(l, e).lvl == l.lvl && Apply(l, e).logger.root == l.logger.root
    ensures Apply(l, e).logger.decorations == l.logger.decorations + EntryDecorations(e)
  {
  }

  /** The entries replay actually sees: a scope that occurs several times in
      a pending list has its decorations applied at its first occurrence and
      cleared for the later ones. */
  function Effective(L: seq<Scope>, snap: seq<Entry>): (es: seq<Entry>)
    requires |snap| == |L|
    ensures |es| == |L|
    ensures forall k {:trigger es[k]} :: 0 <= k < |L| ==> es[k] == if L[k] in L[..k] then EmptyEntry else snap[k]
  {
    seq(|L|, k requires 0 <= k < |L| => if L[k] in L[..k] then EmptyEntry else snap[k])
  }

  /** Position `k` is the last occurrence of its scope in `L`. */
  predicate IsLast(L: seq<Scope>, k: nat)
    requires k < |L|
  {
    L[k] !in L[k + 1..]
  }

  /** One step of the replay: the logger decorated with whatever context,
      metric and pairs the scope holds. */
  method Decorate(l: LW.Wrapper, sc: Scope) returns (r: LW.Wrapper)
    ensures r == Apply(l, Fields(sc))
  {
    r := l;
    if sc.ctx.Some? {
      r := LW.Context(r, sc.ctx.value);
    }
    if sc.metric.Some? {
      r := LW.Metric(r, sc.metric.value);
    }
    if |sc.kvs| > 0 {
      r := LW.With(r, sc.kvs);
    }
  }

  /** Binds a scope to a logger and clears its pending decorations. */
  method Bind(sc: Scope, l: LW.Wrapper)
    modifies sc
    ensures sc.logger == Some(l) && Fields(sc) == EmptyEntry
  {
    sc.logger := Some(l);
    sc.kvs := [];
    sc.ctx := None;
    sc.metric := None;
  }

  /** The inner loop of `UseLogger` for one name: starting from `base`, each
      pending scope in order gets its decorations applied cumulatively and
      becomes bound to the logger accumulated so far; its decorations are
      cleared. A scope listed several times ends with the logger of its last
      occurrence. */
  method Replay(L: seq<Scope>, base: LW.Wrapper)
    modifies L
    ensures forall s :: s in L ==> Fields(s) == EmptyEntry && s.logger.Some? && s.logger.value.lvl == base.lvl
    ensures forall k :: 0 <= k < |L| && IsLast(L, k) ==>
      L[k].logger == Some(Accumulate(base, Effective(L, old(Snapshot(L)))[..k + 1]))
  {
    ghost var S := Snapshot(L);
    ghost var E := Effective(L, S);
    var l := base;
    // acc[k] is the logger after step k; idx[x] is the latest step that
    // bound scope x
    ghost var acc: seq<LW.Wrapper> := [];
    ghost var idx: map<Scope, nat> := map[];
    var i := 0;
    while i < |L|
      invariant 0 <= i <= |L|
      invariant ReplayState(L, base, S, E, i, l, acc, idx)
    {
      l, acc, idx := ReplayStep(L, base, S, E, i, l, acc, idx);
      i := i + 1;
    }
    assert i == |L|;
    ReplayOutcome(L, base, E, S, l, acc, idx);
    assert S == old(Snapshot(L));
  }

  /** The replay loop's invariant after `i` steps. */
  ghost predicate ReplayState(L: seq<Scope>, base: LW.Wrapper, S: seq<Entry>, E: seq<Entry>, i: nat, l: LW.Wrapper,
                              acc: seq<LW.Wrapper>, idx: map<Scope, nat>)
    reads L, idx.Keys
  {
    && |S| == |L| && E == Effective(L, S)
    && Accumulated(base, E, i, l, acc) && Indexed(L, idx, i) && Replayed(L, S, acc, idx, i)
  }

  /** The scopes visited so far are bound to the logger of their latest
      step and cleared; the others still hold their decorations. */
  ghost predicate Replayed(L: seq<Scope>, S: seq<Entry>, acc: seq<LW.Wrapper>, idx: map<Scope, nat>, i: nat)
    reads L, idx.Keys
  {
    && |S| == |L|
    && (forall x :: x in idx ==> idx[x] < |acc| && x.logger == Some(acc[idx[x]]) && Fields(x) == EmptyEntry)
    && (forall j :: i <= j < |L| && L[j] !in idx ==> Fields(L[j]) == S[j])
  }

  /** One step of the replay loop: decorate with the next scope's entry and
      bind that scope to the result. */
  method ReplayStep(L: seq<Scope>, base: LW.Wrapper, ghost S: seq<Entry>, ghost E: seq<Entry>, i: nat, l: LW.Wrapper,
                    ghost acc: seq<LW.Wrapper>, ghost idx: map<Scope, nat>)
    returns (l': LW.Wrapper, ghost acc': seq<LW.Wrapper>, ghost idx': map<Scope, nat>)
    requires i < |L| && ReplayState(L, base, S, E, i, l, acc, idx)
    modifies L
    ensures ReplayState(L, base, S, E, i + 1, l', acc', idx')
  {
    var sc := L[i];
    SeenBefore(L, idx, i);
    assert Fields(sc) == E[i];
    AccumulatedStep(base, E, i, l, acc);
    l' := Decorate(l, sc);
    Bind(sc, l');
    IndexedStep(L, idx, i);
    acc', idx' := acc + [l'], idx[sc := i];
    forall x | x in idx'
      ensures idx'[x] < |acc'| && x.logger == Some(acc'[idx'[x]]) && Fields(x) == EmptyEntry
    {
      if x != sc {
        assert x in idx && idx'[x] == idx[x] < |acc|;
        assert acc'[idx'[x]] == acc[idx[x]];
      }
    }
  }

  /** What the replay loop leaves behind, read off its invariant. */
  lemma ReplayOutcome(L: seq<Scope>, base: LW.Wrapper, E: seq<Entry>, S: seq<Entry>, l: LW.Wrapper, acc: seq<LW.Wrapper>, idx: map<Scope, nat>)
    requires ReplayState(L, base, S, E, |L|, l, acc, idx)
    ensures forall s :: s in L ==> Fields(s) == EmptyEntry && s.logger.Some? && s.logger.value.lvl == base.lvl
    ensures forall k :: 0 <= k < |L| && IsLast(L, k) ==> L[k].logger == Some(Accumulate(base, E[..k + 1]))
  {
    forall k | 0 <= k < |L| && IsLast(L, k)
      ensures L[k].logger == Some(Accumulate(base, E[..k + 1]))
    {
      LastOccurrence(L, idx, k);
      AccumulatedAt(base, E, l, acc, k);
    }
  }

  /** `l` is the logger after the first `i` entries and `acc` the logger
      after each of them; all on the base's level cell. */
  ghost predicate Accumulated(base: LW.Wrapper, es: seq<Entry>, i: nat, l: LW.Wrapper, acc: seq<LW.Wrapper>) {
    && i <= |es|
    && l == Accumulate(base, es[..i])
    && acc == Prefixes(base, es[..i])
    && |acc| == i
    && l.lvl == base.lvl
    && (forall k :: 0 <= k < i ==> acc[k].lvl == base.lvl)
  }

  lemma AccumulatedStep(base: LW.Wrapper, es: seq<Entry>, i: nat, l: LW.Wrapper, acc: seq<LW.Wrapper>)
    requires i < |es| && Accumulated(base, es, i, l, acc)
    ensures Accumulated(base, es, i + 1, Apply(l, es[i]), acc + [Apply(l, es[i])])
  {
    AccumulateStep(base, es, i);
    ApplyKeepsLevel(l, es[i]);
    PrefixesStep(base, es, i);
  }

  lemma AccumulatedAt(base: LW.Wrapper, es: seq<Entry>, l: LW.Wrapper, acc: seq<LW.Wrapper>, k: nat)
    requires k < |es| && Accumulated(base, es, |es|, l, acc)
    ensures acc[k] == Accumulate(base, es[..k + 1])
  {
    assert es[..|es|] == es;
    PrefixesAt(base, es, k);
  }

  /** `idx` maps each scope among the first `i` of `L` to the position of its
      latest occurrence there. */
  ghost predicate Indexed(L: seq<Scope>, idx: map<Scope, nat>, i: nat) {
    && i <= |L|
    && (forall x :: x in idx ==> idx[x] < i && L[idx[x]] == x)
    && (forall k :: 0 <= k < i ==> L[k] in idx && k <= idx[L[k]])
  }

  lemma IndexedStep(L: seq<Scope>, idx: map<Scope, nat>, i: nat)
    requires i < |L| && Indexed(L, idx, i)
    ensures Indexed(L, idx[L[i] := i], i + 1)
  {
  }

  /** A scope has been visited exactly when it occurs in the prefix. */
  lemma SeenBefore(L: seq<Scope>, idx: map<Scope, nat>, i: nat)
    requires i < |L| && Indexed(L, idx, i)
    ensures L[i] in idx <==> L[i] in L[..i]
  {
    if L[i] in idx {
      assert L[..i][idx[L[i]]] == L[i];
    }
  }

  /** At the end, a last occurrence is the recorded one. */
  lemma LastOccurrence(L: seq<Scope>, idx: map<Scope, nat>, k: nat)
    requires k < |L| && Indexed(L, idx, |L|) && IsLast(L, k)
    ensures idx[L[k]] == k
  {
    assert forall m | k < m < |L| :: L[m] == L[k + 1..][m - k - 1];
  }

  /** The package state: the scope table, the pending lists (nil once bound),
      the default logger, and the uninitialized-use flag. */
  class Registry {
    var scopes: map<string, Scope>
    var pending: Option<map<string, seq<Scope>>>
    var defaultLogger: Option<LW.Wrapper>
    var panicOnUninitialized: bool
    /** Every scope object the registry has created. */
    ghost var all: set<Scope>

    /** The two states. Unbound: every scope is unbound and listed under its
        name as pending. Bound: every scope is bound, to a cell that is not the
        default logger's and that no scope of another name shares. */
    ghost predicate Valid()
      reads this, all
    {
      && (pending.None? <==> defaultLogger.Some?)
      && (forall n :: n in scopes ==> scopes[n] in all && scopes[n].name == n)
      && (forall s :: s in all ==> s.name in scopes)
      && (pending.Some? ==> PendingScopes(all, pending.value))
      && (defaultLogger.Some? ==> BoundScopes(all, defaultLogger.value.lvl))
    }



    /** The initial package state: no scopes, an empty pending table, no
        default logger. */
    constructor ()
      ensures Valid()
      ensures scopes == map[] && pending == Some(map[]) && defaultLogger == None
      ensures all == {} && !panicOnUninitialized
    {
      scopes := map[];
      pending := Some(map[]);
      defaultLogger := None;
      panicOnUninitialized := false;
      all := {};
    }

    /** Lists a new unbound scope as pending under its name. */
    method AddPending(sc: Scope)
      requires Valid() && pending.Some? && sc !in all && sc.logger.None? && sc.name in scopes
      modifies this
      ensures Valid()
      ensures all == old(all) + {sc}
      ensures pending == Some(old(pending).value[sc.name := Get(old(pending).value, sc.name) + [sc]])
      ensures scopes == old(scopes) && defaultLogger == old(defaultLogger)
      ensures panicOnUninitialized == old(panicOnUninitialized)
    {
      var P := pending.value;
      PendingScopesAppend(all, P, sc);
      pending := Some(P[sc.name := Get(P, sc.name) + [sc]]);
      all := all + {sc};
    }

    /** `Register`. A raw name holding `:`, `,` or `.` is refused. Otherwise
        the normalized name's scope is returned, created if new (bound at once
        to a fork of the default logger when there is one); an existing scope
        is returned unchanged. While unbound the scope is (again) appended to
        its name's pending list. */
    method Register(name: string, description: string) returns (r: Option<Scope>)
      requires Valid()
      modifies this
      ensures Valid()
      ensures defaultLogger == old(defaultLogger) && panicOnUninitialized == old(panicOnUninitialized)
      ensures ContainsAny(name, Reserved) ==>
        r == None && scopes == old(scopes) && pending == old(pending) && all == old(all)
      ensures !ContainsAny(name, Reserved) ==>
        r.Some? && Normalize(name) in scopes && r.value == scopes[Normalize(name)] && Find(name) == r
      ensures !ContainsAny(name, Reserved) && Normalize(name) in old(scopes) ==>
        r.value == old(scopes)[Normalize(name)] && scopes == old(scopes) && all == old(all)
      ensures !ContainsAny(name, Reserved) && Normalize(name) !in old(scopes) ==>
        && fresh(r.value) && r.value.name == Normalize(name) && r.value.description == description
        && r.value.kvs == [] && r.value.ctx == None && r.value.metric == None
        && scopes == old(scopes)[Normalize(name) := r.value] && all == old(all) + {r.value}
      ensures !ContainsAny(name, Reserved) && Normalize(name) !in old(scopes) && defaultLogger.Some? ==>
        && r.value.logger.Some? && fresh(r.value.logger.value.lvl)
        && LW.Level(r.value.logger.value) == LW.Level(defaultLogger.value)
        && r.value.logger.value.logger == LW.Context(defaultLogger.value, Background).logger
      ensures !ContainsAny(name, Reserved) && defaultLogger.None? ==>
        && r.value.logger == None
        && pending == Some(old(pending).value[Normalize(name) := Get(old(pending).value, Normalize(name)) + [r.value]])
      ensures defaultLogger.Some? ==> pending == None
    {
      if ContainsAny(name, Reserved) {
        return None;
      }
      var n := Normalize(name);
      var sc: Scope;
      if n in scopes {
        sc := scopes[n];
        if defaultLogger.None? {
          Requeue(sc);
        }
      } else if defaultLogger.Some? {
        sc := AddBoundScope(n, description);
      } else {
        sc := AddPendingScope(n, description);
      }
      r := Some(sc);
    }

    /** Before bind, a new scope for an unused name is listed as pending. */
    method AddPendingScope(n: string, description: string) returns (sc: Scope)
      requires Valid() && n !in scopes && defaultLogger.None?
      modifies this
      ensures Valid()
      ensures defaultLogger == old(defaultLogger) && panicOnUninitialized == old(panicOnUninitialized)
      ensures fresh(sc) && sc.name == n && sc.description == description
      ensures sc.kvs == [] && sc.ctx == None && sc.metric == None && sc.logger == None
      ensures scopes == old(scopes)[n := sc] && all == old(all) + {sc}
      ensures pending == Some(old(pending).value[n := Get(old(pending).value, n) + [sc]])
    {
      ghost var A := all;
      var P := pending.value;
      sc := new Scope(n, description);
      assert PendingScopes(A, P);
      PendingScopesAppend(A, P, sc);
      scopes := scopes[n := sc];
      all := A + {sc};
      pending := Some(P[n := Get(P, n) + [sc]]);
    }

    /** After bind, a new scope for an unused name is bound at once to a fork
        of the default logger. */
    method AddBoundScope(n: string, description: string) returns (sc: Scope)
      requires Valid() && n !in scopes && defaultLogger.Some?
      modifies this
      ensures Valid()
      ensures defaultLogger == old(defaultLogger) && panicOnUninitialized == old(panicOnUninitialized)
      ensures pending == old(pending)
      ensures fresh(sc) && sc.name == n && sc.description == description
      ensures sc.kvs == [] && sc.ctx == None && sc.metric == None
      ensures scopes == old(scopes)[n := sc] && all == old(all) + {sc}
      ensures sc.logger.Some? && fresh(sc.logger.value.lvl)
      ensures sc.logger.Some? && LW.Level(sc.logger.value) == LW.Level(defaultLogger.value)
      ensures sc.logger.Some? && sc.logger.value.logger == LW.Context(defaultLogger.value, Background).logger
    {
      ghost var A := all;
      sc := new Scope(n, description);
      var l := LW.New(defaultLogger.value);
      sc.logger := Some(l);
      assert BoundScopes(A, defaultLogger.value.lvl);
      BoundScopesAdd(A, sc, defaultLogger.value.lvl);
      scopes := scopes[n := sc];
      all := A + {sc};
    }

    /** While unbound, lists an already registered scope again under its
        name. */
    method Requeue(sc: Scope)
      requires Valid() && sc in all && defaultLogger.None?
      modifies this
      ensures Valid()
      ensures pending == Some(old(pending).value[sc.name := Get(old(pending).value, sc.name) + [sc]])
      ensures scopes == old(scopes) && all == old(all) && defaultLogger == old(defaultLogger)
      ensures panicOnUninitialized == old(panicOnUninitialized)
    {
      var P := pending.value;
      PendingScopesAppend(all, P, sc);
      assert all + {sc} == all;
      pending := Some(P[sc.name := Get(P, sc.name) + [sc]]);
    }

    /** `Find`: the scope registered under the normalized name, if any. */
    function Find(name: string): (r: Option<Scope>)
      reads this
      ensures r.Some? <==> Normalize(name) in scopes
      ensures r.Some? ==> r.value == scopes[Normalize(name)]
    {
      var n := Normalize(name);
      if n in scopes then Some(scopes[n]) else None
    }

    /** `List`: a copy of the table, entry by entry. */
    method List() returns (m: map<string, Scope>)
      ensures m == scopes
    {
      m := map[];
      var keys := scopes.Keys;
      while keys != {}
        invariant keys <= scopes.Keys
        invariant m.Keys == scopes.Keys - keys
        invariant forall k :: k in m ==> m[k] == scopes[k]
        decreases keys
      {
        var k :| k in keys;
        m := m[k := scopes[k]];
        keys := keys - {k};
      }
    }

    /** `Names`: every registered name exactly once, in no particular order. */
    method Names() returns (ns: seq<string>)
      ensures |ns| == |scopes|
      ensures forall n :: n in ns <==> n in scopes
      ensures forall i, j :: 0 <= i < j < |ns| ==> ns[i] != ns[j]
    {
      ns := [];
      var keys := scopes.Keys;
      while keys != {}
        invariant keys <= scopes.Keys
        invariant forall n :: n in ns <==> n in scopes.Keys - keys
        invariant forall i, j :: 0 <= i < j < |ns| ==> ns[i] != ns[j]
        invariant |ns| + |keys| == |scopes.Keys|
        decreases keys
      {
        var k :| k in keys;
        assert k !in ns;
        ns := ns + [k];
        keys := keys - {k};
      }
    }

    /** The default logger's level cell, if any. */
    function DefaultFrame(): set<object>
      reads this
    {
      if defaultLogger.Some? then {defaultLogger.value.lvl} else {}
    }

    /** `SetDefaultLevel`: sets the default logger's level; nothing while
        unbound. */
    method SetDefaultLevel(v: Level)
      modifies DefaultFrame()
      ensures defaultLogger.Some? ==> DefaultLevel() == LW.Clamp(v)
    {
      if defaultLogger.Some? {
        LW.SetLevel(defaultLogger.value, v);
      }
    }

    /** `DefaultLevel`: the default logger's level; None while unbound. */
    function DefaultLevel(): (r: Level)
      reads this, DefaultFrame()
      ensures defaultLogger.None? ==> r == LevelNone
      ensures defaultLogger.Some? ==> r == LW.Level(defaultLogger.value)
    {
      if defaultLogger.Some? then LW.Level(defaultLogger.value) else LevelNone
    }

    /** `UseLogger`. Nil, or any call once a default logger exists, changes
        nothing. The first real call installs the logger (wrapped if it lacks
        level support) and, for each pending name, replays that name's pending
        scopes in order onto ONE fork of it; the pending table becomes nil.
        `cells` names each replayed name's new level cell. */
    method UseLogger(logger: Option<LW.AnyLogger>) returns (ghost cells: map<string, LevelCell>)
      requires Valid()
      modifies this, all
      ensures Valid()
      ensures scopes == old(scopes) && all == old(all) && panicOnUninitialized == old(panicOnUninitialized)
      ensures logger.None? || old(defaultLogger).Some? ==>
        pending == old(pending) && defaultLogger == old(defaultLogger)
      ensures logger.None? || old(defaultLogger).Some? ==>
        forall s :: s in all ==> s.logger == old(s.logger) && Fields(s) == old(Fields(s))
      ensures logger.Some? && old(defaultLogger).None? ==> pending == None && defaultLogger.Some?
      ensures logger.Some? && old(defaultLogger).None? && logger.value.Leveled? ==>
        defaultLogger == Some(logger.value.wrapper)
      ensures logger.Some? && old(defaultLogger).None? && logger.value.Plain? ==>
        defaultLogger.value.logger == logger.value.backend && fresh(defaultLogger.value.lvl)
        && LW.Level(defaultLogger.value) == LevelDebug
      ensures logger.Some? && old(defaultLogger).None? ==>
        && cells.Keys == old(pending).value.Keys
        && (forall n :: n in cells ==> fresh(cells[n]) && cells[n].value == LW.Level(defaultLogger.value))
        && (forall s :: s in all ==> Fields(s) == EmptyEntry && s.logger.Some? && s.logger.value.lvl == cells[s.name])
        && (forall n, k :: n in cells && 0 <= k < |old(pending).value[n]| && IsLast(old(pending).value[n], k) ==>
              old(pending).value[n][k].logger
                == Some(Accumulate(Base(defaultLogger.value, cells[n]),
                                   Effective(old(pending).value[n], old(Snapshot(pending.value[n])))[..k + 1])))
    {
      cells := map[];
      if logger.None? {
        return;
      }
      if defaultLogger.Some? {
        return;
      }
      ghost var snaps := map m | m in pending.value :: Snapshot(pending.value[m]);
      var dl: LW.Wrapper;
      if logger.value.Leveled? {
        dl := logger.value.wrapper;
      } else {
        dl := LW.Wrap(logger.value);
      }
      forall m, j | m in pending.value && 0 <= j < |pending.value[m]|
        ensures Fields(pending.value[m][j]) == snaps[m][j]
      {
      }
      cells := Install(dl, snaps);
    }

    /** The binding half of `UseLogger`: `dl` becomes the default logger
        and every pending list is replayed onto its own fork of it;
        `snaps` records the pending scopes' decorations beforehand. */
    method Install(dl: LW.Wrapper, ghost snaps: map<string, seq<Entry>>) returns (ghost cells: map<string, LevelCell>)
      requires Valid() && defaultLogger.None?
      requires snaps.Keys == pending.value.Keys
      requires forall m :: m in pending.value ==> |snaps[m]| == |pending.value[m]|
      requires forall m, j :: m in pending.value && 0 <= j < |pending.value[m]| ==> Fields(pending.value[m][j]) == snaps[m][j]
      modifies this, all
      ensures Valid()
      ensures scopes == old(scopes) && all == old(all) && panicOnUninitialized == old(panicOnUninitialized)
      ensures pending == None && defaultLogger == Some(dl) && dl.lvl.value == old(dl.lvl.value)
      ensures cells.Keys == old(pending).value.Keys
      ensures forall n :: n in cells ==> fresh(cells[n]) && cells[n].value == dl.lvl.value
      ensures forall s :: s in all ==> Fields(s) == EmptyEntry && s.logger.Some? && s.logger.value.lvl == cells[s.name]
      ensures forall n, k :: n in cells && 0 <= k < |old(pending).value[n]| && IsLast(old(pending).value[n], k) ==>
        old(pending).value[n][k].logger == Some(Accumulate(Base(dl, cells[n]), Effective(old(pending).value[n], snaps[n])[..k + 1]))
    {
      var P := pending.value;
      assert Grouped(P, all);
      ghost var gots;
      cells, gots := BindAll(P, all, dl, snaps);
      assert unchanged(this);
      defaultLogger := Some(dl);
      pending := None;
      BoundState(P, cells, gots);
      GotsHeld(P, dl, cells, gots, snaps);
    }

    /** After the replay the registry is in its bound state. */
    lemma BoundState(P: map<string, seq<Scope>>, cells: map<string, LevelCell>,
                     gots: map<string, seq<Option<LW.Wrapper>>>)
      requires defaultLogger.Some? && pending.None?
      requires forall n :: n in scopes ==> scopes[n] in all && scopes[n].name == n
      requires forall s :: s in all ==> s.name in scopes
      requires Grouped(P, all) && cells.Keys == P.Keys && FreshCells(cells, defaultLogger.value.lvl)
      requires gots.Keys == P.Keys && forall m :: m in P ==> |gots[m]| == |P[m]|
      requires forall m, k :: m in P && 0 <= k < |P[m]| ==> Bound(P[m][k], gots[m][k], cells[m])
      ensures Valid()
      ensures forall s :: s in all ==> Fields(s) == EmptyEntry && s.logger.Some? && s.logger.value.lvl == cells[s.name]
    {
      forall s | s in all
        ensures Fields(s) == EmptyEntry && s.logger.Some? && s.logger.value.lvl == cells[s.name]
      {
        assert s in P[s.name];
        var k :| 0 <= k < |P[s.name]| && P[s.name][k] == s;
        assert Bound(P[s.name][k], gots[s.name][k], cells[s.name]);
      }
    }
  }

  /** Replays one name's pending list onto a fresh fork of `dl`; `got` is
      the logger each position of the list ends up holding. */
  method BindName(L: seq<Scope>, dl: LW.Wrapper, ghost others: map<string, LevelCell>)
    returns (ghost cell: LevelCell, ghost got: seq<Option<LW.Wrapper>>)
    modifies L
    ensures fresh(cell) && cell.value == dl.lvl.value == old(dl.lvl.value)
    ensures forall m :: m in others ==> others[m].value == old(others[m].value)
    ensures |got| == |L|
    ensures forall k :: 0 <= k < |L| ==> Bound(L[k], got[k], cell)
    ensures LastLoggers(L, got, Base(dl, cell), old(Snapshot(L)))
  {
    ghost var S := Snapshot(L);
    var base := LW.New(dl);
    cell := base.lvl;
    assert base == Base(dl, cell);
    Replay(L, base);
    assert S == old(Snapshot(L));
    got := Loggers(L);
    ReplayBindings(L, base, S, got);
  }

  /** What `Replay` leaves, read position by position. */
  lemma ReplayBindings(L: seq<Scope>, base: LW.Wrapper, S: seq<Entry>, got: seq<Option<LW.Wrapper>>)
    requires |S| == |L| && |got| == |L|
    requires forall k :: 0 <= k < |L| ==> got[k] == L[k].logger
    requires forall s :: s in L ==> Fields(s) == EmptyEntry && s.logger.Some? && s.logger.value.lvl == base.lvl
    requires forall k :: 0 <= k < |L| && IsLast(L, k) ==> L[k].logger == Some(Accumulate(base, Effective(L, S)[..k + 1]))
    ensures forall k :: 0 <= k < |L| ==> Bound(L[k], got[k], base.lvl)
    ensures LastLoggers(L, got, base, S)
  {
    forall k | 0 <= k < |L| ensures Bound(L[k], got[k], base.lvl) {
      assert L[k] in L;
    }
  }

  /** A scope bound during the replay: cleared, holding `logger`, a fork
      on `cell`. */
  ghost predicate Bound(s: Scope, logger: Option<LW.Wrapper>, cell: LevelCell)
    reads s
  {
    Fields(s) == EmptyEntry && s.logger == logger && logger.Some? && logger.value.lvl == cell
  }

  /** The logger held at each position of a list. */
  ghost function Loggers(L: seq<Scope>): (r: seq<Option<LW.Wrapper>>)
    reads L
    ensures |r| == |L|
    ensures forall k {:trigger r[k]} :: 0 <= k < |L| ==> r[k] == L[k].logger
  {
    if L == [] then [] else [L[0].logger] + Loggers(L[1..])
  }

  /** Each last occurrence holds the logger accumulated up to it. */
  ghost predicate LastLoggers(L: seq<Scope>, got: seq<Option<LW.Wrapper>>, base: LW.Wrapper, snap: seq<Entry>) {
    && |got| == |L| && |snap| == |L|
    && forall k :: 0 <= k < |L| && IsLast(L, k) ==> got[k] == Some(Accumulate(base, Effective(L, snap)[..k + 1]))
  }

  /** The outer loop of `UseLogger`: every pending list, name by name, is
      replayed onto its own fresh fork of `dl`. */
  method BindAll(P: map<string, seq<Scope>>, ghost all: set<Scope>, dl: LW.Wrapper, ghost snaps: map<string, seq<Entry>>)
    returns (ghost cells: map<string, LevelCell>, ghost gots: map<string, seq<Option<LW.Wrapper>>>)
    requires Listed(P, all)
    requires snaps.Keys == P.Keys && forall m :: m in P ==> |snaps[m]| == |P[m]|
    requires forall m, k :: m in P && 0 <= k < |P[m]| ==> Fields(P[m][k]) == snaps[m][k]
    modifies all
    ensures cells.Keys == P.Keys && gots.Keys == P.Keys
    ensures forall m :: m in cells ==> fresh(cells[m]) && cells[m].value == dl.lvl.value
    ensures FreshCells(cells, dl.lvl)
    ensures forall m :: m in P ==> |gots[m]| == |P[m]|
    ensures forall m, k :: m in P && 0 <= k < |P[m]| ==> Bound(P[m][k], gots[m][k], cells[m])
    ensures forall m :: m in P ==> LastLoggers(P[m], gots[m], Base(dl, cells[m]), snaps[m])
  {
    ghost var lv := dl.lvl.value;
    cells, gots := map[], map[];
    var todo := P.Keys;
    while todo != {}
      invariant todo <= P.Keys && cells.Keys == P.Keys - todo && gots.Keys == cells.Keys
      invariant forall m :: m in cells ==> fresh(cells[m])
      invariant Rounds(P, dl, lv, snaps, cells, gots, todo)
      invariant forall m, k :: m in todo && 0 <= k < |P[m]| ==> Fields(P[m][k]) == snaps[m][k]
      invariant forall m, k :: m in gots && 0 <= k < |P[m]| ==> Bound(P[m][k], gots[m][k], cells[m])
      decreases todo
    {
      var n :| n in todo;
      ghost var cell, got := BindStep(P, all, dl, lv, snaps, cells, gots, todo, n);
      cells := cells[n := cell];
      gots := gots[n := got];
      todo := todo - {n};
    }
  }

  /** What the rounds of `BindAll` so far have established, apart from the
      state of the scopes: the level of every cell and the outcome of
      every replay recorded. */
  ghost predicate Rounds(P: map<string, seq<Scope>>, dl: LW.Wrapper, lv: Level, snaps: map<string, seq<Entry>>,
                         cells: map<string, LevelCell>, gots: map<string, seq<Option<LW.Wrapper>>>, todo: set<string>)
    reads dl.lvl, set m | m in cells :: cells[m]
  {
    && dl.lvl.value == lv && (forall m :: m in cells ==> cells[m].value == lv)
    && Recorded(P, dl, snaps, cells, gots, todo)
  }

  /** The outcomes recorded for the names already replayed. */
  ghost predicate Recorded(P: map<string, seq<Scope>>, dl: LW.Wrapper, snaps: map<string, seq<Entry>>,
                           cells: map<string, LevelCell>, gots: map<string, seq<Option<LW.Wrapper>>>, todo: set<string>)
  {
    && snaps.Keys == P.Keys && (forall m :: m in P ==> |snaps[m]| == |P[m]|)
    && todo <= P.Keys && cells.Keys == P.Keys - todo && gots.Keys == cells.Keys
    && FreshCells(cells, dl.lvl)
    && (forall m :: m in gots ==> |gots[m]| == |P[m]|)
    && (forall m :: m in gots ==> LastLoggers(P[m], gots[m], Base(dl, cells[m]), snaps[m]))
  }

  /** Recording the replay of one more name. */
  lemma RecordedStep(P: map<string, seq<Scope>>, dl: LW.Wrapper, snaps: map<string, seq<Entry>>,
                     cells: map<string, LevelCell>, gots: map<string, seq<Option<LW.Wrapper>>>, todo: set<string>,
                     n: string, cell: LevelCell, got: seq<Option<LW.Wrapper>>)
    requires Recorded(P, dl, snaps, cells, gots, todo) && n in todo
    requires cell != dl.lvl && forall m :: m in cells ==> cells[m] != cell
    requires LastLoggers(P[n], got, Base(dl, cell), snaps[n])
    ensures Recorded(P, dl, snaps, cells[n := cell], gots[n := got], todo - {n})
  {
  }

  /** One round of `BindAll`: the pending list of `n` is replayed, and what
      the earlier rounds established about the other names stays true. */
  method BindStep(P: map<string, seq<Scope>>, ghost all: set<Scope>, dl: LW.Wrapper, ghost lv: Level,
                  ghost snaps: map<string, seq<Entry>>, ghost cells: map<string, LevelCell>,
                  ghost gots: map<string, seq<Option<LW.Wrapper>>>, ghost todo: set<string>, n: string)
    returns (ghost cell: LevelCell, ghost got: seq<Option<LW.Wrapper>>)
    requires Listed(P, all) && n in todo
    requires Rounds(P, dl, lv, snaps, cells, gots, todo)
    requires forall m, k :: m in todo && 0 <= k < |P[m]| ==> Fields(P[m][k]) == snaps[m][k]
    requires forall m, k :: m in gots && 0 <= k < |P[m]| ==> Bound(P[m][k], gots[m][k], cells[m])
    modifies all
    ensures fresh(cell)
    ensures Rounds(P, dl, lv, snaps, cells[n := cell], gots[n := got], todo - {n})
    ensures forall m, k :: m in todo - {n} && 0 <= k < |P[m]| ==> Fields(P[m][k]) == snaps[m][k]
    ensures forall m, k :: m in gots[n := got] && 0 <= k < |P[m]| ==> Bound(P[m][k], gots[n := got][m][k], cells[n := cell][m])
  {
    assert Snapshot(P[n]) == snaps[n];
    cell, got := BindName(P[n], dl, cells);
    RecordedStep(P, dl, snaps, cells, gots, todo, n, cell, got);
    forall m, k | m in P && m != n && 0 <= k < |P[m]|
      ensures P[m][k].logger == old(P[m][k].logger) && Fields(P[m][k]) == old(Fields(P[m][k]))
    {
      assert P[m][k] in P[m];
      assert P[m][k].name == m;
    }
  }

  /** The end of `BindAll`: what each name's replay recorded is what its
      scopes hold. */
  lemma GotsHeld(P: map<string, seq<Scope>>, dl: LW.Wrapper, cells: map<string, LevelCell>,
                 gots: map<string, seq<Option<LW.Wrapper>>>, snaps: map<string, seq<Entry>>)
    requires cells.Keys == P.Keys && gots.Keys == P.Keys && snaps.Keys == P.Keys
    requires forall m :: m in P ==> |snaps[m]| == |P[m]|
    requires forall m :: m in gots ==> LastLoggers(P[m], gots[m], Base(dl, cells[m]), snaps[m])
    requires forall m :: m in P ==> |gots[m]| == |P[m]|
    requires forall m, k :: m in gots && 0 <= k < |P[m]| ==> Bound(P[m][k], gots[m][k], cells[m])
    ensures forall m, k :: m in P && 0 <= k < |P[m]| && IsLast(P[m], k) ==>
      P[m][k].logger == Some(Accumulate(Base(dl, cells[m]), Effective(P[m], snaps[m])[..k + 1]))
  {
    forall m, k | m in P && 0 <= k < |P[m]| && IsLast(P[m], k)
      ensures P[m][k].logger == Some(Accumulate(Base(dl, cells[m]), Effective(P[m], snaps[m])[..k + 1]))
    {
      assert LastLoggers(P[m], gots[m], Base(dl, cells[m]), snaps[m]);
    }
  }

  /** Every scope of `A` is unbound and listed under its own name in `P`,
      and `P` lists no other scope. */
  ghost predicate PendingScopes(A: set<Scope>, P: map<string, seq<Scope>>)
    reads A
  {
    Grouped(P, A) && forall s :: s in A ==> s.logger.None?
  }

  /** Appending an unbound scope to its name's list keeps the pending table
      well formed. */
  lemma PendingScopesAppend(A: set<Scope>, P: map<string, seq<Scope>>, sc: Scope)
    requires PendingScopes(A, P) && sc.logger.None?
    ensures PendingScopes(A + {sc}, P[sc.name := Get(P, sc.name) + [sc]])
  {
    var Q := P[sc.name := Get(P, sc.name) + [sc]];
    forall n, s | n in Q && s in Q[n] ensures s in A + {sc} && s.name == n {
      if n == sc.name && s !in Get(P, sc.name) {
        assert s == sc;
      }
    }
    forall s | s in A + {sc} ensures s.name in Q && s in Q[s.name] {
      if s != sc {
        assert s in Get(P, s.name);
      }
    }
  }

  /** Every scope of `A` is bound, to a cell that is not `cell` and that
      no scope of another name shares. */
  ghost predicate BoundScopes(A: set<Scope>, cell: LevelCell)
    reads A
  {
    && (forall s :: s in A ==> s.logger.Some? && s.logger.value.lvl != cell)
    && (forall s, t :: s in A && t in A && s.name != t.name && s.logger.Some? && t.logger.Some? ==>
          s.logger.value.lvl != t.logger.value.lvl)
  }

  /** A scope bound to a cell of its own keeps a bound set bound. */
  lemma BoundScopesAdd(A: set<Scope>, sc: Scope, cell: LevelCell)
    requires BoundScopes(A, cell)
    requires sc.logger.Some? && sc.logger.value.lvl != cell
    requires forall s :: s in A ==> s.logger.value.lvl != sc.logger.value.lvl
    ensures BoundScopes(A + {sc}, cell)
  {
  }

  /** Every scope is listed under its own name, and only there. */
  ghost predicate Grouped(P: map<string, seq<Scope>>, all: set<Scope>) {
    && (forall s :: s in all ==> s.name in P && s in P[s.name])
    && Listed(P, all)
  }

  /** Every listed scope is one of `all`, listed under its own name. */
  ghost predicate Listed(P: map<string, seq<Scope>>, all: set<Scope>) {
    forall n, s :: n in P && s in P[n] ==> s in all && s.name == n
  }

  /** Distinct names got distinct cells, none of them the default's. */
  ghost predicate FreshCells(cells: map<string, LevelCell>, dcell: LevelCell) {
    && (forall m :: m in cells ==> cells[m] != dcell)
    && (forall m1, m2 :: m1 in cells && m2 in cells && m1 != m2 ==> cells[m1] != cells[m2])
  }

  /** The fork `New` makes of the default logger, on a given cell. */
  function Base(dl: LW.Wrapper, cell: LevelCell): LW.Wrapper {
    LW.Wrapper(LW.Context(dl, Background).logger, cell)
  }
}
