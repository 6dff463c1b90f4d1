/** The function-driven reference logger (function/logger.go): a logger that
    hands each emitted line, with its three groups of pairs, to a
    user-supplied `Emit` function. */
module FunctionLogger {
  import opened Wrappers
  import opened Levels
  import opened KeyValues

  /** A user-supplied `Emit` function, by identity. */
  type Emit = nat

  /** The `Values` handed to `Emit`: pairs from the context, from the logger,
      and from the call, kept apart. */
  datatype Values = Values(fromContext: seq<Value>, fromLogger: seq<Value>, fromMethod: seq<Value>)

  /** One call of `Emit(level, msg, err, values)`. */
  datatype Record = Record(level: Level, msg: string, err: Option<nat>, values: Values)

  /** The `SetLevel` clamp: the greatest named level not above `v`, and None for
      anything below Error, negative values included. */
  function ClampLevel(v: Level): (r: Level)
    ensures IsDefined(r)
    ensures v >= LevelNone ==> r <= v
    ensures forall d: Level :: IsDefined(d) && d <= v ==> d <= r
    ensures v < LevelError ==> r == LevelNone
  {
    if v < LevelError then LevelNone
    else if v < LevelInfo then LevelError
    else if v < LevelDebug then LevelInfo
    else LevelDebug
  }

  /** Clamping leaves exactly the named levels in place. */
  lemma ClampFixesDefined(v: Level)
    ensures ClampLevel(v) == v <==> IsDefined(v)
  {
  }

  /** Position `i` of the logger's pairs holds a `"scope"` key followed by a
      string value. */
  predicate ScopeAt(args: seq<Value>, i: int) {
    0 <= i && i + 1 < |args| && args[i] == Str("scope") && args[i + 1].Str?
  }

  /** The scope found scanning the pairs from position `i`. */
  function ScopeFrom(args: seq<Value>, i: nat): string
    decreases |args| - i
  {
    if i >= |args| then ""
    else if ScopeAt(args, i) then args[i + 1].s
    else ScopeFrom(args, i + 1)
  }

  /** The scope a logger infers from its pairs. */
  function ScopeOf(args: seq<Value>): string {
    ScopeFrom(args, 0)
  }

  /** The scope is the value after the first `"scope"` key that is followed
      by a string. */
  lemma {:induction false} ScopeOfFirstMatch(args: seq<Value>, i: nat)
    requires ScopeAt(args, i)
    requires forall j :: 0 <= j < i ==> !ScopeAt(args, j)
    ensures ScopeOf(args) == args[i + 1].s
  {
    var k := 0;
    while k < i
      invariant 0 <= k <= i
      invariant ScopeFrom(args, k) == ScopeOf(args)
    {
      k := k + 1;
    }
  }

  /** Without such a key there is no scope. */
  lemma {:induction false} ScopeOfNoMatch(args: seq<Value>)
    requires forall j :: 0 <= j < |args| ==> !ScopeAt(args, j)
    ensures ScopeOf(args) == ""
  {
    var k := 0;
    while k < |args|
      invariant 0 <= k <= |args|
      invariant ScopeFrom(args, k) == ScopeOf(args)
    {
      k := k + 1;
    }
  }

  /** The `Logger` struct. */
  class Logger {
    var ctx: Context
    var args: seq<Value>
    var metric: Option<Metric>
    var level: LevelCell
    var emitFunc: Option<Emit>
    var scopedLevels: map<string, Level>

    /** Levels only ever hold named values, and no level is kept for the
        empty scope. */
    ghost predicate Valid()
      reads this, level
    {
      && IsDefined(level.value)
      && "" !in scopedLevels
      && forall s :: s in scopedLevels ==> IsDefined(scopedLevels[s])
    }

    /** `NewLogger`: Info level in a cell of its own, no pairs, a background
        context. */
    constructor NewLogger(emitFunc: Option<Emit>)
      ensures Valid() && fresh(level)
      ensures level.value == LevelInfo && Level() == LevelInfo
      ensures ctx == Background && args == [] && metric == None
      ensures scopedLevels == map[] && this.emitFunc == emitFunc
    {
      ctx := Background;
      args := [];
      metric := None;
      level := new LevelCell(LevelInfo);
      this.emitFunc := emitFunc;
      scopedLevels := map[];
    }

    /** The struct literal that `Clone` builds. */
    constructor Of(ctx: Context, args: seq<Value>, metric: Option<Metric>, level: LevelCell,
                   emitFunc: Option<Emit>, scopedLevels: map<string, Level>)
      ensures this.ctx == ctx && this.args == args && this.metric == metric
      ensures this.level == level && this.emitFunc == emitFunc && this.scopedLevels == scopedLevels
    {
      this.ctx := ctx;
      this.args := args;
      this.metric := metric;
      this.level := level;
      this.emitFunc := emitFunc;
      this.scopedLevels := scopedLevels;
    }

    /** `Level`: the level kept for the logger's scope, else the shared cell. */
    function Level(): (r: Level)
      reads this, level
      ensures Valid() ==> IsDefined(r)
      ensures ScopeOf(args) !in scopedLevels ==> r == level.value
      ensures ScopeOf(args) in scopedLevels ==> r == scopedLevels[ScopeOf(args)]
    {
      var s := ScopeOf(args);
      if s in scopedLevels then scopedLevels[s] else level.value
    }

    /** `scope`: scans the pairs for the first `"scope"` key followed by a
        string value. */
    method Scope() returns (s: string)
      ensures s == ScopeOf(args)
    {
      for i := 0 to |args|
        invariant ScopeFrom(args, i) == ScopeOf(args)
      {
        if args[i] == Str("scope") && |args| > i + 1 && args[i + 1].Str? {
          return args[i + 1].s;
        }
      }
      return "";
    }

    /** `SetLevel`: clamps, then writes the shared cell when the logger has no
        scope and its own per-scope table otherwise; either way the logger
        reports the clamped level afterwards. */
    method SetLevel(v: Level)
      requires Valid()
      modifies `scopedLevels, level
      ensures Valid()
      ensures Level() == ClampLevel(v)
      ensures ScopeOf(args) == "" ==> level.value == ClampLevel(v) && scopedLevels == old(scopedLevels)
      ensures ScopeOf(args) != "" ==>
        scopedLevels == old(scopedLevels)[ScopeOf(args) := ClampLevel(v)] && level.value == old(level.value)
    {
      var lvl := ClampLevel(v);
      var s := Scope();
      if s == "" {
        level.value := lvl;
      } else {
        scopedLevels := scopedLevels[s := lvl];
      }
    }

    /** `enabled`: an emit function is set and the call's level is within the
        logger's level. */
    predicate Enabled(at: Level)
      reads this, level
      ensures Enabled(at) <==> emitFunc.Some? && at <= Level()
    {
      emitFunc.Some? && at <= Level()
    }

    /** The gates nest: enabled at Debug implies enabled at Info, and that
        implies enabled at Error; with an emit function set, a valid logger
        is enabled at None. */
    lemma EnabledNested()
      ensures Enabled(LevelDebug) ==> Enabled(LevelInfo)
      ensures Enabled(LevelInfo) ==> Enabled(LevelError)
      ensures Valid() && emitFunc.Some? ==> Enabled(LevelNone)
    {
    }

    /** What `emit` hands to the emit function. */
    function Emission(at: Level, msg: string, err: Option<nat>, kvs: seq<Value>): (r: Record)
      reads this
      ensures r.level == at && r.msg == msg && r.err == err
      ensures r.values.fromContext == KeyValuesFromContext(ctx)
      ensures r.values.fromLogger == args && r.values.fromMethod == kvs
    {
      Record(at, msg, err, Values(KeyValuesFromContext(ctx), args, kvs))
    }

    /** The object a call of `Info` or `Error` records into. */
    function MetricFrame(): set<object>
      reads this
    {
      if metric.Some? then {metric.value} else {}
    }

    /** `Debug`: emits exactly when enabled at Debug; never records the metric. */
    method Debug(msg: string, kvs: seq<Value>) returns (e: Option<Record>)
      ensures e.Some? <==> Enabled(LevelDebug)
      ensures e.Some? ==> e.value == Emission(LevelDebug, msg, None, kvs)
    {
      if !Enabled(LevelDebug) {
        return None;
      }
      e := Some(Emission(LevelDebug, msg, None, kvs));
    }

    /** `Info`: records the metric once whatever the level, then emits exactly
        when enabled at Info. */
    method Info(msg: string, kvs: seq<Value>) returns (e: Option<Record>)
      modifies MetricFrame()
      ensures metric.Some? ==> metric.value.recorded == old(metric.value.recorded) + [ctx]
      ensures e.Some? <==> Enabled(LevelInfo)
      ensures e.Some? ==> e.value == Emission(LevelInfo, msg, None, kvs)
    {
      if metric.Some? {
        metric.value.recorded := metric.value.recorded + [ctx];
      }
      if !Enabled(LevelInfo) {
        return None;
      }
      e := Some(Emission(LevelInfo, msg, None, kvs));
    }

    /** `Error`: records the metric once whatever the level, then emits the
        error exactly when enabled at Error. */
    method Error(msg: string, err: Option<nat>, kvs: seq<Value>) returns (e: Option<Record>)
      modifies MetricFrame()
      ensures metric.Some? ==> metric.value.recorded == old(metric.value.recorded) + [ctx]
      ensures e.Some? <==> Enabled(LevelError)
      ensures e.Some? ==> e.value == Emission(LevelError, msg, err, kvs)
    {
      if metric.Some? {
        metric.value.recorded := metric.value.recorded + [ctx];
      }
      if !Enabled(LevelError) {
        return None;
      }
      e := Some(Emission(LevelError, msg, err, kvs));
    }

    /** `Clone`: a new logger with copies of the pairs and of the per-scope
        table, the same context, metric and emit function, and the SAME level
        cell. */
    method Clone() returns (c: Logger)
      ensures fresh(c)
      ensures c.args == args && c.ctx == ctx && c.metric == metric && c.emitFunc == emitFunc
      ensures c.level == level && c.scopedLevels == scopedLevels
    {
      c := new Logger.Of(ctx, args, metric, level, emitFunc, scopedLevels);
    }

    /** `With`: no pairs gives the receiver back; otherwise a clone whose pairs
        are the receiver's followed by the padded new pairs that have string
        keys. The receiver is not changed. */
    method With(kvs: seq<Value>) returns (r: Logger)
      ensures kvs == [] ==> r == this
      ensures kvs != [] ==> fresh(r) && r.args == args + StringKeyedPairs(Padded(kvs))
      ensures kvs != [] ==> r.ctx == ctx && r.metric == metric && r.emitFunc == emitFunc
      ensures kvs != [] ==> r.level == level && r.scopedLevels == scopedLevels
    {
      if |kvs| == 0 {
        return this;
      }
      var p := Padded(kvs);
      r := Clone();
      var i := 0;
      while i < |p|
        invariant 0 <= i <= |p| && i % 2 == 0
        invariant r.args == args + StringKeyedPairs(p[..i])
        invariant r.ctx == ctx && r.metric == metric && r.emitFunc == emitFunc
        invariant r.level == level && r.scopedLevels == scopedLevels
      {
        StringKeyedPairsStep(p, i);
        if p[i].Str? {
          r.args := r.args + [p[i], p[i + 1]];
        }
        i := i + 2;
      }
      assert p[..i] == p;
    }

    /** `Context`: a clone carrying the given context. */
    method Context(c: KeyValues.Context) returns (r: Logger)
      ensures fresh(r) && r.ctx == c
      ensures r.args == args && r.metric == metric && r.emitFunc == emitFunc
      ensures r.level == level && r.scopedLevels == scopedLevels
    {
      r := Clone();
      r.ctx := c;
    }

    /** `Metric`: a clone carrying the given metric (nil included). */
    method Metric(m: Option<KeyValues.Metric>) returns (r: Logger)
      ensures fresh(r) && r.metric == m
      ensures r.args == args && r.ctx == ctx && r.emitFunc == emitFunc
      ensures r.level == level && r.scopedLevels == scopedLevels
    {
      r := Clone();
      r.metric := m;
    }
  }

  /** A level set on a logger without a scope is seen by a logger derived
      from it with pairs that name no scope, and by that logger's clone:
      `With` and `Clone` share the cell. */
  method CloneSharesLevel(logger: Logger, kvs: seq<Value>, v: Level) returns (derived: Logger, clone: Logger)
    requires logger.Valid()
    requires ScopeOf(logger.args) == ""
    requires ScopeOf(logger.args + StringKeyedPairs(Padded(kvs))) == ""
    modifies logger`scopedLevels, logger.level
    ensures derived.level == logger.level && clone.level == logger.level
    ensures logger.Level() == ClampLevel(v)
    ensures derived.Level() == ClampLevel(v) && clone.Level() == ClampLevel(v)
  {
    derived := logger.With(kvs);
    clone := derived.Clone();
    logger.SetLevel(v);
  }
}
