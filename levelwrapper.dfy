/** Level support for any `telemetry.Logger` (level/level.go): a wrapper
    holds the wrapped logger and a level cell that decoration shares and
    `New` forks. */
module LevelWrapper {
  import opened Wrappers
  import opened Levels
  import opened KeyValues

  /** What the wrapped logger's own `With`, `Context` and `Metric` were given. */
  datatype Decoration =
    | DecorateWith(kvs: seq<Value>)
    | DecorateContext(ctx: Context)
    | DecorateMetric(metric: Metric)

  /** A wrapped `telemetry.Logger`, kept abstract: the implementation it
      started as and the decorations applied to it since, in order. */
  datatype Backend = Backend(root: nat, decorations: seq<Decoration>)

  /** The `wrapper` struct: the wrapped logger and its shared level cell. */
  datatype Wrapper = Wrapper(logger: Backend, lvl: LevelCell)

  /** What an installer hands over: a logger without level support, or one
      that already has it. */
  datatype AnyLogger = Plain(backend: Backend) | Leveled(wrapper: Wrapper)

  datatype Method = DebugMethod | InfoMethod | ErrorMethod

  /** A call the wrapper forwards to the wrapped logger. */
  datatype Forward = Forward(target: Backend, call: Method, msg: string, err: Option<nat>, pairs: seq<Value>)

  /** The level key/value prefixes `DebugLevel`, `InfoLevel`, `ErrorLevel`. */
  const DebugLevel: seq<Value> := [Str("level"), Str("debug")]
  const InfoLevel: seq<Value> := [Str("level"), Str("info")]
  const ErrorLevel: seq<Value> := [Str("level"), Str("error")]

  /** The three levels a wrapper can store. */
  predicate IsStorable(v: Level) {
    v == LevelError || v == LevelInfo || v == LevelDebug
  }

  /** The `SetLevel` clamp: the greatest storable level not above `v`, and
      Error for anything below Info, None and negative values included; None
      is never produced. */
  function Clamp(v: Level): (r: Level)
    ensures IsStorable(r)
    ensures v >= LevelError ==> r <= v
    ensures forall d: Level :: IsStorable(d) && d <= v ==> d <= r
    ensures v < LevelInfo ==> r == LevelError
  {
    if v < LevelInfo then LevelError
    else if v < LevelDebug then LevelInfo
    else LevelDebug
  }

  /** Clamping leaves exactly the storable levels in place. */
  lemma ClampFixesStorable(v: Level)
    ensures Clamp(v) == v <==> IsStorable(v)
  {
  }

  /** `Wrap`: a logger with level support is returned as it is; any other
      gets a new cell starting at Debug. */
  method Wrap(l: AnyLogger) returns (w: Wrapper)
    ensures l.Leveled? ==> w == l.wrapper
    ensures l.Plain? ==> w.logger == l.backend && fresh(w.lvl) && w.lvl.value == LevelDebug
  {
    if l.Leveled? {
      return l.wrapper;
    }
    var cell := new LevelCell(LevelDebug);
    w := Wrapper(l.backend, cell);
  }

  /** `Level`: the value in the shared cell, whichever wrapper holding that
      cell it is read through. */
  function Level(w: Wrapper): (r: Level)
    reads w.lvl
    ensures r == w.lvl.value
  {
    w.lvl.value
  }

  /** `SetLevel`: stores the clamped level in the shared cell, so every wrapper
      holding that cell reports it and no other cell changes. */
  method SetLevel(w: Wrapper, v: Level)
    modifies w.lvl
    ensures Level(w) == Clamp(v)
    ensures IsStorable(Level(w))
  {
    w.lvl.value := Clamp(v);
  }

  /** The gate `level >= call level` followed by the level prefix. */
  function Gate(w: Wrapper, at: Level, m: Method, prefix: seq<Value>, msg: string, err: Option<nat>, kvs: seq<Value>): Option<Forward>
    reads w.lvl
  {
    if w.lvl.value >= at then Some(Forward(w.logger, m, msg, err, prefix + kvs)) else None
  }

  /** `Debug`: forwarded with `("level", "debug")` ahead of the call's pairs,
      exactly when the cell is at least Debug. */
  function Debug(w: Wrapper, msg: string, kvs: seq<Value>): (r: Option<Forward>)
    reads w.lvl
    ensures r.Some? <==> Level(w) >= LevelDebug
    ensures r.Some? ==> r.value == Forward(w.logger, DebugMethod, msg, None, DebugLevel + kvs)
  {
    Gate(w, LevelDebug, DebugMethod, DebugLevel, msg, None, kvs)
  }

  /** `Info`: forwarded with `("level", "info")` exactly when the cell is at
      least Info. */
  function Info(w: Wrapper, msg: string, kvs: seq<Value>): (r: Option<Forward>)
    reads w.lvl
    ensures r.Some? <==> Level(w) >= LevelInfo
    ensures r.Some? ==> r.value == Forward(w.logger, InfoMethod, msg, None, InfoLevel + kvs)
  {
    Gate(w, LevelInfo, InfoMethod, InfoLevel, msg, None, kvs)
  }

  /** `Error`: forwarded with the error and `("level", "error")` exactly when
      the cell is at least Error. */
  function Error(w: Wrapper, msg: string, err: Option<nat>, kvs: seq<Value>): (r: Option<Forward>)
    reads w.lvl
    ensures r.Some? <==> Level(w) >= LevelError
    ensures r.Some? ==> r.value == Forward(w.logger, ErrorMethod, msg, err, ErrorLevel + kvs)
  {
    Gate(w, LevelError, ErrorMethod, ErrorLevel, msg, err, kvs)
  }

  /** The gates are nested: whatever Debug forwards Info forwards, whatever
      Info forwards Error forwards; once the level was set at all, Error
      always forwards. */
  lemma GatesNested(w: Wrapper, msg: string, err: Option<nat>, kvs: seq<Value>)
    ensures Debug(w, msg, kvs).Some? ==> Info(w, msg, kvs).Some?
    ensures Info(w, msg, kvs).Some? ==> Error(w, msg, err, kvs).Some?
    ensures IsStorable(Level(w)) ==> Error(w, msg, err, kvs).Some?
  {
  }

  /** `With`: the wrapped logger decorated with the pairs, the same cell. */
  function With(w: Wrapper, kvs: seq<Value>): (r: Wrapper)
    ensures r.lvl == w.lvl && r.logger.root == w.logger.root
    ensures r.logger.decorations == w.logger.decorations + [DecorateWith(kvs)]
  {
    Wrapper(Backend(w.logger.root, w.logger.decorations + [DecorateWith(kvs)]), w.lvl)
  }

  /** `Context`: the wrapped logger given the context, the same cell. */
  function Context(w: Wrapper, ctx: KeyValues.Context): (r: Wrapper)
    ensures r.lvl == w.lvl && r.logger.root == w.logger.root
    ensures r.logger.decorations == w.logger.decorations + [DecorateContext(ctx)]
  {
    Wrapper(Backend(w.logger.root, w.logger.decorations + [DecorateContext(ctx)]), w.lvl)
  }

  /** `Metric`: the wrapped logger given the metric, the same cell. */
  function Metric(w: Wrapper, m: KeyValues.Metric): (r: Wrapper)
    ensures r.lvl == w.lvl && r.logger.root == w.logger.root
    ensures r.logger.decorations == w.logger.decorations + [DecorateMetric(m)]
  {
    Wrapper(Backend(w.logger.root, w.logger.decorations + [DecorateMetric(m)]), w.lvl)
  }

  /** `New`: the wrapped logger reset to a background context, with a new cell
      holding the current level; the two cells are independent afterwards. */
  method New(w: Wrapper) returns (r: Wrapper)
    ensures r.logger == Backend(w.logger.root, w.logger.decorations + [DecorateContext(Background)])
    ensures fresh(r.lvl) && Level(r) == Level(w)
  {
    var cell := new LevelCell(w.lvl.value);
    r := Wrapper(Context(w, Background).logger, cell);
  }

  /** Decoration shares the level. `d` is `w` given a context and pairs;
      `seen` is what `w` reports right after the level `v` was set through
      `d`, and afterwards the level `u` set on `w` is what `d` reports. */
  method DecoratedSharesLevel(w: Wrapper, kvs: seq<Value>, ctx: KeyValues.Context, v: Level, u: Level)
    returns (d: Wrapper, seen: Level)
    modifies w.lvl
    ensures d == With(Context(w, ctx), kvs)
    ensures seen == Clamp(v)
    ensures Level(w) == Clamp(u) && Level(d) == Clamp(u)
  {
    d := With(Context(w, ctx), kvs);
    SetLevel(d, v);
    seen := Level(w);
    SetLevel(w, u);
  }

  /** `New` forks the level. `n` is the new wrapper; `kept` is what `w`
      reports right after the level `v` was set on `n`, and afterwards the
      level `u` set on `w` leaves `n` at `v`'s clamp. */
  method NewForksLevel(w: Wrapper, v: Level, u: Level) returns (n: Wrapper, kept: Level)
    modifies w.lvl
    ensures fresh(n.lvl)
    ensures n.logger == Backend(w.logger.root, w.logger.decorations + [DecorateContext(Background)])
    ensures kept == old(Level(w))
    ensures Level(n) == Clamp(v) && Level(w) == Clamp(u)
  {
    n := New(w);
    SetLevel(n, v);
    kept := Level(w);
    SetLevel(w, u);
  }
}
