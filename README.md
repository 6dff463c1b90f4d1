# telemetry core, modelled in Dafny

This project models the core of `tetratelabs/telemetry`, a Go library of
logging and metric interfaces, and proves properties of the model:

- **Levels** (`level.go`): the four log levels `none`, `error`, `info` and
  `debug`, and the two-way lookup between levels and their names.
- **Key/value context** (`logger.go`): `KeyValuesToContext` appends padded
  pairs to the list a `context.Context` carries; `KeyValuesFromContext`
  reads that list back.
- **Level wrapper** (`level/level.go`): `Wrap` gives any logger a level
  cell. Decoration (`With`, `Context`, `Metric`) shares that cell, `New`
  forks it, `SetLevel` clamps, and `Debug`/`Info`/`Error` are gated on the
  cell and prefix the level pair.
- **Function logger** (`function/logger.go`): a reference logger that hands
  every emitted line to a user `Emit` function. It has per-scope levels
  inferred from a `"scope"` pair, a level cell shared by clones, metric
  recording on `Info`/`Error`, and pair filtering in `With`.
- **Scope registry** (`scope/scope.go`): named loggers that can be
  registered and decorated before any backend exists. Decorations made
  before bind are recorded as pending scopes. `UseLogger` installs the
  backend once and replays every name's pending scopes, in order, onto one
  fork of it.
- **Level configuration** (`group/service.go`): `Validate` parses a command
  such as `info,http:debug` token by token into registry actions and
  accumulated errors.
- **Global metric sink** (`global_metricsink.go`): callbacks are queued
  until a sink is set and then invoked exactly once, in order.

Each Go file has its own module: `Levels`, `KeyValues`, `LevelWrapper`,
`FunctionLogger`, `Scopes`, `Group` and `GlobalMetricSink`. `Strings` holds
the subset of Go's `strings` package the core uses (`Trim` with the cutset
`"\r\n\t "`, `ToLower`, `ContainsAny`, `Split`), and `Wrappers` holds
`Option`.

The models take the following forms:
- State the Go code updates in place is a class: level cells, the function
  logger, scope objects, the registry's package variables, the metric-sink
  package variables and the group service.
- Loops in the Go code are loops here:
  - the scope scan and the pair filter of the function logger;
  - the pre-bind `With` loop;
  - the two nested replay loops of `UseLogger`;
  - the token loop of `Validate`;
  - the callback drain.
- Each loop is proved against a specification function: `ScopeOf`,
  `StringKeyedPairs`, `Accumulate`/`Effective`, `Gather` and `InvokeAll`.

A Go `*int32` level is a `Levels.LevelCell`. A `telemetry.Logger` being
wrapped is abstract: `LevelWrapper.Backend` records the implementation it
started as and every decoration applied to it since.

## Model

| member | source | states |
|---|---|---|
| Levels.LevelString | level.go:28-45 | The name of a level is non-empty exactly for the four defined levels, and it is their own name (`none`, `error`, `info`, `debug`). Any other value gives the zero string. |
| Levels.FromLevel | level.go:36-51 | `ok` holds exactly for the four level names. The result is then the level whose name is the input. A non-name gives `LevelNone` with `ok` false. |
| Levels.FromLevelString | level.go:28-51 | For every defined level, looking up its name gives back the level with `ok` true. |
| KeyValues.Padded | logger.go:76-78 | The list becomes even. Only a `"(MISSING)"` value is appended, and only to an odd list. The given pairs stay in front. |
| KeyValues.StringKeyedPairsShape | function/logger.go:175-179 | The pairs kept by the string-key filter form an even list whose every key is a string. The list is never longer than its input. |
| KeyValues.StringKeyedPairsAllStrings | function/logger.go:175-179 | A list whose every key is a string passes the filter whole. |
| KeyValues.KeyValuesFromContext | logger.go:84-91 | A context with nothing stored yields the empty list. Otherwise the result is the stored list. |
| KeyValues.KeyValuesToContext | logger.go:68-82 | With no pairs the context itself is returned. Otherwise the result is a derived context (same other contents) whose stored list is the old list followed by the padded pairs. |
| KeyValues.ContextRoundTrip | logger.go:72-91 | Storing an even list into a background context and reading it back gives exactly that list. |
| KeyValues.ContextStaysEven | logger.go:76-81 | An even stored list stays even after any `KeyValuesToContext`. |
| KeyValues.StoreAllAppends | logger.go:79-81 | After any sequence of calls, the stored list is the original followed by each call's padded pairs, in order. The rest of the context is unchanged. |
| LevelWrapper.Clamp | level/level.go:128-137 | The clamp yields Error, Info or Debug (never None). The result is the greatest of those not above the input, and Error for anything below Info, None and negative values included. |
| LevelWrapper.ClampFixesStorable | level/level.go:128-137 | Clamping leaves a level in place exactly when it is Error, Info or Debug. |
| LevelWrapper.Wrap | level/level.go:57-69 | A logger with level support is returned as it is. Any other logger is wrapped with a new cell, independent of every other cell, that starts at Debug. |
| LevelWrapper.Level | level/level.go:139-141 | Definition: the value held in the wrapper's shared cell, so every wrapper on that cell reads the same level. |
| LevelWrapper.SetLevel | level/level.go:128-141 | Afterwards `Level` reports the clamped level, in the shared cell. |
| LevelWrapper.Debug | level/level.go:78-83 | The call is forwarded exactly when the cell is at least Debug, to the wrapped logger, with `("level","debug")` prepended to the pairs. |
| LevelWrapper.Info | level/level.go:85-90 | Forwarded exactly when the cell is at least Info, with `("level","info")` prepended. |
| LevelWrapper.Error | level/level.go:92-97 | Forwarded exactly when the cell is at least Error, with the error and `("level","error")` prepended. |
| LevelWrapper.GatesNested | level/level.go:78-97 | What Debug forwards, Info forwards. What Info forwards, Error forwards. Once the cell holds a clamped level, Error always forwards. |
| LevelWrapper.With | level/level.go:99-104 | The wrapped logger gets the pairs appended to its decorations. The cell is the same one. |
| LevelWrapper.Context | level/level.go:106-111 | The wrapped logger gets the context appended to its decorations. The cell is the same one. |
| LevelWrapper.Metric | level/level.go:113-118 | The wrapped logger gets the metric appended to its decorations. The cell is the same one. |
| LevelWrapper.New | level/level.go:120-126 | The wrapped logger is reset to a background context. The new cell is fresh and starts at the current level. |
| LevelWrapper.DecoratedSharesLevel | level/level.go:99-141 | For any wrapper, context, pairs and two levels: the copy given the context and pairs is returned; right after the first level is set through the copy, the original reports its clamp; after the second is set on the original, both report that one's clamp. |
| LevelWrapper.NewForksLevel | level/level.go:120-141 | For any wrapper and two levels: `New` gives a wrapper on a fresh cell over the background-context logger; right after the first level is set on it, the original still reports its old level; after the second is set on the original, the new wrapper still reports the first level's clamp. |
| FunctionLogger.ClampLevel | function/logger.go:139-150 | The clamp yields a defined level: the greatest one not above the input, and None for anything below Error, negative values included. |
| FunctionLogger.ClampFixesDefined | function/logger.go:139-150 | Clamping leaves a level in place exactly when it is defined. |
| FunctionLogger.ScopeOfFirstMatch | function/logger.go:217-231 | The inferred scope is the string value after the first `"scope"` key that is followed by a string value. |
| FunctionLogger.ScopeOfNoMatch | function/logger.go:217-231 | Without such a key, the inferred scope is empty. |
| FunctionLogger.Logger.NewLogger | function/logger.go:69-78 | A new logger starts at Info, in a cell of its own. It has no pairs, a background context, no metric and no per-scope levels. |
| FunctionLogger.Logger.Level | function/logger.go:130-137 | The result is the level stored for the logger's inferred scope when there is one, and the shared cell otherwise. It is always a defined level. |
| FunctionLogger.Logger.Scope | function/logger.go:217-231 | The loop returns the inferred scope `ScopeOf(args)`. |
| FunctionLogger.Logger.SetLevel | function/logger.go:139-158 | Afterwards the logger reports the clamped level. Without a scope only the shared cell changes; with a scope only that scope's entry in the per-scope table changes. |
| FunctionLogger.Logger.Enabled | function/logger.go:160-162 | Definition: true exactly when an emit function is set and the call's level is at most `Level()`. |
| FunctionLogger.Logger.EnabledNested | function/logger.go:80-116 | The three gates nest: enabled at Debug implies Info, Info implies Error, and a valid logger with an emit function is enabled at None. |
| FunctionLogger.Logger.Emission | function/logger.go:118-128 | Definition of the record `emit` builds: it holds the call's level, message and error. Its values are the context's pairs, the logger's pairs and the call's pairs, kept apart and unfiltered. |
| FunctionLogger.Logger.Debug | function/logger.go:80-86 | A record is emitted exactly when an emit function is set and Debug is within the level. The metric is never touched. |
| FunctionLogger.Logger.Info | function/logger.go:88-99 | The metric records the logger's context exactly once, whatever the level. A record is emitted exactly when enabled at Info. |
| FunctionLogger.Logger.Error | function/logger.go:101-116 | The metric records exactly once. The error is emitted exactly when enabled at Error. |
| FunctionLogger.Logger.Clone | function/logger.go:201-215 | The clone is a new logger that copies the pairs and the per-scope table. It shares the context, metric, emit function and the level cell itself. |
| FunctionLogger.Logger.With | function/logger.go:164-182 | No pairs gives the receiver itself. Otherwise the result is a new logger whose pairs are the receiver's followed by the string-keyed pairs of the padded input. Everything else is carried over. |
| FunctionLogger.Logger.Context | function/logger.go:184-190 | The result is a new logger with the given context. Everything else is carried over. |
| FunctionLogger.Logger.Metric | function/logger.go:192-199 | The result is a new logger with the given metric (nil included). Everything else is carried over. |
| FunctionLogger.CloneSharesLevel | function/logger.go:139-215 | For any valid logger without a scope and any pairs that add no scope: the logger derived with `With` and that logger's clone share the logger's cell, and a level set on the logger afterwards is what all three report, clamped. |
| Strings.ContainsAny | scope/scope.go:190-192 | True exactly when some character of the string is in the set. |
| Strings.Trim | scope/scope.go:197 | Only cutset characters are removed, from the front and the back. The result neither starts nor ends with one. |
| Strings.ToLower | scope/scope.go:197 | Each character is lower-cased, and no upper-case letter remains. |
| Strings.Split | group/service.go:86-92 | The result is never empty, no piece holds the separator, and joining the pieces with the separator gives the input back. |
| Strings.SplitJoin | group/service.go:86-92 | Splitting a join of separator-free pieces gives the pieces back. |
| Scopes.Normalize | scope/scope.go:197 | A normalized name is no longer than the input, has no upper-case letter, and neither starts nor ends with a cutset character. |
| Scopes.NormalizeIdempotent | scope/scope.go:197-222 | Normalizing twice is normalizing once, so `Find` with a registered name finds it. |
| Scopes.Scope.Debug | scope/scope.go:70-78 | The call is forwarded exactly when the scope is bound and its level is at least Debug. The pairs are passed as one value. The panic follows the uninitialized-use flag alone, bound or not. |
| Scopes.Scope.Info | scope/scope.go:80-88 | Forwarded to the bound logger's `Debug`, so gated at Debug, with the pairs as one value. The panic follows the flag alone. |
| Scopes.Scope.Error | scope/scope.go:90-98 | Forwarded exactly when bound and the level is at least Error, with the pairs spread. The panic follows the flag alone. |
| Scopes.Scope.With | scope/scope.go:100-127 | No pairs gives the scope itself. Bound, the result is the bound logger decorated with the padded pairs as one value. Unbound, the result is a new pending scope: `len(kvs)` slots filled from the new pairs, then the string-keyed new pairs. It is appended to its name's pending list. |
| Scopes.Scope.AppendStringKeyed | scope/scope.go:119-123 | The loop appends exactly the string-keyed pairs, in order. |
| Scopes.CopyInto | scope/scope.go:114-118 | Definition of Go's `copy` into `n` new slots: the first filled from the source, the rest nil. |
| Scopes.Scope.Context | scope/scope.go:129-145 | Bound, the result is the bound logger given the context. Unbound, it is a new pending scope with a copy of the pairs, the given context and the same metric, appended to its name's pending list. |
| Scopes.Scope.Metric | scope/scope.go:147-163 | Bound, the result is the bound logger given the metric. Unbound, it is a new pending scope that keeps the scope's own metric (the argument is unused), appended to its name's pending list. |
| Scopes.Scope.New | scope/scope.go:165-171 | Unbound, the result is the scope itself. Bound, it is the bound logger's `New`: a fresh cell at the same level. |
| Scopes.Scope.SetLevel | scope/scope.go:173-178 | Bound, afterwards the level is the clamped one. Unbound, nothing changes. |
| Scopes.Scope.Level | scope/scope.go:180-186 | Bound, the result is the bound logger's level. Unbound, it is None. |
| Scopes.AccumulateDecorations | scope/scope.go:325-341 | The replayed logger is the base backend with every entry's context, metric and pairs appended, in order. It keeps the base's cell, so nothing recorded before bind is lost. |
| Scopes.Effective | scope/scope.go:325-341 | Definition of the entries the replay loop sees: a scope listed several times has its decorations at its first occurrence and empty entries at the later ones, because replay already cleared them. `Replay` and `ReplayStep` prove the loop sees exactly these entries. |
| Scopes.Decorate | scope/scope.go:328-336 | One replay step applies the scope's context, then its metric, then its pairs, each only when present. |
| Scopes.Bind | scope/scope.go:337-340 | The scope is bound to the logger and its decorations are cleared. |
| Scopes.Replay | scope/scope.go:326-341 | After the inner loop, every scope of the list is bound on the base's cell with its decorations cleared. The scope at each last occurrence holds the accumulation of the effective entries up to and including it. |
| Scopes.BindName | scope/scope.go:326-341 | One pending list is replayed onto a fresh fork of the default logger (`New`), at the default's level. Other cells are unchanged. |
| Scopes.BindAll | scope/scope.go:325-342 | Every pending name gets a distinct fresh cell, and every listed scope is bound on its name's cell. The last occurrences hold their accumulated loggers. |
| Scopes.Registry.constructor | scope/scope.go:30-43 | The initial state has no scopes, an empty pending table, no default logger and the flag off. |
| Scopes.Registry.Register | scope/scope.go:188-214 | A raw name with `:`, `,` or `.` gives nil and changes nothing. Otherwise the scope of the normalized name is returned and `Find` finds it. An existing scope is returned unchanged. A new one is fresh and, after bind, bound at once to a fork of the default logger. Before bind the scope is appended to its name's pending list, even on re-register. |
| Scopes.Registry.AddPendingScope | scope/scope.go:199-211 | Before bind, a new scope for an unused name is created unbound and listed as pending under its name. |
| Scopes.Registry.AddBoundScope | scope/scope.go:199-208 | After bind, a new scope gets a fresh fork of the default logger at the default's level. |
| Scopes.Registry.Requeue | scope/scope.go:209-211 | Before bind, an existing scope is appended again to its name's pending list. |
| Scopes.Registry.Find | scope/scope.go:216-223 | A scope is found exactly when the normalized name is registered, and it is that name's scope. |
| Scopes.Registry.List | scope/scope.go:225-236 | The fresh map built by the loop has exactly the table's entries. |
| Scopes.Registry.Names | scope/scope.go:238-249 | Every registered name appears exactly once and nothing else appears. |
| Scopes.Registry.SetDefaultLevel | scope/scope.go:283-291 | Bound, afterwards the default level is the clamped one. Unbound, nothing changes. |
| Scopes.Registry.DefaultLevel | scope/scope.go:293-299 | Bound, the result is the default logger's level. Unbound, it is None. |
| Scopes.Registry.UseLogger | scope/scope.go:301-344 | Nil, or any call once a default logger exists, changes nothing. The first real call installs the logger, wrapped at Debug if it lacks level support, and sets the pending table to nil. Every scope is then bound, with decorations cleared, on a fresh cell per name at the default's level. Each last occurrence in a pending list holds the accumulation of that list, in order, onto the name's fork of the default logger. |
| Scopes.Registry.Install | scope/scope.go:316-343 | The binding half of `UseLogger`: the same end state, in terms of the decorations recorded beforehand. |
| Group.ParseToken | group/service.go:91-114 | An applied action always carries a defined level, and a scope action only a registered name. Level and pair errors quote the token. A scope error names a scope that is not registered. A pair error is given exactly when the token holds more than one `:`. |
| Group.BareToken | group/service.go:94-100 | A token without `:` sets the default level exactly when its trimmed text is a level name. Otherwise it yields one invalid-level error. |
| Group.PairToken | group/service.go:101-111 | In `scope:level`, an unknown level yields one invalid-level error and the scope is not looked at. With a known level, a registered scope gets that level and an unregistered one yields one error. |
| Group.Service.constructor | group/service.go:48-56 | A new service holds an empty command. |
| Group.Service.Validate | group/service.go:82-118 | The command is lower-cased in place. The results are those of every comma-separated token, in order, as `Gather` of `ParseToken` defines them. |
| Group.ProcessTokens | group/service.go:91-115 | The loop over the tokens gathers the step of every token, in order: the actions of the good tokens and the errors of the bad ones. |
| Group.GatherStep | group/service.go:91-115 | One more token adds its action or its error at the end of what was gathered before it. |
| Group.GatherCounts | group/service.go:91-115 | Every token contributes exactly one action or exactly one error. |
| Group.GatherNoErrors | group/service.go:84-117 | The error result is nil exactly when every token is good. |
| Group.GatherConcat | group/service.go:91-115 | Nothing is short-circuited: the results of a command are the results of its parts, concatenated in order. |
| Group.RenderParse | group/service.go:91-111 | Parsing the text of an expressible action (`level` or `scope:level`) gives the action back. |
| Group.CommandRoundTrip | group/service.go:86-117 | Validating the comma-joined text of expressible actions yields exactly those actions, in order, and a nil error. |
| Group.FindIface | scope/scope.go:216-223 | As written, `Find`'s result is never the nil interface. It points to a scope exactly when the normalized name is registered. |
| Group.ParseTokenAsWritten | group/service.go:101-111 | The code as written agrees with `ParseToken` except that an unregistered scope dereferences a nil `*scope` instead of yielding its error. |
| Group.NoUnregisteredScopeError | group/service.go:107-111 | As written, the "not a registered scope" error is never produced. |
| Group.UnregisteredScopeDereferences | group/service.go:107-111 | Every token the intended parser reports as an unregistered scope calls `SetLevel` on a nil `*scope` as written. |
| Group.NoSuchScopeDereferences | group/service.go:107-111 | With nothing registered, `nosuch:debug` shows the difference. |
| GlobalMetricSink.SinkRegistry.constructor | global_metricsink.go:26-30 | No sink, nothing queued and nothing invoked. |
| GlobalMetricSink.SinkRegistry.SetGlobalMetricSink | global_metricsink.go:32-43 | The sink is stored (nil included, and not one-shot). Every queued callback is invoked once, in registration order, with that sink. The queue is emptied. Every registered callback has now been invoked exactly once, in order. |
| GlobalMetricSink.SinkRegistry.ToGlobalMetricSink | global_metricsink.go:45-58 | With a sink set, the callback is invoked at once with it and not queued. Otherwise it is queued and not invoked. The invariant that every registered callback was invoked once in order, or is still queued after the invoked ones, is preserved. |

## Findings

| source | as written | input that shows it | evidently intended | confidence | as-written member | corrected member |
|---|---|---|---|---|---|---|
| scope/scope.go:217-222 with group/service.go:107-111 | `Find` returns the map's `*scope` as a `level.Logger`. A missing name therefore gives a non-nil interface holding a nil `*scope`, `s != nil` always holds, and `s.SetLevel` dereferences that nil `*scope`. | `Validate` of `nosuch:debug` with no scope `nosuch` registered | the error `"nosuch" is not a registered scope` | high (not executed) | Group.ParseTokenAsWritten, Group.NoSuchScopeDereferences | Group.ParseToken, Group.PairToken |

`Scopes.Registry.Find` returns an `Option`, which is the intended nil. The
rest of the model (`Group.Service.Validate`) uses the corrected parser.

## Left out

- Concurrency: the package mutexes, `sync/atomic` and `sync.Map` are plain sequential fields and maps. `copySyncMap` is a map copy, since level values are never nested maps.
- Output: writing log lines (the user `Emit` function, formatting) is left out, and so is `PrintRegistered`, which only prints the table to standard output. An emitted line is the `Record` handed to `Emit`.
- Metric values: metric backends and floating-point values are left out. `RecordContext(ctx, 1)` is modelled as the list of contexts recorded.
- Callbacks: the code behind a metric-sink callback is not visible. A call into it is recorded as an invocation in a trace.
- Framework wiring: `group.New`, `Name` and `FlagSet` (including the `"info"` default flag value) depend on the `run` framework and are left out. The `multierror` value is the sequence of errors.
- Group.Service.Validate: the `SetDefaultLevel`/`SetLevel` calls are returned as a list of actions in command order instead of being performed on the scope registry. The registry is represented by the set of registered normalized names.
- Group.Service.Validate: the early return for an empty token list is not modelled, because `strings.Split` never returns an empty list (`Strings.Split`) and the branch cannot be taken.
- `RemoveKeyValuesFromContext` is not part of this model: `logger_test.go` uses it, but `logger.go` does not define it.
- Files with no behaviour to state: `metric.go`, `noop.go`, `noop_logger.go`, `level/noop_logger.go` and `doc.go`.
- Tests that disagree with the source are not modelled; the source is:
  - `function/logger_test.go` expects clones with independent levels, but `Clone` shares the cell.
  - `scope/scope_test.go` uses a two-result `Find` and expects a seeded `("scope", name)` pair.
- Strings.ToLower: only ASCII letters are mapped. Go's Unicode case mapping is not modelled, and no normalization applies.
- Strings: Go strings are byte sequences and are modelled as sequences of characters. Only single-character separators and the one cutset the core uses are modelled.
- Go `interface{}` values keep only what the core inspects: nil, a string, some other value, or a list. The list is needed because the scope logger passes a whole pair slice as one value.
- Nil contexts and nil metrics handed to the scope logger: a context is always a value, and a metric is optional only where the source tests it for nil.
- Go's slice aliasing (`append` onto a shared backing array) is not modelled. Every list is a value. One consequence: `KeyValuesToContext` appends to the parent context's stored slice (logger.go:79-81), so two contexts derived from the same parent can overwrite each other's new pairs when that slice has spare capacity (6 items in an array of capacity 8, say). `KeyValues.StoreAllAppends` and `KeyValues.ContextRoundTrip` state the contents each context has when it is created; they do not cover such a later overwrite.
- `DebugLevel`, `InfoLevel` and `ErrorLevel` are package variables that callers could reassign; they are constants here.
- The wrapped `telemetry.Logger` is abstract. Only its implementation identity and the decorations applied to it are kept. Every `level.Logger` handed to `Wrap` or `UseLogger` is modelled as a level wrapper (the `Leveled` case of `LevelWrapper.AnyLogger`), so its `New`, `With`, `Context`, `Metric` and `SetLevel` are taken to behave as the wrapper's do, as the interface comments ask of implementations (level/level.go:40-54); another implementation that breaks those comments is not modelled.
- Scopes.Registry.UseLogger: the `cells` result is ghost. It names the fresh level cell each pending name was bound to, and states which cell each scope ends on.
- Scopes.Registry.Names: the order of Go map iteration is left open. The contract states the set of names and that there are no duplicates, not an order.
