/** The level-configuration parser of the run-group service
    (group/service.go): a command such as `"info,http:debug"` is lower-cased,
    cut into comma-separated tokens, and every token either sets the default
    level (`level`), sets one registered scope's level (`scope:level`) or
    adds exactly one error; errors are collected, never short-circuited.
    The registry is abstract here: the set of registered (normalized) scope
    names, and the effects are returned as actions in command order. */
module Group {
  import opened Wrappers
  import opened Levels
  import opened Strings
  import Scopes

  /** The errors `Validate` accumulates, each naming the text it reports. */
  datatype ConfigError =
    | InvalidLevel(token: string)
    | UnregisteredScope(name: string)
    | InvalidPair(token: string)

  /** The registry effects: `SetDefaultLevel`, or `SetLevel` on the scope that
      `Find` returns (named here by its normalized name). */
  datatype Action =
    | SetDefault(lvl: Level)
    | SetScope(name: string, lvl: Level)

  /** What one token yields: one action or one error, never both. */
  datatype Step = Act(action: Action) | Fail(err: ConfigError)

  /** One token of the command. A token without `:` names the default level;
      `scope:level` names a scope's level, the level being checked before the
      scope is looked up; more than one `:` is a malformed pair. Levels are
      trimmed of `"\r\n\t "` before the lookup. */
  function ParseToken(ol: string, registered: set<string>): (r: Step)
    ensures r.Act? ==> IsDefined(r.action.lvl)
    ensures r.Act? && r.action.SetScope? ==> r.action.name in registered
    ensures r.Fail? && (r.err.InvalidLevel? || r.err.InvalidPair?) ==> r.err.token == ol
    ensures r.Fail? && r.err.UnregisteredScope? ==> Scopes.Normalize(r.err.name) !in registered
    ensures r.Fail? && r.err.InvalidPair? ==> |Split(ol, ':')| > 2
    ensures |Split(ol, ':')| > 2 ==> r == Fail(InvalidPair(ol))
  {
    var osl := Split(ol, ':');
    if |osl| == 1 then
      var (lvl, ok) := FromLevel(Trim(ol));
      if !ok then Fail(InvalidLevel(ol)) else Act(SetDefault(lvl))
    else if |osl| == 2 then
      var (lvl, ok) := FromLevel(Trim(osl[1]));
      if !ok then Fail(InvalidLevel(ol))
      else if Scopes.Normalize(osl[0]) in registered then Act(SetScope(Scopes.Normalize(osl[0]), lvl))
      else Fail(UnregisteredScope(osl[0]))
    else Fail(InvalidPair(ol))
  }

  /** The step of every token, in order. */
  function Steps(tokens: seq<string>, registered: set<string>): (r: seq<Step>)
    ensures |r| == |tokens|
    ensures forall i :: 0 <= i < |tokens| ==> r[i] == ParseToken(tokens[i], registered)
  {
    seq(|tokens|, i requires 0 <= i < |tokens| => ParseToken(tokens[i], registered))
  }

  /** What a list of steps amounts to: the actions of the good tokens and
      the errors of the bad ones, each in token order. */
  function Gather(steps: seq<Step>): (seq<Action>, seq<ConfigError>)
    decreases |steps|
  {
    if steps == [] then ([], []) else Push(Gather(steps[..|steps| - 1]), steps[|steps| - 1])
  }

  /** One more token's step added to the results so far. */
  function Push(g: (seq<Action>, seq<ConfigError>), step: Step): (seq<Action>, seq<ConfigError>) {
    match step
    case Act(a) => (g.0 + [a], g.1)
    case Fail(e) => (g.0, g.1 + [e])
  }

  /** The `service` struct: the flag value the command is read from. */
  class Service {
    var outputLevels: string

    constructor ()
      ensures outputLevels == ""
    {
      outputLevels := "";
    }

    /** `Validate`: lower-cases the stored command, then processes every
        comma-separated token; the error result is nil iff `errs` is empty.
        `strings.Split` never returns an empty list, so the early return for
        an empty token list cannot be taken and is not modelled. */
    method Validate(registered: set<string>) returns (actions: seq<Action>, errs: seq<ConfigError>)
      modifies this
      ensures outputLevels == ToLower(old(outputLevels))
      ensures (actions, errs) == Gather(Steps(Split(outputLevels, ','), registered))
    {
      outputLevels := ToLower(outputLevels);
      var tokens := Split(outputLevels, ',');
      actions, errs := ProcessTokens(tokens, registered);
    }
  }

  /** The loop of `Validate` over the comma-separated tokens. */
  method ProcessTokens(tokens: seq<string>, registered: set<string>) returns (actions: seq<Action>, errs: seq<ConfigError>)
    ensures (actions, errs) == Gather(Steps(tokens, registered))
  {
    ghost var steps := Steps(tokens, registered);
    actions, errs := [], [];
    var i := 0;
    while i < |tokens|
      invariant 0 <= i <= |tokens|
      invariant (actions, errs) == Gather(steps[..i])
    {
      var step := ParseToken(tokens[i], registered);
      assert step == steps[i];
      GatherStep(steps, i);
      match step {
        case Act(a) =>
          actions := actions + [a];
        case Fail(e) =>
          errs := errs + [e];
      }
      i := i + 1;
    }
    assert steps[..i] == steps;
  }

  /** Gathering one more step pushes it onto what was gathered. */
  lemma GatherStep(steps: seq<Step>, i: nat)
    requires i < |steps|
    ensures Gather(steps[..i + 1]) == Push(Gather(steps[..i]), steps[i])
  {
    assert steps[..i + 1][..i] == steps[..i];
  }

  /** Every token contributes exactly one action or exactly one error. */
  lemma {:induction false} GatherCounts(steps: seq<Step>)
    ensures |Gather(steps).0| + |Gather(steps).1| == |steps|
    decreases |steps|
  {
    if steps != [] {
      GatherCounts(steps[..|steps| - 1]);
    }
  }

  /** The result is nil exactly when every token is good. */
  lemma {:induction false} GatherNoErrors(steps: seq<Step>)
    ensures Gather(steps).1 == [] <==> forall i :: 0 <= i < |steps| ==> steps[i].Act?
    decreases |steps|
  {
    if steps != [] {
      var init := steps[..|steps| - 1];
      GatherNoErrors(init);
      assert forall i :: 0 <= i < |init| ==> init[i] == steps[i];
    }
  }

  /** Nothing is short-circuited: the tokens after a bad one are processed as
      if it were not there, so the results of a command are the results of
      its parts, concatenated in order. */
  lemma {:induction false} GatherConcat(xs: seq<Step>, ys: seq<Step>)
    ensures Gather(xs + ys) == (Gather(xs).0 + Gather(ys).0, Gather(xs).1 + Gather(ys).1)
    decreases |ys|
  {
    if ys == [] {
      assert xs + ys == xs;
      var gx := Gather(xs);
      assert gx.0 + [] == gx.0 && gx.1 + [] == gx.1;
    } else {
      var ys' := ys[..|ys| - 1];
      assert (xs + ys)[..|xs + ys| - 1] == xs + ys';
      assert (xs + ys)[|xs + ys| - 1] == ys[|ys| - 1];
      GatherConcat(xs, ys');
      var last := ys[|ys| - 1];
      var gx, gy := Gather(xs), Gather(ys');
      assert Gather(xs + ys) == Push((gx.0 + gy.0, gx.1 + gy.1), last);
      assert Gather(ys) == Push(gy, last);
      match last
      case Act(a) =>
        assert gx.0 + gy.0 + [a] == gx.0 + (gy.0 + [a]);
      case Fail(e) =>
        assert gx.1 + gy.1 + [e] == gx.1 + (gy.1 + [e]);
    }
  }

  /** A bare token sets the default level iff its trimmed text names a level;
      otherwise it is one invalid-level error. */
  lemma BareToken(ol: string, registered: set<string>)
    requires ':' !in ol
    ensures IsLevelName(Trim(ol)) ==> ParseToken(ol, registered) == Act(SetDefault(FromLevel(Trim(ol)).0))
    ensures !IsLevelName(Trim(ol)) ==> ParseToken(ol, registered) == Fail(InvalidLevel(ol))
  {
    SplitJoin([ol], ':');
  }

  /** A `scope:level` token: an unknown level is one invalid-level error and
      the scope is not looked at; with a known level, a registered scope has
      its level set and an unregistered one is one error. */
  lemma PairToken(sc: string, lv: string, registered: set<string>)
    requires ':' !in sc && ':' !in lv
    ensures !IsLevelName(Trim(lv)) ==> ParseToken(sc + ":" + lv, registered) == Fail(InvalidLevel(sc + ":" + lv))
    ensures IsLevelName(Trim(lv)) && Scopes.Normalize(sc) in registered ==>
      ParseToken(sc + ":" + lv, registered) == Act(SetScope(Scopes.Normalize(sc), FromLevel(Trim(lv)).0))
    ensures IsLevelName(Trim(lv)) && Scopes.Normalize(sc) !in registered ==>
      ParseToken(sc + ":" + lv, registered) == Fail(UnregisteredScope(sc))
  {
    SplitJoin([sc, lv], ':');
    assert Join([sc, lv], ':') == sc + ":" + lv;
  }

  /** The command text of one action. */
  function Render(a: Action): string {
    match a
    case SetDefault(l) => LevelString(l)
    case SetScope(n, l) => n + ":" + LevelString(l)
  }

  /** The command text of a list of actions. */
  function RenderAll(actions: seq<Action>): (r: seq<string>)
    ensures |r| == |actions|
    ensures forall i :: 0 <= i < |actions| ==> r[i] == Render(actions[i])
  {
    seq(|actions|, i requires 0 <= i < |actions| => Render(actions[i]))
  }

  /** An action a command can express: a named level and, for a scope, a
      registered name that is already normalized and holds no separator. */
  predicate Expressible(a: Action, registered: set<string>) {
    && IsDefined(a.lvl)
    && (a.SetScope? ==> a.name in registered && Scopes.Normalize(a.name) == a.name && ':' !in a.name && ',' !in a.name)
  }

  /** Rendering one expressible action and parsing it gives the action back. */
  lemma RenderParse(a: Action, registered: set<string>)
    requires Expressible(a, registered)
    ensures ParseToken(Render(a), registered) == Act(a)
  {
    var ls := LevelString(a.lvl);
    TrimTrimmed(ls);
    FromLevelString(a.lvl);
    match a
    case SetDefault(l) =>
      BareToken(ls, registered);
    case SetScope(n, l) =>
      PairToken(n, ls, registered);
  }

  /** Level names hold no separator and no upper-case letter. */
  lemma LevelNameShape(l: Level)
    requires IsDefined(l)
    ensures ',' !in LevelString(l) && ':' !in LevelString(l)
    ensures forall j :: 0 <= j < |LevelString(l)| ==> !IsUpper(LevelString(l)[j])
  {
  }

  /** A rendered token holds no comma and no upper-case letter. */
  lemma RenderShape(a: Action, registered: set<string>)
    requires Expressible(a, registered)
    ensures ',' !in Render(a)
    ensures forall j :: 0 <= j < |Render(a)| ==> !IsUpper(Render(a)[j])
  {
    LevelNameShape(a.lvl);
    if a.SetScope? {
      PairShape(a.name, LevelString(a.lvl));
    }
  }

  /** The no-comma, no-upper-case shape survives joining with `:`. */
  lemma PairShape(n: string, ls: string)
    requires ',' !in n && ',' !in ls
    requires forall j :: 0 <= j < |n| ==> !IsUpper(n[j])
    requires forall j :: 0 <= j < |ls| ==> !IsUpper(ls[j])
    ensures ',' !in n + ":" + ls
    ensures forall j :: 0 <= j < |n + ":" + ls| ==> !IsUpper((n + ":" + ls)[j])
  {
    var r := n + ":" + ls;
    assert forall j :: 0 <= j < |r| ==> r[j] == if j < |n| then n[j] else if j == |n| then ':' else ls[j - |n| - 1];
  }

  /** Steps that are all good gather to their actions and no error. */
  lemma {:induction false} GatherActs(steps: seq<Step>, actions: seq<Action>)
    requires |steps| == |actions|
    requires forall i :: 0 <= i < |steps| ==> steps[i] == Act(actions[i])
    ensures Gather(steps) == (actions, [])
    decreases |steps|
  {
    if steps != [] {
      GatherActs(steps[..|steps| - 1], actions[..|actions| - 1]);
      assert actions[..|actions| - 1] + [actions[|actions| - 1]] == actions;
    }
  }

  /** A string without upper-case letters is its own lower-casing. */
  lemma ToLowerFixed(s: string)
    requires forall i :: 0 <= i < |s| ==> !IsUpper(s[i])
    ensures ToLower(s) == s
  {
  }

  /** Joined pieces without upper-case letters give a string without them. */
  lemma {:induction false} JoinNoUpper(parts: seq<string>, sep: char)
    requires |parts| >= 1 && !IsUpper(sep)
    requires forall i, j :: 0 <= i < |parts| && 0 <= j < |parts[i]| ==> !IsUpper(parts[i][j])
    ensures forall k :: 0 <= k < |Join(parts, sep)| ==> !IsUpper(Join(parts, sep)[k])
    decreases |parts|
  {
    if |parts| > 1 {
      JoinNoUpper(parts[1..], sep);
      var tail := Join(parts[1..], sep);
      var s := Join(parts, sep);
      assert s == parts[0] + [sep] + tail;
      forall k | 0 <= k < |s| ensures !IsUpper(s[k]) {
        if k < |parts[0]| {
          assert s[k] == parts[0][k];
        } else if k > |parts[0]| {
          assert s[k] == tail[k - |parts[0]| - 1];
        }
      }
    }
  }

  /** The round trip of the command language: a service holding the
      comma-joined rendering of expressible actions validates to exactly
      those actions, in order, with a nil error. */
  lemma CommandRoundTrip(actions: seq<Action>, registered: set<string>)
    requires |actions| >= 1
    requires forall i :: 0 <= i < |actions| ==> Expressible(actions[i], registered)
    ensures Gather(Steps(Split(ToLower(Join(RenderAll(actions), ',')), ','), registered)) == (actions, [])
  {
    var tokens := RenderAll(actions);
    forall i | 0 <= i < |tokens|
      ensures ',' !in tokens[i]
      ensures forall j :: 0 <= j < |tokens[i]| ==> !IsUpper(tokens[i][j])
      ensures ParseToken(tokens[i], registered) == Act(actions[i])
    {
      RenderShape(actions[i], registered);
      RenderParse(actions[i], registered);
    }
    var cmd := Join(tokens, ',');
    JoinNoUpper(tokens, ',');
    ToLowerFixed(cmd);
    SplitJoin(tokens, ',');
    GatherActs(Steps(tokens, registered), actions);
  }

  // ---- `Find` as written, through the interface ----

  /** A `level.Logger` interface value: nil, or one holding a `*scope` that
      may itself be nil (`target` names the scope it points to). */
  datatype LoggerIface = NilIface | ScopePtr(target: Option<string>)

  /** `scope.Find` as written: the `*scope` looked up in the map is returned
      as a `level.Logger`, so a missing name yields an interface holding a
      nil `*scope`, which is not the nil interface. */
  function FindIface(name: string, registered: set<string>): (r: LoggerIface)
    ensures r != NilIface
    ensures r.target.Some? <==> Scopes.Normalize(name) in registered
    ensures r.target.Some? ==> r.target.value == Scopes.Normalize(name)
  {
    var n := Scopes.Normalize(name);
    ScopePtr(if n in registered then Some(n) else None)
  }

  /** A token's effect as the code is written: an action, an error, or the
      nil dereference of calling `SetLevel` on a nil `*scope`. */
  datatype RawStep = RawAct(action: Action) | RawFail(err: ConfigError) | NilDereference(scope: string)

  /** `ParseToken` with the `s != nil` test applied to `FindIface`. */
  function ParseTokenAsWritten(ol: string, registered: set<string>): (r: RawStep)
    ensures r.RawAct? ==> ParseToken(ol, registered) == Act(r.action)
    ensures r.RawFail? ==> ParseToken(ol, registered) == Fail(r.err)
    ensures r.NilDereference? ==> ParseToken(ol, registered) == Fail(UnregisteredScope(r.scope))
  {
    var osl := Split(ol, ':');
    if |osl| == 1 then
      var (lvl, ok) := FromLevel(Trim(ol));
      if !ok then RawFail(InvalidLevel(ol)) else RawAct(SetDefault(lvl))
    else if |osl| == 2 then
      var (lvl, ok) := FromLevel(Trim(osl[1]));
      if !ok then RawFail(InvalidLevel(ol))
      else
        var name := osl[0];
        var s := FindIface(name, registered);
        if s != NilIface then
          if s.target.Some? then RawAct(SetScope(s.target.value, lvl)) else NilDereference(name)
        else RawFail(UnregisteredScope(name))
    else RawFail(InvalidPair(ol))
  }

  /** As written, the "not a registered scope" error is never produced... */
  lemma NoUnregisteredScopeError(ol: string, registered: set<string>)
    ensures !(ParseTokenAsWritten(ol, registered).RawFail? && ParseTokenAsWritten(ol, registered).err.UnregisteredScope?)
  {
  }

  /** ...and every token the intended parser reports as an unregistered scope
      dereferences a nil `*scope` instead. */
  lemma UnregisteredScopeDereferences(ol: string, registered: set<string>)
    requires ParseToken(ol, registered).Fail? && ParseToken(ol, registered).err.UnregisteredScope?
    ensures ParseTokenAsWritten(ol, registered) == NilDereference(ParseToken(ol, registered).err.name)
  {
  }

  /** The concrete case: with no scope registered, `"nosuch:debug"`. */
  lemma NoSuchScopeDereferences()
    ensures ParseToken("nosuch:debug", {}) == Fail(UnregisteredScope("nosuch"))
    ensures ParseTokenAsWritten("nosuch:debug", {}) == NilDereference("nosuch")
  {
    var sc, lv := "nosuch", "debug";
    assert sc + ":" + lv == "nosuch:debug";
    TrimTrimmed(lv);
    PairToken(sc, lv, {});
    UnregisteredScopeDereferences(sc + ":" + lv, {});
  }
}
