/** The level vocabulary of the telemetry package (level.go), shared by the
    level wrapper, the function logger and the scope registry. */
module Levels {

  /** Go's `Level int32` (and `level.Value int32`, which has the same values). */
  newtype Level = x: int | -0x8000_0000 <= x < 0x8000_0000

  const LevelNone: Level := 0
  const LevelError: Level := 1
  const LevelInfo: Level := 5
  const LevelDebug: Level := 10

  /** The four named levels. */
  predicate IsDefined(v: Level) {
    v == LevelNone || v == LevelError || v == LevelInfo || v == LevelDebug
  }

  /** The four level names. */
  predicate IsLevelName(s: string) {
    s == "none" || s == "error" || s == "info" || s == "debug"
  }

  /** The `levelToString` table. */
  const LevelToString: map<Level, string> :=
    map[LevelNone := "none", LevelError := "error", LevelInfo := "info", LevelDebug := "debug"]

  /** The `stringToLevel` table. */
  const StringToLevel: map<string, Level> :=
    map["none" := LevelNone, "error" := LevelError, "info" := LevelInfo, "debug" := LevelDebug]

  /** `Level.String`: a lookup in `levelToString`; a value outside the table
      yields Go's zero string. */
  function LevelString(v: Level): (s: string)
    ensures s != "" <==> IsDefined(v)
    ensures IsDefined(v) ==> IsLevelName(s)
    ensures v == LevelNone ==> s == "none"
    ensures v == LevelError ==> s == "error"
    ensures v == LevelInfo ==> s == "info"
    ensures v == LevelDebug ==> s == "debug"
  {
    if v in LevelToString then LevelToString[v] else ""
  }

  /** `FromLevel`: the lookup in `stringToLevel` with its `ok` flag; a missing
      name yields the zero level. The result is the inverse of `LevelString`. */
  function FromLevel(s: string): (r: (Level, bool))
    ensures r.1 <==> IsLevelName(s)
    ensures r.1 ==> IsDefined(r.0) && LevelString(r.0) == s
    ensures !r.1 ==> r.0 == LevelNone
  {
    if s in StringToLevel then (StringToLevel[s], true) else (LevelNone, false)
  }

  /** Round trip from level to name and back, for each defined level. */
  lemma FromLevelString(v: Level)
    requires IsDefined(v)
    ensures FromLevel(LevelString(v)) == (v, true)
  {
  }

  /** A mutable level slot, Go's `*int32` read and written atomically. Loggers
      that hold the same cell observe each other's `SetLevel`. */
  class LevelCell {
    var value: Level

    constructor (v: Level)
      ensures value == v
    {
      value := v;
    }
  }
}
