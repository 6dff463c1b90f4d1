/** Key/value pairs and the request context that carries them (logger.go),
    with the pair handling that the function logger and the scope registry
    share. */
module KeyValues {
  import opened Wrappers

  /** A Go `interface{}` value as the core sees it: only whether it is a
      string matters, and scope.go passes whole pair slices as one value. */
  datatype Value = Nil | Str(s: string) | Other(id: int) | List(items: seq<Value>)

  /** The placeholder that pairs a dangling key. */
  const Missing: Value := Str("(MISSING)")

  /** A `context.Context`: `id` stands for everything the context carries
      besides the telemetry pairs, `pairs` for the value stored under the
      package's private key (absent until `KeyValuesToContext` stores one). */
  datatype Context = Context(id: nat, pairs: Option<seq<Value>>)

  /** `context.Background()`. */
  const Background: Context := Context(0, None)

  /** An attached `telemetry.Metric`; `RecordContext(ctx, 1)` calls are kept
      as the list of contexts they were made with. */
  class Metric {
    var recorded: seq<Context>

    constructor ()
      ensures recorded == []
    {
      recorded := [];
    }
  }

  /** A pair list made even by appending `"(MISSING)"` to an odd one. */
  function Padded(kvs: seq<Value>): (r: seq<Value>)
    ensures |r| % 2 == 0
    ensures |kvs| <= |r| <= |kvs| + 1 && r[..|kvs|] == kvs
    ensures |r| > |kvs| ==> r[|kvs|] == Missing
  {
    if |kvs| % 2 != 0 then kvs + [Missing] else kvs
  }

  /** The pairs of an even list whose key is a string, in order: the loop
      `for i := 0; i < len(kvs); i += 2 { if k, ok := kvs[i].(string) ... }`. */
  function StringKeyedPairs(kvs: seq<Value>): (r: seq<Value>)
    requires |kvs| % 2 == 0
    decreases |kvs|
  {
    if kvs == [] then []
    else
      var n := |kvs|;
      StringKeyedPairs(kvs[..n - 2]) + (if kvs[n - 2].Str? then kvs[n - 2..] else [])
  }

  /** The kept pairs form an even list whose every key is a string, and no
      more pairs than were given. */
  lemma {:induction false} StringKeyedPairsShape(kvs: seq<Value>)
    requires |kvs| % 2 == 0
    ensures |StringKeyedPairs(kvs)| % 2 == 0 && |StringKeyedPairs(kvs)| <= |kvs|
    ensures forall j :: 0 <= j < |StringKeyedPairs(kvs)| && j % 2 == 0 ==> StringKeyedPairs(kvs)[j].Str?
    decreases |kvs|
  {
    if kvs != [] {
      StringKeyedPairsShape(kvs[..|kvs| - 2]);
    }
  }

  /** A list whose every key is a string is kept whole. */
  lemma {:induction false} StringKeyedPairsAllStrings(kvs: seq<Value>)
    requires |kvs| % 2 == 0
    requires forall j :: 0 <= j < |kvs| && j % 2 == 0 ==> kvs[j].Str?
    ensures StringKeyedPairs(kvs) == kvs
    decreases |kvs|
  {
    if kvs != [] {
      var n := |kvs|;
      StringKeyedPairsAllStrings(kvs[..n - 2]);
      assert kvs == kvs[..n - 2] + kvs[n - 2..];
    }
  }

  /** One more filter step at the end of the list (the loop's step). */
  lemma StringKeyedPairsStep(kvs: seq<Value>, i: nat)
    requires |kvs| % 2 == 0 && i % 2 == 0 && i + 2 <= |kvs|
    ensures StringKeyedPairs(kvs[..i + 2])
      == StringKeyedPairs(kvs[..i]) + (if kvs[i].Str? then [kvs[i], kvs[i + 1]] else [])
  {
    assert kvs[..i + 2][..i] == kvs[..i];
  }

  /** `KeyValuesFromContext`: the stored list, empty when nothing is stored. */
  function KeyValuesFromContext(ctx: Context): (kvs: seq<Value>)
    ensures ctx.pairs.None? ==> kvs == []
    ensures ctx.pairs.Some? ==> kvs == ctx.pairs.value
  {
    match ctx.pairs
    case None => []
    case Some(p) => p
  }

  /** `KeyValuesToContext`: no pairs leaves the context as it is; otherwise a
      derived context stores the old list followed by the padded new pairs. */
  function KeyValuesToContext(ctx: Context, kvs: seq<Value>): (r: Context)
    ensures kvs == [] ==> r == ctx
    ensures kvs != [] ==> r.id == ctx.id
    ensures kvs != [] ==> KeyValuesFromContext(r) == KeyValuesFromContext(ctx) + Padded(kvs)
  {
    if |kvs| == 0 then ctx
    else Context(ctx.id, Some(KeyValuesFromContext(ctx) + Padded(kvs)))
  }

  /** Storing an even list into a fresh context and reading it back yields
      exactly that list. */
  lemma ContextRoundTrip(kvs: seq<Value>)
    requires |kvs| % 2 == 0
    ensures KeyValuesFromContext(KeyValuesToContext(Background, kvs)) == kvs
  {
  }

  /** A stored list of even length stays even. */
  lemma ContextStaysEven(ctx: Context, kvs: seq<Value>)
    requires |KeyValuesFromContext(ctx)| % 2 == 0
    ensures |KeyValuesFromContext(KeyValuesToContext(ctx, kvs))| % 2 == 0
  {
  }

  /** Storing several pair lists one after another. */
  function StoreAll(ctx: Context, calls: seq<seq<Value>>): Context
    decreases |calls|
  {
    if calls == [] then ctx else StoreAll(KeyValuesToContext(ctx, calls[0]), calls[1..])
  }

  /** All padded lists of the calls, concatenated. */
  function PaddedAll(calls: seq<seq<Value>>): seq<Value>
    decreases |calls|
  {
    if calls == [] then [] else Padded(calls[0]) + PaddedAll(calls[1..])
  }

  /** Composition is append-only: after any sequence of calls the context
      stores the original list followed by each call's padded pairs. */
  lemma {:induction false} StoreAllAppends(ctx: Context, calls: seq<seq<Value>>)
    ensures KeyValuesFromContext(StoreAll(ctx, calls)) == KeyValuesFromContext(ctx) + PaddedAll(calls)
    ensures StoreAll(ctx, calls).id == ctx.id
    decreases |calls|
  {
    if calls != [] {
      StoreAllAppends(KeyValuesToContext(ctx, calls[0]), calls[1..]);
      assert KeyValuesFromContext(KeyValuesToContext(ctx, calls[0])) == KeyValuesFromContext(ctx) + Padded(calls[0]);
    }
  }
}
