/** The process-wide metric sink and the callbacks deferred until it is set
    (global_metricsink.go). */
module GlobalMetricSink {
  import opened Wrappers

  /** A `MetricSink`, by identity. */
  type Sink = nat

  /** An `OnGlobalMetricSinkFn`, by identity. */
  type Callback = nat

  /** One call `callback(sink)` into callback code. */
  datatype Invocation = Invocation(callback: Callback, sink: Option<Sink>)

  /** The callbacks of a trace of invocations, in order. */
  function CallbacksOf(trace: seq<Invocation>): (cbs: seq<Callback>)
    ensures |cbs| == |trace|
    ensures forall i :: 0 <= i < |trace| ==> cbs[i] == trace[i].callback
  {
    seq(|trace|, i requires 0 <= i < |trace| => trace[i].callback)
  }

  /** Invocations of `cbs`, in order, all with `sink`. */
  function InvokeAll(cbs: seq<Callback>, sink: Option<Sink>): (trace: seq<Invocation>)
    ensures CallbacksOf(trace) == cbs
    ensures forall i :: 0 <= i < |trace| ==> trace[i] == Invocation(cbs[i], sink)
  {
    seq(|cbs|, i requires 0 <= i < |cbs| => Invocation(cbs[i], sink))
  }

  /** The package state: `metricSink`, the queue `callbacks`, and the trace of
      the calls made so far into callback code. */
  class SinkRegistry {
    var metricSink: Option<Sink>
    var callbacks: seq<Callback>
    var invocations: seq<Invocation>
    /** Every callback handed to `ToGlobalMetricSink`, in order. */
    ghost var registered: seq<Callback>

    /** Whatever was registered has been invoked exactly once, in order, or is
        still queued after all invoked ones; nothing is queued while a sink is
        set. */
    ghost predicate Valid()
      reads this
    {
      && CallbacksOf(invocations) + callbacks == registered
      && (metricSink.Some? ==> callbacks == [])
    }

    constructor ()
      ensures Valid()
      ensures metricSink == None && callbacks == [] && invocations == [] && registered == []
    {
      metricSink := None;
      callbacks := [];
      invocations := [];
      registered := [];
    }

    /** `SetGlobalMetricSink`: stores the sink (nil included), invokes every
        queued callback in order with it, and empties the queue. */
    method SetGlobalMetricSink(ms: Option<Sink>)
      requires Valid()
      modifies this
      ensures Valid()
      ensures metricSink == ms && callbacks == []
      ensures invocations == old(invocations) + InvokeAll(old(callbacks), ms)
      ensures registered == old(registered)
      ensures CallbacksOf(invocations) == registered
    {
      metricSink := ms;
      var i := 0;
      while i < |callbacks|
        invariant 0 <= i <= |callbacks|
        invariant callbacks == old(callbacks) && metricSink == ms && registered == old(registered)
        invariant invocations == old(invocations) + InvokeAll(callbacks[..i], ms)
      {
        invocations := invocations + [Invocation(callbacks[i], ms)];
        assert InvokeAll(callbacks[..i + 1], ms) == InvokeAll(callbacks[..i], ms) + [Invocation(callbacks[i], ms)];
        i := i + 1;
      }
      assert callbacks[..i] == callbacks;
      CallbacksAppend(old(invocations), InvokeAll(callbacks, ms));
      callbacks := [];
    }

    /** `ToGlobalMetricSink`: with a sink set the callback runs at once and is
        not queued; otherwise it is queued and not run. */
    method ToGlobalMetricSink(callback: Callback)
      requires Valid()
      modifies this
      ensures Valid()
      ensures metricSink == old(metricSink) && registered == old(registered) + [callback]
      ensures old(metricSink).Some? ==>
        invocations == old(invocations) + [Invocation(callback, metricSink)] && callbacks == old(callbacks)
      ensures old(metricSink).None? ==>
        invocations == old(invocations) && callbacks == old(callbacks) + [callback]
    {
      registered := registered + [callback];
      if metricSink.Some? {
        CallbacksAppend(invocations, [Invocation(callback, metricSink)]);
        invocations := invocations + [Invocation(callback, metricSink)];
        return;
      }
      callbacks := callbacks + [callback];
    }
  }

  lemma CallbacksAppend(a: seq<Invocation>, b: seq<Invocation>)
    ensures CallbacksOf(a + b) == CallbacksOf(a) + CallbacksOf(b)
  {
  }
}
