/** The size-observation primitive ResizeSensor drives (a `ResizeObserver`),
    reduced to its subscription list. Only `observe` and `disconnect` are used. */
module Observer {
  import opened Dom

  /** A call made on the primitive. */
  datatype Call = DisconnectCall | ObserveCall(target: ElementId)

  /** The calls that subscribe `s`, one `observe` per element, in order. */
  function ObserveEach(s: seq<ElementId>): (r: seq<Call>)
    ensures |r| == |s|
  {
    if s == [] then [] else [ObserveCall(s[0])] + ObserveEach(s[1..])
  }

  /** Observing `a` then `b` makes the calls that observing `a + b` makes. */
  lemma {:induction false} ObserveEachAppend(a: seq<ElementId>, b: seq<ElementId>)
    ensures ObserveEach(a + b) == ObserveEach(a) + ObserveEach(b)
    decreases |a|
  {
    if a == [] {
      assert a + b == b;
    } else {
      assert (a + b)[0] == a[0] && (a + b)[1..] == a[1..] + b;
      ObserveEachAppend(a[1..], b);
    }
  }

  class ResizeObserver {
    /** The elements subscribed, in the order `observe` was called on them. */
    var targets: seq<ElementId>
    /** Every call made on this observer so far, oldest first: specification
        state that lets contracts say which calls were made, not part of the primitive. */
    ghost var calls: seq<Call>

    constructor ()
      ensures targets == [] && calls == []
    {
      targets := [];
      calls := [];
    }

    /** `observe(element)`: subscribes one more element. */
    method Observe(e: ElementId)
      modifies this
      ensures targets == old(targets) + [e]
      ensures calls == old(calls) + [ObserveCall(e)]
    {
      targets := targets + [e];
      calls := calls + [ObserveCall(e)];
    }

    /** `disconnect()`: drops every subscription at once. */
    method Disconnect()
      modifies this
      ensures targets == []
      ensures calls == old(calls) + [DisconnectCall]
    {
      targets := [];
      calls := calls + [DisconnectCall];
    }
  }
}
