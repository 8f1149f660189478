/**
 * The in-process publish/subscribe bus (app/events/bus.py). Handlers are
 * opaque callables, named by a `HandlerId`; what a handler does is outside
 * the model, except whether it raises on a given publication.
 */
module Events {
  import Seqs

  type HandlerId = string

  /** One call `handler(payload)` made by `publish`. */
  datatype Invocation<P> = Invocation(handler: HandlerId, payload: P)

  /** The handlers `publish` reaches: all of them, or up to and including the first that raises. */
  function Reached(hs: seq<HandlerId>, raising: set<HandlerId>): (r: seq<HandlerId>)
    ensures r <= hs
    ensures (forall k :: 0 <= k < |hs| ==> hs[k] !in raising) ==> r == hs
    ensures r != hs ==> r != [] && r[|r| - 1] in raising
    ensures forall k :: 0 <= k < |r| - 1 ==> r[k] !in raising
  {
    if hs == [] then []
    else if hs[0] in raising then [hs[0]]
    else [hs[0]] + Reached(hs[1..], raising)
  }

  /** `publish` raises exactly when one of the subscribed handlers raises. */
  predicate AnyRaises(hs: seq<HandlerId>, raising: set<HandlerId>) {
    exists k :: 0 <= k < |hs| && hs[k] in raising
  }

  function Calls<P>(hs: seq<HandlerId>, payload: P): (r: seq<Invocation<P>>)
    ensures |r| == |hs| && forall k :: 0 <= k < |hs| ==> r[k] == Invocation(hs[k], payload)
  {
    seq(|hs|, k requires 0 <= k < |hs| => Invocation(hs[k], payload))
  }

  lemma CallsOneMore<P>(hs: seq<HandlerId>, payload: P, i: nat)
    requires i < |hs|
    ensures Calls(hs[..i], payload) + [Invocation(hs[i], payload)] == Calls(hs[..i + 1], payload)
  {
  }

  function Occurrences(hs: seq<HandlerId>, h: HandlerId): nat {
    if hs == [] then 0 else (if hs[0] == h then 1 else 0) + Occurrences(hs[1..], h)
  }

  /** No deduplication: a handler subscribed twice more is reached twice more when nothing raises. */
  lemma {:induction false} DoubleSubscriptionRunsTwice(hs: seq<HandlerId>, h: HandlerId)
    ensures Occurrences(Reached(hs + [h, h], {}), h) == Occurrences(hs, h) + 2
  {
    assert Reached(hs + [h, h], {}) == hs + [h, h];
    OccurrencesAppend(hs, [h, h], h);
    assert [h, h][1..] == [h];
    assert [h][1..] == [];
    assert Occurrences([h], h) == 1;
    assert Occurrences([h, h], h) == 2;
  }

  lemma {:induction false} OccurrencesAppend(a: seq<HandlerId>, b: seq<HandlerId>, h: HandlerId)
    ensures Occurrences(a + b, h) == Occurrences(a, h) + Occurrences(b, h)
  {
    if a == [] {
      assert a + b == b;
    } else {
      OccurrencesAppend(a[1..], b, h);
      assert (a + b)[0] == a[0];
      assert (a + b)[1..] == a[1..] + b;
    }
  }

  class EventBus<P> {
    /** `_handlers`: a `defaultdict(list)` from event name to handlers in subscription order. */
    var handlers: map<string, seq<HandlerId>>
    /** Every handler call made so far, in order. */
    var delivered: seq<Invocation<P>>

    constructor ()
      ensures handlers == map[] && delivered == []
    {
      handlers := map[];
      delivered := [];
    }

    function HandlersOf(eventName: string): seq<HandlerId>
      reads this
    {
      if eventName in handlers then handlers[eventName] else []
    }

    /** `subscribe(event, handler)`: appends to that event's list only. */
    method Subscribe(eventName: string, handler: HandlerId)
      modifies this
      ensures handlers == old(handlers)[eventName := old(HandlersOf(eventName)) + [handler]]
      ensures delivered == old(delivered)
    {
      handlers := handlers[eventName := HandlersOf(eventName) + [handler]];
    }

    /**
     * `publish(event, payload)`: calls the event's handlers in subscription
     * order with `payload`; a handler in `raising` raises, which ends the loop
     * and propagates. The handler table is read with `.get` and never changes.
     */
    method Publish(eventName: string, payload: P, raising: set<HandlerId>) returns (raised: bool)
      modifies this
      ensures handlers == old(handlers)
      ensures delivered == old(delivered) + Calls(Reached(old(HandlersOf(eventName)), raising), payload)
      ensures raised <==> AnyRaises(old(HandlersOf(eventName)), raising)
    {
      var hs := HandlersOf(eventName);
      var i := 0;
      while i < |hs|
        invariant 0 <= i <= |hs|
        invariant handlers == old(handlers)
        invariant forall k :: 0 <= k < i ==> hs[k] !in raising
        invariant delivered == old(delivered) + Calls(hs[..i], payload)
      {
        CallsOneMore(hs, payload, i);
        Seqs.AppendAssoc(old(delivered), Calls(hs[..i], payload), [Invocation(hs[i], payload)]);
        delivered := delivered + [Invocation(hs[i], payload)];
        if hs[i] in raising {
          assert Reached(hs, raising) == hs[..i + 1] by { ReachedStops(hs, raising, i); }
          return true;
        }
        i := i + 1;
      }
      assert hs[..i] == hs;
      return false;
    }
  }

  lemma {:induction false} ReachedStops(hs: seq<HandlerId>, raising: set<HandlerId>, i: nat)
    requires i < |hs| && hs[i] in raising
    requires forall k :: 0 <= k < i ==> hs[k] !in raising
    ensures Reached(hs, raising) == hs[..i + 1]
  {
    if i > 0 {
      ReachedStops(hs[1..], raising, i - 1);
      assert hs[..i + 1] == [hs[0]] + hs[1..][..i];
    }
  }
}
