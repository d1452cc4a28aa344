/**
 * Event dispatch to an ordered list of subscribers: each is called in turn
 * with the same event name, and the first failure ends the dispatch.
 */
module Dispatching {
  import opened Wrappers
  import opened Backend

  /**
   * A subscriber, by what its handler answers for each event name: None for
   * success, Some(error) for failure.
   */
  datatype Subscriber = Subscriber(on: string -> Option<Error>)

  /** The outcome of one dispatch: subscribers [0, invoked) were called, in order, once each. */
  datatype Dispatched = Dispatched(invoked: nat, result: Option<Error>)

  /**
   * Dispatch of `event` to `subs`. Every subscriber before the last one
   * invoked succeeded; the result is the error of the last one invoked when it
   * failed, and None exactly when all subscribers were invoked and all succeeded.
   */
  function DispatchOf(subs: seq<Subscriber>, event: string): (r: Dispatched)
    ensures r.invoked <= |subs|
    ensures forall j :: 0 <= j < r.invoked - 1 ==> subs[j].on(event).None?
    ensures r.result.None? <==> r.invoked == |subs| && forall j :: 0 <= j < |subs| ==> subs[j].on(event).None?
    ensures r.result.Some? ==> 0 < r.invoked && r.result == subs[r.invoked - 1].on(event)
    decreases |subs|
  {
    if subs == [] then Dispatched(0, None)
    else match subs[0].on(event)
      case Some(e) => Dispatched(1, Some(e))
      case None =>
        var rest := DispatchOf(subs[1..], event);
        assert forall j :: 1 <= j < |subs| ==> subs[j] == subs[1..][j - 1];
        Dispatched(1 + rest.invoked, rest.result)
  }

  /** With no subscribers, dispatch calls nobody and succeeds. */
  lemma DispatchEmpty(event: string)
    ensures DispatchOf([], event) == Dispatched(0, None)
  {
  }

  /** If every subscriber succeeds, each is called once, in order, and dispatch succeeds. */
  lemma DispatchAllSucceed(subs: seq<Subscriber>, event: string)
    requires forall j :: 0 <= j < |subs| ==> subs[j].on(event).None?
    ensures DispatchOf(subs, event) == Dispatched(|subs|, None)
  {
  }

  /**
   * If subscriber k is the first to fail, exactly subscribers 0..k are
   * called and the result is k's error.
   */
  lemma {:induction false} DispatchStopsAtFirstFailure(subs: seq<Subscriber>, event: string, k: nat)
    requires k < |subs| && subs[k].on(event).Some?
    requires forall j :: 0 <= j < k ==> subs[j].on(event).None?
    ensures DispatchOf(subs, event) == Dispatched(k + 1, subs[k].on(event))
  {
    if k > 0 {
      assert subs[0].on(event).None?;
      assert forall j :: 0 <= j < k - 1 ==> subs[1..][j] == subs[j + 1];
      DispatchStopsAtFirstFailure(subs[1..], event, k - 1);
    }
  }

  /** The three-subscriber case: A succeeds, B fails, so C is never called and B's error is returned. */
  lemma DispatchSecondOfThreeFails(a: Subscriber, b: Subscriber, c: Subscriber, event: string)
    requires a.on(event).None? && b.on(event).Some?
    ensures DispatchOf([a, b, c], event) == Dispatched(2, b.on(event))
  {
    DispatchStopsAtFirstFailure([a, b, c], event, 1);
  }

  /** Dispatching over two lists in sequence: the second is reached only if the first succeeds. */
  lemma {:induction false} DispatchAppend(a: seq<Subscriber>, b: seq<Subscriber>, event: string)
    ensures DispatchOf(a + b, event) ==
              if DispatchOf(a, event).result.Some? then DispatchOf(a, event)
              else Dispatched(|a| + DispatchOf(b, event).invoked, DispatchOf(b, event).result)
    decreases |a|
  {
    if a == [] {
      assert a + b == b;
    } else {
      assert (a + b)[0] == a[0];
      assert (a + b)[1..] == a[1..] + b;
      if a[0].on(event).None? {
        DispatchAppend(a[1..], b, event);
      }
    }
  }
}
