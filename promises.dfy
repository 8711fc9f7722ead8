/** The part of Bluebird's promise semantics the pipeline relies on: a promise settles once. */
module Promises {
  import opened Wrappers

  /** How a promise settles: resolved (its value is never read by the pipeline) or rejected with a message. */
  datatype Settlement = Resolved | Rejected(reason: string)

  /** One `resolve`/`reject` call on a promise whose state is `state` (`None` while pending). */
  function SettleOnce(state: Option<Settlement>, s: Settlement): Option<Settlement>
  {
    if state.Some? then state else Some(s)
  }

  /** The state of a promise, pending at first, after the calls `calls` in the order they were made. */
  function Settled(calls: seq<Settlement>): Option<Settlement>
  {
    if calls == [] then None else SettleOnce(Settled(calls[..|calls| - 1]), calls[|calls| - 1])
  }

  /** The first call decides the state; every later call leaves it alone. */
  lemma {:induction false} FirstCallWins(calls: seq<Settlement>)
    ensures Settled(calls) == if calls == [] then None else Some(calls[0])
  {
    if |calls| > 1 {
      var front := calls[..|calls| - 1];
      FirstCallWins(front);
      assert front[0] == calls[0];
    }
  }

  /** `Promise.all` of two promises: resolves when both resolve, otherwise rejects with a rejection
      of one of them. */
  function All(a: Settlement, b: Settlement): (r: Settlement)
    ensures r == Resolved <==> a == Resolved && b == Resolved
    ensures r.Rejected? ==> r == a || r == b
  {
    if a.Rejected? then a else b
  }
}
