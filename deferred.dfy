/**
 * A promise that is settled from outside the scope that created it: the
 * single-assignment cell every pending call of the channel waits on. The
 * capabilities a promise executor hands out follow section 25.4.1.3 of
 * ECMAScript 2015 (CreateResolvingFunctions): whichever of resolve and
 * reject runs first decides the outcome, and every later call is ignored.
 */
module Deferreds {
  import opened Js

  /** The observable state of a promise. */
  datatype Settlement = Pending | Fulfilled(value: Value) | Rejected(reason: Value)

  /** One call of a resolving function on a promise in state `s`. */
  function Settle(s: Settlement, attempt: Settlement): (r: Settlement)
    requires !attempt.Pending?
    ensures !r.Pending?
    ensures s.Pending? ==> r == attempt
    ensures !s.Pending? ==> r == s
  {
    if s.Pending? then attempt else s
  }

  /** The state after a run of resolve/reject calls, in order. */
  function SettleAll(s: Settlement, attempts: seq<Settlement>): (r: Settlement)
    requires forall k :: 0 <= k < |attempts| ==> !attempts[k].Pending?
    decreases |attempts|
  {
    if attempts == [] then s else SettleAll(Settle(s, attempts[0]), attempts[1..])
  }

  /** Once a promise is settled, no later resolve or reject changes it. */
  lemma {:induction false} SettledIsFinal(s: Settlement, attempts: seq<Settlement>)
    requires !s.Pending?
    requires forall k :: 0 <= k < |attempts| ==> !attempts[k].Pending?
    ensures SettleAll(s, attempts) == s
  {
    if attempts != [] {
      SettledIsFinal(Settle(s, attempts[0]), attempts[1..]);
    }
  }

  /** On a pending promise the first resolve or reject wins and the rest are ignored. */
  lemma {:induction false} FirstSettlementWins(attempts: seq<Settlement>)
    requires attempts != []
    requires forall k :: 0 <= k < |attempts| ==> !attempts[k].Pending?
    ensures SettleAll(Pending, attempts) == attempts[0]
  {
    SettledIsFinal(attempts[0], attempts[1..]);
  }

  /** A promise object; only a resolving function may change its state. */
  class JsPromise {
    var state: Settlement

    /** `new Promise(executor)` before the executor settles it, or `Promise.reject(...)`. */
    constructor Of(s: Settlement)
      ensures state == s
    {
      state := s;
    }
  }

  /** A promise together with its two resolving functions. */
  class Deferred {
    /** The `promise` getter: always this one object. */
    const promise: JsPromise

    constructor ()
      ensures fresh(promise)
      ensures promise.state == Pending
    {
      promise := new JsPromise.Of(Pending);
    }

    /** `deferred.resolve(v)`: fulfils the promise with `v` unless it is already settled. */
    method Resolve(v: Value)
      modifies promise
      ensures promise.state == Settle(old(promise.state), Fulfilled(v))
      ensures old(promise.state).Pending? ==> promise.state == Fulfilled(v)
    {
      promise.state := Settle(promise.state, Fulfilled(v));
    }

    /** `deferred.reject(v)`: rejects the promise with `v` unless it is already settled. */
    method Reject(v: Value)
      modifies promise
      ensures promise.state == Settle(old(promise.state), Rejected(v))
      ensures old(promise.state).Pending? ==> promise.state == Rejected(v)
    {
      promise.state := Settle(promise.state, Rejected(v));
    }
  }
}
