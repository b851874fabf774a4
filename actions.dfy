/**
 * What a feature wrapper does with its arguments: every wrapper is a chain
 * of input checks that ends either in a rejected promise or in exactly one
 * remote call.
 */
module Actions {
  import opened Js
  import opened Rejections
  import opened Deferreds

  datatype Action =
      /** `return rejection(code, description)`: an already-rejected promise, nothing is sent. */
    | Reject(error: JsSdkError)
      /** One `call` (or `apiCall`) with this command name and argument list. */
    | Send(cmd: string, args: seq<Value>)
      /** A check that itself throws before any promise exists. */
    | Fault(thrown: TypeError)

  /** What a synchronous throw carries. */
  datatype Thrown =
    | ThrownTypeError(error: TypeError)
      /** `throw new Error(message)` */
    | ThrownError(message: string)

  /** What calling a wrapper gives its caller: a promise, or a synchronous throw. */
  datatype Returned = Returns(promise: JsPromise) | Throws(thrown: Thrown)

  /** `Promise.reject(new JsSdkError(code, description))` as a new promise object. */
  method RejectedPromise(e: JsSdkError) returns (p: JsPromise)
    ensures fresh(p) && p.state == Rejection(e.code, e.description)
  {
    p := new JsPromise.Of(Rejection(e.code, e.description));
  }

  /** The action rejects with code "BadInput" and this description. */
  predicate RejectsBadInput(a: Action, description: string)
  {
    a == Reject(BadInput(description))
  }

  /** One input check of a wrapper: whether it passes, and the description it rejects with. */
  datatype Check = Check(passes: bool, description: string)

  /**
   * The shape every feature wrapper follows: run the checks in order, reject
   * with "BadInput" and the description of the first one that fails, and
   * send exactly one call when all of them pass.
   */
  function Guarded(checks: seq<Check>, cmd: string, args: seq<Value>): Action
    decreases |checks|
  {
    if checks == [] then Send(cmd, args)
    else if !checks[0].passes then Reject(BadInput(checks[0].description))
    else Guarded(checks[1..], cmd, args)
  }

  /** A guarded wrapper sends iff every check passes, and then sends exactly its own command and arguments. */
  lemma {:induction false} GuardedSendsIffAllPass(checks: seq<Check>, cmd: string, args: seq<Value>)
    ensures Guarded(checks, cmd, args).Send? <==> forall k :: 0 <= k < |checks| ==> checks[k].passes
    ensures Guarded(checks, cmd, args).Send? ==> Guarded(checks, cmd, args) == Send(cmd, args)
    decreases |checks|
  {
    if checks != [] {
      GuardedSendsIffAllPass(checks[1..], cmd, args);
      if checks[0].passes {
        assert forall k :: 1 <= k < |checks| ==> checks[k] == checks[1..][k - 1];
      }
    }
  }

  /** A guarded wrapper never throws: it either rejects with "BadInput" or sends. */
  lemma {:induction false} GuardedNeverFaults(checks: seq<Check>, cmd: string, args: seq<Value>)
    ensures !Guarded(checks, cmd, args).Fault?
    ensures Guarded(checks, cmd, args).Reject? ==> Guarded(checks, cmd, args).error.code == "BadInput"
    decreases |checks|
  {
    if checks != [] && checks[0].passes {
      GuardedNeverFaults(checks[1..], cmd, args);
    }
  }

  /** When several checks fail, the rejection names the first of them in order. */
  lemma {:induction false} GuardedReportsFirstFailure(checks: seq<Check>, cmd: string, args: seq<Value>, k: nat)
    requires k < |checks| && !checks[k].passes
    requires forall j :: 0 <= j < k ==> checks[j].passes
    ensures Guarded(checks, cmd, args) == Reject(BadInput(checks[k].description))
    decreases k
  {
    if k > 0 {
      GuardedReportsFirstFailure(checks[1..], cmd, args, k - 1);
    }
  }

  /** A table of two checks: the first failing one rejects, otherwise the call is sent. */
  lemma GuardedPair(first: Check, second: Check, cmd: string, args: seq<Value>)
    ensures Guarded([first, second], cmd, args) ==
      if !first.passes then Reject(BadInput(first.description))
      else if !second.passes then Reject(BadInput(second.description))
      else Send(cmd, args)
  {
    assert [first, second][1..] == [second];
    assert [second][1..] == [];
    assert Guarded([], cmd, args) == Send(cmd, args);
    assert Guarded([second], cmd, args) == if !second.passes then Reject(BadInput(second.description)) else Send(cmd, args);
  }
}
