/** The tresor wrappers: tresor creation and membership changes on the shared channel. */
module Tresors {
  import opened Js
  import opened Rejections
  import opened Actions

  /** The guard `shareTresor` and `kickFromTresor` share: both ids truthy, one description for either failing. */
  predicate MembershipGuard(a: Action, cmd: string, tresorId: Value, userId: Value)
  {
    && (a.Send? <==> Truthy(tresorId) && Truthy(userId))
    && (a.Send? ==> a == Send(cmd, [tresorId, userId]))
    && (!a.Send? ==> RejectsBadInput(a, "tresorId and userId cannot be empty"))
  }

  /** `createTresor()`: no validation, always one call without arguments. */
  function CreateTresor(): (a: Action)
    ensures a.Send? && a.cmd == "createTresor" && a.args == []
  {
    Send("createTresor", [])
  }

  /** `shareTresor(tresorId, userId)` */
  function ShareTresor(tresorId: Value, userId: Value): (a: Action)
    ensures MembershipGuard(a, "shareTresor", tresorId, userId)
  {
    if !Truthy(tresorId) || !Truthy(userId) then Reject(BadInput("tresorId and userId cannot be empty"))
    else Send("shareTresor", [tresorId, userId])
  }

  /** `kickFromTresor(tresorId, userId)` */
  function KickFromTresor(tresorId: Value, userId: Value): (a: Action)
    ensures MembershipGuard(a, "kickFromTresor", tresorId, userId)
  {
    if !Truthy(tresorId) || !Truthy(userId) then Reject(BadInput("tresorId and userId cannot be empty"))
    else Send("kickFromTresor", [tresorId, userId])
  }

  /**
   * Sharing and kicking accept and refuse exactly the same inputs, with the
   * same error; they differ only in the command they send.
   */
  lemma ShareAndKickAgree(tresorId: Value, userId: Value)
    ensures ShareTresor(tresorId, userId).Send? <==> KickFromTresor(tresorId, userId).Send?
    ensures !ShareTresor(tresorId, userId).Send? ==> ShareTresor(tresorId, userId) == KickFromTresor(tresorId, userId)
    ensures ShareTresor(tresorId, userId).Send? ==>
              ShareTresor(tresorId, userId).args == KickFromTresor(tresorId, userId).args
              && ShareTresor(tresorId, userId).cmd != KickFromTresor(tresorId, userId).cmd
  {
  }

  /**
   * A membership wrapper is the one-check table over the conjunction of both
   * ids; `createTresor` has an empty table.
   */
  lemma TresorWrappersAreGuarded(tresorId: Value, userId: Value)
    ensures CreateTresor() == Guarded([], "createTresor", [])
    ensures ShareTresor(tresorId, userId) ==
      Guarded([Check(Truthy(tresorId) && Truthy(userId), "tresorId and userId cannot be empty")], "shareTresor", [tresorId, userId])
    ensures KickFromTresor(tresorId, userId) ==
      Guarded([Check(Truthy(tresorId) && Truthy(userId), "tresorId and userId cannot be empty")], "kickFromTresor", [tresorId, userId])
  {
  }
}
