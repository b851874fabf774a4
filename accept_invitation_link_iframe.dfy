/** The wrapper of the iframe in which the user types the password of an invitation link. */
module AcceptInvitationLinkIframes {
  import opened Js
  import opened Rejections
  import opened Actions
  import InvitationLinks

  /** `acceptInvitationLink(token)` */
  function AcceptInvitationLink(token: Value): (a: Action)
    ensures a.Send? <==> Truthy(token)
    ensures a.Send? ==> a == Send("acceptInvitationLink", [token])
    ensures !a.Send? ==> RejectsBadInput(a, "token cannot be empty")
  {
    if !Truthy(token) then Reject(BadInput("token cannot be empty"))
    else Send("acceptInvitationLink", [token])
  }

  /**
   * The password variant does not look at `serverData`: a protected link's
   * token is sent here, while the password-less wrapper refuses it.
   */
  lemma NoPasswordFlagCheck()
    ensures AcceptInvitationLink(InvitationLinks.LinkToken(true)).Send?
    ensures InvitationLinks.AcceptInvitationLinkNoPassword(InvitationLinks.LinkToken(true))
              == Reject(BadInput("This link needs a password"))
  {
  }

  /** Both accept wrappers refuse exactly the same empty tokens, with the same error. */
  lemma EmptyTokenRejectedAlike(token: Value)
    requires !Truthy(token)
    ensures AcceptInvitationLink(token) == InvitationLinks.AcceptInvitationLinkNoPassword(token)
  {
  }

  /** `acceptInvitationLink` is the one-check table on the token. */
  lemma AcceptLinkIsGuarded(token: Value)
    ensures AcceptInvitationLink(token) ==
      Guarded([Check(Truthy(token), "token cannot be empty")], "acceptInvitationLink", [token])
  {
  }
}
