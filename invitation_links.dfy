/**
 * The password-less invitation-link wrappers on the shared channel: creating,
 * revoking, inspecting and accepting a link that grants access to a tresor.
 */
module InvitationLinks {
  import opened Js
  import opened Rejections
  import opened Actions

  /** `createInvitationLinkNoPassword(baseLink, tresorId, message)`: only the tresor id is checked. */
  function CreateInvitationLinkNoPassword(baseLink: Value, tresorId: Value, message: Value): (a: Action)
    ensures a.Send? <==> Truthy(tresorId)
    ensures a.Send? ==> a == Send("createInvitationLinkNoPassword", [baseLink, tresorId, message])
    ensures !a.Send? ==> RejectsBadInput(a, "tresorId cannot be empty")
  {
    if !Truthy(tresorId) then Reject(BadInput("tresorId cannot be empty"))
    else Send("createInvitationLinkNoPassword", [baseLink, tresorId, message])
  }

  /** `revokeInvitationLink(tresorId, secret)`: the tresor id first, then the secret. */
  function RevokeInvitationLink(tresorId: Value, secret: Value): (a: Action)
    ensures a.Send? <==> Truthy(tresorId) && Truthy(secret)
    ensures a.Send? ==> a == Send("revokeInvitationLink", [tresorId, secret])
    ensures !Truthy(tresorId) ==> RejectsBadInput(a, "tresorId cannot be empty")
    ensures Truthy(tresorId) && !Truthy(secret) ==> RejectsBadInput(a, "secret cannot be empty")
  {
    if !Truthy(tresorId) then Reject(BadInput("tresorId cannot be empty"))
    else if !Truthy(secret) then Reject(BadInput("secret cannot be empty"))
    else Send("revokeInvitationLink", [tresorId, secret])
  }

  /** `getInvitationLinkInfo(secret)` */
  function GetInvitationLinkInfo(secret: Value): (a: Action)
    ensures a.Send? <==> Truthy(secret)
    ensures a.Send? ==> a == Send("getInvitationLinkInfo", [secret])
    ensures !a.Send? ==> RejectsBadInput(a, "secret cannot be empty")
  {
    if !Truthy(secret) then Reject(BadInput("secret cannot be empty"))
    else Send("getInvitationLinkInfo", [secret])
  }

  /**
   * `token.serverData.IsPasswordProtected` for a truthy token: reading the
   * flag throws when the token has no `serverData` object.
   */
  function PasswordFlag(token: Value): (r: Result<Value, TypeError>)
    requires Truthy(token)
    ensures r.Failure? <==> Nullish(Prop(token, "serverData"))
    ensures r.Failure? ==> r.error == TypeError("IsPasswordProtected")
    ensures r.Success? ==> r.value == Prop(Prop(token, "serverData"), "IsPasswordProtected")
  {
    Get(Prop(token, "serverData"), "IsPasswordProtected")
  }

  /** `acceptInvitationLinkNoPassword(token)`: refuses an empty token and a password-protected link. */
  function AcceptInvitationLinkNoPassword(token: Value): (a: Action)
    ensures !Truthy(token) ==> RejectsBadInput(a, "token cannot be empty")
    ensures a.Fault? <==> Truthy(token) && PasswordFlag(token).Failure?
    ensures a.Fault? ==> a.thrown == TypeError("IsPasswordProtected")
    ensures Truthy(token) && PasswordFlag(token).Success? && Truthy(PasswordFlag(token).value) ==>
              RejectsBadInput(a, "This link needs a password")
    ensures a.Send? <==> Truthy(token) && PasswordFlag(token).Success? && !Truthy(PasswordFlag(token).value)
    ensures a.Send? ==> a == Send("acceptInvitationLinkNoPassword", [token])
  {
    if !Truthy(token) then Reject(BadInput("token cannot be empty"))
    else match PasswordFlag(token)
      case Failure(e) => Fault(e)
      case Success(flag) =>
        if Truthy(flag) then Reject(BadInput("This link needs a password"))
        else Send("acceptInvitationLinkNoPassword", [token])
  }

  /** A token as `getInvitationLinkInfo` hands it out: a record whose `serverData` carries the flag. */
  function LinkToken(isPasswordProtected: bool): Value
  {
    Record(map["serverData" := Record(map["IsPasswordProtected" := Bool(isPasswordProtected)])])
  }

  /** Tokens from the server never make the wrapper throw: they are either sent or refused as protected. */
  lemma ServerTokensAreDecided(isPasswordProtected: bool)
    ensures !AcceptInvitationLinkNoPassword(LinkToken(isPasswordProtected)).Fault?
    ensures AcceptInvitationLinkNoPassword(LinkToken(isPasswordProtected)).Send? <==> !isPasswordProtected
  {
  }

  /** A truthy token without `serverData` makes the wrapper throw instead of rejecting. */
  lemma TokenWithoutServerDataThrows()
    ensures AcceptInvitationLinkNoPassword(Record(map[])) == Fault(TypeError("IsPasswordProtected"))
  {
  }

  /**
   * The create, revoke and info wrappers are check tables; revoking is the
   * two-check table, tresor id first. Accepting is not a table: reading the
   * password flag can throw, and a table never does.
   */
  lemma LinkWrappersAreGuarded(baseLink: Value, tresorId: Value, message: Value, secret: Value)
    ensures CreateInvitationLinkNoPassword(baseLink, tresorId, message) ==
      Guarded([Check(Truthy(tresorId), "tresorId cannot be empty")],
              "createInvitationLinkNoPassword", [baseLink, tresorId, message])
    ensures RevokeInvitationLink(tresorId, secret) ==
      Guarded([Check(Truthy(tresorId), "tresorId cannot be empty"), Check(Truthy(secret), "secret cannot be empty")],
              "revokeInvitationLink", [tresorId, secret])
    ensures GetInvitationLinkInfo(secret) ==
      Guarded([Check(Truthy(secret), "secret cannot be empty")], "getInvitationLinkInfo", [secret])
  {
    GuardedPair(Check(Truthy(tresorId), "tresorId cannot be empty"), Check(Truthy(secret), "secret cannot be empty"),
                "revokeInvitationLink", [tresorId, secret]);
  }

  /** Some token makes the password-less accept throw, so it equals no check table. */
  lemma AcceptIsNotGuarded(checks: seq<Check>, cmd: string, args: seq<Value>)
    ensures AcceptInvitationLinkNoPassword(Record(map[])) != Guarded(checks, cmd, args)
  {
    GuardedNeverFaults(checks, cmd, args);
    TokenWithoutServerDataThrows();
  }
}
