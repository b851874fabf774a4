/** The wrappers of the iframe in which the user sets a password for a new invitation link. */
module CreateInvitationLinkIframes {
  import opened Js
  import opened Rejections
  import opened Actions
  import RegisterIframes

  /** `createInvitationLink(linkBase, tresorId, message)`: only the tresor id is checked. */
  function CreateInvitationLink(linkBase: Value, tresorId: Value, message: Value): (a: Action)
    ensures a.Send? <==> Truthy(tresorId)
    ensures a.Send? ==> a == Send("createInvitationLink", [linkBase, tresorId, message])
    ensures !a.Send? ==> RejectsBadInput(a, "tresorId cannot be empty")
  {
    if !Truthy(tresorId) then Reject(BadInput("tresorId cannot be empty"))
    else Send("createInvitationLink", [linkBase, tresorId, message])
  }

  /** `checkPasswordsMatch()`: the method name is plural, the command it sends is not. */
  function CheckPasswordsMatch(): (a: Action)
    ensures a.Send? && a.cmd == "checkPasswordMatch" && a.args == []
  {
    Send("checkPasswordMatch", [])
  }

  /** `getPasswordStrength()` */
  function GetPasswordStrength(): (a: Action)
    ensures a.Send? && a.cmd == "getPasswordStrength" && a.args == []
  {
    Send("getPasswordStrength", [])
  }

  /** Both password iframes ask the computing iframe the very same questions. */
  lemma PasswordChecksMatchRegistration()
    ensures CheckPasswordsMatch() == RegisterIframes.CheckPasswordMatch()
    ensures GetPasswordStrength() == RegisterIframes.GetPasswordStrength()
  {
  }

  /** `createInvitationLink` is the one-check table on the tresor id; the password queries have an empty table. */
  lemma CreateLinkWrappersAreGuarded(linkBase: Value, tresorId: Value, message: Value)
    ensures CreateInvitationLink(linkBase, tresorId, message) ==
      Guarded([Check(Truthy(tresorId), "tresorId cannot be empty")], "createInvitationLink", [linkBase, tresorId, message])
    ensures CheckPasswordsMatch() == Guarded([], "checkPasswordMatch", [])
    ensures GetPasswordStrength() == Guarded([], "getPasswordStrength", [])
  {
  }
}
