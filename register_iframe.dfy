/**
 * The registration iframe's wrappers. They run on a relay: a valid call goes
 * to the shared channel through `apiCall`, tagged with the relay's id.
 */
module RegisterIframes {
  import opened Js
  import opened Deferreds
  import opened Rejections
  import opened Actions

  /** `register(userId, regId)` */
  function Register(userId: Value, regId: Value): (a: Action)
    ensures a.Send? <==> Truthy(userId) && Truthy(regId)
    ensures a.Send? ==> a == Send("register", [userId, regId])
    ensures !a.Send? ==> RejectsBadInput(a, "userId and regId cannot be empty")
  {
    if !Truthy(userId) || !Truthy(regId) then Reject(BadInput("userId and regId cannot be empty"))
    else Send("register", [userId, regId])
  }

  /** `login(userId)`: forwarded without validation. */
  function Login(userId: Value): (a: Action)
    ensures a.Send? && a.cmd == "login" && a.args == [userId]
  {
    Send("login", [userId])
  }

  /**
   * The promise `login` returns, from the state of the `apiCall` promise:
   * `.then(r => r.userId)`, so a fulfilled response becomes its `userId`
   * field and a `null`/`undefined` response rejects with a TypeError.
   */
  function LoginUserId(response: Settlement): (r: Settlement)
    ensures response.Pending? <==> r.Pending?
    ensures response.Rejected? ==> r == response
    ensures response.Fulfilled? && !Nullish(response.value) ==> r == Fulfilled(Prop(response.value, "userId"))
    ensures response.Fulfilled? && Nullish(response.value) ==> r == Rejected(ThrownValue(TypeError("userId")))
  {
    match response
    case Pending => Pending
    case Rejected(reason) => Rejected(reason)
    case Fulfilled(v) =>
      match Get(v, "userId")
      case Success(userId) => Fulfilled(userId)
      case Failure(e) => Rejected(ThrownValue(e))
  }

  /** A login response fulfils the returned promise with its user id, whatever else it carries. */
  lemma LoginResolvesToUserId(userId: string, rest: map<string, Value>)
    ensures LoginUserId(Fulfilled(Record(rest["userId" := Str(userId)]))) == Fulfilled(Str(userId))
  {
  }

  /** `checkPasswordMatch()` */
  function CheckPasswordMatch(): (a: Action)
    ensures a.Send? && a.cmd == "checkPasswordMatch" && a.args == []
  {
    Send("checkPasswordMatch", [])
  }

  /** `getPasswordStrength()` */
  function GetPasswordStrength(): (a: Action)
    ensures a.Send? && a.cmd == "getPasswordStrength" && a.args == []
  {
    Send("getPasswordStrength", [])
  }

  /**
   * `register` is the one-check table over both ids; `login` and the password
   * queries have an empty table, so no input of theirs is ever refused.
   */
  lemma RelayWrappersAreGuarded(userId: Value, regId: Value)
    ensures Register(userId, regId) ==
      Guarded([Check(Truthy(userId) && Truthy(regId), "userId and regId cannot be empty")], "register", [userId, regId])
    ensures Login(userId) == Guarded([], "login", [userId])
    ensures CheckPasswordMatch() == Guarded([], "checkPasswordMatch", [])
    ensures GetPasswordStrength() == Guarded([], "getPasswordStrength", [])
  {
  }
}
