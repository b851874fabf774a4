/**
 * The login iframe: a relay whose `login` result may send the browser on to
 * the identity-provider page instead of resolving. The redirect, the user's
 * callback and the thenable it may return are outcomes and opaque tokens here.
 */
module LoginIframes {
  import opened Js
  import opened Deferreds
  import opened Paths
  import opened IframeHandlers
  import opened InputIframes

  /** What the user's callback returned: something with a truthy `then`, or not. */
  datatype CallbackReturn = Thenable(handle: nat) | NotThenable

  /** The callback call `callback(userId, willRedirect)`. */
  datatype CallbackCall = CallbackCall(userId: Value, willRedirect: Value)

  /** What becomes of the promise `login` returned, once the response is in. */
  datatype LoginEffect =
      /** `window.location.assign(url)` now; the promise never settles. */
    | RedirectNow(url: string)
      /** Redirect once the callback's thenable fulfils or rejects, whichever happens. */
    | RedirectAfter(thenable: nat, url: string)
      /** `Promise.resolve(userId)` */
    | ResolveNow(userId: Value)
      /** Resolve to `userId` once the callback's thenable fulfils. */
    | ResolveAfter(thenable: nat, userId: Value)
      /** Reading the response threw; the promise rejects with this error. */
    | ReadFails(error: TypeError)

  datatype LoginStep = LoginStep(call: Option<CallbackCall>, effect: LoginEffect)

  predicate Redirects(e: LoginEffect)
  {
    e.RedirectNow? || e.RedirectAfter?
  }

  predicate Resolves(e: LoginEffect)
  {
    e.ResolveNow? || e.ResolveAfter?
  }

  predicate Waits(e: LoginEffect)
  {
    e.RedirectAfter? || e.ResolveAfter?
  }

  /**
   * `handleResult(callback, loginResponse, reTo)`: `returned` is what the
   * callback gives back when it is called; it is not consulted otherwise.
   */
  function HandleResult(callback: Value, response: Value, reTo: string, returned: CallbackReturn): (step: LoginStep)
    ensures step.effect.ReadFails? <==> Nullish(response)
    ensures step.effect.ReadFails? ==> step == LoginStep(None, ReadFails(TypeError("needsRedirect")))
    ensures !Nullish(response) ==> (step.call.Some? <==> Truthy(callback))
    ensures step.call.Some? ==>
              step.call.value == CallbackCall(Prop(response, "userId"), Prop(response, "needsRedirect"))
    ensures Redirects(step.effect) <==> !Nullish(response) && Truthy(Prop(response, "needsRedirect"))
    ensures Redirects(step.effect) ==> step.effect.url == reTo
    ensures Resolves(step.effect) ==> step.effect.userId == Prop(response, "userId")
    ensures Waits(step.effect) <==> !Nullish(response) && Truthy(callback) && returned.Thenable?
    ensures Waits(step.effect) ==> step.effect.thenable == returned.handle
  {
    match Get(response, "needsRedirect")
    case Failure(e) => LoginStep(None, ReadFails(e))
    case Success(needsRedirect) =>
      var userId := Prop(response, "userId");
      var call := if Truthy(callback) then Some(CallbackCall(userId, needsRedirect)) else None;
      var waits := Truthy(callback) && returned.Thenable?;
      if Truthy(needsRedirect) then
        LoginStep(call, if waits then RedirectAfter(returned.handle, reTo) else RedirectNow(reTo))
      else
        LoginStep(call, if waits then ResolveAfter(returned.handle, userId) else ResolveNow(userId))
  }

  /** The response record the computing iframe sends for a successful login. */
  function LoginResponse(needsRedirect: bool, userId: string): Value
  {
    Record(map["needsRedirect" := Bool(needsRedirect), "userId" := Str(userId)])
  }

  /**
   * A redirecting login never resolves to the user id, and a callback learns
   * it is about to be redirected; a non-redirecting login resolves to the id.
   */
  lemma RedirectOrResolve(callback: Value, needsRedirect: bool, userId: string, reTo: string, returned: CallbackReturn)
    ensures var step := HandleResult(callback, LoginResponse(needsRedirect, userId), reTo, returned);
      && (needsRedirect ==> Redirects(step.effect) && !Resolves(step.effect) && step.effect.url == reTo)
      && (!needsRedirect ==> Resolves(step.effect) && step.effect.userId == Str(userId))
      && (Truthy(callback) ==> step.call == Some(CallbackCall(Str(userId), Bool(needsRedirect))))
  {
    var response := LoginResponse(needsRedirect, userId);
    assert Prop(response, "needsRedirect") == Bool(needsRedirect);
    assert Prop(response, "userId") == Str(userId);
  }

  /** With the default `callback = null` nothing is invoked and nothing is awaited. */
  lemma DefaultCallbackIsNotInvoked(response: Value, reTo: string, returned: CallbackReturn)
    ensures HandleResult(Null, response, reTo, returned).call == None
    ensures !Waits(HandleResult(Null, response, reTo, returned).effect)
  {
  }

  /** `LoginIframe`: a relay that also knows the identity-provider continuation path. */
  class LoginIframe {
    const relay: InputIframe
    const authPath: string

    ghost predicate Valid()
      reads relay, relay.own, relay.api, relay.own.Repr, relay.api.Repr
    {
      relay.Valid()
    }

    /** `new LoginIframe(embedded_data, api, iframe)` */
    constructor (data: PathData, api: IframeHandler, contentWindow: WindowRef)
      requires api.Valid()
      ensures Valid() && fresh(relay) && fresh(relay.own) && fresh(relay.own.Repr)
      ensures relay.api == api && relay.own.embeddedApiOrigin == data.origin && relay.own.contentWindow == contentWindow
      ensures authPath == data.authPath
      ensures relay.own.idCounter == 1 && relay.own.awaiting == map[1 := Continuation("getId", [], None)]
      ensures relay.JustBuilt()
    {
      relay := new InputIframe(data.origin, api, contentWindow);
      authPath := data.authPath;
    }

    /** `embeddedApiOrigin + authPath`, where a login that needs a redirect sends the browser. */
    function RedirectTarget(): string
    {
      relay.own.embeddedApiOrigin + authPath
    }

    /** `login(userId)`: one `apiCall("login", [userId])`, no validation. */
    method Login(userId: Value) returns (p: JsPromise)
      requires Valid()
      modifies relay.api
      ensures Valid() && fresh(p) && unchanged(relay.own)
      ensures CallIssued(relay.api, "login", [userId], Some(relay.idPromise), p)
    {
      p := relay.ApiCall("login", [userId]);
    }

    /** The continuation `login` attaches: `handleResult` with this iframe's redirect target. */
    function OnLoginResponse(callback: Value, response: Value, returned: CallbackReturn): (step: LoginStep)
      ensures Redirects(step.effect) ==> step.effect.url == relay.own.embeddedApiOrigin + authPath
      ensures Redirects(step.effect) <==> !Nullish(response) && Truthy(Prop(response, "needsRedirect"))
    {
      HandleResult(callback, response, RedirectTarget(), returned)
    }
  }
}
