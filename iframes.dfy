/**
 * The SDK's configuration and iframe registry: `setup` derives every URL
 * from the origin and tenant path once, the shared channel to the computing
 * iframe is built on first use and reused afterwards, and every relay is
 * built against that origin and that one channel.
 */
module Iframes {
  import opened Js
  import opened Deferreds
  import opened Rejections
  import opened Actions
  import opened Paths
  import opened IframeHandlers
  import opened InputIframes
  import opened LoginIframes

  /** The SDK version baked into every embedded document's path. */
  const SdkVersion: string := "4"

  /** The tenant path with its default: an omitted argument is "". */
  function TenantPath(tenantPath: Option<string>): string
  {
    if tenantPath.Some? then tenantPath.value else ""
  }

  /** `${origin}${tenantPath}/static/v${SDK_VERSION}` */
  function IframeRoot(origin: string, tenantPath: Option<string>): string
  {
    origin + TenantPath(tenantPath) + "/static/v" + SdkVersion
  }

  /** The embedded documents the SDK knows, each with its fixed file name. */
  datatype Page = Api | Login | Register | AcceptInvitationLink | CreateInvitationLink | ChangePassword

  function FileName(k: Page): string
  {
    match k
    case Api => "/api.html"
    case Login => "/embedded-login.html"
    case Register => "/embedded-register.html"
    case AcceptInvitationLink => "/embedded-acceptInvitationLink.html"
    case CreateInvitationLink => "/embedded-createInvitationLink.html"
    case ChangePassword => "/embedded-changePassword.html"
  }

  /** The field of `paths` that holds page `k`. */
  function PagePath(p: PathData, k: Page): string
  {
    match k
    case Api => p.path
    case Login => p.loginPath
    case Register => p.registerPath
    case AcceptInvitationLink => p.acceptInvitationLinkPath
    case CreateInvitationLink => p.createInvitationLinkPath
    case ChangePassword => p.changePasswordPath
  }

  /** The record `setup(origin, tenantPath)` stores. */
  function ComputePaths(origin: string, tenantPath: Option<string>): (p: PathData)
    ensures p.origin == origin
    ensures forall k :: PagePath(p, k) == IframeRoot(origin, tenantPath) + FileName(k)
    ensures p.authPath == TenantPath(tenantPath) + "/static/auth.html"
  {
    var root := IframeRoot(origin, tenantPath);
    PathData(
      origin,
      root + "/api.html",
      root + "/embedded-login.html",
      root + "/embedded-register.html",
      root + "/embedded-acceptInvitationLink.html",
      root + "/embedded-createInvitationLink.html",
      root + "/embedded-changePassword.html",
      TenantPath(tenantPath) + "/static/auth.html")
  }

  /** Every embedded document is served from the configured origin, under the versioned root. */
  lemma PagesLiveUnderOrigin(origin: string, tenantPath: Option<string>, k: Page)
    ensures origin <= IframeRoot(origin, tenantPath) <= PagePath(ComputePaths(origin, tenantPath), k)
  {
    var root := IframeRoot(origin, tenantPath);
    assert root == origin + (TenantPath(tenantPath) + "/static/v" + SdkVersion);
    assert PagePath(ComputePaths(origin, tenantPath), k) == root + FileName(k);
  }

  /** The continuation path depends on the tenant path only. */
  lemma AuthPathIgnoresOrigin(origin1: string, origin2: string, tenantPath: Option<string>)
    ensures ComputePaths(origin1, tenantPath).authPath == ComputePaths(origin2, tenantPath).authPath
  {
  }

  /** Appending to a common prefix keeps distinct suffixes distinct. */
  lemma {:induction false} PrefixCancels(prefix: string, a: string, b: string)
    requires prefix + a == prefix + b
    ensures a == b
  {
    assert a == (prefix + a)[|prefix|..];
    assert b == (prefix + b)[|prefix|..];
  }

  /** Different embedded documents never share a URL. */
  lemma {:induction false} PagePathsDistinct(origin: string, tenantPath: Option<string>, k1: Page, k2: Page)
    requires k1 != k2
    ensures PagePath(ComputePaths(origin, tenantPath), k1) != PagePath(ComputePaths(origin, tenantPath), k2)
  {
    var root := IframeRoot(origin, tenantPath);
    if PagePath(ComputePaths(origin, tenantPath), k1) == PagePath(ComputePaths(origin, tenantPath), k2) {
      PrefixCancels(root, FileName(k1), FileName(k2));
    }
  }

  /** The module-level state of the registry: `paths` and `apiHandler`. */
  class Registry {
    var paths: Option<PathData>
    var apiHandler: Option<IframeHandler>

    /** The shared channel exists only after `setup`, and it talks to the configured origin. */
    predicate Valid()
      reads this
    {
      apiHandler.Some? ==> paths.Some? && apiHandler.value.embeddedApiOrigin == paths.value.origin
    }

    /** The state when the module is loaded: nothing configured, no channel. */
    constructor ()
      ensures Valid() && paths == None && apiHandler == None
    {
      paths := None;
      apiHandler := None;
    }

    /** `setup(origin, tenantPath)`; a second call throws and keeps the first configuration. */
    method Setup(origin: string, tenantPath: Option<string>) returns (thrown: Option<Thrown>)
      requires Valid()
      modifies this
      ensures Valid() && apiHandler == old(apiHandler)
      ensures old(paths).Some? ==> thrown == Some(ThrownError("setup called twice")) && paths == old(paths)
      ensures old(paths).None? ==> thrown == None && paths == Some(ComputePaths(origin, tenantPath))
    {
      if paths.Some? {
        return Some(ThrownError("setup called twice"));
      }
      paths := Some(ComputePaths(origin, tenantPath));
      thrown := None;
    }

    /** `checkSetup()`: throws unless `setup` has run. */
    function CheckSetup(): (thrown: Option<Thrown>)
      reads this
      ensures thrown.None? <==> paths.Some?
      ensures thrown.Some? ==> thrown.value == ThrownError("setup must be called before usage.")
    {
      if paths.None? then Some(ThrownError("setup must be called before usage.")) else None
    }

    /**
     * `getApiHandler()`: the shared channel, built on first use towards
     * `paths.origin` and the computing iframe's window `apiWindow`, and the
     * same object on every later call.
     */
    method GetApiHandler(apiWindow: WindowRef) returns (r: Result<IframeHandler, Thrown>)
      requires Valid()
      modifies this
      ensures Valid() && paths == old(paths)
      ensures old(paths).None? ==>
                r == Failure(ThrownError("setup must be called before usage.")) && apiHandler == old(apiHandler)
      ensures old(apiHandler).Some? ==> r == Success(old(apiHandler).value) && apiHandler == old(apiHandler)
      ensures old(paths).Some? && old(apiHandler).None? ==>
                && r.Success? && apiHandler == Some(r.value) && fresh(r.value) && fresh(r.value.Repr)
                && r.value.Valid() && r.value.contentWindow == apiWindow
                && r.value.idCounter == 0 && r.value.pending == map[] && r.value.outbox == []
                && r.value.load.promise.state == Pending
      ensures r.Success? ==> apiHandler == Some(r.value) && r.value.embeddedApiOrigin == paths.value.origin
    {
      var check := CheckSetup();
      if check.Some? {
        return Failure(check.value);
      }
      if apiHandler.None? {
        var h := new IframeHandler(paths.value.origin, apiWindow);
        apiHandler := Some(h);
      }
      r := Success(apiHandler.value);
    }

    /**
     * Runs a shared-channel wrapper's action: the checks come before
     * `getApiHandler()`, so a rejected input neither needs `setup` nor builds
     * the channel.
     */
    method Perform(a: Action, apiWindow: WindowRef) returns (r: Returned)
      requires Valid() && (apiHandler.Some? ==> apiHandler.value.Valid())
      modifies this, if apiHandler.Some? then {apiHandler.value} else {}
      ensures Valid() && paths == old(paths)
      ensures apiHandler.Some? ==> apiHandler.value.Valid()
      ensures !a.Send? ==> apiHandler == old(apiHandler) && (old(apiHandler).Some? ==> unchanged(old(apiHandler).value))
      ensures a.Reject? ==>
                r.Returns? && fresh(r.promise) && r.promise.state == Rejection(a.error.code, a.error.description)
      ensures a.Fault? ==> r == Throws(ThrownTypeError(a.thrown))
      ensures a.Send? && old(paths).None? ==>
                r == Throws(ThrownError("setup must be called before usage.")) && apiHandler == old(apiHandler)
      ensures a.Send? && old(paths).Some? ==>
                r.Returns? && fresh(r.promise) && apiHandler.Some? && apiHandler.value.embeddedApiOrigin == paths.value.origin
      ensures a.Send? && old(apiHandler).Some? ==>
                apiHandler == old(apiHandler) && CallIssued(old(apiHandler).value, a.cmd, a.args, None, r.promise)
      ensures a.Send? && old(paths).Some? && old(apiHandler).None? ==>
                && fresh(apiHandler.value) && fresh(apiHandler.value.Repr) && apiHandler.value.contentWindow == apiWindow
                && apiHandler.value.load.promise.state == Pending
                && apiHandler.value.idCounter == 1 && apiHandler.value.pending.Keys == {1}
                && r.promise == apiHandler.value.pending[1].promise && r.promise.state == Pending
                && apiHandler.value.awaiting == map[1 := Continuation(a.cmd, a.args, None)]
                && apiHandler.value.outbox == []
    {
      match a
      case Reject(e) =>
        var p := RejectedPromise(e);
        r := Returns(p);
      case Fault(e) =>
        r := Throws(ThrownTypeError(e));
      case Send(cmd, args) =>
        var got := GetApiHandler(apiWindow);
        if got.Failure? {
          r := Throws(got.error);
        } else {
          var p := got.value.Call(cmd, args, None);
          r := Returns(p);
        }
    }
  
    /**
     * `wrapRegistrationIframe(iframe)` and its siblings for the accept-link,
     * create-link and change-password iframes: a relay to `window` that
     * expects `paths.origin` and uses the one shared channel.
     */
    method WrapInputIframe(window: WindowRef, apiWindow: WindowRef) returns (r: Result<InputIframe, Thrown>)
      requires Valid() && (apiHandler.Some? ==> apiHandler.value.Valid())
      modifies this
      ensures Valid() && paths == old(paths)
      ensures old(paths).None? ==>
                r == Failure(ThrownError("setup must be called before usage.")) && apiHandler == old(apiHandler)
      ensures old(paths).Some? ==>
                && r.Success? && r.value.Valid() && fresh(r.value.own)
                && r.value.own.embeddedApiOrigin == paths.value.origin && r.value.own.contentWindow == window
                && r.value.JustBuilt()
                && apiHandler == Some(r.value.api)
                && (old(apiHandler).Some? ==> r.value.api == old(apiHandler).value)
                && (old(apiHandler).None? ==>
                      r.value.api.idCounter == 0 && r.value.api.pending == map[] && r.value.api.outbox == [])
    {
      var check := CheckSetup();
      if check.Some? {
        return Failure(check.value);
      }
      var api := GetApiHandler(apiWindow);
      var relay := new InputIframe(paths.value.origin, api.value, window);
      r := Success(relay);
    }

    /** `wrapLoginIframe(iframe)`: like the other relays, but built from the whole `paths` record. */
    method WrapLoginIframe(window: WindowRef, apiWindow: WindowRef) returns (r: Result<LoginIframe, Thrown>)
      requires Valid() && (apiHandler.Some? ==> apiHandler.value.Valid())
      modifies this
      ensures Valid() && paths == old(paths)
      ensures old(paths).None? ==>
                r == Failure(ThrownError("setup must be called before usage.")) && apiHandler == old(apiHandler)
      ensures old(paths).Some? ==>
                && r.Success? && r.value.Valid() && fresh(r.value.relay)
                && r.value.relay.own.embeddedApiOrigin == paths.value.origin
                && r.value.RedirectTarget() == paths.value.origin + paths.value.authPath
                && r.value.relay.JustBuilt()
                && apiHandler == Some(r.value.relay.api)
                && (old(apiHandler).Some? ==> r.value.relay.api == old(apiHandler).value)
                && (old(apiHandler).None? ==>
                      r.value.relay.api.idCounter == 0 && r.value.relay.api.pending == map[]
                      && r.value.relay.api.outbox == [])
    {
      var check := CheckSetup();
      if check.Some? {
        return Failure(check.value);
      }
      var api := GetApiHandler(apiWindow);
      var login := new LoginIframe(paths.value, api.value, window);
      r := Success(login);
    }
  }

  /**
   * After `setup(origin, tenantPath)`, a login iframe redirects to the
   * tenant's continuation page on the configured origin.
   */
  lemma LoginRedirectsToTenantAuthPage(origin: string, tenantPath: Option<string>)
    ensures var p := ComputePaths(origin, tenantPath);
      p.origin + p.authPath == origin + TenantPath(tenantPath) + "/static/auth.html"
  {
  }
}
