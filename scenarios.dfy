/**
 * Whole-channel runs: several calls on a fresh channel, an encryption from
 * `setup` to the resolved promise, a relayed login, and two event
 * registrations sharing one subscription.
 */
module Scenarios {
  import opened Js
  import opened Deferreds
  import opened IframeHandlers
  import opened InputIframes
  import opened Iframes
  import Encryption

  /** A response message `{type, id, value}` as the embedded document posts it. */
  function Response(kind: string, id: nat, value: Value): Value
  {
    Record(map["type" := Str(kind), "id" := Num(id), "value" := value])
  }

  /**
   * Issuing `call(cmds[k])` for every k on a channel with nothing issued yet:
   * the k-th call gets id k + 1 and its own pending promise, and nothing is
   * posted while the calls wait for their gates.
   */
  method IssueCalls(h: IframeHandler, cmds: seq<string>) returns (promises: seq<JsPromise>)
    requires h.Valid() && h.idCounter == 0 && h.outbox == []
    modifies h
    ensures h.Valid() && h.idCounter == |cmds| && |promises| == |cmds|
    ensures IsIdRange(h.pending.Keys, |cmds|) && h.awaiting.Keys == h.pending.Keys
    ensures forall k :: 0 <= k < |cmds| ==>
              h.awaiting[k + 1] == Continuation(cmds[k], [], None) && promises[k] == h.pending[k + 1].promise
    ensures h.outbox == []
  {
    assert h.pending.Keys == {} && h.awaiting.Keys == {} by {
      assert forall id | id in h.pending :: 1 <= id <= 0;
      assert IsIdRange(h.awaiting.Keys + SentIds(h.outbox), 0);
    }
    promises := [];
    var i := 0;
    while i < |cmds|
      invariant 0 <= i <= |cmds| && |promises| == i
      invariant h.Valid() && h.idCounter == i && h.outbox == []
      invariant IsIdRange(h.pending.Keys, i) && h.awaiting.Keys == h.pending.Keys
      invariant forall k :: 0 <= k < i ==>
                  h.awaiting[k + 1] == Continuation(cmds[k], [], None) && promises[k] == h.pending[k + 1].promise
    {
      var p := h.Call(cmds[i], [], None);
      promises := promises + [p];
      i := i + 1;
    }
  }

  /**
   * Once the channel has loaded, the ungated calls 1..n go out one by one:
   * n messages, each id exactly once, each to the expected origin with the
   * command and arguments its call was given. The calls are posted in id
   * order here, which is one schedule among many: `Transmit` may post any
   * ready call first, and the wire order is not fixed.
   */
  method TransmitAll(h: IframeHandler, n: nat)
    requires h.Valid() && h.load.promise.state.Fulfilled? && h.outbox == []
    requires forall id :: 1 <= id <= n ==> id in h.awaiting && h.awaiting[id].idGate.None?
    modifies h
    ensures h.Valid() && |h.outbox| == n
    ensures forall k :: 0 <= k < n ==>
              var c := old(h.awaiting)[k + 1];
              h.outbox[k] == Posted(Request(c.cmd, c.args, k + 1, Undefined), h.embeddedApiOrigin)
    ensures forall id :: 1 <= id <= n ==> id !in h.awaiting
    ensures h.pending == old(h.pending)
  {
    var i := 0;
    while i < n
      invariant 0 <= i <= n
      invariant h.Valid() && |h.outbox| == i && h.pending == old(h.pending)
      invariant h.load.promise.state.Fulfilled?
      invariant forall id :: i < id <= n ==> id in h.awaiting && h.awaiting[id] == old(h.awaiting)[id]
      invariant forall id :: 1 <= id <= i ==> id !in h.awaiting
      invariant forall k :: 0 <= k < i ==>
                  var c := old(h.awaiting)[k + 1];
                  h.outbox[k] == Posted(Request(c.cmd, c.args, k + 1, Undefined), h.embeddedApiOrigin)
    {
      var sent := h.Transmit(i + 1);
      assert sent;
      i := i + 1;
    }
  }

  /**
   * `setup`, then `encrypt("tresor1", "hello")`: once the computing iframe
   * has loaded exactly `{cmd: "encrypt", args: ["tresor1", "hello"], id: 1}`
   * is posted, and the response `{type: "resolve", id: 1, value: "aGVsbG8="}`
   * fulfils the returned promise with "aGVsbG8=".
   */
  method EncryptRoundTrip(origin: string, apiWindow: WindowRef) returns (posted: seq<Posted>, outcome: Settlement)
    ensures posted == [Posted(Request("encrypt", [Str("tresor1"), Str("hello")], 1, Undefined), origin)]
    ensures outcome == Fulfilled(Str("aGVsbG8="))
  {
    var registry := new Registry();
    var _ := registry.Setup(origin, None);
    var r := registry.Perform(Encryption.Encrypt(Str("tresor1"), Str("hello")), apiWindow);
    var h := registry.apiHandler.value;
    assert h.awaiting == map[1 := Continuation("encrypt", [Str("tresor1"), Str("hello")], None)] && h.outbox == [];
    h.OnLoad();
    assert h.embeddedApiOrigin == origin;
    var sent := h.Transmit(1);
    assert sent;
    posted := h.outbox;
    ResolveCompletes(apiWindow, origin, 1, Str("aGVsbG8="), h.pending.Keys);
    var result := h.HandleResponse(MessageEvent(apiWindow, origin, Response("resolve", 1, Str("aGVsbG8="))));
    outcome := r.promise.state;
  }

  /** A resolve response from the owned window for a pending id completes exactly that call with its value. */
  lemma ResolveCompletes(window: WindowRef, origin: string, id: nat, value: Value, pendingIds: set<nat>)
    requires id in pendingIds
    ensures Classify(MessageEvent(window, origin, Response("resolve", id, value)), window, origin, pendingIds)
            == Complete(id, Fulfilled(value))
  {
    var data := Response("resolve", id, value);
    assert Prop(data, "type") == Str("resolve");
    assert Prop(data, "id") == Num(id);
    assert Prop(data, "value") == value;
  }

  /**
   * A relay over `relayWindow` whose own iframe has loaded and answered its
   * `getId` call with `id`: one request on its own channel, none on `api`.
   */
  method RelayWithId(origin: string, api: IframeHandler, relayWindow: WindowRef, id: Value) returns (relay: InputIframe)
    requires api.Valid()
    ensures relay.Valid() && fresh(relay.own) && relay.api == api
    ensures relay.idPromise.state == Fulfilled(id) && relay.own.idCounter == 1
  {
    relay := new InputIframe(origin, api, relayWindow);
    var own := relay.own;
    own.OnLoad();
    var sent := own.Transmit(1);
    ResolveCompletes(relayWindow, origin, 1, id, own.pending.Keys);
    var result := own.HandleResponse(MessageEvent(relayWindow, origin, Response("resolve", 1, id)));
  }

  /**
   * A relay asks its own iframe for its id; once that arrives as "relay-7",
   * `apiCall("login", ["user1"])` posts `{cmd: "login", args: ["user1"],
   * id: 1, iframeId: "relay-7"}` on the shared channel and nothing more on
   * the relay's own.
   */
  method RelayedLogin(origin: string, apiWindow: WindowRef, relayWindow: WindowRef)
    returns (apiPosted: seq<Posted>, ownRequests: nat)
    ensures apiPosted == [Posted(Request("login", [Str("user1")], 1, Str("relay-7")), origin)]
    ensures ownRequests == 1
  {
    var api := new IframeHandler(origin, apiWindow);
    var relay := RelayWithId(origin, api, relayWindow, Str("relay-7"));
    var p := relay.ApiCall("login", [Str("user1")]);
    assert api.awaiting == map[1 := Continuation("login", [Str("user1")], Some(relay.idPromise))] && api.outbox == [];
    api.OnLoad();
    var sent := api.Transmit(1);
    assert sent;
    apiPosted := api.outbox;
    ownRequests := relay.own.idCounter;
  }

  /**
   * A loaded channel on which "focus" and then "blur" were registered: one
   * "subscribe" request posted, and both registrations hold its promise.
   */
  method SubscribeTwice(origin: string, window: WindowRef) returns (h: IframeHandler, p1: JsPromise, p2: JsPromise)
    ensures h.Valid() && fresh(h) && fresh(h.Repr) && h.embeddedApiOrigin == origin && h.contentWindow == window
    ensures h.load.promise.state.Fulfilled? && 1 in h.pending && p1 == p2 == h.pending[1].promise
    ensures h.outbox == [Posted(Request("subscribe", [], 1, Undefined), origin)]
  {
    h := new IframeHandler(origin, window);
    p1 := h.OnEvent("focus", 1);
    assert h.awaiting == map[1 := Continuation("subscribe", [], None)] && p1 == h.pending[1].promise;
    p2 := h.OnEvent("blur", 2);
    assert p2 == p1 && h.awaiting == map[1 := Continuation("subscribe", [], None)] && h.outbox == [];
    assert h.load.promise.state == Pending;
    h.OnLoad();
    var sent := h.Transmit(1);
  }

  /**
   * Registering for "focus" and then for "blur" issues one "subscribe"
   * request in all, both registrations return its promise, and its response
   * settles that one promise.
   */
  method TwoEventTypesOneSubscribe(origin: string, window: WindowRef)
    returns (subscribes: seq<Posted>, first: Settlement, second: Settlement)
    ensures subscribes == [Posted(Request("subscribe", [], 1, Undefined), origin)]
    ensures first == second == Fulfilled(Undefined)
  {
    var h, p1, p2 := SubscribeTwice(origin, window);
    subscribes := h.outbox;
    ResolveCompletes(window, origin, 1, Undefined, h.pending.Keys);
    var result := h.HandleResponse(MessageEvent(window, origin, Response("resolve", 1, Undefined)));
    first := p1.state;
    second := p2.state;
  }

  /**
   * `setup(origin, tenantPath)` and then `wrapLoginIframe(iframe)`: the login
   * iframe's redirect target is the tenant's continuation page on the
   * configured origin.
   */
  method LoginAfterSetup(origin: string, tenantPath: Option<string>, window: WindowRef, apiWindow: WindowRef)
    returns (target: string)
    ensures target == origin + TenantPath(tenantPath) + "/static/auth.html"
  {
    var registry := new Registry();
    var _ := registry.Setup(origin, tenantPath);
    var login := registry.WrapLoginIframe(window, apiWindow);
    target := login.value.RedirectTarget();
    LoginRedirectsToTenantAuthPage(origin, tenantPath);
  }
}
