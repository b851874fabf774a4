/**
 * A relay: a channel to an input iframe (a password field, say) that also
 * holds the shared channel to the computing iframe. At construction it asks
 * its own iframe for its id; every `apiCall` goes to the shared channel
 * tagged with that id, so the computing iframe can read the input from the
 * relay's document without the secret ever passing through the host page.
 */
module InputIframes {
  import opened Js
  import opened Deferreds
  import opened Rejections
  import opened Actions
  import opened IframeHandlers

  /**
   * Between the two states `h` registered `callback` under `eventType`, and
   * `p` is its one subscription promise; nothing else of `h` changed except
   * for the "subscribe" call the first registration issues, which adds one
   * fresh pending promise under the next id and keeps every other entry.
   */
  twostate predicate EventRegistered(h: IframeHandler, eventType: string, callback: CallbackRef, new p: JsPromise)
    reads h, p
  {
    && h.eventSubscribePromise == Some(p)
    && h.eventCallbacks == old(h.eventCallbacks)[eventType := CallbacksFor(old(h.eventCallbacks), Str(eventType)) + [callback]]
    && h.outbox == old(h.outbox)
    && (old(h.eventSubscribePromise).Some? ==>
          p == old(h.eventSubscribePromise).value && h.idCounter == old(h.idCounter)
          && h.pending == old(h.pending) && h.awaiting == old(h.awaiting))
    && (old(h.eventSubscribePromise).None? ==>
          h.idCounter == old(h.idCounter) + 1
          && h.pending.Keys == old(h.pending).Keys + {h.idCounter}
          && (forall id | id in old(h.pending) :: h.pending[id] == old(h.pending)[id])
          && fresh(p) && p == h.pending[h.idCounter].promise && p.state == Pending
          && h.awaiting == old(h.awaiting)[h.idCounter := Continuation("subscribe", [], None)])
  }

  class InputIframe {
    /** The relay's own channel, to its input iframe. */
    const own: IframeHandler
    /** The shared channel to the computing iframe; not owned by the relay. */
    const api: IframeHandler
    /** The promise of the relay's `getId` call, created once. */
    const idPromise: JsPromise

    ghost predicate Valid()
      reads this, own, api, own.Repr, api.Repr
    {
      own.Valid() && api.Valid() && own.Repr !! api.Repr && idPromise in own.Repr
    }

    /**
     * The relay's own channel as construction leaves it: `getId` issued as
     * id 1 and still pending, no event registrations, nothing posted.
     */
    ghost predicate JustBuilt()
      reads this, own, idPromise
    {
      && own.idCounter == 1 && own.pending.Keys == {1} && idPromise == own.pending[1].promise
      && idPromise.state == Pending
      && own.awaiting == map[1 := Continuation("getId", [], None)] && own.outbox == []
      && own.eventCallbacks == map[] && own.eventSubscribePromise == None
    }

    /** `new InputIframe(origin, api, iframe)`: a fresh channel that has issued `getId` as its first call. */
    constructor (origin: string, api: IframeHandler, contentWindow: WindowRef)
      requires api.Valid()
      ensures Valid() && fresh(own) && fresh(own.Repr)
      ensures this.api == api
      ensures own.embeddedApiOrigin == origin && own.contentWindow == contentWindow
      ensures own.idCounter == 1 && own.pending.Keys == {1} && idPromise == own.pending[1].promise
      ensures idPromise.state == Pending && own.load.promise.state == Pending
      ensures own.awaiting == map[1 := Continuation("getId", [], None)] && own.outbox == []
      ensures own.eventCallbacks == map[] && own.eventSubscribePromise == None
      ensures JustBuilt()
    {
      var channel := new IframeHandler(origin, contentWindow);
      var p := channel.Call("getId", [], None);
      own := channel;
      idPromise := p;
      this.api := api;
    }

    /** `apiCall(method, args)`: one call on the shared channel, gated on this relay's id. */
    method ApiCall(name: string, args: seq<Value>) returns (p: JsPromise)
      requires Valid()
      modifies api
      ensures Valid() && fresh(p) && unchanged(own)
      ensures CallIssued(api, name, args, Some(idPromise), p)
    {
      p := api.Call(name, args, Some(idPromise));
    }

    /** Runs a feature wrapper's action the way the relay-based wrappers do: `apiCall` or an early return. */
    method Perform(a: Action) returns (r: Returned)
      requires Valid()
      modifies api
      ensures Valid() && unchanged(own)
      ensures a.Reject? ==>
                r.Returns? && fresh(r.promise) && r.promise.state == Rejection(a.error.code, a.error.description)
                && unchanged(api)
      ensures a.Fault? ==> r == Throws(ThrownTypeError(a.thrown)) && unchanged(api)
      ensures a.Send? ==> r.Returns? && fresh(r.promise) && CallIssued(api, a.cmd, a.args, Some(idPromise), r.promise)
    {
      match a
      case Reject(e) =>
        var p := RejectedPromise(e);
        r := Returns(p);
      case Fault(e) =>
        r := Throws(ThrownTypeError(e));
      case Send(cmd, args) =>
        var p := ApiCall(cmd, args);
        r := Returns(p);
    }

    /** `getClasses(id)` on the relay's own channel. */
    method GetClasses(id: Value) returns (p: JsPromise)
      requires Valid()
      modifies own
      ensures Valid() && fresh(p) && unchanged(api)
      ensures CallIssued(own, "getClasses", [id], None, p)
    {
      p := own.Call("getClasses", [id], None);
    }

    /** `addClass(id, className)` on the relay's own channel. */
    method AddClass(id: Value, className: Value) returns (p: JsPromise)
      requires Valid()
      modifies own
      ensures Valid() && fresh(p) && unchanged(api)
      ensures CallIssued(own, "addClass", [id, className], None, p)
    {
      p := own.Call("addClass", [id, className], None);
    }

    /** `removeClass(id, className)` on the relay's own channel. */
    method RemoveClass(id: Value, className: Value) returns (p: JsPromise)
      requires Valid()
      modifies own
      ensures Valid() && fresh(p) && unchanged(api)
      ensures CallIssued(own, "removeClass", [id, className], None, p)
    {
      p := own.Call("removeClass", [id, className], None);
    }

    /** `setPlaceholder(id, text)` on the relay's own channel. */
    method SetPlaceholder(id: Value, text: Value) returns (p: JsPromise)
      requires Valid()
      modifies own
      ensures Valid() && fresh(p) && unchanged(api)
      ensures CallIssued(own, "setPlaceholder", [id, text], None, p)
    {
      p := own.Call("setPlaceholder", [id, text], None);
    }

    /** `onEnter(callback)`: registers under "enter" on the relay's own channel. */
    method OnEnter(callback: CallbackRef) returns (p: JsPromise)
      requires Valid()
      modifies own
      ensures Valid() && unchanged(api)
      ensures EventRegistered(own, "enter", callback, p)
    {
      p := own.OnEvent("enter", callback);
    }

    /** `onFocus(callback)`: registers under "focus" on the relay's own channel. */
    method OnFocus(callback: CallbackRef) returns (p: JsPromise)
      requires Valid()
      modifies own
      ensures Valid() && unchanged(api)
      ensures EventRegistered(own, "focus", callback, p)
    {
      p := own.OnEvent("focus", callback);
    }

    /** `onBlur(callback)`: registers under "blur" on the relay's own channel. */
    method OnBlur(callback: CallbackRef) returns (p: JsPromise)
      requires Valid()
      modifies own
      ensures Valid() && unchanged(api)
      ensures EventRegistered(own, "blur", callback, p)
    {
      p := own.OnEvent("blur", callback);
    }
  }
}
