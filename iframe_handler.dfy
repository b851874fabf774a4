/**
 * The channel between the host page and one embedded iframe document: each
 * `call` gets a fresh correlation id and a pending promise, its request is
 * posted once the iframe has loaded (and, for a relayed call, once the
 * relay's own id is known), and the dispatcher settles the promise whose id
 * a response names or fans an event out to the callbacks registered for its
 * type. The messaging follows section 9.3 of the HTML Standard
 * (`window.postMessage` with an explicit target origin); the transport is
 * modelled by an outbox of posted messages, and the dispatcher is called
 * directly with each inbound message event.
 */
module IframeHandlers {
  import opened Js
  import opened Deferreds

  /** The identity of a browsing context's `WindowProxy`. */
  type WindowRef = nat

  /** An event callback: the channel stores and reports it, never runs it. */
  type CallbackRef = nat

  /** The message `call` posts: `{cmd, args, id, iframeId}`. */
  datatype Request = Request(cmd: string, args: seq<Value>, id: nat, iframeId: Value)

  /** One `contentWindow.postMessage(message, targetOrigin)`. */
  datatype Posted = Posted(message: Request, targetOrigin: string)

  /**
   * The continuation a `call` leaves behind: its message goes out once the
   * load promise and the optional iframe-id promise are both fulfilled.
   */
  datatype Continuation = Continuation(cmd: string, args: seq<Value>, idGate: Option<JsPromise>)

  /** An inbound `MessageEvent`: the sending window, its origin and the data. */
  datatype MessageEvent = MessageEvent(source: WindowRef, origin: string, data: Value)

  /** A callback run `f(data.value)` that a dispatched event asks for. */
  datatype Invocation = Invocation(callback: CallbackRef, argument: Value)

  /** What the dispatcher throws. */
  datatype ProtocolError =
      /** "iframe source mismatch at response": the owned window answered from another origin. */
    | SourceMismatch
      /** "Unexpected response: " + data.cmd: no pending call has the message's id. */
    | UnexpectedResponse(cmd: Value)
      /** The message's data (or an event's value) is undefined or null. */
    | Malformed(error: TypeError)

  /** The dispatcher's decision about one inbound message. */
  datatype Verdict =
    | Ignore
    | Violation(error: ProtocolError)
    | Fire(eventType: Value, payload: Value)
    | Complete(id: nat, outcome: Settlement)
    | Leave(id: nat)

  /**
   * How the dispatcher treats `ev` when the channel owns `window`, expects
   * `origin` and has calls pending under `pendingIds`.
   */
  function Classify(ev: MessageEvent, window: WindowRef, origin: string, pendingIds: set<nat>): (v: Verdict)
    ensures v == Ignore <==> ev.source != window
    ensures ev.source == window && ev.origin != origin ==> v == Violation(SourceMismatch)
    ensures v.Fire? || v.Complete? || v.Leave? ==> ev.source == window && ev.origin == origin
    ensures v.Fire? <==> ev.source == window && ev.origin == origin && !Nullish(ev.data)
                         && Prop(ev.data, "type") == Str("event") && !Nullish(Prop(ev.data, "value"))
    ensures v.Fire? ==> v.payload == Prop(ev.data, "value") && v.eventType == Prop(v.payload, "type")
    ensures v.Complete? || v.Leave? ==> v.id in pendingIds && Get(ev.data, "id") == Success(Num(v.id))
    ensures v.Complete? <==> (ev.source == window && ev.origin == origin && !Nullish(ev.data)
                              && Prop(ev.data, "type") in {Str("resolve"), Str("reject")}
                              && Prop(ev.data, "id").Num? && Prop(ev.data, "id").n in pendingIds)
    ensures v.Complete? ==> v.outcome == (if Prop(ev.data, "type") == Str("resolve")
                                          then Fulfilled(Prop(ev.data, "value"))
                                          else Rejected(Prop(ev.data, "value")))
    ensures ev.source == window && ev.origin == origin && Nullish(ev.data) ==> v == Violation(Malformed(TypeError("type")))
    ensures ev.source == window && ev.origin == origin && !Nullish(ev.data)
            && Prop(ev.data, "type") == Str("event") && Nullish(Prop(ev.data, "value"))
            ==> v == Violation(Malformed(TypeError("type")))
    ensures ev.source == window && ev.origin == origin && !Nullish(ev.data) && Prop(ev.data, "type") != Str("event")
            && !(Prop(ev.data, "id").Num? && Prop(ev.data, "id").n in pendingIds)
            ==> v == Violation(UnexpectedResponse(Prop(ev.data, "cmd")))
    ensures v.Leave? <==> (ev.source == window && ev.origin == origin && !Nullish(ev.data)
                           && Prop(ev.data, "type") !in {Str("event"), Str("resolve"), Str("reject")}
                           && Prop(ev.data, "id").Num? && Prop(ev.data, "id").n in pendingIds)
    ensures v.Violation? && v.error.UnexpectedResponse? ==>
              !Nullish(ev.data) && Prop(ev.data, "type") != Str("event")
              && !(Prop(ev.data, "id").Num? && Prop(ev.data, "id").n in pendingIds)
  {
    if ev.source != window then Ignore
    else if ev.origin != origin then Violation(SourceMismatch)
    else if Nullish(ev.data) then Violation(Malformed(TypeError("type")))
    else
      var kind := Prop(ev.data, "type");
      if kind == Str("event") then
        var value := Prop(ev.data, "value");
        if Nullish(value) then Violation(Malformed(TypeError("type")))
        else Fire(Prop(value, "type"), value)
      else
        var id := Prop(ev.data, "id");
        if id.Num? && id.n >= 0 && id.n as nat in pendingIds then
          if kind == Str("resolve") then Complete(id.n, Fulfilled(Prop(ev.data, "value")))
          else if kind == Str("reject") then Complete(id.n, Rejected(Prop(ev.data, "value")))
          else Leave(id.n)
        else Violation(UnexpectedResponse(Prop(ev.data, "cmd")))
  }

  /**
   * A response settles its call at most once: after the dispatcher has
   * removed the id, the same message is an unexpected response.
   */
  lemma DuplicateResponseIsUnexpected(ev: MessageEvent, window: WindowRef, origin: string, pendingIds: set<nat>)
    requires Classify(ev, window, origin, pendingIds).Complete?
    ensures Classify(ev, window, origin, pendingIds - {Classify(ev, window, origin, pendingIds).id})
            == Violation(UnexpectedResponse(Prop(ev.data, "cmd")))
  {
  }

  /** `invocations` runs every callback of `callbacks`, in order, with `payload`. */
  predicate InvokesInOrder(invocations: seq<Invocation>, callbacks: seq<CallbackRef>, payload: Value)
  {
    |invocations| == |callbacks|
    && forall k :: 0 <= k < |callbacks| ==> invocations[k] == Invocation(callbacks[k], payload)
  }

  /** `eventCallbacks.get(type)` when present; no callbacks otherwise (keys are strings). */
  function CallbacksFor(table: map<string, seq<CallbackRef>>, eventType: Value): seq<CallbackRef>
  {
    if eventType.Str? && eventType.s in table then table[eventType.s] else []
  }

  /** `callbacks.forEach(f => f(payload))`, reported rather than run. */
  method FanOut(callbacks: seq<CallbackRef>, payload: Value) returns (invocations: seq<Invocation>)
    ensures InvokesInOrder(invocations, callbacks, payload)
  {
    invocations := [];
    var i := 0;
    while i < |callbacks|
      invariant 0 <= i <= |callbacks|
      invariant InvokesInOrder(invocations, callbacks[..i], payload)
    {
      invocations := invocations + [Invocation(callbacks[i], payload)];
      i := i + 1;
    }
  }

  /** `ids` holds exactly the ids 1..n. */
  ghost predicate IsIdRange(ids: set<nat>, n: nat)
  {
    forall id: nat :: id in ids <==> 1 <= id <= n
  }

  /** The correlation ids of the messages posted so far. */
  function SentIds(outbox: seq<Posted>): set<nat>
  {
    set k | 0 <= k < |outbox| :: outbox[k].message.id
  }

  /**
   * Between the two states `h` issued exactly one call, `call(cmd, args, gate)`:
   * the next id, a pending promise `p` registered under it, the request left
   * waiting for its gates, nothing posted and nothing else changed.
   */
  twostate predicate CallIssued(h: IframeHandler, cmd: string, args: seq<Value>, gate: Option<JsPromise>, new p: JsPromise)
    reads h, p
  {
    && h.idCounter == old(h.idCounter) + 1
    && h.pending.Keys == old(h.pending).Keys + {h.idCounter}
    && (forall id | id in old(h.pending) :: h.pending[id] == old(h.pending)[id])
    && p == h.pending[h.idCounter].promise && p.state == Pending
    && h.awaiting == old(h.awaiting)[h.idCounter := Continuation(cmd, args, gate)]
    && h.outbox == old(h.outbox)
    && h.eventCallbacks == old(h.eventCallbacks) && h.eventSubscribePromise == old(h.eventSubscribePromise)
  }

  class IframeHandler {
    /** The origin every request is posted to and every response must come from. */
    const embeddedApiOrigin: string
    /** The embedded iframe's `contentWindow`. */
    const contentWindow: WindowRef
    /** Settled by the iframe's load or error signal; `loadPromise` is its promise. */
    const load: Deferred

    var idCounter: nat
    var pending: map<nat, Deferred>
    var eventCallbacks: map<string, seq<CallbackRef>>
    var eventSubscribePromise: Option<JsPromise>
    /** Calls whose request has not been posted yet. */
    var awaiting: map<nat, Continuation>
    /** Every message posted to the iframe, in the order it was posted. */
    var outbox: seq<Posted>

    /** The id of the one "subscribe" call `onEvent` issued, if any. */
    ghost var subscribeId: Option<nat>
    /** Every object this channel has allocated. */
    ghost var Repr: set<object>

    ghost predicate Valid()
      reads this, Repr
    {
      && this in Repr && load.promise in Repr
      // every pending call has an issued id and a distinct promise that is still pending
      && (forall id | id in pending :: 1 <= id <= idCounter)
      && (forall id | id in pending ::
            pending[id].promise in Repr && pending[id].promise != load.promise
            && pending[id].promise.state == Pending)
      && (forall i, j | i in pending && j in pending && i != j :: pending[i].promise != pending[j].promise)
      // every issued id is either still waiting for its gates or posted, exactly once
      && awaiting.Keys !! SentIds(outbox)
      && IsIdRange(awaiting.Keys + SentIds(outbox), idCounter)
      && (forall i, j | 0 <= i < j < |outbox| :: outbox[i].message.id != outbox[j].message.id)
      // nothing is ever posted to any origin but the expected one
      && (forall k | 0 <= k < |outbox| :: outbox[k].targetOrigin == embeddedApiOrigin)
      // the shared subscription promise is the promise of one "subscribe" call
      && (eventSubscribePromise.Some? <==> subscribeId.Some?)
      && (subscribeId.Some? ==>
            && 1 <= subscribeId.value <= idCounter
            && eventSubscribePromise.value in Repr
            && (subscribeId.value in pending ==>
                  pending[subscribeId.value].promise == eventSubscribePromise.value)
            && (subscribeId.value in awaiting ==>
                  awaiting[subscribeId.value] == Continuation("subscribe", [], None)))
    }

    /** `new IframeHandler(embeddedApiOrigin, iframe)` before the iframe has loaded. */
    constructor (embeddedApiOrigin: string, contentWindow: WindowRef)
      ensures Valid() && fresh(Repr)
      ensures this.embeddedApiOrigin == embeddedApiOrigin && this.contentWindow == contentWindow
      ensures idCounter == 0 && pending == map[] && eventCallbacks == map[]
      ensures eventSubscribePromise == None && awaiting == map[] && outbox == []
      ensures load.promise.state == Pending
    {
      this.embeddedApiOrigin := embeddedApiOrigin;
      this.contentWindow := contentWindow;
      var gate := new Deferred();
      load := gate;
      eventCallbacks := map[];
      pending := map[];
      idCounter := 0;
      eventSubscribePromise := None;
      awaiting := map[];
      outbox := [];
      subscribeId := None;
      Repr := {this, gate.promise};
    }

    /** The set of promises still waiting for a response. */
    function PendingPromises(): set<JsPromise>
      reads this
    {
      set id | id in pending :: pending[id].promise
    }

    /** The iframe's `onload`: the listener is attached and the load promise fulfilled. */
    method OnLoad()
      requires Valid()
      modifies load.promise
      ensures Valid()
      ensures load.promise.state == Settle(old(load.promise.state), Fulfilled(Undefined))
    {
      load.Resolve(Undefined);
    }

    /** The iframe's `onerror`: the load promise is rejected, so no request is ever posted. */
    method OnError()
      requires Valid()
      modifies load.promise
      ensures Valid()
      ensures load.promise.state == Settle(old(load.promise.state), Rejected(Undefined))
    {
      load.Reject(Undefined);
    }

    /**
     * `call(cmd, args, iframeIdProm)`: takes the next id, registers a pending
     * promise under it before anything is sent, leaves the request waiting
     * for its gates and returns the promise.
     */
    method Call(cmd: string, args: seq<Value>, iframeIdProm: Option<JsPromise>) returns (p: JsPromise)
      requires Valid()
      modifies this
      ensures Valid() && old(Repr) <= Repr && fresh(Repr - old(Repr))
      ensures CallIssued(this, cmd, args, iframeIdProm, p) && fresh(p)
      ensures idCounter !in old(pending) && idCounter !in old(awaiting) && idCounter !in SentIds(old(outbox))
      ensures subscribeId == old(subscribeId)
    {
      idCounter := idCounter + 1;
      var id := idCounter;
      var deferred := new Deferred();
      pending := pending[id := deferred];
      awaiting := awaiting[id := Continuation(cmd, args, iframeIdProm)];
      Repr := Repr + {deferred.promise};
      p := deferred.promise;
    }

    /** Both gates of `c` are fulfilled, so its `Promise.all(...).then` callback runs. */
    predicate Ready(c: Continuation)
      reads load.promise, if c.idGate.Some? then {c.idGate.value} else {}
    {
      load.promise.state.Fulfilled? && (c.idGate.None? || c.idGate.value.state.Fulfilled?)
    }

    /** The `iframeId` the request carries: the id promise's value, or undefined without one. */
    function IframeIdOf(c: Continuation): Value
      reads if c.idGate.Some? then {c.idGate.value} else {}
    {
      if c.idGate.Some? && c.idGate.value.state.Fulfilled? then c.idGate.value.state.value else Undefined
    }

    /**
     * The continuation of call `id`: once its gates are fulfilled it posts
     * `{cmd, args, id, iframeId}` to `embeddedApiOrigin`, exactly once. Which
     * ready call goes first is not fixed.
     */
    method Transmit(id: nat) returns (sent: bool)
      requires Valid()
      modifies this
      ensures Valid() && Repr == old(Repr)
      ensures sent <==> id in old(awaiting) && old(Ready(awaiting[id]))
      ensures sent ==>
                var c := old(awaiting[id]);
                && awaiting == old(awaiting) - {id}
                && outbox == old(outbox) + [Posted(Request(c.cmd, c.args, id, old(IframeIdOf(c))), embeddedApiOrigin)]
      ensures !sent ==> awaiting == old(awaiting) && outbox == old(outbox)
      ensures idCounter == old(idCounter) && pending == old(pending)
      ensures eventCallbacks == old(eventCallbacks) && eventSubscribePromise == old(eventSubscribePromise)
      ensures subscribeId == old(subscribeId)
    {
      sent := id in awaiting && Ready(awaiting[id]);
      if sent {
        var c := awaiting[id];
        var message := Posted(Request(c.cmd, c.args, id, IframeIdOf(c)), embeddedApiOrigin);
        assert SentIds(outbox + [message]) == SentIds(outbox) + {id} by {
          assert forall k | 0 <= k < |outbox| :: (outbox + [message])[k] == outbox[k];
          assert (outbox + [message])[|outbox|] == message;
        }
        awaiting := awaiting - {id};
        outbox := outbox + [message];
      }
    }

    /**
     * `onEvent(type, callback)`: the first registration of any type issues
     * the one "subscribe" call; every registration appends the callback to
     * its type's list and returns the promise of that call.
     */
    method OnEvent(eventType: string, callback: CallbackRef) returns (p: JsPromise)
      requires Valid()
      modifies this
      ensures Valid() && old(Repr) <= Repr && fresh(Repr - old(Repr))
      ensures eventSubscribePromise == Some(p)
      ensures old(eventSubscribePromise).Some? ==>
                && p == old(eventSubscribePromise).value
                && idCounter == old(idCounter) && pending == old(pending) && awaiting == old(awaiting)
      ensures old(eventSubscribePromise).None? ==>
                && idCounter == old(idCounter) + 1
                && subscribeId == Some(idCounter)
                && pending.Keys == old(pending).Keys + {idCounter}
                && (forall id | id in old(pending) :: pending[id] == old(pending)[id])
                && awaiting == old(awaiting)[idCounter := Continuation("subscribe", [], None)]
                && fresh(p) && p == pending[idCounter].promise && p.state == Pending
      ensures eventCallbacks == old(eventCallbacks)[eventType := CallbacksFor(old(eventCallbacks), Str(eventType)) + [callback]]
      ensures outbox == old(outbox)
    {
      if eventSubscribePromise.None? {
        var q := Call("subscribe", [], None);
        assert q == pending[idCounter].promise && awaiting[idCounter] == Continuation("subscribe", [], None);
        eventSubscribePromise := Some(q);
        subscribeId := Some(idCounter);
      }
      // `has`/`set` then `push`: an absent type starts from an empty list
      var callbacks := if eventType in eventCallbacks then eventCallbacks[eventType] else [];
      eventCallbacks := eventCallbacks[eventType := callbacks + [callback]];
      p := eventSubscribePromise.value;
    }

    /**
     * `handleResponse(event)`: ignores other windows, throws on a wrong
     * origin or an unknown id, reports the callbacks an event runs, and
     * settles and forgets exactly the call a resolve or reject names.
     */
    method HandleResponse(ev: MessageEvent) returns (r: Result<seq<Invocation>, ProtocolError>)
      requires Valid()
      // the listener is attached by the load handler, so nothing is dispatched before load
      requires load.promise.state.Fulfilled?
      modifies this, PendingPromises()
      ensures Valid() && Repr == old(Repr)
      ensures var v := Classify(ev, contentWindow, embeddedApiOrigin, old(pending).Keys);
              && (v.Ignore? || v.Leave? || v.Complete? ==> r == Success([]))
              && (v.Violation? ==> r == Failure(v.error))
              && (v.Fire? ==> r.Success? && InvokesInOrder(r.value, CallbacksFor(eventCallbacks, v.eventType), v.payload))
              && (v.Complete? ==> pending == old(pending) - {v.id} && old(pending)[v.id].promise.state == v.outcome)
              && (!v.Complete? ==> pending == old(pending))
      ensures forall id | id in pending :: pending[id] == old(pending)[id] && pending[id].promise.state == Pending
      ensures idCounter == old(idCounter) && awaiting == old(awaiting) && outbox == old(outbox)
      ensures eventCallbacks == old(eventCallbacks) && eventSubscribePromise == old(eventSubscribePromise)
      ensures subscribeId == old(subscribeId)
    {
      var v := Classify(ev, contentWindow, embeddedApiOrigin, pending.Keys);
      match v
      case Ignore =>
        r := Success([]);
      case Violation(e) =>
        r := Failure(e);
      case Fire(eventType, payload) =>
        var invocations := FanOut(CallbacksFor(eventCallbacks, eventType), payload);
        r := Success(invocations);
      case Complete(id, outcome) =>
        var deferred := pending[id];
        if outcome.Fulfilled? {
          deferred.Resolve(outcome.value);
        } else {
          deferred.Reject(outcome.reason);
        }
        pending := pending - {id};
        r := Success([]);
      case Leave(_) =>
        r := Success([]);
    }
  }
}
