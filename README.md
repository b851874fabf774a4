# ZeroKit Web SDK: the postMessage channel and its wrappers, in Dafny

The ZeroKit Web SDK never touches passwords or keys itself. All
cryptography runs in iframe documents served from the ZeroKit origin. The
host page talks to them through cross-document messaging, as section 9.3
of the HTML Standard defines it (`window.postMessage` with an explicit
target origin). This project models that messaging layer and the thin
wrappers on top of it, and proves what they promise.

- **The channel** (`IframeHandler`, `iframe_handler.dfy`) is a class whose
  state is the source's own fields. They are the id counter, the map from
  id to pending `Deferred`, the event-type → callbacks table and the one
  "subscribe" promise. Two fields stand in for the transport:
  - `awaiting` holds calls whose message still waits for the load promise
    and the optional iframe-id promise;
  - `outbox` lists every message posted, with its target origin.

  `Call`, `OnEvent`, `Transmit` (the `.then` continuation of a call),
  `OnLoad`/`OnError` and the dispatcher `HandleResponse` are methods. The
  dispatcher's decision is the pure function `Classify`. `HandleResponse`
  returns either the callback invocations an event asks for or the
  protocol error the source throws.
- **The one-shot cell** (`Deferred`, `deferred.dfy`) settles at most once.
  This follows section 25.4.1.3 of ECMAScript 2015
  (CreateResolvingFunctions): the first resolve or reject wins.
- **The relay** (`InputIframe`, `input_iframe.dfy`) is modelled by
  composition. It holds its own channel to an input iframe and a reference
  to the shared channel to the computing iframe. It asks its own iframe
  for an id once, and tags every `apiCall` on the shared channel with that
  id promise.
- **The registry** (`Registry`, `iframes.dfy`) holds `setup`'s path
  computation, the set-once configuration, the memoised shared channel and
  the `wrapXxx` constructors.
- **The feature wrappers** are pure functions from their arguments to an
  `Action`: `Reject(JsSdkError)`, `Send(cmd, args)`, or `Fault` when the
  check itself throws. They cover encryption, tresors, invitation links,
  and the register, create-link, accept-link and login iframes.
  - `Guarded` in `actions.dfy` is the reference definition of an ordered
    check table. Every guard-and-forward wrapper is proved equal to its
    table, except `acceptInvitationLinkNoPassword`: its flag read can
    throw, so it is proved to be no table at all.
  - `Registry.Perform` runs an action on the shared channel, as
    `getApiHandler().call(...)`.
  - `InputIframe.Perform` runs an action on a relay, as `apiCall(...)`.
- **Login** (`login_iframe.dfy`) keeps `handleResult`'s decision as a
  value. The decision is the callback call it makes, and whether the
  promise redirects or resolves, now or after the callback's thenable.
- `scenarios.dfy` chains the operations end to end:
  - n calls get ids 1..n and each is posted exactly once after load;
  - `encrypt("tresor1", "hello")` runs from `setup` to its resolved
    promise;
  - a relayed login carries the relay's id;
  - two event registrations share one "subscribe" request.

JavaScript values are `Js.Value`. Its truthiness (`Truthy`), the
`=== null || === undefined` test (`Nullish`) and property reads that throw
on `undefined`/`null` (`Get`) are written out, because the wrappers' guards
depend on exactly these.

## Model

| member | source | states |
|---|---|---|
| Deferreds.Settle | src/utils/deferred.ts:23-26 | a resolving call settles a pending promise with its outcome and leaves a settled one as it was |
| Deferreds.SettledIsFinal | src/utils/deferred.ts:23-26 | once settled, any further run of resolve/reject calls leaves the outcome unchanged |
| Deferreds.FirstSettlementWins | src/utils/deferred.ts:23-26 | on a pending promise, the first of any run of resolve/reject calls decides the outcome |
| Deferreds.JsPromise.Of | src/utils/deferred.ts:23 | a new promise object starts in the given state |
| Deferreds.Deferred.constructor | src/utils/deferred.ts:22-27 | a new deferred holds a fresh promise that is pending |
| Deferreds.Deferred.Resolve | src/utils/deferred.ts:10 | `resolve(v)` fulfils a pending promise with exactly `v`, and does nothing to a settled one |
| Deferreds.Deferred.Reject | src/utils/deferred.ts:14 | `reject(v)` rejects a pending promise with exactly `v`, and does nothing to a settled one |
| Rejections.ErrorValue | src/utils/rejection.ts:19-23 | a `JsSdkError` is an error object whose `message` and `code` are the code and whose `description` is the description |
| Rejections.Rejection | src/utils/rejection.ts:32-34 | `rejection(code, description)` is rejected from the start with a `JsSdkError` carrying that code and description |
| Rejections.RejectionInjective | src/utils/rejection.ts:19-23 | two rejections are equal only when code and description both are |
| Rejections.BadInput | src/encryption/encryption.ts:14 | every input check rejects with the code "BadInput" and its own description |
| Actions.RejectedPromise | src/utils/rejection.ts:32-34 | a wrapper's early return is a new promise that is already rejected with its `JsSdkError` |
| Actions.GuardedSendsIffAllPass | src/encryption/encryption.ts:12-18 | a guarded wrapper sends iff every check passes, and then sends exactly its command and arguments |
| Actions.GuardedNeverFaults | src/encryption/encryption.ts:12-18 | a check table never throws, and every rejection it makes has the code "BadInput" |
| Actions.GuardedReportsFirstFailure | src/tresors/invitationLinks.ts:27-33 | when several checks fail, the rejection carries the description of the first one in order |
| Actions.GuardedPair | src/encryption/encryption.ts:12-18 | with two checks, the first failing one rejects, otherwise the call is sent |
| IframeHandlers.Classify | src/iframes/iframeHandler.ts:67-96 | other windows are ignored; a wrong origin is a violation; an event fires with `data.value` and its `type`; resolve/reject complete a pending id with `data.value`; any other type with a pending id is left alone; an unknown id is an unexpected response; null data or a null event value is a TypeError |
| IframeHandlers.DuplicateResponseIsUnexpected | src/iframes/iframeHandler.ts:79-92 | once a response has completed its id, the same response again is an unexpected-response violation |
| IframeHandlers.FanOut | src/iframes/iframeHandler.ts:75-77 | an event invokes every callback of its type, in registration order, each with the event payload |
| IframeHandlers.IframeHandler.constructor | src/iframes/iframeHandler.ts:40-61 | a new channel has id counter 0, nothing pending, no callbacks, no subscription, nothing posted, and a pending load promise |
| IframeHandlers.IframeHandler.OnLoad | src/iframes/iframeHandler.ts:49-56 | the load signal fulfils the load promise unless it is already settled |
| IframeHandlers.IframeHandler.OnError | src/iframes/iframeHandler.ts:57-59 | the error signal rejects the load promise unless it is already settled |
| IframeHandlers.IframeHandler.Call | src/iframes/iframeHandler.ts:105-113 | a call takes the next id, never used before, and registers a fresh pending promise under it that it returns. It leaves the request waiting for its gates, posts nothing and changes nothing else |
| IframeHandlers.IframeHandler.Transmit | src/iframes/iframeHandler.ts:109-111 | once the load and iframe-id promises are fulfilled, a waiting call posts exactly `{cmd, args, id, iframeId}` to the expected origin, once; ids stay posted at most once and every issued id is waiting or posted |
| IframeHandlers.IframeHandler.OnEvent | src/iframes/iframeHandler.ts:121-131 | only the first registration of any type issues "subscribe"; every registration returns that one promise and appends the callback to its type's list, leaving other types' lists alone |
| IframeHandlers.IframeHandler.HandleResponse | src/iframes/iframeHandler.ts:67-96 | the dispatcher settles exactly the promise a resolve/reject names with `data.value` and forgets only that id. It reports an event's invocations, and fails with the protocol error on a wrong origin or unknown id, settling nothing |
| InputIframes.InputIframe.constructor | src/iframes/inputIframe.ts:20-24 | a relay's own fresh channel has issued exactly one call, `getId`, with id 1, whose promise is the relay's id promise |
| InputIframes.InputIframe.ApiCall | src/iframes/inputIframe.ts:99-101 | `apiCall` issues one call on the shared channel gated on the relay's id promise, and leaves the relay's own channel unchanged |
| InputIframes.InputIframe.Perform | src/users/registerIframe.ts:18-22 | a relay wrapper's rejection returns a rejected promise and touches neither channel; a send is one `apiCall` |
| InputIframes.InputIframe.GetClasses | src/iframes/inputIframe.ts:31-33 | one call `getClasses` with `[id]` on the relay's own channel, the shared channel unchanged |
| InputIframes.InputIframe.AddClass | src/iframes/inputIframe.ts:41-43 | one call `addClass` with `[id, className]` on the relay's own channel |
| InputIframes.InputIframe.RemoveClass | src/iframes/inputIframe.ts:51-53 | one call `removeClass` with `[id, className]` on the relay's own channel |
| InputIframes.InputIframe.SetPlaceholder | src/iframes/inputIframe.ts:61-63 | one call `setPlaceholder` with `[id, text]` on the relay's own channel |
| InputIframes.InputIframe.OnEnter | src/iframes/inputIframe.ts:70-72 | registers under "enter" on the relay's own channel, sharing its one subscription; the first registration adds exactly one fresh pending "subscribe" promise under the next id and keeps every other pending entry |
| InputIframes.InputIframe.OnFocus | src/iframes/inputIframe.ts:79-81 | registers under "focus" on the relay's own channel, sharing its one subscription; the first registration adds exactly one fresh pending "subscribe" promise under the next id and keeps every other pending entry |
| InputIframes.InputIframe.OnBlur | src/iframes/inputIframe.ts:88-90 | registers under "blur" on the relay's own channel, sharing its one subscription; the first registration adds exactly one fresh pending "subscribe" promise under the next id and keeps every other pending entry |
| Encryption.Encrypt | src/encryption/encryption.ts:12-18 | a falsy tresor id is rejected first, then a null/undefined text (the empty string passes). Otherwise it sends `encrypt` with `[tresorId, plainText]` |
| Encryption.Decrypt | src/encryption/encryption.ts:25-29 | a falsy ciphertext is rejected; anything else is sent as `decrypt` with `[cipherText]` |
| Encryption.EncryptBytes | src/encryption/encryption.ts:37-43 | as `encrypt`, with the text wrapper's description for null/undefined bytes, sending `encryptBytes` |
| Encryption.DecryptBytes | src/encryption/encryption.ts:50-54 | a falsy ciphertext is rejected; otherwise `decryptBytes` with `[cipherText]` |
| Encryption.EncryptBlob | src/encryption/encryption.ts:62-68 | as `encrypt`, with "plainBlobLike cannot be null or undefined", sending `encryptBlob` |
| Encryption.DecryptBlob | src/encryption/encryption.ts:75-79 | a falsy blob is rejected with "encryptedBlobLike cannot be empty"; otherwise `decryptBlob` |
| Encryption.WrappersAreGuarded | src/encryption/encryption.ts:12-79 | each encryption wrapper equals its ordered check table followed by its one call |
| Encryption.EmptyTextIsEncryptedButNotDecrypted | src/encryption/encryption.ts:15-16 | an empty text is encrypted while an empty ciphertext is refused |
| Encryption.TresorIdCheckedFirst | src/encryption/encryption.ts:38-41 | with the tresor id missing, the tresor id is reported whatever the payload |
| Tresors.CreateTresor | src/tresors/tresors.ts:10-12 | no validation: always one `createTresor` call without arguments |
| Tresors.ShareTresor | src/tresors/tresors.ts:20-24 | sends `[tresorId, userId]` iff both are truthy, else rejects with "tresorId and userId cannot be empty" |
| Tresors.KickFromTresor | src/tresors/tresors.ts:32-36 | the same guard and message as sharing, sending `kickFromTresor` |
| Tresors.ShareAndKickAgree | src/tresors/tresors.ts:21-35 | sharing and kicking refuse the same inputs with the same error and differ only in the command |
| Tresors.TresorWrappersAreGuarded | src/tresors/tresors.ts:10-36 | the tresor wrappers equal their check tables, empty for `createTresor` |
| InvitationLinks.CreateInvitationLinkNoPassword | src/tresors/invitationLinks.ts:15-19 | only an empty tresor id is refused; link base and message are forwarded unchecked as `[baseLink, tresorId, message]` |
| InvitationLinks.RevokeInvitationLink | src/tresors/invitationLinks.ts:27-33 | the tresor id is checked before the secret, each with its own description; both truthy sends `[tresorId, secret]` |
| InvitationLinks.GetInvitationLinkInfo | src/tresors/invitationLinks.ts:40-44 | an empty secret is refused, otherwise `[secret]` is sent |
| InvitationLinks.PasswordFlag | src/tresors/invitationLinks.ts:54 | reading `token.serverData.IsPasswordProtected` throws exactly when `serverData` is null or undefined |
| InvitationLinks.AcceptInvitationLinkNoPassword | src/tresors/invitationLinks.ts:51-57 | a falsy token is refused, a protected link is refused with "This link needs a password", a token without `serverData` throws, and only an unprotected token is sent |
| InvitationLinks.ServerTokensAreDecided | src/tresors/invitationLinks.ts:54-56 | a token that carries the flag never throws and is sent iff the link is not password-protected |
| InvitationLinks.TokenWithoutServerDataThrows | src/tresors/invitationLinks.ts:54 | a truthy token lacking `serverData` makes the wrapper throw a TypeError rather than reject |
| InvitationLinks.LinkWrappersAreGuarded | src/tresors/invitationLinks.ts:15-44 | creating, revoking and inspecting a link equal their check tables; revoking checks the tresor id, then the secret |
| InvitationLinks.AcceptIsNotGuarded | src/tresors/invitationLinks.ts:51-57 | the password-less accept wrapper equals no check table, because on a token without `serverData` it throws |
| RegisterIframes.Register | src/users/registerIframe.ts:18-22 | sends `register` with `[userId, regId]` iff both are truthy, else rejects with "userId and regId cannot be empty" |
| RegisterIframes.Login | src/users/registerIframe.ts:31-33 | `login` forwards `[userId]` without validation |
| RegisterIframes.LoginUserId | src/users/registerIframe.ts:32 | the returned promise follows the call's: a fulfilled response becomes its `userId` field, a null response a TypeError rejection, a rejection passes through |
| RegisterIframes.LoginResolvesToUserId | src/users/registerIframe.ts:32 | any response record resolves `login` to its `userId` |
| RegisterIframes.CheckPasswordMatch | src/users/registerIframe.ts:39-41 | forwards `checkPasswordMatch` with `[]` |
| RegisterIframes.GetPasswordStrength | src/users/registerIframe.ts:47-49 | forwards `getPasswordStrength` with `[]` |
| RegisterIframes.RelayWrappersAreGuarded | src/users/registerIframe.ts:18-49 | `register` is its one-check table; the other three have an empty table |
| CreateInvitationLinkIframes.CreateInvitationLink | src/tresors/createInvitationLinkIframe.ts:21-25 | only an empty tresor id is refused; otherwise `[linkBase, tresorId, message]` is sent |
| CreateInvitationLinkIframes.CheckPasswordsMatch | src/tresors/createInvitationLinkIframe.ts:31-33 | sends the singular command `checkPasswordMatch` with `[]` |
| CreateInvitationLinkIframes.GetPasswordStrength | src/tresors/createInvitationLinkIframe.ts:39-41 | sends `getPasswordStrength` with `[]` |
| CreateInvitationLinkIframes.PasswordChecksMatchRegistration | src/tresors/createInvitationLinkIframe.ts:31-41 | both password iframes send the same password queries |
| CreateInvitationLinkIframes.CreateLinkWrappersAreGuarded | src/tresors/createInvitationLinkIframe.ts:21-41 | the create-link iframe's wrappers equal their check tables: one check for creating, none for the password queries |
| AcceptInvitationLinkIframes.AcceptInvitationLink | src/tresors/acceptInvitationLinkIframe.ts:15-19 | a falsy token is refused with "token cannot be empty"; any truthy token is sent as `[token]` |
| AcceptInvitationLinkIframes.NoPasswordFlagCheck | src/tresors/acceptInvitationLinkIframe.ts:15-19 | a password-protected link's token is sent here, while the password-less wrapper refuses it |
| AcceptInvitationLinkIframes.EmptyTokenRejectedAlike | src/tresors/acceptInvitationLinkIframe.ts:16-17 | both accept wrappers refuse empty tokens identically |
| AcceptInvitationLinkIframes.AcceptLinkIsGuarded | src/tresors/acceptInvitationLinkIframe.ts:15-19 | the accept-link iframe's wrapper equals its one-check table |
| LoginIframes.HandleResult | src/users/loginIframe.ts:31-53 | redirects (to `reTo`) iff `needsRedirect` is truthy and otherwise resolves to `userId`. A truthy callback is called with `(userId, needsRedirect)`. The step waits on the callback's thenable iff one is returned. A null response throws |
| LoginIframes.RedirectOrResolve | src/users/loginIframe.ts:32-52 | a redirecting login never resolves to the user id and tells the callback it will redirect; a non-redirecting one resolves to the user id |
| LoginIframes.DefaultCallbackIsNotInvoked | src/users/loginIframe.ts:74 | with the default null callback nothing is called or awaited |
| LoginIframes.LoginIframe.constructor | src/users/loginIframe.ts:61-65 | a login iframe is a relay expecting `paths.origin` on the shared channel, keeping `authPath` |
| LoginIframes.LoginIframe.Login | src/users/loginIframe.ts:74-75 | `login` is one `apiCall("login", [userId])` without validation |
| LoginIframes.LoginIframe.OnLoginResponse | src/users/loginIframe.ts:76 | the login continuation redirects only to `embeddedApiOrigin + authPath`, and only when the response asks for it |
| Iframes.ComputePaths | src/iframes/iframes.ts:43-56 | `paths.origin` is the origin. Every page is the versioned root `origin + tenantPath + "/static/v4"` plus its file name. `authPath` is `tenantPath + "/static/auth.html"` |
| Iframes.PagesLiveUnderOrigin | src/iframes/iframes.ts:46-54 | every embedded page URL starts with the origin and the versioned root |
| Iframes.AuthPathIgnoresOrigin | src/iframes/iframes.ts:55 | the auth path does not depend on the origin |
| Iframes.PagePathsDistinct | src/iframes/iframes.ts:49-54 | different embedded pages never share a URL |
| Iframes.LoginRedirectsToTenantAuthPage | src/iframes/iframes.ts:55 | the computed paths put `origin + authPath` at `origin + tenantPath + "/static/auth.html"` |
| Iframes.Registry.constructor | src/iframes/iframes.ts:13-18 | at load nothing is configured and no shared channel exists |
| Iframes.Registry.Setup | src/iframes/iframes.ts:43-57 | the first setup stores the computed paths; a second throws "setup called twice" and keeps the first |
| Iframes.Registry.CheckSetup | src/iframes/iframes.ts:63-65 | throws "setup must be called before usage." exactly when setup has not run |
| Iframes.Registry.GetApiHandler | src/iframes/iframes.ts:72-76 | throws before setup; builds the shared channel towards `paths.origin` on first use and returns that same object afterwards |
| Iframes.Registry.Perform | src/encryption/encryption.ts:12-18 | a rejection needs no setup and builds no channel. A send throws before setup, else issues one call on the one shared channel |
| Iframes.Registry.WrapInputIframe | src/iframes/iframes.ts:119-123 | throws before setup; otherwise a fresh relay expecting `paths.origin` over the one shared channel, whose own channel has issued only `getId` (id 1, pending) and posted nothing; a shared channel built by this call is still empty |
| Iframes.Registry.WrapLoginIframe | src/iframes/iframes.ts:96-100 | the same for the login iframe, with the same fresh relay and shared-channel contents, whose redirect target is `paths.origin + paths.authPath` |
| Scenarios.IssueCalls | src/iframes/iframeHandler.ts:105-108 | n calls on an unused channel get ids 1..n in issue order, each with its own pending promise, and post nothing yet |
| Scenarios.TransmitAll | src/iframes/iframeHandler.ts:109-111 | after load, one schedule (ids in issue order) posts the n waiting calls as exactly n messages, each id once, to the expected origin |
| Scenarios.ResolveCompletes | src/iframes/iframeHandler.ts:84-88 | a resolve response for a pending id completes that call with its value |
| Scenarios.EncryptRoundTrip | src/encryption/encryption.ts:17 | from setup, `encrypt("tresor1", "hello")` posts exactly `{cmd: "encrypt", args: ["tresor1", "hello"], id: 1}`. The response resolves it to "aGVsbG8=" |
| Scenarios.RelayWithId | src/iframes/inputIframe.ts:20-24 | a relay whose own iframe answered `getId` holds a fulfilled id promise after one request on its own channel |
| Scenarios.RelayedLogin | src/iframes/inputIframe.ts:99-101 | a relayed `login` posts `{cmd: "login", args: ["user1"], id: 1, iframeId}` on the shared channel, with the relay's id |
| Scenarios.LoginAfterSetup | src/iframes/iframes.ts:96-100 | after `setup(origin, tenantPath)`, the wrapped login iframe redirects to `origin + tenantPath + "/static/auth.html"` |
| Scenarios.SubscribeTwice | src/iframes/iframeHandler.ts:121-131 | after "focus" and "blur" registrations and load, exactly one "subscribe" request is posted and both registrations hold its promise |
| Scenarios.TwoEventTypesOneSubscribe | src/iframes/iframeHandler.ts:121-131 | two event types cause one "subscribe" request, and its response settles both registrations' promise |

## Left out

- Creating iframes (`createIframe`) and the `getXxx` functions built on it are not modelled. They only add an element to the document. The window they produce is a parameter (`window`, `apiWindow`) of the `wrapXxx` models.
- `RegisterIframe`, `CreateInvitationLinkIframe`, `AcceptInvitationLinkIframe` and `ChangePasswordIframe` are the same relay in the source. `Registry.WrapInputIframe` is the single model of `wrapRegistrationIframe`, `wrapCreateInvitationLinkPasswordIframe`, `wrapAcceptInvitationLinkPasswordIframe` and `wrapChangePasswordIframe`. Their methods are the pure wrapper functions, run by `InputIframe.Perform`.
- The `onload`/`onerror`/`addEventListener` wiring is a step here: `OnLoad`, `OnError`, and `HandleResponse` called directly. The source passes the method unbound and registers it on the iframe element. Here the dispatcher runs on the channel, once for each message event the channel receives.
- IframeHandlers.IframeHandler.HandleResponse requires the load promise to be fulfilled: the listener is attached inside the load handler (`src/iframes/iframeHandler.ts:49-51`), so no message is dispatched before load. The load promise stands for "the load handler has run": when the error signal comes first and a load follows, the source attaches the listener while the promise stays rejected, and dispatch on such a channel is excluded from the model.
- IframeHandlers.IframeHandler.Call: the id counter is an unbounded `nat`. The source's counter is a JavaScript number, which stops increasing at 2^53; from there ids would repeat and overwrite a pending entry. The never-reused-id guarantee holds in the source only below that bound.
- LoginIframes.LoginIframe.Login returns the call's own promise. The source returns the promise derived from it by `.then` (`src/users/loginIframe.ts:75-76`); that promise is modelled only as `OnLoginResponse` applied to the call's response.
- RegisterIframes.Login is likewise run by `InputIframe.Perform`, which returns the call's own promise. The `.then` promise of `src/users/registerIframe.ts:32` is modelled only as `LoginUserId` of the call's settlement.
- The failure of `addEventListener` inside `onload` (rejecting the load promise) is not modelled; `OnLoad` always fulfils.
- `postMessage` is an append to `outbox`; structured cloning and delivery are not modelled.
- Promise scheduling is not modelled: `Transmit(id)` may post any ready call, in any order, and no wire order between calls is claimed. `Promise.all` rejecting when a gate rejects leaves the call waiting, as in the source, where the message is then never posted.
- Event callbacks are not run. The dispatcher reports the invocations `forEach` would make, on the list as it is at dispatch. Re-entrant registrations during a dispatch are out of scope.
- IframeHandlers.Classify: message ids are matched only when they are integers, as `Map.get` with a number key does; a non-numeric id counts as unknown. Response values of other JavaScript types (strings named like numbers, floats, `NaN`, `-0`) are not modelled, because `Value` numbers are integers.
- Adopting a thenable passed to `resolve` (ECMAScript 2015 section 25.4.1.3.2) is not modelled. Values that arrive by structured clone cannot be thenables.
- `Get`/`Prop` model only own data properties of records and error objects. Prototype chains and getters are not modelled.
- The text of a TypeError's message is engine-specific and stands in as `Js.ThrownValue`.
- LoginIframes.HandleResult: a callback that returns `undefined` or `null` throws a TypeError in the source at `cbRes.then`. That case is not modelled: `CallbackReturn` is a thenable or a value whose `then` is falsy.
- LoginIframes.HandleResult: `window.location.assign` is the outcome `RedirectNow`/`RedirectAfter` rather than a navigation. What the returned promise settles to once the thenable branch has redirected is not modelled.
- `SDK_VERSION` comes from `src/config.ts`, which is not part of this model; its value "4" is taken from its declaration in `lib/zkit_sdk.d.ts`.
- `tenantPath` is `Option<string>`: `None` is an omitted argument, which defaults to "". A `null` argument, which the template literal would print as "null", is not modelled.
- `args` defaults to `[]` in `call`; the model passes `[]` explicitly where the source omits it (`getId`, `subscribe`).
- `src/users/user.ts` and `src/users/changePasswordIframe.ts` are unconditional one-line forwards. They add nothing beyond the channel's own contract and are not modelled separately.
- Cryptography, password scoring and everything the embedded documents do is not part of this SDK's code and is not modelled. `PasswordMetrics` values stay opaque `Value`s.
