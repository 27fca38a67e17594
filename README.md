# APIWrapper correlation engine, modelled in Dafny

This project models the core of the Disadus plugin API's `APIWrapper` class
(`src/APIWrapper.ts`). A sandboxed plugin talks to its host window over
`postMessage`. The wrapper pairs each request with its reply through a
request ID and a table of one-shot callbacks. It completes a handshake,
which hands the `message` listener over from `ready` to `processMessage`,
before anything is sent. It also keeps an authorization token that it
loads from storage, receives at the handshake, and refreshes from inbound
traffic.

Files:

- `messages.dfy` (module `Messages`): the envelopes as parsed values. A
  JavaScript value is collapsed into `Value`: `Null` for every falsy value, a
  token record, the `{ intents }` body, or an opaque truthy payload. An
  inbound event's `data` is recorded as whether it is a string and what
  `JSON.parse` makes of it: nothing when parsing throws, or an envelope
  whose `requestID` may be missing and whose `response` is missing
  (undefined or null), a scalar (truthy or falsy), or a response object.
- `engine.dfy` (module `Engine`): the wrapper's state as a value, with one
  function per handler. Each function gives the state the handler leaves
  behind and whether an exception escaped. `Inv` is the invariant of
  every reachable state.
- `api_wrapper.dfy` (module `Wrapper`): the class `APIWrapper`. Its fields
  are updated in place, and each method is proved to leave exactly the state
  that the matching `Engine` function gives.
- `traces.dfy` (module `Traces`): runs of the event loop as sequences of
  steps, and the properties that hold over every run.

The class has fields for `_ready`, `_token` and `requests`. Each callback in
`requests` is named by the number of the `sendRequest` promise it resolves.
The class also has fields for what the object acts on outside itself:

- the attached listener (`Bootstrap` is `ready`, `Steady` is `processMessage`);
- an outbox of everything posted to the host;
- the persisted token item;
- the `sendRequest` calls suspended on readiness;
- the number of promises created;
- a log of callback invocations.

The asynchronous waits become separate steps. A 20 ms poll of a suspended
`sendRequest` is `ResumeSend`. The part of `requestIntents` after its
`await` is `RequestIntentsResumed`, given the response its promise settled
with. One test of `waitForToken`'s loop is `WaitForToken`. The random
generator becomes the list of candidate IDs that one call draws. The
`readyState` getter is `APIWrapper.ReadyState`.

Behaviour worth noting, which the model follows as the code has it:

- `sendRequest` draws its ID before waiting for readiness (line 127). It
  checks the ID only against registered IDs, and it registers only after
  posting (136-137). So two calls suspended on readiness can get the same ID.
  `PreHandshakeCallsCanShareAnId` follows one possible order, in which both
  timers fire before any reply: the second registration replaces the first
  callback, and the first reply carrying that ID, even the one answering the
  first envelope, settles the second call. The first promise then never
  settles. (If a reply arrives between the two timers, both calls settle.)
- Once ready, `ready` is detached, so a repeated handshake reaches
  `processMessage` and is handled like any reply. If its `requestID` is one
  a later call drew, it settles that call
  (`RepeatedHandshakeCanSettleAPendingCall`).
- A handshake whose `data` is falsy does not just leave the state alone. It
  overwrites `_token` with that value before testing it (109-110), so it
  clears a token loaded from storage.
- A payload that does not parse, or a parsed message without `response`,
  is not dropped silently by `processMessage`. `JSON.parse` throws at line 81,
  or line 89 reads `event` off `undefined`. A message without `response` also
  makes `ready` throw at line 109. The model reports these as the outcome
  `Threw` with the state unchanged.
- A falsy scalar `response` (false, 0, "") skips lines 83-87 and reads
  `undefined` at line 89, so `processMessage` returns having changed nothing.
  A truthy scalar settles the callback under its ID but never refreshes the
  token. In `ready`, any scalar `response` sets the token to `undefined`.
- `processMessage` does not check that `data` is a string, unlike `ready`
  (line 99). `JSON.parse` converts a non-string first, so a non-string
  payload whose text is an envelope is handled like that envelope.
- Only the handshake persists the token (line 114). The refreshes in
  `processMessage` and `requestIntents` change only the in-memory token. A
  refresh happens when `data` is truthy, not merely present.

## Model

| member | source | states |
|---|---|---|
| Engine.Init | src/APIWrapper.ts:55-72 | the freshly built object satisfies the invariant: not ready, bootstrap listener attached, only `connect` posted, no token, the persisted item in the store, no callbacks registered, no suspended calls, no promises and no settlements |
| Engine.LoadStoredToken | src/APIWrapper.ts:73-78 | only the token can change; an unexpired stored token record is adopted, and a falsy, tokenless or expired item leaves the token as it was |
| Engine.OnMessage | src/APIWrapper.ts:71-72 | a message goes to `ready` while the bootstrap listener is attached and to `processMessage` after the hand-off; the listener becomes the steady one only when the event makes the wrapper ready, and never reverts; no message posts, suspends or starts a call |
| Engine.FirstFresh | src/APIWrapper.ts:118-124 | the retry loop stops at the first drawn candidate that is not a registered ID, and every earlier draw is registered |
| Engine.ProcessMessage | src/APIWrapper.ts:80-93 | throws and changes nothing exactly when the payload does not parse or has no `response`; otherwise a truthy reply invokes the callback registered under `requestID` once with that reply, invokes nothing when none is registered, and leaves that ID unregistered with every other entry kept; a falsy reply touches no entry; it sets the token to `data` iff the reply is an object whose `event` is `"token"` and whose `data` is truthy, whether or not the ID matched; readiness, listener, outbox and store never change |
| Engine.Ready | src/APIWrapper.ts:94-117 | a repeat call, a non-string payload or unparsable text changes nothing; a message without `response` throws and changes nothing; otherwise the token becomes the reply's `data` (undefined for a scalar); falsy `data` changes nothing else; truthy `data` makes the wrapper ready, persists the token and hands the listener to `processMessage`; readiness is never lost |
| Engine.SendRequest | src/APIWrapper.ts:125-141 | the ID is the first draw that is not registered; if ready, exactly one envelope `{requestID, event, request}` is posted and the ID is registered for the new promise; if not ready, nothing is posted or registered and the call is suspended with that envelope; nothing else changes |
| Engine.ResumeSend | src/APIWrapper.ts:133-139 | a poll before the handshake changes nothing; after it, the suspended envelope is posted, its ID registered for that promise, and the call is no longer suspended |
| Engine.RequestIntentsResumed | src/APIWrapper.ts:146-151 | returns true iff the reply is an object with `success` set; the token becomes the reply's `data` on success and is unchanged otherwise; nothing else changes |
| Wrapper.APIWrapper.constructor | src/APIWrapper.ts:55-72 | the new object's fields equal `Engine.Init` |
| Wrapper.APIWrapper.ReadyState | src/APIWrapper.ts:44-46 | returns whether the handshake has completed |
| Wrapper.APIWrapper.LoadStoredToken | src/APIWrapper.ts:73-78 | the fields after the call equal `Engine.LoadStoredToken` of the fields before |
| Wrapper.APIWrapper.ProcessMessage | src/APIWrapper.ts:80-93 | the fields and outcome equal `Engine.ProcessMessage` of the fields before |
| Wrapper.APIWrapper.Ready | src/APIWrapper.ts:94-117 | the fields and outcome equal `Engine.Ready` of the fields before |
| Wrapper.APIWrapper.OnMessage | src/APIWrapper.ts:71-72 | the event goes to whichever of `ready` and `processMessage` is attached |
| Wrapper.APIWrapper.GetRequestId | src/APIWrapper.ts:118-124 | returns a candidate that is not a key of `requests`, namely the first such draw, and does not modify `requests` |
| Wrapper.APIWrapper.SendRequest | src/APIWrapper.ts:125-141 | the fields and the promise number equal `Engine.SendRequest` of the fields before |
| Wrapper.APIWrapper.ResumeSend | src/APIWrapper.ts:133-139 | the fields equal `Engine.ResumeSend` of the fields before |
| Wrapper.APIWrapper.RequestIntents | src/APIWrapper.ts:142-145 | sends the request `requestIntents` with body `{ intents }`, as `Engine.SendRequest` |
| Wrapper.APIWrapper.RequestIntentsResumed | src/APIWrapper.ts:146-151 | the fields and the returned flag equal `Engine.RequestIntentsResumed` |
| Wrapper.APIWrapper.WaitForToken | src/APIWrapper.ts:153-160 | the wait ends iff the token is truthy, and what it returns is that token, never a null one |
| Traces.ProcessMessagePreservesInv | src/APIWrapper.ts:82-92 | a steady-state message keeps the invariant: one callback per promise, and a settled promise is never registered or suspended again |
| Traces.ReadyPreservesInv | src/APIWrapper.ts:94-117 | the handshake handler keeps the invariant; in particular the listener is `processMessage` exactly when ready |
| Traces.SendRequestPreservesInv | src/APIWrapper.ts:125-141 | a call keeps the invariant: its promise number is new, so it is registered or suspended once and was never settled |
| Traces.ResumeSendPreservesInv | src/APIWrapper.ts:133-139 | posting a suspended call keeps the invariant, even when its registration replaces another callback |
| Traces.ApplyPreservesInv | src/APIWrapper.ts:73-152 | every event the loop can hand the wrapper keeps the invariant |
| Traces.RunPreservesInv | src/APIWrapper.ts:73-152 | every run from a state satisfying the invariant ends in one |
| Traces.RunKeepsReady | src/APIWrapper.ts:39-39 | no sequence of events sets `_ready` back to false |
| Traces.ReadyOnlyByHandshake | src/APIWrapper.ts:99-116 | the only event that makes the wrapper ready is a string message parsing to a response object with truthy `data`, which becomes the token, is persisted, and moves the listener to `processMessage` |
| Traces.NothingSentBeforeReady | src/APIWrapper.ts:133-137 | as long as the handshake has not completed, nothing is posted beyond `connect`, nothing is registered and no callback runs |
| Traces.RunOnlyAppends | src/APIWrapper.ts:83-87 | the posted messages and the callback invocations only ever grow, keeping what came before |
| Traces.AtMostOnceDelivery | src/APIWrapper.ts:83-87 | from construction, over any events, no `sendRequest` promise is settled twice |
| Traces.HandOff | src/APIWrapper.ts:115-116 | before the handshake every message goes to `ready`, after it to `processMessage`, and the listener moves exactly when readiness does |
| Traces.ReadyGuardIgnoresSecondCall | src/APIWrapper.ts:95-98 | once a handshake has made the wrapper ready, calling `ready` again changes nothing |
| Traces.LateHandshakeReachesProcessMessage | src/APIWrapper.ts:115-116 | once ready, every message event, a second handshake included, is handled exactly as `processMessage` handles it; readiness, the listener and the persisted token stay |
| Traces.RepeatedHandshakeCanSettleAPendingCall | src/APIWrapper.ts:82-87 | after a handshake, a call drawing the handshake's `requestID`, then the same handshake again: that call is settled with the handshake's reply and its entry removed |
| Traces.SecondReplyInvokesNothing | src/APIWrapper.ts:82-87 | after a truthy reply to an ID, a second reply with that ID invokes no callback |
| Traces.LostPromiseNeverSettles | src/APIWrapper.ts:137-137 | a promise whose callback was replaced and that is not suspended is never settled by any later events |
| Traces.PreHandshakeCallsCanShareAnId | src/APIWrapper.ts:118-137 | two calls made before the handshake, drawing the same ID, whose timers both fire after it and before any reply: both post with that ID; only the second callback is registered; the next truthy reply with that ID settles the second call; the first promise never settles |
| Traces.CallBeforeHandshakeIsSentAfterIt | src/APIWrapper.ts:127-139 | a call before the handshake posts and registers nothing and its polls do nothing; after the handshake its poll posts the envelope, and the reply to its ID settles its promise |
| Traces.ConnectThenGetUser | src/APIWrapper.ts:94-139 | the host answers `connect` with token `abc`; then the wrapper is ready with that token; a `getUser` call posts its envelope, and the reply to its ID settles that call and clears its entry |

## Left out

- `getUser`, `getSelf`, `getCommunity`, `getLMSSelf` (src/APIWrapper.ts:161-190): direct HTTP fetches through `nFetch`, which is not part of this model; they involve no correlation.
- `sendToast` (src/APIWrapper.ts:191-196): it only reads `.success` off a `sendRequest` reply.
- `getInstance` and the static `_self` (src/APIWrapper.ts:47-53): global singleton access, outside the protocol.
- The `node` constructor flag, and a missing `window.top`: the model always runs `init` and always has a host window to post to.
- The fields `_parent` and `boundReady`: `_parent` is never used, and `boundReady` is the listener slot.
- `JSON.parse`/`JSON.stringify`, `console` logging, and the text format of `Math.random().toString(36)`: a payload is represented by what parsing it yields, and a draw is any string.
- `setTimeout` and promise scheduling: each 20 ms poll and each resumption after an `await` is a separate step.
- `expires` is a JavaScript number; the model takes whole milliseconds.
- `localforage.setItem` completes at once in the model. The storage read is a step that `Traces.Run` allows at any point and more than once, which covers every order of it and the handshake.
- Traces.Apply: the item a `StorageLoaded` step delivers is any value, not tied to the persisted `store`. This over-approximates the source, which reads back what was persisted, and covers it.
- Wrapper.APIWrapper.GetRequestId: requires the draws to contain an unregistered ID, whereas the source loop would keep drawing forever; `Engine.SendRequest` and the class's `SendRequest` and `RequestIntents` carry the same requirement, and a run skips a call whose draws are all registered.
- Traces.Apply: lets a settled promise resume `requestIntents` without tracking which promises belong to `requestIntents` calls, and as often as asked. This over-approximates the source and only affects the token.
