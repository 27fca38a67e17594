/** The state of one `APIWrapper` (src/APIWrapper.ts:38-160) as a value, and
    one function per handler giving the state it leaves behind. These
    functions are the specification the class in api_wrapper.dfy is proved
    against, and the steps the lemmas in traces.dfy compose. */
module Engine {
  import opened Messages

  /** Which handler is attached to the window's "message" event. */
  datatype Listener = Bootstrap | Steady

  /** The promise `p` of a `sendRequest` call settled with `reply`, the
      `response` of the message that invoked the callback registered for
      that call. */
  datatype Resolution = Resolution(promise: nat, reply: Reply)

  /** How a message handler ended: it returned, or a TypeError/SyntaxError
      escaped it (the state stays as it was at the throw). */
  datatype Outcome = Returned | Threw

  /** `ready`, `token` and `requests` are the object's own fields `_ready`,
      `_token` and `requests`; a callback in `requests` is named by the
      number of the `sendRequest` promise it resolves. The other fields
      stand for what the object touches outside itself: `listener` the
      attached handler, `outbox` every message posted to the host, `store`
      the persisted token item, `waiting` the `sendRequest` calls suspended
      on readiness (by promise number, with the envelope each will post),
      `promises` how many `sendRequest` calls were made, `resolutions`
      every callback invocation so far, in order. */
  datatype State = State(
    ready: bool,
    token: Value,
    requests: map<string, nat>,
    listener: Listener,
    outbox: seq<Posted>,
    store: Value,
    waiting: map<nat, RawRequest>,
    promises: nat,
    resolutions: seq<Resolution>)

  datatype Handled = Handled(state: State, outcome: Outcome)

  datatype Started = Started(state: State, promise: nat)

  /** A promise no callback and no suspended call can settle any more. */
  ghost predicate Unreachable(s: State, p: nat) {
    p !in s.waiting && p !in s.requests.Values
  }

  /** What every reachable state satisfies. */
  ghost predicate Inv(s: State) {
    // the steady listener is attached exactly when the handshake is done
    && (s.listener == Steady <==> s.ready)
    // nothing is registered before the handshake
    && (!s.ready ==> s.requests == map[])
    && (forall p :: p in s.waiting ==> p < s.promises)
    && (forall id :: id in s.requests ==> s.requests[id] < s.promises && s.requests[id] !in s.waiting)
    // one callback per promise
    && (forall id1, id2 :: id1 in s.requests && id2 in s.requests && s.requests[id1] == s.requests[id2] ==> id1 == id2)
    // a settled promise can never be settled again
    && (forall i :: 0 <= i < |s.resolutions| ==> s.resolutions[i].promise < s.promises && Unreachable(s, s.resolutions[i].promise))
    && (forall i, j :: 0 <= i < j < |s.resolutions| ==> s.resolutions[i].promise != s.resolutions[j].promise)
  }

  /** The object right after construction (src/APIWrapper.ts:39-42, 58-72):
      `connect` posted, the bootstrap listener attached, nothing else yet.
      `persisted` is what the token store holds from an earlier session. */
  function Init(persisted: Value): (s: State)
    ensures Inv(s)
    ensures !s.ready && s.listener == Bootstrap && s.outbox == [Connect]
    ensures s.token == Null && s.store == persisted
    ensures s.requests == map[] && s.waiting == map[] && s.promises == 0 && s.resolutions == []
  {
    State(false, Null, map[], Bootstrap, [Connect], persisted, map[], 0, [])
  }

  /** The storage-load callback (src/APIWrapper.ts:73-78): the item read from
      the token store is adopted only if it is truthy and unexpired at `now`. */
  function LoadStoredToken(s: State, item: Value, now: int): (r: State)
    ensures r == s.(token := r.token)
    ensures r.token != s.token ==> r.token.TokenInfo? && r.token.expires > now
    ensures item.TokenInfo? && item.expires > now ==> r.token == item
    // a falsy, tokenless or expired item leaves the token as it was
    ensures !(item.TokenInfo? && item.expires > now) ==> r.token == s.token
  {
    if Truthy(item) && ExpiresAfter(item, now) then s.(token := item) else s
  }

  /** Whether some candidate is not yet a key. */
  predicate HasFresh(candidates: seq<string>, keys: set<string>) {
    exists j :: 0 <= j < |candidates| && candidates[j] !in keys
  }

  /** The index of the first candidate that is not a key: the draw at which
      the retry loop of `getRequestId` stops. */
  function FirstFresh(candidates: seq<string>, keys: set<string>): (k: nat)
    requires HasFresh(candidates, keys)
    ensures k < |candidates| && candidates[k] !in keys
    ensures forall j :: 0 <= j < k ==> candidates[j] in keys
    decreases |candidates|
  {
    if candidates[0] !in keys then 0
    else
      assert HasFresh(candidates[1..], keys) by {
        var j :| 0 <= j < |candidates| && candidates[j] !in keys;
        assert j > 0 && candidates[1..][j - 1] == candidates[j];
      }
      1 + FirstFresh(candidates[1..], keys)
  }

  /** `processMessage` (src/APIWrapper.ts:80-93). It never looks at
      whether the payload is a string: `JSON.parse` converts it. */
  function ProcessMessage(s: State, e: Inbound): (h: Handled)
    // JSON.parse throws (line 81), or `message.response.event` is read off
    // a missing response (line 89): the handler throws and changes nothing
    ensures h.outcome == Threw <==> e.parsed.None? || e.parsed.value.response.Missing?
    ensures h.outcome == Threw ==> h.state == s
    // never touches readiness, listener, outbox, store or suspended calls
    ensures h.state == s.(token := h.state.token, requests := h.state.requests, resolutions := h.state.resolutions)
    ensures h.outcome == Returned ==>
      var id := e.parsed.value.requestID;
      var reply := e.parsed.value.response;
      var settles := ReplyTruthy(reply) && id.Some? && id.value in s.requests;
      // the callback registered under the ID is invoked once, with this reply
      && (settles ==> h.state.resolutions == s.resolutions + [Resolution(s.requests[id.value], reply)])
      && (!settles ==> h.state.resolutions == s.resolutions)
      // a truthy reply removes the entry; a falsy one touches no entry
      && (ReplyTruthy(reply) && id.Some? ==> id.value !in h.state.requests)
      && (!ReplyTruthy(reply) ==> h.state.requests == s.requests)
      && h.state.requests.Keys <= s.requests.Keys
      && (forall k :: k in s.requests && id != Some(k) ==> k in h.state.requests && h.state.requests[k] == s.requests[k])
      // token refresh, whether or not the ID matched
      && (IsTokenRefresh(reply) ==> h.state.token == reply.body.data)
      && (!IsTokenRefresh(reply) ==> h.state.token == s.token)
  {
    match e.parsed
    case None => Handled(s, Threw)
    case Some(message) =>
      var reply := message.response;
      if reply.Missing? then Handled(s, Threw)
      else
        var id := message.requestID;
        var invoked :=
          if ReplyTruthy(reply) && id.Some? && id.value in s.requests
          then s.(resolutions := s.resolutions + [Resolution(s.requests[id.value], reply)])
          else s;
        var deleted :=
          if ReplyTruthy(reply) && id.Some? then invoked.(requests := invoked.requests - {id.value})
          else invoked;
        var refreshed :=
          if IsTokenRefresh(reply) then deleted.(token := reply.body.data)
          else deleted;
        Handled(refreshed, Returned)
  }

  /** `ready`, the bootstrap handler (src/APIWrapper.ts:94-117). */
  function Ready(s: State, e: Inbound): (h: Handled)
    // a repeat handshake, a non-string payload, or text that does not
    // parse: nothing changes
    ensures s.ready || !e.isString || e.parsed.None? ==> h == Handled(s, Returned)
    // `tokenInfo.response.data` on a message without a response throws
    ensures !s.ready && e.isString && e.parsed.Some? && e.parsed.value.response.Missing? ==> h == Handled(s, Threw)
    ensures h.state == s.(ready := h.state.ready, token := h.state.token, store := h.state.store, listener := h.state.listener)
    ensures !s.ready && e.isString && e.parsed.Some? && !e.parsed.value.response.Missing? ==>
      var data := DataOf(e.parsed.value.response);
      // the token is overwritten before it is checked
      && h.outcome == Returned && h.state.token == data
      // a tokenless handshake: still not ready, still the bootstrap listener
      && (!Truthy(data) ==> h.state == s.(token := Null))
      // a token: ready, persisted, listener handed over
      && (Truthy(data) ==> h.state.ready && h.state.store == data && h.state.listener == Steady)
    ensures s.ready ==> h.state.ready
  {
    if s.ready || !e.isString then Handled(s, Returned)
    else match e.parsed
      case None => Handled(s, Returned)
      case Some(message) =>
        if message.response.Missing? then Handled(s, Threw)
        else
          var data := DataOf(message.response);
          var s' := s.(token := data);
          if !Truthy(s'.token) then Handled(s', Returned)
          else Handled(s'.(ready := true, store := data, listener := Steady), Returned)
  }

  /** One message event reaching whichever handler is attached
      (src/APIWrapper.ts:71-72, 115-116). */
  function OnMessage(s: State, e: Inbound): (h: Handled)
    // the bootstrap listener is `ready`, the steady one `processMessage`
    ensures s.listener == Bootstrap ==> h == Ready(s, e)
    ensures s.listener == Steady ==> h == ProcessMessage(s, e)
    // the listener moves only with readiness, and never back
    ensures h.state.listener == Steady <==> s.listener == Steady || (!s.ready && h.state.ready)
    // whatever the listener, only these handlers' fields change
    ensures h.state.outbox == s.outbox && h.state.waiting == s.waiting && h.state.promises == s.promises
  {
    match s.listener
    case Bootstrap => Ready(s, e)
    case Steady => ProcessMessage(s, e)
  }

  /** A call of `sendRequest` up to its first suspension
      (src/APIWrapper.ts:125-141): the ID is drawn first, checked only
      against registered IDs; if the handshake is done the envelope is
      posted and the callback registered at once, otherwise the call waits. */
  function SendRequest(s: State, name: string, data: Value, candidates: seq<string>): (st: Started)
    requires HasFresh(candidates, s.requests.Keys)
    ensures st.promise == s.promises && st.state.promises == s.promises + 1
    ensures st.state == s.(outbox := st.state.outbox, requests := st.state.requests, waiting := st.state.waiting, promises := st.state.promises)
    ensures
      var id := candidates[FirstFresh(candidates, s.requests.Keys)];
      var envelope := RawRequest(id, name, data);
      && id !in s.requests
      && (s.ready ==>
            && st.state.outbox == s.outbox + [Request(envelope)]
            && st.state.requests == s.requests[id := st.promise]
            && st.state.waiting == s.waiting)
      && (!s.ready ==>
            && st.state.outbox == s.outbox
            && st.state.requests == s.requests
            && st.state.waiting == s.waiting[st.promise := envelope])
  {
    var id := candidates[FirstFresh(candidates, s.requests.Keys)];
    var envelope := RawRequest(id, name, data);
    var promise := s.promises;
    var s' := s.(promises := s.promises + 1);
    if s.ready then Started(s'.(outbox := s.outbox + [Request(envelope)], requests := s.requests[id := promise]), promise)
    else Started(s'.(waiting := s.waiting[promise := envelope]), promise)
  }

  /** One 20 ms re-test of readiness by a suspended `sendRequest`
      (src/APIWrapper.ts:133-139). */
  function ResumeSend(s: State, p: nat): (r: State)
    requires p in s.waiting
    ensures !s.ready ==> r == s
    ensures r == s.(outbox := r.outbox, requests := r.requests, waiting := r.waiting)
    ensures s.ready ==>
      && r.outbox == s.outbox + [Request(s.waiting[p])]
      && r.requests == s.requests[s.waiting[p].requestID := p]
      && r.waiting == s.waiting - {p}
  {
    if !s.ready then s
    else
      var envelope := s.waiting[p];
      s.(outbox := s.outbox + [Request(envelope)], requests := s.requests[envelope.requestID := p], waiting := s.waiting - {p})
  }

  /** The rest of `requestIntents` once its request has been answered with
      `result` (src/APIWrapper.ts:146-151): it returns `result.success` and
      installs `result.data` as the token only on success. A scalar reply
      has no `success`, which reads undefined and counts as failure. */
  function RequestIntentsResumed(s: State, result: Reply): (r: (State, bool))
    ensures r.1 <==> result.Object? && result.body.success
    ensures r.0 == s.(token := r.0.token)
    ensures r.1 ==> r.0.token == result.body.data
    ensures !r.1 ==> r.0.token == s.token
  {
    if result.Object? && result.body.success then (s.(token := result.body.data), true) else (s, false)
  }
}
