/** Runs of the wrapper: every event the single-threaded event loop can hand
    it, one at a time, and what holds over any sequence of them. */
module Traces {
  import opened Messages
  import opened Engine

  /** One turn of the event loop that reaches the wrapper. */
  datatype Step =
      // a message event reaches the attached handler
    | Deliver(e: Inbound)
      // `sendRequest(name, data)` is called; `candidates` are the random draws
    | Call(name: string, data: Value, candidates: seq<string>)
      // the 20 ms timer of suspended call `promise` fires
    | Tick(promise: nat)
      // the storage read started by `init` completes at time `now`
    | StorageLoaded(item: Value, now: int)
      // `requestIntents` resumes after promise `promise` settled with `result`
    | IntentsResumed(promise: nat, result: Reply)

  /** A step the event loop cannot take (a timer of no suspended call, a
      resumption of a promise not settled with that value, draws that never
      leave the registered IDs) leaves the state as it is. */
  function Apply(s: State, step: Step): State {
    match step
    case Deliver(e) => OnMessage(s, e).state
    case Call(name, data, candidates) =>
      if HasFresh(candidates, s.requests.Keys) then SendRequest(s, name, data, candidates).state else s
    case Tick(p) => if p in s.waiting then ResumeSend(s, p) else s
    case StorageLoaded(item, now) => LoadStoredToken(s, item, now)
    case IntentsResumed(p, result) =>
      if Resolution(p, result) in s.resolutions then RequestIntentsResumed(s, result).0 else s
  }

  function Run(s: State, steps: seq<Step>): State
    decreases |steps|
  {
    if steps == [] then s else Run(Apply(s, steps[0]), steps[1..])
  }

  lemma ProcessMessagePreservesInv(s: State, e: Inbound)
    requires Inv(s) && s.ready
    ensures Inv(ProcessMessage(s, e).state)
  {
  }

  lemma ReadyPreservesInv(s: State, e: Inbound)
    requires Inv(s) && !s.ready
    ensures Inv(Ready(s, e).state)
  {
  }

  lemma SendRequestPreservesInv(s: State, name: string, data: Value, candidates: seq<string>)
    requires Inv(s) && HasFresh(candidates, s.requests.Keys)
    ensures Inv(SendRequest(s, name, data, candidates).state)
  {
  }

  lemma ResumeSendPreservesInv(s: State, p: nat)
    requires Inv(s) && p in s.waiting
    ensures Inv(ResumeSend(s, p))
  {
  }

  lemma ApplyPreservesInv(s: State, step: Step)
    requires Inv(s)
    ensures Inv(Apply(s, step))
  {
    match step
    case Deliver(e) =>
      if s.ready { ProcessMessagePreservesInv(s, e); } else { ReadyPreservesInv(s, e); }
    case Call(name, data, candidates) =>
      if HasFresh(candidates, s.requests.Keys) { SendRequestPreservesInv(s, name, data, candidates); }
    case Tick(p) =>
      if p in s.waiting { ResumeSendPreservesInv(s, p); }
    case StorageLoaded(_, _) =>
    case IntentsResumed(_, _) =>
  }

  lemma {:induction false} RunPreservesInv(s: State, steps: seq<Step>)
    requires Inv(s)
    ensures Inv(Run(s, steps))
    decreases |steps|
  {
    if steps != [] {
      ApplyPreservesInv(s, steps[0]);
      RunPreservesInv(Apply(s, steps[0]), steps[1..]);
    }
  }

  /** Readiness never reverts: no step sets `_ready` back to false. */
  lemma {:induction false} RunKeepsReady(s: State, steps: seq<Step>)
    requires s.ready
    ensures Run(s, steps).ready
    decreases |steps|
  {
    if steps != [] {
      assert Apply(s, steps[0]).ready;
      RunKeepsReady(Apply(s, steps[0]), steps[1..]);
    }
  }

  /** The only step that makes the wrapper ready is a string message event,
      taken by the bootstrap listener, whose reply object carries a truthy
      token; that same step hands the event over to the steady listener and
      persists the token. */
  lemma ReadyOnlyByHandshake(s: State, step: Step)
    requires Inv(s) && !s.ready && Apply(s, step).ready
    ensures step.Deliver? && step.e.isString && step.e.parsed.Some? && step.e.parsed.value.response.Object?
    ensures var data := step.e.parsed.value.response.body.data;
      && Truthy(data)
      && Apply(s, step).token == data && Apply(s, step).store == data
      && Apply(s, step).listener == Steady
  {
  }

  /** Until the handshake, nothing but `connect` is posted and nothing is
      registered: calls made before it are all suspended. */
  lemma {:induction false} NothingSentBeforeReady(s: State, steps: seq<Step>)
    requires Inv(s)
    requires !Run(s, steps).ready
    ensures Run(s, steps).outbox == s.outbox && Run(s, steps).requests == map[]
    ensures Run(s, steps).resolutions == s.resolutions
    decreases |steps|
  {
    if steps == [] {
    } else {
      var s' := Apply(s, steps[0]);
      ApplyPreservesInv(s, steps[0]);
      if s'.ready {
        RunKeepsReady(s', steps[1..]);
      }
      NothingSentBeforeReady(s', steps[1..]);
    }
  }

  /** Posting and settling are logs: steps only ever append to them. */
  lemma {:induction false} RunOnlyAppends(s: State, steps: seq<Step>)
    ensures |s.outbox| <= |Run(s, steps).outbox| && Run(s, steps).outbox[..|s.outbox|] == s.outbox
    ensures |s.resolutions| <= |Run(s, steps).resolutions|
    ensures Run(s, steps).resolutions[..|s.resolutions|] == s.resolutions
    decreases |steps|
  {
    if steps != [] {
      var s' := Apply(s, steps[0]);
      RunOnlyAppends(s', steps[1..]);
      assert s'.outbox[..|s.outbox|] == s.outbox;
      assert s'.resolutions[..|s.resolutions|] == s.resolutions;
      assert Run(s, steps).outbox[..|s.outbox|] == Run(s, steps).outbox[..|s'.outbox|][..|s.outbox|];
      assert Run(s, steps).resolutions[..|s.resolutions|]
          == Run(s, steps).resolutions[..|s'.resolutions|][..|s.resolutions|];
    }
  }

  /** At-most-once delivery: from construction, over any sequence of
      events, no `sendRequest` promise is settled twice. */
  lemma AtMostOnceDelivery(persisted: Value, steps: seq<Step>)
    ensures var s := Run(Init(persisted), steps);
      forall i, j :: 0 <= i < j < |s.resolutions| ==> s.resolutions[i].promise != s.resolutions[j].promise
  {
    RunPreservesInv(Init(persisted), steps);
  }

  /** Listener hand-off: a message before the handshake goes to `ready`,
      one after it to `processMessage`, and the listener moves exactly when
      readiness does. */
  lemma HandOff(s: State, e: Inbound)
    requires Inv(s)
    ensures OnMessage(s, e) == if s.ready then ProcessMessage(s, e) else Ready(s, e)
    ensures OnMessage(s, e).state.listener == (if OnMessage(s, e).state.ready then Steady else Bootstrap)
  {
  }

  /** The guard at the top of `ready`: called again once a handshake has
      made the wrapper ready, `ready` itself changes nothing. The window no
      longer calls it then (see `LateHandshakeReachesProcessMessage`). */
  lemma ReadyGuardIgnoresSecondCall(s: State, first: Inbound, second: Inbound)
    requires Ready(s, first).state.ready
    ensures Ready(Ready(s, first).state, second) == Handled(Ready(s, first).state, Returned)
  {
  }

  /** Once ready, a message event reaches `processMessage`, whatever it
      holds: a second handshake keeps readiness, the listener and the
      persisted token, and is otherwise handled like any reply. */
  lemma LateHandshakeReachesProcessMessage(s: State, e: Inbound)
    requires Inv(s) && s.ready
    ensures Apply(s, Deliver(e)) == ProcessMessage(s, e).state
    ensures var r := Apply(s, Deliver(e));
      r.ready && r.listener == Steady && r.store == s.store
  {
  }

  /** A repeated handshake is not ignored: when its `requestID` is the ID a
      later call drew, it settles that call with the handshake's reply. */
  lemma RepeatedHandshakeCanSettleAPendingCall(
    persisted: Value, x: string, name: string, data: Value, r: RequestResponse)
    requires Truthy(r.data)
    ensures
      var handshake := Text(RawResponse(Some(x), Object(r)));
      var s1 := Apply(Init(persisted), Deliver(handshake));
      var s2 := Apply(s1, Call(name, data, [x]));
      var s3 := Apply(s2, Deliver(handshake));
      && s1.ready && s2.requests == map[x := 0]
      && s3.resolutions == [Resolution(0, Object(r))] && x !in s3.requests
  {
    var s1 := Apply(Init(persisted), Deliver(Text(RawResponse(Some(x), Object(r)))));
    assert HasFresh([x], s1.requests.Keys) by { assert [x][0] !in s1.requests.Keys; }
  }

  /** A second reply with an ID already answered by a truthy reply settles
      nothing. */
  lemma SecondReplyInvokesNothing(s: State, id: string, first: Reply, second: RawResponse)
    requires ReplyTruthy(first) && second.requestID == Some(id)
    ensures var s' := ProcessMessage(s, Text(RawResponse(Some(id), first))).state;
      ProcessMessage(s', Text(second)).state.resolutions == s'.resolutions
  {
  }

  /** A promise whose callback is gone and that is not waiting to post is
      never settled, whatever happens next. */
  lemma {:induction false} LostPromiseNeverSettles(s: State, steps: seq<Step>, p: nat)
    requires Inv(s) && p < s.promises && Unreachable(s, p)
    requires forall i :: 0 <= i < |s.resolutions| ==> s.resolutions[i].promise != p
    ensures var r := Run(s, steps);
      Unreachable(r, p) && forall i :: 0 <= i < |r.resolutions| ==> r.resolutions[i].promise != p
    decreases |steps|
  {
    if steps != [] {
      var s' := Apply(s, steps[0]);
      ApplyPreservesInv(s, steps[0]);
      match steps[0] {
        case Deliver(e) =>
          if s.ready && e.parsed.Some? {
            var id := e.parsed.value.requestID;
            if id.Some? && id.value in s.requests {
              assert s.requests[id.value] != p;
            }
          }
        case Call(name, data, candidates) =>
        case Tick(q) =>
        case StorageLoaded(_, _) =>
        case IntentsResumed(_, _) =>
      }
      LostPromiseNeverSettles(s', steps[1..], p);
    }
  }

  /** Two calls made before the handshake can be given the same ID: the ID
      is drawn before the wait and checked only against registered IDs, and
      neither call has registered yet. In the order where both timers fire
      before any reply, both envelopes are posted with that ID and the
      second registration replaces the first callback. The first reply to
      arrive with that ID, which may well answer the first envelope, then
      settles the second call, and the first call's promise is never
      settled, whatever arrives afterwards. */
  lemma PreHandshakeCallsCanShareAnId(
    persisted: Value, id: string, first: RawRequest, second: RawRequest,
    handshake: RawResponse, reply: Reply, later: seq<Step>)
    requires handshake.response.Object? && Truthy(handshake.response.body.data)
    ensures
      var s := Apply(Apply(Apply(Apply(Apply(Init(persisted),
        Call(first.event, first.request, [id])),
        Call(second.event, second.request, [id])),
        Deliver(Text(handshake))),
        Tick(0)),
        Tick(1));
      && s.outbox == [Connect, Request(first.(requestID := id)), Request(second.(requestID := id))]
      && s.requests == map[id := 1]
      && (ReplyTruthy(reply) ==>
            Apply(s, Deliver(Text(RawResponse(Some(id), reply)))).resolutions == [Resolution(1, reply)])
      && forall i :: 0 <= i < |Run(s, later).resolutions| ==> Run(s, later).resolutions[i].promise != 0
  {
    var s0 := Init(persisted);
    assert HasFresh([id], s0.requests.Keys) by { assert [id][0] !in s0.requests.Keys; }
    var s1 := Apply(s0, Call(first.event, first.request, [id]));
    assert s1.waiting == map[0 := first.(requestID := id)];
    assert HasFresh([id], s1.requests.Keys) by { assert [id][0] !in s1.requests.Keys; }
    var s2 := Apply(s1, Call(second.event, second.request, [id]));
    assert s2.waiting == map[0 := first.(requestID := id), 1 := second.(requestID := id)];
    var s3 := Apply(s2, Deliver(Text(handshake)));
    assert s3.ready && s3.waiting == s2.waiting && s3.outbox == [Connect];
    var s4 := Apply(s3, Tick(0));
    assert s4.requests == map[id := 0] && s4.waiting == map[1 := second.(requestID := id)];
    var s5 := Apply(s4, Tick(1));
    assert s5.requests == map[id := 1] && s5.waiting == map[];
    ApplyPreservesInv(s0, Call(first.event, first.request, [id]));
    ApplyPreservesInv(s1, Call(second.event, second.request, [id]));
    ApplyPreservesInv(s2, Deliver(Text(handshake)));
    ApplyPreservesInv(s3, Tick(0));
    ApplyPreservesInv(s4, Tick(1));
    assert s5.resolutions == [];
    LostPromiseNeverSettles(s5, later, 0);
  }

  /** A call made before the handshake posts nothing and registers nothing,
      and its timer changes nothing while the wrapper is not ready; after
      the handshake its next timer posts the envelope and registers the
      callback, and the reply to that ID settles its promise. */
  lemma CallBeforeHandshakeIsSentAfterIt(
    persisted: Value, name: string, data: Value, id: string,
    handshake: RawResponse, reply: Reply)
    requires handshake.response.Object? && Truthy(handshake.response.body.data)
    requires ReplyTruthy(reply)
    ensures
      var s1 := Apply(Init(persisted), Call(name, data, [id]));
      && s1.outbox == [Connect] && s1.requests == map[] && 0 in s1.waiting
      && Apply(s1, Tick(0)) == s1
    ensures
      var s3 := Apply(Apply(Apply(Init(persisted), Call(name, data, [id])), Deliver(Text(handshake))), Tick(0));
      && s3.outbox == [Connect, Request(RawRequest(id, name, data))]
      && s3.requests == map[id := 0]
      && Apply(s3, Deliver(Text(RawResponse(Some(id), reply)))).resolutions == [Resolution(0, reply)]
  {
    var s0 := Init(persisted);
    assert HasFresh([id], s0.requests.Keys) by { assert [id][0] !in s0.requests.Keys; }
  }

  /** The exchange that opens a session: the host answers `connect` with a
      token, the plugin asks for a user, and the reply resolves that call
      and clears its entry. */
  lemma ConnectThenGetUser(persisted: Value, now: int, id: string)
    ensures
      var token := TokenInfo("abc", now + 3600000);
      var s1 := Apply(Init(persisted),
        Deliver(Text(RawResponse(Some("x"), Object(RequestResponse("connect", true, token))))));
      var s2 := Apply(s1, Call("getUser", Opaque("42"), [id]));
      var reply := Object(RequestResponse("getUser", true, Opaque("42")));
      var s3 := Apply(s2, Deliver(Text(RawResponse(Some(id), reply))));
      && s1.ready && s1.token == token
      && s2.outbox == [Connect, Request(RawRequest(id, "getUser", Opaque("42")))]
      && s3.resolutions == [Resolution(0, reply)]
      && id !in s3.requests
  {
    var token := TokenInfo("abc", now + 3600000);
    var s1 := Apply(Init(persisted),
      Deliver(Text(RawResponse(Some("x"), Object(RequestResponse("connect", true, token))))));
    assert HasFresh([id], s1.requests.Keys) by { assert [id][0] !in s1.requests.Keys; }
  }
}

