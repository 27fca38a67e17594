/** The `APIWrapper` class itself (src/APIWrapper.ts:38-160): its fields are
    updated in place by each handler, and every method is proved to leave
    exactly the state the matching function of `Engine` describes. */
module Wrapper {
  import opened Messages
  import Engine

  class APIWrapper {
    var ready: bool
    var token: Value
    var requests: map<string, nat>
    var listener: Engine.Listener
    var outbox: seq<Posted>
    var store: Value
    var waiting: map<nat, RawRequest>
    var promises: nat
    var resolutions: seq<Engine.Resolution>

    /** The object's state as a value. */
    function Snapshot(): Engine.State
      reads this
    {
      Engine.State(ready, token, requests, listener, outbox, store, waiting, promises, resolutions)
    }

    /** `new APIWrapper()` with the initialisation of `init` except the
        storage load, which arrives later through `LoadStoredToken`. */
    constructor (persisted: Value)
      ensures Snapshot() == Engine.Init(persisted)
    {
      ready := false;
      token := Null;
      requests := map[];
      outbox := [Connect];
      listener := Engine.Bootstrap;
      store := persisted;
      waiting := map[];
      promises := 0;
      resolutions := [];
    }

    /** The `readyState` getter: whether the handshake has completed. */
    function ReadyState(): (r: bool)
      reads this
      ensures r <==> Snapshot().ready
    {
      ready
    }

    /** The callback of the storage read started by `init`. */
    method LoadStoredToken(item: Value, now: int)
      modifies this
      ensures Snapshot() == Engine.LoadStoredToken(old(Snapshot()), item, now)
    {
      if Truthy(item) && ExpiresAfter(item, now) {
        token := item;
      }
    }

    method ProcessMessage(e: Inbound) returns (outcome: Engine.Outcome)
      modifies this
      ensures Engine.Handled(Snapshot(), outcome) == Engine.ProcessMessage(old(Snapshot()), e)
    {
      if e.parsed.None? || e.parsed.value.response.Missing? {
        // JSON.parse throws, or `message.response.event` is read off a missing response
        return Engine.Threw;
      }
      var message := e.parsed.value;
      var reply := message.response;
      if ReplyTruthy(reply) && message.requestID.Some? {
        var id := message.requestID.value;
        if id in requests {
          resolutions := resolutions + [Engine.Resolution(requests[id], reply)];
        }
        requests := requests - {id};
      }
      if IsTokenRefresh(reply) {
        token := reply.body.data;
      }
      outcome := Engine.Returned;
    }

    method Ready(e: Inbound) returns (outcome: Engine.Outcome)
      modifies this
      ensures Engine.Handled(Snapshot(), outcome) == Engine.Ready(old(Snapshot()), e)
    {
      if ready {
        return Engine.Returned;
      }
      if !e.isString || e.parsed.None? {
        return Engine.Returned;
      }
      if e.parsed.value.response.Missing? {
        // `tokenInfo.response.data` is read off a missing response
        return Engine.Threw;
      }
      token := DataOf(e.parsed.value.response);
      if !Truthy(token) {
        return Engine.Returned;
      }
      ready := true;
      store := token;
      listener := Engine.Steady;
      outcome := Engine.Returned;
    }

    /** The window delivers one message event to the attached handler. */
    method OnMessage(e: Inbound) returns (outcome: Engine.Outcome)
      modifies this
      ensures Engine.Handled(Snapshot(), outcome) == Engine.OnMessage(old(Snapshot()), e)
    {
      if listener == Engine.Bootstrap {
        outcome := Ready(e);
      } else {
        outcome := ProcessMessage(e);
      }
    }

    /** `getRequestId`: `candidates` are the successive values the random
        generator yields during the call. */
    method GetRequestId(candidates: seq<string>) returns (id: string)
      requires Engine.HasFresh(candidates, requests.Keys)
      ensures id !in requests
      ensures id == candidates[Engine.FirstFresh(candidates, requests.Keys)]
    {
      var i := 0;
      ghost var k := Engine.FirstFresh(candidates, requests.Keys);
      while candidates[i] in requests
        invariant 0 <= i <= k
        decreases k - i
      {
        i := i + 1;
      }
      id := candidates[i];
    }

    /** `sendRequest` up to its first suspension: returns the number of the
        promise the call hands back. */
    method SendRequest(name: string, data: Value, candidates: seq<string>) returns (promise: nat)
      requires Engine.HasFresh(candidates, requests.Keys)
      modifies this
      ensures Engine.Started(Snapshot(), promise) == Engine.SendRequest(old(Snapshot()), name, data, candidates)
    {
      var id := GetRequestId(candidates);
      promise := promises;
      promises := promises + 1;
      var envelope := RawRequest(id, name, data);
      if !ready {
        waiting := waiting[promise := envelope];
        return;
      }
      outbox := outbox + [Request(envelope)];
      requests := requests[id := promise];
    }

    /** A suspended `sendRequest` re-tests readiness after its 20 ms wait. */
    method ResumeSend(p: nat)
      requires p in waiting
      modifies this
      ensures Snapshot() == Engine.ResumeSend(old(Snapshot()), p)
    {
      if !ready {
        return;
      }
      var envelope := waiting[p];
      outbox := outbox + [Request(envelope)];
      requests := requests[envelope.requestID := p];
      waiting := waiting - {p};
    }

    /** `requestIntents` up to the await of its request. */
    method RequestIntents(intents: seq<PluginIntent>, candidates: seq<string>) returns (promise: nat)
      requires Engine.HasFresh(candidates, requests.Keys)
      modifies this
      ensures Engine.Started(Snapshot(), promise)
              == Engine.SendRequest(old(Snapshot()), "requestIntents", IntentList(intents), candidates)
    {
      promise := SendRequest("requestIntents", IntentList(intents), candidates);
    }

    /** The rest of `requestIntents`, resumed with the response its request
        was answered with. */
    method RequestIntentsResumed(result: Reply) returns (success: bool)
      modifies this
      ensures (Snapshot(), success) == Engine.RequestIntentsResumed(old(Snapshot()), result)
    {
      success := result.Object? && result.body.success;
      if success {
        token := result.body.data;
      }
    }

    /** One test of `waitForToken`'s loop: `Some(token)` is what the call
        returns once the token is set; `None` means it waits 20 ms more. */
    method WaitForToken() returns (t: Option<Value>)
      ensures t.Some? <==> Truthy(token)
      ensures t.Some? ==> t.value == token
    {
      if !Truthy(token) {
        return None;
      }
      t := Some(token);
    }
  }
}
