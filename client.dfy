/**
 * `JolocomRPCClient` (packages/client/src/index.ts; src/client.ts is the same
 * correlator with `isConnected` as a getter): requests are written to the socket
 * at once when it is open and queued otherwise, the queue is written out when the
 * socket opens, and each reply is routed by its id to the callback that settles
 * the promise of the call that id was made for.
 */
module Client {
  import opened Js
  import opened JsonRpc

  /** The promise `sendRequest` returns. */
  datatype PromiseState = Pending | Resolved(result: Value) | Rejected(error: RpcError)

  /** A promise settles once; resolving or rejecting it again changes nothing. */
  function Settle(p: PromiseState, outcome: PromiseState): (r: PromiseState)
    ensures !p.Pending? ==> r == p
    ensures p.Pending? ==> r == outcome
  {
    if p.Pending? then outcome else p
  }

  /** `randomBytes(8).toString('hex')`: sixteen lower-case hexadecimal digits. */
  predicate IsRequestId(id: string) {
    |id| == 16 && forall k :: 0 <= k < |id| ==> id[k] in "0123456789abcdef"
  }

  /**
   * How the `message` listener treats an envelope: an error or success response
   * whose id is present and non-empty (`if (response.payload.id)`) invokes the
   * callback under that id, which rejects with the error object or resolves with
   * the result; anything else is passed over.
   */
  function Route(env: Envelope): (r: Option<(Id, PromiseState)>)
    ensures r.Some? <==> (env.Error? && env.replyTo.Some? && env.replyTo.value != "") || (env.Success? && env.id != "")
    ensures r.Some? && env.Error? ==> r.value == (env.replyTo.value, Rejected(env.error))
    ensures r.Some? && env.Success? ==> r.value == (env.id, Resolved(env.result))
  {
    match env
    case Error(Some(id), e) => if id != "" then Some((id, Rejected(e))) else None
    case Success(id, v) => if id != "" then Some((id, Resolved(v))) else None
    case _ => None
  }

  /** Every pending callback belongs to a call already made. */
  predicate CallsKnown(pendingRequests: map<Id, nat>, promises: seq<PromiseState>) {
    forall id :: id in pendingRequests ==> pendingRequests[id] < |promises|
  }

  /** The promises after the listener has handled `env`. */
  function Deliver(pendingRequests: map<Id, nat>, promises: seq<PromiseState>, env: Envelope): (r: seq<PromiseState>)
    requires CallsKnown(pendingRequests, promises)
    ensures |r| == |promises|
  {
    match Route(env)
    case Some((id, outcome)) =>
      if id in pendingRequests then
        var call := pendingRequests[id];
        promises[call := Settle(promises[call], outcome)]
      else promises
    case None => promises
  }

  /** What became of an inbound envelope. */
  datatype Delivery =
    | Ignored
    | Delivered(id: Id)
      /** No callback under the id: calling `undefined` throws out of the listener. */
    | ListenerThrew(id: Id)

  class JolocomRpcClient {
    /** `wsClient.readyState === WebSocket.OPEN` */
    var connected: bool
    var messageQueue: seq<Envelope>
    /** Everything written to the socket, in order. */
    var sent: seq<Envelope>
    /** The callback of each id, named by the index of the call whose promise it settles. */
    var pendingRequests: map<Id, nat>
    /** The promise of every call made, in call order. */
    var promises: seq<PromiseState>
    /** Whether the socket has emitted `open`; it does so at most once, and the client never reconnects. */
    ghost var hasOpened: bool

    ghost predicate Valid()
      reads this
    {
      CallsKnown(pendingRequests, promises)
    }

    /** The socket starts out connecting. */
    constructor ()
      ensures Valid()
      ensures !connected && !hasOpened && messageQueue == [] && sent == [] && pendingRequests == map[] && promises == []
    {
      connected := false;
      hasOpened := false;
      messageQueue := [];
      sent := [];
      pendingRequests := map[];
      promises := [];
    }

    /**
     * `sendRequest(method, args)` with the freshly drawn id `id`: write the request
     * or queue it, and register the new promise's callback under the id. The
     * returned number names the new promise.
     */
    method SendRequest(id: Id, methodName: string, params: Value) returns (call: nat)
      requires Valid() && IsRequestId(id)
      modifies this
      ensures Valid()
      ensures call == |old(promises)| && promises == old(promises) + [Pending]
      ensures pendingRequests == old(pendingRequests)[id := call]
      ensures connected == old(connected) && hasOpened == old(hasOpened)
      ensures old(connected) ==> sent == old(sent) + [Request(id, methodName, params)] && messageQueue == old(messageQueue)
      ensures !old(connected) ==> messageQueue == old(messageQueue) + [Request(id, methodName, params)] && sent == old(sent)
    {
      var rpcCall := Request(id, methodName, params);
      if connected {
        sent := sent + [rpcCall];
      } else {
        messageQueue := messageQueue + [rpcCall];
      }
      call := |promises|;
      promises := promises + [Pending];
      pendingRequests := pendingRequests[id := call];
    }

    /** The `open` listener: write every queued request, in queue order; the queue is kept. */
    method OnOpen()
      requires Valid() && !hasOpened
      modifies this
      ensures Valid()
      ensures connected && hasOpened
      ensures sent == old(sent) + old(messageQueue)
      ensures messageQueue == old(messageQueue)
      ensures pendingRequests == old(pendingRequests) && promises == old(promises)
    {
      connected := true;
      hasOpened := true;
      var i := 0;
      while i < |messageQueue|
        invariant 0 <= i <= |messageQueue|
        invariant sent == old(sent) + messageQueue[..i]
        invariant messageQueue == old(messageQueue)
        invariant pendingRequests == old(pendingRequests) && promises == old(promises) && connected && hasOpened
      {
        sent := sent + [messageQueue[i]];
        i := i + 1;
      }
    }

    /** The socket leaves the open state; the client has no listener for this, so only `isConnected` changes. */
    method OnClose()
      requires Valid()
      modifies this
      ensures Valid()
      ensures !connected && hasOpened == old(hasOpened)
      ensures sent == old(sent) && messageQueue == old(messageQueue)
      ensures pendingRequests == old(pendingRequests) && promises == old(promises)
    {
      connected := false;
    }

    /** The `message` listener, for one parsed envelope. */
    method OnMessage(env: Envelope) returns (d: Delivery)
      requires Valid()
      modifies this
      ensures Valid()
      ensures promises == Deliver(old(pendingRequests), old(promises), env)
      ensures d == match Route(env)
                   case None => Ignored
                   case Some((id, _)) => if id in old(pendingRequests) then Delivered(id) else ListenerThrew(id)
      ensures connected == old(connected) && hasOpened == old(hasOpened) && sent == old(sent) && messageQueue == old(messageQueue)
      ensures pendingRequests == old(pendingRequests)
    {
      var route := Route(env);
      if route.None? {
        return Ignored;
      }
      var (id, outcome) := route.value;
      if id !in pendingRequests {
        return ListenerThrew(id);
      }
      var call := pendingRequests[id];
      promises := promises[call := Settle(promises[call], outcome)];
      d := Delivered(id);
    }
  }

  // ----- What the correlator promises -----

  /**
   * A reply settles only the call registered under its id: the error object
   * rejects it, a success resolves it with the result, and no other promise moves.
   */
  lemma DeliverSettlesOwnCall(pendingRequests: map<Id, nat>, promises: seq<PromiseState>, env: Envelope, k: nat)
    requires CallsKnown(pendingRequests, promises) && k < |promises|
    ensures var after := Deliver(pendingRequests, promises, env)[k];
      if Route(env).Some? && Route(env).value.0 in pendingRequests && pendingRequests[Route(env).value.0] == k
      then after == Settle(promises[k], Route(env).value.1)
      else after == promises[k]
  {
  }

  /** The promises after a run of inbound envelopes. */
  function DeliverAll(pendingRequests: map<Id, nat>, promises: seq<PromiseState>, trace: seq<Envelope>): (r: seq<PromiseState>)
    requires CallsKnown(pendingRequests, promises)
    ensures |r| == |promises|
    decreases |trace|
  {
    if trace == [] then promises
    else DeliverAll(pendingRequests, Deliver(pendingRequests, promises, trace[0]), trace[1..])
  }

  /** Once a call's promise has settled, no later reply (a duplicate, or one for a reused id) changes it. */
  lemma {:induction false} SettledPromiseIsFinal(pendingRequests: map<Id, nat>, promises: seq<PromiseState>, trace: seq<Envelope>, k: nat)
    requires CallsKnown(pendingRequests, promises) && k < |promises| && !promises[k].Pending?
    ensures DeliverAll(pendingRequests, promises, trace)[k] == promises[k]
    decreases |trace|
  {
    if trace != [] {
      var next := Deliver(pendingRequests, promises, trace[0]);
      DeliverSettlesOwnCall(pendingRequests, promises, trace[0], k);
      assert CallsKnown(pendingRequests, next);
      SettledPromiseIsFinal(pendingRequests, next, trace[1..], k);
    }
  }

  /** Whether `env` reaches the callback of call `k`. */
  predicate RoutesTo(pendingRequests: map<Id, nat>, env: Envelope, k: nat) {
    Route(env).Some? && Route(env).value.0 in pendingRequests && pendingRequests[Route(env).value.0] == k
  }

  /** Replies that reach other calls' callbacks, or none, leave call `k`'s promise as it was. */
  lemma {:induction false} UnroutedRepliesLeavePromise(pendingRequests: map<Id, nat>, promises: seq<PromiseState>, trace: seq<Envelope>, k: nat)
    requires CallsKnown(pendingRequests, promises) && k < |promises|
    requires forall j :: 0 <= j < |trace| ==> !RoutesTo(pendingRequests, trace[j], k)
    ensures DeliverAll(pendingRequests, promises, trace)[k] == promises[k]
    decreases |trace|
  {
    if trace != [] {
      var next := Deliver(pendingRequests, promises, trace[0]);
      DeliverSettlesOwnCall(pendingRequests, promises, trace[0], k);
      assert !RoutesTo(pendingRequests, trace[0], k);
      assert forall j :: 0 <= j < |trace[1..]| ==> trace[1..][j] == trace[j + 1];
      UnroutedRepliesLeavePromise(pendingRequests, next, trace[1..], k);
    }
  }

  /** The first reply for a pending call decides its promise for good. */
  lemma FirstReplyWins(pendingRequests: map<Id, nat>, promises: seq<PromiseState>, first: Envelope, later: seq<Envelope>, id: Id)
    requires CallsKnown(pendingRequests, promises)
    requires Route(first).Some? && Route(first).value.0 == id && id in pendingRequests
    requires promises[pendingRequests[id]].Pending?
    ensures DeliverAll(pendingRequests, promises, [first] + later)[pendingRequests[id]] == Route(first).value.1
  {
    var k := pendingRequests[id];
    var next := Deliver(pendingRequests, promises, first);
    DeliverSettlesOwnCall(pendingRequests, promises, first, k);
    assert ([first] + later)[1..] == later;
    SettledPromiseIsFinal(pendingRequests, next, later, k);
  }

  /** How one client is used: requests made before the socket opens go out on open, in the order they were made. */
  method QueuedBeforeOpen(a: Id, b: Id, p: Value, q: Value)
    requires IsRequestId(a) && IsRequestId(b)
  {
    var client := new JolocomRpcClient();
    var first := client.SendRequest(a, "initiateCredentialOffer", p);
    var second := client.SendRequest(b, "processInteractionToken", q);
    assert client.sent == [];
    client.OnOpen();
    assert client.sent == [Request(a, "initiateCredentialOffer", p), Request(b, "processInteractionToken", q)];
    assert first == 0 && second == 1 && client.promises == [Pending, Pending];
  }
}
