/**
 * The client and the servers together: what the reply a server sends for a
 * client's request does to that request's promise.
 */
module Correlation {
  import opened Js
  import opened JsonRpc
  import Client
  import Server
  import LegacyServer
  import Sdk

  /**
   * Against the current server, a call to a method with a handler resolves exactly
   * when the handler succeeds, with the handler's result; otherwise it is rejected
   * with the failure's message and its JSON-RPC code.
   */
  lemma CallSettlesWithHandlerOutcome(
    agent: Sdk.Agent, issue: Sdk.IssueFromState, table: map<string, Value>,
    pendingRequests: map<Id, nat>, promises: seq<Client.PromiseState>, id: Id, methodName: string, params: Value)
    requires Client.CallsKnown(pendingRequests, promises) && Client.IsRequestId(id)
    requires id in pendingRequests && promises[pendingRequests[id]].Pending?
    requires methodName in Server.HandlerNames
    ensures Server.Step(agent, issue, table, Request(id, methodName, params)).reply.Some?
    ensures var outcome := Server.Handle(agent, issue, table, methodName, params).outcome;
            var reply := Server.Step(agent, issue, table, Request(id, methodName, params)).reply.value;
            var settled := Client.Deliver(pendingRequests, promises, reply)[pendingRequests[id]];
      && (settled.Resolved? <==> outcome.Ok?)
      && (outcome.Ok? ==> settled == Client.Resolved(outcome.value))
      && (outcome.Thrown? ==> settled == Client.Rejected(RpcError(Server.ErrorCode(outcome.message), outcome.message)))
  {
    assert id != "" by {
      assert |id| == 16;
    }
  }

  /** Against the current server, a call to a method without a handler is rejected with -32601. */
  lemma UnknownMethodRejected(
    agent: Sdk.Agent, issue: Sdk.IssueFromState, table: map<string, Value>,
    pendingRequests: map<Id, nat>, promises: seq<Client.PromiseState>, id: Id, methodName: string, params: Value)
    requires Client.CallsKnown(pendingRequests, promises) && Client.IsRequestId(id)
    requires id in pendingRequests && promises[pendingRequests[id]].Pending?
    requires methodName !in Server.HandlerNames
    ensures var reply := Server.Step(agent, issue, table, Request(id, methodName, params)).reply.value;
      Client.Deliver(pendingRequests, promises, reply)[pendingRequests[id]]
      == Client.Rejected(RpcError(MethodNotFoundCode, "Method \"" + methodName + "\" not found"))
  {
    assert id != "" by {
      assert |id| == 16;
    }
  }

  /**
   * Against the older server, a failing handler sends nothing back, so the call's
   * promise stays pending through any later replies that reach other calls; a
   * successful one resolves it with the result, whatever arrives afterwards.
   */
  lemma LegacyFailureLeavesCallPending(
    agent: Sdk.Agent, issue: Sdk.IssueFromState, table: map<string, Value>,
    pendingRequests: map<Id, nat>, promises: seq<Client.PromiseState>, id: Id, methodName: string, params: Value,
    later: seq<Envelope>)
    requires Client.CallsKnown(pendingRequests, promises) && Client.IsRequestId(id)
    requires id in pendingRequests && promises[pendingRequests[id]].Pending?
    requires methodName in LegacyServer.HandlerNames
    ensures var outcome := LegacyServer.Handle(agent, issue, table, methodName, params).outcome;
            var replies := Server.Replies(LegacyServer.Step(agent, issue, table, Request(id, methodName, params)).reply);
            var settled := Client.DeliverAll(pendingRequests, promises, replies + later)[pendingRequests[id]];
      && (outcome.Thrown? && (forall j :: 0 <= j < |later| ==> !Client.RoutesTo(pendingRequests, later[j], pendingRequests[id]))
          ==> settled.Pending?)
      && (outcome.Ok? ==> settled == Client.Resolved(outcome.value))
  {
    assert id != "" by {
      assert |id| == 16;
    }
    var k := pendingRequests[id];
    var outcome := LegacyServer.Handle(agent, issue, table, methodName, params).outcome;
    var replies := Server.Replies(LegacyServer.Step(agent, issue, table, Request(id, methodName, params)).reply);
    if outcome.Ok? {
      assert replies == [Success(id, outcome.value)];
      Client.FirstReplyWins(pendingRequests, promises, Success(id, outcome.value), later, id);
    } else {
      assert replies + later == later;
      if forall j :: 0 <= j < |later| ==> !Client.RoutesTo(pendingRequests, later[j], k) {
        Client.UnroutedRepliesLeavePromise(pendingRequests, promises, later, k);
      }
    }
  }
}
