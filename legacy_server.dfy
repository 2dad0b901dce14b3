/**
 * The older server (src/server.ts): the same handler table without argument
 * checks, a dispatcher that ignores anything but a request, answers an unknown
 * method with code 0, and sends nothing when a handler fails (its `catch`
 * builds the error text and drops it).
 */
module LegacyServer {
  import opened Js
  import opened JsonRpc
  import opened Sdk
  import opened Interactions
  import Server

  /** The keys of the handler object. */
  const HandlerNames: set<string> := {"initiateCredentialRequest", "initiateCredentialOffer", "processInteractionToken"}

  /** Handler `initiateCredentialRequest`: straight to the agent. */
  function InitiateCredentialRequest(agent: Agent, args: Value): (r: Result<Created>)
    ensures r == CreateInteraction(agent.credRequestToken(args), agent.findInteraction)
    ensures r.Thrown? ==> agent.credRequestToken(args).Thrown? || agent.findInteraction(agent.credRequestToken(args).value).Thrown?
  {
    CreateInteraction(agent.credRequestToken(args), agent.findInteraction)
  }

  /**
   * What handler `initiateCredentialOffer` replies: straight to the agent; reading
   * `args.claimData` for the side table throws only when `args` itself is
   * `undefined` or `null`, after the agent calls.
   */
  function InitiateCredentialOffer(agent: Agent, args: Value): (r: Result<Created>)
    ensures !args.Undefined? && !args.Null? ==> r == CreateInteraction(agent.credOfferToken(args), agent.findInteraction)
    ensures (args.Undefined? || args.Null?) ==> r.Thrown?
    ensures (args.Undefined? || args.Null?) && CreateInteraction(agent.credOfferToken(args), agent.findInteraction).Ok?
            ==> r == Thrown(TypeErrorMessage(args, "claimData"))
  {
    var created :- CreateInteraction(agent.credOfferToken(args), agent.findInteraction);
    var claimData :- Get(args, "claimData");
    Ok(created)
  }

  /** The side table after an offer creation; the stored claim data may be `undefined`. */
  function RecordClaimData(table: map<string, Value>, args: Value, created: Result<Created>): (r: map<string, Value>)
    requires created.Ok? ==> Get(args, "claimData").Ok?
    ensures created.Thrown? ==> r == table
    ensures created.Ok? ==> r.Keys == table.Keys + {created.value.interactionId}
    ensures created.Ok? ==> r[created.value.interactionId] == Get(args, "claimData").value
    ensures forall k :: k in table && (created.Thrown? || k != created.value.interactionId) ==> r[k] == table[k]
  {
    if created.Ok? then table[created.value.interactionId := Get(args, "claimData").value] else table
  }

  /** Handler `processInteractionToken`: no check of the token. */
  function ProcessInteractionToken(agent: Agent, issue: IssueFromState, table: map<string, Value>, args: Value): (r: Result<Processed>)
    ensures (args.Undefined? || args.Null?) ==> r == Thrown(TypeErrorMessage(args, "interactionToken"))
    ensures Get(args, "interactionToken").Ok? ==> r == ProcessToken(agent, issue, table, Get(args, "interactionToken").value)
  {
    var token :- Get(args, "interactionToken");
    ProcessToken(agent, issue, table, token)
  }

  datatype HandlerStep = HandlerStep(outcome: Result<Value>, claimDataMap: map<string, Value>)

  /** `requestHandlers[methodName](params)` */
  function Handle(agent: Agent, issue: IssueFromState, table: map<string, Value>, methodName: string, params: Value): (r: HandlerStep)
    requires methodName in HandlerNames
    ensures table.Keys <= r.claimDataMap.Keys
    ensures r.claimDataMap != table ==> methodName == "initiateCredentialOffer" && r.outcome.Ok?
  {
    if methodName == "initiateCredentialRequest" then
      HandlerStep(InitiateCredentialRequest(agent, params).Map(CreatedValue), table)
    else if methodName == "initiateCredentialOffer" then
      var created := InitiateCredentialOffer(agent, params);
      HandlerStep(created.Map(CreatedValue), RecordClaimData(table, params, created))
    else
      HandlerStep(ProcessInteractionToken(agent, issue, table, params).Map(ProcessedValue), table)
  }

  function MethodNotSupported(id: Id, methodName: string): Envelope {
    Error(Some(id), RpcError(0, "Method " + methodName + " not supported"))
  }

  datatype StepResult = StepResult(claimDataMap: map<string, Value>, reply: Option<Envelope>)

  /** The message callback: only a request is looked at, and only a success or an unknown method is answered. */
  function Step(agent: Agent, issue: IssueFromState, table: map<string, Value>, env: Envelope): (r: StepResult)
    ensures r.reply.Some? ==> env.Request? && Server.RepliesTo(r.reply.value) == Some(env.id)
    ensures r.reply.Some? && r.reply.value.Error? ==> env.methodName !in HandlerNames
    ensures table.Keys <= r.claimDataMap.Keys
    ensures !env.Request? ==> r == StepResult(table, None)
  {
    match env
    case Request(id, methodName, params) =>
      if methodName !in HandlerNames then StepResult(table, Some(MethodNotSupported(id, methodName)))
      else
        var h := Handle(agent, issue, table, methodName, params);
        StepResult(h.claimDataMap, if h.outcome.Ok? then Some(Success(id, h.outcome.value)) else None)
    case _ => StepResult(table, None)
  }

  /** The handler object of the older server, with its side table. */
  class RequestHandlers {
    const agent: Agent
    const issue: IssueFromState
    var claimDataMap: map<string, Value>

    constructor (agent: Agent, issue: IssueFromState)
      ensures this.agent == agent && this.issue == issue
      ensures claimDataMap == map[]
    {
      this.agent := agent;
      this.issue := issue;
      claimDataMap := map[];
    }

    /** Handler `initiateCredentialOffer`: once the agent has created the interaction, store `args.claimData` under its id. */
    method InitiateCredentialOfferHandler(args: Value) returns (r: Result<Created>)
      modifies this
      ensures r == InitiateCredentialOffer(agent, args)
      ensures claimDataMap == RecordClaimData(old(claimDataMap), args, r)
    {
      var created := CreateInteraction(agent.credOfferToken(args), agent.findInteraction);
      if created.Thrown? {
        return Thrown(created.message);
      }
      var claimData := Get(args, "claimData");
      if claimData.Thrown? {
        return Thrown(claimData.message);
      }
      claimDataMap := claimDataMap[created.value.interactionId := claimData.value];
      r := created;
    }

    method Call(methodName: string, params: Value) returns (outcome: Result<Value>)
      requires methodName in HandlerNames
      modifies this
      ensures HandlerStep(outcome, claimDataMap) == Handle(agent, issue, old(claimDataMap), methodName, params)
    {
      if methodName == "initiateCredentialRequest" {
        outcome := InitiateCredentialRequest(agent, params).Map(CreatedValue);
      } else if methodName == "initiateCredentialOffer" {
        var created := InitiateCredentialOfferHandler(params);
        outcome := created.Map(CreatedValue);
      } else {
        outcome := ProcessInteractionToken(agent, issue, claimDataMap, params).Map(ProcessedValue);
      }
    }
  }

  /** The older `createRPCServer(agent)` with one connection. */
  class RpcServer {
    const handlers: RequestHandlers
    var sent: seq<Envelope>

    constructor (agent: Agent, issue: IssueFromState)
      ensures fresh(handlers) && handlers.agent == agent && handlers.issue == issue
      ensures handlers.claimDataMap == map[] && sent == []
    {
      handlers := new RequestHandlers(agent, issue);
      sent := [];
    }

    method OnMessage(env: Envelope)
      modifies this, handlers
      ensures handlers.claimDataMap == Step(handlers.agent, handlers.issue, old(handlers.claimDataMap), env).claimDataMap
      ensures sent == old(sent) + Server.Replies(Step(handlers.agent, handlers.issue, old(handlers.claimDataMap), env).reply)
    {
      if env.Request? {
        if env.methodName !in HandlerNames {
          sent := sent + [MethodNotSupported(env.id, env.methodName)];
          return;
        }
        var outcome := handlers.Call(env.methodName, env.params);
        if outcome.Ok? {
          sent := sent + [Success(env.id, outcome.value)];
        }
        // on failure the error text is built and discarded: nothing is sent
      }
    }
  }

  // ----- What the older server promises -----

  /**
   * The credential-request handler checks nothing: arguments the current server
   * refuses as 'Invalid params' reach the agent, and its answer is the reply.
   */
  lemma NoRequestArgumentChecks(agent: Agent, args: Value)
    requires Server.CheckCredentialRequestArgs(args) == Thrown(Server.InvalidParams)
    ensures Server.InitiateCredentialRequest(agent, args) == Thrown(Server.InvalidParams)
    ensures InitiateCredentialRequest(agent, args) == CreateInteraction(agent.credRequestToken(args), agent.findInteraction)
  {
  }

  /**
   * The offer handler checks nothing either: offer arguments the current server
   * refuses as 'Invalid params' reach the agent, and its answer is the reply.
   */
  lemma NoOfferArgumentChecks(agent: Agent, args: Value)
    requires Server.CheckCredentialOfferArgs(args) == Thrown(Server.InvalidParams)
    ensures Server.InitiateCredentialOffer(agent, args) == Thrown(Server.InvalidParams)
    ensures InitiateCredentialOffer(agent, args) == CreateInteraction(agent.credOfferToken(args), agent.findInteraction)
  {
    assert !args.Undefined? && !args.Null?;
  }

  /** An absent or empty token, which the current server refuses, is handed to `processJWT` all the same. */
  lemma NoTokenCheck(agent: Agent, issue: IssueFromState, table: map<string, Value>, args: Value)
    requires args.Obj? && !Truthy(Lookup(args.fields, "interactionToken"))
    ensures Server.ProcessInteractionToken(agent, issue, table, args) == Thrown(Server.InvalidParams)
    ensures ProcessInteractionToken(agent, issue, table, args) == ProcessToken(agent, issue, table, Lookup(args.fields, "interactionToken"))
  {
  }

  /**
   * A successful offer creation stores `args.claimData` (possibly `undefined`)
   * under the new interaction's id and changes no other key.
   */
  lemma OfferRecordsClaimData(agent: Agent, issue: IssueFromState, table: map<string, Value>, id: Id, args: Value, c: Created)
    requires args.Obj? && InitiateCredentialOffer(agent, args) == Ok(c)
    ensures var after := Step(agent, issue, table, Request(id, "initiateCredentialOffer", args)).claimDataMap;
      && after.Keys == table.Keys + {c.interactionId}
      && after[c.interactionId] == Lookup(args.fields, "claimData")
      && forall k :: k in table && k != c.interactionId ==> after[k] == table[k]
  {
  }

  /** Anything but a request is ignored: no reply and no handler call. */
  lemma NonRequestIgnored(agent: Agent, issue: IssueFromState, table: map<string, Value>, env: Envelope)
    requires !env.Request?
    ensures Step(agent, issue, table, env) == StepResult(table, None)
  {
  }

  /** An unknown method is answered with code 0 and a message naming it. */
  lemma UnknownMethodReply(agent: Agent, issue: IssueFromState, table: map<string, Value>, id: Id, methodName: string, params: Value)
    requires methodName !in HandlerNames
    ensures Step(agent, issue, table, Request(id, methodName, params))
         == StepResult(table, Some(Error(Some(id), RpcError(0, "Method " + methodName + " not supported"))))
  {
  }

  /** A handled request is answered exactly when its handler succeeds, with the handler's result and the request's id. */
  lemma FailuresUnanswered(agent: Agent, issue: IssueFromState, table: map<string, Value>, id: Id, methodName: string, params: Value)
    requires methodName in HandlerNames
    ensures var outcome := Handle(agent, issue, table, methodName, params).outcome;
            var reply := Step(agent, issue, table, Request(id, methodName, params)).reply;
      && (reply.Some? <==> outcome.Ok?)
      && (outcome.Ok? ==> reply == Some(Success(id, outcome.value)))
  {
  }

  /** A token that resolves to no interaction gets no reply at all, and the caller is never answered. */
  lemma UnresolvedTokenUnanswered(agent: Agent, issue: IssueFromState, table: map<string, Value>, id: Id, args: Value)
    requires args.Obj? && agent.processJWT(Lookup(args.fields, "interactionToken")) == Ok(None)
    ensures ProcessInteractionToken(agent, issue, table, args) == Thrown(InteractionNotFound)
    ensures Step(agent, issue, table, Request(id, "processInteractionToken", args)) == StepResult(table, None)
  {
  }
}
