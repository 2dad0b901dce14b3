/**
 * The current server (packages/server/src/server.ts): the request handlers,
 * which check their arguments before calling the agent and keep the claim-data
 * side table, and the per-message dispatcher, which answers every request with
 * a success or an error carrying a JSON-RPC error code.
 */
module Server {
  import opened Js
  import opened JsonRpc
  import opened Sdk
  import opened Interactions

  const InvalidParams: string := "Invalid params"

  /** The methods that have a handler; `initiateAuthentication` is not one of them. */
  const HandlerNames: set<string> := {"initiateCredentialRequest", "initiateCredentialOffer", "processInteractionToken"}

  /** `!args[key].length`, which throws when `args[key]` is `undefined` or `null`. */
  function LengthFalsy(args: Value, key: string): Result<bool> {
    var list :- Get(args, key);
    var length :- Get(list, "length");
    Ok(!Truthy(length))
  }

  /** `!args.callbackURL || !args.credentialRequirements.length` throws 'Invalid params'. */
  function CheckCredentialRequestArgs(args: Value): Result<()> {
    var url :- Get(args, "callbackURL");
    if !Truthy(url) then Thrown(InvalidParams)
    else
      var noRequirements :- LengthFalsy(args, "credentialRequirements");
      if noRequirements then Thrown(InvalidParams) else Ok(())
  }

  /** `!args.callbackURL || !args.offeredCredentials.length || !args.claimData.length` throws 'Invalid params'. */
  function CheckCredentialOfferArgs(args: Value): Result<()> {
    var url :- Get(args, "callbackURL");
    if !Truthy(url) then Thrown(InvalidParams)
    else
      var noOffers :- LengthFalsy(args, "offeredCredentials");
      if noOffers then Thrown(InvalidParams)
      else
        var noClaims :- LengthFalsy(args, "claimData");
        if noClaims then Thrown(InvalidParams) else Ok(())
  }

  /** Handler `initiateCredentialRequest`: check the arguments, then have the agent build the request token. */
  function InitiateCredentialRequest(agent: Agent, args: Value): (r: Result<Created>)
    ensures (args.Undefined? || args.Null?) ==> r == Thrown(TypeErrorMessage(args, "callbackURL"))
    ensures Get(args, "callbackURL").Ok? && !Truthy(Get(args, "callbackURL").value) ==> r == Thrown(InvalidParams)
    ensures r.Ok? ==> Truthy(Get(args, "callbackURL").value) && agent.credRequestToken(args).Ok?
    ensures r.Ok? ==> r == CreateInteraction(agent.credRequestToken(args), agent.findInteraction)
  {
    var checked :- CheckCredentialRequestArgs(args);
    CreateInteraction(agent.credRequestToken(args), agent.findInteraction)
  }

  /** What handler `initiateCredentialOffer` replies: check the arguments, then have the agent build the offer token. */
  function InitiateCredentialOffer(agent: Agent, args: Value): (r: Result<Created>)
    ensures (args.Undefined? || args.Null?) ==> r == Thrown(TypeErrorMessage(args, "callbackURL"))
    ensures Get(args, "callbackURL").Ok? && !Truthy(Get(args, "callbackURL").value) ==> r == Thrown(InvalidParams)
    ensures r.Ok? ==> Truthy(Get(args, "callbackURL").value) && agent.credOfferToken(args).Ok?
    ensures r.Ok? ==> r == CreateInteraction(agent.credOfferToken(args), agent.findInteraction)
  {
    var checked :- CheckCredentialOfferArgs(args);
    CreateInteraction(agent.credOfferToken(args), agent.findInteraction)
  }

  /** `args.claimData`, read once the offer arguments have been checked. */
  function ClaimDataArg(args: Value): Value {
    match Get(args, "claimData")
    case Ok(v) => v
    case Thrown(_) => Undefined
  }

  /** The side table after an offer creation: only a created interaction gets an entry, holding the offer's claim data. */
  function RecordClaimData(table: map<string, Value>, args: Value, created: Result<Created>): (r: map<string, Value>)
    ensures created.Thrown? ==> r == table
    ensures created.Ok? ==> r.Keys == table.Keys + {created.value.interactionId} && r[created.value.interactionId] == ClaimDataArg(args)
    ensures forall k :: k in table && (created.Thrown? || k != created.value.interactionId) ==> r[k] == table[k]
  {
    if created.Ok? then table[created.value.interactionId := ClaimDataArg(args)] else table
  }

  /** Handler `processInteractionToken`: an empty token is invalid; otherwise process it. */
  function ProcessInteractionToken(agent: Agent, issue: IssueFromState, table: map<string, Value>, args: Value): (r: Result<Processed>)
    ensures (args.Undefined? || args.Null?) ==> r == Thrown(TypeErrorMessage(args, "interactionToken"))
    ensures Get(args, "interactionToken").Ok? && !Truthy(Get(args, "interactionToken").value) ==> r == Thrown(InvalidParams)
    ensures r.Ok? ==> Truthy(Get(args, "interactionToken").value) && r == ProcessToken(agent, issue, table, Get(args, "interactionToken").value)
  {
    var token :- Get(args, "interactionToken");
    if !Truthy(token) then Thrown(InvalidParams) else ProcessToken(agent, issue, table, token)
  }

  /** The outcome of one handler call and the side table it leaves behind. */
  datatype HandlerStep = HandlerStep(outcome: Result<Value>, claimDataMap: map<string, Value>)

  /** `requestHandlers[methodName](params)` */
  function Handle(agent: Agent, issue: IssueFromState, table: map<string, Value>, methodName: string, params: Value): (r: HandlerStep)
    requires methodName in HandlerNames
    ensures table.Keys <= r.claimDataMap.Keys
    ensures r.claimDataMap != table ==> methodName == "initiateCredentialOffer" && r.outcome.Ok?
    ensures methodName == "initiateCredentialOffer" ==> r.claimDataMap == RecordClaimData(table, params, InitiateCredentialOffer(agent, params))
  {
    if methodName == "initiateCredentialRequest" then
      HandlerStep(InitiateCredentialRequest(agent, params).Map(CreatedValue), table)
    else if methodName == "initiateCredentialOffer" then
      var created := InitiateCredentialOffer(agent, params);
      HandlerStep(created.Map(CreatedValue), RecordClaimData(table, params, created))
    else
      HandlerStep(ProcessInteractionToken(agent, issue, table, params).Map(ProcessedValue), table)
  }

  /** A failure is 'Invalid params' (-32602) by its message; every other failure is a server error (-32000). */
  function ErrorCode(message: string): int {
    if message == InvalidParams then InvalidParamsCode else ServerErrorCode
  }

  function MethodNotFound(id: Id, methodName: string): Envelope {
    Error(Some(id), RpcError(MethodNotFoundCode, "Method \"" + methodName + "\" not found"))
  }

  /** The reply to a handled request. */
  function OutcomeReply(id: Id, outcome: Result<Value>): Envelope {
    match outcome
    case Ok(v) => Success(id, v)
    case Thrown(m) => Error(Some(id), RpcError(ErrorCode(m), m))
  }

  /** The id a response is addressed to, if any. */
  function RepliesTo(e: Envelope): Option<Id> {
    match e
    case Success(id, _) => Some(id)
    case Error(replyTo, _) => replyTo
    case _ => None
  }

  /** The side table and the reply (if any) after one inbound envelope. */
  datatype StepResult = StepResult(claimDataMap: map<string, Value>, reply: Option<Envelope>)

  /** The message callback: a non-request throws before anything is sent; a request is always answered. */
  function Step(agent: Agent, issue: IssueFromState, table: map<string, Value>, env: Envelope): (r: StepResult)
    ensures r.reply.Some? <==> env.Request?
    ensures env.Request? ==> RepliesTo(r.reply.value) == Some(env.id)
    ensures table.Keys <= r.claimDataMap.Keys
    ensures !env.Request? ==> r.claimDataMap == table
  {
    match env
    case Request(id, methodName, params) =>
      if methodName !in HandlerNames then StepResult(table, Some(MethodNotFound(id, methodName)))
      else
        var h := Handle(agent, issue, table, methodName, params);
        StepResult(h.claimDataMap, Some(OutcomeReply(id, h.outcome)))
    case _ => StepResult(table, None)
  }

  function Replies(reply: Option<Envelope>): seq<Envelope> {
    if reply.Some? then [reply.value] else []
  }

  /** The object `getRequestHandlers(agent)` returns, with the side table its handlers share. */
  class RequestHandlers {
    const agent: Agent
    const issue: IssueFromState
    var claimDataMap: map<string, Value>

    constructor (agent: Agent, issue: IssueFromState)
      ensures this.agent == agent && this.issue == issue
      ensures claimDataMap == map[]
    {
      this.agent := agent;
      this.issue := issue;
      claimDataMap := map[];
    }

    /** Handler `initiateCredentialOffer`: on success, remember the claim data under the new interaction's id. */
    method InitiateCredentialOfferHandler(args: Value) returns (r: Result<Created>)
      modifies this
      ensures r == InitiateCredentialOffer(agent, args)
      ensures claimDataMap == RecordClaimData(old(claimDataMap), args, r)
    {
      r := InitiateCredentialOffer(agent, args);
      if r.Ok? {
        claimDataMap := claimDataMap[r.value.interactionId := ClaimDataArg(args)];
      }
    }

    /** Run the handler registered under `methodName`. */
    method Call(methodName: string, params: Value) returns (outcome: Result<Value>)
      requires methodName in HandlerNames
      modifies this
      ensures HandlerStep(outcome, claimDataMap) == Handle(agent, issue, old(claimDataMap), methodName, params)
    {
      if methodName == "initiateCredentialRequest" {
        outcome := InitiateCredentialRequest(agent, params).Map(CreatedValue);
      } else if methodName == "initiateCredentialOffer" {
        var created := InitiateCredentialOfferHandler(params);
        outcome := created.Map(CreatedValue);
      } else {
        outcome := ProcessInteractionToken(agent, issue, claimDataMap, params).Map(ProcessedValue);
      }
    }
  }

  /** `createRPCServer(agent)` with one connection; `sent` is what the server wrote to it. */
  class RpcServer {
    const handlers: RequestHandlers
    var sent: seq<Envelope>

    constructor (agent: Agent, issue: IssueFromState)
      ensures fresh(handlers) && handlers.agent == agent && handlers.issue == issue
      ensures handlers.claimDataMap == map[] && sent == []
    {
      handlers := new RequestHandlers(agent, issue);
      sent := [];
    }

    /** The connection's `message` callback, for one parsed envelope. */
    method OnMessage(env: Envelope)
      modifies this, handlers
      ensures handlers.claimDataMap == Step(handlers.agent, handlers.issue, old(handlers.claimDataMap), env).claimDataMap
      ensures sent == old(sent) + Replies(Step(handlers.agent, handlers.issue, old(handlers.claimDataMap), env).reply)
    {
      if !env.Request? {
        // the callback throws: nothing is sent
        return;
      }
      if env.methodName !in HandlerNames {
        sent := sent + [MethodNotFound(env.id, env.methodName)];
        return;
      }
      var outcome := handlers.Call(env.methodName, env.params);
      sent := sent + [OutcomeReply(env.id, outcome)];
    }
  }

  // ----- What the handlers promise -----

  /**
   * With a list of requirements, a credential request is refused as 'Invalid params'
   * exactly when the callback URL is missing or empty or the list is empty, whatever
   * the agent would do; otherwise it is the agent's answer.
   */
  lemma CredentialRequestValidation(agent: Agent, args: Value, requirements: seq<Value>)
    requires args.Obj? && Lookup(args.fields, "credentialRequirements") == Arr(requirements)
    ensures InitiateCredentialRequest(agent, args)
         == if !Truthy(Lookup(args.fields, "callbackURL")) || requirements == [] then Thrown(InvalidParams)
            else CreateInteraction(agent.credRequestToken(args), agent.findInteraction)
  {
  }

  /**
   * With lists of offered credentials and claim data, an offer is refused as
   * 'Invalid params' exactly when the callback URL is missing or empty or either
   * list is empty, and the side table is then left as it was.
   */
  lemma CredentialOfferValidation(agent: Agent, table: map<string, Value>, args: Value, offered: seq<Value>, claims: seq<Value>)
    requires args.Obj?
    requires Lookup(args.fields, "offeredCredentials") == Arr(offered)
    requires Lookup(args.fields, "claimData") == Arr(claims)
    ensures InitiateCredentialOffer(agent, args)
         == if !Truthy(Lookup(args.fields, "callbackURL")) || offered == [] || claims == [] then Thrown(InvalidParams)
            else CreateInteraction(agent.credOfferToken(args), agent.findInteraction)
    ensures InitiateCredentialOffer(agent, args).Thrown? ==> RecordClaimData(table, args, InitiateCredentialOffer(agent, args)) == table
  {
  }

  /**
   * A successful offer creation stores the offer's claim data under the new
   * interaction's id, replacing any earlier entry, and changes no other key.
   */
  lemma OfferRecordsClaimData(agent: Agent, issue: IssueFromState, table: map<string, Value>, id: Id, args: Value, c: Created)
    requires args.Obj? && InitiateCredentialOffer(agent, args) == Ok(c)
    ensures var after := Step(agent, issue, table, Request(id, "initiateCredentialOffer", args)).claimDataMap;
      && after.Keys == table.Keys + {c.interactionId}
      && after[c.interactionId] == args.fields["claimData"]
      && forall k :: k in table && k != c.interactionId ==> after[k] == table[k]
  {
    assert CheckCredentialOfferArgs(args).Ok?;
  }

  /** Only the creation of an offer ever changes the side table. */
  lemma TableChangesOnlyOnOffer(agent: Agent, issue: IssueFromState, table: map<string, Value>, env: Envelope)
    requires Step(agent, issue, table, env).claimDataMap != table
    ensures env.Request? && env.methodName == "initiateCredentialOffer"
    ensures InitiateCredentialOffer(agent, env.params).Ok?
  {
  }

  /** A token is processed only when it is present and non-empty; an unresolvable one is 'Interaction not found'. */
  lemma ProcessTokenValidation(agent: Agent, issue: IssueFromState, table: map<string, Value>, args: Value)
    requires args.Obj?
    ensures !Truthy(Lookup(args.fields, "interactionToken")) ==> ProcessInteractionToken(agent, issue, table, args) == Thrown(InvalidParams)
    ensures Truthy(Lookup(args.fields, "interactionToken")) && agent.processJWT(Lookup(args.fields, "interactionToken")) == Ok(None)
            ==> ProcessInteractionToken(agent, issue, table, args) == Thrown(InteractionNotFound)
  {
  }

  // ----- What the dispatcher promises -----

  /** Exactly the requests get a reply, and a reply always carries its request's id. */
  lemma EveryRequestAnswered(agent: Agent, issue: IssueFromState, table: map<string, Value>, env: Envelope)
    ensures Step(agent, issue, table, env).reply.Some? <==> env.Request?
    ensures env.Request? ==> RepliesTo(Step(agent, issue, table, env).reply.value) == Some(env.id)
    ensures !env.Request? ==> Step(agent, issue, table, env).claimDataMap == table
  {
  }

  /** A method without a handler, `initiateAuthentication` among them, is answered with -32601 naming the method. */
  lemma UnknownMethodReply(agent: Agent, issue: IssueFromState, table: map<string, Value>, id: Id, methodName: string, params: Value)
    requires methodName !in HandlerNames || methodName == "initiateAuthentication"
    ensures Step(agent, issue, table, Request(id, methodName, params))
         == StepResult(table, Some(Error(Some(id), RpcError(-32601, "Method \"" + methodName + "\" not found"))))
  {
  }

  /**
   * A handled request is answered with the handler's result on success; on failure
   * with its message and code -32602 exactly when that message is 'Invalid params',
   * -32000 otherwise.
   */
  lemma HandledReply(agent: Agent, issue: IssueFromState, table: map<string, Value>, id: Id, methodName: string, params: Value)
    requires methodName in HandlerNames
    ensures var outcome := Handle(agent, issue, table, methodName, params).outcome;
            var reply := Step(agent, issue, table, Request(id, methodName, params)).reply;
      && (outcome.Ok? ==> reply == Some(Success(id, outcome.value)))
      && (outcome.Thrown? ==> reply.Some? && reply.value.Error? && reply.value.error.message == outcome.message)
      && (outcome.Thrown? ==> (reply.value.error.code == -32602 <==> outcome.message == "Invalid params"))
      && (outcome.Thrown? ==> (reply.value.error.code == -32000 <==> outcome.message != "Invalid params"))
  {
  }

  /** A token whose interaction has an unsupported flow is answered with -32000 and a message naming the flow. */
  lemma UnsupportedFlowReply(agent: Agent, issue: IssueFromState, table: map<string, Value>, id: Id, args: Value, i: Interaction)
    requires args.Obj? && Truthy(Lookup(args.fields, "interactionToken"))
    requires agent.processJWT(Lookup(args.fields, "interactionToken")) == Ok(Some(i))
    requires i.flowType != "CredentialOffer" && i.flowType != "CredentialShare"
    ensures Step(agent, issue, table, Request(id, "processInteractionToken", args)).reply
         == Some(Error(Some(id), RpcError(-32000, "Cannot handle " + i.flowType + " flow type")))
  {
    assert "Cannot handle " + i.flowType + " flow type" != InvalidParams by {
      assert ("Cannot handle " + i.flowType + " flow type")[0] == 'C';
    }
  }

  /** The side table after a run of inbound envelopes. */
  function RunTable(agent: Agent, issue: IssueFromState, table: map<string, Value>, trace: seq<Envelope>): map<string, Value>
    decreases |trace|
  {
    if trace == [] then table else RunTable(agent, issue, Step(agent, issue, table, trace[0]).claimDataMap, trace[1..])
  }

  /** Entries are never deleted from the side table, however many messages arrive. */
  lemma {:induction false} TableNeverShrinks(agent: Agent, issue: IssueFromState, table: map<string, Value>, trace: seq<Envelope>)
    ensures table.Keys <= RunTable(agent, issue, table, trace).Keys
    decreases |trace|
  {
    if trace != [] {
      var next := Step(agent, issue, table, trace[0]).claimDataMap;
      assert table.Keys <= next.Keys;
      TableNeverShrinks(agent, issue, next, trace[1..]);
    }
  }
}
