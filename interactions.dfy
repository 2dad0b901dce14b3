/**
 * The handler logic both server generations share once their own argument
 * checks are done: creating an interaction through the agent, and turning a
 * processed interaction token into the `interactionInfo` reply according to
 * the interaction's flow type (packages/server/src/server.ts and src/server.ts
 * have the same text here).
 */
module Interactions {
  import opened Js
  import opened Sdk

  /** The reply of the two creation handlers. */
  datatype Created = Created(interactionId: string, interactionToken: string)

  /** `interactionInfo` of a processed token: an offer that was issued, or a request that was answered. */
  datatype InteractionInfo =
    | OfferCompleted(issuanceToken: string, issuer: string, subject: Value, issued: seq<Value>)
    | ShareCompleted(subject: Value, credentials: seq<Value>)

  /** The reply of `processInteractionToken`. */
  datatype Processed = Processed(interactionId: string, info: InteractionInfo)

  const InteractionNotFound: string := "Interaction not found"

  function UnsupportedFlow(kind: string): string {
    "Cannot handle " + kind + " flow type"
  }

  /** `{ interactionId, interactionToken }` as a JavaScript object. */
  function CreatedValue(c: Created): Value {
    Obj(map["interactionId" := Str(c.interactionId), "interactionToken" := Str(c.interactionToken)])
  }

  /** The `interactionInfo` object each flow replies with. */
  function InfoValue(info: InteractionInfo): Value {
    match info
    case OfferCompleted(token, issuer, subject, issued) =>
      Obj(map[
        "type" := Str("credentialOffer"),
        "completed" := Bool(true),
        "interactionToken" := Str(token),
        "state" := Obj(map["issuer" := Str(issuer), "subject" := subject, "issued" := Arr(issued)])])
    case ShareCompleted(subject, credentials) =>
      Obj(map[
        "type" := Str("credentialRequest"),
        "completed" := Bool(true),
        "state" := Obj(map["subject" := subject, "credentials" := Arr(credentials)])])
  }

  /** `{ interactionId, interactionInfo }` as a JavaScript object. */
  function ProcessedValue(p: Processed): Value {
    Obj(map["interactionId" := Str(p.interactionId), "interactionInfo" := InfoValue(p.info)])
  }

  /** Both flows report themselves completed, under the type name the wallet side expects. */
  lemma InfoValueShape(info: InteractionInfo)
    ensures InfoValue(info).Obj?
    ensures InfoValue(info).fields["completed"] == Bool(true)
    ensures InfoValue(info).fields["type"] == Str(if info.OfferCompleted? then "credentialOffer" else "credentialRequest")
    ensures "interactionToken" in InfoValue(info).fields <==> info.OfferCompleted?
  {
  }

  /**
   * Ask the agent for a token, look up the interaction it belongs to, and reply
   * with that interaction's id and the encoded token.
   */
  function CreateInteraction(token: Result<Token>, findInteraction: Token -> Result<string>): (r: Result<Created>)
    ensures r.Ok? <==> token.Ok? && findInteraction(token.value).Ok?
    ensures r.Ok? ==> r.value.interactionId == findInteraction(token.value).value
    ensures r.Ok? ==> r.value.interactionToken == token.value.encoded
    ensures token.Thrown? ==> r == Thrown(token.message)
  {
    var t :- token;
    var id :- findInteraction(t);
    Ok(Created(id, t.encoded))
  }

  /** `claimDataMap[id]`: `undefined` for an interaction the table knows nothing about. */
  function Lookup(table: map<string, Value>, id: string): Value {
    if id in table then table[id] else Undefined
  }

  /** `credentials.map(c => c.toJSON())` */
  function CredentialsJson(credentials: seq<SignedCredential>): (r: seq<Value>)
    ensures |r| == |credentials|
    ensures forall k :: 0 <= k < |credentials| ==> r[k] == credentials[k].json
  {
    if credentials == [] then [] else [credentials[0].json] + CredentialsJson(credentials[1..])
  }

  /**
   * The `reduce` of the share flow, a left fold: each provided requirement's
   * supplied credentials are appended, as JSON, to what was collected so far.
   */
  function ReduceSupplied(collected: seq<Value>, provided: seq<ProvidedCredential>): seq<Value>
    decreases |provided|
  {
    if provided == [] then collected
    else ReduceSupplied(collected + CredentialsJson(provided[0].suppliedCredentials), provided[1..])
  }

  /** Reference order of shared credentials: requirement by requirement, each in supply order. */
  function Concat(provided: seq<ProvidedCredential>): seq<Value> {
    if provided == [] then [] else CredentialsJson(provided[0].suppliedCredentials) + Concat(provided[1..])
  }

  lemma {:induction false} ReduceSuppliedIsConcat(collected: seq<Value>, provided: seq<ProvidedCredential>)
    ensures ReduceSupplied(collected, provided) == collected + Concat(provided)
    decreases |provided|
  {
    if provided != [] {
      var first := CredentialsJson(provided[0].suppliedCredentials);
      ReduceSuppliedIsConcat(collected + first, provided[1..]);
      assert (collected + first) + Concat(provided[1..]) == collected + (first + Concat(provided[1..]));
    }
  }

  /** The credentials a share flow reports: the fold started from `[]`. */
  function SharedCredentials(provided: seq<ProvidedCredential>): (r: seq<Value>)
    ensures r == Concat(provided)
  {
    ReduceSuppliedIsConcat([], provided);
    ReduceSupplied([], provided)
  }

  /** Flattening distributes over splitting the requirements: the order of requirements is kept. */
  lemma {:induction false} ConcatAppend(p: seq<ProvidedCredential>, q: seq<ProvidedCredential>)
    ensures Concat(p + q) == Concat(p) + Concat(q)
    decreases |p|
  {
    if p == [] {
      assert p + q == q;
    } else {
      assert (p + q)[1..] == p[1..] + q;
      ConcatAppend(p[1..], q);
      var first := CredentialsJson(p[0].suppliedCredentials);
      assert first + (Concat(p[1..]) + Concat(q)) == (first + Concat(p[1..])) + Concat(q);
    }
  }

  /**
   * Credential `j` supplied for requirement `k` sits right after everything
   * supplied for the requirements before `k`: nothing is reordered, dropped or duplicated.
   */
  lemma ConcatPosition(provided: seq<ProvidedCredential>, k: nat, j: nat)
    requires k < |provided| && j < |provided[k].suppliedCredentials|
    ensures |Concat(provided[..k])| + j < |Concat(provided)|
    ensures Concat(provided)[|Concat(provided[..k])| + j] == provided[k].suppliedCredentials[j].json
  {
    assert provided == provided[..k] + ([provided[k]] + provided[k + 1..]);
    ConcatAppend(provided[..k], [provided[k]] + provided[k + 1..]);
    ConcatAppend([provided[k]], provided[k + 1..]);
    assert Concat([provided[k]]) == CredentialsJson(provided[k].suppliedCredentials) + Concat([]);
  }

  /** Requirements [R1, R2] with supplied credentials [[a, b], [c]] flatten to [a, b, c]. */
  lemma SharedCredentialsExample(a: SignedCredential, b: SignedCredential, c: SignedCredential)
    ensures SharedCredentials([ProvidedCredential([a, b]), ProvidedCredential([c])]) == [a.json, b.json, c.json]
  {
    var p := [ProvidedCredential([a, b]), ProvidedCredential([c])];
    assert p[1..] == [ProvidedCredential([c])];
    assert Concat(p[1..]) == [c.json] + Concat([]);
  }

  /**
   * From `processJWT` on: resolve the submitted token to an interaction and build
   * the reply its flow type calls for. The offer flow issues credentials using the
   * claim data the side table holds for the interaction.
   */
  function ProcessToken(agent: Agent, issue: IssueFromState, claimDataMap: map<string, Value>, token: Value): (r: Result<Processed>)
    ensures agent.processJWT(token) == Ok(None) ==> r == Thrown(InteractionNotFound)
    ensures r.Ok? ==> agent.processJWT(token).Ok? && agent.processJWT(token).value.Some?
    ensures r.Ok? ==> r.value.interactionId == agent.processJWT(token).value.value.id
    ensures r.Ok? ==> (r.value.info.ShareCompleted? <==> agent.processJWT(token).value.value.flowType == "CredentialShare")
    ensures r.Ok? ==> (r.value.info.OfferCompleted? <==> agent.processJWT(token).value.value.flowType == "CredentialOffer")
  {
    var found :- agent.processJWT(token);
    match found
    case None => Thrown(InteractionNotFound)
    case Some(i) =>
      if i.flowType == "CredentialOffer" then
        var issued :- issue(i.state, Lookup(claimDataMap, i.id), agent, Subject(i));
        var receipt :- agent.createCredentialReceiveToken(i, issued);
        Ok(Processed(i.id, OfferCompleted(receipt.encoded, agent.did, Subject(i), CredentialsJson(issued))))
      else if i.flowType == "CredentialShare" then
        if i.state.ShareState? then
          Ok(Processed(i.id, ShareCompleted(Subject(i), SharedCredentials(i.state.providedCredentials))))
        else
          Thrown(TypeErrorMessage(Undefined, "reduce"))
      else
        Thrown(UnsupportedFlow(i.flowType))
  }

  /**
   * A share flow reports the counterparty as subject and the supplied
   * credentials flattened in requirement order, then supply order.
   */
  lemma ShareFlowReply(agent: Agent, issue: IssueFromState, claimDataMap: map<string, Value>, token: Value, i: Interaction)
    requires agent.processJWT(token) == Ok(Some(i))
    requires i.flowType == "CredentialShare" && i.state.ShareState?
    ensures ProcessToken(agent, issue, claimDataMap, token)
         == Ok(Processed(i.id, ShareCompleted(Subject(i), Concat(i.state.providedCredentials))))
  {
  }

  /**
   * An offer flow issues through the collaborator with the claim data recorded
   * for this interaction and reports the agent as issuer, the counterparty as
   * subject and the issued credentials in the order they were issued.
   */
  lemma OfferFlowReply(agent: Agent, issue: IssueFromState, claimDataMap: map<string, Value>, token: Value,
                       i: Interaction, issued: seq<SignedCredential>, receipt: Token)
    requires agent.processJWT(token) == Ok(Some(i)) && i.flowType == "CredentialOffer"
    requires issue(i.state, Lookup(claimDataMap, i.id), agent, Subject(i)) == Ok(issued)
    requires agent.createCredentialReceiveToken(i, issued) == Ok(receipt)
    ensures ProcessToken(agent, issue, claimDataMap, token)
         == Ok(Processed(i.id, OfferCompleted(receipt.encoded, agent.did, Subject(i), CredentialsJson(issued))))
  {
  }

  /** Any flow other than an offer or a share fails, naming its kind. */
  lemma UnsupportedFlowFails(agent: Agent, issue: IssueFromState, claimDataMap: map<string, Value>, token: Value, i: Interaction)
    requires agent.processJWT(token) == Ok(Some(i))
    requires i.flowType != "CredentialOffer" && i.flowType != "CredentialShare"
    ensures ProcessToken(agent, issue, claimDataMap, token) == Thrown(UnsupportedFlow(i.flowType))
  {
  }
}
