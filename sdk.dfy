/**
 * The identity agent and the other collaborators the handlers call. None of
 * them is implemented here: each call is a function value supplied from
 * outside, and each returned object is reduced to the parts the handlers read.
 */
module Sdk {
  import opened Js

  /** An interaction token; the handlers only ever read its `encode()`. */
  datatype Token = Token(encoded: string)

  /** A signed credential; the handlers only ever read its `toJSON()`. */
  datatype SignedCredential = SignedCredential(json: Value)

  /** An entry of an offer's `offerSummary`: the offered type and its optional `claimData`. */
  datatype OfferSummaryEntry = OfferSummaryEntry(credentialType: string, claimData: Value)

  /** An entry of an offer response's `selection`. */
  datatype SelectedCredential = SelectedCredential(credentialType: string)

  /** An entry of a share flow's `providedCredentials`. */
  datatype ProvidedCredential = ProvidedCredential(suppliedCredentials: seq<SignedCredential>)

  /** The state held by a credential offer flow. */
  datatype OfferFlowState = OfferFlowState(offerSummary: seq<OfferSummaryEntry>, selection: seq<SelectedCredential>)

  /** `interaction.getSummary().state`, whose shape depends on the flow. */
  datatype FlowState =
    | OfferState(offer: OfferFlowState)
    | ShareState(providedCredentials: seq<ProvidedCredential>)
    | OtherState

  /** An interaction: its id, `flow.type`, `counterparty?.did` and summary state. */
  datatype Interaction = Interaction(id: string, flowType: string, counterpartyDid: Option<string>, state: FlowState)

  /** The agent's methods the handlers call, and its own DID (`agent.idw.did`). */
  datatype Agent = Agent(
    did: string,
    credRequestToken: Value -> Result<Token>,
    credOfferToken: Value -> Result<Token>,
    /** `findInteraction(token).id` */
    findInteraction: Token -> Result<string>,
    /** `None` stands for the `undefined` the agent yields for an unknown token. */
    processJWT: Value -> Result<Option<Interaction>>,
    /** `interaction.createCredentialReceiveToken(credentials)` */
    createCredentialReceiveToken: (Interaction, seq<SignedCredential>) -> Result<Token>)

  /**
   * `issueFromStateAndClaimData(state, claimData, agent, subject)`, imported by both
   * servers from a utility module whose text is not part of this model.
   */
  type IssueFromState = (FlowState, Value, Agent, Value) -> Result<seq<SignedCredential>>

  /** `interaction.counterparty?.did`, which is `undefined` when there is no counterparty. */
  function Subject(i: Interaction): Value {
    if i.counterpartyDid.Some? then Str(i.counterpartyDid.value) else Undefined
  }
}
