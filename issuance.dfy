/**
 * `issueCredentialsBasedOnOfferState` (src/utils.ts) with the metadata registry
 * of src/config.ts: every credential type the counterparty selected is matched
 * to the first offer of that type and to its registered metadata, giving one
 * signing request per selected type. The signing itself (`signedCredential`) is
 * the agent's; the model stops at the requests it would be given.
 */
module Issuance {
  import opened Js
  import opened Sdk

  /** The metadata a credential is signed with. */
  datatype Metadata = Metadata(credentialType: seq<string>, name: string, context: Value)

  /** `issuableCredentialTypes` */
  const IssuableCredentialTypes: map<string, Metadata> := map[
    "ProofOfEventOrganizerCredential" := Metadata(
      ["VerifiableCredential", "ProofOfEventOrganizerCredential"],
      "Event Organizer Credential",
      Arr([Obj(map[
        "ProofOfEventOrganizerCredential" := Str("http://terms.condidi.com/ProofOfEventOrganizerCredential"),
        "schema" := Str("http://schema.org/"),
        "email" := Str("schema:email"),
        "name" := Str("schema:name")])])),
    "EventInvitationCredential" := Metadata(
      ["VerifiableCredential", "EventInvitationCredential"],
      "Event Invitation",
      Arr([Obj(map[
        "EventInvitationCredential" := Str("http://terms.condidi.com/EventInvitationCredential"),
        "schema" := Str("http://schema.org/"),
        "presenter" := Str("schema:performer"),
        "name" := Str("schema:name"),
        "about" := Str("schema:about"),
        "time" := Str("schema:doorTime"),
        "location" := Str("schema:location")])])),
    "ProofOfEventAttendanceCredential" := Metadata(
      ["VerifiableCredential", "ProofOfEventAttendanceCredential"],
      "Event Participation Credential",
      Arr([Obj(map[
        "EventInvitationCredential" := Str("http://terms.condid.com/EventInvitationCredential"),
        "schema" := Str("http://schema.org/"),
        "presenter" := Str("schema:performer"),
        "name" := Str("schema:name"),
        "about" := Str("schema:about"),
        "time" := Str("schema:doorTime"),
        "location" := Str("schema:location")])]))]

  /** The argument of one `issuingAgent.signedCredential` call. */
  datatype SigningRequest = SigningRequest(metadata: Metadata, claim: Value, subject: string)

  const NoOfferForType: string := "Could not find offer for selected type"

  function NoMetadataFor(credentialType: string): string {
    "No metadata found for issuing credential of type -- " + credentialType
  }

  /** `offerSummary.find(offer => offer.type === selectedType)`, as the index of the entry found. */
  function FindOffer(offers: seq<OfferSummaryEntry>, credentialType: string): (r: Option<nat>)
    ensures r.Some? ==> r.value < |offers| && offers[r.value].credentialType == credentialType
    ensures r.Some? ==> forall j :: 0 <= j < r.value ==> offers[j].credentialType != credentialType
    ensures r.None? ==> forall j :: 0 <= j < |offers| ==> offers[j].credentialType != credentialType
  {
    if offers == [] then None
    else if offers[0].credentialType == credentialType then Some(0)
    else match FindOffer(offers[1..], credentialType)
      case None => None
      case Some(k) => Some(k + 1)
  }

  /** The callback of `selection.map`: the signing request for one selected type, or the error it throws. */
  function RequestFor(offers: seq<OfferSummaryEntry>, selected: SelectedCredential, subject: string): (r: Result<SigningRequest>)
    ensures r == Thrown(NoOfferForType) <==> forall j :: 0 <= j < |offers| ==> offers[j].credentialType != selected.credentialType
    ensures r.Thrown? ==> r.message == NoOfferForType || r.message == NoMetadataFor(selected.credentialType)
    ensures r.Ok? ==> selected.credentialType in IssuableCredentialTypes
    ensures r.Ok? ==> r.value.metadata == IssuableCredentialTypes[selected.credentialType] && r.value.subject == subject
  {
    var selectedType := selected.credentialType;
    match FindOffer(offers, selectedType)
    case None => Thrown(NoOfferForType)
    case Some(k) =>
      if selectedType !in IssuableCredentialTypes then Thrown(NoMetadataFor(selectedType))
      else
        var claimData := offers[k].claimData;
        Ok(SigningRequest(IssuableCredentialTypes[selectedType], if Truthy(claimData) then claimData else Obj(map[]), subject))
  }

  /**
   * A selected type is signed with its registered metadata and the claim data of
   * the first offer of that type (`{}` when that is absent or falsy). Without such
   * an offer the request fails for the offer, whether or not metadata exists; with
   * an offer but no metadata it fails naming the type.
   */
  lemma RequestForCases(offers: seq<OfferSummaryEntry>, selected: SelectedCredential, subject: string, k: nat)
    requires k < |offers| && offers[k].credentialType == selected.credentialType
    requires forall j :: 0 <= j < k ==> offers[j].credentialType != selected.credentialType
    ensures selected.credentialType in IssuableCredentialTypes ==>
      RequestFor(offers, selected, subject) == Ok(SigningRequest(
        IssuableCredentialTypes[selected.credentialType],
        if Truthy(offers[k].claimData) then offers[k].claimData else Obj(map[]),
        subject))
    ensures selected.credentialType !in IssuableCredentialTypes ==>
      RequestFor(offers, selected, subject) == Thrown(NoMetadataFor(selected.credentialType))
  {
  }

  lemma NoOfferFails(offers: seq<OfferSummaryEntry>, selected: SelectedCredential, subject: string)
    requires forall j :: 0 <= j < |offers| ==> offers[j].credentialType != selected.credentialType
    ensures RequestFor(offers, selected, subject) == Thrown(NoOfferForType)
  {
  }

  /** The position of the first selected type whose request fails, if any. */
  function FirstFailure(offers: seq<OfferSummaryEntry>, selection: seq<SelectedCredential>, subject: string): (r: Option<nat>)
    ensures r.Some? ==> r.value < |selection| && RequestFor(offers, selection[r.value], subject).Thrown?
    ensures r.Some? ==> forall j :: 0 <= j < r.value ==> RequestFor(offers, selection[j], subject).Ok?
    ensures r.None? ==> forall j :: 0 <= j < |selection| ==> RequestFor(offers, selection[j], subject).Ok?
  {
    if selection == [] then None
    else if RequestFor(offers, selection[0], subject).Thrown? then Some(0)
    else match FirstFailure(offers, selection[1..], subject)
      case None => None
      case Some(k) => Some(k + 1)
  }

  /**
   * `selection.map(...)`, whose callback throws synchronously: either one request
   * per selected type, in selection order, or the error of the first selected type
   * that fails.
   */
  function IssueAll(offers: seq<OfferSummaryEntry>, selection: seq<SelectedCredential>, subject: string): (r: Result<seq<SigningRequest>>)
    ensures r.Ok? <==> FirstFailure(offers, selection, subject).None?
    ensures r.Ok? ==> |r.value| == |selection|
    ensures r.Ok? ==> forall k :: 0 <= k < |selection| ==> RequestFor(offers, selection[k], subject) == Ok(r.value[k])
    ensures r.Thrown? ==> r.message == RequestFor(offers, selection[FirstFailure(offers, selection, subject).value], subject).message
  {
    if selection == [] then Ok([])
    else
      var first :- RequestFor(offers, selection[0], subject);
      var rest :- IssueAll(offers, selection[1..], subject);
      Ok([first] + rest)
  }

  /** `issueCredentialsBasedOnOfferState(state, issuingAgent, subject)`, stopping at the signing requests. */
  function IssueCredentialsBasedOnOfferState(state: OfferFlowState, subject: string): (r: Result<seq<SigningRequest>>)
    ensures r.Ok? <==> forall j :: 0 <= j < |state.selection| ==> RequestFor(state.offerSummary, state.selection[j], subject).Ok?
    ensures r.Ok? ==> |r.value| == |state.selection|
    ensures r.Ok? ==> forall k :: 0 <= k < |state.selection| ==> RequestFor(state.offerSummary, state.selection[k], subject) == Ok(r.value[k])
    ensures r.Thrown? ==>
      exists j :: 0 <= j < |state.selection| && RequestFor(state.offerSummary, state.selection[j], subject) == Thrown(r.message)
        && (forall i :: 0 <= i < j ==> RequestFor(state.offerSummary, state.selection[i], subject).Ok?)
  {
    IssueAll(state.offerSummary, state.selection, subject)
  }

  /** Nothing selected, nothing to sign. */
  lemma EmptySelection(offers: seq<OfferSummaryEntry>, subject: string)
    ensures IssueCredentialsBasedOnOfferState(OfferFlowState(offers, []), subject) == Ok([])
  {
  }

  /**
   * Selecting the offered EventInvitationCredential whose claim data is {name: "Joe"}
   * gives exactly one request: that claim, the registry's metadata and the subject.
   */
  lemma EventInvitationExample(subject: string)
    ensures var joe := Obj(map["name" := Str("Joe")]);
      IssueCredentialsBasedOnOfferState(
        OfferFlowState([OfferSummaryEntry("EventInvitationCredential", joe)], [SelectedCredential("EventInvitationCredential")]),
        subject)
      == Ok([SigningRequest(IssuableCredentialTypes["EventInvitationCredential"], joe, subject)])
  {
    var joe := Obj(map["name" := Str("Joe")]);
    var offers := [OfferSummaryEntry("EventInvitationCredential", joe)];
    var selection := [SelectedCredential("EventInvitationCredential")];
    var expected := SigningRequest(IssuableCredentialTypes["EventInvitationCredential"], joe, subject);
    assert FindOffer(offers, "EventInvitationCredential") == Some(0);
    assert RequestFor(offers, selection[0], subject) == Ok(expected);
    assert IssueAll(offers, selection[1..], subject) == Ok([]);
    assert [expected] + [] == [expected];
  }

  /** A type the registry does not know fails by name even when it was offered. */
  lemma UnregisteredTypeExample(subject: string)
    ensures IssueCredentialsBasedOnOfferState(
        OfferFlowState([OfferSummaryEntry("ProofOfOrganizerRoleCredential", Undefined)], [SelectedCredential("ProofOfOrganizerRoleCredential")]),
        subject)
      == Thrown(NoMetadataFor("ProofOfOrganizerRoleCredential"))
  {
    var roleType := "ProofOfOrganizerRoleCredential";
    var offers := [OfferSummaryEntry(roleType, Undefined)];
    assert FindOffer(offers, roleType) == Some(0);
    assert IssuableCredentialTypes.Keys == {"ProofOfEventOrganizerCredential", "EventInvitationCredential", "ProofOfEventAttendanceCredential"};
    assert |roleType| == 30;
    assert roleType !in IssuableCredentialTypes;
    assert RequestFor(offers, SelectedCredential(roleType), subject) == Thrown(NoMetadataFor(roleType));
  }
}
