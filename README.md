# Jolocom SDK RPC interface — a Dafny model of its core

The repository connects a Jolocom identity agent to JSON-RPC over WebSockets. A
server (`createRPCServer`) exposes three agent operations as RPC methods:

- `initiateCredentialRequest`;
- `initiateCredentialOffer`;
- `processInteractionToken`.

A client (`JolocomRPCClient`) sends calls and correlates the replies with the
promises it handed out. Both ends exist in two generations:

- the current one: packages/server/src/server.ts and packages/client/src/index.ts;
- an older one: src/server.ts and src/client.ts.

Two helpers complete the core:

- `issueCredentialsBasedOnOfferState` (src/utils.ts), which matches a
  counterparty's selection against an offer and against the metadata registry
  of src/config.ts;
- `encodeAsDeepLink` (packages/client/src/utils.ts).

The model, module by module:

- `Js`: the JavaScript values the handlers see. This covers `undefined`,
  truthiness, property access that throws on `undefined`/`null`, and a
  `Result` for a thrown error.
- `JsonRpc`: the envelope kinds jsonrpc-lite parses a frame into.
- `Sdk`: the agent and the interaction, kept abstract. Every agent call is a
  function value of an `Agent` record.
- `Interactions`: the handler logic both server generations share. This is
  interaction creation, and the flow dispatch of a processed token with the
  order-preserving flatten of shared credentials.
- `Server`: the current server. Its handlers validate their arguments, keep a
  claim-data side table, and its dispatcher answers every request with a
  JSON-RPC error code from section 5.1 of the JSON-RPC 2.0 Specification. The
  handler object and the connection are classes whose methods are
  proved against the pure `Handle` and `Step`.
- `LegacyServer`: the older server. Its handlers do not validate, it answers an
  unknown method with code 0, and it sends nothing when a handler fails.
- `Client`: the correlator, as a class. Its state is the connection flag, the
  queue, the wire, the id-to-call map and the promises. src/client.ts has the
  same logic (only `isConnected` is a getter there), so one class models both
  generations.
- `Issuance`: the selection-to-signing-request mapping, over the registry as a
  constant map.
- `DeepLink`: the deep-link prefix and its inverse.
- `Correlation`: client and server together. A call resolves exactly when the
  current server's handler succeeds. Against the older server, a failing call
  stays pending through any later replies addressed to other calls.

`Client.QueuedBeforeOpen` is a usage example, not an operation of the source:
two calls made before the socket opens go out on open, in call order.

Three behaviours of the code that are easy to misread, which the model follows:

- The socket closing does not reject pending calls: the client registers no
  `close` listener (packages/client/src/index.ts:32-65).
- The queue is not emptied once it has been written out on `open`. The comment
  at packages/client/src/index.ts:59-61 says "This code clears the queue", but
  line 63 only maps `sendJSON` over it.
- Neither server replies to a frame that is not a request. The current one
  throws (packages/server/src/server.ts:145-149); the older one ignores it
  (src/server.ts:115).

## Model

| member | source | states |
|---|---|---|
| Js.Get | packages/server/src/server.ts:23 | property access throws exactly on `undefined`/`null`; on an object it yields the field or `undefined` |
| Js.LengthFalsyMeansEmpty | packages/server/src/server.ts:23 | `!x.length` holds for an array or string exactly when it is empty |
| Interactions.CreateInteraction | packages/server/src/server.ts:27-33 | the reply exists iff the agent produced a token and found its interaction; it carries that interaction's id and the encoded token; a token failure is passed on unchanged |
| Interactions.InfoValueShape | packages/server/src/server.ts:78-116 | both flows report `completed: true`, with type 'credentialOffer' or 'credentialRequest'; only the offer flow carries an interaction token |
| Interactions.CredentialsJson | packages/server/src/server.ts:87 | `issued.map(c => c.toJSON())` keeps length and order, element by element |
| Interactions.ReduceSuppliedIsConcat | packages/server/src/server.ts:105-113 | the `reduce` fold from any start equals the start followed by the requirement-by-requirement concatenation |
| Interactions.SharedCredentials | packages/server/src/server.ts:105-113 | the shared credentials are exactly the concatenation of every requirement's supplied credentials |
| Interactions.ConcatAppend | packages/server/src/server.ts:105-113 | flattening distributes over splitting the requirement list, so requirement order is kept |
| Interactions.ConcatPosition | packages/server/src/server.ts:105-113 | supplied credential j of requirement k lands right after everything supplied for earlier requirements: nothing is dropped, duplicated or reordered |
| Interactions.SharedCredentialsExample | src/server.ts:85-93 | requirements supplying [a, b] and [c] flatten to [a, b, c] |
| Interactions.ProcessToken | packages/server/src/server.ts:55-119 | an unresolved token fails with 'Interaction not found'; a success carries the interaction's id and is a share reply iff the flow is CredentialShare and an offer reply iff it is CredentialOffer |
| Interactions.ShareFlowReply | packages/server/src/server.ts:92-116 | a share flow replies with the counterparty as subject and the flattened supplied credentials |
| Interactions.OfferFlowReply | packages/server/src/server.ts:65-90 | an offer flow issues with the claim data recorded for the interaction and replies with the issuance token, the agent's DID as issuer, the counterparty as subject and the issued credentials in order |
| Interactions.UnsupportedFlowFails | packages/server/src/server.ts:117-118 | any other flow kind fails with `Cannot handle <kind> flow type` |
| Server.InitiateCredentialRequest | packages/server/src/server.ts:22-34 | `undefined`/`null` arguments throw the property-access error; a falsy callback URL is 'Invalid params' before the agent is asked; a success is the agent's answer for those arguments |
| Server.InitiateCredentialOffer | packages/server/src/server.ts:35-49 | `undefined`/`null` arguments throw the property-access error; a falsy callback URL is 'Invalid params' before the agent is asked; a success is the agent's answer for those arguments |
| Server.RecordClaimData | packages/server/src/server.ts:43 | a failed offer leaves the side table as it was; a created one gains exactly its id's entry, holding the offer's claim data, and every other entry is unchanged |
| Server.ProcessInteractionToken | packages/server/src/server.ts:50-59 | `undefined`/`null` arguments throw; a falsy token is 'Invalid params'; a success comes from processing a truthy token |
| Server.Handle | packages/server/src/server.ts:18-121 | a handler never removes a side-table key, and only a successful offer changes the table, by exactly `RecordClaimData` |
| Server.Step | packages/server/src/server.ts:140-189 | exactly the requests get a reply, addressed to the request's id; no key is ever removed; a non-request leaves the table alone |
| Server.CredentialRequestValidation | packages/server/src/server.ts:22-27 | a credential request is 'Invalid params' exactly when the callback URL is falsy or the requirements list is empty, whatever the agent would answer; otherwise it is the agent's answer |
| Server.CredentialOfferValidation | packages/server/src/server.ts:35-41 | an offer is 'Invalid params' exactly when the callback URL is falsy or the offered-credentials or claim-data list is empty; a failed offer leaves the side table unchanged |
| Server.OfferRecordsClaimData | packages/server/src/server.ts:40-43 | a successful offer sets the new interaction's entry to the offer's claim data, overwriting any earlier one, and changes no other key |
| Server.TableChangesOnlyOnOffer | packages/server/src/server.ts:18-121 | only a successful `initiateCredentialOffer` request changes the side table |
| Server.ProcessTokenValidation | packages/server/src/server.ts:50-59 | a falsy token is 'Invalid params'; a token the agent resolves to nothing is 'Interaction not found' |
| Server.EveryRequestAnswered | packages/server/src/server.ts:141-188 | exactly the requests get a reply, always addressed to the request's id; a non-request leaves the side table alone |
| Server.UnknownMethodReply | packages/server/src/server.ts:151-163 | a method without a handler, `initiateAuthentication` included, is answered with -32601 and `Method "<m>" not found` |
| Server.HandledReply | packages/server/src/server.ts:165-188 | success replies with the handler's result; failure replies with its message, code -32602 iff the message is 'Invalid params' and -32000 otherwise |
| Server.UnsupportedFlowReply | packages/server/src/server.ts:117-118 | an unsupported flow is answered with -32000 and a message naming the flow |
| Server.TableNeverShrinks | packages/server/src/server.ts:20 | no run of messages ever removes a side-table entry |
| Server.RequestHandlers.constructor | packages/server/src/server.ts:18-21 | the handlers start with an empty side table |
| Server.RequestHandlers.InitiateCredentialOfferHandler | packages/server/src/server.ts:35-49 | the handler's reply is that of the offer logic and the side table gains the claim data only on success |
| Server.RequestHandlers.Call | packages/server/src/server.ts:151-165 | running a registered handler yields the outcome and the side table that `Handle` specifies |
| Server.RpcServer.constructor | packages/server/src/server.ts:132-133 | a new server has fresh handlers with an empty side table and has sent nothing |
| Server.RpcServer.OnMessage | packages/server/src/server.ts:140-189 | one inbound envelope appends exactly the reply `Step` specifies to the wire and leaves the side table `Step` specifies |
| LegacyServer.NoRequestArgumentChecks | src/server.ts:16-24 | every credential-request argument the current server refuses as 'Invalid params' reaches the agent, and its answer is the reply |
| LegacyServer.NoOfferArgumentChecks | src/server.ts:25-36 | every offer argument the current server refuses as 'Invalid params' reaches the agent, and its answer is the reply |
| LegacyServer.NoTokenCheck | src/server.ts:38-39 | an absent or empty token, which the current server refuses, is processed all the same |
| LegacyServer.InitiateCredentialRequest | src/server.ts:16-24 | for every argument, `undefined` and `null` included, the reply is the agent's answer; it fails only when the agent does |
| LegacyServer.RecordClaimData | src/server.ts:30 | a failed offer leaves the side table as it was; a created one gains exactly its id's entry, holding `args.claimData` (possibly `undefined`), and every other entry is unchanged |
| LegacyServer.InitiateCredentialOffer | src/server.ts:25-36 | for any argument object the reply is the agent's answer; `undefined`/`null` arguments always fail, after the agent calls |
| LegacyServer.ProcessInteractionToken | src/server.ts:38-43 | the token, whatever it is, goes straight to processing; `undefined`/`null` arguments throw |
| LegacyServer.Handle | src/server.ts:12-101 | a handler never removes a side-table key, and only a successful offer changes the table |
| LegacyServer.Step | src/server.ts:110-146 | any reply goes to a request and carries its id; an error reply only for a method without a handler; a non-request changes nothing; no key is ever removed |
| LegacyServer.OfferRecordsClaimData | src/server.ts:25-30 | a successful offer stores `args.claimData` (possibly `undefined`) under the new id and changes no other key |
| LegacyServer.NonRequestIgnored | src/server.ts:115 | a non-request gets no reply and changes nothing |
| LegacyServer.UnknownMethodReply | src/server.ts:116-128 | an unknown method is answered with code 0 and `Method <m> not supported` |
| LegacyServer.FailuresUnanswered | src/server.ts:131-144 | a handled request is answered iff its handler succeeds, then with the result and the request's id |
| LegacyServer.UnresolvedTokenUnanswered | src/server.ts:39-43 | a token resolving to nothing fails with 'Interaction not found' and gets no reply |
| LegacyServer.RequestHandlers.constructor | src/server.ts:12-15 | the handlers start with an empty side table |
| LegacyServer.RequestHandlers.InitiateCredentialOfferHandler | src/server.ts:25-36 | the handler's reply is that of the offer logic and the side table gains `args.claimData` only on success |
| LegacyServer.RequestHandlers.Call | src/server.ts:116-131 | running a registered handler yields the outcome and side table that `Handle` specifies |
| LegacyServer.RpcServer.constructor | src/server.ts:103-104 | a new server has fresh handlers with an empty side table and has sent nothing |
| LegacyServer.RpcServer.OnMessage | src/server.ts:110-146 | one inbound envelope appends exactly the reply `Step` specifies (none on failure) and leaves the side table `Step` specifies |
| Client.Settle | packages/client/src/index.ts:88-95 | a settled promise stays as it is; a pending one takes the outcome |
| Client.Route | packages/client/src/index.ts:38-55 | a reply reaches a callback iff it is an error or success with a non-empty id; an error rejects with its error object, a success resolves with its result |
| Client.Deliver | packages/client/src/index.ts:34-57 | handling a reply never changes the number of calls |
| Client.DeliverSettlesOwnCall | packages/client/src/index.ts:38-55 | a routed reply settles only the call registered under its id, rejecting with the error object or resolving with the result; every other promise stays as it was |
| Client.DeliverAll | src/client.ts:21-44 | a run of replies never changes the number of calls |
| Client.SettledPromiseIsFinal | packages/client/src/index.ts:88-95 | once settled, a promise is unchanged by any later run of replies, duplicates included |
| Client.UnroutedRepliesLeavePromise | packages/client/src/index.ts:38-55 | a run of replies none of which reaches a call's callback leaves that call's promise as it was |
| Client.FirstReplyWins | src/client.ts:63-70 | the first reply routed to a pending call decides its promise for good |
| Client.JolocomRpcClient.constructor | packages/client/src/index.ts:19-33 | a new client is not connected, with an empty queue, wire and callback map |
| Client.JolocomRpcClient.SendRequest | packages/client/src/index.ts:111-120 | when connected the request goes on the wire and the queue is unchanged, otherwise it is queued and nothing is sent; the id maps to the new pending promise, all other entries unchanged |
| Client.JolocomRpcClient.OnOpen | packages/client/src/index.ts:62-64 | on the socket's single `open` every queued request is written once, in queue order, and the queue is kept |
| Client.JolocomRpcClient.OnClose | src/client.ts:51-53 | the socket leaving the open state only clears the connection flag; pending calls stay pending |
| Client.JolocomRpcClient.OnMessage | src/client.ts:21-44 | the promises become exactly what `Deliver` specifies, no callback is removed, and an id with no callback makes the listener throw |
| Correlation.CallSettlesWithHandlerOutcome | packages/server/src/server.ts:165-188 | against the current server a pending call resolves iff its handler succeeds, with the result; otherwise it is rejected with the message and its error code |
| Correlation.UnknownMethodRejected | packages/server/src/server.ts:151-163 | against the current server a call to a method without a handler is rejected with -32601 |
| Correlation.LegacyFailureLeavesCallPending | src/server.ts:131-144 | against the older server a failing call stays pending through any later replies that reach other calls; a succeeding one resolves with the result whatever arrives afterwards |
| Issuance.FindOffer | src/utils.ts:13-15 | the offer found is the first with the selected type; none is found only when no offer has it |
| Issuance.RequestFor | src/utils.ts:12-42 | it fails for the offer exactly when no offer has the selected type; any other failure names the type; a request carries the type's registry metadata and the subject |
| Issuance.RequestForCases | src/utils.ts:22-40 | with a matching offer, the request carries the registry metadata, the first match's claim data (or `{}` when falsy) and the subject; without metadata it fails naming the type |
| Issuance.NoOfferFails | src/utils.ts:17-19 | without a matching offer it fails with 'Could not find offer for selected type', before any metadata check |
| Issuance.FirstFailure | src/utils.ts:12-28 | the position found is the first selected type whose request fails |
| Issuance.IssueAll | src/utils.ts:12-40 | it succeeds iff no selected type fails, then with one request per selected type in selection order; otherwise the error is that of the first failing type |
| Issuance.IssueCredentialsBasedOnOfferState | src/utils.ts:5-43 | it succeeds iff every selected type yields a request, then with one request per selected type in selection order; otherwise with the error of the first selected type that fails |
| Issuance.EmptySelection | src/utils.ts:12 | an empty selection gives no requests |
| Issuance.EventInvitationExample | src/config.ts:19-34 | the offered EventInvitationCredential is signed with its registry metadata and its claim data |
| Issuance.UnregisteredTypeExample | src/utils.ts:24-28 | an offered but unregistered type fails with `No metadata found for issuing credential of type -- <type>` |
| DeepLink.EncodeAsDeepLink | packages/client/src/utils.ts:8 | the link is 'jolocomwallet://consent/' followed by the message, 24 characters longer |
| DeepLink.DecodeDeepLink | packages/client/src/utils.ts:8 | a link decodes iff it starts with the prefix, and re-encoding the decoded message gives the link back |
| DeepLink.DeepLinkRoundTrip | packages/client/src/utils.ts:8 | stripping the prefix from an encoded message returns it |
| DeepLink.DeepLinkInjective | packages/client/src/utils.ts:8 | distinct messages give distinct links |

## Left out

- WebSocket construction, event wiring and JSON text parsing are not modelled. A frame arrives as an already-parsed `Envelope`, and the wire is a sequence. A frame that fails to parse throws in both listeners, with no reply and no effect, so it is not modelled separately.
- Correlation.CallSettlesWithHandlerOutcome: `JSON.stringify` is not modelled, so a call resolves with the handler's unserialised `Value`. On the wire, keys whose value is `undefined` are dropped (`subject` without a counterparty, for example), and `undefined` array items become `null`.
- The agent's calls `credRequestToken`, `credOfferToken`, `findInteraction`, `processJWT` and `createCredentialReceiveToken` are abstract, possibly failing functions of the `Agent` record.
- `token.encode()` and `credential.toJSON()` are the total fields `Token.encoded` and `SignedCredential.json`: they are assumed never to throw. The source writes the side table before it calls `encode()`, so a throwing `encode()` would leave an entry for an offer answered with -32000. Server.TableChangesOnlyOnOffer and Server.Handle hold only under this assumption.
- `issueFromStateAndClaimData` is the offer flow's issuing collaborator: its file is not part of this model, so it is the abstract parameter `issue`. src/server.ts:9 imports that name from src/utils.ts, which exports only `issueCredentialsBasedOnOfferState`. The model gives the older server the same abstract collaborator.
- Issuance.IssueAll: `signedCredential` is abstract, so the model stops at the signing requests. `Promise.all` rejecting on a failed signature is not modelled.
- Client.JolocomRpcClient.SendRequest: `randomBytes(8).toString('hex')` is replaced by a caller-supplied id in the same format. There is no freshness precondition: a reused id overwrites its callback entry, as the source does.
- Async interleaving is not modelled: each handler call and each message delivery is one atomic step.
- Server.RpcServer.OnMessage: the error the current server throws on a non-request becomes an unhandled rejection. It is modelled as "no reply, no change".
- `encodeAsQrCode` is left out: it wraps the `qrcode` library.
- `serverConfig` and the host and port settings, src/run.ts, and the test helpers and fixtures are wiring and are not modelled. packages/server/src/config.ts is not part of this model; only the src/config.ts registry is.
- The handler lookup is modelled as a fixed set of method names: prototype keys such as `toString` are not handler names here.
- Client.JolocomRpcClient.OnMessage: the callback table is a finite map. A reply whose id names an inherited member of a plain object, such as `constructor` or `toString`, gives `ListenerThrew` here, while the source calls that member without throwing. The promises are the same either way. The servers' side table reads `claimDataMap[id]` and writes it on the same kind of plain object (packages/server/src/server.ts:43,69; src/server.ts:30,49). There, an interaction id equal to an inherited member would read that member instead of `undefined`; the model reads `undefined`.
- Issuance.RequestFor: the registry lookup is a finite map, so a selected type equal to a prototype key such as `constructor` fails for missing metadata here. In the source that lookup finds the truthy inherited member instead.
- Request ids are strings only: numeric ids, and the falsiness of id 0, are not modelled.
- Numbers are integers only: no floating point, no `NaN`.
- `TypeErrorMessage` uses V8's wording for reading a property of `undefined`/`null`; other engines word it differently.
- String length counts characters, not UTF-16 code units.
- Each server is modelled with a single connection; the handler table and side table are shared by all connections in the source, and the model's single `sent` wire stands for the connection being answered.
