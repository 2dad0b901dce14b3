/**
 * JSON-RPC 2.0 envelopes as the bridge sees them after `rpc.parseObject`
 * (jsonrpc-lite): the three kinds the bridge exchanges, plus the notification
 * and invalid kinds the parser can also report. The wire text itself and its
 * (de)serialisation are not modelled.
 */
module JsonRpc {
  import opened Js

  /** Call ids are strings; the client makes them from random bytes. */
  type Id = string

  /** The `error` member of an error response. */
  datatype RpcError = RpcError(code: int, message: string)

  datatype Envelope =
    | Request(id: Id, methodName: string, params: Value)
    | Notification(methodName: string, params: Value)
    | Success(id: Id, result: Value)
      /** `replyTo` is the response's `id`, which JSON-RPC allows to be null. */
    | Error(replyTo: Option<Id>, error: RpcError)
      /** Anything `parseObject` classifies as invalid. */
    | Invalid

  /** Error codes of section 5.1 of the JSON-RPC 2.0 Specification. */
  const MethodNotFoundCode: int := -32601
  const InvalidParamsCode: int := -32602
  /** The first code of the range reserved for implementation-defined server errors. */
  const ServerErrorCode: int := -32000
}
