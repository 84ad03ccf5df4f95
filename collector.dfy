/**
 * The boundary with the Dashbot client library: what a tracking handler ends
 * up doing. The library itself (building the client, the HTTP calls, the
 * promises) is not part of this model; only the call it would receive is.
 */
module Collector {
  import opened JsValues

  /** The call made on the selected Dashbot sub-client. */
  datatype Call =
    | LogIncoming(rawEvent: JsValue)
    | LogOutgoing(rawEvent: JsValue, reply: JsValue)

  /** The result of one tracking handler. */
  datatype Outcome =
      /** the handler resolved to null without building a client */
    | Skipped
      /** a client was built with `apiKey` and `settings`, and `call` went to its `channel` sub-client */
    | Forwarded(apiKey: JsValue, settings: map<string, JsValue>, channel: string, call: Call)
      /** a client was built, but the platform has no sub-client: the call on `undefined` throws */
    | NoChannel(apiKey: JsValue, settings: map<string, JsValue>)
}
