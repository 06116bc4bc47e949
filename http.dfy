/** What the server sends back: a status and a JSON or plain-text body. */
module Http {
  import opened Telemetry

  /** The JSON or text bodies the server sends. */
  datatype Body = JsonPayload(payload: Payload) | JsonAnalysis(analysis: string)
                | JsonError(error: string) | PlainText(text: string)

  datatype Response = Response(status: nat, body: Body)

}
