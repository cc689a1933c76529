/**
 * The shapes that travel between the browser, the relay and the upstream
 * translation service. The network itself is not modelled: a call is
 * represented by its outcome.
 */
module Http {
  import opened Json

  /**
   * The outcome of one `fetch`: the promise rejected with an error message, or
   * a reply with its `ok` flag (status 200-299), the body read as text and the
   * body read as JSON. Each caller reads the body in one of the two ways.
   */
  datatype Outcome =
    | Rejected(message: string)
    | Reply(ok: bool, text: string, json: JsonRead)

  /** A response body: plain text (`res.send`) or JSON (`res.json`). */
  datatype Body = TextBody(s: string) | JsonBody(value: Json)

  datatype Response = Response(status: int, body: Body)

  /** The status range for which `fetch` sets `ok`. */
  predicate IsOk(status: int) {
    200 <= status <= 299
  }

  /** The body of a translation request, as the frontend builds it and the relay forwards it. */
  datatype Payload = Payload(q: string, source: string, target: string, format: string)
}
