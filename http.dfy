/**
 * What the clients hand to `fetch` and what comes back. `fetch` itself is
 * not modelled: callers receive its outcome as an input.
 */
module Http {
  import opened Wrappers
  import opened Js

  datatype Method = GET | POST | PUT | DELETE

  /** Header names are kept as written; the map holds the last value given per name. */
  type Headers = map<string, string>

  /** The header names and media type both clients send. */
  const ContentType := "Content-Type"
  const ApiKeyHeader := "X-API-Key"
  const JsonMediaType := "application/json"

  /**
   * One request as passed to `fetch`: the URL, the method, the headers and the
   * JSON value whose `JSON.stringify` is the body (`None`: no body).
   */
  datatype HttpRequest = HttpRequest(url: string, httpMethod: Method, headers: Headers, body: Option<Json>)

  /** The body as `response.json()` sees it: a parsed value, or a SyntaxError with its message. */
  datatype Body = Parsed(value: Json) | Unparsable(syntaxError: string)

  datatype Response = Response(status: int, statusText: string, body: Body) {
    /** `response.ok`: the status is in the range 200-299. */
    predicate Ok() {
      200 <= status <= 299
    }
  }

  /** What awaiting `fetch` gives: a response, or the error it rejects with. */
  datatype FetchOutcome = Responded(response: Response) | Rejected(reason: Thrown)
}
