/** The HTTP transport as the connector uses it: a request it hands to
    `requests.get` / `requests.post`, and what comes back. The transport
    itself is an oracle (a function from request to transfer) supplied by the
    caller of each connector operation. */
module Http {
  import opened JsonValues

  datatype Verb = Get | Post

  /** Everything the connector passes to `requests.get` / `requests.post`.
      A GET carries no payload. */
  datatype Request = Request(
    verb: Verb,
    url: string,
    headers: map<string, string>,
    payload: Option<map<string, Json>>,
    timeout: int,
    verify: bool)

  /** The two families of `requests` exceptions the connector tells apart:
      `ConnectionError` and any other `RequestException`. */
  datatype FailKind = ConnectionFailure | OtherRequestFailure

  /** A response: whether its status is below 400 (so `raise_for_status`
      passes) and its body when it decodes as JSON. */
  datatype Response = Response(statusOk: bool, body: Option<Json>)

  /** What the call to `requests.get` / `requests.post` produces: a response,
      or an exception raised by the call itself. */
  datatype Transfer = Sent(response: Response) | SendFailed(kind: FailKind)

  /** What a `try` block that ends in `return response.json()` yields: the
      decoded body, or the kind of exception that left it. */
  datatype Fetched = Fetched(json: Json) | Failed(kind: FailKind)

  /** The two steps inside every `try` that follows the call:
      `raise_for_status()` (an HTTPError, which is a RequestException but not a
      ConnectionError) and `json()` (a decoding error, also a RequestException). */
  function Checked(resp: Response): (r: Fetched)
    ensures r.Fetched? <==> resp.statusOk && resp.body.Some?
    ensures r.Fetched? ==> r.json == resp.body.value
    ensures r.Failed? ==> r.kind == OtherRequestFailure
  {
    if !resp.statusOk then Failed(OtherRequestFailure)
    else if resp.body.None? then Failed(OtherRequestFailure)
    else Fetched(resp.body.value)
  }

  /** A GET whose call sits inside the `try`: the call's own exception and the
      checks' exceptions are all seen by the handlers. */
  function GuardedGet(t: Transfer): Fetched
  {
    match t
    case SendFailed(k) => Failed(k)
    case Sent(resp) => Checked(resp)
  }
}
