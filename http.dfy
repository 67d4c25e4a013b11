/** The HTTP side of both clients, reduced to what they observe: a session
    whose answers are scripted, one per request, and a record of every
    request sent through it. Sockets, TLS and redirects are outside the model;
    an outcome is a status line with a body, a timeout or a connection error,
    the last two with the text their exception prints. */
module Http {
  import opened Base
  import opened Text
  import opened Json

  /** A response body: its raw text and, if the text is valid JSON, its value. */
  datatype Body = Body(text: string, parsed: Option<Json>)

  /** What one `session.request(...)` call produces; `OtherFailure` is any
      other exception `requests` raises (an invalid URL, too many redirects). */
  datatype Outcome =
    | Response(status: int, reason: string, body: Body)
    | TimedOut(detail: string)
    | ConnectionFailed(detail: string)
    | OtherFailure(detail: string)

  /** The `Authorization` header of a request. Basic credentials are kept as
      the pair they encode; the Base64 encoding itself is not modelled. */
  datatype AuthHeader = NoAuth | Bearer(token: Json) | Basic(username: string, password: string)

  /** Where a request goes. `Absolute(text)` is a URL written out in full;
      `ApiEndpoint(scheme, host, port, endpoint)` is the URL `WUGAPIClient`
      computes for an endpoint, `urljoin(f"{scheme}://{host}:{port}/api",
      endpoint.lstrip('/'))`, kept as its operands. `Urls.UrlText` spells
      either one out. */
  datatype Url =
    | Absolute(text: string)
    | ApiEndpoint(scheme: string, host: string, port: int, endpoint: string)

  /** One request as the session receives it. */
  datatype Request = Request(verb: string, url: Url, auth: AuthHeader, json: Option<Json>)

  /** The exceptions the two clients raise, with what their text is made
      of (`Errors.Message` is `str(e)`). `ApiException` is `WUGAPIException`;
      `HttpError` is the `WUGAPIException` that wraps the `HTTPError` of
      `raise_for_status` for an error status; `AuthenticationError` is
      `WUGAuthenticationError`, and `AllMethodsFailed` the one raised when
      no authentication candidate yields a token, carrying the last
      exception seen; `PythonError` is any other exception, raised by the
      interpreter itself (`AttributeError`, `TypeError`, `ValueError`) or by
      `requests` outside `_make_request`. */
  datatype Exc =
    | ApiException(msg: string)
    | HttpError(status: int, reason: string, url: Url)
    | AuthenticationError(msg: string)
    | AllMethodsFailed(last: Option<Exc>)
    | PythonError(msg: string)
  {
    /** `isinstance(e, WUGAPIException)`. */
    predicate IsApiError() {
      !PythonError?
    }

    /** `isinstance(e, WUGAuthenticationError)`. */
    predicate IsAuthError() {
      AuthenticationError? || AllMethodsFailed?
    }
  }

  /** The answer the session gives to its `i`-th request, counting from 0:
      the `i`-th scripted outcome, or a connection error once the script is
      exhausted. */
  function Answer(script: seq<Outcome>, i: nat): (o: Outcome)
    ensures i < |script| ==> o == script[i]
    ensures |script| <= i ==> o.ConnectionFailed?
  {
    if i < |script| then script[i] else ConnectionFailed("no response")
  }

  /** The text of `str(HTTPError)` as `requests` writes it. */
  function HttpErrorText(status: int, reason: string, url: string): string {
    IntToString(status) + (if status < 500 then " Client Error: " else " Server Error: ")
      + reason + " for url: " + url
  }

  /** `requests.Session`: answers the `i`-th request with the `i`-th
      scripted outcome. */
  class Transport {
    const script: seq<Outcome>
    var sent: seq<Request>

    constructor (script: seq<Outcome>)
      ensures this.script == script && sent == []
    {
      this.script := script;
      sent := [];
    }

    method Send(req: Request) returns (o: Outcome)
      modifies this
      ensures o == Answer(script, |old(sent)|)
      ensures sent == old(sent) + [req]
    {
      o := Answer(script, |sent|);
      sent := sent + [req];
    }
  }
}
