/** The text of the clients' exceptions: `str(e)`. */
module Errors {
  import opened Base
  import opened Text
  import opened Http
  import opened Urls

  const AllFailedPrefix := "Authentication failed on all endpoints and methods. Last error: "
  const NoTokenMessage := "No token returned from any authentication endpoint or method"

  /** `str(e)`. An HTTP error names its status and the URL; the failure of
      every authentication candidate names the last exception seen, or says
      that no candidate returned a token. */
  function Message(e: Exc): string
    decreases e
  {
    match e
    case ApiException(msg) => msg
    case HttpError(status, reason, url) =>
      "HTTP error " + IntToString(status) + ": " + HttpErrorText(status, reason, UrlText(url))
    case AuthenticationError(msg) => msg
    case AllMethodsFailed(last) =>
      if last.Some? then AllFailedPrefix + Message(last.value) else NoTokenMessage
    case PythonError(msg) => msg
  }
}
