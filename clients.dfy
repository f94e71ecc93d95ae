/** What the axios resource clients share: the effect of one client call, and the
    three-way console label of the catch blocks that distinguish a response, a
    request without a response and a request that was never sent. */
module Clients {
  import opened Common
  import Session

  /** The observable effect of one client call: what it resolves or rethrows, the
      request config it sent (None for `undefined`), whether `/login` was
      assigned to `window.location.href` on the way, and the labels of the
      console lines it wrote, in order. */
  datatype ClientEffect<T, E> = ClientEffect(
    result: Outcome<T, E>,
    headers: Option<Session.Headers>,
    redirectToLogin: bool,
    logs: seq<string>)

  const ResponseErrorLabel := "Response error:"
  const RequestErrorLabel := "Request error:"
  const GeneralErrorLabel := "General error:"

  /** The catch of `createProject` and `createUser`: it logs the response's data
      when there is a response, else the request when one was sent, else the
      error's message. */
  function DetailedErrorLabel<E>(e: HttpError<E>): (tag: string)
    ensures e.ResponseError? <==> tag == ResponseErrorLabel
    ensures e.RequestError? <==> tag == RequestErrorLabel
    ensures e.SetupError? <==> tag == GeneralErrorLabel
  {
    match e
    case ResponseError(_, _) => ResponseErrorLabel
    case RequestError => RequestErrorLabel
    case SetupError(_) => GeneralErrorLabel
  }

  /** The config `getAuthHeaders()` hands to a client, and whether building it
      redirected: it redirects exactly when it hands over nothing. */
  function AuthConfig(storage: Session.Storage): (r: (Option<Session.Headers>, bool))
    ensures r.0 == Session.AuthHeaders(storage)
    ensures r.1 <==> r.0.None?
  {
    var headers := Session.AuthHeaders(storage);
    (headers, headers.None?)
  }
}
