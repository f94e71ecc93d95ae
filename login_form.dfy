/** The login form: `handleSubmit` moves `loading` and `errorMsg` through a
    try/catch/finally around `loginUser`, and navigates home on success. */
module LoginForm {
  import opened Common
  import Session
  import Views

  /** The part of a failed login's response body the form reads. */
  datatype LoginErrorBody = LoginErrorBody(error: Option<string>)

  const LoginFailedMessage := "Login failed."
  const HomePath := "/"

  /** `error.response?.data?.error || "Login failed."` */
  function FailureMessage(e: HttpError<LoginErrorBody>): (msg: string)
    ensures msg != ""
    ensures e.ResponseError? && e.data.Some? && Truthy(e.data.value.error) ==> msg == e.data.value.error.value
    ensures !(e.ResponseError? && e.data.Some? && Truthy(e.data.value.error)) ==> msg == LoginFailedMessage
  {
    match ResponseData(e)
    case Some(data) => OrElse(data.error, LoginFailedMessage)
    case None => LoginFailedMessage
  }

  /** How the form sees a backend JSON body: its `error` field, when it is a string. */
  function ErrorBodyOf(body: map<string, Views.BodyValue>): LoginErrorBody {
    if "error" in body && body["error"].Text? then LoginErrorBody(Some(body["error"].s))
    else LoginErrorBody(None)
  }

  /** When `user_login` refuses the credentials, the form shows the server's
      "Invalid credentials"; a body without an `error` string gives the fallback. */
  lemma {:induction false} RejectedLoginMessage(tokens: Views.Tokens, status: int)
    ensures var r := Views.UserLogin(None, tokens);
            FailureMessage(ResponseError(r.status, Some(ErrorBodyOf(r.body)))) == Views.InvalidCredentialsMessage
    ensures FailureMessage(ResponseError(status, Some(ErrorBodyOf(map[])))) == LoginFailedMessage
  {
    var r := Views.UserLogin(None, tokens);
    assert ErrorBodyOf(r.body) == LoginErrorBody(Some(Views.InvalidCredentialsMessage));
  }

  class LoginFormState {
    var email: string
    var password: string
    var errorMsg: string
    var loading: bool
    var navigatedTo: Option<string>

    constructor ()
      ensures email == "" && password == "" && errorMsg == "" && !loading && navigatedTo == None
    {
      email, password, errorMsg := "", "", "";
      loading := false;
      navigatedTo := None;
    }

    /** The submit button is disabled while a login is under way. */
    function SubmitDisabled(): bool
      reads this
    {
      loading
    }

    /** The state before the request is sent: loading, no message. */
    method BeginSubmit()
      modifies this`loading, this`errorMsg
      ensures loading && errorMsg == ""
    {
      loading := true;
      errorMsg := "";
    }

    /** `handleSubmit`, given how the post settles. */
    method HandleSubmit(browser: Session.Browser, outcome: Outcome<Session.LoginResponse, LoginErrorBody>)
      modifies this`loading, this`errorMsg, this`navigatedTo, browser`storage
      ensures !loading
      ensures outcome.Ok? ==>
        && errorMsg == ""
        && navigatedTo == Some(HomePath)
        && browser.storage == Session.StoreLogin(old(browser.storage), outcome.body)
      ensures outcome.Err? ==>
        && errorMsg == FailureMessage(outcome.error)
        && navigatedTo == old(navigatedTo)
        && browser.storage == old(browser.storage)
    {
      BeginSubmit();
      var _, result := Session.LoginUser(browser, email, password, outcome);
      match result {
        case Ok(_) =>
          navigatedTo := Some(HomePath);
        case Err(e) =>
          errorMsg := FailureMessage(e);
      }
      loading := false;
    }
  }
}
