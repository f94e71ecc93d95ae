/** The two backend views: `create_user` and `user_login`. The serializer's
    verdict, Django's `authenticate` and the issued tokens are inputs; each view
    is a choice of response from them. */
module Views {
  import opened Common

  /** A value in a JSON response body: a string or a list of messages. */
  datatype BodyValue = Text(s: string) | Messages(items: seq<string>)

  datatype Response = Response(status: int, body: map<string, BodyValue>)

  const Created := 201
  const BadRequest := 400
  const Unauthorized := 401
  const OkStatus := 200

  /** What `serializer.is_valid()` decided about the request data. */
  datatype Validation = Valid | Invalid(errors: FieldErrors)

  /** The response, and whether `serializer.save()` ran. */
  datatype CreateUserResult = CreateUserResult(response: Response, saved: bool)

  const UserCreatedMessage := "User created successfully"

  function ErrorsBody(errors: FieldErrors): (body: map<string, BodyValue>)
    ensures body.Keys == errors.Keys
    ensures forall k :: k in errors ==> body[k] == Messages(errors[k])
  {
    map k | k in errors :: Messages(errors[k])
  }

  /** `create_user`: 201 with the success message exactly when the serializer
      accepted the data, which is then saved; otherwise 400 with the serializer's
      errors and nothing saved. */
  function CreateUser(validation: Validation): (r: CreateUserResult)
    ensures r.response.status == Created <==> validation.Valid?
    ensures r.saved <==> validation.Valid?
    ensures validation.Valid? ==> r.response.body == map["message" := Text(UserCreatedMessage)]
    ensures validation.Invalid? ==>
      r.response.status == BadRequest &&
      r.response.body.Keys == validation.errors.Keys &&
      forall k :: k in validation.errors ==> r.response.body[k] == Messages(validation.errors[k])
  {
    match validation
    case Valid => CreateUserResult(Response(Created, map["message" := Text(UserCreatedMessage)]), true)
    case Invalid(errors) => CreateUserResult(Response(BadRequest, ErrorsBody(errors)), false)
  }

  /** The user `authenticate` returned: its name and, if it has a profile, the profile's role. */
  datatype AuthenticatedUser = AuthenticatedUser(username: string, profileRole: Option<string>)

  /** The tokens `RefreshToken.for_user` issues, as strings. */
  datatype Tokens = Tokens(refresh: string, access: string)

  /** `request.data.get(key)`. */
  function Get(data: map<string, string>, key: string): Option<string> {
    if key in data then Some(data[key]) else None
  }

  /** The (username, password) pair `user_login` hands to `authenticate`. */
  function LoginCredentials(data: map<string, string>): (Option<string>, Option<string>) {
    (Get(data, "username"), Get(data, "password"))
  }

  const UnknownRole := "unknown"
  const InvalidCredentialsMessage := "Invalid credentials"

  function RoleOf(user: AuthenticatedUser): (role: string)
    ensures user.profileRole.Some? ==> role == user.profileRole.value
    ensures user.profileRole.None? ==> role == UnknownRole
  {
    match user.profileRole
    case Some(role) => role
    case None => UnknownRole
  }

  /** `user_login`, given what `authenticate` returned for the request's credentials. */
  function UserLogin(user: Option<AuthenticatedUser>, tokens: Tokens): (r: Response)
    ensures user.None? ==> r == Response(Unauthorized, map["error" := Text(InvalidCredentialsMessage)])
    ensures user.Some? ==>
      && r.status == OkStatus
      && r.body.Keys == {"refresh", "access", "username", "role"}
      && r.body["refresh"] == Text(tokens.refresh)
      && r.body["access"] == Text(tokens.access)
      && r.body["username"] == Text(user.value.username)
      && r.body["role"] == Text(RoleOf(user.value))
  {
    match user
    case None => Response(Unauthorized, map["error" := Text(InvalidCredentialsMessage)])
    case Some(u) =>
      Response(OkStatus, map[
        "refresh" := Text(tokens.refresh),
        "access" := Text(tokens.access),
        "username" := Text(u.username),
        "role" := Text(RoleOf(u))])
  }

  /** Every login response carries either exactly the four session fields or
      exactly the error field, and the status tells which. */
  lemma {:induction false} LoginResponseShapes(user: Option<AuthenticatedUser>, tokens: Tokens)
    ensures var r := UserLogin(user, tokens);
            (r.status == OkStatus <==> r.body.Keys == {"refresh", "access", "username", "role"}) &&
            (r.status == Unauthorized <==> r.body.Keys == {"error"})
  {
    var r := UserLogin(user, tokens);
    if user.None? {
      assert "refresh" !in r.body.Keys;
    } else {
      assert "error" !in r.body.Keys;
    }
  }
}
