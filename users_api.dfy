/** The users client: `fetchUsers` flattens each profile record with its nested
    user, and `createUser` posts without any authorization header. */
module UsersApi {
  import opened Common
  import Session
  import opened Clients

  datatype NestedUser = NestedUser(id: int, username: string, email: string)

  /** A profile record as the backend sends it. */
  datatype ApiUser = ApiUser(id: int, user: NestedUser, role: string, createdAt: string, updatedAt: string)

  /** A user as `fetchUsers` returns it. */
  datatype User = User(id: int, username: string, email: string, role: string, createdAt: string)

  /** The body `createUser` posts. */
  datatype CreateUserRequest = CreateUserRequest(username: string, email: string, password: string, role: string)

  const ErrorFetchingUsersLabel := "Error fetching users:"

  /** id, role and creation time from the record, name and email from the nested
      user; the nested id and the update time are dropped. */
  function FlattenUser(item: ApiUser): (u: User)
    ensures u.id == item.id && u.role == item.role && u.createdAt == item.createdAt
    ensures u.username == item.user.username && u.email == item.user.email
  {
    User(item.id, item.user.username, item.user.email, item.role, item.createdAt)
  }

  /** `data.map(...)` in `fetchUsers`. */
  function FlattenUsers(items: seq<ApiUser>): (r: seq<User>)
    ensures |r| == |items|
    ensures forall i :: 0 <= i < |items| ==> r[i] == FlattenUser(items[i])
  {
    if items == [] then [] else [FlattenUser(items[0])] + FlattenUsers(items[1..])
  }

  /** Records that differ only in their update time and nested user id flatten
      to the same list. */
  lemma {:induction false} FlattenUsersDropsUpdateTime(items: seq<ApiUser>, others: seq<ApiUser>)
    requires |items| == |others|
    requires forall i :: 0 <= i < |items| ==>
      others[i] == items[i].(updatedAt := others[i].updatedAt,
                             user := items[i].user.(id := others[i].user.id))
    ensures FlattenUsers(items) == FlattenUsers(others)
  {
    var l := FlattenUsers(items);
    var r := FlattenUsers(others);
    forall i | 0 <= i < |l|
      ensures l[i] == r[i]
    {
      assert l[i] == FlattenUser(items[i]);
      assert r[i] == FlattenUser(others[i]);
    }
  }

  /** `fetchUsers`: the flattened list, or a log line and a rethrow. */
  function FetchUsers<E>(storage: Session.Storage, outcome: Outcome<seq<ApiUser>, E>)
    : (r: ClientEffect<seq<User>, E>)
    ensures r.headers == Session.AuthHeaders(storage)
    ensures r.redirectToLogin <==> r.headers.None?
    ensures outcome.Ok? ==> r.result == Ok(FlattenUsers(outcome.body)) && r.logs == []
    ensures outcome.Err? ==> r.result == Err(outcome.error) && r.logs == [ErrorFetchingUsersLabel]
  {
    var (headers, headerRedirect) := AuthConfig(storage);
    match outcome
    case Ok(data) => ClientEffect(Ok(FlattenUsers(data)), headers, headerRedirect, [])
    case Err(e) => ClientEffect(Err(e), headers, headerRedirect, [ErrorFetchingUsersLabel])
  }

  /** The one header `createUser` sends. */
  const CreateUserHeaders: Session.Headers := map["Content-Type" := "application/json"]

  /** `createUser`: sends only a Content-Type header, reads no storage, never
      redirects; returns the body or logs the first present of response, request
      or message and rethrows. */
  function CreateUser<E>(outcome: Outcome<User, E>): (r: ClientEffect<User, E>)
    ensures r.result == outcome
    ensures r.headers == Some(CreateUserHeaders) && "Authorization" !in r.headers.value
    ensures !r.redirectToLogin
    ensures outcome.Ok? ==> r.logs == []
    ensures outcome.Err? ==> r.logs == [DetailedErrorLabel(outcome.error)]
  {
    match outcome
    case Ok(_) => ClientEffect(outcome, Some(CreateUserHeaders), false, [])
    case Err(e) => ClientEffect(outcome, Some(CreateUserHeaders), false, [DetailedErrorLabel(e)])
  }
}
