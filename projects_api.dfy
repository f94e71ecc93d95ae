/** The projects client: `getAllProjects` and `createProject`. Each sends the
    config `getAuthHeaders` builds, resolves to the response body unchanged, and
    rethrows every error; only `getAllProjects` sends a 401 to /login. */
module ProjectsApi {
  import opened Common
  import Session
  import opened Clients

  /** The category a project record points to; `name` may be absent or empty. */
  datatype CategoryRef = CategoryRef(id: int, name: Option<string>)

  /** The creator a project record points to, with every field optional as the
      tables read it. */
  datatype Creator = Creator(
    id: Option<int>,
    username: Option<string>,
    email: Option<string>,
    role: Option<string>,
    dept: Option<string>)

  /** A project record as the backend sends it (snake-case keys in the JSON). */
  datatype RawProject = RawProject(
    id: int,
    name: string,
    description: string,
    progress: int,
    status: string,
    startDate: Option<string>,
    endDate: Option<string>,
    img: Option<string>,
    category: Option<CategoryRef>,
    createBy: Option<Creator>)

  /** The body `createProject` posts. */
  datatype CreateProjectPayload = CreateProjectPayload(
    id: int,
    name: string,
    description: string,
    progress: int,
    startDate: Option<string>,
    endDate: Option<string>,
    category: Option<int>)

  /** The record the backend returns for a created project. */
  datatype CreatedProject = CreatedProject(id: int, name: string, status: string, category: Option<int>)

  const ResponseFromApiLabel := "Response from API:"
  const ErrorFetchingProjectsLabel := "Error fetching projects:"

  /** `getAllProjects`: log and return the body on success; on failure, a 401
      response redirects to /login, anything else is logged, and the error is
      rethrown either way. */
  function GetAllProjects<T, E>(storage: Session.Storage, outcome: Outcome<T, E>): (r: ClientEffect<T, E>)
    ensures r.result == outcome
    ensures r.headers == Session.AuthHeaders(storage)
    ensures r.redirectToLogin <==> r.headers.None? || (outcome.Err? && IsUnauthorized(outcome.error))
    ensures outcome.Ok? ==> r.logs == [ResponseFromApiLabel]
    ensures outcome.Err? && IsUnauthorized(outcome.error) ==> r.logs == []
    ensures outcome.Err? && !IsUnauthorized(outcome.error) ==> r.logs == [ErrorFetchingProjectsLabel]
  {
    var (headers, headerRedirect) := AuthConfig(storage);
    match outcome
    case Ok(_) => ClientEffect(outcome, headers, headerRedirect, [ResponseFromApiLabel])
    case Err(e) =>
      if IsUnauthorized(e) then ClientEffect(outcome, headers, true, [])
      else ClientEffect(outcome, headers, headerRedirect, [ErrorFetchingProjectsLabel])
  }

  /** `createProject`, whose posted body is a `CreateProjectPayload`: return the body on success; on failure log the first of
      response, request or message that is present, never redirect, rethrow. */
  function CreateProject<E>(storage: Session.Storage, outcome: Outcome<CreatedProject, E>): (r: ClientEffect<CreatedProject, E>)
    ensures r.result == outcome
    ensures r.headers == Session.AuthHeaders(storage)
    ensures r.redirectToLogin <==> r.headers.None?
    ensures outcome.Ok? ==> r.logs == []
    ensures outcome.Err? ==> r.logs == [DetailedErrorLabel(outcome.error)]
  {
    var (headers, headerRedirect) := AuthConfig(storage);
    match outcome
    case Ok(_) => ClientEffect(outcome, headers, headerRedirect, [])
    case Err(e) => ClientEffect(outcome, headers, headerRedirect, [DetailedErrorLabel(e)])
  }
}
