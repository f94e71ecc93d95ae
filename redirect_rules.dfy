/** How the resource clients treat failures, side by side: every client rethrows,
    and once a token is stored, a 401 sends the browser to /login from
    `getAllProjects` and `createProjectCategory` only. */
module RedirectRules {
  import opened Common
  import Session
  import ProjectsApi
  import CategoryApi
  import UsersApi

  /** With an access token in storage, a failed call redirects exactly when it
      is one of the two redirecting clients and the status is 401; all seven
      clients rethrow the error. */
  lemma {:induction false} UnauthorizedRedirectsOnlyInTwoClients<E>(storage: Session.Storage, e: HttpError<E>)
    requires Session.AuthHeaders(storage).Some?
    ensures ProjectsApi.GetAllProjects<seq<ProjectsApi.RawProject>, E>(storage, Err(e)).redirectToLogin <==> IsUnauthorized(e)
    ensures CategoryApi.CreateProjectCategory(storage, Err(e)).redirectToLogin <==> IsUnauthorized(e)
    ensures !ProjectsApi.CreateProject(storage, Err(e)).redirectToLogin
    ensures !CategoryApi.FetchProjectCategory(storage, Err(e)).redirectToLogin
    ensures !CategoryApi.FetchProjectCategoryByName(storage, Err(e)).redirectToLogin
    ensures !UsersApi.FetchUsers(storage, Err(e)).redirectToLogin
    ensures !UsersApi.CreateUser<E>(Err(e)).redirectToLogin
    ensures ProjectsApi.GetAllProjects<seq<ProjectsApi.RawProject>, E>(storage, Err(e)).result == Err(e)
    ensures CategoryApi.CreateProjectCategory(storage, Err(e)).result == Err(e)
    ensures ProjectsApi.CreateProject(storage, Err(e)).result == Err(e)
    ensures CategoryApi.FetchProjectCategory(storage, Err(e)).result == Err(e)
    ensures CategoryApi.FetchProjectCategoryByName(storage, Err(e)).result == Err(e)
    ensures UsersApi.FetchUsers(storage, Err(e)).result == Err(e)
    ensures UsersApi.CreateUser<E>(Err(e)).result == Err(e)
  {
  }

  /** Without a token, every client that asks `getAuthHeaders` for its config
      redirects whatever the server answers; `createUser` does not ask and
      does not redirect. */
  lemma {:induction false} MissingTokenRedirectsAuthorizedClients<E>(
    storage: Session.Storage,
    projects: Outcome<seq<ProjectsApi.RawProject>, E>,
    created: Outcome<ProjectsApi.CreatedProject, E>,
    categories: Outcome<seq<CategoryApi.ApiCategory>, E>,
    category: Outcome<CategoryApi.Category, E>,
    names: Outcome<seq<CategoryApi.CategoryName>, E>,
    users: Outcome<seq<UsersApi.ApiUser>, E>,
    user: Outcome<UsersApi.User, E>)
    requires Session.AccessKey !in storage || storage[Session.AccessKey] == ""
    ensures ProjectsApi.GetAllProjects(storage, projects).redirectToLogin
    ensures ProjectsApi.CreateProject(storage, created).redirectToLogin
    ensures CategoryApi.FetchProjectCategory(storage, categories).redirectToLogin
    ensures CategoryApi.CreateProjectCategory(storage, category).redirectToLogin
    ensures CategoryApi.FetchProjectCategoryByName(storage, names).redirectToLogin
    ensures UsersApi.FetchUsers(storage, users).redirectToLogin
    ensures !UsersApi.CreateUser(user).redirectToLogin
  {
  }
}
