/** The project-category client: `fetchProjectCategory` (a projection of each
    record onto id, name and description), `createProjectCategory` (the one
    client besides `getAllProjects` that sends a 401 to /login) and
    `fetchProjectCategoryByName`. */
module CategoryApi {
  import opened Common
  import Session
  import opened Clients

  /** A category record as the backend sends it; `extra` holds any further keys. */
  datatype ApiCategory = ApiCategory(id: int, name: string, description: string, extra: map<string, string>)

  /** A category as the frontend keeps it: exactly id, name and description. */
  datatype Category = Category(id: int, name: string, description: string)

  /** The body `createProjectCategory` posts. */
  datatype NewCategory = NewCategory(id: int, name: string, description: string)

  /** An entry of the by-name listing the project form's select reads. */
  datatype CategoryName = CategoryName(id: int, name: string)

  const ErrorFetchingCategoriesLabel := "Error fetching project categories:"
  const CategoriesFetchedLabel := "Project categories fetched successfully:"

  function FormatCategory(item: ApiCategory): (c: Category)
    ensures c.id == item.id && c.name == item.name && c.description == item.description
  {
    Category(item.id, item.name, item.description)
  }

  /** `data.map(...)` in `fetchProjectCategory`: same length, same order, each
      item projected. */
  function FormatCategories(items: seq<ApiCategory>): (r: seq<Category>)
    ensures |r| == |items|
    ensures forall i :: 0 <= i < |items| ==> r[i] == FormatCategory(items[i])
  {
    if items == [] then [] else [FormatCategory(items[0])] + FormatCategories(items[1..])
  }

  /** The projection works item by item: it maps a concatenation to the
      concatenation of the projections, and ignores every extra key. */
  lemma {:induction false} FormatCategoriesAppend(a: seq<ApiCategory>, b: seq<ApiCategory>)
    ensures FormatCategories(a + b) == FormatCategories(a) + FormatCategories(b)
  {
    var lhs := FormatCategories(a + b);
    var rhs := FormatCategories(a) + FormatCategories(b);
    assert |lhs| == |rhs|;
    forall i | 0 <= i < |lhs|
      ensures lhs[i] == rhs[i]
    {
      if i < |a| {
        assert (a + b)[i] == a[i];
      } else {
        assert (a + b)[i] == b[i - |a|];
      }
    }
  }

  lemma {:induction false} FormatCategoriesIgnoresExtra(items: seq<ApiCategory>, others: seq<ApiCategory>)
    requires |items| == |others|
    requires forall i :: 0 <= i < |items| ==>
      items[i].id == others[i].id && items[i].name == others[i].name && items[i].description == others[i].description
    ensures FormatCategories(items) == FormatCategories(others)
  {
    var l := FormatCategories(items);
    var r := FormatCategories(others);
    forall i | 0 <= i < |l|
      ensures l[i] == r[i]
    {
      assert l[i] == FormatCategory(items[i]);
      assert r[i] == FormatCategory(others[i]);
    }
  }

  /** `fetchProjectCategory`: the projected list on success; on failure a log
      line and a rethrow, with no redirect of its own. */
  function FetchProjectCategory<E>(storage: Session.Storage, outcome: Outcome<seq<ApiCategory>, E>)
    : (r: ClientEffect<seq<Category>, E>)
    ensures r.headers == Session.AuthHeaders(storage)
    ensures r.redirectToLogin <==> r.headers.None?
    ensures outcome.Ok? ==> r.result == Ok(FormatCategories(outcome.body)) && r.logs == []
    ensures outcome.Err? ==> r.result == Err(outcome.error) && r.logs == [ErrorFetchingCategoriesLabel]
  {
    var (headers, headerRedirect) := AuthConfig(storage);
    match outcome
    case Ok(data) => ClientEffect(Ok(FormatCategories(data)), headers, headerRedirect, [])
    case Err(e) => ClientEffect(Err(e), headers, headerRedirect, [ErrorFetchingCategoriesLabel])
  }

  /** `createProjectCategory`, whose posted body is a `NewCategory`: the created
      record on success; on failure a 401 redirects to /login, anything else
      logs "General error:", and the error is rethrown. */
  function CreateProjectCategory<E>(storage: Session.Storage, outcome: Outcome<Category, E>)
    : (r: ClientEffect<Category, E>)
    ensures r.result == outcome
    ensures r.headers == Session.AuthHeaders(storage)
    ensures r.redirectToLogin <==> r.headers.None? || (outcome.Err? && IsUnauthorized(outcome.error))
    ensures outcome.Ok? ==> r.logs == []
    ensures outcome.Err? && IsUnauthorized(outcome.error) ==> r.logs == []
    ensures outcome.Err? && !IsUnauthorized(outcome.error) ==> r.logs == [GeneralErrorLabel]
  {
    var (headers, headerRedirect) := AuthConfig(storage);
    match outcome
    case Ok(_) => ClientEffect(outcome, headers, headerRedirect, [])
    case Err(e) =>
      if IsUnauthorized(e) then ClientEffect(outcome, headers, true, [])
      else ClientEffect(outcome, headers, headerRedirect, [GeneralErrorLabel])
  }

  /** `fetchProjectCategoryByName`: the body unchanged, or a log line and a rethrow. */
  function FetchProjectCategoryByName<E>(storage: Session.Storage, outcome: Outcome<seq<CategoryName>, E>)
    : (r: ClientEffect<seq<CategoryName>, E>)
    ensures r.result == outcome
    ensures r.headers == Session.AuthHeaders(storage)
    ensures r.redirectToLogin <==> r.headers.None?
    ensures outcome.Ok? ==> r.logs == [CategoriesFetchedLabel]
    ensures outcome.Err? ==> r.logs == [ErrorFetchingCategoriesLabel]
  {
    var (headers, headerRedirect) := AuthConfig(storage);
    match outcome
    case Ok(_) => ClientEffect(outcome, headers, headerRedirect, [CategoriesFetchedLabel])
    case Err(_) => ClientEffect(outcome, headers, headerRedirect, [ErrorFetchingCategoriesLabel])
  }
}
