/** The projects-of-one-category page: the category id taken from the URL, the
    unauthenticated fetch of that category's projects through the projects
    table's defaulting mapper, and the four things the page can show. */
module CategoryProjects {
  import opened Common
  import ProjectsApi
  import ProjectList

  const ApiPrefix := "http://127.0.0.1:8000/api/v1/projects-based-on-category/"
  const FailedFetchMessage := "Failed to fetch projects"
  const InvalidIdMessage := "Invalid category ID in URL"

  /** The endpoint for category `catId`: the id written in decimal between the
      prefix and a closing slash. */
  function CategoryProjectsUrl(catId: int): (url: string)
    ensures |url| > |ApiPrefix| + 1
    ensures url[..|ApiPrefix|] == ApiPrefix && url[|url| - 1] == '/'
    ensures url[|ApiPrefix|..|url| - 1] == IntToString(catId)
  {
    var text := ApiPrefix + IntToString(catId) + "/";
    assert text[|ApiPrefix|..|text| - 1] == IntToString(catId);
    text
  }

  /** Two categories never share an endpoint. */
  lemma {:induction false} UrlsAreDistinct(a: int, b: int)
    ensures CategoryProjectsUrl(a) == CategoryProjectsUrl(b) <==> a == b
  {
    if CategoryProjectsUrl(a) == CategoryProjectsUrl(b) {
      IntToStringIsInjective(a, b);
    }
  }

  /** What the page renders. */
  datatype View =
    | LoadingMessage
    | ErrorMessage(message: string)
    | ProjectRows(rows: seq<ProjectList.FormattedProject>)
    | NoProjectsRow

  /** `if (loading) …; if (error) …;` then the table, whose body is the rows or
      the "No projects found for this category." row. */
  function ViewOf(loading: bool, error: Option<string>, projects: seq<ProjectList.FormattedProject>): (v: View)
    ensures v.LoadingMessage? <==> loading
    ensures v.ErrorMessage? <==> !loading && Truthy(error)
    ensures v.ErrorMessage? ==> v.message == error.value
    ensures v.ProjectRows? <==> !loading && !Truthy(error) && |projects| > 0
    ensures v.ProjectRows? ==> v.rows == projects
  {
    if loading then LoadingMessage
    else if Truthy(error) then ErrorMessage(error.value)
    else if |projects| > 0 then ProjectRows(projects)
    else NoProjectsRow
  }

  /** The state a settled fetch leaves: the formatted list and no error after
      an ok response; no rows and the message otherwise. */
  function SettledProjects(outcome: FetchOutcome<seq<ProjectsApi.RawProject>>): seq<ProjectList.FormattedProject> {
    if outcome.Fetched? && outcome.ok then ProjectList.FormatProjects(outcome.body) else []
  }

  function SettledError(outcome: FetchOutcome<seq<ProjectsApi.RawProject>>): Option<string> {
    match outcome
    case Fetched(ok, _) => if ok then None else Some(FailedFetchMessage)
    case Rejected(message) => Some(message)
  }

  /** After a fetch settles the page shows the category's projects, in order and
      one row each, or the no-projects row when there are none; a failed fetch
      never shows a row: it shows its message, or the no-projects row when the
      thrown message is empty. */
  lemma {:induction false} SettledView(outcome: FetchOutcome<seq<ProjectsApi.RawProject>>)
    ensures var v := ViewOf(false, SettledError(outcome), SettledProjects(outcome));
      && (outcome.Fetched? && outcome.ok && |outcome.body| > 0 ==>
            v.ProjectRows? && |v.rows| == |outcome.body|
            && forall i :: 0 <= i < |outcome.body| ==> v.rows[i] == ProjectList.FormatProject(outcome.body[i]))
      && (outcome.Fetched? && outcome.ok && outcome.body == [] ==> v == NoProjectsRow)
      && (outcome.Fetched? && !outcome.ok ==> v == ErrorMessage(FailedFetchMessage))
      && (outcome.Rejected? && outcome.message != "" ==> v == ErrorMessage(outcome.message))
      && (outcome.Rejected? && outcome.message == "" ==> v == NoProjectsRow)
  {
    if outcome.Fetched? && outcome.ok {
      assert SettledError(outcome) == None;
    }
  }

  class CategoryProjectsPage {
    var projects: seq<ProjectList.FormattedProject>
    var loading: bool
    var error: Option<string>

    constructor ()
      ensures projects == [] && !loading && error == None
    {
      projects := [];
      loading := false;
      error := None;
    }

    function Render(): View
      reads this
    {
      ViewOf(loading, error, projects)
    }

    /** `fetchProjectsByCategory`: raise loading and clear the error, fetch the
        category's URL, then keep the formatted list or record the failure with
        an empty list; loading ends false either way. */
    method FetchProjectsByCategory(catId: int, outcome: FetchOutcome<seq<ProjectsApi.RawProject>>)
      returns (url: string)
      modifies this
      ensures url == CategoryProjectsUrl(catId)
      ensures !loading
      ensures projects == SettledProjects(outcome) && error == SettledError(outcome)
    {
      loading := true;
      error := None;
      url := CategoryProjectsUrl(catId);
      match outcome {
        case Fetched(ok, body) =>
          if ok {
            projects := ProjectList.FormatProjects(body);
          } else {
            error := Some(FailedFetchMessage);
            projects := [];
          }
        case Rejected(message) =>
          error := Some(message);
          projects := [];
      }
      loading := false;
    }

    /** The mount effect. `categoryId` is `Number(params.id)`, None standing for
        NaN: then nothing is fetched and only the error is set. */
    method Mount(categoryId: Option<int>, outcome: FetchOutcome<seq<ProjectsApi.RawProject>>)
      returns (url: Option<string>)
      modifies this
      ensures categoryId.None? ==>
        && url == None && error == Some(InvalidIdMessage)
        && projects == old(projects) && loading == old(loading)
      ensures categoryId.Some? ==>
        && url == Some(CategoryProjectsUrl(categoryId.value)) && !loading
        && projects == SettledProjects(outcome) && error == SettledError(outcome)
    {
      if categoryId.Some? {
        var u := FetchProjectsByCategory(categoryId.value, outcome);
        url := Some(u);
      } else {
        error := Some(InvalidIdMessage);
        url := None;
      }
    }
  }
}
