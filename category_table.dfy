/** The project-category table page: the fetched list, the current page, the
    add-category modal with its form and field errors, and the role read from
    storage. Each handler is a method on the page's state. */
module CategoryTable {
  import opened Common
  import Session
  import CategoryApi
  import opened Pagination

  const AdminRole := "admin"
  const NameField := "name"
  const DescriptionField := "description"

  /** `{ name: "", description: "" }` */
  const EmptyForm: map<string, string> := map[NameField := "", DescriptionField := ""]

  class CategoryTablePage {
    var categories: seq<CategoryApi.Category>
    var loading: bool
    var currentPage: int
    var isOpen: bool
    var username: Option<string>
    var role: Option<string>
    var formData: map<string, string>
    var errors: FieldErrors

    /** The page never goes below 1 and the form always has its two fields. */
    predicate Valid()
      reads this
    {
      currentPage >= 1 && NameField in formData && DescriptionField in formData
    }

    constructor ()
      ensures Valid()
      ensures categories == [] && loading && currentPage == 1 && !isOpen
      ensures username == None && role == None
      ensures formData == EmptyForm && errors == map[]
    {
      categories := [];
      loading := true;
      currentPage := 1;
      isOpen := false;
      username := None;
      role := None;
      formData := EmptyForm;
      errors := map[];
    }

    function TotalPagesNow(): nat
      reads this
    {
      TotalPages(|categories|)
    }

    /** The rows on screen. */
    function VisibleRows(): seq<CategoryApi.Category>
      reads this
    {
      Page(categories, currentPage)
    }

    /** "Add Category" and the edit buttons render only for an admin. */
    function AdminControlsShown(): bool
      reads this
    {
      role == Some(AdminRole)
    }

    /** `loadProjectCategories`: the projected list replaces the old one on
        success and the old list stays on failure; loading ends false. */
    method LoadProjectCategories<E>(browser: Session.Browser, outcome: Outcome<seq<CategoryApi.ApiCategory>, E>)
      modifies this`loading, this`categories, browser`redirectedToLogin
      ensures !loading
      ensures outcome.Ok? ==> categories == CategoryApi.FormatCategories(outcome.body)
      ensures outcome.Err? ==> categories == old(categories)
      ensures browser.redirectedToLogin == (old(browser.redirectedToLogin) || Session.AuthHeaders(browser.storage).None?)
    {
      loading := true;
      var effect := CategoryApi.FetchProjectCategory(browser.storage, outcome);
      if effect.redirectToLogin {
        browser.RedirectToLogin();
      }
      if effect.result.Ok? {
        categories := effect.result.body;
      }
      loading := false;
    }

    /** The mount effect: load the list, then take the user name and role from storage. */
    method Mount<E>(browser: Session.Browser, outcome: Outcome<seq<CategoryApi.ApiCategory>, E>)
      requires Valid()
      modifies this, browser`redirectedToLogin
      ensures Valid()
      ensures !loading
      ensures outcome.Ok? ==> categories == CategoryApi.FormatCategories(outcome.body)
      ensures outcome.Err? ==> categories == old(categories)
      ensures username == Session.GetItem(browser.storage, Session.UsernameKey)
      ensures role == Session.GetItem(browser.storage, Session.RoleKey)
      ensures currentPage == old(currentPage) && isOpen == old(isOpen)
      ensures formData == old(formData) && errors == old(errors)
      ensures browser.redirectedToLogin == (old(browser.redirectedToLogin) || Session.AuthHeaders(browser.storage).None?)
    {
      LoadProjectCategories(browser, outcome);
      username := Session.GetItem(browser.storage, Session.UsernameKey);
      role := Session.GetItem(browser.storage, Session.RoleKey);
    }

    /** A click on Previous; a disabled button does nothing. */
    method ClickPrevious()
      requires Valid()
      modifies this`currentPage
      ensures Valid()
      ensures PreviousDisabled(old(currentPage)) ==> currentPage == old(currentPage)
      ensures !PreviousDisabled(old(currentPage)) ==> currentPage == Previous(old(currentPage))
    {
      if !PreviousDisabled(currentPage) {
        currentPage := Previous(currentPage);
      }
    }

    /** A click on Next; a disabled button does nothing. */
    method ClickNext()
      requires Valid()
      modifies this`currentPage
      ensures Valid()
      ensures CategoryNextDisabled(old(currentPage), TotalPagesNow()) ==> currentPage == old(currentPage)
      ensures !CategoryNextDisabled(old(currentPage), TotalPagesNow()) ==> currentPage == Next(old(currentPage), TotalPagesNow())
    {
      if !CategoryNextDisabled(currentPage, TotalPagesNow()) {
        currentPage := Next(currentPage, TotalPagesNow());
      }
    }

    /** `handleChange`: set one form field and drop that field's error only. */
    method HandleChange(name: string, value: string)
      requires Valid()
      modifies this`formData, this`errors
      ensures Valid()
      ensures formData == old(formData)[name := value]
      ensures errors == old(errors) - {name}
    {
      formData := formData[name := value];
      errors := errors - {name};
    }

    /** "Add Category": clear the form and the errors, open the modal. */
    method OpenAddModal()
      requires Valid() && AdminControlsShown()
      modifies this`formData, this`errors, this`isOpen
      ensures Valid()
      ensures formData == EmptyForm && errors == map[] && isOpen
    {
      formData := EmptyForm;
      errors := map[];
      isOpen := true;
    }

    /** "Cancel": close the modal and clear the errors; the form keeps its text. */
    method Cancel()
      requires Valid()
      modifies this`errors, this`isOpen
      ensures Valid()
      ensures errors == map[] && !isOpen
    {
      isOpen := false;
      errors := map[];
    }

    /** `handleSubmit`: post the form as a category with id 0; the returned
        category is appended, the form reset and the modal closed. A failure
        with a response body replaces the errors with it and leaves the rows, form
        and modal as they were. Without an access token, or on a 401, the user is
        sent to `/login`. */
    method HandleSubmit(browser: Session.Browser, outcome: Outcome<CategoryApi.Category, FieldErrors>)
      returns (request: CategoryApi.NewCategory)
      requires Valid()
      modifies this`categories, this`formData, this`errors, this`isOpen, browser`redirectedToLogin
      ensures Valid()
      ensures request == CategoryApi.NewCategory(0, old(formData)[NameField], old(formData)[DescriptionField])
      ensures outcome.Ok? ==>
        && categories == old(categories) + [outcome.body]
        && formData == EmptyForm && !isOpen && errors == map[]
      ensures outcome.Err? ==>
        && categories == old(categories) && formData == old(formData) && isOpen == old(isOpen)
        && errors == (match ResponseData(outcome.error) case Some(body) => body case None => map[])
      ensures browser.redirectedToLogin ==
        (old(browser.redirectedToLogin) || Session.AuthHeaders(browser.storage).None?
         || (outcome.Err? && IsUnauthorized(outcome.error)))
    {
      errors := map[];
      request := CategoryApi.NewCategory(0, formData[NameField], formData[DescriptionField]);
      var effect := CategoryApi.CreateProjectCategory(browser.storage, outcome);
      if effect.redirectToLogin {
        browser.RedirectToLogin();
      }
      match effect.result {
        case Ok(created) =>
          categories := categories + [created];
          formData := EmptyForm;
          isOpen := false;
        case Err(e) =>
          var data := ResponseData(e);
          if data.Some? {
            errors := data.value;
          }
      }
    }
  }

  /** Adding a category to a list of 7k leaves every existing page as it was, and
      the new category shows as the last row of the last page. */
  lemma {:induction false} CreatedCategoryShowsOnLastPage(categories: seq<CategoryApi.Category>, created: CategoryApi.Category, page: int)
    requires 1 <= page <= TotalPages(|categories|) && |categories| % PageSize == 0
    ensures Page(categories + [created], page) == Page(categories, page)
    ensures TotalPages(|categories| + 1) == TotalPages(|categories|) + 1
    ensures Page(categories + [created], TotalPages(|categories| + 1)) == [created]
  {
    var k := |categories| / PageSize;
    assert |categories| == k * PageSize;
    FullPagesCount(k);
    AppendKeepsFullPages(categories, created, page);
    var t := categories + [created];
    var last := Page(t, k + 1);
    assert StartIndex(k + 1) == |categories|;
    assert |last| == 1;
  }
}
