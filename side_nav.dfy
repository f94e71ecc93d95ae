/** The side navigation: two fixed links, then, once the category list has
    loaded and is non-empty, one link per category to its projects page with
    the category's name capitalized. */
module SideNav {
  import opened Common
  import Session
  import CategoryApi

  const UsersPath := "/users"
  const CategoryPath := "/project-category"
  const CategoryProjectsPathPrefix := "/project-based-on-category/"
  const FailedCategoryListLabel := "Failed to fetch category list:"

  /** `text.charAt(0).toUpperCase() + text.slice(1)`, on ASCII. */
  function Capitalize(text: string): (r: string)
    ensures |r| == |text|
    ensures text != "" ==> r[0] == ToUpper(text[0]) && r[1..] == text[1..]
  {
    if text == "" then "" else [ToUpper(text[0])] + text[1..]
  }

  /** Only the first character can change, and only a lower-case letter does;
      the result starts with no lower-case letter, and capitalizing twice is
      capitalizing once. */
  lemma {:induction false} CapitalizeProperties(text: string)
    ensures Capitalize("") == ""
    ensures text != "" ==> !IsLower(Capitalize(text)[0])
    ensures text != "" && !IsLower(text[0]) ==> Capitalize(text) == text
    ensures forall i :: 1 <= i < |text| ==> Capitalize(text)[i] == text[i]
    ensures Capitalize(Capitalize(text)) == Capitalize(text)
  {
    if text != "" {
      var once := Capitalize(text);
      assert once[1..] == text[1..];
      assert once == [once[0]] + once[1..];
      assert !IsLower(text[0]) ==> [text[0]] + text[1..] == text;
      forall i | 1 <= i < |text|
        ensures once[i] == text[i]
      {
        assert once[i] == once[1..][i - 1];
      }
    }
  }

  datatype Link = Link(href: string, text: string)

  /** One link per category, in list order, to `/project-based-on-category/<id>`. */
  function CategoryLinks(categories: seq<CategoryApi.CategoryName>): (links: seq<Link>)
    ensures |links| == |categories|
    ensures forall i :: 0 <= i < |categories| ==> |links[i].href| > |CategoryProjectsPathPrefix|
    ensures forall i :: 0 <= i < |categories| ==>
      links[i].text == Capitalize(categories[i].name)
      && links[i].href[..|CategoryProjectsPathPrefix|] == CategoryProjectsPathPrefix
      && links[i].href[|CategoryProjectsPathPrefix|..] == IntToString(categories[i].id)
  {
    seq(|categories|, i requires 0 <= i < |categories| =>
      Link(CategoryProjectsPathPrefix + IntToString(categories[i].id), Capitalize(categories[i].name)))
  }

  datatype View = View(staticLinks: seq<Link>, categoryLinks: Option<seq<Link>>)

  /** `!loading && categoryList.length > 0 && (...)`. */
  function ViewOf(loading: bool, categories: seq<CategoryApi.CategoryName>): (v: View)
    ensures |v.staticLinks| == 2
    ensures v.categoryLinks.Some? <==> !loading && |categories| > 0
    ensures v.categoryLinks.Some? ==> v.categoryLinks.value == CategoryLinks(categories)
  {
    View([Link(UsersPath, "Users"), Link(CategoryPath, "Project Category")],
         if !loading && |categories| > 0 then Some(CategoryLinks(categories)) else None)
  }

  class SideNavState {
    var categoryList: seq<CategoryApi.CategoryName>
    var loading: bool

    constructor ()
      ensures categoryList == [] && loading
    {
      categoryList := [];
      loading := true;
    }

    function Render(): View
      reads this
    {
      ViewOf(loading, categoryList)
    }

    /** `fetchCategoryList`: an ok response replaces the list; a non-ok
        response or a rejection is logged and keeps it; loading ends false. */
    method FetchCategoryList(browser: Session.Browser, outcome: FetchOutcome<seq<CategoryApi.CategoryName>>)
      returns (logs: seq<string>)
      modifies this, browser`redirectedToLogin
      ensures !loading
      ensures outcome.Fetched? && outcome.ok ==> categoryList == outcome.body && logs == []
      ensures !(outcome.Fetched? && outcome.ok) ==> categoryList == old(categoryList) && logs == [FailedCategoryListLabel]
      ensures browser.redirectedToLogin == (old(browser.redirectedToLogin) || Session.AuthHeaders(browser.storage).None?)
    {
      var _ := browser.GetAuthHeaders();
      if outcome.Fetched? && outcome.ok {
        categoryList := outcome.body;
        logs := [];
      } else {
        logs := [FailedCategoryListLabel];
      }
      loading := false;
    }
  }

  /** Two categories with different ids link to different pages. */
  lemma {:induction false} CategoryLinksAreDistinct(categories: seq<CategoryApi.CategoryName>, i: int, j: int)
    requires 0 <= i < |categories| && 0 <= j < |categories| && categories[i].id != categories[j].id
    ensures CategoryLinks(categories)[i].href != CategoryLinks(categories)[j].href
  {
    var links := CategoryLinks(categories);
    if links[i].href == links[j].href {
      IntToStringIsInjective(categories[i].id, categories[j].id);
    }
  }
}
