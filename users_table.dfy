/** The users table page: `loadUsers` rebuilds each flattened user into the
    nested shape the table renders, the page arithmetic is the category table's
    except that Next is disabled only on the last page, and a successful submit
    resets the form and reloads the list. */
module UsersTable {
  import opened Common
  import Session
  import UsersApi
  import opened Pagination

  const AdminRole := "admin"
  const UsernameField := "username"
  const EmailField := "email"
  const PasswordField := "password"
  const RoleField := "role"

  /** `{ username: "", email: "", password: "", role: "" }` */
  const EmptyForm: map<string, string> :=
    map[UsernameField := "", EmailField := "", PasswordField := "", RoleField := ""]

  /** The role values the form's select offers, the empty placeholder first. */
  const RoleOptions: seq<string> := ["", "admin", "checker", "marker"]

  /** A row of the table. `updatedAt` is read from a flattened user, which has
      no such field, so it is always undefined. */
  datatype LocalUser = LocalUser(
    id: int,
    user: UsersApi.NestedUser,
    role: string,
    createdAt: string,
    updatedAt: Option<string>)

  function ToLocalUser(u: UsersApi.User): (l: LocalUser)
    ensures l.id == u.id && l.user.id == u.id
    ensures l.user.username == u.username && l.user.email == u.email
    ensures l.role == u.role && l.createdAt == u.createdAt && l.updatedAt == None
  {
    LocalUser(u.id, UsersApi.NestedUser(u.id, u.username, u.email), u.role, u.createdAt, None)
  }

  /** `data.map(...)` in `loadUsers`. */
  function ToLocalUsers(users: seq<UsersApi.User>): (r: seq<LocalUser>)
    ensures |r| == |users|
    ensures forall i :: 0 <= i < |users| ==> r[i] == ToLocalUser(users[i])
  {
    if users == [] then [] else [ToLocalUser(users[0])] + ToLocalUsers(users[1..])
  }

  /** What the table shows for the backend's records: one row per record in
      order; the nested id is the profile's id, not the nested user's, and the
      update time is lost. */
  lemma {:induction false} RowsFromRecords(records: seq<UsersApi.ApiUser>)
    ensures var rows := ToLocalUsers(UsersApi.FlattenUsers(records));
            && |rows| == |records|
            && forall i :: 0 <= i < |records| ==>
                 && rows[i].id == records[i].id && rows[i].user.id == records[i].id
                 && rows[i].user.username == records[i].user.username
                 && rows[i].user.email == records[i].user.email
                 && rows[i].role == records[i].role && rows[i].createdAt == records[i].createdAt
                 && rows[i].updatedAt == None
  {
    var flat := UsersApi.FlattenUsers(records);
    var rows := ToLocalUsers(flat);
    forall i | 0 <= i < |records|
      ensures rows[i] == ToLocalUser(UsersApi.FlattenUser(records[i]))
    {
      assert flat[i] == UsersApi.FlattenUser(records[i]);
    }
  }

  class UsersTablePage {
    var users: seq<LocalUser>
    var loading: bool
    var currentPage: int
    var isOpen: bool
    var formData: map<string, string>
    var errors: FieldErrors
    var username: Option<string>
    var role: Option<string>

    /** The page never goes below 0 (Next can reach 0 on an empty list) and the
        form always has its four fields. */
    predicate Valid()
      reads this
    {
      currentPage >= 0
      && UsernameField in formData && EmailField in formData
      && PasswordField in formData && RoleField in formData
    }

    constructor ()
      ensures Valid()
      ensures users == [] && loading && currentPage == 1 && !isOpen
      ensures formData == EmptyForm && errors == map[]
      ensures username == None && role == None
    {
      users := [];
      loading := true;
      currentPage := 1;
      isOpen := false;
      formData := EmptyForm;
      errors := map[];
      username := None;
      role := None;
    }

    function TotalPagesNow(): nat
      reads this
    {
      TotalPages(|users|)
    }

    function VisibleRows(): seq<LocalUser>
      reads this
    {
      Page(users, currentPage)
    }

    /** "Add member" renders only for an admin. */
    function AddMemberShown(): bool
      reads this
    {
      role == Some(AdminRole)
    }

    /** `loadUsers`: the rebuilt rows replace the list on success, the list stays
        on failure, and loading ends false either way. */
    method LoadUsers<E>(browser: Session.Browser, outcome: Outcome<seq<UsersApi.ApiUser>, E>)
      modifies this`users, this`loading, browser`redirectedToLogin
      ensures !loading
      ensures outcome.Ok? ==> users == ToLocalUsers(UsersApi.FlattenUsers(outcome.body))
      ensures outcome.Err? ==> users == old(users)
      ensures browser.redirectedToLogin == (old(browser.redirectedToLogin) || Session.AuthHeaders(browser.storage).None?)
    {
      var effect := UsersApi.FetchUsers(browser.storage, outcome);
      if effect.redirectToLogin {
        browser.RedirectToLogin();
      }
      if effect.result.Ok? {
        users := ToLocalUsers(effect.result.body);
      }
      loading := false;
    }

    /** The mount effect: load the users, then take the user name and role from storage. */
    method Mount<E>(browser: Session.Browser, outcome: Outcome<seq<UsersApi.ApiUser>, E>)
      requires Valid()
      modifies this, browser`redirectedToLogin
      ensures Valid()
      ensures !loading
      ensures outcome.Ok? ==> users == ToLocalUsers(UsersApi.FlattenUsers(outcome.body))
      ensures outcome.Err? ==> users == old(users)
      ensures username == Session.GetItem(browser.storage, Session.UsernameKey)
      ensures role == Session.GetItem(browser.storage, Session.RoleKey)
      ensures currentPage == old(currentPage) && isOpen == old(isOpen)
      ensures formData == old(formData) && errors == old(errors)
      ensures browser.redirectedToLogin == (old(browser.redirectedToLogin) || Session.AuthHeaders(browser.storage).None?)
    {
      LoadUsers(browser, outcome);
      username := Session.GetItem(browser.storage, Session.UsernameKey);
      role := Session.GetItem(browser.storage, Session.RoleKey);
    }

    method ClickPrevious()
      requires Valid()
      modifies this`currentPage
      ensures Valid()
      ensures PreviousDisabled(old(currentPage)) ==> currentPage == old(currentPage)
      ensures !PreviousDisabled(old(currentPage)) ==> currentPage == Previous(old(currentPage))
    {
      if !PreviousDisabled(currentPage) {
        currentPage := Previous(currentPage);
      }
    }

    /** A click on Next, enabled everywhere but on page `totalPages`. */
    method ClickNext()
      requires Valid()
      modifies this`currentPage
      ensures Valid()
      ensures UsersNextDisabled(old(currentPage), TotalPagesNow()) ==> currentPage == old(currentPage)
      ensures !UsersNextDisabled(old(currentPage), TotalPagesNow()) ==> currentPage == Next(old(currentPage), TotalPagesNow())
    {
      if !UsersNextDisabled(currentPage, TotalPagesNow()) {
        currentPage := Next(currentPage, TotalPagesNow());
      }
    }

    /** `handleChange`: set one form field and drop that field's error only. */
    method HandleChange(name: string, value: string)
      requires Valid()
      modifies this`formData, this`errors
      ensures Valid()
      ensures formData == old(formData)[name := value]
      ensures errors == old(errors) - {name}
    {
      formData := formData[name := value];
      errors := errors - {name};
    }

    /** "Add member" only opens the modal; the form keeps what it had. */
    method OpenAddModal()
      requires AddMemberShown()
      modifies this`isOpen
      ensures isOpen
    {
      isOpen := true;
    }

    /** "Cancel": close the modal and clear the errors. */
    method Cancel()
      modifies this`isOpen, this`errors
      ensures !isOpen && errors == map[]
    {
      isOpen := false;
      errors := map[];
    }

    /** `handleSubmit`: post the four fields; on success reset the form, close
        the modal and reload the list; on failure with a response body take its
        field errors. */
    method HandleSubmit<E>(browser: Session.Browser, created: Outcome<UsersApi.User, FieldErrors>,
                           reload: Outcome<seq<UsersApi.ApiUser>, E>)
      returns (request: UsersApi.CreateUserRequest)
      requires Valid()
      modifies this`users, this`loading, this`formData, this`errors, this`isOpen, browser`redirectedToLogin
      ensures Valid()
      ensures request == UsersApi.CreateUserRequest(old(formData)[UsernameField], old(formData)[EmailField],
                                                    old(formData)[PasswordField], old(formData)[RoleField])
      ensures created.Ok? ==>
        && formData == EmptyForm && !isOpen && errors == map[] && !loading
        && (reload.Ok? ==> users == ToLocalUsers(UsersApi.FlattenUsers(reload.body)))
        && (reload.Err? ==> users == old(users))
        && browser.redirectedToLogin == (old(browser.redirectedToLogin) || Session.AuthHeaders(browser.storage).None?)
      ensures created.Err? ==>
        && users == old(users) && loading == old(loading)
        && formData == old(formData) && isOpen == old(isOpen)
        && errors == (match ResponseData(created.error) case Some(body) => body case None => map[])
        && browser.redirectedToLogin == old(browser.redirectedToLogin)
    {
      errors := map[];
      request := UsersApi.CreateUserRequest(formData[UsernameField], formData[EmailField],
                                            formData[PasswordField], formData[RoleField]);
      var effect := UsersApi.CreateUser(created);
      match effect.result {
        case Ok(_) =>
          formData := EmptyForm;
          isOpen := false;
          LoadUsers(browser, reload);
        case Err(e) =>
          var data := ResponseData(e);
          if data.Some? {
            errors := data.value;
          }
      }
    }
  }

  /** A member created with the form's "marker" role never passes the
      backend's choices, which spell it 'maker'. */
  lemma {:induction false} MarkerOptionIsNotABackendRole()
    ensures Session.MarkerRole in RoleOptions
    ensures Session.MarkerRole !in Session.BackendRoles
  {
    Session.NoBackendRoleShowsCreateProject("maker");
    assert RoleOptions[3] == Session.MarkerRole;
  }
}
