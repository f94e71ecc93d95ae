# CDF monitoring system: a Dafny model of its core

The CDF monitoring system tracks community development projects. A Django REST
backend stores users with roles, project categories and projects with their
status history. A Next.js/React frontend lets staff log in, list and create
categories, users and projects, follow a project's progress and post status
updates with supporting files, and shows dashboard counts and a progress chart.

This project models the core of both halves and proves properties of the model.

- **Backend** (`serializers.dfy`, `views.dfy`):
  - the password rules;
  - the lower-casing and duplicate check on category names;
  - the date-order check on projects;
  - the `create_user` and `user_login` views, with the ORM, `authenticate` and
    the token factory as inputs.
- **Session** (`session.dfy`, `login_form.dfy`):
  - `localStorage` as a map;
  - `getAuthHeaders` and its redirect to `/login`;
  - the login client and form;
  - the navbar's guard, logout and role-dependent links.
- **Resource clients** (`clients.dfy`, `projects_api.dfy`, `category_api.dfy`,
  `users_api.dfy`, `redirect_rules.dfy`):
  - each axios client is a function of the stored session and of how the
    request settles;
  - it yields what is returned or rethrown, the headers sent, whether the
    browser is sent to `/login`, and what is logged.
- **Pages** (`pagination.dfy`, `category_table.dfy`, `users_table.dfy`,
  `project_detail.dfy`, `project_list.dfy`, `category_projects.dfy`,
  `home_cards.dfy`, `graph.dfy`, `side_nav.dfy`):
  - each stateful component is a class whose fields are its `useState` slots;
  - each handler or effect is a method that states the new state;
  - what a component renders is a function of that state.

A server answer is never computed: it is a parameter of the handler that awaits
it.
- `Outcome` is an axios call that resolves with a body or rejects with an
  `HttpError` (a response with a status and body, a request without a response,
  or a setup error).
- `FetchOutcome` is a `fetch` call that yields a response with its `ok` flag, or
  throws.

Every client that asks for the auth headers sends the user to `/login` when
no access token is stored. On a 401 answer, only `getAllProjects` and
`createProjectCategory` do the same; the other clients only rethrow
(`RedirectRules`).

Behaviour the model keeps as written:
- the navbar tests for the role `"marker"`, while the backend's role is
  `"maker"`;
- the login client posts `email` while the view reads `username`;
- the users table's Next button leads to page 0 on an empty list;
- the dashboard cards replace their counts wholesale, so an omitted status
  shows no number;
- a script that failed to load stays in the document, so the next load takes
  it as loaded;
- the by-category page shows its "no projects" row when the thrown message is
  empty.

## Model

| member | source | states |
|---|---|---|
| Common.OrElse | frontend/cdf-monitoring-system/componets/projects/project-table.tsx:58-65 | `o || fallback` gives the string when it is present and non-empty, the fallback otherwise |
| Common.ResponseData | frontend/cdf-monitoring-system/componets/project-category/project-category-table.tsx:82-83 | `error.response?.data` is present only for an error that carries a response, and is that response's body |
| Common.ToUpper | frontend/cdf-monitoring-system/componets/side-nav.tsx:7 | upper-casing leaves no lower-case letter and changes nothing else |
| Common.LowerString | backend/tracker/api/serializer/serializers.py:89 | `str.lower()` keeps the length and lower-cases each character |
| Common.LowerStringIsLowerCase | backend/tracker/api/serializer/serializers.py:93 | a lowered string has no upper-case letter, and lowering is idempotent |
| Common.IntToString | frontend/cdf-monitoring-system/componets/projects/project-table.tsx:82 | a number's text is non-empty, all digits after an optional '-', and starts with '-' exactly for negatives |
| Common.IntToStringIsInjective | frontend/cdf-monitoring-system/componets/side-nav.tsx:65 | different numbers never print the same text |
| Serializers.Search | backend/tracker/api/serializer/serializers.py:32-38 | `re.search` with a one-character class finds a match iff some character of the value is in the class |
| Serializers.ValidatePassword | backend/tracker/api/serializer/serializers.py:29-40 | the password is accepted iff it has 8 characters, an upper-case letter, a lower-case letter, a digit and a character outside `\w` and `\s`; an accepted value is returned unchanged |
| Serializers.PasswordReportsFirstBrokenRule | backend/tracker/api/serializer/serializers.py:30-39 | a refused password is reported with the message of the first broken rule, in the order length, upper, lower, digit, special |
| Serializers.UnderscoreIsNotSpecial | backend/tracker/api/serializer/serializers.py:38 | a password whose only non-alphanumeric characters are underscores is refused for lacking a special character |
| Serializers.LowerCaseAttrs | backend/tracker/api/serializer/serializers.py:86-90 | the loop over the attributes leaves exactly the lower-cased attribute map |
| Serializers.LowerCasedProperties | backend/tracker/api/serializer/serializers.py:86-90 | lower-casing keeps every key, keeps non-string values, leaves every string value lower-case, and is idempotent |
| Serializers.ExistsIgnoringCase | backend/tracker/api/serializer/serializers.py:94 | the `name__iexact` lookup finds a category iff some stored name equals the value ignoring case |
| Serializers.ValidateName | backend/tracker/api/serializer/serializers.py:92-96 | a name is refused with the duplicate message iff it matches a stored name ignoring case; otherwise its lower-case form is kept |
| Serializers.AcceptedNameThenDuplicate | backend/tracker/api/serializer/serializers.py:92-96 | once an accepted name is stored, the same name in any case is refused |
| Serializers.ValidateProject | backend/tracker/api/serializer/serializers.py:119-124 | the project is refused iff both dates are given and the start is later than the end; otherwise the attributes come back unchanged |
| Serializers.LaterIsStrictTotalOrder | backend/tracker/api/serializer/serializers.py:122 | the date comparison is irreflexive, transitive and total on distinct dates |
| Serializers.ExactlyOneOrderAccepted | backend/tracker/api/serializer/serializers.py:119-124 | with two different dates exactly one of the two orders is accepted; equal dates are always accepted |
| Views.ErrorsBody | backend/tracker/api/views.py:21 | the error body has exactly the invalid fields as keys, each with its messages |
| Views.CreateUser | backend/tracker/api/views.py:16-21 | a valid request is saved and answered 201 with the success message; an invalid one saves nothing and is answered 400 with exactly the field errors |
| Views.RoleOf | backend/tracker/api/views.py:33-36 | the role is the profile's role, or "unknown" when the user has no profile |
| Views.UserLogin | backend/tracker/api/views.py:26-43 | good credentials give 200 with exactly refresh, access, username and role; bad ones give 401 with only the "Invalid credentials" error |
| Views.LoginResponseShapes | backend/tracker/api/views.py:37-43 | a login response has the four session fields iff it is 200, and only the error field iff it is 401 |
| Session.AuthHeaders | frontend/cdf-monitoring-system/utils/users-auth.ts:1-14 | no config iff the stored access token is missing or empty; otherwise exactly one Authorization header, "Bearer " followed by the token |
| Session.AuthHeadersDependOnlyOnAccess | frontend/cdf-monitoring-system/utils/users-auth.ts:2 | two storages with the same access entry give the same headers, and the header's tail is the token |
| Session.StoreLoginWritesOnlySessionKeys | frontend/cdf-monitoring-system/api/login/login.tsx:20-25 | a login writes the four session keys from the response and leaves every other key as it was |
| Session.LoginThenLogout | frontend/cdf-monitoring-system/componets/dashboard/navbar.tsx:25-31 | logging out after a login leaves the storage as logging out before it would, with no session key left and every other key kept |
| Session.GuardsFollowLoginAndLogout | frontend/cdf-monitoring-system/componets/dashboard/navbar.tsx:12-23 | after a login with non-empty name and role the navbar guard passes and the token gives the Authorization header; after a logout both fail |
| Session.GuardsAreIndependent | frontend/cdf-monitoring-system/utils/users-auth.ts:2-7 | some storage passes the navbar guard yet yields no auth headers, since the two guards read different keys |
| Session.Browser.GetAuthHeaders | frontend/cdf-monitoring-system/utils/users-auth.ts:1-14 | returns the headers the storage allows and redirects to /login exactly when there are none |
| Session.LoginRequestBody | frontend/cdf-monitoring-system/api/login/login.tsx:15-18 | the login body has exactly the keys email and password |
| Session.LoginUser | frontend/cdf-monitoring-system/api/login/login.tsx:11-28 | the request carries email and password; a successful answer is stored key by key and returned, a failure leaves the storage as it was and is rethrown |
| Session.LoginBodyLacksUsername | frontend/cdf-monitoring-system/api/login/login.tsx:15-18 | the body the client posts gives the login view no username, only the password |
| Session.NoBackendRoleShowsCreateProject | frontend/cdf-monitoring-system/componets/dashboard/navbar.tsx:74 | no role the backend can report is "marker", so the Create Project link never shows |
| Session.Navbar.Mount | frontend/cdf-monitoring-system/componets/dashboard/navbar.tsx:12-23 | with a truthy stored name and role the navbar takes them and does not redirect; otherwise it redirects and keeps its state |
| Session.Navbar.Logout | frontend/cdf-monitoring-system/componets/dashboard/navbar.tsx:25-31 | the four session keys are removed, nothing else, and the browser goes to /login |
| Session.LoginMountLogoutMount | frontend/cdf-monitoring-system/componets/dashboard/navbar.tsx:12-31 | after a login with non-empty fields the navbar shows the badge without redirecting; after logout it redirects and shows none |
| LoginForm.FailureMessage | frontend/cdf-monitoring-system/componets/login/form.tsx:23 | the message is the server's truthy `error` field when the response has one, otherwise "Login failed."; it is never empty |
| LoginForm.RejectedLoginMessage | frontend/cdf-monitoring-system/componets/login/form.tsx:22-23 | a login refused by the backend shows "Invalid credentials"; a response without an error field shows "Login failed." |
| LoginForm.LoginFormState.constructor | frontend/cdf-monitoring-system/componets/login/form.tsx:7-10 | the form starts with empty fields, no message and not loading |
| LoginForm.LoginFormState.BeginSubmit | frontend/cdf-monitoring-system/componets/login/form.tsx:15-16 | submitting sets loading and clears the message |
| LoginForm.LoginFormState.HandleSubmit | frontend/cdf-monitoring-system/componets/login/form.tsx:13-27 | success stores the session and navigates to /; failure shows FailureMessage; loading ends false |
| Clients.DetailedErrorLabel | frontend/cdf-monitoring-system/api/projects/api.ts:84-90 | the log line names a response error, a request error or a general error, one for each kind of failure |
| Clients.AuthConfig | frontend/cdf-monitoring-system/api/projects/api.ts:58 | a client's config is the auth headers, and building it redirects exactly when there are none |
| ProjectsApi.GetAllProjects | frontend/cdf-monitoring-system/api/projects/api.ts:56-71 | the outcome is returned or rethrown unchanged; it redirects iff the token is missing or the answer is 401; it logs the response or the error, but not a 401 |
| ProjectsApi.CreateProject | frontend/cdf-monitoring-system/api/projects/api.ts:74-93 | the outcome is returned or rethrown unchanged; it redirects only for a missing token; a failure is logged with the label of its kind |
| CategoryApi.FormatCategory | frontend/cdf-monitoring-system/api/project-category/api.tsx:40-44 | each category keeps its id, name and description |
| CategoryApi.FormatCategories | frontend/cdf-monitoring-system/api/project-category/api.tsx:40-44 | the list keeps its length and order, and each item is projected |
| CategoryApi.FormatCategoriesAppend | frontend/cdf-monitoring-system/api/project-category/api.tsx:40-44 | projecting a concatenation gives the concatenation of the projections |
| CategoryApi.FormatCategoriesIgnoresExtra | frontend/cdf-monitoring-system/api/project-category/api.tsx:40-44 | lists that agree on id, name and description project to the same list |
| CategoryApi.FetchProjectCategory | frontend/cdf-monitoring-system/api/project-category/api.tsx:35-51 | success gives the projected list, failure is logged and rethrown; it redirects only for a missing token |
| CategoryApi.CreateProjectCategory | frontend/cdf-monitoring-system/api/project-category/api.tsx:54-78 | the outcome is returned or rethrown unchanged; it redirects iff the token is missing or the answer is 401, and otherwise logs "General error:" on failure |
| CategoryApi.FetchProjectCategoryByName | frontend/cdf-monitoring-system/api/project-category/api.tsx:80-91 | the body is returned unchanged or the error logged and rethrown; it redirects only for a missing token |
| UsersApi.FlattenUser | frontend/cdf-monitoring-system/api/users/users.tsx:31-37 | a flat user keeps the record's id, role and creation time and the nested user's name and email |
| UsersApi.FlattenUsers | frontend/cdf-monitoring-system/api/users/users.tsx:31-37 | the list keeps its length and order, and each record is flattened |
| UsersApi.FlattenUsersDropsUpdateTime | frontend/cdf-monitoring-system/api/users/users.tsx:31-37 | records that differ only in update time and nested id flatten to the same list |
| UsersApi.FetchUsers | frontend/cdf-monitoring-system/api/users/users.tsx:26-44 | success gives the flattened list, failure is logged and rethrown; it redirects only for a missing token |
| UsersApi.CreateUser | frontend/cdf-monitoring-system/api/users/users.tsx:62-84 | only a Content-Type header is sent, with no Authorization; it never redirects; a failure is logged with the label of its kind and rethrown |
| RedirectRules.UnauthorizedRedirectsOnlyInTwoClients | frontend/cdf-monitoring-system/api/projects/api.ts:63-70 | with a token stored, a failure redirects iff it is a 401 from getAllProjects or createProjectCategory, and all seven clients rethrow the error |
| RedirectRules.MissingTokenRedirectsAuthorizedClients | frontend/cdf-monitoring-system/utils/users-auth.ts:4-7 | without a token, every client that asks for auth headers redirects whatever the answer, and createUser does not |
| Pagination.TotalPages | frontend/cdf-monitoring-system/componets/project-category/project-category-table.tsx:29 | `Math.ceil(n / 7)` is the fewest pages of seven that hold n rows, and is 0 only for an empty list |
| Pagination.LabelTotal | frontend/cdf-monitoring-system/componets/project-category/project-category-table.tsx:160 | "Page x of y" shows the total, or 1 when there are no pages |
| Pagination.SliceBound | frontend/cdf-monitoring-system/componets/project-category/project-category-table.tsx:91 | `slice` clamps a position to the list, counting negative positions from the end |
| Pagination.JsSlice | frontend/cdf-monitoring-system/componets/project-category/project-category-table.tsx:91 | `slice(start, end)` takes the elements from start, in order, and never more than the list holds |
| Pagination.Page | frontend/cdf-monitoring-system/componets/project-category/project-category-table.tsx:90-91 | a page shows at most seven rows; row i of page p is element RowNumber(p, i) - 1 of the list (the number of line 139); page 0 is empty |
| Pagination.PageIsSlice | frontend/cdf-monitoring-system/componets/project-category/project-category-table.tsx:90-91 | a page that starts inside the list is the slice from its first row, seven rows long or up to the end |
| Pagination.FullPagesCount | frontend/cdf-monitoring-system/componets/project-category/project-category-table.tsx:29 | a list of k full pages has k pages, and one more row makes k + 1 |
| Pagination.PagesArePrefix | frontend/cdf-monitoring-system/componets/project-category/project-category-table.tsx:90-91 | the first k pages together are the first 7k rows, or the whole list |
| Pagination.PagesPartitionList | frontend/cdf-monitoring-system/componets/project-category/project-category-table.tsx:90-91 | pages 1 to totalPages together are the list, each is non-empty, and pages past the end are empty |
| Pagination.AppendKeepsFullPages | frontend/cdf-monitoring-system/componets/project-category/project-category-table.tsx:78 | appending a row leaves every full page as it was and puts the row last on the last page |
| Pagination.Previous | frontend/cdf-monitoring-system/componets/project-category/project-category-table.tsx:165 | Previous goes back one page but never below 1 |
| Pagination.Next | frontend/cdf-monitoring-system/componets/project-category/project-category-table.tsx:172 | Next goes forward one page but never past the total |
| Pagination.CategoryNavigationStaysInRange | frontend/cdf-monitoring-system/componets/project-category/project-category-table.tsx:163-176 | in the category table an enabled button keeps the page between 1 and the shown total, and Next moves forward exactly one |
| Pagination.UsersNextOnEmptyListReachesPageZero | frontend/cdf-monitoring-system/componets/users/users-table.tsx:187-191 | in the users table, Next is enabled on page 1 of an empty list and leads to page 0, which shows no rows; the category table disables it |
| CategoryTable.CategoryTablePage.constructor | frontend/cdf-monitoring-system/componets/project-category/project-category-table.tsx:15-27 | the page starts loading, on page 1, with no rows, an empty form and no errors |
| CategoryTable.CategoryTablePage.LoadProjectCategories | frontend/cdf-monitoring-system/componets/project-category/project-category-table.tsx:31-41 | success replaces the rows with the projected list, failure keeps them; loading ends false |
| CategoryTable.CategoryTablePage.Mount | frontend/cdf-monitoring-system/componets/project-category/project-category-table.tsx:43-51 | loads the rows and copies the stored name and role, touching nothing else; without an access token it sends the user to `/login` |
| CategoryTable.CategoryTablePage.ClickPrevious | frontend/cdf-monitoring-system/componets/project-category/project-category-table.tsx:163-169 | an enabled Previous moves to the previous page; a disabled one does nothing |
| CategoryTable.CategoryTablePage.ClickNext | frontend/cdf-monitoring-system/componets/project-category/project-category-table.tsx:170-176 | an enabled Next moves to the next page; a disabled one does nothing |
| CategoryTable.CategoryTablePage.HandleChange | frontend/cdf-monitoring-system/componets/project-category/project-category-table.tsx:53-65 | sets one field and drops only that field's error |
| CategoryTable.CategoryTablePage.OpenAddModal | frontend/cdf-monitoring-system/componets/project-category/project-category-table.tsx:100-107 | for an admin, clears the form and the errors and opens the modal |
| CategoryTable.CategoryTablePage.Cancel | frontend/cdf-monitoring-system/componets/project-category/project-category-table.tsx:224-227 | closes the modal and clears the errors; the form keeps its text |
| CategoryTable.CategoryTablePage.HandleSubmit | frontend/cdf-monitoring-system/componets/project-category/project-category-table.tsx:67-88 | posts the form with id 0; success appends the created row, empties the form and closes the modal; a failure with a body shows its field errors and keeps the rows |
| CategoryTable.CreatedCategoryShowsOnLastPage | frontend/cdf-monitoring-system/componets/project-category/project-category-table.tsx:78 | after a create on a list of 7k rows, existing pages are unchanged and the new row is alone on a new last page |
| UsersTable.ToLocalUser | frontend/cdf-monitoring-system/componets/users/users-table.tsx:42-52 | a table row keeps the user's id (twice), name, email, role and creation time, and has no update time |
| UsersTable.ToLocalUsers | frontend/cdf-monitoring-system/componets/users/users-table.tsx:42-52 | the rows keep the users' length and order |
| UsersTable.RowsFromRecords | frontend/cdf-monitoring-system/componets/users/users-table.tsx:42-52 | each row is built from its own record through both mappers, in order |
| UsersTable.UsersTablePage.constructor | frontend/cdf-monitoring-system/componets/users/users-table.tsx:20-35 | the page starts loading, on page 1, with no rows, an empty form and no errors |
| UsersTable.UsersTablePage.LoadUsers | frontend/cdf-monitoring-system/componets/users/users-table.tsx:39-59 | success replaces the rows with the mapped users, failure keeps them; loading ends false |
| UsersTable.UsersTablePage.Mount | frontend/cdf-monitoring-system/componets/users/users-table.tsx:61-69 | loads the rows and copies the stored name and role, touching nothing else; without an access token it sends the user to `/login` |
| UsersTable.UsersTablePage.ClickPrevious | frontend/cdf-monitoring-system/componets/users/users-table.tsx:180-186 | an enabled Previous moves to the previous page; a disabled one does nothing |
| UsersTable.UsersTablePage.ClickNext | frontend/cdf-monitoring-system/componets/users/users-table.tsx:187-193 | an enabled Next moves to `Math.min(p + 1, totalPages)`; a disabled one does nothing |
| UsersTable.UsersTablePage.HandleChange | frontend/cdf-monitoring-system/componets/users/users-table.tsx:71-85 | sets one field and drops only that field's error |
| UsersTable.UsersTablePage.OpenAddModal | frontend/cdf-monitoring-system/componets/users/users-table.tsx:124-127 | for an admin, opens the modal |
| UsersTable.UsersTablePage.Cancel | frontend/cdf-monitoring-system/componets/users/users-table.tsx:276-279 | closes the modal and clears the errors |
| UsersTable.UsersTablePage.HandleSubmit | frontend/cdf-monitoring-system/componets/users/users-table.tsx:87-108 | posts the four form fields; success empties the form, closes the modal and reloads; a failure with a body shows its field errors |
| UsersTable.MarkerOptionIsNotABackendRole | frontend/cdf-monitoring-system/componets/users/users-table.tsx:256-259 | the form offers "marker", which is not one of the roles the backend knows |
| ProjectDetail.ProgressColor | frontend/cdf-monitoring-system/componets/projects-view/main-section.tsx:72-76 | green iff progress is at least 80, yellow iff from 50 below 80, red iff below 50 |
| ProjectDetail.ProgressColorIsMonotone | frontend/cdf-monitoring-system/componets/projects-view/main-section.tsx:72-76 | more progress never gives a colour lower in red, yellow, green |
| ProjectDetail.StatusPayload | frontend/cdf-monitoring-system/componets/projects-view/main-section.tsx:123-133 | the payload is project, status, file type and action message, then one supporting_files field per picked file |
| ProjectDetail.PayloadCarriesPickedFiles | frontend/cdf-monitoring-system/componets/projects-view/main-section.tsx:129-133 | the files after the four fixed fields are exactly the picked files, in order, and no files add no fields |
| ProjectDetail.BuildStatusPayload | frontend/cdf-monitoring-system/componets/projects-view/main-section.tsx:123-133 | the loop builds exactly the specified payload |
| ProjectDetail.MergeUpdate | frontend/cdf-monitoring-system/componets/projects-view/main-section.tsx:146-154 | a loaded project takes the update's status and gets the update appended to its history; no project stays none |
| ProjectDetail.MergeAllAppendsHistory | frontend/cdf-monitoring-system/componets/projects-view/main-section.tsx:146-154 | after several updates the history has all of them in order, and the status is the last one's |
| ProjectDetail.IndexOf | frontend/cdf-monitoring-system/componets/projects-view/main-section.tsx:231 | the first position of a character, or none when it does not occur |
| ProjectDetail.ReplaceFirstUnderscore | frontend/cdf-monitoring-system/componets/projects-view/main-section.tsx:231 | `replace('_', ' ')` changes only the first underscore, and nothing when there is none |
| ProjectDetail.IndexOfIsFirst | frontend/cdf-monitoring-system/componets/projects-view/main-section.tsx:231 | the position found holds the character and no earlier position does |
| ProjectDetail.ReplaceAtFirst | frontend/cdf-monitoring-system/componets/projects-view/main-section.tsx:231 | replacing changes exactly the first occurrence and keeps the length |
| ProjectDetail.OnHoldDisplay | frontend/cdf-monitoring-system/componets/projects-view/main-section.tsx:231 | "on_hold" is shown as "on hold" |
| ProjectDetail.InProgressDisplay | frontend/cdf-monitoring-system/componets/projects-view/main-section.tsx:231 | "in_progress" is shown as "in progress" |
| ProjectDetail.SecondUnderscoreStays | frontend/cdf-monitoring-system/componets/projects-view/main-section.tsx:231 | a status with two underscores keeps the second one |
| ProjectDetail.JoinedStatusDisplay | frontend/cdf-monitoring-system/componets/projects-view/main-section.tsx:231 | a word without underscore, an underscore and a rest are shown with a space in place of that underscore and the rest untouched |
| ProjectDetail.ProjectDetailPage.constructor | frontend/cdf-monitoring-system/componets/projects-view/main-section.tsx:83-91 | the page starts with no project, PDF as file type, the modal closed and empty fields |
| ProjectDetail.ProjectDetailPage.FetchProject | frontend/cdf-monitoring-system/componets/projects-view/main-section.tsx:93-109 | with a project id, success loads the project and preselects its status; a failure or no id leaves the project and status as they were; with an id and no access token the user is sent to `/login` |
| ProjectDetail.ProjectDetailPage.OpenModal | frontend/cdf-monitoring-system/componets/projects-view/main-section.tsx:278-282 | preselects the project's status, clears the error and opens the modal |
| ProjectDetail.ProjectDetailPage.SelectStatus | frontend/cdf-monitoring-system/componets/projects-view/main-section.tsx:443 | the select sets the new status |
| ProjectDetail.ProjectDetailPage.EditActionMessage | frontend/cdf-monitoring-system/componets/projects-view/main-section.tsx:465 | the text area sets the action message |
| ProjectDetail.ProjectDetailPage.ChooseFileType | frontend/cdf-monitoring-system/componets/projects-view/main-section.tsx:480-495 | the radio buttons set the type to PDF or image |
| ProjectDetail.ProjectDetailPage.PickFiles | frontend/cdf-monitoring-system/componets/projects-view/main-section.tsx:518 | the file input sets the picked files |
| ProjectDetail.ProjectDetailPage.SettleStatusUpdate | frontend/cdf-monitoring-system/componets/projects-view/main-section.tsx:146-168 | success merges the returned update, closes the modal, takes the returned status and clears message and files; failure keeps everything and shows the failure message |
| ProjectDetail.ProjectDetailPage.SendStatusUpdate | frontend/cdf-monitoring-system/componets/projects-view/main-section.tsx:120-168 | posts StatusPayload of the chosen status, message and files with the auth headers, then settles as SettleStatusUpdate states; loading ends false |
| ProjectDetail.ProjectDetailPage.HandleSubmit | frontend/cdf-monitoring-system/componets/projects-view/main-section.tsx:111-169 | without a status it only asks for one and sends nothing; otherwise it sends the payload as SendStatusUpdate states and a success leaves no error |
| ProjectDetail.ProjectDetailPage.DismissModal | frontend/cdf-monitoring-system/componets/projects-view/main-section.tsx:411-416 | the close button (and the Cancel button of lines 539-543) only closes the modal |
| ProjectDetail.ProjectDetailPage.CloseModal | frontend/cdf-monitoring-system/componets/projects-view/main-section.tsx:171-178 | closes the modal and clears the error, the message and the files |
| ProjectList.CategoryLabel | frontend/cdf-monitoring-system/componets/projects/project-table.tsx:59 | the category's truthy name, otherwise "Uncategorized"; never empty |
| ProjectList.CreatorId | frontend/cdf-monitoring-system/componets/projects/project-table.tsx:61 | the creator's id when present, otherwise 0 |
| ProjectList.CreatedBy | frontend/cdf-monitoring-system/componets/projects/project-table.tsx:60-66 | each creator field is the creator's truthy value or its default, and a missing creator gives all the defaults |
| ProjectList.FormatProject | frontend/cdf-monitoring-system/componets/projects/project-table.tsx:50-67 | the row copies id, name, description, progress, status and dates, and defaults image, category and creator |
| ProjectList.FormatProjects | frontend/cdf-monitoring-system/componets/projects/project-table.tsx:50-67 | the rows keep the projects' length and order |
| ProjectList.DefaultsFillEveryShownText | frontend/cdf-monitoring-system/componets/projects/project-table.tsx:58-66 | whatever the record lacks, the category and creator texts shown are non-empty, and a complete record is shown as it is |
| ProjectList.ProgressBand | frontend/cdf-monitoring-system/componets/projects/project-table.tsx:232-235 | red iff progress is below 30, yellow iff from 30 below 70, green iff at least 70 |
| ProjectList.TableAndDetailThresholdsDiffer | frontend/cdf-monitoring-system/componets/projects/project-table.tsx:233-234 | the table and the detail page colour a project differently exactly for progress in [30, 50) or [70, 80), and the table's colour is never lower |
| ProjectList.StatusBadge | frontend/cdf-monitoring-system/componets/projects/project-table.tsx:246-250 | completed is green, active blue, pending yellow, and every other status red |
| ProjectList.ParseMagnitude | frontend/cdf-monitoring-system/componets/projects/project-table.tsx:117 | after "0x" the hexadecimal digits are read, otherwise the decimal ones; NaN when there are none |
| ProjectList.ParseSigned | frontend/cdf-monitoring-system/componets/projects/project-table.tsx:117 | an optional sign, then the magnitude, negated after '-' |
| ProjectList.ParseInt | frontend/cdf-monitoring-system/componets/projects/project-table.tsx:117 | `parseInt` of the empty string is NaN |
| ProjectList.DecimalValueOfNatToString | frontend/cdf-monitoring-system/componets/projects/project-table.tsx:117 | the digits of a natural number read back as that number |
| ProjectList.DigitsParse | frontend/cdf-monitoring-system/componets/projects/project-table.tsx:117 | a non-empty run of digits reads as its decimal value |
| ProjectList.UnsignedDigitsParse | frontend/cdf-monitoring-system/componets/projects/project-table.tsx:117 | a non-empty run of digits parses to its decimal value |
| ProjectList.NegatedDigitsParse | frontend/cdf-monitoring-system/componets/projects/project-table.tsx:117 | a minus sign before a non-empty run of digits parses to the negated value |
| ProjectList.ParseIntOfIntToString | frontend/cdf-monitoring-system/componets/projects/project-table.tsx:117 | `parseInt` of a number's text is that number |
| ProjectList.ParseIntWithoutDigits | frontend/cdf-monitoring-system/componets/projects/project-table.tsx:117-122 | text without leading digits is NaN |
| ProjectList.EmptyMagnitude | frontend/cdf-monitoring-system/componets/projects/project-table.tsx:117-122 | an empty magnitude is NaN |
| ProjectList.ParseIntOfSignAlone | frontend/cdf-monitoring-system/componets/projects/project-table.tsx:117-122 | a sign alone is NaN |
| ProjectList.ParseIntStopsAtNonDigit | frontend/cdf-monitoring-system/componets/projects/project-table.tsx:117 | leading white space is skipped and reading stops at the first non-digit |
| ProjectList.ParseIntReadsHex | frontend/cdf-monitoring-system/componets/projects/project-table.tsx:117 | "0x" switches to hexadecimal |
| ProjectList.FirstCategoryText | frontend/cdf-monitoring-system/componets/projects/project-table.tsx:140 | empty iff there are no categories; otherwise it parses back to the first category's id |
| ProjectList.ResetForm | frontend/cdf-monitoring-system/componets/projects/project-table.tsx:137-143 | after a create every field is empty except the category, which is the first category's id |
| ProjectList.DecideSubmit | frontend/cdf-monitoring-system/componets/projects/project-table.tsx:111-133 | an empty category alerts "Please select a category", an unparsable one "Invalid category selected"; otherwise the payload has id 0, progress 0, the form's texts and the parsed category |
| ProjectList.ResetFormSubmitsFirstCategory | frontend/cdf-monitoring-system/componets/projects/project-table.tsx:136-143 | after a reset, the next submit sends the first category, or alerts when there are none |
| ProjectList.ProjectTablePage.constructor | frontend/cdf-monitoring-system/componets/projects/project-table.tsx:34-45 | the page starts with no errors, categories or projects, the modal closed and an empty form |
| ProjectList.ProjectTablePage.FetchProjects | frontend/cdf-monitoring-system/componets/projects/project-table.tsx:47-73 | success replaces the projects with the formatted list, failure keeps them |
| ProjectList.ProjectTablePage.FetchCategoriesAndProjects | frontend/cdf-monitoring-system/componets/projects/project-table.tsx:74-94 | loads the categories, preselects the first one if any, then loads the projects; a failed category load leaves the categories, form and projects as they were; the user is sent to `/login` without an access token, or on a 401 from the project load |
| ProjectList.ProjectTablePage.HandleInputChange | frontend/cdf-monitoring-system/componets/projects/project-table.tsx:100-105 | sets one form field and keeps the errors |
| ProjectList.ProjectTablePage.OpenModal | frontend/cdf-monitoring-system/componets/projects/project-table.tsx:165 | opens the modal |
| ProjectList.ProjectTablePage.CloseModal | frontend/cdf-monitoring-system/componets/projects/project-table.tsx:400 | closes the modal |
| ProjectList.ProjectTablePage.PostProject | frontend/cdf-monitoring-system/componets/projects/project-table.tsx:124-151 | success closes the modal, resets the form and reloads the projects; a failure with a body shows its field errors; the user is sent to `/login` without an access token, or on a 401 from the reload |
| ProjectList.ProjectTablePage.HandleSubmit | frontend/cdf-monitoring-system/componets/projects/project-table.tsx:107-152 | clears the errors, then alerts and stops as DecideSubmit says or posts its payload, with PostProject's outcomes, including the redirect to `/login` |
| CategoryProjects.CategoryProjectsUrl | frontend/cdf-monitoring-system/componets/project-based-on-category/table.tsx:41-43 | the endpoint is the prefix, the id in decimal and a closing slash |
| CategoryProjects.UrlsAreDistinct | frontend/cdf-monitoring-system/componets/project-based-on-category/table.tsx:42 | two categories share an endpoint iff they are the same id |
| CategoryProjects.ViewOf | frontend/cdf-monitoring-system/componets/project-based-on-category/table.tsx:83-84 | the page shows loading iff loading, then the error iff it is truthy, then the rows iff there are any, and otherwise the no-projects row |
| CategoryProjects.SettledView | frontend/cdf-monitoring-system/componets/project-based-on-category/table.tsx:37-73 | after a fetch the page shows the formatted projects in order, or the no-projects row for an empty list; a failed fetch shows its message, or the no-projects row when the thrown message is empty |
| CategoryProjects.CategoryProjectsPage.constructor | frontend/cdf-monitoring-system/componets/project-based-on-category/table.tsx:33-35 | the page starts with no rows, not loading and no error |
| CategoryProjects.CategoryProjectsPage.FetchProjectsByCategory | frontend/cdf-monitoring-system/componets/project-based-on-category/table.tsx:37-73 | fetches the category's endpoint and keeps the formatted list or the failure with no rows; loading ends false |
| CategoryProjects.CategoryProjectsPage.Mount | frontend/cdf-monitoring-system/componets/project-based-on-category/table.tsx:75-81 | an invalid id only sets "Invalid category ID in URL" and fetches nothing; a valid id fetches its projects |
| HomeCards.CountOf | frontend/cdf-monitoring-system/componets/dashboard/home-cards.tsx:49 | a status's count is present iff the counts hold its key |
| HomeCards.PluralSuffix | frontend/cdf-monitoring-system/componets/dashboard/home-cards.tsx:49 | no suffix iff the count is exactly 1, otherwise "s" |
| HomeCards.CountText | frontend/cdf-monitoring-system/componets/dashboard/home-cards.tsx:48-50 | the text starts with the count, ends in "s" iff the count is not 1, reads "1 Project" for one, and " Projects" for a missing count |
| HomeCards.Cards | frontend/cdf-monitoring-system/componets/dashboard/home-cards.tsx:36-52 | one card per card entry, in order, headed by its title and showing its status's count text |
| HomeCards.CardOrder | frontend/cdf-monitoring-system/componets/dashboard/home-cards.tsx:27-32 | the cards are pending, active, completed and on hold, the four statuses the initial counts hold |
| HomeCards.InitialCardsReadZero | frontend/cdf-monitoring-system/componets/dashboard/home-cards.tsx:9-14 | before any answer every card reads "0 Projects" |
| HomeCards.HomeCardsState.constructor | frontend/cdf-monitoring-system/componets/dashboard/home-cards.tsx:9-14 | the counts start at zero for the four statuses |
| HomeCards.HomeCardsState.Load | frontend/cdf-monitoring-system/componets/dashboard/home-cards.tsx:16-25 | success replaces the counts with the response's object, failure keeps them and logs the error |
| HomeCards.OmittedStatusLosesItsCount | frontend/cdf-monitoring-system/componets/dashboard/home-cards.tsx:20 | a status the response leaves out shows no number at all |
| Graph.ToChartData | frontend/cdf-monitoring-system/componets/dashboard/graph.tsx:44-46 | the three series have the data's length and hold each item's month, average progress and count at its position |
| Graph.ChartDataRoundTrip | frontend/cdf-monitoring-system/componets/dashboard/graph.tsx:43-48 | splitting the data into series and zipping them back gives the data, and zipping parallel series then splitting gives them back |
| Graph.EachMonthKeepsItsValues | frontend/cdf-monitoring-system/componets/dashboard/graph.tsx:93-118 | the chart's i-th category is the i-th month, and both series' i-th values are that month's |
| Graph.WithScript | frontend/cdf-monitoring-system/componets/dashboard/graph.tsx:62-74 | a script already in the document is not added again; a new one is appended |
| Graph.LoadInOrderKeepsScriptsUnique | frontend/cdf-monitoring-system/componets/dashboard/graph.tsx:76-80 | loading the scripts in order never duplicates a script, keeps the present ones, and after success all are present |
| Graph.LoadingPresentScriptsAddsNothing | frontend/cdf-monitoring-system/componets/dashboard/graph.tsx:64-67 | when every script is present, loading resolves and adds nothing |
| Graph.ScriptSrcsAreDistinct | frontend/cdf-monitoring-system/componets/dashboard/graph.tsx:78-80 | the three script addresses differ |
| Graph.FailedScriptIsSkippedNextTime | frontend/cdf-monitoring-system/componets/dashboard/graph.tsx:64-80 | a script that failed stays in the document, so the next load resolves it without fetching and the build goes ahead |
| Graph.Document.LoadScript | frontend/cdf-monitoring-system/componets/dashboard/graph.tsx:62-74 | the document gains the script if it lacked it, and the load resolves as the script does |
| Graph.ViewOf | frontend/cdf-monitoring-system/componets/dashboard/graph.tsx:244-245 | the page shows loading iff loading, the failure iff loaded without data, and otherwise the chart of the data |
| Graph.GraphState.constructor | frontend/cdf-monitoring-system/componets/dashboard/graph.tsx:33-34 | the page starts loading with no data |
| Graph.GraphState.FetchData | frontend/cdf-monitoring-system/componets/dashboard/graph.tsx:37-54 | an ok answer becomes the chart data, anything else is logged and keeps the data; loading ends false |
| Graph.GraphState.LoadChartScriptsAndBuild | frontend/cdf-monitoring-system/componets/dashboard/graph.tsx:59-82 | without data nothing happens; otherwise the three scripts are loaded in order and the chart is built iff all resolve and the three globals are defined |
| SideNav.Capitalize | frontend/cdf-monitoring-system/componets/side-nav.tsx:6-7 | the first character is upper-cased and the rest is kept |
| SideNav.CapitalizeProperties | frontend/cdf-monitoring-system/componets/side-nav.tsx:6-7 | only a lower-case first letter changes, the result starts with no lower-case letter, and capitalizing twice is capitalizing once |
| SideNav.CategoryLinks | frontend/cdf-monitoring-system/componets/side-nav.tsx:62-71 | one link per category, in order, to the prefix followed by the id, showing the capitalized name |
| SideNav.ViewOf | frontend/cdf-monitoring-system/componets/side-nav.tsx:46-56 | the two fixed links are always shown, and the category links iff loading is over and there are categories |
| SideNav.SideNavState.constructor | frontend/cdf-monitoring-system/componets/side-nav.tsx:15-16 | the list starts empty and loading |
| SideNav.SideNavState.FetchCategoryList | frontend/cdf-monitoring-system/componets/side-nav.tsx:18-36 | an ok answer replaces the list, anything else is logged and keeps it; loading ends false |
| SideNav.CategoryLinksAreDistinct | frontend/cdf-monitoring-system/componets/side-nav.tsx:65 | categories with different ids link to different pages |

## Left out

- Persistence: the ORM queries are inputs (the stored category names, the authenticated user, the validation result). Django routing, models, migrations and the admin are not modelled.
- Tokens: `RefreshToken` and JWT handling are outside the model; the login view receives its token pair as a parameter.
- Views.CreateUser: `UserSerializer` has no password field, so the view never runs `validate_password`; the model keeps the two separate, as the code does.
- Serializers.Search: the character classes are those of `re.ASCII`; the Unicode letters, digits and white space that Python's `\w`, `\d` and `\s` also match are not modelled, among them the separators \x1c–\x1f, so a password such as "Abcdefg1\x1c" that serializers.py refuses for lack of a special character is accepted by Serializers.ValidatePassword.
- Common.LowerString and Common.ToUpper: ASCII case mapping only, with no Unicode case folding.
- Common.IntToString: JavaScript numbers are modelled as unbounded integers; the exponent form `toString` uses from 1e21 up, and the precision limit of doubles, are not modelled.
- ProjectList.ParseInt: `parseInt` is modelled on ASCII white space and bases 10 and 16; other Unicode white space is not skipped.
- CategoryProjects.CategoryProjectsPage.Mount: `Number(params.id)` is taken as its result, an optional integer; the string-to-number conversion and non-integral ids are not modelled.
- Graph: `avg_progress` is a mathematical real, so floating-point rounding is not modelled. The chart library, the CDN scripts' contents and the `buildChart` options beyond series and categories are not modelled.
- Graph.Document.LoadScript: a script's load or failure is an input (the set of failing addresses), and its asynchrony is not modelled.
- Console output: the API clients, the graph, the dashboard cards and the side navigation return the label of each console line they write, not the values printed after it. The page components' own console lines are not modelled at all: the projects table (project-table.tsx:68, 71, 88, 92, 116, 149), the users table (users-table.tsx:55, 105), the category table (project-category-table.tsx:37, 85), the project detail page (main-section.tsx:102, 164) and the login form (form.tsx:20).
- Rendering: markup, styles, icons, sizes (the megabyte display of files) and `router.push` beyond the target path are not modelled.
- ProjectDetail.ProjectDetailPage.HandleSubmit: resetting the DOM file input is not modelled; the picked files are cleared in state only.
- Concurrency: React batches state updates and effects may interleave; each handler is modelled as running to completion in one step.
- Dead code: `testing.tsx`, `map.tsx`, `profile.tsx`, `home.tsx`, `users-main.tsx` and `project-view-main.tsx` are layout or unused pages and are not modelled. `main/models.py`, `urls.py`, `admin.py` and the migration define schema and routing only.
