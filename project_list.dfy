/** The projects table page: the defaulting mapper over the backend's project
    records, the progress and status display rules, JavaScript's `parseInt`
    for the selected category, and the page state its handlers update. */
module ProjectList {
  import opened Common
  import Session
  import ProjectsApi
  import CategoryApi
  import ProjectDetail

  // ---------------------------------------------------------------------------
  // The defaulting mapper

  const Uncategorized := "Uncategorized"
  const UnknownUser := "Unknown"
  const NotAvailable := "N/A"

  datatype CreatedByUser = CreatedByUser(id: int, username: string, email: string, role: string, dept: string)

  /** A row of the table. The dates are copied as they came, null included. */
  datatype FormattedProject = FormattedProject(
    id: int,
    name: string,
    description: string,
    progress: int,
    status: string,
    startDate: Option<string>,
    endDate: Option<string>,
    img: string,
    category: string,
    createdBy: CreatedByUser)

  /** `project.category?.name || "Uncategorized"` */
  function CategoryLabel(category: Option<ProjectsApi.CategoryRef>): (shown: string)
    ensures shown != ""
    ensures category.Some? && Truthy(category.value.name) ==> shown == category.value.name.value
    ensures !(category.Some? && Truthy(category.value.name)) ==> shown == Uncategorized
  {
    match category
    case None => Uncategorized
    case Some(c) => OrElse(c.name, Uncategorized)
  }

  /** `project.create_by?.id || 0`: a missing id and id 0 both give 0. */
  function CreatorId(creator: Option<ProjectsApi.Creator>): (id: int)
    ensures creator.Some? && creator.value.id.Some? ==> id == creator.value.id.value
    ensures !(creator.Some? && creator.value.id.Some?) ==> id == 0
  {
    if creator.Some? && creator.value.id.Some? && creator.value.id.value != 0 then creator.value.id.value else 0
  }

  function CreatedBy(creator: Option<ProjectsApi.Creator>): (c: CreatedByUser)
    ensures c.id == CreatorId(creator)
    ensures creator.None? ==> c == CreatedByUser(0, UnknownUser, NotAvailable, NotAvailable, NotAvailable)
    ensures creator.Some? ==>
      && c.username == OrElse(creator.value.username, UnknownUser)
      && c.email == OrElse(creator.value.email, NotAvailable)
      && c.role == OrElse(creator.value.role, NotAvailable)
      && c.dept == OrElse(creator.value.dept, NotAvailable)
  {
    match creator
    case None => CreatedByUser(0, UnknownUser, NotAvailable, NotAvailable, NotAvailable)
    case Some(u) =>
      CreatedByUser(CreatorId(creator), OrElse(u.username, UnknownUser), OrElse(u.email, NotAvailable),
                    OrElse(u.role, NotAvailable), OrElse(u.dept, NotAvailable))
  }

  /** The mapper of `fetchProjects` (and of the by-category table). */
  function FormatProject(p: ProjectsApi.RawProject): (f: FormattedProject)
    ensures f.id == p.id && f.name == p.name && f.description == p.description
    ensures f.progress == p.progress && f.status == p.status
    ensures f.startDate == p.startDate && f.endDate == p.endDate
    ensures f.img == OrElse(p.img, "")
    ensures f.category == CategoryLabel(p.category)
    ensures f.createdBy == CreatedBy(p.createBy)
  {
    FormattedProject(p.id, p.name, p.description, p.progress, p.status, p.startDate, p.endDate,
                     OrElse(p.img, ""), CategoryLabel(p.category), CreatedBy(p.createBy))
  }

  function FormatProjects(ps: seq<ProjectsApi.RawProject>): (r: seq<FormattedProject>)
    ensures |r| == |ps|
    ensures forall i :: 0 <= i < |ps| ==> r[i] == FormatProject(ps[i])
  {
    if ps == [] then [] else [FormatProject(ps[0])] + FormatProjects(ps[1..])
  }

  /** Whatever the record lacks, every text the row shows under Project and
      Created By is non-empty, and a record with all its fields set keeps them. */
  lemma {:induction false} DefaultsFillEveryShownText(p: ProjectsApi.RawProject)
    ensures var f := FormatProject(p);
            f.category != "" && f.createdBy.username != "" && f.createdBy.email != ""
            && f.createdBy.role != "" && f.createdBy.dept != ""
    ensures p.category.Some? && Truthy(p.category.value.name) && p.createBy.Some?
            && p.createBy.value.id.Some? && Truthy(p.createBy.value.username) && Truthy(p.createBy.value.email)
            && Truthy(p.createBy.value.role) && Truthy(p.createBy.value.dept) ==>
            var f := FormatProject(p);
            && f.category == p.category.value.name.value
            && f.createdBy == CreatedByUser(p.createBy.value.id.value, p.createBy.value.username.value,
                 p.createBy.value.email.value, p.createBy.value.role.value, p.createBy.value.dept.value)
  {
    var f := FormatProject(p);
    if p.createBy.Some? {
      var u := p.createBy.value;
      assert f.createdBy.username == OrElse(u.username, UnknownUser);
    }
  }

  // ---------------------------------------------------------------------------
  // Display rules

  /** The progress bar of the projects tables: red below 30, yellow below 70,
      green from 70. */
  function ProgressBand(progress: int): (shade: Shade)
    ensures shade == Red <==> progress < 30
    ensures shade == Yellow <==> 30 <= progress < 70
    ensures shade == Green <==> progress >= 70
  {
    if progress < 30 then Red
    else if progress < 70 then Yellow
    else Green
  }

  /** The tables and the detail page colour the same project differently
      between 30 and 50 and between 70 and 80, and alike elsewhere. */
  lemma {:induction false} TableAndDetailThresholdsDiffer(progress: int)
    ensures ProgressBand(progress) != ProjectDetail.ProgressColor(progress) <==>
      (30 <= progress < 50 || 70 <= progress < 80)
    ensures ShadeRank(ProjectDetail.ProgressColor(progress)) <= ShadeRank(ProgressBand(progress))
  {
  }

  datatype BadgeTone = GreenTone | BlueTone | YellowTone | RedTone

  /** The status badge: completed green, active blue, pending yellow, and red
      for anything else. */
  function StatusBadge(status: string): (tone: BadgeTone)
    ensures tone == GreenTone <==> status == "completed"
    ensures tone == BlueTone <==> status == "active"
    ensures tone == YellowTone <==> status == "pending"
    ensures tone == RedTone <==> status !in {"completed", "active", "pending"}
  {
    if status == "completed" then GreenTone
    else if status == "active" then BlueTone
    else if status == "pending" then YellowTone
    else RedTone
  }

  // ---------------------------------------------------------------------------
  // `parseInt` without a radix, for the selected category

  predicate IsHexDigit(c: char) {
    IsDigit(c) || 'a' <= c <= 'f' || 'A' <= c <= 'F'
  }

  function HexDigitValue(c: char): (d: nat)
    requires IsHexDigit(c)
    ensures d < 16
  {
    if IsDigit(c) then DigitValue(c)
    else if 'a' <= c <= 'f' then c as int - 'a' as int + 10
    else c as int - 'A' as int + 10
  }

  function TrimStart(s: string): (r: string)
    ensures |r| <= |s| && r == s[|s| - |r|..]
    ensures r != [] ==> !IsSpace(r[0])
    ensures s != [] && !IsSpace(s[0]) ==> r == s
  {
    if s != [] && IsSpace(s[0]) then TrimStart(s[1..]) else s
  }

  /** The length of the longest prefix of decimal digits. */
  function DecimalPrefix(s: string): (k: nat)
    ensures k <= |s|
    ensures forall i :: 0 <= i < k ==> IsDigit(s[i])
    ensures k < |s| ==> !IsDigit(s[k])
  {
    if s != [] && IsDigit(s[0]) then 1 + DecimalPrefix(s[1..]) else 0
  }

  /** The length of the longest prefix of hexadecimal digits. */
  function HexPrefix(s: string): (k: nat)
    ensures k <= |s|
    ensures forall i :: 0 <= i < k ==> IsHexDigit(s[i])
    ensures k < |s| ==> !IsHexDigit(s[k])
  {
    if s != [] && IsHexDigit(s[0]) then 1 + HexPrefix(s[1..]) else 0
  }

  /** The value of a string of decimal digits, most significant first. */
  function DecimalValue(s: string): nat
    requires forall i :: 0 <= i < |s| ==> IsDigit(s[i])
  {
    if s == [] then 0 else DecimalValue(s[..|s| - 1]) * 10 + DigitValue(s[|s| - 1])
  }

  function HexValue(s: string): nat
    requires forall i :: 0 <= i < |s| ==> IsHexDigit(s[i])
  {
    if s == [] then 0 else HexValue(s[..|s| - 1]) * 16 + HexDigitValue(s[|s| - 1])
  }

  predicate HasHexPrefix(s: string) {
    |s| >= 2 && s[0] == '0' && (s[1] == 'x' || s[1] == 'X')
  }

  /** The magnitude `parseInt` reads after the sign: hexadecimal after "0x" or
      "0X", decimal otherwise, None (NaN) when no digit follows. */
  function ParseMagnitude(s: string): (r: Option<nat>)
    ensures !HasHexPrefix(s) ==> (r.None? <==> DecimalPrefix(s) == 0)
    ensures HasHexPrefix(s) ==> (r.None? <==> HexPrefix(s[2..]) == 0)
  {
    if HasHexPrefix(s) then
      var k := HexPrefix(s[2..]);
      if k == 0 then None else Some(HexValue(s[2..][..k]))
    else
      var k := DecimalPrefix(s);
      if k == 0 then None else Some(DecimalValue(s[..k]))
  }

  /** `parseInt` after the white space: an optional sign, then the magnitude. */
  function ParseSigned(t: string): (r: Option<int>)
    ensures t == [] ==> r.None?
    ensures t != [] && t[0] == '-' ==> r == (match ParseMagnitude(t[1..]) case None => None case Some(m) => Some(-(m as int)))
    ensures t != [] && t[0] == '+' ==> r == (match ParseMagnitude(t[1..]) case None => None case Some(m) => Some(m as int))
    ensures t != [] && t[0] != '-' && t[0] != '+' ==> r == (match ParseMagnitude(t) case None => None case Some(m) => Some(m as int))
  {
    if t != [] && (t[0] == '-' || t[0] == '+') then
      match ParseMagnitude(t[1..])
      case None => None
      case Some(m) => Some(if t[0] == '-' then -(m as int) else m as int)
    else
      match ParseMagnitude(t)
      case None => None
      case Some(m) => Some(m as int)
  }

  /** `parseInt(s)`: skip leading white space, then read a signed magnitude;
      None stands for NaN. */
  function ParseInt(s: string): (r: Option<int>)
    ensures s == "" ==> r.None?
  {
    ParseSigned(TrimStart(s))
  }

  lemma {:induction false} DecimalValueOfNatToString(n: nat)
    ensures DecimalValue(NatToString(n)) == n
    decreases n
  {
    var s := NatToString(n);
    if n >= 10 {
      DecimalValueOfNatToString(n / 10);
      assert s[..|s| - 1] == NatToString(n / 10);
      assert DigitValue(s[|s| - 1]) == n % 10;
    } else {
      assert s[..0] == [];
    }
  }

  /** A non-empty run of decimal digits reads as its decimal value. */
  lemma {:induction false} DigitsParse(digits: string)
    requires digits != [] && forall i :: 0 <= i < |digits| ==> IsDigit(digits[i])
    ensures ParseMagnitude(digits) == Some(DecimalValue(digits))
  {
    assert DecimalPrefix(digits) == |digits|;
    assert digits[..|digits|] == digits;
    assert !HasHexPrefix(digits) by {
      if |digits| >= 2 {
        assert IsDigit(digits[1]);
      }
    }
  }

  /** A non-empty run of digits parses to its value. */
  lemma {:induction false} UnsignedDigitsParse(digits: string)
    requires digits != [] && forall i :: 0 <= i < |digits| ==> IsDigit(digits[i])
    ensures ParseInt(digits) == Some(DecimalValue(digits) as int)
  {
    DigitsParse(digits);
    var c := digits[0];
    assert IsDigit(c);
    assert !IsSpace(c) && c != '-' && c != '+';
    assert TrimStart(digits) == digits;
  }

  /** A minus sign before a non-empty run of digits parses to its negated value. */
  lemma {:induction false} NegatedDigitsParse(digits: string)
    requires digits != [] && forall i :: 0 <= i < |digits| ==> IsDigit(digits[i])
    ensures ParseInt("-" + digits) == Some(-(DecimalValue(digits) as int))
  {
    DigitsParse(digits);
    var negative := "-" + digits;
    assert negative[0] == '-';
    assert !IsSpace(negative[0]);
    assert TrimStart(negative) == negative;
    assert negative[1..] == digits;
  }

  /** Reading back what `toString` wrote gives the same integer: the category
      ids the select and the form reset write always parse. */
  lemma {:induction false} ParseIntOfIntToString(n: int)
    ensures ParseInt(IntToString(n)) == Some(n)
  {
    var m: nat := if n < 0 then -n else n;
    DecimalValueOfNatToString(m);
    if n < 0 {
      NegatedDigitsParse(NatToString(m));
    } else {
      UnsignedDigitsParse(NatToString(m));
    }
  }

  /** Text with no digit where one is expected is NaN. */
  lemma {:induction false} ParseIntWithoutDigits()
    ensures ParseInt("abc") == None
  {
    var t := "abc";
    assert t[0] == 'a';
    assert TrimStart(t) == t;
    assert ParseMagnitude("abc") == None by {
      assert DecimalPrefix("abc") == 0;
      assert !HasHexPrefix("abc");
    }
  }

  /** An empty magnitude is NaN. */
  lemma {:induction false} EmptyMagnitude(rest: string)
    requires rest == []
    ensures ParseMagnitude(rest) == None
  {
    assert DecimalPrefix(rest) == 0;
  }

  /** A sign alone is NaN. */
  lemma {:induction false} ParseIntOfSignAlone(t: string)
    requires t == "-"
    ensures ParseInt(t) == None
  {
    assert t[0] == '-';
    assert TrimStart(t) == t;
    EmptyMagnitude(t[1..]);
  }

  /** Leading white space and trailing non-digits are ignored. */
  lemma {:induction false} ParseIntStopsAtNonDigit()
    ensures ParseInt(" 12px") == Some(12)
  {
    var t := "12px";
    assert " 12px"[1..] == t;
    assert TrimStart(t) == t by {
      assert !IsSpace(t[0]);
    }
    assert TrimStart(" 12px") == t;
    assert DecimalPrefix(t) == 2 by {
      assert t[1..] == "2px" && "2px"[1..] == "px";
      assert DecimalPrefix("px") == 0 by {
        assert !IsDigit("px"[0]);
      }
    }
    assert !HasHexPrefix(t) by {
      assert t[1] == '2';
    }
    assert DecimalValue("12") == 12 by {
      assert "12"[..1] == "1" && "1"[..0] == "";
    }
    assert t[..2] == "12";
    assert ParseMagnitude(t) == Some(12);
  }

  /** "0x" switches to hexadecimal. */
  lemma {:induction false} ParseIntReadsHex()
    ensures ParseInt("0x1A") == Some(26)
  {
    var t := "0x1A";
    assert TrimStart(t) == t by {
      assert !IsSpace(t[0]);
    }
    assert HasHexPrefix(t) by {
      assert t[0] == '0' && t[1] == 'x';
    }
    var h := t[2..];
    assert h == "1A";
    assert HexPrefix(h) == 2 by {
      assert h[1..] == "A" && "A"[1..] == [];
    }
    assert HexValue(h[..2]) == 26 by {
      assert h[..2] == h && h[..1] == "1" && "1"[..0] == [];
    }
    assert ParseMagnitude(t) == Some(26);
    assert ParseSigned(t) == Some(26) by {
      assert t[0] != '-' && t[0] != '+';
    }
  }

  // ---------------------------------------------------------------------------
  // The page

  const NameField := "name"
  const DescriptionField := "description"
  const CategoryField := "category"
  const StartDateField := "startDate"
  const EndDateField := "endDate"

  const SelectCategoryAlert := "Please select a category"
  const InvalidCategoryAlert := "Invalid category selected"

  const EmptyForm: map<string, string> :=
    map[NameField := "", DescriptionField := "", CategoryField := "", StartDateField := "", EndDateField := ""]

  /** `categories[0]?.id?.toString() || ""` */
  function FirstCategoryText(categories: seq<CategoryApi.CategoryName>): (text: string)
    ensures categories == [] <==> text == ""
    ensures categories != [] ==> ParseInt(text) == Some(categories[0].id)
  {
    if categories == [] then ""
    else
      ParseIntOfIntToString(categories[0].id);
      IntToString(categories[0].id)
  }

  /** The form after a successful create: every field empty but the category,
      which names the first category. */
  function ResetForm(categories: seq<CategoryApi.CategoryName>): (form: map<string, string>)
    ensures form.Keys == EmptyForm.Keys
    ensures form == EmptyForm[CategoryField := FirstCategoryText(categories)]
  {
    EmptyForm[CategoryField := FirstCategoryText(categories)]
  }

  predicate FormComplete(form: map<string, string>) {
    NameField in form && DescriptionField in form && CategoryField in form
    && StartDateField in form && EndDateField in form
  }

  /** What `handleSubmit` decides before any request: an alert, or the payload. */
  datatype SubmitDecision = Alert(message: string) | Send(payload: ProjectsApi.CreateProjectPayload)

  /** The checks of `handleSubmit` in order: an empty category, then a category
      that is not a number, then the payload with id 0, progress 0 and the
      parsed category. */
  function DecideSubmit(form: map<string, string>): (d: SubmitDecision)
    requires FormComplete(form)
    ensures form[CategoryField] == "" ==> d == Alert(SelectCategoryAlert)
    ensures form[CategoryField] != "" && ParseInt(form[CategoryField]).None? ==> d == Alert(InvalidCategoryAlert)
    ensures d.Send? <==> form[CategoryField] != "" && ParseInt(form[CategoryField]).Some?
    ensures d.Send? ==>
      d.payload == ProjectsApi.CreateProjectPayload(0, form[NameField], form[DescriptionField], 0,
        Some(form[StartDateField]), Some(form[EndDateField]), Some(ParseInt(form[CategoryField]).value))
  {
    if form[CategoryField] == "" then Alert(SelectCategoryAlert)
    else
      match ParseInt(form[CategoryField])
      case None => Alert(InvalidCategoryAlert)
      case Some(id) =>
        Send(ProjectsApi.CreateProjectPayload(0, form[NameField], form[DescriptionField], 0,
          Some(form[StartDateField]), Some(form[EndDateField]), Some(id)))
  }

  /** After a reset the next submit with the same categories sends the first
      category's id, or alerts when there are no categories. */
  lemma {:induction false} ResetFormSubmitsFirstCategory(categories: seq<CategoryApi.CategoryName>)
    ensures FormComplete(ResetForm(categories))
    ensures categories == [] ==> DecideSubmit(ResetForm(categories)) == Alert(SelectCategoryAlert)
    ensures categories != [] ==>
      DecideSubmit(ResetForm(categories)).Send? &&
      DecideSubmit(ResetForm(categories)).payload.category == Some(categories[0].id)
  {
  }

  class ProjectTablePage {
    var errors: FieldErrors
    var categories: seq<CategoryApi.CategoryName>
    var projects: seq<FormattedProject>
    var isModalOpen: bool
    var formData: map<string, string>

    predicate Valid()
      reads this
    {
      FormComplete(formData)
    }

    constructor ()
      ensures Valid()
      ensures errors == map[] && categories == [] && projects == [] && !isModalOpen && formData == EmptyForm
    {
      errors := map[];
      categories := [];
      projects := [];
      isModalOpen := false;
      formData := EmptyForm;
    }

    /** `fetchProjects`: the formatted list on success, the old list otherwise. */
    method FetchProjects<E>(browser: Session.Browser, outcome: Outcome<seq<ProjectsApi.RawProject>, E>)
      modifies this`projects, browser`redirectedToLogin
      ensures outcome.Ok? ==> projects == FormatProjects(outcome.body)
      ensures outcome.Err? ==> projects == old(projects)
      ensures browser.redirectedToLogin ==
        (old(browser.redirectedToLogin) || ProjectsApi.GetAllProjects(browser.storage, outcome).redirectToLogin)
    {
      var effect := ProjectsApi.GetAllProjects(browser.storage, outcome);
      if effect.redirectToLogin {
        browser.RedirectToLogin();
      }
      if effect.result.Ok? {
        projects := FormatProjects(effect.result.body);
      }
    }

    /** The mount effect: load the categories, preselect the first one, then
        load the projects; a failed category load loads no projects. */
    method FetchCategoriesAndProjects<E>(browser: Session.Browser, names: Outcome<seq<CategoryApi.CategoryName>, E>,
                                         outcome: Outcome<seq<ProjectsApi.RawProject>, E>)
      requires Valid()
      modifies this`categories, this`formData, this`projects, browser`redirectedToLogin
      ensures Valid()
      ensures names.Err? ==> categories == old(categories) && formData == old(formData) && projects == old(projects)
      ensures names.Ok? ==> categories == names.body
      ensures names.Ok? && names.body != [] ==> formData == old(formData)[CategoryField := FirstCategoryText(names.body)]
      ensures names.Ok? && names.body == [] ==> formData == old(formData)
      ensures names.Ok? && outcome.Ok? ==> projects == FormatProjects(outcome.body)
      ensures names.Ok? && outcome.Err? ==> projects == old(projects)
      ensures browser.redirectedToLogin ==
        (old(browser.redirectedToLogin) || Session.AuthHeaders(browser.storage).None?
         || (names.Ok? && outcome.Err? && IsUnauthorized(outcome.error)))
    {
      var effect := CategoryApi.FetchProjectCategoryByName(browser.storage, names);
      if effect.redirectToLogin {
        browser.RedirectToLogin();
      }
      if effect.result.Err? {
        return;
      }
      var data := effect.result.body;
      categories := data;
      if |data| > 0 {
        formData := formData[CategoryField := FirstCategoryText(data)];
      }
      FetchProjects(browser, outcome);
    }

    /** `handleInputChange`: set one field; the errors stay. */
    method HandleInputChange(name: string, value: string)
      requires Valid()
      modifies this`formData
      ensures Valid()
      ensures formData == old(formData)[name := value]
    {
      formData := formData[name := value];
    }

    method OpenModal()
      modifies this`isModalOpen
      ensures isModalOpen
    {
      isModalOpen := true;
    }

    method CloseModal()
      modifies this`isModalOpen
      ensures !isModalOpen
    {
      isModalOpen := false;
    }

    /** The `try` block of `handleSubmit`, once the payload is built: success
        closes the modal, resets the form to the first category and reloads the
        list; failure with a response body takes its field errors. */
    method PostProject<E>(browser: Session.Browser, created: Outcome<ProjectsApi.CreatedProject, FieldErrors>,
                          reload: Outcome<seq<ProjectsApi.RawProject>, E>)
      requires Valid() && errors == map[]
      modifies this`errors, this`isModalOpen, this`formData, this`projects, browser`redirectedToLogin
      ensures Valid()
      ensures created.Ok? ==>
        && errors == map[] && !isModalOpen && formData == ResetForm(categories)
        && (reload.Ok? ==> projects == FormatProjects(reload.body))
        && (reload.Err? ==> projects == old(projects))
      ensures created.Err? ==>
        && isModalOpen == old(isModalOpen) && formData == old(formData) && projects == old(projects)
        && errors == (match ResponseData(created.error) case Some(body) => body case None => map[])
      ensures browser.redirectedToLogin ==
        (old(browser.redirectedToLogin) || Session.AuthHeaders(browser.storage).None?
         || (created.Ok? && reload.Err? && IsUnauthorized(reload.error)))
    {
      var effect := ProjectsApi.CreateProject(browser.storage, created);
      if effect.redirectToLogin {
        browser.RedirectToLogin();
      }
      match effect.result {
        case Ok(_) =>
          isModalOpen := false;
          formData := ResetForm(categories);
          FetchProjects(browser, reload);
        case Err(e) =>
          var data := ResponseData(e);
          if data.Some? {
            errors := data.value;
          }
      }
    }

    /** `handleSubmit`: clear the errors, then alert and stop on a missing or
        non-numeric category, or post the payload. */
    method HandleSubmit<E>(browser: Session.Browser, created: Outcome<ProjectsApi.CreatedProject, FieldErrors>,
                           reload: Outcome<seq<ProjectsApi.RawProject>, E>)
      returns (alert: Option<string>, sent: Option<ProjectsApi.CreateProjectPayload>)
      requires Valid()
      modifies this`errors, this`isModalOpen, this`formData, this`projects, browser`redirectedToLogin
      ensures Valid()
      ensures DecideSubmit(old(formData)).Alert? ==>
        && alert == Some(DecideSubmit(old(formData)).message) && sent == None
        && errors == map[] && isModalOpen == old(isModalOpen) && formData == old(formData)
        && projects == old(projects) && browser.redirectedToLogin == old(browser.redirectedToLogin)
      ensures DecideSubmit(old(formData)).Send? ==>
        alert == None && sent == Some(DecideSubmit(old(formData)).payload)
      ensures sent.Some? && created.Ok? ==>
        && errors == map[] && !isModalOpen && formData == ResetForm(categories)
        && (reload.Ok? ==> projects == FormatProjects(reload.body))
        && (reload.Err? ==> projects == old(projects))
      ensures sent.Some? && created.Err? ==>
        && isModalOpen == old(isModalOpen) && formData == old(formData) && projects == old(projects)
        && errors == (match ResponseData(created.error) case Some(body) => body case None => map[])
      ensures sent.Some? ==>
        (browser.redirectedToLogin ==
           (old(browser.redirectedToLogin) || Session.AuthHeaders(browser.storage).None?
            || (created.Ok? && reload.Err? && IsUnauthorized(reload.error))))
    {
      errors := map[];
      var decision := DecideSubmit(formData);
      if decision.Alert? {
        return Some(decision.message), None;
      }
      alert, sent := None, Some(decision.payload);
      PostProject(browser, created, reload);
    }
  }
}
