/** The validation rules of the backend's serializers: the password policy,
    the lower-casing and duplicate check of project categories, and the
    start/end date order of projects. The ORM lookups become explicit inputs
    (the names already stored). */
module Serializers {
  import opened Common

  /** What a DRF validator yields: the (possibly normalised) value, or the
      message of the `ValidationError` it raises. */
  datatype Validated<T> = Accept(value: T) | Reject(message: string)

  // ---------------------------------------------------------------------------
  // UserSerializer.validate_password

  const MinPasswordLength: nat := 8

  const TooShortMessage := "Password must be at least 8 characters long."
  const NoUppercaseMessage := "Password must contain at least one uppercase letter."
  const NoLowercaseMessage := "Password must contain at least one lowercase letter."
  const NoDigitMessage := "Password must contain at least one digit."
  const NoSpecialMessage := "Password must contain at least one special character."

  /** The one-character classes searched for: `[A-Z]`, `[a-z]`, `\d`, `[^\w\s]`. */
  datatype CharClass = Upper | Lower | Digit | Special

  predicate InClass(c: char, k: CharClass) {
    match k
    case Upper => IsUpper(c)
    case Lower => IsLower(c)
    case Digit => IsDigit(c)
    case Special => !IsWordChar(c) && !IsSpace(c)
  }

  /** `re.search` with a one-character class: does some character of `s` match? */
  function Search(s: string, k: CharClass): (found: bool)
    ensures found <==> exists i :: 0 <= i < |s| && InClass(s[i], k)
  {
    if s == [] then false
    else if InClass(s[0], k) then true
    else
      var rest := Search(s[1..], k);
      assert rest ==> exists i :: 1 <= i < |s| && InClass(s[i], k) by {
        if rest {
          var j :| 0 <= j < |s[1..]| && InClass(s[1..][j], k);
          assert InClass(s[j + 1], k);
        }
      }
      rest
  }

  /** The five rules of the password policy, in the order they are checked. */
  datatype PasswordRule = MinLength | HasUppercase | HasLowercase | HasDigit | HasSpecial

  const PasswordRules: seq<PasswordRule> := [MinLength, HasUppercase, HasLowercase, HasDigit, HasSpecial]

  /** Whether `p` satisfies one rule, stated without the search function. */
  ghost predicate Satisfies(p: string, rule: PasswordRule) {
    match rule
    case MinLength => |p| >= MinPasswordLength
    case HasUppercase => exists i :: 0 <= i < |p| && IsUpper(p[i])
    case HasLowercase => exists i :: 0 <= i < |p| && IsLower(p[i])
    case HasDigit => exists i :: 0 <= i < |p| && IsDigit(p[i])
    case HasSpecial => exists i :: 0 <= i < |p| && !IsWordChar(p[i]) && !IsSpace(p[i])
  }

  /** The policy as one statement: long enough, and an upper-case letter, a lower-case
      letter, a digit and a character that is neither a word character nor white space. */
  ghost predicate StrongPassword(p: string) {
    && |p| >= MinPasswordLength
    && (exists i :: 0 <= i < |p| && IsUpper(p[i]))
    && (exists i :: 0 <= i < |p| && IsLower(p[i]))
    && (exists i :: 0 <= i < |p| && IsDigit(p[i]))
    && (exists i :: 0 <= i < |p| && !IsWordChar(p[i]) && !IsSpace(p[i]))
  }

  function RuleMessage(rule: PasswordRule): string {
    match rule
    case MinLength => TooShortMessage
    case HasUppercase => NoUppercaseMessage
    case HasLowercase => NoLowercaseMessage
    case HasDigit => NoDigitMessage
    case HasSpecial => NoSpecialMessage
  }

  /** The first rule of `rules` that `p` breaks, if any. */
  ghost function FirstBroken(p: string, rules: seq<PasswordRule>): Option<PasswordRule> {
    if rules == [] then None
    else if !Satisfies(p, rules[0]) then Some(rules[0])
    else FirstBroken(p, rules[1..])
  }

  function ValidatePassword(value: string): (r: Validated<string>)
    ensures r.Accept? <==> StrongPassword(value)
    ensures r.Accept? ==> r.value == value
  {
    if |value| < MinPasswordLength then Reject(TooShortMessage)
    else if !Search(value, Upper) then Reject(NoUppercaseMessage)
    else if !Search(value, Lower) then Reject(NoLowercaseMessage)
    else if !Search(value, Digit) then Reject(NoDigitMessage)
    else if !Search(value, Special) then Reject(NoSpecialMessage)
    else Accept(value)
  }

  /** The message reported is that of the first rule broken, in the order
      length, upper case, lower case, digit, special character. */
  lemma {:induction false} PasswordReportsFirstBrokenRule(p: string)
    ensures ValidatePassword(p) == match FirstBroken(p, PasswordRules)
                                   case None => Accept(p)
                                   case Some(rule) => Reject(RuleMessage(rule))
  {
    var r0 := PasswordRules;
    var r1, r2, r3, r4 := r0[1..], r0[2..], r0[3..], r0[4..];
    assert r1[1..] == r2 && r2[1..] == r3 && r3[1..] == r4 && r4[1..] == [];
    assert FirstBroken(p, r4) == if !Satisfies(p, HasSpecial) then Some(HasSpecial) else None;
    assert FirstBroken(p, r3) == if !Satisfies(p, HasDigit) then Some(HasDigit) else FirstBroken(p, r4);
    assert FirstBroken(p, r2) == if !Satisfies(p, HasLowercase) then Some(HasLowercase) else FirstBroken(p, r3);
    assert FirstBroken(p, r1) == if !Satisfies(p, HasUppercase) then Some(HasUppercase) else FirstBroken(p, r2);
    assert FirstBroken(p, r0) == if !Satisfies(p, MinLength) then Some(MinLength) else FirstBroken(p, r1);
    assert Search(p, Upper) <==> Satisfies(p, HasUppercase);
    assert Search(p, Lower) <==> Satisfies(p, HasLowercase);
    assert Search(p, Digit) <==> Satisfies(p, HasDigit);
    assert Search(p, Special) <==> Satisfies(p, HasSpecial);
  }

  /** `\w` covers `_`, so a password whose only symbols are underscores has no
      special character and is rejected with that rule's message. */
  lemma UnderscoreIsNotSpecial(p: string)
    requires |p| >= MinPasswordLength
    requires exists i :: 0 <= i < |p| && IsUpper(p[i])
    requires exists i :: 0 <= i < |p| && IsLower(p[i])
    requires exists i :: 0 <= i < |p| && IsDigit(p[i])
    requires forall i :: 0 <= i < |p| ==> IsWordChar(p[i])
    ensures ValidatePassword(p) == Reject(NoSpecialMessage)
  {
  }

  // ---------------------------------------------------------------------------
  // ProjectCategorySerializer.validate and validate_name

  /** A value in the validated attribute dictionary. */
  datatype AttrValue = Text(s: string) | Number(n: int) | Null

  type Attrs = map<string, AttrValue>

  function LowerValue(v: AttrValue): AttrValue {
    if v.Text? then Text(LowerString(v.s)) else v
  }

  /** The dictionary with every string value lower-cased. */
  function LowerCased(attrs: Attrs): Attrs {
    map k | k in attrs :: LowerValue(attrs[k])
  }

  /** `ProjectCategorySerializer.validate`: walks the entries and overwrites each
      string value by its lower-cased form. */
  method LowerCaseAttrs(attrs: Attrs) returns (r: Attrs)
    ensures r == LowerCased(attrs)
  {
    r := attrs;
    var todo := attrs.Keys;
    while todo != {}
      invariant todo <= attrs.Keys
      invariant r.Keys == attrs.Keys
      invariant forall k :: k in attrs && k !in todo ==> r[k] == LowerValue(attrs[k])
      invariant forall k :: k in todo ==> r[k] == attrs[k]
      decreases todo
    {
      var k :| k in todo;
      if attrs[k].Text? {
        r := r[k := Text(LowerString(attrs[k].s))];
      }
      todo := todo - {k};
    }
  }

  /** Lower-casing keeps the keys and every non-string value, leaves only
      lower-case strings, and applying it twice is applying it once. */
  lemma {:induction false} LowerCasedProperties(attrs: Attrs)
    ensures LowerCased(attrs).Keys == attrs.Keys
    ensures forall k :: k in attrs && !attrs[k].Text? ==> LowerCased(attrs)[k] == attrs[k]
    ensures forall k :: k in attrs && attrs[k].Text? ==> IsLowerCase(LowerCased(attrs)[k].s)
    ensures LowerCased(LowerCased(attrs)) == LowerCased(attrs)
  {
    var once := LowerCased(attrs);
    forall k | k in once
      ensures LowerValue(once[k]) == once[k]
    {
      if attrs[k].Text? {
        LowerStringIsLowerCase(attrs[k].s);
      }
    }
    forall k | k in attrs && attrs[k].Text?
      ensures IsLowerCase(once[k].s)
    {
      LowerStringIsLowerCase(attrs[k].s);
    }
  }

  const DuplicateCategoryMessage := "A category with this name already exists."

  /** `ProjectCategory.objects.filter(name__iexact=value).exists()` over the stored names. */
  function ExistsIgnoringCase(names: seq<string>, value: string): (found: bool)
    ensures found <==> exists i :: 0 <= i < |names| && LowerString(names[i]) == LowerString(value)
  {
    if names == [] then false
    else if LowerString(names[0]) == LowerString(value) then true
    else
      var rest := ExistsIgnoringCase(names[1..], value);
      assert rest ==> exists i :: 1 <= i < |names| && LowerString(names[i]) == LowerString(value) by {
        if rest {
          var j :| 0 <= j < |names[1..]| && LowerString(names[1..][j]) == LowerString(value);
          assert names[j + 1] == names[1..][j];
        }
      }
      rest
  }

  /** `validate_name`: the name is lower-cased, and rejected when a stored
      category name equals it ignoring case. */
  function ValidateName(value: string, existing: seq<string>): (r: Validated<string>)
    ensures r.Reject? <==> exists i :: 0 <= i < |existing| && LowerString(existing[i]) == LowerString(value)
    ensures r.Reject? ==> r.message == DuplicateCategoryMessage
    ensures r.Accept? ==> r.value == LowerString(value) && IsLowerCase(r.value)
  {
    var lowered := LowerString(value);
    LowerStringIsLowerCase(value);
    if ExistsIgnoringCase(existing, lowered) then Reject(DuplicateCategoryMessage)
    else Accept(lowered)
  }

  /** Once an accepted name is stored, the same name in any letter case is refused. */
  lemma {:induction false} AcceptedNameThenDuplicate(value: string, again: string, existing: seq<string>)
    requires ValidateName(value, existing).Accept?
    requires LowerString(again) == LowerString(value)
    ensures ValidateName(again, existing + [ValidateName(value, existing).value]) == Reject(DuplicateCategoryMessage)
  {
    var stored := existing + [LowerString(value)];
    LowerStringIsLowerCase(value);
    assert LowerString(stored[|existing|]) == LowerString(again);
  }

  // ---------------------------------------------------------------------------
  // ProjectSerializer.validate

  /** A calendar date; Python compares dates by year, then month, then day. */
  datatype Date = Date(year: int, month: int, day: int)

  predicate Later(a: Date, b: Date) {
    || a.year > b.year
    || (a.year == b.year && a.month > b.month)
    || (a.year == b.year && a.month == b.month && a.day > b.day)
  }

  /** The validated attributes of a project; a date may be absent. */
  datatype ProjectAttrs = ProjectAttrs(
    name: string, description: string, progress: int,
    startDate: Option<Date>, endDate: Option<Date>, category: int)

  const EndBeforeStartMessage := "End date must be after start date."

  function ValidateProject(attrs: ProjectAttrs): (r: Validated<ProjectAttrs>)
    ensures r.Reject? <==> attrs.startDate.Some? && attrs.endDate.Some? && Later(attrs.startDate.value, attrs.endDate.value)
    ensures r.Reject? ==> r.message == EndBeforeStartMessage
    ensures r.Accept? ==> r.value == attrs
  {
    match (attrs.startDate, attrs.endDate)
    case (Some(start), Some(end)) =>
      if Later(start, end) then Reject(EndBeforeStartMessage) else Accept(attrs)
    case _ => Accept(attrs)
  }

  /** `Later` is a strict total order on dates. */
  lemma LaterIsStrictTotalOrder(a: Date, b: Date, c: Date)
    ensures !Later(a, a)
    ensures Later(a, b) ==> !Later(b, a)
    ensures Later(a, b) && Later(b, c) ==> Later(a, c)
    ensures a != b ==> Later(a, b) || Later(b, a)
  {
  }

  /** With two different dates present, exactly one of the two orders is accepted;
      equal dates are always accepted. */
  lemma {:induction false} ExactlyOneOrderAccepted(attrs: ProjectAttrs, first: Date, second: Date)
    ensures var forward := attrs.(startDate := Some(first), endDate := Some(second));
            var backward := attrs.(startDate := Some(second), endDate := Some(first));
            (first == second ==> ValidateProject(forward).Accept?) &&
            (first != second ==> ValidateProject(forward).Accept? != ValidateProject(backward).Accept?)
  {
    LaterIsStrictTotalOrder(first, second, first);
  }
}
