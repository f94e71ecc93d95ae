/** Shared vocabulary of the model: optional values, the outcomes of HTTP calls,
    JavaScript truthiness of optional strings, ASCII character classes and
    decimal rendering of integers. */
module Common {

  datatype Option<T> = None | Some(value: T)

  /** A JavaScript `null`/`undefined`-able string is truthy iff present and non-empty. */
  predicate Truthy(o: Option<string>) {
    o.Some? && o.value != ""
  }

  /** The JavaScript expression `o || fallback` on an optional string. */
  function OrElse(o: Option<string>, fallback: string): (r: string)
    ensures Truthy(o) ==> r == o.value
    ensures !Truthy(o) ==> r == fallback
    ensures r == "" ==> fallback == ""
  {
    if Truthy(o) then o.value else fallback
  }

  /** An error thrown by the axios client: the server answered with a status and
      perhaps a body, the request got no answer, or the request was never sent. */
  datatype HttpError<E> =
    | ResponseError(status: int, data: Option<E>)
    | RequestError
    | SetupError(message: string)

  /** The settled result of an awaited axios call, or of a client function built on one. */
  datatype Outcome<T, E> = Ok(body: T) | Err(error: HttpError<E>)

  /** The settled result of a `fetch` call: a response with its `ok` flag and parsed
      body, or a rejection carrying the error's message. */
  datatype FetchOutcome<T> = Fetched(ok: bool, body: T) | Rejected(message: string)

  /** Field-level validation errors as the backend returns them. */
  type FieldErrors = map<string, seq<string>>

  /** `error.response?.data`: the body of an error response, when there is one. */
  function ResponseData<E>(e: HttpError<E>): (r: Option<E>)
    ensures r.Some? ==> e.ResponseError? && e.data == r
  {
    if e.ResponseError? then e.data else None
  }

  predicate IsUnauthorized<E>(e: HttpError<E>) {
    e.ResponseError? && e.status == 401
  }

  /** The three-level colour choice used for progress bars. */
  datatype Shade = Red | Yellow | Green

  function ShadeRank(s: Shade): nat {
    match s
    case Red => 0
    case Yellow => 1
    case Green => 2
  }

  // ASCII character classes (the model does not cover Unicode case or digit classes)

  predicate IsUpper(c: char) { 'A' <= c <= 'Z' }
  predicate IsLower(c: char) { 'a' <= c <= 'z' }
  predicate IsDigit(c: char) { '0' <= c <= '9' }
  /** Python's `\w` on ASCII: letters, digits and underscore. */
  predicate IsWordChar(c: char) { IsUpper(c) || IsLower(c) || IsDigit(c) || c == '_' }
  /** `\s` as under Python's re.ASCII: space, tab, line feed, vertical tab, form feed, carriage return. */
  predicate IsSpace(c: char) { c == ' ' || '\t' <= c <= '\r' }

  function ToLower(c: char): (r: char)
    ensures !IsUpper(r)
    ensures !IsUpper(c) ==> r == c
  {
    if IsUpper(c) then (c as int + 32) as char else c
  }

  function ToUpper(c: char): (r: char)
    ensures !IsLower(r)
    ensures !IsLower(c) ==> r == c
  {
    if IsLower(c) then (c as int - 32) as char else c
  }

  /** Python's `str.lower()` on ASCII text. */
  function LowerString(s: string): (r: string)
    ensures |r| == |s|
    ensures forall i :: 0 <= i < |s| ==> r[i] == ToLower(s[i])
  {
    seq(|s|, i requires 0 <= i < |s| => ToLower(s[i]))
  }

  predicate IsLowerCase(s: string) {
    forall i :: 0 <= i < |s| ==> !IsUpper(s[i])
  }

  lemma LowerStringIsLowerCase(s: string)
    ensures IsLowerCase(LowerString(s))
    ensures LowerString(LowerString(s)) == LowerString(s)
  {
  }

  function DigitChar(d: nat): (c: char)
    requires d < 10
    ensures IsDigit(c)
  {
    ('0' as int + d) as char
  }

  function DigitValue(c: char): (d: nat)
    requires IsDigit(c)
    ensures d < 10 && DigitChar(d) == c
  {
    c as int - '0' as int
  }

  /** Decimal digits of a natural number, most significant first, no leading zeros. */
  function NatToString(n: nat): (s: string)
    ensures |s| > 0
    ensures forall i :: 0 <= i < |s| ==> IsDigit(s[i])
    decreases n
  {
    if n < 10 then [DigitChar(n)] else NatToString(n / 10) + [DigitChar(n % 10)]
  }

  /** How JavaScript renders an integral number below 1e21 in magnitude: decimal, with a leading '-' when negative. */
  function IntToString(n: int): (s: string)
    ensures |s| > 0
    ensures n >= 0 ==> s == NatToString(n)
    ensures n < 0 ==> s == "-" + NatToString(-n)
    ensures s[0] == '-' <==> n < 0
  {
    if n < 0 then "-" + NatToString(-n) else NatToString(n)
  }

  /** Different numbers are written differently. */
  lemma {:induction false} NatToStringIsInjective(a: nat, b: nat)
    requires NatToString(a) == NatToString(b)
    ensures a == b
    decreases a
  {
    var s := NatToString(a);
    if a >= 10 && b >= 10 {
      assert NatToString(a / 10) == s[..|s| - 1] == NatToString(b / 10);
      NatToStringIsInjective(a / 10, b / 10);
      assert DigitValue(DigitChar(a % 10)) == a % 10;
      assert DigitValue(DigitChar(b % 10)) == b % 10;
    } else if a < 10 && b < 10 {
      assert DigitValue(DigitChar(a)) == a && DigitValue(DigitChar(b)) == b;
    }
  }

  lemma {:induction false} IntToStringIsInjective(a: int, b: int)
    requires IntToString(a) == IntToString(b)
    ensures a == b
  {
    var s := IntToString(a);
    if a < 0 && b < 0 {
      assert s[1..] == NatToString(-a) == NatToString(-b);
      NatToStringIsInjective(-a, -b);
    } else if a >= 0 && b >= 0 {
      NatToStringIsInjective(a, b);
    }
  }
}
