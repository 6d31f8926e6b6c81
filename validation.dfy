/**
 * The form validators. Each returns `None` (JavaScript `null`) when the value is acceptable
 * and `Some(message)` otherwise; a form value is the string its input holds, the empty string
 * when nothing was typed. The `URL` and `Date` constructors are predicates given as parameters.
 */
module Validation {
  import opened Wrappers
  import opened JsText

  /** `validateRequired(value, fieldName)`: an error exactly for an empty or all-white-space value. */
  function ValidateRequired(value: string, fieldName: string): (r: Option<string>)
    ensures r.Some? <==> forall i :: 0 <= i < |value| ==> IsWhite(value[i])
    ensures r.Some? ==> r.value == fieldName + " is required"
  {
    TrimEmptyIffBlank(value);
    if value == "" || Trim(value) == "" then Some(fieldName + " is required") else None
  }

  // ---------- e-mail ----------

  /** `[^\s@]+`: a non-empty run without white space and without `@`. */
  predicate EmailWord(s: string)
  {
    s != [] && forall i :: 0 <= i < |s| ==> !IsWhite(s[i]) && s[i] != '@'
  }

  /**
   * `/^[^\s@]+@[^\s@]+\.[^\s@]+$/.test(s)`: the string is a word, `@`, a word, `.` and a word
   * (the middle word may itself contain dots).
   */
  ghost predicate MatchesEmailPattern(s: string)
  {
    exists at, dot :: 0 < at && at + 1 < dot && dot + 1 < |s| && s[at] == '@' && s[dot] == '.'
      && EmailWord(s[..at]) && EmailWord(s[at + 1..dot]) && EmailWord(s[dot + 1..])
  }

  /** The first index of `c` in `s`, or -1. */
  function IndexOf(s: string, c: char): (i: int)
    ensures -1 <= i < |s|
    ensures i == -1 <==> c !in s
    ensures i >= 0 ==> s[i] == c && c !in s[..i]
  {
    if s == [] then -1
    else if s[0] == c then 0
    else
      var k := IndexOf(s[1..], c);
      assert k >= 0 ==> s[..k + 1] == [s[0]] + s[1..][..k];
      if k == -1 then -1 else k + 1
  }

  /** The test the regular expression performs, read left to right. */
  function IsEmailShaped(s: string): bool
  {
    var at := IndexOf(s, '@');
    && at > 0
    && (forall i :: 0 <= i < |s| ==> !IsWhite(s[i]))
    && '@' !in s[at + 1..]
    && |s| - at >= 4
    && '.' in s[at + 2..|s| - 1]
  }

  /** Whatever the left-to-right test accepts, the regular expression matches. */
  lemma {:induction false} ShapedMatchesPattern(s: string)
    requires IsEmailShaped(s)
    ensures MatchesEmailPattern(s)
  {
    var at := IndexOf(s, '@');
    var mid := s[at + 2..|s| - 1];
    var k := IndexOf(mid, '.');
    var dot := at + 2 + k;
    assert s[dot] == '.';
    assert forall i :: 0 <= i < at ==> s[..at][i] == s[i] && s[i] != '@';
    assert forall i :: at + 1 <= i < |s| ==> s[i] in s[at + 1..];
    assert EmailWord(s[..at]);
    assert EmailWord(s[at + 1..dot]);
    assert EmailWord(s[dot + 1..]);
  }

  /** In a string the pattern matches, the `@` between the first two words is the only one. */
  lemma {:induction false} PatternHasOneAt(s: string, a: int, d: int)
    requires 0 < a && a + 1 < d && d + 1 < |s| && s[a] == '@' && s[d] == '.'
    requires EmailWord(s[..a]) && EmailWord(s[a + 1..d]) && EmailWord(s[d + 1..])
    ensures forall i :: 0 <= i < |s| && i != a ==> s[i] != '@' && !IsWhite(s[i])
    ensures !IsWhite(s[a])
  {
    forall i | 0 <= i < |s| && i != a
      ensures s[i] != '@' && !IsWhite(s[i])
    {
      if i < a {
        assert s[..a][i] == s[i];
      } else if i < d {
        assert s[a + 1..d][i - a - 1] == s[i];
      } else if i > d {
        assert s[d + 1..][i - d - 1] == s[i];
      }
    }
  }

  /** Whatever the regular expression matches, the left-to-right test accepts. */
  lemma {:induction false} PatternIsShaped(s: string)
    requires MatchesEmailPattern(s)
    ensures IsEmailShaped(s)
  {
    var a, d :| 0 < a && a + 1 < d && d + 1 < |s| && s[a] == '@' && s[d] == '.'
      && EmailWord(s[..a]) && EmailWord(s[a + 1..d]) && EmailWord(s[d + 1..]);
    PatternHasOneAt(s, a, d);
    var at := IndexOf(s, '@');
    assert at == a;
    assert s[at + 2..|s| - 1][d - at - 2] == '.';
  }

  /** The left-to-right test accepts exactly the strings the regular expression matches. */
  lemma EmailShapeMatchesPattern(s: string)
    ensures IsEmailShaped(s) <==> MatchesEmailPattern(s)
  {
    if IsEmailShaped(s) {
      ShapedMatchesPattern(s);
    }
    if MatchesEmailPattern(s) {
      PatternIsShaped(s);
    }
  }

  /** `validateEmail(email)`: empty is accepted; otherwise an error exactly when the pattern fails. */
  function ValidateEmail(email: string): (r: Option<string>)
    ensures r.None? <==> email == "" || MatchesEmailPattern(email)
    ensures r.Some? ==> r.value == "Please enter a valid email address"
  {
    EmailShapeMatchesPattern(email);
    if email == "" then None
    else if !IsEmailShaped(email) then Some("Please enter a valid email address")
    else None
  }

  /**
   * An accepted address has exactly one `@`, no white space, and a dot after the `@` with
   * text on both sides of it.
   */
  lemma {:induction false} AcceptedEmailShape(email: string)
    requires email != "" && ValidateEmail(email).None?
    ensures exists at :: 0 < at < |email| && email[at] == '@' && (forall i :: 0 <= i < |email| && i != at ==> email[i] != '@')
    ensures forall i :: 0 <= i < |email| ==> !IsWhite(email[i])
    ensures exists at, dot :: 0 < at && at + 1 < dot < |email| - 1 && email[at] == '@' && email[dot] == '.'
  {
    EmailShapeMatchesPattern(email);
    var at := IndexOf(email, '@');
    assert forall i :: at < i < |email| ==> email[i] in email[at + 1..];
    assert forall i :: 0 <= i < at ==> email[i] in email[..at];
    assert 0 < at < |email| && email[at] == '@';
    var mid := email[at + 2..|email| - 1];
    var k := IndexOf(mid, '.');
    assert email[at + 2 + k] == '.';
  }

  // ---------- URL, date, integer ----------

  /** `validateURL(url)`, with `new URL(url)` not throwing given as `parsesAsUrl`. */
  function ValidateUrl(url: string, parsesAsUrl: string -> bool): (r: Option<string>)
    ensures r.None? <==> url == "" || parsesAsUrl(url)
    ensures r.Some? ==> r.value == "Please enter a valid URL (e.g., https://example.com)"
  {
    if url == "" then None
    else if parsesAsUrl(url) then None
    else Some("Please enter a valid URL (e.g., https://example.com)")
  }

  /** `/^\d{4}-\d{2}-\d{2}$/.test(s)` */
  predicate DateShaped(s: string)
  {
    && |s| == 10
    && IsDigit(s[0]) && IsDigit(s[1]) && IsDigit(s[2]) && IsDigit(s[3]) && s[4] == '-'
    && IsDigit(s[5]) && IsDigit(s[6]) && s[7] == '-' && IsDigit(s[8]) && IsDigit(s[9])
  }

  const DATE_FORMAT_MESSAGE := "Please enter date in YYYY-MM-DD format"
  const INVALID_DATE_MESSAGE := "Please enter a valid date"

  /**
   * `validateDate(s)`: empty is accepted, a string of the wrong shape gets the format message,
   * a well-shaped one that `new Date` cannot read (`isValidDate` false) gets the second message.
   */
  function ValidateDate(s: string, isValidDate: string -> bool): (r: Option<string>)
    ensures s == "" ==> r.None?
    ensures s != "" && !DateShaped(s) ==> r == Some(DATE_FORMAT_MESSAGE)
    ensures s != "" && DateShaped(s) ==> r == (if isValidDate(s) then None else Some(INVALID_DATE_MESSAGE))
  {
    if s == "" then None
    else if !DateShaped(s) then Some(DATE_FORMAT_MESSAGE)
    else if !isValidDate(s) then Some(INVALID_DATE_MESSAGE)
    else None
  }

  /**
   * `validateInteger(value, fieldName)`: empty is accepted; otherwise an error exactly when
   * `parseInt(value, 10)` finds no leading integer or a negative one.
   */
  function ValidateInteger(value: string, fieldName: string): (r: Option<string>)
    ensures r.None? <==> value == "" || (ParseInt(value, Ten).Some? && ParseInt(value, Ten).value >= 0)
    ensures r.Some? ==> r.value == fieldName + " must be a non-negative whole number"
  {
    if value == "" then None
    else
      match ParseInt(value, Ten)
      case None => Some(fieldName + " must be a non-negative whole number")
      case Some(n) => if n < 0 then Some(fieldName + " must be a non-negative whole number") else None
  }

  /** A digit prefix is enough: "12abc" is accepted. */
  lemma {:induction false} DigitPrefixAccepted(fieldName: string)
    ensures ValidateInteger("12abc", fieldName) == None
  {
    ParseIntReadsPrefix();
  }

  /** Text without a leading digit is refused. */
  lemma {:induction false} NoDigitsRefused(fieldName: string)
    ensures ValidateInteger("abc", fieldName).Some?
  {
    ParseIntWithoutDigits();
  }

  /** A negative whole number is refused. */
  lemma {:induction false} NegativeRefused(fieldName: string)
    ensures ValidateInteger("-3", fieldName).Some?
  {
    assert "-3" == "-" + "3";
    ParseIntOfNegative("3", Ten);
  }

  /** Every non-empty digit string is a valid whole number. */
  lemma {:induction false} DigitsAreIntegers(value: string, fieldName: string)
    requires value != "" && AllDigits(value)
    ensures ValidateInteger(value, fieldName) == None
  {
    ParseIntOfDigits(value, Ten);
  }
}
