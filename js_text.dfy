/**
 * The parts of JavaScript's string library the client relies on: `trim`, `split` on one
 * character, the `/[^...]/g` character filters (as `Seqs.Filter`), and `parseInt`.
 */
module JsText {
  import opened Wrappers
  import opened JsValues
  import Seqs

  /** ECMAScript WhiteSpace and LineTerminator characters: what `trim`, `parseInt` and `\s` skip. */
  predicate IsWhite(c: char)
  {
    || c == ' ' || c == '\t' || c == '\n' || c == '\U{000B}' || c == '\U{000C}' || c == '\r'
    || c == '\U{00A0}' || c == '\U{1680}' || ('\U{2000}' <= c <= '\U{200A}')
    || c == '\U{2028}' || c == '\U{2029}' || c == '\U{202F}' || c == '\U{205F}'
    || c == '\U{3000}' || c == '\U{FEFF}'
  }

  /** `\d` and `[0-9]`: the ASCII digits. */
  predicate IsDigit(c: char)
  {
    '0' <= c <= '9'
  }

  /** Every character of `s` is an ASCII digit. */
  predicate AllDigits(s: string)
  {
    forall i :: 0 <= i < |s| ==> IsDigit(s[i])
  }

  /**
   * `text.replace(/[^0-9]/g, '')`: the digits of `text`, in order; text made only of digits
   * is kept as it is.
   */
  function KeepDigits(text: string): (d: string)
    ensures AllDigits(d)
    ensures |d| <= |text|
    ensures AllDigits(text) ==> d == text
  {
    if AllDigits(text) then Seqs.FilterKeepsAll(text, IsDigit); Seqs.Filter(text, IsDigit)
    else Seqs.Filter(text, IsDigit)
  }

  /**
   * `KeepDigits` keeps every digit of `text` as often as it occurs, in order, and drops
   * every other character.
   */
  lemma {:induction false} KeepDigitsKeepsEveryDigit(text: string)
    ensures forall c :: multiset(KeepDigits(text))[c] == (if IsDigit(c) then multiset(text)[c] else 0)
    ensures Seqs.IsSubsequence(KeepDigits(text), text)
  {
    Seqs.FilterCounts(text, IsDigit);
    Seqs.FilterIsSubsequence(text, IsDigit);
  }

  /** `s.trimStart()`: drops the leading white space and nothing else. */
  function TrimStart(s: string): (r: string)
    ensures |r| <= |s| && r == s[|s| - |r|..]
    ensures r == [] || !IsWhite(r[0])
    ensures forall i :: 0 <= i < |s| - |r| ==> IsWhite(s[i])
  {
    if s != [] && IsWhite(s[0]) then TrimStart(s[1..]) else s
  }

  /** `s.trimEnd()`: drops the trailing white space and nothing else. */
  function TrimEnd(s: string): (r: string)
    ensures |r| <= |s| && r == s[..|r|]
    ensures r == [] || !IsWhite(r[|r| - 1])
    ensures forall i :: |r| <= i < |s| ==> IsWhite(s[i])
  {
    if s != [] && IsWhite(s[|s| - 1]) then TrimEnd(s[..|s| - 1]) else s
  }

  /** `s.trim()` */
  function Trim(s: string): string
  {
    TrimEnd(TrimStart(s))
  }

  /** `s.trim() === ''` holds exactly for the strings made only of white space. */
  lemma TrimEmptyIffBlank(s: string)
    ensures Trim(s) == "" <==> forall i :: 0 <= i < |s| ==> IsWhite(s[i])
  {
  }

  /** The number of occurrences of `c` in `s`. */
  function Count(s: string, c: char): nat
  {
    if s == [] then 0 else (if s[0] == c then 1 else 0) + Count(s[1..], c)
  }

  /** `s.split(sep)` for a one-character separator. */
  function Split(s: string, sep: char): (parts: seq<string>)
    ensures |parts| == Count(s, sep) + 1
    ensures forall i :: 0 <= i < |parts| ==> sep !in parts[i]
  {
    if s == [] then [""]
    else
      var rest := Split(s[1..], sep);
      if s[0] == sep then [""] + rest else [[s[0]] + rest[0]] + rest[1..]
  }

  /** `parts.join(sep)`, the inverse of `Split`. */
  function Join(parts: seq<string>, sep: char): string
    requires |parts| >= 1
  {
    if |parts| == 1 then parts[0] else parts[0] + [sep] + Join(parts[1..], sep)
  }

  /** Splitting loses nothing: joining the parts back gives the original string. */
  lemma {:induction false} SplitJoin(s: string, sep: char)
    ensures Join(Split(s, sep), sep) == s
  {
    if s != [] {
      var rest := Split(s[1..], sep);
      SplitJoin(s[1..], sep);
      if s[0] == sep {
        assert Split(s, sep)[1..] == rest;
      } else {
        assert Split(s, sep)[1..] == rest[1..];
        if |rest| > 1 {
          assert rest[1..] == rest[1..];
          assert Join(rest, sep) == rest[0] + [sep] + Join(rest[1..], sep);
        }
      }
    }
  }

  /** A string without the separator splits into itself. */
  lemma {:induction false} SplitWithoutSeparator(s: string, sep: char)
    requires sep !in s
    ensures Split(s, sep) == [s]
  {
    if s != [] {
      assert sep !in s[1..];
      SplitWithoutSeparator(s[1..], sep);
      assert [s[0]] + s[1..] == s;
    }
  }

  /** Splitting `a + sep + b`, with no separator in `a`, yields `a` and then the parts of `b`. */
  lemma {:induction false} SplitAtFirst(a: string, sep: char, b: string)
    requires sep !in a
    ensures Split(a + [sep] + b, sep) == [a] + Split(b, sep)
  {
    if a == [] {
      assert [sep] + b == a + [sep] + b;
      assert ([sep] + b)[1..] == b;
    } else {
      assert (a + [sep] + b)[1..] == a[1..] + [sep] + b;
      assert sep !in a[1..];
      SplitAtFirst(a[1..], sep, b);
      assert (a + [sep] + b)[0] == a[0] != sep;
      assert [a[0]] + a[1..] == a;
    }
  }

  /** Joining parts that do not contain the separator and splitting again gives the parts back. */
  lemma {:induction false} JoinSplit(parts: seq<string>, sep: char)
    requires |parts| >= 1
    requires forall i :: 0 <= i < |parts| ==> sep !in parts[i]
    ensures Split(Join(parts, sep), sep) == parts
  {
    if |parts| == 1 {
      SplitWithoutSeparator(parts[0], sep);
    } else {
      JoinSplit(parts[1..], sep);
      SplitAtFirst(parts[0], sep, Join(parts[1..], sep));
    }
  }

  /** Three colon-free strings joined by colons split back into themselves. */
  lemma SplitThree(a: string, b: string, c: string)
    requires ':' !in a && ':' !in b && ':' !in c
    ensures Split(a + ":" + b + ":" + c, ':') == [a, b, c]
  {
    var parts := [a, b, c];
    assert parts[1..] == [b, c];
    assert [b, c][1..] == [c];
    assert Join([c], ':') == c;
    assert Join([b, c], ':') == b + [':'] + c;
    assert Join(parts, ':') == a + [':'] + (b + [':'] + c);
    assert a + [':'] + (b + [':'] + c) == a + ":" + b + ":" + c;
    assert forall i :: 0 <= i < |parts| ==> ':' !in parts[i];
    JoinSplit(parts, ':');
  }

  /** The radix argument of `parseInt`: absent (prefix `0x` switches to 16) or 10. */
  datatype Radix = Auto | Ten

  /** `c` is a digit of base 10 or base 16. */
  predicate IsDigitIn(c: char, base: nat)
  {
    IsDigit(c) || (base == 16 && (('a' <= c <= 'f') || ('A' <= c <= 'F')))
  }

  /** The numeric value of a (hexadecimal or decimal) digit character. */
  function DigitValue(c: char): nat
  {
    if IsDigit(c) then c as int - '0' as int
    else if 'a' <= c <= 'f' then c as int - 'a' as int + 10
    else if 'A' <= c <= 'F' then c as int - 'A' as int + 10
    else 0
  }

  /** The longest prefix of `s` made of digits of `base`. */
  function DigitPrefix(s: string, base: nat): (d: string)
    ensures |d| <= |s| && d == s[..|d|]
    ensures forall i :: 0 <= i < |d| ==> IsDigitIn(d[i], base)
    ensures |d| < |s| ==> !IsDigitIn(s[|d|], base)
  {
    if s != [] && IsDigitIn(s[0], base) then [s[0]] + DigitPrefix(s[1..], base) else []
  }

  /** The value of a digit string in `base`, most significant digit first. */
  function DigitsValue(ds: string, base: nat): nat
  {
    if ds == [] then 0 else DigitsValue(ds[..|ds| - 1], base) * base + DigitValue(ds[|ds| - 1])
  }

  /**
   * `parseInt(s)` (radix `Auto`) or `parseInt(s, 10)`: skip leading white space, read one
   * optional sign, with no radix accept a `0x`/`0X` prefix for base 16, then read the longest
   * run of digits. `None` is `NaN`, returned when that run is empty.
   */
  function ParseInt(s: string, radix: Radix): Option<int>
  {
    var t := TrimStart(s);
    var negative := t != [] && t[0] == '-';
    var u := if t != [] && (t[0] == '-' || t[0] == '+') then t[1..] else t;
    var hex := radix == Auto && |u| >= 2 && u[0] == '0' && (u[1] == 'x' || u[1] == 'X');
    var base := if hex then 16 else 10;
    var ds := DigitPrefix(if hex then u[2..] else u, base);
    var magnitude: int := DigitsValue(ds, base);
    if ds == [] then None
    else if negative then Some(-magnitude)
    else Some(magnitude)
  }

  /** A string of digits is its own longest digit prefix. */
  lemma {:induction false} DigitPrefixOfDigits(s: string)
    requires AllDigits(s)
    ensures DigitPrefix(s, 10) == s
  {
    if s != [] {
      DigitPrefixOfDigits(s[1..]);
    }
  }

  /**
   * On a non-empty string of ASCII digits `parseInt` (with or without radix 10) reads the
   * whole string and returns its non-negative decimal value.
   */
  lemma {:induction false} ParseIntOfDigits(s: string, radix: Radix)
    requires s != [] && AllDigits(s)
    ensures ParseInt(s, radix) == Some(DigitsValue(s, 10))
  {
    assert !IsWhite(s[0]) && s[0] != '-' && s[0] != '+';
    assert TrimStart(s) == s;
    assert !(|s| >= 2 && (s[1] == 'x' || s[1] == 'X'));
    DigitPrefixOfDigits(s);
  }

  /** A natural number's decimal spelling reads back as that number. */
  lemma {:induction false} DecimalRoundTrip(n: nat)
    ensures DigitsValue(NatToDecimal(n), 10) == n
  {
    if n >= 10 {
      DecimalRoundTrip(n / 10);
      var s := NatToDecimal(n);
      assert s[..|s| - 1] == NatToDecimal(n / 10);
    }
  }

  /** A minus sign followed by digits reads as the negated decimal value. */
  lemma {:induction false} ParseIntOfNegative(d: string, radix: Radix)
    requires d != [] && AllDigits(d)
    ensures ParseInt("-" + d, radix) == Some(-(DigitsValue(d, 10) as int))
  {
    var s := "-" + d;
    assert s[0] == '-' && !IsWhite(s[0]);
    assert TrimStart(s) == s;
    assert s[1..] == d;
    assert !(|d| >= 2 && (d[1] == 'x' || d[1] == 'X'));
    DigitPrefixOfDigits(d);
  }

  /** The decimal spelling of a natural number reads back as that number. */
  lemma {:induction false} ParseIntOfNatDecimal(m: nat, radix: Radix)
    ensures ParseInt(NatToDecimal(m), radix) == Some(m)
  {
    var d := NatToDecimal(m);
    ParseIntOfDigits(d, radix);
    DecimalRoundTrip(m);
    assert DigitsValue(d, 10) == m;
  }

  /** `parseInt` reads a digit prefix and ignores what follows: "12abc" gives 12. */
  lemma {:induction false} ParseIntReadsPrefix()
    ensures ParseInt("12abc", Ten) == Some(12)
  {
    var s := "12abc";
    assert !IsWhite(s[0]) && s[0] != '-' && s[0] != '+';
    assert TrimStart(s) == s;
    assert s[1..] == "2abc" && "2abc"[1..] == "abc";
    assert !IsDigitIn("abc"[0], 10);
    assert DigitPrefix("abc", 10) == "";
    assert DigitPrefix("2abc", 10) == "2";
    assert DigitPrefix(s, 10) == "12";
    assert "12"[..1] == "1" && "1"[..0] == [];
    assert DigitsValue("1", 10) == 1;
    assert DigitsValue("12", 10) == 12;
  }

  /** A string that does not start with a digit is `NaN`: "abc" gives `None`. */
  lemma {:induction false} ParseIntWithoutDigits()
    ensures ParseInt("abc", Ten) == None
  {
    var s := "abc";
    assert !IsWhite(s[0]) && s[0] != '-' && s[0] != '+';
    assert TrimStart(s) == s;
    assert !IsDigitIn(s[0], 10);
    assert DigitPrefix(s, 10) == "";
  }

  /** Without a radix a `0x` prefix switches to base 16: "0x1A" gives 26. */
  lemma {:induction false} ParseIntHexPrefix()
    ensures ParseInt("0x1A", Auto) == Some(26)
  {
    var s := "0x1A";
    assert !IsWhite(s[0]);
    assert TrimStart(s) == s;
    assert s[2..] == "1A";
    assert "1A"[1..] == "A";
    assert "A"[1..] == [];
    assert DigitPrefix("A", 16) == "A";
    assert DigitPrefix("1A", 16) == "1A";
    assert "1A"[..1] == "1";
    assert "1"[..0] == [];
    assert DigitsValue("1", 16) == 1;
    assert DigitsValue("1A", 16) == 26;
  }
}
