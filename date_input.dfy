/**
 * The date field's auto-formatter: as the user types, everything but digits is dropped and
 * the digits are laid out as `YYYY-MM-DD`.
 */
module DateInput {
  import JsText
  import Seqs

  /** `s.replace(/-/g, '')` */
  function WithoutDashes(s: string): string
  {
    Seqs.Filter(s, (c: char) => c != '-')
  }

  /**
   * The layout of a digit string by its length: up to 4 digits as typed, 5 or 6 as
   * `DDDD-rest`, 7 or more as `DDDD-DD-` and the next one or two digits.
   */
  function Layout(d: string): string
  {
    if |d| <= 4 then d
    else if |d| <= 6 then d[..4] + "-" + d[4..]
    else d[..4] + "-" + d[4..6] + "-" + d[6..if |d| < 8 then |d| else 8]
  }

  /** What `handleDateChange` hands on: the typed digits, laid out. */
  function AutoFormatDate(text: string): string
  {
    Layout(JsText.KeepDigits(text))
  }

  /** `handleDateChange(text)`: the value handed to `onChangeText`, built in two steps. */
  method HandleDateChange(text: string) returns (formatted: string)
    ensures formatted == AutoFormatDate(text)
  {
    formatted := JsText.KeepDigits(text);
    if |formatted| > 4 {
      formatted := formatted[..4] + "-" + formatted[4..];
    }
    if |formatted| > 7 {
      var tail := formatted[7..if |formatted| < 9 then |formatted| else 9];
      formatted := formatted[..7] + "-" + tail;
    }
  }

  /** The output holds only digits and `-`, and is at most `YYYY-MM-DD` long. */
  lemma {:induction false} FormattedShape(text: string)
    ensures var f := AutoFormatDate(text);
      && (forall i :: 0 <= i < |f| ==> JsText.IsDigit(f[i]) || f[i] == '-')
      && |f| <= 10
  {
    var d := JsText.KeepDigits(text);
    var f := AutoFormatDate(text);
    forall i | 0 <= i < |f|
      ensures JsText.IsDigit(f[i]) || f[i] == '-'
    {
      if |d| > 6 {
        var e := if |d| < 8 then |d| else 8;
        assert f == d[..4] + "-" + d[4..6] + "-" + d[6..e];
        if i < 4 { assert f[i] == d[i]; }
        else if 4 < i < 7 { assert f[i] == d[i - 1]; }
        else if i > 7 { assert f[i] == d[i - 2]; }
      } else if |d| > 4 {
        if i < 4 { assert f[i] == d[i]; }
        else if i > 4 { assert f[i] == d[i - 1]; }
      }
    }
  }

  /** The layout by digit count: at most 4 unchanged, 5 or 6 as `DDDD-rest`, 7 or more as `DDDD-DD-D(D)`. */
  lemma {:induction false} FormattedByDigitCount(text: string)
    ensures var d := JsText.KeepDigits(text); var f := AutoFormatDate(text);
      && (|d| <= 4 ==> f == d)
      && (4 < |d| <= 6 ==> f == d[..4] + "-" + d[4..])
      && (|d| == 7 ==> f == d[..4] + "-" + d[4..6] + "-" + d[6..7])
      && (|d| >= 8 ==> f == d[..4] + "-" + d[4..6] + "-" + d[6..8])
  {
  }

  /** A filter that drops `-` sees through one dash between two pieces. */
  lemma {:induction false} FilterAcrossDash(a: string, b: string, keep: char -> bool)
    requires !keep('-')
    ensures Seqs.Filter(a + "-" + b, keep) == Seqs.Filter(a, keep) + Seqs.Filter(b, keep)
  {
    Seqs.FilterConcat(a, "-", keep);
    Seqs.FilterConcat(a + "-", b, keep);
    assert Seqs.Filter("-", keep) == [];
  }

  /** A filter that keeps every digit keeps a run of digits whole. */
  lemma {:induction false} FilterKeepsDigits(d: string, keep: char -> bool)
    requires forall c :: JsText.IsDigit(c) ==> keep(c)
    requires JsText.AllDigits(d)
    ensures Seqs.Filter(d, keep) == d
  {
    assert forall k :: 0 <= k < |d| ==> JsText.IsDigit(d[k]);
    Seqs.FilterKeepsAll(d, keep);
  }

  /** The `DDDD-rest` case of `FilterLayout`. */
  lemma {:induction false} FilterTwoParts(d: string, keep: char -> bool)
    requires forall c :: JsText.IsDigit(c) ==> keep(c)
    requires !keep('-')
    requires JsText.AllDigits(d) && 4 < |d| <= 6
    ensures Seqs.Filter(d[..4] + "-" + d[4..], keep) == d
  {
    FilterAcrossDash(d[..4], d[4..], keep);
    FilterKeepsDigits(d[..4], keep);
    FilterKeepsDigits(d[4..], keep);
    assert d[..4] + d[4..] == d;
  }

  /** The `DDDD-DD-D(D)` case of `FilterLayout`. */
  lemma {:induction false} FilterThreeParts(d: string, e: int, keep: char -> bool)
    requires forall c :: JsText.IsDigit(c) ==> keep(c)
    requires !keep('-')
    requires JsText.AllDigits(d) && 6 < e <= |d|
    ensures Seqs.Filter(d[..4] + "-" + d[4..6] + "-" + d[6..e], keep) == d[..e]
  {
    FilterAcrossDash(d[..4] + "-" + d[4..6], d[6..e], keep);
    FilterAcrossDash(d[..4], d[4..6], keep);
    FilterKeepsDigits(d[..4], keep);
    FilterKeepsDigits(d[4..6], keep);
    FilterKeepsDigits(d[6..e], keep);
    assert d[..4] + d[4..6] + d[6..e] == d[..e];
  }

  /**
   * A filter that keeps digits and drops `-` turns the layout of a digit string back into
   * its first `min(n, 8)` digits.
   */
  lemma {:induction false} FilterLayout(d: string, keep: char -> bool)
    requires forall c :: JsText.IsDigit(c) ==> keep(c)
    requires !keep('-')
    requires JsText.AllDigits(d)
    ensures Seqs.Filter(Layout(d), keep) == d[..if |d| < 8 then |d| else 8]
  {
    if 4 < |d| <= 6 {
      FilterTwoParts(d, keep);
    } else if |d| > 6 {
      FilterThreeParts(d, if |d| < 8 then |d| else 8, keep);
    } else {
      FilterKeepsDigits(d, keep);
      assert d[..|d|] == d;
    }
  }

  /** Removing the dashes from the output gives the first `min(n, 8)` digits typed, in order. */
  lemma DashesRemovedGiveDigits(text: string)
    ensures var d := JsText.KeepDigits(text);
      WithoutDashes(AutoFormatDate(text)) == d[..if |d| < 8 then |d| else 8]
  {
    FilterLayout(JsText.KeepDigits(text), (c: char) => c != '-');
  }

  /** The digits of the output are the first `min(n, 8)` digits typed. */
  lemma DigitsOfFormatted(text: string)
    ensures var d := JsText.KeepDigits(text);
      JsText.KeepDigits(AutoFormatDate(text)) == d[..if |d| < 8 then |d| else 8]
  {
    FilterLayout(JsText.KeepDigits(text), JsText.IsDigit);
  }

  /** Formatting an already formatted value returns it unchanged. */
  lemma {:induction false} FormatIdempotent(text: string)
    ensures AutoFormatDate(AutoFormatDate(text)) == AutoFormatDate(text)
  {
    var d := JsText.KeepDigits(text);
    var e := if |d| < 8 then |d| else 8;
    DigitsOfFormatted(text);
    var d' := d[..e];
    assert JsText.KeepDigits(AutoFormatDate(text)) == d';
    if |d| > 6 {
      assert d'[..4] == d[..4] && d'[4..6] == d[4..6] && d'[6..] == d[6..e];
    } else if |d| > 4 {
      assert d' == d;
    }
  }
}
