/**
 * The JavaScript values the client's logic inspects: identifiers, primitive field values,
 * their truthiness and their `String(...)` conversion, and the flat records of the five
 * resource types. Numbers are mathematical integers in this model.
 */
module JsValues {

  /** An identifier as it arrives from the server or the UI: a number or a string. */
  datatype Id = Num(n: int) | Str(s: string)

  /**
   * A primitive JavaScript value. Numbers are integers or `NaN`; fractional numbers are not
   * part of the model. The model never compares a `NaN` with `===`, so Dafny's equality on
   * values, for which `NaN == NaN`, only ever meets the other constructors.
   */
  datatype Value = Undefined | Null | Bool(b: bool) | Number(n: int) | NaN | Text(s: string)

  /** JavaScript truthiness: `undefined`, `null`, `false`, `0`, `NaN` and `''` are falsy. */
  predicate Truthy(v: Value)
  {
    match v
    case Undefined => false
    case Null => false
    case Bool(b) => b
    case Number(n) => n != 0
    case NaN => false
    case Text(s) => s != ""
  }

  /** `a || b` */
  function Or(a: Value, b: Value): Value
  {
    if Truthy(a) then a else b
  }

  /** An identifier seen as a JavaScript value. */
  function FromId(id: Id): Value
  {
    match id
    case Num(n) => Number(n)
    case Str(s) => Text(s)
  }

  /** The decimal digit character for `d`. */
  function DigitChar(d: nat): (c: char)
    requires d < 10
    ensures '0' <= c <= '9'
  {
    ('0' as int + d) as char
  }

  /** The decimal spelling of a natural number, without leading zeros. */
  function NatToDecimal(n: nat): (s: string)
    ensures |s| >= 1
    ensures forall i :: 0 <= i < |s| ==> '0' <= s[i] <= '9'
    ensures n < 10 <==> |s| == 1
    ensures |s| > 1 ==> s[0] != '0'
  {
    if n < 10 then [DigitChar(n)] else NatToDecimal(n / 10) + [DigitChar(n % 10)]
  }

  /** The decimal spelling of an integer, `-` first when it is negative. */
  function IntToDecimal(n: int): string
  {
    if n < 0 then "-" + NatToDecimal(-n) else NatToDecimal(n)
  }

  /** `String(v)` */
  function ToStr(v: Value): string
  {
    match v
    case Undefined => "undefined"
    case Null => "null"
    case Bool(b) => if b then "true" else "false"
    case Number(n) => IntToDecimal(n)
    case NaN => "NaN"
    case Text(s) => s
  }

  /** `String(id)`: the form in which the older reducers and the components compare identifiers. */
  function IdString(id: Id): string
  {
    ToStr(FromId(id))
  }

  /** Different natural numbers have different decimal spellings. */
  lemma {:induction false} NatToDecimalInjective(a: nat, b: nat)
    ensures NatToDecimal(a) == NatToDecimal(b) <==> a == b
  {
    if NatToDecimal(a) == NatToDecimal(b) && a >= 10 && b >= 10 {
      var sa, sb := NatToDecimal(a), NatToDecimal(b);
      assert sa[..|sa| - 1] == NatToDecimal(a / 10);
      assert sb[..|sb| - 1] == NatToDecimal(b / 10);
      NatToDecimalInjective(a / 10, b / 10);
      assert sa[|sa| - 1] == DigitChar(a % 10);
      assert sb[|sb| - 1] == DigitChar(b % 10);
    }
  }

  /** Different integers have different decimal spellings. */
  lemma IntToDecimalInjective(a: int, b: int)
    ensures IntToDecimal(a) == IntToDecimal(b) <==> a == b
  {
    if IntToDecimal(a) == IntToDecimal(b) {
      if a < 0 && b < 0 {
        assert IntToDecimal(a)[1..] == NatToDecimal(-a);
        assert IntToDecimal(b)[1..] == NatToDecimal(-b);
        NatToDecimalInjective(-a, -b);
      } else if a >= 0 && b >= 0 {
        NatToDecimalInjective(a, b);
      }
    }
  }

  /**
   * Comparing by `String(...)` identifies a numeric id with the string of its digits,
   * and nothing else: two numeric ids are string-equal exactly when they are equal,
   * and `Num(n)` is string-equal to `Str(s)` exactly when `s` is the decimal spelling of `n`.
   */
  lemma IdStringMatches(a: Id, b: Id)
    ensures a.Num? && b.Num? ==> (IdString(a) == IdString(b) <==> a == b)
    ensures a.Str? && b.Str? ==> (IdString(a) == IdString(b) <==> a == b)
    ensures a.Num? && b.Str? ==> (IdString(a) == IdString(b) <==> b.s == IntToDecimal(a.n))
  {
    if a.Num? && b.Num? {
      IntToDecimalInjective(a.n, b.n);
    }
  }

  /** The number 5 and the string "5" are the same identifier once converted to strings. */
  lemma NumberFiveIsStringFive()
    ensures IdString(Num(5)) == IdString(Str("5"))
    ensures Num(5) != Str("5")
  {
    assert NatToDecimal(5) == "5";
  }

  /** `obj[key]` on a plain object: a missing property reads as `undefined`. */
  function Lookup(obj: map<string, Value>, key: string): Value
  {
    if key in obj then obj[key] else Undefined
  }

  /** A flat record of one of the five resource types: its id and its other fields. */
  datatype Record = Record(id: Id, fields: map<string, Value>)

  /** `r[key]`: the id for "id", a missing field reads as `undefined`. */
  function Get(r: Record, key: string): Value
  {
    if key == "id" then FromId(r.id) else if key in r.fields then r.fields[key] else Undefined
  }

  /** `{ ...r, [key]: v }` for a field other than the id. */
  function Put(r: Record, key: string, v: Value): (r': Record)
    requires key != "id"
    ensures r'.id == r.id
    ensures Get(r', key) == v
    ensures forall k :: k != key ==> Get(r', k) == Get(r, k)
  {
    Record(r.id, r.fields[key := v])
  }
}
