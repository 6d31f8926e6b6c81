/**
 * The request/response formatting of the REST client: the duration converter, the recipe
 * wire record, the choice of error message for a failed response, the result of a DELETE,
 * and the client-side filter behind `getByRecipe`. The `fetch` calls themselves are not
 * modelled; a response is given as a value.
 */
module ApiClient {
  import opened Wrappers
  import opened JsValues
  import opened JsText
  import Seqs

  // ---------- durations ----------

  /** `parseInt(part) || 0`: an unreadable part (NaN) counts as 0. */
  function PartValue(part: string): int
  {
    match ParseInt(part, Auto)
    case None => 0
    case Some(n) => n
  }

  /** `hours * 3600 + minutes * 60 + seconds` for exactly three parts, `null` otherwise. */
  function ClockSeconds(parts: seq<string>): Value
  {
    if |parts| == 3 then Number(PartValue(parts[0]) * 3600 + PartValue(parts[1]) * 60 + PartValue(parts[2]))
    else Null
  }

  /** The error thrown when a truthy non-number, non-string reaches `split`. */
  const SplitTypeError := "durationStr.split is not a function"

  /**
   * `convertDurationForBackend`: falsy gives `null`, a number is returned as it is,
   * an `H:MM:SS` string gives its number of seconds, any other string gives `null`.
   */
  function ConvertDuration(v: Value): Result<Value, string>
  {
    if !Truthy(v) then Success(Null)
    else
      match v
      case Number(_) => Success(v)
      case Text(s) => Success(ClockSeconds(Split(s, ':')))
      case _ => Failure(SplitTypeError)
  }

  /** Falsy durations (`undefined`, `null`, `false`, `0`, `NaN`, `''`) become `null`; other numbers pass unchanged. */
  lemma ConvertDurationPassThrough(v: Value)
    ensures !Truthy(v) ==> ConvertDuration(v) == Success(Null)
    ensures v.Number? && v.n != 0 ==> ConvertDuration(v) == Success(v)
  {
  }

  /**
   * A string with exactly two colons (three parts) converts to `h*3600 + m*60 + s`, each part
   * read by `parseInt`, and 0 when unreadable.
   */
  lemma ConvertDurationOfThreeParts(s: string)
    requires Count(s, ':') == 2
    ensures var parts := Split(s, ':');
      ConvertDuration(Text(s)) ==
        Success(Number(PartValue(parts[0]) * 3600 + PartValue(parts[1]) * 60 + PartValue(parts[2])))
  {
    assert ConvertDuration(Text(s)) == Success(ClockSeconds(Split(s, ':')));
  }

  /** A non-empty string with any other number of colons converts to `null`. */
  lemma ConvertDurationOfOtherParts(s: string)
    requires s != "" && Count(s, ':') != 2
    ensures ConvertDuration(Text(s)) == Success(Null)
  {
    assert ConvertDuration(Text(s)) == Success(ClockSeconds(Split(s, ':')));
  }

  /** A proof step of `ConvertDurationOfClock`: the three parts read as `h`, `m` and `sec`. */
  lemma {:induction false} ConvertDurationOfSplit(s: string, h: int, m: int, sec: int)
    requires |Split(s, ':')| == 3
    requires PartValue(Split(s, ':')[0]) == h && PartValue(Split(s, ':')[1]) == m
    requires PartValue(Split(s, ':')[2]) == sec
    ensures ConvertDuration(Text(s)) == Success(Number(h * 3600 + m * 60 + sec))
  {
    assert ConvertDuration(Text(s)) == Success(ClockSeconds(Split(s, ':')));
  }

  /** A decimal numeral is read back by `parseInt(part) || 0` as its value. */
  lemma {:induction false} PartValueOfDecimal(n: nat)
    ensures PartValue(IntToDecimal(n)) == n
    ensures ':' !in IntToDecimal(n)
  {
    ParseIntOfNatDecimal(n, Auto);
    var d := IntToDecimal(n);
    assert d == NatToDecimal(n);
    assert forall i :: 0 <= i < |d| ==> '0' <= d[i] <= '9';
  }

  /** The `H:MM:SS` spelling of a duration converts back to its number of seconds. */
  lemma {:induction false} ConvertDurationOfClock(h: nat, m: nat, sec: nat)
    ensures ConvertDuration(Text(IntToDecimal(h) + ":" + IntToDecimal(m) + ":" + IntToDecimal(sec)))
         == Success(Number(h * 3600 + m * 60 + sec))
  {
    var hs, ms, ss := IntToDecimal(h), IntToDecimal(m), IntToDecimal(sec);
    PartValueOfDecimal(h);
    PartValueOfDecimal(m);
    PartValueOfDecimal(sec);
    SplitThree(hs, ms, ss);
    ConvertDurationOfSplit(hs + ":" + ms + ":" + ss, h, m, sec);
  }

  /** A non-empty run of digits, zero-padded or not, is read by `parseInt(part) || 0` as its decimal value. */
  lemma {:induction false} PartValueOfDigits(part: string)
    requires part != [] && AllDigits(part)
    ensures PartValue(part) == DigitsValue(part, 10)
  {
    ParseIntOfDigits(part, Auto);
  }

  // ---------- recipe wire record ----------

  /** The optional recipe fields that default to `null` when falsy. */
  const OptionalKeys: set<string> :=
    {"description", "servings", "meal_type", "cuisine_type", "difficulty", "source_name", "source_url",
     "person", "country"}

  /** The duration fields, converted to seconds on the wire. */
  const DurationKeys: set<string> := {"prep_time", "cook_time", "total_time"}

  /** Every field of the recipe record sent to the server. */
  const WireKeys: set<string> := OptionalKeys + DurationKeys + {"title", "rating", "times_cooked"}

  /** `v || null` */
  function OrNull(v: Value): Value
  {
    Or(v, Null)
  }

  /** The converted duration, when the converter did not throw. */
  function Seconds(v: Value): Value
  {
    match ConvertDuration(v)
    case Success(w) => w
    case Failure(_) => Null
  }

  /** The wire value of field `key` in `formatRecipeForBackend(recipe)`, where `recipe[key]` is `v`. */
  function WireValue(key: string, v: Value, parseFloat: Value -> Value): Value
  {
    if key in OptionalKeys then OrNull(v)
    else if key in DurationKeys then Seconds(v)
    else if key == "rating" then (if Truthy(v) then parseFloat(v) else Null)
    else if key == "times_cooked" then Or(v, Number(0))
    else v
  }

  /** The case of `WireValue` each wire field falls in: the key sets do not overlap. */
  lemma {:induction false} WireValueCases(recipe: map<string, Value>, parseFloat: Value -> Value)
    ensures OptionalKeys <= WireKeys && DurationKeys <= WireKeys
    ensures "title" in WireKeys && "rating" in WireKeys && "times_cooked" in WireKeys
    ensures forall k :: k in OptionalKeys ==>
      WireValue(k, Lookup(recipe, k), parseFloat) == (if Truthy(Lookup(recipe, k)) then Lookup(recipe, k) else Null)
    ensures forall k :: k in DurationKeys ==> WireValue(k, Lookup(recipe, k), parseFloat) == Seconds(Lookup(recipe, k))
    ensures WireValue("title", Lookup(recipe, "title"), parseFloat) == Lookup(recipe, "title")
    ensures WireValue("rating", Lookup(recipe, "rating"), parseFloat) ==
      (if Truthy(Lookup(recipe, "rating")) then parseFloat(Lookup(recipe, "rating")) else Null)
    ensures WireValue("times_cooked", Lookup(recipe, "times_cooked"), parseFloat) ==
      (if Truthy(Lookup(recipe, "times_cooked")) then Lookup(recipe, "times_cooked") else Number(0))
  {
    assert OptionalKeys !! DurationKeys;
  }

  /**
   * `formatRecipeForBackend(recipe)`; `parseFloat` is the host's floating-point parser,
   * applied to a truthy rating. It throws when a duration field makes the converter throw.
   */
  function FormatRecipe(recipe: map<string, Value>, parseFloat: Value -> Value): (r: Result<map<string, Value>, string>)
    ensures r.Success? <==> forall k :: k in DurationKeys ==> ConvertDuration(Lookup(recipe, k)).Success?
    ensures r.Success? ==> r.value.Keys == WireKeys
    ensures r.Success? ==> r.value["title"] == Lookup(recipe, "title")
    ensures r.Success? ==> forall k :: k in OptionalKeys ==>
      r.value[k] == (if Truthy(Lookup(recipe, k)) then Lookup(recipe, k) else Null)
    ensures r.Success? ==> forall k :: k in DurationKeys ==>
      r.value[k] == ConvertDuration(Lookup(recipe, k)).value
    ensures r.Success? ==>
      r.value["times_cooked"] == (if Truthy(Lookup(recipe, "times_cooked")) then Lookup(recipe, "times_cooked") else Number(0))
    ensures r.Success? ==>
      r.value["rating"] == (if Truthy(Lookup(recipe, "rating")) then parseFloat(Lookup(recipe, "rating")) else Null)
  {
    var prep := ConvertDuration(Lookup(recipe, "prep_time"));
    var cook := ConvertDuration(Lookup(recipe, "cook_time"));
    var total := ConvertDuration(Lookup(recipe, "total_time"));
    if prep.Failure? then Failure(prep.error)
    else if cook.Failure? then Failure(cook.error)
    else if total.Failure? then Failure(total.error)
    else
      WireValueCases(recipe, parseFloat);
      Success(map k | k in WireKeys :: WireValue(k, Lookup(recipe, k), parseFloat))
  }

  // ---------- responses ----------

  /** A response body as the client sees it once `response.json()` has run. */
  datatype Body =
    | ObjectBody(fields: map<string, Value>)  // a JSON object
    | NullBody                                // the JSON literal `null`
    | OtherJson                               // an array, string, number or boolean
    | NotJson                                 // not JSON at all: `response.json()` rejects

  /** The part of a `fetch` response the client reads. */
  datatype Response = Response(ok: bool, status: int, statusText: string, body: Body)

  /** The message `response.json()` rejects with on a successful response whose body is not JSON. */
  const JsonSyntaxError := "Unexpected token in JSON"

  /** The message used when the body names none. */
  function StatusMessage(status: int): string
  {
    "HTTP error! status: " + IntToDecimal(status)
  }

  /**
   * `handleResponse`: a successful response yields its parsed body. A failed one throws with
   * the body's truthy `detail`, else its truthy `message`, else the status message. The
   * `text()` fallback never changes the message: the body has already been read by `json()`.
   */
  method HandleResponse(response: Response) returns (result: Result<Body, string>)
    ensures response.ok && response.body != NotJson ==> result == Success(response.body)
    ensures response.ok && response.body == NotJson ==> result == Failure(JsonSyntaxError)
    ensures !response.ok ==> result.Failure?
    ensures !response.ok && response.body.ObjectBody? && Truthy(Lookup(response.body.fields, "detail")) ==>
      result.error == ToStr(Lookup(response.body.fields, "detail"))
    ensures !response.ok && response.body.ObjectBody? && !Truthy(Lookup(response.body.fields, "detail")) &&
              Truthy(Lookup(response.body.fields, "message")) ==>
              result.error == ToStr(Lookup(response.body.fields, "message"))
    ensures !response.ok && (!response.body.ObjectBody? ||
              (!Truthy(Lookup(response.body.fields, "detail")) && !Truthy(Lookup(response.body.fields, "message")))) ==>
              result.error == StatusMessage(response.status)
  {
    if !response.ok {
      var errorMessage := Text(StatusMessage(response.status));
      // `response.json().catch(() => ({}))`: a body that is not JSON reads as `{}`.
      var error: Option<map<string, Value>> :=
        match response.body
        case ObjectBody(fields) => Some(fields)
        case NullBody => None
        case OtherJson => Some(map[])
        case NotJson => Some(map[]);
      if error.Some? {
        errorMessage := Or(Or(Lookup(error.value, "detail"), Lookup(error.value, "message")), errorMessage);
      }
      // Reading `.detail` of `null` throws; the catch falls back to `response.text()`, which
      // rejects because the body stream was consumed, so the message stays as it was.
      return Failure(ToStr(errorMessage));
    }
    if response.body == NotJson {
      return Failure(JsonSyntaxError);
    }
    return Success(response.body);
  }

  /** The resources that have a DELETE call. */
  datatype Deletable = RecipeResource | PersonResource | IngredientResource | RecipeIngredientResource

  /** The noun each DELETE call puts in its error message. */
  function Noun(resource: Deletable): string
  {
    match resource
    case RecipeResource => "recipe"
    case PersonResource => "person"
    case IngredientResource => "ingredient"
    case RecipeIngredientResource => "recipe ingredient"
  }

  /** The result of a DELETE call: `true`, or the error naming the resource and the status text. */
  function DeleteResult(resource: Deletable, response: Response): (r: Result<bool, string>)
    ensures r.Success? <==> response.ok
    ensures r.Success? ==> r.value
    ensures r.Failure? ==> r.error == "Failed to delete " + Noun(resource) + ": " + response.statusText
  {
    if !response.ok then Failure("Failed to delete " + Noun(resource) + ": " + response.statusText)
    else Success(true)
  }

  // ---------- getByRecipe ----------

  /** `ri => ri.recipe === recipeId` */
  function InRecipe(recipeId: Id): Record -> bool
  {
    (ri: Record) => Get(ri, "recipe") == FromId(recipeId)
  }

  /** `recipeIngredientAPI.getByRecipe`: the fetched links filtered by strict equality on `recipe`. */
  function GetByRecipe(all: seq<Record>, recipeId: Id): seq<Record>
  {
    Seqs.Filter(all, InRecipe(recipeId))
  }

  /**
   * `getByRecipe(r)` returns exactly the links whose `recipe` is strictly equal to `r`
   * (a number id does not match its string spelling), each as often as the server lists it,
   * in the server's order.
   */
  lemma GetByRecipeExact(all: seq<Record>, recipeId: Id)
    ensures forall ri :: ri in GetByRecipe(all, recipeId) <==> ri in all && Get(ri, "recipe") == FromId(recipeId)
    ensures forall ri :: multiset(GetByRecipe(all, recipeId))[ri] ==
              (if Get(ri, "recipe") == FromId(recipeId) then multiset(all)[ri] else 0)
    ensures Seqs.IsSubsequence(GetByRecipe(all, recipeId), all)
  {
    Seqs.FilterIsSubsequence(all, InRecipe(recipeId));
    Seqs.FilterCounts(all, InRecipe(recipeId));
    var r := GetByRecipe(all, recipeId);
    assert forall ri: Record :: ri in r <==> multiset(r)[ri] > 0;
  }
}
