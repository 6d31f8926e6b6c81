/**
 * The "Add New Recipe" form: the required-field guard, the digit-only count inputs, and the
 * record handed to the older store's `addRecipe`. The form is a value; each input replaces
 * one of its fields.
 */
module AddRecipe {
  import opened Wrappers
  import opened JsValues
  import JsText

  /** The form's inputs: five text fields and the meal type picked (`null` until one is picked). */
  datatype RecipeForm = RecipeForm(
    title: string, description: string, servings: string, prepTime: string, cookTime: string,
    mealType: Value)

  /** The initial `useState` values. */
  const EmptyForm := RecipeForm("", "", "", "", "", Null)

  /** Every required input is filled in: the negation of the guard of `handleAddRecipe`. */
  predicate Complete(f: RecipeForm)
  {
    && f.title != "" && f.description != "" && f.servings != "" && f.prepTime != ""
    && f.cookTime != "" && Truthy(f.mealType)
  }

  /** The button's `disabled`: some required input is falsy. */
  function ButtonDisabled(f: RecipeForm): (disabled: bool)
    ensures disabled <==> !Complete(f)
  {
    || !Truthy(Text(f.title)) || !Truthy(Text(f.description)) || !Truthy(Text(f.servings))
    || !Truthy(Text(f.prepTime)) || !Truthy(Text(f.cookTime)) || !Truthy(f.mealType)
  }

  /** One use of an input: the text typed or the meal type picked. */
  datatype Edit =
    | TypeTitle(text: string)
    | TypeDescription(text: string)
    | TypeServings(text: string)
    | TypePrepTime(text: string)
    | TypeCookTime(text: string)
    | PickMealType(itemValue: Value)

  /** The `onChangeText` and `onValueChange` handlers: the three count inputs keep digits only. */
  function ApplyEdit(f: RecipeForm, e: Edit): (f': RecipeForm)
    ensures e.TypeServings? ==> f' == f.(servings := JsText.KeepDigits(e.text))
    ensures e.TypePrepTime? ==> f' == f.(prepTime := JsText.KeepDigits(e.text))
    ensures e.TypeCookTime? ==> f' == f.(cookTime := JsText.KeepDigits(e.text))
  {
    match e
    case TypeTitle(text) => f.(title := text)
    case TypeDescription(text) => f.(description := text)
    case TypeServings(text) => f.(servings := JsText.KeepDigits(text))
    case TypePrepTime(text) => f.(prepTime := JsText.KeepDigits(text))
    case TypeCookTime(text) => f.(cookTime := JsText.KeepDigits(text))
    case PickMealType(itemValue) => f.(mealType := itemValue)
  }

  /** The form after a sequence of edits, oldest first. */
  function ApplyEdits(f: RecipeForm, edits: seq<Edit>): RecipeForm
    decreases |edits|
  {
    if edits == [] then f else ApplyEdits(ApplyEdit(f, edits[0]), edits[1..])
  }

  /** The three count inputs hold only digits. */
  predicate Sanitised(f: RecipeForm)
  {
    JsText.AllDigits(f.servings) && JsText.AllDigits(f.prepTime) && JsText.AllDigits(f.cookTime)
  }

  /** Whatever is typed, starting from the empty form, the count inputs hold only digits. */
  lemma {:induction false} EditsKeepCountsDigits(f: RecipeForm, edits: seq<Edit>)
    requires Sanitised(f)
    ensures Sanitised(ApplyEdits(f, edits))
    decreases |edits|
  {
    if edits != [] {
      var f1 := ApplyEdit(f, edits[0]);
      assert Sanitised(f1);
      EditsKeepCountsDigits(f1, edits[1..]);
    }
  }

  /** `parseInt(s)` as a JavaScript number: the integer read, or `NaN`. */
  function ParseIntValue(s: string): (v: Value)
    ensures v.Number? || v == NaN
    ensures v == NaN <==> JsText.ParseInt(s, JsText.Auto).None?
  {
    match JsText.ParseInt(s, JsText.Auto)
    case Some(n) => Number(n)
    case None => NaN
  }

  /** `Date.now().toString()` for the clock reading `now`, in milliseconds. */
  function RecipeId(now: nat): Id
  {
    Str(NatToDecimal(now))
  }

  /** The keys of the record `handleAddRecipe` builds. */
  const RecipeKeys: set<string> := {"title", "description", "servings", "prepTime", "cookTime", "mealType", "personId"}

  /** The object literal of `handleAddRecipe`, its values already computed. */
  function RecipeFields(title: Value, description: Value, servings: Value, prepTime: Value, cookTime: Value,
                        mealType: Value): (fields: map<string, Value>)
    ensures fields.Keys == RecipeKeys
    ensures fields["title"] == title && fields["description"] == description
    ensures fields["servings"] == servings && fields["prepTime"] == prepTime && fields["cookTime"] == cookTime
    ensures fields["mealType"] == mealType && fields["personId"] == Null
  {
    map["title" := title, "description" := description,
        "servings" := servings, "prepTime" := prepTime, "cookTime" := cookTime,
        "mealType" := mealType, "personId" := Null]
  }

  /**
   * `handleAddRecipe`: nothing unless every required input is filled in; otherwise the
   * record for `addRecipe`, with the counts read by `parseInt`, the meal type copied and no
   * person.
   */
  function HandleAddRecipe(f: RecipeForm, now: nat): (r: Option<Record>)
    ensures r.Some? <==> Complete(f)
    ensures r.Some? ==> r.value.id == RecipeId(now) && r.value.fields.Keys == RecipeKeys
    ensures r.Some? ==> Get(r.value, "title") == Text(f.title) && Get(r.value, "description") == Text(f.description)
    ensures r.Some? ==> Get(r.value, "servings") == ParseIntValue(f.servings)
    ensures r.Some? ==> Get(r.value, "prepTime") == ParseIntValue(f.prepTime)
    ensures r.Some? ==> Get(r.value, "cookTime") == ParseIntValue(f.cookTime)
    ensures r.Some? ==> Get(r.value, "mealType") == f.mealType && Get(r.value, "personId") == Null
  {
    if !Complete(f) then None
    else
      var fields := RecipeFields(Text(f.title), Text(f.description), ParseIntValue(f.servings),
                                 ParseIntValue(f.prepTime), ParseIntValue(f.cookTime), f.mealType);
      Some(Record(RecipeId(now), fields))
  }

  /** A non-empty digit-only input is read as its non-negative decimal value. */
  lemma {:induction false} DigitInputValue(s: string)
    requires s != "" && JsText.AllDigits(s)
    ensures ParseIntValue(s) == Number(JsText.DigitsValue(s, 10))
  {
    JsText.ParseIntOfDigits(s, JsText.Auto);
  }

  /**
   * For a form filled in through its inputs, the record's counts are the decimal values of
   * the digits typed: never `NaN`, never negative.
   */
  lemma {:induction false} SubmittedCountsAreDecimal(edits: seq<Edit>, now: nat)
    requires Complete(ApplyEdits(EmptyForm, edits))
    ensures var f := ApplyEdits(EmptyForm, edits);
      var r := HandleAddRecipe(f, now).value;
      && Get(r, "servings") == Number(JsText.DigitsValue(f.servings, 10))
      && Get(r, "prepTime") == Number(JsText.DigitsValue(f.prepTime, 10))
      && Get(r, "cookTime") == Number(JsText.DigitsValue(f.cookTime, 10))
  {
    var f := ApplyEdits(EmptyForm, edits);
    EditsKeepCountsDigits(EmptyForm, edits);
    DigitInputValue(f.servings);
    DigitInputValue(f.prepTime);
    DigitInputValue(f.cookTime);
  }

  /** Typing the decimal spelling of `n` into a count input submits the number `n`. */
  lemma {:induction false} TypedCountRoundTrip(f: RecipeForm, n: nat, now: nat)
    requires Complete(f.(servings := NatToDecimal(n)))
    ensures Get(HandleAddRecipe(ApplyEdit(f, TypeServings(NatToDecimal(n))), now).value, "servings") == Number(n)
  {
    var s := NatToDecimal(n);
    assert JsText.AllDigits(s);
    assert JsText.KeepDigits(s) == s;
    JsText.DecimalRoundTrip(n);
    DigitInputValue(s);
  }
}
