/**
 * The ingredient list of a recipe form: which links it shows, how it names them, and the
 * add and delete handlers. A form for a recipe that does not exist yet (a falsy `recipeId`)
 * keeps its links in a local temporary list instead of sending them to the server.
 */
module RecipeIngredients {
  import opened Wrappers
  import opened JsValues
  import JsText
  import Seqs

  // ---------- what is shown ----------

  /** `ri => String(ri.recipe) === String(recipeId)` */
  function SameRecipe(recipeId: Value): Record -> bool
  {
    (ri: Record) => ToStr(Get(ri, "recipe")) == ToStr(recipeId)
  }

  /** `currentRecipeIngredients`: the store's links of this recipe, or the temporary list. */
  function CurrentRecipeIngredients(recipeId: Value, links: seq<Record>, temp: seq<Record>): seq<Record>
  {
    if Truthy(recipeId) then Seqs.Filter(links, SameRecipe(recipeId)) else temp
  }

  /**
   * With a truthy `recipeId` the shown links are exactly the store's links whose `recipe`
   * has the same `String` spelling, each as often as the store holds it, in store order;
   * otherwise the temporary list is shown.
   */
  lemma {:induction false} ShownLinks(recipeId: Value, links: seq<Record>, temp: seq<Record>)
    ensures Truthy(recipeId) ==>
      && (forall ri :: ri in CurrentRecipeIngredients(recipeId, links, temp) <==>
            ri in links && ToStr(Get(ri, "recipe")) == ToStr(recipeId))
      && (forall ri :: multiset(CurrentRecipeIngredients(recipeId, links, temp))[ri] ==
            (if ToStr(Get(ri, "recipe")) == ToStr(recipeId) then multiset(links)[ri] else 0))
      && Seqs.IsSubsequence(CurrentRecipeIngredients(recipeId, links, temp), links)
    ensures !Truthy(recipeId) ==> CurrentRecipeIngredients(recipeId, links, temp) == temp
  {
    if Truthy(recipeId) {
      var keep := SameRecipe(recipeId);
      Seqs.FilterIsSubsequence(links, keep);
      Seqs.FilterCounts(links, keep);
      var shown := CurrentRecipeIngredients(recipeId, links, temp);
      assert forall ri: Record :: ri in shown <==> multiset(shown)[ri] > 0;
    }
  }

  /** `i => String(i.id) === String(ingredientId)` */
  function SameIngredient(ingredientId: Value): Record -> bool
  {
    (i: Record) => IdString(i.id) == ToStr(ingredientId)
  }

  /** `ingredients.find(...)`: the first ingredient whose id has the same `String` spelling. */
  function FindIngredient(ingredients: seq<Record>, ingredientId: Value): (r: Option<Record>)
    ensures r.None? <==> forall j :: 0 <= j < |ingredients| ==> IdString(ingredients[j].id) != ToStr(ingredientId)
    ensures r.Some? ==>
      exists i :: && 0 <= i < |ingredients| && ingredients[i] == r.value
                  && IdString(ingredients[i].id) == ToStr(ingredientId)
                  && forall j :: 0 <= j < i ==> IdString(ingredients[j].id) != ToStr(ingredientId)
  {
    var p := SameIngredient(ingredientId);
    var i := Seqs.IndexWhere(ingredients, p);
    assert forall j :: 0 <= j < |ingredients| ==> (p(ingredients[j]) <==> IdString(ingredients[j].id) == ToStr(ingredientId));
    if i == -1 then None else Some(ingredients[i])
  }

  /** `getIngredientName`: the name of the first string-equal ingredient, else `'Unknown'`. */
  function GetIngredientName(ingredients: seq<Record>, ingredientId: Value): (name: Value)
    ensures (forall j :: 0 <= j < |ingredients| ==> IdString(ingredients[j].id) != ToStr(ingredientId)) ==>
      name == Text("Unknown")
    ensures (exists j :: 0 <= j < |ingredients| && IdString(ingredients[j].id) == ToStr(ingredientId)) ==>
      exists i :: 0 <= i < |ingredients| && name == Get(ingredients[i], "name")
        && IdString(ingredients[i].id) == ToStr(ingredientId)
        && forall j :: 0 <= j < i ==> IdString(ingredients[j].id) != ToStr(ingredientId)
  {
    match FindIngredient(ingredients, ingredientId)
    case Some(ingredient) => Get(ingredient, "name")
    case None => Text("Unknown")
  }

  /** `getIngredientUnit`: the unit of the first string-equal ingredient, else `''`. */
  function GetIngredientUnit(ingredients: seq<Record>, ingredientId: Value): (unit: Value)
    ensures (forall j :: 0 <= j < |ingredients| ==> IdString(ingredients[j].id) != ToStr(ingredientId)) ==>
      unit == Text("")
    ensures (exists j :: 0 <= j < |ingredients| && IdString(ingredients[j].id) == ToStr(ingredientId)) ==>
      exists i :: 0 <= i < |ingredients| && unit == Get(ingredients[i], "unit")
        && IdString(ingredients[i].id) == ToStr(ingredientId)
        && forall j :: 0 <= j < i ==> IdString(ingredients[j].id) != ToStr(ingredientId)
  {
    match FindIngredient(ingredients, ingredientId)
    case Some(ingredient) => Get(ingredient, "unit")
    case None => Text("")
  }

  /** A link that names ingredient 5 by the string "5" still finds the ingredient with number id 5. */
  lemma {:induction false} LookupAcrossSpellings(fields: map<string, Value>)
    ensures GetIngredientName([Record(Num(5), fields)], Text("5")) == Get(Record(Num(5), fields), "name")
  {
    NumberFiveIsStringFive();
    assert SameIngredient(Text("5"))(Record(Num(5), fields));
  }

  // ---------- the quantity input ----------

  /** The characters the quantity input accepts. */
  predicate QuantityChar(c: char)
  {
    JsText.IsDigit(c) || c == '.'
  }

  /**
   * `text.replace(/[^0-9.]/g, '')`: every digit and dot of `text`, as often as it occurs,
   * and nothing else.
   */
  function SanitizeQuantity(text: string): (q: string)
    ensures forall i :: 0 <= i < |q| ==> QuantityChar(q[i])
    ensures |q| <= |text|
    ensures forall c :: multiset(q)[c] == (if QuantityChar(c) then multiset(text)[c] else 0)
  {
    Seqs.FilterCounts(text, QuantityChar);
    Seqs.Filter(text, QuantityChar)
  }

  /**
   * The sanitiser keeps the accepted characters in their order, leaves text made only of
   * them as it is, and so applying it twice is applying it once.
   */
  lemma {:induction false} SanitizeQuantityKeepsOrder(text: string)
    ensures Seqs.IsSubsequence(SanitizeQuantity(text), text)
    ensures (forall i :: 0 <= i < |text| ==> QuantityChar(text[i])) ==> SanitizeQuantity(text) == text
    ensures SanitizeQuantity(SanitizeQuantity(text)) == SanitizeQuantity(text)
  {
    Seqs.FilterIsSubsequence(text, QuantityChar);
    if forall i :: 0 <= i < |text| ==> QuantityChar(text[i]) {
      Seqs.FilterKeepsAll(text, QuantityChar);
    }
    Seqs.FilterIdempotent(text, QuantityChar);
  }

  /** `quantity ? parseFloat(quantity) : null`, with `parseFloat` given as a parameter. */
  function QuantityValue(quantity: string, parseFloat: string -> Value): (v: Value)
    ensures quantity == "" ==> v == Null
    ensures quantity != "" ==> v == parseFloat(quantity)
  {
    if quantity != "" then parseFloat(quantity) else Null
  }

  // ---------- the add and delete handlers ----------

  /** The request body for a new ingredient: the name (already trimmed), the unit or null, null notes. */
  function NewIngredient(trimmedName: string, unit: string): (body: map<string, Value>)
    ensures body.Keys == {"name", "unit", "notes"}
    ensures body["name"] == Text(trimmedName)
    ensures body["unit"] == (if unit == "" then Null else Text(unit))
    ensures body["notes"] == Null
  {
    map["name" := Text(trimmedName), "unit" := (if unit != "" then Text(unit) else Null), "notes" := Null]
  }

  /** `newRecipeIngredient`: the recipe, the ingredient and the quantity. */
  function NewLink(recipeId: Value, ingredientId: Value, quantity: string, parseFloat: string -> Value): (link: map<string, Value>)
    ensures link.Keys == {"recipe", "ingredient", "quantity"}
    ensures link["recipe"] == recipeId && link["ingredient"] == ingredientId
    ensures link["quantity"] == QuantityValue(quantity, parseFloat)
  {
    map["recipe" := recipeId, "ingredient" := ingredientId, "quantity" := QuantityValue(quantity, parseFloat)]
  }

  /** The editor's local state: the `useState` hooks of the component. */
  datatype EditorState = EditorState(
    selected: Value, quantity: string, name: string, unit: string,
    temp: seq<Record>, modalVisible: bool)

  /** What one press of "Add" sends and hands on, besides the new state. */
  datatype AddResult = AddResult(
    state: EditorState,
    ingredientRequest: Option<map<string, Value>>,
    linkRequest: Option<map<string, Value>>,
    changed: Option<seq<Record>>)

  /** `!selectedIngredient && !newIngredientName.trim()`: nothing to add. */
  predicate NothingToAdd(s: EditorState)
  {
    !Truthy(s.selected) && JsText.Trim(s.name) == ""
  }

  /**
   * `handleAddIngredient` as a function of the state before the press. `created` is the
   * outcome of `createIngredient` (the new ingredient's id), `linkSaved` whether
   * `createRecipeIngredient` succeeded, `tempId` the generated temporary id and
   * `hasListener` whether `onIngredientsChange` was passed.
   */
  function AddIngredient(s: EditorState, recipeId: Value, created: Result<Value, string>, linkSaved: bool,
                         tempId: string, parseFloat: string -> Value, hasListener: bool): AddResult
  {
    if NothingToAdd(s) then AddResult(s, None, None, None)
    else
      var request := if !Truthy(s.selected) then Some(NewIngredient(JsText.Trim(s.name), s.unit)) else None;
      if request.Some? && created.Failure? then AddResult(s, request, None, None)
      else
        var ingredientId := if request.Some? then created.value else s.selected;
        var s1 := if request.Some? then s.(name := "", unit := "") else s;
        var link := NewLink(recipeId, ingredientId, s.quantity, parseFloat);
        if Truthy(recipeId) then
          if !linkSaved then AddResult(s1, request, Some(link), None)
          else AddResult(s1.(selected := Null, quantity := "", modalVisible := false), request, Some(link), None)
        else
          var temp := s.temp + [Record(Str(tempId), link)];
          AddResult(s1.(temp := temp, selected := Null, quantity := "", modalVisible := false),
                    request, None, if hasListener then Some(temp) else None)
  }

  /** Adding does nothing at all when no ingredient is selected and the typed name is blank. */
  lemma AddWithNothingDoesNothing(s: EditorState, recipeId: Value, created: Result<Value, string>, linkSaved: bool,
                                  tempId: string, parseFloat: string -> Value, hasListener: bool)
    requires NothingToAdd(s)
    ensures AddIngredient(s, recipeId, created, linkSaved, tempId, parseFloat, hasListener)
      == AddResult(s, None, None, None)
  {
  }

  /**
   * A new ingredient is requested exactly when none is selected and the name is not blank,
   * with the trimmed name and the body `NewIngredient` describes; if that request fails, the
   * press ends with the state as it was and no link sent.
   */
  lemma {:induction false} AddCreatesIngredientWhenNoneSelected(
    s: EditorState, recipeId: Value, created: Result<Value, string>, linkSaved: bool,
    tempId: string, parseFloat: string -> Value, hasListener: bool)
    ensures var r := AddIngredient(s, recipeId, created, linkSaved, tempId, parseFloat, hasListener);
      && r.ingredientRequest == (if !Truthy(s.selected) && JsText.Trim(s.name) != "" then Some(NewIngredient(JsText.Trim(s.name), s.unit)) else None)
      && (r.ingredientRequest.Some? && created.Failure? ==> r.state == s && r.linkRequest.None? && r.changed.None?)
  {
    if !Truthy(s.selected) && JsText.Trim(s.name) != "" {
      assert !NothingToAdd(s);
    }
  }

  /**
   * Once the ingredient is known, the link names this recipe, the selected ingredient or
   * the one just created, and the quantity, or null for an empty quantity.
   */
  lemma {:induction false} AddBuildsLink(
    s: EditorState, recipeId: Value, created: Result<Value, string>, linkSaved: bool,
    tempId: string, parseFloat: string -> Value, hasListener: bool)
    requires !NothingToAdd(s)
    requires Truthy(s.selected) || created.Success?
    ensures var r := AddIngredient(s, recipeId, created, linkSaved, tempId, parseFloat, hasListener);
      var link := if Truthy(recipeId) then r.linkRequest else Some(r.state.temp[|r.state.temp| - 1].fields);
      && link.Some?
      && link.value["recipe"] == recipeId
      && link.value["ingredient"] == (if Truthy(s.selected) then s.selected else created.value)
      && link.value["quantity"] == (if s.quantity == "" then Null else parseFloat(s.quantity))
  {
  }

  /**
   * Without a recipe id, a completed add appends exactly one temporary link, with the
   * generated id, at the end of the list, sends no link, and hands the same new list to
   * `onIngredientsChange` when there is one.
   */
  lemma {:induction false} TempAddAppendsOne(
    s: EditorState, recipeId: Value, created: Result<Value, string>, linkSaved: bool,
    tempId: string, parseFloat: string -> Value, hasListener: bool)
    requires !Truthy(recipeId) && !NothingToAdd(s)
    requires Truthy(s.selected) || created.Success?
    ensures var r := AddIngredient(s, recipeId, created, linkSaved, tempId, parseFloat, hasListener);
      && |r.state.temp| == |s.temp| + 1
      && r.state.temp[..|s.temp|] == s.temp
      && r.state.temp[|s.temp|].id == Str(tempId)
      && r.linkRequest.None?
      && r.changed == (if hasListener then Some(r.state.temp) else None)
  {
    var r := AddIngredient(s, recipeId, created, linkSaved, tempId, parseFloat, hasListener);
    assert r.state.temp[..|s.temp|] == s.temp;
  }

  /** With a recipe id the temporary list is never touched and nobody is notified. */
  lemma AddWithRecipeKeepsTemp(
    s: EditorState, recipeId: Value, created: Result<Value, string>, linkSaved: bool,
    tempId: string, parseFloat: string -> Value, hasListener: bool)
    requires Truthy(recipeId)
    ensures var r := AddIngredient(s, recipeId, created, linkSaved, tempId, parseFloat, hasListener);
      r.state.temp == s.temp && r.changed.None?
  {
  }

  /**
   * A completed add clears the selection and the quantity and closes the dialog; a failed
   * link request leaves the selection and the quantity as they were, so the user can retry.
   */
  lemma AddResetsOnlyWhenDone(
    s: EditorState, recipeId: Value, created: Result<Value, string>, linkSaved: bool,
    tempId: string, parseFloat: string -> Value, hasListener: bool)
    requires !NothingToAdd(s) && (Truthy(s.selected) || created.Success?)
    ensures var r := AddIngredient(s, recipeId, created, linkSaved, tempId, parseFloat, hasListener);
      && ((!Truthy(recipeId) || linkSaved) ==> r.state.selected == Null && r.state.quantity == "" && !r.state.modalVisible)
      && ((Truthy(recipeId) && !linkSaved) ==> r.state.selected == s.selected && r.state.quantity == s.quantity)
  {
  }

  /** `ri => ri.id !== recipeIngredientId` */
  function OtherTempId(recipeIngredientId: Value): Record -> bool
  {
    (ri: Record) => FromId(ri.id) != recipeIngredientId
  }

  /** The temporary list after `handleDeleteIngredient` on a form without a recipe. */
  function WithoutTemp(temp: seq<Record>, recipeIngredientId: Value): seq<Record>
  {
    Seqs.Filter(temp, OtherTempId(recipeIngredientId))
  }

  /**
   * The temporary delete removes the links whose id is strictly equal, and keeps every other
   * link as often as it occurred and in its order.
   */
  lemma {:induction false} TempDeleteRemovesMatches(temp: seq<Record>, recipeIngredientId: Value)
    ensures forall ri :: ri in WithoutTemp(temp, recipeIngredientId) <==> ri in temp && FromId(ri.id) != recipeIngredientId
    ensures forall ri :: multiset(WithoutTemp(temp, recipeIngredientId))[ri] ==
              (if FromId(ri.id) != recipeIngredientId then multiset(temp)[ri] else 0)
    ensures Seqs.IsSubsequence(WithoutTemp(temp, recipeIngredientId), temp)
  {
    var keep := OtherTempId(recipeIngredientId);
    Seqs.FilterIsSubsequence(temp, keep);
    Seqs.FilterCounts(temp, keep);
    var r' := WithoutTemp(temp, recipeIngredientId);
    assert forall ri: Record :: ri in r' <==> multiset(r')[ri] > 0;
  }

  /** The component's state, with its handlers updating it in place. */
  class IngredientEditor {
    const recipeId: Value
    var selected: Value
    var quantity: string
    var name: string
    var unit: string
    var temp: seq<Record>
    var modalVisible: bool

    function State(): EditorState
      reads this
    {
      EditorState(selected, quantity, name, unit, temp, modalVisible)
    }

    /** The initial `useState` values. */
    constructor (recipeId: Value)
      ensures this.recipeId == recipeId
      ensures State() == EditorState(Null, "", "", "", [], false)
    {
      this.recipeId := recipeId;
      selected := Null;
      quantity := "";
      name := "";
      unit := "";
      temp := [];
      modalVisible := false;
    }

    /** The picker's `onValueChange`: select an ingredient and clear the typed name. */
    method Select(itemValue: Value)
      modifies this
      ensures State() == old(State()).(selected := itemValue, name := "")
    {
      selected := itemValue;
      name := "";
    }

    /** The name input's `onChangeText`: take the text and clear the selection. */
    method TypeName(text: string)
      modifies this
      ensures State() == old(State()).(name := text, selected := Null)
    {
      name := text;
      selected := Null;
    }

    /** The unit input's `onChangeText`: take the text as it is. */
    method TypeUnit(text: string)
      modifies this
      ensures State() == old(State()).(unit := text)
    {
      unit := text;
    }

    /** The quantity input's `onChangeText`: only digits and `.` are kept. */
    method TypeQuantity(text: string)
      modifies this
      ensures State() == old(State()).(quantity := SanitizeQuantity(text))
    {
      quantity := SanitizeQuantity(text);
    }

    /** `handleAddIngredient`, step by step. */
    method HandleAddIngredient(created: Result<Value, string>, linkSaved: bool, tempId: string,
                               parseFloat: string -> Value, hasListener: bool)
      returns (ingredientRequest: Option<map<string, Value>>, linkRequest: Option<map<string, Value>>,
               changed: Option<seq<Record>>)
      modifies this
      ensures AddResult(State(), ingredientRequest, linkRequest, changed)
        == AddIngredient(old(State()), recipeId, created, linkSaved, tempId, parseFloat, hasListener)
    {
      ingredientRequest, linkRequest, changed := None, None, None;
      var trimmed := JsText.Trim(name);
      if !Truthy(selected) && trimmed == "" {
        return;
      }
      var ingredientId := selected;
      if !Truthy(selected) && trimmed != "" {
        ingredientRequest := Some(NewIngredient(trimmed, unit));
        match created {
          case Failure(_) =>
            return;
          case Success(id) =>
            ingredientId := id;
            name := "";
            unit := "";
        }
      }
      var link := NewLink(recipeId, ingredientId, quantity, parseFloat);
      if Truthy(recipeId) {
        linkRequest := Some(link);
        if !linkSaved {
          return;
        }
      } else {
        var tempLink := Record(Str(tempId), link);
        temp := temp + [tempLink];
        if hasListener {
          changed := Some(temp);
        }
      }
      selected := Null;
      quantity := "";
      modalVisible := false;
    }

    /**
     * `handleDeleteIngredient`: with a recipe id, a delete request for the link; otherwise
     * the temporary list loses the matching links and the listener gets the new list.
     */
    method HandleDeleteIngredient(recipeIngredientId: Value, hasListener: bool)
      returns (deleteRequest: Option<Value>, changed: Option<seq<Record>>)
      modifies this
      ensures Truthy(recipeId) ==> deleteRequest == Some(recipeIngredientId) && changed.None? && State() == old(State())
      ensures !Truthy(recipeId) ==>
        && deleteRequest.None?
        && State() == old(State()).(temp := WithoutTemp(old(temp), recipeIngredientId))
        && changed == (if hasListener then Some(temp) else None)
    {
      deleteRequest, changed := None, None;
      if Truthy(recipeId) {
        deleteRequest := Some(recipeIngredientId);
      } else {
        var updated := WithoutTemp(temp, recipeIngredientId);
        temp := updated;
        if hasListener {
          changed := Some(updated);
        }
      }
    }

    /** The dialog's Cancel button: clear the selection and every typed value, close the dialog. */
    method Cancel()
      modifies this
      ensures State() == old(State()).(modalVisible := false, selected := Null, quantity := "", name := "", unit := "")
    {
      modalVisible := false;
      selected := Null;
      quantity := "";
      name := "";
      unit := "";
    }
  }
}
