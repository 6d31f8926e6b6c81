/**
 * The older single-slice store: a plain list of recipes with `addRecipe`, `updateRecipe` and
 * `deleteRecipe`, which compare identifiers through `String(...)`, so that the number 5 and
 * the string "5" name the same recipe.
 */
module LegacyStore {
  import opened JsValues
  import Seqs

  /** `r => String(r.id) === key` */
  function SameIdString(key: string): Record -> bool
  {
    (r: Record) => IdString(r.id) == key
  }

  /** `r => String(r.id) !== key` */
  function OtherIdString(key: string): Record -> bool
  {
    (r: Record) => IdString(r.id) != key
  }

  /** `deleteRecipe`: `state.filter(r => String(r.id) !== String(id))`, a new array. */
  function WithoutIdString(recipes: seq<Record>, id: Id): seq<Record>
  {
    Seqs.Filter(recipes, OtherIdString(IdString(id)))
  }

  /** `updateRecipe` as a value: the first recipe whose `String(id)` matches is replaced. */
  function ReplaceByIdString(recipes: seq<Record>, item: Record): seq<Record>
  {
    Seqs.ReplaceFirst(recipes, SameIdString(IdString(item.id)), item)
  }

  /**
   * `deleteRecipe(id)` removes every recipe whose id has the same `String` spelling as `id`,
   * keeps every other recipe as often as it occurred, and keeps the survivors in their order.
   */
  lemma {:induction false} DeleteRemovesEverySpelling(recipes: seq<Record>, id: Id)
    ensures forall r :: r in WithoutIdString(recipes, id) <==> r in recipes && IdString(r.id) != IdString(id)
    ensures forall r :: multiset(WithoutIdString(recipes, id))[r] ==
              (if IdString(r.id) != IdString(id) then multiset(recipes)[r] else 0)
    ensures Seqs.IsSubsequence(WithoutIdString(recipes, id), recipes)
  {
    var keep := OtherIdString(IdString(id));
    Seqs.FilterIsSubsequence(recipes, keep);
    Seqs.FilterCounts(recipes, keep);
    var r' := WithoutIdString(recipes, id);
    assert forall r: Record :: r in r' <==> multiset(r')[r] > 0;
  }

  /** After `deleteRecipe(id)` nothing matches `id`, so deleting it twice is deleting it once. */
  lemma {:induction false} DeleteTwiceIsOnce(recipes: seq<Record>, id: Id)
    ensures WithoutIdString(WithoutIdString(recipes, id), id) == WithoutIdString(recipes, id)
  {
    Seqs.FilterIdempotent(recipes, OtherIdString(IdString(id)));
  }

  /**
   * `updateRecipe(item)` replaces only the first recipe whose `String(id)` equals
   * `String(item.id)`: the length and every other recipe are kept, and nothing changes when
   * none matches.
   */
  lemma {:induction false} UpdateReplacesFirstSpelling(recipes: seq<Record>, item: Record)
    ensures |ReplaceByIdString(recipes, item)| == |recipes|
    ensures (forall j :: 0 <= j < |recipes| ==> IdString(recipes[j].id) != IdString(item.id)) ==>
      ReplaceByIdString(recipes, item) == recipes
    ensures forall i ::
              0 <= i < |recipes| && IdString(recipes[i].id) == IdString(item.id)
              && (forall j :: 0 <= j < i ==> IdString(recipes[j].id) != IdString(item.id))
              ==> ReplaceByIdString(recipes, item) == recipes[i := item]
  {
    var p := SameIdString(IdString(item.id));
    Seqs.ReplaceFirstSpec(recipes, p, item);
    assert forall j :: 0 <= j < |recipes| ==> (p(recipes[j]) <==> IdString(recipes[j].id) == IdString(item.id));
  }

  /** The number 5 and the string "5" are the same id to both `updateRecipe` and `deleteRecipe`. */
  lemma NumberAndStringIdsAgree(recipes: seq<Record>, stored: map<string, Value>, sent: map<string, Value>)
    ensures WithoutIdString(recipes, Num(5)) == WithoutIdString(recipes, Str("5"))
    ensures WithoutIdString([Record(Num(5), stored)], Str("5")) == []
    ensures ReplaceByIdString([Record(Num(5), stored)], Record(Str("5"), sent)) == [Record(Str("5"), sent)]
  {
    NumberFiveIsStringFive();
    assert OtherIdString("5")(Record(Num(5), stored)) == false;
    assert SameIdString("5")(Record(Num(5), stored));
  }

  /** The slice state: `initialState: []`, mutated in place by the reducers. */
  class RecipeList {
    var state: seq<Record>

    /** `createSlice({ initialState: [] })` */
    constructor ()
      ensures state == []
    {
      state := [];
    }

    /** `addRecipe`: `state.push(payload)`. */
    method AddRecipe(payload: Record)
      modifies this
      ensures state == old(state) + [payload]
    {
      state := state + [payload];
    }

    /** `updateRecipe`: `state[index] = payload` at the first `String`-equal id, if any. */
    method UpdateRecipe(payload: Record)
      modifies this
      ensures state == ReplaceByIdString(old(state), payload)
    {
      var p := SameIdString(IdString(payload.id));
      Seqs.ReplaceFirstSpec(state, p, payload);
      var index := Seqs.IndexWhere(state, p);
      if index != -1 {
        state := state[index := payload];
      }
    }

    /** `deleteRecipe`: the reducer returns the filtered array, which becomes the new state. */
    method DeleteRecipe(payload: Id)
      modifies this
      ensures state == WithoutIdString(old(state), payload)
    {
      state := WithoutIdString(state, payload);
    }
  }
}
