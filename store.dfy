/**
 * The Redux store of the client: five slices (recipes, people, countries, ingredients and
 * recipe-ingredient links), each holding `items`, `loading` and `error`, and the cases each
 * slice's reducer has for the pending, fulfilled and rejected phases of the async thunks.
 * The thunks' HTTP calls are not modelled: an action carries the payload a thunk resolved
 * with, or the message it was rejected with.
 */
module Store {
  import opened Wrappers
  import opened JsValues
  import Seqs
  import ApiClient

  /** The five collections, one slice each. */
  datatype Kind = Recipes | People | Countries | Ingredients | RecipeIngredients

  /** The async thunks: `fetchAll`, `fetchOne`, `create`, `update`, `delete`, `deleteByRecipe`, `incrementTimesCooked`. */
  datatype Op = FetchAll | FetchOne | Create | Update | Delete | DeleteByRecipe | IncrementTimesCooked

  /** The payload a thunk resolved with. */
  datatype Outcome =
    | FetchedAll(items: seq<Record>)   // the server's list
    | FetchedOne(item: Record)         // the server's record
    | Created(item: Record)            // the created record, as the server returned it
    | Updated(item: Record)            // the updated record, as the server returned it
    | Deleted(id: Id)                  // the id the delete thunk was given
    | DeletedByRecipe(recipe: Id)      // the recipe id the thunk was given
    | Cooked(item: Record)             // the recipe after its `times_cooked` was incremented

  /** The thunk an outcome belongs to. */
  function OpOf(o: Outcome): Op
  {
    match o
    case FetchedAll(_) => FetchAll
    case FetchedOne(_) => FetchOne
    case Created(_) => Create
    case Updated(_) => Update
    case Deleted(_) => Delete
    case DeletedByRecipe(_) => DeleteByRecipe
    case Cooked(_) => IncrementTimesCooked
  }

  /** The three action types every thunk dispatches. */
  datatype Phase = Pending(op: Op) | Fulfilled(outcome: Outcome) | Rejected(op: Op, message: string)

  /**
   * A dispatched action: a thunk phase of one collection (`recipes/create/fulfilled`), or the
   * `clearError` reducer of one slice. Every slice's reducer sees every action.
   */
  datatype Action = Thunk(kind: Kind, phase: Phase) | ClearError(target: Kind)

  /** The state of one slice; `error` is `None` for `null`. */
  datatype SliceState = SliceState(items: seq<Record>, loading: bool, error: Option<string>)

  /** `{ items: [], loading: false, error: null }` */
  const Initial := SliceState([], false, None)

  /**
   * The thunks for which slice `k` has a pending and a rejected case (and whose fulfilled case
   * resets `loading`): recipe fetch, create and update, and the people and country fetches.
   */
  predicate Tracked(k: Kind, op: Op)
  {
    match k
    case Recipes => op == FetchAll || op == Create || op == Update
    case People => op == FetchAll
    case Countries => op == FetchAll
    case Ingredients => false
    case RecipeIngredients => false
  }

  /** The thunks for which slice `k` has a fulfilled case. */
  predicate Handles(k: Kind, op: Op)
  {
    match k
    case Recipes => op in {FetchAll, Create, Update, Delete, IncrementTimesCooked}
    case People => op in {FetchAll, Create, Update, Delete}
    case Countries => op in {FetchAll, Create}
    case Ingredients => op in {FetchAll, Create, Update, Delete}
    case RecipeIngredients => op in {FetchAll, Create, Update, Delete, DeleteByRecipe}
  }

  /** `r => r.id === id` */
  function HasId(id: Id): Record -> bool
  {
    (r: Record) => r.id == id
  }

  /** `r => r.id !== id` */
  function OtherId(id: Id): Record -> bool
  {
    (r: Record) => r.id != id
  }

  /** `ri => ri.recipe !== recipeId` */
  function OutsideRecipe(recipeId: Id): Record -> bool
  {
    (ri: Record) => Get(ri, "recipe") != FromId(recipeId)
  }

  /** What a fulfilled case does to `items`. */
  function Effect(items: seq<Record>, o: Outcome): seq<Record>
  {
    match o
    case FetchedAll(payload) => payload
    case FetchedOne(_) => items
    case Created(item) => items + [item]
    case Updated(item) => Seqs.ReplaceFirst(items, HasId(item.id), item)
    case Cooked(item) => Seqs.ReplaceFirst(items, HasId(item.id), item)
    case Deleted(id) => Seqs.Filter(items, OtherId(id))
    case DeletedByRecipe(recipe) => Seqs.Filter(items, OutsideRecipe(recipe))
  }

  /** The reducer of slice `k`, as a function of the old state and the action. */
  function Reduce(k: Kind, s: SliceState, a: Action): SliceState
  {
    match a
    case ClearError(target) => if target == k then s.(error := None) else s
    case Thunk(target, phase) =>
      if target != k then s
      else
        match phase
        case Pending(op) => if Tracked(k, op) then s.(loading := true, error := None) else s
        case Rejected(op, message) => if Tracked(k, op) then s.(loading := false, error := Some(message)) else s
        case Fulfilled(o) =>
          if !Handles(k, OpOf(o)) then s
          else SliceState(Effect(s.items, o), if Tracked(k, OpOf(o)) then false else s.loading, s.error)
  }

  // ---------- what the reducers promise ----------

  /** A pending fetch, create or update starts a request: `loading` true, `error` null, `items` kept. */
  lemma PendingStartsRequest(k: Kind, s: SliceState, op: Op)
    ensures Tracked(k, op) ==> Reduce(k, s, Thunk(k, Pending(op))) == SliceState(s.items, true, None)
    ensures !Tracked(k, op) ==> Reduce(k, s, Thunk(k, Pending(op))) == s
  {
  }

  /** A rejected action with a rejected case ends the request with its message; items are kept. */
  lemma RejectedRecordsError(k: Kind, s: SliceState, op: Op, message: string)
    ensures Tracked(k, op) ==> Reduce(k, s, Thunk(k, Rejected(op, message))) == SliceState(s.items, false, Some(message))
    ensures !Tracked(k, op) ==> Reduce(k, s, Thunk(k, Rejected(op, message))) == s
  {
  }

  /** A fulfilled fetch-all puts exactly the payload in `items`, in payload order. */
  lemma FetchAllReplacesItems(k: Kind, s: SliceState, payload: seq<Record>)
    ensures var s' := Reduce(k, s, Thunk(k, Fulfilled(FetchedAll(payload))));
      && s'.items == payload
      && s'.loading == (if Tracked(k, FetchAll) then false else s.loading)
      && s'.error == s.error
  {
  }

  /** A fulfilled create appends exactly the payload: the old items stay as an unchanged prefix. */
  lemma CreateAppends(k: Kind, s: SliceState, item: Record)
    ensures var s' := Reduce(k, s, Thunk(k, Fulfilled(Created(item))));
      && |s'.items| == |s.items| + 1
      && s'.items[..|s.items|] == s.items
      && s'.items[|s.items|] == item
      && s'.loading == (if Tracked(k, Create) then false else s.loading)
      && s'.error == s.error
  {
  }

  /**
   * A fulfilled update (or increment) replaces only the first item whose `id === payload.id`:
   * the length and every other item are kept, and nothing changes when no item matches.
   */
  lemma {:induction false} UpdateReplacesFirstMatch(k: Kind, s: SliceState, o: Outcome)
    requires o.Updated? || o.Cooked?
    requires Handles(k, OpOf(o))
    ensures var s' := Reduce(k, s, Thunk(k, Fulfilled(o)));
      && |s'.items| == |s.items|
      && ((forall j :: 0 <= j < |s.items| ==> s.items[j].id != o.item.id) ==> s'.items == s.items)
      && (forall i :: 0 <= i < |s.items| && s.items[i].id == o.item.id
           && (forall j :: 0 <= j < i ==> s.items[j].id != o.item.id)
           ==> s'.items == s.items[i := o.item])
      && s'.loading == (if Tracked(k, OpOf(o)) then false else s.loading)
      && s'.error == s.error
  {
    Seqs.ReplaceFirstSpec(s.items, HasId(o.item.id), o.item);
    var i := Seqs.IndexWhere(s.items, HasId(o.item.id));
    assert forall j :: 0 <= j < |s.items| ==> (HasId(o.item.id)(s.items[j]) <==> s.items[j].id == o.item.id);
  }

  /**
   * A fulfilled delete removes every item whose `id ===` the deleted id, keeps every other
   * item as often as it occurred, and keeps the survivors in their order; `loading` and
   * `error` are untouched.
   */
  lemma {:induction false} DeleteRemovesEveryMatch(k: Kind, s: SliceState, id: Id)
    requires Handles(k, Delete)
    ensures var s' := Reduce(k, s, Thunk(k, Fulfilled(Deleted(id))));
      && (forall r :: r in s'.items <==> r in s.items && r.id != id)
      && (forall r :: multiset(s'.items)[r] == (if r.id != id then multiset(s.items)[r] else 0))
      && Seqs.IsSubsequence(s'.items, s.items)
      && s'.loading == s.loading && s'.error == s.error
  {
    var r' := Seqs.Filter(s.items, OtherId(id));
    assert Reduce(k, s, Thunk(k, Fulfilled(Deleted(id)))) == SliceState(r', s.loading, s.error);
    assert forall r: Record :: multiset(r')[r] == (if r.id != id then multiset(s.items)[r] else 0) by {
      Seqs.FilterCounts(s.items, OtherId(id));
    }
    assert Seqs.IsSubsequence(r', s.items) by {
      Seqs.FilterIsSubsequence(s.items, OtherId(id));
    }
    assert forall r: Record :: r in r' <==> multiset(r')[r] > 0;
  }

  /** After a delete no item has the deleted id, so deleting it again changes nothing. */
  lemma {:induction false} DeleteTwiceIsOnce(k: Kind, s: SliceState, id: Id)
    requires Handles(k, Delete)
    ensures var once := Reduce(k, s, Thunk(k, Fulfilled(Deleted(id))));
      Reduce(k, once, Thunk(k, Fulfilled(Deleted(id)))) == once
  {
    Seqs.FilterIdempotent(s.items, OtherId(id));
  }

  /**
   * Ids are compared strictly: deleting the string id "5" keeps the record whose id is
   * the number 5.
   */
  lemma StrictIdsDiffer(fields: map<string, Value>)
    ensures var s := SliceState([Record(Num(5), fields)], false, None);
      Reduce(Recipes, s, Thunk(Recipes, Fulfilled(Deleted(Str("5"))))) == s
  {
    var s := SliceState([Record(Num(5), fields)], false, None);
    assert OtherId(Str("5"))(s.items[0]);
    assert Seqs.Filter(s.items[1..], OtherId(Str("5"))) == [];
  }

  /**
   * A fulfilled delete-by-recipe removes every link whose `recipe ===` the recipe id and keeps
   * every other link, as often as it occurred and in its order.
   */
  lemma {:induction false} DeleteByRecipeRemovesLinks(s: SliceState, recipe: Id)
    ensures var s' := Reduce(RecipeIngredients, s, Thunk(RecipeIngredients, Fulfilled(DeletedByRecipe(recipe))));
      && (forall ri :: ri in s'.items <==> ri in s.items && Get(ri, "recipe") != FromId(recipe))
      && (forall ri :: multiset(s'.items)[ri] ==
            (if Get(ri, "recipe") != FromId(recipe) then multiset(s.items)[ri] else 0))
      && Seqs.IsSubsequence(s'.items, s.items)
      && s'.loading == s.loading && s'.error == s.error
  {
    var r' := Seqs.Filter(s.items, OutsideRecipe(recipe));
    assert Reduce(RecipeIngredients, s, Thunk(RecipeIngredients, Fulfilled(DeletedByRecipe(recipe))))
      == SliceState(r', s.loading, s.error);
    assert forall ri: Record :: multiset(r')[ri] ==
             (if Get(ri, "recipe") != FromId(recipe) then multiset(s.items)[ri] else 0) by {
      Seqs.FilterCounts(s.items, OutsideRecipe(recipe));
    }
    assert Seqs.IsSubsequence(r', s.items) by {
      Seqs.FilterIsSubsequence(s.items, OutsideRecipe(recipe));
    }
    assert forall ri: Record :: ri in r' <==> multiset(r')[ri] > 0;
  }

  /**
   * The links the thunk deletes on the server are the ones `getByRecipe` returns; once the
   * fulfilled case has run, no link of the local list belongs to the recipe any more, and
   * exactly the links `getByRecipe` would return of the local list are gone.
   */
  lemma {:induction false} DeleteByRecipeMatchesServer(s: SliceState, recipe: Id)
    ensures var s' := Reduce(RecipeIngredients, s, Thunk(RecipeIngredients, Fulfilled(DeletedByRecipe(recipe))));
      && ApiClient.GetByRecipe(s'.items, recipe) == []
      && forall ri :: ri in s.items ==>
           (ri in ApiClient.GetByRecipe(s.items, recipe) <==> ri !in s'.items)
  {
    DeleteByRecipeRemovesLinks(s, recipe);
    var s' := Reduce(RecipeIngredients, s, Thunk(RecipeIngredients, Fulfilled(DeletedByRecipe(recipe))));
    ApiClient.GetByRecipeExact(s'.items, recipe);
    ApiClient.GetByRecipeExact(s.items, recipe);
  }

  /** The actions of one slice, and `clearError` of another, leave a slice unchanged. */
  lemma OtherSlicesUntouched(k: Kind, s: SliceState, a: Action)
    requires (a.Thunk? && a.kind != k) || (a.ClearError? && a.target != k)
    ensures Reduce(k, s, a) == s
  {
  }

  /** `clearError` sets `error` to null and changes nothing else. */
  lemma ClearErrorOnlyError(k: Kind, s: SliceState)
    ensures Reduce(k, s, ClearError(k)) == SliceState(s.items, s.loading, None)
  {
  }

  // ---------- payloads built by the thunks ----------

  /**
   * `(v || 0) + 1` with JavaScript's `+`: a number is incremented, a non-empty string gets
   * "1" appended, `true` gives 2 and a falsy value gives 1.
   */
  function IncrementCount(v: Value): (r: Value)
    ensures v.Number? || !Truthy(v) ==> r.Number? && r.n == (if Truthy(v) then v.n else 0) + 1
    ensures v.Text? && Truthy(v) ==> r == Text(v.s + "1")
  {
    match Or(v, Number(0))
    case Number(n) => Number(n + 1)
    case Text(s) => Text(s + "1")
    case Bool(b) => Number((if b then 1 else 0) + 1)
    case _ => Number(1)
  }

  /** `{ ...recipe, times_cooked: (recipe.times_cooked || 0) + 1 }` */
  function IncrementedCopy(recipe: Record): (r: Record)
    ensures r.id == recipe.id
    ensures Get(r, "times_cooked") == IncrementCount(Get(recipe, "times_cooked"))
    ensures forall k :: k != "times_cooked" ==> Get(r, k) == Get(recipe, k)
  {
    Put(recipe, "times_cooked", IncrementCount(Get(recipe, "times_cooked")))
  }

  /**
   * Two recipes that differ at most in `times_cooked` format alike: both or neither
   * succeed, and then every other wire field is the same.
   */
  lemma {:induction false} FormatIgnoresOtherFields(a: map<string, Value>, b: map<string, Value>, parseFloat: Value -> Value)
    requires forall k :: k != "times_cooked" ==> Lookup(a, k) == Lookup(b, k)
    ensures var fa, fb := ApiClient.FormatRecipe(a, parseFloat), ApiClient.FormatRecipe(b, parseFloat);
      && (fa.Success? <==> fb.Success?)
      && (fa.Success? ==> forall k :: k in fa.value && k != "times_cooked" ==> fa.value[k] == fb.value[k])
  {
    assert Lookup(a, "prep_time") == Lookup(b, "prep_time");
    assert Lookup(a, "cook_time") == Lookup(b, "cook_time");
    assert Lookup(a, "total_time") == Lookup(b, "total_time");
    var fa, fb := ApiClient.FormatRecipe(a, parseFloat), ApiClient.FormatRecipe(b, parseFloat);
    if fa.Success? {
      assert fa.value == map k | k in ApiClient.WireKeys :: ApiClient.WireValue(k, Lookup(a, k), parseFloat);
      assert fb.value == map k | k in ApiClient.WireKeys :: ApiClient.WireValue(k, Lookup(b, k), parseFloat);
      forall k | k in fa.value && k != "times_cooked"
        ensures fa.value[k] == fb.value[k]
      {
        assert Lookup(a, k) == Lookup(b, k);
      }
    }
  }

  /**
   * The copy `incrementTimesCooked` submits formats on the wire exactly as the fetched recipe
   * does, except that a numeric (or missing) `times_cooked` goes up by one.
   */
  lemma {:induction false} IncrementSubmitsNextCount(recipe: Record, parseFloat: Value -> Value)
    requires var c := Get(recipe, "times_cooked"); c.Number? || !Truthy(c)
    ensures var before := ApiClient.FormatRecipe(recipe.fields, parseFloat);
      var after := ApiClient.FormatRecipe(IncrementedCopy(recipe).fields, parseFloat);
      && (after.Success? <==> before.Success?)
      && (after.Success? ==>
            && after.value.Keys == before.value.Keys
            && before.value["times_cooked"].Number?
            && after.value["times_cooked"] == Number(before.value["times_cooked"].n + 1)
            && forall k :: k in after.value && k != "times_cooked" ==> after.value[k] == before.value[k])
  {
    var copy := IncrementedCopy(recipe);
    forall k | k != "times_cooked"
      ensures Lookup(copy.fields, k) == Lookup(recipe.fields, k)
    {
      if k != "id" {
        assert Get(copy, k) == Get(recipe, k);
      }
    }
    FormatIgnoresOtherFields(copy.fields, recipe.fields, parseFloat);
    assert Lookup(copy.fields, "times_cooked") == Get(copy, "times_cooked");
    assert Lookup(recipe.fields, "times_cooked") == Get(recipe, "times_cooked");
  }

  /** The ids `deleteRecipeIngredientsByRecipe` sends a DELETE for: those of `getByRecipe`'s links. */
  function DeletePlan(links: seq<Record>): (ids: seq<Id>)
    ensures |ids| == |links|
    ensures forall i :: 0 <= i < |links| ==> ids[i] == links[i].id
  {
    if links == [] then [] else [links[0].id] + DeletePlan(links[1..])
  }

  /**
   * The server-side deletes of `deleteRecipeIngredientsByRecipe(r)` hit exactly the ids of the
   * links whose `recipe === r`.
   */
  lemma {:induction false} DeletePlanHitsRecipeLinks(all: seq<Record>, recipe: Id)
    ensures forall id :: id in DeletePlan(ApiClient.GetByRecipe(all, recipe)) <==>
      exists ri :: ri in all && ri.id == id && Get(ri, "recipe") == FromId(recipe)
  {
    var links := ApiClient.GetByRecipe(all, recipe);
    var ids := DeletePlan(links);
    assert forall ri :: ri in links <==> ri in all && Get(ri, "recipe") == FromId(recipe) by {
      ApiClient.GetByRecipeExact(all, recipe);
    }
    forall id
      ensures id in ids <==> exists ri :: ri in all && ri.id == id && Get(ri, "recipe") == FromId(recipe)
    {
      if id in ids {
        var i :| 0 <= i < |ids| && ids[i] == id;
        assert links[i] in links;
      }
      if exists ri :: ri in all && ri.id == id && Get(ri, "recipe") == FromId(recipe) {
        var ri :| ri in all && ri.id == id && Get(ri, "recipe") == FromId(recipe);
        assert ri in links;
        var i :| 0 <= i < |links| && links[i] == ri;
        assert ids[i] == id;
      }
    }
  }

  // ---------- the slices and the store ----------

  /** One slice: the draft state its reducer mutates in place. */
  class Slice {
    const kind: Kind
    var items: seq<Record>
    var loading: bool
    var error: Option<string>

    /** The slice's state as a value. */
    function State(): SliceState
      reads this
    {
      SliceState(items, loading, error)
    }

    /** `createSlice({ initialState: { items: [], loading: false, error: null } })` */
    constructor (kind: Kind)
      ensures this.kind == kind && State() == Initial
    {
      this.kind := kind;
      items := [];
      loading := false;
      error := None;
    }

    /** `state.items[findIndex(r => r.id === item.id)] = item` when there is a match. */
    method ReplaceById(item: Record)
      modifies this
      ensures items == Seqs.ReplaceFirst(old(items), HasId(item.id), item)
      ensures loading == old(loading) && error == old(error)
    {
      Seqs.ReplaceFirstSpec(items, HasId(item.id), item);
      var index := Seqs.IndexWhere(items, HasId(item.id));
      if index != -1 {
        items := items[index := item];
      }
    }

    /** The slice's reducer, run on its draft for one dispatched action. */
    method Apply(a: Action)
      modifies this
      ensures State() == Reduce(kind, old(State()), a)
    {
      match a {
        case ClearError(target) =>
          if target == kind {
            error := None;
          }
        case Thunk(target, phase) =>
          if target == kind {
            match phase {
              case Pending(op) =>
                if Tracked(kind, op) {
                  loading := true;
                  error := None;
                }
              case Rejected(op, message) =>
                if Tracked(kind, op) {
                  loading := false;
                  error := Some(message);
                }
              case Fulfilled(o) =>
                if Handles(kind, OpOf(o)) {
                  if Tracked(kind, OpOf(o)) {
                    loading := false;
                  }
                  match o {
                    case FetchedAll(payload) => items := payload;
                    case FetchedOne(_) =>
                    case Created(item) => items := items + [item];
                    case Updated(item) => ReplaceById(item);
                    case Cooked(item) => ReplaceById(item);
                    case Deleted(id) => items := Seqs.Filter(items, OtherId(id));
                    case DeletedByRecipe(recipe) => items := Seqs.Filter(items, OutsideRecipe(recipe));
                  }
                }
            }
          }
      }
    }
  }

  /** The state of the whole store: one slice state per collection. */
  datatype StoreState = StoreState(
    recipes: SliceState, people: SliceState, countries: SliceState,
    ingredients: SliceState, recipeIngredients: SliceState)

  /** The slice state of collection `k`. */
  function SliceOf(st: StoreState, k: Kind): SliceState
  {
    match k
    case Recipes => st.recipes
    case People => st.people
    case Countries => st.countries
    case Ingredients => st.ingredients
    case RecipeIngredients => st.recipeIngredients
  }

  /** The combined reducer: every slice reduces every action. */
  function Step(st: StoreState, a: Action): (st': StoreState)
    ensures forall k :: SliceOf(st', k) == Reduce(k, SliceOf(st, k), a)
  {
    StoreState(
      Reduce(Recipes, st.recipes, a), Reduce(People, st.people, a), Reduce(Countries, st.countries, a),
      Reduce(Ingredients, st.ingredients, a), Reduce(RecipeIngredients, st.recipeIngredients, a))
  }

  /** An action changes at most the slice of its own collection. */
  lemma StepChangesOneSlice(st: StoreState, a: Action, k: Kind)
    requires k != (if a.Thunk? then a.kind else a.target)
    ensures SliceOf(Step(st, a), k) == SliceOf(st, k)
  {
  }

  /** `configureStore({ reducer: { recipes, people, countries, ingredients, recipeIngredients } })` */
  class AppStore {
    const recipes: Slice
    const people: Slice
    const countries: Slice
    const ingredients: Slice
    const recipeIngredients: Slice

    /** Each field holds the slice of its collection (so the five slices are distinct objects). */
    ghost predicate Valid()
      reads this, recipes, people, countries, ingredients, recipeIngredients
    {
      && recipes.kind == Recipes && people.kind == People && countries.kind == Countries
      && ingredients.kind == Ingredients && recipeIngredients.kind == RecipeIngredients
    }

    /** The store's state as a value. */
    function State(): StoreState
      reads this, recipes, people, countries, ingredients, recipeIngredients
    {
      StoreState(recipes.State(), people.State(), countries.State(), ingredients.State(), recipeIngredients.State())
    }

    /** A fresh store: every slice in its initial state. */
    constructor ()
      ensures Valid()
      ensures State() == StoreState(Initial, Initial, Initial, Initial, Initial)
    {
      recipes := new Slice(Recipes);
      people := new Slice(People);
      countries := new Slice(Countries);
      ingredients := new Slice(Ingredients);
      recipeIngredients := new Slice(RecipeIngredients);
    }

    /** `store.dispatch(action)`: runs every slice's reducer and returns the action. */
    method Dispatch(action: Action) returns (result: Action)
      requires Valid()
      modifies recipes, people, countries, ingredients, recipeIngredients
      ensures Valid()
      ensures State() == Step(old(State()), action)
      ensures result == action
    {
      recipes.Apply(action);
      people.Apply(action);
      countries.Apply(action);
      ingredients.Apply(action);
      recipeIngredients.Apply(action);
      result := action;
    }
  }
}
