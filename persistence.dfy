/**
 * The local mirror of the store: five fixed storage slots, an all-or-nothing load, a save that
 * swallows its failures, and the middleware that rewrites all five slots after every action.
 * The browser's `localStorage` is a key-value map whose reads and writes may throw; JSON is an
 * encoder and a decoder given as parameters, the decoder failing where `JSON.parse` throws.
 */
module Persistence {
  import opened Wrappers
  import Store

  const RECIPES_KEY := "family_recipes"
  const PEOPLE_KEY := "family_people"
  const COUNTRIES_KEY := "family_countries"
  const INGREDIENTS_KEY := "family_ingredients"
  const RECIPE_INGREDIENTS_KEY := "family_recipe_ingredients"

  /** `STORAGE_KEYS`: the slot of each collection. */
  function SlotKey(k: Store.Kind): string
  {
    match k
    case Recipes => RECIPES_KEY
    case People => PEOPLE_KEY
    case Countries => COUNTRIES_KEY
    case Ingredients => INGREDIENTS_KEY
    case RecipeIngredients => RECIPE_INGREDIENTS_KEY
  }

  /** The five slot keys. */
  const SlotKeys: set<string> := {RECIPES_KEY, PEOPLE_KEY, COUNTRIES_KEY, INGREDIENTS_KEY, RECIPE_INGREDIENTS_KEY}

  /** The five keys are distinct: each collection has a slot of its own. */
  lemma SlotKeysDistinct(a: Store.Kind, b: Store.Kind)
    ensures SlotKey(a) in SlotKeys
    ensures SlotKey(a) == SlotKey(b) <==> a == b
  {
  }

  /**
   * What the storage holds: whether `window.localStorage` exists (otherwise `getStorage`
   * falls back to a store that reads `null` and ignores writes), its entries, and the keys
   * whose reads or writes throw.
   */
  datatype Disk = Disk(available: bool, entries: map<string, string>, readFaults: set<string>, writeFaults: set<string>)

  /** `storage.getItem(key)`: `null` is `None`; a throwing read is a failure. */
  function ReadItem(d: Disk, key: string): (r: Result<Option<string>, string>)
    ensures !d.available ==> r == Success(None)
    ensures r.Failure? <==> d.available && key in d.readFaults
    ensures r.Success? && r.value.Some? ==> key in d.entries && r.value.value == d.entries[key]
    ensures d.available && key !in d.readFaults ==> (r == Success(None) <==> key !in d.entries)
  {
    if !d.available then Success(None)
    else if key in d.readFaults then Failure("getItem failed: " + key)
    else if key in d.entries then Success(Some(d.entries[key]))
    else Success(None)
  }

  /** The write of `storage.setItem(key, text)` throws. */
  predicate WriteFails(d: Disk, key: string)
  {
    d.available && key in d.writeFaults
  }

  /** The storage after `storage.setItem(key, text)`: a failing write and the fallback store change nothing. */
  function Written(d: Disk, key: string, text: string): (d': Disk)
    ensures d'.available == d.available && d'.readFaults == d.readFaults && d'.writeFaults == d.writeFaults
    ensures d.available && !WriteFails(d, key) ==> d'.entries == d.entries[key := text]
    ensures !d.available || WriteFails(d, key) ==> d'.entries == d.entries
  {
    if d.available && key !in d.writeFaults then d.(entries := d.entries[key := text]) else d
  }

  // ---------- loading ----------

  /** A restored collection: `[]` (the default) or what was parsed. */
  datatype Slot<V> = Empty | Restored(value: V)

  /** The object `loadPersistedData` resolves with. */
  datatype Loaded<V> = Loaded(recipes: Slot<V>, people: Slot<V>, countries: Slot<V>, ingredients: Slot<V>, recipeIngredients: Slot<V>)

  /** The slot of collection `k`. */
  function SlotOf<V>(l: Loaded<V>, k: Store.Kind): Slot<V>
  {
    match k
    case Recipes => l.recipes
    case People => l.people
    case Countries => l.countries
    case Ingredients => l.ingredients
    case RecipeIngredients => l.recipeIngredients
  }

  /** The result of the `catch`: every collection `[]`. */
  function AllEmpty<V>(): (l: Loaded<V>)
    ensures forall k :: SlotOf(l, k) == Empty
  {
    Loaded(Empty, Empty, Empty, Empty, Empty)
  }

  /** `raw ? JSON.parse(raw) : []`, `None` when the parse throws. */
  function ParseSlot<V>(raw: Option<string>, decode: string -> Option<V>): (r: Option<Slot<V>>)
    ensures raw.None? || raw.value == "" ==> r == Some(Empty)
    ensures raw.Some? && raw.value != "" ==>
      r == (if decode(raw.value).Some? then Some(Restored(decode(raw.value).value)) else None)
  {
    match raw
    case None => Some(Empty)
    case Some(text) =>
      if text == "" then Some(Empty)
      else match decode(text)
        case None => None
        case Some(v) => Some(Restored(v))
  }

  /** Reading and parsing the slot of `k`; `None` when either throws. */
  function LoadSlot<V>(d: Disk, k: Store.Kind, decode: string -> Option<V>): Option<Slot<V>>
  {
    match ReadItem(d, SlotKey(k))
    case Failure(_) => None
    case Success(raw) => ParseSlot(raw, decode)
  }

  /** `loadPersistedData`: the five slots when every read and parse succeeds, otherwise all `[]`. */
  function LoadSpec<V>(d: Disk, decode: string -> Option<V>): Loaded<V>
  {
    var r, p, c := LoadSlot(d, Store.Recipes, decode), LoadSlot(d, Store.People, decode), LoadSlot(d, Store.Countries, decode);
    var i, ri := LoadSlot(d, Store.Ingredients, decode), LoadSlot(d, Store.RecipeIngredients, decode);
    if r.Some? && p.Some? && c.Some? && i.Some? && ri.Some? then Loaded(r.value, p.value, c.value, i.value, ri.value)
    else AllEmpty()
  }

  /**
   * The load never returns a partial mix: either every slot is what its own read and parse
   * gave, or, when any of the five threw, every slot is `[]`.
   */
  lemma LoadIsAllOrNothing<V>(d: Disk, decode: string -> Option<V>)
    ensures (forall k :: LoadSlot(d, k, decode).Some?) ==>
      forall k :: SlotOf(LoadSpec(d, decode), k) == LoadSlot(d, k, decode).value
    ensures (exists k :: LoadSlot(d, k, decode).None?) ==> LoadSpec(d, decode) == AllEmpty()
  {
    if exists k :: LoadSlot(d, k, decode).None? {
      var k :| LoadSlot(d, k, decode).None?;
      assert k.Recipes? || k.People? || k.Countries? || k.Ingredients? || k.RecipeIngredients?;
    } else {
      assert LoadSlot(d, Store.Recipes, decode).Some? && LoadSlot(d, Store.People, decode).Some?;
      assert LoadSlot(d, Store.Countries, decode).Some? && LoadSlot(d, Store.Ingredients, decode).Some?;
      assert LoadSlot(d, Store.RecipeIngredients, decode).Some?;
    }
  }

  /** A slot that is absent or holds the empty string loads as `[]`. */
  lemma {:induction false} MissingSlotLoadsEmpty<V>(d: Disk, decode: string -> Option<V>, k: Store.Kind)
    requires SlotKey(k) !in d.entries || d.entries[SlotKey(k)] == ""
    ensures SlotOf(LoadSpec(d, decode), k) == Empty
  {
    LoadIsAllOrNothing(d, decode);
  }

  /** One throwing read, or one stored text that does not parse, empties all five collections. */
  lemma {:induction false} AnyFailureLoadsAllEmpty<V>(d: Disk, decode: string -> Option<V>, k: Store.Kind)
    requires d.available
    requires SlotKey(k) in d.readFaults
      || (SlotKey(k) in d.entries && d.entries[SlotKey(k)] != "" && decode(d.entries[SlotKey(k)]).None?)
    ensures LoadSpec(d, decode) == AllEmpty()
  {
    assert LoadSlot(d, k, decode).None?;
    LoadIsAllOrNothing(d, decode);
  }

  /** Without `window.localStorage` every read gives `null`, so the load gives all `[]`. */
  lemma NoLocalStorageLoadsAllEmpty<V>(d: Disk, decode: string -> Option<V>)
    requires !d.available
    ensures LoadSpec(d, decode) == AllEmpty()
  {
  }

  // ---------- saving ----------

  /** The storage after the middleware's five writes of the store's state. */
  function SaveAll(d: Disk, st: Store.StoreState, encode: Store.SliceState -> string): Disk
  {
    var d1 := Written(d, RECIPES_KEY, encode(st.recipes));
    var d2 := Written(d1, PEOPLE_KEY, encode(st.people));
    var d3 := Written(d2, COUNTRIES_KEY, encode(st.countries));
    var d4 := Written(d3, INGREDIENTS_KEY, encode(st.ingredients));
    Written(d4, RECIPE_INGREDIENTS_KEY, encode(st.recipeIngredients))
  }

  /**
   * After every action each slot whose write succeeds holds the encoding of its whole slice
   * (`items`, `loading` and `error`), a slot whose write throws keeps its old text, and no
   * other key changes.
   */
  lemma {:induction false} SaveAllWritesEverySlot(d: Disk, st: Store.StoreState, encode: Store.SliceState -> string)
    ensures var d' := SaveAll(d, st, encode);
      && (forall k :: d.available && !WriteFails(d, SlotKey(k)) ==>
            SlotKey(k) in d'.entries && d'.entries[SlotKey(k)] == encode(Store.SliceOf(st, k)))
      && (forall k :: !d.available || WriteFails(d, SlotKey(k)) ==>
            (SlotKey(k) in d'.entries <==> SlotKey(k) in d.entries)
            && (SlotKey(k) in d.entries ==> d'.entries[SlotKey(k)] == d.entries[SlotKey(k)]))
      && (forall key :: key !in SlotKeys ==>
            (key in d'.entries <==> key in d.entries) && (key in d.entries ==> d'.entries[key] == d.entries[key]))
  {
    var d' := SaveAll(d, st, encode);
    forall k | d.available && !WriteFails(d, SlotKey(k))
      ensures SlotKey(k) in d'.entries && d'.entries[SlotKey(k)] == encode(Store.SliceOf(st, k))
    {
      assert k.Recipes? || k.People? || k.Countries? || k.Ingredients? || k.RecipeIngredients?;
    }
    forall k | !d.available || WriteFails(d, SlotKey(k))
      ensures (SlotKey(k) in d'.entries <==> SlotKey(k) in d.entries)
        && (SlotKey(k) in d.entries ==> d'.entries[SlotKey(k)] == d.entries[SlotKey(k)])
    {
      assert k.Recipes? || k.People? || k.Countries? || k.Ingredients? || k.RecipeIngredients?;
    }
  }

  /**
   * With working storage and a codec that round-trips the slices (and never encodes to the
   * empty string), loading after the middleware's writes restores every slice.
   */
  lemma {:induction false} SaveThenLoadRestores(d: Disk, st: Store.StoreState, encode: Store.SliceState -> string,
                                                decode: string -> Option<Store.SliceState>)
    requires d.available
    requires forall k :: SlotKey(k) !in d.writeFaults && SlotKey(k) !in d.readFaults
    requires forall k :: encode(Store.SliceOf(st, k)) != "" && decode(encode(Store.SliceOf(st, k))) == Some(Store.SliceOf(st, k))
    ensures forall k :: SlotOf(LoadSpec(SaveAll(d, st, encode), decode), k) == Restored(Store.SliceOf(st, k))
  {
    var d' := SaveAll(d, st, encode);
    SaveAllWritesEverySlot(d, st, encode);
    forall k
      ensures LoadSlot(d', k, decode) == Some(Restored(Store.SliceOf(st, k)))
    {
      assert !WriteFails(d, SlotKey(k));
      assert d'.entries[SlotKey(k)] == encode(Store.SliceOf(st, k));
    }
    LoadIsAllOrNothing(d', decode);
  }

  /** `window.localStorage` or its fallback. */
  class Storage {
    const available: bool
    var entries: map<string, string>
    const readFaults: set<string>
    const writeFaults: set<string>

    /** The storage as a value. */
    function Snapshot(): Disk
      reads this
    {
      Disk(available, entries, readFaults, writeFaults)
    }

    /** `getStorage()` over the given browser state. */
    constructor (available: bool, entries: map<string, string>, readFaults: set<string>, writeFaults: set<string>)
      ensures Snapshot() == Disk(available, entries, readFaults, writeFaults)
    {
      this.available := available;
      this.entries := entries;
      this.readFaults := readFaults;
      this.writeFaults := writeFaults;
    }

    /** `storage.getItem(key)` */
    method GetItem(key: string) returns (r: Result<Option<string>, string>)
      ensures r == ReadItem(Snapshot(), key)
    {
      if !available {
        return Success(None);
      }
      if key in readFaults {
        return Failure("getItem failed: " + key);
      }
      if key in entries {
        return Success(Some(entries[key]));
      }
      return Success(None);
    }

    /** `storage.setItem(key, text)`; the failure is the exception it throws. */
    method SetItem(key: string, text: string) returns (r: Result<bool, string>)
      modifies this
      ensures Snapshot() == Written(old(Snapshot()), key, text)
      ensures r.Failure? <==> WriteFails(old(Snapshot()), key)
    {
      if !available {
        return Success(true);
      }
      if key in writeFaults {
        return Failure("setItem failed: " + key);
      }
      entries := entries[key := text];
      return Success(true);
    }
  }

  /** `saveToStorage(key, data)`: the failure is logged (`logged`) and never propagated. */
  method SaveToStorage(storage: Storage, key: string, data: Store.SliceState, encode: Store.SliceState -> string)
    returns (logged: bool)
    modifies storage
    ensures storage.Snapshot() == Written(old(storage.Snapshot()), key, encode(data))
    ensures logged <==> WriteFails(old(storage.Snapshot()), key)
  {
    var outcome := storage.SetItem(key, encode(data));
    logged := outcome.Failure?;
  }

  /** `loadPersistedData()`: five reads, then five parses, all inside one `try`. */
  method LoadPersistedData<V>(storage: Storage, decode: string -> Option<V>) returns (data: Loaded<V>)
    ensures data == LoadSpec(storage.Snapshot(), decode)
  {
    var recipes := storage.GetItem(RECIPES_KEY);
    var people := storage.GetItem(PEOPLE_KEY);
    var countries := storage.GetItem(COUNTRIES_KEY);
    var ingredients := storage.GetItem(INGREDIENTS_KEY);
    var recipeIngredients := storage.GetItem(RECIPE_INGREDIENTS_KEY);
    if recipes.Failure? || people.Failure? || countries.Failure? || ingredients.Failure? || recipeIngredients.Failure? {
      return AllEmpty();
    }
    var r := ParseSlot(recipes.value, decode);
    var p := ParseSlot(people.value, decode);
    var c := ParseSlot(countries.value, decode);
    var i := ParseSlot(ingredients.value, decode);
    var ri := ParseSlot(recipeIngredients.value, decode);
    if r.None? || p.None? || c.None? || i.None? || ri.None? {
      return AllEmpty();
    }
    return Loaded(r.value, p.value, c.value, i.value, ri.value);
  }

  /**
   * `persistenceMiddleware(store)(next)(action)`: `next(action)` once, then the five slots are
   * written from the new state, whatever the action was; the result of `next` is returned.
   */
  method PersistenceMiddleware(store: Store.AppStore, storage: Storage, action: Store.Action,
                               encode: Store.SliceState -> string)
    returns (result: Store.Action)
    requires store.Valid()
    modifies store.recipes, store.people, store.countries, store.ingredients, store.recipeIngredients, storage
    ensures store.Valid()
    ensures store.State() == Store.Step(old(store.State()), action)
    ensures result == action
    ensures storage.Snapshot() == SaveAll(old(storage.Snapshot()), store.State(), encode)
  {
    result := store.Dispatch(action);
    var state := store.State();
    var _ := SaveToStorage(storage, RECIPES_KEY, state.recipes, encode);
    var _ := SaveToStorage(storage, PEOPLE_KEY, state.people, encode);
    var _ := SaveToStorage(storage, COUNTRIES_KEY, state.countries, encode);
    var _ := SaveToStorage(storage, INGREDIENTS_KEY, state.ingredients, encode);
    var _ := SaveToStorage(storage, RECIPE_INGREDIENTS_KEY, state.recipeIngredients, encode);
  }
}
