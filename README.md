# Family recipes client: a Dafny model

This project models the logic of the fhExpo client, a thin React Native / Redux front end for a
family-history and recipe server. In the model, the client's HTTP calls, storage and clock are
parameters or values. What remains is sequential and deterministic:

- **The Redux store** (`Store`). It has five slices: recipes, people, countries, ingredients and
  recipe-ingredient links. Each slice holds `items`, `loading` and `error`. Each slice reducer
  handles the pending, fulfilled and rejected phases of the async thunks, plus `clearError`.
  - A slice is a class whose `Apply` method changes its fields in place.
  - `Dispatch` runs every slice's reducer.
  - Both are proved against the pure reducer `Reduce` and the combined `Step`.
  - Ids are compared with strict equality, so the number 5 and the string "5" differ.
- **The older single-slice store** (`LegacyStore`). It is a plain recipe list whose update and
  delete compare ids through `String(...)`, so the number 5 and the string "5" are the same id.
- **The REST client's formatting** (`ApiClient`):
  - the `H:MM:SS` duration converter;
  - the recipe wire record with its defaults;
  - how a failed response's error message is chosen;
  - the result of a DELETE;
  - the client-side `getByRecipe` filter.
- **URL building** (`ApiConfig`): the base URL choice and `getApiUrl`.
- **The local mirror of the store** (`Persistence`):
  - five fixed storage slots over a key-value map;
  - JSON is an encoder and decoder given as parameters;
  - loading is all-or-nothing;
  - the middleware writes all five slots after every action;
  - a save swallows its own failure.
- **The form validators** (`Validation`). This includes a proof that the left-to-right e-mail test
  accepts exactly what the regular expression `^[^\s@]+@[^\s@]+\.[^\s@]+$` matches.
- **The input logic of the forms**:
  - the date auto-formatter (`DateInput`);
  - the recipe ingredient editor (`RecipeIngredients`), a class whose handlers are proved against
    the pure `AddIngredient`;
  - the person form (`AddPerson`);
  - the recipe form (`AddRecipe`).

The shared modules model the JavaScript semantics the client depends on:

- `JsValues` covers primitive values, truthiness, `||`, `String(...)` and records.
- `JsText` covers `trim`, `split` on one character, the `/[^...]/g` filters and `parseInt`.
- `Seqs` covers `filter`, `findIndex` and replace-first.

Numbers are integers, plus `NaN`.

## Behaviour worth knowing

- Ids are compared in two different ways.
  - `app/store.tsx` compares ids with `===`, so `Store` uses strict equality.
    `StrictIdsDiffer` shows that deleting the string id "5" keeps the record with the number id 5.
  - `app/store.jsx` and the lookups in `components/RecipeIngredients.jsx` compare `String`
    spellings, so the number 5 and the string "5" name the same record there.
- `utils/persistence.js` writes the whole slice state (`items`, `loading`, `error`) into each
  collection's storage slot, not only `items`. `SaveAllWritesEverySlot` states that.
- Only some thunks have pending and rejected cases in `app/store.tsx`: the recipe fetch, create
  and update, and the people and country fetches. For every other thunk, a pending or rejected
  action leaves the slice unchanged (`PendingStartsRequest`, `RejectedRecordsError`).
- In `services/api.js`, `handleResponse` on a failed response catches a JSON read that fails
  and turns it into an empty object. Its `response.text()` fallback is never reached, so the
  message is `detail`, else `message`, else `HTTP error! status: <status>`.
- On an ok response, `handleResponse` returns `response.json()` without a guard, so a body that
  is not JSON rejects the call. `HandleResponse` returns that failure.

## Model

| member | source | states |
|---|---|---|
| Store.PendingStartsRequest | fhExpo/app/store.tsx:56-59 | A pending fetch, create or update of a slice that has that case sets `loading` true and `error` null and keeps `items`. Every other pending action leaves the slice as it was. |
| Store.RejectedRecordsError | fhExpo/app/store.tsx:64-67 | Where a rejected case exists, the action sets `loading` false and `error` to the message, and `items` is unchanged. Elsewhere the slice is unchanged. |
| Store.FetchAllReplacesItems | fhExpo/app/store.tsx:60-63 | A fulfilled fetch-all makes `items` exactly the payload, in payload order. `loading` ends false where the slice tracks it, and `error` is kept. |
| Store.CreateAppends | fhExpo/app/store.tsx:74-77 | A fulfilled create adds one item, which is the payload, at the end. The old items are an unchanged prefix. `loading` becomes false for recipes and is kept for the other slices; `error` is kept. |
| Store.UpdateReplacesFirstMatch | fhExpo/app/store.tsx:88-94 | A fulfilled update or increment keeps the length. It replaces exactly the first item whose `id ===` the payload's id, and changes nothing when no item matches. `loading` becomes false after a recipe update and is kept otherwise (increment, people, ingredients, links); `error` is kept. |
| Store.DeleteRemovesEveryMatch | fhExpo/app/store.tsx:101-103 | After a fulfilled delete, the items are exactly the old items whose id differs from the deleted one, each as often as it occurred before. They keep their order, and `loading` and `error` are untouched. |
| Store.DeleteTwiceIsOnce | fhExpo/app/store.tsx:101-103 | Applying the same fulfilled delete twice gives the same state as applying it once. |
| Store.StrictIdsDiffer | fhExpo/app/store.tsx:102 | Deleting the string id "5" keeps a record whose id is the number 5. |
| Store.DeleteByRecipeRemovesLinks | fhExpo/app/store.tsx:333-335 | Delete-by-recipe keeps exactly the links whose `recipe` is not strictly equal to the recipe id, each as often as it occurred, in their order. |
| Store.DeleteByRecipeMatchesServer | fhExpo/app/store.tsx:294-298 | Afterwards no local link belongs to the recipe. A local link is removed exactly when `getByRecipe` would return it. |
| Store.OtherSlicesUntouched | fhExpo/app/store.tsx:352-359 | A slice ignores the thunk actions and `clearError` of every other collection. |
| Store.ClearErrorOnlyError | fhExpo/app/store.tsx:50-52 | `clearError` sets `error` to null and changes nothing else. |
| Store.IncrementCount | fhExpo/app/store.tsx:37 | The value (or 0 when falsy) plus one, with JavaScript's `+`. A number or falsy value is incremented from `v` or 0; a non-empty string gets "1" appended. |
| Store.IncrementedCopy | fhExpo/app/store.tsx:34-39 | The submitted copy keeps the id and every field but `times_cooked`, which becomes the old count (0 when falsy) plus one. |
| Store.FormatIgnoresOtherFields | fhExpo/services/api.js:43-61 | Two recipes that differ only in `times_cooked` either both format or both fail, and then agree on every other wire field. |
| Store.IncrementSubmitsNextCount | fhExpo/app/store.tsx:34-39 | For a numeric or missing count, the increment's wire record has the same keys and the same fields as the fetched recipe's, except `times_cooked`, which is one more. |
| Store.DeletePlan | fhExpo/app/store.tsx:296 | The DELETE ids are the ids of the links, one per link, in order. |
| Store.DeletePlanHitsRecipeLinks | fhExpo/app/store.tsx:294-298 | The server-side deletes hit exactly the ids of the links whose `recipe ===` the recipe id. |
| Store.Slice.constructor | fhExpo/app/store.tsx:44-48 | A new slice is `{ items: [], loading: false, error: null }`. |
| Store.Slice.ReplaceById | fhExpo/app/store.tsx:88-94 | The `findIndex` assignment replaces the first matching item. `loading` and `error` are kept. |
| Store.Slice.Apply | fhExpo/app/store.tsx:54-112 | Running the reducer on the draft leaves the slice in the state `Reduce` gives for the old state and the action. |
| Store.Step | fhExpo/app/store.tsx:352-359 | Each slice of the combined state is that slice's reducer applied to the action. |
| Store.StepChangesOneSlice | fhExpo/app/store.tsx:352-359 | An action changes at most the slice of its own collection. |
| Store.AppStore.constructor | fhExpo/app/store.tsx:352-362 | The store starts with all five slices in the initial state, each slice object holding its own collection. |
| Store.AppStore.Dispatch | fhExpo/app/store.tsx:352-362 | Dispatch moves the store to `Step(old state, action)` and returns the action. |
| LegacyStore.RecipeList.constructor | fhExpo/app/store.jsx:7 | The initial state is the empty list. |
| LegacyStore.RecipeList.AddRecipe | fhExpo/app/store.jsx:9-12 | The payload is appended and the earlier items stay as they were. |
| LegacyStore.RecipeList.UpdateRecipe | fhExpo/app/store.jsx:13-16 | The state becomes the old list with the first `String`-equal recipe replaced. |
| LegacyStore.RecipeList.DeleteRecipe | fhExpo/app/store.jsx:17-20 | The state becomes the filtered list. |
| LegacyStore.UpdateReplacesFirstSpelling | fhExpo/app/store.jsx:13-16 | Update keeps the length and replaces exactly the first recipe whose `String(id)` equals `String(payload.id)`. It changes nothing when none matches. |
| LegacyStore.DeleteRemovesEverySpelling | fhExpo/app/store.jsx:17-20 | After delete, the recipes are exactly those whose `String(id)` differs from `String(id)` of the payload, each as often as it occurred, in their order. |
| LegacyStore.DeleteTwiceIsOnce | fhExpo/app/store.jsx:19 | Deleting an id twice is deleting it once. |
| LegacyStore.NumberAndStringIdsAgree | fhExpo/app/store.jsx:14-19 | Update and delete treat the number 5 and the string "5" as the same id. |
| JsValues.IdStringMatches | fhExpo/app/store.jsx:14 | `String(a) === String(b)` holds exactly when both ids are equal, or one is a number whose decimal spelling is the other. |
| ApiClient.ConvertDurationPassThrough | fhExpo/services/api.js:29-30 | Every falsy duration (`undefined`, `null`, `false`, 0, `NaN`, `''`) becomes null. A non-zero number is returned unchanged. |
| ApiClient.ConvertDurationOfThreeParts | fhExpo/services/api.js:32-37 | A string with exactly two colons converts to `h*3600 + m*60 + s`, where each part is read by `parseInt`, or 0 when unreadable. |
| ApiClient.ConvertDurationOfOtherParts | fhExpo/services/api.js:33-39 | A non-empty string with any other number of colons converts to null. |
| ApiClient.PartValueOfDecimal | fhExpo/services/api.js:34-36 | Reading a part with `parseInt`, 0 when unreadable, gives back the value of a decimal numeral, and the numeral holds no colon. |
| ApiClient.PartValueOfDigits | fhExpo/services/api.js:34-36 | A non-empty run of digits, zero-padded or not (such as "00" or "15"), reads as its decimal value. |
| ApiClient.ConvertDurationOfClock | fhExpo/services/api.js:27-37 | The `H:M:S` spelling of any three non-negative numbers converts back to `h*3600 + m*60 + s`. |
| JsText.SplitThree | fhExpo/services/api.js:32 | Splitting `a:b:c` on `:`, where no part holds a colon, gives exactly `[a, b, c]`. |
| JsText.ParseIntHexPrefix | fhExpo/services/api.js:34 | `parseInt` without a radix reads a `0x` prefix as hexadecimal: "0x1A" gives 26. |
| ApiClient.FormatRecipe | fhExpo/services/api.js:43-61 | The wire record has exactly the fifteen fields. `title` is passed through, a falsy optional field becomes null, the durations go through the converter, a falsy `times_cooked` becomes 0, and a truthy rating goes through `parseFloat`. It throws exactly when a duration converter throws. |
| ApiClient.HandleResponse | fhExpo/services/api.js:5-23 | An ok response yields its parsed body, or the JSON error when the body is not JSON. A failed response always throws: with a truthy `detail`, else a truthy `message`, else `HTTP error! status: <status>`, including for a body that is not JSON. |
| ApiClient.DeleteResult | fhExpo/services/api.js:99-107 | A DELETE returns true exactly when the response is ok. Otherwise it throws `Failed to delete <noun>: <statusText>`. |
| ApiClient.GetByRecipeExact | fhExpo/services/api.js:300-303 | `getByRecipe(r)` returns exactly the links whose `recipe === r`, each as often as the server lists it, in server order. |
| ApiConfig.ApiBaseUrl | fhExpo/config/api.js:16 | The base URL is the environment value when it is set and non-empty, otherwise the production URL. |
| ApiConfig.GetApiUrl | fhExpo/config/api.js:19-25 | The URL starts with the base and one slash, ends with a slash, and is at most two characters longer than base plus endpoint. |
| ApiConfig.CleanEndpoint | fhExpo/config/api.js:21 | The endpoint loses one leading slash exactly when it starts with one, and is otherwise kept. |
| ApiConfig.WithTrailingSlash | fhExpo/config/api.js:23 | The result ends in a slash. A slash is added exactly when the text does not already end in one. |
| ApiConfig.GetApiUrlParts | fhExpo/config/api.js:19-25 | The URL is the base, a slash, a core and a slash. The endpoint is that core with or without one leading and one trailing slash. |
| ApiConfig.LeadingSlashIgnored | fhExpo/config/api.js:21 | `"/x"` and `"x"` give the same URL. |
| ApiConfig.TrailingSlashNotDoubled | fhExpo/config/api.js:23 | `"x/"` and `"x"` give the same URL. |
| ApiConfig.RecipeFiveUrl | fhExpo/config/api.js:21-24 | `"recipes/5"` gives the base followed by `"/recipes/5/"`. |
| ApiConfig.OneLeadingSlashRemoved | fhExpo/config/api.js:21 | Only one leading slash is removed: `"//recipes"` gives the base followed by `"//recipes/"`. |
| Persistence.SlotKeysDistinct | fhExpo/utils/persistence.js:22-28 | The five slot keys are distinct, one per collection. |
| Persistence.ReadItem | fhExpo/utils/persistence.js:4-17 | Without `localStorage` a read gives null. Otherwise a read fails exactly for a faulty key. A read that does not fail gives null exactly when the key is not stored, and a value read is the stored one. |
| Persistence.Written | fhExpo/utils/persistence.js:4-17 | A write stores the text under the key, unless storage is missing or the write throws, in which case nothing changes. |
| Persistence.AllEmpty | fhExpo/utils/persistence.js:50-56 | The fallback result has every collection empty. |
| Persistence.ParseSlot | fhExpo/utils/persistence.js:42-46 | An absent or empty slot gives `[]`. Otherwise the slot gives the decoded value, or a failure when the decode throws. |
| Persistence.LoadIsAllOrNothing | fhExpo/utils/persistence.js:31-58 | Either every slot is what its own read and parse gave, or, when any of the five failed, every slot is `[]`. |
| Persistence.MissingSlotLoadsEmpty | fhExpo/utils/persistence.js:42-46 | A slot that is absent or empty loads as `[]`. |
| Persistence.AnyFailureLoadsAllEmpty | fhExpo/utils/persistence.js:48-57 | One failing read, or one text that does not decode, empties all five collections. |
| Persistence.NoLocalStorageLoadsAllEmpty | fhExpo/utils/persistence.js:12-17 | Without `localStorage` the load gives all `[]`. |
| Persistence.SaveAllWritesEverySlot | fhExpo/utils/persistence.js:72-79 | After the five writes: each slot whose write succeeded holds the encoding of its whole slice, each slot whose write failed keeps its old text, and no other key changes. |
| Persistence.SaveThenLoadRestores | fhExpo/utils/persistence.js:31-82 | With working storage and a codec that round-trips slices, loading after the writes restores every slice. |
| Persistence.Storage.constructor | fhExpo/utils/persistence.js:4-20 | The storage object is exactly the given browser state. |
| Persistence.Storage.GetItem | fhExpo/utils/persistence.js:7 | The read returns what `ReadItem` says. |
| Persistence.Storage.SetItem | fhExpo/utils/persistence.js:8 | The storage becomes `Written(old, key, text)`, and the call fails exactly when the write throws. |
| Persistence.SaveToStorage | fhExpo/utils/persistence.js:61-67 | The save performs the write and reports only whether it logged a failure. It never fails itself. |
| Persistence.LoadPersistedData | fhExpo/utils/persistence.js:31-58 | The five reads and parses give exactly the all-or-nothing result `LoadSpec`. |
| Persistence.PersistenceMiddleware | fhExpo/utils/persistence.js:70-82 | The middleware dispatches once and returns its result. The store moves by `Step`, and the storage becomes the five writes of the new state, whatever the action. |
| Validation.ValidateRequired | fhExpo/utils/validation.js:3-8 | The validator returns `<fieldName> is required` exactly when the value is empty or all white space, and null otherwise. |
| JsText.TrimEmptyIffBlank | fhExpo/utils/validation.js:4 | `trim()` is empty exactly when every character is white space. |
| Validation.ShapedMatchesPattern | fhExpo/utils/validation.js:12-13 | Whatever the left-to-right test accepts, the e-mail regular expression matches. |
| Validation.PatternIsShaped | fhExpo/utils/validation.js:12-13 | Whatever the regular expression matches, the left-to-right test accepts. |
| Validation.EmailShapeMatchesPattern | fhExpo/utils/validation.js:12-13 | The test and the regular expression accept the same strings. |
| Validation.ValidateEmail | fhExpo/utils/validation.js:10-17 | Empty is accepted. Otherwise the validator returns null exactly when the regular expression matches, and the message otherwise. |
| Validation.AcceptedEmailShape | fhExpo/utils/validation.js:12-15 | An accepted address has exactly one `@` and no white space, and after the `@` it has a dot with text on both sides. |
| Validation.ValidateUrl | fhExpo/utils/validation.js:19-27 | Empty is accepted. Otherwise the validator returns null exactly when the URL constructor accepts the string. |
| Validation.ValidateDate | fhExpo/utils/validation.js:29-41 | Empty is accepted. A string not shaped `DDDD-DD-DD` gets the format message. A well-shaped one gets null when the date parser accepts it, and the second message otherwise. |
| Validation.ValidateInteger | fhExpo/utils/validation.js:61-68 | Empty is accepted. Otherwise the validator returns null exactly when `parseInt(value, 10)` finds a leading non-negative integer. |
| Validation.DigitPrefixAccepted | fhExpo/utils/validation.js:63-64 | "12abc" is accepted. |
| Validation.NoDigitsRefused | fhExpo/utils/validation.js:63-64 | "abc" is refused. |
| Validation.NegativeRefused | fhExpo/utils/validation.js:63-64 | "-3" is refused. |
| Validation.DigitsAreIntegers | fhExpo/utils/validation.js:61-67 | Every non-empty digit string is accepted. |
| JsText.ParseIntOfDigits | fhExpo/utils/validation.js:63 | `parseInt` of a non-empty digit string is its decimal value. |
| JsText.ParseIntReadsPrefix | fhExpo/utils/validation.js:63 | `parseInt("12abc", 10)` is 12. |
| DateInput.HandleDateChange | fhExpo/components/DateInput.jsx:6-16 | The two conditional reassignments produce the digits laid out by `Layout`. |
| DateInput.FormattedShape | fhExpo/components/DateInput.jsx:8-13 | The output holds only digits and `-` and is at most 10 characters long. |
| DateInput.FormattedByDigitCount | fhExpo/components/DateInput.jsx:8-14 | Up to 4 digits are kept as they are. 5 or 6 become `DDDD-rest`. 7 become `DDDD-DD-D`, and 8 or more become `DDDD-DD-DD`, dropping the rest. |
| DateInput.DashesRemovedGiveDigits | fhExpo/components/DateInput.jsx:8-14 | Removing the dashes from the output gives the first `min(n, 8)` digits typed, in order. |
| DateInput.DigitsOfFormatted | fhExpo/components/DateInput.jsx:8-14 | The digits of the output are the first `min(n, 8)` digits typed. |
| DateInput.FormatIdempotent | fhExpo/components/DateInput.jsx:8-14 | Formatting a formatted value returns it unchanged. |
| JsText.KeepDigits | fhExpo/components/DateInput.jsx:8 | `replace(/[^0-9]/g, '')` returns only digits, is no longer than its input, and keeps an all-digit text as it is. |
| JsText.KeepDigitsKeepsEveryDigit | fhExpo/components/DateInput.jsx:8 | Every digit of the text is kept as often as it occurs, in order, and every other character is dropped. |
| RecipeIngredients.ShownLinks | fhExpo/components/RecipeIngredients.jsx:21-23 | With a truthy `recipeId`, the shown links are exactly the store's links whose `String(recipe)` equals `String(recipeId)`, each as often as the store holds it, in store order. Otherwise the temporary list is shown. |
| RecipeIngredients.FindIngredient | fhExpo/components/RecipeIngredients.jsx:99 | The lookup finds nothing exactly when no id is `String`-equal. Otherwise it finds the first ingredient that is. |
| RecipeIngredients.GetIngredientName | fhExpo/components/RecipeIngredients.jsx:98-101 | The result is the name of the first `String`-equal ingredient, else `'Unknown'`. |
| RecipeIngredients.GetIngredientUnit | fhExpo/components/RecipeIngredients.jsx:103-106 | The result is the unit of the first `String`-equal ingredient, else `''`. |
| RecipeIngredients.LookupAcrossSpellings | fhExpo/components/RecipeIngredients.jsx:99 | A link naming ingredient "5" finds the ingredient whose id is the number 5. |
| RecipeIngredients.SanitizeQuantity | fhExpo/components/RecipeIngredients.jsx:198 | The quantity input keeps every digit and `.` of the text as often as it occurs, and nothing else. It is never longer than the text typed. |
| RecipeIngredients.SanitizeQuantityKeepsOrder | fhExpo/components/RecipeIngredients.jsx:198 | The kept characters are in their order, text made only of them is kept whole, and sanitising twice is sanitising once. |
| RecipeIngredients.QuantityValue | fhExpo/components/RecipeIngredients.jsx:54 | An empty quantity becomes null. Any other is given to `parseFloat`. |
| RecipeIngredients.NewIngredient | fhExpo/components/RecipeIngredients.jsx:35-39 | The new ingredient has exactly `name` (the trimmed name), `unit` (null when empty) and null `notes`. |
| RecipeIngredients.NewLink | fhExpo/components/RecipeIngredients.jsx:51-55 | The link has exactly the recipe, the ingredient and the quantity value. |
| RecipeIngredients.AddWithNothingDoesNothing | fhExpo/components/RecipeIngredients.jsx:26-28 | With no selection and a blank name, the press changes nothing and sends nothing. |
| RecipeIngredients.AddCreatesIngredientWhenNoneSelected | fhExpo/components/RecipeIngredients.jsx:33-47 | A new ingredient is requested exactly when none is selected and the trimmed name is not blank, with the `NewIngredient` body. If that request fails, the state is unchanged and no link is sent. |
| RecipeIngredients.AddBuildsLink | fhExpo/components/RecipeIngredients.jsx:50-55 | The link names the recipe, the selected or newly created ingredient, and the quantity value. |
| RecipeIngredients.TempAddAppendsOne | fhExpo/components/RecipeIngredients.jsx:65-74 | Without a recipe, exactly one link with the generated id is appended to the temporary list and no link is sent. The listener gets the same new list. |
| RecipeIngredients.AddWithRecipeKeepsTemp | fhExpo/components/RecipeIngredients.jsx:57-64 | With a recipe, the temporary list is untouched and no listener is called. |
| RecipeIngredients.AddResetsOnlyWhenDone | fhExpo/components/RecipeIngredients.jsx:57-79 | A completed add clears the selection and the quantity and closes the dialog. A failed link request keeps them. |
| RecipeIngredients.TempDeleteRemovesMatches | fhExpo/components/RecipeIngredients.jsx:89-94 | The temporary delete keeps exactly the links whose id is not strictly equal to the given one, each as often as it occurred, in their order. |
| RecipeIngredients.IngredientEditor.constructor | fhExpo/components/RecipeIngredients.jsx:13-18 | The editor starts in the initial `useState` values. |
| RecipeIngredients.IngredientEditor.Select | fhExpo/components/RecipeIngredients.jsx:162-165 | Picking sets the selection and clears the typed name, and nothing else. |
| RecipeIngredients.IngredientEditor.TypeName | fhExpo/components/RecipeIngredients.jsx:181-184 | Typing sets the name and clears the selection, and nothing else. |
| RecipeIngredients.IngredientEditor.TypeUnit | fhExpo/components/RecipeIngredients.jsx:190 | The unit becomes the text typed, and nothing else changes. |
| RecipeIngredients.IngredientEditor.TypeQuantity | fhExpo/components/RecipeIngredients.jsx:198 | The quantity becomes the sanitised text, and nothing else changes. |
| RecipeIngredients.IngredientEditor.HandleAddIngredient | fhExpo/components/RecipeIngredients.jsx:25-80 | The handler's new state, requests and notification are exactly those of `AddIngredient` on the old state. |
| RecipeIngredients.IngredientEditor.HandleDeleteIngredient | fhExpo/components/RecipeIngredients.jsx:82-96 | With a recipe, the handler sends one delete request and changes no state. Without one, it filters the temporary list and notifies the listener. |
| RecipeIngredients.IngredientEditor.Cancel | fhExpo/components/RecipeIngredients.jsx:208-214 | Cancel clears the selection, quantity, name and unit and closes the dialog. The temporary list is kept. |
| AddPerson.BuildErrors | fhExpo/app/add_person.jsx:30-45 | There is a first-name error exactly when `validateRequired` returns one. A date error is recorded exactly when the date is non-empty and `validateDate` returns one, with that message. No other key appears. |
| AddPerson.IsFormValid | fhExpo/app/add_person.jsx:46-47 | The form is valid exactly when there is a first name and each date is empty or valid, which is exactly when no error was recorded. An error is recorded under a field exactly when that field's validator fails, and it is that validator's message. |
| AddPerson.TextOrNull | fhExpo/app/add_person.jsx:57-60 | An empty field becomes null. Any other field is kept. |
| AddPerson.NewPerson | fhExpo/app/add_person.jsx:55-61 | The payload has exactly the five fields: `first_name` as typed, the others as typed or null. |
| AddPerson.ClearFieldError | fhExpo/app/add_person.jsx:85 | The edited field's error is no longer shown. Every other entry is kept, and nothing changes when no error was shown. |
| AddPerson.AsShown | fhExpo/app/add_person.jsx:46 | `setErrors(newErrors)` shows exactly the recorded messages. |
| AddPerson.PersonForm.constructor | fhExpo/app/add_person.jsx:23-28 | Every field starts empty, with no errors. |
| AddPerson.PersonForm.ValidateForm | fhExpo/app/add_person.jsx:30-48 | The form returns true exactly when it is acceptable, which is exactly when no error is recorded. `errors` then shows the failing validator's message under exactly the fields whose validator failed. The fields are unchanged. |
| AddPerson.PersonForm.HandleAddPerson | fhExpo/app/add_person.jsx:50-61 | Nothing is sent when validation fails. Otherwise the `NewPerson` payload is sent. Either way, `errors` is what the validation recorded. |
| AddPerson.PersonForm.EditFirstName | fhExpo/app/add_person.jsx:83-86 | The first name is set, only its error is cleared, and the other fields are kept. |
| AddPerson.PersonForm.EditBirthDate | fhExpo/app/add_person.jsx:103-106 | The birth date is set, only its error is cleared, and the other fields are kept. |
| AddPerson.PersonForm.EditDeathDate | fhExpo/app/add_person.jsx:115-118 | The death date is set, only its error is cleared, and the other fields are kept. |
| AddPerson.PersonForm.EditLastName | fhExpo/app/add_person.jsx:95 | The last name is set, and the errors and other fields are kept. |
| AddPerson.PersonForm.EditNotes | fhExpo/app/add_person.jsx:127 | The notes are set, and the errors and other fields are kept. |
| AddRecipe.ButtonDisabled | fhExpo/app/add_recipe.jsx:125 | The button is disabled exactly when the submit guard would reject the form. |
| AddRecipe.ApplyEdit | fhExpo/app/add_recipe.jsx:77-102 | Typing in the servings, prep-time or cook-time input stores only the digits typed. |
| AddRecipe.EditsKeepCountsDigits | fhExpo/app/add_recipe.jsx:77-102 | Whatever sequence of edits is made, the three count inputs hold only digits. |
| AddRecipe.ParseIntValue | fhExpo/app/add_recipe.jsx:40-42 | `parseInt(s)` is a number, or `NaN` exactly when no integer can be read. |
| AddRecipe.RecipeFields | fhExpo/app/add_recipe.jsx:36-45 | The record has exactly the seven keys with the given values and a null `personId`. |
| AddRecipe.HandleAddRecipe | fhExpo/app/add_recipe.jsx:30-49 | A record is built exactly when every required input is filled in. It has the clock id, the title and description as typed, the counts read by `parseInt`, the meal type copied and a null person. |
| AddRecipe.DigitInputValue | fhExpo/app/add_recipe.jsx:40-42 | A non-empty digit-only input is read as its decimal value. |
| AddRecipe.SubmittedCountsAreDecimal | fhExpo/app/add_recipe.jsx:36-45 | For a form filled in through its inputs, the record's counts are the decimal values of the digits typed: never `NaN`, never negative. |
| AddRecipe.TypedCountRoundTrip | fhExpo/app/add_recipe.jsx:77-84 | Typing the decimal spelling of n into servings submits the number n. |
| Seqs.ReplaceFirstSpec | fhExpo/app/store.tsx:90-93 | `findIndex` followed by an assignment replaces exactly the first match, and is a no-op without one. |
| Seqs.FilterCounts | fhExpo/app/store.tsx:102 | `filter` keeps each passing element as often as it occurs and drops every other one. |
| Seqs.FilterIsSubsequence | fhExpo/app/store.tsx:102 | `filter` keeps a subsequence: the survivors keep their order. |

## Left out

- HTTP is not modelled. `fetch`, headers, request bodies on the wire and the async/await thunk
  machinery are left out. A thunk appears only as the payload or message its phase carries.
- Thunk payloads are not tied to a server. A fulfilled action carries whatever the server returned.
  The people, country, ingredient and link request bodies of `services/api.js` are plain
  `||`-defaulting copies and are not modelled.
- `fetchOne` (`getById`) has no reducer case in any slice. Its fulfilled action leaves every slice
  unchanged.
- Countries have no update or delete call and no such reducer case. The model has none either.
- The `Promise.all` fan-out in `deleteRecipeIngredientsByRecipe` is not modelled for ordering or
  concurrency. Only the set of ids deleted is stated (`Store.DeletePlanHitsRecipeLinks`).
- The `saveToStorage` calls are modelled as sequential writes. They are not awaited, so
  interleavings with other writes are not modelled.
- The store bootstrap in `app/_layout.tsx` is not modelled. It is concurrent and UI code, and it
  does not put the loaded data into the store.
- Floating point is not modelled. `parseFloat` (rating and quantity) is a function parameter, and
  `validateRating` and `validatePositiveNumber` (`utils/validation.js:43-59`) are not modelled.
- Numbers are unbounded integers plus `NaN`. Fractions, infinities and the 2^53 limit of
  JavaScript numbers are not modelled.
- `NaN` is never compared with `===` in the model. It behaves only as a falsy value and prints as
  "NaN".
- `new Date`, `new URL`, `JSON.stringify` / `JSON.parse` and `localStorage` are parameters:
  - predicates for the two constructors;
  - an encoder and a decoder for JSON;
  - a storage class with fault sets for `localStorage`.
- `Date.now()` and `Math.random()` are parameters. So are the result of `createIngredient` and the
  success of `createRecipeIngredient` in `handleAddIngredient`.
- In `handleResponse`, `detail` and `message` are primitive values and are shown through
  `String(...)`. Object-valued messages are not modelled.
- The `response.text()` fallback of `handleResponse` is not a separate path. It can never change
  the message, because the body has already been consumed by `json()`.
- A rejected thunk's message is a plain string. The serialisation of errors by the Redux toolkit
  is not modelled.
- The effect on the store of the `createIngredient`, `createRecipeIngredient` and
  `deleteRecipeIngredient` dispatches made by the ingredient editor is stated by
  `Store.Reduce`, not inside the editor.
- ApiClient.ConvertDurationOfThreeParts: the concrete case "0:15:00" giving 900 seconds is not a
  lemma of its own. It follows from this lemma together with
  `ApiClient.PartValueOfDigits` ("0", "15" and "00" read as 0, 15 and 0).
- JsText.ParseIntOfNegative: the round trip of `parseInt` on a negative decimal numeral is stated
  only for a minus sign followed by digits, not for `IntToDecimal` of a negative number.
- Form values are the strings their inputs hold. Inputs never hold `undefined`.
- The UI is not modelled: rendering, styles, the router and navigation (`router.push`,
  `router.back`), the modal's visibility beyond the `modalVisible` flag, `console.error` logging,
  `app/index.jsx`, `app/people.jsx`, the record detail and edit screens, `components/RecipeList.jsx`,
  `app/add_country.jsx`, `constants/data.jsx` and the whole Django backend.
- The add-recipe form is modelled as a value updated by a sequence of edits, because its handlers
  only set one field each. Its dispatch of `addRecipe` is `LegacyStore.RecipeList.AddRecipe`.
- Module resolution is not modelled. `app/add_recipe.jsx` and `app/add_person.jsx` both import
  from `'./store'`, which resolves to one file only. The model takes each form against the file
  that exports what it imports: `addRecipe` from `app/store.jsx`, `createPerson` from
  `app/store.tsx`. Under the actual resolution, one of the two imports is `undefined`.
