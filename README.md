# Address form: a Dafny model

This project models the logic under a React address form (first name, last name,
pincode, state, city). The form auto-fills in both directions from a small fixed dataset
of Indian states, cities and pincodes. The model covers four pieces:

- **Reference dataset** (`location_data.dfy`, module `LocationData`). The six states,
  eleven cities and eleven pincode entries are constant sequences. Lemmas prove their
  well-formedness: every reference resolves, ids are unique, the three-character
  pincode prefixes are distinct, and every pincode is six ASCII digits.
- **Lookup index** (`indexing.dfy`, module `Indexing`; `address_data.dfy`, module
  `AddressData`). The hook builds four tables once:
  - two `Map`s by id;
  - a grouping of cities by state, built with `reduce`;
  - a `Map` keyed by the first three characters of each pincode.

  `Indexing` gives each construction three forms: a fold function, a loop method proved
  equal to it, and a lemma giving its meaning. A `Map` built in order answers a key with
  the *last* element that has it. The grouping holds the elements with each key, *in
  list order*. The getters are proved against those meanings. With the shipped data,
  each id and each pincode finds its own record.
- **Validation rules** (`validations.dfy`, module `Validations`). `validateName`,
  `validatePincode` and `validateRequired` have exact input/output contracts, including
  which check wins when several fail.
- **Form state machine** (`address_form.dfy`, module `Address`).
  - Class `AddressForm` holds `formData`, `errors` and `touched`, with one method per
    handler. Each method applies its updates in the same order as the source.
  - Each method is proved to leave the form that a pure function `After…` describes.
  - The contracts of those functions, and the lemmas beside them, state the cascade and
    auto-fill rules. They also state the cross-field invariant: a known city always lies
    in the selected state.
  - `handleStateChange` returns a boolean `focusRequested` in place of its `setTimeout`
    focus call.

Modelling conventions:

- JavaScript `null` and a missing `errors` entry are both `None`. The form never treats
  them differently.
- A missing `touched` entry is `false`.
- The ids of the selected state and city are strings, with `""` meaning "none selected".
- `trim()` and the regex class `\s` share one predicate, `IsWhitespace`. It lists the
  ECMAScript WhiteSpace and LineTerminator characters.
- The regex classes `\d` and `[a-zA-Z]` are ASCII only, as in JavaScript.

Behaviour of the source that the model keeps:

- The `Map` of useAddressData.ts:27 answers a prefix with the *last* entry registered
  for it. With the shipped data no two entries share a prefix
  (`LocationData.PincodePrefixesUnique`).
- The lookup runs for any six-character input, even a malformed one like "400abc"
  (Address.tsx:70-71, `Address.PincodeSuffixIgnored`).
- The cross-field invariant allows an *unknown* city id next to any state.
  `handleCityChange` stores any id it receives, but fills in the state only for a city it
  can look up (Address.tsx:111-115). An unknown id therefore stays next to whatever state
  is selected until a state change resets it (Address.tsx:99-101), or a pincode hit or
  another city change replaces it (Address.tsx:73-78, 111).
- `validateName` checks the length of the untrimmed string (validations.ts:5), so " a"
  passes.

## Model

| member | source | states |
|---|---|---|
| `LocationData.States` | src/utils/data.ts:12-19 | the six states of the dataset, in order |
| `LocationData.Cities` | src/utils/data.ts:20-32 | the eleven cities of the dataset, in order |
| `LocationData.Pincodes` | src/utils/data.ts:33-45 | the eleven pincode entries of the dataset, in order |
| `LocationData.IsSixDigits` | src/utils/validations.ts:12 | `/^\d{6}$/`: exactly six characters, each an ASCII digit |
| `LocationData.CityStatesExist` | src/utils/data.ts:13-31 | every city's `stateId` is the id of one of the states |
| `LocationData.PincodeEntryConsistent` | src/utils/data.ts:21-44 | every pincode entry's `cityId` names a city, and that city's `stateId` equals the entry's `stateId` |
| `LocationData.CityPincodeListed` | src/utils/data.ts:21-44 | every city's representative pincode is the pincode of an entry whose `cityId` is that city |
| `LocationData.PincodesAreSixDigits` | src/utils/data.ts:21-44 | every pincode in the dataset, on entries and on cities, is exactly six ASCII digits |
| `LocationData.StateIdsUnique` | src/utils/data.ts:13-18 | state ids are non-empty and pairwise distinct |
| `LocationData.CityIdsUnique` | src/utils/data.ts:21-31 | city ids are non-empty and pairwise distinct |
| `LocationData.PincodePrefixesUnique` | src/utils/data.ts:34-44 | the first three characters of the eleven entry pincodes are pairwise distinct |
| `Indexing.LastIndexWithKey` | src/hooks/useAddressData.ts:18-19 | the index found has the key, and no later element has it; -1 means no element has it |
| `Indexing.WithKey` | src/hooks/useAddressData.ts:21-25 | the selection contains exactly the elements whose key is `k`; it is defined in list order |
| `Indexing.IndexBy` | src/hooks/useAddressData.ts:18-19 | `new Map(list.map(x => [key(x), x]))`: insertion in list order, a later element overwriting an earlier one with the same key |
| `Indexing.GroupBy` | src/hooks/useAddressData.ts:21-25 | the `reduce` grouping: each element appended to the group of its key, in list order |
| `Indexing.Get` | src/hooks/useAddressData.ts:46 | `Map.get`: the value stored under the key, or `undefined` (`None`) for a key never set |
| `Indexing.IndexByIsLastWithKey` | src/hooks/useAddressData.ts:18-19 | a `Map` built by in-order insertion answers each key with the last element having it, and lacks keys no element has |
| `Indexing.GroupByIsWithKey` | src/hooks/useAddressData.ts:21-25 | the `reduce` grouping has a key exactly when some element carries it, and then holds exactly those elements in list order |
| `Indexing.BuildIndex` | src/hooks/useAddressData.ts:27 | the insertion loop of the `Map` constructor builds the in-order index |
| `Indexing.BuildGroups` | src/hooks/useAddressData.ts:21-25 | the `reduce` loop, which creates a group on first sight and then pushes, builds the grouping |
| `AddressData.Prefix` | src/hooks/useAddressData.ts:27 | `slice(0,3)` is a prefix of the string, of length 3, or of the whole length when the string is shorter |
| `AddressData.Maps` | src/hooks/useAddressData.ts:17-35 | the memoised tables: states and cities indexed by id, cities grouped by `stateId`, and pincode entries indexed by prefix |
| `AddressData.UseAddressData` | src/hooks/useAddressData.ts:15-60 | the hook returns the dataset's state list unchanged and the four tables built from the dataset |
| `AddressData.GetLocationByPincode` | src/hooks/useAddressData.ts:37-39 | the result is the last entry whose prefix equals the input's prefix; `None` exactly when no entry has that prefix |
| `AddressData.GetCitiesByState` | src/hooks/useAddressData.ts:41-43 | the result is exactly the cities with that `stateId`, in dataset order; `[]` when there are none |
| `AddressData.GetStateById` | src/hooks/useAddressData.ts:45-47 | the result is the last state with that id; `None` exactly when no state has it |
| `AddressData.GetCityById` | src/hooks/useAddressData.ts:49-51 | the result is the last city with that id; `None` exactly when no city has it |
| `AddressData.StateLookupAt` | src/hooks/useAddressData.ts:45-47 | with unique ids, each state's own id finds that state |
| `AddressData.CityLookupAt` | src/hooks/useAddressData.ts:49-51 | with unique ids, each city's own id finds that city |
| `AddressData.LocationByPrefixOnly` | src/hooks/useAddressData.ts:37-39 | two inputs with the same three-character prefix give the same result |
| `AddressData.LocationLookupAt` | src/hooks/useAddressData.ts:27 | each entry's own pincode finds that entry, because no later entry shares its prefix |
| `AddressData.LocationLookupConsistent` | src/hooks/useAddressData.ts:37-39 | a found entry is a dataset entry whose city exists and belongs to the entry's state |
| `AddressData.CityInItsState` | src/hooks/useAddressData.ts:21-25 | every city is a member of `getCitiesByState(city.stateId)` |
| `AddressData.UnknownStateHasNoCities` | src/hooks/useAddressData.ts:41-43 | a state id that names no state gets the empty list |
| `Validations.IsWhitespace` | src/utils/validations.ts:4 | the characters `trim()` removes and `\s` matches: the ECMAScript WhiteSpace and LineTerminator characters |
| `Validations.MatchesNamePattern` | src/utils/validations.ts:6 | `/^[a-zA-Z\s]+$/`: non-empty, every character an ASCII letter or whitespace |
| `Validations.TrimStart` | src/utils/validations.ts:4 | removing leading whitespace keeps a string blank or non-blank, and leaves no leading whitespace |
| `Validations.TrimEnd` | src/utils/validations.ts:4 | removing trailing whitespace yields "" exactly when the string is all whitespace |
| `Validations.Trim` | src/utils/validations.ts:11 | `trim()` yields "" exactly when every character is whitespace |
| `Validations.ValidateName` | src/utils/validations.ts:3-8 | 'This field is required' exactly for blank input; otherwise, below 2 untrimmed characters, 'Must be at least 2 characters'; otherwise 'Only letters and spaces allowed' unless every character is a letter or whitespace; `None` exactly when all three checks pass |
| `Validations.ValidatePincode` | src/utils/validations.ts:10-14 | 'Pincode is required' exactly for blank input; otherwise `None` exactly for six ASCII digits, else 'Must be 6 digits' |
| `Validations.ValidateRequired` | src/utils/validations.ts:16-18 | `None` exactly for a non-empty value (whitespace counts); otherwise the label followed by " is required" |
| `Validations.ValidNameShape` | src/utils/validations.ts:4-7 | an accepted name has at least 2 characters, all letters or whitespace, and not all of them whitespace |
| `Validations.ValidateNameExamples` | src/utils/validations.ts:4-7 | "" and "   " are required errors, "A" is too short, "A1" has a bad character, " a" and "Anna Lee" pass |
| `Validations.ValidatePincodeExamples` | src/utils/validations.ts:11-13 | "" is a required error, "12345", "12345a" and "400abc" are format errors, "400001" passes |
| `Validations.DatasetPincodesValid` | src/utils/validations.ts:12 | every pincode of the dataset passes `validatePincode` |
| `Address.Fields.Get` | src/components/Address.tsx:142-151 | `record[field]`: the value of the named field |
| `Address.Fields.Set` | src/components/Address.tsx:58 | a spread update changes the named field to the new value and leaves the other four as they were |
| `Address.Truthy` | src/components/Address.tsx:61 | JavaScript truthiness of an error entry: present and not the empty string |
| `Address.Consistent` | src/components/Address.tsx:110-132 | the cross-field invariant: the city is empty, or unknown, or a city whose `stateId` is the selected state |
| `Address.Cleared` | src/components/Address.tsx:61-63 | the cleared entry is falsy, and an already falsy entry is kept as it is |
| `Address.InitialForm` | src/components/Address.tsx:35-44 | the initial form has all fields empty, no errors and nothing touched, and it satisfies the cross-field invariant |
| `Address.FilteredCities` | src/components/Address.tsx:52-54 | the list is empty while no state is selected; otherwise a dataset city is in it exactly when it lies in the selected state |
| `Address.FieldError` | src/components/Address.tsx:138-153 | the validator picked for a field returns `None` exactly when the field's value is valid for it; any message it returns is non-empty |
| `Address.ShowError` | src/components/Address.tsx:211 | `errors[f] && touched[f]`: a field shows its message when the error is truthy and the field is touched |
| `Address.CityMismatch` | src/components/Address.tsx:98-100 | the reset test: a city is selected, and it is unknown or lies in another state |
| `Address.AfterUpdateField` | src/components/Address.tsx:57-64 | `updateField(f, v)` sets only `formData[f]`; it clears `errors[f]` if that was truthy and keeps it otherwise; it leaves the other errors and all touched flags alone, hides the error of `f`, and keeps the invariant when `f` is neither state nor city |
| `Address.AfterPincodeChange` | src/components/Address.tsx:67-91 | the pincode becomes the typed value. Not six characters: state, city and their errors stay, and only the optimistic clearing applies. Six characters and a miss: 'Invalid pincode' is set and state and city stay. Six characters and a hit: state and city become the entry's ids and the three errors become `None`. The invariant is kept |
| `Address.AfterStateChange` | src/components/Address.tsx:94-107 | the state becomes `stateId`. A non-empty city that is unknown or lies in another state is reset to ""; otherwise the city and its error stay. Names, pincode and touched are unchanged. The invariant holds afterwards |
| `Address.AfterCityChange` | src/components/Address.tsx:110-132 | the city becomes `cityId`. A known city sets state to its `stateId` and pincode to its pincode, clears the three errors, and appears in `filteredCities` afterwards. An empty or unknown id changes nothing else but the city's own error, which is cleared if truthy. The invariant holds afterwards |
| `Address.AfterBlur` | src/components/Address.tsx:135-156 | `touched[f]` becomes true and `errors[f]` becomes the field's validator result; all else is unchanged; the error is shown exactly when the value fails its validator |
| `Address.AfterSubmit` | src/components/Address.tsx:159-176 | all five fields become touched, and every error is a fresh validator result whatever was recorded before (an 'Invalid pincode' included); an error is shown exactly when its field fails |
| `Address.SubmitOutcome` | src/components/Address.tsx:178-191 | the form is saved exactly when all five validators pass; a saved record carries the form data and the names of the state and city when their ids are known |
| `Address.SelectedCityOffered` | src/components/Address.tsx:52-54 | under the invariant, a selected known city is among the cities `filteredCities` offers |
| `Address.CityChangeIdempotent` | src/components/Address.tsx:110-132 | selecting the same city twice leaves the same form as selecting it once |
| `Address.PincodeAutoFill` | src/components/Address.tsx:70-86 | typing any pincode of the dataset fills in that entry's state and city and clears the pincode, state and city errors |
| `Address.PincodeSuffixIgnored` | src/components/Address.tsx:70-78 | "400abc" fills in Maharashtra and Mumbai although `validatePincode` rejects it |
| `Address.StateChangeKeepsMatchingCity` | src/components/Address.tsx:98-106 | changing the state to the selected city's own state keeps the city and requests no focus |
| `Address.SubmitEmptyForm` | src/components/Address.tsx:159-179 | submitting the initial form gives the five required messages and is rejected |
| `Address.SubmitValidRecord` | src/components/Address.tsx:178-190 | submitting Anna Lee, 400001, MH, mumbai is saved with the names Maharashtra and Mumbai |
| `Address.AddressForm.constructor` | src/components/Address.tsx:35-44 | the component mounts with the initial form, which is consistent |
| `Address.AddressForm.UpdateField` | src/components/Address.tsx:57-64 | the in-place updates leave the form `AfterUpdateField` describes |
| `Address.AddressForm.HandlePincodeChange` | src/components/Address.tsx:67-91 | the in-place updates leave the form `AfterPincodeChange` describes, and keep the invariant |
| `Address.AddressForm.HandleStateChange` | src/components/Address.tsx:94-107 | the in-place updates leave the form `AfterStateChange` describes; focus is requested exactly when the city was reset; the invariant holds afterwards |
| `Address.AddressForm.HandleCityChange` | src/components/Address.tsx:110-132 | the in-place updates leave the form `AfterCityChange` describes; the invariant holds afterwards |
| `Address.AddressForm.HandleBlur` | src/components/Address.tsx:135-156 | the in-place updates leave the form `AfterBlur` describes, and keep the invariant |
| `Address.AddressForm.HandleSubmit` | src/components/Address.tsx:159-192 | the in-place updates leave the form `AfterSubmit` describes, and the reported outcome is `SubmitOutcome` of the submitted data |

## Left out

- Rendering is left out: JSX, CSS, labels, the `<option>` lists, the disabled city
  select and the debug JSON dump (src/components/Address.tsx:194-308). They are
  presentation only. The one display rule kept is `errors[f] && touched[f]`, as
  `Address.ShowError`.
- The `setTimeout(() => cityRef.current?.focus(), 0)` call and `useRef` are DOM
  scheduling. They are reduced to the `focusRequested` result of `HandleStateChange`.
- `console.log` and `alert` on submit are I/O. `HandleSubmit` returns the outcome
  instead: the record and the resolved names, or `Rejected`.
- React `useMemo`/`useCallback` caching and setState batching are not modelled. The
  tables are one constant value, `AddressData.Maps()`, and `UseAddressData` shows they
  are built by the same loops. Each handler's functional updates are applied in call
  order. Its closure reads (`errors[field]` in `updateField`, `formData.city` in
  `handleStateChange`, `formData[field]` in `handleBlur`) see the state before the
  handler. They read fields the handler has not yet changed, so the values agree.
- `citiesByState` is a plain object, so the source has prototype quirks: a `stateId`
  such as "toString" would find an inherited property. The model uses a quirk-free
  `map`.
- JavaScript `length` and `slice` count UTF-16 code units, while Dafny strings count
  Unicode scalar values. The two agree for every character outside the astral planes.
  For input containing astral characters (emoji, say), the model's six-character test
  and three-character prefix differ from the browser's.
- The `maxLength={6}` input attribute is a view constraint. The handlers are modelled
  for strings of any length.
- Full Unicode case and category semantics are outside the model. `IsWhitespace` is a
  fixed list of the ECMAScript whitespace and line-terminator characters.
- `Validations.Trim`: the contract states only that the result is empty exactly when the
  input is all whitespace, not which characters remain. The source only ever tests the
  trimmed string for emptiness.
- `Validations.TrimStart`: the contract states only blankness and the absence of a
  leading whitespace character, not that the result is a suffix of the input.
- `Validations.TrimEnd`: the contract states only that the result is empty exactly when
  the input is all whitespace.
