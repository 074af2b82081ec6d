/** The address form of src/components/Address.tsx: the form state (values, error
    messages, touched flags), the event handlers that update it, and the values the
    view derives from it.

    React applies a handler's functional state updates in call order, and whatever a
    handler reads from the render closure equals the state before the handler ran; so
    each handler is a sequence of in-place updates on an `AddressForm` object. Each
    handler method is tied to a function `After...` that gives the form it leaves
    behind; the contracts of those functions and the lemmas below state what the
    handlers promise. */
module Address {
  import opened Wrappers
  import Data = LocationData
  import Lookup = AddressData
  import opened Validations

  datatype Field = FirstName | LastName | Pincode | State | City

  /** One value per form field: the shape shared by `FormData`, `Errors` and `Touched`. */
  datatype Fields<T> = Fields(firstName: T, lastName: T, pincode: T, state: T, city: T) {

    /** `record[field]`. */
    function Get(f: Field): T {
      match f
      case FirstName => firstName
      case LastName => lastName
      case Pincode => pincode
      case State => state
      case City => city
    }

    /** `{ ...record, [field]: v }`. */
    function Set(f: Field, v: T): (r: Fields<T>)
      ensures r.Get(f) == v
      ensures forall g :: g != f ==> r.Get(g) == Get(g)
    {
      match f
      case FirstName => this.(firstName := v)
      case LastName => this.(lastName := v)
      case Pincode => this.(pincode := v)
      case State => this.(state := v)
      case City => this.(city := v)
    }
  }

  /** Field values; `state` and `city` hold ids, or "" for no selection. */
  type FormData = Fields<string>
  /** Error messages; `None` stands for both `null` and a missing entry. */
  type Errors = Fields<Option<string>>
  /** Whether each field has been blurred; a missing entry is `false`. */
  type Touched = Fields<bool>

  datatype Form = Form(formData: FormData, errors: Errors, touched: Touched)

  /** What a submission reports: nothing when a field fails, otherwise the record logged
      together with the resolved display names (`undefined` for an unknown id). */
  datatype Submission = Rejected | Saved(record: FormData, stateName: Option<string>, cityName: Option<string>)

  const InvalidPincodeMessage := "Invalid pincode"

  /** JavaScript truthiness of an error entry. */
  predicate Truthy(e: Option<string>) {
    e.Some? && e.value != ""
  }

  /** `updateField`'s optimistic clearing: a truthy error becomes `null`. */
  function Cleared(e: Option<string>): (r: Option<string>)
    ensures !Truthy(r)
    ensures !Truthy(e) ==> r == e
  {
    if Truthy(e) then None else e
  }

  /** The cross-field invariant: a known city lies in the selected state. */
  predicate Consistent(d: FormData) {
    d.city == "" || Lookup.GetCityById(d.city).None? || Lookup.GetCityById(d.city).value.stateId == d.state
  }

  /** The form at mount: every field empty, no errors, nothing touched. */
  function InitialForm(): (r: Form)
    ensures forall f :: r.formData.Get(f) == "" && r.errors.Get(f) == None && !r.touched.Get(f)
    ensures Consistent(r.formData)
  {
    Form(Fields("", "", "", "", ""), Fields(None, None, None, None, None), Fields(false, false, false, false, false))
  }

  /** `filteredCities`: the cities of the selected state, none while no state is selected. */
  function FilteredCities(d: FormData): (r: seq<Data.City>)
    ensures d.state == "" ==> r == []
    ensures forall i :: 0 <= i < |Data.Cities| ==>
      (Data.Cities[i] in r <==> d.state != "" && Data.Cities[i].stateId == d.state)
    ensures forall i :: 0 <= i < |r| ==> r[i] in Data.Cities && r[i].stateId == d.state
  {
    if d.state != "" then Lookup.GetCitiesByState(d.state) else []
  }

  /** `errors[f] && touched[f]`: the view shows the message of `f`. */
  predicate ShowError(s: Form, f: Field) {
    Truthy(s.errors.Get(f)) && s.touched.Get(f)
  }

  /** What the validator of a field accepts, stated without the validators. */
  predicate FieldValid(d: FormData, f: Field) {
    match f
    case FirstName => !IsBlank(d.firstName) && |d.firstName| >= 2 && MatchesNamePattern(d.firstName)
    case LastName => !IsBlank(d.lastName) && |d.lastName| >= 2 && MatchesNamePattern(d.lastName)
    case Pincode => Data.IsSixDigits(d.pincode)
    case State => d.state != ""
    case City => d.city != ""
  }

  /** The validator `handleBlur` runs for a field; 'State' and 'City' label the two selects. */
  function FieldError(d: FormData, f: Field): (r: Option<string>)
    ensures r == None <==> FieldValid(d, f)
    ensures r.Some? ==> r.value != ""
  {
    match f
    case FirstName => ValidateName(d.firstName)
    case LastName => ValidateName(d.lastName)
    case Pincode => ValidatePincode(d.pincode)
    case State => ValidateRequired(d.state, "State")
    case City => ValidateRequired(d.city, "City")
  }

  /** The form after `updateField(f, v)`. */
  function AfterUpdateField(s: Form, f: Field, v: string): (r: Form)
    ensures r.formData.Get(f) == v
    ensures forall g :: g != f ==> r.formData.Get(g) == s.formData.Get(g)
    ensures r.errors.Get(f) == Cleared(s.errors.Get(f))
    ensures forall g :: g != f ==> r.errors.Get(g) == s.errors.Get(g)
    ensures r.touched == s.touched
    ensures !ShowError(r, f)
    ensures f != State && f != City && Consistent(s.formData) ==> Consistent(r.formData)
  {
    var errors := if Truthy(s.errors.Get(f)) then s.errors.Set(f, None) else s.errors;
    s.(formData := s.formData.Set(f, v), errors := errors)
  }

  /** The form after `handlePincodeChange(p)`: the typed value is kept; at six characters
      a prefix hit fills state and city and clears their errors, a miss sets
      'Invalid pincode'. */
  function AfterPincodeChange(s: Form, p: string): (r: Form)
    ensures r.formData.pincode == p
    ensures r.formData.firstName == s.formData.firstName && r.formData.lastName == s.formData.lastName
    ensures r.errors.firstName == s.errors.firstName && r.errors.lastName == s.errors.lastName
    ensures r.touched == s.touched
    ensures |p| != 6 ==>
      r.formData.state == s.formData.state && r.formData.city == s.formData.city
      && r.errors.pincode == Cleared(s.errors.pincode)
      && r.errors.state == s.errors.state && r.errors.city == s.errors.city
    ensures |p| == 6 && Lookup.GetLocationByPincode(p).None? ==>
      r.formData.state == s.formData.state && r.formData.city == s.formData.city
      && r.errors.pincode == Some(InvalidPincodeMessage)
      && r.errors.state == s.errors.state && r.errors.city == s.errors.city
    ensures |p| == 6 && Lookup.GetLocationByPincode(p).Some? ==>
      r.formData.state == Lookup.GetLocationByPincode(p).value.stateId
      && r.formData.city == Lookup.GetLocationByPincode(p).value.cityId
      && r.errors.pincode == None && r.errors.state == None && r.errors.city == None
    ensures Consistent(s.formData) ==> Consistent(r.formData)
  {
    var s1 := AfterUpdateField(s, Pincode, p);
    if |p| != 6 then s1
    else
      match Lookup.GetLocationByPincode(p)
      case Some(location) =>
        Lookup.LocationLookupConsistent(p);
        s1.(formData := s1.formData.(pincode := p, state := location.stateId, city := location.cityId),
            errors := s1.errors.(pincode := None, state := None, city := None))
      case None =>
        s1.(errors := s1.errors.(pincode := Some(InvalidPincodeMessage)))
  }

  /** The check in `handleStateChange`: a city is selected and it is unknown or lies in
      another state than `stateId`. */
  predicate CityMismatch(d: FormData, stateId: string) {
    d.city != "" && (Lookup.GetCityById(d.city).None? || Lookup.GetCityById(d.city).value.stateId != stateId)
  }

  /** The form after `handleStateChange(stateId)`: a mismatching city is reset to "". */
  function AfterStateChange(s: Form, stateId: string): (r: Form)
    ensures r.formData.state == stateId
    ensures r.formData.firstName == s.formData.firstName && r.formData.lastName == s.formData.lastName
    ensures r.formData.pincode == s.formData.pincode
    ensures r.errors.state == Cleared(s.errors.state)
    ensures r.errors.firstName == s.errors.firstName && r.errors.lastName == s.errors.lastName
    ensures r.errors.pincode == s.errors.pincode
    ensures r.touched == s.touched
    ensures CityMismatch(s.formData, stateId) ==> r.formData.city == "" && r.errors.city == Cleared(s.errors.city)
    ensures !CityMismatch(s.formData, stateId) ==> r.formData.city == s.formData.city && r.errors.city == s.errors.city
    ensures Consistent(r.formData)
  {
    var s1 := AfterUpdateField(s, State, stateId);
    if CityMismatch(s1.formData, stateId) then AfterUpdateField(s1, City, "") else s1
  }

  /** The form after `handleCityChange(cityId)`: a known city sets the state to its state
      and the pincode to its representative pincode, and clears the three errors. */
  function AfterCityChange(s: Form, cityId: string): (r: Form)
    ensures r.formData.city == cityId
    ensures r.formData.firstName == s.formData.firstName && r.formData.lastName == s.formData.lastName
    ensures r.errors.firstName == s.errors.firstName && r.errors.lastName == s.errors.lastName
    ensures r.touched == s.touched
    ensures cityId != "" && Lookup.GetCityById(cityId).Some? ==>
      r.formData.state == Lookup.GetCityById(cityId).value.stateId
      && r.formData.pincode == Lookup.GetCityById(cityId).value.pincode
      && r.errors.city == None && r.errors.state == None && r.errors.pincode == None
      && Lookup.GetCityById(cityId).value in FilteredCities(r.formData)
    ensures cityId == "" || Lookup.GetCityById(cityId).None? ==>
      r.formData.state == s.formData.state && r.formData.pincode == s.formData.pincode
      && r.errors.city == Cleared(s.errors.city)
      && r.errors.state == s.errors.state && r.errors.pincode == s.errors.pincode
    ensures Consistent(r.formData)
  {
    var s1 := AfterUpdateField(s, City, cityId);
    if cityId == "" then s1
    else
      match Lookup.GetCityById(cityId)
      case Some(city) =>
        CityStateSelectable(city);
        s1.(formData := s1.formData.(city := cityId, state := city.stateId, pincode := city.pincode),
            errors := s1.errors.(city := None, state := None, pincode := None))
      case None => s1
  }

  /** A dataset city lies in a state with a non-empty id and is offered for that state. */
  lemma CityStateSelectable(city: Data.City)
    requires city in Data.Cities
    ensures city.stateId != ""
    ensures city in Lookup.GetCitiesByState(city.stateId)
  {
    var i :| 0 <= i < |Data.Cities| && Data.Cities[i] == city;
    Data.CityStatesExist(i);
    var j :| 0 <= j < |Data.States| && Data.States[j].id == city.stateId;
    Data.StateIdsUnique(j, j);
  }

  /** Under the invariant, a selected known city is one of the options the city select
      offers for the selected state. */
  lemma SelectedCityOffered(d: FormData)
    requires Consistent(d) && d.city != "" && Lookup.GetCityById(d.city).Some?
    ensures Lookup.GetCityById(d.city).value in FilteredCities(d)
  {
    CityStateSelectable(Lookup.GetCityById(d.city).value);
  }

  /** The form after `handleBlur(f)`: `f` is touched and carries its validator's result. */
  function AfterBlur(s: Form, f: Field): (r: Form)
    ensures r.formData == s.formData
    ensures r.touched.Get(f)
    ensures forall g :: g != f ==> r.touched.Get(g) == s.touched.Get(g)
    ensures r.errors.Get(f) == FieldError(s.formData, f)
    ensures forall g :: g != f ==> r.errors.Get(g) == s.errors.Get(g)
    ensures ShowError(r, f) <==> !FieldValid(s.formData, f)
  {
    s.(touched := s.touched.Set(f, true), errors := s.errors.Set(f, FieldError(s.formData, f)))
  }

  /** The form after `handleSubmit()`: every field touched, and errors replaced by a fresh
      run of the five validators, whatever errors were recorded before. */
  function AfterSubmit(s: Form): (r: Form)
    ensures r.formData == s.formData
    ensures forall f :: r.touched.Get(f)
    ensures forall f :: r.errors.Get(f) == FieldError(s.formData, f)
    ensures forall f :: ShowError(r, f) <==> !FieldValid(s.formData, f)
  {
    var d := s.formData;
    var newErrors := Fields(
      FieldError(d, FirstName), FieldError(d, LastName), FieldError(d, Pincode),
      FieldError(d, State), FieldError(d, City));
    Form(d, newErrors, Fields(true, true, true, true, true))
  }

  /** A submission is saved exactly when all five validators pass; it then carries the
      record and the names found for its state and city ids. */
  function SubmitOutcome(d: FormData): (r: Submission)
    ensures r.Saved? <==> forall f :: FieldValid(d, f)
    ensures r.Saved? ==> r.record == d
    ensures r.Saved? ==> (r.stateName.Some? <==> Data.IsStateId(d.state))
    ensures r.Saved? ==> (r.cityName.Some? <==> Data.IsCityId(d.city))
    ensures r.Saved? && r.stateName.Some? ==> Lookup.GetStateById(d.state) == Some(Data.State(d.state, r.stateName.value))
    ensures r.Saved? && r.cityName.Some? ==> r.cityName == Some(Lookup.GetCityById(d.city).value.name)
  {
    var isValid := forall f :: FieldError(d, f) == None;
    assert isValid <==> forall f :: FieldValid(d, f) by {
      assert forall f :: FieldError(d, f) == None <==> FieldValid(d, f);
    }
    if !isValid then Rejected
    else
      var stateName := match Lookup.GetStateById(d.state) case Some(st) => Some(st.name) case None => None;
      var cityName := match Lookup.GetCityById(d.city) case Some(c) => Some(c.name) case None => None;
      Saved(d, stateName, cityName)
  }

  /** Selecting the same city twice leaves the form as the first selection left it. */
  lemma CityChangeIdempotent(s: Form, cityId: string)
    ensures AfterCityChange(AfterCityChange(s, cityId), cityId) == AfterCityChange(s, cityId)
  {
    var r1 := AfterCityChange(s, cityId);
    var r2 := AfterCityChange(r1, cityId);
    assert r2.formData == r1.formData;
    assert r2.errors == r1.errors;
  }

  /** Typing a pincode of the dataset fills in that entry's state and city and clears the
      pincode, state and city errors. */
  lemma PincodeAutoFill(s: Form, i: nat)
    requires i < |Data.Pincodes|
    ensures AfterPincodeChange(s, Data.Pincodes[i].pincode).formData.state == Data.Pincodes[i].stateId
    ensures AfterPincodeChange(s, Data.Pincodes[i].pincode).formData.city == Data.Pincodes[i].cityId
    ensures AfterPincodeChange(s, Data.Pincodes[i].pincode).errors.pincode == None
    ensures AfterPincodeChange(s, Data.Pincodes[i].pincode).errors.state == None
    ensures AfterPincodeChange(s, Data.Pincodes[i].pincode).errors.city == None
  {
    Data.PincodesAreSixDigits(i);
    Lookup.LocationLookupAt(i);
  }

  /** Only the first three characters are looked up, so "400abc" fills in Mumbai like
      "400001" does, although it is not a valid pincode. */
  lemma PincodeSuffixIgnored(s: Form)
    ensures AfterPincodeChange(s, "400abc").formData.state == "MH"
    ensures AfterPincodeChange(s, "400abc").formData.city == "mumbai"
    ensures ValidatePincode("400abc") == Some(PincodeFormatMessage)
  {
    var typed := "400abc";
    assert Lookup.Prefix(typed) == Lookup.Prefix(Data.Pincodes[0].pincode) == "400";
    Lookup.LocationByPrefixOnly(typed, Data.Pincodes[0].pincode);
    Lookup.LocationLookupAt(0);
    ValidatePincodeExamples();
  }

  /** Changing the state to the state of the selected city keeps it and asks for no focus. */
  lemma StateChangeKeepsMatchingCity(s: Form, i: nat)
    requires i < |Data.Cities| && s.formData.city == Data.Cities[i].id
    ensures !CityMismatch(s.formData, Data.Cities[i].stateId)
    ensures AfterStateChange(s, Data.Cities[i].stateId).formData.city == s.formData.city
  {
    Lookup.CityLookupAt(i);
    Data.CityIdsUnique(i, i);
  }

  /** Submitting the empty form rejects it with a required message on every field. */
  lemma SubmitEmptyForm()
    ensures AfterSubmit(InitialForm()).errors
         == Fields(Some(RequiredMessage), Some(RequiredMessage), Some(PincodeRequiredMessage),
                   Some("State is required"), Some("City is required"))
    ensures SubmitOutcome(InitialForm().formData) == Rejected
  {
    var d: FormData := Fields("", "", "", "", "");
    assert InitialForm().formData == d;
    EmptyInputMessages();
    assert !FieldValid(d, FirstName);
  }

  /** A valid record for Mumbai is saved with its state and city names resolved. */
  lemma SubmitValidRecord()
    ensures SubmitOutcome(Fields("Anna", "Lee", "400001", "MH", "mumbai"))
         == Saved(Fields("Anna", "Lee", "400001", "MH", "mumbai"), Some("Maharashtra"), Some("Mumbai"))
  {
    var d: FormData := Fields("Anna", "Lee", "400001", "MH", "mumbai");
    assert !IsBlank(d.firstName) && MatchesNamePattern(d.firstName) by { assert !IsWhitespace(d.firstName[0]); }
    assert !IsBlank(d.lastName) && MatchesNamePattern(d.lastName) by { assert !IsWhitespace(d.lastName[0]); }
    Data.PincodesAreSixDigits(0);
    forall f ensures FieldValid(d, f) {
      match f
      case FirstName =>
      case LastName =>
      case Pincode =>
      case State =>
      case City =>
    }
    Lookup.StateLookupAt(0);
    Lookup.CityLookupAt(0);
  }

  /** The form component: its state, and one method per event handler. */
  class AddressForm {
    var formData: FormData
    var errors: Errors
    var touched: Touched

    function Snapshot(): Form
      reads this
    {
      Form(formData, errors, touched)
    }

    ghost predicate Valid()
      reads this
    {
      Consistent(formData)
    }

    constructor ()
      ensures Snapshot() == InitialForm()
      ensures Valid()
    {
      formData := Fields("", "", "", "", "");
      errors := Fields(None, None, None, None, None);
      touched := Fields(false, false, false, false, false);
    }

    method UpdateField(field: Field, value: string)
      modifies this
      ensures Snapshot() == AfterUpdateField(old(Snapshot()), field, value)
      ensures old(Valid()) && field != State && field != City ==> Valid()
    {
      formData := formData.Set(field, value);
      if Truthy(errors.Get(field)) {
        errors := errors.Set(field, None);
      }
    }

    method HandlePincodeChange(pincode: string)
      modifies this
      ensures Snapshot() == AfterPincodeChange(old(Snapshot()), pincode)
      ensures old(Valid()) ==> Valid()
    {
      UpdateField(Pincode, pincode);
      if |pincode| == 6 {
        var location := Lookup.GetLocationByPincode(pincode);
        if location.Some? {
          formData := formData.(pincode := pincode, state := location.value.stateId, city := location.value.cityId);
          errors := errors.(pincode := None, state := None, city := None);
        } else {
          errors := errors.(pincode := Some(InvalidPincodeMessage));
        }
      }
    }

    /** Returns whether the view is asked to focus the city select afterwards. */
    method HandleStateChange(stateId: string) returns (focusRequested: bool)
      modifies this
      ensures Snapshot() == AfterStateChange(old(Snapshot()), stateId)
      ensures focusRequested == CityMismatch(old(formData), stateId)
      ensures Valid()
    {
      UpdateField(State, stateId);
      focusRequested := false;
      if formData.city != "" {
        var currentCity := Lookup.GetCityById(formData.city);
        if currentCity.None? || currentCity.value.stateId != stateId {
          UpdateField(City, "");
          focusRequested := true;
        }
      }
    }

    method HandleCityChange(cityId: string)
      modifies this
      ensures Snapshot() == AfterCityChange(old(Snapshot()), cityId)
      ensures Valid()
    {
      UpdateField(City, cityId);
      if cityId != "" {
        var city := Lookup.GetCityById(cityId);
        if city.Some? {
          formData := formData.(city := cityId, state := city.value.stateId, pincode := city.value.pincode);
          errors := errors.(city := None, state := None, pincode := None);
        }
      }
    }

    method HandleBlur(field: Field)
      modifies this
      ensures Snapshot() == AfterBlur(old(Snapshot()), field)
      ensures old(Valid()) ==> Valid()
    {
      touched := touched.Set(field, true);
      var error := FieldError(formData, field);
      errors := errors.Set(field, error);
      assert formData == old(formData);
    }

    method HandleSubmit() returns (outcome: Submission)
      modifies this
      ensures Snapshot() == AfterSubmit(old(Snapshot()))
      ensures outcome == SubmitOutcome(old(formData))
      ensures old(Valid()) ==> Valid()
    {
      var newErrors := Fields(
        ValidateName(formData.firstName),
        ValidateName(formData.lastName),
        ValidatePincode(formData.pincode),
        ValidateRequired(formData.state, "State"),
        ValidateRequired(formData.city, "City"));
      errors := newErrors;
      touched := Fields(true, true, true, true, true);
      var isValid := forall f :: newErrors.Get(f) == None;
      if isValid {
        var state := Lookup.GetStateById(formData.state);
        var city := Lookup.GetCityById(formData.city);
        var stateName := if state.Some? then Some(state.value.name) else None;
        var cityName := if city.Some? then Some(city.value.name) else None;
        outcome := Saved(formData, stateName, cityName);
      } else {
        outcome := Rejected;
      }
    }
  }
}
