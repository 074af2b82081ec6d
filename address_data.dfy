/** The lookup hook of src/hooks/useAddressData.ts: four tables derived once from the
    reference dataset, and the getters that read them. */
module AddressData {
  import opened Wrappers
  import opened LocationData
  import opened Indexing

  /** JavaScript `s.slice(0, 3)`: the first three characters, or all of a shorter string. */
  function Prefix(s: string): (r: string)
    ensures r <= s
    ensures |r| == if |s| < 3 then |s| else 3
  {
    if |s| < 3 then s else s[..3]
  }

  function StateKey(s: State): string { s.id }
  function CityKey(c: City): string { c.id }
  function CityStateKey(c: City): string { c.stateId }
  function PincodeKey(p: PinCode): string { Prefix(p.pincode) }

  /** The value the hook's memoised factory returns. */
  datatype LookupMaps = LookupMaps(
    stateById: map<string, State>,
    cityById: map<string, City>,
    citiesByState: map<string, seq<City>>,
    locationByPincode: map<string, PinCode>)

  /** What the hook hands to the form. */
  datatype AddressData = AddressData(states: seq<State>, lookupMaps: LookupMaps)

  /** The tables, built once from the fixed dataset. */
  function Maps(): LookupMaps {
    LookupMaps(
      IndexBy(States, StateKey),
      IndexBy(Cities, CityKey),
      GroupBy(Cities, CityStateKey),
      IndexBy(Pincodes, PincodeKey))
  }

  /** `useAddressData()`: build the four tables in turn and return them together with the
      state list, which is passed through unchanged. */
  method UseAddressData() returns (d: AddressData)
    ensures d.states == States
    ensures d.lookupMaps == Maps()
  {
    var stateById := BuildIndex(States, StateKey);
    var cityById := BuildIndex(Cities, CityKey);
    var citiesByState := BuildGroups(Cities, CityStateKey);
    var locationByPincode := BuildIndex(Pincodes, PincodeKey);
    d := AddressData(States, LookupMaps(stateById, cityById, citiesByState, locationByPincode));
  }

  /** `getLocationByPincode`: the last entry whose pincode starts like `pincode`. */
  function GetLocationByPincode(pincode: string): (r: Option<PinCode>)
    ensures r == LastWithKey(Pincodes, PincodeKey, Prefix(pincode))
    ensures r.None? <==> forall i :: 0 <= i < |Pincodes| ==> Prefix(Pincodes[i].pincode) != Prefix(pincode)
    ensures r.Some? ==> r.value in Pincodes && Prefix(r.value.pincode) == Prefix(pincode)
  {
    IndexByIsLastWithKey(Pincodes, PincodeKey, Prefix(pincode));
    Get(Maps().locationByPincode, Prefix(pincode))
  }

  /** `getCitiesByState`: the cities of `stateId` in dataset order, `[]` when there are none. */
  function GetCitiesByState(stateId: string): (r: seq<City>)
    ensures r == WithKey(Cities, CityStateKey, stateId)
    ensures forall i :: 0 <= i < |Cities| ==> (Cities[i] in r <==> Cities[i].stateId == stateId)
  {
    GroupByIsWithKey(Cities, CityStateKey, stateId);
    var m := Maps().citiesByState;
    if stateId in m then m[stateId] else []
  }

  /** `getStateById`: the last state with that id. */
  function GetStateById(id: string): (r: Option<State>)
    ensures r == LastWithKey(States, StateKey, id)
    ensures r.None? <==> !IsStateId(id)
    ensures r.Some? ==> r.value in States && r.value.id == id
  {
    IndexByIsLastWithKey(States, StateKey, id);
    Get(Maps().stateById, id)
  }

  /** `getCityById`: the last city with that id. */
  function GetCityById(id: string): (r: Option<City>)
    ensures r == LastWithKey(Cities, CityKey, id)
    ensures r.None? <==> !IsCityId(id)
    ensures r.Some? ==> r.value in Cities && r.value.id == id
  {
    IndexByIsLastWithKey(Cities, CityKey, id);
    Get(Maps().cityById, id)
  }

  /** With unique city ids, the `i`-th city is what its own id finds. */
  lemma CityLookupAt(i: nat)
    requires i < |Cities|
    ensures GetCityById(Cities[i].id) == Some(Cities[i])
  {
    var j := LastIndexWithKey(Cities, CityKey, Cities[i].id);
    assert CityKey(Cities[i]) == Cities[i].id;
    CityIdsUnique(i, j);
  }

  /** With unique state ids, the `i`-th state is what its own id finds. */
  lemma StateLookupAt(i: nat)
    requires i < |States|
    ensures GetStateById(States[i].id) == Some(States[i])
  {
    var j := LastIndexWithKey(States, StateKey, States[i].id);
    assert StateKey(States[i]) == States[i].id;
    StateIdsUnique(i, j);
  }

  /** The location lookup depends on the first three characters only. */
  lemma LocationByPrefixOnly(p: string, q: string)
    requires Prefix(p) == Prefix(q)
    ensures GetLocationByPincode(p) == GetLocationByPincode(q)
  {
  }

  /** Every entry's own pincode finds that entry: no prefix is shadowed by a later one. */
  lemma LocationLookupAt(i: nat)
    requires i < |Pincodes|
    ensures GetLocationByPincode(Pincodes[i].pincode) == Some(Pincodes[i])
  {
    var p := Pincodes[i].pincode;
    PincodesAreSixDigits(i);
    var j := LastIndexWithKey(Pincodes, PincodeKey, Prefix(p));
    assert PincodeKey(Pincodes[i]) == Prefix(p);
    PincodesAreSixDigits(j);
    PincodePrefixesUnique(i, j);
  }

  /** A found location is a dataset entry, so its city exists and lies in its state. */
  lemma LocationLookupConsistent(pincode: string)
    requires GetLocationByPincode(pincode).Some?
    ensures GetLocationByPincode(pincode).value in Pincodes
    ensures GetCityById(GetLocationByPincode(pincode).value.cityId).Some?
    ensures GetCityById(GetLocationByPincode(pincode).value.cityId).value.stateId
         == GetLocationByPincode(pincode).value.stateId
  {
    var i := LastIndexWithKey(Pincodes, PincodeKey, Prefix(pincode));
    PincodeEntryConsistent(i);
    CityLookupAt(i);
  }

  /** Every city is among the cities of its own state. */
  lemma CityInItsState(i: nat)
    requires i < |Cities|
    ensures Cities[i] in GetCitiesByState(Cities[i].stateId)
  {
    assert CityStateKey(Cities[i]) == Cities[i].stateId;
  }

  /** An unknown state id has no cities. */
  lemma UnknownStateHasNoCities(stateId: string)
    requires !IsStateId(stateId)
    ensures GetCitiesByState(stateId) == []
  {
    var r := GetCitiesByState(stateId);
    if r != [] {
      var c := r[0];
      var i :| 0 <= i < |Cities| && Cities[i] == c;
      CityStatesExist(i);
    }
  }
}
