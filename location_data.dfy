/** The fixed reference dataset of src/utils/data.ts: six states, eleven cities and
    eleven pincode entries, with the well-formedness facts the lookups rely on. */
module LocationData {

  datatype State = State(id: string, name: string)
  datatype City = City(id: string, name: string, stateId: string, pincode: string)
  datatype PinCode = PinCode(pincode: string, stateId: string, cityId: string)

  // `LOCATION_DATA.states`, `.cities` and `.pincodes`, in source order.

  const States: seq<State> := [
    State("MH", "Maharashtra"),
    State("KA", "Karnataka"),
    State("TN", "Tamil Nadu"),
    State("DL", "Delhi"),
    State("UP", "Uttar Pradesh"),
    State("WB", "West Bengal")
  ]

  const Cities: seq<City> := [
    City("mumbai", "Mumbai", "MH", "400001"),
    City("pune", "Pune", "MH", "411001"),
    City("nagpur", "Nagpur", "MH", "440001"),
    City("bangalore", "Bangalore", "KA", "560001"),
    City("mysore", "Mysore", "KA", "570001"),
    City("chennai", "Chennai", "TN", "600001"),
    City("coimbatore", "Coimbatore", "TN", "641001"),
    City("delhi", "New Delhi", "DL", "110001"),
    City("gurgaon", "Gurgaon", "DL", "122001"),
    City("lucknow", "Lucknow", "UP", "226001"),
    City("kolkata", "Kolkata", "WB", "700001")
  ]

  const Pincodes: seq<PinCode> := [
    PinCode("400001", "MH", "mumbai"),
    PinCode("411001", "MH", "pune"),
    PinCode("440001", "MH", "nagpur"),
    PinCode("560001", "KA", "bangalore"),
    PinCode("570001", "KA", "mysore"),
    PinCode("600001", "TN", "chennai"),
    PinCode("641001", "TN", "coimbatore"),
    PinCode("110001", "DL", "delhi"),
    PinCode("122001", "DL", "gurgaon"),
    PinCode("226001", "UP", "lucknow"),
    PinCode("700001", "WB", "kolkata")
  ]

  predicate IsAsciiDigit(c: char) { '0' <= c <= '9' }

  /** Exactly six ASCII digits: what `/^\d{6}$/` accepts. */
  predicate IsSixDigits(s: string) {
    |s| == 6 && forall k :: 0 <= k < |s| ==> IsAsciiDigit(s[k])
  }

  predicate IsStateId(id: string) {
    exists i :: 0 <= i < |States| && States[i].id == id
  }

  predicate IsCityId(id: string) {
    exists i :: 0 <= i < |Cities| && Cities[i].id == id
  }

  /** Every city's `stateId` names one of the states. */
  lemma CityStatesExist(i: nat)
    requires i < |Cities|
    ensures IsStateId(Cities[i].stateId)
  {
    var w := [0, 0, 0, 1, 1, 2, 2, 3, 3, 4, 5];
    assert States[w[i]].id == Cities[i].stateId;
  }

  /** Every pincode entry names a city, and that city lies in the entry's state. */
  lemma PincodeEntryConsistent(i: nat)
    requires i < |Pincodes|
    ensures Cities[i].id == Pincodes[i].cityId
    ensures Cities[i].stateId == Pincodes[i].stateId
    ensures IsCityId(Pincodes[i].cityId)
  {
    assert i in {0, 1, 2, 3, 4, 5, 6, 7, 8, 9, 10};
  }

  /** Every city's representative pincode is the pincode of an entry for that city. */
  lemma CityPincodeListed(i: nat)
    requires i < |Cities|
    ensures Pincodes[i].pincode == Cities[i].pincode
    ensures Pincodes[i].cityId == Cities[i].id
  {
    assert i in {0, 1, 2, 3, 4, 5, 6, 7, 8, 9, 10};
  }

  /** Every pincode in the dataset, entry or representative, is six ASCII digits. */
  lemma PincodesAreSixDigits(i: nat)
    requires i < |Pincodes|
    ensures IsSixDigits(Pincodes[i].pincode)
    ensures IsSixDigits(Cities[i].pincode)
  {
    assert i in {0, 1, 2, 3, 4, 5, 6, 7, 8, 9, 10};
  }

  /** State ids are non-empty and pairwise distinct. */
  lemma StateIdsUnique(i: nat, j: nat)
    requires i < |States| && j < |States|
    ensures States[i].id != ""
    ensures States[i].id == States[j].id ==> i == j
  {
    assert i in {0, 1, 2, 3, 4, 5} && j in {0, 1, 2, 3, 4, 5};
  }

  /** City ids are non-empty and pairwise distinct. */
  lemma CityIdsUnique(i: nat, j: nat)
    requires i < |Cities| && j < |Cities|
    ensures Cities[i].id != ""
    ensures Cities[i].id == Cities[j].id ==> i == j
  {
    assert i in {0, 1, 2, 3, 4, 5, 6, 7, 8, 9, 10};
    assert j in {0, 1, 2, 3, 4, 5, 6, 7, 8, 9, 10};
  }

  /** The first three characters of the pincode entries are pairwise distinct. */
  lemma PincodePrefixesUnique(i: nat, j: nat)
    requires i < |Pincodes| && j < |Pincodes|
    ensures Pincodes[i].pincode[..3] == Pincodes[j].pincode[..3] ==> i == j
  {
    var a, b := Pincodes[i].pincode, Pincodes[j].pincode;
    if a[..3] == b[..3] {
      assert a[0] == b[0] && a[1] == b[1] && a[2] == b[2] by {
        assert a[..3][0] == a[0] && a[..3][1] == a[1] && a[..3][2] == a[2];
        assert b[..3][0] == b[0] && b[..3][1] == b[1] && b[..3][2] == b[2];
      }
      assert i in {0, 1, 2, 3, 4, 5, 6, 7, 8, 9, 10};
      assert j in {0, 1, 2, 3, 4, 5, 6, 7, 8, 9, 10};
    }
  }
}
