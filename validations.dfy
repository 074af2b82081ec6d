/** The three field validators of src/utils/validations.ts. Each checks in a fixed
    order and returns the first failing check's message, or `None` for JavaScript `null`. */
module Validations {
  import opened Wrappers
  import opened LocationData

  const RequiredMessage := "This field is required"
  const TooShortMessage := "Must be at least 2 characters"
  const LettersMessage := "Only letters and spaces allowed"
  const PincodeRequiredMessage := "Pincode is required"
  const PincodeFormatMessage := "Must be 6 digits"

  /** ECMAScript WhiteSpace and LineTerminator: the characters `trim()` removes and `\s`
      matches. */
  predicate IsWhitespace(c: char) {
    c == '\t' || c == '\n' || c == '\U{000B}' || c == '\U{000C}' || c == '\r' || c == ' '
    || c == '\U{00A0}' || c == '\U{1680}' || ('\U{2000}' <= c <= '\U{200A}')
    || c == '\U{2028}' || c == '\U{2029}' || c == '\U{202F}' || c == '\U{205F}'
    || c == '\U{3000}' || c == '\U{FEFF}'
  }

  predicate IsAsciiLetter(c: char) { 'a' <= c <= 'z' || 'A' <= c <= 'Z' }

  /** Nothing but whitespace (the empty string included): `!s.trim()`. */
  predicate IsBlank(s: string) {
    forall k :: 0 <= k < |s| ==> IsWhitespace(s[k])
  }

  /** `/^[a-zA-Z\s]+$/`. */
  predicate MatchesNamePattern(s: string) {
    |s| > 0 && forall k :: 0 <= k < |s| ==> IsAsciiLetter(s[k]) || IsWhitespace(s[k])
  }

  /** Leading whitespace removed. */
  function TrimStart(s: string): (r: string)
    ensures IsBlank(r) <==> IsBlank(s)
    ensures r != [] ==> !IsWhitespace(r[0])
  {
    if s == [] || !IsWhitespace(s[0]) then s
    else
      var r := TrimStart(s[1..]);
      assert IsBlank(s) <==> IsBlank(s[1..]) by {
        assert forall k :: 0 <= k < |s| - 1 ==> s[1..][k] == s[k + 1];
      }
      r
  }

  /** Trailing whitespace removed. */
  function TrimEnd(s: string): (r: string)
    ensures r == [] <==> IsBlank(s)
  {
    if s == [] || !IsWhitespace(s[|s| - 1]) then s
    else
      var init := s[..|s| - 1];
      var r := TrimEnd(init);
      assert IsBlank(s) <==> IsBlank(init) by {
        assert forall k :: 0 <= k < |init| ==> init[k] == s[k];
      }
      r
  }

  /** `String.prototype.trim`. */
  function Trim(s: string): (r: string)
    ensures r == [] <==> IsBlank(s)
  {
    var t := TrimStart(s);
    var r := TrimEnd(t);
    r
  }

  /** `validateName`: required, then length of the untrimmed string, then characters. */
  function ValidateName(name: string): (r: Option<string>)
    ensures r == Some(RequiredMessage) <==> IsBlank(name)
    ensures !IsBlank(name) && |name| < 2 ==> r == Some(TooShortMessage)
    ensures !IsBlank(name) && |name| >= 2 && !MatchesNamePattern(name) ==> r == Some(LettersMessage)
    ensures r == None <==> !IsBlank(name) && |name| >= 2 && MatchesNamePattern(name)
  {
    if Trim(name) == "" then Some(RequiredMessage)
    else if |name| < 2 then Some(TooShortMessage)
    else if !MatchesNamePattern(name) then Some(LettersMessage)
    else None
  }

  /** `validatePincode`: required, then exactly six ASCII digits (`/^\d{6}$/`). */
  function ValidatePincode(pincode: string): (r: Option<string>)
    ensures r == Some(PincodeRequiredMessage) <==> IsBlank(pincode)
    ensures !IsBlank(pincode) ==> (r == None <==> IsSixDigits(pincode))
    ensures !IsBlank(pincode) && !IsSixDigits(pincode) ==> r == Some(PincodeFormatMessage)
  {
    if Trim(pincode) == "" then Some(PincodeRequiredMessage)
    else if !IsSixDigits(pincode) then Some(PincodeFormatMessage)
    else None
  }

  /** `validateRequired`: only the empty string fails; whitespace counts as a value. */
  function ValidateRequired(value: string, fieldName: string): (r: Option<string>)
    ensures r == None <==> value != ""
    ensures r != None ==> r == Some(fieldName + " is required")
  {
    if value == "" then Some(fieldName + " is required") else None
  }

  /** A name that passes is at least two characters of letters and whitespace, not all
      of them whitespace. */
  lemma ValidNameShape(name: string)
    requires ValidateName(name) == None
    ensures |name| >= 2
    ensures forall k :: 0 <= k < |name| ==> IsAsciiLetter(name[k]) || IsWhitespace(name[k])
    ensures exists k :: 0 <= k < |name| && !IsWhitespace(name[k])
  {
  }

  /** The documented examples: "" and blanks are missing, "A" is too short, "A1" has a
      digit, "Anna Lee" passes, and " a" passes because the length check counts the
      untrimmed string. */
  lemma ValidateNameExamples()
    ensures ValidateName("") == Some(RequiredMessage)
    ensures ValidateName("   ") == Some(RequiredMessage)
    ensures ValidateName("A") == Some(TooShortMessage)
    ensures ValidateName(" a") == None
    ensures ValidateName("A1") == Some(LettersMessage)
    ensures ValidateName("Anna Lee") == None
  {
    var blank, a, spacedA, a1, anna := "   ", "A", " a", "A1", "Anna Lee";
    assert IsBlank(blank);
    assert !IsBlank(a) by { assert !IsWhitespace(a[0]); }
    assert !IsBlank(spacedA) && MatchesNamePattern(spacedA) by { assert !IsWhitespace(spacedA[1]); }
    assert !IsBlank(a1) && !MatchesNamePattern(a1) by {
      assert !IsWhitespace(a1[0]);
      assert !IsWhitespace(a1[1]) && !IsAsciiLetter(a1[1]);
    }
    assert !IsBlank(anna) && MatchesNamePattern(anna) by { assert !IsWhitespace(anna[0]); }
  }

  /** What each validator says about an empty input, with the labels the form passes. */
  lemma EmptyInputMessages()
    ensures ValidateName("") == Some(RequiredMessage)
    ensures ValidatePincode("") == Some(PincodeRequiredMessage)
    ensures ValidateRequired("", "State") == Some("State is required")
    ensures ValidateRequired("", "City") == Some("City is required")
  {
    assert IsBlank("");
    assert "State" + " is required" == "State is required";
    assert "City" + " is required" == "City is required";
  }

  lemma ValidatePincodeExamples()
    ensures ValidatePincode("") == Some(PincodeRequiredMessage)
    ensures ValidatePincode("12345") == Some(PincodeFormatMessage)
    ensures ValidatePincode("12345a") == Some(PincodeFormatMessage)
    ensures ValidatePincode("400001") == None
    ensures ValidatePincode("400abc") == Some(PincodeFormatMessage)
  {
    var five, letter, ok, suffix := "12345", "12345a", "400001", "400abc";
    assert !IsBlank(suffix) && !IsSixDigits(suffix) by {
      assert !IsWhitespace(suffix[0]) && !IsAsciiDigit(suffix[3]);
    }
    assert !IsBlank(five) by { assert !IsWhitespace(five[0]); }
    assert !IsBlank(letter) && !IsSixDigits(letter) by {
      assert !IsWhitespace(letter[0]) && !IsAsciiDigit(letter[5]);
    }
    assert !IsBlank(ok) && IsSixDigits(ok) by { assert !IsWhitespace(ok[0]); }
  }

  /** Every pincode of the dataset passes `validatePincode`. */
  lemma DatasetPincodesValid(i: nat)
    requires i < |Pincodes|
    ensures ValidatePincode(Pincodes[i].pincode) == None
    ensures ValidatePincode(Cities[i].pincode) == None
  {
    PincodesAreSixDigits(i);
    assert !IsWhitespace(Pincodes[i].pincode[0]) && !IsWhitespace(Cities[i].pincode[0]);
  }
}
