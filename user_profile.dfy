/**
 * Profile normalisation of the OpenID adapter: the attribute list the
 * adapter asks the provider to release, and the mapping from the attributes
 * the provider returned to a fixed-shape user profile.
 */
module UserProfile {
  import opened PhpStrings

  /** The attributes a provider released, keyed by attribute type
      ("namePerson/first", "contact/email", ...). */
  type AttributeBag = map<string, string>

  /** Reading one attribute: a key the provider did not release reads as "". */
  function Attr(bag: AttributeBag, key: string): (v: string)
    ensures key in bag ==> v == bag[key]
    ensures key !in bag ==> v == ""
  {
    if key in bag then bag[key] else ""
  }

  /** The normalised profile; a field nobody filled in is "". */
  datatype Profile = Profile(
    identifier: string,
    firstName: string,
    lastName: string,
    displayName: string,
    email: string,
    gender: string,
    language: string,
    country: string,
    zip: string,
    photoURL: string,
    birthDay: string,
    birthMonth: string,
    birthYear: string)

  /** The fifteen attribute types requested when the login begins. */
  const RequiredAttributes: seq<string> := [
    "namePerson/first",
    "namePerson/last",
    "namePerson/friendly",
    "namePerson",
    "contact/email",
    "birthDate",
    "birthDate/birthDay",
    "birthDate/birthMonth",
    "birthDate/birthYear",
    "person/gender",
    "pref/language",
    "contact/postalCode/home",
    "contact/city/home",
    "contact/country/home",
    "media/image/default"
  ]

  /** The key the birth year is read from. It is NOT the requested
      "birthDate/birthYear": the adapter reads "birthDate/birthDate", a type
      it never asks for (see BirthYearNeverRequested). */
  const BirthYearKey: string := "birthDate/birthDate"

  /** The request list has fifteen distinct entries. */
  lemma RequiredAttributesDistinct()
    ensures |RequiredAttributes| == 15
    ensures forall i, j :: 0 <= i < j < |RequiredAttributes| ==> RequiredAttributes[i] != RequiredAttributes[j]
  {
  }

  // ----- gender -----------------------------------------------------------

  /** The gender rule, in the order the adapter applies it: an "f" (any case)
      becomes "female"; then an "m" (any case) becomes "male"; then the value
      is lower-cased. */
  function FetchUserGender(raw: string): (gender: string)
    ensures IsLowerCase(gender)
    ensures gender == "" <==> raw == ""
  {
    var afterFemale := if "f" == ToLower(raw) then "female" else raw;
    var afterMale := if "m" == ToLower(afterFemale) then "male" else afterFemale;
    ToLowerIsLowerCase(afterMale);
    ToLower(afterMale)
  }

  /** The rule as one three-way choice. */
  lemma GenderRule(raw: string)
    ensures FetchUserGender(raw) ==
      if ToLower(raw) == "f" then "female"
      else if ToLower(raw) == "m" then "male"
      else ToLower(raw)
  {
  }

  /** "female" comes out of exactly the inputs "f" and "female", in any case. */
  lemma GenderFemaleIff(raw: string)
    ensures FetchUserGender(raw) == "female" <==> ToLower(raw) == "f" || ToLower(raw) == "female"
  {
  }

  /** "male" comes out of exactly the inputs "m" and "male", in any case. */
  lemma GenderMaleIff(raw: string)
    ensures FetchUserGender(raw) == "male" <==> ToLower(raw) == "m" || ToLower(raw) == "male"
  {
  }

  /** A normalised gender is a fixed point of the rule. */
  lemma GenderIdempotent(raw: string)
    ensures FetchUserGender(FetchUserGender(raw)) == FetchUserGender(raw)
  {
  }

  lemma GenderExamples()
    ensures FetchUserGender("F") == "female"
    ensures FetchUserGender("M") == "male"
    ensures FetchUserGender("other") == "other"
    ensures FetchUserGender("") == ""
  {
  }

  // ----- display name -----------------------------------------------------

  /** The display name: the full name if it is truthy, else the nickname if it
      is truthy, else the first and last name joined by one space and trimmed. */
  function FetchUserDisplayName(bag: AttributeBag, firstName: string, lastName: string): (displayName: string)
    ensures Truthy(Attr(bag, "namePerson")) ==> displayName == Attr(bag, "namePerson")
    ensures !Truthy(Attr(bag, "namePerson")) && Truthy(Attr(bag, "namePerson/friendly")) ==>
      displayName == Attr(bag, "namePerson/friendly")
    ensures !Truthy(Attr(bag, "namePerson")) && !Truthy(Attr(bag, "namePerson/friendly")) ==>
      displayName == Trim(firstName + " " + lastName)
  {
    var fullName := Attr(bag, "namePerson");
    var orNickname := if Truthy(fullName) then fullName else Attr(bag, "namePerson/friendly");
    if Truthy(orNickname) then orNickname else Trim(firstName + " " + lastName)
  }

  /** The display name is empty exactly when neither the full name nor the
      nickname is truthy and both the first and the last name are blank. */
  lemma DisplayNameEmptyIff(bag: AttributeBag, firstName: string, lastName: string)
    ensures FetchUserDisplayName(bag, firstName, lastName) == "" <==>
      && !Truthy(Attr(bag, "namePerson"))
      && !Truthy(Attr(bag, "namePerson/friendly"))
      && Blank(firstName) && Blank(lastName)
  {
    BlankConcat(firstName, " ");
    BlankConcat(firstName + " ", lastName);
    assert Blank(" ");
  }

  /** The invariant the display name keeps: it is non-empty as soon as one
      name-bearing attribute is truthy (full name, nickname) or non-blank
      (first name, last name). */
  lemma DisplayNameNonEmpty(bag: AttributeBag, firstName: string, lastName: string)
    requires || Truthy(Attr(bag, "namePerson"))
             || Truthy(Attr(bag, "namePerson/friendly"))
             || !Blank(firstName) || !Blank(lastName)
    ensures FetchUserDisplayName(bag, firstName, lastName) != ""
  {
    DisplayNameEmptyIff(bag, firstName, lastName);
  }

  /** A full name of "0" is false to PHP, so it is not used, and with nothing
      else released the display name is empty although "namePerson" is not. */
  lemma DisplayNameOfZeroIsEmpty()
    ensures FetchUserDisplayName(map["namePerson" := "0"], "", "") == ""
  {
  }

  /** The three tiers on concrete attribute bags. */
  lemma DisplayNameExamples()
    ensures FetchUserDisplayName(map["namePerson" := "Jane Doe"], "", "") == "Jane Doe"
    ensures FetchUserDisplayName(map["namePerson/friendly" := "jdoe"], "", "") == "jdoe"
    ensures FetchUserDisplayName(map[], "Jane", "Doe") == "Jane Doe"
    ensures FetchUserDisplayName(map[], "", "") == ""
  {
  }

  // ----- the whole profile ------------------------------------------------

  /** The profile built from the released attributes and the identity the
      client reports: each field is copied from its fixed attribute type,
      gender and display name are normalised. */
  function FetchUserProfile(bag: AttributeBag, identity: string): (p: Profile)
    ensures p.identifier == identity
    ensures p.firstName == Attr(bag, "namePerson/first")
    ensures p.lastName == Attr(bag, "namePerson/last")
    ensures p.email == Attr(bag, "contact/email")
    ensures p.language == Attr(bag, "pref/language")
    ensures p.country == Attr(bag, "contact/country/home")
    ensures p.zip == Attr(bag, "contact/postalCode/home")
    ensures p.photoURL == Attr(bag, "media/image/default")
    ensures p.birthDay == Attr(bag, "birthDate/birthDay")
    ensures p.birthMonth == Attr(bag, "birthDate/birthMonth")
    ensures p.birthYear == Attr(bag, BirthYearKey)
    ensures p.gender == FetchUserGender(Attr(bag, "person/gender"))
    ensures p.displayName == FetchUserDisplayName(bag, p.firstName, p.lastName)
  {
    var firstName := Attr(bag, "namePerson/first");
    var lastName := Attr(bag, "namePerson/last");
    Profile(
      identifier := identity,
      firstName := firstName,
      lastName := lastName,
      displayName := FetchUserDisplayName(bag, firstName, lastName),
      email := Attr(bag, "contact/email"),
      gender := FetchUserGender(Attr(bag, "person/gender")),
      language := Attr(bag, "pref/language"),
      country := Attr(bag, "contact/country/home"),
      zip := Attr(bag, "contact/postalCode/home"),
      photoURL := Attr(bag, "media/image/default"),
      birthDay := Attr(bag, "birthDate/birthDay"),
      birthMonth := Attr(bag, "birthDate/birthMonth"),
      birthYear := Attr(bag, BirthYearKey))
  }

  /** The profile depends on the released attributes only through requested
      attribute types, except for the birth year, whose type
      "birthDate/birthDate" is not requested. This is the corollary of
      ProfileOfSameReadAttributes for agreement on the whole request list. */
  lemma ProfileReadsRequestedTypes(bag1: AttributeBag, bag2: AttributeBag, identity: string)
    requires forall k :: k in RequiredAttributes ==> Attr(bag1, k) == Attr(bag2, k)
    ensures FetchUserProfile(bag1, identity).(birthYear := "") == FetchUserProfile(bag2, identity).(birthYear := "")
    ensures BirthYearKey !in RequiredAttributes
  {
    forall n | n in ReadIndices
      ensures Attr(bag1, RequiredAttributes[n]) == Attr(bag2, RequiredAttributes[n])
    {
      assert RequiredAttributes[n] in RequiredAttributes;
    }
    ProfileOfSameReadAttributes(bag1, bag2, identity);
  }

  /** Positions in RequiredAttributes of the twelve types the profile reads;
      "birthDate" (5), "birthDate/birthYear" (8) and "contact/city/home" (12)
      are requested but never read. */
  const ReadIndices: set<nat> := {0, 1, 2, 3, 4, 6, 7, 9, 10, 11, 13, 14}

  /** Two bags that agree on the twelve types the profile reads from the
      request list give profiles that differ at most in the birth year. */
  lemma ProfileOfSameReadAttributes(bag1: AttributeBag, bag2: AttributeBag, identity: string)
    requires forall n :: n in ReadIndices && n < |RequiredAttributes| ==>
      Attr(bag1, RequiredAttributes[n]) == Attr(bag2, RequiredAttributes[n])
    ensures FetchUserProfile(bag1, identity).(birthYear := "") == FetchUserProfile(bag2, identity).(birthYear := "")
  {
    var p1, p2 := FetchUserProfile(bag1, identity), FetchUserProfile(bag2, identity);
    assert 0 in ReadIndices && 1 in ReadIndices && 2 in ReadIndices && 3 in ReadIndices;
    assert 4 in ReadIndices && 6 in ReadIndices && 7 in ReadIndices && 9 in ReadIndices;
    assert 10 in ReadIndices && 11 in ReadIndices && 13 in ReadIndices && 14 in ReadIndices;
    assert Attr(bag1, RequiredAttributes[0]) == Attr(bag2, RequiredAttributes[0]);
    assert Attr(bag1, RequiredAttributes[1]) == Attr(bag2, RequiredAttributes[1]);
    assert Attr(bag1, RequiredAttributes[2]) == Attr(bag2, RequiredAttributes[2]);
    assert Attr(bag1, RequiredAttributes[3]) == Attr(bag2, RequiredAttributes[3]);
    assert Attr(bag1, RequiredAttributes[4]) == Attr(bag2, RequiredAttributes[4]);
    assert Attr(bag1, RequiredAttributes[6]) == Attr(bag2, RequiredAttributes[6]);
    assert Attr(bag1, RequiredAttributes[7]) == Attr(bag2, RequiredAttributes[7]);
    assert Attr(bag1, RequiredAttributes[9]) == Attr(bag2, RequiredAttributes[9]);
    assert Attr(bag1, RequiredAttributes[10]) == Attr(bag2, RequiredAttributes[10]);
    assert Attr(bag1, RequiredAttributes[11]) == Attr(bag2, RequiredAttributes[11]);
    assert Attr(bag1, RequiredAttributes[13]) == Attr(bag2, RequiredAttributes[13]);
    assert Attr(bag1, RequiredAttributes[14]) == Attr(bag2, RequiredAttributes[14]);
    assert p1.firstName == p2.firstName && p1.lastName == p2.lastName;
    assert p1.displayName == p2.displayName;
  }

  /** When the provider releases only attribute types that were asked for,
      the birth year is always empty, whatever the provider says about it. */
  lemma BirthYearNeverRequested(bag: AttributeBag, identity: string)
    requires forall key :: key in bag ==> key in RequiredAttributes
    ensures FetchUserProfile(bag, identity).birthYear == ""
  {
    assert BirthYearKey !in RequiredAttributes;
  }

  /** With a first name and an e-mail address only, the display name falls
      back to the first name. */
  lemma FirstNameOnlyExample(identity: string)
    ensures var p := FetchUserProfile(map["namePerson/first" := "Alice", "contact/email" := "alice@example.com"], identity);
      p.firstName == "Alice" && p.email == "alice@example.com" && p.displayName == "Alice"
  {
    var bag := map["namePerson/first" := "Alice", "contact/email" := "alice@example.com"];
    assert Attr(bag, "namePerson/last") == "";
    var joined := "Alice" + " " + "";
    assert LeadingBlanks(joined) == 0;
    assert TrailingBlanksStart(joined) == 5 by {
      assert joined[..5] == "Alice";
      assert TrailingBlanksStart(joined[..5]) == 5;
    }
    assert Trim(joined) == joined[0..5] == "Alice";
  }
}
