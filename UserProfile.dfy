/** The organisation profile page (src/components/UserProfile.tsx): address
    formatting, the completeness warning, validation of a save, the
    changed-fields-only update, and the address taken from a geocoded place.
    Firestore reads and writes, the auth profile update and the geocoder are
    outside the model; their outcomes are parameters. */
module UserProfile {
  import opened Wrappers
  import opened Strings

  /** `OrganizationAddress`, every component optional. */
  datatype Address = Address(
    street: Option<string>,
    city: Option<string>,
    state: Option<string>,
    postalCode: Option<string>,
    country: Option<string>)

  /** The empty object `{}`. */
  const EmptyAddress := Address(None, None, None, None, None)

  /** The components in display order. */
  function Components(a: Address): seq<Option<string>> {
    [a.street, a.city, a.state, a.postalCode, a.country]
  }

  /** `xs.filter(Boolean)` on optional strings: the present, non-empty values
      in their order. */
  function TruthyValues(xs: seq<Option<string>>): (r: seq<string>)
    ensures |r| <= |xs|
    ensures forall i :: 0 <= i < |r| ==> r[i] != ""
    ensures forall s :: s in r <==> s != "" && Some(s) in xs
    ensures r == [] <==> forall i :: 0 <= i < |xs| ==> !Truthy(xs[i])
  {
    if xs == [] then []
    else
      var rest := TruthyValues(xs[1..]);
      assert forall o :: o in xs <==> o == xs[0] || o in xs[1..];
      if Truthy(xs[0]) then [xs[0].value] + rest else rest
  }

  /** `formatAddressToString(address)`. */
  function FormatAddressToString(address: Option<Address>): (r: string)
    ensures address.None? ==> r == ""
  {
    if address.None? then "" else Join(", ", TruthyValues(Components(address.value)))
  }

  /** The formatted address is empty exactly when there is no address or no
      component of it is a non-empty string. */
  lemma FormatAddressEmptyIff(address: Option<Address>)
    ensures FormatAddressToString(address) == "" <==>
      address.None? || forall i :: 0 <= i < 5 ==> !Truthy(Components(address.value)[i])
  {
    if address.Some? {
      var parts := TruthyValues(Components(address.value));
      if parts != [] {
        assert parts[0] != "";
      }
    }
  }

  /** An address with one non-empty component shows as that component alone. */
  lemma FormatSingleComponent(city: string)
    requires city != ""
    ensures FormatAddressToString(Some(EmptyAddress.(city := Some(city)))) == city
  {
    var xs := Components(EmptyAddress.(city := Some(city)));
    assert xs[1..] == [Some(city), None, None, None];
    assert xs[1..][1..] == [None, None, None];
    assert xs[1..][1..][1..] == [None, None];
    assert xs[1..][1..][1..][1..] == [None];
    assert xs[1..][1..][1..][1..][1..] == [];
    assert TruthyValues(xs[1..][1..]) == [];
    assert TruthyValues(xs) == [city];
  }

  /** The filter works element by element: it keeps the order of the values
      and keeps a repeated value as often as it occurs. */
  lemma {:induction false} TruthyValuesAppend(a: seq<Option<string>>, b: seq<Option<string>>)
    ensures TruthyValues(a + b) == TruthyValues(a) + TruthyValues(b)
  {
    if a == [] {
      assert a + b == b;
    } else {
      assert (a + b)[0] == a[0];
      assert (a + b)[1..] == a[1..] + b;
      TruthyValuesAppend(a[1..], b);
    }
  }

  /** One value is kept exactly when it is truthy. */
  lemma TruthyValuesSingle(o: Option<string>)
    ensures TruthyValues([o]) == if Truthy(o) then [o.value] else []
  {
    assert [o][1..] == [];
  }

  /** A street and a city show as "street, city". */
  lemma FormatStreetAndCity(street: string, city: string)
    requires street != "" && city != ""
    ensures FormatAddressToString(Some(EmptyAddress.(street := Some(street), city := Some(city))))
      == street + ", " + city
  {
    var xs := Components(EmptyAddress.(street := Some(street), city := Some(city)));
    assert xs == [Some(street)] + [Some(city)] + [None, None, None];
    TruthyValuesAppend([Some(street)] + [Some(city)], [None, None, None]);
    TruthyValuesAppend([Some(street)], [Some(city)]);
    TruthyValuesSingle(Some(street));
    TruthyValuesSingle(Some(city));
    NoTruthyValues([None, None, None]);
    var parts := TruthyValues(xs);
    assert parts == [street, city];
    assert parts[1..] == [city];
  }

  /** A complete address shows its five components in the order street,
      city, state, postal code, country, separated by ", ". */
  lemma FormatFullAddress(street: string, city: string, state: string, postalCode: string, country: string)
    requires street != "" && city != "" && state != "" && postalCode != "" && country != ""
    ensures FormatAddressToString(Some(Address(Some(street), Some(city), Some(state), Some(postalCode), Some(country))))
      == street + ", " + (city + ", " + (state + ", " + (postalCode + ", " + country)))
  {
    TruthyPresent(Components(Address(Some(street), Some(city), Some(state), Some(postalCode), Some(country))),
      [street, city, state, postalCode, country]);
    JoinFive(", ", street, city, state, postalCode, country);
  }

  /** Values that are all present and non-empty are all kept, in order. */
  lemma {:induction false} TruthyPresent(xs: seq<Option<string>>, vs: seq<string>)
    requires |xs| == |vs|
    requires forall i :: 0 <= i < |xs| ==> xs[i] == Some(vs[i]) && vs[i] != ""
    ensures TruthyValues(xs) == vs
  {
    if xs != [] {
      TruthyPresent(xs[1..], vs[1..]);
      assert vs == [vs[0]] + vs[1..];
    }
  }

  /** Values that are all falsy leave nothing. */
  lemma NoTruthyValues(xs: seq<Option<string>>)
    requires forall i :: 0 <= i < |xs| ==> !Truthy(xs[i])
    ensures TruthyValues(xs) == []
  {
  }

  /** The scalar profile fields that a save may write. */
  datatype ScalarKey =
    | DisplayName | OrganizationName | OrganizationRole
    | UserPhoneNumber | OrganizationTaxId | OrganizationPhoneNumber

  const ScalarKeys: set<ScalarKey> :=
    {DisplayName, OrganizationName, OrganizationRole, UserPhoneNumber, OrganizationTaxId, OrganizationPhoneNumber}

  /** The profile record, as stored and as edited; any field may be absent. */
  datatype Profile = Profile(
    email: Option<string>,
    displayName: Option<string>,
    userPhoneNumber: Option<string>,
    organizationName: Option<string>,
    organizationRole: Option<string>,
    organizationTaxId: Option<string>,
    organizationAddress: Option<Address>,
    organizationPhoneNumber: Option<string>)
  {
    function Scalar(k: ScalarKey): Option<string> {
      match k
      case DisplayName => displayName
      case OrganizationName => organizationName
      case OrganizationRole => organizationRole
      case UserPhoneNumber => userPhoneNumber
      case OrganizationTaxId => organizationTaxId
      case OrganizationPhoneNumber => organizationPhoneNumber
    }

    /** `organizationAddress?.<component>`. */
    function Street(): Option<string> { if organizationAddress.None? then None else organizationAddress.value.street }
    function City(): Option<string> { if organizationAddress.None? then None else organizationAddress.value.city }
    function PostalCode(): Option<string> { if organizationAddress.None? then None else organizationAddress.value.postalCode }
    function Country(): Option<string> { if organizationAddress.None? then None else organizationAddress.value.country }
  }

  /** `{}` as a profile. */
  const EmptyProfile := Profile(None, None, None, None, None, None, None, None)

  /** `profileData?.<field>`: absent when there is no stored profile. */
  function Stored(profile: Option<Profile>, k: ScalarKey): Option<string> {
    if profile.None? then None else profile.value.Scalar(k)
  }

  // ---- Completeness ----

  /** For the seven mandatory values, in the order the save reports them
      (name, street, city, postal code, country, tax id, phone number),
      whether each is absent or whitespace only. */
  function Blanks(p: Profile): (b: seq<bool>)
    ensures |b| == |MandatoryLabels|
  {
    [Blank(p.organizationName), Blank(p.Street()), Blank(p.City()), Blank(p.PostalCode()),
     Blank(p.Country()), Blank(p.organizationTaxId), Blank(p.organizationPhoneNumber)]
  }

  /** The labels reported for the seven mandatory values. */
  const MandatoryLabels: seq<string> := [
    "Name", "Address (Street from selection)", "Address (City from selection)",
    "Address (Postal Code from selection)", "Address (Country from selection)",
    "Tax ID", "Phone Number"]

  /** The warning shown for a stored profile: the address lacks street, city,
      postal code or country, or the organisation lacks name, tax id or
      phone number (absent or whitespace only). */
  predicate IsProfileIncomplete(p: Profile) {
    var addressComplete := !Blank(p.Street()) && !Blank(p.City()) && !Blank(p.PostalCode()) && !Blank(p.Country());
    var orgDetailsComplete := !Blank(p.organizationName) && !Blank(p.organizationTaxId) && !Blank(p.organizationPhoneNumber);
    !(addressComplete && orgDetailsComplete)
  }

  /** The labels among the first `n` of `labels` whose flag in `blank` is
      set, in order: what pushing each flagged label in turn onto an empty
      list gives. */
  function MissingPrefix(labels: seq<string>, blank: seq<bool>, n: nat): (r: seq<string>)
    requires |labels| == |blank| && n <= |labels|
    ensures |r| <= n
    ensures r == [] <==> forall i :: 0 <= i < n ==> !blank[i]
  {
    if n == 0 then []
    else MissingPrefix(labels, blank, n - 1) + (if blank[n - 1] then [labels[n - 1]] else [])
  }

  /** All labels whose flag is set, in order. */
  function MissingLabels(labels: seq<string>, blank: seq<bool>): (r: seq<string>)
    requires |labels| == |blank|
    ensures |r| <= |labels|
    ensures r == [] <==> forall i :: 0 <= i < |blank| ==> !blank[i]
  {
    MissingPrefix(labels, blank, |labels|)
  }

  /** Every reported label is one of the first `n` labels. */
  lemma {:induction false} MissingPrefixSubset(labels: seq<string>, blank: seq<bool>, n: nat)
    requires |labels| == |blank| && n <= |labels|
    ensures forall s :: s in MissingPrefix(labels, blank, n) ==> s in labels[..n]
  {
    if n > 0 {
      MissingPrefixSubset(labels, blank, n - 1);
      assert forall s :: s in labels[..n - 1] ==> s in labels[..n];
    }
  }

  /** Among the first `n` labels, one is reported exactly when its flag is
      set (the labels are distinct). */
  lemma {:induction false} MissingPrefixMembership(labels: seq<string>, blank: seq<bool>, n: nat, i: int)
    requires |labels| == |blank| && 0 <= i < n <= |labels|
    requires forall j, k :: 0 <= j < k < |labels| ==> labels[j] != labels[k]
    ensures labels[i] in MissingPrefix(labels, blank, n) <==> blank[i]
  {
    if i < n - 1 {
      MissingPrefixMembership(labels, blank, n - 1, i);
      assert labels[n - 1] != labels[i];
    } else {
      MissingPrefixSubset(labels, blank, n - 1);
      assert labels[n - 1] !in labels[..n - 1];
    }
  }

  /** A label is reported exactly when its flag is set (the labels are
      distinct). */
  lemma MissingLabelsMembership(labels: seq<string>, blank: seq<bool>, i: int)
    requires |labels| == |blank| && 0 <= i < |labels|
    requires forall j, k :: 0 <= j < k < |labels| ==> labels[j] != labels[k]
    ensures labels[i] in MissingLabels(labels, blank) <==> blank[i]
  {
    MissingPrefixMembership(labels, blank, |labels|, i);
  }

  /** The pushes of `handleSaveChanges`, given which of the seven mandatory
      values are blank: each label in turn when its value is blank. */
  method PushMissingLabels(blank: seq<bool>) returns (missingFields: seq<string>)
    requires |blank| == 7
    ensures missingFields == MissingLabels(MandatoryLabels, blank)
  {
    ghost var l := MandatoryLabels;
    missingFields := [];
    missingFields := missingFields + (if blank[0] then ["Name"] else []);
    assert missingFields == MissingPrefix(l, blank, 1);
    missingFields := missingFields + (if blank[1] then ["Address (Street from selection)"] else []);
    assert missingFields == MissingPrefix(l, blank, 2);
    missingFields := missingFields + (if blank[2] then ["Address (City from selection)"] else []);
    assert missingFields == MissingPrefix(l, blank, 3);
    missingFields := missingFields + (if blank[3] then ["Address (Postal Code from selection)"] else []);
    assert missingFields == MissingPrefix(l, blank, 4);
    missingFields := missingFields + (if blank[4] then ["Address (Country from selection)"] else []);
    assert missingFields == MissingPrefix(l, blank, 5);
    missingFields := missingFields + (if blank[5] then ["Tax ID"] else []);
    assert missingFields == MissingPrefix(l, blank, 6);
    missingFields := missingFields + (if blank[6] then ["Phone Number"] else []);
    assert missingFields == MissingPrefix(l, blank, 7);
  }

  /** The validation of `handleSaveChanges`: trim the seven mandatory values,
      then push the label of each blank one, in the fixed order. */
  method CollectMissingFields(f: Profile) returns (missingFields: seq<string>)
    ensures missingFields == MissingLabels(MandatoryLabels, Blanks(f))
  {
    var blank := Blanks(f);
    missingFields := PushMissingLabels(blank);
  }

  /** Each of the seven labels is reported exactly when its flag is set. */
  lemma MandatoryMembership(blank: seq<bool>)
    requires |blank| == 7
    ensures forall i :: 0 <= i < 7 ==> (MandatoryLabels[i] in MissingLabels(MandatoryLabels, blank) <==> blank[i])
  {
    assert forall j, k :: 0 <= j < k < 7 ==> MandatoryLabels[j] != MandatoryLabels[k];
    forall i | 0 <= i < 7
      ensures MandatoryLabels[i] in MissingLabels(MandatoryLabels, blank) <==> blank[i]
    {
      MissingLabelsMembership(MandatoryLabels, blank, i);
    }
  }

  /** The save goes ahead exactly when the form would not raise the
      incompleteness warning; each label is reported exactly when its value is
      blank. */
  lemma MissingFieldsIffIncomplete(f: Profile)
    ensures MissingLabels(MandatoryLabels, Blanks(f)) == [] <==> !IsProfileIncomplete(f)
    ensures forall i :: 0 <= i < 7 ==>
      (MandatoryLabels[i] in MissingLabels(MandatoryLabels, Blanks(f)) <==> Blanks(f)[i])
  {
    var b := Blanks(f);
    MandatoryMembership(b);
    assert (forall i :: 0 <= i < 7 ==> !b[i]) <==> !b[0] && !b[1] && !b[2] && !b[3] && !b[4] && !b[5] && !b[6];
  }

  /** The error text of a save with blank mandatory values. */
  function MissingFieldsMessage(missingFields: seq<string>): (r: string)
    ensures |r| > 0
  {
    "Please select a valid address using the search and fill other mandatory fields: " + Join(", ", missingFields) + "."
  }

  // ---- The update object ----

  /** `cleanNewAddress`: empty or absent components become absent. */
  function CleanAddress(a: Address): (r: Address)
    ensures forall i :: 0 <= i < 5 ==> Components(r)[i] != Some("")
    ensures forall i :: 0 <= i < 5 ==> Truthy(Components(a)[i]) ==> Components(r)[i] == Components(a)[i]
    ensures forall i :: 0 <= i < 5 ==> !Truthy(Components(a)[i]) ==> Components(r)[i] == None
  {
    Address(
      if Truthy(a.street) then a.street else None,
      if Truthy(a.city) then a.city else None,
      if Truthy(a.state) then a.state else None,
      if Truthy(a.postalCode) then a.postalCode else None,
      if Truthy(a.country) then a.country else None)
  }

  /** Cleaning a clean address changes nothing. */
  lemma CleanAddressIdempotent(a: Address)
    ensures CleanAddress(CleanAddress(a)) == CleanAddress(a)
  {
  }

  /** `updateData`: for each scalar key, `Some(value)` when the key is set
      (the value itself may be absent); the address when it is to be
      written. There is no email key. */
  datatype UpdateData = UpdateData(
    displayName: Option<Option<string>>,
    organizationName: Option<Option<string>>,
    organizationRole: Option<Option<string>>,
    userPhoneNumber: Option<Option<string>>,
    organizationTaxId: Option<Option<string>>,
    organizationPhoneNumber: Option<Option<string>>,
    organizationAddress: Option<Address>)
  {
    function Entry(k: ScalarKey): Option<Option<string>> {
      match k
      case DisplayName => displayName
      case OrganizationName => organizationName
      case OrganizationRole => organizationRole
      case UserPhoneNumber => userPhoneNumber
      case OrganizationTaxId => organizationTaxId
      case OrganizationPhoneNumber => organizationPhoneNumber
    }

    /** `Object.keys(updateData).length > 0`. */
    predicate HasKeys() {
      displayName.Some? || organizationName.Some? || organizationRole.Some? || userPhoneNumber.Some?
      || organizationTaxId.Some? || organizationPhoneNumber.Some? || organizationAddress.Some?
    }
  }

  /** `{}` as an update. */
  const NoUpdate := UpdateData(None, None, None, None, None, None, None)

  /** `profileData?.organizationAddress || {}`. */
  function CurrentAddress(profile: Option<Profile>): Address {
    if profile.None? || profile.value.organizationAddress.None? then EmptyAddress
    else profile.value.organizationAddress.value
  }

  /** The address as the save would write it: `cleanNewAddress` built from
      `formData.organizationAddress || {}`. */
  function NewAddress(form: Profile): Address {
    CleanAddress(form.organizationAddress.GetOr(EmptyAddress))
  }

  /** `Some(x)` exactly when `x` differs from `previous`. */
  function IfChanged<T(==)>(x: T, previous: T): Option<T> {
    if x != previous then Some(x) else None
  }

  /** What a save writes: a scalar key exactly when the form value differs
      from the stored one, with the form's value; the cleaned address exactly
      when it differs from the current one. */
  function UpdateFor(form: Profile, profile: Option<Profile>): (u: UpdateData)
    ensures forall k :: u.Entry(k).Some? <==> form.Scalar(k) != Stored(profile, k)
    ensures forall k :: u.Entry(k).Some? ==> u.Entry(k).value == form.Scalar(k)
    ensures u.organizationAddress.Some? <==> NewAddress(form) != CurrentAddress(profile)
    ensures u.organizationAddress.Some? ==> u.organizationAddress.value == NewAddress(form)
  {
    UpdateData(
      IfChanged(form.displayName, Stored(profile, DisplayName)),
      IfChanged(form.organizationName, Stored(profile, OrganizationName)),
      IfChanged(form.organizationRole, Stored(profile, OrganizationRole)),
      IfChanged(form.userPhoneNumber, Stored(profile, UserPhoneNumber)),
      IfChanged(form.organizationTaxId, Stored(profile, OrganizationTaxId)),
      IfChanged(form.organizationPhoneNumber, Stored(profile, OrganizationPhoneNumber)),
      IfChanged(NewAddress(form), CurrentAddress(profile)))
  }

  /** The construction of `updateData` in `handleSaveChanges`, one key at a
      time. */
  method BuildUpdateData(form: Profile, profile: Option<Profile>) returns (updateData: UpdateData)
    ensures updateData == UpdateFor(form, profile)
  {
    ghost var u := UpdateFor(form, profile);
    updateData := NoUpdate;
    if form.displayName != Stored(profile, DisplayName) {
      updateData := updateData.(displayName := Some(form.displayName));
    }
    assert updateData.displayName == u.displayName;
    if form.organizationName != Stored(profile, OrganizationName) {
      updateData := updateData.(organizationName := Some(form.organizationName));
    }
    assert updateData.organizationName == u.organizationName;
    if form.organizationRole != Stored(profile, OrganizationRole) {
      updateData := updateData.(organizationRole := Some(form.organizationRole));
    }
    assert updateData.organizationRole == u.organizationRole;
    if form.userPhoneNumber != Stored(profile, UserPhoneNumber) {
      updateData := updateData.(userPhoneNumber := Some(form.userPhoneNumber));
    }
    assert updateData.userPhoneNumber == u.userPhoneNumber;
    if form.organizationTaxId != Stored(profile, OrganizationTaxId) {
      updateData := updateData.(organizationTaxId := Some(form.organizationTaxId));
    }
    assert updateData.organizationTaxId == u.organizationTaxId;
    if form.organizationPhoneNumber != Stored(profile, OrganizationPhoneNumber) {
      updateData := updateData.(organizationPhoneNumber := Some(form.organizationPhoneNumber));
    }
    assert updateData.organizationPhoneNumber == u.organizationPhoneNumber;
    var currentAddress := CurrentAddress(profile);
    var cleanNewAddress := NewAddress(form);
    if cleanNewAddress != currentAddress {
      updateData := updateData.(organizationAddress := Some(cleanNewAddress));
    }
    assert updateData.organizationAddress == u.organizationAddress;
  }

  /** `{ ...profileData, ...updateData, organizationAddress: … }` after a
      write: every set key takes its new value, the others keep the stored
      one, and the address is the written one or the current one. */
  function Merge(profile: Option<Profile>, u: UpdateData): (p: Profile)
    ensures forall k :: u.Entry(k).Some? ==> p.Scalar(k) == u.Entry(k).value
    ensures forall k :: u.Entry(k).None? ==> p.Scalar(k) == Stored(profile, k)
    ensures p.organizationAddress == Some(if u.organizationAddress.Some? then u.organizationAddress.value else CurrentAddress(profile))
    ensures p.email == (if profile.None? then None else profile.value.email)
  {
    var base := profile.GetOr(EmptyProfile);
    Profile(
      base.email,
      u.displayName.GetOr(base.displayName),
      u.userPhoneNumber.GetOr(base.userPhoneNumber),
      u.organizationName.GetOr(base.organizationName),
      u.organizationRole.GetOr(base.organizationRole),
      u.organizationTaxId.GetOr(base.organizationTaxId),
      Some(u.organizationAddress.GetOr(CurrentAddress(profile))),
      u.organizationPhoneNumber.GetOr(base.organizationPhoneNumber))
  }

  /** After a save has written its update, saving the same form again
      writes nothing. */
  lemma SaveThenNothingChanged(form: Profile, profile: Option<Profile>)
    ensures !UpdateFor(form, Some(Merge(profile, UpdateFor(form, profile)))).HasKeys()
  {
    var u := UpdateFor(form, profile);
    var p := Merge(profile, u);
    var v := UpdateFor(form, Some(p));
    forall k ensures v.Entry(k).None? {
      assert Stored(Some(p), k) == form.Scalar(k);
    }
    assert v.displayName == v.Entry(DisplayName);
    assert v.organizationName == v.Entry(OrganizationName);
    assert v.organizationRole == v.Entry(OrganizationRole);
    assert v.userPhoneNumber == v.Entry(UserPhoneNumber);
    assert v.organizationTaxId == v.Entry(OrganizationTaxId);
    assert v.organizationPhoneNumber == v.Entry(OrganizationPhoneNumber);
  }

  // ---- Saving ----

  /** What a save leaves behind: the stored profile and the two messages. */
  datatype SaveResult = SaveResult(profileData: Option<Profile>, error: string, success: string)

  const AuthErrorText := "Authentication error. Please log in again."
  const SaveFailedText := "Failed to save profile changes. Please try again."
  const SavedText := "Profile updated successfully!"

  /** Whether the save also updates the signed-in user's display name: the
      form's name is non-empty and differs from `authName`. */
  predicate Renames(form: Profile, authName: Option<string>) {
    Truthy(form.displayName) && form.displayName != authName
  }

  /** The outcome of `handleSaveChanges`, given the labels of the blank
      mandatory values, the update object, the stored profile, whether the
      display name is to change, whether a user is signed in, the result of
      the profile write (made only when the update has keys) and the result
      of the display-name update (made only when `renames`). Blank values
      stop the save first, then a missing user; a failed write stops it
      before the name update. */
  function SaveOutcome(missing: seq<string>, u: UpdateData, profile: Option<Profile>, renames: bool,
                       userPresent: bool, writeOk: bool, authUpdateOk: bool): (r: SaveResult)
    ensures (r.error == "") != (r.success == "")
    ensures r.success != "" ==> r.success == SavedText && missing == [] && userPresent
    ensures r.profileData != profile ==>
      r.profileData == Some(Merge(profile, u)) && missing == [] && userPresent && u.HasKeys() && writeOk
    ensures missing != [] ==> r == SaveResult(profile, MissingFieldsMessage(missing), "")
    ensures missing == [] && userPresent && (u.HasKeys() ==> writeOk) && (renames ==> authUpdateOk) ==>
      r == SaveResult(if u.HasKeys() then Some(Merge(profile, u)) else profile, "", SavedText)
  {
    if missing != [] then SaveResult(profile, MissingFieldsMessage(missing), "")
    else if !userPresent then SaveResult(profile, AuthErrorText, "")
    else if u.HasKeys() && !writeOk then SaveResult(profile, SaveFailedText, "")
    else
      var saved := if u.HasKeys() then Some(Merge(profile, u)) else profile;
      if renames && !authUpdateOk then SaveResult(saved, SaveFailedText, "")
      else SaveResult(saved, "", SavedText)
  }

  /** The save of `form` over the stored `profile`. */
  function SaveForm(form: Profile, profile: Option<Profile>, userPresent: bool, writeOk: bool,
                    authName: Option<string>, authUpdateOk: bool): SaveResult
  {
    SaveOutcome(MissingLabels(MandatoryLabels, Blanks(form)), UpdateFor(form, profile), profile,
                Renames(form, authName), userPresent, writeOk, authUpdateOk)
  }

  /** The save as it stands once validation has been decided: the listing
      error for blank values, the sign-in error without a user, and
      otherwise the write and the name update. */
  lemma SaveFormStages(form: Profile, profile: Option<Profile>, userPresent: bool, writeOk: bool,
                       authName: Option<string>, authUpdateOk: bool, missing: seq<string>)
    requires missing == MissingLabels(MandatoryLabels, Blanks(form))
    ensures missing != [] ==>
      SaveForm(form, profile, userPresent, writeOk, authName, authUpdateOk)
        == SaveResult(profile, MissingFieldsMessage(missing), "")
    ensures missing == [] && !userPresent ==>
      SaveForm(form, profile, userPresent, writeOk, authName, authUpdateOk) == SaveResult(profile, AuthErrorText, "")
    ensures missing == [] && userPresent ==>
      SaveForm(form, profile, userPresent, writeOk, authName, authUpdateOk)
        == SaveOutcome([], UpdateFor(form, profile), profile, Renames(form, authName), true, writeOk, authUpdateOk)
  {
  }

  /** The validation at the start of `handleSaveChanges`: trim and check the
      mandatory values, then check for a signed-in user. A non-empty `err` is
      the message the save stops with; an empty one lets the write go ahead. */
  method Validate(form: Profile, profile: Option<Profile>, userPresent: bool, writeOk: bool,
                  authName: Option<string>, authUpdateOk: bool) returns (err: string)
    ensures err != "" ==> SaveForm(form, profile, userPresent, writeOk, authName, authUpdateOk) == SaveResult(profile, err, "")
    ensures err == "" ==> (
      && userPresent
      && SaveForm(form, profile, userPresent, writeOk, authName, authUpdateOk)
         == SaveOutcome([], UpdateFor(form, profile), profile, Renames(form, authName), true, writeOk, authUpdateOk))
  {
    var missingFields := CollectMissingFields(form);
    SaveFormStages(form, profile, userPresent, writeOk, authName, authUpdateOk, missingFields);
    if |missingFields| > 0 {
      err := MissingFieldsMessage(missingFields);
      assert |err| > 0;
    } else if !userPresent {
      err := AuthErrorText;
    } else {
      err := "";
    }
  }

  /** A save succeeds only for a form without the incompleteness warning,
      and an incomplete form leaves the stored profile as it is. */
  lemma SaveNeedsCompleteForm(form: Profile, profile: Option<Profile>, userPresent: bool, writeOk: bool,
                              authName: Option<string>, authUpdateOk: bool)
    ensures var r := SaveForm(form, profile, userPresent, writeOk, authName, authUpdateOk);
      && (r.success != "" ==> !IsProfileIncomplete(form))
      && (IsProfileIncomplete(form) ==> r.profileData == profile && r.success == "")
  {
    MissingFieldsIffIncomplete(form);
  }

  /** After a save by a signed-in user whose write succeeded, saving the
      same form again leaves the stored profile as it is, whatever the remote
      calls answer. */
  lemma ResaveKeepsProfile(form: Profile, profile: Option<Profile>, authName: Option<string>, authUpdateOk: bool,
                           userPresent': bool, writeOk': bool, authName': Option<string>, authUpdateOk': bool)
    ensures var first := SaveForm(form, profile, true, true, authName, authUpdateOk);
            SaveForm(form, first.profileData, userPresent', writeOk', authName', authUpdateOk').profileData
              == first.profileData
  {
    var missing := MissingLabels(MandatoryLabels, Blanks(form));
    var first := SaveForm(form, profile, true, true, authName, authUpdateOk);
    var u := UpdateFor(form, profile);
    SaveFormStages(form, profile, true, true, authName, authUpdateOk, missing);
    SaveFormStages(form, first.profileData, userPresent', writeOk', authName', authUpdateOk', missing);
    if missing == [] && u.HasKeys() {
      SaveThenNothingChanged(form, profile);
      assert first.profileData == Some(Merge(profile, u));
    } else if missing == [] {
      assert first.profileData == profile;
    }
  }

  // ---- Address from a geocoded place ----

  /** One entry of `address_components`. */
  datatype AddressComponent = AddressComponent(longName: string, types: seq<string>)

  /** `getAddressComponent(type)`: the long name of the first component
      listing the type. */
  function GetAddressComponent(components: seq<AddressComponent>, t: string): (r: Option<string>)
    ensures r.None? <==> forall i :: 0 <= i < |components| ==> t !in components[i].types
  {
    if components == [] then None
    else if t in components[0].types then Some(components[0].longName)
    else GetAddressComponent(components[1..], t)
  }

  /** The component found is the first one that lists the type. */
  lemma {:induction false} GetAddressComponentFirst(components: seq<AddressComponent>, t: string)
    ensures GetAddressComponent(components, t).Some? ==>
      exists i :: 0 <= i < |components| && t in components[i].types
        && components[i].longName == GetAddressComponent(components, t).value
        && forall j :: 0 <= j < i ==> t !in components[j].types
  {
    if components != [] && t !in components[0].types {
      var rest := components[1..];
      GetAddressComponentFirst(rest, t);
      if GetAddressComponent(rest, t).Some? {
        var i :| 0 <= i < |rest| && t in rest[i].types
          && rest[i].longName == GetAddressComponent(rest, t).value
          && forall j :: 0 <= j < i ==> t !in rest[j].types;
        assert components[i + 1] == rest[i];
        forall j | 0 <= j < i + 1 ensures t !in components[j].types {
          if j > 0 { assert components[j] == rest[j - 1]; }
        }
      }
    } else if components != [] {
      assert t in components[0].types;
    }
  }

  /** A template literal's rendering of an optional string. */
  function Interpolate(o: Option<string>): string {
    if o.None? then "undefined" else o.value
  }

  /** `a || b`. */
  function Or(a: Option<string>, b: Option<string>): (r: Option<string>)
    ensures Truthy(a) ==> r == a
    ensures !Truthy(a) ==> r == b
  {
    if Truthy(a) then a else b
  }

  /** The address built from the first geocoding result. */
  function AddressFrom(components: seq<AddressComponent>): (a: Address)
    ensures var n := GetAddressComponent(components, "street_number");
            var route := GetAddressComponent(components, "route");
            a.street == if Truthy(n) then Some(n.value + " " + Interpolate(route)) else route
    ensures var loc := GetAddressComponent(components, "locality");
            var town := GetAddressComponent(components, "postal_town");
            a.city == if Truthy(loc) then loc else if Truthy(town) then town
                      else GetAddressComponent(components, "administrative_area_level_2")
    ensures a.state == GetAddressComponent(components, "administrative_area_level_1")
    ensures a.postalCode == GetAddressComponent(components, "postal_code")
    ensures a.country == GetAddressComponent(components, "country")
  {
    var streetNumber := GetAddressComponent(components, "street_number");
    var route := GetAddressComponent(components, "route");
    Address(
      if Truthy(streetNumber) then Some(streetNumber.value + " " + Interpolate(route)) else route,
      Or(Or(GetAddressComponent(components, "locality"), GetAddressComponent(components, "postal_town")),
         GetAddressComponent(components, "administrative_area_level_2")),
      GetAddressComponent(components, "administrative_area_level_1"),
      GetAddressComponent(components, "postal_code"),
      GetAddressComponent(components, "country"))
  }

  /** A street number without a route gives a street ending in "undefined". */
  lemma StreetWithoutRoute()
    ensures AddressFrom([AddressComponent("12", ["street_number"])]).street == Some("12 undefined")
  {
    var cs := [AddressComponent("12", ["street_number"])];
    assert "street_number" in cs[0].types;
    assert GetAddressComponent(cs, "street_number") == Some("12");
    assert "route" != "street_number";
    assert "route" !in cs[0].types;
    assert cs[1..] == [];
    assert GetAddressComponent(cs, "route") == None;
    assert "12" + " " + "undefined" == "12 undefined";
  }

  /** The selection handed over by the autocomplete widget. */
  datatype Place = Place(text: string, hasValue: bool)

  /** What the geocoder answered for the place's label. */
  datatype Geocode = GeocodeFailed | Geocoded(results: seq<seq<AddressComponent>>)

  /** The form's address after a selection: `{}` on a cleared selection, no
      results or an error, otherwise the address of the first result. */
  function SelectedAddress(place: Option<Place>, geocode: Geocode): (a: Address)
    ensures place.None? || !place.value.hasValue ==> a == EmptyAddress
    ensures geocode.GeocodeFailed? || geocode.results == [] ==> a == EmptyAddress
    ensures place.Some? && place.value.hasValue && geocode.Geocoded? && |geocode.results| > 0 ==>
      a == AddressFrom(geocode.results[0])
  {
    if place.None? || !place.value.hasValue then EmptyAddress
    else match geocode
      case GeocodeFailed => EmptyAddress
      case Geocoded(results) => if |results| > 0 then AddressFrom(results[0]) else EmptyAddress
  }

  /** The editable state of the profile page. */
  class ProfileEditor {
    var profileData: Option<Profile>
    var formData: Profile
    var selectedPlace: Option<Place>
    var error: string
    var success: string

    constructor (profile: Option<Profile>, form: Profile)
      ensures profileData == profile && formData == form
      ensures selectedPlace == None && error == "" && success == ""
    {
      profileData, formData := profile, form;
      selectedPlace := None;
      error, success := "", "";
    }

    /** The incompleteness warning, derived from the stored profile: shown
        exactly when a profile is stored and saving it as it stands would be
        refused for blank mandatory values. */
    function ProfileIsIncomplete(): (r: bool)
      reads this
      ensures r <==> profileData.Some? && MissingLabels(MandatoryLabels, Blanks(profileData.value)) != []
    {
      if profileData.None? then false
      else
        MissingFieldsIffIncomplete(profileData.value);
        IsProfileIncomplete(profileData.value)
    }

    /** `handlePlaceSelect(place)` once the geocoder has answered. */
    method HandlePlaceSelect(place: Option<Place>, geocode: Geocode)
      modifies this
      ensures selectedPlace == place
      ensures formData == old(formData).(organizationAddress := Some(SelectedAddress(place, geocode)))
      ensures error == (if place.Some? && place.value.hasValue && geocode.Geocoded? && |geocode.results| > 0
                        then "" else old(error))
      ensures profileData == old(profileData) && success == old(success)
    {
      selectedPlace := place;
      if place.None? || !place.value.hasValue {
        formData := formData.(organizationAddress := Some(EmptyAddress));
        return;
      }
      match geocode {
        case GeocodeFailed =>
          formData := formData.(organizationAddress := Some(EmptyAddress));
        case Geocoded(results) =>
          if |results| > 0 {
            var newAddress := AddressFrom(results[0]);
            formData := formData.(organizationAddress := Some(newAddress));
            error := "";
          } else {
            formData := formData.(organizationAddress := Some(EmptyAddress));
          }
      }
    }

    /** `handleSaveChanges` once the remote calls have answered (the
        parameters as in `SaveForm`). */
    method HandleSaveChanges(userPresent: bool, writeOk: bool, authName: Option<string>, authUpdateOk: bool)
      modifies this
      ensures formData == old(formData) && selectedPlace == old(selectedPlace)
      ensures SaveResult(profileData, error, success)
        == SaveForm(old(formData), old(profileData), userPresent, writeOk, authName, authUpdateOk)
    {
      var err := Validate(formData, profileData, userPresent, writeOk, authName, authUpdateOk);
      error := "";
      success := "";
      if err != "" {
        error := err;
        return;
      }
      ApplyUpdate(writeOk, authName, authUpdateOk);
    }

    /** The part of `handleSaveChanges` after validation: the write of the
        changed fields, then the display-name update, then the success
        message. */
    method ApplyUpdate(writeOk: bool, authName: Option<string>, authUpdateOk: bool)
      requires error == "" && success == ""
      modifies this
      ensures formData == old(formData) && selectedPlace == old(selectedPlace)
      ensures SaveResult(profileData, error, success)
        == SaveOutcome([], UpdateFor(old(formData), old(profileData)), old(profileData),
                       Renames(old(formData), authName), true, writeOk, authUpdateOk)
    {
      var updateData := BuildUpdateData(formData, profileData);
      if updateData.HasKeys() {
        if !writeOk {
          error := SaveFailedText;
          return;
        }
        profileData := Some(Merge(profileData, updateData));
      }
      if Truthy(formData.displayName) && formData.displayName != authName {
        if !authUpdateOk {
          error := SaveFailedText;
          return;
        }
      }
      success := SavedText;
    }
  }
}
