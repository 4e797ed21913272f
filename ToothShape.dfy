/** One tooth button of the dental chart (src/components/ToothShape.tsx):
    its ring colour, its highlight, its kind (which picture is shown), its
    rotation and whether it is disabled. The component is a pure function of
    its properties; `allSelectedTeeth` and `shouldDisableTooth` are explicit
    parameters here. */
module ToothShape {
  import opened Wrappers
  import opened Dental
  import PatientForm

  /** `getConditionColor(conditionType)`. */
  function ConditionColor(conditionType: string): string {
    if conditionType == "cavity" then "ring-red-500"
    else if conditionType == "rootCanal" then "ring-blue-500"
    else if conditionType == "implant" then "ring-purple-500"
    else if conditionType == "extraction" then "ring-orange-500"
    else if conditionType == "missing" then "ring-gray-500"
    else if conditionType == "treated" then "ring-green-500"
    else if conditionType == "existingImplant" then "ring-yellow-500"
    else if conditionType == "amalgam" then "ring-indigo-500"
    else if conditionType == "broken" then "ring-pink-500"
    else if conditionType == "crown" then "ring-teal-500"
    else ""
  }

  /** The condition a ring class belongs to, if any. */
  function ColorCondition(ring: string): Option<Condition> {
    if ring == "ring-red-500" then Some(Cavity)
    else if ring == "ring-blue-500" then Some(RootCanal)
    else if ring == "ring-purple-500" then Some(Implant)
    else if ring == "ring-orange-500" then Some(Extraction)
    else if ring == "ring-gray-500" then Some(Missing)
    else if ring == "ring-green-500" then Some(Treated)
    else if ring == "ring-yellow-500" then Some(ExistingImplant)
    else if ring == "ring-indigo-500" then Some(Amalgam)
    else if ring == "ring-pink-500" then Some(Broken)
    else if ring == "ring-teal-500" then Some(Crown)
    else None
  }

  /** Every condition's key gets a non-empty ring class that identifies
      the condition. */
  lemma ConditionColorIdentifies(c: Condition)
    ensures ConditionColor(Key(c)) != ""
    ensures ColorCondition(ConditionColor(Key(c))) == Some(c)
  {
  }

  /** Different conditions get different ring classes. */
  lemma ConditionColorsDistinct(c: Condition, d: Condition)
    requires c != d
    ensures ConditionColor(Key(c)) != ConditionColor(Key(d))
  {
    ConditionColorIdentifies(c);
    ConditionColorIdentifies(d);
  }

  /** A string that is no condition's key gets no ring class. */
  lemma UnknownConditionUncoloured(s: string)
    requires ParseKey(s).None?
    ensures ConditionColor(s) == ""
  {
  }

  /** The order in which an unselected tooth's lists are consulted. */
  const HighlightOrder: seq<Condition> :=
    [Cavity, RootCanal, Implant, Extraction, Missing, Treated, ExistingImplant, Amalgam, Broken, Crown]

  /** Every condition is consulted, and exactly once. */
  lemma HighlightOrderIsEnumeration(c: Condition)
    ensures multiset(HighlightOrder)[c] == 1
  {
  }

  /** `getToothHighlight()`. */
  function ToothHighlight(selected: bool, condition: string, number: Tooth, all: AffectedTeeth): string {
    if selected then "ring-4 ring-offset-2 " + ConditionColor(condition)
    else if number in all.cavity then "ring-2 " + ConditionColor("cavity")
    else if number in all.rootCanal then "ring-2 " + ConditionColor("rootCanal")
    else if number in all.implant then "ring-2 " + ConditionColor("implant")
    else if number in all.extraction then "ring-2 " + ConditionColor("extraction")
    else if number in all.missing then "ring-2 " + ConditionColor("missing")
    else if number in all.treated then "ring-2 " + ConditionColor("treated")
    else if number in all.existingImplant then "ring-2 " + ConditionColor("existingImplant")
    else if number in all.amalgam then "ring-2 " + ConditionColor("amalgam")
    else if number in all.broken then "ring-2 " + ConditionColor("broken")
    else if number in all.crown then "ring-2 " + ConditionColor("crown")
    else ""
  }

  /** The first condition of `order` whose list holds `number`. */
  function FirstListing(order: seq<Condition>, all: AffectedTeeth, number: Tooth): (r: Option<Condition>)
    ensures r.Some? ==> r.value in order && number in all.Get(r.value)
    ensures r.None? <==> forall i :: 0 <= i < |order| ==> number !in all.Get(order[i])
  {
    if order == [] then None
    else if number in all.Get(order[0]) then Some(order[0])
    else FirstListing(order[1..], all, number)
  }

  /** What `FirstListing` finds sits at a position of `order` no earlier
      entry of which lists `number`. */
  lemma {:induction false} FirstListingIsFirst(order: seq<Condition>, all: AffectedTeeth, number: Tooth)
    ensures FirstListing(order, all, number).Some? ==>
      exists i :: 0 <= i < |order| && order[i] == FirstListing(order, all, number).value
        && forall j :: 0 <= j < i ==> number !in all.Get(order[j])
  {
    if order != [] && number !in all.Get(order[0]) {
      var r := FirstListing(order[1..], all, number);
      FirstListingIsFirst(order[1..], all, number);
      if r.Some? {
        var i :| 0 <= i < |order[1..]| && order[1..][i] == r.value
          && forall j :: 0 <= j < i ==> number !in all.Get(order[1..][j]);
        assert order[i + 1] == r.value;
        forall j | 0 <= j < i + 1 ensures number !in all.Get(order[j]) {
          if j > 0 { assert order[j] == order[1..][j - 1]; }
        }
      }
    } else if order != [] {
      assert order[0] == FirstListing(order, all, number).value;
    }
  }

  /** A selected tooth carries the current condition's colour whatever the
      other lists hold; an unselected one carries the colour of the first
      condition, in `HighlightOrder`, whose list has it, or nothing. */
  lemma {:induction false} HighlightPriority(selected: bool, condition: string, number: Tooth, all: AffectedTeeth)
    ensures selected ==> ToothHighlight(selected, condition, number, all) == "ring-4 ring-offset-2 " + ConditionColor(condition)
    ensures !selected ==>
      ToothHighlight(selected, condition, number, all) ==
        (match FirstListing(HighlightOrder, all, number)
         case Some(c) => "ring-2 " + ConditionColor(Key(c))
         case None => "")
  {
    var o0 := HighlightOrder;
    var o1 := o0[1..];
    assert o1 == [RootCanal, Implant, Extraction, Missing, Treated, ExistingImplant, Amalgam, Broken, Crown];
    var o2 := o1[1..];
    assert o2 == [Implant, Extraction, Missing, Treated, ExistingImplant, Amalgam, Broken, Crown];
    var o3 := o2[1..];
    assert o3 == [Extraction, Missing, Treated, ExistingImplant, Amalgam, Broken, Crown];
    var o4 := o3[1..];
    assert o4 == [Missing, Treated, ExistingImplant, Amalgam, Broken, Crown];
    var o5 := o4[1..];
    assert o5 == [Treated, ExistingImplant, Amalgam, Broken, Crown];
    var o6 := o5[1..];
    assert o6 == [ExistingImplant, Amalgam, Broken, Crown];
    var o7 := o6[1..];
    assert o7 == [Amalgam, Broken, Crown];
    var o8 := o7[1..];
    assert o8 == [Broken, Crown];
    var o9 := o8[1..];
    assert o9 == [Crown];
    var o10 := o9[1..];
    assert o10 == [];
    assert FirstListing(o10, all, number) == None;
    assert FirstListing(o9, all, number) == if number in all.crown then Some(Crown) else None;
    assert FirstListing(o8, all, number) == if number in all.broken then Some(Broken) else FirstListing(o9, all, number);
    assert FirstListing(o7, all, number) == if number in all.amalgam then Some(Amalgam) else FirstListing(o8, all, number);
    assert FirstListing(o6, all, number) == if number in all.existingImplant then Some(ExistingImplant) else FirstListing(o7, all, number);
    assert FirstListing(o5, all, number) == if number in all.treated then Some(Treated) else FirstListing(o6, all, number);
    assert FirstListing(o4, all, number) == if number in all.missing then Some(Missing) else FirstListing(o5, all, number);
    assert FirstListing(o3, all, number) == if number in all.extraction then Some(Extraction) else FirstListing(o4, all, number);
    assert FirstListing(o2, all, number) == if number in all.implant then Some(Implant) else FirstListing(o3, all, number);
    assert FirstListing(o1, all, number) == if number in all.rootCanal then Some(RootCanal) else FirstListing(o2, all, number);
    assert FirstListing(o0, all, number) == if number in all.cavity then Some(Cavity) else FirstListing(o1, all, number);
  }

  // ---- Tooth kinds ----

  /** `n` has one of the four quadrants as its tens digit. */
  predicate InChart(n: Tooth) {
    1 <= n / 10 <= 4
  }

  /** The six kind lists. Each is, in all four quadrants, the teeth at
      the positions stated in its `ensures`. */
  predicate IsMolar(n: Tooth): (b: bool)
    ensures b <==> InChart(n) && (n % 10 == 6 || n % 10 == 8)
  {
    n in [18, 16, 48, 46, 28, 26, 38, 36]
  }

  predicate IsPremolar(n: Tooth): (b: bool)
    ensures b <==> InChart(n) && n % 10 == 4
  {
    n in [14, 24, 34, 44]
  }

  predicate IsFirstPremolar(n: Tooth): (b: bool)
    ensures b <==> InChart(n) && n % 10 == 7
  {
    n in [27, 37, 47, 17]
  }

  predicate IsSecondPremolar(n: Tooth): (b: bool)
    ensures b <==> InChart(n) && n % 10 == 5
  {
    n in [15, 25, 35, 45]
  }

  predicate IsCanine(n: Tooth): (b: bool)
    ensures b <==> InChart(n) && n % 10 == 3
  {
    n in [13, 23, 33, 43]
  }

  predicate IsIncisor(n: Tooth): (b: bool)
    ensures b <==> InChart(n) && (n % 10 == 1 || n % 10 == 2)
  {
    n in [12, 11, 21, 22, 42, 41, 31, 32]
  }

  /** How many of the six kinds `n` belongs to. */
  function KindCount(n: Tooth): nat {
    (if IsMolar(n) then 1 else 0) + (if IsPremolar(n) then 1 else 0)
    + (if IsFirstPremolar(n) then 1 else 0) + (if IsSecondPremolar(n) then 1 else 0)
    + (if IsCanine(n) then 1 else 0) + (if IsIncisor(n) then 1 else 0)
  }

  /** `getToothImage()`. */
  function ToothImage(n: Tooth): string {
    if IsMolar(n) then "https://i.imgur.com/VHcT1Ac.png"
    else if IsPremolar(n) then "https://i.imgur.com/67sP1Ws.png"
    else if IsFirstPremolar(n) then "https://i.imgur.com/neFsMtv.png"
    else if IsSecondPremolar(n) then "https://i.imgur.com/db6cUGn.png"
    else if IsCanine(n) then "https://i.imgur.com/UL2pHlK.png"
    else if IsIncisor(n) then "https://i.imgur.com/FFu224p.png"
    else ""
  }

  /** The six kind lists never overlap. */
  lemma KindsDisjoint(n: Tooth)
    ensures KindCount(n) <= 1
  {
  }

  /** A tooth's kind is fixed by its position in the quadrant: 1 and 2 are
      incisors, 3 canines, 4, 5 and 7 the three premolar pictures, 6 and 8
      molars; so every tooth of the four quadrants has a picture. */
  lemma KindByPosition(q: int, p: int)
    requires 1 <= q <= 4 && 1 <= p <= 8
    ensures KindCount(PatientForm.FdiNumber(q, p)) == 1
    ensures IsIncisor(PatientForm.FdiNumber(q, p)) <==> p <= 2
    ensures IsCanine(PatientForm.FdiNumber(q, p)) <==> p == 3
    ensures IsPremolar(PatientForm.FdiNumber(q, p)) <==> p == 4
    ensures IsSecondPremolar(PatientForm.FdiNumber(q, p)) <==> p == 5
    ensures IsFirstPremolar(PatientForm.FdiNumber(q, p)) <==> p == 7
    ensures IsMolar(PatientForm.FdiNumber(q, p)) <==> p == 6 || p == 8
    ensures ToothImage(PatientForm.FdiNumber(q, p)) != ""
  {
  }

  /** A picture is shown exactly for teeth of one of the six kinds. */
  lemma ImageIffKind(n: Tooth)
    ensures ToothImage(n) != "" <==> KindCount(n) == 1
  {
    KindsDisjoint(n);
    assert ToothImage(n) != "" <==> KindCount(n) >= 1;
  }

  /** The teeth that are drawn turned over in the upper row. */
  const UpperRotated: seq<Tooth> := [15, 14, 13, 23, 24, 25, 35, 34, 33, 43, 44, 45, 47, 37, 17, 27]

  /** `getRotationClass()`. */
  function RotationClass(n: Tooth, isUpper: bool): string {
    if n in UpperRotated then (if isUpper then "rotate-180" else "")
    else (if isUpper then "" else "rotate-180")
  }

  /** Every tooth is turned over in exactly one of the two rows: the listed
      teeth in the upper row, the others in the lower row. */
  lemma RotationExactlyOneRow(n: Tooth)
    ensures (RotationClass(n, true) == "rotate-180") != (RotationClass(n, false) == "rotate-180")
    ensures RotationClass(n, true) == "rotate-180" <==> n in UpperRotated
  {
  }

  /** What one tooth button shows. */
  datatype ToothView = ToothView(
    disabled: bool,
    selectedRing: string,
    highlight: string,
    cursor: string,
    rotation: string,
    image: string)

  /** The rendered button. The selected ring is emitted twice, once on its own
      and once as part of the highlight. */
  function RenderTooth(number: Tooth, selected: bool, condition: string, isUpper: bool,
                       all: AffectedTeeth, shouldDisableTooth: Tooth -> bool): (v: ToothView)
    ensures v.disabled <==> shouldDisableTooth(number)
    ensures v.cursor == (if shouldDisableTooth(number) then "opacity-50 cursor-not-allowed" else "cursor-pointer")
    ensures selected ==> v.selectedRing == v.highlight
    ensures !selected ==> v.selectedRing == ""
  {
    var isDisabled := shouldDisableTooth(number);
    ToothView(
      isDisabled,
      if selected then "ring-4 ring-offset-2 " + ConditionColor(condition) else "",
      ToothHighlight(selected, condition, number, all),
      if isDisabled then "opacity-50 cursor-not-allowed" else "cursor-pointer",
      RotationClass(number, isUpper),
      ToothImage(number))
  }
}
