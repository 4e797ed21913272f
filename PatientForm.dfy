/** The patient intake form's state and its updates
    (src/components/PatientForm.tsx): the four free-text lists with their
    draft inputs, the per-condition tooth lists, which tooth selector is
    shown, and the reset after a successful submission. */
module PatientForm {
  import opened Wrappers
  import opened Strings
  import opened Dental

  /** The form record. The ten `has...`/`needs...` fields hold the answer of
      a yes/no radio group ("yes", "no", or "" when unanswered). */
  datatype Form = Form(
    name: string, gender: string, dateOfBirth: string,
    medicines: seq<string>,
    hasCavity: string, needsRootCanal: string, needsImplant: string,
    needsExtraction: string, missingTooth: string, rootTreated: string,
    existingImplant: string, hasAmalgam: string, hasBrokenTeeth: string,
    hasCrown: string,
    affectedTeeth: AffectedTeeth,
    medicalConditions: seq<string>, previousSurgeries: seq<string>, allergies: seq<string>)
  {
    /** The yes/no answer that controls a condition's tooth selector. */
    function Flag(c: Condition): string {
      match c
      case Cavity => hasCavity
      case RootCanal => needsRootCanal
      case Implant => needsImplant
      case Extraction => needsExtraction
      case Missing => missingTooth
      case Treated => rootTreated
      case ExistingImplant => existingImplant
      case Amalgam => hasAmalgam
      case Broken => hasBrokenTeeth
      case Crown => hasCrown
    }
  }

  const InitialForm := Form("", "", "", [], "", "", "", "", "", "", "", "", "", "", NoTeeth, [], [], [])

  /** The charted teeth, left to right as drawn. */
  const UpperTeeth: seq<Tooth> := [18, 17, 16, 15, 14, 13, 12, 11, 21, 22, 23, 24, 25, 26, 27, 28]
  const LowerTeeth: seq<Tooth> := [48, 47, 46, 45, 44, 43, 42, 41, 31, 32, 33, 34, 35, 36, 37, 38]

  /** FDI tooth number from quadrant (1 upper right, 2 upper left, 3 lower
      left, 4 lower right) and position from the midline (1 to 8). */
  function FdiNumber(quadrant: int, position: int): Tooth {
    10 * quadrant + position
  }

  predicate Distinct(s: seq<Tooth>) {
    forall i, j :: 0 <= i < j < |s| ==> s[i] != s[j]
  }

  /** `t` is a tooth of quadrant `q`: FDI number `q` followed by a position 1 to 8. */
  predicate InQuadrant(t: Tooth, q: int) {
    t / 10 == q && 1 <= t % 10 <= 8
  }

  /** `s` holds exactly the sixteen teeth of the quadrants `q1` and `q2`,
      each once. */
  predicate ChartsQuadrants(s: seq<Tooth>, q1: int, q2: int) {
    && |s| == 16
    && Distinct(s)
    && (forall i :: 0 <= i < |s| ==> InQuadrant(s[i], q1) || InQuadrant(s[i], q2))
    && (forall p :: 1 <= p <= 8 ==> FdiNumber(q1, p) in s && FdiNumber(q2, p) in s)
  }

  /** The upper row's closed form: 18 down to 11, then 21 up to 28. */
  lemma UpperTeethAt(i: int)
    requires 0 <= i < 16
    ensures UpperTeeth[i] == if i < 8 then FdiNumber(1, 8 - i) else FdiNumber(2, i - 7)
  {
  }

  /** The lower row's closed form: 48 down to 41, then 31 up to 38. */
  lemma LowerTeethAt(i: int)
    requires 0 <= i < 16
    ensures LowerTeeth[i] == if i < 8 then FdiNumber(4, 8 - i) else FdiNumber(3, i - 7)
  {
  }

  /** The upper row holds each tooth of quadrants 1 and 2 once. */
  lemma UpperRow()
    ensures ChartsQuadrants(UpperTeeth, 1, 2)
  {
    forall i | 0 <= i < 16 ensures InQuadrant(UpperTeeth[i], 1) || InQuadrant(UpperTeeth[i], 2) {
      UpperTeethAt(i);
    }
    forall i, j | 0 <= i < j < 16 ensures UpperTeeth[i] != UpperTeeth[j] {
      UpperTeethAt(i);
      UpperTeethAt(j);
    }
    forall p | 1 <= p <= 8 ensures FdiNumber(1, p) in UpperTeeth && FdiNumber(2, p) in UpperTeeth {
      UpperTeethAt(8 - p);
      UpperTeethAt(p + 7);
    }
  }

  /** The lower row holds each tooth of quadrants 4 and 3 once. */
  lemma LowerRow()
    ensures ChartsQuadrants(LowerTeeth, 4, 3)
  {
    forall i | 0 <= i < 16 ensures InQuadrant(LowerTeeth[i], 4) || InQuadrant(LowerTeeth[i], 3) {
      LowerTeethAt(i);
    }
    forall i, j | 0 <= i < j < 16 ensures LowerTeeth[i] != LowerTeeth[j] {
      LowerTeethAt(i);
      LowerTeethAt(j);
    }
    forall p | 1 <= p <= 8 ensures FdiNumber(4, p) in LowerTeeth && FdiNumber(3, p) in LowerTeeth {
      LowerTeethAt(8 - p);
      LowerTeethAt(p + 7);
    }
  }

  /** No tooth is charted in both rows. */
  lemma RowsDisjoint()
    ensures forall t :: t in UpperTeeth ==> t !in LowerTeeth
  {
    forall i, j | 0 <= i < 16 && 0 <= j < 16 ensures UpperTeeth[i] != LowerTeeth[j] {
      UpperTeethAt(i);
      LowerTeethAt(j);
    }
  }

  // ---- The free-text lists ----

  /** `list.filter((_, i) => i !== index)`. */
  function RemoveAt(list: seq<string>, index: int): (r: seq<string>)
    ensures 0 <= index < |list| ==> r == list[..index] + list[index + 1..]
    ensures !(0 <= index < |list|) ==> r == list
  {
    if list == [] then []
    else (if index == 0 then [] else [list[0]]) + RemoveAt(list[1..], index - 1)
  }

  function RemoveMedicine(f: Form, index: int): (g: Form)
    ensures g.medicines == RemoveAt(f.medicines, index)
    ensures g.(medicines := f.medicines) == f
  {
    f.(medicines := RemoveAt(f.medicines, index))
  }

  function RemoveCondition(f: Form, index: int): (g: Form)
    ensures g.medicalConditions == RemoveAt(f.medicalConditions, index)
    ensures g.(medicalConditions := f.medicalConditions) == f
  {
    f.(medicalConditions := RemoveAt(f.medicalConditions, index))
  }

  function RemoveSurgery(f: Form, index: int): (g: Form)
    ensures g.previousSurgeries == RemoveAt(f.previousSurgeries, index)
    ensures g.(previousSurgeries := f.previousSurgeries) == f
  {
    f.(previousSurgeries := RemoveAt(f.previousSurgeries, index))
  }

  function RemoveAllergy(f: Form, index: int): (g: Form)
    ensures g.allergies == RemoveAt(f.allergies, index)
    ensures g.(allergies := f.allergies) == f
  {
    f.(allergies := RemoveAt(f.allergies, index))
  }

  // ---- Tooth selection ----

  /** `teeth.filter(t => t !== tooth)`: every occurrence of `tooth` goes, the
      rest keep their order and multiplicity. */
  function Without(teeth: seq<Tooth>, tooth: Tooth): (r: seq<Tooth>)
    ensures tooth !in r
    ensures multiset(r) == multiset(teeth)[tooth := 0]
    ensures tooth !in teeth ==> r == teeth
  {
    if teeth == [] then []
    else
      assert teeth == [teeth[0]] + teeth[1..];
      (if teeth[0] == tooth then [] else [teeth[0]]) + Without(teeth[1..], tooth)
  }

  lemma {:induction false} WithoutAppend(a: seq<Tooth>, b: seq<Tooth>, tooth: Tooth)
    ensures Without(a + b, tooth) == Without(a, tooth) + Without(b, tooth)
  {
    if a == [] {
      assert a + b == b;
    } else {
      assert (a + b)[0] == a[0];
      assert (a + b)[1..] == a[1..] + b;
      WithoutAppend(a[1..], b, tooth);
    }
  }

  /** The tooth-list update of a click: remove the tooth if listed, else append it. */
  function Toggle(teeth: seq<Tooth>, tooth: Tooth): seq<Tooth> {
    if tooth in teeth then Without(teeth, tooth) else teeth + [tooth]
  }

  /** A click flips the clicked tooth's membership and no other tooth's. */
  lemma ToggleMembership(teeth: seq<Tooth>, tooth: Tooth)
    ensures tooth in Toggle(teeth, tooth) <==> tooth !in teeth
    ensures forall t :: t != tooth ==> (t in Toggle(teeth, tooth) <==> t in teeth)
  {
    if tooth in teeth {
      forall t | t != tooth ensures t in Toggle(teeth, tooth) <==> t in teeth {
        assert multiset(Toggle(teeth, tooth))[t] == multiset(teeth)[t];
      }
    }
  }

  /** Clicking a tooth that was not listed twice restores the list. */
  lemma ToggleTwice(teeth: seq<Tooth>, tooth: Tooth)
    requires tooth !in teeth
    ensures Toggle(Toggle(teeth, tooth), tooth) == teeth
  {
    WithoutAppend(teeth, [tooth], tooth);
    assert Without([tooth], tooth) == [];
  }

  /** A list without repeats stays without repeats. */
  lemma ToggleKeepsDistinct(teeth: seq<Tooth>, tooth: Tooth)
    requires Distinct(teeth)
    ensures Distinct(Toggle(teeth, tooth))
  {
    var r := Toggle(teeth, tooth);
    if tooth in teeth {
      forall t | t in multiset(r) ensures multiset(r)[t] <= 1 {
        DistinctCount(teeth, t);
      }
      CountAtMostOneDistinct(r);
    }
  }

  lemma {:induction false} DistinctCount(s: seq<Tooth>, t: Tooth)
    requires Distinct(s)
    ensures multiset(s)[t] <= 1
  {
    if s != [] {
      assert s == [s[0]] + s[1..];
      DistinctCount(s[1..], t);
      if s[0] == t {
        assert t !in s[1..];
      }
    }
  }

  lemma {:induction false} CountAtMostOneDistinct(s: seq<Tooth>)
    requires forall t :: t in multiset(s) ==> multiset(s)[t] <= 1
    ensures Distinct(s)
  {
    if s != [] {
      assert s == [s[0]] + s[1..];
      forall t | t in multiset(s[1..]) ensures multiset(s[1..])[t] <= 1 {
        assert multiset(s)[t] == multiset([s[0]])[t] + multiset(s[1..])[t];
      }
      CountAtMostOneDistinct(s[1..]);
      assert s[0] !in s[1..] by {
        assert multiset(s)[s[0]] == 1 + multiset(s[1..])[s[0]];
      }
      forall i, j | 0 <= i < j < |s| ensures s[i] != s[j] {
        if i == 0 {
          assert s[j] == s[1..][j - 1];
        } else {
          assert s[i] == s[1..][i - 1] && s[j] == s[1..][j - 1];
        }
      }
    }
  }

  /** `toggleTooth(tooth, condition)`: only that condition's list changes, by `Toggle`. */
  function ToggleTooth(f: Form, tooth: Tooth, c: Condition): (g: Form)
    ensures g.affectedTeeth.Get(c) == Toggle(f.affectedTeeth.Get(c), tooth)
    ensures forall d :: d != c ==> g.affectedTeeth.Get(d) == f.affectedTeeth.Get(d)
    ensures g.(affectedTeeth := f.affectedTeeth) == f
  {
    f.(affectedTeeth := f.affectedTeeth.With(c, Toggle(f.affectedTeeth.Get(c), tooth)))
  }

  /** `showSelector()` of the selector for the condition named `key`. */
  function ShowSelector(f: Form, key: string): bool {
    match ParseKey(key)
    case Some(c) => f.Flag(c) == "yes"
    case None => false
  }

  /** A condition's selector is shown exactly when its answer is "yes"; a name
      that is not a condition's key never shows one. */
  lemma ShowSelectorIff(f: Form, key: string)
    ensures ShowSelector(f, key) <==> exists c: Condition :: Key(c) == key && f.Flag(c) == "yes"
  {
    if exists c: Condition :: Key(c) == key && f.Flag(c) == "yes" {
      var c: Condition :| Key(c) == key && f.Flag(c) == "yes";
      ParseKeyRoundTrip(c);
    }
  }

  // ---- The component ----

  datatype MessageKind = Success | Error
  datatype Message = Message(kind: MessageKind, text: string)

  /** Result of the database insert of a submission. */
  datatype InsertOutcome = Inserted | InsertFailed(errorMessage: string)

  /** The draft submitted by an "add" button: the trimmed draft, when it is not empty. */
  function AcceptedEntry(draft: string): (r: Option<string>)
    ensures r.Some? <==> exists k :: 0 <= k < |draft| && !IsWhitespace(draft[k])
    ensures r.Some? ==> r.value == Trim(draft)
  {
    TrimEmptyIff(draft);
    if Trim(draft) != "" then Some(Trim(draft)) else None
  }

  class PatientFormState {
    var form: Form
    var message: Option<Message>
    var newMedicine: string
    var newCondition: string
    var newSurgery: string
    var newAllergy: string

    constructor ()
      ensures form == InitialForm && message == None
      ensures newMedicine == newCondition == newSurgery == newAllergy == ""
    {
      form := InitialForm;
      message := None;
      newMedicine, newCondition, newSurgery, newAllergy := "", "", "", "";
    }

    method AddMedicine()
      modifies this
      ensures AcceptedEntry(old(newMedicine)).Some? ==>
        form == old(form).(medicines := old(form.medicines) + [AcceptedEntry(old(newMedicine)).value]) && newMedicine == ""
      ensures AcceptedEntry(old(newMedicine)).None? ==> form == old(form) && newMedicine == old(newMedicine)
      ensures message == old(message)
      ensures newCondition == old(newCondition) && newSurgery == old(newSurgery) && newAllergy == old(newAllergy)
    {
      if Trim(newMedicine) != "" {
        form := form.(medicines := form.medicines + [Trim(newMedicine)]);
        newMedicine := "";
      }
    }

    method AddCondition()
      modifies this
      ensures AcceptedEntry(old(newCondition)).Some? ==>
        form == old(form).(medicalConditions := old(form.medicalConditions) + [AcceptedEntry(old(newCondition)).value]) && newCondition == ""
      ensures AcceptedEntry(old(newCondition)).None? ==> form == old(form) && newCondition == old(newCondition)
      ensures message == old(message)
      ensures newMedicine == old(newMedicine) && newSurgery == old(newSurgery) && newAllergy == old(newAllergy)
    {
      if Trim(newCondition) != "" {
        form := form.(medicalConditions := form.medicalConditions + [Trim(newCondition)]);
        newCondition := "";
      }
    }

    method AddSurgery()
      modifies this
      ensures AcceptedEntry(old(newSurgery)).Some? ==>
        form == old(form).(previousSurgeries := old(form.previousSurgeries) + [AcceptedEntry(old(newSurgery)).value]) && newSurgery == ""
      ensures AcceptedEntry(old(newSurgery)).None? ==> form == old(form) && newSurgery == old(newSurgery)
      ensures message == old(message)
      ensures newMedicine == old(newMedicine) && newCondition == old(newCondition) && newAllergy == old(newAllergy)
    {
      if Trim(newSurgery) != "" {
        form := form.(previousSurgeries := form.previousSurgeries + [Trim(newSurgery)]);
        newSurgery := "";
      }
    }

    method AddAllergy()
      modifies this
      ensures AcceptedEntry(old(newAllergy)).Some? ==>
        form == old(form).(allergies := old(form.allergies) + [AcceptedEntry(old(newAllergy)).value]) && newAllergy == ""
      ensures AcceptedEntry(old(newAllergy)).None? ==> form == old(form) && newAllergy == old(newAllergy)
      ensures message == old(message)
      ensures newMedicine == old(newMedicine) && newCondition == old(newCondition) && newSurgery == old(newSurgery)
    {
      if Trim(newAllergy) != "" {
        form := form.(allergies := form.allergies + [Trim(newAllergy)]);
        newAllergy := "";
      }
    }

    /** The submit handler after the insert has answered: on success a
        confirmation and a fresh form, on failure the error text and the form
        as it was. */
    method HandleSubmit(outcome: InsertOutcome)
      modifies this
      ensures outcome.Inserted? ==>
        form == InitialForm && message == Some(Message(Success, "Patient data saved successfully!"))
      ensures outcome.InsertFailed? ==>
        form == old(form) && message == Some(Message(Error, outcome.errorMessage))
      ensures newMedicine == old(newMedicine) && newCondition == old(newCondition)
      ensures newSurgery == old(newSurgery) && newAllergy == old(newAllergy)
    {
      match outcome
      case Inserted =>
        message := Some(Message(Success, "Patient data saved successfully!"));
        form := InitialForm;
      case InsertFailed(text) =>
        message := Some(Message(Error, text));
    }
  }

  /** After the reset no tooth selector is shown and every list is empty. */
  lemma InitialFormIsBlank(key: string)
    ensures !ShowSelector(InitialForm, key)
    ensures forall c :: InitialForm.affectedTeeth.Get(c) == []
  {
  }
}
