/** The user-management table of the admin area
    (src/components/AdminUsers.tsx): role toggling, the per-user patient
    lists, the expansion toggles, deletion of a submission and the dental
    summary of a patient. Firestore reads, writes and deletes are outside the
    model; their outcomes are parameters. */
module AdminUsers {
  import opened Wrappers
  import opened Strings
  import opened Dental

  /** A registered user; the fields the table does not change are carried
      as they are. */
  datatype User = User(id: string, email: string, displayName: string, role: string, createdAt: string)

  /** A submitted patient record, as far as the table uses it. */
  datatype Patient = Patient(id: string, name: string, userId: string)

  // ---- Roles ----

  /** The role a toggle writes: `currentRole === 'admin' ? 'user' : 'admin'`. */
  function NewRole(currentRole: string): (r: string)
    ensures r == "user" || r == "admin"
  {
    if currentRole == "admin" then "user" else "admin"
  }

  /** Toggling twice restores `admin` and `user`, and no other role: a third
      role is toggled to `admin` and then to `user`. */
  lemma NewRoleTwice(role: string)
    ensures role == "admin" || role == "user" <==> NewRole(NewRole(role)) == role
    ensures NewRole(role) == "user" <==> role == "admin"
  {
  }

  /** `users.map(user => user.id === userId ? { ...user, role: newRole } : user)`. */
  function UpdateRole(users: seq<User>, userId: string, newRole: string): (r: seq<User>)
    ensures |r| == |users|
    ensures forall i :: 0 <= i < |users| && users[i].id == userId ==> r[i] == users[i].(role := newRole)
    ensures forall i :: 0 <= i < |users| && users[i].id != userId ==> r[i] == users[i]
  {
    if users == [] then []
    else
      var rest := UpdateRole(users[1..], userId, newRole);
      assert forall i :: 1 <= i < |users| ==> users[i] == users[1..][i - 1];
      [if users[0].id == userId then users[0].(role := newRole) else users[0]] + rest
  }

  /** An update keeps every id in place, and updating again with the same
      role changes nothing. */
  lemma UpdateRoleStable(users: seq<User>, userId: string, newRole: string)
    ensures forall i :: 0 <= i < |users| ==> UpdateRole(users, userId, newRole)[i].id == users[i].id
    ensures UpdateRole(UpdateRole(users, userId, newRole), userId, newRole) == UpdateRole(users, userId, newRole)
  {
    var once := UpdateRole(users, userId, newRole);
    var twice := UpdateRole(once, userId, newRole);
    assert forall i :: 0 <= i < |users| ==> once[i].id == users[i].id;
    assert forall i :: 0 <= i < |users| ==> twice[i] == once[i];
  }

  // ---- Patient lists ----

  /** `list.filter(p => p.id !== patientId)`. */
  function RemoveById(list: seq<Patient>, patientId: string): (r: seq<Patient>)
    ensures |r| <= |list|
    ensures forall p :: p in r <==> p in list && p.id != patientId
    ensures (forall i :: 0 <= i < |list| ==> list[i].id != patientId) ==> r == list
  {
    if list == [] then []
    else
      var rest := RemoveById(list[1..], patientId);
      assert forall p :: p in list <==> p == list[0] || p in list[1..];
      assert forall i :: 1 <= i < |list| ==> list[i] == list[1..][i - 1];
      if list[0].id != patientId then [list[0]] + rest else rest
  }

  /** Deleting keeps the survivors in their order: the result is the list
      with the matching records dropped, one position at a time. */
  lemma {:induction false} RemoveByIdAppend(a: seq<Patient>, b: seq<Patient>, patientId: string)
    ensures RemoveById(a + b, patientId) == RemoveById(a, patientId) + RemoveById(b, patientId)
  {
    if a == [] {
      assert a + b == b;
    } else {
      assert (a + b)[1..] == a[1..] + b;
      assert (a + b)[0] == a[0];
      RemoveByIdAppend(a[1..], b, patientId);
    }
  }

  /** `{ ...prev, [userId]: prev[userId]?.filter(p => p.id !== patientId) || [] }`. */
  function DeletePatient(userPatients: map<string, seq<Patient>>, userId: string, patientId: string): (r: map<string, seq<Patient>>)
    ensures r.Keys == userPatients.Keys + {userId}
    ensures forall u :: u in userPatients && u != userId ==> r[u] == userPatients[u]
    ensures r[userId] == if userId in userPatients then RemoveById(userPatients[userId], patientId) else []
  {
    userPatients[userId := if userId in userPatients then RemoveById(userPatients[userId], patientId) else []]
  }

  /** After a deletion no record with that id remains in that user's list,
      and every other record of it is still there. */
  lemma DeletePatientRemoves(userPatients: map<string, seq<Patient>>, userId: string, patientId: string)
    ensures forall p :: p in DeletePatient(userPatients, userId, patientId)[userId] ==> p.id != patientId
    ensures userId in userPatients ==>
      forall p :: p in userPatients[userId] && p.id != patientId ==> p in DeletePatient(userPatients, userId, patientId)[userId]
  {
  }

  // ---- Expansion ----

  /** `expanded === id ? null : id`. */
  function ToggleExpansion(expanded: Option<string>, id: string): (r: Option<string>)
    ensures r.None? <==> expanded == Some(id)
    ensures r.Some? ==> r.value == id
  {
    if expanded == Some(id) then None else Some(id)
  }

  /** Toggling the same row twice returns to collapsed when it was
      collapsed or expanded; another row that was open stays closed. */
  lemma ToggleExpansionTwice(expanded: Option<string>, id: string)
    ensures ToggleExpansion(ToggleExpansion(expanded, id), id) == (if expanded == Some(id) then Some(id) else None)
  {
  }

  /** The patient list of a user must be fetched: absent or empty. */
  predicate NeedsFetch(userPatients: map<string, seq<Patient>>, userId: string) {
    userId !in userPatients || |userPatients[userId]| == 0
  }

  // ---- Dental summary ----

  /** `conditionIcons[condition] || '/images/dental/question-mark.svg'`. */
  function ConditionIcon(condition: string): string {
    match ParseKey(condition)
    case Some(Cavity) => "/images/dental/dental-cavity.svg"
    case Some(RootCanal) => "/images/dental/root-canal.svg"
    case Some(Implant) => "/images/dental/dental-implant.svg"
    case Some(Extraction) => "/images/dental/tooth-extraction.svg"
    case Some(Missing) => "/images/dental/tooth-extraction.svg"
    case Some(Treated) => "/images/dental/healthy-tooth.svg"
    case Some(ExistingImplant) => "/images/dental/dental-implant.svg"
    case Some(Amalgam) => "/images/dental/filling.svg"
    case Some(Broken) => "/images/dental/cracked-tooth.svg"
    case Some(Crown) => "/images/dental/dental-crown.svg"
    case None => "/images/dental/question-mark.svg"
  }

  /** Exactly the unknown conditions get the question mark; extraction and
      missing share a picture, as do implant and existing implant. */
  lemma ConditionIconFallback(condition: string)
    ensures ConditionIcon(condition) == "/images/dental/question-mark.svg" <==> ParseKey(condition).None?
    ensures ConditionIcon("extraction") == ConditionIcon("missing")
    ensures ConditionIcon("implant") == ConditionIcon("existingImplant")
  {
  }

  /** `s.replace(/([A-Z])/g, ' $1')`: a space before every capital. */
  function SpaceBeforeCapitals(s: string): (r: string)
    ensures |r| >= |s|
  {
    if s == [] then []
    else (if 'A' <= s[0] <= 'Z' then [' ', s[0]] else [s[0]]) + SpaceBeforeCapitals(s[1..])
  }

  /** `s` without its spaces. */
  function WithoutSpaces(s: string): (r: string)
    ensures ' ' !in r
  {
    if s == [] then [] else (if s[0] == ' ' then [] else [s[0]]) + WithoutSpaces(s[1..])
  }

  /** Removing the spaces again gives back the key's own characters: the
      replacement only ever inserts spaces. */
  lemma {:induction false} SpacesRemovable(s: string)
    ensures WithoutSpaces(SpaceBeforeCapitals(s)) == WithoutSpaces(s)
  {
    if s != [] {
      SpacesRemovable(s[1..]);
      var head := if 'A' <= s[0] <= 'Z' then [' ', s[0]] else [s[0]];
      WithoutSpacesAppend(head, SpaceBeforeCapitals(s[1..]));
      WithoutSpacesAppend([s[0]], s[1..]);
      assert [s[0]] + s[1..] == s;
      if 'A' <= s[0] <= 'Z' {
        assert head == [' '] + [s[0]];
        WithoutSpacesAppend([' '], [s[0]]);
        assert [' '][1..] == [];
      }
    }
  }

  /** Removing spaces works piece by piece: a step for `SpacesRemovable`. */
  lemma {:induction false} WithoutSpacesAppend(a: string, b: string)
    ensures WithoutSpaces(a + b) == WithoutSpaces(a) + WithoutSpaces(b)
  {
    if a == [] {
      assert a + b == b;
    } else {
      assert (a + b)[1..] == a[1..] + b;
      assert (a + b)[0] == a[0];
      WithoutSpacesAppend(a[1..], b);
    }
  }

  /** The label shown for a condition key. */
  function ConditionLabel(condition: string): string {
    Trim(SpaceBeforeCapitals(condition))
  }

  /** The replacement works piece by piece. */
  lemma {:induction false} SpaceBeforeCapitalsAppend(a: string, b: string)
    ensures SpaceBeforeCapitals(a + b) == SpaceBeforeCapitals(a) + SpaceBeforeCapitals(b)
  {
    if a == [] {
      assert a + b == b;
    } else {
      assert (a + b)[1..] == a[1..] + b;
      assert (a + b)[0] == a[0];
      SpaceBeforeCapitalsAppend(a[1..], b);
    }
  }

  /** A capital gets exactly one space in front of it. */
  lemma CapitalGetsSpace(c: char)
    requires 'A' <= c <= 'Z'
    ensures SpaceBeforeCapitals([c]) == [' ', c]
  {
    assert [c][1..] == [];
  }

  /** Any other character is kept as it is. */
  lemma OtherCharKept(c: char)
    requires !('A' <= c <= 'Z')
    ensures SpaceBeforeCapitals([c]) == [c]
  {
    assert [c][1..] == [];
  }

  /** A key without capitals is left as it is. */
  lemma {:induction false} NoCapitalsUnchanged(s: string)
    requires forall i :: 0 <= i < |s| ==> !('A' <= s[i] <= 'Z')
    ensures SpaceBeforeCapitals(s) == s
  {
    if s != [] {
      NoCapitalsUnchanged(s[1..]);
      assert [s[0]] + s[1..] == s;
    }
  }

  /** The replace on `rootCanal` inserts one space: a step for
      `ConditionLabelExample`. */
  lemma SpacedRootCanal()
    ensures SpaceBeforeCapitals("rootCanal") == "root Canal"
  {
    assert "rootCanal" == "root" + "Canal";
    SpaceBeforeCapitalsAppend("root", "Canal");
    NoCapitalsUnchanged("root");
    assert "Canal" == ['C'] + "anal";
    SpaceBeforeCapitalsAppend(['C'], "anal");
    NoCapitalsUnchanged("anal");
    assert SpaceBeforeCapitals(['C']) == " C" by {
      assert ['C'][1..] == [];
    }
    assert "root" + (" C" + "anal") == "root Canal";
  }

  /** The camel-case keys read as words: `rootCanal` shows as "root Canal". */
  lemma ConditionLabelExample()
    ensures ConditionLabel("rootCanal") == "root Canal"
  {
    SpacedRootCanal();
    var t := "root Canal";
    assert !IsWhitespace(t[0]) && !IsWhitespace(t[|t| - 1]);
    assert TrimStart(t) == t;
    assert TrimEnd(t) == t;
  }

  /** The value of one `affectedTeeth` entry: an array of tooth numbers, or
      something else. */
  datatype EntryValue = TeethArray(teeth: seq<Tooth>) | NotAnArray

  /** One line of the dental summary: a condition key and its teeth. */
  datatype SummaryLine = SummaryLine(condition: string, teeth: seq<Tooth>)
  {
    /** The picture shown on the line. */
    function Icon(): string { ConditionIcon(condition) }

    /** The caption shown on the line. */
    function Caption(): string { ConditionLabel(condition) }
  }

  /** `Object.entries(affectedTeeth).filter(([, teeth]) => Array.isArray(teeth)
      && teeth.length > 0)`: the entries holding a non-empty array, in order. */
  function DentalSummary(entries: seq<(string, EntryValue)>): (r: seq<SummaryLine>)
    ensures |r| <= |entries|
    ensures forall i :: 0 <= i < |r| ==> r[i].teeth != []
    ensures forall c, t :: (c, TeethArray(t)) in entries && t != [] <==> SummaryLine(c, t) in r
  {
    if entries == [] then []
    else
      var rest := DentalSummary(entries[1..]);
      assert forall e :: e in entries <==> e == entries[0] || e in entries[1..];
      var v := entries[0].1;
      if v.TeethArray? && v.teeth != [] then [SummaryLine(entries[0].0, v.teeth)] + rest
      else rest
  }

  /** The summary works entry by entry: it keeps the entries' order and
      drops only the entries without teeth. */
  lemma {:induction false} DentalSummaryAppend(a: seq<(string, EntryValue)>, b: seq<(string, EntryValue)>)
    ensures DentalSummary(a + b) == DentalSummary(a) + DentalSummary(b)
  {
    if a == [] {
      assert a + b == b;
    } else {
      assert (a + b)[0] == a[0];
      assert (a + b)[1..] == a[1..] + b;
      DentalSummaryAppend(a[1..], b);
    }
  }

  /** One entry gives one line exactly when it is an array with teeth. */
  lemma DentalSummarySingle(c: string, v: EntryValue)
    ensures DentalSummary([(c, v)]) == if v.TeethArray? && v.teeth != [] then [SummaryLine(c, v.teeth)] else []
  {
    assert [(c, v)][1..] == [];
  }

  // ---- The table's state ----

  /** The submission waiting for confirmation. */
  datatype DeleteInfo = DeleteInfo(userId: string, patientId: string, patientName: string)

  /** The name in the confirmation prompt: `patientName || 'this patient'`. */
  function PromptName(info: Option<DeleteInfo>): (r: string)
    ensures r != ""
  {
    if info.Some? && info.value.patientName != "" then info.value.patientName else "this patient"
  }

  class AdminUsersState {
    var users: seq<User>
    var error: string
    var success: string
    var expandedUser: Option<string>
    var userPatients: map<string, seq<Patient>>
    var expandedPatient: Option<string>
    var isConfirmOpen: bool
    var patientToDeleteInfo: Option<DeleteInfo>

    constructor (loaded: seq<User>)
      ensures users == loaded && error == "" && success == ""
      ensures expandedUser == None && userPatients == map[] && expandedPatient == None
      ensures !isConfirmOpen && patientToDeleteInfo == None
    {
      users := loaded;
      error, success := "", "";
      expandedUser, expandedPatient := None, None;
      userPatients := map[];
      isConfirmOpen := false;
      patientToDeleteInfo := None;
    }

    /** `toggleAdminRole(userId, currentRole)` after the write answered
        `writeOk`. */
    method ToggleAdminRole(userId: string, currentRole: string, writeOk: bool)
      modifies this
      ensures writeOk ==>
        users == UpdateRole(old(users), userId, NewRole(currentRole))
        && error == "" && success == "User role updated to " + NewRole(currentRole)
      ensures !writeOk ==> users == old(users) && error == "Error updating user role" && success == ""
      ensures expandedUser == old(expandedUser) && userPatients == old(userPatients)
      ensures expandedPatient == old(expandedPatient) && isConfirmOpen == old(isConfirmOpen)
      ensures patientToDeleteInfo == old(patientToDeleteInfo)
    {
      error := "";
      success := "";
      var newRole := NewRole(currentRole);
      if !writeOk {
        error := "Error updating user role";
        return;
      }
      users := UpdateRole(users, userId, newRole);
      success := "User role updated to " + newRole;
    }

    /** `fetchUserPatients(userId)`: the fetched list, or `[]` when the
        query failed (`None`). */
    method FetchUserPatients(userId: string, fetched: Option<seq<Patient>>)
      modifies this
      ensures userPatients == old(userPatients)[userId := fetched.GetOr([])]
      ensures users == old(users) && error == old(error) && success == old(success)
      ensures expandedUser == old(expandedUser) && expandedPatient == old(expandedPatient)
      ensures isConfirmOpen == old(isConfirmOpen) && patientToDeleteInfo == old(patientToDeleteInfo)
    {
      match fetched {
        case Some(patientsData) => userPatients := userPatients[userId := patientsData];
        case None => userPatients := userPatients[userId := []];
      }
    }

    /** `toggleUserExpansion(userId)`; `fetched` is what the fetch would
        return, consulted only when a fetch is made. */
    method ToggleUserExpansion(userId: string, fetched: Option<seq<Patient>>)
      modifies this
      ensures expandedUser == ToggleExpansion(old(expandedUser), userId)
      ensures old(expandedUser) != Some(userId) && NeedsFetch(old(userPatients), userId) ==>
        userPatients == old(userPatients)[userId := fetched.GetOr([])]
      ensures !(old(expandedUser) != Some(userId) && NeedsFetch(old(userPatients), userId)) ==>
        userPatients == old(userPatients)
      ensures users == old(users) && error == old(error) && success == old(success)
      ensures expandedPatient == old(expandedPatient)
      ensures isConfirmOpen == old(isConfirmOpen) && patientToDeleteInfo == old(patientToDeleteInfo)
    {
      if expandedUser == Some(userId) {
        expandedUser := None;
      } else {
        expandedUser := Some(userId);
        if userId !in userPatients || |userPatients[userId]| == 0 {
          userPatients := userPatients[userId := []];
          FetchUserPatients(userId, fetched);
        }
      }
    }

    /** `togglePatientExpansion(patientId)`. */
    method TogglePatientExpansion(patientId: string)
      modifies this
      ensures expandedPatient == ToggleExpansion(old(expandedPatient), patientId)
      ensures users == old(users) && error == old(error) && success == old(success)
      ensures expandedUser == old(expandedUser) && userPatients == old(userPatients)
      ensures isConfirmOpen == old(isConfirmOpen) && patientToDeleteInfo == old(patientToDeleteInfo)
    {
      expandedPatient := if expandedPatient == Some(patientId) then None else Some(patientId);
    }

    /** `openDeleteConfirmation(userId, patientId, patientName)`. */
    method OpenDeleteConfirmation(userId: string, patientId: string, patientName: string)
      modifies this
      ensures patientToDeleteInfo == Some(DeleteInfo(userId, patientId, patientName)) && isConfirmOpen
      ensures users == old(users) && error == old(error) && success == old(success)
      ensures expandedUser == old(expandedUser) && userPatients == old(userPatients)
      ensures expandedPatient == old(expandedPatient)
    {
      patientToDeleteInfo := Some(DeleteInfo(userId, patientId, patientName));
      isConfirmOpen := true;
    }

    /** `handleConfirmDelete()` after the delete answered `deleteOk`: nothing
        happens when no submission is pending; otherwise the pending one is
        forgotten whether or not the delete succeeded. */
    method HandleConfirmDelete(deleteOk: bool)
      modifies this
      ensures old(patientToDeleteInfo).None? ==>
        userPatients == old(userPatients) && error == old(error) && success == old(success)
        && patientToDeleteInfo == None
      ensures old(patientToDeleteInfo).Some? ==>
        var info := old(patientToDeleteInfo).value;
        patientToDeleteInfo == None
        && (deleteOk ==>
              userPatients == DeletePatient(old(userPatients), info.userId, info.patientId)
              && error == "" && success == "Successfully deleted patient record for " + info.patientName + ".")
        && (!deleteOk ==>
              userPatients == old(userPatients)
              && error == "Failed to delete patient record. Please try again." && success == "")
      ensures users == old(users) && expandedUser == old(expandedUser)
      ensures expandedPatient == old(expandedPatient) && isConfirmOpen == old(isConfirmOpen)
    {
      if patientToDeleteInfo.None? {
        return;
      }
      var DeleteInfo(userId, patientId, patientName) := patientToDeleteInfo.value;
      error := "";
      success := "";
      if deleteOk {
        userPatients := DeletePatient(userPatients, userId, patientId);
        success := "Successfully deleted patient record for " + patientName + ".";
      } else {
        error := "Failed to delete patient record. Please try again.";
      }
      patientToDeleteInfo := None;
    }

    /** The dialog's close button. */
    method CloseConfirmation()
      modifies this
      ensures !isConfirmOpen
      ensures users == old(users) && error == old(error) && success == old(success)
      ensures expandedUser == old(expandedUser) && userPatients == old(userPatients)
      ensures expandedPatient == old(expandedPatient) && patientToDeleteInfo == old(patientToDeleteInfo)
    {
      isConfirmOpen := false;
    }
  }
}
