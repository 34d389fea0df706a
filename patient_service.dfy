/** The patient service (src/services/api/patientService.js): a module-level
    array of patients that `create`, `update` and `delete` change in place,
    and the reads `getAll`, `getById` and `search` over it. */
module PatientService {
  import opened Results
  import opened Tables
  import opened Seqs
  import opened Text

  datatype EmergencyContact = EmergencyContact(name: string, relationship: string, phone: string)

  datatype Patient = Patient(
    id: int,
    firstName: string,
    lastName: string,
    dateOfBirth: string,
    gender: string,
    phone: string,
    email: string,
    address: string,
    bloodGroup: string,
    allergies: seq<string>,
    emergencyContact: EmergencyContact,
    medicalHistory: string,
    currentDepartment: string,
    admissionDate: string,
    status: string)

  function PatientId(p: Patient): int { p.id }

  /** The object an `update` caller passes: one optional value per key,
      None where the object does not have the key. */
  datatype PatientPatch = PatientPatch(
    id: Option<int>,
    firstName: Option<string>,
    lastName: Option<string>,
    dateOfBirth: Option<string>,
    gender: Option<string>,
    phone: Option<string>,
    email: Option<string>,
    address: Option<string>,
    bloodGroup: Option<string>,
    allergies: Option<seq<string>>,
    emergencyContact: Option<EmergencyContact>,
    medicalHistory: Option<string>,
    currentDepartment: Option<string>,
    admissionDate: Option<string>,
    status: Option<string>)

  /** The empty object `{}`. */
  const NoKeys := PatientPatch(None, None, None, None, None, None, None, None,
                               None, None, None, None, None, None, None)

  /** `{ ...p, ...patch }`: each key of the patch overrides, every other
      field keeps its value. The empty object changes nothing, and the Id
      changes only through an `id` key. */
  function Merge(p: Patient, patch: PatientPatch): (r: Patient)
    ensures patch == NoKeys ==> r == p
    ensures r.id == if patch.id.Some? then patch.id.value else p.id
  {
    Patient(
      patch.id.GetOr(p.id),
      patch.firstName.GetOr(p.firstName),
      patch.lastName.GetOr(p.lastName),
      patch.dateOfBirth.GetOr(p.dateOfBirth),
      patch.gender.GetOr(p.gender),
      patch.phone.GetOr(p.phone),
      patch.email.GetOr(p.email),
      patch.address.GetOr(p.address),
      patch.bloodGroup.GetOr(p.bloodGroup),
      patch.allergies.GetOr(p.allergies),
      patch.emergencyContact.GetOr(p.emergencyContact),
      patch.medicalHistory.GetOr(p.medicalHistory),
      patch.currentDepartment.GetOr(p.currentDepartment),
      patch.admissionDate.GetOr(p.admissionDate),
      patch.status.GetOr(p.status))
  }

  /** `{ ...a, ...b }` of two patches: the keys of b win. */
  function Combine(a: PatientPatch, b: PatientPatch): PatientPatch
  {
    PatientPatch(
      b.id.OrElse(a.id),
      b.firstName.OrElse(a.firstName),
      b.lastName.OrElse(a.lastName),
      b.dateOfBirth.OrElse(a.dateOfBirth),
      b.gender.OrElse(a.gender),
      b.phone.OrElse(a.phone),
      b.email.OrElse(a.email),
      b.address.OrElse(a.address),
      b.bloodGroup.OrElse(a.bloodGroup),
      b.allergies.OrElse(a.allergies),
      b.emergencyContact.OrElse(a.emergencyContact),
      b.medicalHistory.OrElse(a.medicalHistory),
      b.currentDepartment.OrElse(a.currentDepartment),
      b.admissionDate.OrElse(a.admissionDate),
      b.status.OrElse(a.status))
  }

  /** Two updates in a row are one update with the combined object, and
      repeating an update changes nothing more. */
  lemma MergeCombine(p: Patient, a: PatientPatch, b: PatientPatch)
    ensures Merge(Merge(p, a), b) == Merge(p, Combine(a, b))
    ensures Merge(Merge(p, a), a) == Merge(p, a)
  {
  }

  /** The `search` test: a case-insensitive match on first name, last name
      or email, or a verbatim match on the phone number. */
  function Matches(p: Patient, query: string): (m: bool)
    ensures query == [] ==> m
    ensures Includes(p.phone, query) ==> m
  {
    var q := ToLower(query);
    || Includes(ToLower(p.firstName), q)
    || Includes(ToLower(p.lastName), q)
    || Includes(ToLower(p.email), q)
    || Includes(p.phone, query)
  }

  class PatientStore {
    var patients: seq<Patient>

    constructor (fixture: seq<Patient>)
      ensures patients == fixture
    {
      patients := fixture;
    }

    /** Ids are positive and pairwise distinct. */
    predicate Valid()
      reads this
    {
      UniqueIds(patients, PatientId)
    }

    /** `getAll`: the patients in store order, what a search for the
        empty string returns. */
    function GetAll(): (r: seq<Patient>)
      reads this
      ensures r == Search([])
    {
      patients
    }

    /** `getById`: a copy of the first patient with the Id, or the error. */
    function GetById(id: int): (r: Result<Patient>)
      reads this
      ensures r.Ok? <==> !Absent(patients, PatientId, id)
      ensures forall i :: IsFirst(patients, PatientId, id, i) ==> r == Ok(patients[i])
      ensures r.Err? ==> r == Err("Patient not found")
    {
      match IndexOf(patients, PatientId, id)
      case None => Err("Patient not found")
      case Some(i) =>
        assert forall j :: IsFirst(patients, PatientId, id, j) ==> j == i;
        Ok(patients[i])
    }

    /** `create`: appends the input with a fresh Id (largest Id plus one, 1
        for an empty store) and status "Active"; whatever Id and status the
        input carried are overwritten. */
    method Create(patient: Patient) returns (created: Patient)
      modifies this
      ensures created == patient.(id := NextId(old(patients), PatientId), status := "Active")
      ensures patients == old(patients) + [created]
      ensures GetById(created.id) == Ok(created)
      ensures old(Valid()) ==> Valid()
    {
      var maxId := MaxIdFrom(0, patients, PatientId);
      created := patient.(id := maxId + 1, status := "Active");
      AppendedIsFound(patients, PatientId, created);
      if Valid() {
        AppendKeepsUnique(patients, PatientId, created);
      }
      patients := patients + [created];
    }

    /** `update`: merges the patch into the first patient with the Id, or
        fails and changes nothing. */
    method Update(id: int, patch: PatientPatch) returns (r: Result<Patient>)
      modifies this
      ensures var before := old(patients);
        match IndexOf(before, PatientId, id)
        case None => r == Err("Patient not found") && patients == before
        case Some(i) => patients == before[i := Merge(before[i], patch)] && r == Ok(patients[i])
      ensures patch.id.None? && r.Ok? ==> GetById(id) == r
      ensures old(Valid()) && patch.id.None? ==> Valid()
    {
      var index := IndexOf(patients, PatientId, id);
      if index.None? {
        return Err("Patient not found");
      }
      var i := index.value;
      var merged := Merge(patients[i], patch);
      if patch.id.None? {
        ReplacedIsFound(patients, PatientId, i, merged);
        if Valid() {
          ReplaceKeepsUnique(patients, PatientId, i, merged);
        }
      }
      patients := patients[i := merged];
      r := Ok(merged);
    }

    /** `delete`: removes the first patient with the Id, keeping the order of
        the rest, or fails and changes nothing. */
    method Delete(id: int) returns (r: Result<()>)
      modifies this
      ensures var before := old(patients);
        match IndexOf(before, PatientId, id)
        case None => r == Err("Patient not found") && patients == before
        case Some(i) => patients == RemoveAt(before, i) && r == Ok(())
      ensures old(Valid()) ==> Valid()
      ensures old(Valid()) && r.Ok? ==> GetById(id) == Err("Patient not found")
    {
      var index := IndexOf(patients, PatientId, id);
      if index.None? {
        return Err("Patient not found");
      }
      var i := index.value;
      if Valid() {
        RemoveKeepsUnique(patients, PatientId, i);
        RemovedIsGone(patients, PatientId, i);
      }
      patients := RemoveAt(patients, i);
      r := Ok(());
    }

    /** `search`: exactly the matching patients, in store order; the empty
        query returns them all. */
    function Search(query: string): (r: seq<Patient>)
      reads this
      ensures forall p :: p in r ==> p in patients && Matches(p, query)
      ensures forall p :: p in patients && Matches(p, query) ==> p in r
      ensures forall p :: p in patients && Matches(p, query) ==> multiset(r)[p] == multiset(patients)[p]
      ensures IsSubsequence(r, patients)
      ensures query == [] ==> r == patients
    {
      var test := (p: Patient) => Matches(p, query);
      if query == [] then
        FilterAllPass(patients, test);
        Filter(patients, test)
      else
        Filter(patients, test)
    }
  }

  /** A patch that carries an `Id` key can break the store invariant: here
      the second patient takes the Id of the first. */
  lemma IdPatchCanDuplicateIds(a: Patient, b: Patient)
    requires a.id == 1 && b.id == 2
    ensures UniqueIds([a, b], PatientId)
    ensures !UniqueIds([a, b][1 := Merge(b, NoKeys.(id := Some(1)))], PatientId)
  {
    var s := [a, b][1 := Merge(b, NoKeys.(id := Some(1)))];
    assert PatientId(s[0]) == PatientId(s[1]);
  }
}
