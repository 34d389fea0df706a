/** The appointment service (src/services/api/appointmentService.js): a
    module-level array of appointments changed in place by `create`,
    `update` and `delete`, and reads that decorate each appointment with the
    names of its doctor and patient. The names come from the service's own
    copies of the doctor and patient fixtures, taken once at start-up, never
    from the live patient store. */
module AppointmentService {
  import opened Results
  import opened Tables
  import opened Seqs
  import opened DoctorService
  import PatientService

  datatype Appointment = Appointment(
    id: int,
    patientId: int,
    doctorId: int,
    department: string,
    date: string,
    timeSlot: string,
    reason: string,
    notes: string,
    status: string)

  function AppointmentId(a: Appointment): int { a.id }

  /** The object an `update` caller passes; None where it lacks the key. */
  datatype AppointmentPatch = AppointmentPatch(
    id: Option<int>,
    patientId: Option<int>,
    doctorId: Option<int>,
    department: Option<string>,
    date: Option<string>,
    timeSlot: Option<string>,
    reason: Option<string>,
    notes: Option<string>,
    status: Option<string>)

  /** The object `{ status }` the appointments page passes to `update`. */
  function StatusPatch(status: string): AppointmentPatch
  {
    AppointmentPatch(None, None, None, None, None, None, None, None, Some(status))
  }

  /** The empty object `{}`. */
  const NoKeys := AppointmentPatch(None, None, None, None, None, None, None, None, None)

  /** `{ ...a, ...patch }`: each key of the patch overrides, every other
      field keeps its value. The empty object changes nothing, and the Id
      changes only through an `id` key. */
  function Merge(a: Appointment, patch: AppointmentPatch): (r: Appointment)
    ensures patch == NoKeys ==> r == a
    ensures r.id == if patch.id.Some? then patch.id.value else a.id
  {
    Appointment(
      patch.id.GetOr(a.id),
      patch.patientId.GetOr(a.patientId),
      patch.doctorId.GetOr(a.doctorId),
      patch.department.GetOr(a.department),
      patch.date.GetOr(a.date),
      patch.timeSlot.GetOr(a.timeSlot),
      patch.reason.GetOr(a.reason),
      patch.notes.GetOr(a.notes),
      patch.status.GetOr(a.status))
  }

  /** A status update changes the status and nothing else. */
  lemma StatusPatchOnlySetsStatus(a: Appointment, status: string)
    ensures Merge(a, StatusPatch(status)) == a.(status := status)
  {
  }

  /** First and last name of the first patient with the Id, joined by a
      space, or "Unknown" when there is none. */
  function PatientName(patients: seq<PatientService.Patient>, id: int): (name: string)
    ensures Absent(patients, PatientService.PatientId, id) ==> name == "Unknown"
    ensures forall i :: IsFirst(patients, PatientService.PatientId, id, i) ==>
      name == patients[i].firstName + " " + patients[i].lastName
  {
    match IndexOf(patients, PatientService.PatientId, id)
    case None => "Unknown"
    case Some(i) =>
      assert forall j :: IsFirst(patients, PatientService.PatientId, id, j) ==> j == i;
      patients[i].firstName + " " + patients[i].lastName
  }

  /** A returned appointment: every stored field, `doctorName`, and
      `patientName` where the read adds it (None: the key is absent). */
  datatype AppointmentView = AppointmentView(
    record: Appointment,
    doctorName: string,
    patientName: Option<string>)

  /** The stored part of each returned view, in order. */
  function Records(views: seq<AppointmentView>): seq<Appointment>
  {
    Map(views, (v: AppointmentView) => v.record)
  }

  /** The decoration `getAll` and `getTodayAppointments` apply. */
  function WithNames(apts: seq<Appointment>, doctors: seq<Doctor>, patients: seq<PatientService.Patient>)
    : (r: seq<AppointmentView>)
    ensures Records(r) == apts
    ensures forall i :: 0 <= i < |r| ==>
      && r[i].doctorName == DoctorName(doctors, apts[i].doctorId)
      && r[i].patientName == Some(PatientName(patients, apts[i].patientId))
  {
    seq(|apts|, i requires 0 <= i < |apts| =>
      AppointmentView(apts[i], DoctorName(doctors, apts[i].doctorId),
                      Some(PatientName(patients, apts[i].patientId))))
  }

  /** The decoration `getByPatientId` applies: the doctor's name only. */
  function WithDoctorName(apts: seq<Appointment>, doctors: seq<Doctor>): (r: seq<AppointmentView>)
    ensures Records(r) == apts
    ensures forall i :: 0 <= i < |r| ==>
      r[i].doctorName == DoctorName(doctors, apts[i].doctorId) && r[i].patientName == None
  {
    seq(|apts|, i requires 0 <= i < |apts| =>
      AppointmentView(apts[i], DoctorName(doctors, apts[i].doctorId), None))
  }

  /** Decorating commutes with appending one appointment. */
  lemma WithNamesSnoc(apts: seq<Appointment>, a: Appointment, doctors: seq<Doctor>, patients: seq<PatientService.Patient>)
    ensures WithNames(apts + [a], doctors, patients)
         == WithNames(apts, doctors, patients) + WithNames([a], doctors, patients)
  {
  }

  /** The appointments of one patient, in store order. */
  function OfPatient(apts: seq<Appointment>, patientId: int): (r: seq<Appointment>)
    ensures forall a :: a in r ==> a in apts && a.patientId == patientId
    ensures forall a :: a in apts && a.patientId == patientId ==> a in r
    ensures forall a :: a in apts && a.patientId == patientId ==> multiset(r)[a] == multiset(apts)[a]
    ensures IsSubsequence(r, apts)
  {
    Filter(apts, (a: Appointment) => a.patientId == patientId)
  }

  /** The appointments whose date string equals the given one, in store order. */
  function OnDate(apts: seq<Appointment>, date: string): (r: seq<Appointment>)
    ensures forall a :: a in r ==> a in apts && a.date == date
    ensures forall a :: a in apts && a.date == date ==> a in r
    ensures forall a :: a in apts && a.date == date ==> multiset(r)[a] == multiset(apts)[a]
    ensures IsSubsequence(r, apts)
  {
    Filter(apts, (a: Appointment) => a.date == date)
  }

  class AppointmentStore {
    var appointments: seq<Appointment>
    /** The service's own copy of the doctor fixture. */
    const doctors: seq<Doctor>
    /** The service's own copy of the patient fixture; patients created or
        deleted through the patient service never reach it. */
    const patients: seq<PatientService.Patient>

    constructor (appointmentFixture: seq<Appointment>, doctorFixture: seq<Doctor>,
                 patientFixture: seq<PatientService.Patient>)
      ensures appointments == appointmentFixture
      ensures doctors == doctorFixture && patients == patientFixture
    {
      appointments := appointmentFixture;
      doctors := doctorFixture;
      patients := patientFixture;
    }

    predicate Valid()
      reads this
    {
      UniqueIds(appointments, AppointmentId)
    }

    /** `getAll`: one view per stored appointment, in store order, with the
        doctor's and the patient's name. */
    function GetAll(): (r: seq<AppointmentView>)
      reads this
      ensures Records(r) == appointments
      ensures forall i :: 0 <= i < |r| ==>
        && r[i].doctorName == DoctorName(doctors, appointments[i].doctorId)
        && r[i].patientName == Some(PatientName(patients, appointments[i].patientId))
    {
      WithNames(appointments, doctors, patients)
    }

    /** `getById`: an undecorated copy of the first appointment with the Id. */
    function GetById(id: int): (r: Result<Appointment>)
      reads this
      ensures r.Ok? <==> !Absent(appointments, AppointmentId, id)
      ensures forall i :: IsFirst(appointments, AppointmentId, id, i) ==> r == Ok(appointments[i])
      ensures r.Err? ==> r == Err("Appointment not found")
    {
      match IndexOf(appointments, AppointmentId, id)
      case None => Err("Appointment not found")
      case Some(i) =>
        assert forall j :: IsFirst(appointments, AppointmentId, id, j) ==> j == i;
        Ok(appointments[i])
    }

    /** `getByPatientId`: the patient's appointments in store order, each
        with the doctor's name and without `patientName`. */
    function GetByPatientId(patientId: int): (r: seq<AppointmentView>)
      reads this
      ensures Records(r) == OfPatient(appointments, patientId)
      ensures forall v :: v in r ==>
        v.record.patientId == patientId && v.record in appointments
        && v.doctorName == DoctorName(doctors, v.record.doctorId) && v.patientName == None
    {
      var r := WithDoctorName(OfPatient(appointments, patientId), doctors);
      assert forall k :: 0 <= k < |r| ==> r[k].record == OfPatient(appointments, patientId)[k];
      r
    }

    /** `getTodayAppointments`, with today's date string as a parameter:
        the appointments of that date in store order, with both names. */
    function GetTodayAppointments(today: string): (r: seq<AppointmentView>)
      reads this
      ensures Records(r) == OnDate(appointments, today)
      ensures forall v :: v in r ==>
        v.record.date == today && v.record in appointments
        && v.doctorName == DoctorName(doctors, v.record.doctorId)
        && v.patientName == Some(PatientName(patients, v.record.patientId))
    {
      var r := WithNames(OnDate(appointments, today), doctors, patients);
      assert forall k :: 0 <= k < |r| ==> r[k].record == OnDate(appointments, today)[k];
      r
    }

    /** `create`: appends the input with a fresh Id and status "Scheduled". */
    method Create(appointment: Appointment) returns (created: Appointment)
      modifies this
      ensures created == appointment.(id := NextId(old(appointments), AppointmentId), status := "Scheduled")
      ensures appointments == old(appointments) + [created]
      ensures GetById(created.id) == Ok(created)
      ensures old(Valid()) ==> Valid()
    {
      var maxId := MaxIdFrom(0, appointments, AppointmentId);
      created := appointment.(id := maxId + 1, status := "Scheduled");
      AppendedIsFound(appointments, AppointmentId, created);
      if Valid() {
        AppendKeepsUnique(appointments, AppointmentId, created);
      }
      appointments := appointments + [created];
    }

    /** `update`: merges the patch into the first appointment with the Id,
        or fails and changes nothing. The store checks no status transition. */
    method Update(id: int, patch: AppointmentPatch) returns (r: Result<Appointment>)
      modifies this
      ensures var before := old(appointments);
        match IndexOf(before, AppointmentId, id)
        case None => r == Err("Appointment not found") && appointments == before
        case Some(i) => appointments == before[i := Merge(before[i], patch)] && r == Ok(appointments[i])
      ensures patch.id.None? && r.Ok? ==> GetById(id) == r
      ensures old(Valid()) && patch.id.None? ==> Valid()
    {
      var index := IndexOf(appointments, AppointmentId, id);
      if index.None? {
        return Err("Appointment not found");
      }
      var i := index.value;
      var merged := Merge(appointments[i], patch);
      if patch.id.None? {
        ReplacedIsFound(appointments, AppointmentId, i, merged);
        if Valid() {
          ReplaceKeepsUnique(appointments, AppointmentId, i, merged);
        }
      }
      appointments := appointments[i := merged];
      r := Ok(merged);
    }

    /** `delete`: removes the first appointment with the Id, or fails and
        changes nothing. */
    method Delete(id: int) returns (r: Result<()>)
      modifies this
      ensures var before := old(appointments);
        match IndexOf(before, AppointmentId, id)
        case None => r == Err("Appointment not found") && appointments == before
        case Some(i) => appointments == RemoveAt(before, i) && r == Ok(())
      ensures old(Valid()) ==> Valid()
      ensures old(Valid()) && r.Ok? ==> GetById(id) == Err("Appointment not found")
    {
      var index := IndexOf(appointments, AppointmentId, id);
      if index.None? {
        return Err("Appointment not found");
      }
      var i := index.value;
      if Valid() {
        RemoveKeepsUnique(appointments, AppointmentId, i);
        RemovedIsGone(appointments, AppointmentId, i);
      }
      appointments := RemoveAt(appointments, i);
      r := Ok(());
    }
  }

  /** A patient registered through the patient service is unknown to the
      appointment service: an appointment booked for the new patient is
      listed with patient name "Unknown", because the appointment service
      reads its own copy of the patient fixture. */
  method NewPatientIsUnknown(patientFixture: seq<PatientService.Patient>, doctorFixture: seq<Doctor>,
                             appointmentFixture: seq<Appointment>,
                             patient: PatientService.Patient, appointment: Appointment)
    returns (created: PatientService.Patient, listed: AppointmentView)
    ensures created.id == NextId(patientFixture, PatientService.PatientId)
    ensures listed.record.patientId == created.id
    ensures listed.patientName == Some("Unknown")
  {
    var patientStore := new PatientService.PatientStore(patientFixture);
    var appointmentStore := new AppointmentStore(appointmentFixture, doctorFixture, patientFixture);
    created := patientStore.Create(patient);
    var booked := appointmentStore.Create(appointment.(patientId := created.id));
    var all := appointmentStore.GetAll();
    listed := all[|all| - 1];
    assert listed.record == booked;
  }
}
