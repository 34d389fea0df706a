/** The appointment booking form (src/components/organisms/AppointmentFormModal.jsx):
    seven text fields, the doctors of the chosen department with the first
    one preselected, the time slots of the chosen doctor, the error messages
    `validate` sets, and the appointment `handleSubmit` hands to the
    appointment service. Select values are strings; the Ids in them are read
    back with `parseInt`. */
module AppointmentForm {
  import opened Results
  import opened Text
  import opened Forms
  import opened Tables
  import DoctorService
  import AppointmentService

  datatype Field = PatientId | Department | DoctorId | Date | TimeSlot | Reason | Notes

  /** The form state `formData`: one string per field. */
  datatype FormData = FormData(
    patientId: string,
    department: string,
    doctorId: string,
    date: string,
    timeSlot: string,
    reason: string,
    notes: string)
  {
    /** `formData[f]`. */
    function Get(f: Field): string
    {
      match f
      case PatientId => patientId
      case Department => department
      case DoctorId => doctorId
      case Date => date
      case TimeSlot => timeSlot
      case Reason => reason
      case Notes => notes
    }

    /** `{ ...formData, [f]: value }`: the named field takes the value and
        every other field keeps its own. */
    function With(f: Field, value: string): (r: FormData)
      ensures r.Get(f) == value
      ensures forall g :: g != f ==> r.Get(g) == Get(g)
    {
      match f
      case PatientId => this.(patientId := value)
      case Department => this.(department := value)
      case DoctorId => this.(doctorId := value)
      case Date => this.(date := value)
      case TimeSlot => this.(timeSlot := value)
      case Reason => this.(reason := value)
      case Notes => this.(notes := value)
    }
  }

  /** The initial state; `today` is the date part of the current time. */
  function Initial(today: string): FormData
  {
    FormData("", "General Medicine", "", today, "09:00 AM", "", "")
  }

  /** Field f stops the form from being submitted: the patient, doctor, date
      or time slot is empty, or the reason holds whitespace only. */
  predicate Fails(form: FormData, f: Field)
  {
    match f
    case PatientId => form.patientId == []
    case DoctorId => form.doctorId == []
    case Date => form.date == []
    case TimeSlot => form.timeSlot == []
    case Reason => AllWhitespace(form.reason)
    case _ => false
  }

  /** The message `validate` records for a failing field; the fields it
      never checks have none. */
  function Message(f: Field): string
  {
    match f
    case PatientId => "Patient is required"
    case DoctorId => "Doctor is required"
    case Date => "Date is required"
    case TimeSlot => "Time slot is required"
    case Reason => "Reason is required"
    case _ => ""
  }

  /** Every entry of an error map holds its field's message. */
  predicate Messages(errors: map<Field, string>)
  {
    MessagesFrom(errors, Message)
  }

  /** The error map `validate` builds, one check after the other: it has an
      entry for exactly the failing fields. */
  function Errors(form: FormData): (r: map<Field, string>)
    ensures forall f :: f in r <==> Fails(form, f)
  {
    var e0 := map[];
    var e1 := if form.patientId == [] then e0[PatientId := Message(PatientId)] else e0;
    var e2 := if form.doctorId == [] then e1[DoctorId := Message(DoctorId)] else e1;
    var e3 := if form.date == [] then e2[Date := Message(Date)] else e2;
    var e4 := if form.timeSlot == [] then e3[TimeSlot := Message(TimeSlot)] else e3;
    if AllWhitespace(form.reason) then e4[Reason := Message(Reason)] else e4
  }

  /** The body of `validate`: a fresh error map gets an entry, with its
      message, for exactly the failing fields. */
  method CheckFields(form: FormData) returns (newErrors: map<Field, string>)
    ensures newErrors == Errors(form)
    ensures Messages(newErrors)
  {
    newErrors := map[];
    assert Messages(newErrors);
    newErrors := RequireNonEmpty(newErrors, form.patientId, PatientId, Message);
    newErrors := RequireNonEmpty(newErrors, form.doctorId, DoctorId, Message);
    newErrors := RequireNonEmpty(newErrors, form.date, Date, Message);
    newErrors := RequireNonEmpty(newErrors, form.timeSlot, TimeSlot, Message);
    newErrors := RequireNonBlank(newErrors, form.reason, Reason, Message);
  }

  /** The slots the doctor effect shows for the selected doctor string:
      those of the first loaded doctor whose Id is `parseInt` of it, or None
      when the string is empty or no doctor matches (the slots stay as
      they were). */
  function SlotsFor(doctors: seq<DoctorService.Doctor>, doctorId: string): (r: Option<seq<string>>)
    ensures r.Some? <==>
      doctorId != [] && ParseInt(doctorId).Some? && !Absent(doctors, DoctorService.DoctorId, ParseInt(doctorId).value)
    ensures forall i :: doctorId != [] && ParseInt(doctorId).Some?
                        && IsFirst(doctors, DoctorService.DoctorId, ParseInt(doctorId).value, i) ==>
      r == Some(doctors[i].availableSlots)
  {
    if doctorId == [] then None
    else match ParseInt(doctorId)
      case None => None
      case Some(id) =>
        match IndexOf(doctors, DoctorService.DoctorId, id)
        case None => None
        case Some(i) =>
          assert forall j :: IsFirst(doctors, DoctorService.DoctorId, id, j) ==> j == i;
          Some(doctors[i].availableSlots)
  }

  /** The doctor preselected for a department, the first one loaded, gets
      its own slots shown. */
  lemma DefaultDoctorSlots(doctors: seq<DoctorService.Doctor>)
    requires doctors != []
    ensures SlotsFor(doctors, IntToString(doctors[0].id)) == Some(doctors[0].availableSlots)
  {
    ParseIntToString(doctors[0].id);
    assert IsFirst(doctors, DoctorService.DoctorId, doctors[0].id, 0);
  }

  /** The appointment object `handleSubmit` builds: the form fields, with
      `patientId` and `doctorId` read as integers (None stands for NaN). */
  datatype AppointmentPayload = AppointmentPayload(
    patientId: Option<int>,
    department: string,
    doctorId: Option<int>,
    date: string,
    timeSlot: string,
    reason: string,
    notes: string)

  /** Both Ids are present exactly when both selects parse; a select holding
      the decimal string of an Id gives that Id; every other field is copied. */
  function Payload(form: FormData): (r: AppointmentPayload)
    ensures r.patientId.Some? && r.doctorId.Some? <==> IdsParse(form)
    ensures forall n: int :: form.patientId == IntToString(n) ==> r.patientId == Some(n)
    ensures forall n: int :: form.doctorId == IntToString(n) ==> r.doctorId == Some(n)
    ensures r.department == form.department && r.date == form.date && r.timeSlot == form.timeSlot
    ensures r.reason == form.reason && r.notes == form.notes
  {
    ParseIntToStringAll();
    AppointmentPayload(ParseInt(form.patientId), form.department, ParseInt(form.doctorId),
                       form.date, form.timeSlot, form.reason, form.notes)
  }

  /** The form a payload with both Ids comes from: the Ids written back as
      the decimal strings the selects offer. */
  function FormOf(p: AppointmentPayload): FormData
    requires p.patientId.Some? && p.doctorId.Some?
  {
    FormData(IntToString(p.patientId.value), p.department, IntToString(p.doctorId.value),
             p.date, p.timeSlot, p.reason, p.notes)
  }

  /** A form whose selects hold Ids gives a payload with those Ids, and
      every other field unchanged. */
  lemma PayloadRoundTrip(p: AppointmentPayload)
    requires p.patientId.Some? && p.doctorId.Some?
    ensures Payload(FormOf(p)) == p
  {
    ParseIntToString(p.patientId.value);
    ParseIntToString(p.doctorId.value);
  }

  /** The record `create` receives: `{ ...formData, patientId, doctorId }`,
      given the Id and status it assigns. */
  function ToAppointment(p: AppointmentPayload, id: int, status: string): AppointmentService.Appointment
    requires p.patientId.Some? && p.doctorId.Some?
  {
    AppointmentService.Appointment(id, p.patientId.value, p.doctorId.value, p.department,
                                   p.date, p.timeSlot, p.reason, p.notes, status)
  }

  /** Both Id fields hold a number `parseInt` can read. */
  predicate IdsParse(form: FormData)
  {
    ParseInt(form.patientId).Some? && ParseInt(form.doctorId).Some?
  }

  class AppointmentFormModal {
    var formData: FormData
    var errors: map<Field, string>
    /** The doctors of the chosen department. */
    var doctors: seq<DoctorService.Doctor>
    var availableSlots: seq<string>

    constructor (today: string)
      ensures formData == Initial(today) && errors == map[]
      ensures doctors == [] && availableSlots == []
    {
      formData := Initial(today);
      errors := map[];
      doctors := [];
      availableSlots := [];
    }

    /** `handleChange`: sets the named field and blanks its error message. */
    method HandleChange(name: Field, value: string)
      modifies this
      ensures formData == old(formData).With(name, value)
      ensures errors == ClearError(old(errors), name)
      ensures doctors == old(doctors) && availableSlots == old(availableSlots)
    {
      formData := formData.With(name, value);
      errors := ClearError(errors, name);
    }

    /** `loadDoctorsByDepartment`, over the doctor fixture: loads the
        department's doctors and preselects the first one; with no doctors
        the selected doctor stays as it was. */
    method LoadDoctorsByDepartment(allDoctors: seq<DoctorService.Doctor>, department: string)
      modifies this
      ensures doctors == DoctorService.GetByDepartment(allDoctors, department)
      ensures formData == if doctors == [] then old(formData)
                          else old(formData).(doctorId := IntToString(doctors[0].id))
      ensures doctors != [] ==> SlotsFor(doctors, formData.doctorId) == Some(doctors[0].availableSlots)
      ensures errors == old(errors) && availableSlots == old(availableSlots)
    {
      doctors := DoctorService.GetByDepartment(allDoctors, department);
      if |doctors| > 0 {
        formData := formData.(doctorId := IntToString(doctors[0].id));
        DefaultDoctorSlots(doctors);
      }
    }

    /** The effect on `formData.doctorId` and `doctors`: shows the selected
        doctor's slots, and leaves them alone when no doctor is selected or
        none matches. */
    method SelectSlots()
      modifies this
      ensures availableSlots == match SlotsFor(doctors, formData.doctorId)
                                case None => old(availableSlots)
                                case Some(slots) => slots
      ensures formData == old(formData) && errors == old(errors) && doctors == old(doctors)
    {
      var slots := SlotsFor(doctors, formData.doctorId);
      if slots.Some? {
        availableSlots := slots.value;
      }
    }

    /** `validate`: records the errors of the current form data and
        reports whether there are none. */
    method Validate() returns (valid: bool)
      modifies this
      ensures formData == old(formData) && doctors == old(doctors)
      ensures availableSlots == old(availableSlots)
      ensures forall f :: f in errors <==> Fails(formData, f)
      ensures Messages(errors)
      ensures valid <==> forall f :: !Fails(formData, f)
    {
      var newErrors := CheckFields(formData);
      errors := newErrors;
      valid := newErrors == map[];
    }

    /** `handleSubmit`: books the payload with the appointment service when
        the form is valid, and leaves the service untouched when it is not.
        The selects only offer Ids, so a valid form's Ids parse. */
    method HandleSubmit(store: AppointmentService.AppointmentStore) returns (submitted: bool)
      requires (forall f :: !Fails(formData, f)) ==> IdsParse(formData)
      modifies this, store
      ensures formData == old(formData)
      ensures submitted <==> forall f :: !Fails(formData, f)
      ensures forall f :: f in errors <==> Fails(formData, f)
      ensures submitted ==>
        store.appointments == old(store.appointments) +
          [ToAppointment(Payload(formData),
                         NextId(old(store.appointments), AppointmentService.AppointmentId), "Scheduled")]
      ensures !submitted ==> store.appointments == old(store.appointments)
      ensures old(store.Valid()) ==> store.Valid()
      ensures doctors == old(doctors) && availableSlots == old(availableSlots)
      ensures Messages(errors)
    {
      submitted := Validate();
      if !submitted {
        return;
      }
      var created := store.Create(ToAppointment(Payload(formData), 0, ""));
    }
  }
}
