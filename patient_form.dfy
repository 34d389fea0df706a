/** The patient registration form (src/components/organisms/PatientFormModal.jsx):
    fifteen text fields, the error messages `validate` sets, and the payload
    `handleSubmit` builds from the fields and hands to the patient service. */
module PatientForm {
  import opened Text
  import opened Forms
  import opened Tables
  import PatientService

  datatype Field =
    | FirstName | LastName | DateOfBirth | Gender | Phone | Email | Address
    | BloodGroup | Allergies | EmergencyContactName | EmergencyContactRelationship
    | EmergencyContactPhone | MedicalHistory | CurrentDepartment | AdmissionDate

  /** The form state `formData`: one string per field. */
  datatype FormData = FormData(
    firstName: string,
    lastName: string,
    dateOfBirth: string,
    gender: string,
    phone: string,
    email: string,
    address: string,
    bloodGroup: string,
    allergies: string,
    emergencyContactName: string,
    emergencyContactRelationship: string,
    emergencyContactPhone: string,
    medicalHistory: string,
    currentDepartment: string,
    admissionDate: string)
  {
    /** `formData[f]`. */
    function Get(f: Field): string
    {
      match f
      case FirstName => firstName
      case LastName => lastName
      case DateOfBirth => dateOfBirth
      case Gender => gender
      case Phone => phone
      case Email => email
      case Address => address
      case BloodGroup => bloodGroup
      case Allergies => allergies
      case EmergencyContactName => emergencyContactName
      case EmergencyContactRelationship => emergencyContactRelationship
      case EmergencyContactPhone => emergencyContactPhone
      case MedicalHistory => medicalHistory
      case CurrentDepartment => currentDepartment
      case AdmissionDate => admissionDate
    }

    /** `{ ...formData, [f]: value }`: the named field takes the value and
        every other field keeps its own. */
    function With(f: Field, value: string): (r: FormData)
      ensures r.Get(f) == value
      ensures forall g :: g != f ==> r.Get(g) == Get(g)
    {
      match f
      case FirstName => this.(firstName := value)
      case LastName => this.(lastName := value)
      case DateOfBirth => this.(dateOfBirth := value)
      case Gender => this.(gender := value)
      case Phone => this.(phone := value)
      case Email => this.(email := value)
      case Address => this.(address := value)
      case BloodGroup => this.(bloodGroup := value)
      case Allergies => this.(allergies := value)
      case EmergencyContactName => this.(emergencyContactName := value)
      case EmergencyContactRelationship => this.(emergencyContactRelationship := value)
      case EmergencyContactPhone => this.(emergencyContactPhone := value)
      case MedicalHistory => this.(medicalHistory := value)
      case CurrentDepartment => this.(currentDepartment := value)
      case AdmissionDate => this.(admissionDate := value)
    }
  }

  /** The initial state; `today` is the date part of the current time. */
  function Initial(today: string): FormData
  {
    FormData("", "", "", "Male", "", "", "", "A+", "", "", "", "", "", "General Medicine", today)
  }

  /** Field f stops the form from being submitted: the date of birth is
      empty, or another required field holds whitespace only. */
  predicate Fails(form: FormData, f: Field)
  {
    match f
    case FirstName => AllWhitespace(form.firstName)
    case LastName => AllWhitespace(form.lastName)
    case DateOfBirth => form.dateOfBirth == []
    case Phone => AllWhitespace(form.phone)
    case Email => AllWhitespace(form.email)
    case Address => AllWhitespace(form.address)
    case EmergencyContactName => AllWhitespace(form.emergencyContactName)
    case EmergencyContactPhone => AllWhitespace(form.emergencyContactPhone)
    case _ => false
  }

  /** The message `validate` records for a failing field; the fields it
      never checks have none. */
  function Message(f: Field): string
  {
    match f
    case FirstName => "First name is required"
    case LastName => "Last name is required"
    case DateOfBirth => "Date of birth is required"
    case Phone => "Phone number is required"
    case Email => "Email is required"
    case Address => "Address is required"
    case EmergencyContactName => "Emergency contact name is required"
    case EmergencyContactPhone => "Emergency contact phone is required"
    case _ => ""
  }

  /** Every entry of an error map holds its field's message. */
  predicate Messages(errors: map<Field, string>)
  {
    MessagesFrom(errors, Message)
  }

  /** `formData.allergies ? formData.allergies.split(",").map(a => a.trim()) : []`. */
  function AllergyList(s: string): (r: seq<string>)
    ensures r == [] <==> s == []
    ensures s != [] ==> |r| == |Split(s, ',')|
    ensures s != [] ==> forall i :: 0 <= i < |r| ==> r[i] == Trim(Split(s, ',')[i])
  {
    if s == [] then []
    else
      var parts := Split(s, ',');
      seq(|parts|, i requires 0 <= i < |parts| => Trim(parts[i]))
  }

  /** One allergy per comma-separated piece, none with a comma or with
      whitespace at either end. */
  lemma AllergyListShape(s: string)
    ensures |AllergyList(s)| == if s == [] then 0 else multiset(s)[','] + 1
    ensures s != [] ==> forall i :: 0 <= i < |AllergyList(s)| ==>
      AllergyList(s)[i] == Trim(Split(s, ',')[i])
    ensures forall i :: 0 <= i < |AllergyList(s)| ==>
      && ',' !in AllergyList(s)[i]
      && Trim(AllergyList(s)[i]) == AllergyList(s)[i]
  {
    if s != [] {
      var parts := Split(s, ',');
      SplitShape(s, ',');
      forall i | 0 <= i < |parts|
        ensures ',' !in Trim(parts[i]) && Trim(Trim(parts[i])) == Trim(parts[i])
      {
        TrimAddsNothing(parts[i], ',');
        TrimTwice(parts[i]);
      }
    }
  }

  /** Trimming twice is trimming once. */
  lemma TrimTwice(s: string)
    ensures Trim(Trim(s)) == Trim(s)
  {
    var r := Trim(s);
    if r != [] {
      assert LeadingWhitespace(r) == 0;
      assert WithoutTrailingWhitespace(r) == |r|;
      assert r[0..|r|] == r;
    }
  }

  /** The patient object `handleSubmit` passes to `create`: the form fields,
      with the allergies as a list and the three emergency-contact fields
      grouped into one object in place of the flat keys. */
  datatype PatientPayload = PatientPayload(
    firstName: string,
    lastName: string,
    dateOfBirth: string,
    gender: string,
    phone: string,
    email: string,
    address: string,
    bloodGroup: string,
    allergies: seq<string>,
    emergencyContact: PatientService.EmergencyContact,
    medicalHistory: string,
    currentDepartment: string,
    admissionDate: string)

  /** Every field other than the allergies reaches the payload unchanged,
      the emergency-contact ones inside `emergencyContact`; the allergy
      text becomes its list of trimmed comma-separated items. */
  function Payload(form: FormData): (r: PatientPayload)
    ensures FormOf(r).(allergies := form.allergies) == form
    ensures r.allergies == AllergyList(form.allergies)
  {
    PatientPayload(
      form.firstName, form.lastName, form.dateOfBirth, form.gender,
      form.phone, form.email, form.address, form.bloodGroup,
      AllergyList(form.allergies),
      PatientService.EmergencyContact(form.emergencyContactName,
                                      form.emergencyContactRelationship,
                                      form.emergencyContactPhone),
      form.medicalHistory, form.currentDepartment, form.admissionDate)
  }

  /** The form a payload comes from: the inverse of Payload, with the
      allergies joined back by commas. */
  function FormOf(p: PatientPayload): FormData
  {
    FormData(
      p.firstName, p.lastName, p.dateOfBirth, p.gender, p.phone, p.email,
      p.address, p.bloodGroup,
      if p.allergies == [] then "" else Join(p.allergies, ','),
      p.emergencyContact.name, p.emergencyContact.relationship, p.emergencyContact.phone,
      p.medicalHistory, p.currentDepartment, p.admissionDate)
  }

  /** The record `create` stores for a payload, given the Id and status it
      assigns: `{ ...patientData, Id, status }`. */
  function ToPatient(p: PatientPayload, id: int, status: string): PatientService.Patient
  {
    PatientService.Patient(
      id, p.firstName, p.lastName, p.dateOfBirth, p.gender, p.phone, p.email,
      p.address, p.bloodGroup, p.allergies, p.emergencyContact,
      p.medicalHistory, p.currentDepartment, p.admissionDate, status)
  }

  /** An allergy list of trimmed, comma-free names survives the trip
      through the form; only the single empty name cannot, because the
      empty string becomes the empty list. */
  predicate CanonicalAllergies(a: seq<string>)
  {
    a != [""] && forall i :: 0 <= i < |a| ==> ',' !in a[i] && Trim(a[i]) == a[i]
  }

  /** Joining a canonical allergy list by commas and reading it back
      gives the list again. */
  lemma AllergiesRoundTrip(a: seq<string>)
    requires CanonicalAllergies(a)
    ensures AllergyList(if a == [] then "" else Join(a, ',')) == a
  {
    if a != [] {
      var s := Join(a, ',');
      SplitJoin(a, ',');
      assert Split([], ',') == [[]];
      assert s != [];
    }
  }

  lemma PayloadRoundTrip(p: PatientPayload)
    requires CanonicalAllergies(p.allergies)
    ensures Payload(FormOf(p)) == p
  {
    AllergiesRoundTrip(p.allergies);
  }

  /** Every payload `handleSubmit` builds has allergies in that form, or is
      the single empty name. */
  lemma PayloadAllergiesCanonical(form: FormData)
    ensures var a := Payload(form).allergies;
      a == [""] || CanonicalAllergies(a)
  {
    AllergyListShape(form.allergies);
  }

  /** The error map `validate` builds, one check after the other. */
  function Errors(form: FormData): map<Field, string>
  {
    var e0 := map[];
    var e1 := if AllWhitespace(form.firstName) then e0[FirstName := Message(FirstName)] else e0;
    var e2 := if AllWhitespace(form.lastName) then e1[LastName := Message(LastName)] else e1;
    var e3 := if form.dateOfBirth == [] then e2[DateOfBirth := Message(DateOfBirth)] else e2;
    var e4 := if AllWhitespace(form.phone) then e3[Phone := Message(Phone)] else e3;
    var e5 := if AllWhitespace(form.email) then e4[Email := Message(Email)] else e4;
    var e6 := if AllWhitespace(form.address) then e5[Address := Message(Address)] else e5;
    var e7 := if AllWhitespace(form.emergencyContactName)
              then e6[EmergencyContactName := Message(EmergencyContactName)] else e6;
    if AllWhitespace(form.emergencyContactPhone)
    then e7[EmergencyContactPhone := Message(EmergencyContactPhone)] else e7
  }

  /** The error map has an entry for exactly the failing fields. */
  lemma ErrorsAreFailures(form: FormData)
    ensures forall f :: f in Errors(form) <==> Fails(form, f)
  {
  }

  /** The body of `validate`: a fresh error map gets an entry, with its
      message, for exactly the failing fields. */
  method CheckFields(form: FormData) returns (newErrors: map<Field, string>)
    ensures newErrors == Errors(form)
    ensures Messages(newErrors)
  {
    newErrors := map[];
    assert Messages(newErrors);
    newErrors := RequireNonBlank(newErrors, form.firstName, FirstName, Message);
    newErrors := RequireNonBlank(newErrors, form.lastName, LastName, Message);
    newErrors := RequireNonEmpty(newErrors, form.dateOfBirth, DateOfBirth, Message);
    newErrors := RequireNonBlank(newErrors, form.phone, Phone, Message);
    newErrors := RequireNonBlank(newErrors, form.email, Email, Message);
    newErrors := RequireNonBlank(newErrors, form.address, Address, Message);
    newErrors := RequireNonBlank(newErrors, form.emergencyContactName, EmergencyContactName,
                                 Message);
    newErrors := RequireNonBlank(newErrors, form.emergencyContactPhone, EmergencyContactPhone,
                                 Message);
  }

  class PatientFormModal {
    var formData: FormData
    var errors: map<Field, string>

    constructor (today: string)
      ensures formData == Initial(today) && errors == map[]
    {
      formData := Initial(today);
      errors := map[];
    }

    /** `handleChange`: sets the named field and blanks its error message. */
    method HandleChange(name: Field, value: string)
      modifies this
      ensures formData == old(formData).With(name, value)
      ensures errors == ClearError(old(errors), name)
    {
      formData := formData.With(name, value);
      errors := ClearError(errors, name);
    }

    /** `validate`: records the errors of the current form data and
        reports whether there are none. */
    method Validate() returns (valid: bool)
      modifies this
      ensures formData == old(formData)
      ensures forall f :: f in errors <==> Fails(formData, f)
      ensures Messages(errors)
      ensures valid <==> forall f :: !Fails(formData, f)
    {
      var newErrors := CheckFields(formData);
      ErrorsAreFailures(formData);
      errors := newErrors;
      valid := newErrors == map[];
    }

    /** `handleSubmit`: registers the payload with the patient service when
        the form is valid, and leaves the service untouched when it is not. */
    method HandleSubmit(store: PatientService.PatientStore) returns (submitted: bool)
      modifies this, store
      ensures formData == old(formData)
      ensures submitted <==> forall f :: !Fails(formData, f)
      ensures forall f :: f in errors <==> Fails(formData, f)
      ensures submitted ==>
        store.patients == old(store.patients) +
          [ToPatient(Payload(formData), NextId(old(store.patients), PatientService.PatientId), "Active")]
      ensures !submitted ==> store.patients == old(store.patients)
      ensures old(store.Valid()) ==> store.Valid()
      ensures Messages(errors)
    {
      submitted := Validate();
      if !submitted {
        return;
      }
      var created := store.Create(ToPatient(Payload(formData), 0, ""));
    }
  }
}
