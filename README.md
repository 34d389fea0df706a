# Hospital management: data services, report statistics and form logic

This project models the in-memory data layer of a hospital management web
application, and the pieces of page and form logic that compute on it.

- **The four services** (`src/services/api/`). Each keeps a module-level
  array of records: patients, appointments, departments or doctors.
  - The patient and appointment services change their array in place:
    `create` appends a record under the largest `Id` plus one, `update`
    shallow-merges a patch into the record, and `delete` splices it out.
    The department service has `update` only.
  - They answer lookups by `Id`, failing with a "not found" message when
    the `Id` is missing.
  - Some reads decorate the returned copies with derived fields: the
    doctor's and patient's names, the head doctor's name, and the
    occupancy rate.
  - The patient, appointment and department services are classes with a
    `seq` field and methods. The doctor service never changes its array,
    so it is a set of functions over it.
- **The reports page** (`Reports.jsx`). It computes counts by status, bed
  sums, available beds and the overall occupancy rate.
- **The patient registration form** (`PatientFormModal.jsx`). It validates
  fields, updates them and their error messages, and builds the payload
  that becomes a patient record.
- **The appointment booking form** (`AppointmentFormModal.jsx`). It does the
  same for appointments. It also preselects the first doctor of a
  department and shows the selected doctor's time slots.

Modules and their files:

| module | file | what it holds |
|---|---|---|
| `Results` | `results.dfy` | `Option` (with `GetOr` for the spread operator) and `Result`. |
| `Seqs` | `seqs.dfy` | Order-preserving `Map`, `Filter`, `Count` (that is, `filter(...).length`) and `Sum` (a `reduce` with `+`). |
| `Tables` | `tables.dfy` | What the stores share: `findIndex`, the next-`Id` rule, `splice`, and the table invariant "Ids are positive and pairwise distinct" with its preservation lemmas. |
| `Text` | `text.dfy` | The JavaScript string operations used: `trim`, `toLowerCase`, `includes`, `split`/`join`, `Number.prototype.toString` and `parseInt`. |
| `PatientService`, `AppointmentService`, `DepartmentService`, `DoctorService` | one file each | The four services. |
| `Reports` | `reports.dfy` | The statistics of the reports page. |
| `Forms`, `PatientForm`, `AppointmentForm` | `forms.dfy`, `patient_form.dfy`, `appointment_form.dfy` | The two form modals and the pieces they share. |

Each form's state (`formData`, `errors` and, for appointments, `doctors`
and `availableSlots`) is a class whose methods are the handlers.
`validate` builds its error map one check after another in `CheckFields`.
That method is proved equal to a specification function `Errors`, which
has an entry for exactly the failing fields.

## Model

| member | source | states |
|---|---|---|
| Tables.IndexOf | src/services/api/patientService.js:36 | `findIndex`: a found index is the first record with the Id; None exactly when no record has it. |
| Tables.FirstIsUnique | src/services/api/patientService.js:15 | `find` is well defined: at most one index is the first with a given Id. |
| Tables.MaxIdFrom | src/services/api/patientService.js:24 | The `reduce` with `Math.max` from 0 is at least the start, at least every Id, and equal to the start or to some Id. |
| Tables.NextId | src/services/api/patientService.js:24-27 | The minted Id is the largest Id plus one: at least 1, 1 on an empty table, above every existing Id (so no record has it), and either 1 or one more than some existing Id. |
| Tables.RemoveAt | src/services/api/patientService.js:50 | `splice(i, 1)` drops exactly the record at i and keeps the others in order. |
| Tables.AppendKeepsUnique | src/services/api/patientService.js:22-31 | Appending a record carrying the minted Id keeps Ids positive and distinct. |
| Tables.RemoveKeepsUnique | src/services/api/patientService.js:44-52 | Removing a record keeps Ids positive and distinct. |
| Tables.ReplaceKeepsUnique | src/services/api/patientService.js:34-42 | Replacing a record by one with the same Id keeps Ids positive and distinct. |
| Tables.AppendedIsFound | src/services/api/patientService.js:22-31 | After appending, a lookup of the minted Id finds the new record, at the end. |
| Tables.RemovedIsGone | src/services/api/patientService.js:44-52 | In a table with distinct Ids, the removed Id is absent afterwards. |
| Tables.ReplacedIsFound | src/services/api/patientService.js:34-42 | After replacing the first record with an Id by one with the same Id, the lookup finds it at the same index. |
| PatientService.Merge | src/services/api/patientService.js:40 | `{ ...p, ...patch }`: the empty object changes nothing, and the Id is the patch's Id when the patch has that key and the old Id otherwise. |
| PatientService.MergeCombine | src/services/api/patientService.js:40 | Two merges are one merge with the combined patch, the later keys winning; repeating a merge changes nothing more. |
| PatientService.Matches | src/services/api/patientService.js:57-61 | Every patient matches the empty query, and a query that occurs verbatim in the phone number matches. |
| PatientService.PatientStore.constructor | src/services/api/patientService.js:5 | The store starts as the fixture. |
| PatientService.PatientStore.GetAll | src/services/api/patientService.js:8-11 | The stored patients in store order: exactly what a search for the empty string returns. |
| PatientService.PatientStore.GetById | src/services/api/patientService.js:13-20 | Succeeds exactly when some patient has the Id, and then returns the first such one; otherwise fails with "Patient not found". |
| PatientService.PatientStore.Create | src/services/api/patientService.js:22-31 | Appends exactly the input with the minted Id and status "Active", whatever Id and status it carried. The new record is found under its Id, and the invariant is kept. |
| PatientService.PatientStore.Update | src/services/api/patientService.js:34-42 | A missing Id fails with "Patient not found" and changes nothing. Otherwise only the first matching index changes, to the merge. Without an Id key in the patch, the lookup returns the result and the invariant is kept. |
| PatientService.PatientStore.Delete | src/services/api/patientService.js:44-52 | A missing Id fails and changes nothing. Otherwise exactly the first matching record is spliced out, the invariant is kept, and the Id is then not found. |
| PatientService.PatientStore.Search | src/services/api/patientService.js:54-63 | Exactly the matching patients (case-insensitive on first name, last name and email; verbatim on phone), each as often as it is stored, as a subsequence in store order. The empty query returns every patient. |
| PatientService.IdPatchCanDuplicateIds | src/services/api/patientService.js:40 | A patch with an `Id` key can give two patients the same Id, so `update` keeps the invariant only for patches without one. |
| DoctorService.GetAll | src/services/api/doctorService.js:8-11 | All the fixture doctors in fixture order (same length, and a subsequence of the fixture). Every doctor is among those `getByDepartment` lists for its own department over the returned array. |
| DoctorService.GetById | src/services/api/doctorService.js:13-20 | Succeeds exactly when some doctor has the Id, and then returns the first such one; otherwise fails with "Doctor not found". |
| DoctorService.GetByDepartment | src/services/api/doctorService.js:22-25 | Exactly the doctors of the department, as a subsequence of the fixture and with their multiplicities. |
| DoctorService.DoctorName | src/services/api/appointmentService.js:16 | `find(...)?.name \|\| "Unknown"`: never empty. It is the first matching doctor's name, or "Unknown" when there is none or the name is empty. |
| AppointmentService.Merge | src/services/api/appointmentService.js:76 | `{ ...a, ...patch }`: the empty object changes nothing, and the Id is the patch's Id when the patch has that key and the old Id otherwise. |
| AppointmentService.StatusPatchOnlySetsStatus | src/services/api/appointmentService.js:76 | Merging `{ status }` changes the status and nothing else. |
| AppointmentService.PatientName | src/services/api/appointmentService.js:17-20 | "first last" of the first patient with the Id, or "Unknown" when there is none. |
| AppointmentService.WithNames | src/services/api/appointmentService.js:14-21 | One view per appointment, in order, carrying the stored record and both names. |
| AppointmentService.WithDoctorName | src/services/api/appointmentService.js:37-40 | One view per appointment, in order, with the doctor's name and no patient name. |
| AppointmentService.WithNamesSnoc | src/services/api/appointmentService.js:14-21 | Decorating commutes with appending one appointment. |
| AppointmentService.OfPatient | src/services/api/appointmentService.js:36 | Exactly the appointments of the patient, each as often as it is stored, as a subsequence in store order. |
| AppointmentService.OnDate | src/services/api/appointmentService.js:47 | Exactly the appointments on the date, each as often as it is stored, as a subsequence in store order. |
| AppointmentService.AppointmentStore.constructor | src/services/api/appointmentService.js:7-9 | The store and its private doctor and patient snapshots start as the fixtures. |
| AppointmentService.AppointmentStore.GetAll | src/services/api/appointmentService.js:12-22 | One view per stored appointment, in store order, with the names looked up in the snapshots. |
| AppointmentService.AppointmentStore.GetById | src/services/api/appointmentService.js:24-31 | An undecorated first match, or "Appointment not found" exactly when no appointment has the Id. |
| AppointmentService.AppointmentStore.GetByPatientId | src/services/api/appointmentService.js:33-41 | The records are exactly the patient's appointments in order, each with the doctor's name and without a patient name. |
| AppointmentService.AppointmentStore.GetTodayAppointments | src/services/api/appointmentService.js:43-56 | The records are exactly the appointments of the given day in order, with both names. |
| AppointmentService.AppointmentStore.Create | src/services/api/appointmentService.js:58-68 | Appends the input with the minted Id and status "Scheduled". It is found under that Id, and the invariant is kept. |
| AppointmentService.AppointmentStore.Update | src/services/api/appointmentService.js:70-78 | "Appointment not found" with no change, or a merge into exactly the first matching index. The invariant is kept for patches without an Id key. |
| AppointmentService.AppointmentStore.Delete | src/services/api/appointmentService.js:80-88 | "Appointment not found" with no change, or exactly one record spliced out. The invariant is kept and the Id is gone. |
| AppointmentService.NewPatientIsUnknown | src/services/api/appointmentService.js:8-9 | A patient created through the patient service and then booked is listed with patient name "Unknown", because the appointment service reads its own snapshot. |
| DepartmentService.Merge | src/services/api/departmentService.js:34 | `{ ...d, ...patch }`: the empty object changes nothing, and the Id is the patch's Id when the patch has that key and the old Id otherwise. |
| DepartmentService.RoundedPercent | src/services/api/departmentService.js:15 | `Math.round(part / whole * 100)` on exact rationals: the integer nearest to 100·part/whole, with halves rounded up. None (NaN or ±Infinity) exactly when whole is 0. |
| DepartmentService.RoundedPercentUnique | src/services/api/departmentService.js:15 | The rounding conditions determine the result. |
| DepartmentService.RoundedPercentBounds | src/services/api/departmentService.js:15 | Occupied beds between none and all of a positive total give a rate in 0..100. |
| DepartmentService.SevenOfTen | src/services/api/departmentService.js:15 | 7 of 10 beds is 70 percent. |
| DepartmentService.WithDerived | src/services/api/departmentService.js:12-16 | One view per department, in order, with the head doctor's name and the occupancy rate. |
| DepartmentService.DepartmentStore.constructor | src/services/api/departmentService.js:6-7 | The store and its doctor snapshot start as the fixtures. |
| DepartmentService.DepartmentStore.GetAll | src/services/api/departmentService.js:10-17 | Views of exactly the stored departments, in order, with the store only read. Consistent bed counts give a rate in 0..100. |
| DepartmentService.DepartmentStore.GetById | src/services/api/departmentService.js:19-26 | The first match, or "Department not found" exactly when no department has the Id. |
| DepartmentService.DepartmentStore.Update | src/services/api/departmentService.js:28-36 | "Department not found" with no change, or a merge into exactly the first matching index. The number of departments never changes, and the invariant is kept for patches without an Id key. |
| Seqs.Map | src/services/api/appointmentService.js:14 | `map`: one result per element, the i-th being f of the i-th element. |
| Seqs.Filter | src/components/pages/Reports.jsx:28-30 | `filter`: exactly the passing elements, with their multiplicities, as a subsequence. |
| Seqs.Count | src/components/pages/Reports.jsx:28-30 | `filter(...).length` is at most the length. |
| Seqs.CountIsFilterLength | src/components/pages/Reports.jsx:28-30 | The count is the length of the filtered sequence. |
| Seqs.CountSnoc | src/services/api/appointmentService.js:66 | A `push` adds one to a count exactly when the element passes. |
| Seqs.FilterAllPass | src/services/api/patientService.js:57-62 | A filter that every element passes returns the sequence itself. |
| Seqs.CountUpdate | src/services/api/appointmentService.js:76 | Replacing one element changes a count by what the old and new elements contribute. |
| Seqs.Sum | src/components/pages/Reports.jsx:32-33 | A `reduce` sum of non-negative terms is non-negative. |
| Seqs.SumLeSum | src/components/pages/Reports.jsx:32-33 | Termwise-smaller summands give a smaller `reduce` sum. |
| Reports.StatusCountsBounded | src/components/pages/Reports.jsx:28-30 | The scheduled, completed and cancelled counts add up to at most the number of appointments. |
| Reports.BedSumsBounded | src/components/pages/Reports.jsx:32-33 | With each department's occupied beds between 0 and its total, the occupied sum lies between 0 and the total sum. |
| Reports.ComputeStats | src/components/pages/Reports.jsx:28-50 | The totals are the lengths. The active count and the three status counts are the lengths of the corresponding `filter`s, and the status counts add up to at most the total. The bed figures are the `reduce` sums of total and occupied beds, and available = total − occupied. With consistent departments, 0 ≤ occupied and available ≤ total beds. |
| Reports.OverallOccupancy | src/components/pages/Reports.jsx:96 | The "Occupancy Rate" is undefined (the page shows NaN or ±Infinity) exactly when there are no beds. Otherwise it is 100·occupied/total rounded half up (the inequalities that pin down `Math.round`, for either sign of the total), and a percentage in 0..100 when occupied ≤ total. |
| Reports.OverallOccupancyBounded | src/components/pages/Reports.jsx:96 | Consistent departments with at least one bed give a defined rate in 0..100. |
| Reports.SingleDepartmentOccupancy | src/components/pages/Reports.jsx:96 | For one department, the page's overall rate equals the rate the department service reports. |
| Reports.BookingAddsScheduled | src/components/pages/Reports.jsx:28-30 | Booking through `create` adds one to the total and scheduled counts and leaves the completed and cancelled counts. |
| Reports.CompletingMovesCount | src/components/pages/Reports.jsx:28-30 | Updating a scheduled appointment to "Completed" moves one appointment from the scheduled count to the completed count. |
| Text.LeadingWhitespace | src/components/organisms/PatientFormModal.jsx:41 | The length of the whitespace run a string starts with. |
| Text.WithoutTrailingWhitespace | src/components/organisms/PatientFormModal.jsx:41 | The length of a string without the whitespace it ends with. |
| Text.Trim | src/components/organisms/PatientFormModal.jsx:41 | `trim`: the input is whitespace, then the result, then whitespace, and neither end of the result is whitespace. |
| Text.BlankIffAllWhitespace | src/components/organisms/PatientFormModal.jsx:41 | `!s.trim()` holds exactly when s is whitespace only, both ways. |
| Text.IsBlank | src/components/organisms/AppointmentFormModal.jsx:86 | The `!s.trim()` test is true exactly for whitespace-only strings. |
| Text.TrimAddsNothing | src/components/organisms/PatientFormModal.jsx:66 | Trimming introduces no character that was not there. |
| Text.ToLower | src/services/api/patientService.js:56-60 | `toLowerCase` keeps the length, maps each upper-case ASCII letter to its lower-case letter (code + 32), leaves no upper-case ASCII letter, and changes no other character. |
| Text.Includes | src/services/api/patientService.js:58-61 | Every string includes the empty string, and no string includes a longer one. |
| Text.IncludesIffOccurs | src/services/api/patientService.js:58-61 | `includes` holds exactly when the query occurs at some index. |
| Text.TrimStart | src/components/organisms/AppointmentFormModal.jsx:104 | The leading-whitespace skip of `parseInt` returns a suffix of the input that does not start with whitespace, and drops only whitespace. |
| Text.Split | src/components/organisms/PatientFormModal.jsx:66 | `split` returns at least one piece. |
| Text.SplitShape | src/components/organisms/PatientFormModal.jsx:66 | There is one more piece than there are separators, and no piece contains one. |
| Text.JoinSplit | src/components/organisms/PatientFormModal.jsx:66 | Joining the pieces back with the separator gives the string. |
| Text.SplitNoSep | src/components/organisms/PatientFormModal.jsx:66 | A string without the separator splits into itself. |
| Text.SplitAtSep | src/components/organisms/PatientFormModal.jsx:66 | Splitting a separator-free head, then the separator, then a tail, gives the head followed by the tail's pieces. |
| Text.SplitJoin | src/components/organisms/PatientFormModal.jsx:66 | Splitting a join of separator-free pieces gives the pieces back. |
| Text.NatToString | src/components/organisms/AppointmentFormModal.jsx:65 | `toString` of a natural number is a non-empty string of digits, with no leading zero: it starts with "0" exactly for 0. |
| Text.IntToString | src/components/organisms/AppointmentFormModal.jsx:65 | `toString` of an integer is non-empty, starts with a minus sign exactly when the integer is negative, and is digits apart from that sign. |
| Text.DigitRun | src/components/organisms/AppointmentFormModal.jsx:104 | `parseInt` reads the longest prefix of digits. |
| Text.ParseInt | src/components/organisms/AppointmentFormModal.jsx:104-105 | `parseInt` of the empty string is NaN. A string starting with a digit gives the value of its leading run of digits ("3x" gives 3), so a non-empty string of digits gives its decimal value. |
| Text.ParseIntSkipsWhitespace | src/components/organisms/AppointmentFormModal.jsx:104-105 | `parseInt` skips leading whitespace: a string and its whitespace-free suffix read as the same number. |
| Text.DigitsOfNat | src/components/organisms/AppointmentFormModal.jsx:65 | The digits of `toString` have the number's value. |
| Text.DigitRunOfDigits | src/components/organisms/AppointmentFormModal.jsx:104 | On a string of digits, `parseInt` reads every character. |
| Text.ParseIntToString | src/components/organisms/AppointmentFormModal.jsx:104-105 | `parseInt(n.toString())` is n, for every integer n. |
| Forms.RequireNonBlank | src/components/organisms/PatientFormModal.jsx:41 | `if (!v.trim()) newErrors[f] = m`: the entry is added exactly when the value is whitespace only, and an all-messages map stays one. |
| Forms.RequireNonEmpty | src/components/organisms/PatientFormModal.jsx:43 | `if (!v) newErrors[f] = m`: the entry is added exactly when the value is empty, and an all-messages map stays one. |
| Forms.ClearError | src/components/organisms/PatientFormModal.jsx:34-36 | The same keys; the named field's message becomes empty, and every other entry is unchanged. |
| PatientForm.FormData.With | src/components/organisms/PatientFormModal.jsx:33 | `{ ...prev, [name]: value }`: the named field takes the value and every other field keeps its own. |
| PatientForm.ErrorsAreFailures | src/components/organisms/PatientFormModal.jsx:40-48 | The error map has an entry for exactly the failing fields. |
| PatientForm.CheckFields | src/components/organisms/PatientFormModal.jsx:40-48 | The checks, one after another, build the error map of the form, with every entry holding its field's message. |
| PatientForm.AllergyList | src/components/organisms/PatientFormModal.jsx:66 | The allergy list is empty exactly when the text is. Otherwise item i is the i-th comma-separated piece, trimmed. |
| PatientForm.AllergyListShape | src/components/organisms/PatientFormModal.jsx:66 | The empty string gives no allergies. Otherwise there are commas + 1 allergies; item i is the i-th comma piece trimmed, containing no comma and not edged by whitespace. |
| PatientForm.TrimTwice | src/components/organisms/PatientFormModal.jsx:66 | Trimming is idempotent. |
| PatientForm.Payload | src/components/organisms/PatientFormModal.jsx:64-76 | Reading the payload back as a form restores every field except the allergies; the emergency-contact fields reach `emergencyContact`. The payload's allergies are the form's allergy text read as a list (`AllergyList`: empty for empty text, otherwise item i is the i-th comma piece, trimmed). |
| PatientForm.AllergiesRoundTrip | src/components/organisms/PatientFormModal.jsx:66 | A list of trimmed, comma-free names other than `[""]` survives joining by commas and being read back. |
| PatientForm.PayloadRoundTrip | src/components/organisms/PatientFormModal.jsx:64-76 | A payload with such an allergy list is rebuilt exactly from its form. |
| PatientForm.PayloadAllergiesCanonical | src/components/organisms/PatientFormModal.jsx:66 | Every payload's allergy list is of that kind, or is `[""]`. |
| PatientForm.PatientFormModal.constructor | src/components/organisms/PatientFormModal.jsx:10-28 | The initial form (gender "Male", blood group "A+", department "General Medicine", admission date today) has no errors. |
| PatientForm.PatientFormModal.HandleChange | src/components/organisms/PatientFormModal.jsx:31-37 | Only the named field changes, and only its message is cleared. |
| PatientForm.PatientFormModal.Validate | src/components/organisms/PatientFormModal.jsx:39-52 | The errors are exactly the failing fields, each with its message. The result is true exactly when no field fails, and the form is unchanged. |
| PatientForm.PatientFormModal.HandleSubmit | src/components/organisms/PatientFormModal.jsx:54-78 | An invalid form leaves the patient store untouched. A valid one appends the payload as a patient with the minted Id and status "Active". Either way the form is unchanged and the errors are exactly the failing fields, each with its message. |
| AppointmentForm.FormData.With | src/components/organisms/AppointmentFormModal.jsx:74 | `{ ...prev, [name]: value }`: the named field takes the value and every other field keeps its own. |
| AppointmentForm.Errors | src/components/organisms/AppointmentFormModal.jsx:81-88 | The error map has an entry for exactly the failing fields. |
| AppointmentForm.CheckFields | src/components/organisms/AppointmentFormModal.jsx:81-88 | The checks, one after another, build the error map of the form, with every entry holding its field's message. |
| AppointmentForm.SlotsFor | src/components/organisms/AppointmentFormModal.jsx:39-46 | For a non-empty selection whose `parseInt` matches a loaded doctor, the first such doctor's slots; otherwise None (the slots stay). |
| AppointmentForm.DefaultDoctorSlots | src/components/organisms/AppointmentFormModal.jsx:41-43 | The preselected first doctor, written as `Id.toString()` and read back with `parseInt`, shows its own slots. |
| AppointmentForm.Payload | src/components/organisms/AppointmentFormModal.jsx:102-106 | Both Ids are present exactly when both selects parse; a select holding `Id.toString()` gives that Id; every other field is copied unchanged. |
| AppointmentForm.PayloadRoundTrip | src/components/organisms/AppointmentFormModal.jsx:102-106 | Ids written into the selects come back as the same integers, and every other field is copied unchanged. |
| AppointmentForm.AppointmentFormModal.constructor | src/components/organisms/AppointmentFormModal.jsx:12-25 | The initial form (department "General Medicine", date today, slot "09:00 AM") has no doctors, slots or errors. |
| AppointmentForm.AppointmentFormModal.HandleChange | src/components/organisms/AppointmentFormModal.jsx:72-78 | Only the named field changes, and only its message is cleared. |
| AppointmentForm.AppointmentFormModal.LoadDoctorsByDepartment | src/components/organisms/AppointmentFormModal.jsx:60-70 | The department's doctors are loaded. With at least one, the selected doctor becomes the first, whose slots are the ones found; with none, the selection is unchanged. |
| AppointmentForm.AppointmentFormModal.SelectSlots | src/components/organisms/AppointmentFormModal.jsx:39-46 | The slots become the selected doctor's, and stay as they were when nothing is selected or no doctor matches. |
| AppointmentForm.AppointmentFormModal.Validate | src/components/organisms/AppointmentFormModal.jsx:80-90 | The errors are exactly the failing fields, each with its message. The result is true exactly when patient, doctor, date and slot are non-empty and the reason is not blank. |
| AppointmentForm.AppointmentFormModal.HandleSubmit | src/components/organisms/AppointmentFormModal.jsx:92-108 | An invalid form leaves the appointment store untouched. A valid one appends the payload, with integer Ids, under the minted Id and status "Scheduled". Either way the form, the loaded doctors and the slots are unchanged, and the errors are exactly the failing fields, each with its message. |

## Left out

- Simulated latency: the `delay` promises and `async` plumbing are left out, and every operation is synchronous.
- Fixture loading: the JSON fixtures are constructor parameters of the stores, and the doctor service takes its array as a parameter.
- Clock: `new Date().toISOString().split("T")[0]` is a `today` string parameter (the form constructors, `GetTodayAppointments`).
- Object identity and aliasing: records are immutable values, so the copies `getAll` and `getById` return are indistinguishable from the stored records.
- Service Id parameters are integers, and the services' own `parseInt(id)` is not applied to them. Most callers pass a number, but the patient detail page passes the route parameter string (src/components/pages/PatientDetail.jsx:16, 29-30 for the route `patients/:id` of src/router/index.jsx:50). There "3x" finds patient 3 and "abc" finds nothing: the lookup behaves as `GetById` applied to `Text.ParseInt` of the string, with None as not found. The model does not compose the two.
- PatientService.PatientStore.Create and AppointmentService.AppointmentStore.Create: Ids are unbounded integers. JavaScript numbers are doubles, so from 2^53 on `maxId + 1 == maxId`, `create` would reuse an Id, and the kept invariant would fail for the program. No fixture comes near that range.
- Text: a Dafny `char` is a Unicode scalar value, while JavaScript strings are sequences of UTF-16 code units. `trim`, `includes`, `split` and `toLowerCase` differ between the two only on strings holding lone surrogates, which the model cannot represent.
- Text.ToLower: covers the ASCII letters A–Z only, not full Unicode case mapping.
- Text.ParseInt: covers the decimal path only (whitespace, sign, digits); the `0x` prefix and radix detection are left out.
- Text.IntToString: numbers whose `toString` uses exponent notation (21 digits and more) are not modelled.
- DepartmentService.RoundedPercent: exact rational arithmetic replaces the floating-point division, so results can differ from the browser where a float product lands just beside a half. A total of 0 gives None (NaN or Infinity), not a precondition.
- AppointmentForm.AppointmentFormModal.HandleSubmit: requires that a valid form's two Ids parse. Creating an appointment with `NaN` Ids cannot happen through the selects, which offer only `Id.toString()` values, and is not representable in the integer record.
- PatientForm.Message and AppointmentForm.Message: give the empty string for fields the form never checks; no error entry ever holds it.
- React scheduling: each `setState` is applied at once, and the effects are methods (`LoadDoctorsByDepartment` for the department effect, `SelectSlots` for the doctor effect) for the caller to run in the order React would.
- `loadInitialData` of the appointment form (the patient list for the select), the toasts, the `submitting` and `loading` flags, and everything rendered.
- Error propagation from `create` inside `handleSubmit`: the in-memory `create` cannot fail, so the `catch` branch is unreachable.
- Status transitions: the appointment store does not enforce any, so none is claimed.
- The pages that duplicate these computations (the dashboard's sums, the patients page's search, the departments page's colour thresholds) are not modelled.
- Ids: the code lets an `update` patch overwrite `Id`, so the invariant is proved only for patches without an `Id` key. `PatientService.IdPatchCanDuplicateIds` shows a patch that breaks it.
