/** The doctor service (src/services/api/doctorService.js): read-only
    queries over the doctor fixture. The service never changes its array, so
    each query is a function of it. */
module DoctorService {
  import opened Results
  import opened Tables
  import opened Seqs

  datatype Doctor = Doctor(
    id: int,
    name: string,
    specialization: string,
    department: string,
    availableSlots: seq<string>)

  function DoctorId(d: Doctor): int { d.id }

  /** `getAll`: the doctors, all of them in fixture order; each doctor is
      among those listed for its own department. */
  function GetAll(doctors: seq<Doctor>): (r: seq<Doctor>)
    ensures |r| == |doctors| && IsSubsequence(r, doctors)
    ensures forall d :: d in doctors ==> d in GetByDepartment(r, d.department)
  {
    SubsequenceOfItself(doctors);
    doctors
  }

  /** `getById`: the first doctor with the Id, or "Doctor not found". */
  function GetById(doctors: seq<Doctor>, id: int): (r: Result<Doctor>)
    ensures r.Ok? <==> !Absent(doctors, DoctorId, id)
    ensures forall i :: IsFirst(doctors, DoctorId, id, i) ==> r == Ok(doctors[i])
    ensures r.Err? ==> r == Err("Doctor not found")
  {
    match IndexOf(doctors, DoctorId, id)
    case None => Err("Doctor not found")
    case Some(i) =>
      assert forall j :: IsFirst(doctors, DoctorId, id, j) ==> j == i;
      Ok(doctors[i])
  }

  /** `getByDepartment`: exactly the doctors of the department, in fixture
      order and with their multiplicities. */
  function GetByDepartment(doctors: seq<Doctor>, department: string): (r: seq<Doctor>)
    ensures forall d :: d in r ==> d in doctors && d.department == department
    ensures forall d :: d in doctors && d.department == department ==> d in r
    ensures forall d :: d in doctors && d.department == department ==> multiset(r)[d] == multiset(doctors)[d]
    ensures IsSubsequence(r, doctors)
  {
    Filter(doctors, (d: Doctor) => d.department == department)
  }

  /** The name the appointment and department services show for a doctor Id,
      `doctors.find(d => d.Id === id)?.name || "Unknown"`: the name of the
      first doctor with the Id, or "Unknown" when there is none or the name
      is empty. */
  function DoctorName(doctors: seq<Doctor>, id: int): (name: string)
    ensures name != []
    ensures Absent(doctors, DoctorId, id) ==> name == "Unknown"
    ensures forall i :: IsFirst(doctors, DoctorId, id, i) ==>
      name == if doctors[i].name == [] then "Unknown" else doctors[i].name
  {
    match IndexOf(doctors, DoctorId, id)
    case None => "Unknown"
    case Some(i) =>
      assert forall j :: IsFirst(doctors, DoctorId, id, j) ==> j == i;
      if doctors[i].name == [] then "Unknown" else doctors[i].name
  }
}
