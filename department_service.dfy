/** The department service (src/services/api/departmentService.js): a
    module-level array of departments that only `update` changes, in place,
    and reads that add the head doctor's name and the occupancy rate to
    returned copies. There is no create and no delete. */
module DepartmentService {
  import opened Results
  import opened Tables
  import opened Seqs
  import opened DoctorService

  datatype Department = Department(
    id: int,
    name: string,
    floor: int,
    totalBeds: int,
    occupiedBeds: int,
    headDoctorId: int)

  function DepartmentId(d: Department): int { d.id }

  /** The object an `update` caller passes; None where it lacks the key. */
  datatype DepartmentPatch = DepartmentPatch(
    id: Option<int>,
    name: Option<string>,
    floor: Option<int>,
    totalBeds: Option<int>,
    occupiedBeds: Option<int>,
    headDoctorId: Option<int>)

  /** The empty object `{}`. */
  const NoKeys := DepartmentPatch(None, None, None, None, None, None)

  /** `{ ...d, ...patch }`: each key of the patch overrides, every other
      field keeps its value. The empty object changes nothing, and the Id
      changes only through an `id` key. */
  function Merge(d: Department, patch: DepartmentPatch): (r: Department)
    ensures patch == NoKeys ==> r == d
    ensures r.id == if patch.id.Some? then patch.id.value else d.id
  {
    Department(
      patch.id.GetOr(d.id),
      patch.name.GetOr(d.name),
      patch.floor.GetOr(d.floor),
      patch.totalBeds.GetOr(d.totalBeds),
      patch.occupiedBeds.GetOr(d.occupiedBeds),
      patch.headDoctorId.GetOr(d.headDoctorId))
  }

  /** `Math.round(part / whole * 100)` on exact rationals: the integer
      nearest to 100 * part / whole, a half rounded up. None where the
      quotient is not finite (whole is 0). */
  function RoundedPercent(part: int, whole: int): (r: Option<int>)
    ensures r.None? <==> whole == 0
    ensures r.Some? && whole > 0 ==> 2 * whole * r.value <= 200 * part + whole < 2 * whole * (r.value + 1)
    ensures r.Some? && whole < 0 ==> -2 * whole * r.value <= -200 * part - whole < -2 * whole * (r.value + 1)
  {
    if whole == 0 then None
    else
      var p := if whole > 0 then part else -part;
      var w := if whole > 0 then whole else -whole;
      var n := 200 * p + w;
      var q := n / (2 * w);
      assert n == 2 * w * q + n % (2 * w) && 0 <= n % (2 * w) < 2 * w;
      Some(q)
  }

  lemma CancelPositive(c: int, a: int, b: int)
    requires c > 0 && c * a < c * b
    ensures a < b
  {
  }

  /** The rounding conditions pin the result down: no other integer meets them. */
  lemma RoundedPercentUnique(part: int, whole: int, x: int)
    requires whole > 0
    requires 2 * whole * x <= 200 * part + whole < 2 * whole * (x + 1)
    ensures RoundedPercent(part, whole) == Some(x)
  {
    var r := RoundedPercent(part, whole).value;
    CancelPositive(2 * whole, r, x + 1);
    CancelPositive(2 * whole, x, r + 1);
  }

  /** A share of occupied beds between none and all gives a rate between 0
      and 100. */
  lemma RoundedPercentBounds(part: int, whole: int)
    requires 0 <= part <= whole && whole > 0
    ensures RoundedPercent(part, whole).Some?
    ensures 0 <= RoundedPercent(part, whole).value <= 100
  {
    var r := RoundedPercent(part, whole).value;
    assert 2 * whole * r < 2 * whole * 101;
    CancelPositive(2 * whole, r, 101);
    assert 2 * whole * 0 < 2 * whole * (r + 1);
    CancelPositive(2 * whole, 0, r + 1);
  }

  /** A returned department: every stored field plus the derived
      `headDoctorName` and `occupancyRate`. */
  datatype DepartmentView = DepartmentView(
    record: Department,
    headDoctorName: string,
    occupancyRate: Option<int>)

  /** The stored part of each returned view, in order. */
  function Records(views: seq<DepartmentView>): seq<Department>
  {
    Map(views, (v: DepartmentView) => v.record)
  }

  /** The decoration `getAll` applies. */
  function WithDerived(depts: seq<Department>, doctors: seq<Doctor>): (r: seq<DepartmentView>)
    ensures Records(r) == depts
    ensures forall i :: 0 <= i < |r| ==>
      && r[i].headDoctorName == DoctorName(doctors, depts[i].headDoctorId)
      && r[i].occupancyRate == RoundedPercent(depts[i].occupiedBeds, depts[i].totalBeds)
  {
    seq(|depts|, i requires 0 <= i < |depts| =>
      DepartmentView(depts[i], DoctorName(doctors, depts[i].headDoctorId),
                     RoundedPercent(depts[i].occupiedBeds, depts[i].totalBeds)))
  }

  class DepartmentStore {
    var departments: seq<Department>
    /** The service's own copy of the doctor fixture. */
    const doctors: seq<Doctor>

    constructor (departmentFixture: seq<Department>, doctorFixture: seq<Doctor>)
      ensures departments == departmentFixture && doctors == doctorFixture
    {
      departments := departmentFixture;
      doctors := doctorFixture;
    }

    predicate Valid()
      reads this
    {
      UniqueIds(departments, DepartmentId)
    }

    /** `getAll`: one view per department, in store order; the derived
        fields exist only on the returned views, the store is read only. */
    function GetAll(): (r: seq<DepartmentView>)
      reads this
      ensures Records(r) == departments
      ensures forall i :: 0 <= i < |r| ==>
        && r[i].headDoctorName == DoctorName(doctors, departments[i].headDoctorId)
        && r[i].occupancyRate == RoundedPercent(departments[i].occupiedBeds, departments[i].totalBeds)
      ensures forall i :: 0 <= i < |r| && 0 <= departments[i].occupiedBeds <= departments[i].totalBeds
                          && departments[i].totalBeds > 0
                ==> r[i].occupancyRate.Some? && 0 <= r[i].occupancyRate.value <= 100
    {
      var r := WithDerived(departments, doctors);
      forall i | 0 <= i < |r| && 0 <= departments[i].occupiedBeds <= departments[i].totalBeds
                 && departments[i].totalBeds > 0
        ensures r[i].occupancyRate.Some? && 0 <= r[i].occupancyRate.value <= 100
      {
        RoundedPercentBounds(departments[i].occupiedBeds, departments[i].totalBeds);
      }
      r
    }

    /** `getById`: a copy of the first department with the Id, or the error. */
    function GetById(id: int): (r: Result<Department>)
      reads this
      ensures r.Ok? <==> !Absent(departments, DepartmentId, id)
      ensures forall i :: IsFirst(departments, DepartmentId, id, i) ==> r == Ok(departments[i])
      ensures r.Err? ==> r == Err("Department not found")
    {
      match IndexOf(departments, DepartmentId, id)
      case None => Err("Department not found")
      case Some(i) =>
        assert forall j :: IsFirst(departments, DepartmentId, id, j) ==> j == i;
        Ok(departments[i])
    }

    /** `update`: merges the patch into the first department with the Id,
        or fails and changes nothing; the number of departments never
        changes. */
    method Update(id: int, patch: DepartmentPatch) returns (r: Result<Department>)
      modifies this
      ensures var before := old(departments);
        match IndexOf(before, DepartmentId, id)
        case None => r == Err("Department not found") && departments == before
        case Some(i) => departments == before[i := Merge(before[i], patch)] && r == Ok(departments[i])
      ensures |departments| == |old(departments)|
      ensures patch.id.None? && r.Ok? ==> GetById(id) == r
      ensures old(Valid()) && patch.id.None? ==> Valid()
    {
      var index := IndexOf(departments, DepartmentId, id);
      if index.None? {
        return Err("Department not found");
      }
      var i := index.value;
      var merged := Merge(departments[i], patch);
      if patch.id.None? {
        ReplacedIsFound(departments, DepartmentId, i, merged);
        if Valid() {
          ReplaceKeepsUnique(departments, DepartmentId, i, merged);
        }
      }
      departments := departments[i := merged];
      r := Ok(merged);
    }
  }

  /** A ward of 10 beds with 7 occupied is reported at 70 percent. */
  lemma SevenOfTen()
    ensures RoundedPercent(7, 10) == Some(70)
  {
    RoundedPercentUnique(7, 10, 70);
  }
}
