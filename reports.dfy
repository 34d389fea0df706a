/** The statistics of the reports page (src/components/pages/Reports.jsx):
    counts and bed sums over what the three services' `getAll` return, and
    the overall occupancy figure shown from them. */
module Reports {
  import opened Results
  import opened Seqs
  import PatientService
  import AppointmentService
  import DepartmentService
  import DoctorService

  datatype Stats = Stats(
    totalPatients: nat,
    activePatients: nat,
    totalAppointments: nat,
    scheduledAppointments: nat,
    completedAppointments: nat,
    cancelledAppointments: nat,
    totalBeds: int,
    occupiedBeds: int,
    availableBeds: int,
    totalDepartments: nat)

  function HasStatus(status: string): AppointmentService.AppointmentView -> bool
  {
    (v: AppointmentService.AppointmentView) => v.record.status == status
  }

  predicate IsActive(p: PatientService.Patient)
  {
    p.status == "Active"
  }

  function TotalBedsOf(v: DepartmentService.DepartmentView): int { v.record.totalBeds }

  function OccupiedBedsOf(v: DepartmentService.DepartmentView): int { v.record.occupiedBeds }

  /** Every department has between none and all of its beds occupied. */
  predicate BedsConsistent(departments: seq<DepartmentService.DepartmentView>)
  {
    forall i :: 0 <= i < |departments| ==>
      0 <= departments[i].record.occupiedBeds <= departments[i].record.totalBeds
  }

  /** The three statuses are distinct, so no appointment is counted twice. */
  lemma {:induction false} StatusCountsBounded(apts: seq<AppointmentService.AppointmentView>)
    ensures Count(apts, HasStatus("Scheduled")) + Count(apts, HasStatus("Completed"))
            + Count(apts, HasStatus("Cancelled")) <= |apts|
  {
    if apts != [] {
      StatusCountsBounded(apts[1..]);
    }
  }

  /** With consistent departments the occupied beds add up to between none
      and the total. */
  lemma BedSumsBounded(departments: seq<DepartmentService.DepartmentView>)
    ensures BedsConsistent(departments) ==>
      0 <= Sum(departments, OccupiedBedsOf) <= Sum(departments, TotalBedsOf)
  {
    if BedsConsistent(departments) {
      SumLeSum(departments, OccupiedBedsOf, TotalBedsOf);
    }
  }

  /** The statistics `loadReportData` computes from the patients, the
      decorated appointments and the decorated departments. */
  function ComputeStats(patients: seq<PatientService.Patient>,
                        appointments: seq<AppointmentService.AppointmentView>,
                        departments: seq<DepartmentService.DepartmentView>): (s: Stats)
    ensures s.totalPatients == |patients| && s.activePatients <= s.totalPatients
    ensures s.activePatients == |Filter(patients, IsActive)|
    ensures s.totalAppointments == |appointments|
    ensures s.scheduledAppointments == |Filter(appointments, HasStatus("Scheduled"))|
    ensures s.completedAppointments == |Filter(appointments, HasStatus("Completed"))|
    ensures s.cancelledAppointments == |Filter(appointments, HasStatus("Cancelled"))|
    ensures s.scheduledAppointments + s.completedAppointments + s.cancelledAppointments
            <= s.totalAppointments
    ensures s.totalBeds == Sum(departments, TotalBedsOf)
    ensures s.occupiedBeds == Sum(departments, OccupiedBedsOf)
    ensures s.availableBeds == s.totalBeds - s.occupiedBeds
    ensures s.totalDepartments == |departments|
    ensures BedsConsistent(departments) ==>
      0 <= s.occupiedBeds <= s.totalBeds && 0 <= s.availableBeds <= s.totalBeds
  {
    StatusCountsBounded(appointments);
    BedSumsBounded(departments);
    CountIsFilterLength(patients, IsActive);
    CountIsFilterLength(appointments, HasStatus("Scheduled"));
    CountIsFilterLength(appointments, HasStatus("Completed"));
    CountIsFilterLength(appointments, HasStatus("Cancelled"));
    var totalBeds := Sum(departments, TotalBedsOf);
    var occupiedBeds := Sum(departments, OccupiedBedsOf);
    Stats(
      |patients|,
      Count(patients, IsActive),
      |appointments|,
      Count(appointments, HasStatus("Scheduled")),
      Count(appointments, HasStatus("Completed")),
      Count(appointments, HasStatus("Cancelled")),
      totalBeds,
      occupiedBeds,
      totalBeds - occupiedBeds,
      |departments|)
  }

  /** The "Occupancy Rate" figure: occupied over total beds as a rounded
      percentage; None where the page shows "NaN%", "Infinity%" or
      "-Infinity%" (no beds at all). */
  function OverallOccupancy(s: Stats): (r: Option<int>)
    ensures r.None? <==> s.totalBeds == 0
    ensures s.totalBeds > 0 ==>
      2 * s.totalBeds * r.value <= 200 * s.occupiedBeds + s.totalBeds < 2 * s.totalBeds * (r.value + 1)
    ensures s.totalBeds < 0 ==>
      -2 * s.totalBeds * r.value <= -200 * s.occupiedBeds - s.totalBeds < -2 * s.totalBeds * (r.value + 1)
    ensures 0 <= s.occupiedBeds <= s.totalBeds && s.totalBeds > 0 ==> 0 <= r.value <= 100
  {
    if 0 <= s.occupiedBeds <= s.totalBeds && s.totalBeds > 0 then
      DepartmentService.RoundedPercentBounds(s.occupiedBeds, s.totalBeds);
      DepartmentService.RoundedPercent(s.occupiedBeds, s.totalBeds)
    else
      DepartmentService.RoundedPercent(s.occupiedBeds, s.totalBeds)
  }

  /** With consistent departments and at least one bed, the overall figure
      is a percentage between 0 and 100. */
  lemma OverallOccupancyBounded(patients: seq<PatientService.Patient>,
                                appointments: seq<AppointmentService.AppointmentView>,
                                departments: seq<DepartmentService.DepartmentView>)
    requires BedsConsistent(departments)
    requires Sum(departments, TotalBedsOf) > 0
    ensures var r := OverallOccupancy(ComputeStats(patients, appointments, departments));
      r.Some? && 0 <= r.value <= 100
  {
  }

  /** For a single department the page's overall figure is the rate the
      department service reports for it. */
  lemma SingleDepartmentOccupancy(patients: seq<PatientService.Patient>,
                                  appointments: seq<AppointmentService.AppointmentView>,
                                  d: DepartmentService.Department, doctors: seq<DoctorService.Doctor>)
    ensures var views := DepartmentService.WithDerived([d], doctors);
      OverallOccupancy(ComputeStats(patients, appointments, views)) == views[0].occupancyRate
  {
    var views := DepartmentService.WithDerived([d], doctors);
    assert views[0].record == DepartmentService.Records(views)[0] == d;
    assert views[1..] == [];
    assert Sum(views, TotalBedsOf) == d.totalBeds;
    assert Sum(views, OccupiedBedsOf) == d.occupiedBeds;
  }

  /** Booking an appointment through the service adds one to the total and
      to the scheduled count and leaves the other two counts alone. */
  lemma BookingAddsScheduled(patients: seq<PatientService.Patient>,
                             apts: seq<AppointmentService.Appointment>,
                             booked: AppointmentService.Appointment,
                             doctors: seq<DoctorService.Doctor>,
                             known: seq<PatientService.Patient>,
                             departments: seq<DepartmentService.DepartmentView>)
    requires booked.status == "Scheduled"
    ensures var before := ComputeStats(patients, AppointmentService.WithNames(apts, doctors, known), departments);
      var after := ComputeStats(patients, AppointmentService.WithNames(apts + [booked], doctors, known), departments);
      && after.totalAppointments == before.totalAppointments + 1
      && after.scheduledAppointments == before.scheduledAppointments + 1
      && after.completedAppointments == before.completedAppointments
      && after.cancelledAppointments == before.cancelledAppointments
  {
    var views := AppointmentService.WithNames(apts, doctors, known);
    var v := AppointmentService.WithNames([booked], doctors, known)[0];
    AppointmentService.WithNamesSnoc(apts, booked, doctors, known);
    assert AppointmentService.WithNames([booked], doctors, known) == [v];
    CountSnoc(views, v, HasStatus("Scheduled"));
    CountSnoc(views, v, HasStatus("Completed"));
    CountSnoc(views, v, HasStatus("Cancelled"));
  }

  /** Marking a scheduled appointment completed, as the appointments page
      does with `update(id, { status: "Completed" })`, moves one appointment
      from the scheduled count to the completed count. */
  lemma CompletingMovesCount(patients: seq<PatientService.Patient>,
                             apts: seq<AppointmentService.Appointment>, i: int,
                             doctors: seq<DoctorService.Doctor>,
                             known: seq<PatientService.Patient>,
                             departments: seq<DepartmentService.DepartmentView>)
    requires 0 <= i < |apts| && apts[i].status == "Scheduled"
    ensures var updated := apts[i := AppointmentService.Merge(apts[i], AppointmentService.StatusPatch("Completed"))];
      var before := ComputeStats(patients, AppointmentService.WithNames(apts, doctors, known), departments);
      var after := ComputeStats(patients, AppointmentService.WithNames(updated, doctors, known), departments);
      && after.totalAppointments == before.totalAppointments
      && after.scheduledAppointments == before.scheduledAppointments - 1
      && after.completedAppointments == before.completedAppointments + 1
      && after.cancelledAppointments == before.cancelledAppointments
  {
    var updated := apts[i := AppointmentService.Merge(apts[i], AppointmentService.StatusPatch("Completed"))];
    var views := AppointmentService.WithNames(apts, doctors, known);
    var newViews := AppointmentService.WithNames(updated, doctors, known);
    assert newViews == views[i := newViews[i]];
    AppointmentService.StatusPatchOnlySetsStatus(apts[i], "Completed");
    CountUpdate(views, i, newViews[i], HasStatus("Scheduled"));
    CountUpdate(views, i, newViews[i], HasStatus("Completed"));
    CountUpdate(views, i, newViews[i], HasStatus("Cancelled"));
  }
}
