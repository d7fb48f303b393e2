/**
 * The dashboard's counters: each is the length of a filtered store list. `dayOf` is
 * `new Date(s).toDateString()`, reduced to a day number (`None` for an invalid date), and
 * `today` is the day number of `new Date()`.
 */
module Dashboard {
  import opened Wrappers
  import opened EmployeeTypes
  import opened VehicleTypes
  import opened LeaveTypes
  import opened ShiftTypes
  import Seqs

  function IsActive(e: Employee): bool { e.isActive }

  function InMaintenance(v: Vehicle): bool { v.status == Maintenance }

  function WithStatus(status: LeaveStatus): LeaveRequest -> bool
  {
    (r: LeaveRequest) => r.status == status
  }

  function ShiftToday(dayOf: string -> Option<int>, today: int): Shift -> bool
  {
    (s: Shift) => dayOf(s.date) == Some(today) && s.status != ShiftStatus.Cancelled
  }

  /** `activeEmployees`. */
  function ActiveEmployees(es: seq<Employee>): nat
  {
    |Seqs.Filter(es, IsActive)|
  }

  /** `vehiclesInMaintenance`. */
  function VehiclesInMaintenance(vs: seq<Vehicle>): nat
  {
    |Seqs.Filter(vs, InMaintenance)|
  }

  /** The requests in one status: `pendingLeaveRequests` and the leave summary's tiles. */
  function LeaveCount(rs: seq<LeaveRequest>, status: LeaveStatus): nat
  {
    |Seqs.Filter(rs, WithStatus(status))|
  }

  /** `todayShifts`. */
  function TodayShifts(shifts: seq<Shift>, dayOf: string -> Option<int>, today: int): nat
  {
    |Seqs.Filter(shifts, ShiftToday(dayOf, today))|
  }

  /** The leave summary panel. */
  datatype LeaveSummary = LeaveSummary(approved: nat, pending: nat, rejected: nat, total: nat)

  function Summary(rs: seq<LeaveRequest>): LeaveSummary
  {
    LeaveSummary(LeaveCount(rs, Approved), LeaveCount(rs, Pending), LeaveCount(rs, Rejected), |rs|)
  }

  /** No counter exceeds the length of the list it filters. */
  lemma CountersBounded(es: seq<Employee>, vs: seq<Vehicle>, rs: seq<LeaveRequest>, shifts: seq<Shift>,
                        dayOf: string -> Option<int>, today: int)
    ensures ActiveEmployees(es) <= |es| && VehiclesInMaintenance(vs) <= |vs|
    ensures LeaveCount(rs, Pending) <= |rs| && TodayShifts(shifts, dayOf, today) <= |shifts|
  {
  }

  /**
   * The four statuses split the requests: the tiles for approved, pending and rejected add up
   * to the total less the cancelled requests, so never to more than the total.
   */
  lemma {:induction false} SummarySpec(rs: seq<LeaveRequest>)
    ensures Summary(rs).approved + Summary(rs).pending + Summary(rs).rejected + LeaveCount(rs, LeaveStatus.Cancelled) == Summary(rs).total
    ensures Summary(rs).approved + Summary(rs).pending + Summary(rs).rejected <= Summary(rs).total
  {
    var ap := (r: LeaveRequest) => r.status == Approved || r.status == Pending;
    var apr := (r: LeaveRequest) => ap(r) || r.status == Rejected;
    var all := (r: LeaveRequest) => apr(r) || r.status == LeaveStatus.Cancelled;
    Seqs.FilterCountDisjoint(rs, WithStatus(Approved), WithStatus(Pending), ap);
    Seqs.FilterCountDisjoint(rs, ap, WithStatus(Rejected), apr);
    Seqs.FilterCountDisjoint(rs, apr, WithStatus(LeaveStatus.Cancelled), all);
    Seqs.FilterKeepsAll(rs, all);
  }

  /**
   * A shift counts for today exactly when its date falls on today and it is not cancelled: the
   * count is that of today's shifts once the cancelled ones are set aside.
   */
  lemma TodayShiftsSpec(shifts: seq<Shift>, dayOf: string -> Option<int>, today: int)
    ensures forall s :: s in Seqs.Filter(shifts, ShiftToday(dayOf, today)) <==>
      s in shifts && dayOf(s.date) == Some(today) && s.status != ShiftStatus.Cancelled
    ensures TodayShifts(shifts, dayOf, today)
      == |Seqs.Filter(Seqs.Filter(shifts, (s: Shift) => s.status != ShiftStatus.Cancelled), (s: Shift) => dayOf(s.date) == Some(today))|
  {
    Seqs.FilterMembers(shifts, ShiftToday(dayOf, today));
    Seqs.FilterFilter(shifts, (s: Shift) => s.status != ShiftStatus.Cancelled,
                      (s: Shift) => dayOf(s.date) == Some(today), ShiftToday(dayOf, today));
  }

  /**
   * Counters follow the store's append: adding an employee raises `activeEmployees` by one
   * exactly when the new employee is active, adding a vehicle raises `vehiclesInMaintenance`
   * exactly when it is in maintenance, adding a shift raises `todayShifts` exactly when it is
   * dated today and not cancelled, and adding a request raises its status's count by one and
   * leaves the other statuses' counts alone.
   */
  lemma CountersAfterAppend(es: seq<Employee>, e: Employee, vs: seq<Vehicle>, v: Vehicle,
                            shifts: seq<Shift>, s: Shift, dayOf: string -> Option<int>, today: int,
                            rs: seq<LeaveRequest>, r: LeaveRequest, status: LeaveStatus)
    ensures ActiveEmployees(es + [e]) == ActiveEmployees(es) + (if e.isActive then 1 else 0)
    ensures VehiclesInMaintenance(vs + [v]) == VehiclesInMaintenance(vs) + (if v.status == Maintenance then 1 else 0)
    ensures TodayShifts(shifts + [s], dayOf, today) == TodayShifts(shifts, dayOf, today)
      + (if dayOf(s.date) == Some(today) && s.status != ShiftStatus.Cancelled then 1 else 0)
    ensures LeaveCount(rs + [r], status) == LeaveCount(rs, status) + (if r.status == status then 1 else 0)
  {
    Seqs.FilterAppend(es, [e], IsActive);
    Seqs.FilterAppend(vs, [v], InMaintenance);
    Seqs.FilterAppend(shifts, [s], ShiftToday(dayOf, today));
    Seqs.FilterAppend(rs, [r], WithStatus(status));
  }
}
