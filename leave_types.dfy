/** Leave requests, leave balances, their filters and the partial records the leave store spreads. */
module LeaveTypes {
  import opened Wrappers

  datatype LeaveType = Vacation | Medical | Personal | Bereavement | OtherLeave
  datatype LeaveStatus = Pending | Approved | Rejected | Cancelled

  datatype LeaveRequest = LeaveRequest(
    id: string,
    employeeId: string,
    leaveType: LeaveType,
    startDate: string,
    endDate: string,
    reason: string,
    status: LeaveStatus,
    createdAt: string,
    updatedAt: string,
    approvedBy: Option<string>,
    approvedAt: Option<string>,
    comments: Option<string>,
    attachments: Option<seq<string>>,
    totalDays: int)

  datatype DayAllowance = DayAllowance(total: int, used: int, remaining: int)
  datatype MedicalDays = MedicalDays(used: int)

  datatype LeaveBalance = LeaveBalance(
    employeeId: string,
    year: int,
    vacationDays: DayAllowance,
    medicalDays: MedicalDays,
    personalDays: DayAllowance)

  datatype LeaveFilters = LeaveFilters(
    employeeId: Option<string>, leaveType: Option<LeaveType>, status: Option<LeaveStatus>,
    startDate: Option<string>, endDate: Option<string>)

  const NoLeaveFilters := LeaveFilters(None, None, None, None, None)

  /** `Partial<LeaveRequest>`. */
  datatype LeaveRequestPatch = LeaveRequestPatch(
    id: Option<string>,
    employeeId: Option<string>,
    leaveType: Option<LeaveType>,
    startDate: Option<string>,
    endDate: Option<string>,
    reason: Option<string>,
    status: Option<LeaveStatus>,
    createdAt: Option<string>,
    updatedAt: Option<string>,
    approvedBy: Option<string>,
    approvedAt: Option<string>,
    comments: Option<string>,
    attachments: Option<seq<string>>,
    totalDays: Option<int>)

  /** `Partial<LeaveBalance>`; the nested day counters are replaced whole, as a spread does. */
  datatype LeaveBalancePatch = LeaveBalancePatch(
    employeeId: Option<string>,
    year: Option<int>,
    vacationDays: Option<DayAllowance>,
    medicalDays: Option<MedicalDays>,
    personalDays: Option<DayAllowance>)

  function RequestId(r: LeaveRequest): string { r.id }

  function BalanceEmployee(b: LeaveBalance): string { b.employeeId }

  /** `{ ...r, ...p }`. */
  function MergeRequest(r: LeaveRequest, p: LeaveRequestPatch): LeaveRequest {
    LeaveRequest(
      p.id.GetOr(r.id),
      p.employeeId.GetOr(r.employeeId),
      p.leaveType.GetOr(r.leaveType),
      p.startDate.GetOr(r.startDate),
      p.endDate.GetOr(r.endDate),
      p.reason.GetOr(r.reason),
      p.status.GetOr(r.status),
      p.createdAt.GetOr(r.createdAt),
      p.updatedAt.GetOr(r.updatedAt),
      p.approvedBy.Or(r.approvedBy),
      p.approvedAt.Or(r.approvedAt),
      p.comments.Or(r.comments),
      p.attachments.Or(r.attachments),
      p.totalDays.GetOr(r.totalDays))
  }

  /** `{ ...b, ...p }`. */
  function MergeBalance(b: LeaveBalance, p: LeaveBalancePatch): LeaveBalance {
    LeaveBalance(
      p.employeeId.GetOr(b.employeeId),
      p.year.GetOr(b.year),
      p.vacationDays.GetOr(b.vacationDays),
      p.medicalDays.GetOr(b.medicalDays),
      p.personalDays.GetOr(b.personalDays))
  }
}
