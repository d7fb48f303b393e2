/** Shifts, shift templates, shift change requests, their filters and partial records. */
module ShiftTypes {
  import opened Wrappers

  datatype ShiftType = Morning | Afternoon | Night | Custom
  datatype ShiftStatus = Scheduled | InProgress | Completed | Cancelled | PendingChange
  datatype ChangeRequestType = Swap | Cover | TimeChange | Cancel
  datatype ChangeRequestStatus = RequestPending | RequestApproved | RequestRejected | RequestCancelled

  datatype Shift = Shift(
    id: string,
    employeeId: string,
    startTime: string,
    endTime: string,
    date: string,
    shiftType: ShiftType,
    status: ShiftStatus,
    notes: Option<string>,
    breakTime: Option<int>,
    overtimeHours: Option<int>,
    replacementFor: Option<string>,
    createdAt: string,
    updatedAt: string)

  datatype ShiftTemplate = ShiftTemplate(
    id: string,
    name: string,
    startTime: string,
    endTime: string,
    shiftType: ShiftType,
    breakTime: int,
    daysOfWeek: seq<int>)

  datatype ShiftChangeRequest = ShiftChangeRequest(
    id: string,
    shiftId: string,
    requestedById: string,
    requestedToId: Option<string>,
    requestType: ChangeRequestType,
    status: ChangeRequestStatus,
    reason: string,
    createdAt: string,
    updatedAt: string,
    resolvedAt: Option<string>,
    resolvedById: Option<string>,
    newStartTime: Option<string>,
    newEndTime: Option<string>)

  datatype ShiftFilters = ShiftFilters(
    employeeId: Option<string>, startDate: Option<string>, endDate: Option<string>,
    shiftType: Option<ShiftType>, status: Option<ShiftStatus>)

  const NoShiftFilters := ShiftFilters(None, None, None, None, None)

  /** `Partial<Shift>`. */
  datatype ShiftPatch = ShiftPatch(
    id: Option<string>,
    employeeId: Option<string>,
    startTime: Option<string>,
    endTime: Option<string>,
    date: Option<string>,
    shiftType: Option<ShiftType>,
    status: Option<ShiftStatus>,
    notes: Option<string>,
    breakTime: Option<int>,
    overtimeHours: Option<int>,
    replacementFor: Option<string>,
    createdAt: Option<string>,
    updatedAt: Option<string>)

  /** `Partial<ShiftTemplate>`. */
  datatype TemplatePatch = TemplatePatch(
    id: Option<string>,
    name: Option<string>,
    startTime: Option<string>,
    endTime: Option<string>,
    shiftType: Option<ShiftType>,
    breakTime: Option<int>,
    daysOfWeek: Option<seq<int>>)

  /** `Partial<ShiftChangeRequest>`. */
  datatype ChangeRequestPatch = ChangeRequestPatch(
    id: Option<string>,
    shiftId: Option<string>,
    requestedById: Option<string>,
    requestedToId: Option<string>,
    requestType: Option<ChangeRequestType>,
    status: Option<ChangeRequestStatus>,
    reason: Option<string>,
    createdAt: Option<string>,
    updatedAt: Option<string>,
    resolvedAt: Option<string>,
    resolvedById: Option<string>,
    newStartTime: Option<string>,
    newEndTime: Option<string>)

  function ShiftId(s: Shift): string { s.id }

  function TemplateId(t: ShiftTemplate): string { t.id }

  function ChangeRequestId(c: ShiftChangeRequest): string { c.id }

  /** `{ ...s, ...p }`. */
  function MergeShift(s: Shift, p: ShiftPatch): Shift {
    Shift(
      p.id.GetOr(s.id),
      p.employeeId.GetOr(s.employeeId),
      p.startTime.GetOr(s.startTime),
      p.endTime.GetOr(s.endTime),
      p.date.GetOr(s.date),
      p.shiftType.GetOr(s.shiftType),
      p.status.GetOr(s.status),
      p.notes.Or(s.notes),
      p.breakTime.Or(s.breakTime),
      p.overtimeHours.Or(s.overtimeHours),
      p.replacementFor.Or(s.replacementFor),
      p.createdAt.GetOr(s.createdAt),
      p.updatedAt.GetOr(s.updatedAt))
  }

  /** `{ ...t, ...p }`. */
  function MergeTemplate(t: ShiftTemplate, p: TemplatePatch): ShiftTemplate {
    ShiftTemplate(
      p.id.GetOr(t.id),
      p.name.GetOr(t.name),
      p.startTime.GetOr(t.startTime),
      p.endTime.GetOr(t.endTime),
      p.shiftType.GetOr(t.shiftType),
      p.breakTime.GetOr(t.breakTime),
      p.daysOfWeek.GetOr(t.daysOfWeek))
  }

  /** `{ ...c, ...p }`. */
  function MergeChangeRequest(c: ShiftChangeRequest, p: ChangeRequestPatch): ShiftChangeRequest {
    ShiftChangeRequest(
      p.id.GetOr(c.id),
      p.shiftId.GetOr(c.shiftId),
      p.requestedById.GetOr(c.requestedById),
      p.requestedToId.Or(c.requestedToId),
      p.requestType.GetOr(c.requestType),
      p.status.GetOr(c.status),
      p.reason.GetOr(c.reason),
      p.createdAt.GetOr(c.createdAt),
      p.updatedAt.GetOr(c.updatedAt),
      p.resolvedAt.Or(c.resolvedAt),
      p.resolvedById.Or(c.resolvedById),
      p.newStartTime.Or(c.newStartTime),
      p.newEndTime.Or(c.newEndTime))
  }
}
