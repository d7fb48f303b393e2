/**
 * The new-leave-request form: its schema, the day count it shows and stores, and the submit
 * handler that appends a pending request for the signed-in user.
 *
 * Dates are the form's `yyyy-mm-dd` strings; `parse` is `new Date(s)`, giving milliseconds
 * since the epoch or `None` for an invalid date.
 */
module LeaveForm {
  import opened Wrappers
  import opened Validation
  import opened AuthTypes
  import opened LeaveTypes
  import LeaveStore

  const StartRequired := "La fecha de inicio es requerida"
  const EndRequired := "La fecha de fin es requerida"
  const ReasonTooShort := "La razón debe tener al menos 10 caracteres"
  const DateOrderMessage := "La fecha de fin debe ser posterior a la fecha de inicio"

  /** The `type` select starts on vacation. */
  const DefaultLeaveType := Vacation

  datatype LeaveFormData = LeaveFormData(
    leaveType: LeaveType,
    startDate: string,
    endDate: string,
    reason: string,
    attachments: Option<seq<string>>)

  /** `end >= start` on two `Date`s: false when either is invalid. */
  predicate DatesInOrder(startDate: string, endDate: string, parse: string -> Option<int>)
  {
    parse(startDate).Some? && parse(endDate).Some? && parse(endDate).value >= parse(startDate).value
  }

  /** `leaveRequestSchema`. */
  function LeaveIssues(f: LeaveFormData, parse: string -> Option<int>): seq<Issue>
  {
    Refine(
      StringMin("startDate", f.startDate, 1, StartRequired)
      + StringMin("endDate", f.endDate, 1, EndRequired)
      + StringMin("reason", f.reason, 10, ReasonTooShort),
      DatesInOrder(f.startDate, f.endDate, parse), "endDate", DateOrderMessage)
  }

  /**
   * The schema accepts exactly the forms with both dates filled in, a reason of at least ten
   * characters and an end date no earlier than the start. A bad date order is reported under
   * `endDate`.
   */
  lemma LeaveSchemaSpec(f: LeaveFormData, parse: string -> Option<int>)
    ensures LeaveIssues(f, parse) == [] <==>
      |f.startDate| >= 1 && |f.endDate| >= 1 && |f.reason| >= 10 && DatesInOrder(f.startDate, f.endDate, parse)
    ensures |f.startDate| >= 1 && |f.endDate| >= 1 && !DatesInOrder(f.startDate, f.endDate, parse) ==>
      FirstError(LeaveIssues(f, parse), "endDate") == Some(RefineFailed(DateOrderMessage))
    ensures |f.startDate| == 0 ==> FirstError(LeaveIssues(f, parse), "startDate") == Some(TooShort(1, StartRequired))
  {
    var a := StringMin("startDate", f.startDate, 1, StartRequired);
    var b := StringMin("endDate", f.endDate, 1, EndRequired);
    var c := StringMin("reason", f.reason, 10, ReasonTooShort);
    AbortedAppend(a, b);
    AbortedAppend(a + b, c);
    RefineSpec(a + b + c, DatesInOrder(f.startDate, f.endDate, parse), "endDate", DateOrderMessage);
    if |f.startDate| >= 1 && |f.endDate| >= 1 && !DatesInOrder(f.startDate, f.endDate, parse) {
      FirstErrorAppend(a + b + c, [Issue("endDate", RefineFailed(DateOrderMessage))], "endDate");
      FirstErrorAppend(a + b, c, "endDate");
      FirstErrorAppend(a, b, "endDate");
    }
    if |f.startDate| == 0 {
      var issues := a + b + c;
      assert issues[0] == Issue("startDate", TooShort(1, StartRequired));
      FirstErrorAppend(issues, [Issue("endDate", RefineFailed(DateOrderMessage))], "startDate");
    }
  }

  const MillisPerDay := 86400000

  function Abs(x: int): nat
  {
    if x < 0 then -x else x
  }

  /** `calculateTotalDays`: whole days spanned, rounding a part day up, plus one. */
  function CalculateTotalDays(start: int, end: int): int
  {
    (Abs(end - start) + MillisPerDay - 1) / MillisPerDay + 1
  }

  /**
   * One more than the least number of whole days covering the distance between the dates:
   * so at least one, the same in either order, and one exactly for equal dates.
   */
  lemma TotalDaysSpec(start: int, end: int)
    ensures var k := CalculateTotalDays(start, end) - 1;
      (k - 1) * MillisPerDay < Abs(end - start) <= k * MillisPerDay
    ensures CalculateTotalDays(start, end) >= 1
    ensures CalculateTotalDays(start, end) == CalculateTotalDays(end, start)
    ensures CalculateTotalDays(start, end) == 1 <==> start == end
  {
  }

  /** A span of exactly `k` days counts as `k + 1` days. */
  lemma TotalDaysWholeDays(start: int, k: nat)
    ensures CalculateTotalDays(start, start + k * MillisPerDay) == k + 1
  {
    TotalDaysSpec(start, start + k * MillisPerDay);
  }

  /** The running total under the dates: `0` with a date missing, `None` (`NaN`) for an invalid one. */
  function ShownTotalDays(startDate: string, endDate: string, parse: string -> Option<int>): Option<int>
  {
    if startDate == "" || endDate == "" then Some(0)
    else if parse(startDate).Some? && parse(endDate).Some? then
      Some(CalculateTotalDays(parse(startDate).value, parse(endDate).value))
    else None
  }

  /** `totalDays > 0`: the day-count box is rendered. */
  predicate TotalDaysBoxShown(total: Option<int>)
  {
    total.Some? && total.value > 0
  }

  /** The box stays hidden while a date is missing or invalid, and shows once both are valid. */
  lemma ShownTotalDaysSpec(startDate: string, endDate: string, parse: string -> Option<int>)
    ensures startDate == "" || endDate == "" ==> ShownTotalDays(startDate, endDate, parse) == Some(0)
    ensures TotalDaysBoxShown(ShownTotalDays(startDate, endDate, parse)) <==>
      startDate != "" && endDate != "" && parse(startDate).Some? && parse(endDate).Some?
  {
    if startDate != "" && endDate != "" && parse(startDate).Some? && parse(endDate).Some? {
      TotalDaysSpec(parse(startDate).value, parse(endDate).value);
    }
  }

  /** The record `onSubmit` builds from validated data; `start` and `end` are the parsed dates. */
  function NewRequest(user: User, f: LeaveFormData, id: string, createdAt: string, updatedAt: string,
                      start: int, end: int): LeaveRequest
  {
    LeaveRequest(id, user.id, f.leaveType, f.startDate, f.endDate, f.reason, Pending, createdAt, updatedAt,
                 None, None, None, Some(f.attachments.GetOr([])), CalculateTotalDays(start, end))
  }

  /**
   * A request built from a valid form is pending, belongs to the user, is undecided, keeps the
   * form's dates and reason, and counts at least one day, one exactly when both dates are equal.
   */
  lemma NewRequestSpec(user: User, f: LeaveFormData, parse: string -> Option<int>,
                       id: string, createdAt: string, updatedAt: string)
    requires LeaveIssues(f, parse) == []
    ensures var r := NewRequest(user, f, id, createdAt, updatedAt, parse(f.startDate).value, parse(f.endDate).value);
      && r.status == Pending && r.employeeId == user.id && r.id == id
      && r.approvedBy == None && r.approvedAt == None
      && r.startDate == f.startDate && r.endDate == f.endDate && r.reason == f.reason && |r.reason| >= 10
      && r.attachments == Some(if f.attachments.Some? then f.attachments.value else [])
      && r.totalDays >= 1
      && (r.totalDays == 1 <==> parse(f.startDate).value == parse(f.endDate).value)
  {
    LeaveSchemaSpec(f, parse);
    TotalDaysSpec(parse(f.startDate).value, parse(f.endDate).value);
  }

  /**
   * Submitting the form: the schema runs first; a valid form with a signed-in user appends
   * exactly one new request to the leave store and navigates back to the list.
   */
  method SubmitLeaveRequest(store: LeaveStore.LeaveStore, user: Option<User>, f: LeaveFormData,
                            parse: string -> Option<int>, id: string, createdAt: string, updatedAt: string)
    returns (issues: seq<Issue>, navigated: bool)
    modifies store
    ensures issues == LeaveIssues(f, parse)
    ensures navigated <==> issues == [] && user.Some?
    ensures store.requests == if navigated
      then old(store.requests) + [NewRequest(user.value, f, id, createdAt, updatedAt,
                                             parse(f.startDate).value, parse(f.endDate).value)]
      else old(store.requests)
    ensures store.balances == old(store.balances) && store.filters == old(store.filters)
    ensures store.loading == old(store.loading) && store.error == old(store.error)
  {
    issues := LeaveIssues(f, parse);
    if issues != [] || user.None? {
      return issues, false;
    }
    LeaveSchemaSpec(f, parse);
    var request := NewRequest(user.value, f, id, createdAt, updatedAt,
                              parse(f.startDate).value, parse(f.endDate).value);
    store.AddRequest(request);
    navigated := true;
  }
}
