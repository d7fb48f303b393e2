/**
 * The new-shift form: its schema, its defaults, and the submit handler that appends a
 * scheduled shift to the shift store.
 *
 * `parse` is `new Date(s)` on the `date + "T" + time` strings the form builds, giving
 * milliseconds or `None` for an invalid date.
 */
module ShiftForm {
  import opened Wrappers
  import opened Validation
  import opened ShiftTypes
  import ShiftStore

  const EmployeeRequired := "El empleado es requerido"
  const DateRequired := "La fecha es requerida"
  const StartRequired := "La hora de inicio es requerida"
  const EndRequired := "La hora de fin es requerida"
  const TimeOrderMessage := "La hora de fin debe ser posterior a la hora de inicio"

  const DefaultShiftType := Morning
  const DefaultBreakTime := 30
  const MaxBreakTime := 120

  /** The form's values; `breakTime` is read as a number, `None` being `NaN` from an empty input. */
  datatype ShiftFormInput = ShiftFormInput(
    employeeId: string,
    shiftType: ShiftType,
    date: string,
    startTime: string,
    endTime: string,
    breakTime: Option<int>,
    notes: Option<string>)

  /** What the schema hands to `onSubmit`. */
  datatype ShiftFormData = ShiftFormData(
    employeeId: string,
    shiftType: ShiftType,
    date: string,
    startTime: string,
    endTime: string,
    breakTime: int,
    notes: Option<string>)

  /** `${date}T${time}`. */
  function At(date: string, time: string): string
  {
    date + "T" + time
  }

  /** `end > start` on two `Date`s: false when either is invalid. */
  predicate TimesInOrder(date: string, startTime: string, endTime: string, parse: string -> Option<int>)
  {
    parse(At(date, startTime)).Some? && parse(At(date, endTime)).Some?
    && parse(At(date, endTime)).value > parse(At(date, startTime)).value
  }

  function FieldIssues(f: ShiftFormInput): seq<Issue>
  {
    StringMin("employeeId", f.employeeId, 1, EmployeeRequired)
    + StringMin("date", f.date, 1, DateRequired)
    + StringMin("startTime", f.startTime, 1, StartRequired)
    + StringMin("endTime", f.endTime, 1, EndRequired)
    + NumberRange("breakTime", f.breakTime, 0, Some(MaxBreakTime))
  }

  /** `shiftSchema`. */
  function ShiftIssues(f: ShiftFormInput, parse: string -> Option<int>): seq<Issue>
  {
    Refine(FieldIssues(f), TimesInOrder(f.date, f.startTime, f.endTime, parse), "endTime", TimeOrderMessage)
  }

  function ParseShift(f: ShiftFormInput, parse: string -> Option<int>): Parsed<ShiftFormData>
  {
    var issues := ShiftIssues(f, parse);
    if issues == [] then
      RefineSpec(FieldIssues(f), TimesInOrder(f.date, f.startTime, f.endTime, parse), "endTime", TimeOrderMessage);
      assert NumberRange("breakTime", f.breakTime, 0, Some(MaxBreakTime)) == [];
      Ok(ShiftFormData(f.employeeId, f.shiftType, f.date, f.startTime, f.endTime, f.breakTime.value, f.notes))
    else Invalid(issues)
  }

  lemma FieldIssuesSpec(f: ShiftFormInput)
    ensures FieldIssues(f) == [] <==>
      |f.employeeId| >= 1 && |f.date| >= 1 && |f.startTime| >= 1 && |f.endTime| >= 1
      && f.breakTime.Some? && 0 <= f.breakTime.value <= MaxBreakTime
    ensures Aborted(FieldIssues(f)) <==> f.breakTime.None?
  {
    var a := StringMin("employeeId", f.employeeId, 1, EmployeeRequired);
    var b := StringMin("date", f.date, 1, DateRequired);
    var c := StringMin("startTime", f.startTime, 1, StartRequired);
    var d := StringMin("endTime", f.endTime, 1, EndRequired);
    var e := NumberRange("breakTime", f.breakTime, 0, Some(MaxBreakTime));
    AbortedAppend(a, b);
    AbortedAppend(a + b, c);
    AbortedAppend(a + b + c, d);
    AbortedAppend(a + b + c + d, e);
  }

  /**
   * The schema accepts exactly the forms with an employee, a date and both times filled in, a
   * break of 0 to 120 minutes, and an end strictly after the start on that date. A bad order is
   * reported under `endTime`, unless the break is not a number, which stops the check first.
   */
  lemma ShiftSchemaSpec(f: ShiftFormInput, parse: string -> Option<int>)
    ensures ParseShift(f, parse).Ok? <==>
      |f.employeeId| >= 1 && |f.date| >= 1 && |f.startTime| >= 1 && |f.endTime| >= 1
      && f.breakTime.Some? && 0 <= f.breakTime.value <= MaxBreakTime
      && TimesInOrder(f.date, f.startTime, f.endTime, parse)
    ensures f.breakTime.Some? && !TimesInOrder(f.date, f.startTime, f.endTime, parse) ==>
      ParseShift(f, parse).Invalid? && FirstError(ShiftIssues(f, parse), "endTime").Some?
    ensures f.breakTime.None? ==> ShiftIssues(f, parse) == FieldIssues(f)
  {
    FieldIssuesSpec(f);
    var holds := TimesInOrder(f.date, f.startTime, f.endTime, parse);
    RefineSpec(FieldIssues(f), holds, "endTime", TimeOrderMessage);
    if f.breakTime.Some? && !holds {
      FirstErrorAppend(FieldIssues(f), [Issue("endTime", RefineFailed(TimeOrderMessage))], "endTime");
    }
  }

  /** The default break passes the schema's break check. */
  lemma DefaultBreakTimeAccepted()
    ensures NumberRange("breakTime", Some(DefaultBreakTime), 0, Some(MaxBreakTime)) == []
  {
  }

  /** `onSubmit`'s record: the form's fields, the times joined to the date, and status scheduled. */
  function NewShift(d: ShiftFormData, id: string, createdAt: string, updatedAt: string): Shift
  {
    Shift(id, d.employeeId, At(d.date, d.startTime), At(d.date, d.endTime), d.date, d.shiftType, Scheduled,
          d.notes, Some(d.breakTime), None, None, createdAt, updatedAt)
  }

  /**
   * A shift built from an accepted form is scheduled, copies the employee, type, date, break
   * and notes, stores both times joined to the date, and its stored end is after its stored start.
   */
  lemma NewShiftSpec(f: ShiftFormInput, parse: string -> Option<int>, id: string, createdAt: string, updatedAt: string)
    requires ParseShift(f, parse).Ok?
    ensures var s := NewShift(ParseShift(f, parse).data, id, createdAt, updatedAt);
      && s.status == Scheduled && s.id == id
      && s.employeeId == f.employeeId && s.shiftType == f.shiftType && s.date == f.date && s.notes == f.notes
      && s.breakTime == f.breakTime && 0 <= s.breakTime.value <= MaxBreakTime
      && s.startTime == f.date + "T" + f.startTime && s.endTime == f.date + "T" + f.endTime
      && parse(s.startTime).Some? && parse(s.endTime).Some? && parse(s.endTime).value > parse(s.startTime).value
  {
    ShiftSchemaSpec(f, parse);
  }

  /** Submitting: an accepted form appends exactly one new shift and navigates back. */
  method SubmitShift(store: ShiftStore.ShiftStore, f: ShiftFormInput, parse: string -> Option<int>,
                     id: string, createdAt: string, updatedAt: string)
    returns (result: Parsed<ShiftFormData>, navigated: bool)
    modifies store
    ensures result == ParseShift(f, parse)
    ensures navigated <==> result.Ok?
    ensures store.shifts == if result.Ok?
      then old(store.shifts) + [NewShift(result.data, id, createdAt, updatedAt)]
      else old(store.shifts)
    ensures store.OnlyShiftsChanged()
  {
    result := ParseShift(f, parse);
    if result.Invalid? {
      return result, false;
    }
    store.AddShift(NewShift(result.data, id, createdAt, updatedAt));
    navigated := true;
  }
}
