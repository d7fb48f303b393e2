/**
 * The shift detail screen: the shift with the route's id and its employee, the status buttons
 * its current status allows, and deletion after confirmation.
 */
module ShiftDetails {
  import opened Wrappers
  import opened ShiftTypes
  import opened EmployeeTypes
  import KeyedLists
  import ShiftStore

  /** The buttons of the actions panel, in screen order. "Solicitar Cambio" has no handler. */
  datatype ShiftAction = StartShift | FinishShift | CancelShift | RequestChange

  /** The buttons rendered for a shift in `status`. */
  function OfferedActions(status: ShiftStatus): seq<ShiftAction>
  {
    (if status == Scheduled then [StartShift] else [])
    + (if status == InProgress then [FinishShift] else [])
    + [CancelShift, RequestChange]
  }

  /** The status a button's handler moves the shift to. */
  function ActionTarget(a: ShiftAction): Option<ShiftStatus>
  {
    match a
    case StartShift => Some(InProgress)
    case FinishShift => Some(Completed)
    case CancelShift => Some(Cancelled)
    case RequestChange => None
  }

  /**
   * "Iniciar" is offered only to a scheduled shift and "Finalizar" only to one in progress;
   * "Cancelar" is offered whatever the status. So the only moves are scheduled to in progress,
   * in progress to completed, and any status to cancelled.
   */
  lemma OfferedActionsSpec(status: ShiftStatus)
    ensures StartShift in OfferedActions(status) <==> status == Scheduled
    ensures FinishShift in OfferedActions(status) <==> status == InProgress
    ensures CancelShift in OfferedActions(status) && RequestChange in OfferedActions(status)
    ensures forall a :: a in OfferedActions(status) && ActionTarget(a).Some? ==>
      (status, ActionTarget(a).value) in {(Scheduled, InProgress), (InProgress, Completed), (status, Cancelled)}
  {
  }

  datatype ShiftView = ShiftNotFound | ShiftShown(shift: Shift, employee: Employee, actions: seq<ShiftAction>)

  /** What the screen renders for route id `id`. */
  function ShiftDetailsView(shifts: seq<Shift>, employees: seq<Employee>, id: string): ShiftView
  {
    var shift := KeyedLists.FindWhere(shifts, ShiftId, id);
    if shift.None? then ShiftNotFound
    else
      var employee := KeyedLists.FindWhere(employees, EmployeeId, shift.value.employeeId);
      if employee.None? then ShiftNotFound
      else ShiftShown(shift.value, employee.value, OfferedActions(shift.value.status))
  }

  /**
   * The not-found view is shown exactly when no shift has the id, or no employee has the id
   * the shift names; otherwise the shift and its employee are shown.
   */
  lemma ShiftDetailsViewSpec(shifts: seq<Shift>, employees: seq<Employee>, id: string)
    ensures var found := KeyedLists.FindWhere(shifts, ShiftId, id);
      ShiftDetailsView(shifts, employees, id).ShiftNotFound? <==>
        found.None? || forall j :: 0 <= j < |employees| ==> employees[j].id != found.value.employeeId
    ensures ShiftDetailsView(shifts, employees, id).ShiftShown? ==>
      var v := ShiftDetailsView(shifts, employees, id);
      v.shift in shifts && v.shift.id == id && v.employee in employees && v.employee.id == v.shift.employeeId
  {
  }

  /** `handleStatusChange`'s patch. */
  function StatusPatch(status: ShiftStatus, updatedAt: string): ShiftPatch
  {
    ShiftPatch(None, None, None, None, None, None, Some(status), None, None, None, None, None, Some(updatedAt))
  }

  /** A status change sets the status and `updatedAt`, and nothing else. */
  lemma StatusPatchTouchesOnly(s: Shift, status: ShiftStatus, updatedAt: string)
    ensures MergeShift(s, StatusPatch(status, updatedAt)) == s.(status := status, updatedAt := updatedAt)
  {
  }

  /** A click the screen acts on: the view shows the shift and the button has a handler. */
  predicate Applies(v: ShiftView, a: ShiftAction)
  {
    v.ShiftShown? && a in v.actions && ActionTarget(a).Some?
  }

  /**
   * After a status button is clicked the screen shows the same shift in its new status, with
   * the buttons of that status: after "Iniciar", "Finalizar" and no second "Iniciar".
   */
  lemma StatusChangeShown(shifts: seq<Shift>, employees: seq<Employee>, id: string, a: ShiftAction, updatedAt: string)
    requires Applies(ShiftDetailsView(shifts, employees, id), a)
    ensures var after := KeyedLists.MergeWhere(shifts, ShiftId, id, MergeShift, StatusPatch(ActionTarget(a).value, updatedAt));
      var before := ShiftDetailsView(shifts, employees, id);
      var v := ShiftDetailsView(after, employees, id);
      && v.ShiftShown?
      && v.shift == before.shift.(status := ActionTarget(a).value, updatedAt := updatedAt)
      && v.actions == OfferedActions(ActionTarget(a).value)
  {
    KeyedLists.FindAfterMerge(shifts, ShiftId, id, MergeShift, StatusPatch(ActionTarget(a).value, updatedAt));
  }

  /** A click on status button `a`: it patches every shift with the route's id when it applies. */
  method ClickStatusButton(store: ShiftStore.ShiftStore, employees: seq<Employee>, id: string, a: ShiftAction,
                           updatedAt: string)
    returns (applied: bool)
    modifies store
    ensures applied <==> Applies(ShiftDetailsView(old(store.shifts), employees, id), a)
    ensures store.shifts == if applied
      then KeyedLists.MergeWhere(old(store.shifts), ShiftId, id, MergeShift, StatusPatch(ActionTarget(a).value, updatedAt))
      else old(store.shifts)
    ensures store.OnlyShiftsChanged()
  {
    var view := ShiftDetailsView(store.shifts, employees, id);
    if !Applies(view, a) {
      return false;
    }
    store.UpdateShift(view.shift.id, StatusPatch(ActionTarget(a).value, updatedAt));
    applied := true;
  }

  /**
   * A click on "Eliminar": when the shift is on screen and the confirmation dialog is accepted,
   * every shift with the route's id is deleted and the screen navigates away; otherwise the
   * store is unchanged.
   */
  method ClickDelete(store: ShiftStore.ShiftStore, employees: seq<Employee>, id: string, confirmed: bool)
    returns (deleted: bool)
    modifies store
    ensures deleted <==> ShiftDetailsView(old(store.shifts), employees, id).ShiftShown? && confirmed
    ensures store.shifts == if deleted then KeyedLists.RemoveWhere(old(store.shifts), ShiftId, id) else old(store.shifts)
    ensures store.OnlyShiftsChanged()
  {
    var view := ShiftDetailsView(store.shifts, employees, id);
    if view.ShiftNotFound? || !confirmed {
      return false;
    }
    store.DeleteShift(view.shift.id);
    deleted := true;
  }
}
