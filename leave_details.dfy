/**
 * The leave request detail screen: the request with the route's id, the approve and reject
 * buttons for managers while the request is pending, and the request's history.
 */
module LeaveDetails {
  import opened Wrappers
  import opened AuthTypes
  import opened LeaveTypes
  import KeyedLists
  import LeaveStore

  /** `canManageRequest`. */
  predicate CanManage(role: UserRole)
  {
    role == Admin || role == Manager
  }

  datatype HistoryEntry = Created(at: string) | Decided(approved: bool, at: string)

  function EntryText(h: HistoryEntry): string
  {
    match h
    case Created(_) => "Solicitud creada"
    case Decided(approved, _) => if approved then "Solicitud aprobada" else "Solicitud rechazada"
  }

  /** The history panel: the creation, then the decision once `approvedAt` is a non-empty string. */
  function History(r: LeaveRequest): seq<HistoryEntry>
  {
    [Created(r.createdAt)]
    + if r.approvedAt.Some? && r.approvedAt.value != "" then [Decided(r.status == Approved, r.approvedAt.value)] else []
  }

  datatype View =
    | NotFound
    | Details(request: LeaveRequest, decisionButtons: bool, commentBox: bool, history: seq<HistoryEntry>)

  /** What the screen renders for route id `id`. */
  function DetailsView(requests: seq<LeaveRequest>, id: string, user: Option<User>): View
  {
    var found := KeyedLists.FindWhere(requests, RequestId, id);
    if found.None? || user.None? then NotFound
    else
      var manage := CanManage(user.value.role);
      Details(found.value, manage && found.value.status == Pending, manage, History(found.value))
  }

  predicate DecisionOffered(v: View)
  {
    v.Details? && v.decisionButtons
  }

  /**
   * The not-found view is shown exactly when no request has the id or nobody is signed in.
   * Otherwise the request shown has that id, and the approve and reject buttons are offered
   * exactly to an administrator or manager while the request is pending.
   */
  lemma DetailsViewSpec(requests: seq<LeaveRequest>, id: string, user: Option<User>)
    ensures DetailsView(requests, id, user).NotFound? <==>
      user.None? || forall i :: 0 <= i < |requests| ==> requests[i].id != id
    ensures DetailsView(requests, id, user).Details? ==>
      var v := DetailsView(requests, id, user);
      && v.request.id == id && v.request in requests
      && (v.decisionButtons <==> CanManage(user.value.role) && v.request.status == Pending)
      && (v.commentBox <==> CanManage(user.value.role))
  {
  }

  /**
   * The history always starts with the creation; the decision entry is there exactly when
   * `approvedAt` holds a non-empty string, and it reads "aprobada" exactly for an approved
   * request and "rechazada" for any other status.
   */
  lemma HistorySpec(r: LeaveRequest)
    ensures History(r)[0] == Created(r.createdAt) && EntryText(History(r)[0]) == "Solicitud creada"
    ensures |History(r)| == 2 <==> r.approvedAt.Some? && r.approvedAt.value != ""
    ensures |History(r)| == 2 ==>
      (EntryText(History(r)[1]) == "Solicitud aprobada" <==> r.status == Approved)
      && (EntryText(History(r)[1]) == "Solicitud rechazada" <==> r.status != Approved)
  {
  }

  /** The patch both handlers send: the decision, who made it and when. */
  function DecisionPatch(status: LeaveStatus, userId: string, approvedAt: string, updatedAt: string): LeaveRequestPatch
  {
    LeaveRequestPatch(None, None, None, None, None, None, Some(status), None, Some(updatedAt),
                      Some(userId), Some(approvedAt), None, None, None)
  }

  /** A decision changes the status, `approvedBy`, `approvedAt` and `updatedAt`, and nothing else. */
  lemma DecisionTouchesOnly(r: LeaveRequest, status: LeaveStatus, userId: string, approvedAt: string, updatedAt: string)
    ensures MergeRequest(r, DecisionPatch(status, userId, approvedAt, updatedAt))
      == r.(status := status, approvedBy := Some(userId), approvedAt := Some(approvedAt), updatedAt := updatedAt)
  {
  }

  /**
   * After a decision with a non-empty timestamp the same route shows the request decided: no
   * more buttons, and a history entry that reads "aprobada" exactly when it was approved.
   */
  lemma DecisionIsFinal(requests: seq<LeaveRequest>, id: string, user: Option<User>, status: LeaveStatus,
                        approvedAt: string, updatedAt: string)
    requires DecisionOffered(DetailsView(requests, id, user))
    requires status == Approved || status == Rejected
    requires approvedAt != ""
    ensures var after := KeyedLists.MergeWhere(requests, RequestId, id, MergeRequest,
                                               DecisionPatch(status, user.value.id, approvedAt, updatedAt));
      var v := DetailsView(after, id, user);
      && v.Details? && !v.decisionButtons && v.request.status == status
      && v.history == [Created(v.request.createdAt), Decided(status == Approved, approvedAt)]
  {
    var patch := DecisionPatch(status, user.value.id, approvedAt, updatedAt);
    KeyedLists.FindAfterMerge(requests, RequestId, id, MergeRequest, patch);
  }

  /**
   * A click on "Aprobar" (`status` Approved) or "Rechazar" (`status` Rejected): when the
   * buttons are on screen, every request with the route's id receives the decision; otherwise
   * there is no button to click and the store is unchanged.
   */
  method ClickDecision(store: LeaveStore.LeaveStore, id: string, user: Option<User>, status: LeaveStatus,
                       approvedAt: string, updatedAt: string)
    returns (applied: bool)
    requires status == Approved || status == Rejected
    modifies store
    ensures applied <==> DecisionOffered(DetailsView(old(store.requests), id, user))
    ensures store.requests == if applied
      then KeyedLists.MergeWhere(old(store.requests), RequestId, id, MergeRequest,
                                 DecisionPatch(status, user.value.id, approvedAt, updatedAt))
      else old(store.requests)
    ensures store.balances == old(store.balances) && store.filters == old(store.filters)
    ensures store.loading == old(store.loading) && store.error == old(store.error)
  {
    var view := DetailsView(store.requests, id, user);
    if !DecisionOffered(view) {
      return false;
    }
    store.UpdateRequest(view.request.id, DecisionPatch(status, user.value.id, approvedAt, updatedAt));
    applied := true;
  }
}
