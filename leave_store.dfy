/**
 * The leave store. Request actions rebuild `requests` only; balance actions rebuild `balances`
 * only (`updateBalance` is keyed by the employee, not by a record id); the setters replace one field.
 */
module LeaveStore {
  import opened Wrappers
  import opened LeaveTypes
  import KeyedLists

  class LeaveStore {
    var requests: seq<LeaveRequest>
    var balances: seq<LeaveBalance>
    var filters: LeaveFilters
    var loading: bool
    var error: Option<string>

    constructor ()
      ensures requests == [] && balances == [] && filters == NoLeaveFilters && !loading && error == None
    {
      requests := [];
      balances := [];
      filters := NoLeaveFilters;
      loading := false;
      error := None;
    }

    method SetRequests(list: seq<LeaveRequest>)
      modifies this
      ensures requests == list
      ensures balances == old(balances) && filters == old(filters) && loading == old(loading) && error == old(error)
    {
      requests := list;
    }

    method AddRequest(request: LeaveRequest)
      modifies this
      ensures requests == old(requests) + [request]
      ensures balances == old(balances) && filters == old(filters) && loading == old(loading) && error == old(error)
    {
      requests := requests + [request];
    }

    method UpdateRequest(id: string, patch: LeaveRequestPatch)
      modifies this
      ensures requests == KeyedLists.MergeWhere(old(requests), RequestId, id, MergeRequest, patch)
      ensures balances == old(balances) && filters == old(filters) && loading == old(loading) && error == old(error)
    {
      requests := KeyedLists.MergeWhere(requests, RequestId, id, MergeRequest, patch);
    }

    method DeleteRequest(id: string)
      modifies this
      ensures requests == KeyedLists.RemoveWhere(old(requests), RequestId, id)
      ensures balances == old(balances) && filters == old(filters) && loading == old(loading) && error == old(error)
    {
      requests := KeyedLists.RemoveWhere(requests, RequestId, id);
    }

    method SetBalances(list: seq<LeaveBalance>)
      modifies this
      ensures balances == list
      ensures requests == old(requests) && filters == old(filters) && loading == old(loading) && error == old(error)
    {
      balances := list;
    }

    /** Spreads `patch` over every balance of employee `employeeId`. */
    method UpdateBalance(employeeId: string, patch: LeaveBalancePatch)
      modifies this
      ensures balances == KeyedLists.MergeWhere(old(balances), BalanceEmployee, employeeId, MergeBalance, patch)
      ensures requests == old(requests) && filters == old(filters) && loading == old(loading) && error == old(error)
    {
      balances := KeyedLists.MergeWhere(balances, BalanceEmployee, employeeId, MergeBalance, patch);
    }

    method SetFilters(f: LeaveFilters)
      modifies this
      ensures filters == f
      ensures requests == old(requests) && balances == old(balances) && loading == old(loading) && error == old(error)
    {
      filters := f;
    }

    method SetLoading(b: bool)
      modifies this
      ensures loading == b
      ensures requests == old(requests) && balances == old(balances) && filters == old(filters) && error == old(error)
    {
      loading := b;
    }

    method SetError(e: Option<string>)
      modifies this
      ensures error == e
      ensures requests == old(requests) && balances == old(balances) && filters == old(filters) && loading == old(loading)
    {
      error := e;
    }
  }

  /** Every balance of that employee receives the patch; the other balances keep their value and position. */
  lemma UpdateBalanceAt(balances: seq<LeaveBalance>, employeeId: string, patch: LeaveBalancePatch)
    ensures var r := KeyedLists.MergeWhere(balances, BalanceEmployee, employeeId, MergeBalance, patch);
      && |r| == |balances|
      && forall i :: 0 <= i < |r| ==>
           r[i] == if balances[i].employeeId == employeeId then MergeBalance(balances[i], patch) else balances[i]
  {
    KeyedLists.MergeWhereAt(balances, BalanceEmployee, employeeId, MergeBalance, patch);
  }
}
