/**
 * The employee store: one shared object whose actions each replace one of its fields.
 * List actions rebuild `employees` from the old list and leave the other fields alone;
 * the setters replace their own field and leave `employees` alone.
 */
module EmployeeStore {
  import opened Wrappers
  import opened EmployeeTypes
  import KeyedLists

  class EmployeeStore {
    var employees: seq<Employee>
    var filters: EmployeeFilters
    var loading: bool
    var error: Option<string>

    /** The state the store is created with. */
    constructor ()
      ensures employees == [] && filters == NoEmployeeFilters && !loading && error == None
    {
      employees := [];
      filters := NoEmployeeFilters;
      loading := false;
      error := None;
    }

    method SetEmployees(list: seq<Employee>)
      modifies this
      ensures employees == list
      ensures filters == old(filters) && loading == old(loading) && error == old(error)
    {
      employees := list;
    }

    /** Appends: every earlier entry keeps its position and the new one is last. */
    method AddEmployee(employee: Employee)
      modifies this
      ensures employees == old(employees) + [employee]
      ensures filters == old(filters) && loading == old(loading) && error == old(error)
    {
      employees := employees + [employee];
    }

    /** Spreads `patch` over every entry whose id is `id`; see KeyedLists.MergeWhereAt. */
    method UpdateEmployee(id: string, patch: EmployeePatch)
      modifies this
      ensures employees == KeyedLists.MergeWhere(old(employees), EmployeeId, id, MergeEmployee, patch)
      ensures filters == old(filters) && loading == old(loading) && error == old(error)
    {
      employees := KeyedLists.MergeWhere(employees, EmployeeId, id, MergeEmployee, patch);
    }

    /** Drops every entry whose id is `id`; see KeyedLists.RemoveWhereKeepsOthers. */
    method DeleteEmployee(id: string)
      modifies this
      ensures employees == KeyedLists.RemoveWhere(old(employees), EmployeeId, id)
      ensures filters == old(filters) && loading == old(loading) && error == old(error)
    {
      employees := KeyedLists.RemoveWhere(employees, EmployeeId, id);
    }

    method SetFilters(f: EmployeeFilters)
      modifies this
      ensures filters == f
      ensures employees == old(employees) && loading == old(loading) && error == old(error)
    {
      filters := f;
    }

    method SetLoading(b: bool)
      modifies this
      ensures loading == b
      ensures employees == old(employees) && filters == old(filters) && error == old(error)
    {
      loading := b;
    }

    method SetError(e: Option<string>)
      modifies this
      ensures error == e
      ensures employees == old(employees) && filters == old(filters) && loading == old(loading)
    {
      error := e;
    }
  }
}
