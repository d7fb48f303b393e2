/**
 * The batch screen: one checkbox per department, with its employee count, and a button that
 * generates one PDF for every employee of the checked departments and then navigates back.
 */
module CredentialBatch {
  import opened Wrappers
  import opened EmployeeTypes
  import opened Browser
  import opened CredentialHook
  import opened CredentialSearch
  import Seqs
  import StrOrder

  function DepartmentOf(e: Employee): string
  {
    e.department
  }

  /** JavaScript truthiness of a `string | null`: null and the empty string are both false. */
  predicate IsTruthy(s: Option<string>)
  {
    s.Some? && s.value != ""
  }

  /** `employees.map(emp => emp.department)`. */
  function DepartmentList(es: seq<Employee>): (r: seq<string>)
    ensures forall d :: d in r <==> exists e :: e in es && e.department == d
  {
    var r := seq(|es|, i requires 0 <= i < |es| => es[i].department);
    assert forall e :: e in es ==> exists i :: 0 <= i < |es| && es[i] == e;
    assert forall i :: 0 <= i < |es| ==> es[i] in es && r[i] == es[i].department;
    r
  }

  /** `Array.from(new Set(departments)).sort()`. */
  function Departments(es: seq<Employee>): seq<string>
  {
    StrOrder.SortDistinct(DepartmentList(es))
  }

  function InDepartment(d: string): Employee -> bool
  {
    (e: Employee) => e.department == d
  }

  /** The count shown next to a department. */
  function DepartmentCount(es: seq<Employee>, d: string): nat
  {
    |Seqs.Filter(es, InDepartment(d))|
  }

  /** The counts of the listed departments, added up. */
  function SumCounts(es: seq<Employee>, ds: seq<string>): nat
  {
    if |ds| == 0 then 0 else DepartmentCount(es, ds[0]) + SumCounts(es, ds[1..])
  }

  /** `selectedDepartments.size === 0 || generating`. */
  predicate GenerateDisabled(selected: set<string>, generating: bool)
  {
    |selected| == 0 || generating
  }

  /**
   * The department list is sorted, has no duplicates, and holds exactly the departments that
   * occur among the employees.
   */
  lemma DepartmentsSpec(es: seq<Employee>)
    ensures StrOrder.StrictlySorted(Departments(es))
    ensures forall i, j :: 0 <= i < j < |Departments(es)| ==> Departments(es)[i] != Departments(es)[j]
    ensures forall d :: d in Departments(es) ==> exists e :: e in es && e.department == d
    ensures forall e :: e in es ==> e.department in Departments(es)
  {
    var ds := DepartmentList(es);
    StrOrder.SortDistinctSpec(ds);
    forall i, j | 0 <= i < j < |Departments(es)|
      ensures Departments(es)[i] != Departments(es)[j]
    {
      StrOrder.LessIrreflexive(Departments(es)[i]);
    }
    forall d | d in Departments(es)
      ensures exists e :: e in es && e.department == d
    {
      var i :| 0 <= i < |ds| && ds[i] == d;
      assert es[i] in es;
    }
    forall e | e in es
      ensures e.department in Departments(es)
    {
      var i :| 0 <= i < |es| && es[i] == e;
      assert ds[i] == e.department;
    }
  }

  /** Over distinct departments, the counts add up to the number of employees in any of them. */
  lemma {:induction false} SumCountsFilter(es: seq<Employee>, ds: seq<string>)
    requires forall i, j :: 0 <= i < j < |ds| ==> ds[i] != ds[j]
    ensures SumCounts(es, ds) == |Seqs.Filter(es, (e: Employee) => e.department in ds)|
  {
    if |ds| == 0 {
      Seqs.FilterNone(es, (e: Employee) => e.department in ds);
    } else {
      var rest := ds[1..];
      SumCountsFilter(es, rest);
      forall x: Employee | x.department in rest
        ensures x.department != ds[0]
      {
        var k :| 0 <= k < |rest| && rest[k] == x.department;
        assert ds[k + 1] == x.department;
      }
      assert forall x: Employee :: (x.department in ds) == (InDepartment(ds[0])(x) || x.department in rest) by {
        assert ds == [ds[0]] + rest;
      }
      Seqs.FilterCountDisjoint(es, InDepartment(ds[0]), (e: Employee) => e.department in rest, (e: Employee) => e.department in ds);
    }
  }

  /**
   * Each listed department has at least one employee, and the counts shown add up to the
   * number of employees.
   */
  lemma DepartmentCountsSpec(es: seq<Employee>)
    ensures forall d :: d in Departments(es) ==> DepartmentCount(es, d) >= 1
    ensures SumCounts(es, Departments(es)) == |es|
  {
    DepartmentsSpec(es);
    var ds := Departments(es);
    forall d | d in ds
      ensures DepartmentCount(es, d) >= 1
    {
      var e :| e in es && e.department == d;
      Seqs.FilterMembers(es, InDepartment(d));
      assert e in Seqs.Filter(es, InDepartment(d));
    }
    SumCountsFilter(es, ds);
    Seqs.FilterKeepsAll(es, (e: Employee) => e.department in ds);
  }

  class CredentialBatch {
    var selectedDepartments: set<string>
    const generation: CredentialGeneration

    constructor ()
      ensures selectedDepartments == {}
      ensures fresh(generation) && !generation.generating && generation.error == None
    {
      selectedDepartments := {};
      generation := new CredentialGeneration();
    }

    /** `toggleDepartment(department)`. */
    method ToggleDepartment(department: string)
      modifies this
      ensures selectedDepartments == Toggled(old(selectedDepartments), department)
    {
      var next := selectedDepartments;
      if department in next {
        next := next - {department};
      } else {
        next := next + {department};
      }
      selectedDepartments := next;
    }

    /**
     * A click on the generate button. A disabled button does nothing. Otherwise
     * `handleGenerate` runs: the employees of the checked departments, in store order, go to
     * the batch generator, and once it settles the screen navigates back iff the `error` the
     * handler captured when the screen was last rendered (the value before this run) is falsy:
     * null or the empty message.
     */
    method ClickGenerate(env: Env, employees: seq<Employee>, downloadUrl: string, click: Step)
      returns (ran: bool, settled: bool, navigated: bool)
      modifies generation
      ensures ran == !GenerateDisabled(selectedDepartments, old(generation.generating))
      ensures !ran ==> !settled && !navigated && unchanged(generation)
      ensures ran ==> generation.GeneratedBatch(env, Selected(employees, DepartmentOf, selectedDepartments),
                                                downloadUrl, click, settled)
      ensures navigated <==> ran && settled && (old(generation.error).None? || old(generation.error) == Some(""))
    {
      if GenerateDisabled(selectedDepartments, generation.generating) {
        return false, false, false;
      }
      ran := true;
      var capturedError := generation.error;
      var batch := Selected(employees, DepartmentOf, selectedDepartments);
      settled := generation.GenerateCredentials(env, batch, downloadUrl, click);
      navigated := settled && !IsTruthy(capturedError);
    }
  }
}
