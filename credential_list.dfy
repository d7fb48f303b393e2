/**
 * The credential list screen: a search box, a checkbox per listed employee, and a bulk
 * button that generates one PDF for the checked employees.
 */
module CredentialList {
  import opened Wrappers
  import opened EmployeeTypes
  import opened Browser
  import opened CredentialHook
  import opened CredentialSearch

  /** `selectedEmployees.size > 0`: the bulk-download button is rendered. */
  predicate BulkButtonShown(selected: set<string>)
  {
    |selected| > 0
  }

  /** Checking an unchecked employee brings up the bulk button; unchecking the only checked one removes it. */
  lemma BulkButtonAfterToggle(selected: set<string>, id: string)
    ensures id !in selected ==> BulkButtonShown(Toggled(selected, id))
    ensures selected == {id} ==> !BulkButtonShown(Toggled(selected, id))
  {
    if id !in selected {
      assert id in Toggled(selected, id);
    }
  }

  class CredentialList {
    var search: string
    var selected: set<string>
    const generation: CredentialGeneration

    constructor ()
      ensures search == "" && selected == {}
      ensures fresh(generation) && !generation.generating && generation.error == None
    {
      search := "";
      selected := {};
      generation := new CredentialGeneration();
    }

    method SetSearch(s: string)
      modifies this
      ensures search == s && selected == old(selected)
    {
      search := s;
    }

    /** `toggleEmployee(id)`. */
    method ToggleEmployee(id: string)
      modifies this
      ensures selected == Toggled(old(selected), id) && search == old(search)
    {
      var next := selected;
      if id in next {
        next := next - {id};
      } else {
        next := next + {id};
      }
      selected := next;
    }

    /**
     * `handleGenerateSelected()`: the checked employees, in store order, go to the batch
     * generator; once it settles the selection is emptied.
     */
    method HandleGenerateSelected(env: Env, employees: seq<Employee>, downloadUrl: string, click: Step)
      returns (settled: bool)
      modifies this, generation
      ensures generation.GeneratedBatch(env, Selected(employees, EmployeeId, old(selected)), downloadUrl, click, settled)
      ensures selected == (if settled then {} else old(selected))
      ensures search == old(search)
    {
      var batch := Selected(employees, EmployeeId, selected);
      settled := generation.GenerateCredentials(env, batch, downloadUrl, click);
      if settled {
        selected := {};
      }
    }
  }
}
