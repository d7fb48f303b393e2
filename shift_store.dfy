/**
 * The shift store: three keyed lists (`shifts`, `templates`, `changeRequests`) with the same
 * append / patch / delete actions, plus filters and status flags. An action on one list leaves
 * the other two lists and every other field unchanged.
 */
module ShiftStore {
  import opened Wrappers
  import opened ShiftTypes
  import KeyedLists

  class ShiftStore {
    var shifts: seq<Shift>
    var templates: seq<ShiftTemplate>
    var changeRequests: seq<ShiftChangeRequest>
    var filters: ShiftFilters
    var loading: bool
    var error: Option<string>

    constructor ()
      ensures shifts == [] && templates == [] && changeRequests == []
      ensures filters == NoShiftFilters && !loading && error == None
    {
      shifts := [];
      templates := [];
      changeRequests := [];
      filters := NoShiftFilters;
      loading := false;
      error := None;
    }

    /** Everything but `shifts` is as before. */
    twostate predicate OnlyShiftsChanged()
      reads this
    {
      templates == old(templates) && changeRequests == old(changeRequests)
      && filters == old(filters) && loading == old(loading) && error == old(error)
    }

    /** Everything but `templates` is as before. */
    twostate predicate OnlyTemplatesChanged()
      reads this
    {
      shifts == old(shifts) && changeRequests == old(changeRequests)
      && filters == old(filters) && loading == old(loading) && error == old(error)
    }

    /** Everything but `changeRequests` is as before. */
    twostate predicate OnlyChangeRequestsChanged()
      reads this
    {
      shifts == old(shifts) && templates == old(templates)
      && filters == old(filters) && loading == old(loading) && error == old(error)
    }

    method SetShifts(list: seq<Shift>)
      modifies this
      ensures shifts == list && OnlyShiftsChanged()
    {
      shifts := list;
    }

    method AddShift(shift: Shift)
      modifies this
      ensures shifts == old(shifts) + [shift] && OnlyShiftsChanged()
    {
      shifts := shifts + [shift];
    }

    method UpdateShift(id: string, patch: ShiftPatch)
      modifies this
      ensures shifts == KeyedLists.MergeWhere(old(shifts), ShiftId, id, MergeShift, patch) && OnlyShiftsChanged()
    {
      shifts := KeyedLists.MergeWhere(shifts, ShiftId, id, MergeShift, patch);
    }

    method DeleteShift(id: string)
      modifies this
      ensures shifts == KeyedLists.RemoveWhere(old(shifts), ShiftId, id) && OnlyShiftsChanged()
    {
      shifts := KeyedLists.RemoveWhere(shifts, ShiftId, id);
    }

    method SetTemplates(list: seq<ShiftTemplate>)
      modifies this
      ensures templates == list && OnlyTemplatesChanged()
    {
      templates := list;
    }

    method AddTemplate(template: ShiftTemplate)
      modifies this
      ensures templates == old(templates) + [template] && OnlyTemplatesChanged()
    {
      templates := templates + [template];
    }

    method UpdateTemplate(id: string, patch: TemplatePatch)
      modifies this
      ensures templates == KeyedLists.MergeWhere(old(templates), TemplateId, id, MergeTemplate, patch)
      ensures OnlyTemplatesChanged()
    {
      templates := KeyedLists.MergeWhere(templates, TemplateId, id, MergeTemplate, patch);
    }

    method DeleteTemplate(id: string)
      modifies this
      ensures templates == KeyedLists.RemoveWhere(old(templates), TemplateId, id) && OnlyTemplatesChanged()
    {
      templates := KeyedLists.RemoveWhere(templates, TemplateId, id);
    }

    method SetChangeRequests(list: seq<ShiftChangeRequest>)
      modifies this
      ensures changeRequests == list && OnlyChangeRequestsChanged()
    {
      changeRequests := list;
    }

    method AddChangeRequest(request: ShiftChangeRequest)
      modifies this
      ensures changeRequests == old(changeRequests) + [request] && OnlyChangeRequestsChanged()
    {
      changeRequests := changeRequests + [request];
    }

    method UpdateChangeRequest(id: string, patch: ChangeRequestPatch)
      modifies this
      ensures changeRequests
           == KeyedLists.MergeWhere(old(changeRequests), ChangeRequestId, id, MergeChangeRequest, patch)
      ensures OnlyChangeRequestsChanged()
    {
      changeRequests := KeyedLists.MergeWhere(changeRequests, ChangeRequestId, id, MergeChangeRequest, patch);
    }

    method DeleteChangeRequest(id: string)
      modifies this
      ensures changeRequests == KeyedLists.RemoveWhere(old(changeRequests), ChangeRequestId, id)
      ensures OnlyChangeRequestsChanged()
    {
      changeRequests := KeyedLists.RemoveWhere(changeRequests, ChangeRequestId, id);
    }

    method SetFilters(f: ShiftFilters)
      modifies this
      ensures filters == f
      ensures shifts == old(shifts) && templates == old(templates) && changeRequests == old(changeRequests)
      ensures loading == old(loading) && error == old(error)
    {
      filters := f;
    }

    method SetLoading(b: bool)
      modifies this
      ensures loading == b
      ensures shifts == old(shifts) && templates == old(templates) && changeRequests == old(changeRequests)
      ensures filters == old(filters) && error == old(error)
    {
      loading := b;
    }

    method SetError(e: Option<string>)
      modifies this
      ensures error == e
      ensures shifts == old(shifts) && templates == old(templates) && changeRequests == old(changeRequests)
      ensures filters == old(filters) && loading == old(loading)
    {
      error := e;
    }
  }

  /**
   * Patching a shift and then deleting it leaves the same list as deleting it directly,
   * for any patch that does not give the shift another id.
   */
  lemma UpdateThenDeleteIsDelete(shifts: seq<Shift>, id: string, patch: ShiftPatch)
    requires patch.id == None || patch.id == Some(id)
    ensures KeyedLists.RemoveWhere(KeyedLists.MergeWhere(shifts, ShiftId, id, MergeShift, patch), ShiftId, id)
         == KeyedLists.RemoveWhere(shifts, ShiftId, id)
  {
    KeyedLists.RemoveAfterMerge(shifts, ShiftId, id, MergeShift, patch);
  }

  /** A patch that sets another id moves the shift out of reach of the delete: the direct delete removes it, the patched one does not. */
  lemma RekeyingPatchEscapesDelete(s: Shift, id: string, other: string, patch: ShiftPatch)
    requires s.id == id && other != id && patch.id == Some(other)
    ensures KeyedLists.RemoveWhere(KeyedLists.MergeWhere([s], ShiftId, id, MergeShift, patch), ShiftId, id)
         == [MergeShift(s, patch)]
    ensures KeyedLists.RemoveWhere([s], ShiftId, id) == []
  {
  }
}
