/**
 * The vehicle store: one shared object whose actions each replace one of its fields.
 * List actions rebuild `vehicles` from the old list and leave the other fields alone;
 * the setters replace their own field and leave `vehicles` alone.
 */
module VehicleStore {
  import opened Wrappers
  import opened VehicleTypes
  import KeyedLists

  class VehicleStore {
    var vehicles: seq<Vehicle>
    var filters: VehicleFilters
    var loading: bool
    var error: Option<string>

    /** The state the store is created with. */
    constructor ()
      ensures vehicles == [] && filters == NoVehicleFilters && !loading && error == None
    {
      vehicles := [];
      filters := NoVehicleFilters;
      loading := false;
      error := None;
    }

    method SetVehicles(list: seq<Vehicle>)
      modifies this
      ensures vehicles == list
      ensures filters == old(filters) && loading == old(loading) && error == old(error)
    {
      vehicles := list;
    }

    /** Appends: every earlier entry keeps its position and the new one is last. */
    method AddVehicle(vehicle: Vehicle)
      modifies this
      ensures vehicles == old(vehicles) + [vehicle]
      ensures filters == old(filters) && loading == old(loading) && error == old(error)
    {
      vehicles := vehicles + [vehicle];
    }

    /** Spreads `patch` over every entry whose id is `id`; see KeyedLists.MergeWhereAt. */
    method UpdateVehicle(id: string, patch: VehiclePatch)
      modifies this
      ensures vehicles == KeyedLists.MergeWhere(old(vehicles), VehicleId, id, MergeVehicle, patch)
      ensures filters == old(filters) && loading == old(loading) && error == old(error)
    {
      vehicles := KeyedLists.MergeWhere(vehicles, VehicleId, id, MergeVehicle, patch);
    }

    /** Drops every entry whose id is `id`; see KeyedLists.RemoveWhereKeepsOthers. */
    method DeleteVehicle(id: string)
      modifies this
      ensures vehicles == KeyedLists.RemoveWhere(old(vehicles), VehicleId, id)
      ensures filters == old(filters) && loading == old(loading) && error == old(error)
    {
      vehicles := KeyedLists.RemoveWhere(vehicles, VehicleId, id);
    }

    method SetFilters(f: VehicleFilters)
      modifies this
      ensures filters == f
      ensures vehicles == old(vehicles) && loading == old(loading) && error == old(error)
    {
      filters := f;
    }

    method SetLoading(b: bool)
      modifies this
      ensures loading == b
      ensures vehicles == old(vehicles) && filters == old(filters) && error == old(error)
    {
      loading := b;
    }

    method SetError(e: Option<string>)
      modifies this
      ensures error == e
      ensures vehicles == old(vehicles) && filters == old(filters) && loading == old(loading)
    {
      error := e;
    }
  }
}
