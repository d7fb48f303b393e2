/**
 * The new-vehicle form: its schema, its defaults, and the submit handler that appends the
 * vehicle to the vehicle store. `currentYear` is `new Date().getFullYear()` when the schema
 * is built.
 */
module VehicleForm {
  import opened Wrappers
  import opened Validation
  import opened VehicleTypes
  import VehicleStore

  const BrandRequired := "La marca es requerida"
  const ModelRequired := "El modelo es requerido"
  const PlateRequired := "La patente es requerida"
  const InsuranceRequired := "La fecha de vencimiento del seguro es requerida"
  const ReviewRequired := "La fecha de revisión técnica es requerida"

  const MinYear := 1900
  const DefaultVehicleStatus := Active
  const DefaultMileage := 0

  /** The form's values; the two number inputs give `None` for `NaN`. `assignedTo` has no input. */
  datatype VehicleFormInput = VehicleFormInput(
    brand: string,
    model: string,
    licensePlate: string,
    year: Option<int>,
    vehicleType: VehicleType,
    status: VehicleStatus,
    fuelType: FuelType,
    mileage: Option<int>,
    insuranceExpiryDate: string,
    technicalReviewDate: string,
    assignedTo: Option<string>)

  datatype VehicleFormData = VehicleFormData(
    brand: string,
    model: string,
    licensePlate: string,
    year: int,
    vehicleType: VehicleType,
    status: VehicleStatus,
    fuelType: FuelType,
    mileage: int,
    insuranceExpiryDate: string,
    technicalReviewDate: string,
    assignedTo: Option<string>)

  /** `vehicleSchema`. */
  function VehicleIssues(f: VehicleFormInput, currentYear: int): seq<Issue>
  {
    StringMin("brand", f.brand, 1, BrandRequired)
    + StringMin("model", f.model, 1, ModelRequired)
    + StringMin("licensePlate", f.licensePlate, 1, PlateRequired)
    + NumberRange("year", f.year, MinYear, Some(currentYear + 1))
    + NumberRange("mileage", f.mileage, 0, None)
    + StringMin("insuranceExpiryDate", f.insuranceExpiryDate, 1, InsuranceRequired)
    + StringMin("technicalReviewDate", f.technicalReviewDate, 1, ReviewRequired)
  }

  function ParseVehicle(f: VehicleFormInput, currentYear: int): Parsed<VehicleFormData>
  {
    var issues := VehicleIssues(f, currentYear);
    if issues == [] then
      assert NumberRange("year", f.year, MinYear, Some(currentYear + 1)) == [];
      assert NumberRange("mileage", f.mileage, 0, None) == [];
      Ok(VehicleFormData(f.brand, f.model, f.licensePlate, f.year.value, f.vehicleType, f.status, f.fuelType,
                         f.mileage.value, f.insuranceExpiryDate, f.technicalReviewDate, f.assignedTo))
    else Invalid(issues)
  }

  /**
   * The schema accepts exactly the forms with brand, model, plate and both dates filled in, a
   * year from 1900 to next year, and a mileage of at least zero.
   */
  lemma VehicleSchemaSpec(f: VehicleFormInput, currentYear: int)
    ensures ParseVehicle(f, currentYear).Ok? <==>
      |f.brand| >= 1 && |f.model| >= 1 && |f.licensePlate| >= 1
      && f.year.Some? && MinYear <= f.year.value <= currentYear + 1
      && f.mileage.Some? && f.mileage.value >= 0
      && |f.insuranceExpiryDate| >= 1 && |f.technicalReviewDate| >= 1
  {
    var parts := [StringMin("brand", f.brand, 1, BrandRequired),
                  StringMin("model", f.model, 1, ModelRequired),
                  StringMin("licensePlate", f.licensePlate, 1, PlateRequired),
                  NumberRange("year", f.year, MinYear, Some(currentYear + 1)),
                  NumberRange("mileage", f.mileage, 0, None),
                  StringMin("insuranceExpiryDate", f.insuranceExpiryDate, 1, InsuranceRequired),
                  StringMin("technicalReviewDate", f.technicalReviewDate, 1, ReviewRequired)];
    assert |VehicleIssues(f, currentYear)|
      == |parts[0]| + |parts[1]| + |parts[2]| + |parts[3]| + |parts[4]| + |parts[5]| + |parts[6]|;
  }

  /** A year past next year is reported under `year` as too big (when it is not also below 1900). */
  lemma VehicleYearError(f: VehicleFormInput, currentYear: int)
    requires f.year.Some? && MinYear <= f.year.value && f.year.value > currentYear + 1
    ensures FirstError(VehicleIssues(f, currentYear), "year") == Some(TooBig(currentYear + 1))
  {
    var l2 := StringMin("brand", f.brand, 1, BrandRequired)
      + StringMin("model", f.model, 1, ModelRequired)
      + StringMin("licensePlate", f.licensePlate, 1, PlateRequired);
    var l3 := l2 + NumberRange("year", f.year, MinYear, Some(currentYear + 1));
    var l4 := l3 + NumberRange("mileage", f.mileage, 0, None);
    var l5 := l4 + StringMin("insuranceExpiryDate", f.insuranceExpiryDate, 1, InsuranceRequired);
    var y := NumberRange("year", f.year, MinYear, Some(currentYear + 1));
    assert y == [Issue("year", TooBig(currentYear + 1))];
    assert FirstError(y, "year") == Some(TooBig(currentYear + 1));
    assert FirstError(l2, "year") == None;
    assert VehicleIssues(f, currentYear) == l5 + StringMin("technicalReviewDate", f.technicalReviewDate, 1, ReviewRequired);
    FirstErrorAppend(l2, NumberRange("year", f.year, MinYear, Some(currentYear + 1)), "year");
    FirstErrorAppend(l3, NumberRange("mileage", f.mileage, 0, None), "year");
    FirstErrorAppend(l4, StringMin("insuranceExpiryDate", f.insuranceExpiryDate, 1, InsuranceRequired), "year");
    FirstErrorAppend(l5, StringMin("technicalReviewDate", f.technicalReviewDate, 1, ReviewRequired), "year");
  }

  /** The default mileage passes the schema. */
  lemma DefaultMileageAccepted()
    ensures NumberRange("mileage", Some(DefaultMileage), 0, None) == []
  {
  }

  /** `onSubmit`'s record: the form's fields, a fresh id, and no documents or maintenance records. */
  function NewVehicle(d: VehicleFormData, id: string): Vehicle
  {
    Vehicle(id, d.brand, d.model, d.licensePlate, d.year, d.vehicleType, d.status, d.assignedTo, [], [], None,
            d.insuranceExpiryDate, d.technicalReviewDate, d.fuelType, d.mileage)
  }

  /**
   * A vehicle built from an accepted form copies every field of the form, has a year from 1900
   * to next year and a mileage of at least zero, and starts with no documents or records.
   */
  lemma NewVehicleSpec(f: VehicleFormInput, currentYear: int, id: string)
    requires ParseVehicle(f, currentYear).Ok?
    ensures var v := NewVehicle(ParseVehicle(f, currentYear).data, id);
      && v.id == id && v.brand == f.brand && v.model == f.model && v.licensePlate == f.licensePlate
      && v.vehicleType == f.vehicleType && v.status == f.status && v.fuelType == f.fuelType
      && v.insuranceExpiryDate == f.insuranceExpiryDate && v.technicalReviewDate == f.technicalReviewDate
      && v.assignedTo == f.assignedTo
      && Some(v.year) == f.year && MinYear <= v.year <= currentYear + 1
      && Some(v.mileage) == f.mileage && v.mileage >= 0
      && v.documents == [] && v.maintenanceRecords == []
  {
    VehicleSchemaSpec(f, currentYear);
  }

  /** Submitting: an accepted form appends exactly one vehicle and navigates back. */
  method SubmitVehicle(store: VehicleStore.VehicleStore, f: VehicleFormInput, currentYear: int, id: string)
    returns (result: Parsed<VehicleFormData>, navigated: bool)
    modifies store
    ensures result == ParseVehicle(f, currentYear)
    ensures navigated <==> result.Ok?
    ensures store.vehicles == if result.Ok? then old(store.vehicles) + [NewVehicle(result.data, id)] else old(store.vehicles)
    ensures store.filters == old(store.filters) && store.loading == old(store.loading) && store.error == old(store.error)
  {
    result := ParseVehicle(f, currentYear);
    if result.Invalid? {
      return result, false;
    }
    store.AddVehicle(NewVehicle(result.data, id));
    navigated := true;
  }
}
