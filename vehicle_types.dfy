/** The vehicle record and the records it holds, its filters and its partial record. */
module VehicleTypes {
  import opened Wrappers

  datatype VehicleType = Car | Truck | Van | Motorcycle | OtherType
  datatype VehicleStatus = Active | Maintenance | Repair | Inactive
  datatype FuelType = Gasoline | Diesel | Electric | Hybrid
  datatype DocumentType = Insurance | TechnicalReview | Permit | MaintenanceDocument | OtherDocument
  datatype DocumentStatus = Valid | Expired | PendingDocument
  datatype MaintenanceType = Preventive | Corrective | Emergency
  datatype MaintenanceStatus = Scheduled | InProgress | Completed | Cancelled

  datatype VehicleDocument = VehicleDocument(
    id: string,
    docType: DocumentType,
    title: string,
    fileUrl: string,
    expiryDate: Option<string>,
    uploadDate: string,
    status: DocumentStatus)

  datatype MaintenanceRecord = MaintenanceRecord(
    id: string,
    date: string,
    maintenanceType: MaintenanceType,
    description: string,
    cost: int,
    provider: string,
    mileage: int,
    nextMaintenanceDate: Option<string>,
    attachments: seq<string>,
    status: MaintenanceStatus)

  datatype Vehicle = Vehicle(
    id: string,
    brand: string,
    model: string,
    licensePlate: string,
    year: int,
    vehicleType: VehicleType,
    status: VehicleStatus,
    assignedTo: Option<string>,
    documents: seq<VehicleDocument>,
    maintenanceRecords: seq<MaintenanceRecord>,
    nextMaintenanceDate: Option<string>,
    insuranceExpiryDate: string,
    technicalReviewDate: string,
    fuelType: FuelType,
    mileage: int)

  datatype VehicleFilters = VehicleFilters(
    search: Option<string>, vehicleType: Option<VehicleType>, status: Option<VehicleStatus>, assignedTo: Option<string>)

  const NoVehicleFilters := VehicleFilters(None, None, None, None)

  /** `Partial<Vehicle>`. */
  datatype VehiclePatch = VehiclePatch(
    id: Option<string>,
    brand: Option<string>,
    model: Option<string>,
    licensePlate: Option<string>,
    year: Option<int>,
    vehicleType: Option<VehicleType>,
    status: Option<VehicleStatus>,
    assignedTo: Option<string>,
    documents: Option<seq<VehicleDocument>>,
    maintenanceRecords: Option<seq<MaintenanceRecord>>,
    nextMaintenanceDate: Option<string>,
    insuranceExpiryDate: Option<string>,
    technicalReviewDate: Option<string>,
    fuelType: Option<FuelType>,
    mileage: Option<int>)

  function VehicleId(v: Vehicle): string { v.id }

  /** `{ ...v, ...p }`. */
  function MergeVehicle(v: Vehicle, p: VehiclePatch): Vehicle {
    Vehicle(
      p.id.GetOr(v.id),
      p.brand.GetOr(v.brand),
      p.model.GetOr(v.model),
      p.licensePlate.GetOr(v.licensePlate),
      p.year.GetOr(v.year),
      p.vehicleType.GetOr(v.vehicleType),
      p.status.GetOr(v.status),
      p.assignedTo.Or(v.assignedTo),
      p.documents.GetOr(v.documents),
      p.maintenanceRecords.GetOr(v.maintenanceRecords),
      p.nextMaintenanceDate.Or(v.nextMaintenanceDate),
      p.insuranceExpiryDate.GetOr(v.insuranceExpiryDate),
      p.technicalReviewDate.GetOr(v.technicalReviewDate),
      p.fuelType.GetOr(v.fuelType),
      p.mileage.GetOr(v.mileage))
  }
}
