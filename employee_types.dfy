/** The employee record, its filters and the partial record that `updateEmployee` spreads over it. */
module EmployeeTypes {
  import opened Wrappers

  datatype Gender = M | F | Other

  datatype Address = Address(street: string, number: string, city: string, state: string, zipCode: string)

  datatype EmergencyContact = EmergencyContact(name: string, relationship: string, phone: string)

  datatype Employee = Employee(
    id: string,
    rut: string,
    firstName: string,
    lastName: string,
    email: string,
    phone: string,
    birthDate: string,
    gender: Gender,
    address: Address,
    department: string,
    position: string,
    startDate: string,
    isActive: bool,
    profileImage: Option<string>,
    emergencyContact: EmergencyContact)

  datatype EmployeeFilters = EmployeeFilters(
    search: Option<string>, department: Option<string>, position: Option<string>, status: Option<bool>)

  /** `{}`: the filters the store starts with. */
  const NoEmployeeFilters := EmployeeFilters(None, None, None, None)

  /** `Partial<Employee>`: a field that is `Some` overrides the entry's field. */
  datatype EmployeePatch = EmployeePatch(
    id: Option<string>,
    rut: Option<string>,
    firstName: Option<string>,
    lastName: Option<string>,
    email: Option<string>,
    phone: Option<string>,
    birthDate: Option<string>,
    gender: Option<Gender>,
    address: Option<Address>,
    department: Option<string>,
    position: Option<string>,
    startDate: Option<string>,
    isActive: Option<bool>,
    profileImage: Option<string>,
    emergencyContact: Option<EmergencyContact>)

  function EmployeeId(e: Employee): string { e.id }

  /** `{ ...e, ...p }`. */
  function MergeEmployee(e: Employee, p: EmployeePatch): Employee {
    Employee(
      p.id.GetOr(e.id),
      p.rut.GetOr(e.rut),
      p.firstName.GetOr(e.firstName),
      p.lastName.GetOr(e.lastName),
      p.email.GetOr(e.email),
      p.phone.GetOr(e.phone),
      p.birthDate.GetOr(e.birthDate),
      p.gender.GetOr(e.gender),
      p.address.GetOr(e.address),
      p.department.GetOr(e.department),
      p.position.GetOr(e.position),
      p.startDate.GetOr(e.startDate),
      p.isActive.GetOr(e.isActive),
      p.profileImage.Or(e.profileImage),
      p.emergencyContact.GetOr(e.emergencyContact))
  }
}
