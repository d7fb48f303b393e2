/**
 * The employee form's schema. The form renders inputs for the first and last name, the RUT and
 * the email only; every other field takes its value from `initialData`, and is undefined
 * without it. Submission is handed to the caller.
 */
module EmployeeForm {
  import opened Wrappers
  import opened Validation
  import opened EmployeeTypes

  const FirstNameRequired := "El nombre es requerido"
  const LastNameRequired := "El apellido es requerido"
  const RutRequired := "El RUT es requerido"
  const EmailInvalid := "Email inválido"
  const PhoneRequired := "El teléfono es requerido"
  const BirthDateRequired := "La fecha de nacimiento es requerida"
  const StreetRequired := "La calle es requerida"
  const NumberRequired := "El número es requerido"
  const CityRequired := "La ciudad es requerida"
  const StateRequired := "La región es requerida"
  const ZipRequired := "El código postal es requerido"
  const DepartmentRequired := "El departamento es requerido"
  const PositionRequired := "El cargo es requerido"
  const StartDateRequired := "La fecha de inicio es requerida"
  const ContactNameRequired := "El nombre del contacto es requerido"
  const RelationshipRequired := "La relación es requerida"

  datatype AddressInput = AddressInput(
    street: Option<string>, number: Option<string>, city: Option<string>, state: Option<string>, zipCode: Option<string>)

  datatype ContactInput = ContactInput(name: Option<string>, relationship: Option<string>, phone: Option<string>)

  /** The form's values: the four rendered inputs are always strings, the rest may be undefined. */
  datatype EmployeeFormInput = EmployeeFormInput(
    firstName: string,
    lastName: string,
    rut: string,
    email: string,
    phone: Option<string>,
    birthDate: Option<string>,
    gender: Option<string>,
    address: Option<AddressInput>,
    department: Option<string>,
    position: Option<string>,
    startDate: Option<string>,
    emergencyContact: Option<ContactInput>)

  datatype EmployeeFormData = EmployeeFormData(
    firstName: string,
    lastName: string,
    rut: string,
    email: string,
    phone: string,
    birthDate: string,
    gender: Gender,
    address: Address,
    department: string,
    position: string,
    startDate: string,
    emergencyContact: EmergencyContact)

  /** `z.enum(['M', 'F', 'OTHER'])`. */
  function GenderOf(s: string): (r: Option<Gender>)
    ensures r.Some? <==> s in {"M", "F", "OTHER"}
  {
    if s == "M" then Some(M) else if s == "F" then Some(F) else if s == "OTHER" then Some(Other) else None
  }

  function GenderCode(g: Gender): string
  {
    match g
    case M => "M"
    case F => "F"
    case Other => "OTHER"
  }

  function GenderIssues(v: Option<string>): (r: seq<Issue>)
    ensures r == [] <==> v.Some? && GenderOf(v.value).Some?
  {
    if v.None? then [Issue("gender", Required)]
    else if GenderOf(v.value).None? then [Issue("gender", InvalidEnum)]
    else []
  }

  predicate Filled(v: Option<string>)
  {
    v.Some? && |v.value| >= 1
  }

  function AddressIssues(v: Option<AddressInput>): (r: seq<Issue>)
    ensures r == [] <==>
      v.Some? && Filled(v.value.street) && Filled(v.value.number) && Filled(v.value.city)
      && Filled(v.value.state) && Filled(v.value.zipCode)
  {
    match v
    case None => [Issue("address", Required)]
    case Some(a) =>
      OptionalStringMin("address.street", a.street, 1, StreetRequired)
      + OptionalStringMin("address.number", a.number, 1, NumberRequired)
      + OptionalStringMin("address.city", a.city, 1, CityRequired)
      + OptionalStringMin("address.state", a.state, 1, StateRequired)
      + OptionalStringMin("address.zipCode", a.zipCode, 1, ZipRequired)
  }

  function ContactIssues(v: Option<ContactInput>): (r: seq<Issue>)
    ensures r == [] <==> v.Some? && Filled(v.value.name) && Filled(v.value.relationship) && Filled(v.value.phone)
  {
    match v
    case None => [Issue("emergencyContact", Required)]
    case Some(c) =>
      OptionalStringMin("emergencyContact.name", c.name, 1, ContactNameRequired)
      + OptionalStringMin("emergencyContact.relationship", c.relationship, 1, RelationshipRequired)
      + OptionalStringMin("emergencyContact.phone", c.phone, 1, PhoneRequired)
  }

  /** `employeeSchema`; `isEmail` is zod's address pattern. */
  function EmployeeIssues(f: EmployeeFormInput, isEmail: string -> bool): seq<Issue>
  {
    StringMin("firstName", f.firstName, 1, FirstNameRequired)
    + StringMin("lastName", f.lastName, 1, LastNameRequired)
    + StringMin("rut", f.rut, 1, RutRequired)
    + Email("email", f.email, isEmail, EmailInvalid)
    + OptionalStringMin("phone", f.phone, 1, PhoneRequired)
    + OptionalStringMin("birthDate", f.birthDate, 1, BirthDateRequired)
    + GenderIssues(f.gender)
    + AddressIssues(f.address)
    + OptionalStringMin("department", f.department, 1, DepartmentRequired)
    + OptionalStringMin("position", f.position, 1, PositionRequired)
    + OptionalStringMin("startDate", f.startDate, 1, StartDateRequired)
    + ContactIssues(f.emergencyContact)
  }

  /** Every field, nested ones included, is filled in and the email and gender are well formed. */
  predicate Acceptable(f: EmployeeFormInput, isEmail: string -> bool)
  {
    && |f.firstName| >= 1 && |f.lastName| >= 1 && |f.rut| >= 1 && isEmail(f.email)
    && Filled(f.phone) && Filled(f.birthDate)
    && f.gender.Some? && f.gender.value in {"M", "F", "OTHER"}
    && f.address.Some? && Filled(f.address.value.street) && Filled(f.address.value.number)
    && Filled(f.address.value.city) && Filled(f.address.value.state) && Filled(f.address.value.zipCode)
    && Filled(f.department) && Filled(f.position) && Filled(f.startDate)
    && f.emergencyContact.Some? && Filled(f.emergencyContact.value.name)
    && Filled(f.emergencyContact.value.relationship) && Filled(f.emergencyContact.value.phone)
  }

  function ParseEmployee(f: EmployeeFormInput, isEmail: string -> bool): Parsed<EmployeeFormData>
  {
    if EmployeeIssues(f, isEmail) == [] then
      EmployeeSchemaSpec(f, isEmail);
      var a := f.address.value;
      var c := f.emergencyContact.value;
      Ok(EmployeeFormData(f.firstName, f.lastName, f.rut, f.email, f.phone.value, f.birthDate.value,
                          GenderOf(f.gender.value).value,
                          Address(a.street.value, a.number.value, a.city.value, a.state.value, a.zipCode.value),
                          f.department.value, f.position.value, f.startDate.value,
                          EmergencyContact(c.name.value, c.relationship.value, c.phone.value)))
    else Invalid(EmployeeIssues(f, isEmail))
  }

  /** The schema accepts exactly the forms whose every field is filled in and well formed. */
  lemma EmployeeSchemaSpec(f: EmployeeFormInput, isEmail: string -> bool)
    ensures EmployeeIssues(f, isEmail) == [] <==> Acceptable(f, isEmail)
  {
    var parts := [StringMin("firstName", f.firstName, 1, FirstNameRequired),
                  StringMin("lastName", f.lastName, 1, LastNameRequired),
                  StringMin("rut", f.rut, 1, RutRequired),
                  Email("email", f.email, isEmail, EmailInvalid),
                  OptionalStringMin("phone", f.phone, 1, PhoneRequired),
                  OptionalStringMin("birthDate", f.birthDate, 1, BirthDateRequired),
                  GenderIssues(f.gender),
                  AddressIssues(f.address),
                  OptionalStringMin("department", f.department, 1, DepartmentRequired),
                  OptionalStringMin("position", f.position, 1, PositionRequired),
                  OptionalStringMin("startDate", f.startDate, 1, StartDateRequired),
                  ContactIssues(f.emergencyContact)];
    assert |EmployeeIssues(f, isEmail)| == |parts[0]| + |parts[1]| + |parts[2]| + |parts[3]| + |parts[4]| + |parts[5]|
      + |parts[6]| + |parts[7]| + |parts[8]| + |parts[9]| + |parts[10]| + |parts[11]|;
  }

  /** `defaultValues: initialData`: the form opened on an existing employee. */
  function InputFrom(e: Employee): EmployeeFormInput
  {
    EmployeeFormInput(
      e.firstName, e.lastName, e.rut, e.email, Some(e.phone), Some(e.birthDate), Some(GenderCode(e.gender)),
      Some(AddressInput(Some(e.address.street), Some(e.address.number), Some(e.address.city),
                        Some(e.address.state), Some(e.address.zipCode))),
      Some(e.department), Some(e.position), Some(e.startDate),
      Some(ContactInput(Some(e.emergencyContact.name), Some(e.emergencyContact.relationship),
                        Some(e.emergencyContact.phone))))
  }

  /** The form opened without `initialData`, whatever is typed into the four inputs. */
  function InputWithout(firstName: string, lastName: string, rut: string, email: string): EmployeeFormInput
  {
    EmployeeFormInput(firstName, lastName, rut, email, None, None, None, None, None, None, None, None)
  }

  /**
   * Opened on an employee, the form is accepted exactly when the employee's text fields are
   * all non-empty and its email is well formed, and it then hands back the employee's own
   * values (its id, status and photo are dropped).
   */
  lemma InitialDataRoundTrip(e: Employee, isEmail: string -> bool)
    ensures ParseEmployee(InputFrom(e), isEmail).Ok? <==>
      |e.firstName| >= 1 && |e.lastName| >= 1 && |e.rut| >= 1 && isEmail(e.email)
      && |e.phone| >= 1 && |e.birthDate| >= 1
      && |e.address.street| >= 1 && |e.address.number| >= 1 && |e.address.city| >= 1
      && |e.address.state| >= 1 && |e.address.zipCode| >= 1
      && |e.department| >= 1 && |e.position| >= 1 && |e.startDate| >= 1
      && |e.emergencyContact.name| >= 1 && |e.emergencyContact.relationship| >= 1 && |e.emergencyContact.phone| >= 1
    ensures ParseEmployee(InputFrom(e), isEmail).Ok? ==>
      ParseEmployee(InputFrom(e), isEmail).data == EmployeeFormData(
        e.firstName, e.lastName, e.rut, e.email, e.phone, e.birthDate, e.gender, e.address,
        e.department, e.position, e.startDate, e.emergencyContact)
  {
    var f := InputFrom(e);
    EmployeeSchemaSpec(f, isEmail);
    InitialDataAcceptable(e, isEmail);
    assert GenderOf(GenderCode(e.gender)) == Some(e.gender);
  }

  /** The form opened on an employee passes the schema iff the employee's fields are all filled. */
  lemma InitialDataAcceptable(e: Employee, isEmail: string -> bool)
    ensures Acceptable(InputFrom(e), isEmail) <==>
      |e.firstName| >= 1 && |e.lastName| >= 1 && |e.rut| >= 1 && isEmail(e.email)
      && |e.phone| >= 1 && |e.birthDate| >= 1
      && |e.address.street| >= 1 && |e.address.number| >= 1 && |e.address.city| >= 1
      && |e.address.state| >= 1 && |e.address.zipCode| >= 1
      && |e.department| >= 1 && |e.position| >= 1 && |e.startDate| >= 1
      && |e.emergencyContact.name| >= 1 && |e.emergencyContact.relationship| >= 1 && |e.emergencyContact.phone| >= 1
  {
    assert GenderCode(e.gender) in {"M", "F", "OTHER"};
  }

  /** Without `initialData` the form can never be submitted: the phone alone is already undefined. */
  lemma BlankFormRejected(firstName: string, lastName: string, rut: string, email: string, isEmail: string -> bool)
    ensures ParseEmployee(InputWithout(firstName, lastName, rut, email), isEmail).Invalid?
    ensures FirstError(EmployeeIssues(InputWithout(firstName, lastName, rut, email), isEmail), "phone") == Some(Required)
  {
    var f := InputWithout(firstName, lastName, rut, email);
    EmployeeSchemaSpec(f, isEmail);
    var l3 := StringMin("firstName", f.firstName, 1, FirstNameRequired)
      + StringMin("lastName", f.lastName, 1, LastNameRequired)
      + StringMin("rut", f.rut, 1, RutRequired)
      + Email("email", f.email, isEmail, EmailInvalid);
    var l4 := l3 + OptionalStringMin("phone", f.phone, 1, PhoneRequired);
    var l5 := l4 + OptionalStringMin("birthDate", f.birthDate, 1, BirthDateRequired);
    var l6 := l5 + GenderIssues(f.gender);
    var l7 := l6 + AddressIssues(f.address);
    var l8 := l7 + OptionalStringMin("department", f.department, 1, DepartmentRequired);
    var l9 := l8 + OptionalStringMin("position", f.position, 1, PositionRequired);
    var l10 := l9 + OptionalStringMin("startDate", f.startDate, 1, StartDateRequired);
    var l11 := l10 + ContactIssues(f.emergencyContact);
    assert FirstError(l3, "phone") == None;
    FirstErrorAppend(l3, OptionalStringMin("phone", f.phone, 1, PhoneRequired), "phone");
    FirstErrorAppend(l4, OptionalStringMin("birthDate", f.birthDate, 1, BirthDateRequired), "phone");
    FirstErrorAppend(l5, GenderIssues(f.gender), "phone");
    FirstErrorAppend(l6, AddressIssues(f.address), "phone");
    FirstErrorAppend(l7, OptionalStringMin("department", f.department, 1, DepartmentRequired), "phone");
    FirstErrorAppend(l8, OptionalStringMin("position", f.position, 1, PositionRequired), "phone");
    FirstErrorAppend(l9, OptionalStringMin("startDate", f.startDate, 1, StartDateRequired), "phone");
    FirstErrorAppend(l10, ContactIssues(f.emergencyContact), "phone");
  }
}
