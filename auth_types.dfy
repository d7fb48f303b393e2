/**
 * The signed-in user as the auth types describe it. The same three roles are declared a second
 * time, identically, in the shared type index; the screens modelled here use this declaration.
 */
module AuthTypes {
  import opened Wrappers

  datatype UserRole = Admin | Manager | EmployeeRole

  datatype User = User(
    id: string,
    email: string,
    firstName: string,
    lastName: string,
    role: UserRole,
    isActive: bool,
    department: string,
    position: string,
    profileImage: Option<string>)

  datatype LoginCredentials = LoginCredentials(email: string, password: string, rememberMe: Option<bool>)
}
