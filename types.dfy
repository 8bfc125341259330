/** Records of the HR application's tables (src/types.ts) and the
    outcome of a call to the hosted backend. Identifiers and timestamps are
    opaque strings; `x?: string | null` and `string | null` are both `Option`. */
module Types {

  datatype Option<+T> = None | Some(value: T)

  /** What a backend call hands back: the rows or value on success, or the
      error's message. Network and foreign calls are parameters of the model. */
  datatype Remote<+T> = Ok(value: T) | Err(message: string)

  /** JavaScript truthiness of a `string | null` state field, as `if (error)`
      tests it: null and the empty string are both false. */
  predicate Truthy(s: Option<string>) {
    s.Some? && s.value != ""
  }

  /** The role column of a users row; a null role is `None` at the use site. */
  datatype Role = Superadmin | CompanyAdmin | Manager | Employee

  datatype Language = English | Hungarian

  datatype Company = Company(
    id: string,
    name: string,
    createdAt: string,
    accessTime: Option<string>)

  datatype User = User(
    id: string,
    companyId: Option<string>,
    firstName: Option<string>,
    lastName: Option<string>,
    role: Option<Role>,
    preferredLanguage: Option<Language>,
    createdAt: string,
    phoneNumber: Option<string>,
    dateOfBirth: Option<string>,
    hireDate: Option<string>,
    jobTitle: Option<string>,
    departmentId: Option<string>)

  /** A company_admins row: grants `userId` admin rights over `companyId`.
      The role constructor of the same name is written `Role.CompanyAdmin`. */
  datatype CompanyAdmin = CompanyAdmin(
    id: string,
    userId: string,
    companyId: string,
    createdAt: string)

  datatype Department = Department(
    id: string,
    companyId: string,
    name: string,
    createdAt: string)

  /** A directed edge employee -> manager inside one company. */
  datatype EmployeeHierarchy = EmployeeHierarchy(
    id: string,
    employeeId: string,
    managerId: string,
    companyId: string,
    createdAt: string)
}
