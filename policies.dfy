/** The row-level security policies that create_policies.js installs on the
    five tables, and the way PostgreSQL combines them into one decision
    (section 5.8 "Row Security Policies" of the PostgreSQL 16 manual and its
    CREATE POLICY reference page):
    - only the policies for the table and the command at hand apply;
    - permissive policies are OR'd, so a table with row security and no
      applicable policy denies everything (fail-closed);
    - SELECT and DELETE test the USING expression on the existing row,
      INSERT tests WITH CHECK on the new row, and UPDATE tests USING on the
      old row and WITH CHECK on the new row, falling back to USING when the
      policy has no WITH CHECK.
    `Allowed` is that decision over the sixteen policies as the script writes
    them (with the intended reading of the companies UPDATE policy, see
    `LiteralPolicies`), and `Rules` is the same authorization model stated
    table by table, proved equal to it by `AllowedMatchesRules`. */
module RowSecurity {
  import opened Types

  datatype Table = CompaniesTable | UsersTable | CompanyAdminsTable | DepartmentsTable | EmployeeHierarchyTable

  datatype Command = Select | Insert | Update | Delete

  /** A row of one of the five tables. */
  datatype Row =
    | CompanyRow(company: Company)
    | UserRow(user: User)
    | CompanyAdminRow(grant: CompanyAdmin)
    | DepartmentRow(department: Department)
    | HierarchyRow(edge: EmployeeHierarchy)

  function TableOf(row: Row): Table {
    match row
    case CompanyRow(_) => CompaniesTable
    case UserRow(_) => UsersTable
    case CompanyAdminRow(_) => CompanyAdminsTable
    case DepartmentRow(_) => DepartmentsTable
    case HierarchyRow(_) => EmployeeHierarchyTable
  }

  /** The columns the policy expressions mention. */
  datatype Column = Id | UserId | CompanyId

  /** The value of `column` in `row`: `None` for SQL NULL, and for a column
      the row's table does not have (no policy refers to one). */
  function ColumnValue(row: Row, column: Column): Option<string> {
    match column
    case Id => (
      match row
      case CompanyRow(c) => Some(c.id)
      case UserRow(u) => Some(u.id)
      case CompanyAdminRow(g) => Some(g.id)
      case DepartmentRow(d) => Some(d.id)
      case HierarchyRow(h) => Some(h.id))
    case UserId => if row.CompanyAdminRow? then Some(row.grant.userId) else None
    case CompanyId => (
      match row
      case CompanyRow(_) => None
      case UserRow(u) => u.companyId
      case CompanyAdminRow(g) => Some(g.companyId)
      case DepartmentRow(d) => Some(d.companyId)
      case HierarchyRow(h) => Some(h.companyId))
  }

  /** The requesting identity: `uid` is auth.uid() (`None` for an anonymous
      request) and `role` is the role column of the actor's own users row
      (`None` when it is null or the row cannot be read). */
  datatype Actor = Actor(uid: Option<string>, role: Option<Role>)

  /** The actor of a signed-in session whose own users row is `u`. */
  function ActorOf(u: User): Actor {
    Actor(Some(u.id), u.role)
  }

  /** select user_id from company_admins where company_id = `companyId` */
  function AdminsOf(grants: seq<CompanyAdmin>, companyId: string): set<string> {
    set g | g in grants && g.companyId == companyId :: g.userId
  }

  /** select user_id from company_admins where company_id = id, with `id`
      bound to company_admins.id: the users of grant rows whose own id equals
      their company_id, whatever row the policy is checking. */
  function SelfIdAdmins(grants: seq<CompanyAdmin>): set<string> {
    set g | g in grants && g.companyId == g.id :: g.userId
  }

  /** is_superadmin(): the actor's own role is superadmin. */
  predicate IsSuperadmin(actor: Actor) {
    actor.role == Some(Superadmin)
  }

  /** auth.uid() = `id`; a NULL on either side is never equal. */
  predicate IsActor(actor: Actor, id: Option<string>) {
    actor.uid.Some? && id == actor.uid
  }

  /** auth.uid() in (select user_id from company_admins where company_id = `companyId`);
      a NULL on either side never matches. */
  predicate Administers(actor: Actor, grants: seq<CompanyAdmin>, companyId: Option<string>) {
    actor.uid.Some? && companyId.Some? && actor.uid.value in AdminsOf(grants, companyId.value)
  }

  /** The shapes of expression the policies use. `UidAdministersOwnId` is the
      subquery whose unqualified `id` binds to company_admins.id, as SQL
      scoping reads `where company_id = id` inside a subquery on company_admins. */
  datatype Expr =
    | Always
    | UidEquals(column: Column)
    | UidAdministers(column: Column)
    | UidAdministersOwnId
    | CallerIsSuperadmin

  predicate Holds(e: Expr, actor: Actor, grants: seq<CompanyAdmin>, row: Row)
    ensures Holds(e, actor, grants, row) && actor.uid.None? ==> e == Always || e == CallerIsSuperadmin
  {
    match e
    case Always => true
    case UidEquals(c) => IsActor(actor, ColumnValue(row, c))
    case UidAdministers(c) => Administers(actor, grants, ColumnValue(row, c))
    case UidAdministersOwnId =>
      actor.uid.Some? && actor.uid.value in SelfIdAdmins(grants)
    case CallerIsSuperadmin => IsSuperadmin(actor)
  }

  datatype Policy = Policy(
    table: Table,
    command: Command,
    usingExpr: Option<Expr>,
    checkExpr: Option<Expr>)

  /** The expression a new row must satisfy: WITH CHECK, or USING without one. */
  function NewRowExpr(p: Policy): Option<Expr> {
    if p.checkExpr.Some? then p.checkExpr else p.usingExpr
  }

  // The policies, named after their titles, at the lines of
  // create_policies.js that create them.

  /** line 19: "Companies are viewable by everyone." */
  const CompaniesViewableByEveryone := Policy(CompaniesTable, Select, Some(Always), None)
  /** line 24: "Company admins can update their company.", read as its title
      says: the actor is an admin of the company being updated. */
  const AdminsUpdateTheirCompany := Policy(CompaniesTable, Update, Some(UidAdministers(Id)), None)
  /** line 31: "Users can view their own profile." */
  const UsersViewOwnProfile := Policy(UsersTable, Select, Some(UidEquals(Id)), None)
  /** line 36: "Users can update their own profile." */
  const UsersUpdateOwnProfile := Policy(UsersTable, Update, Some(UidEquals(Id)), None)
  /** line 41: "Company admins can view all users in their company." */
  const AdminsViewCompanyUsers := Policy(UsersTable, Select, Some(UidAdministers(CompanyId)), None)
  /** line 46: "Superadmins can view all users." */
  const SuperadminsViewUsers := Policy(UsersTable, Select, Some(CallerIsSuperadmin), None)
  /** line 52: "Company admins can view their own company admin entries." */
  const AdminsViewOwnEntries := Policy(CompanyAdminsTable, Select, Some(UidEquals(UserId)), None)
  /** line 57: "Superadmins can view all company admin entries." */
  const SuperadminsViewEntries := Policy(CompanyAdminsTable, Select, Some(CallerIsSuperadmin), None)
  /** line 62: "Superadmins can add company admins." (WITH CHECK only) */
  const SuperadminsAddAdmins := Policy(CompanyAdminsTable, Insert, None, Some(CallerIsSuperadmin))
  /** line 68: "Company admins can view all departments in their company." */
  const AdminsViewDepartments := Policy(DepartmentsTable, Select, Some(UidAdministers(CompanyId)), None)
  /** line 73: "Superadmins can view all departments." */
  const SuperadminsViewDepartments := Policy(DepartmentsTable, Select, Some(CallerIsSuperadmin), None)
  /** line 78: "Company admins can create departments in their company" (WITH CHECK only) */
  const AdminsCreateDepartments := Policy(DepartmentsTable, Insert, None, Some(UidAdministers(CompanyId)))
  /** line 83: "Company admins can update departments in their company" (USING only) */
  const AdminsUpdateDepartments := Policy(DepartmentsTable, Update, Some(UidAdministers(CompanyId)), None)
  /** line 88: "Company admins can delete departments in their company" */
  const AdminsDeleteDepartments := Policy(DepartmentsTable, Delete, Some(UidAdministers(CompanyId)), None)
  /** line 94: "Company admins can view all hierarchy entries in their company." */
  const AdminsViewHierarchy := Policy(EmployeeHierarchyTable, Select, Some(UidAdministers(CompanyId)), None)
  /** line 99: "Superadmins can view all hierarchy entries." */
  const SuperadminsViewHierarchy := Policy(EmployeeHierarchyTable, Select, Some(CallerIsSuperadmin), None)

  /** The sixteen policies, in the order the script creates them. */
  const Policies: seq<Policy> := [
    CompaniesViewableByEveryone, AdminsUpdateTheirCompany,
    UsersViewOwnProfile, UsersUpdateOwnProfile, AdminsViewCompanyUsers, SuperadminsViewUsers,
    AdminsViewOwnEntries, SuperadminsViewEntries, SuperadminsAddAdmins,
    AdminsViewDepartments, SuperadminsViewDepartments, AdminsCreateDepartments,
    AdminsUpdateDepartments, AdminsDeleteDepartments,
    AdminsViewHierarchy, SuperadminsViewHierarchy
  ]

  /** line 24 as SQL scopes its text: the unqualified `id` in the subquery
      is company_admins.id, so the row being updated is never consulted. */
  const AdminsUpdateTheirCompanyAsWritten := Policy(CompaniesTable, Update, Some(UidAdministersOwnId), None)

  /** The sixteen policies with the companies UPDATE policy read literally. */
  const LiteralPolicies: seq<Policy> := [
    CompaniesViewableByEveryone, AdminsUpdateTheirCompanyAsWritten,
    UsersViewOwnProfile, UsersUpdateOwnProfile, AdminsViewCompanyUsers, SuperadminsViewUsers,
    AdminsViewOwnEntries, SuperadminsViewEntries, SuperadminsAddAdmins,
    AdminsViewDepartments, SuperadminsViewDepartments, AdminsCreateDepartments,
    AdminsUpdateDepartments, AdminsDeleteDepartments,
    AdminsViewHierarchy, SuperadminsViewHierarchy
  ]

  /** A statement against one row. UPDATE carries the old row and the new one. */
  datatype Request =
    | SelectRow(row: Row)
    | InsertRow(row: Row)
    | UpdateRow(row: Row, newRow: Row)
    | DeleteRow(row: Row)

  function CommandOf(req: Request): Command {
    match req
    case SelectRow(_) => Select
    case InsertRow(_) => Insert
    case UpdateRow(_, _) => Update
    case DeleteRow(_) => Delete
  }

  /** An UPDATE keeps the row in its table. */
  predicate WellFormed(req: Request) {
    req.UpdateRow? ==> TableOf(req.newRow) == TableOf(req.row)
  }

  /** `ps` holds a policy for `table` and `command`. */
  predicate HasPolicy(ps: seq<Policy>, table: Table, command: Command) {
    exists p :: p in ps && p.table == table && p.command == command
  }

  /** Some policy of `ps` for `table` and `command` has a USING expression
      that admits `row` (permissive policies are OR'd). */
  predicate SomeUsing(ps: seq<Policy>, table: Table, command: Command,
                      actor: Actor, grants: seq<CompanyAdmin>, row: Row) {
    exists p :: p in ps && p.table == table && p.command == command
      && p.usingExpr.Some? && Holds(p.usingExpr.value, actor, grants, row)
  }

  /** Some policy of `ps` for `table` and `command` admits `row` as a new row. */
  predicate SomeCheck(ps: seq<Policy>, table: Table, command: Command,
                      actor: Actor, grants: seq<CompanyAdmin>, row: Row) {
    exists p :: p in ps && p.table == table && p.command == command
      && NewRowExpr(p).Some? && Holds(NewRowExpr(p).value, actor, grants, row)
  }

  /** PostgreSQL's decision for `req` on a table with row security enabled
      and the permissive policies `ps`. */
  predicate Decide(ps: seq<Policy>, actor: Actor, grants: seq<CompanyAdmin>, req: Request)
    ensures Decide(ps, actor, grants, req) ==> WellFormed(req)
  {
    var t, c := TableOf(req.row), CommandOf(req);
    WellFormed(req) &&
    match req
    case SelectRow(r) => SomeUsing(ps, t, c, actor, grants, r)
    case InsertRow(r) => SomeCheck(ps, t, c, actor, grants, r)
    case UpdateRow(r, n) => SomeUsing(ps, t, c, actor, grants, r) && SomeCheck(ps, t, c, actor, grants, n)
    case DeleteRow(r) => SomeUsing(ps, t, c, actor, grants, r)
  }

  /** The decision over the policy set the application runs with. */
  predicate Allowed(actor: Actor, grants: seq<CompanyAdmin>, req: Request) {
    Decide(Policies, actor, grants, req)
  }

  /** The authorization model written table by table: whether `actor` may
      apply `command` to `row`, for a row that already exists (SELECT,
      UPDATE, DELETE) or one being written (INSERT, and the new row of an
      UPDATE). Every (table, command) pair not listed here is denied. */
  predicate Rule(actor: Actor, grants: seq<CompanyAdmin>, command: Command, row: Row) {
    match row
    case CompanyRow(c) =>
      command == Select
      || (command == Update && Administers(actor, grants, Some(c.id)))
    case UserRow(u) =>
      (command == Select &&
        (IsActor(actor, Some(u.id)) || Administers(actor, grants, u.companyId) || IsSuperadmin(actor)))
      || (command == Update && IsActor(actor, Some(u.id)))
    case CompanyAdminRow(g) =>
      (command == Select && (IsActor(actor, Some(g.userId)) || IsSuperadmin(actor)))
      || (command == Insert && IsSuperadmin(actor))
    case DepartmentRow(d) =>
      (command == Select && (Administers(actor, grants, Some(d.companyId)) || IsSuperadmin(actor)))
      || (command != Select && Administers(actor, grants, Some(d.companyId)))
    case HierarchyRow(h) =>
      command == Select && (Administers(actor, grants, Some(h.companyId)) || IsSuperadmin(actor))
  }

  /** `Rule` applied to a request: an UPDATE needs the rule on the old row
      and on the new one. */
  predicate Rules(actor: Actor, grants: seq<CompanyAdmin>, req: Request) {
    WellFormed(req) &&
    match req
    case SelectRow(r) => Rule(actor, grants, Select, r)
    case InsertRow(r) => Rule(actor, grants, Insert, r)
    case UpdateRow(r, n) => Rule(actor, grants, Update, r) && Rule(actor, grants, Update, n)
    case DeleteRow(r) => Rule(actor, grants, Delete, r)
  }

  /** The sixteen policies are the only members of the set. */
  lemma PolicyMembers(p: Policy)
    requires p in Policies
    ensures p == CompaniesViewableByEveryone || p == AdminsUpdateTheirCompany
         || p == UsersViewOwnProfile || p == UsersUpdateOwnProfile
         || p == AdminsViewCompanyUsers || p == SuperadminsViewUsers
         || p == AdminsViewOwnEntries || p == SuperadminsViewEntries || p == SuperadminsAddAdmins
         || p == AdminsViewDepartments || p == SuperadminsViewDepartments
         || p == AdminsCreateDepartments || p == AdminsUpdateDepartments || p == AdminsDeleteDepartments
         || p == AdminsViewHierarchy || p == SuperadminsViewHierarchy
  {
  }

  /** A policy's USING expression admits a row only where `Rule` does. */
  lemma UsingWithinRule(actor: Actor, grants: seq<CompanyAdmin>, row: Row, p: Policy)
    requires p in Policies && p.table == TableOf(row) && p.command != Insert
    requires p.usingExpr.Some? && Holds(p.usingExpr.value, actor, grants, row)
    ensures Rule(actor, grants, p.command, row)
  {
    PolicyMembers(p);
  }

  /** A policy's new-row expression admits a row only where `Rule` does. */
  lemma CheckWithinRule(actor: Actor, grants: seq<CompanyAdmin>, row: Row, p: Policy)
    requires p in Policies && p.table == TableOf(row)
    requires NewRowExpr(p).Some? && Holds(NewRowExpr(p).value, actor, grants, row)
    ensures Rule(actor, grants, p.command, row)
  {
    PolicyMembers(p);
  }

  /** The policy whose expression gives the actor the right `Rule` states. */
  lemma RuleWitness(actor: Actor, grants: seq<CompanyAdmin>, command: Command, row: Row) returns (p: Policy)
    requires Rule(actor, grants, command, row)
    ensures p in Policies && p.table == TableOf(row) && p.command == command
    ensures NewRowExpr(p).Some? && Holds(NewRowExpr(p).value, actor, grants, row)
    ensures command != Insert ==> p.usingExpr == NewRowExpr(p)
  {
    match row
    case CompanyRow(c) =>
      p := if command == Select then CompaniesViewableByEveryone else AdminsUpdateTheirCompany;
    case UserRow(u) =>
      if command == Update {
        p := UsersUpdateOwnProfile;
      } else if IsActor(actor, Some(u.id)) {
        p := UsersViewOwnProfile;
      } else if Administers(actor, grants, u.companyId) {
        p := AdminsViewCompanyUsers;
      } else {
        p := SuperadminsViewUsers;
      }
    case CompanyAdminRow(g) =>
      if command == Insert {
        p := SuperadminsAddAdmins;
      } else if IsActor(actor, Some(g.userId)) {
        p := AdminsViewOwnEntries;
      } else {
        p := SuperadminsViewEntries;
      }
    case DepartmentRow(d) =>
      if command == Insert {
        p := AdminsCreateDepartments;
      } else if command == Update {
        p := AdminsUpdateDepartments;
      } else if command == Delete {
        p := AdminsDeleteDepartments;
      } else if Administers(actor, grants, Some(d.companyId)) {
        p := AdminsViewDepartments;
      } else {
        p := SuperadminsViewDepartments;
      }
    case HierarchyRow(h) =>
      p := if Administers(actor, grants, Some(h.companyId)) then AdminsViewHierarchy else SuperadminsViewHierarchy;
  }

  /** The OR of the applicable USING expressions is `Rule`, for every
      command that has USING policies. */
  lemma SomeUsingIsRule(actor: Actor, grants: seq<CompanyAdmin>, command: Command, row: Row)
    requires command != Insert
    ensures SomeUsing(Policies, TableOf(row), command, actor, grants, row) == Rule(actor, grants, command, row)
  {
    if SomeUsing(Policies, TableOf(row), command, actor, grants, row) {
      var p :| p in Policies && p.table == TableOf(row) && p.command == command
        && p.usingExpr.Some? && Holds(p.usingExpr.value, actor, grants, row);
      UsingWithinRule(actor, grants, row, p);
    }
    if Rule(actor, grants, command, row) {
      var p := RuleWitness(actor, grants, command, row);
    }
  }

  /** The OR of the applicable new-row expressions is `Rule`. */
  lemma SomeCheckIsRule(actor: Actor, grants: seq<CompanyAdmin>, command: Command, row: Row)
    ensures SomeCheck(Policies, TableOf(row), command, actor, grants, row) == Rule(actor, grants, command, row)
  {
    if SomeCheck(Policies, TableOf(row), command, actor, grants, row) {
      var p :| p in Policies && p.table == TableOf(row) && p.command == command
        && NewRowExpr(p).Some? && Holds(NewRowExpr(p).value, actor, grants, row);
      CheckWithinRule(actor, grants, row, p);
    }
    if Rule(actor, grants, command, row) {
      var p := RuleWitness(actor, grants, command, row);
    }
  }

  /** The policy set decides exactly what the table-by-table model says. */
  lemma AllowedMatchesRules(actor: Actor, grants: seq<CompanyAdmin>, req: Request)
    ensures Allowed(actor, grants, req) == Rules(actor, grants, req)
  {
    match req
    case SelectRow(r) => SomeUsingIsRule(actor, grants, Select, r);
    case InsertRow(r) => SomeCheckIsRule(actor, grants, Insert, r);
    case UpdateRow(r, n) =>
      SomeUsingIsRule(actor, grants, Update, r);
      if WellFormed(req) {
        SomeCheckIsRule(actor, grants, Update, n);
      }
    case DeleteRow(r) => SomeUsingIsRule(actor, grants, Delete, r);
  }
}
