/** The employee list panel (src/components/EmployeeList.tsx): which users
    query it issues for the signed-in user, what it keeps of the answer, and
    the four cells it renders per employee. What the query returns is the
    users rows the row security policies let the actor read, narrowed by the
    query's filter (`QueryResult`). */
module EmployeeList {
  import opened Types
  import RowSecurity

  // ---------------------------------------------------------------------
  // The query

  /** `from('users').select('*')`, with or without `.eq('company_id', ...)`. */
  datatype UsersQuery = AllUsers | UsersOfCompany(companyId: Option<string>)

  /** The filter of a query; `eq` against a NULL company_id matches no row. */
  predicate Matches(q: UsersQuery, u: User)
    ensures q.UsersOfCompany? ==> (Matches(q, u) <==> q.companyId.Some? && u.companyId == q.companyId)
    ensures q.AllUsers? ==> Matches(q, u)
  {
    match q
    case AllUsers => true
    case UsersOfCompany(c) => c.Some? && u.companyId == c
  }

  /** The query fetchEmployees issues, or `None` when it returns before
      querying: nobody is signed in, the users row is missing, or the role is
      neither company_admin nor superadmin. */
  function QueryFor(user: Option<User>, signedIn: bool): (q: Option<UsersQuery>)
    ensures q.Some? <==>
      signedIn && user.Some? && user.value.role in {Some(Role.CompanyAdmin), Some(Superadmin)}
    ensures q == Some(AllUsers) <==> signedIn && user.Some? && user.value.role == Some(Superadmin)
    ensures q.Some? && q.value.UsersOfCompany? ==> q.value.companyId == user.value.companyId
  {
    if !signedIn || user.None? then None
    else if user.value.role == Some(Role.CompanyAdmin) then Some(UsersOfCompany(user.value.companyId))
    else if user.value.role == Some(Superadmin) then Some(AllUsers)
    else None
  }

  /** The rows of `table`, in order, that `actor` may read and `q` selects. */
  function QueryResult(q: UsersQuery, actor: RowSecurity.Actor, grants: seq<CompanyAdmin>, table: seq<User>): (r: seq<User>)
    ensures |r| <= |table|
    ensures forall u :: u in r <==>
      u in table && Matches(q, u) && RowSecurity.Allowed(actor, grants, RowSecurity.SelectRow(RowSecurity.UserRow(u)))
  {
    if table == [] then []
    else
      var u := table[0];
      (if Matches(q, u) && RowSecurity.Allowed(actor, grants, RowSecurity.SelectRow(RowSecurity.UserRow(u)))
       then [u] else [])
      + QueryResult(q, actor, grants, table[1..])
  }

  /** The rows of `table` whose company is `companyId`, in order. */
  function OfCompany(table: seq<User>, companyId: string): (r: seq<User>)
    ensures forall u :: u in r <==> u in table && u.companyId == Some(companyId)
  {
    if table == [] then []
    else (if table[0].companyId == Some(companyId) then [table[0]] else []) + OfCompany(table[1..], companyId)
  }

  /** A company admin who holds a grant for their own company gets exactly
      that company's users, in table order. */
  lemma {:induction false} GrantedAdminGetsCompany(user: User, grants: seq<CompanyAdmin>, table: seq<User>)
    requires user.role == Some(Role.CompanyAdmin) && user.companyId.Some?
    requires user.id in RowSecurity.AdminsOf(grants, user.companyId.value)
    ensures QueryFor(Some(user), true) == Some(UsersOfCompany(user.companyId))
    ensures QueryResult(UsersOfCompany(user.companyId), RowSecurity.ActorOf(user), grants, table)
      == OfCompany(table, user.companyId.value)
  {
    if table != [] {
      var actor := RowSecurity.ActorOf(user);
      RowSecurity.AllowedMatchesRules(actor, grants, RowSecurity.SelectRow(RowSecurity.UserRow(table[0])));
      GrantedAdminGetsCompany(user, grants, table[1..]);
    }
  }

  /** A company admin without a grant for their company may read, among
      the rows of that company, only their own. */
  lemma UngrantedAdminRow(user: User, grants: seq<CompanyAdmin>, u: User)
    requires user.role == Some(Role.CompanyAdmin)
    requires user.companyId.Some? ==> user.id !in RowSecurity.AdminsOf(grants, user.companyId.value)
    requires Matches(UsersOfCompany(user.companyId), u)
    requires RowSecurity.Allowed(RowSecurity.ActorOf(user), grants, RowSecurity.SelectRow(RowSecurity.UserRow(u)))
    ensures u.id == user.id
  {
    RowSecurity.AllowedMatchesRules(RowSecurity.ActorOf(user), grants, RowSecurity.SelectRow(RowSecurity.UserRow(u)));
  }

  /** A company admin without a grant for their company gets at most their
      own row: the filter and the policies together admit nothing else. */
  lemma UngrantedAdminGetsSelfOnly(user: User, grants: seq<CompanyAdmin>, table: seq<User>)
    requires user.role == Some(Role.CompanyAdmin)
    requires user.companyId.Some? ==> user.id !in RowSecurity.AdminsOf(grants, user.companyId.value)
    ensures forall u :: u in QueryResult(UsersOfCompany(user.companyId), RowSecurity.ActorOf(user), grants, table) ==>
      (u.id == user.id && u.companyId == user.companyId)
  {
    forall u | u in QueryResult(UsersOfCompany(user.companyId), RowSecurity.ActorOf(user), grants, table)
      ensures u.id == user.id
    {
      UngrantedAdminRow(user, grants, u);
    }
  }

  /** A superadmin's unfiltered query returns the whole table. */
  lemma {:induction false} SuperadminGetsEveryone(user: User, grants: seq<CompanyAdmin>, table: seq<User>)
    requires user.role == Some(Superadmin)
    ensures QueryFor(Some(user), true) == Some(AllUsers)
    ensures QueryResult(AllUsers, RowSecurity.ActorOf(user), grants, table) == table
  {
    if table != [] {
      var actor := RowSecurity.ActorOf(user);
      RowSecurity.AllowedMatchesRules(actor, grants, RowSecurity.SelectRow(RowSecurity.UserRow(table[0])));
      SuperadminGetsEveryone(user, grants, table[1..]);
      assert table == [table[0]] + table[1..];
    }
  }

  // ---------------------------------------------------------------------
  // The table rows

  /** `value || ''` on a nullable text column. */
  function Cell(value: Option<string>): (s: string)
    ensures value.Some? ==> s == value.value
    ensures value.None? ==> s == ""
  {
    if value.Some? then value.value else ""
  }

  /** The text of the role column, `''` when it is null. */
  function RoleLabel(role: Option<Role>): string {
    match role
    case None => ""
    case Some(Superadmin) => "superadmin"
    case Some(CompanyAdmin) => "company_admin"
    case Some(Manager) => "manager"
    case Some(Employee) => "employee"
  }

  /** The role a role-column text denotes. */
  function ParseRole(text: string): Option<Role> {
    if text == "superadmin" then Some(Superadmin)
    else if text == "company_admin" then Some(Role.CompanyAdmin)
    else if text == "manager" then Some(Manager)
    else if text == "employee" then Some(Employee)
    else None
  }

  /** The role cell loses nothing: it reads back as the role. */
  lemma RoleLabelRoundTrip(role: Option<Role>)
    ensures ParseRole(RoleLabel(role)) == role
    ensures role.Some? <==> RoleLabel(role) != ""
  {
  }

  /** The translation keys of the four column headers. */
  const Headers: seq<string> := ["firstName", "lastName", "email", "role"]

  /** One table row: first name, last name, the user id in the email
      column, and the role. */
  function RowOf(u: User): (row: seq<string>)
    ensures |row| == |Headers|
    ensures row[0] == Cell(u.firstName) && row[1] == Cell(u.lastName)
    ensures row[2] == u.id && ParseRole(row[3]) == u.role
  {
    RoleLabelRoundTrip(u.role);
    [Cell(u.firstName), Cell(u.lastName), u.id, RoleLabel(u.role)]
  }

  /** `employees.map(RowOf)`. */
  function Rows(us: seq<User>): (rows: seq<seq<string>>)
    ensures |rows| == |us|
    ensures forall i :: 0 <= i < |us| ==> rows[i] == RowOf(us[i])
  {
    if us == [] then [] else [RowOf(us[0])] + Rows(us[1..])
  }

  /** Every row has one cell per header, its email cell is the user's id
      and its role cell reads back as the user's role. */
  lemma RowsAgreeWithUsers(us: seq<User>)
    ensures forall i :: 0 <= i < |us| ==>
      |Rows(us)[i]| == |Headers| && Rows(us)[i][2] == us[i].id && ParseRole(Rows(us)[i][3]) == us[i].role
  {
    forall i | 0 <= i < |us|
      ensures ParseRole(Rows(us)[i][3]) == us[i].role
    {
      RoleLabelRoundTrip(us[i].role);
    }
  }

  /** Rendering distributes over concatenation of the employee list. */
  lemma {:induction false} RowsOfConcat(a: seq<User>, b: seq<User>)
    ensures Rows(a + b) == Rows(a) + Rows(b)
  {
    if a == [] {
      assert a + b == b;
    } else {
      assert (a + b)[1..] == a[1..] + b;
      RowsOfConcat(a[1..], b);
    }
  }

  // ---------------------------------------------------------------------
  // The panel

  datatype PanelView =
    | LoadingView
    | ErrorView(message: string)
    | NoEmployees
    | EmployeeTable(headers: seq<string>, rows: seq<seq<string>>)

  class EmployeeListPanel {
    var employees: seq<User>
    var loading: bool
    var error: Option<string>

    constructor ()
      ensures employees == [] && loading && error == None
    {
      employees := [];
      loading := true;
      error := None;
    }

    /** fetchEmployees for the `user` row and a session that is present
        when `signedIn`; `answer` is what the issued query returns, with
        `Ok(None)` for a null data field. */
    method FetchEmployees(user: Option<User>, signedIn: bool, answer: Remote<Option<seq<User>>>)
      returns (issued: Option<UsersQuery>)
      modifies this
      ensures issued == QueryFor(user, signedIn)
      ensures !loading
      ensures issued.None? ==> employees == old(employees) && error == old(error)
      ensures issued.Some? && answer.Ok? ==>
        employees == (if answer.value.Some? then answer.value.value else []) && error == old(error)
      ensures issued.Some? && answer.Err? ==>
        employees == old(employees) && error == Some(answer.message)
    {
      if !signedIn || user.None? {
        loading := false;
        return None;
      }
      if user.value.role == Some(Role.CompanyAdmin) {
        issued := Some(UsersOfCompany(user.value.companyId));
      } else if user.value.role == Some(Superadmin) {
        issued := Some(AllUsers);
      } else {
        loading := false;
        return None;
      }
      match answer {
        case Err(message) =>
          error := Some(message);
        case Ok(data) =>
          employees := if data.Some? then data.value else [];
      }
      loading := false;
    }

    /** What the panel renders: loading, then the error, then the empty
        message, then the table of employees. */
    function View(): (v: PanelView)
      reads this
      ensures v == NoEmployees <==> !loading && !Truthy(error) && employees == []
      ensures v.EmployeeTable? <==> !loading && !Truthy(error) && |employees| > 0
      ensures v.EmployeeTable? ==>
        v.headers == Headers && |v.rows| == |employees|
        && forall i :: 0 <= i < |employees| ==> v.rows[i] == RowOf(employees[i])
      ensures v.ErrorView? ==> error == Some(v.message) && v.message != ""
    {
      if loading then LoadingView
      else if Truthy(error) then ErrorView(error.value)
      else if |employees| == 0 then NoEmployees
      else EmployeeTable(Headers, Rows(employees))
    }
  }
}
