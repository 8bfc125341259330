/** What the row-level security policies of create_policies.js grant and
    refuse, table by table, proved of `RowSecurity.Allowed` (the sixteen
    policies under PostgreSQL's permissive-OR, default-deny semantics). */
module PolicyProperties {
  import opened Types
  import opened RowSecurity

  // ---------------------------------------------------------------------
  // Fail-closed

  /** Under any policy set, only a policy for the request's table and command
      can admit it: a pair with no policy is denied. */
  lemma FailClosed(ps: seq<Policy>, actor: Actor, grants: seq<CompanyAdmin>, req: Request)
    ensures Decide(ps, actor, grants, req) ==> HasPolicy(ps, TableOf(req.row), CommandOf(req))
  {
    if Decide(ps, actor, grants, req) {
      if req.InsertRow? {
        var p :| p in ps && p.table == TableOf(req.row) && p.command == Insert
          && NewRowExpr(p).Some? && Holds(NewRowExpr(p).value, actor, grants, req.row);
        assert HasPolicy(ps, TableOf(req.row), CommandOf(req));
      } else {
        var p :| p in ps && p.table == TableOf(req.row) && p.command == CommandOf(req)
          && p.usingExpr.Some? && Holds(p.usingExpr.value, actor, grants, req.row);
        assert HasPolicy(ps, TableOf(req.row), CommandOf(req));
      }
    }
  }

  /** The eleven (table, command) pairs the script writes a policy for; the
      other nine are therefore denied to everyone. */
  lemma PoliciedPairs(table: Table, command: Command)
    ensures HasPolicy(Policies, table, command) <==>
      match table
      case CompaniesTable => command == Select || command == Update
      case UsersTable => command == Select || command == Update
      case CompanyAdminsTable => command == Select || command == Insert
      case DepartmentsTable => true
      case EmployeeHierarchyTable => command == Select
  {
    if HasPolicy(Policies, table, command) {
      var p :| p in Policies && p.table == table && p.command == command;
      PolicyMembers(p);
    } else {
      assert CompaniesViewableByEveryone in Policies && AdminsUpdateTheirCompany in Policies;
      assert UsersViewOwnProfile in Policies && UsersUpdateOwnProfile in Policies;
      assert AdminsViewOwnEntries in Policies && SuperadminsAddAdmins in Policies;
      assert AdminsViewDepartments in Policies && AdminsCreateDepartments in Policies;
      assert AdminsUpdateDepartments in Policies && AdminsDeleteDepartments in Policies;
      assert AdminsViewHierarchy in Policies;
    }
  }

  /** Writes the policies never mention are refused to every actor, the
      superadmin included: new users, deleting users, creating or deleting
      companies, changing or deleting admin grants, and any write to
      employee_hierarchy. */
  lemma UnpoliciedWritesDenied(actor: Actor, grants: seq<CompanyAdmin>, req: Request)
    requires
      || (req.InsertRow? && (req.row.UserRow? || req.row.CompanyRow? || req.row.HierarchyRow?))
      || (req.DeleteRow? && !req.row.DepartmentRow?)
      || (req.UpdateRow? && (req.row.CompanyAdminRow? || req.row.HierarchyRow?))
    ensures !Allowed(actor, grants, req)
  {
    PoliciedPairs(TableOf(req.row), CommandOf(req));
    FailClosed(Policies, actor, grants, req);
  }

  /** The company page issues a companies INSERT (Add Company), a companies
      DELETE (Delete) and a company_admins DELETE (removing an admin). No
      policy allows any of them, so each is refused even for a superadmin. */
  lemma CompanyPageWritesDenied(actor: Actor, grants: seq<CompanyAdmin>, c: Company, g: CompanyAdmin)
    ensures !Allowed(actor, grants, InsertRow(CompanyRow(c)))
    ensures !Allowed(actor, grants, DeleteRow(CompanyRow(c)))
    ensures !Allowed(actor, grants, DeleteRow(CompanyAdminRow(g)))
  {
    UnpoliciedWritesDenied(actor, grants, InsertRow(CompanyRow(c)));
    UnpoliciedWritesDenied(actor, grants, DeleteRow(CompanyRow(c)));
    UnpoliciedWritesDenied(actor, grants, DeleteRow(CompanyAdminRow(g)));
  }

  // ---------------------------------------------------------------------
  // companies

  lemma CompaniesReadableByAll(actor: Actor, grants: seq<CompanyAdmin>, c: Company)
    ensures Allowed(actor, grants, SelectRow(CompanyRow(c)))
  {
    AllowedMatchesRules(actor, grants, SelectRow(CompanyRow(c)));
  }

  /** Only an admin of the company may update it, and only to a row whose id
      is a company the actor also administers; being superadmin is not enough. */
  lemma CompanyUpdateByAdminsOnly(actor: Actor, grants: seq<CompanyAdmin>, c: Company, n: Company)
    ensures Allowed(actor, grants, UpdateRow(CompanyRow(c), CompanyRow(n)))
      <==> Administers(actor, grants, Some(c.id)) && Administers(actor, grants, Some(n.id))
  {
    AllowedMatchesRules(actor, grants, UpdateRow(CompanyRow(c), CompanyRow(n)));
  }

  // ---------------------------------------------------------------------
  // users

  /** A users row is visible to its owner, to an admin of its company (never
      when its company_id is null) and to a superadmin, and to no one else. */
  lemma UserVisibility(actor: Actor, grants: seq<CompanyAdmin>, u: User)
    ensures Allowed(actor, grants, SelectRow(UserRow(u)))
      <==> actor.uid == Some(u.id) || Administers(actor, grants, u.companyId) || IsSuperadmin(actor)
  {
    AllowedMatchesRules(actor, grants, SelectRow(UserRow(u)));
  }

  /** Users may update their own row and nothing else: neither a company admin
      nor a superadmin may update another user, and the id cannot change. */
  lemma UserUpdateSelfOnly(actor: Actor, grants: seq<CompanyAdmin>, u: User, n: User)
    ensures Allowed(actor, grants, UpdateRow(UserRow(u), UserRow(n)))
      <==> actor.uid == Some(u.id) && n.id == u.id
  {
    AllowedMatchesRules(actor, grants, UpdateRow(UserRow(u), UserRow(n)));
  }

  /** A user who is not superadmin and administers no company of the other
      user's sees no users row but their own. */
  lemma TenantIsolation(actor: Actor, grants: seq<CompanyAdmin>, u: User)
    requires !IsSuperadmin(actor) && actor.uid != Some(u.id)
    requires u.companyId.Some? && actor.uid.Some? ==> actor.uid.value !in AdminsOf(grants, u.companyId.value)
    ensures !Allowed(actor, grants, SelectRow(UserRow(u)))
  {
    UserVisibility(actor, grants, u);
  }

  // ---------------------------------------------------------------------
  // company_admins

  lemma GrantVisibility(actor: Actor, grants: seq<CompanyAdmin>, g: CompanyAdmin)
    ensures Allowed(actor, grants, SelectRow(CompanyAdminRow(g)))
      <==> actor.uid == Some(g.userId) || IsSuperadmin(actor)
  {
    AllowedMatchesRules(actor, grants, SelectRow(CompanyAdminRow(g)));
  }

  lemma GrantInsertBySuperadminOnly(actor: Actor, grants: seq<CompanyAdmin>, g: CompanyAdmin)
    ensures Allowed(actor, grants, InsertRow(CompanyAdminRow(g))) <==> IsSuperadmin(actor)
  {
    AllowedMatchesRules(actor, grants, InsertRow(CompanyAdminRow(g)));
  }

  // ---------------------------------------------------------------------
  // departments

  lemma DepartmentVisibility(actor: Actor, grants: seq<CompanyAdmin>, d: Department)
    ensures Allowed(actor, grants, SelectRow(DepartmentRow(d)))
      <==> Administers(actor, grants, Some(d.companyId)) || IsSuperadmin(actor)
  {
    AllowedMatchesRules(actor, grants, SelectRow(DepartmentRow(d)));
  }

  /** Creating and deleting a department needs an admin grant on its company;
      a superadmin without one is refused. */
  lemma DepartmentWritesByAdminsOnly(actor: Actor, grants: seq<CompanyAdmin>, d: Department)
    ensures Allowed(actor, grants, InsertRow(DepartmentRow(d))) <==> Administers(actor, grants, Some(d.companyId))
    ensures Allowed(actor, grants, DeleteRow(DepartmentRow(d))) <==> Administers(actor, grants, Some(d.companyId))
  {
    AllowedMatchesRules(actor, grants, InsertRow(DepartmentRow(d)));
    AllowedMatchesRules(actor, grants, DeleteRow(DepartmentRow(d)));
  }

  /** The USING-only UPDATE policy also checks the new row: a department may be
      updated only by an admin of its company, and only into a company the
      actor also administers. */
  lemma DepartmentUpdateStaysAdministered(actor: Actor, grants: seq<CompanyAdmin>, d: Department, n: Department)
    ensures Allowed(actor, grants, UpdateRow(DepartmentRow(d), DepartmentRow(n)))
      <==> Administers(actor, grants, Some(d.companyId)) && Administers(actor, grants, Some(n.companyId))
  {
    AllowedMatchesRules(actor, grants, UpdateRow(DepartmentRow(d), DepartmentRow(n)));
  }

  // ---------------------------------------------------------------------
  // employee_hierarchy

  lemma HierarchyVisibility(actor: Actor, grants: seq<CompanyAdmin>, h: EmployeeHierarchy)
    ensures Allowed(actor, grants, SelectRow(HierarchyRow(h)))
      <==> Administers(actor, grants, Some(h.companyId)) || IsSuperadmin(actor)
  {
    AllowedMatchesRules(actor, grants, SelectRow(HierarchyRow(h)));
  }

  lemma HierarchyReadOnly(actor: Actor, grants: seq<CompanyAdmin>, h: EmployeeHierarchy, n: EmployeeHierarchy)
    ensures !Allowed(actor, grants, InsertRow(HierarchyRow(h)))
    ensures !Allowed(actor, grants, UpdateRow(HierarchyRow(h), HierarchyRow(n)))
    ensures !Allowed(actor, grants, DeleteRow(HierarchyRow(h)))
  {
    UnpoliciedWritesDenied(actor, grants, InsertRow(HierarchyRow(h)));
    UnpoliciedWritesDenied(actor, grants, UpdateRow(HierarchyRow(h), HierarchyRow(n)));
    UnpoliciedWritesDenied(actor, grants, DeleteRow(HierarchyRow(h)));
  }

  // ---------------------------------------------------------------------
  // Worked scenarios

  /** u1 administers c1 only: it may update department d1 of c1 but not d2 of c2. */
  lemma AdminDepartmentScenario()
    ensures var grants := [CompanyAdmin.CompanyAdmin("a1", "u1", "c1", "t0")];
            var actor := Actor(Some("u1"), Some(Role.CompanyAdmin));
            var d1 := Department("d1", "c1", "Sales", "t0");
            var d2 := Department("d2", "c2", "Sales", "t0");
            Allowed(actor, grants, UpdateRow(DepartmentRow(d1), DepartmentRow(d1)))
            && !Allowed(actor, grants, UpdateRow(DepartmentRow(d2), DepartmentRow(d2)))
  {
    var grants := [CompanyAdmin.CompanyAdmin("a1", "u1", "c1", "t0")];
    var actor := Actor(Some("u1"), Some(Role.CompanyAdmin));
    var d1 := Department("d1", "c1", "Sales", "t0");
    var d2 := Department("d2", "c2", "Sales", "t0");
    assert "u1" in AdminsOf(grants, "c1") by { assert grants[0] in grants; }
    assert "u1" !in AdminsOf(grants, "c2");
    DepartmentUpdateStaysAdministered(actor, grants, d1, d1);
    DepartmentUpdateStaysAdministered(actor, grants, d2, d2);
  }

  /** Employee u9 of c1 sees its own users row but not colleague u10's. */
  lemma EmployeeScenario(u9: User, u10: User)
    requires u9.id == "u9" && u10.id == "u10" && u10.companyId == Some("c1")
    ensures var actor := Actor(Some("u9"), Some(Employee));
            Allowed(actor, [], SelectRow(UserRow(u9)))
            && !Allowed(actor, [], SelectRow(UserRow(u10)))
  {
    var actor := Actor(Some("u9"), Some(Employee));
    UserVisibility(actor, [], u9);
    UserVisibility(actor, [], u10);
  }
}
