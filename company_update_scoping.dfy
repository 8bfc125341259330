/** The companies UPDATE policy at create_policies.js:24 reads
      auth.uid() in (select user_id from company_admins where company_id = id)
    Inside the subquery the unqualified `id` names company_admins.id, the
    nearest table in scope that has such a column, not companies.id. As
    written, the policy therefore never looks at the company being updated:
    it admits exactly the users that hold a grant row whose own id equals
    its company_id. `LiteralPolicies` is that reading; the rest of the model
    uses the titled intent, `AdminsUpdateTheirCompany`. */
module CompanyUpdateScoping {
  import opened Types
  import opened RowSecurity
  import PolicyProperties

  lemma LiteralMembers(p: Policy)
    requires p in LiteralPolicies
    ensures p == AdminsUpdateTheirCompanyAsWritten || (p in Policies && p != AdminsUpdateTheirCompany)
  {
  }

  lemma MembersStayLiteral(p: Policy)
    requires p in Policies && p != AdminsUpdateTheirCompany
    ensures p in LiteralPolicies
  {
    PolicyMembers(p);
  }

  /** The literal set's only companies UPDATE policy is the one as written. */
  lemma LiteralCompanyUpdatePolicy(p: Policy)
    requires p in LiteralPolicies && p.table == CompaniesTable && p.command == Update
    ensures p == AdminsUpdateTheirCompanyAsWritten
  {
    LiteralMembers(p);
    if p != AdminsUpdateTheirCompanyAsWritten {
      PolicyMembers(p);
    }
  }

  /** A policy set whose only companies UPDATE policy is the one as written. */
  predicate OnlyLiteralCompanyUpdate(ps: seq<Policy>) {
    && AdminsUpdateTheirCompanyAsWritten in ps
    && forall p :: p in ps && p.table == CompaniesTable && p.command == Update ==> p == AdminsUpdateTheirCompanyAsWritten
  }

  /** Under such a set, a companies row passes the UPDATE policies' USING
      expressions exactly for the users of `SelfIdAdmins`. */
  lemma LiteralCompanyUpdateUsing(ps: seq<Policy>, actor: Actor, grants: seq<CompanyAdmin>, c: Company)
    requires OnlyLiteralCompanyUpdate(ps)
    ensures SomeUsing(ps, CompaniesTable, Update, actor, grants, CompanyRow(c))
      <==> actor.uid.Some? && actor.uid.value in SelfIdAdmins(grants)
  {
    assert Holds(AdminsUpdateTheirCompanyAsWritten.usingExpr.value, actor, grants, CompanyRow(c))
      <==> actor.uid.Some? && actor.uid.value in SelfIdAdmins(grants);
  }

  /** The same holds of the new row, which the USING-only policy also binds. */
  lemma LiteralCompanyUpdateCheck(ps: seq<Policy>, actor: Actor, grants: seq<CompanyAdmin>, c: Company)
    requires OnlyLiteralCompanyUpdate(ps)
    ensures SomeCheck(ps, CompaniesTable, Update, actor, grants, CompanyRow(c))
      <==> actor.uid.Some? && actor.uid.value in SelfIdAdmins(grants)
  {
    assert NewRowExpr(AdminsUpdateTheirCompanyAsWritten) == Some(UidAdministersOwnId);
  }

  lemma LiteralSetHasOneCompanyUpdate()
    ensures OnlyLiteralCompanyUpdate(LiteralPolicies)
  {
    forall p | p in LiteralPolicies && p.table == CompaniesTable && p.command == Update
      ensures p == AdminsUpdateTheirCompanyAsWritten
    {
      LiteralCompanyUpdatePolicy(p);
    }
  }

  /** Under a set whose only companies UPDATE policy is the one as written,
      a companies UPDATE is allowed to the same users whichever company is
      updated and whatever the new row. */
  lemma CompanyUpdateIgnoresRow(ps: seq<Policy>, actor: Actor, grants: seq<CompanyAdmin>, c: Company, n: Company)
    requires OnlyLiteralCompanyUpdate(ps)
    ensures Decide(ps, actor, grants, UpdateRow(CompanyRow(c), CompanyRow(n)))
      <==> actor.uid.Some? && actor.uid.value in SelfIdAdmins(grants)
  {
    LiteralCompanyUpdateUsing(ps, actor, grants, c);
    LiteralCompanyUpdateCheck(ps, actor, grants, n);
  }

  /** As written, a companies UPDATE is allowed to the same users whichever
      company is updated and whatever the new row. */
  lemma LiteralCompanyUpdateIgnoresRow(actor: Actor, grants: seq<CompanyAdmin>, c: Company, n: Company)
    ensures Decide(LiteralPolicies, actor, grants, UpdateRow(CompanyRow(c), CompanyRow(n)))
      <==> actor.uid.Some? && actor.uid.value in SelfIdAdmins(grants)
  {
    LiteralSetHasOneCompanyUpdate();
    CompanyUpdateIgnoresRow(LiteralPolicies, actor, grants, c, n);
  }

  /** Everywhere except companies UPDATE the two readings decide alike. */
  lemma LiteralAgreesElsewhere(actor: Actor, grants: seq<CompanyAdmin>, req: Request)
    requires !(req.UpdateRow? && req.row.CompanyRow?)
    ensures Decide(LiteralPolicies, actor, grants, req) == Allowed(actor, grants, req)
  {
    var t, cmd := TableOf(req.row), CommandOf(req);
    forall p | p in LiteralPolicies && p.table == t && p.command == cmd
      ensures p in Policies
    {
      LiteralMembers(p);
    }
    forall p | p in Policies && p.table == t && p.command == cmd
      ensures p in LiteralPolicies
    {
      PolicyMembers(p);
      MembersStayLiteral(p);
    }
    if req.UpdateRow? {
      assert SomeCheck(LiteralPolicies, t, cmd, actor, grants, req.newRow)
        == SomeCheck(Policies, t, cmd, actor, grants, req.newRow);
    }
    if req.InsertRow? {
      assert SomeCheck(LiteralPolicies, t, cmd, actor, grants, req.row)
        == SomeCheck(Policies, t, cmd, actor, grants, req.row);
    } else {
      assert SomeUsing(LiteralPolicies, t, cmd, actor, grants, req.row)
        == SomeUsing(Policies, t, cmd, actor, grants, req.row);
    }
  }

  /** As written, the admin of c1 (grant row a1) may not update c1, which the
      titled intent allows. */
  lemma LiteralReadingLocksOutAdmin()
    ensures var grants := [CompanyAdmin.CompanyAdmin("a1", "u1", "c1", "t0")];
            var actor := Actor(Some("u1"), Some(Role.CompanyAdmin));
            var c1 := Company("c1", "Acme", "t0", None);
            var req := UpdateRow(CompanyRow(c1), CompanyRow(c1));
            Allowed(actor, grants, req) && !Decide(LiteralPolicies, actor, grants, req)
  {
    var grants := [CompanyAdmin.CompanyAdmin("a1", "u1", "c1", "t0")];
    var actor := Actor(Some("u1"), Some(Role.CompanyAdmin));
    var c1 := Company("c1", "Acme", "t0", None);
    assert "u1" in AdminsOf(grants, "c1") by { assert grants[0] in grants; }
    assert SelfIdAdmins(grants) == {};
    PolicyProperties.CompanyUpdateByAdminsOnly(actor, grants, c1, c1);
    LiteralCompanyUpdateIgnoresRow(actor, grants, c1, c1);
  }

  /** As written, a grant row whose id equals its company_id lets its user
      update every company, including one it administers nowhere. */
  lemma LiteralReadingOpensEveryCompany(c: Company)
    requires c.id != "x"
    ensures var grants := [CompanyAdmin.CompanyAdmin("x", "u2", "x", "t0")];
            var actor := Actor(Some("u2"), Some(Employee));
            var req := UpdateRow(CompanyRow(c), CompanyRow(c));
            Decide(LiteralPolicies, actor, grants, req) && !Allowed(actor, grants, req)
  {
    var grants := [CompanyAdmin.CompanyAdmin("x", "u2", "x", "t0")];
    var actor := Actor(Some("u2"), Some(Employee));
    assert "u2" in SelfIdAdmins(grants) by { assert grants[0] in grants; }
    assert AdminsOf(grants, c.id) == {};
    PolicyProperties.CompanyUpdateByAdminsOnly(actor, grants, c, c);
    LiteralCompanyUpdateIgnoresRow(actor, grants, c, c);
  }
}
