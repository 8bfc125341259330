/** The superadmin's company page (src/pages/CompanyList.tsx): the list of
    companies, the map from company id to the ids of its admins, and the
    handlers that add and delete companies and toggle an admin. Each handler
    is one atomic step; the answer of each backend call is a parameter. */
module CompanyList {
  import opened Types
  import RowSecurity

  // ---------------------------------------------------------------------
  // The admin list of one company

  /** Array.prototype.indexOf: the first index of `x` in `s`, or -1. */
  function IndexOf(s: seq<string>, x: string): (i: int)
    ensures -1 <= i < |s|
    ensures i == -1 <==> x !in s
    ensures 0 <= i ==> s[i] == x && x !in s[..i]
  {
    if s == [] then -1
    else if s[0] == x then 0
    else
      var j := IndexOf(s[1..], x);
      if j == -1 then -1 else j + 1
  }

  /** `selectedCompanyAdmins[companyId] || []`: a missing entry is an empty list. */
  function AdminsFor(admins: map<string, seq<string>>, companyId: string): (list: seq<string>)
    ensures companyId in admins ==> list == admins[companyId]
    ensures companyId !in admins ==> list == []
  {
    if companyId in admins then admins[companyId] else []
  }

  /** The list handleAdminChange stores: `user` spliced out at its first
      index when present, pushed at the end otherwise. */
  function Toggled(admins: seq<string>, user: string): (toggled: seq<string>)
    ensures user in admins ==> |toggled| == |admins| - 1
    ensures user !in admins ==> toggled == admins + [user]
  {
    var i := IndexOf(admins, user);
    if i > -1 then admins[..i] + admins[i + 1..] else admins + [user]
  }

  /** Removal of the first occurrence, stated element by element. */
  function RemoveFirst(s: seq<string>, x: string): seq<string> {
    if s == [] then []
    else if s[0] == x then s[1..]
    else [s[0]] + RemoveFirst(s[1..], x)
  }

  predicate NoDuplicates(s: seq<string>) {
    forall i, j :: 0 <= i < j < |s| ==> s[i] != s[j]
  }

  /** Removing the first occurrence element by element is cutting the list
      at the index indexOf finds. */
  lemma {:induction false} RemoveFirstAtIndex(s: seq<string>, x: string)
    requires x in s
    ensures RemoveFirst(s, x) == s[..IndexOf(s, x)] + s[IndexOf(s, x) + 1..]
  {
    if s[0] != x {
      var rest := s[1..];
      RemoveFirstAtIndex(rest, x);
      var j := IndexOf(rest, x);
      assert IndexOf(s, x) == j + 1;
      assert s[..j + 1] == [s[0]] + rest[..j];
      assert s[j + 2..] == rest[j + 1..];
    }
  }

  /** On a present user, toggling removes exactly its first occurrence and
      keeps the others in order. */
  lemma ToggleRemovesFirst(admins: seq<string>, user: string)
    requires user in admins
    ensures Toggled(admins, user) == RemoveFirst(admins, user)
  {
    RemoveFirstAtIndex(admins, user);
  }

  /** Toggling a present user takes one copy of it out of the list's multiset. */
  lemma ToggleRemovesOneCopy(admins: seq<string>, user: string)
    requires user in admins
    ensures multiset(Toggled(admins, user)) == multiset(admins) - multiset{user}
  {
    var i := IndexOf(admins, user);
    assert admins == admins[..i] + [user] + admins[i + 1..];
    assert multiset(admins) == multiset(admins[..i]) + multiset{user} + multiset(admins[i + 1..]);
  }

  /** On an absent user, toggling appends it, and toggling again restores the list. */
  lemma ToggleTwiceRestores(admins: seq<string>, user: string)
    requires user !in admins
    ensures Toggled(admins, user) == admins + [user]
    ensures Toggled(Toggled(admins, user), user) == admins
  {
    var s := admins + [user];
    assert IndexOf(s, user) == |admins| by {
      assert s[..|admins|] == admins;
    }
    assert s[..|admins|] == admins;
  }

  /** Removing the element at `i` from a list without duplicates drops
      exactly that element. */
  lemma RemoveAtFacts(s: seq<string>, i: int)
    requires NoDuplicates(s) && 0 <= i < |s|
    ensures s[i] !in s[..i] + s[i + 1..]
    ensures forall v :: v != s[i] ==> (v in s[..i] + s[i + 1..] <==> v in s)
    ensures NoDuplicates(s[..i] + s[i + 1..])
  {
    var t := s[..i] + s[i + 1..];
    assert forall k :: 0 <= k < |t| ==> t[k] == s[if k < i then k else k + 1];
    assert s == s[..i] + [s[i]] + s[i + 1..];
  }

  /** On a list without duplicates, toggling flips the user's membership,
      leaves every other user's membership alone and keeps the list free of
      duplicates. */
  lemma ToggleFlipsMembership(admins: seq<string>, user: string)
    requires NoDuplicates(admins)
    ensures user in Toggled(admins, user) <==> user !in admins
    ensures forall v :: v != user ==> (v in Toggled(admins, user) <==> v in admins)
    ensures NoDuplicates(Toggled(admins, user))
  {
    var i := IndexOf(admins, user);
    if i > -1 {
      RemoveAtFacts(admins, i);
    } else {
      var t := admins + [user];
      assert forall k :: 0 <= k < |admins| ==> t[k] == admins[k];
    }
  }

  // ---------------------------------------------------------------------
  // The company list

  /** `companies.filter(company => company.id !== id)`. */
  function WithoutCompany(cs: seq<Company>, id: string): (r: seq<Company>)
    ensures forall c :: c in r <==> c in cs && c.id != id
    ensures |r| <= |cs|
  {
    if cs == [] then []
    else (if cs[0].id != id then [cs[0]] else []) + WithoutCompany(cs[1..], id)
  }

  /** Filtering keeps the survivors in their order: it distributes over
      concatenation. */
  lemma {:induction false} WithoutCompanyKeepsOrder(a: seq<Company>, b: seq<Company>, id: string)
    ensures WithoutCompany(a + b, id) == WithoutCompany(a, id) + WithoutCompany(b, id)
  {
    if a == [] {
      assert a + b == b;
    } else {
      assert (a + b)[1..] == a[1..] + b;
      WithoutCompanyKeepsOrder(a[1..], b, id);
    }
  }

  /** A list with no company of that id is left as it is. */
  lemma {:induction false} WithoutAbsentCompany(cs: seq<Company>, id: string)
    requires forall c :: c in cs ==> c.id != id
    ensures WithoutCompany(cs, id) == cs
  {
    if cs != [] {
      assert cs[0] in cs;
      WithoutAbsentCompany(cs[1..], id);
      assert cs == [cs[0]] + cs[1..];
    }
  }

  /** Deleting twice is the same as deleting once. */
  lemma WithoutCompanyIdempotent(cs: seq<Company>, id: string)
    ensures WithoutCompany(WithoutCompany(cs, id), id) == WithoutCompany(cs, id)
  {
    WithoutAbsentCompany(WithoutCompany(cs, id), id);
  }

  // ---------------------------------------------------------------------
  // The admin map loaded with the page

  /** `admins.map(admin => admin.user_id)` for the company_admins rows of
      `companyId`, in the order the rows come back. */
  function UserIdsOf(grants: seq<CompanyAdmin>, companyId: string): (ids: seq<string>)
    ensures |ids| <= |grants|
    ensures forall u :: u in ids <==> exists g :: g in grants && g.companyId == companyId && g.userId == u
  {
    if grants == [] then []
    else
      (if grants[0].companyId == companyId then [grants[0].userId] else [])
      + UserIdsOf(grants[1..], companyId)
  }

  /** The ids the page lists for a company are exactly the admins the
      policies recognise for it. */
  lemma UserIdsAreAdmins(grants: seq<CompanyAdmin>, companyId: string)
    ensures forall u :: u in UserIdsOf(grants, companyId) <==> u in RowSecurity.AdminsOf(grants, companyId)
  {
    forall u | u in RowSecurity.AdminsOf(grants, companyId)
      ensures u in UserIdsOf(grants, companyId)
    {
      var g :| g in grants && g.companyId == companyId && g.userId == u;
    }
  }

  /** The ids of the companies whose admin lookup succeeded; `failed` holds
      the indexes of the lookups that returned an error. */
  function LookedUp(cs: seq<Company>, failed: set<int>): set<string> {
    set i | 0 <= i < |cs| && i !in failed :: cs[i].id
  }

  /** The map fetchCompanies builds: an entry for each company whose lookup
      succeeded, holding the user ids of its company_admins rows. */
  function InitialAdmins(cs: seq<Company>, failed: set<int>, grants: seq<CompanyAdmin>): (m: map<string, seq<string>>)
    ensures forall i :: 0 <= i < |cs| && i !in failed ==> cs[i].id in m && m[cs[i].id] == UserIdsOf(grants, cs[i].id)
    ensures forall id :: id in m ==> exists i :: 0 <= i < |cs| && i !in failed && cs[i].id == id
  {
    map id | id in LookedUp(cs, failed) :: UserIdsOf(grants, id)
  }

  lemma InitialAdminsStep(cs: seq<Company>, failed: set<int>, grants: seq<CompanyAdmin>, i: int)
    requires 0 <= i < |cs|
    ensures InitialAdmins(cs[..i + 1], failed, grants)
      == if i in failed then InitialAdmins(cs[..i], failed, grants)
         else InitialAdmins(cs[..i], failed, grants)[cs[i].id := UserIdsOf(grants, cs[i].id)]
  {
    var before, after := cs[..i], cs[..i + 1];
    assert forall k :: 0 <= k < i ==> after[k] == before[k];
    if i in failed {
      assert LookedUp(after, failed) == LookedUp(before, failed);
    } else {
      assert LookedUp(after, failed) == LookedUp(before, failed) + {cs[i].id} by {
        assert after[i] == cs[i];
      }
    }
  }

  /** A company all of whose lookups failed gets no entry; one whose lookup
      succeeded maps to the user ids of its grant rows. */
  lemma InitialAdminsEntries(cs: seq<Company>, failed: set<int>, grants: seq<CompanyAdmin>, id: string)
    ensures (forall i :: 0 <= i < |cs| && cs[i].id == id ==> i in failed) ==> id !in InitialAdmins(cs, failed, grants)
    ensures (exists i :: 0 <= i < |cs| && cs[i].id == id && i !in failed) ==>
      id in InitialAdmins(cs, failed, grants) && InitialAdmins(cs, failed, grants)[id] == UserIdsOf(grants, id)
  {
  }

  // ---------------------------------------------------------------------
  // The page

  /** The page shows its content only to a signed-in superadmin. */
  predicate MaySeePage(user: Option<User>)
    ensures MaySeePage(user) <==> user.Some? && RowSecurity.IsSuperadmin(RowSecurity.ActorOf(user.value))
  {
    user.Some? && user.value.role == Some(Superadmin)
  }

  datatype PageView =
    | PermissionDenied
    | LoadingView
    | ErrorView(message: string)
    | CompaniesView(companies: seq<Company>, admins: map<string, seq<string>>)

  /** The backend call handleAdminChange issues. */
  datatype AdminCall = RemoveAdmin(companyId: string, userId: string) | AddAdmin(companyId: string, userId: string)

  /** The row handleAddCompany inserts. */
  datatype NewCompany = NewCompany(name: string, accessTime: string)

  class CompanyListPage {
    const user: Option<User>
    var companies: seq<Company>
    var loading: bool
    var error: Option<string>
    var newCompanyName: string
    var newCompanyAccessTime: string
    var addingCompany: bool
    var users: seq<User>
    var selectedCompanyAdmins: map<string, seq<string>>

    constructor (user: Option<User>)
      ensures this.user == user
      ensures companies == [] && loading && error == None
      ensures newCompanyName == "" && newCompanyAccessTime == "" && !addingCompany
      ensures users == [] && selectedCompanyAdmins == map[]
    {
      this.user := user;
      companies := [];
      loading := true;
      error := None;
      newCompanyName := "";
      newCompanyAccessTime := "";
      addingCompany := false;
      users := [];
      selectedCompanyAdmins := map[];
    }

    /** fetchCompanies: load the companies, then each company's admins (the
        lookups whose index is in `failedLookups` return an error), then the
        users. */
    method FetchCompanies(companiesAnswer: Remote<seq<Company>>, failedLookups: set<int>,
                          grants: seq<CompanyAdmin>, usersAnswer: Remote<seq<User>>)
      modifies this
      ensures !loading
      ensures companies == if companiesAnswer.Ok? then companiesAnswer.value else old(companies)
      ensures selectedCompanyAdmins ==
        if companiesAnswer.Ok? then InitialAdmins(companiesAnswer.value, failedLookups, grants)
        else old(selectedCompanyAdmins)
      ensures users == if usersAnswer.Ok? then usersAnswer.value else old(users)
      ensures error ==
        if usersAnswer.Err? then Some(usersAnswer.message)
        else if companiesAnswer.Err? then Some(companiesAnswer.message)
        else None
      ensures newCompanyName == old(newCompanyName) && newCompanyAccessTime == old(newCompanyAccessTime)
      ensures addingCompany == old(addingCompany)
    {
      loading := true;
      error := None;
      match companiesAnswer {
        case Err(message) =>
          error := Some(message);
        case Ok(data) =>
          companies := data;
          var initialAdmins: map<string, seq<string>> := map[];
          for i := 0 to |data|
            invariant initialAdmins == InitialAdmins(data[..i], failedLookups, grants)
            invariant companies == data && error == None && users == old(users)
            invariant newCompanyName == old(newCompanyName) && newCompanyAccessTime == old(newCompanyAccessTime)
            invariant addingCompany == old(addingCompany)
          {
            InitialAdminsStep(data, failedLookups, grants, i);
            if i !in failedLookups {
              initialAdmins := initialAdmins[data[i].id := UserIdsOf(grants, data[i].id)];
            }
          }
          assert data[..|data|] == data;
          selectedCompanyAdmins := initialAdmins;
      }
      match usersAnswer {
        case Err(message) =>
          error := Some(message);
        case Ok(userData) =>
          users := userData;
      }
      loading := false;
    }

    /** onChange of the "New Company Name" field. */
    method SetNewCompanyName(value: string)
      modifies this
      ensures newCompanyName == value
      ensures newCompanyAccessTime == old(newCompanyAccessTime) && companies == old(companies)
      ensures selectedCompanyAdmins == old(selectedCompanyAdmins) && error == old(error)
      ensures users == old(users) && loading == old(loading) && addingCompany == old(addingCompany)
    {
      newCompanyName := value;
    }

    /** onChange of the "Access Time" field. */
    method SetNewCompanyAccessTime(value: string)
      modifies this
      ensures newCompanyAccessTime == value
      ensures newCompanyName == old(newCompanyName) && companies == old(companies)
      ensures selectedCompanyAdmins == old(selectedCompanyAdmins) && error == old(error)
      ensures users == old(users) && loading == old(loading) && addingCompany == old(addingCompany)
    {
      newCompanyAccessTime := value;
    }

    /** handleAddCompany: insert the typed name and access time; `answer` is
        the inserted row or the error. */
    method HandleAddCompany(answer: Remote<Company>) returns (sent: NewCompany)
      modifies this
      ensures sent == NewCompany(old(newCompanyName), old(newCompanyAccessTime))
      ensures !addingCompany
      ensures answer.Ok? ==>
        companies == old(companies) + [answer.value]
        && newCompanyName == "" && newCompanyAccessTime == "" && error == None
      ensures answer.Err? ==>
        companies == old(companies) && error == Some(answer.message)
        && newCompanyName == old(newCompanyName) && newCompanyAccessTime == old(newCompanyAccessTime)
      ensures selectedCompanyAdmins == old(selectedCompanyAdmins) && users == old(users)
      ensures loading == old(loading)
    {
      addingCompany := true;
      error := None;
      sent := NewCompany(newCompanyName, newCompanyAccessTime);
      match answer {
        case Err(message) =>
          error := Some(message);
        case Ok(created) =>
          companies := companies + [created];
          newCompanyName := "";
          newCompanyAccessTime := "";
      }
      addingCompany := false;
    }

    /** handleDeleteCompany: delete the companies row with `companyId`. */
    method HandleDeleteCompany(companyId: string, answer: Remote<()>)
      modifies this
      ensures answer.Ok? ==> companies == WithoutCompany(old(companies), companyId) && error == None
      ensures answer.Err? ==> companies == old(companies) && error == Some(answer.message)
      ensures selectedCompanyAdmins == old(selectedCompanyAdmins) && users == old(users)
      ensures newCompanyName == old(newCompanyName) && newCompanyAccessTime == old(newCompanyAccessTime)
      ensures loading == old(loading) && addingCompany == old(addingCompany)
    {
      error := None;
      match answer
      case Err(message) =>
        error := Some(message);
      case Ok(_) =>
        companies := WithoutCompany(companies, companyId);
    }

    /** handleAdminChange: make `userId` an admin of `companyId` if it is not
        listed, or remove it if it is; the list changes only when the
        backend call succeeds. */
    method HandleAdminChange(companyId: string, userId: string, answer: Remote<()>) returns (call: AdminCall)
      modifies this
      ensures call ==
        if userId in AdminsFor(old(selectedCompanyAdmins), companyId) then RemoveAdmin(companyId, userId)
        else AddAdmin(companyId, userId)
      ensures answer.Ok? ==>
        selectedCompanyAdmins ==
          old(selectedCompanyAdmins)[companyId := Toggled(AdminsFor(old(selectedCompanyAdmins), companyId), userId)]
        && error == old(error)
      ensures answer.Err? ==>
        selectedCompanyAdmins == old(selectedCompanyAdmins) && error == Some(answer.message)
      ensures companies == old(companies) && users == old(users) && loading == old(loading)
      ensures newCompanyName == old(newCompanyName) && newCompanyAccessTime == old(newCompanyAccessTime)
      ensures addingCompany == old(addingCompany)
    {
      var updatedAdmins := AdminsFor(selectedCompanyAdmins, companyId);
      var adminIndex := IndexOf(updatedAdmins, userId);
      if adminIndex > -1 {
        updatedAdmins := updatedAdmins[..adminIndex] + updatedAdmins[adminIndex + 1..];
        call := RemoveAdmin(companyId, userId);
      } else {
        updatedAdmins := updatedAdmins + [userId];
        call := AddAdmin(companyId, userId);
      }
      if answer.Err? {
        error := Some(answer.message);
        return;
      }
      selectedCompanyAdmins := selectedCompanyAdmins[companyId := updatedAdmins];
    }

    /** What the page renders: the permission message unless the user is a
        superadmin, then the loading and error states, then the companies. */
    function View(): (v: PageView)
      reads this
      ensures v == PermissionDenied <==> !MaySeePage(user)
      ensures v.CompaniesView? <==> MaySeePage(user) && !loading && !Truthy(error)
      ensures v.CompaniesView? ==> v.companies == companies && v.admins == selectedCompanyAdmins
      ensures v.ErrorView? ==> error == Some(v.message) && v.message != ""
    {
      if !MaySeePage(user) then PermissionDenied
      else if loading then LoadingView
      else if Truthy(error) then ErrorView(error.value)
      else CompaniesView(companies, selectedCompanyAdmins)
    }
  }

  /** Only the admin map entry of the toggled company changes. */
  lemma ToggleTouchesOneEntry(admins: map<string, seq<string>>, companyId: string, userId: string, other: string)
    requires other != companyId
    ensures AdminsFor(admins[companyId := Toggled(AdminsFor(admins, companyId), userId)], other) == AdminsFor(admins, other)
    ensures companyId !in admins ==> Toggled(AdminsFor(admins, companyId), userId) == [userId]
  {
  }

  /** The gate's user is one the policies let read every company, every
      users row and every company_admins row the page loads. */
  lemma PageReadsAllowed(user: Option<User>, grants: seq<CompanyAdmin>, c: Company, u: User, g: CompanyAdmin)
    requires MaySeePage(user)
    ensures var actor := RowSecurity.ActorOf(user.value);
      RowSecurity.Allowed(actor, grants, RowSecurity.SelectRow(RowSecurity.CompanyRow(c)))
      && RowSecurity.Allowed(actor, grants, RowSecurity.SelectRow(RowSecurity.UserRow(u)))
      && RowSecurity.Allowed(actor, grants, RowSecurity.SelectRow(RowSecurity.CompanyAdminRow(g)))
  {
    var actor := RowSecurity.ActorOf(user.value);
    RowSecurity.AllowedMatchesRules(actor, grants, RowSecurity.SelectRow(RowSecurity.CompanyRow(c)));
    RowSecurity.AllowedMatchesRules(actor, grants, RowSecurity.SelectRow(RowSecurity.UserRow(u)));
    RowSecurity.AllowedMatchesRules(actor, grants, RowSecurity.SelectRow(RowSecurity.CompanyAdminRow(g)));
  }

  // ---------------------------------------------------------------------
  // What the deletes do to the tables

  /** The companies rows left by `delete().eq('id', companyId)`: a row the
      DELETE policies do not admit is invisible to the statement and stays,
      and the statement reports no error for it. */
  function CompaniesAfterDelete(actor: RowSecurity.Actor, grants: seq<CompanyAdmin>,
                                table: seq<Company>, companyId: string): (r: seq<Company>)
    ensures forall c :: c in r <==>
      (c in table && !(c.id == companyId && RowSecurity.Allowed(actor, grants, RowSecurity.DeleteRow(RowSecurity.CompanyRow(c)))))
  {
    if table == [] then []
    else
      var c := table[0];
      (if c.id == companyId && RowSecurity.Allowed(actor, grants, RowSecurity.DeleteRow(RowSecurity.CompanyRow(c)))
       then [] else [c])
      + CompaniesAfterDelete(actor, grants, table[1..], companyId)
  }

  /** No policy admits a DELETE of a companies row. */
  lemma CompanyDeleteDenied(actor: RowSecurity.Actor, grants: seq<CompanyAdmin>, c: Company)
    ensures !RowSecurity.Allowed(actor, grants, RowSecurity.DeleteRow(RowSecurity.CompanyRow(c)))
  {
    RowSecurity.AllowedMatchesRules(actor, grants, RowSecurity.DeleteRow(RowSecurity.CompanyRow(c)));
  }

  /** handleDeleteCompany's delete leaves the companies table as it was. */
  lemma {:induction false} DeletedCompanyStays(actor: RowSecurity.Actor, grants: seq<CompanyAdmin>,
                                              table: seq<Company>, companyId: string)
    ensures CompaniesAfterDelete(actor, grants, table, companyId) == table
  {
    if table != [] {
      CompanyDeleteDenied(actor, grants, table[0]);
      DeletedCompanyStays(actor, grants, table[1..], companyId);
      assert CompaniesAfterDelete(actor, grants, table, companyId)
        == [table[0]] + CompaniesAfterDelete(actor, grants, table[1..], companyId);
      assert table == [table[0]] + table[1..];
    }
  }

  /** After a delete that reported no error the page drops the company from
      its list, yet the table still holds it. */
  lemma PageForgetsStoredCompany(actor: RowSecurity.Actor, grants: seq<CompanyAdmin>,
                                 table: seq<Company>, c: Company)
    requires c in table
    ensures c !in WithoutCompany(table, c.id)
    ensures c in CompaniesAfterDelete(actor, grants, table, c.id)
  {
    DeletedCompanyStays(actor, grants, table, c.id);
  }

  /** The company_admins rows left by
      `delete().eq('company_id', companyId).eq('user_id', userId)`. */
  function GrantsAfterDelete(actor: RowSecurity.Actor, grants: seq<CompanyAdmin>,
                             table: seq<CompanyAdmin>, companyId: string, userId: string): (r: seq<CompanyAdmin>)
    ensures forall g :: g in r <==>
      (g in table && !(g.companyId == companyId && g.userId == userId
                       && RowSecurity.Allowed(actor, grants, RowSecurity.DeleteRow(RowSecurity.CompanyAdminRow(g)))))
  {
    if table == [] then []
    else
      var g := table[0];
      (if g.companyId == companyId && g.userId == userId
          && RowSecurity.Allowed(actor, grants, RowSecurity.DeleteRow(RowSecurity.CompanyAdminRow(g)))
       then [] else [g])
      + GrantsAfterDelete(actor, grants, table[1..], companyId, userId)
  }

  /** No policy admits a DELETE of a company_admins row. */
  lemma GrantDeleteDenied(actor: RowSecurity.Actor, grants: seq<CompanyAdmin>, g: CompanyAdmin)
    ensures !RowSecurity.Allowed(actor, grants, RowSecurity.DeleteRow(RowSecurity.CompanyAdminRow(g)))
  {
    RowSecurity.AllowedMatchesRules(actor, grants, RowSecurity.DeleteRow(RowSecurity.CompanyAdminRow(g)));
  }

  /** handleAdminChange's delete leaves the company_admins table as it was. */
  lemma {:induction false} RemovedGrantStays(actor: RowSecurity.Actor, grants: seq<CompanyAdmin>,
                                            table: seq<CompanyAdmin>, companyId: string, userId: string)
    ensures GrantsAfterDelete(actor, grants, table, companyId, userId) == table
  {
    if table != [] {
      GrantDeleteDenied(actor, grants, table[0]);
      RemovedGrantStays(actor, grants, table[1..], companyId, userId);
      assert GrantsAfterDelete(actor, grants, table, companyId, userId)
        == [table[0]] + GrantsAfterDelete(actor, grants, table[1..], companyId, userId);
      assert table == [table[0]] + table[1..];
    }
  }

  /** After removing a listed admin without an error, the page no longer
      lists the user, yet the policies still treat them as the company's
      admin. */
  lemma PageForgetsStoredAdmin(actor: RowSecurity.Actor, table: seq<CompanyAdmin>, companyId: string, userId: string)
    requires NoDuplicates(UserIdsOf(table, companyId)) && userId in UserIdsOf(table, companyId)
    ensures userId !in Toggled(UserIdsOf(table, companyId), userId)
    ensures userId in RowSecurity.AdminsOf(GrantsAfterDelete(actor, table, table, companyId, userId), companyId)
  {
    ToggleFlipsMembership(UserIdsOf(table, companyId), userId);
    RemovedGrantStays(actor, table, table, companyId, userId);
    UserIdsAreAdmins(table, companyId);
  }
}
