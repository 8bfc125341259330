# HR core: tenant authorization, company admin bookkeeping, employee listing

This project is a Dafny model of the parts of the HR application that are
logic rather than markup:

- **Row-level security** (`policies.dfy`, `policy_properties.dfy`,
  `company_update_scoping.dfy`). These files model the sixteen policies that
  `create_policies.js` installs on companies, users, company_admins,
  departments and employee_hierarchy.
  - They are combined as PostgreSQL combines permissive policies. Section 5.8,
    "Row Security Policies", of the PostgreSQL 16 manual describes the rules:
    - only policies for the table and command apply, and they are OR'd;
    - a pair with no policy is denied;
    - SELECT and DELETE test USING on the existing row;
    - INSERT tests WITH CHECK on the new row;
    - UPDATE tests USING on the old row and WITH CHECK on the new row, or
      USING again when the policy has no WITH CHECK.
  - `RowSecurity.Allowed` is that decision. `RowSecurity.Rules` states the
    same authorization table by table. `RowSecurity.AllowedMatchesRules`
    proves the two equal, and the per-table properties follow from it.
  - `is_superadmin()` is the actor's own role being superadmin.
  - `auth.uid()` is optional: an anonymous request compares as SQL NULL and
    matches nothing.
- **The superadmin company page** (`company_list.dfy`). The page is a class
  whose fields are the component's state.
  - Its methods are the handlers: `fetchCompanies` (including the loop that
    builds the admin map), `handleAddCompany`, `handleDeleteCompany`,
    `handleAdminChange` and the two input fields.
  - `View` is the superadmin gate.
  - Each backend answer is a parameter (`Remote`: `Ok` or `Err`).
  - The model also states what the backend does to the tables for the page's
    deletes. No policy admits a DELETE on companies or on company_admins.
    PostgreSQL skips rows it may not delete and reports no error. So after
    "Delete" or after removing an admin, the page drops the entry from its
    list, but the row is still in the table (`PageForgetsStoredCompany`,
    `PageForgetsStoredAdmin`). Like every default-deny result here, this
    holds when row security is enabled on the table (see "## Left out").
- **The employee list panel** (`employee_list.dfy`).
  - It covers which query `fetchEmployees` issues for each role and what the
    panel keeps of the answer.
  - It covers what the query returns: the users rows the policies let the
    actor read, narrowed by the query's filter.
  - It covers the four-cell row each employee becomes in the table.
- **Records** (`types.dfy`): Company, User, CompanyAdmin, Department and
  EmployeeHierarchy, with nullable columns as `Option`.

## Model

| member | source | states |
|---|---|---|
| RowSecurity.PolicyMembers | create_policies.js:19-99 | the policy set `Policies` is exactly the sixteen policies the script creates, one constant per CREATE POLICY statement |
| RowSecurity.Holds | create_policies.js:19-99 | a policy expression (`true`, `auth.uid() = column`, the company_admins subquery, `is_superadmin()`) evaluated on a row; for an anonymous actor only `true` and `is_superadmin()` can hold |
| RowSecurity.Decide | create_policies.js:18-101 | PostgreSQL's decision over a policy set (`Allowed` is it over the sixteen policies); it admits only an UPDATE that keeps the row in its table, and FailClosed and AllowedMatchesRules state what it decides |
| RowSecurity.AllowedMatchesRules | create_policies.js:18-101 | the sixteen policies, OR'd per table and command with default-deny, decide exactly what the table-by-table rules allow, for every actor, grant table and request |
| RowSecurity.SomeUsingIsRule | create_policies.js:19-99 | for SELECT, UPDATE and DELETE, the OR of the applicable USING expressions on a row equals the table's rule for that command |
| RowSecurity.SomeCheckIsRule | create_policies.js:62-83 | the OR of the applicable new-row expressions (WITH CHECK, else USING) equals the table's rule, so the USING-only UPDATE policies also bind the new row |
| PolicyProperties.FailClosed | create_policies.js:18-101 | under any policy set, a request is allowed only if some policy exists for its table and command |
| PolicyProperties.PoliciedPairs | create_policies.js:18-101 | the script writes policies for exactly eleven (table, command) pairs, listed table by table |
| PolicyProperties.UnpoliciedWritesDenied | create_policies.js:18-101 | inserting users, companies or hierarchy rows, deleting anything but a department, and updating grants or hierarchy rows are refused to every actor, the superadmin included |
| PolicyProperties.CompanyPageWritesDenied | src/pages/CompanyList.tsx:68-71 | the company page's companies INSERT, companies DELETE and company_admins DELETE are refused to every actor |
| PolicyProperties.CompaniesReadableByAll | create_policies.js:19 | every actor, anonymous included, may read every companies row |
| PolicyProperties.CompanyUpdateByAdminsOnly | create_policies.js:24 | a companies UPDATE is allowed iff the actor administers both the old row's and the new row's company; a superadmin has no such right |
| PolicyProperties.UserVisibility | create_policies.js:31-46 | a users row is readable iff it is the actor's own, or the actor administers its non-null company, or the actor is superadmin |
| PolicyProperties.UserUpdateSelfOnly | create_policies.js:36 | a users UPDATE is allowed iff the row is the actor's own and the new row keeps its id |
| PolicyProperties.TenantIsolation | create_policies.js:31-46 | a non-superadmin, signed in or anonymous, who is not the user and administers none of the user's company cannot read that user's row |
| PolicyProperties.GrantVisibility | create_policies.js:52-57 | a company_admins row is readable iff it names the actor or the actor is superadmin |
| PolicyProperties.GrantInsertBySuperadminOnly | create_policies.js:62 | a company_admins INSERT is allowed iff the actor is superadmin |
| PolicyProperties.DepartmentVisibility | create_policies.js:68-73 | a departments row is readable iff the actor administers its company or is superadmin |
| PolicyProperties.DepartmentWritesByAdminsOnly | create_policies.js:78-88 | creating and deleting a department is allowed iff the actor administers its company; superadmin alone is not enough |
| PolicyProperties.DepartmentUpdateStaysAdministered | create_policies.js:83 | a department UPDATE is allowed iff the actor administers both its old and its new company |
| PolicyProperties.HierarchyVisibility | create_policies.js:94-99 | an employee_hierarchy row is readable iff the actor administers its company or is superadmin |
| PolicyProperties.HierarchyReadOnly | create_policies.js:94-99 | no actor may insert, update or delete an employee_hierarchy row |
| PolicyProperties.AdminDepartmentScenario | create_policies.js:83 | the admin of c1 may update a department of c1 and not one of c2 |
| PolicyProperties.EmployeeScenario | create_policies.js:31-41 | an employee reads their own users row and not a colleague's |
| CompanyUpdateScoping.CompanyUpdateIgnoresRow | create_policies.js:24 | under any policy set whose only companies UPDATE policy is the literal one, the update is allowed iff the actor holds a grant whose id equals its company_id |
| CompanyUpdateScoping.LiteralCompanyUpdateIgnoresRow | create_policies.js:24 | as SQL scopes the text, a companies UPDATE is allowed iff the actor holds a grant whose id equals its company_id, whatever company is updated |
| CompanyUpdateScoping.LiteralAgreesElsewhere | create_policies.js:18-101 | the literal and the titled readings decide every request other than a companies UPDATE alike |
| CompanyUpdateScoping.LiteralReadingLocksOutAdmin | create_policies.js:24 | as written, the admin of c1 may not update c1, which the titled policy allows |
| CompanyUpdateScoping.LiteralReadingOpensEveryCompany | create_policies.js:24 | as written, a grant row whose id equals its company_id lets its user update any company |
| CompanyList.IndexOf | src/pages/CompanyList.tsx:103 | the result is -1 iff the user is absent, else the first index holding the user |
| CompanyList.AdminsFor | src/pages/CompanyList.tsx:102 | the stored list of the company, or the empty list when the map has no entry for it |
| CompanyList.Toggled | src/pages/CompanyList.tsx:102-107 | a listed user leaves a list one shorter; an unlisted user is appended at the end |
| CompanyList.RemoveFirstAtIndex | src/pages/CompanyList.tsx:103-107 | removing the first occurrence element by element equals cutting the list at the index indexOf finds |
| CompanyList.ToggleRemovesFirst | src/pages/CompanyList.tsx:102-107 | toggling a listed user removes exactly its first occurrence and keeps the rest in order, as an element-wise removal defines it |
| CompanyList.ToggleRemovesOneCopy | src/pages/CompanyList.tsx:102-107 | toggling a listed user leaves the list's multiset minus one copy of the user |
| CompanyList.ToggleTwiceRestores | src/pages/CompanyList.tsx:120-122 | toggling an absent user appends it at the end, and toggling again restores the list |
| CompanyList.ToggleFlipsMembership | src/pages/CompanyList.tsx:101-133 | on a duplicate-free list, a toggle flips the user's membership, leaves all other users' membership alone and keeps the list duplicate-free |
| CompanyList.ToggleTouchesOneEntry | src/pages/CompanyList.tsx:102-133 | storing the toggled list changes no other company's entry, and a missing entry toggles to a one-element list |
| CompanyList.WithoutCompany | src/pages/CompanyList.tsx:94 | the filtered list holds exactly the companies whose id differs, and is no longer |
| CompanyList.WithoutCompanyKeepsOrder | src/pages/CompanyList.tsx:94 | filtering distributes over concatenation, so survivors keep their order |
| CompanyList.WithoutAbsentCompany | src/pages/CompanyList.tsx:94 | a list holding no company with that id is left unchanged |
| CompanyList.WithoutCompanyIdempotent | src/pages/CompanyList.tsx:94 | deleting the same id twice leaves the same list as deleting it once |
| CompanyList.UserIdsOf | src/pages/CompanyList.tsx:33-41 | the listed user ids are exactly the user_ids of the grant rows of the company |
| CompanyList.UserIdsAreAdmins | src/pages/CompanyList.tsx:33-41 | the ids the page lists for a company are the admins the policies recognise for it |
| CompanyList.InitialAdmins | src/pages/CompanyList.tsx:31-44 | every company whose lookup succeeded has an entry holding its grant rows' user ids, and every entry belongs to such a company |
| CompanyList.InitialAdminsStep | src/pages/CompanyList.tsx:32-43 | one loop iteration adds the company's entry when its lookup succeeded and changes nothing otherwise |
| CompanyList.InitialAdminsEntries | src/pages/CompanyList.tsx:31-44 | a company whose lookups all failed has no entry; one whose lookup succeeded maps to its grant rows' user ids |
| CompanyList.MaySeePage | src/pages/CompanyList.tsx:137 | the page admits exactly a present user whose role makes them superadmin for the policies' `is_superadmin()` |
| CompanyList.PageReadsAllowed | src/pages/CompanyList.tsx:137 | the user the gate admits may read every company, user and grant row the page loads |
| CompanyList.CompaniesAfterDelete | src/pages/CompanyList.tsx:90 | the rows left are those not both matching the id and admitted by a DELETE policy |
| CompanyList.CompanyDeleteDenied | src/pages/CompanyList.tsx:90 | no actor may delete a companies row |
| CompanyList.DeletedCompanyStays | src/pages/CompanyList.tsx:90 | the page's delete leaves the companies table unchanged |
| CompanyList.PageForgetsStoredCompany | src/pages/CompanyList.tsx:90-94 | after a delete that reports no error, the page no longer lists a company the table still holds |
| CompanyList.GrantsAfterDelete | src/pages/CompanyList.tsx:108-112 | the grant rows left are those not both matching company and user and admitted by a DELETE policy |
| CompanyList.GrantDeleteDenied | src/pages/CompanyList.tsx:108-112 | no actor may delete a company_admins row |
| CompanyList.RemovedGrantStays | src/pages/CompanyList.tsx:108-112 | the page's admin removal leaves the company_admins table unchanged |
| CompanyList.PageForgetsStoredAdmin | src/pages/CompanyList.tsx:105-133 | when the company's listed ids have no duplicates, removing a listed admin without an error leaves the page no longer listing the user, who is still an admin for the policies (with two grant rows for the same user the splice removes only the first copy) |
| CompanyList.CompanyListPage.constructor | src/pages/CompanyList.tsx:8-17 | the page starts loading, with empty lists, empty inputs, no error and an empty admin map |
| CompanyList.CompanyListPage.FetchCompanies | src/pages/CompanyList.tsx:20-62 | on success the companies are stored and the admin map is the one built from the successful lookups; the error is the last failing call's message; loading ends |
| CompanyList.CompanyListPage.SetNewCompanyName | src/pages/CompanyList.tsx:158 | the name input takes the typed value and every other field keeps its value |
| CompanyList.CompanyListPage.SetNewCompanyAccessTime | src/pages/CompanyList.tsx:165 | the access time input takes the typed value and every other field keeps its value |
| CompanyList.CompanyListPage.HandleAddCompany | src/pages/CompanyList.tsx:64-85 | the typed name and access time are sent; on success the returned company is appended and both inputs are reset; on error the list and inputs stay and the error is recorded |
| CompanyList.CompanyListPage.HandleDeleteCompany | src/pages/CompanyList.tsx:87-99 | on success every company with the id is filtered out; on error the list stays and the error is recorded |
| CompanyList.CompanyListPage.HandleAdminChange | src/pages/CompanyList.tsx:101-134 | a listed user is removed and an unlisted one added; on success only the company's entry changes, to the toggled list; on error the map stays and the error is recorded |
| CompanyList.CompanyListPage.View | src/pages/CompanyList.tsx:137-147 | the permission message is shown iff the user is missing or not superadmin; the companies and admin map are shown iff the user may see the page, loading has ended and the error is null or empty (`if (error)` treats '' as false); an error view carries a non-empty message |
| EmployeeList.QueryFor | src/components/EmployeeList.tsx:20-36 | a query is issued iff signed in with a company_admin or superadmin row; the superadmin's is unfiltered; the company_admin's filters on their own company_id |
| EmployeeList.QueryResult | src/components/EmployeeList.tsx:26-38 | the answer holds exactly the table's users that the filter selects and the policies let the actor read |
| EmployeeList.Matches | src/components/EmployeeList.tsx:26-29 | the unfiltered query selects every user; the company filter selects exactly the users with that non-null company_id |
| EmployeeList.OfCompany | src/components/EmployeeList.tsx:29 | the result holds exactly the users of the company |
| EmployeeList.GrantedAdminGetsCompany | src/components/EmployeeList.tsx:28-29 | a company admin holding a grant for their company gets exactly that company's users, in table order |
| EmployeeList.UngrantedAdminRow | src/components/EmployeeList.tsx:28-29 | an admin without a grant for their company may read, among that company's rows, only their own |
| EmployeeList.UngrantedAdminGetsSelfOnly | src/components/EmployeeList.tsx:28-29 | an admin without a grant for their company gets at most their own row |
| EmployeeList.SuperadminGetsEveryone | src/components/EmployeeList.tsx:30-31 | a superadmin's query is unfiltered and returns the whole users table |
| EmployeeList.Cell | src/components/EmployeeList.tsx:69-70 | a null column becomes the empty string, a present one its text |
| EmployeeList.RoleLabelRoundTrip | src/components/EmployeeList.tsx:72 | the role cell reads back as the role, and is empty iff the role is null |
| EmployeeList.RowOf | src/components/EmployeeList.tsx:68-73 | four cells, one per header: first name and last name with null as '', the id, and a role cell that reads back as the role |
| EmployeeList.Rows | src/components/EmployeeList.tsx:68-73 | one row per employee, in the same order, each the employee's projection |
| EmployeeList.RowsAgreeWithUsers | src/components/EmployeeList.tsx:67-73 | every row has one cell per header, its third cell is the user's id and its fourth reads back as the role |
| EmployeeList.RowsOfConcat | src/components/EmployeeList.tsx:68 | rendering distributes over concatenation of the employee list |
| EmployeeList.EmployeeListPanel.constructor | src/components/EmployeeList.tsx:13-15 | the panel starts loading, with no employees and no error |
| EmployeeList.EmployeeListPanel.FetchEmployees | src/components/EmployeeList.tsx:19-50 | the issued query is the role's; with none, employees and error are untouched; on success the employees are the answer (empty for a null answer); on error it is recorded; loading ends |
| EmployeeList.EmployeeListPanel.View | src/components/EmployeeList.tsx:55-80 | with loading ended and an error that is null or empty (`if (error)` treats '' as false), the empty message shows iff there are no employees and the table iff there are some, with the four headers and one projected row per employee; an error view carries a non-empty message |

## Left out

- Row security is assumed enabled on all five tables. create_policies.js only creates policies; `ALTER TABLE … ENABLE ROW LEVEL SECURITY` is not part of this model. Without it PostgreSQL ignores the policies, and none of the default-deny results (the refused writes, `DeletedCompanyStays`, `RemovedGrantStays`, `PageForgetsStored*`) would hold.

- The Supabase client, `rpc('sql', …)`, authentication and its listeners, `process.exit` and `console` output are not modelled. Network and foreign calls are parameters of the model: each answer is `Ok` or `Err`.
- The body of `is_superadmin()` is not part of this model. It is modelled as the actor's own role being superadmin.
- The async interleaving of the handlers is not modelled. This includes the awaits inside the admin-lookup loop and stale closures across concurrent clicks. Each handler is one atomic step.
- Exceptions caught by the `catch` blocks are folded into `Err` answers. An exception thrown midway through `fetchCompanies` is not modelled separately.
- CompanyList.CompanyListPage.FetchCompanies: does not model a null `data` from a successful companies select. There, `data || []` stores an empty list and the `for … of` over null throws. The client does not return null for a successful select.
- CompanyList.CompanyListPage.FetchCompanies: an admin lookup that returns neither rows nor an error counts among the failed lookups, because both leave the company without an entry. The rows a lookup returns are the `grants` parameter: the company_admins rows visible to the caller.
- CompanyList.CompanyListPage.HandleAddCompany: models the answer as the inserted row. An empty `data` array, where `data[0]` is undefined, is not modelled.
- EmployeeList.QueryFor: `.eq('company_id', null)` for a company admin without a company is modelled as matching no row, as SQL NULL equality does.
- PostgreSQL also requires SELECT-policy visibility for rows that UPDATE or DELETE reads through a WHERE clause, and for rows returned by INSERT … RETURNING. This is not modelled. It only narrows what the model already allows.
- Rendering and markup are not modelled: the admin selector and list inside the company cards, Table, Layout, InputField and the other pages. The gate at src/App.tsx:81 duplicates the one modelled at src/pages/CompanyList.tsx:137.
- Profile.tsx, i18n.ts and tailwind.config.js are not part of this model. They are form state, translation tables and styling.

## Findings

| source | as written | input that shows it | evidently intended | confidence | as-written member | corrected member |
|---|---|---|---|---|---|---|
| create_policies.js:24 | inside `select user_id from company_admins where company_id = id`, the unqualified `id` binds to company_admins.id, so the policy never looks at the company being updated | grant row (id a1, user u1, company c1): u1 cannot update c1; grant row (id x, user u2, company x): u2 can update every company | `company_id = companies.id`: only admins of the updated company may update it | not executed; high | CompanyUpdateScoping.LiteralReadingLocksOutAdmin | PolicyProperties.CompanyUpdateByAdminsOnly |
