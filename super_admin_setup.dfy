/**
 * The super-admin bootstrap: ensure the tables, create the identity-provider
 * account, try to grant it the SUPER_ADMIN role, then upsert the system
 * tenant, the user and the membership, in that order. Table creation, request
 * parsing and account creation are fatal; the role grant is not; an upsert
 * failure stops the remaining upserts; nothing is rolled back.
 */
module SuperAdminSetup {
  import opened Wrappers
  import opened TableEntities
  import opened TableStorage

  /** The reserved id of the system tenant. */
  const SuperAdminTenantId := "SUPER_ADMIN"
  /** The name of the system tenant (its RowKey). */
  const SuperAdminTenantName := "SuperAdmin"
  /** The role label written to the store and looked up at the provider. */
  const SuperAdminRole := "SUPER_ADMIN"
  /** `IsSystemTenant = true`, serialised. */
  const SystemTenantConfig := "{\"IsSystemTenant\":true}"
  const SuccessMessage := "SuperAdmin tenant and user setup successfully"
  const EmptyUserIdMessage := "Failed to create SuperAdmin in Auth0."

  /** A fixed positive stand-in for the ten calendar years added to the subscription start. */
  const TenYears: int := 10 * 365 * 24 * 60 * 60

  /** The body of a setup request; a property absent from the JSON is "" (C# null). */
  datatype SetupRequest = SetupRequest(
    email: string, password: string, firstName: string, lastName: string, username: string)

  /**
   * What the request body deserialises to: null (an empty body or the literal
   * `null`), a request object, or a JSON error.
   */
  datatype SetupBody = NullBody | JsonBody(request: SetupRequest) | MalformedBody(message: string)

  /** The fallback identity used when the body deserialises to null. */
  const DefaultRequest := SetupRequest("superadmin@yourdomain.com", "ChangeMe123!", "Super", "Admin", "superadmin")

  /** The request the run works with, or the deserialisation error it throws. */
  function ResolveRequest(body: SetupBody): (r: Result<SetupRequest>)
    ensures body.NullBody? ==>
      && r.Success? && r.value.email == "superadmin@yourdomain.com"
      && r.value.password == "ChangeMe123!" && r.value.firstName == "Super"
      && r.value.lastName == "Admin" && r.value.username == "superadmin"
    ensures body.JsonBody? ==> r == Success(body.request)
    ensures r.Failure? <==> body.MalformedBody?
  {
    match body
    case NullBody => Success(DefaultRequest)
    case JsonBody(req) => Success(req)
    case MalformedBody(m) => Failure(m)
  }

  // ---------------------------------------------------------------------------
  // The identity provider, as abstract outcomes

  /** The account-creation request sent to the provider's management API. */
  datatype AccountRequest = AccountRequest(
    connection: string, email: string, password: string, emailVerified: bool,
    firstName: string, lastName: string, metadataRole: string)

  /**
   * CreateAuth0User's request: the e-mail and password go to the provider
   * verbatim, marked verified, in the database connection, tagged SUPER_ADMIN.
   */
  function NewAccountRequest(req: SetupRequest): (a: AccountRequest)
    ensures a.email == req.email && a.password == req.password
    ensures a.firstName == req.firstName && a.lastName == req.lastName
    ensures a.emailVerified && a.connection == "Username-Password-Authentication"
    ensures a.metadataRole == SuperAdminRole
  {
    AccountRequest("Username-Password-Authentication", req.email, req.password, true,
                   req.firstName, req.lastName, SuperAdminRole)
  }

  /** What the provider answers to the account request (token fetch plus Users.CreateAsync). */
  datatype CreateOutcome = Created(userId: string) | CreateThrew(message: string)

  /** The provider-assigned user id, or the exception that aborts the run. */
  function ProviderUserId(create: CreateOutcome): (r: Result<string>)
    ensures r.Success? <==> create.Created? && create.userId != ""
    ensures r.Success? ==> r.value == create.userId
    ensures create.Created? && create.userId == "" ==> r == Failure(EmptyUserIdMessage)
    ensures create.CreateThrew? ==> r == Failure(create.message)
  {
    match create
    case Created(id) => if id == "" then Failure(EmptyUserIdMessage) else Success(id)
    case CreateThrew(m) => Failure(m)
  }

  datatype Role = Role(id: string, name: string)

  /** The role catalogue (token fetch plus Roles.GetAllAsync), or the exception it threw. */
  datatype RoleLookup = RolesListed(roles: seq<Role>) | LookupThrew(message: string)

  /** What the role step did; every case is only logged. */
  datatype RoleOutcome =
    | RoleAssigned(userId: string, roleId: string)
    | AssignThrew(userId: string, roleId: string, message: string)
    | RoleNotFound
    | RoleLookupFailed(message: string)

  /** The AssignRolesAsync call the role step made, as (user id, role id), if it made one. */
  function AssignCall(o: RoleOutcome): Option<(string, string)>
  {
    match o
    case RoleAssigned(u, r) => Some((u, r))
    case AssignThrew(u, r, _) => Some((u, r))
    case _ => None
  }

  /** FirstOrDefault(r => r.Name == name), as an index into `roles`. */
  function FirstRoleNamed(roles: seq<Role>, name: string): (r: Option<nat>)
    ensures r.Some? ==> r.value < |roles| && roles[r.value].name == name
    ensures r.Some? ==> forall j :: 0 <= j < r.value ==> roles[j].name != name
    ensures r.None? <==> forall j :: 0 <= j < |roles| ==> roles[j].name != name
  {
    if roles == [] then None
    else if roles[0].name == name then Some(0)
    else match FirstRoleNamed(roles[1..], name)
      case None => None
      case Some(i) => Some(i + 1)
  }

  /**
   * AssignRoleToUser: grant the first listed role named `roleName`. A missing
   * role makes no assignment call; a failing lookup or assignment is caught.
   * The result has no failure case: the step never aborts the run.
   */
  function AssignRoleToUser(userId: string, roleName: string, lookup: RoleLookup, assignFault: Option<string>)
    : (o: RoleOutcome)
    ensures lookup.LookupThrew? ==> o == RoleLookupFailed(lookup.message)
    ensures lookup.RolesListed? ==>
      (AssignCall(o).Some? <==> exists j :: 0 <= j < |lookup.roles| && lookup.roles[j].name == roleName)
    ensures AssignCall(o).Some? ==>
      && lookup.RolesListed? && AssignCall(o).value.0 == userId
      && exists i :: 0 <= i < |lookup.roles| && lookup.roles[i].name == roleName &&
           lookup.roles[i].id == AssignCall(o).value.1 &&
           forall j :: 0 <= j < i ==> lookup.roles[j].name != roleName
    ensures o.RoleAssigned? <==> AssignCall(o).Some? && assignFault.None?
  {
    match lookup
    case LookupThrew(m) => RoleLookupFailed(m)
    case RolesListed(roles) =>
      match FirstRoleNamed(roles, roleName)
      case None => RoleNotFound
      case Some(i) =>
        match assignFault
        case None => RoleAssigned(userId, roles[i].id)
        case Some(m) => AssignThrew(userId, roles[i].id, m)
  }

  // ---------------------------------------------------------------------------
  // The records the run writes

  /** The system tenant, built from the request at instant `now`. */
  function SuperAdminTenant(req: SetupRequest, now: Instant): (t: TenantEntity)
    ensures TenantKey(t) == Key(SuperAdminTenantId, SuperAdminTenantName)
    ensures t.subscriptionStartDate <= t.subscriptionEndDate
    ensures t.subscriptionStartDate == now && t.subscriptionEndDate == now + TenYears
    ensures t.createdAt == now && t.updatedAt == now
    ensures t.configSettings == SystemTenantConfig
    ensures t.contactEmail == req.email && t.primaryContactName == req.firstName + " " + req.lastName
    ensures t.planOrTier == "SystemTenant" && t.status == "Active" && t.subdomain == "admin"
    ensures t.deletedAt.None?
  {
    NewTenant(now).(
      partitionKey := SuperAdminTenantId,
      rowKey := SuperAdminTenantName,
      subdomain := "admin",
      primaryContactName := req.firstName + " " + req.lastName,
      contactEmail := req.email,
      planOrTier := "SystemTenant",
      status := "Active",
      configSettings := SystemTenantConfig,
      subscriptionEndDate := now + TenYears)
  }

  /** The super-admin user keyed by the provider id in the system tenant. */
  function SuperAdminUser(userId: string, req: SetupRequest, now: Instant): (u: UserEntity)
    ensures UserKey(u) == Key(userId, SuperAdminTenantId)
    ensures u.roleOrPermissions == SuperAdminRole && u.status == "Active" && u.emailVerified
    ensures u.username == req.username && u.email == req.email
    ensures u.firstName == req.firstName && u.lastName == req.lastName
    ensures u.password == "" && u.passwordResetExpiration.None?
    ensures u.createdAt == now && u.updatedAt == now && u.lastLogin == now
  {
    NewUser(now).(
      partitionKey := userId,
      rowKey := SuperAdminTenantId,
      username := req.username,
      email := req.email,
      firstName := req.firstName,
      lastName := req.lastName,
      roleOrPermissions := SuperAdminRole,
      status := "Active",
      emailVerified := true)
  }

  /** The membership of the provider id in the system tenant. */
  function SuperAdminMembership(userId: string, now: Instant): (m: TenantUserEntity)
    ensures TenantUserKey(m) == Key(SuperAdminTenantId, userId)
    ensures m.role == SuperAdminRole
    ensures m.createdAt == now && m.updatedAt == now
  {
    NewTenantUser(now).(partitionKey := SuperAdminTenantId, rowKey := userId, role := SuperAdminRole)
  }

  // ---------------------------------------------------------------------------
  // The run as a function of its inputs

  /** The HTTP answer: 200 with the ids, or 500 with "Error: <message>". */
  datatype SetupResponse =
    | SetupSucceeded(message: string, tenantId: string, userId: string, username: string)
    | SetupFailed(error: string)

  function StatusCode(r: SetupResponse): int
  {
    if r.SetupSucceeded? then 200 else 500
  }

  /** The 500 answer for an exception with `message`. */
  function Failed(message: string): (r: SetupResponse)
    ensures StatusCode(r) == 500 && r.error == "Error: " + message
  {
    SetupFailed("Error: " + message)
  }

  /** Which of the three table-store writes throw. */
  datatype StoreFaults = StoreFaults(
    tables: TableFault, tenant: Option<string>, user: Option<string>, membership: Option<string>)

  /** A store with the final state of a run and the answer it gave. */
  datatype SetupRun = SetupRun(state: StoreState, response: SetupResponse)

  /** The sentinel-tenant key, the user key and the membership key for provider id `id`. */
  function SentinelKeys(id: string): (keys: (Key, Key, Key))
  {
    (Key(SuperAdminTenantId, SuperAdminTenantName), Key(id, SuperAdminTenantId), Key(SuperAdminTenantId, id))
  }

  /** The three upserts for provider id `id`, in order; the first failure stops the rest. */
  function WriteRecords(s: StoreState, req: SetupRequest, id: string, faults: StoreFaults, now: Instant)
    : (run: SetupRun)
    requires id != ""
    ensures WellKeyed(s) ==> WellKeyed(run.state)
    ensures run.state.tables == s.tables
    ensures run.response.SetupSucceeded? <==> faults.tenant.None? && faults.user.None? && faults.membership.None?
    ensures run.response.SetupSucceeded? ==>
      run.response == SetupSucceeded(SuccessMessage, SuperAdminTenantId, id, req.username)
    ensures run.state.tenants.Keys <= s.tenants.Keys + {SentinelKeys(id).0}
    ensures run.state.users.Keys <= s.users.Keys + {SentinelKeys(id).1}
    ensures run.state.tenantUsers.Keys <= s.tenantUsers.Keys + {SentinelKeys(id).2}
  {
    if faults.tenant.Some? then SetupRun(s, Failed(faults.tenant.value))
    else
      var s1 := WithTenant(s, SuperAdminTenant(req, now));
      if faults.user.Some? then SetupRun(s1, Failed(faults.user.value))
      else
        var s2 := WithUser(s1, SuperAdminUser(id, req, now));
        if faults.membership.Some? then SetupRun(s2, Failed(faults.membership.value))
        else
          var s3 := WithTenantUser(s2, SuperAdminMembership(id, now));
          SetupRun(s3, SetupSucceeded(SuccessMessage, SuperAdminTenantId, id, req.username))
  }

  /**
   * The whole run: ensure the tables, read the request, create the account,
   * then write the records. The role step does not appear: nothing here
   * depends on it.
   */
  function Setup(s: StoreState, body: SetupBody, create: CreateOutcome, faults: StoreFaults, now: Instant)
    : (run: SetupRun)
    ensures WellKeyed(s) ==> WellKeyed(run.state)
    ensures run.response.SetupSucceeded? ==>
      && ReachesRoleStep(body, create, faults)
      && run.response.tenantId == SuperAdminTenantId && run.response.userId == create.userId
      && run.response.username == ResolveRequest(body).value.username
  {
    var s1 := AfterEnsureTables(s, faults.tables);
    if faults.tables.CreateTableThrew? then SetupRun(s1, Failed(faults.tables.message))
    else
      match ResolveRequest(body)
      case Failure(m) => SetupRun(s1, Failed(m))
      case Success(req) =>
        match ProviderUserId(create)
        case Failure(m) => SetupRun(s1, Failed(m))
        case Success(id) => WriteRecords(s1, req, id, faults, now)
  }

  /** The run gets past the fatal steps and reaches the role step. */
  predicate ReachesRoleStep(body: SetupBody, create: CreateOutcome, faults: StoreFaults)
  {
    faults.tables.NoTableFault? && ResolveRequest(body).Success? && ProviderUserId(create).Success?
  }

  // ---------------------------------------------------------------------------
  // Properties of the run

  /**
   * A failing table creation, a malformed body or a failed account creation
   * answers 500 and writes no tenant, user or membership.
   */
  lemma FatalFailureWritesNoRecords(s: StoreState, body: SetupBody, create: CreateOutcome, faults: StoreFaults, now: Instant)
    requires !ReachesRoleStep(body, create, faults)
    ensures var run := Setup(s, body, create, faults, now);
      && StatusCode(run.response) == 500
      && (faults.tables.CreateTableThrew? ==> run.response == Failed(faults.tables.message))
      && (faults.tables.NoTableFault? && body.MalformedBody? ==> run.response == Failed(body.message))
      && (faults.tables.NoTableFault? && !body.MalformedBody? && create.CreateThrew? ==>
            run.response == Failed(create.message))
      && run.state.tenants == s.tenants && run.state.users == s.users && run.state.tenantUsers == s.tenantUsers
  {
  }

  /** An empty provider id is as fatal as a thrown exception, with its own message. */
  lemma EmptyProviderIdIsFatal(s: StoreState, body: SetupBody, faults: StoreFaults, now: Instant)
    requires faults.tables.NoTableFault? && !body.MalformedBody?
    ensures Setup(s, body, Created(""), faults, now).response == Failed(EmptyUserIdMessage)
  {
  }

  /** The store after a fault-free run for provider id `id`. */
  function Provisioned(s: StoreState, req: SetupRequest, id: string, now: Instant): (r: StoreState)
  {
    StoreState(
      s.tables + {TenantsTable, UsersTable, TenantUsersTable},
      s.tenants[Key(SuperAdminTenantId, SuperAdminTenantName) := SuperAdminTenant(req, now)],
      s.users[Key(id, SuperAdminTenantId) := SuperAdminUser(id, req, now)],
      s.tenantUsers[Key(SuperAdminTenantId, id) := SuperAdminMembership(id, now)])
  }

  /**
   * A run without faults adds the three tables, writes the three records at
   * their sentinel keys, leaves every other key as it was and answers 200
   * with the ids.
   */
  lemma SuccessfulSetupWritesThreeRecords(s: StoreState, body: SetupBody, create: CreateOutcome, now: Instant)
    requires !body.MalformedBody? && create.Created? && create.userId != ""
    ensures var run := Setup(s, body, create, StoreFaults(NoTableFault, None, None, None), now);
      var req := ResolveRequest(body).value;
      && StatusCode(run.response) == 200
      && run.response == SetupSucceeded(SuccessMessage, SuperAdminTenantId, create.userId, req.username)
      && run.state == Provisioned(s, req, create.userId, now)
  {
    EnsureTablesPresent(s);
  }

  /**
   * Whatever the faults, a run touches no tenant key but the sentinel one and,
   * once it has an id, no user or membership key but the two derived from it;
   * it only ever adds the three tables.
   */
  lemma SetupWritesOnlySentinelKeys(s: StoreState, body: SetupBody, create: CreateOutcome, faults: StoreFaults, now: Instant)
    ensures var r := Setup(s, body, create, faults, now).state;
      && s.tables <= r.tables <= s.tables + {TenantsTable, UsersTable, TenantUsersTable}
      && SameExcept(r.tenants, s.tenants, Key(SuperAdminTenantId, SuperAdminTenantName))
      && (ReachesRoleStep(body, create, faults) ==>
            && SameExcept(r.users, s.users, Key(create.userId, SuperAdminTenantId))
            && SameExcept(r.tenantUsers, s.tenantUsers, Key(SuperAdminTenantId, create.userId)))
      && (!ReachesRoleStep(body, create, faults) ==> r.users == s.users && r.tenantUsers == s.tenantUsers)
  {
    var s1 := AfterEnsureTables(s, faults.tables);
    var r := Setup(s, body, create, faults, now).state;
    CreatedTablesInOrder();
    assert CreatedTables(TablesCreated(faults.tables)) <= {TenantsTable, UsersTable, TenantUsersTable};
    if ReachesRoleStep(body, create, faults) {
      WriteRecordsOnlySentinelKeys(s1, ResolveRequest(body).value, create.userId, faults, now);
    } else {
      assert r.tenants == s.tenants;
    }
  }

  /** The three upserts touch only the sentinel tenant key and the two keys derived from `id`. */
  lemma WriteRecordsOnlySentinelKeys(s: StoreState, req: SetupRequest, id: string, faults: StoreFaults, now: Instant)
    requires id != ""
    ensures var r := WriteRecords(s, req, id, faults, now).state;
      && r.tables == s.tables
      && SameExcept(r.tenants, s.tenants, Key(SuperAdminTenantId, SuperAdminTenantName))
      && SameExcept(r.users, s.users, Key(id, SuperAdminTenantId))
      && SameExcept(r.tenantUsers, s.tenantUsers, Key(SuperAdminTenantId, id))
  {
  }

  /** Upserts happen in order; a failing one keeps the earlier writes and skips the later ones. */
  lemma UpsertFailureKeepsEarlierWrites(s: StoreState, req: SetupRequest, id: string, faults: StoreFaults, now: Instant)
    requires id != ""
    ensures var run := WriteRecords(s, req, id, faults, now);
      && (faults.tenant.Some? ==> run.state == s && run.response == Failed(faults.tenant.value))
      && (faults.tenant.None? && faults.user.Some? ==>
            run.state == WithTenant(s, SuperAdminTenant(req, now)) && run.response == Failed(faults.user.value))
      && (faults.tenant.None? && faults.user.None? && faults.membership.Some? ==>
            run.state == WithUser(WithTenant(s, SuperAdminTenant(req, now)), SuperAdminUser(id, req, now))
            && run.response == Failed(faults.membership.value))
  {
  }

  /** After a successful run the membership points at a tenant and a user that exist. */
  lemma MembershipReferencesWrittenRecords(s: StoreState, body: SetupBody, create: CreateOutcome, now: Instant)
    requires !body.MalformedBody? && create.Created? && create.userId != ""
    ensures var run := Setup(s, body, create, StoreFaults(NoTableFault, None, None, None), now);
      var m := Key(SuperAdminTenantId, create.userId);
      && m in run.state.tenantUsers
      && Key(run.state.tenantUsers[m].partitionKey, SuperAdminTenantName) in run.state.tenants
      && Key(run.state.tenantUsers[m].rowKey, run.state.tenantUsers[m].partitionKey) in run.state.users
  {
    SuccessfulSetupWritesThreeRecords(s, body, create, now);
  }

  /** Provisioning twice for the same id adds no key; at the same instant it changes nothing. */
  lemma ProvisionedTwice(s: StoreState, req: SetupRequest, id: string, now: Instant, later: Instant)
    ensures Provisioned(Provisioned(s, req, id, now), req, id, now) == Provisioned(s, req, id, now)
    ensures var first := Provisioned(s, req, id, now);
      var second := Provisioned(first, req, id, later);
      && second.tables == first.tables
      && second.tenants.Keys == first.tenants.Keys
      && second.users.Keys == first.users.Keys
      && second.tenantUsers.Keys == first.tenantUsers.Keys
  {
    var first := Provisioned(s, req, id, now);
    PutIdempotent(s.tenants, Key(SuperAdminTenantId, SuperAdminTenantName), SuperAdminTenant(req, now));
    PutIdempotent(s.users, Key(id, SuperAdminTenantId), SuperAdminUser(id, req, now));
    PutIdempotent(s.tenantUsers, Key(SuperAdminTenantId, id), SuperAdminMembership(id, now));
    assert first.tables + {TenantsTable, UsersTable, TenantUsersTable} == first.tables;
  }

  /**
   * Re-running a successful setup with the same provider id adds no key to
   * any table; at the same instant it leaves the store exactly as it was.
   */
  lemma RerunWithSameIdIsIdempotent(s: StoreState, body: SetupBody, create: CreateOutcome, now: Instant, later: Instant)
    requires !body.MalformedBody? && create.Created? && create.userId != ""
    ensures var ok := StoreFaults(NoTableFault, None, None, None);
      var first := Setup(s, body, create, ok, now).state;
      && Setup(first, body, create, ok, now).state == first
      && Setup(first, body, create, ok, later).state.tenants.Keys == first.tenants.Keys
      && Setup(first, body, create, ok, later).state.users.Keys == first.users.Keys
      && Setup(first, body, create, ok, later).state.tenantUsers.Keys == first.tenantUsers.Keys
  {
    var ok := StoreFaults(NoTableFault, None, None, None);
    var first := Setup(s, body, create, ok, now).state;
    SuccessfulSetupWritesThreeRecords(s, body, create, now);
    SuccessfulSetupWritesThreeRecords(first, body, create, now);
    SuccessfulSetupWritesThreeRecords(first, body, create, later);
    ProvisionedTwice(s, ResolveRequest(body).value, create.userId, now, later);
  }

  /**
   * A retry that succeeds converges: whatever an earlier attempt wrote, as
   * long as it failed before getting an id or got the same id, the store ends
   * as if only the successful attempt had run.
   */
  lemma RetryConverges(s: StoreState, body1: SetupBody, create1: CreateOutcome, faults1: StoreFaults, now1: Instant,
                       body2: SetupBody, create2: CreateOutcome, now2: Instant)
    requires !body2.MalformedBody? && create2.Created? && create2.userId != ""
    requires ProviderUserId(create1).Failure? || ProviderUserId(create1) == ProviderUserId(create2)
    ensures var ok := StoreFaults(NoTableFault, None, None, None);
      var first := Setup(s, body1, create1, faults1, now1).state;
      Setup(first, body2, create2, ok, now2).state == Setup(s, body2, create2, ok, now2).state
  {
    var first := Setup(s, body1, create1, faults1, now1).state;
    var req, id := ResolveRequest(body2).value, create2.userId;
    SetupWritesOnlySentinelKeys(s, body1, create1, faults1, now1);
    SuccessfulSetupWritesThreeRecords(first, body2, create2, now2);
    SuccessfulSetupWritesThreeRecords(s, body2, create2, now2);
    PutHidesDifferenceAt(first.tenants, s.tenants, Key(SuperAdminTenantId, SuperAdminTenantName), SuperAdminTenant(req, now2));
    PutHidesDifferenceAt(first.users, s.users, Key(id, SuperAdminTenantId), SuperAdminUser(id, req, now2));
    PutHidesDifferenceAt(first.tenantUsers, s.tenantUsers, Key(SuperAdminTenantId, id), SuperAdminMembership(id, now2));
    assert first.tables + {TenantsTable, UsersTable, TenantUsersTable} == s.tables + {TenantsTable, UsersTable, TenantUsersTable};
  }

  /**
   * A rerun does not keep the creation stamps of the first run: every record
   * it writes carries the instant of the rerun.
   */
  lemma RerunOverwritesCreatedAt(s: StoreState, body: SetupBody, create: CreateOutcome, now: Instant, later: Instant)
    requires !body.MalformedBody? && create.Created? && create.userId != ""
    ensures var ok := StoreFaults(NoTableFault, None, None, None);
      var second := Setup(Setup(s, body, create, ok, now).state, body, create, ok, later).state;
      && second.tenants[Key(SuperAdminTenantId, SuperAdminTenantName)].createdAt == later
      && second.users[Key(create.userId, SuperAdminTenantId)].createdAt == later
      && second.tenantUsers[Key(SuperAdminTenantId, create.userId)].createdAt == later
  {
    var ok := StoreFaults(NoTableFault, None, None, None);
    SuccessfulSetupWritesThreeRecords(s, body, create, now);
    SuccessfulSetupWritesThreeRecords(Setup(s, body, create, ok, now).state, body, create, later);
  }

  // ---------------------------------------------------------------------------
  // The handler

  /**
   * What the identity provider does during one run: how it answers an
   * account-creation request, what its role catalogue lists, and whether the
   * role assignment throws.
   */
  datatype ProviderScript = ProviderScript(
    createAccount: AccountRequest -> CreateOutcome, roles: RoleLookup, assignFault: Option<string>)

  /**
   * The provider's answer in a run on `body`: its answer to the request built
   * from the resolved body. A body that does not resolve sends no request; the
   * run then stops with the parse error, which is also what this yields.
   */
  function AccountAnswer(body: SetupBody, createAccount: AccountRequest -> CreateOutcome): CreateOutcome
  {
    match ResolveRequest(body)
    case Success(req) => createAccount(NewAccountRequest(req))
    case Failure(m) => CreateThrew(m)
  }

  /**
   * Run (SetupSuperAdminTenant): the steps in their fixed order against the
   * store. `roleStep` is what the role step did, when the run got that far.
   */
  method Run(store: TableStorageService, body: SetupBody, provider: ProviderScript, faults: StoreFaults, now: Instant)
    returns (response: SetupResponse, sent: Option<AccountRequest>, roleStep: Option<RoleOutcome>)
    requires store.Valid()
    modifies store
    ensures store.Valid()
    ensures var create := AccountAnswer(body, provider.createAccount);
      var run := Setup(old(store.State()), body, create, faults, now);
      store.State() == run.state && response == run.response
    ensures sent.Some? <==> faults.tables.NoTableFault? && ResolveRequest(body).Success?
    ensures sent.Some? ==> sent.value == NewAccountRequest(ResolveRequest(body).value)
    ensures roleStep.Some? <==> ReachesRoleStep(body, AccountAnswer(body, provider.createAccount), faults)
    ensures roleStep.Some? ==>
      && sent.Some?
      && roleStep.value == AssignRoleToUser(provider.createAccount(sent.value).userId, SuperAdminRole,
                                            provider.roles, provider.assignFault)
  {
    sent, roleStep := None, None;
    var o := store.EnsureTablesExist(faults.tables);
    if o.Fail? {
      return Failed(o.message), None, None;
    }
    var parsed := ResolveRequest(body);
    if parsed.Failure? {
      return Failed(parsed.message), None, None;
    }
    var req := parsed.value;
    sent := Some(NewAccountRequest(req));
    var created := ProviderUserId(provider.createAccount(sent.value));
    if created.Failure? {
      return Failed(created.message), sent, None;
    }
    var id := created.value;
    roleStep := Some(AssignRoleToUser(id, SuperAdminRole, provider.roles, provider.assignFault));

    o := store.UpsertTenant(SuperAdminTenant(req, now), faults.tenant);
    if o.Fail? {
      return Failed(o.message), sent, roleStep;
    }
    o := store.UpsertUser(SuperAdminUser(id, req, now), faults.user);
    if o.Fail? {
      return Failed(o.message), sent, roleStep;
    }
    o := store.UpsertTenantUser(SuperAdminMembership(id, now), faults.membership);
    if o.Fail? {
      return Failed(o.message), sent, roleStep;
    }
    response := SetupSucceeded(SuccessMessage, SuperAdminTenantId, id, req.username);
  }
}
