/**
 * The tenant store: three keyed tables (Tenants, Users, TenantUsers) held by
 * the table service. Writes are keyed upserts; reads are keyed lookups and
 * filtered scans that turn every store error into "not found".
 */
module TableStorage {
  import opened Wrappers
  import opened TableEntities

  /** Names of the three tables, in the order they are created. */
  const TenantsTable := "Tenants"
  const UsersTable := "Users"
  const TenantUsersTable := "TenantUsers"
  const TableNames: seq<string> := [TenantsTable, UsersTable, TenantUsersTable]

  /** A table maps each (PartitionKey, RowKey) to at most one record. */
  type Table<E> = map<Key, E>

  /** The contents of the table service: which tables exist and what they hold. */
  datatype StoreState = StoreState(
    tables: set<string>,
    tenants: Table<TenantEntity>,
    users: Table<UserEntity>,
    tenantUsers: Table<TenantUserEntity>)

  /** Every record sits at the key made of its own PartitionKey and RowKey. */
  ghost predicate WellKeyed(s: StoreState)
  {
    && (forall k :: k in s.tenants ==> TenantKey(s.tenants[k]) == k)
    && (forall k :: k in s.users ==> UserKey(s.users[k]) == k)
    && (forall k :: k in s.tenantUsers ==> TenantUserKey(s.tenantUsers[k]) == k)
  }

  /**
   * In a well-keyed store the identifying pair of a record picks out one
   * record: two tenants with the same (tenant id, tenant name), two users with
   * the same (user id, tenant id) or two memberships with the same
   * (tenant id, user id) are the same record.
   */
  lemma OneRecordPerIdentity(s: StoreState)
    requires WellKeyed(s)
    ensures forall k1, k2 ::
              (&& k1 in s.tenants && k2 in s.tenants
               && s.tenants[k1].partitionKey == s.tenants[k2].partitionKey
               && s.tenants[k1].rowKey == s.tenants[k2].rowKey)
              ==> k1 == k2
    ensures forall k1, k2 ::
              (&& k1 in s.users && k2 in s.users
               && s.users[k1].partitionKey == s.users[k2].partitionKey
               && s.users[k1].rowKey == s.users[k2].rowKey)
              ==> k1 == k2
    ensures forall k1, k2 ::
              (&& k1 in s.tenantUsers && k2 in s.tenantUsers
               && s.tenantUsers[k1].partitionKey == s.tenantUsers[k2].partitionKey
               && s.tenantUsers[k1].rowKey == s.tenantUsers[k2].rowKey)
              ==> k1 == k2
  {
    forall k1, k2 | k1 in s.tenants && k2 in s.tenants &&
      s.tenants[k1].partitionKey == s.tenants[k2].partitionKey && s.tenants[k1].rowKey == s.tenants[k2].rowKey
      ensures k1 == k2
    {
      assert TenantKey(s.tenants[k1]) == k1 && TenantKey(s.tenants[k2]) == k2;
    }
    forall k1, k2 | k1 in s.users && k2 in s.users &&
      s.users[k1].partitionKey == s.users[k2].partitionKey && s.users[k1].rowKey == s.users[k2].rowKey
      ensures k1 == k2
    {
      assert UserKey(s.users[k1]) == k1 && UserKey(s.users[k2]) == k2;
    }
    forall k1, k2 | k1 in s.tenantUsers && k2 in s.tenantUsers &&
      s.tenantUsers[k1].partitionKey == s.tenantUsers[k2].partitionKey &&
      s.tenantUsers[k1].rowKey == s.tenantUsers[k2].rowKey
      ensures k1 == k2
    {
      assert TenantUserKey(s.tenantUsers[k1]) == k1 && TenantUserKey(s.tenantUsers[k2]) == k2;
    }
  }

  // ---------------------------------------------------------------------------
  // Keyed write semantics

  /** The keyed upsert of the table service: `e` replaces whatever `k` held. */
  function Put<E>(table: Table<E>, k: Key, e: E): (r: Table<E>)
    ensures r.Keys == table.Keys + {k}
    ensures k in r && r[k] == e
    ensures forall k' :: k' in table && k' != k ==> r[k'] == table[k']
  {
    table[k := e]
  }

  /** Upserting the same record twice leaves the table as upserting it once. */
  lemma PutIdempotent<E>(table: Table<E>, k: Key, e: E)
    ensures Put(Put(table, k, e), k, e) == Put(table, k, e)
  {
  }

  /** A later upsert at a key hides an earlier one at the same key. */
  lemma PutOverwrites<E>(table: Table<E>, k: Key, e1: E, e2: E)
    ensures Put(Put(table, k, e1), k, e2) == Put(table, k, e2)
  {
  }

  /** Upserts at different keys commute. */
  lemma PutCommutes<E>(table: Table<E>, k1: Key, e1: E, k2: Key, e2: E)
    requires k1 != k2
    ensures Put(Put(table, k1, e1), k2, e2) == Put(Put(table, k2, e2), k1, e1)
  {
  }

  /** `a` and `b` hold the same keys and records, except perhaps at `k`. */
  ghost predicate SameExcept<E>(a: Table<E>, b: Table<E>, k: Key)
  {
    && (forall k' :: k' in a && k' != k ==> k' in b && b[k'] == a[k'])
    && (forall k' :: k' in b && k' != k ==> k' in a)
  }

  /** An upsert at `k` hides any difference the two tables had at `k`. */
  lemma PutHidesDifferenceAt<E>(a: Table<E>, b: Table<E>, k: Key, e: E)
    requires SameExcept(a, b, k)
    ensures Put(a, k, e) == Put(b, k, e)
  {
    var pa, pb := Put(a, k, e), Put(b, k, e);
    assert pa.Keys == pb.Keys;
    forall k' | k' in pa ensures pa[k'] == pb[k'] {
      if k' != k {
        assert pa[k'] == a[k'] && pb[k'] == b[k'];
      }
    }
  }

  /** The state after a tenant upsert succeeded. */
  function WithTenant(s: StoreState, t: TenantEntity): (r: StoreState)
    ensures r.tenants == Put(s.tenants, TenantKey(t), t)
    ensures r.tables == s.tables && r.users == s.users && r.tenantUsers == s.tenantUsers
    ensures WellKeyed(s) ==> WellKeyed(r)
  {
    s.(tenants := Put(s.tenants, TenantKey(t), t))
  }

  /** The state after a user upsert succeeded. */
  function WithUser(s: StoreState, u: UserEntity): (r: StoreState)
    ensures r.users == Put(s.users, UserKey(u), u)
    ensures r.tables == s.tables && r.tenants == s.tenants && r.tenantUsers == s.tenantUsers
    ensures WellKeyed(s) ==> WellKeyed(r)
  {
    s.(users := Put(s.users, UserKey(u), u))
  }

  /** The state after a membership upsert succeeded. */
  function WithTenantUser(s: StoreState, m: TenantUserEntity): (r: StoreState)
    ensures r.tenantUsers == Put(s.tenantUsers, TenantUserKey(m), m)
    ensures r.tables == s.tables && r.tenants == s.tenants && r.users == s.users
    ensures WellKeyed(s) ==> WellKeyed(r)
  {
    s.(tenantUsers := Put(s.tenantUsers, TenantUserKey(m), m))
  }

  // ---------------------------------------------------------------------------
  // Table creation

  /** The position of one of the three create-if-absent calls. */
  type TableIndex = i: nat | i < 3

  /** Where the three create-if-absent calls stop: the call at index `at` throws. */
  datatype TableFault = NoTableFault | CreateTableThrew(at: TableIndex, message: string)

  /** How many of the three create-if-absent calls complete before a fault. */
  function TablesCreated(fault: TableFault): nat
  {
    match fault
    case NoTableFault => |TableNames|
    case CreateTableThrew(at, _) => at
  }

  /** The tables the first `n` create-if-absent calls leave present. */
  function CreatedTables(n: nat): (r: set<string>)
    requires n <= |TableNames|
    ensures forall t :: t in r <==> exists i :: 0 <= i < n && TableNames[i] == t
  {
    if n == 0 then {} else CreatedTables(n - 1) + {TableNames[n - 1]}
  }

  /** The tables present after each of the three create-if-absent calls, in order. */
  lemma CreatedTablesInOrder()
    ensures CreatedTables(0) == {}
    ensures CreatedTables(1) == {TenantsTable}
    ensures CreatedTables(2) == {TenantsTable, UsersTable}
    ensures CreatedTables(3) == {TenantsTable, UsersTable, TenantUsersTable}
  {
    assert CreatedTables(1) == CreatedTables(0) + {TableNames[0]};
    assert CreatedTables(2) == CreatedTables(1) + {TableNames[1]};
    assert CreatedTables(3) == CreatedTables(2) + {TableNames[2]};
  }

  /** The state after EnsureTablesExist: the tables created before a fault are added. */
  function AfterEnsureTables(s: StoreState, fault: TableFault): (r: StoreState)
    ensures r.tables == s.tables + CreatedTables(TablesCreated(fault))
    ensures fault.NoTableFault? ==> r.tables == s.tables + (set i | 0 <= i < |TableNames| :: TableNames[i])
    ensures fault.CreateTableThrew? ==> r.tables == s.tables + (set i | 0 <= i < fault.at :: TableNames[i])
    ensures r.tenants == s.tenants && r.users == s.users && r.tenantUsers == s.tenantUsers
  {
    s.(tables := s.tables + CreatedTables(TablesCreated(fault)))
  }

  /** Without a fault the three tables are present afterwards, and nothing else is added. */
  lemma EnsureTablesPresent(s: StoreState)
    ensures AfterEnsureTables(s, NoTableFault).tables == s.tables + {TenantsTable, UsersTable, TenantUsersTable}
  {
    CreatedTablesInOrder();
  }

  /** Once the three tables exist, ensuring them again changes nothing, whatever fails. */
  lemma EnsureTablesIdempotent(s: StoreState, fault: TableFault)
    requires {TenantsTable, UsersTable, TenantUsersTable} <= s.tables
    ensures AfterEnsureTables(s, fault) == s
  {
    assert CreatedTables(TablesCreated(fault)) <= s.tables;
  }

  // ---------------------------------------------------------------------------
  // Keyed reads

  /** GetTenantAsync: the tenant at (tenantId, tenantName), or null when absent or on error. */
  function GetTenant(s: StoreState, tenantId: string, tenantName: string, failed: bool): (r: Option<TenantEntity>)
    requires WellKeyed(s)
    ensures r.Some? <==> !failed && Key(tenantId, tenantName) in s.tenants
    ensures r.Some? ==> r.value.partitionKey == tenantId && r.value.rowKey == tenantName
    ensures r.Some? ==> r.value == s.tenants[Key(tenantId, tenantName)]
  {
    var k := Key(tenantId, tenantName);
    if failed || k !in s.tenants then None else Some(s.tenants[k])
  }

  /** GetTenantUserAsync: the membership at (tenantId, userId), or null when absent or on error. */
  function GetTenantUser(s: StoreState, tenantId: string, userId: string, failed: bool): (r: Option<TenantUserEntity>)
    requires WellKeyed(s)
    ensures r.Some? <==> !failed && Key(tenantId, userId) in s.tenantUsers
    ensures r.Some? ==> r.value.partitionKey == tenantId && r.value.rowKey == userId
    ensures r.Some? ==> r.value == s.tenantUsers[Key(tenantId, userId)]
  {
    var k := Key(tenantId, userId);
    if failed || k !in s.tenantUsers then None else Some(s.tenantUsers[k])
  }

  /** Reading a tenant back right after upserting it yields that tenant. */
  lemma GetTenantAfterUpsert(s: StoreState, t: TenantEntity)
    requires WellKeyed(s)
    ensures GetTenant(WithTenant(s, t), t.partitionKey, t.rowKey, false) == Some(t)
  {
  }

  /** Reading a membership back right after upserting it yields that membership. */
  lemma GetTenantUserAfterUpsert(s: StoreState, m: TenantUserEntity)
    requires WellKeyed(s)
    ensures GetTenantUser(WithTenantUser(s, m), m.partitionKey, m.rowKey, false) == Some(m)
  {
  }

  // ---------------------------------------------------------------------------
  // Queries over the Users table

  /** Ordinal lexicographic order on strings. */
  predicate StrLess(a: string, b: string)
  {
    if |b| == 0 then false
    else if |a| == 0 then true
    else if a[0] != b[0] then a[0] < b[0]
    else StrLess(a[1..], b[1..])
  }

  /** The order in which the table service returns rows: PartitionKey, then RowKey. */
  predicate KeyLess(a: Key, b: Key)
  {
    StrLess(a.partition, b.partition) || (a.partition == b.partition && StrLess(a.row, b.row))
  }

  /** The rows are in strictly ascending key order. */
  ghost predicate SortedByKey(rows: seq<UserEntity>)
  {
    forall i, j :: 0 <= i < j < |rows| ==> KeyLess(UserKey(rows[i]), UserKey(rows[j]))
  }

  /** `u` is the record the Users table holds at u's own key. */
  ghost predicate Stored(users: Table<UserEntity>, u: UserEntity)
  {
    UserKey(u) in users && users[UserKey(u)] == u
  }

  /**
   * `scan` is what enumerating the whole Users table yields: every stored
   * record, nothing else, in ascending key order.
   */
  ghost predicate IsUserScan(scan: seq<UserEntity>, users: Table<UserEntity>)
  {
    && (forall u :: u in scan ==> Stored(users, u))
    && (forall k :: k in users ==> users[k] in scan)
    && SortedByKey(scan)
  }

  /** The rows a server-side filter lets through, in the order they were enumerated. */
  function Filter(rows: seq<UserEntity>, keep: UserEntity -> bool): (r: seq<UserEntity>)
    ensures forall u :: u in r <==> u in rows && keep(u)
    ensures SortedByKey(rows) ==> SortedByKey(r)
    ensures |r| <= |rows|
  {
    if rows == [] then []
    else
      var rest := Filter(rows[1..], keep);
      if keep(rows[0]) then
        assert SortedByKey(rows) ==> forall u :: u in rest ==> KeyLess(UserKey(rows[0]), UserKey(u)) by {
          if SortedByKey(rows) {
            forall u | u in rest ensures KeyLess(UserKey(rows[0]), UserKey(u)) {
              var j :| 0 <= j < |rows[1..]| && rows[1..][j] == u;
              assert rows[j + 1] == u;
            }
          }
        }
        [rows[0]] + rest
      else rest
  }

  /** What GetUserByEmailAsync looks for: the e-mail, and the tenant when one is given. */
  predicate WantedUser(u: UserEntity, email: string, tenantId: string)
  {
    u.email == email && (tenantId != "" ==> u.rowKey == tenantId)
  }

  /**
   * GetUserByEmailAsync. `tenantId` is "" when the caller passed null or an
   * empty string; `scan` is the table's enumeration; `failed` says whether the
   * query threw. The answer is the matching user with the least key, that is
   * the first one enumerated, or null.
   */
  function GetUserByEmail(s: StoreState, email: string, tenantId: string, scan: seq<UserEntity>, failed: bool)
    : (r: Option<UserEntity>)
    requires WellKeyed(s) && IsUserScan(scan, s.users)
    ensures failed ==> r.None?
    ensures !failed ==> (r.Some? <==> exists k :: k in s.users && WantedUser(s.users[k], email, tenantId))
    ensures r.Some? ==> Stored(s.users, r.value) && WantedUser(r.value, email, tenantId)
    ensures r.Some? ==> forall k :: k in s.users && k != UserKey(r.value) && WantedUser(s.users[k], email, tenantId)
                                    ==> KeyLess(UserKey(r.value), k)
  {
    if failed then None
    else
      // The query result is drained by ToList, which returns the enumeration unchanged.
      var byEmail := Filter(scan, (u: UserEntity) => u.email == email);
      var hits := if tenantId != "" then Filter(byEmail, (u: UserEntity) => u.rowKey == tenantId) else byEmail;
      assert forall u :: u in hits <==> u in scan && WantedUser(u, email, tenantId);
      if hits == [] then
        assert forall k :: k in s.users ==> !WantedUser(s.users[k], email, tenantId);
        None
      else
        assert Stored(s.users, hits[0]);
        assert forall k :: k in s.users && k != UserKey(hits[0]) && WantedUser(s.users[k], email, tenantId)
                           ==> KeyLess(UserKey(hits[0]), k) by {
          forall k | k in s.users && k != UserKey(hits[0]) && WantedUser(s.users[k], email, tenantId)
            ensures KeyLess(UserKey(hits[0]), k)
          {
            var j :| 0 <= j < |hits| && hits[j] == s.users[k];
            assert j != 0;
          }
        }
        Some(hits[0])
  }

  /**
   * GetUsersByTenantAsync: exactly the users whose RowKey is `tenantId`, in key
   * order; the empty sequence when the query threw.
   */
  function GetUsersByTenant(s: StoreState, tenantId: string, scan: seq<UserEntity>, failed: bool)
    : (r: seq<UserEntity>)
    requires WellKeyed(s) && IsUserScan(scan, s.users)
    ensures failed ==> r == []
    ensures !failed ==> forall u :: u in r <==> Stored(s.users, u) && u.rowKey == tenantId
    ensures SortedByKey(r)
  {
    // The query result is drained by ToList, which returns the enumeration unchanged.
    if failed then [] else Filter(scan, (u: UserEntity) => u.rowKey == tenantId)
  }

  /**
   * ToListAsync: drains an enumeration into a fresh list. The enumeration is
   * modelled by the finite sequence it yields.
   */
  method ToList<T>(items: seq<T>) returns (results: seq<T>)
    ensures results == items
  {
    results := [];
    var i := 0;
    while i < |items|
      invariant 0 <= i <= |items|
      invariant results == items[..i]
    {
      results := results + [items[i]];
      i := i + 1;
    }
  }

  // ---------------------------------------------------------------------------
  // The service object

  /**
   * TableStorageService: the three tables as maps the upserts reassign in
   * place. `fault` parameters stand for the exception the table service may
   * throw; a failed call leaves its table as it was and rethrows.
   */
  class TableStorageService {
    var tables: set<string>
    var tenants: Table<TenantEntity>
    var users: Table<UserEntity>
    var tenantUsers: Table<TenantUserEntity>

    /** The current contents of the service as a value. */
    function State(): StoreState
      reads this
    {
      StoreState(tables, tenants, users, tenantUsers)
    }

    ghost predicate Valid()
      reads this
    {
      WellKeyed(State())
    }

    /** Connects to a storage account whose contents are `initial`. */
    constructor (initial: StoreState)
      requires WellKeyed(initial)
      ensures Valid() && State() == initial
    {
      tables := initial.tables;
      tenants := initial.tenants;
      users := initial.users;
      tenantUsers := initial.tenantUsers;
    }

    /**
     * EnsureTablesExistAsync: create-if-absent for Tenants, Users and
     * TenantUsers in that order; a throwing call stops the sequence and is
     * rethrown.
     */
    method EnsureTablesExist(fault: TableFault) returns (o: Outcome)
      requires Valid()
      modifies this
      ensures Valid()
      ensures State() == AfterEnsureTables(old(State()), fault)
      ensures o.Pass? <==> fault.NoTableFault?
      ensures o.Fail? ==> o.message == fault.message
    {
      var n := TablesCreated(fault);
      CreatedTablesInOrder();
      if n == 0 {
        return Fail(fault.message);
      }
      tables := tables + {TenantsTable};
      if n == 1 {
        return Fail(fault.message);
      }
      tables := tables + {UsersTable};
      if n == 2 {
        return Fail(fault.message);
      }
      tables := tables + {TenantUsersTable};
      o := Pass;
    }

    /** UpsertTenantAsync: writes `t` at its key; a store failure is rethrown and writes nothing. */
    method UpsertTenant(t: TenantEntity, fault: Option<string>) returns (o: Outcome)
      requires Valid()
      modifies this
      ensures Valid()
      ensures o == OutcomeOf(fault)
      ensures State() == if fault.None? then WithTenant(old(State()), t) else old(State())
    {
      if fault.Some? {
        return Fail(fault.value);
      }
      tenants := tenants[TenantKey(t) := t];
      o := Pass;
    }

    /** UpsertUserAsync: writes `u` at its key; a store failure is rethrown and writes nothing. */
    method UpsertUser(u: UserEntity, fault: Option<string>) returns (o: Outcome)
      requires Valid()
      modifies this
      ensures Valid()
      ensures o == OutcomeOf(fault)
      ensures State() == if fault.None? then WithUser(old(State()), u) else old(State())
    {
      if fault.Some? {
        return Fail(fault.value);
      }
      users := users[UserKey(u) := u];
      o := Pass;
    }

    /** UpsertTenantUserAsync: writes `m` at its key; a store failure is rethrown and writes nothing. */
    method UpsertTenantUser(m: TenantUserEntity, fault: Option<string>) returns (o: Outcome)
      requires Valid()
      modifies this
      ensures Valid()
      ensures o == OutcomeOf(fault)
      ensures State() == if fault.None? then WithTenantUser(old(State()), m) else old(State())
    {
      if fault.Some? {
        return Fail(fault.value);
      }
      tenantUsers := tenantUsers[TenantUserKey(m) := m];
      o := Pass;
    }
  }
}
