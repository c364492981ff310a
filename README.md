# Super-admin provisioning and login, modelled in Dafny

This project models the core of an Azure Functions application that
bootstraps a privileged "super administrator" across two systems: an external
identity provider (Auth0), which holds accounts and roles, and a tenant store
(Azure Table Storage), which holds tenant, user and membership records. A
login endpoint sits beside it and exchanges credentials for an access token.

The model has six modules, one per source file plus a shared one:

- `Wrappers`: `Option`, `Result` and `Outcome` stand for C# null and thrown exceptions.
- `TableEntities` (`Core/Models/TableEntities.cs`): the three records as datatypes. Each is addressed by its
  (PartitionKey, RowKey) pair. `NewTenant`, `NewUser` and `NewTenantUser` give the property defaults.
- `TableStorage` (`Core/Services/TableStorageService.cs`):
  - The class `TableStorageService` holds the tables as a set of names and three maps from `Key` to record.
  - Its create-if-absent and upsert methods reassign those maps.
  - Each method is specified by a function on the `StoreState` value (`AfterEnsureTables`, `WithTenant`, `WithUser`,
    `WithTenantUser`).
  - The reads (`GetTenant`, `GetTenantUser`, `GetUserByEmail`, `GetUsersByTenant`) are functions over that value.
  - `ToList` is the list-building loop.
- `SuperAdminSetup` (`Administration/SuperAdminSetupFunction.cs`):
  - `Setup` is the whole bootstrap as a function of the store, the request body, the provider's answers and
    the injected store faults.
  - `Run` is the imperative handler. It drives a `TableStorageService` step by step, and its contract ties it
    to `Setup`. Since `Setup` takes no role input, that contract also says the role step cannot abort the run:
    the store and the answer are the same whatever the role catalogue and the assignment fault are.
  - Lemmas about `Setup` state the guarantees:
    - no record is written when a fatal step fails;
    - upserts happen in order and a failed one skips the rest;
    - only the sentinel keys are touched;
    - a rerun with the same provider id is idempotent;
    - a retry converges.
- `AuthService` (`Core/Services/AuthService.cs`): the password-grant request of section 4.3 of RFC 6749 and
  how the provider's reply becomes a token or null.
- `AuthFunction` (`Authentication/AuthFunction.cs`): the 200/401 decision and the echoed token.

External behaviour enters the model as parameters:

- `ProviderScript.createAccount`: the provider's answer (`CreateOutcome`) to an account-creation request. It is an
  id, an empty id or an exception.
- `RoleLookup`: the role catalogue, or the exception raised while fetching it.
- `Option<string>`: the assignment fault.
- `TableFault`: the table-creation fault.
- `StoreFaults`: one fault per upsert.
- The users-table enumeration `scan`.
- `provider`: a function from token request to reply.
- `now`: the clock.

Three behaviours of the code are easy to misread; the model follows the code:

- A request body of `{}` deserialises to a request whose properties are null. Only a body that deserialises
  to null (an empty body or `null`) gets the fallback identity (`ResolveRequest`).
- Every run overwrites `CreatedAt` with the current instant; it is not preserved (`RerunOverwritesCreatedAt`).
- The login endpoint returns whatever `access_token` holds, the empty string included; a non-empty token is
  not enforced.

## Model

| member | source | states |
|---|---|---|
| `TableEntities.NewTenant` | superUserLogin/AzureFunctionsProject/Core/Models/TableEntities.cs:9-31 | a fresh tenant has every non-nullable timestamp set to the creation instant and no DeletedAt |
| `TableEntities.NewUser` | superUserLogin/AzureFunctionsProject/Core/Models/TableEntities.cs:33-56 | a fresh user has EmailVerified false, LastLogin/CreatedAt/UpdatedAt at the creation instant, no PasswordResetExpiration and no stored password |
| `TableEntities.NewTenantUser` | superUserLogin/AzureFunctionsProject/Core/Models/TableEntities.cs:58-67 | a fresh membership has both timestamps at the creation instant and no role |
| `TableStorage.OneRecordPerIdentity` | superUserLogin/AzureFunctionsProject/Core/Models/TableEntities.cs:11-61 | in a well-keyed store, a tenant's (tenant id, tenant name), a user's (user id, tenant id) and a membership's (tenant id, user id) identify at most one record |
| `TableStorage.Put` | superUserLogin/AzureFunctionsProject/Core/Services/TableStorageService.cs:113-153 | a keyed upsert puts the record at its key, adds at most that key and leaves every other key's record unchanged |
| `TableStorage.PutIdempotent` | superUserLogin/AzureFunctionsProject/Core/Services/TableStorageService.cs:118 | upserting the same record twice gives the same table as upserting it once |
| `TableStorage.PutOverwrites` | superUserLogin/AzureFunctionsProject/Core/Services/TableStorageService.cs:113-153 | a later upsert at a key replaces the earlier record; a key never holds two records |
| `TableStorage.PutCommutes` | superUserLogin/AzureFunctionsProject/Core/Services/TableStorageService.cs:113-153 | upserts at different keys do not interfere |
| `TableStorage.PutHidesDifferenceAt` | superUserLogin/AzureFunctionsProject/Core/Services/TableStorageService.cs:113-153 | two tables that differ only at one key become equal once that key is upserted |
| `TableStorage.WithTenant` | superUserLogin/AzureFunctionsProject/Core/Services/TableStorageService.cs:113-125 | a tenant upsert changes only the Tenants table, only at the tenant's key, and keeps every record at its own key |
| `TableStorage.WithUser` | superUserLogin/AzureFunctionsProject/Core/Services/TableStorageService.cs:127-139 | a user upsert changes only the Users table, only at the user's key, and keeps every record at its own key |
| `TableStorage.WithTenantUser` | superUserLogin/AzureFunctionsProject/Core/Services/TableStorageService.cs:141-153 | a membership upsert changes only the TenantUsers table, only at its key, and keeps every record at its own key |
| `TableStorage.CreatedTables` | superUserLogin/AzureFunctionsProject/Core/Services/TableStorageService.cs:30-32 | the first n create calls leave exactly the first n table names present |
| `TableStorage.CreatedTablesInOrder` | superUserLogin/AzureFunctionsProject/Core/Services/TableStorageService.cs:30-32 | the tables are created in the order Tenants, Users, TenantUsers |
| `TableStorage.AfterEnsureTables` | superUserLogin/AzureFunctionsProject/Core/Services/TableStorageService.cs:26-40 | ensuring the tables only adds table names; without a fault all three are added; when the call for table i throws, exactly the names before i are added; no record changes |
| `TableStorage.EnsureTablesPresent` | superUserLogin/AzureFunctionsProject/Core/Services/TableStorageService.cs:26-33 | without a fault, Tenants, Users and TenantUsers are present afterwards and nothing else is added |
| `TableStorage.EnsureTablesIdempotent` | superUserLogin/AzureFunctionsProject/Core/Services/TableStorageService.cs:26-40 | once the three tables exist, ensuring them again changes nothing |
| `TableStorage.TableStorageService.constructor` | superUserLogin/AzureFunctionsProject/Core/Services/TableStorageService.cs:19-24 | the service starts from the storage account's current contents |
| `TableStorage.TableStorageService.EnsureTablesExist` | superUserLogin/AzureFunctionsProject/Core/Services/TableStorageService.cs:26-40 | creates the missing tables in order; a throwing call stops the rest and is rethrown with its message |
| `TableStorage.TableStorageService.UpsertTenant` | superUserLogin/AzureFunctionsProject/Core/Services/TableStorageService.cs:113-125 | writes the tenant at its key and nothing else; a store failure writes nothing and is rethrown |
| `TableStorage.TableStorageService.UpsertUser` | superUserLogin/AzureFunctionsProject/Core/Services/TableStorageService.cs:127-139 | writes the user at its key and nothing else; a store failure writes nothing and is rethrown |
| `TableStorage.TableStorageService.UpsertTenantUser` | superUserLogin/AzureFunctionsProject/Core/Services/TableStorageService.cs:141-153 | writes the membership at its key and nothing else; a store failure writes nothing and is rethrown |
| `TableStorage.GetTenant` | superUserLogin/AzureFunctionsProject/Core/Services/TableStorageService.cs:42-54 | returns the tenant at exactly (tenantId, tenantName), or null when the key is absent or the read fails |
| `TableStorage.GetTenantUser` | superUserLogin/AzureFunctionsProject/Core/Services/TableStorageService.cs:99-111 | returns the membership at exactly (tenantId, userId), or null when the key is absent or the read fails |
| `TableStorage.GetTenantAfterUpsert` | superUserLogin/AzureFunctionsProject/Core/Services/TableStorageService.cs:42-54 | a tenant read straight after its upsert returns that tenant |
| `TableStorage.GetTenantUserAfterUpsert` | superUserLogin/AzureFunctionsProject/Core/Services/TableStorageService.cs:99-111 | a membership read straight after its upsert returns that membership |
| `TableStorage.Filter` | superUserLogin/AzureFunctionsProject/Core/Services/TableStorageService.cs:63-68 | a query filter keeps exactly the rows satisfying it and preserves the enumeration's key order |
| `TableStorage.GetUserByEmail` | superUserLogin/AzureFunctionsProject/Core/Services/TableStorageService.cs:56-82 | returns a stored user with that e-mail (and that RowKey when tenantId is non-empty) exactly when one exists: the one with the least key, which is the first enumerated. It returns null when no user matches or the query fails |
| `TableStorage.GetUsersByTenant` | superUserLogin/AzureFunctionsProject/Core/Services/TableStorageService.cs:84-97 | returns exactly the stored users whose RowKey is the tenant id, in key order, or nothing when the query fails |
| `TableStorage.ToList` | superUserLogin/AzureFunctionsProject/Core/Services/TableStorageService.cs:159-167 | the list holds every enumerated item exactly once, in enumeration order |
| `SuperAdminSetup.ResolveRequest` | superUserLogin/AzureFunctionsProject/Administration/SuperAdminSetupFunction.cs:66-74 | a null body gets superadmin@yourdomain.com / ChangeMe123! / Super / Admin / superadmin; a request object is used as sent; a parse error throws |
| `SuperAdminSetup.NewAccountRequest` | superUserLogin/AzureFunctionsProject/Administration/SuperAdminSetupFunction.cs:176-185 | the account request carries the e-mail and password verbatim, as verified, in the database connection, tagged SUPER_ADMIN |
| `SuperAdminSetup.ProviderUserId` | superUserLogin/AzureFunctionsProject/Administration/SuperAdminSetupFunction.cs:77-81 | the run continues exactly when the provider returns a non-empty id; an empty id throws "Failed to create SuperAdmin in Auth0.", a provider exception is passed on |
| `SuperAdminSetup.FirstRoleNamed` | superUserLogin/AzureFunctionsProject/Administration/SuperAdminSetupFunction.cs:212-213 | finds the first role with the given name, or none exactly when no role has that name |
| `SuperAdminSetup.AssignRoleToUser` | superUserLogin/AzureFunctionsProject/Administration/SuperAdminSetupFunction.cs:198-232 | assigns to the new user the first listed role named SUPER_ADMIN. There is no call when none exists or the lookup fails, and every failure is absorbed |
| `SuperAdminSetup.SuperAdminTenant` | superUserLogin/AzureFunctionsProject/Administration/SuperAdminSetupFunction.cs:89-103 | the system tenant is keyed (SUPER_ADMIN, SuperAdmin), Active, SystemTenant, subdomain admin, marked as the system tenant in its config, contact from the request; created, updated and subscribed at the run's instant, with the subscription ending ten years later and no DeletedAt |
| `SuperAdminSetup.SuperAdminUser` | superUserLogin/AzureFunctionsProject/Administration/SuperAdminSetupFunction.cs:110-123 | the user is keyed (provider id, SUPER_ADMIN), role SUPER_ADMIN, Active, e-mail verified, names from the request, no password stored; created, updated and last logged in at the run's instant |
| `SuperAdminSetup.SuperAdminMembership` | superUserLogin/AzureFunctionsProject/Administration/SuperAdminSetupFunction.cs:130-137 | the membership is keyed (SUPER_ADMIN, provider id) with role SUPER_ADMIN, created and updated at the run's instant |
| `SuperAdminSetup.Failed` | superUserLogin/AzureFunctionsProject/Administration/SuperAdminSetupFunction.cs:153-159 | every caught exception answers 500 with "Error: " followed by its message |
| `SuperAdminSetup.WriteRecords` | superUserLogin/AzureFunctionsProject/Administration/SuperAdminSetupFunction.cs:105-150 | the run answers 200 with SUPER_ADMIN, the id and the username exactly when all three upserts succeed; only the three sentinel keys can gain records |
| `SuperAdminSetup.Setup` | superUserLogin/AzureFunctionsProject/Administration/SuperAdminSetupFunction.cs:60-160 | a successful run got past every fatal step and answers tenant SUPER_ADMIN, the provider id and the request's username; records stay at their own keys |
| `SuperAdminSetup.FatalFailureWritesNoRecords` | superUserLogin/AzureFunctionsProject/Administration/SuperAdminSetupFunction.cs:62-81 | if table creation, parsing or account creation fails, no tenant, user or membership is written and the answer is 500 with "Error: " followed by the message of the failing step: the table exception, the parse error, or the provider's exception |
| `SuperAdminSetup.EmptyProviderIdIsFatal` | superUserLogin/AzureFunctionsProject/Administration/SuperAdminSetupFunction.cs:77-81 | an empty provider id aborts with "Error: Failed to create SuperAdmin in Auth0." |
| `SuperAdminSetup.SuccessfulSetupWritesThreeRecords` | superUserLogin/AzureFunctionsProject/Administration/SuperAdminSetupFunction.cs:88-150 | a fault-free run adds the three tables, writes exactly the tenant, user and membership at their sentinel keys and answers 200 |
| `SuperAdminSetup.SetupWritesOnlySentinelKeys` | superUserLogin/AzureFunctionsProject/Administration/SuperAdminSetupFunction.cs:60-160 | whatever fails, a run touches no record except the sentinel tenant and the user and membership derived from its provider id |
| `SuperAdminSetup.WriteRecordsOnlySentinelKeys` | superUserLogin/AzureFunctionsProject/Administration/SuperAdminSetupFunction.cs:105-139 | the three upserts touch only their own keys |
| `SuperAdminSetup.UpsertFailureKeepsEarlierWrites` | superUserLogin/AzureFunctionsProject/Administration/SuperAdminSetupFunction.cs:105-159 | upserts run tenant, user, membership. A failing one leaves the earlier writes in place, skips the later ones and answers 500 with its message |
| `SuperAdminSetup.MembershipReferencesWrittenRecords` | superUserLogin/AzureFunctionsProject/Administration/SuperAdminSetupFunction.cs:130-139 | after a successful run, the membership's tenant and user records both exist |
| `SuperAdminSetup.ProvisionedTwice` | superUserLogin/AzureFunctionsProject/Administration/SuperAdminSetupFunction.cs:89-139 | writing the provisioned records again adds no key, and at the same instant changes nothing |
| `SuperAdminSetup.RerunWithSameIdIsIdempotent` | superUserLogin/AzureFunctionsProject/Administration/SuperAdminSetupFunction.cs:60-150 | rerunning a successful setup with the same provider id adds no tenant, user or membership key; at the same instant it leaves the store unchanged |
| `SuperAdminSetup.RetryConverges` | superUserLogin/AzureFunctionsProject/Administration/SuperAdminSetupFunction.cs:60-160 | after an attempt that failed before getting an id, or got the same id, a successful retry leaves the store as a single successful run would |
| `SuperAdminSetup.RerunOverwritesCreatedAt` | superUserLogin/AzureFunctionsProject/Administration/SuperAdminSetupFunction.cs:99-136 | a rerun stamps every record it writes with the rerun's instant; CreatedAt is not preserved |
| `SuperAdminSetup.Run` | superUserLogin/AzureFunctionsProject/Administration/SuperAdminSetupFunction.cs:54-160 | the handler leaves the store and answers exactly as `Setup` says, given the provider's answer to the request it sends. It sends the account request exactly when the tables exist and the body resolves, and that request is the one built from the body. It performs the role step exactly when the fatal steps pass, for the id returned for that request. The role step's outcome affects neither the store nor the answer |
| `AuthService.PasswordGrantRequest` | superUserLogin/AzureFunctionsProject/Core/Services/AuthService.cs:34-46 | the credentials are forwarded verbatim as username/password with grant_type password, scope "openid profile email", audience https://{domain}/api/v2/ and endpoint https://{domain}/oauth/token |
| `AuthService.Authenticate` | superUserLogin/AzureFunctionsProject/Core/Services/AuthService.cs:24-63 | a token is returned exactly when the provider answers 2xx with an access_token, and it is that token; otherwise null |
| `AuthService.FailuresLookAlike` | superUserLogin/AzureFunctionsProject/Core/Services/AuthService.cs:48-62 | rejection, an exception and an unusable body all give the same null |
| `AuthService.OnlyTheReplyMatters` | superUserLogin/AzureFunctionsProject/Core/Services/AuthService.cs:45-56 | the outcome depends only on the provider's reply to the request built from the credentials; the service keeps no state |
| `AuthFunction.Run` | superUserLogin/AzureFunctionsProject/Authentication/AuthFunction.cs:28-33 | a parsed body answers 200 exactly when the token is non-null and 401 exactly when it is null, echoing the token that AuthenticateAsync returned for the request's e-mail and password |
| `AuthFunction.LoginEndToEnd` | superUserLogin/AzureFunctionsProject/Authentication/AuthFunction.cs:30-33 | wired to the real service, the endpoint answers 200 with the provider's token exactly when the provider grants one, and 401 otherwise |

## Left out

- Auth0 SDK calls are foreign code. This covers the client-credentials token fetch (section 4.4 of RFC 6749), `Users.CreateAsync`, `Roles.GetAllAsync` and `AssignRolesAsync`. They are abstract outcomes: a failing token fetch appears as a `CreateThrew` or a `LookupThrew`. Whether the provider rejects a duplicate e-mail is the provider's business.
- The Azure `TableServiceClient` is not modelled; tables are maps with keyed writes. A whole record replaces the old one at its key: the SDK's merge-versus-replace mode is not visible in this code, and field-level merge is not modelled. The store-managed `Timestamp` and `ETag` properties are left out.
- Query order: queries are assumed to enumerate rows in ascending (PartitionKey, RowKey) order, compared by ordinal lexicographic order (`IsUserScan`). The service's paging is not modelled.
- HTTP request reading, JSON (de)serialisation and response writing are I/O. The model keeps the status, the message and the payload values, but not the JSON text. The `ConfigSettings` blob is kept as its serialised string.
- `DateTime.UtcNow` is one abstract instant per run. The source reads the clock separately for each stamp, so real stamps may differ by a few ticks. `AddYears(10)` is the fixed positive constant `TenYears`, not calendar arithmetic. Its overflow near year 9999 is not modelled.
- C# null strings are modelled as the empty string. `string.IsNullOrEmpty` treats them alike, and so does string interpolation, which prints null as nothing.
- Logging (`ILoggingService`) is left out, and so are the logged messages.
- Concurrent invocations are out of scope; nothing in the code excludes them.
- The login handler has no catch. When a body deserialises to null or fails to parse, it throws, and the response comes from the hosting runtime. That response is `Unhandled` in the model.
- `SuperAdminSetupRequest.CreatedAt` and `UpdatedAt` are never read. They are not modelled.
- Program.cs (dependency wiring), LoggingService.cs, SampleFunction.cs, LoginRequest.cs and the interfaces are not part of this model: they hold no behaviour beyond what is mirrored here.
