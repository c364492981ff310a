/**
 * The three records held by the tenant store. Every record is addressed by the
 * pair (PartitionKey, RowKey) of the table service; the meaning of each half
 * differs per record type.
 */
module TableEntities {
  import opened Wrappers

  /** An abstract UTC instant; the model never looks at the calendar. */
  type Instant = int

  /** The (PartitionKey, RowKey) address of a record in its table. */
  datatype Key = Key(partition: string, row: string)

  /**
   * A tenant. partitionKey is the tenant id, rowKey the tenant name.
   * String properties that are never set hold "" (C# null).
   */
  datatype TenantEntity = TenantEntity(
    partitionKey: string,
    rowKey: string,
    subdomain: string,
    primaryContactName: string,
    contactEmail: string,
    contactPhoneNumber: string,
    addressDetails: string,
    planOrTier: string,
    subscriptionStartDate: Instant,
    subscriptionEndDate: Instant,
    status: string,
    billingInformation: string,
    configSettings: string,
    dbConnectionString: string,
    storageContainerUrl: string,
    createdAt: Instant,
    updatedAt: Instant,
    deletedAt: Option<Instant>)

  /** A user. partitionKey is the user id, rowKey the id of the tenant the user belongs to. */
  datatype UserEntity = UserEntity(
    partitionKey: string,
    rowKey: string,
    username: string,
    email: string,
    password: string,
    firstName: string,
    lastName: string,
    phoneNumber: string,
    whatsAppNumber: string,
    roleOrPermissions: string,
    status: string,
    emailVerified: bool,
    lastLogin: Instant,
    passwordResetToken: string,
    passwordResetExpiration: Option<Instant>,
    profilePictureUrl: string,
    locale: string,
    createdAt: Instant,
    updatedAt: Instant)

  /** A membership of a user in a tenant. partitionKey is the tenant id, rowKey the user id. */
  datatype TenantUserEntity = TenantUserEntity(
    partitionKey: string,
    rowKey: string,
    role: string,
    createdAt: Instant,
    updatedAt: Instant)

  /** A tenant is identified by (tenant id, tenant name). */
  function TenantKey(t: TenantEntity): Key
  {
    Key(t.partitionKey, t.rowKey)
  }

  /** A user is identified by (user id, tenant id). */
  function UserKey(u: UserEntity): Key
  {
    Key(u.partitionKey, u.rowKey)
  }

  /** A membership is identified by (tenant id, user id). */
  function TenantUserKey(m: TenantUserEntity): Key
  {
    Key(m.partitionKey, m.rowKey)
  }

  /**
   * `new TenantEntity()` at instant `now`: every non-nullable timestamp is
   * initialised to the current instant, the soft-delete stamp is absent and
   * every string is unset.
   */
  function NewTenant(now: Instant): (t: TenantEntity)
    ensures t.subscriptionStartDate == now && t.subscriptionEndDate == now
    ensures t.createdAt == now && t.updatedAt == now
    ensures t.deletedAt.None?
    ensures TenantKey(t) == Key("", "")
  {
    TenantEntity("", "", "", "", "", "", "", "", now, now, "", "", "", "", "", now, now, None)
  }

  /**
   * `new UserEntity()` at instant `now`: lastLogin, createdAt and updatedAt
   * hold the current instant, the reset expiry is absent and the e-mail is
   * not verified.
   */
  function NewUser(now: Instant): (u: UserEntity)
    ensures !u.emailVerified
    ensures u.lastLogin == now && u.createdAt == now && u.updatedAt == now
    ensures u.passwordResetExpiration.None?
    ensures u.password == "" && u.passwordResetToken == ""
  {
    UserEntity("", "", "", "", "", "", "", "", "", "", "", false, now, "", None, "", "", now, now)
  }

  /** `new TenantUserEntity()` at instant `now`. */
  function NewTenantUser(now: Instant): (m: TenantUserEntity)
    ensures m.createdAt == now && m.updatedAt == now
    ensures m.role == ""
  {
    TenantUserEntity("", "", "", now, now)
  }
}
