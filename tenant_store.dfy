/** What each operation of data/service/TenantDataService.go does to the
    Cassandra keyspace, stated as pure functions over the two tables.

    Every operation opens a session. Create performs one upsert with no
    probe; Update and Delete probe the tenant and then perform one upsert or
    one delete; the reads perform a SELECT and write nothing. The application
    operations probe the tenant first as well. A probe is a SELECT whose
    iterator yields no row when the query fails, so a failing session looks
    to the probes exactly like a missing row. */
module TenantStore {
  import opened System
  import opened DataContract

  /** Primary key of the application table: tenant_id is the partition key,
      application_id the clustering key. */
  datatype AppKey = AppKey(tenantID: UUID, applicationID: UUID)

  /** The keyspace: the tenant table (tenant_id -> secret_key) and the
      application table ((tenant_id, application_id) -> name). */
  datatype Keyspace = Keyspace(tenants: map<UUID, string>, applications: map<AppKey, string>)

  /** What the UUID generator answers on this call. */
  datatype Generated = Generated(id: UUID) | GenerationFailed(reason: string)

  /** How an opened session behaves: every query succeeds, or every query errors. */
  datatype Session = Working | Failing(reason: string)

  /** What `ClusterConfig.CreateSession()` yields on this call. */
  datatype Cluster = Unreachable(reason: string) | Connected(session: Session)

  /** Replies: the keyspace afterwards (for writes) and the Go return values. */
  datatype IdReply = IdReply(keyspace: Keyspace, id: UUID, err: Option<Error>)
  datatype Reply = Reply(keyspace: Keyspace, err: Option<Error>)
  datatype TenantReply = TenantReply(tenant: Tenant, err: Option<Error>)
  datatype ApplicationReply = ApplicationReply(application: Application, err: Option<Error>)
  datatype ApplicationsReply = ApplicationsReply(applications: map<UUID, Application>, err: Option<Error>)

  // ---------------------------------------------------------------------
  // Row-level helpers: one query each, on an open session.
  // ---------------------------------------------------------------------

  /** doesTenantExist: the SELECT finds a row. A failing query yields no row,
      so a failing session finds no tenant. */
  predicate TenantExists(k: Keyspace, tenantID: UUID, session: Session)
  {
    session.Working? && tenantID in k.tenants
  }

  /** doesApplicationExist: the SELECT on the composite key finds a row. */
  predicate ApplicationExists(k: Keyspace, tenantID: UUID, applicationID: UUID, session: Session)
  {
    session.Working? && AppKey(tenantID, applicationID) in k.applications
  }

  /** addNewTenant: INSERT INTO tenant, an upsert keyed by tenant_id. */
  function AddNewTenant(k: Keyspace, tenantID: UUID, tenant: Tenant, session: Session): (r: Reply)
    ensures r.err.None? <==> session.Working?
    ensures r.err.Some? ==> r.keyspace == k && r.err == Some(StorageFailed(session.reason))
    ensures r.err.None? ==> && tenantID in r.keyspace.tenants
                            && r.keyspace.tenants[tenantID] == tenant.secretKey
                            && r.keyspace.tenants - {tenantID} == k.tenants - {tenantID}
                            && r.keyspace.applications == k.applications
  {
    match session
    case Working => Reply(k.(tenants := k.tenants[tenantID := tenant.secretKey]), None)
    case Failing(reason) => Reply(k, Some(StorageFailed(reason)))
  }

  /** readTenant: the SELECT yields the secret key, or the not-found error with
      the zero Tenant. */
  function ReadTenantRow(k: Keyspace, tenantID: UUID, session: Session): (r: TenantReply)
    ensures r.err.None? <==> TenantExists(k, tenantID, session)
    ensures r.err.None? ==> r.tenant == Tenant(k.tenants[tenantID])
    ensures r.err.Some? ==> r == TenantReply(EmptyTenant, Some(TenantNotFound(tenantID)))
  {
    if TenantExists(k, tenantID, session) then TenantReply(Tenant(k.tenants[tenantID]), None)
    else TenantReply(EmptyTenant, Some(TenantNotFound(tenantID)))
  }

  /** DELETE FROM tenant WHERE tenant_id = ?. */
  function DeleteTenantRow(k: Keyspace, tenantID: UUID, session: Session): (r: Reply)
    ensures r.err.None? <==> session.Working?
    ensures r.err.Some? ==> r.keyspace == k
    ensures r.err.None? ==> && tenantID !in r.keyspace.tenants
                            && r.keyspace.tenants.Keys == k.tenants.Keys - {tenantID}
                            && (forall t :: t in r.keyspace.tenants ==> r.keyspace.tenants[t] == k.tenants[t])
                            && r.keyspace.applications == k.applications
  {
    match session
    case Working => Reply(k.(tenants := k.tenants - {tenantID}), None)
    case Failing(reason) => Reply(k, Some(StorageFailed(reason)))
  }

  /** INSERT INTO application, an upsert keyed by (tenant_id, application_id). */
  function AddNewApplication(k: Keyspace, key: AppKey, application: Application, session: Session): (r: Reply)
    ensures r.err.None? <==> session.Working?
    ensures r.err.Some? ==> r.keyspace == k
    ensures r.err.None? ==> && key in r.keyspace.applications
                            && r.keyspace.applications[key] == application.name
                            && r.keyspace.applications - {key} == k.applications - {key}
                            && r.keyspace.tenants == k.tenants
  {
    match session
    case Working => Reply(k.(applications := k.applications[key := application.name]), None)
    case Failing(reason) => Reply(k, Some(StorageFailed(reason)))
  }

  /** SELECT name FROM application WHERE tenant_id = ? AND application_id = ?. */
  function ReadApplicationRow(k: Keyspace, tenantID: UUID, applicationID: UUID, session: Session): (r: ApplicationReply)
    ensures r.err.None? <==> ApplicationExists(k, tenantID, applicationID, session)
    ensures r.err.None? ==> r.application == Application(k.applications[AppKey(tenantID, applicationID)])
    ensures r.err.Some? ==> r == ApplicationReply(EmptyApplication, Some(ApplicationNotFound(tenantID, applicationID)))
  {
    if ApplicationExists(k, tenantID, applicationID, session) then
      ApplicationReply(Application(k.applications[AppKey(tenantID, applicationID)]), None)
    else
      ApplicationReply(EmptyApplication, Some(ApplicationNotFound(tenantID, applicationID)))
  }

  /** DELETE FROM application WHERE tenant_id = ? AND application_id = ?. */
  function DeleteApplicationRow(k: Keyspace, key: AppKey, session: Session): (r: Reply)
    ensures r.err.None? <==> session.Working?
    ensures r.err.Some? ==> r.keyspace == k
    ensures r.err.None? ==> && key !in r.keyspace.applications
                            && r.keyspace.applications.Keys == k.applications.Keys - {key}
                            && (forall a :: a in r.keyspace.applications ==> r.keyspace.applications[a] == k.applications[a])
                            && r.keyspace.tenants == k.tenants
  {
    match session
    case Working => Reply(k.(applications := k.applications - {key}), None)
    case Failing(reason) => Reply(k, Some(StorageFailed(reason)))
  }

  /** The partition scan: every application of one tenant, by application id. */
  function ApplicationsOf(k: Keyspace, tenantID: UUID): (m: map<UUID, Application>)
    ensures forall aid :: aid in m <==> AppKey(tenantID, aid) in k.applications
    ensures forall aid :: aid in m ==> m[aid].name == k.applications[AppKey(tenantID, aid)]
  {
    var ids := set key | key in k.applications && key.tenantID == tenantID :: key.applicationID;
    map aid | aid in ids :: Application(k.applications[AppKey(tenantID, aid)])
  }

  // ---------------------------------------------------------------------
  // Tenant operations.
  // ---------------------------------------------------------------------

  /** Create: generate the id first, then open a session and upsert. A
      generator failure or an unreachable cluster returns EmptyUUID and writes
      nothing; once the session is open the generated id is returned, even
      alongside the error of a failing INSERT. */
  function CreateTenant(k: Keyspace, tenant: Tenant, generated: Generated, cluster: Cluster): (r: IdReply)
    ensures generated.GenerationFailed? ==> r == IdReply(k, EmptyUUID, Some(GeneratorFailed(generated.reason)))
    ensures generated.Generated? && cluster.Unreachable? ==> r == IdReply(k, EmptyUUID, Some(StorageFailed(cluster.reason)))
    ensures generated.Generated? && cluster.Connected? ==> r.id == generated.id
    ensures generated.Generated? && cluster.Connected? && cluster.session.Failing? ==>
              r == IdReply(k, generated.id, Some(StorageFailed(cluster.session.reason)))
    ensures r.err.None? <==> generated.Generated? && cluster == Connected(Working)
    ensures r.err.Some? ==> r.keyspace == k
    ensures r.err.None? ==> && r.id == generated.id
                            && r.id in r.keyspace.tenants
                            && r.keyspace.tenants[r.id] == tenant.secretKey
                            && r.keyspace.tenants - {r.id} == k.tenants - {r.id}
                            && r.keyspace.applications == k.applications
  {
    match generated
    case GenerationFailed(reason) => IdReply(k, EmptyUUID, Some(GeneratorFailed(reason)))
    case Generated(tenantID) =>
      match cluster
      case Unreachable(reason) => IdReply(k, EmptyUUID, Some(StorageFailed(reason)))
      case Connected(session) =>
        var w := AddNewTenant(k, tenantID, tenant, session);
        IdReply(w.keyspace, tenantID, w.err)
  }

  /** Update: probe, then the same upsert as Create. Never adds a tenant. */
  function UpdateTenant(k: Keyspace, tenantID: UUID, tenant: Tenant, cluster: Cluster): (r: Reply)
    ensures cluster.Unreachable? ==> r == Reply(k, Some(StorageFailed(cluster.reason)))
    ensures cluster.Connected? && !TenantExists(k, tenantID, cluster.session) ==> r == Reply(k, Some(TenantNotFound(tenantID)))
    ensures r.err.None? <==> cluster == Connected(Working) && tenantID in k.tenants
    ensures r.err.Some? ==> r.keyspace == k
    ensures r.err.None? ==> && r.keyspace.tenants.Keys == k.tenants.Keys
                            && r.keyspace.tenants[tenantID] == tenant.secretKey
                            && r.keyspace.tenants - {tenantID} == k.tenants - {tenantID}
                            && r.keyspace.applications == k.applications
  {
    match cluster
    case Unreachable(reason) => Reply(k, Some(StorageFailed(reason)))
    case Connected(session) =>
      if !TenantExists(k, tenantID, session) then Reply(k, Some(TenantNotFound(tenantID)))
      else AddNewTenant(k, tenantID, tenant, session)
  }

  /** Read: the stored secret key, or the zero Tenant with an error. */
  function ReadTenant(k: Keyspace, tenantID: UUID, cluster: Cluster): (r: TenantReply)
    ensures cluster.Unreachable? ==> r == TenantReply(EmptyTenant, Some(StorageFailed(cluster.reason)))
    ensures cluster.Connected? && !TenantExists(k, tenantID, cluster.session) ==> r == TenantReply(EmptyTenant, Some(TenantNotFound(tenantID)))
    ensures r.err.None? <==> cluster == Connected(Working) && tenantID in k.tenants
    ensures r.err.None? ==> r.tenant.secretKey == k.tenants[tenantID]
    ensures r.err.Some? ==> r.tenant == EmptyTenant
  {
    match cluster
    case Unreachable(reason) => TenantReply(EmptyTenant, Some(StorageFailed(reason)))
    case Connected(session) => ReadTenantRow(k, tenantID, session)
  }

  /** Delete: probe, then remove the tenant row only. Applications of the
      tenant stay where they are (no cascade). */
  function DeleteTenant(k: Keyspace, tenantID: UUID, cluster: Cluster): (r: Reply)
    ensures cluster.Unreachable? ==> r == Reply(k, Some(StorageFailed(cluster.reason)))
    ensures cluster.Connected? && !TenantExists(k, tenantID, cluster.session) ==> r == Reply(k, Some(TenantNotFound(tenantID)))
    ensures r.err.None? <==> cluster == Connected(Working) && tenantID in k.tenants
    ensures r.err.Some? ==> r.keyspace == k
    ensures r.err.None? ==> && r.keyspace.tenants.Keys == k.tenants.Keys - {tenantID}
                            && (forall t :: t in r.keyspace.tenants ==> r.keyspace.tenants[t] == k.tenants[t])
                            && r.keyspace.applications == k.applications
  {
    match cluster
    case Unreachable(reason) => Reply(k, Some(StorageFailed(reason)))
    case Connected(session) =>
      if !TenantExists(k, tenantID, session) then Reply(k, Some(TenantNotFound(tenantID)))
      else DeleteTenantRow(k, tenantID, session)
  }

  // ---------------------------------------------------------------------
  // Application operations: the tenant is always probed first.
  // ---------------------------------------------------------------------

  /** CreateApplication: probe the tenant, then generate the id, then upsert. */
  function CreateApplication(k: Keyspace, tenantID: UUID, application: Application, generated: Generated, cluster: Cluster): (r: IdReply)
    ensures cluster.Unreachable? ==> r == IdReply(k, EmptyUUID, Some(StorageFailed(cluster.reason)))
    ensures cluster.Connected? && !TenantExists(k, tenantID, cluster.session) ==> r == IdReply(k, EmptyUUID, Some(TenantNotFound(tenantID)))
    ensures cluster == Connected(Working) && tenantID in k.tenants && generated.GenerationFailed? ==>
              r == IdReply(k, EmptyUUID, Some(GeneratorFailed(generated.reason)))
    ensures cluster.Connected? && TenantExists(k, tenantID, cluster.session) && generated.Generated? ==> r.id == generated.id
    ensures r.err.None? <==> cluster == Connected(Working) && tenantID in k.tenants && generated.Generated?
    ensures r.err.Some? ==> r.keyspace == k
    ensures r.err.None? ==> && r.id == generated.id
                            && AppKey(tenantID, r.id) in r.keyspace.applications
                            && r.keyspace.applications[AppKey(tenantID, r.id)] == application.name
                            && r.keyspace.applications - {AppKey(tenantID, r.id)} == k.applications - {AppKey(tenantID, r.id)}
                            && r.keyspace.tenants == k.tenants
  {
    match cluster
    case Unreachable(reason) => IdReply(k, EmptyUUID, Some(StorageFailed(reason)))
    case Connected(session) =>
      if !TenantExists(k, tenantID, session) then IdReply(k, EmptyUUID, Some(TenantNotFound(tenantID)))
      else
        match generated
        case GenerationFailed(reason) => IdReply(k, EmptyUUID, Some(GeneratorFailed(reason)))
        case Generated(applicationID) =>
          var w := AddNewApplication(k, AppKey(tenantID, applicationID), application, session);
          IdReply(w.keyspace, applicationID, w.err)
  }

  /** ReadApplication: probe the tenant, then read the row by its composite key. */
  function ReadApplication(k: Keyspace, tenantID: UUID, applicationID: UUID, cluster: Cluster): (r: ApplicationReply)
    ensures cluster.Unreachable? ==> r == ApplicationReply(EmptyApplication, Some(StorageFailed(cluster.reason)))
    ensures cluster.Connected? && !TenantExists(k, tenantID, cluster.session) ==> r == ApplicationReply(EmptyApplication, Some(TenantNotFound(tenantID)))
    ensures cluster == Connected(Working) && tenantID in k.tenants && AppKey(tenantID, applicationID) !in k.applications ==>
              r == ApplicationReply(EmptyApplication, Some(ApplicationNotFound(tenantID, applicationID)))
    ensures r.err.None? <==> cluster == Connected(Working) && tenantID in k.tenants && AppKey(tenantID, applicationID) in k.applications
    ensures r.err.None? ==> r.application.name == k.applications[AppKey(tenantID, applicationID)]
    ensures r.err.Some? ==> r.application == EmptyApplication
  {
    match cluster
    case Unreachable(reason) => ApplicationReply(EmptyApplication, Some(StorageFailed(reason)))
    case Connected(session) =>
      if !TenantExists(k, tenantID, session) then ApplicationReply(EmptyApplication, Some(TenantNotFound(tenantID)))
      else ReadApplicationRow(k, tenantID, applicationID, session)
  }

  /** ReadAllApplications: probe the tenant, then scan its partition. A tenant
      without applications gets an empty map and no error. */
  function ReadAllApplications(k: Keyspace, tenantID: UUID, cluster: Cluster): (r: ApplicationsReply)
    ensures cluster.Unreachable? ==> r == ApplicationsReply(map[], Some(StorageFailed(cluster.reason)))
    ensures cluster.Connected? && !TenantExists(k, tenantID, cluster.session) ==> r == ApplicationsReply(map[], Some(TenantNotFound(tenantID)))
    ensures r.err.None? <==> cluster == Connected(Working) && tenantID in k.tenants
    ensures r.err.Some? ==> r.applications == map[]
    ensures r.err.None? ==> forall aid :: aid in r.applications <==> AppKey(tenantID, aid) in k.applications
    ensures r.err.None? ==> forall aid :: aid in r.applications ==> r.applications[aid].name == k.applications[AppKey(tenantID, aid)]
  {
    match cluster
    case Unreachable(reason) => ApplicationsReply(map[], Some(StorageFailed(reason)))
    case Connected(session) =>
      if !TenantExists(k, tenantID, session) then ApplicationsReply(map[], Some(TenantNotFound(tenantID)))
      else ApplicationsReply(ApplicationsOf(k, tenantID), None)
  }

  /** UpdateApplication: probe the tenant, probe the application, then upsert. */
  function UpdateApplication(k: Keyspace, tenantID: UUID, applicationID: UUID, application: Application, cluster: Cluster): (r: Reply)
    ensures cluster.Unreachable? ==> r == Reply(k, Some(StorageFailed(cluster.reason)))
    ensures cluster.Connected? && !TenantExists(k, tenantID, cluster.session) ==> r == Reply(k, Some(TenantNotFound(tenantID)))
    ensures cluster == Connected(Working) && tenantID in k.tenants && AppKey(tenantID, applicationID) !in k.applications ==>
              r == Reply(k, Some(ApplicationNotFound(tenantID, applicationID)))
    ensures r.err.None? <==> cluster == Connected(Working) && tenantID in k.tenants && AppKey(tenantID, applicationID) in k.applications
    ensures r.err.Some? ==> r.keyspace == k
    ensures r.err.None? ==> && r.keyspace.applications.Keys == k.applications.Keys
                            && r.keyspace.applications[AppKey(tenantID, applicationID)] == application.name
                            && r.keyspace.applications - {AppKey(tenantID, applicationID)} == k.applications - {AppKey(tenantID, applicationID)}
                            && r.keyspace.tenants == k.tenants
  {
    match cluster
    case Unreachable(reason) => Reply(k, Some(StorageFailed(reason)))
    case Connected(session) =>
      if !TenantExists(k, tenantID, session) then Reply(k, Some(TenantNotFound(tenantID)))
      else if !ApplicationExists(k, tenantID, applicationID, session) then
        Reply(k, Some(ApplicationNotFound(tenantID, applicationID)))
      else AddNewApplication(k, AppKey(tenantID, applicationID), application, session)
  }

  /** DeleteApplication: probe the tenant, probe the application, then delete the row. */
  function DeleteApplication(k: Keyspace, tenantID: UUID, applicationID: UUID, cluster: Cluster): (r: Reply)
    ensures cluster.Unreachable? ==> r == Reply(k, Some(StorageFailed(cluster.reason)))
    ensures cluster.Connected? && !TenantExists(k, tenantID, cluster.session) ==> r == Reply(k, Some(TenantNotFound(tenantID)))
    ensures cluster == Connected(Working) && tenantID in k.tenants && AppKey(tenantID, applicationID) !in k.applications ==>
              r == Reply(k, Some(ApplicationNotFound(tenantID, applicationID)))
    ensures r.err.None? <==> cluster == Connected(Working) && tenantID in k.tenants && AppKey(tenantID, applicationID) in k.applications
    ensures r.err.Some? ==> r.keyspace == k
    ensures r.err.None? ==> && r.keyspace.applications.Keys == k.applications.Keys - {AppKey(tenantID, applicationID)}
                            && (forall a :: a in r.keyspace.applications ==> r.keyspace.applications[a] == k.applications[a])
                            && r.keyspace.tenants == k.tenants
  {
    match cluster
    case Unreachable(reason) => Reply(k, Some(StorageFailed(reason)))
    case Connected(session) =>
      if !TenantExists(k, tenantID, session) then Reply(k, Some(TenantNotFound(tenantID)))
      else if !ApplicationExists(k, tenantID, applicationID, session) then
        Reply(k, Some(ApplicationNotFound(tenantID, applicationID)))
      else DeleteApplicationRow(k, AppKey(tenantID, applicationID), session)
  }
}
