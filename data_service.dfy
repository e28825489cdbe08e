/** data/service/TenantDataService.go: the data service. Every operation opens
    a session. Create issues one INSERT (an upsert) with no probe; Update and
    Delete probe the tenant and then issue one INSERT or DELETE; the reads
    issue a SELECT and write nothing. The object holds the two Cassandra tables it
    reaches through its cluster configuration; each method is proved to do
    to them exactly what the matching TenantStore function says. */
module DataService {
  import opened System
  import opened DataContract
  import opened TenantStore

  class TenantDataService {
    /** The tenant table: tenant_id -> secret_key. */
    var tenants: map<UUID, string>
    /** The application table: (tenant_id, application_id) -> name. */
    var applications: map<AppKey, string>

    /** The keyspace as the specification functions see it. */
    function State(): Keyspace
      reads this
    {
      Keyspace(tenants, applications)
    }

    /** A service over a freshly created, empty keyspace. */
    constructor ()
      ensures State() == Keyspace(map[], map[])
    {
      tenants := map[];
      applications := map[];
    }

    // -------------------------------------------------------------------
    // Tenant operations.
    // -------------------------------------------------------------------

    /** Create: generate the id, open a session, upsert the row. */
    method Create(tenant: Tenant, generated: Generated, cluster: Cluster) returns (tenantID: UUID, err: Option<Error>)
      modifies this
      ensures IdReply(State(), tenantID, err) == TenantStore.CreateTenant(old(State()), tenant, generated, cluster)
    {
      if generated.GenerationFailed? {
        return EmptyUUID, Some(GeneratorFailed(generated.reason));
      }
      if cluster.Unreachable? {
        return EmptyUUID, Some(StorageFailed(cluster.reason));
      }
      tenantID := generated.id;
      err := AddNewTenant(tenantID, tenant, cluster.session);
    }

    /** Update: open a session, probe the tenant, upsert the row. */
    method Update(tenantID: UUID, tenant: Tenant, cluster: Cluster) returns (err: Option<Error>)
      modifies this
      ensures Reply(State(), err) == TenantStore.UpdateTenant(old(State()), tenantID, tenant, cluster)
    {
      if cluster.Unreachable? {
        return Some(StorageFailed(cluster.reason));
      }
      var found := DoesTenantExist(tenantID, cluster.session);
      if !found {
        return Some(TenantNotFound(tenantID));
      }
      err := AddNewTenant(tenantID, tenant, cluster.session);
    }

    /** Read: open a session and read the row. Changes nothing. */
    method Read(tenantID: UUID, cluster: Cluster) returns (tenant: Tenant, err: Option<Error>)
      ensures TenantReply(tenant, err) == TenantStore.ReadTenant(State(), tenantID, cluster)
    {
      if cluster.Unreachable? {
        return EmptyTenant, Some(StorageFailed(cluster.reason));
      }
      tenant, err := ReadTenantRow(tenantID, cluster.session);
    }

    /** Delete: open a session, probe the tenant, delete its row only. */
    method Delete(tenantID: UUID, cluster: Cluster) returns (err: Option<Error>)
      modifies this
      ensures Reply(State(), err) == TenantStore.DeleteTenant(old(State()), tenantID, cluster)
    {
      if cluster.Unreachable? {
        return Some(StorageFailed(cluster.reason));
      }
      var found := DoesTenantExist(tenantID, cluster.session);
      if !found {
        return Some(TenantNotFound(tenantID));
      }
      err := DeleteTenantRow(tenantID, cluster.session);
    }

    // -------------------------------------------------------------------
    // Application operations: the tenant is probed before anything else.
    // -------------------------------------------------------------------

    /** CreateApplication: probe the tenant, generate the id, upsert the row. */
    method CreateApplication(tenantID: UUID, application: Application, generated: Generated, cluster: Cluster)
      returns (applicationID: UUID, err: Option<Error>)
      modifies this
      ensures IdReply(State(), applicationID, err)
              == TenantStore.CreateApplication(old(State()), tenantID, application, generated, cluster)
    {
      if cluster.Unreachable? {
        return EmptyUUID, Some(StorageFailed(cluster.reason));
      }
      var found := DoesTenantExist(tenantID, cluster.session);
      if !found {
        return EmptyUUID, Some(TenantNotFound(tenantID));
      }
      if generated.GenerationFailed? {
        return EmptyUUID, Some(GeneratorFailed(generated.reason));
      }
      applicationID := generated.id;
      err := AddNewApplication(AppKey(tenantID, applicationID), application, cluster.session);
    }

    /** UpdateApplication: probe the tenant, probe the application, upsert. */
    method UpdateApplication(tenantID: UUID, applicationID: UUID, application: Application, cluster: Cluster)
      returns (err: Option<Error>)
      modifies this
      ensures Reply(State(), err)
              == TenantStore.UpdateApplication(old(State()), tenantID, applicationID, application, cluster)
    {
      if cluster.Unreachable? {
        return Some(StorageFailed(cluster.reason));
      }
      var found := DoesTenantExist(tenantID, cluster.session);
      if !found {
        return Some(TenantNotFound(tenantID));
      }
      found := DoesApplicationExist(tenantID, applicationID, cluster.session);
      if !found {
        return Some(ApplicationNotFound(tenantID, applicationID));
      }
      err := AddNewApplication(AppKey(tenantID, applicationID), application, cluster.session);
    }

    /** ReadApplication: probe the tenant, then read the row. Changes nothing. */
    method ReadApplication(tenantID: UUID, applicationID: UUID, cluster: Cluster)
      returns (application: Application, err: Option<Error>)
      ensures ApplicationReply(application, err) == TenantStore.ReadApplication(State(), tenantID, applicationID, cluster)
    {
      if cluster.Unreachable? {
        return EmptyApplication, Some(StorageFailed(cluster.reason));
      }
      var found := DoesTenantExist(tenantID, cluster.session);
      if !found {
        return EmptyApplication, Some(TenantNotFound(tenantID));
      }
      found := DoesApplicationExist(tenantID, applicationID, cluster.session);
      if !found {
        return EmptyApplication, Some(ApplicationNotFound(tenantID, applicationID));
      }
      application, err := Application(applications[AppKey(tenantID, applicationID)]), None;
    }

    /** ReadAllApplications: probe the tenant, then scan its partition.
        Changes nothing. */
    method ReadAllApplications(tenantID: UUID, cluster: Cluster)
      returns (result: map<UUID, Application>, err: Option<Error>)
      ensures ApplicationsReply(result, err) == TenantStore.ReadAllApplications(State(), tenantID, cluster)
    {
      if cluster.Unreachable? {
        return map[], Some(StorageFailed(cluster.reason));
      }
      var found := DoesTenantExist(tenantID, cluster.session);
      if !found {
        return map[], Some(TenantNotFound(tenantID));
      }
      result, err := ApplicationsOf(State(), tenantID), None;
    }

    /** DeleteApplication: probe the tenant, probe the application, delete the row. */
    method DeleteApplication(tenantID: UUID, applicationID: UUID, cluster: Cluster) returns (err: Option<Error>)
      modifies this
      ensures Reply(State(), err) == TenantStore.DeleteApplication(old(State()), tenantID, applicationID, cluster)
    {
      if cluster.Unreachable? {
        return Some(StorageFailed(cluster.reason));
      }
      var found := DoesTenantExist(tenantID, cluster.session);
      if !found {
        return Some(TenantNotFound(tenantID));
      }
      found := DoesApplicationExist(tenantID, applicationID, cluster.session);
      if !found {
        return Some(ApplicationNotFound(tenantID, applicationID));
      }
      err := DeleteApplicationRow(AppKey(tenantID, applicationID), cluster.session);
    }

    // -------------------------------------------------------------------
    // The per-query helpers, on an open session.
    // -------------------------------------------------------------------

    /** addNewTenant: INSERT INTO tenant (tenant_id, secret_key). */
    method AddNewTenant(tenantID: UUID, tenant: Tenant, session: Session) returns (err: Option<Error>)
      modifies this
      ensures Reply(State(), err) == TenantStore.AddNewTenant(old(State()), tenantID, tenant, session)
    {
      if session.Failing? {
        return Some(StorageFailed(session.reason));
      }
      tenants := tenants[tenantID := tenant.secretKey];
      err := None;
    }

    /** INSERT INTO application (tenant_id, application_id, name). */
    method AddNewApplication(key: AppKey, application: Application, session: Session) returns (err: Option<Error>)
      modifies this
      ensures Reply(State(), err) == TenantStore.AddNewApplication(old(State()), key, application, session)
    {
      if session.Failing? {
        return Some(StorageFailed(session.reason));
      }
      applications := applications[key := application.name];
      err := None;
    }

    /** DELETE FROM tenant WHERE tenant_id = ?. */
    method DeleteTenantRow(tenantID: UUID, session: Session) returns (err: Option<Error>)
      modifies this
      ensures Reply(State(), err) == TenantStore.DeleteTenantRow(old(State()), tenantID, session)
    {
      if session.Failing? {
        return Some(StorageFailed(session.reason));
      }
      tenants := tenants - {tenantID};
      err := None;
    }

    /** DELETE FROM application WHERE tenant_id = ? AND application_id = ?. */
    method DeleteApplicationRow(key: AppKey, session: Session) returns (err: Option<Error>)
      modifies this
      ensures Reply(State(), err) == TenantStore.DeleteApplicationRow(old(State()), key, session)
    {
      if session.Failing? {
        return Some(StorageFailed(session.reason));
      }
      applications := applications - {key};
      err := None;
    }

    /** readTenant: SELECT secret_key; no row (or a failed query) is not-found. */
    method ReadTenantRow(tenantID: UUID, session: Session) returns (tenant: Tenant, err: Option<Error>)
      ensures TenantReply(tenant, err) == TenantStore.ReadTenantRow(State(), tenantID, session)
    {
      if session.Failing? || tenantID !in tenants {
        return EmptyTenant, Some(TenantNotFound(tenantID));
      }
      tenant, err := Tenant(tenants[tenantID]), None;
    }

    /** doesTenantExist: the SELECT on the tenant table yields a row. */
    method DoesTenantExist(tenantID: UUID, session: Session) returns (found: bool)
      ensures found == TenantStore.TenantExists(State(), tenantID, session)
    {
      found := session.Working? && tenantID in tenants;
    }

    /** doesApplicationExist: the SELECT on the composite key yields a row. */
    method DoesApplicationExist(tenantID: UUID, applicationID: UUID, session: Session) returns (found: bool)
      ensures found == TenantStore.ApplicationExists(State(), tenantID, applicationID, session)
    {
      found := session.Working? && AppKey(tenantID, applicationID) in applications;
    }
  }
}
