/** Properties that relate several operations of the tenant store: round
    trips, not-found after delete, the order of the existence checks, the
    write-time ownership check and the listing of a tenant's applications. */
module TenantStoreProperties {
  import opened System
  import opened DataContract
  import opened TenantStore

  /** A cluster on which the session opens and every query succeeds. */
  const Up: Cluster := Connected(Working)

  // ---------------------------------------------------------------------
  // Tenant round trips and not-found.
  // ---------------------------------------------------------------------

  /** Creating a tenant and reading back the returned id yields the same
      secret key. */
  lemma CreateThenReadTenant(k: Keyspace, tenant: Tenant, id: UUID)
    ensures var c := CreateTenant(k, tenant, Generated(id), Up);
            c.err.None? && c.id == id && ReadTenant(c.keyspace, c.id, Up) == TenantReply(tenant, None)
  {
  }

  /** Updating an existing tenant and reading it back yields the new key,
      while every other tenant reads as before. */
  lemma UpdateThenReadTenant(k: Keyspace, tenantID: UUID, other: UUID, tenant: Tenant)
    requires tenantID in k.tenants
    requires other != tenantID
    ensures var u := UpdateTenant(k, tenantID, tenant, Up);
            && u.err.None?
            && ReadTenant(u.keyspace, tenantID, Up) == TenantReply(tenant, None)
            && ReadTenant(u.keyspace, other, Up) == ReadTenant(k, other, Up)
  {
    var u := UpdateTenant(k, tenantID, tenant, Up);
    assert other in u.keyspace.tenants <==> other in k.tenants;
    if other in k.tenants {
      assert u.keyspace.tenants[other] == (u.keyspace.tenants - {tenantID})[other];
    }
  }

  /** Once a tenant is deleted, reading, updating or deleting it again fails
      with the tenant not-found error (delete is not idempotent). */
  lemma DeletedTenantIsNotFound(k: Keyspace, tenantID: UUID, tenant: Tenant, session: Session)
    requires DeleteTenant(k, tenantID, Up).err.None?
    ensures var d := DeleteTenant(k, tenantID, Up).keyspace;
            && ReadTenant(d, tenantID, Connected(session)).err == Some(TenantNotFound(tenantID))
            && UpdateTenant(d, tenantID, tenant, Connected(session)).err == Some(TenantNotFound(tenantID))
            && DeleteTenant(d, tenantID, Connected(session)).err == Some(TenantNotFound(tenantID))
  {
  }

  /** A generated id that is not yet in use adds exactly one tenant row. */
  lemma FreshCreateAddsOneTenant(k: Keyspace, tenant: Tenant, id: UUID)
    requires id !in k.tenants
    ensures |CreateTenant(k, tenant, Generated(id), Up).keyspace.tenants| == |k.tenants| + 1
  {
    var t := CreateTenant(k, tenant, Generated(id), Up).keyspace.tenants;
    assert t.Keys == k.tenants.Keys + {id};
  }

  /** A session whose queries fail makes every probe see no row: a tenant
      that is stored is still reported as not found, by every operation that
      probes it, and nothing is written. */
  lemma FailingSessionReadsAsNotFound(k: Keyspace, tenantID: UUID, applicationID: UUID, tenant: Tenant,
                                      application: Application, generated: Generated, reason: string)
    requires tenantID in k.tenants
    ensures var down := Connected(Failing(reason));
            && ReadTenant(k, tenantID, down) == TenantReply(EmptyTenant, Some(TenantNotFound(tenantID)))
            && UpdateTenant(k, tenantID, tenant, down) == Reply(k, Some(TenantNotFound(tenantID)))
            && DeleteTenant(k, tenantID, down) == Reply(k, Some(TenantNotFound(tenantID)))
    ensures var down := Connected(Failing(reason));
            && CreateApplication(k, tenantID, application, generated, down) == IdReply(k, EmptyUUID, Some(TenantNotFound(tenantID)))
            && ReadApplication(k, tenantID, applicationID, down) == ApplicationReply(EmptyApplication, Some(TenantNotFound(tenantID)))
            && ReadAllApplications(k, tenantID, down) == ApplicationsReply(map[], Some(TenantNotFound(tenantID)))
            && UpdateApplication(k, tenantID, applicationID, application, down) == Reply(k, Some(TenantNotFound(tenantID)))
            && DeleteApplication(k, tenantID, applicationID, down) == Reply(k, Some(TenantNotFound(tenantID)))
  {
  }

  /** Create probes nothing, so a failing session reaches the INSERT: its
      error comes back together with the generated id, not EmptyUUID. */
  lemma FailedInsertReturnsGeneratedId(k: Keyspace, tenant: Tenant, id: UUID, reason: string)
    ensures CreateTenant(k, tenant, Generated(id), Connected(Failing(reason))) == IdReply(k, id, Some(StorageFailed(reason)))
  {
  }

  // ---------------------------------------------------------------------
  // Application operations.
  // ---------------------------------------------------------------------

  /** The tenant check comes first: for an unknown tenant every application
      operation fails with the tenant not-found error and writes nothing,
      even when a row for (tenantID, applicationID) is stored. */
  lemma TenantCheckComesFirst(k: Keyspace, tenantID: UUID, applicationID: UUID, application: Application,
                              generated: Generated, session: Session)
    requires tenantID !in k.tenants
    ensures CreateApplication(k, tenantID, application, generated, Connected(session)) == IdReply(k, EmptyUUID, Some(TenantNotFound(tenantID)))
    ensures ReadApplication(k, tenantID, applicationID, Connected(session)) == ApplicationReply(EmptyApplication, Some(TenantNotFound(tenantID)))
    ensures ReadAllApplications(k, tenantID, Connected(session)) == ApplicationsReply(map[], Some(TenantNotFound(tenantID)))
    ensures UpdateApplication(k, tenantID, applicationID, application, Connected(session)) == Reply(k, Some(TenantNotFound(tenantID)))
    ensures DeleteApplication(k, tenantID, applicationID, Connected(session)) == Reply(k, Some(TenantNotFound(tenantID)))
  {
  }

  /** Create, update and delete of an application, each followed by a read
      of the same composite key. */
  lemma ApplicationRoundTrips(k: Keyspace, tenantID: UUID, applicationID: UUID, application: Application)
    requires tenantID in k.tenants
    ensures var c := CreateApplication(k, tenantID, application, Generated(applicationID), Up);
            c.err.None? && ReadApplication(c.keyspace, tenantID, c.id, Up) == ApplicationReply(application, None)
    ensures AppKey(tenantID, applicationID) in k.applications ==>
              var u := UpdateApplication(k, tenantID, applicationID, application, Up);
              u.err.None? && ReadApplication(u.keyspace, tenantID, applicationID, Up) == ApplicationReply(application, None)
    ensures AppKey(tenantID, applicationID) in k.applications ==>
              var d := DeleteApplication(k, tenantID, applicationID, Up);
              && d.err.None?
              && ReadApplication(d.keyspace, tenantID, applicationID, Up).err == Some(ApplicationNotFound(tenantID, applicationID))
              && DeleteApplication(d.keyspace, tenantID, applicationID, Up).err == Some(ApplicationNotFound(tenantID, applicationID))
  {
  }

  /** Application operations never touch the tenant table. */
  lemma ApplicationOperationsKeepTenants(k: Keyspace, tenantID: UUID, applicationID: UUID, application: Application,
                                         generated: Generated, cluster: Cluster)
    ensures CreateApplication(k, tenantID, application, generated, cluster).keyspace.tenants == k.tenants
    ensures UpdateApplication(k, tenantID, applicationID, application, cluster).keyspace.tenants == k.tenants
    ensures DeleteApplication(k, tenantID, applicationID, cluster).keyspace.tenants == k.tenants
  {
  }

  // ---------------------------------------------------------------------
  // Ownership is checked when an application is written, not afterwards.
  // ---------------------------------------------------------------------

  /** Every application row belongs to a tenant row that exists. */
  predicate ApplicationsOwned(k: Keyspace)
  {
    forall key :: key in k.applications ==> key.tenantID in k.tenants
  }

  /** Every operation except DeleteTenant keeps all application rows owned. */
  lemma OwnershipPreserved(k: Keyspace, tenantID: UUID, applicationID: UUID, tenant: Tenant, application: Application,
                           generated: Generated, cluster: Cluster)
    requires ApplicationsOwned(k)
    ensures ApplicationsOwned(CreateTenant(k, tenant, generated, cluster).keyspace)
    ensures ApplicationsOwned(UpdateTenant(k, tenantID, tenant, cluster).keyspace)
    ensures ApplicationsOwned(CreateApplication(k, tenantID, application, generated, cluster).keyspace)
    ensures ApplicationsOwned(UpdateApplication(k, tenantID, applicationID, application, cluster).keyspace)
    ensures ApplicationsOwned(DeleteApplication(k, tenantID, applicationID, cluster).keyspace)
  {
    var c := CreateTenant(k, tenant, generated, cluster);
    if c.err.None? {
      forall key | key in c.keyspace.applications ensures key.tenantID in c.keyspace.tenants {
        if key.tenantID != c.id {
          assert key.tenantID in k.tenants - {c.id};
        }
      }
    }
    var u := UpdateTenant(k, tenantID, tenant, cluster);
    if u.err.None? {
      assert u.keyspace.tenants.Keys == k.tenants.Keys;
    }
    var a := CreateApplication(k, tenantID, application, generated, cluster);
    if a.err.None? {
      forall key | key in a.keyspace.applications ensures key.tenantID in a.keyspace.tenants {
        if key != AppKey(tenantID, a.id) {
          assert key in k.applications - {AppKey(tenantID, a.id)};
        }
      }
    }
  }

  /** DeleteTenant does not cascade: deleting the only tenant of an
      application leaves that application's row in place, unowned. */
  lemma DeleteTenantOrphansApplications(tenantID: UUID, applicationID: UUID)
    ensures var k := Keyspace(map[tenantID := "S1"], map[AppKey(tenantID, applicationID) := "A1"]);
            var d := DeleteTenant(k, tenantID, Up);
            && ApplicationsOwned(k)
            && d.err.None?
            && d.keyspace.applications == k.applications
            && !ApplicationsOwned(d.keyspace)
  {
    var k := Keyspace(map[tenantID := "S1"], map[AppKey(tenantID, applicationID) := "A1"]);
    var d := DeleteTenant(k, tenantID, Up);
    assert AppKey(tenantID, applicationID) in d.keyspace.applications;
  }

  // ---------------------------------------------------------------------
  // Listing the applications of a tenant.
  // ---------------------------------------------------------------------

  /** One successful create adds exactly its own entry to the tenant's
      listing, replacing an earlier entry with the same id. */
  lemma {:induction false} ListingAfterCreate(k: Keyspace, tenantID: UUID, application: Application, id: UUID)
    requires tenantID in k.tenants
    ensures ApplicationsOf(CreateApplication(k, tenantID, application, Generated(id), Up).keyspace, tenantID)
            == ApplicationsOf(k, tenantID)[id := application]
  {
    var k' := CreateApplication(k, tenantID, application, Generated(id), Up).keyspace;
    var before, after := ApplicationsOf(k, tenantID), ApplicationsOf(k', tenantID);
    forall aid ensures aid in after <==> aid in before[id := application] {
      if aid != id {
        assert AppKey(tenantID, aid) in k'.applications <==> AppKey(tenantID, aid) in k.applications - {AppKey(tenantID, id)};
      }
    }
    forall aid | aid in after ensures after[aid] == before[id := application][aid] {
      if aid != id {
        assert k'.applications[AppKey(tenantID, aid)] == (k.applications - {AppKey(tenantID, id)})[AppKey(tenantID, aid)];
      }
    }
  }

  /** Creating an application under one tenant does not change another
      tenant's listing. */
  lemma CreateKeepsOtherListings(k: Keyspace, tenantID: UUID, other: UUID, application: Application,
                                 generated: Generated, cluster: Cluster)
    requires other != tenantID
    ensures ApplicationsOf(CreateApplication(k, tenantID, application, generated, cluster).keyspace, other) == ApplicationsOf(k, other)
  {
    var c := CreateApplication(k, tenantID, application, generated, cluster);
    SamePartition(k, c.keyspace, other, AppKey(tenantID, c.id));
  }

  /** Renaming an application under one tenant does not change another
      tenant's listing. */
  lemma UpdateKeepsOtherListings(k: Keyspace, tenantID: UUID, other: UUID, applicationID: UUID, application: Application,
                                 cluster: Cluster)
    requires other != tenantID
    ensures ApplicationsOf(UpdateApplication(k, tenantID, applicationID, application, cluster).keyspace, other) == ApplicationsOf(k, other)
  {
    var u := UpdateApplication(k, tenantID, applicationID, application, cluster).keyspace;
    SamePartition(k, u, other, AppKey(tenantID, applicationID));
  }

  /** Deleting an application under one tenant does not change another
      tenant's listing. */
  lemma DeleteKeepsOtherListings(k: Keyspace, tenantID: UUID, other: UUID, applicationID: UUID, cluster: Cluster)
    requires other != tenantID
    ensures ApplicationsOf(DeleteApplication(k, tenantID, applicationID, cluster).keyspace, other) == ApplicationsOf(k, other)
  {
    var d := DeleteApplication(k, tenantID, applicationID, cluster).keyspace;
    SamePartition(k, d, other, AppKey(tenantID, applicationID));
  }

  /** Two keyspaces that agree on every application row except one in another
      partition list the same applications for `tenantID`. */
  lemma SamePartition(k: Keyspace, k': Keyspace, tenantID: UUID, changed: AppKey)
    requires changed.tenantID != tenantID
    requires k'.applications - {changed} == k.applications - {changed}
    ensures ApplicationsOf(k', tenantID) == ApplicationsOf(k, tenantID)
  {
    var a, b := ApplicationsOf(k', tenantID), ApplicationsOf(k, tenantID);
    forall aid ensures aid in a <==> aid in b {
      assert AppKey(tenantID, aid) in k'.applications <==> AppKey(tenantID, aid) in k'.applications - {changed};
      assert AppKey(tenantID, aid) in k.applications <==> AppKey(tenantID, aid) in k.applications - {changed};
    }
    forall aid | aid in a ensures a[aid] == b[aid] {
      assert k'.applications[AppKey(tenantID, aid)] == (k'.applications - {changed})[AppKey(tenantID, aid)];
    }
  }

  /** The keyspace after creating `applications[i]` with id `ids[i]`, in order,
      under one tenant. */
  function CreateAll(k: Keyspace, tenantID: UUID, applications: seq<Application>, ids: seq<UUID>): (k': Keyspace)
    requires |applications| == |ids|
    ensures k'.tenants == k.tenants
    decreases |ids|
  {
    if |ids| == 0 then k
    else
      var n := |ids| - 1;
      CreateApplication(CreateAll(k, tenantID, applications[..n], ids[..n]), tenantID, applications[n], Generated(ids[n]), Up).keyspace
  }

  /** The listing those creates are expected to add: `ids[i] -> applications[i]`,
      a later id winning over an earlier equal one. */
  function Listing(applications: seq<Application>, ids: seq<UUID>): (m: map<UUID, Application>)
    requires |applications| == |ids|
    ensures m.Keys == set i | 0 <= i < |ids| :: ids[i]
    decreases |ids|
  {
    if |ids| == 0 then map[]
    else
      var n := |ids| - 1;
      var m := Listing(applications[..n], ids[..n]);
      assert forall i :: 0 <= i < n ==> ids[..n][i] == ids[i];
      assert (set i | 0 <= i < |ids| :: ids[i]) == (set i | 0 <= i < n :: ids[..n][i]) + {ids[n]};
      m[ids[n] := applications[n]]
  }

  /** With distinct ids, each created id lists the application created with it. */
  lemma {:induction false} ListingValues(applications: seq<Application>, ids: seq<UUID>)
    requires |applications| == |ids|
    requires forall i, j :: 0 <= i < j < |ids| ==> ids[i] != ids[j]
    ensures forall i :: 0 <= i < |ids| ==> Listing(applications, ids)[ids[i]] == applications[i]
    decreases |ids|
  {
    if |ids| > 0 {
      var n := |ids| - 1;
      ListingValues(applications[..n], ids[..n]);
      forall i | 0 <= i < |ids|
        ensures Listing(applications, ids)[ids[i]] == applications[i]
      {
        if i < n {
          assert ids[..n][i] == ids[i] && applications[..n][i] == applications[i];
        }
      }
    }
  }

  /** After a tenant creates a sequence of applications, listing the tenant's
      applications yields what it had before plus exactly the created entries,
      each with its last-written name. */
  lemma ListingAfterCreates(k: Keyspace, tenantID: UUID, applications: seq<Application>, ids: seq<UUID>)
    requires tenantID in k.tenants
    requires |applications| == |ids|
    ensures ReadAllApplications(CreateAll(k, tenantID, applications, ids), tenantID, Up)
            == ApplicationsReply(ApplicationsOf(k, tenantID) + Listing(applications, ids), None)
  {
    ScanAfterCreates(k, tenantID, applications, ids);
  }

  /** The partition scan after the creates of ListingAfterCreates. */
  lemma {:induction false} ScanAfterCreates(k: Keyspace, tenantID: UUID, applications: seq<Application>, ids: seq<UUID>)
    requires tenantID in k.tenants
    requires |applications| == |ids|
    ensures ApplicationsOf(CreateAll(k, tenantID, applications, ids), tenantID) == ApplicationsOf(k, tenantID) + Listing(applications, ids)
    decreases |ids|
  {
    if |ids| > 0 {
      var n := |ids| - 1;
      var prev := CreateAll(k, tenantID, applications[..n], ids[..n]);
      var base, listed := ApplicationsOf(k, tenantID), Listing(applications[..n], ids[..n]);
      calc {
        ApplicationsOf(CreateAll(k, tenantID, applications, ids), tenantID);
        ApplicationsOf(CreateApplication(prev, tenantID, applications[n], Generated(ids[n]), Up).keyspace, tenantID);
        { ListingAfterCreate(prev, tenantID, applications[n], ids[n]); }
        ApplicationsOf(prev, tenantID)[ids[n] := applications[n]];
        { ScanAfterCreates(k, tenantID, applications[..n], ids[..n]); }
        (base + listed)[ids[n] := applications[n]];
        base + listed[ids[n] := applications[n]];
        base + Listing(applications, ids);
      }
    }
  }

  /** N distinct ids give N entries. */
  lemma {:induction false} ListingSize(applications: seq<Application>, ids: seq<UUID>)
    requires |applications| == |ids|
    requires forall i, j :: 0 <= i < j < |ids| ==> ids[i] != ids[j]
    ensures |Listing(applications, ids)| == |ids|
    decreases |ids|
  {
    if |ids| > 0 {
      var n := |ids| - 1;
      ListingSize(applications[..n], ids[..n]);
      assert ids[n] !in Listing(applications[..n], ids[..n]);
    }
  }

  // ---------------------------------------------------------------------
  // A whole lifecycle.
  // ---------------------------------------------------------------------

  /** Create tenant T with "S1", create application P named "A1" under it,
      rename it "A2", delete it, then delete T: each step succeeds and each
      read sees exactly the last write. */
  lemma Lifecycle(t: UUID, p: UUID)
    ensures var c1 := CreateTenant(Keyspace(map[], map[]), Tenant("S1"), Generated(t), Up);
            var c2 := CreateApplication(c1.keyspace, t, Application("A1"), Generated(p), Up);
            var u := UpdateApplication(c2.keyspace, t, p, Application("A2"), Up);
            var d1 := DeleteApplication(u.keyspace, t, p, Up);
            var d2 := DeleteTenant(d1.keyspace, t, Up);
            && c1 == IdReply(c1.keyspace, t, None)
            && c2 == IdReply(c2.keyspace, p, None)
            && ReadApplication(c2.keyspace, t, p, Up) == ApplicationReply(Application("A1"), None)
            && u.err.None?
            && ReadApplication(u.keyspace, t, p, Up) == ApplicationReply(Application("A2"), None)
            && d1.err.None?
            && ReadApplication(d1.keyspace, t, p, Up).err == Some(ApplicationNotFound(t, p))
            && d2.err.None?
            && ReadTenant(d2.keyspace, t, Up).err == Some(TenantNotFound(t))
  {
  }
}
