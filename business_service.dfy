/** The records of the business layer. The domain package is not part of
    this model; the fields are the ones the business-service tests use. */
module Domain {

  /** The domain tenant: only its secret key. */
  datatype Tenant = Tenant(secretKey: string)

  /** The domain application: only its name. */
  datatype Application = Application(name: string)

  /** The zero values `domain.Tenant{}` and `domain.Application{}`. */
  const EmptyTenant: Tenant := Tenant("")
  const EmptyApplication: Application := Application("")
}

/** business/service/TenantService.go: checks its inputs, maps domain records
    to data records and back, and forwards each call to the data service,
    returning the data service's results and errors unchanged. A failed check
    panics in Go; here it is a precondition. */
module BusinessService {
  import opened System
  import DataContract
  import Domain
  import TenantStore
  import DataService

  // ---------------------------------------------------------------------
  // Input validation.
  // ---------------------------------------------------------------------

  /** The characters taken as whitespace, among the first 256 code points:
      space, \t, \n, \v, \f, \r, NEL and NBSP. The validator is an external
      library; that it agrees with Go's `strings.TrimSpace` on this range is
      an assumption of the model. */
  predicate IsWhitespace(c: char)
  {
    c == ' ' || c == '\t' || c == '\n' || c == '\U{000B}' || c == '\U{000C}' || c == '\r'
    || c == '\U{0085}' || c == '\U{00A0}'
  }

  /** Neither empty nor whitespace only. */
  predicate NotBlank(s: string)
  {
    exists i :: 0 <= i < |s| && !IsWhitespace(s[i])
  }

  /** The string without its leading whitespace. */
  function TrimLeft(s: string): (t: string)
    ensures |t| <= |s| && t == s[|s| - |t|..]
    ensures forall i :: 0 <= i < |s| - |t| ==> IsWhitespace(s[i])
    ensures t == [] || !IsWhitespace(t[0])
  {
    if |s| > 0 && IsWhitespace(s[0]) then TrimLeft(s[1..]) else s
  }

  /** The string without its trailing whitespace. */
  function TrimRight(s: string): (t: string)
    ensures t <= s
    ensures forall i :: |t| <= i < |s| ==> IsWhitespace(s[i])
    ensures t == [] || !IsWhitespace(t[|t| - 1])
  {
    if |s| > 0 && IsWhitespace(s[|s| - 1]) then TrimRight(s[..|s| - 1]) else s
  }

  /** The reference the validator is read against: `strings.TrimSpace`, a
      slice of the input with only whitespace cut off at either end. */
  function TrimSpace(s: string): (t: string)
    ensures exists i, j :: 0 <= i <= j <= |s| && t == s[i..j]
              && (forall k :: 0 <= k < i || j <= k < |s| ==> IsWhitespace(s[k]))
    ensures t == [] || (!IsWhitespace(t[0]) && !IsWhitespace(t[|t| - 1]))
  {
    var l := TrimLeft(s);
    var r := TrimRight(l);
    TrimmedSlice(s, l, r);
    r
  }

  /** Trimming the left and then the right end leaves a slice of the input
      with whitespace only outside it. */
  lemma TrimmedSlice(s: string, l: string, r: string)
    requires |l| <= |s| && l == s[|s| - |l|..]
    requires forall k :: 0 <= k < |s| - |l| ==> IsWhitespace(s[k])
    requires l == [] || !IsWhitespace(l[0])
    requires r <= l
    requires forall k :: |r| <= k < |l| ==> IsWhitespace(l[k])
    requires r == [] || !IsWhitespace(r[|r| - 1])
    ensures exists i, j :: 0 <= i <= j <= |s| && r == s[i..j]
              && (forall k :: 0 <= k < i || j <= k < |s| ==> IsWhitespace(s[k]))
    ensures r == [] || (!IsWhitespace(r[0]) && !IsWhitespace(r[|r| - 1]))
  {
    var i := |s| - |l|;
    var j := i + |r|;
    assert r == s[i..j];
    forall k | j <= k < |s| ensures IsWhitespace(s[k]) {
      assert s[k] == l[k - i];
    }
    if r != [] {
      assert r[0] == l[0];
    }
  }

  /** A string is not blank exactly when trimming its whitespace leaves
      something: the validator rejects what `TrimSpace` empties. */
  lemma NotBlankIffTrimmedNonEmpty(s: string)
    ensures NotBlank(s) <==> TrimSpace(s) != []
  {
  }

  /** validateTenant: the secret key must not be blank. */
  predicate ValidTenant(tenant: Domain.Tenant)
  {
    NotBlank(tenant.secretKey)
  }

  /** The application counterpart: the name must not be blank. */
  predicate ValidApplication(application: Domain.Application)
  {
    NotBlank(application.name)
  }

  /** Examples: the inputs the tests use. "" and "   " are rejected,
      "Secret Key" and "Test Name" are accepted. */
  lemma BlankExamples()
    ensures !NotBlank("") && !NotBlank("   ")
    ensures NotBlank("Secret Key") && NotBlank("Test Name")
  {
    assert !IsWhitespace("Secret Key"[0]);
    assert !IsWhitespace("Test Name"[0]);
  }

  // ---------------------------------------------------------------------
  // Mapping between domain and data records.
  // ---------------------------------------------------------------------

  /** mapToDataTenant. */
  function MapToDataTenant(tenant: Domain.Tenant): (r: DataContract.Tenant)
    ensures r.secretKey == tenant.secretKey
  {
    DataContract.Tenant(tenant.secretKey)
  }

  /** mapFromDataTenant. */
  function MapFromDataTenant(tenant: DataContract.Tenant): (r: Domain.Tenant)
    ensures r.secretKey == tenant.secretKey
  {
    Domain.Tenant(tenant.secretKey)
  }

  /** Mapping a domain application to the data layer keeps its name. */
  function MapToDataApplication(application: Domain.Application): (r: DataContract.Application)
    ensures r.name == application.name
  {
    DataContract.Application(application.name)
  }

  /** Mapping a data application to the domain keeps its name. */
  function MapFromDataApplication(application: DataContract.Application): (r: Domain.Application)
    ensures r.name == application.name
  {
    Domain.Application(application.name)
  }

  /** The listing, mapped entry by entry: same ids, same names. */
  function MapFromDataApplications(applications: map<UUID, DataContract.Application>): (r: map<UUID, Domain.Application>)
    ensures r.Keys == applications.Keys
    ensures forall aid :: aid in r ==> r[aid].name == applications[aid].name
  {
    map aid | aid in applications :: MapFromDataApplication(applications[aid])
  }

  /** The two mappings are inverse to each other, in both orders. */
  lemma MappingsRoundTrip(d: Domain.Tenant, c: DataContract.Tenant, a: Domain.Application, b: DataContract.Application)
    ensures MapFromDataTenant(MapToDataTenant(d)) == d
    ensures MapToDataTenant(MapFromDataTenant(c)) == c
    ensures MapFromDataApplication(MapToDataApplication(a)) == a
    ensures MapToDataApplication(MapFromDataApplication(b)) == b
  {
  }

  // ---------------------------------------------------------------------
  // The service.
  // ---------------------------------------------------------------------

  class TenantService {
    /** The data service every call is forwarded to; Go allows it to be nil. */
    var tenantDataService: DataService.TenantDataService?

    constructor (tenantDataService: DataService.TenantDataService?)
      ensures this.tenantDataService == tenantDataService
    {
      this.tenantDataService := tenantDataService;
    }

    /** Create: validate, map, forward; the id and the error come back unchanged. */
    method Create(tenant: Domain.Tenant, generated: TenantStore.Generated, cluster: TenantStore.Cluster)
      returns (tenantID: UUID, err: Option<DataContract.Error>)
      requires tenantDataService != null
      requires ValidTenant(tenant)
      modifies tenantDataService
      ensures TenantStore.IdReply(tenantDataService.State(), tenantID, err)
              == TenantStore.CreateTenant(old(tenantDataService.State()), MapToDataTenant(tenant), generated, cluster)
    {
      tenantID, err := tenantDataService.Create(MapToDataTenant(tenant), generated, cluster);
    }

    /** Update: check the id, validate, map, forward the error unchanged. */
    method Update(tenantID: UUID, tenant: Domain.Tenant, cluster: TenantStore.Cluster) returns (err: Option<DataContract.Error>)
      requires tenantDataService != null
      requires tenantID != EmptyUUID
      requires ValidTenant(tenant)
      modifies tenantDataService
      ensures TenantStore.Reply(tenantDataService.State(), err)
              == TenantStore.UpdateTenant(old(tenantDataService.State()), tenantID, MapToDataTenant(tenant), cluster)
    {
      err := tenantDataService.Update(tenantID, MapToDataTenant(tenant), cluster);
    }

    /** Read: the zero tenant with the data service's error, or the mapped tenant. */
    method Read(tenantID: UUID, cluster: TenantStore.Cluster) returns (tenant: Domain.Tenant, err: Option<DataContract.Error>)
      requires tenantDataService != null
      requires tenantID != EmptyUUID
      ensures var r := TenantStore.ReadTenant(tenantDataService.State(), tenantID, cluster);
              && err == r.err
              && (err.Some? ==> tenant == Domain.EmptyTenant)
              && (err.None? ==> tenant.secretKey == r.tenant.secretKey)
    {
      var data;
      data, err := tenantDataService.Read(tenantID, cluster);
      if err.Some? {
        return Domain.EmptyTenant, err;
      }
      tenant := MapFromDataTenant(data);
    }

    /** Delete: check the id, forward the error unchanged. */
    method Delete(tenantID: UUID, cluster: TenantStore.Cluster) returns (err: Option<DataContract.Error>)
      requires tenantDataService != null
      requires tenantID != EmptyUUID
      modifies tenantDataService
      ensures TenantStore.Reply(tenantDataService.State(), err)
              == TenantStore.DeleteTenant(old(tenantDataService.State()), tenantID, cluster)
    {
      err := tenantDataService.Delete(tenantID, cluster);
    }

    /** CreateApplication: validate the name, map, forward. */
    method CreateApplication(tenantID: UUID, application: Domain.Application,
                             generated: TenantStore.Generated, cluster: TenantStore.Cluster)
      returns (applicationID: UUID, err: Option<DataContract.Error>)
      requires tenantDataService != null
      requires ValidApplication(application)
      modifies tenantDataService
      ensures TenantStore.IdReply(tenantDataService.State(), applicationID, err)
              == TenantStore.CreateApplication(old(tenantDataService.State()), tenantID, MapToDataApplication(application), generated, cluster)
    {
      applicationID, err := tenantDataService.CreateApplication(tenantID, MapToDataApplication(application), generated, cluster);
    }

    /** UpdateApplication: check both ids, validate the name, map, forward. */
    method UpdateApplication(tenantID: UUID, applicationID: UUID, application: Domain.Application, cluster: TenantStore.Cluster)
      returns (err: Option<DataContract.Error>)
      requires tenantDataService != null
      requires tenantID != EmptyUUID && applicationID != EmptyUUID
      requires ValidApplication(application)
      modifies tenantDataService
      ensures TenantStore.Reply(tenantDataService.State(), err)
              == TenantStore.UpdateApplication(old(tenantDataService.State()), tenantID, applicationID, MapToDataApplication(application), cluster)
    {
      err := tenantDataService.UpdateApplication(tenantID, applicationID, MapToDataApplication(application), cluster);
    }

    /** ReadApplication: the zero application with the data service's error,
        or the mapped application. */
    method ReadApplication(tenantID: UUID, applicationID: UUID, cluster: TenantStore.Cluster)
      returns (application: Domain.Application, err: Option<DataContract.Error>)
      requires tenantDataService != null
      requires tenantID != EmptyUUID && applicationID != EmptyUUID
      ensures var r := TenantStore.ReadApplication(tenantDataService.State(), tenantID, applicationID, cluster);
              && err == r.err
              && (err.Some? ==> application == Domain.EmptyApplication)
              && (err.None? ==> application.name == r.application.name)
    {
      var data;
      data, err := tenantDataService.ReadApplication(tenantID, applicationID, cluster);
      if err.Some? {
        return Domain.EmptyApplication, err;
      }
      application := MapFromDataApplication(data);
    }

    /** ReadAllApplications: an empty map with the data service's error, or
        the listing with the same ids and the same names. */
    method ReadAllApplications(tenantID: UUID, cluster: TenantStore.Cluster)
      returns (applications: map<UUID, Domain.Application>, err: Option<DataContract.Error>)
      requires tenantDataService != null
      requires tenantID != EmptyUUID
      ensures var r := TenantStore.ReadAllApplications(tenantDataService.State(), tenantID, cluster);
              && err == r.err
              && (err.Some? ==> applications == map[])
              && applications.Keys == r.applications.Keys
              && (forall aid :: aid in applications ==> applications[aid].name == r.applications[aid].name)
    {
      var data;
      data, err := tenantDataService.ReadAllApplications(tenantID, cluster);
      if err.Some? {
        return map[], err;
      }
      applications := MapFromDataApplications(data);
    }

    /** DeleteApplication: check both ids, forward. */
    method DeleteApplication(tenantID: UUID, applicationID: UUID, cluster: TenantStore.Cluster) returns (err: Option<DataContract.Error>)
      requires tenantDataService != null
      requires tenantID != EmptyUUID && applicationID != EmptyUUID
      modifies tenantDataService
      ensures TenantStore.Reply(tenantDataService.State(), err)
              == TenantStore.DeleteApplication(old(tenantDataService.State()), tenantID, applicationID, cluster)
    {
      err := tenantDataService.DeleteApplication(tenantID, applicationID, cluster);
    }
  }
}
