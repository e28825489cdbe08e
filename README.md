# TenantService: a verified model of the tenant and application store

TenantService is a multi-tenant registry. It creates, reads, updates and deletes
**tenants** (an id and a secret key) and, for each tenant, **applications** (an id
and a name). Both live in a Cassandra keyspace with two tables:

- `tenant(tenant_id PRIMARY KEY, secret_key)`
- `application(tenant_id, application_id, name, PRIMARY KEY(tenant_id, application_id))`

This project models two layers:

- **The data service** (`data/service/TenantDataService.go`). Every operation opens a
  session.
  - Create issues one INSERT (an upsert) with no probe.
  - Update and Delete probe the tenant, then issue one INSERT or one DELETE.
  - The reads issue a SELECT and write nothing.
  - The application operations probe the tenant first as well.
- **The business service** (`business/service/TenantService.go`). It checks its
  inputs, maps domain records to data records, and forwards each call.

Modules:

- `System` (`system.dfy`): UUIDs, the `EmptyUUID` sentinel, and `Option`. `None`
  stands for a nil Go `error`.
- `DataContract` (`data_contract.dfy`): the `Tenant` and `Application` records and
  the error kinds.
  - `TenantNotFound(tid)` is "Tenant not found. Tenant ID: %s".
  - `ApplicationNotFound(tid, aid)` is "Tenant Application not found. Tenant ID: %s, Application ID: %s".
  - `GeneratorFailed(e)` and `StorageFailed(e)` forward the collaborator's error verbatim.
  - The exact message text is modelled. Given canonical text for the UUIDs it
    names, a not-found message is proved to determine its error.
- `TenantStore` (`tenant_store.dfy`): the data layer as pure functions.
  - State: a `Keyspace`, which holds the two tables as finite maps.
  - Each operation yields the keyspace afterwards and the Go return values.
  - The Go helpers `addNewTenant`, `readTenant`, `doesTenantExist` and
    `doesApplicationExist` become functions of their own.
- `TenantStoreProperties` (`tenant_store_properties.dfy`): laws that relate several
  operations:
  - round trips
  - not-found after delete
  - tenant check before application check
  - ownership checked at write time, with no cascade on tenant delete
  - the listing after N creates
- `DataService` (`data_service.dfy`): the class `TenantDataService`.
  - Its two map fields are the tables.
  - Its writing methods mutate those fields; its reads and probes only inspect them.
  - Each method is proved to have exactly the effect and the result of its
    `TenantStore` function or predicate.
- `Domain` and `BusinessService` (`business_service.dfy`): the class `TenantService`.
  - Its Go panics (nil data service, empty id, blank secret key or name) are
    preconditions.
  - Mapping is by pure functions.
  - Every result and error of the data service is forwarded unchanged.

Collaborators are per-call parameters:

- `Generated(id) | GenerationFailed(reason)` is what the UUID generator answers.
- `Cluster` is what `CreateSession` does: `Unreachable(reason)` or `Connected(session)`.
- In a connected session, either every query works (`Working`) or every query fails
  (`Failing(reason)`).

### Where the code does what a caller may not expect (the model follows the code)

- **A failed query reads as "not found".** A probe or read whose query fails gets no
  row from `iter.Scan`. The error is never inspected, so an outage during
  Read/Update/Delete and the application operations is reported as `TenantNotFound`.
  A caller would expect a storage error here. See
  `FailingSessionReadsAsNotFound`, which covers every operation that probes a tenant.
- **A failed INSERT still returns the generated id.** `Create` returns the id
  together with the storage error (`data/service/TenantDataService.go:39-41`), not
  `EmptyUUID`. See `FailedInsertReturnsGeneratedId`.
- **The data layer validates nothing.**
  - Older data-layer tests expect a panic on a blank secret key, but the code never
    checks it. Only the business layer validates.
  - The same older tests expect a panic on `EmptyUUID` ids
    (`data/service/TenantDataServiceUpdate_test.go:51`,
    `data/service/TenantDataServiceRead_test.go:36-44`,
    `data/service/TenantDataServiceDelete_test.go:37-45`), but the code never raises
    one.
  - The model follows the code: the data-layer operations have no precondition on
    ids or keys.
- **Method names differ between versions.** The data service's methods are named
  `Create/Update/Read/Delete`, while the interface and the business layer call
  `CreateTenant/UpdateTenant/...`. The model keeps the file's names.

## Model

| member | source | states |
|---|---|---|
| `DataContract.Message` | data/service/TenantDataService.go:59-61 | a tenant not-found message is "Tenant not found. Tenant ID: " followed by the id's text; an application not-found message is its prefix, then the tenant id's text, then ", Application ID: " and the application id's text; generator and storage errors keep their own text |
| `DataContract.NotFoundMessageDeterminesError` | data/service/TenantDataServiceDeleteApplicationIntegration_test.go:40-57 | when the ids the two errors name have 36-character, injective text, equal not-found messages mean the same error kind and the same ids, so tests that compare messages compare errors |
| `DataContract.CanonicalTextExists` | data/service/TenantDataService.go:177 | for any four UUIDs (as many as two application errors name) there is a rendering that is canonical on all of them, so the requirement of NotFoundMessageDeterminesError can be met |
| `TenantStore.TenantExists` | data/service/TenantDataService.go:185-196 | the probe finds the tenant exactly when the session works and the tenant row is stored; a failing query finds nothing |
| `TenantStore.ApplicationExists` | data/service/TenantDataService.go:199-212 | the probe finds the application exactly when the session works and the (tid, aid) row is stored |
| `TenantStore.AddNewTenant` | data/service/TenantDataService.go:153-163 | the INSERT is an upsert: on success the row for the id holds the new key, every other tenant row and the whole application table are unchanged; a failed query returns its error and writes nothing |
| `TenantStore.ReadTenantRow` | data/service/TenantDataService.go:166-182 | succeeds exactly when the probe sees the row, returning its secret key; otherwise the zero Tenant with TenantNotFound(id) |
| `TenantStore.DeleteTenantRow` | data/service/TenantDataService.go:102-109 | on success removes only that tenant row, keeps the other rows' keys and leaves applications untouched |
| `TenantStore.AddNewApplication` | data/service/TenantDataServiceCreateApplicationIntegration_test.go:94-132 | upsert by composite key: that row holds the new name, all other application rows and the tenant table are unchanged |
| `TenantStore.ReadApplicationRow` | data/service/TenantDataServiceReadApplicationIntegration_test.go:41-59 | succeeds exactly when the composite-key row is seen, returning its name; otherwise the zero Application with ApplicationNotFound(tid, aid) |
| `TenantStore.DeleteApplicationRow` | data/service/TenantDataServiceDeleteApplicationIntegration_test.go:60-90 | on success removes only that composite-key row and leaves tenants untouched |
| `TenantStore.ApplicationsOf` | data/service/TenantDataServiceReadAllApplicationsIntegration_test.go:50-58 | the partition scan holds an id exactly when (tid, id) is stored, with that row's name |
| `TenantStore.CreateTenant` | data/service/TenantDataService.go:21-42 | generator failure gives (EmptyUUID, that error) with storage untouched; session failure likewise; once the session is open the generated id is returned, also alongside the error of a failing INSERT; success exactly when generator and storage work, storing id -> secret key and changing nothing else; any error leaves both tables unchanged |
| `TenantStore.UpdateTenant` | data/service/TenantDataService.go:48-64 | an absent tenant, or one a failing session cannot see, gives TenantNotFound(id) and no change; success exactly when the tenant exists, replacing only its key and never adding a tenant |
| `TenantStore.ReadTenant` | data/service/TenantDataService.go:69-82 | an absent tenant, or one a failing session cannot see, gives the zero Tenant with TenantNotFound(id); success exactly when present, returning the stored key; no state change is possible |
| `TenantStore.DeleteTenant` | data/service/TenantDataService.go:87-110 | an absent tenant, or one a failing session cannot see, gives TenantNotFound(id) and no change; success exactly when present, removing only that tenant row and leaving every application row (no cascade) |
| `TenantStore.CreateApplication` | data/service/TenantDataServiceCreateApplicationIntegration_test.go:48-92 | an unknown or unseen tenant gives (EmptyUUID, TenantNotFound) before the generator is asked; once the tenant is found the generated id is returned; generator failure gives (EmptyUUID, that error); success exactly when the tenant exists and an id is generated, storing (tid, id) -> name and nothing else |
| `TenantStore.ReadApplication` | data/service/TenantDataServiceReadApplicationIntegration_test.go:30-59 | unknown tenant gives TenantNotFound even if the row exists; known tenant without the row gives ApplicationNotFound(tid, aid); errors come with the zero Application; success returns the stored name |
| `TenantStore.ReadAllApplications` | data/service/TenantDataServiceReadAllApplicationsIntegration_test.go:29-58 | unknown tenant gives TenantNotFound and an empty map; otherwise no error and exactly the tenant's applications id -> name (empty when it has none) |
| `TenantStore.UpdateApplication` | data/service/TenantDataServiceUpdateApplicationIntegration_test.go:29-78 | tenant check first, then application check, each failure writing nothing; success exactly when both exist, replacing only that row's name |
| `TenantStore.DeleteApplication` | data/service/TenantDataServiceDeleteApplicationIntegration_test.go:39-90 | tenant check first, then application check, each failure writing nothing; success removes only that row |
| `TenantStoreProperties.CreateThenReadTenant` | data/service/TenantDataServiceReadTenantIntegration_test.go:49-65 | reading the id returned by a successful Create yields the same secret key |
| `TenantStoreProperties.UpdateThenReadTenant` | data/service/TenantDataServiceUpdateTenantIntegration_test.go:54-92 | after Update, Read returns the new key and every other tenant reads as before |
| `TenantStoreProperties.DeletedTenantIsNotFound` | data/service/TenantDataServiceDeleteTenantIntegration_test.go:48-88 | after a successful Delete, Read, Update and a second Delete all fail with TenantNotFound(id) |
| `TenantStoreProperties.FreshCreateAddsOneTenant` | data/service/TenantDataService.go:25-41 | a generated id not yet in use adds exactly one tenant row |
| `TenantStoreProperties.FailingSessionReadsAsNotFound` | data/service/TenantDataService.go:176-178 | with a failing session, a stored tenant is reported as TenantNotFound(tid) by Read, Update, Delete and all five application operations, with the zero values and no write |
| `TenantStoreProperties.FailedInsertReturnsGeneratedId` | data/service/TenantDataService.go:39-41 | with a failing session, Create returns the generated id together with the storage error and writes nothing |
| `TenantStoreProperties.TenantCheckComesFirst` | data/service/TenantDataServiceDeleteApplicationIntegration_test.go:40-48 | for an unknown tenant all five application operations fail with TenantNotFound(tid) and write nothing, whatever application rows exist |
| `TenantStoreProperties.ApplicationRoundTrips` | data/service/TenantDataServiceUpdateApplicationIntegration_test.go:47-78 | create, update and delete of an application are each seen by the next read of the same composite key; a second delete gives ApplicationNotFound |
| `TenantStoreProperties.ApplicationOperationsKeepTenants` | data/contract/TenantDataServiceContract.go:39-62 | no application operation changes the tenant table |
| `TenantStoreProperties.ApplicationsOwned` | data/service/TenantDataServiceCreateApplicationIntegration_test.go:86-92 | the ownership invariant: every application row's tenant has a tenant row |
| `TenantStoreProperties.OwnershipPreserved` | data/service/TenantDataServiceCreateApplicationIntegration_test.go:86-92 | if every application row has its tenant, every operation other than tenant delete keeps it so (the write-time check) |
| `TenantStoreProperties.DeleteTenantOrphansApplications` | data/service/TenantDataService.go:98-109 | deleting a tenant leaves its application rows in place, now without a tenant |
| `TenantStoreProperties.ListingAfterCreate` | data/service/TenantDataServiceReadAllApplicationsIntegration_test.go:50-58 | one successful create adds exactly its own entry to the tenant's listing |
| `TenantStoreProperties.CreateKeepsOtherListings` | data/service/TenantDataServiceReadAllApplicationsIntegration_test.go:29-38 | creating an application under one tenant never changes another tenant's listing |
| `TenantStoreProperties.UpdateKeepsOtherListings` | data/service/TenantDataServiceReadAllApplicationsIntegration_test.go:29-38 | renaming an application under one tenant never changes another tenant's listing |
| `TenantStoreProperties.DeleteKeepsOtherListings` | data/service/TenantDataServiceReadAllApplicationsIntegration_test.go:29-38 | deleting an application under one tenant never changes another tenant's listing |
| `TenantStoreProperties.SamePartition` | data/service/TenantDataService.go:199-212 | rows outside a tenant's partition do not affect that tenant's listing |
| `TenantStoreProperties.CreateAll` | data/service/TenantDataServiceCommonIntegration_test.go:119-140 | creating several applications in a row never changes the tenant table |
| `TenantStoreProperties.Listing` | data/service/TenantDataServiceCommonIntegration_test.go:126-137 | the expected listing has exactly the created ids as keys |
| `TenantStoreProperties.ListingValues` | data/service/TenantDataServiceCommonIntegration_test.go:128-137 | with distinct ids, the expected listing maps each created id to the application created with it |
| `TenantStoreProperties.ListingAfterCreates` | data/service/TenantDataServiceReadAllApplicationsIntegration_test.go:50-58 | after N creates, ReadAllApplications returns the earlier listing plus exactly the created id -> name entries, last write winning, with no error |
| `TenantStoreProperties.ScanAfterCreates` | data/service/TenantDataServiceCommonIntegration_test.go:119-140 | the partition scan after N creates, proved by induction on N |
| `TenantStoreProperties.ListingSize` | data/service/TenantDataServiceCommonIntegration_test.go:128-137 | N distinct created ids give a listing of N entries |
| `TenantStoreProperties.Lifecycle` | data/contract/TenantDataServiceContract.go:21-62 | create tenant, create, rename and delete an application, delete the tenant: every step succeeds and every read sees the last write, then not-found |
| `DataService.TenantDataService.Create` | data/service/TenantDataService.go:21-42 | the tables and the returned (id, error) are exactly those of TenantStore.CreateTenant |
| `DataService.TenantDataService.Update` | data/service/TenantDataService.go:48-64 | probe then upsert, with exactly the effect and error of TenantStore.UpdateTenant |
| `DataService.TenantDataService.Read` | data/service/TenantDataService.go:69-82 | returns what TenantStore.ReadTenant gives, changing nothing |
| `DataService.TenantDataService.Delete` | data/service/TenantDataService.go:87-110 | probe then delete, with exactly the effect and error of TenantStore.DeleteTenant |
| `DataService.TenantDataService.CreateApplication` | data/contract/TenantDataServiceContract.go:39-43 | exactly the effect and result of TenantStore.CreateApplication |
| `DataService.TenantDataService.UpdateApplication` | data/contract/TenantDataServiceContract.go:45-50 | exactly the effect and error of TenantStore.UpdateApplication |
| `DataService.TenantDataService.ReadApplication` | data/contract/TenantDataServiceContract.go:52-56 | returns what TenantStore.ReadApplication gives, changing nothing |
| `DataService.TenantDataService.ReadAllApplications` | data/service/TenantDataServiceReadAllApplicationsIntegration_test.go:29-58 | returns what TenantStore.ReadAllApplications gives, changing nothing |
| `DataService.TenantDataService.DeleteApplication` | data/contract/TenantDataServiceContract.go:58-62 | exactly the effect and error of TenantStore.DeleteApplication |
| `DataService.TenantDataService.AddNewTenant` | data/service/TenantDataService.go:153-163 | the upsert on the tenant field, as TenantStore.AddNewTenant |
| `DataService.TenantDataService.AddNewApplication` | data/service/TenantDataServiceCreateApplicationIntegration_test.go:94-132 | the upsert on the application field, as TenantStore.AddNewApplication |
| `DataService.TenantDataService.DeleteTenantRow` | data/service/TenantDataService.go:102-109 | the DELETE on the tenant field, as TenantStore.DeleteTenantRow |
| `DataService.TenantDataService.DeleteApplicationRow` | data/service/TenantDataServiceDeleteApplicationIntegration_test.go:60-90 | the DELETE on the application field, as TenantStore.DeleteApplicationRow |
| `DataService.TenantDataService.ReadTenantRow` | data/service/TenantDataService.go:166-182 | the SELECT of readTenant, as TenantStore.ReadTenantRow |
| `DataService.TenantDataService.DoesTenantExist` | data/service/TenantDataService.go:185-196 | the probe of TenantStore.TenantExists on the current tables: found exactly when that predicate holds |
| `DataService.TenantDataService.DoesApplicationExist` | data/service/TenantDataService.go:199-212 | the probe of TenantStore.ApplicationExists on the current tables: found exactly when that predicate holds |
| `BusinessService.IsWhitespace` | business/service/TenantService.go:67 | the characters taken as whitespace: space, \t, \n, \v, \f, \r, NEL and NBSP |
| `BusinessService.NotBlank` | business/service/TenantService.go:67 | a string passes when it has a character that is not whitespace |
| `BusinessService.ValidTenant` | business/service/TenantService.go:66-68 | validateTenant: the secret key is not blank |
| `BusinessService.ValidApplication` | business/service/TenantServiceCreateApplication_test.go:52-58 | the application name is not blank |
| `BusinessService.TrimLeft` | business/service/TenantService.go:67 | a suffix of the input whose dropped characters are all whitespace and which is empty or starts with a non-whitespace character |
| `BusinessService.TrimRight` | business/service/TenantService.go:67 | a prefix of the input whose dropped characters are all whitespace and which is empty or ends with a non-whitespace character |
| `BusinessService.TrimSpace` | business/service/TenantService.go:67 | the result is a slice s[i..j] of the input with only whitespace outside it, and is empty or starts and ends with a non-whitespace character |
| `BusinessService.TrimmedSlice` | business/service/TenantService.go:67 | what TrimLeft and then TrimRight leave is a slice of the input with only whitespace outside it, starting and ending with non-whitespace when non-empty |
| `BusinessService.NotBlankIffTrimmedNonEmpty` | business/service/TenantService.go:66-68 | the validator accepts a string exactly when trimming its whitespace leaves something |
| `BusinessService.BlankExamples` | business/service/TenantServiceCreate_test.go:53-60 | examples from the tests: "" and "   " are blank; "Secret Key" and "Test Name" are not |
| `BusinessService.MapToDataTenant` | business/service/TenantService.go:73-75 | the data tenant carries the same secret key |
| `BusinessService.MapFromDataTenant` | business/service/TenantService.go:80-82 | the domain tenant carries the same secret key |
| `BusinessService.MapToDataApplication` | business/service/TenantServiceUpdateApplication_test.go:99-105 | the data application carries the same name |
| `BusinessService.MapFromDataApplication` | business/service/TenantServiceReadApplication_test.go:87-101 | the domain application carries the same name |
| `BusinessService.MapFromDataApplications` | business/service/TenantServiceReadAllApplications_test.go:97-120 | the mapped listing has the same ids and the same names |
| `BusinessService.MappingsRoundTrip` | business/service/TenantService.go:73-82 | domain -> data -> domain and data -> domain -> data are both the identity, for tenants and applications |
| `BusinessService.TenantService.Create` | business/service/TenantService.go:18-24 | requires a data service and a non-blank key; forwards the mapped tenant; the id, error and new tables are the data layer's |
| `BusinessService.TenantService.Update` | business/service/TenantService.go:30-37 | requires a data service, a non-empty id and a non-blank key; forwards the mapped tenant and returns the data layer's error |
| `BusinessService.TenantService.Read` | business/service/TenantService.go:42-53 | requires a data service and a non-empty id; on error the zero tenant with the data layer's error, else the data layer's secret key |
| `BusinessService.TenantService.Delete` | business/service/TenantService.go:58-63 | requires a data service and a non-empty id; the data layer's effect and error |
| `BusinessService.TenantService.CreateApplication` | business/service/TenantServiceCreateApplication_test.go:43-127 | requires a data service and a non-blank name; forwards the mapped application; the id, error and new tables are the data layer's |
| `BusinessService.TenantService.UpdateApplication` | business/service/TenantServiceUpdateApplication_test.go:45-137 | requires a data service, both ids non-empty and a non-blank name; the data layer's effect and error |
| `BusinessService.TenantService.ReadApplication` | business/service/TenantServiceReadApplication_test.go:39-118 | requires a data service and both ids non-empty; on error the zero application with the data layer's error, else the data layer's name |
| `BusinessService.TenantService.ReadAllApplications` | business/service/TenantServiceReadAllApplications_test.go:38-136 | requires a data service and a non-empty id; on error an empty map with the data layer's error, else the same ids and names |
| `BusinessService.TenantService.DeleteApplication` | business/service/TenantServiceDeleteApplication_test.go:37-111 | requires a data service and both ids non-empty; the data layer's effect and error |

## Left out

- `TenantStore.ReadAllApplications` and `DataService.TenantDataService.ReadAllApplications`
  are modelled from `data/service/TenantDataServiceReadAllApplicationsIntegration_test.go`
  alone. The operation has no stub in the data service and no method in the data
  contract.
- The other application operations of the data service panic with "Not implemented"
  in `data/service/TenantDataService.go:116-143`. Their behaviour is taken from the
  interface comments and the integration tests instead:
  - create: session, tenant probe, generator, write
  - update, read and delete: session, tenant probe, application probe, then the write or read
  - `TenantStore.CreateApplication` states that the generated id is returned once the
    tenant is found, as tenant `Create` does. A failed INSERT after a successful probe
    does not arise in the model, because a session either answers every query or none.
- The business layer's application methods are not in `business/service/TenantService.go`.
  They are modelled from their tests: `CreateApplication` requires only a non-blank
  name, and the other methods also require non-empty ids.
- Session open and close, query strings, iterators, and the UUID byte conversion
  (`data/service/TenantDataService.go:146-150`). The session is the `Cluster`
  parameter and UUIDs are opaque.
- The nil checks on `UUIDGeneratorService` and `ClusterConfig` in the data service.
  The generator's answer and the cluster's behaviour are parameters that always
  exist, so there is nothing to be nil.
- How random UUIDs are generated. The generator's answer is a parameter. The model
  does not assume it is fresh: a reused id overwrites, as the upsert does.
- Concurrency. Each call is modelled as one atomic step, so the race between
  DeleteTenant and CreateApplication, and last-write-wins between concurrent
  updates, are not modelled.
- Storage faults with finer grain than "every query of this session fails". A
  failing write is modelled as writing nothing.
- `BusinessService.IsWhitespace`: the blank check lives in an external library that
  the source only calls. The model assumes that it treats whitespace as Go's
  `strings.TrimSpace` does, and covers only the first 256 code points. The other
  Unicode space characters are not modelled.
- The formatting of a UUID as text. `Message` takes it as a function parameter.
- The GraphQL resolvers and schema, HTTP transport and server, Consul configuration
  and flag parsing. These are gateway and process glue around the core.
