/** The records the data layer stores and returns, and the errors it reports
    (data/contract/TenantDataServiceContract.go). */
module DataContract {
  import opened System

  /** A tenant row as the data layer sees it: only the secret key. */
  datatype Tenant = Tenant(secretKey: string)

  /** An application row as the data layer sees it: only the name. */
  datatype Application = Application(name: string)

  /** The zero values `contract.Tenant{}` and `contract.Application{}`. */
  const EmptyTenant: Tenant := Tenant("")
  const EmptyApplication: Application := Application("")

  /** Every error the data layer can return. The two not-found kinds are the
      ones the data layer builds itself; the other two are forwarded verbatim
      from the identifier generator and from the Cassandra driver. */
  datatype Error =
    | TenantNotFound(tenantID: UUID)
    | ApplicationNotFound(tenantID: UUID, applicationID: UUID)
    | GeneratorFailed(reason: string)
    | StorageFailed(reason: string)

  const TenantNotFoundPrefix: string := "Tenant not found. Tenant ID: "
  const ApplicationNotFoundPrefix: string := "Tenant Application not found. Tenant ID: "
  const ApplicationIDSeparator: string := ", Application ID: "

  /** The identifiers an error names. */
  function ErrorIDs(e: Error): set<UUID>
  {
    match e
    case TenantNotFound(t) => {t}
    case ApplicationNotFound(t, a) => {t, a}
    case GeneratorFailed(_) => {}
    case StorageFailed(_) => {}
  }

  /** `idText` renders the given UUIDs in canonical form: 36 characters each,
      and two of them with the same text are the same UUID. */
  ghost predicate CanonicalOn(idText: UUID -> string, ids: set<UUID>)
  {
    && (forall u :: u in ids ==> |idText(u)| == 36)
    && (forall u, v :: u in ids && v in ids && idText(u) == idText(v) ==> u == v)
  }

  /** The text of the Go error value; `idText` renders a UUID the way
      `UUID.String()` does. Callers and tests compare errors by this text. */
  function Message(e: Error, idText: UUID -> string): (m: string)
    ensures e.TenantNotFound? ==> TenantNotFoundPrefix <= m && m[|TenantNotFoundPrefix|..] == idText(e.tenantID)
    ensures e.ApplicationNotFound? ==>
              var suffix := ApplicationIDSeparator + idText(e.applicationID);
              && ApplicationNotFoundPrefix <= m
              && |m| == |ApplicationNotFoundPrefix| + |idText(e.tenantID)| + |suffix|
              && m[|ApplicationNotFoundPrefix|..|ApplicationNotFoundPrefix| + |idText(e.tenantID)|] == idText(e.tenantID)
              && m[|m| - |suffix|..] == suffix
    ensures e.GeneratorFailed? || e.StorageFailed? ==> m == e.reason
  {
    match e
    case TenantNotFound(t) => TenantNotFoundPrefix + idText(t)
    case ApplicationNotFound(t, a) => ApplicationNotFoundPrefix + idText(t) + ApplicationIDSeparator + idText(a)
    case GeneratorFailed(reason) => reason
    case StorageFailed(reason) => reason
  }

  /** With canonical text for the UUIDs they name, the message of a not-found
      error names its kind and its identifiers unambiguously: equal messages
      mean equal errors. */
  lemma NotFoundMessageDeterminesError(e1: Error, e2: Error, idText: UUID -> string)
    requires CanonicalOn(idText, ErrorIDs(e1) + ErrorIDs(e2))
    requires e1.TenantNotFound? || e1.ApplicationNotFound?
    requires e2.TenantNotFound? || e2.ApplicationNotFound?
    requires Message(e1, idText) == Message(e2, idText)
    ensures e1 == e2
  {
    var m := Message(e1, idText);
    if e1.TenantNotFound? && e2.TenantNotFound? {
      assert idText(e1.tenantID) == m[|TenantNotFoundPrefix|..];
      assert idText(e2.tenantID) == m[|TenantNotFoundPrefix|..];
    } else if e1.ApplicationNotFound? && e2.ApplicationNotFound? {
      var p := |ApplicationNotFoundPrefix|;
      var q := p + 36 + |ApplicationIDSeparator|;
      assert idText(e1.tenantID) == m[p..p + 36];
      assert idText(e2.tenantID) == m[p..p + 36];
      assert idText(e1.applicationID) == m[q..];
      assert idText(e2.applicationID) == m[q..];
    }
    // A tenant message and an application message already differ in their
    // fixed prefixes ("Tenant not found" against "Tenant Application").
  }

  /** The requirement of NotFoundMessageDeterminesError can be met: for any
      four UUIDs (as many as two application errors name) some rendering is
      canonical on all of them. */
  lemma CanonicalTextExists(t1: UUID, a1: UUID, t2: UUID, a2: UUID)
    ensures exists idText: UUID -> string :: CanonicalOn(idText, {t1, a1, t2, a2})
  {
    var s0 := "00000000-0000-0000-0000-000000000000";
    var s1 := "00000000-0000-0000-0000-000000000001";
    var s2 := "00000000-0000-0000-0000-000000000002";
    var s3 := "00000000-0000-0000-0000-000000000003";
    var idText := (w: UUID) => if w == t1 then s0 else if w == a1 then s1 else if w == t2 then s2 else s3;
    assert s0[35] == '0' && s1[35] == '1' && s2[35] == '2' && s3[35] == '3';
    assert CanonicalOn(idText, {t1, a1, t2, a2});
  }
}
