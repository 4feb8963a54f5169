/**
 The status aggregator behind GET /info. Every ambient input of the service
 is a parameter here: the process environment, the clock, the heap
 in use, the runtime version, and the outcome of each database probe.
 */
module InfoService {
  import opened Js
  import opened AppInfo
  import DocsUrl

  /** The environment variables the service reads; `None` is an unset variable. */
  datatype ProcessEnv = ProcessEnv(
    nodeEnv: Option<string>,
    host: Option<string>,
    port: Option<string>,
    npmPackageVersion: Option<string>,
    npmPackageName: Option<string>)

  /** What the process looks like at the moment of one request. */
  datatype Runtime = Runtime(env: ProcessEnv, nowMillis: int, heapUsed: nat, nodeVersion: string)

  /** Outcome of one `SELECT 1` round trip to the database. */
  datatype ProbeOutcome = ProbeSucceeded | ProbeThrew

  datatype DatabaseInfo = DatabaseInfo(provider: string, status: DatabaseStatus)

  /** An instance of the service: the metadata it reports and its start time. */
  datatype Service = Service(appInfo: AppMetadata, startTime: int)

  datatype PackageInfo = PackageInfo(version: string, name: string)

  datatype BackendInfo = BackendInfo(
    name: string,
    version: string,
    description: string,
    author: string,
    environment: Environment,
    lastUpdated: int,
    startTime: int,
    uptime: int,
    nodeVersion: string,
    status: AppStatus,
    apiDocsUrl: string,
    database: DatabaseInfo)

  datatype HealthCheck = HealthCheck(status: AppStatus, database: DatabaseInfo, timestamp: int)

  /** Heap usage above which the application reports itself degraded: 500 MiB. */
  const MemoryThreshold: nat := 500 * 1024 * 1024

  const DefaultHost: string := "localhost"
  const DefaultPort: string := "3000"

  /** Constructing the service records the clock once; nothing changes it later. */
  function NewService(appInfo: AppMetadata, nowMillis: int): (s: Service)
    ensures s.startTime == nowMillis && s.appInfo == appInfo
  {
    Service(appInfo, nowMillis)
  }

  /** Maps one probe outcome to the reported database information. */
  function GetDatabaseInfo(probe: ProbeOutcome): (d: DatabaseInfo)
    ensures d.provider == DatabaseProvider
    ensures d.status != Disconnected
    ensures d.status == Connected <==> probe == ProbeSucceeded
    ensures d.status == Error <==> probe == ProbeThrew
  {
    match probe
    case ProbeSucceeded => DatabaseInfo(DatabaseProvider, Connected)
    case ProbeThrew => DatabaseInfo(DatabaseProvider, Error)
  }

  // An independent reading of the health rule: each signal gives its own
  // verdict and the application takes the worst of them.

  function Severity(s: AppStatus): nat {
    match s
    case Healthy => 0
    case Degraded => 1
    case Unhealthy => 2
  }

  function Worst(a: AppStatus, b: AppStatus): AppStatus {
    if Severity(a) >= Severity(b) then a else b
  }

  function DatabaseVerdict(d: DatabaseStatus): AppStatus {
    match d
    case Connected => Healthy
    case Disconnected => Degraded
    case Error => Unhealthy
  }

  function MemoryVerdict(heapUsed: nat): AppStatus {
    if heapUsed > MemoryThreshold then Degraded else Healthy
  }

  /** The health rule, checked in order: database error, disconnection, heap. */
  function DecideHealth(db: DatabaseStatus, heapUsed: nat): (r: AppStatus)
    ensures r == Worst(DatabaseVerdict(db), MemoryVerdict(heapUsed))
    ensures r == Unhealthy <==> db == Error
    ensures r == Healthy <==> db == Connected && heapUsed <= MemoryThreshold
  {
    if db == Error then Unhealthy
    else if db == Disconnected then Degraded
    else if heapUsed > MemoryThreshold then Degraded
    else Healthy
  }

  /** More heap in use never makes the verdict better. */
  lemma DecideHealthMonotoneInHeap(db: DatabaseStatus, h1: nat, h2: nat)
    requires h1 <= h2
    ensures Severity(DecideHealth(db, h1)) <= Severity(DecideHealth(db, h2))
  {
  }

  /** Health as derived from its own probe: the disconnected branch is never taken. */
  function GetHealthStatus(probe: ProbeOutcome, heapUsed: nat): (r: AppStatus)
    ensures r == Unhealthy <==> probe == ProbeThrew
    ensures r == Degraded <==> probe == ProbeSucceeded && heapUsed > MemoryThreshold
    ensures r == Healthy <==> probe == ProbeSucceeded && heapUsed <= MemoryThreshold
  {
    DecideHealth(GetDatabaseInfo(probe).status, heapUsed)
  }

  /** `NODE_ENV`, lower-cased, picks production or test; everything else is development. */
  function GetEnvironment(nodeEnv: Option<string>): (e: Environment)
    ensures e == Production <==> nodeEnv.Some? && SpellsIgnoringCase(nodeEnv.value, "production")
    ensures e == Test <==> nodeEnv.Some? && SpellsIgnoringCase(nodeEnv.value, "test")
  {
    match nodeEnv
    case None => Development
    case Some(v) =>
      ToLowerCaseMatches(v, "production");
      ToLowerCaseMatches(v, "test");
      var lower := ToLowerCase(v);
      if lower == "production" then Production
      else if lower == "test" then Test
      else Development
  }

  /** Each environment's own name classifies back to it. */
  lemma GetEnvironmentOfName(e: Environment)
    ensures GetEnvironment(Some(e.Name())) == e
  {
  }

  /** Milliseconds since the service was constructed. */
  function GetUptime(svc: Service, nowMillis: int): (u: int)
    ensures svc.startTime + u == nowMillis
    ensures nowMillis >= svc.startTime ==> u >= 0
  {
    nowMillis - svc.startTime
  }

  /** Uptime grows with the clock. */
  lemma UptimeMonotone(svc: Service, t1: int, t2: int)
    requires t1 <= t2
    ensures GetUptime(svc, t1) <= GetUptime(svc, t2)
    ensures GetUptime(svc, t2) - GetUptime(svc, t1) == t2 - t1
  {
  }

  /** The last-updated date is the start time. */
  function GetLastUpdated(svc: Service): (t: int)
    ensures t == svc.startTime
  {
    svc.startTime
  }

  /** `HOST || 'localhost'`, the host written into the docs URL. */
  function DocsHost(env: ProcessEnv): (h: string)
    ensures h != ""
    ensures Truthy(env.host) ==> h == env.host.value
    ensures !Truthy(env.host) ==> h == DefaultHost
  {
    OrElse(env.host, DefaultHost)
  }

  /** `PORT || 3000`, the port written into the docs URL. */
  function DocsPort(env: ProcessEnv): (p: string)
    ensures p != ""
    ensures Truthy(env.port) ==> p == env.port.value
    ensures !Truthy(env.port) ==> p == DefaultPort
  {
    OrElse(env.port, DefaultPort)
  }

  /**
   The docs URL: https exactly in production, the configured or default host
   and port, and the docs path. For any host the URL is the scheme, the
   authority `host:port` and the docs path in that order; for a host without
   ':' the three parts can also be read back out of the URL.
   */
  function GetApiDocsUrl(env: ProcessEnv): (url: string)
    ensures DocsUrl.HasPrefix(url, "https://") <==> GetEnvironment(env.nodeEnv) == Production
    ensures var scheme := DocsUrl.Scheme(GetEnvironment(env.nodeEnv) == Production) + "://";
      && DocsUrl.HasPrefix(url, scheme)
      && |scheme| + |DocsBasePath| <= |url|
      && url[|url| - |DocsBasePath|..] == DocsBasePath
      && url[|scheme|..|url| - |DocsBasePath|] == DocsHost(env) + ":" + DocsPort(env)
    ensures ':' !in DocsHost(env) ==>
      DocsUrl.Parse(url) == Some(DocsUrl.Location(GetEnvironment(env.nodeEnv) == Production, DocsHost(env), DocsPort(env)))
  {
    var loc := DocsUrl.Location(GetEnvironment(env.nodeEnv) == Production, DocsHost(env), DocsPort(env));
    var url := DocsUrl.Format(loc);
    DocsUrl.FormatLayout(loc);
    assert ':' !in loc.host ==> DocsUrl.Parse(url) == Some(loc) by {
      if ':' !in loc.host { DocsUrl.ParseFormat(loc); }
    }
    url
  }

  /** Version and name as the package manager reports them, with the metadata as fallback. */
  function GetPackageInfo(appInfo: AppMetadata, env: ProcessEnv): (p: PackageInfo)
    ensures Truthy(env.npmPackageVersion) ==> p.version == env.npmPackageVersion.value
    ensures !Truthy(env.npmPackageVersion) ==> p.version == appInfo.version
    ensures Truthy(env.npmPackageName) ==> p.name == env.npmPackageName.value
    ensures !Truthy(env.npmPackageName) ==> p.name == appInfo.name
  {
    PackageInfo(OrElse(env.npmPackageVersion, appInfo.version), OrElse(env.npmPackageName, appInfo.name))
  }

  /** With the environment unchanged since the constants were loaded, the version is `npm_package_version` or 1.0.0. */
  lemma PackageVersionFallback(env: ProcessEnv)
    ensures var v := GetPackageInfo(Load(env.npmPackageVersion), env).version;
      v == (if Truthy(env.npmPackageVersion) then env.npmPackageVersion.value else DefaultVersion)
  {
  }

  /**
   The snapshot served by GET /info. The database field comes from the first
   probe and the status from a second probe made inside the health check.
   */
  function GetBackendInfo(svc: Service, rt: Runtime, directProbe: ProbeOutcome, healthProbe: ProbeOutcome): (r: BackendInfo)
    ensures r.name == svc.appInfo.name
    ensures r.description == svc.appInfo.description && r.author == svc.appInfo.author
    ensures Truthy(rt.env.npmPackageVersion) ==> r.version == rt.env.npmPackageVersion.value
    ensures !Truthy(rt.env.npmPackageVersion) ==> r.version == svc.appInfo.version
    ensures r.startTime == svc.startTime && r.lastUpdated == svc.startTime
    ensures r.startTime + r.uptime == rt.nowMillis
    ensures r.nodeVersion == rt.nodeVersion
    ensures r.environment == GetEnvironment(rt.env.nodeEnv)
    ensures r.apiDocsUrl == GetApiDocsUrl(rt.env)
    ensures r.database == GetDatabaseInfo(directProbe)
    ensures r.status == GetHealthStatus(healthProbe, rt.heapUsed)
  {
    var packageInfo := GetPackageInfo(svc.appInfo, rt.env);
    var databaseInfo := GetDatabaseInfo(directProbe);
    var healthStatus := GetHealthStatus(healthProbe, rt.heapUsed);
    BackendInfo(
      svc.appInfo.name,
      packageInfo.version,
      svc.appInfo.description,
      svc.appInfo.author,
      GetEnvironment(rt.env.nodeEnv),
      GetLastUpdated(svc),
      svc.startTime,
      GetUptime(svc, rt.nowMillis),
      rt.nodeVersion,
      healthStatus,
      GetApiDocsUrl(rt.env),
      databaseInfo)
  }

  /** The reported name is the constant one, whatever `npm_package_name` holds. */
  lemma SnapshotNameIgnoresPackageName(svc: Service, rt: Runtime, p1: ProbeOutcome, p2: ProbeOutcome, name: Option<string>)
    ensures var rt' := rt.(env := rt.env.(npmPackageName := name));
      GetBackendInfo(svc, rt', p1, p2).name == GetBackendInfo(svc, rt, p1, p2).name
  {
  }

  /** Two snapshots of one service share their start time, and uptime follows the clock. */
  lemma SnapshotsShareStartTime(svc: Service, rt1: Runtime, rt2: Runtime, p1: ProbeOutcome, p2: ProbeOutcome, q1: ProbeOutcome, q2: ProbeOutcome)
    requires rt1.nowMillis <= rt2.nowMillis
    ensures GetBackendInfo(svc, rt1, p1, p2).startTime == GetBackendInfo(svc, rt2, q1, q2).startTime
    ensures GetBackendInfo(svc, rt1, p1, p2).uptime <= GetBackendInfo(svc, rt2, q1, q2).uptime
  {
  }

  /** A snapshot of a freshly constructed service reports the construction time as start and last-updated time. */
  lemma SnapshotOfNewService(appInfo: AppMetadata, constructedAt: int, rt: Runtime, p1: ProbeOutcome, p2: ProbeOutcome)
    requires constructedAt <= rt.nowMillis
    ensures var r := GetBackendInfo(NewService(appInfo, constructedAt), rt, p1, p2);
      r.startTime == constructedAt && r.lastUpdated == constructedAt
      && r.uptime == rt.nowMillis - constructedAt && r.uptime >= 0
  {
  }

  /** When both probes see the same database, status and database field agree. */
  lemma SnapshotAgreesOnSameProbe(svc: Service, rt: Runtime, probe: ProbeOutcome)
    ensures var r := GetBackendInfo(svc, rt, probe, probe);
      (r.status == Unhealthy <==> r.database.status == Error)
      && (r.status != Unhealthy <==> r.database.status == Connected)
  {
  }

  /** The two probes can disagree: the database is reported connected while the status is unhealthy. */
  lemma SnapshotCanDisagree(svc: Service, rt: Runtime)
    ensures var r := GetBackendInfo(svc, rt, ProbeSucceeded, ProbeThrew);
      r.database.status == Connected && r.status == Unhealthy
    ensures rt.heapUsed <= MemoryThreshold ==>
      var r := GetBackendInfo(svc, rt, ProbeThrew, ProbeSucceeded);
      r.database.status == Error && r.status == Healthy
  {
  }

  /** The reduced health view, again with a probe of its own for the status. */
  function CheckHealth(rt: Runtime, directProbe: ProbeOutcome, healthProbe: ProbeOutcome): (h: HealthCheck)
    ensures h.database.provider == DatabaseProvider
    ensures h.database.status == Connected <==> directProbe == ProbeSucceeded
    ensures h.database.status == Error <==> directProbe == ProbeThrew
    ensures h.status == Unhealthy <==> healthProbe == ProbeThrew
    ensures h.status == Healthy <==> healthProbe == ProbeSucceeded && rt.heapUsed <= MemoryThreshold
    ensures h.database == GetDatabaseInfo(directProbe) && h.status == GetHealthStatus(healthProbe, rt.heapUsed)
    ensures h.timestamp == rt.nowMillis
  {
    HealthCheck(GetHealthStatus(healthProbe, rt.heapUsed), GetDatabaseInfo(directProbe), rt.nowMillis)
  }

  /** The health view's two probes can disagree in the same way as the snapshot's. */
  lemma CheckHealthCanDisagree(rt: Runtime)
    ensures var h := CheckHealth(rt, ProbeSucceeded, ProbeThrew);
      h.database.status == Connected && h.status == Unhealthy
  {
  }

  /** The health view is the status and database part of the snapshot taken under the same conditions. */
  lemma CheckHealthIsSnapshotSubset(svc: Service, rt: Runtime, p1: ProbeOutcome, p2: ProbeOutcome)
    ensures CheckHealth(rt, p1, p2).status == GetBackendInfo(svc, rt, p1, p2).status
    ensures CheckHealth(rt, p1, p2).database == GetBackendInfo(svc, rt, p1, p2).database
  {
  }

  // Single-probe variants: status and database field both derived from one
  // probe, as a status report is meant to be.

  function GetBackendInfoOneProbe(svc: Service, rt: Runtime, probe: ProbeOutcome): (r: BackendInfo)
    ensures r.status == Unhealthy <==> r.database.status == Error
    ensures r.status == Healthy <==> r.database.status == Connected && rt.heapUsed <= MemoryThreshold
    ensures r == GetBackendInfo(svc, rt, probe, probe).(status := r.status)
  {
    var databaseInfo := GetDatabaseInfo(probe);
    GetBackendInfo(svc, rt, probe, probe).(status := DecideHealth(databaseInfo.status, rt.heapUsed))
  }

  function CheckHealthOneProbe(rt: Runtime, probe: ProbeOutcome): (h: HealthCheck)
    ensures h.status == Unhealthy <==> h.database.status == Error
    ensures h.status == Healthy <==> h.database.status == Connected && rt.heapUsed <= MemoryThreshold
    ensures h.timestamp == rt.nowMillis
  {
    var databaseInfo := GetDatabaseInfo(probe);
    HealthCheck(DecideHealth(databaseInfo.status, rt.heapUsed), databaseInfo, rt.nowMillis)
  }

  /** The single-probe snapshot is the as-written one whenever both probes see the same database. */
  lemma OneProbeMatchesAgreeingProbes(svc: Service, rt: Runtime, probe: ProbeOutcome)
    ensures GetBackendInfoOneProbe(svc, rt, probe) == GetBackendInfo(svc, rt, probe, probe)
    ensures CheckHealthOneProbe(rt, probe) == CheckHealth(rt, probe, probe)
  {
  }
}
