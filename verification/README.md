# O'Secours backend: status aggregation and event logging

A Dafny model of the two pieces of decision logic in the O'Secours NestJS
backend:

- **InfoService**, which answers GET /info. It reports the application's
  identity, the environment, the start time, the uptime, the runtime version,
  a health verdict, the documentation URL and database reachability.
- **LoggerService.logEvent**, which turns a partial event description into
  one ten-field row for the `log` table. It swallows a failing insert.

Every ambient input is a parameter:

- `NODE_ENV`, `HOST`, `PORT`, `npm_package_version` and `npm_package_name`
  are an `InfoService.ProcessEnv` record. An unset variable is `None`.
- The clock (`Date.now()` / `new Date()`), `process.memoryUsage().heapUsed`
  and `process.version` are fields of `InfoService.Runtime`.
- The outcome of each `SELECT 1` database probe is an
  `InfoService.ProbeOutcome`.
- The store's answer to `log.create` is a function parameter from the
  submitted `data` object to `LoggerService.PersistResult`.

Modules:

- `Js` (js.dfy) holds the bits of JavaScript the services rely on:
  `undefined` (as `Option`), `||` on strings, and `toLowerCase`.
- `AppInfo` (app_info.dfy) holds the constants and enumerations of
  src/common/constants/app-info.constants.ts.
- `DocsUrl` (docs_url.dfy) formats the documentation URL and has a parser
  that reads it back. The parser is the independent partner used to state
  what `getApiDocsUrl` produces.
- `InfoService` (info_service.dfy) models src/info/info.service.ts.
- `LoggerService` (logger_service.dfy) models src/logger.service.ts.

A status request makes two database round trips, not one.
`getBackendInfo` and `checkHealth` each call `getDatabaseInfo` directly
(src/info/info.service.ts:32 and :55) and again inside `getHealthStatus`
(:92). So `GetBackendInfo` and `CheckHealth` take two independent probe
outcomes. Single-probe variants are given under "Findings".

## Model

| member | source | states |
|---|---|---|
| Js.ToLowerCaseMatches | src/info/info.service.ts:123 | lower-casing a string gives a lower-case word exactly when the string is that word in any mix of upper and lower case |
| AppInfo.Load | src/common/constants/app-info.constants.ts:6-12 | the metadata has the fixed name, description and author; its version is `npm_package_version` when non-empty and otherwise 1.0.0 |
| DocsUrl.ParseFormat | src/info/info.service.ts:160 | a URL built as scheme, "://", host, ":", port and "/api/docs" from a host without ':' reads back to the same scheme, host and port |
| InfoService.NewService | src/info/info.service.ts:21-25 | the service's start time is the clock reading at construction |
| InfoService.GetDatabaseInfo | src/info/info.service.ts:68-85 | the provider is always mysql; the status is connected exactly when the probe succeeds and error exactly when it throws; it is never disconnected |
| InfoService.DecideHealth | src/info/info.service.ts:94-112 | the verdict is the worst of the database's verdict and the heap's verdict; unhealthy exactly on a database error; healthy exactly when connected with heap at most 500 MiB, so the threshold itself is still healthy |
| InfoService.DecideHealthMonotoneInHeap | src/info/info.service.ts:104-110 | more heap in use never gives a better verdict |
| InfoService.GetHealthStatus | src/info/info.service.ts:90-117 | with its own probe, the verdict is unhealthy exactly when that probe throws, degraded exactly when it succeeds with heap above 500 MiB, and healthy otherwise |
| InfoService.GetEnvironment | src/info/info.service.ts:122-133 | production exactly when NODE_ENV spells "production" in any case, test exactly when it spells "test" in any case, development otherwise (including unset) |
| InfoService.GetEnvironmentOfName | src/info/info.service.ts:122-133 | each environment's own name classifies back to that environment |
| InfoService.GetUptime | src/info/info.service.ts:138-140 | start time plus uptime is the current time, so uptime is non-negative once the clock is past the start |
| InfoService.UptimeMonotone | src/info/info.service.ts:138-140 | uptime is non-decreasing in the clock and grows by exactly the elapsed time |
| InfoService.GetLastUpdated | src/info/info.service.ts:145-149 | the last-updated date is the start time |
| InfoService.DocsHost | src/info/info.service.ts:155 | the host is HOST when non-empty and localhost otherwise; never empty |
| InfoService.DocsPort | src/info/info.service.ts:156 | the port is PORT when non-empty and 3000 otherwise; never empty |
| InfoService.GetApiDocsUrl | src/info/info.service.ts:154-161 | the URL starts with https:// exactly in production; for every host it is the scheme and "://", then exactly the host, ":" and the port, then "/api/docs"; for a host without ':' it parses back to that scheme, the host and the port |
| InfoService.GetPackageInfo | src/info/info.service.ts:166-172 | version and name are the npm variables when non-empty and the metadata's otherwise |
| InfoService.PackageVersionFallback | src/info/info.service.ts:170 | if the environment is unchanged since the constants loaded, the version is `npm_package_version` when non-empty, else 1.0.0 |
| InfoService.GetBackendInfo | src/info/info.service.ts:30-49 | snapshot fields: the metadata's name, description and author; the package version; the environment; start time and last-updated equal to the service's start time; start time plus uptime equal to now; the runtime version passed through; the docs URL; database info from the first probe; status from the second probe |
| InfoService.SnapshotNameIgnoresPackageName | src/info/info.service.ts:36-37 | the reported name does not depend on `npm_package_name` |
| InfoService.SnapshotsShareStartTime | src/info/info.service.ts:41-43 | two snapshots of one service have the same start time, and the later one has the larger-or-equal uptime |
| InfoService.SnapshotOfNewService | src/info/info.service.ts:21-25 | a snapshot of a service constructed at time t reports t as start time and last-updated time, and now minus t as a non-negative uptime |
| InfoService.SnapshotAgreesOnSameProbe | src/info/info.service.ts:32-33 | when both probes have the same outcome, status is unhealthy exactly when the database is in error, and otherwise the database is connected |
| InfoService.SnapshotCanDisagree | src/info/info.service.ts:32-33 | with the first probe succeeding and the second throwing, the snapshot says connected and unhealthy at once; with the probes the other way round and heap within the threshold, it says error and healthy |
| InfoService.CheckHealth | src/info/info.service.ts:54-63 | provider mysql; database connected exactly when the first probe succeeds and error exactly when it throws; status unhealthy exactly when the second probe throws and healthy exactly when it succeeds with heap within 500 MiB; the timestamp is now |
| InfoService.CheckHealthCanDisagree | src/info/info.service.ts:54-63 | with the first probe succeeding and the second throwing, the health check says connected and unhealthy at once |
| InfoService.CheckHealthIsSnapshotSubset | src/info/info.service.ts:54-63 | under the same probes and heap, the health check's status and database equal the snapshot's |
| InfoService.GetBackendInfoOneProbe | src/info/info.service.ts:30-49 | corrected snapshot: status unhealthy exactly when the reported database is in error, healthy exactly when it is connected with heap within the threshold; all other fields as in the snapshot |
| InfoService.CheckHealthOneProbe | src/info/info.service.ts:54-63 | corrected health check: status and database always agree as above |
| InfoService.OneProbeMatchesAgreeingProbes | src/info/info.service.ts:30-63 | the corrected snapshot and health check equal the as-written ones whenever both probes have the same outcome |
| LoggerService.DefaultEnvironment | src/logger.service.ts:36 | an omitted environment becomes NODE_ENV when non-empty and development otherwise; never empty |
| LoggerService.FillDefaults | src/logger.service.ts:27-38 | the message is copied; each supplied field is copied unchanged, including an empty string; an omitted text field becomes '', an omitted payload becomes {}, an omitted environment becomes the default environment |
| LoggerService.FillDefaultsOfSpelledRow | src/logger.service.ts:27-38 | options that supply every field give back exactly that row, whatever NODE_ENV is |
| LoggerService.FillDefaultsIdempotent | src/logger.service.ts:27-38 | supplying a filled row's fields and filling again yields the same row |
| LoggerService.OmittedEqualsExplicitDefaults | src/logger.service.ts:29-37 | omitting every optional field gives the same row as passing each field's default explicitly |
| LoggerService.SuppliedEmptyEnvironmentIsKept | src/logger.service.ts:36 | a supplied empty environment is kept as ''; only an omitted one falls back to NODE_ENV |
| LoggerService.DefaultEnvironmentNotNormalised | src/logger.service.ts:36 | the fallback copies NODE_ENV verbatim: "PRODUCTION" and "staging" are stored as given, not lower-cased or mapped to the three environments |
| LoggerService.RowData | src/logger.service.ts:42-53 | the data object handed to the store has exactly the keys message, source, userId, action, ipAddress, requestData, responseData, status, environment and deviceInfo, and reading each key back by name gives the row's field of that name |
| LoggerService.RowDataDeterminesRow | src/logger.service.ts:42-53 | the data object determines the row, so no field is lost or merged |
| LoggerService.LogEvent | src/logger.service.ts:40-60 | the submitted data reads back, key by key, to the defaulted row; the call ends persisted exactly when the store accepts; it escapes to the caller exactly when the store rejects with null or undefined; otherwise a rejection is swallowed, with the error's message as diagnostic exactly when the thrown value has one |
| LoggerService.Settle | src/logger.service.ts:40-60 | the try/catch ends persisted on success, swallowed with the message for an error value, swallowed with an undefined diagnostic for a value without a message, and escapes for a nullish value |
| LoggerService.LogEventNeverEscapes | src/logger.service.ts:40-60 | a store that never rejects with null or undefined never makes logEvent fail |
| LoggerService.MessageOnlyEventData | src/logger.service.ts:27-53 | an event with only a message persists '' under source, userId, action, ipAddress and status, {} under requestData, responseData and deviceInfo, and NODE_ENV or development under environment |
| LoggerService.LogEventSubmitsRegardlessOfStore | src/logger.service.ts:40-60 | the data submitted is the defaulted row and does not depend on how the store answers |

## Left out

- Database I/O (`SELECT 1`, `log.create`) is not modelled. Each probe is an input outcome. The store is a function parameter returning stored, or rejected with the thrown value.
- `console.error` and `console.warn` are not modelled beyond the `diagnostic` of `LoggerService.LogResult.Swallowed`, which carries the thrown error's message. The fixed French prefix is not modelled.
- LoggerService.LogEvent: a thrown value whose `message` is not a string is treated like one without a message, so its diagnostic is not modelled. The database client rejects only with `Error` objects.
- async/await scheduling and concurrency are not modelled. The model treats each call as one step over its inputs.
- Probe timeouts are not modelled. A hung probe has no outcome here; the source sets no timeout either.
- The catch branch of `getHealthStatus` (src/info/info.service.ts:113-116) is not modelled. `getDatabaseInfo` catches every probe failure itself, so only `process.memoryUsage()` could throw there, and the runtime is not modelled.
- The catch branch of `getPackageInfo` (src/info/info.service.ts:173-182) is not modelled. Reading environment variables cannot throw.
- Js.ToLowerCase: lower-cases ASCII letters and U+212A KELVIN SIGN only, leaving every other character unchanged. No other character lower-cases to a single ASCII letter (U+0130 lower-cases to two characters), so comparing against "production" and "test" gives the same answer as full Unicode `toLowerCase`.
- Dates are whole milliseconds (`int`). JavaScript numbers are doubles, but the differences used here are exact at millisecond resolution.
- InfoService.GetUptime: non-negative only when the clock is not behind the start time. The source reads a wall clock that may step backwards.
- Heap usage is a `nat` byte count, not a double.
- JSON numbers in log payloads are integers. Payloads are copied, never inspected.
- The storage layer's insertion timestamp is not modelled. The store sets it, not the logger.
- Bootstrap (src/main.ts), Swagger setup, the controller, DTOs and module wiring are left out. They hold no decision logic.

## Findings

| source | as written | input that shows it | evidently intended | confidence | as-written member | corrected member |
|---|---|---|---|---|---|---|
| src/info/info.service.ts:30-49 | the `database` field and the `status` field come from two separate probes (lines 32 and 92) | first probe succeeds, second throws: database connected but status unhealthy (or the reverse: error with healthy) | one probe per request, with the status derived from the database field that is reported | medium, not executed; it needs the database to change state between the two awaits | InfoService.SnapshotCanDisagree | InfoService.GetBackendInfoOneProbe |
| src/info/info.service.ts:54-63 | `checkHealth` probes once for `database` (line 55) and again inside `getHealthStatus` (line 92) | first probe succeeds, second throws: the health check says connected and unhealthy | status and database from one probe | medium, not executed; same race as above | InfoService.CheckHealthCanDisagree | InfoService.CheckHealthOneProbe |
