/**
 The structured event sink: a partial description of an event is completed
 with defaults into one ten-field row, handed to the store, and a failing
 store is reported on the diagnostic channel instead of to the caller.
 */
module LoggerService {
  import opened Js

  /** A JSON payload as the store accepts it. */
  datatype Json =
    | JNull
    | JBool(b: bool)
    | JNumber(n: int)
    | JString(s: string)
    | JArray(items: seq<Json>)
    | JObject(fields: map<string, Json>)

  /** `{}`, the default of every payload field. */
  const EmptyObject: Json := JObject(map[])

  /** Environment recorded when neither the event nor `NODE_ENV` names one. */
  const FallbackEnvironment: string := "development"

  /** What a caller may pass: only the message is required. */
  datatype LogEventOptions = LogEventOptions(
    message: string,
    source: Option<string>,
    userId: Option<string>,
    action: Option<string>,
    ipAddress: Option<string>,
    requestData: Option<Json>,
    responseData: Option<Json>,
    status: Option<string>,
    environment: Option<string>,
    deviceInfo: Option<Json>)

  /** The row handed to the store, every field filled. */
  datatype LogRow = LogRow(
    message: string,
    source: string,
    userId: string,
    action: string,
    ipAddress: string,
    requestData: Json,
    responseData: Json,
    status: string,
    environment: string,
    deviceInfo: Json)

  /** A destructuring default: a supplied value is kept as is, an omitted one is replaced. */
  predicate Fills<T(==)>(given: Option<T>, default: T, stored: T) {
    (given.Some? ==> stored == given.value) && (given.None? ==> stored == default)
  }

  function WithDefault<T>(given: Option<T>, default: T): (stored: T)
    ensures Fills(given, default, stored)
  {
    match given
    case Some(v) => v
    case None => default
  }

  /** `NODE_ENV || 'development'`: the environment of an event that names none. */
  function DefaultEnvironment(nodeEnv: Option<string>): (e: string)
    ensures e != ""
    ensures Truthy(nodeEnv) ==> e == nodeEnv.value
    ensures !Truthy(nodeEnv) ==> e == FallbackEnvironment
  {
    OrElse(nodeEnv, FallbackEnvironment)
  }

  /** Completes the options into the row: '' and {} for omitted fields, the process environment for an omitted environment. */
  function FillDefaults(options: LogEventOptions, nodeEnv: Option<string>): (row: LogRow)
    ensures row.message == options.message
    ensures Fills(options.source, "", row.source)
    ensures Fills(options.userId, "", row.userId)
    ensures Fills(options.action, "", row.action)
    ensures Fills(options.ipAddress, "", row.ipAddress)
    ensures Fills(options.requestData, EmptyObject, row.requestData)
    ensures Fills(options.responseData, EmptyObject, row.responseData)
    ensures Fills(options.status, "", row.status)
    ensures Fills(options.environment, DefaultEnvironment(nodeEnv), row.environment)
    ensures Fills(options.deviceInfo, EmptyObject, row.deviceInfo)
  {
    LogRow(
      options.message,
      WithDefault(options.source, ""),
      WithDefault(options.userId, ""),
      WithDefault(options.action, ""),
      WithDefault(options.ipAddress, ""),
      WithDefault(options.requestData, EmptyObject),
      WithDefault(options.responseData, EmptyObject),
      WithDefault(options.status, ""),
      WithDefault(options.environment, DefaultEnvironment(nodeEnv)),
      WithDefault(options.deviceInfo, EmptyObject))
  }

  /** The options that spell out every field of a row. */
  function Spell(row: LogRow): (options: LogEventOptions)
    ensures options.message == row.message
  {
    LogEventOptions(
      row.message, Some(row.source), Some(row.userId), Some(row.action), Some(row.ipAddress),
      Some(row.requestData), Some(row.responseData), Some(row.status), Some(row.environment),
      Some(row.deviceInfo))
  }

  /** Options that supply every field: nothing is defaulted, nothing altered, `NODE_ENV` is not consulted. */
  lemma FillDefaultsOfSpelledRow(row: LogRow, nodeEnv: Option<string>)
    ensures FillDefaults(Spell(row), nodeEnv) == row
  {
  }

  /** Filling is idempotent: spelling out a filled row and filling again changes nothing. */
  lemma FillDefaultsIdempotent(options: LogEventOptions, nodeEnv: Option<string>, nodeEnv': Option<string>)
    ensures FillDefaults(Spell(FillDefaults(options, nodeEnv)), nodeEnv') == FillDefaults(options, nodeEnv)
  {
  }

  /** The options carrying only a message. */
  function MessageOnly(message: string): LogEventOptions {
    LogEventOptions(message, None, None, None, None, None, None, None, None, None)
  }

  /** Omitting every optional field is the same as passing each field's default. */
  lemma OmittedEqualsExplicitDefaults(message: string, nodeEnv: Option<string>)
    ensures FillDefaults(MessageOnly(message), nodeEnv)
         == FillDefaults(LogEventOptions(message, Some(""), Some(""), Some(""), Some(""),
                                         Some(EmptyObject), Some(EmptyObject), Some(""),
                                         Some(DefaultEnvironment(nodeEnv)), Some(EmptyObject)), nodeEnv)
  {
  }

  /** A supplied empty environment is kept; only an omitted one falls back. */
  lemma SuppliedEmptyEnvironmentIsKept(message: string)
    ensures FillDefaults(MessageOnly(message).(environment := Some("")), Some("production")).environment == ""
    ensures FillDefaults(MessageOnly(message), Some("production")).environment == "production"
  {
  }

  /** The fallback environment is copied verbatim, not lower-cased or restricted to the three known names. */
  lemma DefaultEnvironmentNotNormalised(message: string)
    ensures FillDefaults(MessageOnly(message), Some("PRODUCTION")).environment == "PRODUCTION"
    ensures FillDefaults(MessageOnly(message), Some("staging")).environment == "staging"
  {
  }

  /** A value of the `data` object handed to the store. */
  datatype FieldValue = Text(text: string) | Payload(json: Json)

  const RowFieldNames: set<string> := {
    "message", "source", "userId", "action", "ipAddress",
    "requestData", "responseData", "status", "environment", "deviceInfo"
  }

  /** The text stored under key `k`, if `k` holds text. */
  function TextAt(data: map<string, FieldValue>, k: string): Option<string> {
    if k in data && data[k].Text? then Some(data[k].text) else None
  }

  /** The payload stored under key `k`, if `k` holds a payload. */
  function PayloadAt(data: map<string, FieldValue>, k: string): Option<Json> {
    if k in data && data[k].Payload? then Some(data[k].json) else None
  }

  /** Reads a `data` object back into a row, each field from the key of its own name. */
  function RowOf(data: map<string, FieldValue>): Option<LogRow> {
    if data.Keys == RowFieldNames
       && TextAt(data, "message").Some? && TextAt(data, "source").Some?
       && TextAt(data, "userId").Some? && TextAt(data, "action").Some?
       && TextAt(data, "ipAddress").Some? && PayloadAt(data, "requestData").Some?
       && PayloadAt(data, "responseData").Some? && TextAt(data, "status").Some?
       && TextAt(data, "environment").Some? && PayloadAt(data, "deviceInfo").Some?
    then
      Some(LogRow(
        TextAt(data, "message").value,
        TextAt(data, "source").value,
        TextAt(data, "userId").value,
        TextAt(data, "action").value,
        TextAt(data, "ipAddress").value,
        PayloadAt(data, "requestData").value,
        PayloadAt(data, "responseData").value,
        TextAt(data, "status").value,
        TextAt(data, "environment").value,
        PayloadAt(data, "deviceInfo").value))
    else None
  }

  /** The row as the `data` object of the create call: the ten keys, each carrying its own field. */
  function RowData(row: LogRow): (data: map<string, FieldValue>)
    ensures data.Keys == RowFieldNames
    ensures RowOf(data) == Some(row)
  {
    map[
      "message" := Text(row.message),
      "source" := Text(row.source),
      "userId" := Text(row.userId),
      "action" := Text(row.action),
      "ipAddress" := Text(row.ipAddress),
      "requestData" := Payload(row.requestData),
      "responseData" := Payload(row.responseData),
      "status" := Text(row.status),
      "environment" := Text(row.environment),
      "deviceInfo" := Payload(row.deviceInfo)
    ]
  }

  /** The `data` object determines the row: no field is lost or merged on the way to the store. */
  lemma RowDataDeterminesRow(row: LogRow, other: LogRow)
    ensures RowData(row) == RowData(other) ==> row == other
  {
  }

  /** A value a rejected create call throws. */
  datatype Thrown =
    | ErrorValue(message: string)  // an Error, or any object with a string `message`
    | NoMessage                    // a value without a `message` property, such as a bare string
    | Nullish                      // `null` or `undefined`

  /** What the store answered to one create call. */
  datatype PersistResult = Stored | Rejected(thrown: Thrown)

  /** How one logEvent call ended. */
  datatype LogResult =
    | Persisted
    | Swallowed(diagnostic: Option<string>)  // the catch block logged `error.message`, possibly undefined
    | Escaped                                // reading `.message` of a nullish value threw inside the catch block

  /** How the try/catch around the create call ends for one store answer. */
  function Settle(answer: PersistResult): (r: LogResult)
    ensures r == Persisted <==> answer.Stored?
    ensures r == Escaped <==> answer == Rejected(Nullish)
    ensures r.Swallowed? && r.diagnostic.Some? <==> answer.Rejected? && answer.thrown.ErrorValue?
    ensures r.Swallowed? && r.diagnostic.Some? ==> r.diagnostic.value == answer.thrown.message
  {
    match answer
    case Stored => Persisted
    case Rejected(ErrorValue(message)) => Swallowed(Some(message))
    case Rejected(NoMessage) => Swallowed(None)
    case Rejected(Nullish) => Escaped
  }

  /** What one logEvent call did: the data it submitted and how it ended. */
  datatype LogOutcome = LogOutcome(submitted: map<string, FieldValue>, result: LogResult)

  /**
   Records one event. `create` is the store's answer to a `data` object; a
   rejection is reported on the diagnostic channel and does not reach the
   caller, unless the rejection value is nullish.
   */
  function LogEvent(options: LogEventOptions, nodeEnv: Option<string>, create: map<string, FieldValue> -> PersistResult): (r: LogOutcome)
    ensures RowOf(r.submitted) == Some(FillDefaults(options, nodeEnv))
    ensures r.result == Persisted <==> create(r.submitted).Stored?
    ensures r.result == Escaped <==> create(r.submitted) == Rejected(Nullish)
    ensures r.result.Swallowed? && r.result.diagnostic.Some? <==> create(r.submitted).Rejected? && create(r.submitted).thrown.ErrorValue?
    ensures r.result.Swallowed? && r.result.diagnostic.Some? ==> r.result.diagnostic.value == create(r.submitted).thrown.message
  {
    var data := RowData(FillDefaults(options, nodeEnv));
    LogOutcome(data, Settle(create(data)))
  }

  /** A store that only ever rejects with non-nullish values never makes logEvent fail. */
  lemma LogEventNeverEscapes(options: LogEventOptions, nodeEnv: Option<string>, create: map<string, FieldValue> -> PersistResult)
    requires forall data :: create(data) != Rejected(Nullish)
    ensures LogEvent(options, nodeEnv, create).result != Escaped
  {
  }

  /** Whatever the store answers, the same data is submitted. */
  lemma LogEventSubmitsRegardlessOfStore(options: LogEventOptions, nodeEnv: Option<string>,
                                         create: map<string, FieldValue> -> PersistResult,
                                         create': map<string, FieldValue> -> PersistResult)
    ensures LogEvent(options, nodeEnv, create).submitted == LogEvent(options, nodeEnv, create').submitted
    ensures LogEvent(options, nodeEnv, create).submitted == RowData(FillDefaults(options, nodeEnv))
  {
  }

  /** A message-only event persists '' and {} under every optional key and the process environment under `environment`. */
  lemma MessageOnlyEventData(message: string, nodeEnv: Option<string>, create: map<string, FieldValue> -> PersistResult)
    ensures var data := LogEvent(MessageOnly(message), nodeEnv, create).submitted;
      RowOf(data) == Some(LogRow(message, "", "", "", "", EmptyObject, EmptyObject, "", DefaultEnvironment(nodeEnv), EmptyObject))
  {
  }
}
