/** The enquiry submitter of server/enquiry_submitter.py: it loads six
    configuration values from the environment, reaches the remote worksheet,
    checks its header row against the column specification, builds the row
    to append in the worksheet's own header order, appends it, and records
    the outcome of the call in its own fields. */
module Enquiry {
  import opened Wrappers
  import opened EnvVars
  import opened Sheets

  const INTERNAL := "INTERNAL"
  const CLIENT := "CLIENT"
  const INFO := "INFO"
  const CRITICAL := "CRITICAL"
  const SUCCESS_MESSAGE := "Enquiry added successfully"

  const GS_PRIVATE_KEY := "GS_PRIVATE_KEY"
  const GS_CLIENT_EMAIL := "GS_CLIENT_EMAIL"
  const GS_TOKEN_URI := "GS_TOKEN_URI"
  const SPREADSHEET_KEY := "SPREADSHEET_KEY"
  const WORKSHEET_TITLE := "WORKSHEET_TITLE"
  const TIMESTAMP_FORMAT := "TIMESTAMP_FORMAT"

  /** The configuration keys in the order they are checked. Each key names
      the environment variable of the same name. */
  const ENV_KEYS: seq<string> :=
    [GS_PRIVATE_KEY, GS_CLIENT_EMAIL, GS_TOKEN_URI, SPREADSHEET_KEY, WORKSHEET_TITLE, TIMESTAMP_FORMAT]

  /** Header label to record field. */
  const COLUMN_SPEC: map<string, string> := map[
    "Timestamp" := "timestamp",
    "First Name" := "first_name",
    "Last Name" := "last_name",
    "Email" := "email",
    "Company" := "company",
    "Message" := "message"]

  /** The labels of `COLUMN_SPEC` in declaration order: the header the worksheet must have. */
  const COLUMN_ORDER: seq<string> :=
    ["Timestamp", "First Name", "Last Name", "Email", "Company", "Message"]

  /** `COLUMN_ORDER` lists every label of `COLUMN_SPEC` exactly once. */
  lemma ColumnOrderListsSpec()
    ensures forall l :: l in COLUMN_SPEC <==> l in COLUMN_ORDER
    ensures forall i, j :: 0 <= i < j < |COLUMN_ORDER| ==> COLUMN_ORDER[i] != COLUMN_ORDER[j]
  {
  }

  /** The diagnostic kept in `detailed_error`, as a tag. */
  datatype ErrorDetail =
    | MissingKey(key: string)
    | CredentialParse
    | Refresh
    | Transport
    | Api(code: int)
    | WorksheetMissing
    | ColumnMismatch

  /** An exception that escapes `submit` uncaught: a record without a
      "timestamp" field, or one whose timestamp is not a number. */
  datatype Uncaught = TimestampKeyError | TimestampTypeError

  /** How a call of `submit` ends: it returns a boolean or raises. */
  datatype Completion = Returned(ok: bool) | Raised(exc: Uncaught)

  /** The cell for header label `heading`: the mapped record field when the heading
      is in the specification and the record carries that field, else `None`. */
  function CellFor(heading: string, body: map<string, Value>): Value
  {
    if heading in COLUMN_SPEC && COLUMN_SPEC[heading] in body then body[COLUMN_SPEC[heading]] else Null
  }

  /** `row` is the row built from `header`: the formatted timestamp first, then
      one cell per later header label. */
  ghost predicate IsRowFor(row: seq<Value>, header: seq<string>, body: map<string, Value>, first: string)
  {
    |row| == (if |header| == 0 then 1 else |header|) &&
    row[0] == Str(first) &&
    forall i :: 1 <= i < |header| ==> row[i] == CellFor(header[i], body)
  }

  /** The row built from `header`, as a single expression. */
  function RowFor(header: seq<string>, body: map<string, Value>, first: string): seq<Value>
  {
    [Str(first)] +
    if |header| <= 1 then [] else seq(|header| - 1, i requires 0 <= i < |header| - 1 => CellFor(header[i + 1], body))
  }

  /** A row is the one built from `header` exactly when it meets `IsRowFor`. */
  lemma RowForIsTheRow(row: seq<Value>, header: seq<string>, body: map<string, Value>, first: string)
    ensures IsRowFor(RowFor(header, body, first), header, body, first)
    ensures IsRowFor(row, header, body, first) <==> row == RowFor(header, body, first)
  {
    var r := RowFor(header, body, first);
    assert IsRowFor(r, header, body, first) by {
      forall i | 1 <= i < |header|
        ensures r[i] == CellFor(header[i], body)
      {
        assert r[i] == r[1..][i - 1];
      }
    }
    if IsRowFor(row, header, body, first) {
      forall i | 0 <= i < |row|
        ensures row[i] == r[i]
      {
        if i > 0 {
          assert row[i] == CellFor(header[i], body);
        }
      }
    }
  }

  /** Builds the row to append, driven by the worksheet's actual header order. */
  method BuildRow(header: seq<string>, body: map<string, Value>, first: string) returns (data: seq<Value>)
    ensures IsRowFor(data, header, body, first)
    ensures data == RowFor(header, body, first)
  {
    data := [Str(first)];
    var index := 1;
    while index < |header|
      invariant 1 <= index && (index <= |header| || index == 1)
      invariant |data| == index
      invariant data[0] == Str(first)
      invariant forall i :: 1 <= i < index ==> data[i] == CellFor(header[i], body)
    {
      var heading := header[index];
      data := data + [CellFor(heading, body)];
      index := index + 1;
    }
    RowForIsTheRow(data, header, body, first);
  }

  /** The record's value for field `f`, or `None` when the record lacks it. */
  function FieldOrNull(body: map<string, Value>, f: string): Value
  {
    if f in body then body[f] else Null
  }

  /** Under the specified header the row has six cells: the timestamp, then the
      record's first name, last name, email, company and message, each `None`
      when the record lacks it. */
  lemma RowUnderSpecHeader(body: map<string, Value>, first: string)
    ensures RowFor(COLUMN_ORDER, body, first) ==
      [Str(first), FieldOrNull(body, "first_name"), FieldOrNull(body, "last_name"),
       FieldOrNull(body, "email"), FieldOrNull(body, "company"), FieldOrNull(body, "message")]
  {
  }

  /** A record without a company yields `None` in the Company cell (index 4). */
  lemma AbsentCompanyIsNull(body: map<string, Value>, first: string)
    requires "company" !in body
    ensures |RowFor(COLUMN_ORDER, body, first)| == 6 && RowFor(COLUMN_ORDER, body, first)[4] == Null
  {
    RowUnderSpecHeader(body, first);
  }

  /** The configuration fields of the submitter. */
  datatype Settings = Settings(
    gsPrivateKey: Option<string>,
    gsClientEmail: Option<string>,
    gsTokenUri: Option<string>,
    spreadsheetKey: Option<string>,
    worksheetTitle: Option<string>,
    timestampFormat: Option<string>)

  /** The settings loaded from an environment that holds every key. */
  function SettingsFrom(env: map<string, string>): Settings
    requires forall k :: k in ENV_KEYS ==> k in env
  {
    assert ENV_KEYS[0] == GS_PRIVATE_KEY && ENV_KEYS[1] == GS_CLIENT_EMAIL && ENV_KEYS[2] == GS_TOKEN_URI;
    assert ENV_KEYS[3] == SPREADSHEET_KEY && ENV_KEYS[4] == WORKSHEET_TITLE && ENV_KEYS[5] == TIMESTAMP_FORMAT;
    Settings(Some(env[GS_PRIVATE_KEY]), Some(env[GS_CLIENT_EMAIL]), Some(env[GS_TOKEN_URI]),
             Some(env[SPREADSHEET_KEY]), Some(env[WORKSHEET_TITLE]), Some(env[TIMESTAMP_FORMAT]))
  }

  /** The per-call outcome fields of the submitter. */
  datatype Outcome = Outcome(
    message: Option<string>,
    detailedMessage: Option<string>,
    detailedError: Option<ErrorDetail>,
    errorCategory: Option<string>,
    logSeverity: Option<string>,
    statusCode: Option<int>)

  /** Where one call of `submit` ends up: a recorded failure, an uncaught
      exception, or an append of `row` to worksheet `sheet`. */
  datatype Verdict = Fail(detail: ErrorDetail) | Crash(exc: Uncaught) | Append(sheet: Worksheet, row: seq<Value>)

  /** How `submit` ends for a verdict. */
  function CompletionOf(v: Verdict): Completion
  {
    match v
    case Fail(_) => Returned(false)
    case Crash(u) => Raised(u)
    case Append(_, _) => Returned(true)
  }

  /** The status code a failure records: an API error's own code, else 500. */
  function FailureStatus(e: ErrorDetail): int
  {
    if e.Api? then e.code else 500
  }

  /** The outcome fields after a call with verdict `v`, starting from `before`:
      a failure sets the detail, INTERNAL, CRITICAL and its status; a success
      sets the message, the append reply, INFO and 200; an uncaught exception
      sets nothing. */
  function OutcomeAfter(v: Verdict, before: Outcome): Outcome
  {
    match v
    case Fail(e) =>
      before.(detailedError := Some(e), errorCategory := Some(INTERNAL),
              logSeverity := Some(CRITICAL), statusCode := Some(FailureStatus(e)))
    case Crash(_) => before
    case Append(sheet, _) =>
      before.(message := Some(SUCCESS_MESSAGE), detailedMessage := Some(sheet.response),
              logSeverity := Some(INFO), statusCode := Some(200))
  }

  /** The rows worksheet `sheet` gains in a call with verdict `v`. */
  function RowsGained(v: Verdict, sheet: Worksheet): seq<seq<Value>>
  {
    if v.Append? && sheet == v.sheet then [v.row] else []
  }

  /** Reaching the worksheet: authenticate, open the spreadsheet by key, select
      the worksheet by title, each failure giving its own detail. */
  function Locate(credentials: Credentials, key: string, title: string, remote: Remote): Result<Worksheet, ErrorDetail>
  {
    if remote.authenticate(credentials) == ParseErr then Err(CredentialParse)
    else
      match remote.openByKey(key)
      case RefreshErr => Err(Refresh)
      case TransportErr => Err(Transport)
      case ApiErr(code) => Err(Api(code))
      case Opened =>
        if title !in remote.worksheets then Err(WorksheetMissing) else Ok(remote.worksheets[title])
  }

  /** What happens once the worksheet is reached: the header check, then the
      record's timestamp is read and formatted with `format`. */
  ghost function Judge(sheet: Worksheet, body: map<string, Value>, format: string,
                       formatTs: (int, string) -> string): Verdict
    reads sheet
  {
    if sheet.header != COLUMN_ORDER then Fail(ColumnMismatch)
    else if "timestamp" !in body then Crash(TimestampKeyError)
    else if !body["timestamp"].Int? then Crash(TimestampTypeError)
    else Append(sheet, RowFor(sheet.header, body, formatTs(body["timestamp"].i, format)))
  }

  /** The decision once the configuration is loaded. */
  ghost function Pursue(credentials: Credentials, key: string, title: string, format: string,
                        remote: Remote, body: map<string, Value>, formatTs: (int, string) -> string): Verdict
    reads remote.worksheets.Values
  {
    match Locate(credentials, key, title, remote)
    case Err(e) => Fail(e)
    case Ok(sheet) => Judge(sheet, body, format, formatTs)
  }

  /** The decision `submit` takes from the environment, the remote service's
      outcomes and the record. */
  ghost function Decide(body: map<string, Value>, env: map<string, string>, remote: Remote,
                        formatTs: (int, string) -> string): Verdict
    reads remote.worksheets.Values
  {
    match FirstMissing(ENV_KEYS, env)
    case Some(k) => Fail(MissingKey(k))
    case None =>
      Pursue(Credentials(env[GS_PRIVATE_KEY], env[GS_CLIENT_EMAIL], env[GS_TOKEN_URI]),
             env[SPREADSHEET_KEY], env[WORKSHEET_TITLE], env[TIMESTAMP_FORMAT], remote, body, formatTs)
  }

  /** With every key present, the decision is the one taken on the loaded values. */
  lemma DecideLoaded(body: map<string, Value>, env: map<string, string>, remote: Remote,
                      formatTs: (int, string) -> string)
    requires forall k :: k in ENV_KEYS ==> k in env
    ensures Decide(body, env, remote, formatTs) ==
      Pursue(Credentials(env[GS_PRIVATE_KEY], env[GS_CLIENT_EMAIL], env[GS_TOKEN_URI]),
             env[SPREADSHEET_KEY], env[WORKSHEET_TITLE], env[TIMESTAMP_FORMAT], remote, body, formatTs)
  {
  }

  /** The worksheet is reached exactly when authentication, opening by key and
      selection by title all succeed, and it is the worksheet of that title;
      every failed step gives status 500, except an API error on opening,
      which gives that error's code. */
  lemma LocateReachesOrFails(credentials: Credentials, key: string, title: string, remote: Remote)
    ensures Locate(credentials, key, title, remote).Ok? <==>
      remote.authenticate(credentials) == Authorized && remote.openByKey(key) == Opened &&
      title in remote.worksheets
    ensures Locate(credentials, key, title, remote).Ok? ==>
      Locate(credentials, key, title, remote).value == remote.worksheets[title]
    ensures Locate(credentials, key, title, remote).Err? ==>
      FailureStatus(Locate(credentials, key, title, remote).error) ==
        (if remote.authenticate(credentials) == Authorized && remote.openByKey(key).ApiErr?
         then remote.openByKey(key).code else 500)
  {
  }

  /** With the configuration present, a failure to reach the worksheet fails
      the call: INTERNAL, CRITICAL, and status 500 unless the spreadsheet
      could not be opened for an API error, whose code is the status. */
  lemma RemoteFailureIsInternal(body: map<string, Value>, env: map<string, string>, remote: Remote,
                                formatTs: (int, string) -> string, before: Outcome)
    requires forall k :: k in ENV_KEYS ==> k in env
    requires !(remote.authenticate(Credentials(env[GS_PRIVATE_KEY], env[GS_CLIENT_EMAIL], env[GS_TOKEN_URI])) == Authorized &&
               remote.openByKey(env[SPREADSHEET_KEY]) == Opened && env[WORKSHEET_TITLE] in remote.worksheets)
    ensures Decide(body, env, remote, formatTs).Fail?
    ensures CompletionOf(Decide(body, env, remote, formatTs)) == Returned(false)
    ensures OutcomeAfter(Decide(body, env, remote, formatTs), before).errorCategory == Some(INTERNAL)
    ensures OutcomeAfter(Decide(body, env, remote, formatTs), before).logSeverity == Some(CRITICAL)
    ensures OutcomeAfter(Decide(body, env, remote, formatTs), before).statusCode ==
      Some(if remote.authenticate(Credentials(env[GS_PRIVATE_KEY], env[GS_CLIENT_EMAIL], env[GS_TOKEN_URI])) == Authorized &&
              remote.openByKey(env[SPREADSHEET_KEY]).ApiErr?
           then remote.openByKey(env[SPREADSHEET_KEY]).code else 500)
  {
    DecideLoaded(body, env, remote, formatTs);
    LocateReachesOrFails(Credentials(env[GS_PRIVATE_KEY], env[GS_CLIENT_EMAIL], env[GS_TOKEN_URI]),
                         env[SPREADSHEET_KEY], env[WORKSHEET_TITLE], remote);
  }

  /** Every failure is recorded as INTERNAL and CRITICAL with status 500, except
      that an API error passes its own code through; the message and the append
      reply are left as they were. */
  lemma FailureIsInternal(v: Verdict, before: Outcome)
    requires v.Fail?
    ensures OutcomeAfter(v, before).errorCategory == Some(INTERNAL)
    ensures OutcomeAfter(v, before).logSeverity == Some(CRITICAL)
    ensures OutcomeAfter(v, before).statusCode == Some(if v.detail.Api? then v.detail.code else 500)
    ensures OutcomeAfter(v, before).detailedError == Some(v.detail)
    ensures OutcomeAfter(v, before).message == before.message
    ensures OutcomeAfter(v, before).detailedMessage == before.detailedMessage
  {
  }

  /** The CLIENT category is never written: the category either keeps its
      earlier value or becomes INTERNAL. */
  lemma NeverClient(v: Verdict, before: Outcome)
    ensures OutcomeAfter(v, before).errorCategory == before.errorCategory ||
            OutcomeAfter(v, before).errorCategory == Some(INTERNAL)
    ensures OutcomeAfter(v, before).errorCategory == Some(CLIENT) ==> before.errorCategory == Some(CLIENT)
  {
  }

  /** A success records the message, INFO and 200, and leaves the error detail
      and category of an earlier call in place. */
  lemma SuccessKeepsEarlierError(v: Verdict, before: Outcome)
    requires v.Append?
    ensures OutcomeAfter(v, before).message == Some(SUCCESS_MESSAGE)
    ensures OutcomeAfter(v, before).logSeverity == Some(INFO)
    ensures OutcomeAfter(v, before).statusCode == Some(200)
    ensures OutcomeAfter(v, before).detailedError == before.detailedError
    ensures OutcomeAfter(v, before).errorCategory == before.errorCategory
  {
  }

  /** A missing configuration key fails the call, naming the first missing key
      in order, before the remote service is consulted at all: the verdict is
      the same whatever the service would answer. */
  lemma MissingConfigFailsFirst(body: map<string, Value>, env: map<string, string>,
                                remote: Remote, other: Remote, formatTs: (int, string) -> string)
    requires !(forall k :: k in ENV_KEYS ==> k in env)
    ensures Decide(body, env, remote, formatTs).Fail?
    ensures Decide(body, env, remote, formatTs).detail.MissingKey?
    ensures exists i :: FirstMissingAt(ENV_KEYS, env, i) &&
                        Decide(body, env, remote, formatTs).detail == MissingKey(ENV_KEYS[i])
    ensures Decide(body, env, remote, formatTs) == Decide(body, env, other, formatTs)
  {
    FirstMissingIsFirst(ENV_KEYS, env);
  }

  /** An API error on opening the spreadsheet fails the call with that error's
      own code as the status. */
  lemma ApiCodePassesThrough(body: map<string, Value>, env: map<string, string>, remote: Remote,
                             formatTs: (int, string) -> string, code: int, before: Outcome)
    requires forall k :: k in ENV_KEYS ==> k in env
    requires remote.authenticate(Credentials(env[GS_PRIVATE_KEY], env[GS_CLIENT_EMAIL], env[GS_TOKEN_URI])) == Authorized
    requires remote.openByKey(env[SPREADSHEET_KEY]) == ApiErr(code)
    ensures Decide(body, env, remote, formatTs) == Fail(Api(code))
    ensures OutcomeAfter(Decide(body, env, remote, formatTs), before).statusCode == Some(code)
  {
    DecideLoaded(body, env, remote, formatTs);
  }

  /** A reached worksheet whose header differs from the specified one in any
      way (order, length, a label) fails the call with status 500, whatever the
      record holds. */
  lemma HeaderMismatchFails(body: map<string, Value>, env: map<string, string>, remote: Remote,
                            formatTs: (int, string) -> string, before: Outcome)
    requires forall k :: k in ENV_KEYS ==> k in env
    requires remote.authenticate(Credentials(env[GS_PRIVATE_KEY], env[GS_CLIENT_EMAIL], env[GS_TOKEN_URI])) == Authorized
    requires remote.openByKey(env[SPREADSHEET_KEY]) == Opened
    requires env[WORKSHEET_TITLE] in remote.worksheets
    requires remote.worksheets[env[WORKSHEET_TITLE]].header != COLUMN_ORDER
    ensures Decide(body, env, remote, formatTs) == Fail(ColumnMismatch)
    ensures OutcomeAfter(Decide(body, env, remote, formatTs), before).statusCode == Some(500)
  {
    DecideLoaded(body, env, remote, formatTs);
  }

  /** An append happens only to the configured worksheet, only when its header
      is exactly the specified one, and the row is the formatted timestamp
      followed by the record's five fields in header order. */
  lemma AppendOnlyUnderSpecHeader(body: map<string, Value>, env: map<string, string>, remote: Remote,
                                  formatTs: (int, string) -> string)
    requires Decide(body, env, remote, formatTs).Append?
    ensures forall k :: k in ENV_KEYS ==> k in env
    ensures env[WORKSHEET_TITLE] in remote.worksheets
    ensures Decide(body, env, remote, formatTs).sheet == remote.worksheets[env[WORKSHEET_TITLE]]
    ensures Decide(body, env, remote, formatTs).sheet.header == COLUMN_ORDER
    ensures "timestamp" in body && body["timestamp"].Int?
    ensures Decide(body, env, remote, formatTs).row ==
      [Str(formatTs(body["timestamp"].i, env[TIMESTAMP_FORMAT])),
       FieldOrNull(body, "first_name"), FieldOrNull(body, "last_name"),
       FieldOrNull(body, "email"), FieldOrNull(body, "company"), FieldOrNull(body, "message")]
  {
    DecideLoaded(body, env, remote, formatTs);
    RowUnderSpecHeader(body, formatTs(body["timestamp"].i, env[TIMESTAMP_FORMAT]));
  }

  /** With the configuration present, the service reachable, the specified
      header in place and an integer timestamp, the call succeeds, whatever
      the other fields of the record are. */
  lemma WellFormedSubmissionAppends(body: map<string, Value>, env: map<string, string>, remote: Remote,
                                    formatTs: (int, string) -> string)
    requires forall k :: k in ENV_KEYS ==> k in env
    requires remote.authenticate(Credentials(env[GS_PRIVATE_KEY], env[GS_CLIENT_EMAIL], env[GS_TOKEN_URI])) == Authorized
    requires remote.openByKey(env[SPREADSHEET_KEY]) == Opened
    requires env[WORKSHEET_TITLE] in remote.worksheets
    requires remote.worksheets[env[WORKSHEET_TITLE]].header == COLUMN_ORDER
    requires "timestamp" in body && body["timestamp"].Int?
    ensures Decide(body, env, remote, formatTs).Append?
    ensures Decide(body, env, remote, formatTs).sheet == remote.worksheets[env[WORKSHEET_TITLE]]
    ensures CompletionOf(Decide(body, env, remote, formatTs)) == Returned(true)
  {
    DecideLoaded(body, env, remote, formatTs);
  }

  /** The check loop of `_load_env_vars`: the first configuration key, in
      order, that the environment lacks. */
  method ScanEnvKeys(env: map<string, string>) returns (missing: Option<string>)
    ensures missing == FirstMissing(ENV_KEYS, env)
    ensures missing.Some? ==> missing.value != "" &&
                              exists i :: FirstMissingAt(ENV_KEYS, env, i) && ENV_KEYS[i] == missing.value
    ensures missing.None? <==> forall k :: k in ENV_KEYS ==> k in env
  {
    for i := 0 to |ENV_KEYS|
      invariant forall j :: 0 <= j < i ==> ENV_KEYS[j] in env
    {
      if ENV_KEYS[i] !in env {
        assert |ENV_KEYS[i]| > 0;
        assert FirstMissingAt(ENV_KEYS, env, i);
        FirstMissingAtIsReported(ENV_KEYS, env, i);
        return Some(ENV_KEYS[i]);
      }
    }
    return None;
  }

  class EnquirySubmitter {
    var gsPrivateKey: Option<string>
    var gsClientEmail: Option<string>
    var gsTokenUri: Option<string>
    var spreadsheetKey: Option<string>
    var worksheetTitle: Option<string>
    var timestampFormat: Option<string>

    var message: Option<string>
    var detailedMessage: Option<string>
    var detailedError: Option<ErrorDetail>
    var errorCategory: Option<string>
    var logSeverity: Option<string>
    var statusCode: Option<int>

    /** The six configuration fields. */
    function Loaded(): Settings
      reads this`gsPrivateKey, this`gsClientEmail, this`gsTokenUri,
            this`spreadsheetKey, this`worksheetTitle, this`timestampFormat
    {
      Settings(gsPrivateKey, gsClientEmail, gsTokenUri, spreadsheetKey, worksheetTitle, timestampFormat)
    }

    /** The six outcome fields, which persist from one call to the next. */
    function Recorded(): Outcome
      reads this`message, this`detailedMessage, this`detailedError, this`errorCategory,
            this`logSeverity, this`statusCode
    {
      Outcome(message, detailedMessage, detailedError, errorCategory, logSeverity, statusCode)
    }

    /** Every configuration field holds a value. */
    predicate Configured()
      reads this
    {
      gsPrivateKey.Some? && gsClientEmail.Some? && gsTokenUri.Some? &&
      spreadsheetKey.Some? && worksheetTitle.Some? && timestampFormat.Some?
    }

    constructor ()
      ensures Loaded() == Settings(None, None, None, None, None, None)
      ensures Recorded() == Outcome(None, None, None, None, None, None)
    {
      gsPrivateKey, gsClientEmail, gsTokenUri := None, None, None;
      spreadsheetKey, worksheetTitle, timestampFormat := None, None, None;
      message, detailedMessage, detailedError := None, None, None;
      errorCategory, logSeverity, statusCode := None, None, None;
    }

    /** Checks the keys in order and fails on the first missing one, assigning
        nothing; otherwise stores each key's environment value. */
    method LoadEnvVars(env: map<string, string>) returns (loaded: bool, missing: Option<string>)
      modifies this`gsPrivateKey, this`gsClientEmail, this`gsTokenUri,
               this`spreadsheetKey, this`worksheetTitle, this`timestampFormat
      ensures loaded <==> forall k :: k in ENV_KEYS ==> k in env
      ensures missing == FirstMissing(ENV_KEYS, env)
      ensures !loaded ==> missing.Some? && missing.value != ""
      ensures !loaded ==> Loaded() == old(Loaded())
      ensures loaded ==> Loaded() == SettingsFrom(env)
      ensures Recorded() == old(Recorded())
    {
      missing := ScanEnvKeys(env);
      if missing.Some? {
        return false, missing;
      }
      var settings := SettingsFrom(env);
      gsPrivateKey := settings.gsPrivateKey;
      gsClientEmail := settings.gsClientEmail;
      gsTokenUri := settings.gsTokenUri;
      spreadsheetKey := settings.spreadsheetKey;
      worksheetTitle := settings.worksheetTitle;
      timestampFormat := settings.timestampFormat;
      return true, None;
    }

    /** Records a failure: the detail, the INTERNAL category, CRITICAL severity
        and the status code; the message is left as it was. */
    method RecordFailure(detail: ErrorDetail)
      modifies this`detailedError, this`errorCategory, this`logSeverity, this`statusCode
      ensures Recorded() == OutcomeAfter(Fail(detail), old(Recorded()))
      ensures Loaded() == old(Loaded())
    {
      detailedError := Some(detail);
      errorCategory := Some(INTERNAL);
      logSeverity := Some(CRITICAL);
      match detail {
        case Api(code) => statusCode := Some(code);
        case _ => statusCode := Some(500);
      }
    }

    /** Reaches the worksheet named by the loaded settings. */
    method Reach(remote: Remote) returns (r: Result<Worksheet, ErrorDetail>)
      requires Configured()
      ensures r == Locate(Credentials(gsPrivateKey.value, gsClientEmail.value, gsTokenUri.value),
                          spreadsheetKey.value, worksheetTitle.value, remote)
    {
      var credentials := Credentials(gsPrivateKey.value, gsClientEmail.value, gsTokenUri.value);
      if remote.authenticate(credentials) == ParseErr {
        return Err(CredentialParse);
      }
      match remote.openByKey(spreadsheetKey.value) {
        case RefreshErr => return Err(Refresh);
        case TransportErr => return Err(Transport);
        case ApiErr(code) => return Err(Api(code));
        case Opened =>
      }
      if worksheetTitle.value !in remote.worksheets {
        return Err(WorksheetMissing);
      }
      return Ok(remote.worksheets[worksheetTitle.value]);
    }

    /** Checks the header of the reached worksheet, builds the row and appends it. */
    method Deliver(worksheet: Worksheet, body: map<string, Value>, format: string,
                   formatTs: (int, string) -> string) returns (c: Completion)
      modifies this`message, this`detailedMessage, this`detailedError, this`errorCategory,
               this`logSeverity, this`statusCode, worksheet`rows
      ensures var v := old(Judge(worksheet, body, format, formatTs));
        c == CompletionOf(v) && Recorded() == OutcomeAfter(v, old(Recorded())) &&
        worksheet.rows == old(worksheet.rows) + RowsGained(v, worksheet)
    {
      var columnNames := worksheet.header;
      if columnNames != COLUMN_ORDER {
        RecordFailure(ColumnMismatch);
        return Returned(false);
      }

      if "timestamp" !in body {
        return Raised(TimestampKeyError);
      }
      var timestamp := body["timestamp"];
      if !timestamp.Int? {
        return Raised(TimestampTypeError);
      }
      var data := BuildRow(columnNames, body, formatTs(timestamp.i, format));

      var response := worksheet.AppendRow(data);

      message := Some(SUCCESS_MESSAGE);
      detailedMessage := Some(response);
      logSeverity := Some(INFO);
      statusCode := Some(200);
      return Returned(true);
    }

    /** The steps of `submit` after the configuration is loaded. */
    method Proceed(body: map<string, Value>, remote: Remote, formatTs: (int, string) -> string)
      returns (c: Completion)
      requires Configured()
      modifies this`message, this`detailedMessage, this`detailedError, this`errorCategory,
               this`logSeverity, this`statusCode, remote.worksheets.Values
      ensures var v := old(Pursue(Credentials(gsPrivateKey.value, gsClientEmail.value, gsTokenUri.value),
                                 spreadsheetKey.value, worksheetTitle.value, timestampFormat.value,
                                 remote, body, formatTs));
        c == CompletionOf(v) && Recorded() == OutcomeAfter(v, old(Recorded())) &&
        forall w :: w in remote.worksheets.Values ==> w.rows == old(w.rows) + RowsGained(v, w)
      ensures forall w :: w in remote.worksheets.Values ==> w.header == old(w.header)
      ensures Loaded() == old(Loaded())
    {
      var reached := Reach(remote);
      if reached.Err? {
        RecordFailure(reached.error);
        return Returned(false);
      }
      c := Deliver(reached.value, body, timestampFormat.value, formatTs);
    }

    /** Submits one enquiry record. */
    method Submit(body: map<string, Value>, env: map<string, string>, remote: Remote,
                  formatTs: (int, string) -> string) returns (c: Completion)
      modifies this, remote.worksheets.Values
      ensures var v := old(Decide(body, env, remote, formatTs));
        c == CompletionOf(v) && Recorded() == OutcomeAfter(v, old(Recorded())) &&
        forall w :: w in remote.worksheets.Values ==> w.rows == old(w.rows) + RowsGained(v, w)
      ensures forall w :: w in remote.worksheets.Values ==> w.header == old(w.header)
      ensures Loaded() == if forall k :: k in ENV_KEYS ==> k in env then SettingsFrom(env) else old(Loaded())
    {
      var result, key := LoadEnvVars(env);
      if key.Some? && key.value != "" && !result {
        RecordFailure(MissingKey(key.value));
        return Returned(false);
      }
      DecideLoaded(body, env, remote, formatTs);
      c := Proceed(body, remote, formatTs);
    }
  }

  /** Submitting the same well-formed record twice appends it twice: the call
      is not idempotent. */
  method SubmitTwice(submitter: EnquirySubmitter, body: map<string, Value>, env: map<string, string>,
                     remote: Remote, formatTs: (int, string) -> string) returns (first: Completion, second: Completion)
    modifies submitter, remote.worksheets.Values
    ensures var v := old(Decide(body, env, remote, formatTs));
      v.Append? ==> first == Returned(true) && second == Returned(true) &&
                    v.sheet.rows == old(v.sheet.rows) + [v.row, v.row]
  {
    ghost var v := Decide(body, env, remote, formatTs);
    first := submitter.Submit(body, env, remote, formatTs);
    if v.Append? {
      AppendOnlyUnderSpecHeader(body, env, remote, formatTs);
      DecideLoaded(body, env, remote, formatTs);
      assert Decide(body, env, remote, formatTs) == v;
    }
    second := submitter.Submit(body, env, remote, formatTs);
  }
}
