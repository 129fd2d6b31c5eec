# Enquiry submitter — a Dafny model

This project models the submission core of a small contact-form service. The
core takes an enquiry record and appends it as a row to a spreadsheet
worksheet. It has two parts:

- `EnquirySubmitter` (server/enquiry_submitter.py). It loads six configuration
  values from the environment, authenticates, opens the spreadsheet, selects
  the worksheet, checks the worksheet's header row against the column
  specification, builds the row in the header's own order, and appends it. It
  records the outcome of each call in its own fields: message, detailed
  message, detailed error, error category, log severity, status code.
- `EnvVarsLoader.get_env_vars` (server/env_vars_loader.py). It builds the
  dictionary of the requested environment variables. It fails with
  `VarNotFoundException` on the first missing one, in list order.

Files:

- `wrappers.dfy` — `Option` and `Result`.
- `env_vars.dfy` — module `EnvVars`:
  - `FirstMissing`, the specification of "the first absent key in order", and
    its lemmas;
  - the `EnvVarsLoader` class, whose `GetEnvVars` loop fills the dictionary.
    `VarNotFoundException` is the `Err(VarNotFound(name))` variant.
- `sheets.dfy` — module `Sheets`, the remote spreadsheet service as a set of
  outcomes:
  - cell values;
  - a `Worksheet` class with its header row and its body rows. Its constructor
    is only the model's way to have a worksheet; the code never creates one;
  - the `Remote` datatype, which gives the result of authentication and of
    opening a spreadsheet by key, and maps worksheet titles to worksheets.
- `enquiry.dfy` — module `Enquiry`:
  - the constants;
  - row building: `BuildRow`, a loop over the header, specified by `RowFor`;
  - the outcome mapping `OutcomeAfter`;
  - the verdict function `Decide`, which says what one call of `submit` does
    for a given environment, remote service and record;
  - the `EnquirySubmitter` class. Its methods update its fields and the
    worksheet, and they are proved against `Decide` and `OutcomeAfter`.

The environment is an input map. The remote service is a `Remote` value.
Timestamp rendering is a parameter `formatTs: (int, string) -> string`, which
takes the millisecond timestamp and the configured format.

`submit` can end in two ways (`Completion`):

- It returns a boolean.
- It raises an exception the code does not catch. This happens when the
  record has no `"timestamp"` field (a `KeyError`), or when the timestamp is
  not a number (a `TypeError` from the division).

## Model

| member | source | states |
|---|---|---|
| EnvVars.FirstMissing | server/env_vars_loader.py:32-34 | `None` exactly when every key is in the environment; otherwise the reported key is one of the keys and is absent |
| EnvVars.FirstMissingIsFirst | server/env_vars_loader.py:32-34 | a reported key is the first absent one: it sits at an index where every earlier key is present |
| EnvVars.FirstMissingAtIsReported | server/enquiry_submitter.py:68-70 | conversely, the key at the first absent index is the one reported |
| EnvVars.EnvVarsLoader.constructor | server/env_vars_loader.py:19-20 | the loader keeps the list of keys it is given |
| EnvVars.EnvVarsLoader.GetEnvVars | server/env_vars_loader.py:22-38 | succeeds exactly when every key is present; on failure names the first missing key in list order and returns no dictionary; on success the dictionary's key set is the set of keys and each value is the environment's value for that key |
| Sheets.Worksheet.AppendRow | server/enquiry_submitter.py:188 | the worksheet gains exactly the one given row at the end and returns its reply |
| Enquiry.ColumnOrderListsSpec | server/enquiry_submitter.py:32-39 | the expected header lists every label of the column specification once and nothing else |
| Enquiry.RowForIsTheRow | server/enquiry_submitter.py:179-186 | the built row has the header's length (at least one), holds the formatted timestamp first, and at each later index holds the mapped record field when the label is specified and the record carries it, else `None`; it is the only row with that property |
| Enquiry.BuildRow | server/enquiry_submitter.py:179-186 | the loop builds that row |
| Enquiry.RowUnderSpecHeader | server/enquiry_submitter.py:171-186 | under the expected header the row is the timestamp followed by first name, last name, email, company and message, each `None` when absent |
| Enquiry.AbsentCompanyIsNull | server/enquiry_submitter.py:181-186 | a record without a company gets `None` at index 4 of a six-cell row |
| Enquiry.LocateReachesOrFails | server/enquiry_submitter.py:116-167 | the worksheet is reached exactly when authentication, opening by key and selection by title all succeed, and it is the worksheet of that title; a failed step gives status 500, except an API error on opening, which gives its own code |
| Enquiry.RemoteFailureIsInternal | server/enquiry_submitter.py:116-167 | with the configuration present, an unreachable worksheet fails the call with `False`, INTERNAL, CRITICAL and status 500, or the API error's code when opening failed that way |
| Enquiry.DecideLoaded | server/enquiry_submitter.py:106-116 | with every key present the call goes on to the remote steps with the loaded values |
| Enquiry.FailureIsInternal | server/enquiry_submitter.py:108-177 | every failure records its detail, INTERNAL, CRITICAL and status 500, except that an API error records its own code; message and detailed message are untouched |
| Enquiry.NeverClient | server/enquiry_submitter.py:17-18 | no call ever writes the CLIENT category: it stays as it was or becomes INTERNAL |
| Enquiry.SuccessKeepsEarlierError | server/enquiry_submitter.py:190-195 | a success writes the message, INFO and 200, and leaves the detailed error and category of an earlier call in place |
| Enquiry.MissingConfigFailsFirst | server/enquiry_submitter.py:106-114 | a missing key fails the call naming the first missing key, whatever the remote service would answer |
| Enquiry.ApiCodePassesThrough | server/enquiry_submitter.py:150-156 | an API error on opening the spreadsheet fails the call with that error's code as the status |
| Enquiry.HeaderMismatchFails | server/enquiry_submitter.py:169-177 | any header other than the expected one, in order and length, fails the call with status 500 whatever the record holds |
| Enquiry.AppendOnlyUnderSpecHeader | server/enquiry_submitter.py:169-188 | an append happens only with every key present, to the configured worksheet, under the expected header, with an integer timestamp, and the row is the formatted timestamp followed by the five fields |
| Enquiry.WellFormedSubmissionAppends | server/enquiry_submitter.py:158-195 | with configuration, service and header in order and an integer timestamp, the call appends to the configured worksheet and returns `True` |
| Enquiry.ScanEnvKeys | server/enquiry_submitter.py:68-70 | the check loop finds the first absent key in order, or none exactly when all are present |
| Enquiry.EnquirySubmitter.constructor | server/enquiry_submitter.py:41-57 | all twelve fields start as `None` |
| Enquiry.EnquirySubmitter.LoadEnvVars | server/enquiry_submitter.py:59-96 | returns `(true, None)` exactly when every key is present, and then each configuration field holds its key's value; otherwise returns `(false, k)` with `k` the first missing key and assigns no field; outcome fields untouched |
| Enquiry.EnquirySubmitter.RecordFailure | server/enquiry_submitter.py:108-177 | a failure sets detail, INTERNAL, CRITICAL and 500 or the API code, and nothing else |
| Enquiry.EnquirySubmitter.Reach | server/enquiry_submitter.py:116-167 | authenticating, opening by key and selecting by title give `Locate`'s result: the worksheet, or the detail of the first step that fails (characterised by `LocateReachesOrFails`) |
| Enquiry.EnquirySubmitter.Deliver | server/enquiry_submitter.py:169-195 | header check, timestamp read, row building and append: completion, outcome fields and the worksheet's rows are as the verdict says |
| Enquiry.EnquirySubmitter.Proceed | server/enquiry_submitter.py:116-195 | the remote steps: completion, outcome fields and every worksheet's rows follow the verdict; no header changes and the configuration stays |
| Enquiry.EnquirySubmitter.Submit | server/enquiry_submitter.py:98-195 | one call: it returns `False` on every failure and `True` on success, or raises on a bad timestamp; the outcome fields follow `OutcomeAfter`; the configured worksheet gains exactly the built row on success and no worksheet gains a row otherwise; the configuration fields hold the environment's values when all keys are present and are untouched otherwise |
| Enquiry.SubmitTwice | server/enquiry_submitter.py:188 | submitting the same well-formed record twice appends it twice |

## Left out

- The spreadsheet library, the authentication library and the ASN.1 parser (`service_account_from_dict`, `open_by_key`, `worksheet`, `row_values`, `append_row`). They are foreign network calls. The model keeps only their possible outcomes, through `Remote` and `Worksheet`, and not the protocol.
- `load_dotenv()` and `os.environ`. The environment is an input map; reading a `.env` file is process I/O.
- Timestamp rendering: division by 1000 as a float, then `datetime.fromtimestamp` and `strftime`. It is floating point and depends on the local time zone, so it is the `formatTs` parameter. Errors it could raise (an out-of-range timestamp, say) are not modelled. A float timestamp in the record is not modelled either, because `Value` has only integers, strings and `None`.
- The exact text of `detailed_error` (an exception object or a message string). It is kept as an `ErrorDetail` tag. The text of the `VarNotFoundException` message is reduced to the missing name.
- The reply of `append_row` is an opaque string fixed per worksheet.
- Exceptions the libraries could raise besides the caught ones are not modelled. For example: errors from `service_account_from_dict` other than `PyAsn1Error`, errors from `worksheet` other than `WorksheetNotFound`, any error from `row_values` or `append_row`, and an API error without a code.
- One `Remote` value fixes the service's answers for every call made with it: the same credentials, key and title always give the same outcome. A service whose answers change between calls (a second `submit` that fails where the first succeeded) is not modelled; `SubmitTwice` relies on this.
- server/api.py, server/routes.py, server/model.py and examples/submit_enquiry.py are not part of this model: they are web wiring, a request schema and a usage script.
- Sharing one submitter between concurrent requests. Only sequential calls are modelled. The fields that survive from one call to the next are in scope.
- Enquiry.EnquirySubmitter.Submit: the guard `if key and not result` is kept literally. `LoadEnvVars` proves the key is always non-empty when loading fails, so the guard amounts to "loading failed".

## Behaviour of the code worth knowing

- The outcome fields live on the instance and persist between calls. A success leaves the detailed error and category of an earlier failure in place, and a failure leaves an earlier message and detailed message in place. `SuccessKeepsEarlierError` and `FailureIsInternal` state this.
- `submit` raises `KeyError` when the record lacks `"timestamp"` and `TypeError` when the timestamp is not a number (server/enquiry_submitter.py:179). The model has these as `Raised` completions, with nothing recorded and nothing appended.
