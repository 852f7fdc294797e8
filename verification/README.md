# BigDataCorp lookup client — a Dafny model

This project models the core of the `bigdatacorp_api` Python client.

- **Registries.** Two fixed registries of dataset names: 36 person (CPF) datasets and 60 company (CNPJ) datasets. A lookup is admitted only when its dataset is in the registry of its entity kind.
- **Single-dataset lookup** (`get_cpf_dataset`, `get_cnpj_dataset`). The gate comes first. Then at most five POST attempts follow. Each attempt either:
  - returns the response body when the dataset's status code is 0;
  - raises a typed API error, which is never retried; or
  - logs a transport or shape fault and tries again.

  After five logged faults the lookup raises the max-retry error, which carries the five log texts in order.
- **Response inspection.** For person lookups, the birth-validation entry is checked first (minor-document error). Then the login entry is checked: code -101 means the subscription expired, and any other code falls through. Last comes the requested dataset's code. A nonzero code is classified by range into the invalid-input, login, internal-API, on-demand, monitoring or unmapped error. The payload of each of these is `{bigdata_status, cpf|cnpj}`.
- **CNPJ normalisation.** Removing every `.`, `/` and `-`.
- **Multi-dataset lookups** (`get_cpf_datasets`, `get_cnpj_datasets`). One lookup per requested name, in list order, collected into a map. The first failing lookup's error propagates unchanged.
- **Usage report** (`get_usage`). One usage query per registered dataset: people first, then companies, each in registry order. A query that fails for any reason is skipped, so the report never fails.
- **Exception hierarchy.** Every error kind is a subclass of the base class. `str` and `repr` are both "ClassName: message". `to_dict` has exactly the fields `payload`, `type` and `message`. The payload defaults to `{}`.

Modules:

| module | contents |
|---|---|
| `Results` (results.dfy) | `Option` and `Result` |
| `PyJson` (pyjson.dfy) | JSON values, and the Python operations the client applies to them (`d[k]`, `x[0]`, `.get`, `==`, `join`) with the faults they raise |
| `Registry` (registry.dfy) | the two registries and the gate |
| `Exceptions` (exceptions.dfy) | error kinds, class names, `repr`/`str`, `to_dict` |
| `Classification` (classification.dfy) | the status-code ranges and the classified errors |
| `Lookup` (lookup.dfy) | one attempt, the five-attempt loop, the `except` clauses |
| `CompanyId` (company_id.dfy) | CNPJ normalisation |
| `Batch` (batch.dfy) | multi-dataset lookups |
| `Usage` (usage.dfy) | the usage report |

The network is replaced by explicit inputs:

- A single lookup reads a script of attempt outcomes: a transport failure with its text, or a decoded JSON body. Attempt i reads the i-th outcome.
- A multi-dataset lookup reads one script per requested position.
- The usage report reads one reply per registry entry: a failed POST, or a status code with an optional decoded body.

## Model

| member | source | states |
|---|---|---|
| Registry.RegistriesDistinct | src/bigdatacorp_api/data.py:22-120 | neither registry lists a dataset name twice |
| Registry.ListDatasets | src/bigdatacorp_api/data.py:131-155 | the listed names are exactly the names the lookup gate admits, without repeats |
| Lookup.Fetch | src/bigdatacorp_api/data.py:171-280 | an unknown dataset fails with the base configuration error after zero POSTs; a known one always makes at least one POST and never more than five |
| Lookup.ConfigError | src/bigdatacorp_api/data.py:171-176 | the configuration error is a base-class error with the empty payload; its message starts with `dataset [<name>]` and ends with the registry of the entity kind joined by ", " |
| Lookup.MaxRetryError | src/bigdatacorp_api/data.py:276-280 | the max-retry error's payload has the single key `errors`, holding the log texts in order; with one text its message is the fixed prefix, that text and a newline |
| Lookup.MaxRetryFiveMessage | src/bigdatacorp_api/data.py:276-278 | the message of the max-retry error after five attempts is the fixed prefix followed by the five logged texts joined by newlines, and a final newline |
| Lookup.Inspect | src/bigdatacorp_api/data.py:193-258 | a decoded body is returned, unchanged, exactly when `Status` exists, there is no birth-validation entry (person lookups), any login entry has a readable code other than -101, and the dataset's first `Code` equals 0 |
| Lookup.Step | src/bigdatacorp_api/data.py:190-258 | an attempt returns only the body the transport delivered; a failed POST raises a transport fault carrying its text |
| Lookup.InspectClassifies | src/bigdatacorp_api/data.py:211-258 | once the early checks pass, a nonzero numeric code raises the error of its range at once, with the dataset's status object and the identifier as payload |
| Lookup.TransportFailureRetried | src/bigdatacorp_api/data.py:272-274 | a failed POST is caught by the catch-all clause: it is retried and its text is logged unchanged |
| Lookup.MissingStatusRetried | src/bigdatacorp_api/data.py:194 | a body that is not an object with a `Status` entry makes the attempt retry |
| Lookup.MissingDatasetRetried | src/bigdatacorp_api/data.py:211 | once the early checks pass, a `Status` with no entry for the requested dataset makes the attempt retry |
| Lookup.NonNumericCodeRetried | src/bigdatacorp_api/data.py:212-215 | once the early checks pass, a dataset code that is neither 0 nor a number cannot be compared with the ranges, so the attempt is retried |
| Lookup.FirstResponseDecides | src/bigdatacorp_api/data.py:189-258 | when the first response passes the early checks and has a numeric code, the lookup ends after one POST: with that body for code 0, and with the classified error otherwise |
| Lookup.Attempts | src/bigdatacorp_api/data.py:189-280 | the loop makes at least one more attempt from any attempt below five and stops by the fifth; the max-retry error can only come out after exactly five attempts |
| Lookup.GetDataset | src/bigdatacorp_api/data.py:171-280 | the gate followed by the `for` loop of five attempts returns the same result and attempt count as the recursive definition |
| Lookup.QueryId | src/bigdatacorp_api/data.py:179-182 | the identifier can be read back from the query expression `doc{…}` |
| Lookup.LookupBodyCarriesRequest | src/bigdatacorp_api/data.py:179-182 | the POST body names the dataset, asks for one record, and the identifier can be recovered from it |
| Lookup.FirstHandler | src/bigdatacorp_api/data.py:260-274 | the clause picked is the first one whose class matches; none before it matches |
| Lookup.HandlerDispatch | src/bigdatacorp_api/data.py:260-274 | every API error is re-raised by the base-class clause and every other exception reaches the catch-all; the login and minor clauses are never reached |
| Lookup.InspectOutcomes | src/bigdatacorp_api/data.py:190-258 | an attempt returns the body only when the dataset's code equals 0; an API error it raises is either the minor error (person lookups only), the expired-login error, or the classification of the nonzero code with the status object and identifier as payload |
| Lookup.MinorCheckedFirst | src/bigdatacorp_api/data.py:196-201 | a birth-validation entry that has a first element aborts a person lookup with the minor error carrying that element, whatever the login and dataset entries hold |
| Lookup.ExpiredLoginCheckedSecond | src/bigdatacorp_api/data.py:203-208 | with no birth-validation entry, or for a company, a login entry with code -101 aborts with the expired-login error before the dataset is read |
| Lookup.OtherLoginCodeFallsThrough | src/bigdatacorp_api/data.py:203-213 | a login entry with any code other than -101 changes nothing: the attempt returns or raises exactly as it would without the entry |
| Lookup.CompanyNeverMinor | src/bigdatacorp_api/data.py:314-326 | a company attempt never raises the minor-document error |
| Lookup.CompanyIgnoresBirthValidation | src/bigdatacorp_api/data.py:314-331 | removing the birth-validation entry changes no company verdict |
| Lookup.RetryLog | src/bigdatacorp_api/data.py:272-274 | the logged texts of retried attempts, one per attempt and in attempt order |
| Lookup.AttemptsDecidedAt | src/bigdatacorp_api/data.py:189-274 | from any attempt on, the first attempt that is not retried decides the result after exactly that many POSTs |
| Lookup.FetchDecidedAt | src/bigdatacorp_api/data.py:189-274 | the first attempt that returns or raises an API error decides the lookup, and no later attempt is made |
| Lookup.FirstAttemptSuccess | src/bigdatacorp_api/data.py:210-213 | when the first attempt returns, the lookup returns that response body after one POST |
| Lookup.StepNeverMaxRetry | src/bigdatacorp_api/data.py:189-258 | an attempt never raises the max-retry error or the base error itself |
| Lookup.AttemptsExhausted | src/bigdatacorp_api/data.py:272-280 | when every remaining attempt is retried, the loop raises the max-retry error whose log is the earlier log followed by the remaining texts |
| Lookup.FetchExhausted | src/bigdatacorp_api/data.py:276-280 | five retried attempts give the max-retry error; its `errors` payload is the five texts in attempt order |
| Lookup.AttemptsMaxRetryIff | src/bigdatacorp_api/data.py:189-280 | from any attempt on, the max-retry error comes out exactly when every remaining attempt is retried |
| Lookup.MaxRetryOnlyWhenAllRetried | src/bigdatacorp_api/data.py:189-280 | a lookup ends with the max-retry error if and only if all five attempts were retried |
| Lookup.AttemptsReadOnlyTheirOutcomes | src/bigdatacorp_api/data.py:189-213 | outcomes after the attempt that ended the loop cannot change its result |
| Lookup.FetchReadsOnlyItsAttempts | src/bigdatacorp_api/data.py:189-213 | two transports that agree on the POSTs a lookup made give the same lookup |
| Classification.CodeKind | src/bigdatacorp_api/data.py:215-258 | every nonzero code belongs to exactly one error kind under the range table |
| Classification.ZeroIsNoError | src/bigdatacorp_api/data.py:212-213 | code 0 belongs to no error kind |
| Classification.ClassifiedError | src/bigdatacorp_api/data.py:215-258 | the error for a nonzero code has the kind that owns the code; its payload has exactly the keys `bigdata_status` and the identifier key, holding the status object and the identifier |
| Exceptions.KindOfStem | src/bigdatacorp_api/exceptions.py:26-66 | a recognised class-name stem maps back to a kind with that stem |
| Exceptions.KindNamed | src/bigdatacorp_api/exceptions.py:4-66 | a recognised class name maps back to a kind with that class name |
| Exceptions.KindNamedInvertsClassName | src/bigdatacorp_api/exceptions.py:4-66 | every class name is recognised as its own kind, so distinct kinds have distinct names |
| Exceptions.StrRoundTrip | src/bigdatacorp_api/exceptions.py:5-12 | `str` equals `repr`, and "ClassName: message" parses back to the kind and the message |
| Exceptions.ReprDeterminesKindAndMessage | src/bigdatacorp_api/exceptions.py:5-9 | two errors with the same `repr` have the same kind and message |
| Exceptions.ToDict | src/bigdatacorp_api/exceptions.py:18-23 | the dictionary has exactly the fields `payload`, `type` and `message`, holding the payload, the class name and the message |
| Exceptions.FromDict | src/bigdatacorp_api/exceptions.py:18-23 | any dictionary it accepts is the `to_dict` of the error it returns |
| Exceptions.DictRoundTrip | src/bigdatacorp_api/exceptions.py:18-23 | `to_dict` loses nothing: reading it back gives the same kind, message and payload |
| Exceptions.DefaultPayload | src/bigdatacorp_api/exceptions.py:14-16 | an error built without a payload reports `{}` |
| Exceptions.EveryKindIsBase | src/bigdatacorp_api/exceptions.py:26-66 | every kind is a subclass of the base class, and the base class is a subclass of no other kind |
| CompanyId.RemoveChar | src/bigdatacorp_api/data.py:429 | one `replace(c, "")`: no longer than its input, free of `c`, and made only of input characters |
| CompanyId.Normalize | src/bigdatacorp_api/data.py:429 | the result holds only characters of the input and no `.`, `/` or `-` |
| CompanyId.RemoveCharConcat | src/bigdatacorp_api/data.py:429 | removing a character distributes over concatenation |
| CompanyId.NormalizeIsStrip | src/bigdatacorp_api/data.py:429 | the three chained `replace` calls equal one left-to-right filter that drops exactly the separators and keeps the other characters in order |
| CompanyId.StripConcat | src/bigdatacorp_api/data.py:429 | that filter distributes over concatenation |
| CompanyId.StripKeepsClean | src/bigdatacorp_api/data.py:429 | a string without separators passes the filter unchanged |
| CompanyId.StripIsClean | src/bigdatacorp_api/data.py:429 | the filter's output holds no separator |
| CompanyId.NormalizeFixedPoints | src/bigdatacorp_api/data.py:429 | normalisation leaves a string unchanged exactly when it has no separator, and it is idempotent |
| CompanyId.NormalizeConcat | src/bigdatacorp_api/data.py:429 | normalisation distributes over concatenation |
| CompanyId.StripAroundSeparator | src/bigdatacorp_api/data.py:429 | a separator between two parts disappears and the parts are kept |
| CompanyId.StripFormatted | src/bigdatacorp_api/data.py:429 | a CNPJ written as `a.b.c/d-e` normalises to `abcde` |
| CompanyId.NormalizeExample | src/bigdatacorp_api/data.py:429 | "12.345.678/0001-99" normalises to "12345678000199" |
| Batch.GetDatasets | src/bigdatacorp_api/data.py:406-412 | a batch succeeds exactly when the lookup of every position succeeds, and then its keys are exactly the requested names |
| Batch.GetCpfDatasets | src/bigdatacorp_api/data.py:391-412 | `get_cpf_datasets` succeeds exactly when every person lookup with the CPF as given succeeds, and then has one key per requested name |
| Batch.GetCnpjDatasets | src/bigdatacorp_api/data.py:414-436 | `get_cnpj_datasets` succeeds exactly when every company lookup with the normalised CNPJ succeeds, and then has one key per requested name |
| Batch.CollectSucceedsIff | src/bigdatacorp_api/data.py:407-412 | from any position on, the loop succeeds exactly when every remaining lookup succeeds |
| Batch.CollectKeys | src/bigdatacorp_api/data.py:407-412 | a successful loop's keys are the earlier keys plus every remaining requested name |
| Batch.CollectKeepsUnrequested | src/bigdatacorp_api/data.py:407-412 | a key that is not requested again keeps its value |
| Batch.CollectValues | src/bigdatacorp_api/data.py:407-412 | each requested name maps to the body of its last lookup |
| Batch.CollectFailsAt | src/bigdatacorp_api/data.py:407-412 | the first failing lookup's error is the loop's error |
| Batch.BatchSuccess | src/bigdatacorp_api/data.py:391-412 | a batch succeeds exactly when every lookup succeeds; its key set is the set of requested names, and each name maps to its (last) lookup's body |
| Batch.BatchFailsAtFirstFailure | src/bigdatacorp_api/data.py:391-412 | when lookup j is the first to fail, the batch fails with that very error and returns no map |
| Batch.GetDatasetsLoop | src/bigdatacorp_api/data.py:405-412 | the `for` loop that stores each lookup's body under its name gives the same result as the recursive definition |
| Batch.CnpjBatchIgnoresPunctuation | src/bigdatacorp_api/data.py:414-436 | a company batch depends only on the normalised CNPJ; "12.345.678/0001-99" is looked up as "12345678000199" |
| Usage.RequestIdentifiesEntry | src/bigdatacorp_api/data.py:474-482 | two usage requests of one report differ unless they ask about the same API and dataset |
| Usage.Query | src/bigdatacorp_api/data.py:483-505 | a usage query yields a record exactly on status 200 with all five counters under `UsageData`. The record's api type, end point and counters are those of the request and the body. Status 500 raises a transport fault. Any other status raises the base error with the body's `Status.Message` when the body decodes and has `Status.Message`; any other non-200 reply still fails |
| Usage.RecordsFrom | src/bigdatacorp_api/data.py:480-508 | a loop keeps at most one record per query |
| Usage.KeptFrom | src/bigdatacorp_api/data.py:480-508 | the kept positions are increasing and are exactly the positions whose query succeeded |
| Usage.RecordsAtKept | src/bigdatacorp_api/data.py:480-508 | the t-th record of a loop is the record of the t-th successful query, so records follow registry order and failed queries contribute nothing |
| Usage.Section | src/bigdatacorp_api/data.py:480-508 | a loop has no more records than datasets, and each record carries the loop's API name and one of its dataset names |
| Usage.SectionEndpointsDistinct | src/bigdatacorp_api/data.py:480-508 | over a registry without repeats, no dataset gets two records |
| Usage.SectionRecordIff | src/bigdatacorp_api/data.py:480-508 | over a registry without repeats, a dataset has a record exactly when its query succeeded |
| Usage.Report | src/bigdatacorp_api/data.py:480-541 | every people record comes before every companies record, and each record's end point is in the registry of its API |
| Usage.ReportPairsDistinct | src/bigdatacorp_api/data.py:480-541 | no (api type, end point) pair occurs twice in a report |
| Usage.ReportPersonRecordIff | src/bigdatacorp_api/data.py:480-508 | a person dataset has a people record exactly when its query succeeded |
| Usage.ReportCompanyRecordIff | src/bigdatacorp_api/data.py:510-538 | a company dataset has a companies record exactly when its query succeeded |
| Usage.GetUsage | src/bigdatacorp_api/data.py:438-541 | the report is a plain list for every reply sequence, so no reply makes it raise. It has at most one record per (API, registry entry) pair and no more records than entries, lists people before companies, and only names registered datasets under their own API |
| Usage.UsageRecords | src/bigdatacorp_api/data.py:438-541 | no registered dataset appears twice, and each has a record exactly when its usage query succeeded |
| Usage.UsageLoop | src/bigdatacorp_api/data.py:480-508 | the loop that appends a record per successful query gives the section |
| Usage.GetUsageReport | src/bigdatacorp_api/data.py:480-541 | the two loops, run one after the other, give the report |

## Left out

- HTTP, JSON decoding and headers: the transport and the decoder are the scripted outcomes and replies described above. The access token is not modelled.
- `print`, the `verbosity` flag and the `!!Error fetching BigData API` lines have no effect on results and are not modelled.
- JSON numbers are modelled as integers only; floating-point numbers are not modelled. The usage counters, `TotalEstimatedPrice` included, are copied into the record without inspection, and every stated property holds whatever value a counter has. A fractional status `Code` is out of scope.
- Fault texts (`str(e)` of a `KeyError`, `TypeError` and so on) approximate CPython's wording. Only their order and count in the max-retry log are stated.
- The `except BigDataCorpAPILoginProblemException` and `except BigDataCorpAPIMinorDocumentException` clauses are unreachable after the base-class clause. The model keeps them only to prove that (`Lookup.HandlerDispatch`).
- The kinds `InvalidDocument`, `InvalidDatabase` and `EmptyEnrichedProcess` exist in the hierarchy but are never raised by this client. They appear only in the exception-hierarchy lemmas.
- Python's shared mutable default for `payload` is modelled as a fresh `{}` per error. Nothing in the client mutates a payload.
- Usage.Query: when a non-200 reply's `Status.Message` is not a string, the model uses an empty message text. The failure itself, which is all the report depends on, is modelled exactly.
- The docstrings of the single lookups (data.py:161, data.py:286) promise a one-second sleep between attempts, but the code never sleeps. The model follows the code and has no delay or backoff.
- A transport whose answer depends on earlier requests is not modelled. Each lookup reads its own script, and each usage query its own reply.
- The constructor and the stored access token are not modelled.
- Key order is not modelled. Python dictionaries keep insertion order: `response_dict` lists the requested names in request order (data.py:406-412, data.py:430-436) and `to_dict` lists `payload`, `type`, `message` in that order (exceptions.py:19-23). The model uses unordered maps, so only the key sets and the values are stated.
- The client has no variant that collapses every nonzero code into the invalid-document error. Every nonzero code is range-classified, so the invalid-document kind is never raised.
- A status-500 usage reply raises inside the loop body, but the `except Exception` clause of that loop catches it. It is skipped like any other failure and never makes the report raise.
