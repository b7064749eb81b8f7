# Extreme Cloud IQ Nagios probe — Dafny model

This project models the core of `check_extreme_cloud_iq.py`, a Nagios plugin.
The plugin queries the ExtremeCloud IQ REST API and turns device or alarm
records into an exit code (0 OK, 2 CRITICAL, 1 error, 3 connection timeout)
and a status message. The model has five modules:

- `Json` (json.dfy): the JSON values the API returns. It also gives the two
  Python equalities the evaluators use: `== True`, which also holds for the
  integer 1, and `== 'MANAGED'`.
- `Outcome` (outcome.dfy): the exceptions the script can raise, as an `Error`
  value, plus `Result` and Python's `dict[key]` lookup. A failed lookup is a
  KeyError, or a TypeError when the value is not a dict.
- `CloudIQ` (cloud_iq.dfy): the class `ExtreamCloudIQ`. It covers
  `validate_response`, the access-token lookup of `login`, and paged retrieval
  (`fetch_page`, `fetch_remaining`, `paged_data`). The network is a parameter:
  a total function from a request to what came back, either a response or an
  exception raised by the HTTP library. The paging methods return the list of
  requests they sent, so the model can state which pages were asked for, in
  what order, with what parameters.
- `Nagios` (nagios.dfy): the class `Nagios`. It covers `check_excluded`, the
  device evaluator (`mode_device`), the alarm evaluator (`mode_alarm`) and the
  credential guard of `generate_token`.
- `Probe` (probe.dfy): the script's entry point. It dispatches on the mode and
  maps each exception to an exit code.

Each loop in the source is a `method` with a `while` loop. Each such method is
proved equal to a specification function: `Collected`/`PagedResult` for
paging, `Exclusion`, `Survey`/`DeviceCheck` for devices, and
`Summaries`/`AlarmCheck` for alarms. The properties the program promises are
lemmas about those functions.

In these places the model follows the code as written, where a reader
might expect otherwise:

- `validate_response` decodes the body before it looks at the status.
  Success therefore needs a status in {200, 201, 202, 204} AND a body that
  decodes as JSON. An empty 204 response is an error (`Unexpected(NotJson)`,
  exit 1).
- The issue line of `mode_device` reads `connected` even when
  `device_admin_state != 'MANAGED'` has already short-circuited the test. An
  unmanaged device with no `connected` field therefore raises KeyError.
- `login` stores the access token in `self.token`, which shadows the method
  `token`. Calling `self.iq.token()` then raises TypeError. So
  `generate-token` run with both credentials never exits 0 (`GenerateToken`,
  `Probe.TokenModeExit`). The model therefore follows `generate_token` only up
  to the login request and its access-token lookup.
- `requests.exceptions.ConnectTimeout` is not the builtin `ConnectionError`.
  It reaches the third `except` clause (exit 3). Any other failure of the HTTP
  library reaches the last clause (exit 1).
- The OK message of the device check reports the number of all fetched
  devices, excluded ones included.

## Model

| member | source | states |
|---|---|---|
| CloudIQ.ValidateResponse | check_extreme_cloud_iq.py:19-27 | success exactly when the status is 200/201/202/204 and the body decodes, and then the body is the value. TokenExpired exactly when a rejected response's error_code is AUTH_TOKEN_EXPIRED. Otherwise a ConnectionError carrying status, error_code and error_message. A rejected body without `error_code` gives that lookup's KeyError/TypeError; one that has `error_code` but no `error_message` gives KeyError. Every other error is of the unexpected kind (exit 1) |
| Outcome.Lookup | check_extreme_cloud_iq.py:24 | `v[key]` yields the field exactly when `v` is a dict holding `key`; otherwise KeyError for a dict, TypeError for anything else |
| CloudIQ.Receive | check_extreme_cloud_iq.py:61-66 | a connect timeout of the HTTP library becomes ConnectTimeout and nothing else does; any other library failure becomes an unexpected error (exit 1); an answered request is classified by validate_response |
| CloudIQ.Login | check_extreme_cloud_iq.py:29-40 | login succeeds exactly when its response validates and carries access_token, and then yields that field's value. A rejected login propagates the classification error. A validated body without access_token gives KeyError (TypeError if it is not a dict) |
| CloudIQ.PageRequest | check_extreme_cloud_iq.py:61-64 | a page request is a GET with the 20-second timeout whose parameters are the caller's, with only `page` overwritten by the page number |
| CloudIQ.FetchPage | check_extreme_cloud_iq.py:61-66 | a page fetch succeeds exactly when its request was answered with a success status and a JSON body, and then yields that body; a failed fetch is the exchange's own classification (TokenExpired, ApiConnectionError, ConnectTimeout or an unexpected error) |
| CloudIQ.Items | check_extreme_cloud_iq.py:73-75 | a page's data is usable exactly when it is a JSON array, and then it is that array's elements |
| CloudIQ.PageItems | check_extreme_cloud_iq.py:73 | `fetch_page(...)['data']` propagates the fetch error, and succeeds exactly when the fetched body holds an array under `data`, yielding that array; a fetched body that is not a dict is TypeError, one without `data` is KeyError('data') |
| CloudIQ.PageCount | check_extreme_cloud_iq.py:82-85 | `total_pages > 1` works on a number (a bool counts as at most 1) and raises TypeError (NotComparable) on anything else |
| CloudIQ.ReadFirstPage | check_extreme_cloud_iq.py:81-85 | page 1's fetch error propagates; it succeeds exactly when the fetched body is a dict holding `total_pages` and `data` and the page count is comparable, and then the count is PageCount of the former and the data is the latter; otherwise the error is TypeError for a non-dict, KeyError('total_pages'), KeyError('data') or the TypeError of `total_pages > 1`, in that order |
| CloudIQ.Collected | check_extreme_cloud_iq.py:70-77 | pages 2..last with last < 2 give no records and no error; the contents are stated by CollectedServed, CollectedFirstFailure and CollectedStaysFailed |
| CloudIQ.Issued | check_extreme_cloud_iq.py:71-73 | the loop sends at most one request per page 2..last, and exactly one per page when none fails |
| CloudIQ.PagedResult | check_extreme_cloud_iq.py:79-88 | a page-1 failure propagates; a success is page 1's data array, followed by the records of pages 2..total_pages when total_pages > 1, or page 1's data alone otherwise |
| CloudIQ.PagedRequests | check_extreme_cloud_iq.py:79-88 | paged_data sends at least one request and at most max(1, total_pages) |
| CloudIQ.FetchRemaining | check_extreme_cloud_iq.py:68-77 | the loop returns the records of pages 2..total_pages concatenated in page order, or the first failing page's error; request i is for page i + 2, and none follows the failing one |
| CloudIQ.PagedData | check_extreme_cloud_iq.py:79-88 | paged_data returns the paged result, sends at least one request, and request i is for page i + 1 with the base parameters |
| CloudIQ.CollectedStep | check_extreme_cloud_iq.py:71-75 | one more page appends that page's records, or aborts with its error, and always costs one request |
| CloudIQ.CollectedStaysFailed | check_extreme_cloud_iq.py:71-75 | once a page has failed, later pages change neither the error nor the number of requests |
| CloudIQ.CollectedServed | check_extreme_cloud_iq.py:70-77 | when every page succeeds, pages 2..k give exactly the concatenation of their records after k - 1 requests |
| CloudIQ.CollectedPrefixOk | check_extreme_cloud_iq.py:70-77 | when pages 2..k all succeed, the loop over them succeeds after k - 1 requests |
| CloudIQ.CollectedFirstFailure | check_extreme_cloud_iq.py:70-77 | the loop fails with the error of the first failing page p, after p - 1 requests |
| CloudIQ.PagedConcatenation | check_extreme_cloud_iq.py:79-88 | for any served pages, the result is the concatenation of pages 1..N in ascending order with one request per page, and its length is the sum of the page lengths |
| CloudIQ.SinglePage | check_extreme_cloud_iq.py:81-88 | when page 1 reports total_pages <= 1, only page 1 is requested and its data is returned unchanged |
| CloudIQ.PageFailureAborts | check_extreme_cloud_iq.py:79-88 | a failure on page p of total_pages aborts the whole fetch with that page's error, with no partial result and no request after page p |
| CloudIQ.FlattenLength | check_extreme_cloud_iq.py:75 | concatenation neither loses nor duplicates records: the combined length is the sum of the page lengths |
| CloudIQ.Devices | check_extreme_cloud_iq.py:90-103 | the device listing is the paged fetch of /devices with views, fields, limit 50 and sortField SN |
| CloudIQ.Alarms | check_extreme_cloud_iq.py:105-118 | the alarm listing is the paged fetch of /alerts with limit 100 and the given start and end times |
| Nagios.Split | check_extreme_cloud_iq.py:213 | `split(',')` gives at least one field, and no field contains a comma |
| Nagios.JoinSplit | check_extreme_cloud_iq.py:213 | joining the comma-split fields with commas gives back the option string |
| Nagios.SplitJoin | check_extreme_cloud_iq.py:213 | splitting comma-free fields after joining them gives back the same fields |
| Nagios.TrailingCommaField | check_extreme_cloud_iq.py:213 | an option ending in a comma has an empty last pattern |
| Nagios.Patterns | check_extreme_cloud_iq.py:211-213 | there are no patterns exactly when the option is absent or empty; otherwise the patterns are the option's comma-separated fields (Split of it), none holds a comma, and joined with commas they give back the option string |
| Nagios.LowerString | check_extreme_cloud_iq.py:216 | case folding keeps the length and folds every character |
| Nagios.Matches | check_extreme_cloud_iq.py:216 | the empty pattern matches every hostname, and a match needs a pattern no longer than the hostname |
| Nagios.Exclusion | check_extreme_cloud_iq.py:209-219 | no patterns gives False; with patterns, a non-string hostname raises TypeError; a string hostname gives True exactly when some pattern matches it case-insensitively |
| Nagios.CheckExcluded | check_extreme_cloud_iq.py:209-219 | the loop with early return gives False when there are no patterns; otherwise True exactly when some pattern matches the hostname case-insensitively, and TypeError for a hostname that is not a string |
| Nagios.NoExcludeOption | check_extreme_cloud_iq.py:211-213 | an absent or empty exclude option excludes nothing |
| Nagios.EmptyPatternExcludesAll | check_extreme_cloud_iq.py:213-217 | an empty pattern matches every hostname |
| Nagios.TrailingCommaExcludesAll | check_extreme_cloud_iq.py:213-217 | an exclude option with a trailing comma excludes every device |
| Nagios.MatchesIgnoresCase | check_extreme_cloud_iq.py:216 | matching depends only on the case-folded pattern and hostname |
| Nagios.Summarize | check_extreme_cloud_iq.py:159-161 | the excluded summary appears exactly when something was excluded, with its count and hostnames |
| Nagios.DeviceCheck | check_extreme_cloud_iq.py:159-171 | code 2 exactly when there is an issue, else 0; CRITICAL lists every issue with the excluded summary; OK reports the count of all fetched devices; an error propagates from the device loop |
| Nagios.Unhealthy | check_extreme_cloud_iq.py:156 | an admin state other than 'MANAGED' is unhealthy without reading `connected`; with 'MANAGED', `connected` must be present and decides it |
| Nagios.Inspect | check_extreme_cloud_iq.py:151-157 | one iteration of the device loop. No hostname gives KeyError/TypeError. A non-string hostname with patterns gives TypeError. An excluded device is skipped whatever else it holds. Otherwise a missing admin state or a missing `connected` gives KeyError, even when the admin test short-circuited, because the issue line reads it. With all fields present it is an issue exactly when it is not MANAGED or not connected |
| Nagios.Survey | check_extreme_cloud_iq.py:149-157 | the device loop completes exactly when every device's iteration does, and it reports no more issues and exclusions together than there are devices |
| Nagios.EvaluateDevices | check_extreme_cloud_iq.py:149-171 | the device loop and its verdict equal DeviceCheck, and the first failing device aborts. Each iteration is the method InspectDevice, which is proved equal to Inspect and calls CheckExcluded |
| Nagios.SurveyStaysFailed | check_extreme_cloud_iq.py:151-157 | once a device raises, later devices do not change the outcome |
| Nagios.DeviceMode | check_extreme_cloud_iq.py:143-171 | a failed device fetch propagates its error; otherwise the verdict is DeviceCheck of the fetched devices |
| Nagios.ModeDevice | check_extreme_cloud_iq.py:143-171 | mode_device fetches all device pages and evaluates them; a fetch error propagates |
| Nagios.DeviceIsIssueIff | check_extreme_cloud_iq.py:151-157 | any device record holding hostname, device_admin_state and connected (other fields allowed) is skipped when its hostname is excluded; otherwise it is an issue exactly when its admin state is not MANAGED or connected is not True |
| Nagios.SurveyAppend | check_extreme_cloud_iq.py:149-157 | the issues and excluded lists of a concatenation are the concatenated lists, so both keep device order |
| Nagios.ExcludedNeverIssues | check_extreme_cloud_iq.py:151-157 | no issue is for an excluded hostname, every excluded hostname matched a pattern, and the two lists together hold no more entries than there are devices |
| Nagios.ExampleCritical | check_extreme_cloud_iq.py:149-171 | a healthy "a" and an unmanaged "b" with no exclusion give CRITICAL listing only "b" |
| Nagios.ExampleExcluded | check_extreme_cloud_iq.py:149-171 | the same devices with pattern "b" give OK with total 2 and "b" in the excluded summary |
| Nagios.Describe | check_extreme_cloud_iq.py:179 | an alarm's line exists exactly when it has source.source_name, summary and tags.location_names, and carries those three values; otherwise the error is the KeyError or TypeError of the first lookup that fails, read in the order source, source_name, summary, tags, location_names |
| Nagios.Summaries | check_extreme_cloud_iq.py:177-179 | a completed summary has exactly one line per alarm |
| Nagios.SummariesPerAlarm | check_extreme_cloud_iq.py:177-179 | the summary holds exactly one line per alarm, in alarm order, when every alarm has the fields read |
| Nagios.SummariesFirstFailure | check_extreme_cloud_iq.py:177-179 | the first alarm lacking a field decides the error |
| Nagios.SummariesStayFailed | check_extreme_cloud_iq.py:177-179 | once an alarm raises, later alarms do not change the outcome |
| Nagios.AlarmCheck | check_extreme_cloud_iq.py:177-188 | code 2 exactly when at least one alarm was fetched, with all of their lines; otherwise 0 with "no alerts"; no filtering; a failure is exactly the summary's error (the KeyError/TypeError of the first alarm lacking a field) |
| Nagios.EvaluateAlarms | check_extreme_cloud_iq.py:177-188 | the summary loop and verdict equal AlarmCheck |
| Nagios.AlarmMode | check_extreme_cloud_iq.py:173-188 | a failed alarm fetch propagates its error; otherwise the verdict is AlarmCheck of the fetched alarms |
| Nagios.ModeAlarm | check_extreme_cloud_iq.py:173-188 | mode_alarm fetches all alarm pages and evaluates them; a fetch error propagates |
| Nagios.GenerateToken | check_extreme_cloud_iq.py:195-207 | with a missing user or password it returns {} and sends nothing; otherwise exactly the login request is sent and the outcome is an error: the login's own error, or, after a successful login, the TypeError of calling the `token` attribute that the stored string shadows |
| Probe.ExitCode | check_extreme_cloud_iq.py:238-249 | TokenExpiredError exits 2, ConnectTimeout exits 3, the builtin ConnectionError and every other exception exit 1; an exception never exits 0 (a run without one exits with its verdict's code, see ExitStatus) |
| Probe.CodeOf | check_extreme_cloud_iq.py:229-249 | a verdict exits with its own code (via alert); an exception exits with ExitCode, never 0 |
| Probe.ExitStatus | check_extreme_cloud_iq.py:223-236 | every run exits 0, 1, 2 or 3, and an unknown mode exits 1 |
| Probe.Run | check_extreme_cloud_iq.py:221-249 | the entry point's exit code is ExitStatus |
| Probe.TokenModeExit | check_extreme_cloud_iq.py:195-207 | generate-token exits 0 exactly when a credential is missing |
| Probe.DeviceModeExit | check_extreme_cloud_iq.py:228-240 | device mode exits 0 exactly for an OK verdict, and 2 exactly for a CRITICAL verdict or an expired token |
| Probe.AlarmModeExit | check_extreme_cloud_iq.py:230-240 | alarm mode exits 0 exactly when no alarm was found, and 2 exactly when some was or the token expired |

## Left out

- HTTP and JSON encoding (`requests.get`/`post`, `res.json()`, `json.dumps`): foreign I/O. A request is a value and the network is a parameter. The network is assumed to answer the same request the same way.
- The `Authorization` header set in the `Nagios` constructor and by `login`, and the fields `base_uri`, `timeout` and `header`: the URL and timeout are constants, and headers are not modelled. There is no class, because only `login`, which is not modelled past its token lookup, updates these fields.
- The in-place update of the caller's `params` by `fetch_page`: parameters are values. The request trace shows `page` overwritten on each request, but the caller's dict afterwards is not modelled.
- `logout`, the `token` request and printing the token: as written they are unreachable (see `GenerateToken`).
- argparse (including the `--token` requirement), `print`, `exit` and the `print` of the device list in `device`: command-line and stdout plumbing.
- The alarm time window (`datetime.now()` minus 15 days): wall-clock time and float timestamps. The bounds are parameters.
- Exact message text: a verdict's message is a structured value. It has the problem count, issue lines, excluded count and hostnames, or the total device count, or the alert count and lines. Rendering these to Python strings is not modelled.
- Floating-point JSON numbers, for which Python's `1.0 == True` also holds.
- Nagios.CheckExcluded: a pattern is matched as a literal case-insensitive substring with ASCII case folding. Regular-expression syntax, Unicode case folding and errors from invalid patterns are not modelled.
- CloudIQ.PagedData, CloudIQ.Items, CloudIQ.PageItems, CloudIQ.Collected, CloudIQ.FetchRemaining: a page whose `data` is not a JSON array is an error. Python would instead extend the list with a string's characters or a dict's keys, or return a non-list first page unchanged when there is one page.
- CloudIQ.Receive: of the HTTP library's exceptions only ConnectTimeout is told apart. Every other one (read timeout, connection refused, ...) is a single kind of failure that exits 1.
