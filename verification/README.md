# Runscope trigger-and-report script, modelled in Dafny

The script `auto/run_api_test.py` runs in CI. It starts a remote API-monitoring
test run with a POST, polls the run's status with GETs until it leaves
`init`/`working`, and writes a JUnit report of the outcome. This project
models its decision logic as pure functions over immutable data:

- `base.dfy` (`Base`): optional values, the fatal errors (each ends the
  script with exit code 1), a result type, and the exit codes.
- `credentials.dfy` (`Credentials`): the credential taken from
  `APICredentials` and the `Authorization` header built from it.
- `trigger.dfy` (`Trigger`): the trigger response as nested optional fields,
  and the extraction of the poll URL, test name and report URL from its
  first run.
- `polling.dfy` (`Polling`): the bounded poll loop. The remote service is a
  sequence of responses, one per GET. It is written once as a recursive
  function and once as the script's `while` loop, and the two are proved equal.
- `report.dfy` (`Report`): the JUnit `testsuite`/`testcase` record, with a
  reader that recovers the result and report URL from it.
- `script.dfy` (`Script`): the whole execution. It takes an environment
  (credential, trigger response, poll responses, elapsed time) and gives the
  requests issued, the report written if any, the exit code and the fatal error.

Modelling choices:

- The remote service is a sequence of poll responses. A GET past the end of
  the sequence reads as a failed request, as if the service were unreachable.
  This keeps every operation total. A caller that wants a completed run
  supplies enough responses.
- `str.lower()` is modelled as ASCII lower-casing. For the `bearer ` test this
  gives the same answer as Python's full Unicode lower-casing. Only U+0130 and
  U+212A lower-case into ASCII, and neither becomes a letter of `bearer `.
- The poll result at `data.result` may be a string, `null`, a boolean or an
  integer (floats are left out). The script compares the raw value with strings and
  writes it into the failure message with an f-string. The model keeps the
  status as that written form (`None`, `True`, `42`, ...). It proves that
  comparing the written form with `init`, `working` or `pass` decides exactly
  as comparing the raw value does.
- The script computes the final result twice with the same expression, once
  in the loop (line 80) and once in `main` (line 130). The model reads it from
  the last poll body, so both reads agree by construction.

## Model

| member | source | states |
|---|---|---|
| Credentials.Lower | auto/run_api_test.py:18 | lower-casing keeps the length and folds each character in place |
| Credentials.LowerAppend | auto/run_api_test.py:18 | under the ASCII lower-casing of `Credentials.Lower`, lower-casing a concatenation lower-cases each part |
| Credentials.HasSchemeCharwise | auto/run_api_test.py:18 | the case-insensitive `bearer ` test holds exactly when the first seven characters lower-case to `bearer ` |
| Credentials.SchemeIsRecognised | auto/run_api_test.py:18 | the prepended `Bearer ` is itself recognised as the scheme |
| Credentials.Normalise | auto/run_api_test.py:18 | the header always carries the scheme; it equals the token exactly when the token already has the scheme, is `Bearer ` + token otherwise, and always ends with the token |
| Credentials.NormaliseIdempotent | auto/run_api_test.py:18 | normalising an already-normalised header returns it unchanged |
| Credentials.SchemeIgnoresCase | auto/run_api_test.py:18 | tokens whose first seven characters agree up to letter case are treated alike |
| Credentials.AuthHeader | auto/run_api_test.py:12-18 | an unset or empty credential is the fatal MissingCredential error, and any other credential gives its normalised header |
| Credentials.AuthHeaderAddsScheme | auto/run_api_test.py:18 | `abc123` becomes `Bearer abc123` |
| Credentials.AuthHeaderKeepsScheme | auto/run_api_test.py:18 | `Bearer abc123` is kept unchanged |
| Credentials.AuthHeaderKeepsUpperScheme | auto/run_api_test.py:18 | any token starting `BEARER ` is kept unchanged |
| Credentials.AuthHeaderNeedsSpace | auto/run_api_test.py:18 | `Bearer` with no space after it does not count as the scheme, so `Bearer ` is prepended |
| Trigger.ExtractRun | auto/run_api_test.py:44-61 | succeeds exactly when the first run exists with all four keys and a non-empty poll URL; a missing key or empty `runs` is a parse failure, checked before the empty URL; on success it returns that run's poll URL, test name and report URL |
| Trigger.TriggerTest | auto/run_api_test.py:31-61 | the step fails with TriggerRequestFailed exactly when the POST failed; it succeeds exactly when the POST returned a body whose first run has all four keys and a non-empty poll URL, and then hands on that run's poll URL, test name and report URL; every other failure is a parse failure or an empty URL |
| Trigger.ExtractRoundTrip | auto/run_api_test.py:44-61 | a body built from a run, any test id and any later runs extracts back to exactly that run |
| Trigger.ExtractReadsFirstRunOnly | auto/run_api_test.py:45 | runs after the first never change the outcome |
| Trigger.ExtractMissingFieldIsFatal | auto/run_api_test.py:44-53 | a first run without `api_test_run_url`, or an empty `runs` list, is a parse failure |
| Polling.PollFrom | auto/run_api_test.py:64-88 | from any in-progress point, the loop ends at the first GET that fails or leaves `init`/`working`, or times out at exactly 60 GETs; every earlier GET kept it going |
| Polling.Poll | auto/run_api_test.py:64-88 | the loop makes between 1 and 60 GETs |
| Polling.PollUntilComplete | auto/run_api_test.py:64-88 | the script's `while` loop, with the ceiling checked before each GET, has the same outcome as the recursive model and ends on a terminal status |
| Polling.PollFromReaches | auto/run_api_test.py:69-86 | while GETs report `init`/`working`, the loop carries on unchanged to the next GET |
| Polling.PollStopsAtFirstTerminal | auto/run_api_test.py:65-88 | if GET `k` < 60 is the first to leave `init`/`working`, the loop makes exactly `k + 1` GETs and ends with that body |
| Polling.PollTimesOut | auto/run_api_test.py:66-72 | 60 in-progress statuses time out after exactly 60 GETs, never a 61st |
| Polling.PollFailsOnTransportError | auto/run_api_test.py:75-83 | a failed GET ends the loop at once with PollRequestFailed |
| Polling.NatToString | auto/run_api_test.py:114 | an integer result is written as decimal digits with no leading zero that denote exactly that number |
| Polling.RenderKeepsComparisons | auto/run_api_test.py:69 | the written status is `init` or `working` exactly when the raw result is that JSON string, and is `pass` exactly when the raw result is the string `pass` |
| Polling.NonTextResultEndsLoop | auto/run_api_test.py:80 | a `null`, boolean or numeric result ends the loop and is never the passing result; `null` is written as `None` |
| Polling.MissingResultEndsLoop | auto/run_api_test.py:80 | a body without `data.result` reads as `unknown`, which ends the loop |
| Polling.PollExample | auto/run_api_test.py:64-88 | `working`, `working`, `pass` takes three GETs and ends with `pass` |
| Report.GenerateReport | auto/run_api_test.py:91-116 | the suite is a consistent one-test JUnit record; `failures` is `0` and there is no `failure` child exactly when the result is `pass`; the failure message is the prefix + result; `system-out` is the prefix + report URL |
| Report.ReportRoundTrip | auto/run_api_test.py:95-116 | the final result, report URL, test name and duration can all be read back from the report |
| Report.ReportDistinguishesResults | auto/run_api_test.py:99-116 | different final results give different reports |
| Report.ReportExamples | auto/run_api_test.py:99-114 | `fail` gives `failures="1"` and one failure child with its message; `pass` gives `failures="0"` and none |
| Script.RunScript | auto/run_api_test.py:123-135 | the exit code is 0 exactly when a report is written and no fatal error occurred, which happens exactly when the credential and trigger succeed and the poll loop completes; a failed poll or timeout carries the loop's error; a bad credential issues no request; otherwise the first request is the POST with the header; every written report is well formed and carries the elapsed time in both `time` attributes |
| Script.RequestsCarryHeader | auto/run_api_test.py:25-28 | every request carries the normalised header, and every GET goes to the poll URL the trigger returned |
| Script.MissingCredentialStopsEverything | auto/run_api_test.py:12-15 | an unset or empty credential exits 1 with no request and no report |
| Script.TriggerFailureStopsAfterPost | auto/run_api_test.py:31-61 | a failed or unparsable trigger exits 1 after the one POST, with no report |
| Script.TimeoutWritesNoReport | auto/run_api_test.py:66-72 | 60 in-progress statuses exit 1 with PollTimeout after one POST and exactly 60 GETs, and no report |
| Script.PollFailureWritesNoReport | auto/run_api_test.py:75-83 | a failed GET numbered `k` exits 1 with PollRequestFailed after one POST and exactly `k + 1` GETs, with no report |
| Script.CountGetsOfRun | auto/run_api_test.py:126-127 | a triggered run issues one POST followed by exactly the GETs the poll loop made |
| Script.ReportCarriesTerminalStatus | auto/run_api_test.py:126-135 | when GET `k` is the first terminal one, the script makes `k + 1` GETs, exits 0, and reports that status, test name and report URL; it passes exactly when the status is `pass` |
| Script.ReportedResultIsTerminal | auto/run_api_test.py:69-80 | a written report never records `init` or `working` |
| Script.ExampleRun | auto/run_api_test.py:123-135 | `working`, `working`, `pass` gives three GETs, exit 0 and a passing report with `failures="0"` |

## Left out

- Credentials.Lower: folds only the ASCII letters A-Z, where Python's `str.lower()` folds all of Unicode. Characters outside ASCII are kept as they are. The `bearer ` test still decides the same way, as the modelling choices above explain.
- HTTP requests, `raise_for_status` and JSON decoding (lines 34-42, 76-79). Only their outcomes are modelled: a transport error, or a decoded body.
- JSON values other than strings in the trigger's run fields. Each key is either absent or holds a string. A `null` or other falsy `api_test_run_url` would also stop the script at line 55, and a non-string test name or report URL would be written as its `str`. Neither case is modelled.
- A poll result that is a float, a list or an object. Only string, `null`, boolean and integer results are modelled. Floats are left out because of Python's float formatting. Lists and objects are left out because of their nested rendering.
- Trigger bodies of the wrong shape (lines 45-49). If the body, its `data` or `runs[0]` is not an object, or `runs` is `null`, a number or a non-empty string, indexing raises TypeError. The script does not catch it and exits through the traceback. If `runs` is an object, `runs[0]` raises KeyError, and if it is the empty string it raises IndexError. Line 50 catches both as a parse failure. The model's trigger bodies always have the expected shape.
- Poll bodies of the wrong shape (line 80). If the body or its `data` is not an object, `.get` raises AttributeError. The script does not catch it and exits through the traceback. The model's poll bodies always have the expected shape.
- `time.sleep(5)` before each GET, the wall clock, and the `:.3f` rendering of the duration (lines 74, 102, 110, 124-129). The elapsed time is an input copied into both `time` attributes.
- Creating `test-results/` and writing `runscope-result.xml` with its encoding and XML declaration (lines 92-93, 118-119). The model returns the report record instead of writing it.
- Logging throughout the script.
- src/main/java/com/quantum/steps/BingStepsDefs.java: browser UI step definitions driving Selenium, with no self-contained logic.
