# MCP server test scripts, modelled in Dafny

Two Node.js scripts check an MCP (Model Context Protocol) task-management
server through the `@modelcontextprotocol/inspector` command-line client:

- `test-comprehensive.js` runs 26 tool calls against a live backend. It
  takes the API key from a `--key=` argument, runs each call as a child
  process (`execMCP`), checks the text of the first content entry of each
  reply for marker strings, keeps a pass/fail tally, and prints a summary
  with a coverage percentage.
- `test-schema.js` asks the server for its tool listing (`getTools`, method
  `tools/list`). It checks the tool count, the input schema of 13 named
  tools, the worker parameters of some of them, and the enumerations of
  `create_task`. It exits with status 1 when a test fails.

This project models the deterministic logic of both scripts. The child
processes are inputs. For `execMCP` and `getTools` the input is the exit
code and the captured output. For a test body it is what the awaited call
settles to. JavaScript's semantics are written out where the scripts depend
on them:

- `undefined` and `null`, and which values are truthy;
- optional chaining, and the `TypeError` of a property read on `null`;
- `includes` on strings and on arrays, and the `TypeError` on other values;
- `split('=')`, `trim()` and `find`;
- an exception thrown out of an event listener, which ends the process.

Modules:

- `JsModel` (`js_model.dfy`): JSON values, settled calls and the JavaScript
  operations listed above.
- `Tally` (`tally.dfy`): test outcomes, the console log as structured
  lines, the pass/fail counts and the coverage rounding.
- `Comprehensive` (`comprehensive.dfy`): `test-comprehensive.js`. Holds the
  class `ComprehensiveTester`.
- `SchemaTests` (`schema.dfy`): `test-schema.js`. Holds the class
  `SchemaValidator`.

## Model

| member | source | states |
|---|---|---|
| JsModel.OptIncludesMeaning | test-schema.js:55 | `v?.includes(s)` is truthy exactly when `v` is a string containing `s` or an array holding the string `s`; it throws exactly when `v` is neither nullish, a string nor an array |
| JsModel.JoinSplit | test-comprehensive.js:9 | joining the pieces of `split('=')` with `=` gives the argument back |
| JsModel.SplitPiecesFree | test-comprehensive.js:9 | no piece of `split('=')` contains `=` |
| JsModel.SplitAtFirst | test-comprehensive.js:9 | splitting `p + "=" + t`, where `p` has no `=`, gives `p` followed by the pieces of `t` |
| JsModel.SplitJoin | test-comprehensive.js:9 | splitting the join of pieces that have no `=` gives the pieces back |
| JsModel.Trim | test-schema.js:37 | `trim()` yields a contiguous middle of the string, with only white space cut at both ends and none left at either end |
| Tally.CountFailed | test-comprehensive.js:12-22 | each body is counted exactly once: the failures are the bodies that did not complete |
| Tally.NoFailureMeansAllPassed | test-schema.js:179-183 | no failure is counted exactly when every body completed |
| Tally.TracesStartInOrder | test-comprehensive.js:238-267 | each test is started exactly once, in call order, whether or not earlier ones failed |
| Tally.TracesThenTotalsStart | test-comprehensive.js:269-270 | the summary lines after the run start no test |
| Tally.CoveragePercent | test-comprehensive.js:270 | the percentage lies in 0..100 and is 100·passed/total rounded to the nearest integer, halves up |
| Comprehensive.FirstKeyArg | test-comprehensive.js:9 | finds the first argument that starts with `--key=`, or reports that none does |
| Comprehensive.ApiKey | test-comprehensive.js:9 | the key is never empty and never contains `=` |
| Comprehensive.ApiKeyDefault | test-comprehensive.js:9 | without a `--key=` argument the key is `test_key_all_projects_123` |
| Comprehensive.ApiKeyFromFirstKeyArg | test-comprehensive.js:9 | the key is the text of the first `--key=` argument up to the next `=`, or the default when that text is empty |
| Comprehensive.ExecClose | test-comprehensive.js:36-43 | the call resolves exactly when stdout parses as JSON, with the parsed value; otherwise it rejects with `Parse error: <stdout> <stderr>` |
| Comprehensive.ExecCloseIgnoresExitCode | test-comprehensive.js:36-43 | the exit code plays no part in how the call settles |
| Comprehensive.IncludesAnyMeaning | test-comprehensive.js:91 | the chain of negated `includes` fails exactly when no marker occurs in the text; it throws exactly when the text has no `includes` |
| Comprehensive.ExpectMarkerMeaning | test-comprehensive.js:53-56 | a single-marker body passes exactly when the call resolves to a non-null value whose first content text lists the marker |
| Comprehensive.ExpectAnyMarkerMeaning | test-comprehensive.js:88-94 | a several-marker body passes exactly when the first content text lists one of the markers; the `''` default lists none |
| Comprehensive.RunCheckMeaning | test-comprehensive.js:53-166 | every text check passes exactly when the first content text lists one of its markers |
| Comprehensive.AbsentTextFails | test-comprehensive.js:55 | a reply without `content[0].text` fails every text check |
| Comprehensive.RejectionFailsTextTests | test-comprehensive.js:53-56 | a rejected call fails every text test with the rejection's message |
| Comprehensive.UpdateTaskAccepts | test-comprehensive.js:88-94 | `update_task` accepts a text exactly when it contains `Updated Task`, `timeout` or `restarting` |
| Comprehensive.GetDocumentAccepts | test-comprehensive.js:101-107 | `get_document` accepts a text exactly when it contains `title`, `content`, `Error` or `403` |
| Comprehensive.MissingRequiredParamAsWrittenFails | test-comprehensive.js:174-183 | as written, the body fails exactly when the call rejects with a message lacking both `required` and `Error`; a call that succeeds passes |
| Comprehensive.MissingRequiredParamMeaning | test-comprehensive.js:174-183 | the intended body passes exactly when the call rejects with a message in which `required` or `Error` occurs |
| Comprehensive.TimeoutFailsMissingRequiredParam | test-comprehensive.js:45-48 | a timed-out call (`Command timeout`) fails the missing-parameter test |
| Comprehensive.UnauthorizedAccessAsWrittenNeverFails | test-comprehensive.js:211-232 | as written, the unauthorized-access body passes whatever the process prints |
| Comprehensive.UnauthorizedAccessBodyMeaning | test-comprehensive.js:224-226 | the intended body passes exactly when `Error`, `401` or `403` occurs in the output, and otherwise fails with its own message |
| Comprehensive.ComprehensiveTester.constructor | test-comprehensive.js:6-10 | counts start at zero and the key is taken from the arguments |
| Comprehensive.ComprehensiveTester.RunTest | test-comprehensive.js:12-22 | exactly one count goes up, according to the outcome, and the start line and the result line are logged |
| Comprehensive.ComprehensiveTester.RunTests | test-comprehensive.js:238-267 | the counts grow by the passed and failed bodies, and the log grows by their lines in order |
| Comprehensive.ComprehensiveTester.RunAll | test-comprehensive.js:234-271 | all 26 bodies, as written, are counted once each, in order, followed by the summary line and the coverage line |
| Comprehensive.RunFresh | test-comprehensive.js:274-275 | a fresh run counts 26 tests, its failures are the bodies, as written, that fail, and it starts the tests in catalog order |
| SchemaTests.GetToolsClose | test-schema.js:35-41 | exit code 0 and JSON output resolve with the parsed value; exit code 0 with other output throws out of the listener; any other exit rejects with `Command failed: ` and stderr, or stdout when stderr is empty |
| SchemaTests.FindIn | test-schema.js:88 | a found element carries the name and is in the list; "not found" means no element has the name; a throw means the list holds a `null` |
| SchemaTests.FindInMeaning | test-schema.js:88 | `find` returns the first element with the name; it throws exactly when a `null` comes before every match; it finds nothing exactly when no element is `null` or has the name |
| SchemaTests.FindTool | test-schema.js:88 | the same, over `result.tools`; a throw means `tools` is not an array or holds a `null` |
| SchemaTests.FindToolMeaning | test-schema.js:88 | a missing or non-array `tools` throws; over an array, the first match is returned, a `null` before every match throws, and "not found" holds exactly when no element is `null` or named |
| SchemaTests.RequireParamsMeaning | test-schema.js:54-58 | the loop passes exactly when `required` lists every parameter |
| SchemaTests.RequireParamsFirstMissing | test-schema.js:54-58 | the loop stops at the first unlisted parameter and names it |
| SchemaTests.ValidateToolSchemaMeaning | test-schema.js:45-63 | validation passes exactly when the name matches, the input schema has type `object`, every required parameter is listed and `properties` is present |
| SchemaTests.ValidateToolSchemaFirstFailure | test-schema.js:45-63 | the error names the first failing check: name, then schema type, then the first unlisted parameter, then properties |
| SchemaTests.ValidateWithoutRequiredParams | test-schema.js:45-63 | with no required parameters, the `required` list is never consulted |
| SchemaTests.IncludesAllMeaning | test-schema.js:68 | the chain of `enum?.includes` passes exactly when every value is listed |
| SchemaTests.ValidateWorkerParamsMeaning | test-schema.js:65-75 | passes exactly when a present `worker_type` enum lists `dev`, `pm` and `reviewer`, and a present `worker_name` has type `string` |
| SchemaTests.ToolCountMeaning | test-schema.js:77-82 | for an array of tools the test passes exactly when there are 18; without tools it fails |
| SchemaTests.CheckEachMeaning | test-schema.js:84-147 | a tools test passes exactly when each named tool is found and passes its validations |
| SchemaTests.EnumPairMeaning | test-schema.js:154-156 | an enum check passes exactly when the field's `enum` lists both values |
| SchemaTests.EnumsOfFoundTool | test-schema.js:152-165 | once `find` has yielded the `create_task` tool, the enum test passes exactly when its `task_type` lists epic and task, `status` lists todo and done, and `priority` lists low and critical |
| SchemaTests.EnumsMeaning | test-schema.js:149-165 | the enum test passes exactly when the listing is not `null` and `find` yields a `create_task` tool whose enums list those values; every other listing fails |
| SchemaTests.FirstUncaught | test-schema.js:170-175 | finds the first call whose listener throws; every earlier call settles |
| SchemaTests.FirstUncaughtIs | test-schema.js:170-175 | that first throwing call is unique |
| SchemaTests.SchemaValidator.constructor | test-schema.js:6-9 | counts start at zero |
| SchemaTests.SchemaValidator.RunTest | test-schema.js:11-21 | exactly one count goes up, according to the outcome, and the start line and the result line are logged |
| SchemaTests.SchemaValidator.RunTests | test-schema.js:170-175 | the counts grow by the passed and failed bodies, and the log grows by their lines in order |
| SchemaTests.SchemaValidator.RunAllTests | test-schema.js:167-184 | tests run in order until a listener throws, which gives status 1 after that test's start line; otherwise the summary follows, with status 1 exactly when a test failed and the closing line only when none did |
| SchemaTests.RunFresh | test-schema.js:187-188 | the exit status is 1 when a listener threw or a test failed, and 0 otherwise; it is 0 exactly when no listener threw and all six tests passed |

## Left out

- Child processes are not modelled: spawning, piping, and the arrival of output in chunks. `execMCP` and `getTools` receive the exit code and the full captured output as values.
- `JSON.parse` is a parameter: a function from text to a JSON value, or to nothing when the text is malformed.
- Timers are not modelled as time. A timed-out `execMCP` call is one that rejects with `Command timeout`; which of the timer and the `close` event comes first is left to the input. The timer is never cleared, and a late `reject` after the call has settled has no effect; neither is modelled.
- For the unauthorized-access test, the input is what its own process printed before it closed or before the 5-second timer fired. An `error` event from that process is not modelled.
- Console output is modelled as structured log lines. Banners, emoji and blank lines are left out.
- The process exit of `test-schema.js` is modelled as a returned status. The uncaught exception and its stack trace are not modelled. `test-comprehensive.js` has no exit status of its own.
- JSON numbers are modelled as integers. No value read here has a fraction.
- String length and indexing count Unicode scalar values, not UTF-16 code units. The markers and keys are all ASCII.
- Comprehensive.ExecClose: the exit code is an input but is not read, because the script does not read it either.
- SchemaTests.ToolCount: the error keeps the raw `tools?.length` value. It does not apply the script's `|| 0`, which only affects the message text.
- Error messages that the scripts build from template strings are modelled as structured `SchemaError` values.
- Tally.CoveragePercent: rounds the exact ratio, not a floating-point quotient. With 26 tests no quotient falls near a half, so the two agree.
- The server, the backend and the inspector's command-line arguments are not part of this model. The scripts only pass those through.

## Findings

| source | as written | input that shows it | evidently intended | confidence | as-written member | corrected member |
|---|---|---|---|---|---|---|
| test-comprehensive.js:174-183 | the `throw` after a successful call is caught by the same `try`, and its message contains `required`, so the `catch` accepts it | the call resolves (any reply): the test passes | a call that succeeds fails the test | high, not executed | Comprehensive.MissingRequiredParamAsWrittenFails | Comprehensive.MissingRequiredParamMeaning |
| test-comprehensive.js:224-230 | the `throw` for output without an auth error is caught by the same `try`, and its message contains `auth`, so the `catch` accepts it | the process prints nothing (`stdout == ""`): the test passes | output without `Error`, `401` or `403` fails the test | high, not executed | Comprehensive.UnauthorizedAccessAsWrittenNeverFails | Comprehensive.UnauthorizedAccessBodyMeaning |

The runner `Comprehensive.ComprehensiveTester.RunAll` runs both bodies as
written (`MissingRequiredParamAsWritten` and `UnauthorizedAccessAsWritten`),
as `runAll` does, so its counts are the ones the script reports. The
corrected bodies `MissingRequiredParam` and `UnauthorizedAccessBody` state
what the two tests evidently meant to check.
