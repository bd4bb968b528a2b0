/** The deterministic core of test-comprehensive.js: the API key taken from
    the command line, the way `execMCP` settles once the inspector process has
    closed, the acceptance rule of each test body over the text of the first
    content entry, and the `ComprehensiveTester` tally driven through the 26
    tests of `runAll`. A test body is modelled by what the call it awaits
    settles to; the process that produces it is an input. */
module Comprehensive {
  import opened JsModel
  import opened Tally

  // ---- The API key (constructor) ----

  const KeyFlag := "--key="
  const DefaultApiKey := "test_key_all_projects_123"

  /** `argv[i]` is the first argument that starts with `--key=`. */
  ghost predicate IsFirstKeyArg(argv: seq<string>, i: int)
  {
    0 <= i < |argv| && StartsWith(argv[i], KeyFlag) &&
    forall j :: 0 <= j < i ==> !StartsWith(argv[j], KeyFlag)
  }

  /** The position of `argv.find(arg => arg.startsWith('--key='))`. */
  function FirstKeyArg(argv: seq<string>): (r: Option<nat>)
    ensures r.Some? ==> IsFirstKeyArg(argv, r.value)
    ensures r.None? ==> forall i :: 0 <= i < |argv| ==> !StartsWith(argv[i], KeyFlag)
    decreases |argv|
  {
    if |argv| == 0 then None
    else if StartsWith(argv[0], KeyFlag) then Some(0)
    else
      match FirstKeyArg(argv[1..])
      case None => None
      case Some(i) => Some(i + 1)
  }

  /** `argv.find(...)?.split('=')[1] || 'test_key_all_projects_123'`. */
  function ApiKey(argv: seq<string>): (key: string)
    ensures key != "" && '=' !in key
  {
    match FirstKeyArg(argv)
    case None => DefaultApiKey
    case Some(i) =>
      var parts := Split(argv[i], '=');
      SplitPiecesFree(argv[i], '=');
      if |parts| >= 2 && parts[1] != "" then parts[1] else DefaultApiKey
  }

  /** Without a `--key=` argument the default key is used. */
  lemma ApiKeyDefault(argv: seq<string>)
    requires forall i :: 0 <= i < |argv| ==> !StartsWith(argv[i], KeyFlag)
    ensures ApiKey(argv) == DefaultApiKey
  {
  }

  /** The key is the text between the first and the second `=` (or the end)
      of the first `--key=` argument, and the default when that text is
      empty. `n` is the length of that text. */
  lemma ApiKeyFromFirstKeyArg(argv: seq<string>, i: nat, n: nat)
    requires IsFirstKeyArg(argv, i)
    requires var x := argv[i][|KeyFlag|..];
             n <= |x| && '=' !in x[..n] && (n == |x| || x[n] == '=')
    ensures ApiKey(argv) == if n == 0 then DefaultApiKey else argv[i][|KeyFlag|..][..n]
  {
    assert FirstKeyArg(argv) == Some(i);
    var x := argv[i][|KeyFlag|..];
    assert argv[i] == "--key" + ['='] + x;
    SplitAtFirst("--key", x, '=');
    SplitHead(x, '=', n);
  }

  // ---- execMCP ----

  /** The rejection raised by the 10-second timer of `execMCP`. */
  const TimeoutMessage := "Command timeout"

  /** The `close` listener of `execMCP`, given the exit code (`None` when the
      process was ended by a signal) and the captured streams. */
  function ExecClose(parse: Parser, code: Option<int>, stdout: string, stderr: string): (r: Settled)
    ensures r.Resolved? <==> parse(stdout).Some?
    ensures r.Resolved? ==> parse(stdout) == Some(r.value)
    ensures r.Rejected? ==> r.message == "Parse error: " + stdout + " " + stderr
  {
    match parse(stdout)
    case Some(v) => Resolved(v)
    case None => Rejected("Parse error: " + stdout + " " + stderr)
  }

  /** The exit code plays no part in how `execMCP` settles. */
  lemma ExecCloseIgnoresExitCode(parse: Parser, c1: Option<int>, c2: Option<int>, stdout: string, stderr: string)
    ensures ExecClose(parse, c1, stdout, stderr) == ExecClose(parse, c2, stdout, stderr)
  {
  }

  // ---- The test bodies ----

  /** `result.content?.[0]?.text`; reading `content` of a `null` result
      throws. */
  function FirstText(result: Json): Eval<Option<Json>>
  {
    if result.JNull? then Throw(TypeError)
    else Value(OptGet(OptFirst(Get(result, "content")), "text"))
  }

  /** The marker strings the tests search for; none is empty. */
  type Marker = s: string | s != "" witness "Error"

  /** The two shapes of text check the test bodies use. */
  datatype Check =
      /** `if (!result.content?.[0]?.text?.includes(m)) throw new Error(...)` */
    | Expect(marker: Marker)
      /** `const text = result.content?.[0]?.text || '';`
          `if (!text.includes(m1) && !text.includes(m2) ...) throw new Error(...)` */
    | ExpectAny(markers: seq<Marker>)

  function Markers(c: Check): seq<Marker>
  {
    match c
    case Expect(m) => [m]
    case ExpectAny(ms) => ms
  }

  /** A body of the `Expect` shape. A rejected call propagates its error. */
  function ExpectMarker(settled: Settled, marker: string, message: string): Outcome<Thrown>
  {
    match settled
    case Rejected(m) => Failed(Error(m))
    case Resolved(result) =>
      match FirstText(result)
      case Throw(e) => Failed(e)
      case Value(text) =>
        match OptIncludes(text, marker)
        case Throw(e) => Failed(e)
        case Value(found) => if found then Passed else Failed(Error(message))
  }

  /** `!text.includes(m1) && !text.includes(m2) && ...` negated: the
      disjunction, evaluated left to right and stopping at the first hit. */
  function IncludesAny(text: Json, markers: seq<string>): Eval<bool>
    decreases |markers|
  {
    if |markers| == 0 then Value(false)
    else
      match Includes(text, markers[0])
      case Throw(e) => Throw(e)
      case Value(found) => if found then Value(true) else IncludesAny(text, markers[1..])
  }

  /** A body of the `ExpectAny` shape: a falsy text becomes `''`. */
  function ExpectAnyMarker(settled: Settled, markers: seq<string>, message: string): Outcome<Thrown>
  {
    match settled
    case Rejected(m) => Failed(Error(m))
    case Resolved(result) =>
      match FirstText(result)
      case Throw(e) => Failed(e)
      case Value(t) =>
        var text := if Truthy(t) then t.value else JStr("");
        match IncludesAny(text, markers)
        case Throw(e) => Failed(e)
        case Value(found) => if found then Passed else Failed(Error(message))
  }

  function RunCheck(settled: Settled, check: Check, message: string): Outcome<Thrown>
  {
    match check
    case Expect(m) => ExpectMarker(settled, m, message)
    case ExpectAny(ms) => ExpectAnyMarker(settled, ms, message)
  }

  /** The disjunction holds exactly when the text lists one of the markers;
      it throws only when the text has no `includes` method. */
  lemma {:induction false} IncludesAnyMeaning(text: Json, markers: seq<string>)
    ensures IncludesAny(text, markers) == Value(true) <==>
              exists k :: 0 <= k < |markers| && Lists(Some(text), markers[k])
    ensures IncludesAny(text, markers).Throw? <==> |markers| > 0 && !text.JStr? && !text.JArr?
    decreases |markers|
  {
    if |markers| > 0 {
      OptIncludesMeaning(Some(text), markers[0]);
      IncludesAnyMeaning(text, markers[1..]);
      if exists k :: 0 <= k < |markers| && Lists(Some(text), markers[k]) {
        var k :| 0 <= k < |markers| && Lists(Some(text), markers[k]);
        if k > 0 {
          assert markers[1..][k - 1] == markers[k];
        }
      }
      forall k | 0 <= k < |markers| - 1
        ensures markers[1..][k] == markers[k + 1]
      {
      }
    }
  }

  /** A body that checks text with `Expect(m)` passes exactly when the call
      resolves with a non-null value whose first content text lists `m`. */
  lemma ExpectMarkerMeaning(settled: Settled, marker: string, message: string)
    ensures ExpectMarker(settled, marker, message) == Passed <==>
              settled.Resolved? && !settled.value.JNull? && Lists(FirstText(settled.value).v, marker)
  {
    if settled.Resolved? && !settled.value.JNull? {
      OptIncludesMeaning(FirstText(settled.value).v, marker);
    }
  }

  /** Only a truthy value lists a non-empty marker. */
  lemma ListsNonEmptyIsTruthy(t: Option<Json>, m: Marker)
    ensures Lists(t, m) ==> Truthy(t)
  {
    if Lists(t, m) && t.value.JStr? {
      var i :| OccursAt(t.value.s, m, i);
    }
  }

  /** A body that checks text with `ExpectAny(ms)` passes exactly when the
      call resolves with a non-null value whose first content text lists one
      of the markers; the `''` default never matches. */
  lemma ExpectAnyMarkerMeaning(settled: Settled, markers: seq<Marker>, message: string)
    ensures ExpectAnyMarker(settled, markers, message) == Passed <==>
              settled.Resolved? && !settled.value.JNull? &&
              exists k :: 0 <= k < |markers| && Lists(FirstText(settled.value).v, markers[k])
  {
    if settled.Resolved? && !settled.value.JNull? {
      var t := FirstText(settled.value).v;
      var text := if Truthy(t) then t.value else JStr("");
      IncludesAnyMeaning(text, markers);
      forall k | 0 <= k < |markers|
        ensures Lists(Some(text), markers[k]) <==> Lists(t, markers[k])
      {
        ListsNonEmptyIsTruthy(t, markers[k]);
        ListsNonEmptyIsTruthy(Some(JStr("")), markers[k]);
      }
    }
  }

  /** Every text check passes exactly when the call resolves with a non-null
      value whose first content text lists one of its markers. */
  lemma RunCheckMeaning(settled: Settled, check: Check, message: string)
    ensures RunCheck(settled, check, message) == Passed <==>
              settled.Resolved? && !settled.value.JNull? &&
              exists k :: 0 <= k < |Markers(check)| && Lists(FirstText(settled.value).v, Markers(check)[k])
  {
    match check
    case Expect(m) =>
      ExpectMarkerMeaning(settled, m, message);
      assert Markers(check) == [m];
      if settled.Resolved? && !settled.value.JNull? && Lists(FirstText(settled.value).v, m) {
        assert Lists(FirstText(settled.value).v, Markers(check)[0]);
      }
    case ExpectAny(ms) =>
      assert Markers(check) == ms;
      ExpectAnyMarkerMeaning(settled, ms, message);
  }

  /** If `content`, its first entry or that entry's `text` is missing, every
      text check fails. */
  lemma AbsentTextFails(settled: Settled, check: Check, message: string)
    requires settled.Resolved? && FirstText(settled.value) == Value(None)
    ensures RunCheck(settled, check, message).Failed?
  {
    RunCheckMeaning(settled, check, message);
  }

  /** The message of the body's own `throw` after a call that succeeded. */
  const MissingParamThrow := "Should fail validation for missing required params"

  /** `testMissingRequiredParam` as written: a resolved call reaches the
      body's own `throw`, which lands in its own `catch`; the `catch`
      rethrows only messages containing neither `required` nor `Error`. */
  function MissingRequiredParamAsWritten(settled: Settled): Outcome<Thrown>
  {
    var caught := match settled
      case Resolved(_) => MissingParamThrow
      case Rejected(m) => m;
    if !Contains(caught, "required") && !Contains(caught, "Error")
    then Failed(Error("Should return proper validation error"))
    else Passed
  }

  /** As written, the body fails only when the call rejects with a message
      containing neither `required` nor `Error`: a call that succeeds, which
      is what the test exists to catch, passes, because the message of the
      body's own `throw` contains `required`. */
  lemma MissingRequiredParamAsWrittenFails(settled: Settled)
    ensures MissingRequiredParamAsWritten(settled).Failed? <==>
              settled.Rejected? && !Contains(settled.message, "required") && !Contains(settled.message, "Error")
  {
    assert OccursAt(MissingParamThrow, "required", 35);
  }

  /** `testMissingRequiredParam` as evidently intended: a call that succeeds
      fails the test with the body's own message; a rejection passes when its
      message contains `required` or `Error`. */
  function MissingRequiredParam(settled: Settled): Outcome<Thrown>
  {
    match settled
    case Resolved(_) => Failed(Error(MissingParamThrow))
    case Rejected(m) =>
      if !Contains(m, "required") && !Contains(m, "Error")
      then Failed(Error("Should return proper validation error"))
      else Passed
  }

  /** The intended body passes exactly when the call rejects with a message
      in which `required` or `Error` occurs. */
  lemma MissingRequiredParamMeaning(settled: Settled)
    ensures MissingRequiredParam(settled) == Passed <==>
              settled.Rejected? &&
              ((exists i :: OccursAt(settled.message, "required", i)) ||
               (exists i :: OccursAt(settled.message, "Error", i)))
  {
  }

  lemma MissingCharNotContained(s: string, sub: string, c: char)
    requires c in sub && c !in s
    ensures !Contains(s, sub)
  {
    if Contains(s, sub) {
      ContainsChars(s, sub, c);
    }
  }

  /** A timed-out call makes `testMissingRequiredParam` fail, as written
      and as intended. */
  lemma TimeoutFailsMissingRequiredParam()
    ensures MissingRequiredParamAsWritten(Rejected(TimeoutMessage)).Failed?
    ensures MissingRequiredParam(Rejected(TimeoutMessage)).Failed?
  {
    assert 'q' !in TimeoutMessage && 'E' !in TimeoutMessage;
    MissingCharNotContained(TimeoutMessage, "required", 'q');
    MissingCharNotContained(TimeoutMessage, "Error", 'E');
  }

  // ---- testUnauthorizedAccess ----

  /** The error the body throws when the output shows no authentication
      failure. */
  const AuthThrow := "Should return auth error for invalid API key"

  /** The body as written, given what the process printed before it closed
      or the 5-second timer fired: its own `throw` lands in its own `catch`,
      which rethrows only messages containing neither `Error` nor `auth`. */
  function UnauthorizedAccessAsWritten(stdout: string): Outcome<Thrown>
  {
    AuthCatch(AuthTry(stdout))
  }

  /** The `try` block: the message it throws, if any. */
  function AuthTry(stdout: string): Option<string>
  {
    if !Contains(stdout, "Error") && !Contains(stdout, "401") && !Contains(stdout, "403")
    then Some(AuthThrow) else None
  }

  /** The `catch` block, given what the `try` block threw. */
  function AuthCatch(thrown: Option<string>): Outcome<Thrown>
  {
    match thrown
    case None => Passed
    case Some(m) =>
      if !Contains(m, "Error") && !Contains(m, "auth") then Failed(Error("Should handle auth error properly"))
      else Passed
  }

  /** As written, the body passes whatever the process prints: the message
      of its own `throw` contains `auth`, so the `catch` swallows it. An
      empty output, which shows no authentication error, passes. */
  lemma UnauthorizedAccessAsWrittenNeverFails(stdout: string)
    ensures UnauthorizedAccessAsWritten(stdout) == Passed
  {
    var m := AuthThrow;
    assert m[14] == 'a';
    assert m[15] == 'u';
    assert m[16] == 't';
    assert m[17] == 'h';
    assert OccursAt(m, "auth", 14);
  }

  /** The body as evidently intended: it fails, with the body's own message,
      when the output shows no `Error`, `401` or `403`. */
  function UnauthorizedAccessBody(stdout: string): Outcome<Thrown>
  {
    if !Contains(stdout, "Error") && !Contains(stdout, "401") && !Contains(stdout, "403")
    then Failed(Error(AuthThrow))
    else Passed
  }

  /** The intended body passes exactly when one of the three markers occurs
      in the output. */
  lemma UnauthorizedAccessBodyMeaning(stdout: string)
    ensures UnauthorizedAccessBody(stdout) == Passed <==>
              (exists i :: OccursAt(stdout, "Error", i)) ||
              (exists i :: OccursAt(stdout, "401", i)) ||
              (exists i :: OccursAt(stdout, "403", i))
    ensures UnauthorizedAccessBody(stdout).Failed? ==> UnauthorizedAccessBody(stdout).error == Error(AuthThrow)
  {
  }

  // ---- The catalog run by runAll ----

  datatype TestCase =
    | TextTest(name: string, check: Check, message: string)
    | MissingParamTest(name: string)
      /** `testUnauthorizedAccess` spawns and reads its own process, with an
          invalid key. */
    | UnauthorizedTest(name: string)

  const ListProjects := TextTest("list_projects", Expect("data"), "Should return projects data")
  const GetProject := TextTest("get_project", Expect("name"), "Should return project with name")
  const CreateProject := TextTest("create_project", Expect("id"), "Should return created project with ID")
  const ListTasks := TextTest("list_tasks", Expect("data"), "Should return tasks data")
  const ListEpics := TextTest("list_epics", Expect("data"), "Should return epics data")
  const GetTask := TextTest("get_task", Expect("title"), "Should return task with title")
  const CreateTask := TextTest("create_task", Expect("id"), "Should return created task with ID")
  const UpdateTask := TextTest("update_task", ExpectAny(["Updated Task", "timeout", "restarting"]),
                               "Should return updated task data or graceful timeout message")
  const SearchDocuments := TextTest("search_documents", Expect("data"), "Should return search results")
  const GetDocument := TextTest("get_document", ExpectAny(["title", "content", "Error", "403"]),
                                "Should return document data or proper error")
  const CreateDocument := TextTest("create_document", ExpectAny(["id", "Test Doc", "Error"]),
                                   "Should return created document with ID or proper error")
  const UpdateDocument := TextTest("update_document", ExpectAny(["Updated Doc", "version", "Error", "403"]),
                                   "Should return updated document or proper error")
  const ListTaskComments := TextTest("list_task_comments", Expect("data"), "Should return comments data")
  const CreateComment := TextTest("create_comment", Expect("id"), "Should return created comment with ID")
  const UpdateComment := TextTest("update_comment", ExpectAny(["Updated comment", "timeout", "restarting", "success"]),
                                  "Should return updated comment data or graceful timeout message")
  const GetRecentActivity := TextTest("get_recent_activity", ExpectAny(["[", "activity", "id"]),
                                      "Should return activity array or activity data")
  const GetComment := TextTest("get_comment", ExpectAny(["content", "Error", "403"]),
                               "Should return comment data or proper error")
  const DeleteComment := TextTest("delete_comment", ExpectAny(["deleted", "Error", "403"]),
                                  "Should return deletion confirmation or proper error")
  const InvalidProjectId := TextTest("invalid_project_id", Expect("Error"),
                                     "Should return error for invalid project ID")
  const MissingRequired := MissingParamTest("missing_required_param")
  const InvalidTaskType := TextTest("invalid_task_type_enum", Expect("Error"),
                                    "Should return error for invalid task_type enum")
  const InvalidWorkerType := TextTest("invalid_worker_type_defaults_to_dev", ExpectAny(["id", "dev"]),
                                      "Should create project with worker_type defaulted to dev")
  const NegativeId := TextTest("negative_id", Expect("Error"), "Should return error for negative ID")
  const StringIdWhereNumberExpected := TextTest("string_id_where_number_expected", Expect("Error"),
                                                "Should return error for string where number expected")
  const EmptyRequiredString := TextTest("empty_required_string", Expect("Error"),
                                        "Should return error for empty required string")
  const UnauthorizedAccess := UnauthorizedTest("unauthorized_access")

  /** The `runTest` calls of `runAll`, in order. */
  const Catalog: seq<TestCase> := [
    ListProjects, GetProject, CreateProject, ListTasks, ListEpics, GetTask, CreateTask,
    UpdateTask, SearchDocuments, GetDocument, CreateDocument, UpdateDocument,
    ListTaskComments, CreateComment, UpdateComment, GetRecentActivity, GetComment,
    DeleteComment,
    InvalidProjectId, MissingRequired, InvalidTaskType, InvalidWorkerType, NegativeId,
    StringIdWhereNumberExpected, EmptyRequiredString, UnauthorizedAccess
  ]

  /** What awaiting the body of `tc` gives, when its `execMCP` call settles to
      `settled`; the unauthorized-access body reads instead what its own
      process printed, `authStdout`. The two bodies whose `catch` swallows
      their own `throw` run as written, as `runAll` runs them. */
  function RunBody(tc: TestCase, settled: Settled, authStdout: string): Outcome<Thrown>
  {
    match tc
    case TextTest(_, check, message) => RunCheck(settled, check, message)
    case MissingParamTest(_) => MissingRequiredParamAsWritten(settled)
    case UnauthorizedTest(_) => UnauthorizedAccessAsWritten(authStdout)
  }

  /** A rejected call fails every text test with the rejection's message. */
  lemma RejectionFailsTextTests(tc: TestCase, message: string, authStdout: string)
    requires tc.TextTest?
    ensures RunBody(tc, Rejected(message), authStdout) == Failed(Error(message))
  {
  }

  /** `testUpdateTask` accepts a text exactly when it contains `Updated Task`,
      `timeout` or `restarting`. */
  lemma UpdateTaskAccepts(result: Json, s: string, authStdout: string)
    requires FirstText(result) == Value(Some(JStr(s)))
    ensures RunBody(UpdateTask, Resolved(result), authStdout) == Passed <==>
              Contains(s, "Updated Task") || Contains(s, "timeout") || Contains(s, "restarting")
  {
  }

  /** `testGetDocument` accepts a text exactly when it contains `title`,
      `content`, `Error` or `403`. */
  lemma GetDocumentAccepts(result: Json, s: string, authStdout: string)
    requires FirstText(result) == Value(Some(JStr(s)))
    ensures RunBody(GetDocument, Resolved(result), authStdout) == Passed <==>
              Contains(s, "title") || Contains(s, "content") || Contains(s, "Error") || Contains(s, "403")
  {
  }

  function CatalogNames(): (names: seq<string>)
    ensures |names| == |Catalog|
  {
    seq(|Catalog|, i requires 0 <= i < |Catalog| => Catalog[i].name)
  }

  /** The outcomes of the 26 bodies, given what each `execMCP` call settles
      to (`responses[i]` for `Catalog[i]`; the unauthorized-access entry does
      not read its slot but `authStdout`). */
  function CatalogOutcomes(responses: seq<Settled>, authStdout: string): (outs: seq<Outcome<Thrown>>)
    requires |responses| == |Catalog|
    ensures |outs| == |Catalog|
  {
    seq(|Catalog|, i requires 0 <= i < |Catalog| => RunBody(Catalog[i], responses[i], authStdout))
  }

  // ---- The tester ----

  class ComprehensiveTester {
    var passed: nat
    var failed: nat
    const apiKey: string
    var log: seq<LogLine<Thrown>>

    constructor (argv: seq<string>)
      ensures passed == 0 && failed == 0 && log == []
      ensures apiKey == ApiKey(argv)
    {
      passed := 0;
      failed := 0;
      apiKey := ApiKey(argv);
      log := [];
    }

    /** `runTest`: a body that completes counts as passed, one that throws
        as failed, and the error goes no further. */
    method RunTest(name: string, outcome: Outcome<Thrown>)
      modifies this
      ensures passed == old(passed) + (if outcome.Passed? then 1 else 0)
      ensures failed == old(failed) + (if outcome.Failed? then 1 else 0)
      ensures log == old(log) + Trace(name, outcome)
    {
      log := log + [Started(name)];
      match outcome
      case Passed =>
        log := log + [PassedLine(name)];
        passed := passed + 1;
      case Failed(e) =>
        log := log + [FailedLine(name, e)];
        failed := failed + 1;
    }

    /** A run of `runTest` calls, one per name, one after another. */
    method RunTests(names: seq<string>, outs: seq<Outcome<Thrown>>)
      requires |names| == |outs|
      modifies this
      ensures passed == old(passed) + CountPassed(outs)
      ensures failed == old(failed) + CountFailed(outs)
      ensures log == old(log) + Traces(names, outs)
    {
      var i := 0;
      while i < |outs|
        invariant 0 <= i <= |outs|
        invariant passed == old(passed) + CountPassed(outs[..i])
        invariant failed == old(failed) + CountFailed(outs[..i])
        invariant log == old(log) + Traces(names[..i], outs[..i])
      {
        RunTest(names[i], outs[i]);
        CountsSnoc(names, outs, i);
        i := i + 1;
      }
      assert outs[..i] == outs && names[..i] == names;
    }

    /** `runAll`: every catalog test once, in order, then the summary. */
    method RunAll(responses: seq<Settled>, authStdout: string)
      requires |responses| == |Catalog|
      modifies this
      ensures passed == old(passed) + CountPassed(CatalogOutcomes(responses, authStdout))
      ensures failed == old(failed) + CountFailed(CatalogOutcomes(responses, authStdout))
      ensures passed + failed == old(passed) + old(failed) + |Catalog|
      ensures log == old(log) + Traces(CatalogNames(), CatalogOutcomes(responses, authStdout)) +
                     [Summary(passed, failed), CoverageLine(passed, passed + failed, CoveragePercent(passed, failed))]
    {
      RunTests(CatalogNames(), CatalogOutcomes(responses, authStdout));
      log := log + [Summary(passed, failed), CoverageLine(passed, passed + failed, CoveragePercent(passed, failed))];
    }
  }

  /** Lines 274-275: a fresh tester runs `runAll` once. Each of the 26 tests
      is counted once and started in catalog order, whichever of them fail. */
  method RunFresh(argv: seq<string>, responses: seq<Settled>, authStdout: string)
    returns (passed: nat, failed: nat, started: seq<string>)
    requires |responses| == |Catalog|
    ensures passed + failed == 26
    ensures failed == CountFailed(CatalogOutcomes(responses, authStdout))
    ensures started == CatalogNames()
  {
    var tester := new ComprehensiveTester(argv);
    tester.RunAll(responses, authStdout);
    passed, failed := tester.passed, tester.failed;
    FreshLogStarts(tester.log, CatalogNames(), CatalogOutcomes(responses, authStdout),
      [Summary(passed, failed), CoverageLine(passed, passed + failed, CoveragePercent(passed, failed))]);
    started := StartedNames(tester.log);
  }
}
