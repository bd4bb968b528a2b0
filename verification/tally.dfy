/** The pass/fail bookkeeping both test scripts share: what one test body
    settles to, the console lines its runner prints, and the counts over a
    run. */
module Tally {

  /** What awaiting one test body gives its runner: it completed, or it threw
      `error`. */
  datatype Outcome<+E> = Passed | Failed(error: E)

  /** The console lines the runners print, without their emoji decoration. */
  datatype LogLine<+E> =
    | Started(name: string)
    | PassedLine(name: string)
    | FailedLine(name: string, error: E)
    | Summary(passed: nat, failed: nat)
    | CoverageLine(passed: nat, total: nat, percent: int)
    | AllPassed

  /** Number of completed bodies among `outs`. */
  function CountPassed<E>(outs: seq<Outcome<E>>): (n: nat)
    ensures n <= |outs|
    decreases |outs|
  {
    if |outs| == 0 then 0
    else CountPassed(outs[..|outs| - 1]) + (if outs[|outs| - 1].Passed? then 1 else 0)
  }

  /** Number of bodies among `outs` that threw: every other one. */
  function CountFailed<E>(outs: seq<Outcome<E>>): (n: nat)
    ensures n == |outs| - CountPassed(outs)
    decreases |outs|
  {
    if |outs| == 0 then 0
    else CountFailed(outs[..|outs| - 1]) + (if outs[|outs| - 1].Failed? then 1 else 0)
  }

  /** A run in which no body threw has no failures, and conversely. */
  lemma {:induction false} NoFailureMeansAllPassed<E>(outs: seq<Outcome<E>>)
    ensures CountFailed(outs) == 0 <==> forall k :: 0 <= k < |outs| ==> outs[k].Passed?
    decreases |outs|
  {
    if |outs| > 0 {
      var init := outs[..|outs| - 1];
      NoFailureMeansAllPassed(init);
      assert forall k :: 0 <= k < |init| ==> init[k] == outs[k];
    }
  }

  /** The lines `runTest` prints for one test. */
  function Trace<E>(name: string, outcome: Outcome<E>): seq<LogLine<E>>
  {
    match outcome
    case Passed => [Started(name), PassedLine(name)]
    case Failed(e) => [Started(name), FailedLine(name, e)]
  }

  /** The lines printed by running the named tests one after another. */
  function Traces<E>(names: seq<string>, outs: seq<Outcome<E>>): seq<LogLine<E>>
    requires |names| == |outs|
    decreases |outs|
  {
    if |outs| == 0 then []
    else Traces(names[..|names| - 1], outs[..|outs| - 1]) + Trace(names[|names| - 1], outs[|outs| - 1])
  }

  /** The names of the tests a log says were started, in order. */
  function StartedNames<E>(log: seq<LogLine<E>>): seq<string>
    decreases |log|
  {
    if |log| == 0 then []
    else StartedNames(log[..|log| - 1]) + (if log[|log| - 1].Started? then [log[|log| - 1].name] else [])
  }

  lemma {:induction false} StartedNamesAppend<E>(a: seq<LogLine<E>>, b: seq<LogLine<E>>)
    ensures StartedNames(a + b) == StartedNames(a) + StartedNames(b)
    decreases |b|
  {
    if |b| > 0 {
      var b' := b[..|b| - 1];
      assert (a + b)[..|a + b| - 1] == a + b';
      StartedNamesAppend(a, b');
    } else {
      assert a + b == a;
    }
  }

  /** One test's lines start that test and no other. */
  lemma TraceStartsOnce<E>(name: string, outcome: Outcome<E>)
    ensures StartedNames(Trace(name, outcome)) == [name]
  {
    var t := Trace(name, outcome);
    var head: seq<LogLine<E>> := [Started(name)];
    assert t[..1] == head && head[..0] == [];
    assert StartedNames(head) == [name];
  }

  /** Every test is started exactly once, in the order given, whether or not
      earlier ones failed. */
  lemma {:induction false} TracesStartInOrder<E>(names: seq<string>, outs: seq<Outcome<E>>)
    requires |names| == |outs|
    ensures StartedNames(Traces(names, outs)) == names
    decreases |outs|
  {
    if |outs| > 0 {
      var n := |outs| - 1;
      TracesStartInOrder(names[..n], outs[..n]);
      var t := Trace(names[n], outs[n]);
      StartedNamesAppend(Traces(names[..n], outs[..n]), t);
      TraceStartsOnce(names[n], outs[n]);
      assert names[..n] + [names[n]] == names;
    }
  }

  /** Lines that start no test, such as the totals printed after a run,
      leave the started names as they were. */
  lemma {:induction false} TracesThenTotalsStart<E>(names: seq<string>, outs: seq<Outcome<E>>, tail: seq<LogLine<E>>)
    requires |names| == |outs|
    requires forall k :: 0 <= k < |tail| ==> !tail[k].Started?
    ensures StartedNames(Traces(names, outs) + tail) == names
    decreases |tail|
  {
    if |tail| == 0 {
      TracesStartInOrder(names, outs);
      assert Traces(names, outs) + tail == Traces(names, outs);
    } else {
      var all := Traces(names, outs) + tail;
      assert all[..|all| - 1] == Traces(names, outs) + tail[..|tail| - 1];
      TracesThenTotalsStart(names, outs, tail[..|tail| - 1]);
    }
  }

  /** A log that started empty and received a run's lines and then lines
      that start no test names exactly the run's tests, in order. */
  lemma FreshLogStarts<E>(log: seq<LogLine<E>>, names: seq<string>, outs: seq<Outcome<E>>, tail: seq<LogLine<E>>)
    requires |names| == |outs|
    requires forall k :: 0 <= k < |tail| ==> !tail[k].Started?
    requires log == [] + Traces(names, outs) + tail
    ensures StartedNames(log) == names
  {
    assert log == Traces(names, outs) + tail;
    TracesThenTotalsStart(names, outs, tail);
  }

  /** Appending one outcome to a run extends its counts and its log. */
  lemma CountsSnoc<E>(names: seq<string>, outs: seq<Outcome<E>>, i: nat)
    requires |names| == |outs| && i < |outs|
    ensures CountPassed(outs[..i + 1]) == CountPassed(outs[..i]) + (if outs[i].Passed? then 1 else 0)
    ensures CountFailed(outs[..i + 1]) == CountFailed(outs[..i]) + (if outs[i].Failed? then 1 else 0)
    ensures Traces(names[..i + 1], outs[..i + 1]) == Traces(names[..i], outs[..i]) + Trace(names[i], outs[i])
  {
    assert outs[..i + 1][..i] == outs[..i];
    assert names[..i + 1][..i] == names[..i];
  }

  /** `Math.round(100 * passed / (passed + failed))`, rounding halves up. */
  function CoveragePercent(passed: nat, failed: nat): (percent: int)
    requires passed + failed > 0
    ensures 0 <= percent <= 100
    ensures 200 * passed - (passed + failed) < 2 * (passed + failed) * percent <= 200 * passed + (passed + failed)
  {
    var n := passed + failed;
    var q := (200 * passed + n) / (2 * n);
    RoundingBounds(passed, n, q);
    q
  }

  lemma RoundingBounds(p: nat, n: nat, q: int)
    requires 0 < n && p <= n && q == (200 * p + n) / (2 * n)
    ensures 0 <= q <= 100
    ensures 200 * p - n < 2 * n * q <= 200 * p + n
  {
    var a, b := 200 * p + n, 2 * n;
    DivBounds(a, b);
    if q > 100 {
      MulGrows(b, q, 101);
    }
    if q < 0 {
      MulGrows(b, 0, q);
    }
  }

  lemma DivBounds(a: nat, b: nat)
    requires 0 < b
    ensures b * (a / b) <= a < b * (a / b) + b
  {
  }

  lemma MulGrows(b: nat, x: int, y: int)
    requires 0 < b && y < x
    ensures b * y < b * x
  {
    var d := x - y;
    assert b * x == b * y + b * d;
    MulPos(b, d);
  }

  lemma MulPos(b: nat, d: int)
    requires 0 < b && 0 < d
    ensures b <= b * d
  {
  }
}
