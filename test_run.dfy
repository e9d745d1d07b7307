/**
 * The test runner of src/dheunit.cpp, behind the Tester interface of include/dheunit.h.
 * A test body is a script of Tester calls; a Runner executes it until an exception
 * escapes, and turns that exception into a failed result. Suites and standalone tests
 * are registered in name-keyed maps and run in name order.
 */
module TestRun {
  import opened Wrappers
  import opened Format
  import Unit
  import Strings

  /** A call a test body makes on its Tester, or an exception the body throws. */
  datatype Action =
    | Log(args: Args)
    | Error(args: Args)
    | Fatal(args: Args)
    | Logf(format: Option<string>, fargs: seq<string>)
    | Errorf(format: Option<string>, fargs: seq<string>)
    | Fatalf(format: Option<string>, fargs: seq<string>)
    | Fail
    | FailNow
    | Raise(e: Exception)

  /** What a test leaves behind: whether it failed, and its log entries in order. */
  datatype Result = Result(failed: bool, logs: seq<string>)

  const Fresh := Result(false, [])

  /** The result after a call, and how the call ended. */
  datatype Step = Step(result: Result, outcome: Outcome)

  /** error/fatal/errorf/fatalf are built from the other calls. */
  function Rank(a: Action): nat
  {
    if a.Error? || a.Fatal? || a.Errorf? || a.Fatalf? then 1 else 0
  }

  /** The effect of one Tester call. */
  function Perform(r: Result, a: Action): Step
    decreases Rank(a)
  {
    match a
    case Log(args) => Step(Result(r.failed, r.logs + [Join(args)]), Normal)
    case Logf(f, xs) =>
      var w := Formatted(f, xs);
      if w.error.None? then Step(Result(r.failed, r.logs + [w.text]), Normal)
      else Step(r, Format.Outcome(w))
    case Fail => Step(Result(true, r.logs), Normal)
    case FailNow => Step(Result(true, r.logs), Thrown(FailNowSignal))
    case Raise(e) => Step(r, Thrown(e))
    case Error(args) => var s := Perform(r, Log(args)); Perform(s.result, Fail)
    case Fatal(args) => var s := Perform(r, Log(args)); Perform(s.result, FailNow)
    case Errorf(f, xs) =>
      var s := Perform(r, Logf(f, xs));
      if s.outcome.Thrown? then s else Perform(s.result, Fail)
    case Fatalf(f, xs) =>
      var s := Perform(r, Logf(f, xs));
      if s.outcome.Thrown? then s else Perform(s.result, FailNow)
  }

  /** A body run from `r` until its end or until an exception escapes. */
  function Script(r: Result, body: seq<Action>): Step
    decreases |body|
  {
    if body == [] then Step(r, Normal)
    else
      var s := Perform(r, body[0]);
      if s.outcome.Thrown? then s else Script(s.result, body[1..])
  }

  /** `run`'s handlers: fail_now's signal is swallowed, anything else is logged as an error. */
  function Catch(s: Step): Result
  {
    match s.outcome
    case Normal => s.result
    case Thrown(FailNowSignal) => s.result
    case Thrown(e) => Perform(s.result, Error(Complaint(e))).result
  }

  /** The result of running a body on a fresh Runner. */
  function RunResult(body: seq<Action>): Result
  {
    Catch(Script(Fresh, body))
  }

  /** Running a body in two parts. */
  lemma {:induction false} ScriptAppend(r: Result, a: seq<Action>, b: seq<Action>)
    ensures Script(r, a + b) ==
      if Script(r, a).outcome.Thrown? then Script(r, a) else Script(Script(r, a).result, b)
    decreases |a|
  {
    if a == [] {
      assert a + b == b;
    } else {
      assert (a + b)[0] == a[0] && (a + b)[1..] == a[1..] + b;
      var s := Perform(r, a[0]);
      if s.outcome.Normal? {
        ScriptAppend(s.result, a[1..], b);
      }
    }
  }

  /** One call never clears the failed flag and never removes or changes a log entry. */
  lemma PerformKeepsHistory(r: Result, a: Action)
    ensures r.failed ==> Perform(r, a).result.failed
    ensures r.logs <= Perform(r, a).result.logs
    decreases Rank(a)
  {
    match a
    case Error(args) => PerformKeepsHistory(Perform(r, Log(args)).result, Fail);
    case Fatal(args) => PerformKeepsHistory(Perform(r, Log(args)).result, FailNow);
    case Errorf(f, xs) => PerformKeepsHistory(r, Logf(f, xs));
    case Fatalf(f, xs) => PerformKeepsHistory(r, Logf(f, xs));
    case _ =>
  }

  /** Over a whole body the failed flag is only ever set and the log only grows. */
  lemma {:induction false} ScriptKeepsHistory(r: Result, body: seq<Action>)
    ensures r.failed ==> Script(r, body).result.failed
    ensures r.logs <= Script(r, body).result.logs
    decreases |body|
  {
    if body != [] {
      PerformKeepsHistory(r, body[0]);
      var s := Perform(r, body[0]);
      if s.outcome.Normal? {
        ScriptKeepsHistory(s.result, body[1..]);
      }
    }
  }

  /** `failNow` marks the test failed and skips the rest of the body, silently. */
  lemma FailNowStopsTest(pre: seq<Action>, post: seq<Action>)
    requires Script(Fresh, pre).outcome.Normal?
    ensures RunResult(pre + [FailNow] + post) == Result(true, Script(Fresh, pre).result.logs)
  {
    assert pre + [FailNow] + post == pre + ([FailNow] + post);
    ScriptAppend(Fresh, pre, [FailNow] + post);
  }

  /** `fatal` logs its line, then stops the test as `failNow` does. */
  lemma FatalLogsThenStops(pre: seq<Action>, args: Args, post: seq<Action>)
    requires Script(Fresh, pre).outcome.Normal?
    ensures RunResult(pre + [Fatal(args)] + post) == Result(true, Script(Fresh, pre).result.logs + [Join(args)])
  {
    assert pre + [Fatal(args)] + post == pre + ([Fatal(args)] + post);
    ScriptAppend(Fresh, pre, [Fatal(args)] + post);
    var r := Script(Fresh, pre).result;
    assert ([Fatal(args)] + post)[0] == Fatal(args);
    assert Perform(r, Fatal(args)) == Step(Result(true, r.logs + [Join(args)]), Thrown(FailNowSignal));
  }

  /** Any other exception skips the rest of the body and becomes one logged error. */
  lemma ExceptionBecomesError(pre: seq<Action>, e: Exception, post: seq<Action>)
    requires Script(Fresh, pre).outcome.Normal? && e != FailNowSignal
    ensures RunResult(pre + [Raise(e)] + post) == Result(true, Script(Fresh, pre).result.logs + [Join(Complaint(e))])
  {
    assert pre + [Raise(e)] + post == pre + ([Raise(e)] + post);
    ScriptAppend(Fresh, pre, [Raise(e)] + post);
    var r := Script(Fresh, pre).result;
    assert ([Raise(e)] + post)[0] == Raise(e);
    assert Script(r, [Raise(e)] + post) == Step(r, Thrown(e));
    assert Perform(r, Error(Complaint(e))).result == Result(true, r.logs + [Join(Complaint(e))]);
  }

  /** A rejected format adds no entry of its own: the FormatError escapes the body and
      `run` logs it as an unexpected exception, with the two spaces that the separator
      and the handler's own text put together. */
  lemma FormatErrorReported(pre: seq<Action>, f: Option<string>, xs: seq<string>, post: seq<Action>)
    requires Script(Fresh, pre).outcome.Normal? && Formatted(f, xs).error.Some?
    ensures RunResult(pre + [Logf(f, xs)] + post) ==
      Result(true, Script(Fresh, pre).result.logs + ["Unexpected exception:  " + What(Formatted(f, xs).error.value)])
  {
    assert pre + [Logf(f, xs)] + post == pre + ([Logf(f, xs)] + post);
    ScriptAppend(Fresh, pre, [Logf(f, xs)] + post);
    var r := Script(Fresh, pre).result;
    LogfThrows(r, f, xs, post);
    CaughtException(r, What(Formatted(f, xs).error.value));
  }

  lemma LogfThrows(r: Result, f: Option<string>, xs: seq<string>, post: seq<Action>)
    requires Formatted(f, xs).error.Some?
    ensures Script(r, [Logf(f, xs)] + post) == Step(r, Thrown(StdException(What(Formatted(f, xs).error.value))))
  {
    assert ([Logf(f, xs)] + post)[0] == Logf(f, xs);
  }

  lemma CaughtException(r: Result, what: string)
    ensures Catch(Step(r, Thrown(StdException(what)))) == Result(true, r.logs + ["Unexpected exception:  " + what])
  {
    var args := ["Unexpected exception: ", what];
    assert args[1..] == [what];
    assert Join(args) == "Unexpected exception: " + " " + what;
    assert "Unexpected exception: " + " " == "Unexpected exception:  ";
    assert Complaint(StdException(what)) == args;
    assert Perform(r, Log(args)).result == Result(r.failed, r.logs + [Join(args)]);
    assert Perform(r, Error(args)).result == Result(true, r.logs + [Join(args)]);
  }

  /** `logf(nullptr)`: the test fails with the null-format error as its only entry. */
  lemma NullFormatReported(xs: seq<string>)
    ensures RunResult([Logf(None, xs)]) == Result(true, ["Unexpected exception:  " + What(NullFormat)])
  {
    FormatErrorReported([], None, xs, []);
    assert [] + [Logf(None, xs)] + [] == [Logf(None, xs)];
  }

  /** A body that completes without failing leaves the test passed, with every line it logged. */
  lemma {:induction false} LoggingOnlyPasses(body: seq<Action>)
    requires forall i :: 0 <= i < |body| ==> body[i].Log?
    ensures Script(Fresh, body) == Step(Result(false, Lines(body)), Normal)
    ensures RunResult(body) == Result(false, Lines(body))
    decreases |body|
  {
    if body != [] {
      var n := |body| - 1;
      assert body == body[..n] + [body[n]];
      LoggingOnlyPasses(body[..n]);
      ScriptAppend(Fresh, body[..n], [body[n]]);
      assert [body[n]][1..] == [];
      assert Lines(body) == Lines(body[..n]) + [Join(body[n].args)];
    } else {
      assert Lines(body) == [];
    }
  }

  /** The space-joined arguments of a run of `log` calls. */
  function Lines(body: seq<Action>): seq<string>
    requires forall i :: 0 <= i < |body| ==> body[i].Log?
  {
    seq(|body|, i requires 0 <= i < |body| && body[i].Log? => Join(body[i].args))
  }

  /** `Runner` of src/dheunit.cpp: the Tester a test body runs against. */
  class Runner {
    const test: seq<Action>
    var result: Result

    constructor (test: seq<Action>)
      ensures this.test == test && result == Fresh
    {
      this.test := test;
      result := Fresh;
    }

    method Fail()
      modifies this
      ensures result == Result(true, old(result).logs)
    {
      result := result.(failed := true);
    }

    method FailNow() returns (outcome: Outcome)
      modifies this
      ensures result == Result(true, old(result).logs) && outcome == Thrown(FailNowSignal)
    {
      Fail();
      outcome := Thrown(FailNowSignal);
    }

    method AddLogEntry(entry: string)
      modifies this
      ensures result == Result(old(result).failed, old(result).logs + [entry])
    {
      result := result.(logs := result.logs + [entry]);
    }

    method Log(args: Args)
      modifies this
      ensures Step(result, Normal) == Perform(old(result), Action.Log(args))
    {
      var entry := new Unit.LogEntry();
      entry.Write(args);
      var line := entry.Str();
      assert line == Join(args);
      AddLogEntry(line);
    }

    method Error(args: Args)
      modifies this
      ensures Step(result, Normal) == Perform(old(result), Action.Error(args))
    {
      Log(args);
      Fail();
    }

    method Fatal(args: Args) returns (outcome: Outcome)
      modifies this
      ensures Step(result, outcome) == Perform(old(result), Action.Fatal(args))
    {
      Log(args);
      outcome := FailNow();
    }

    /** Adds the entry only if formatting succeeds; otherwise the error escapes. */
    method Logf(format: Option<string>, args: seq<string>) returns (outcome: Outcome)
      modifies this
      ensures Step(result, outcome) == Perform(old(result), Action.Logf(format, args))
    {
      var entry := new Unit.LogEntry();
      outcome := entry.Writef(format, args);
      if outcome.Thrown? {
        return;
      }
      var line := entry.Str();
      assert line == Formatted(format, args).text;
      AddLogEntry(line);
    }

    method Errorf(format: Option<string>, args: seq<string>) returns (outcome: Outcome)
      modifies this
      ensures Step(result, outcome) == Perform(old(result), Action.Errorf(format, args))
    {
      outcome := Logf(format, args);
      if outcome.Thrown? {
        return;
      }
      Fail();
    }

    method Fatalf(format: Option<string>, args: seq<string>) returns (outcome: Outcome)
      modifies this
      ensures Step(result, outcome) == Perform(old(result), Action.Fatalf(format, args))
    {
      outcome := Logf(format, args);
      if outcome.Thrown? {
        return;
      }
      outcome := FailNow();
    }

    /** One statement of the test body. */
    method Do(a: Action) returns (outcome: Outcome)
      modifies this
      ensures Step(result, outcome) == Perform(old(result), a)
    {
      match a
      case Log(args) => Log(args); outcome := Normal;
      case Error(args) => Error(args); outcome := Normal;
      case Fatal(args) => outcome := Fatal(args);
      case Logf(f, xs) => outcome := Logf(f, xs);
      case Errorf(f, xs) => outcome := Errorf(f, xs);
      case Fatalf(f, xs) => outcome := Fatalf(f, xs);
      case Fail => Fail(); outcome := Normal;
      case FailNow => outcome := FailNow();
      case Raise(e) => outcome := Thrown(e);
    }

    /** Runs the body, catches what escapes it, and returns the accumulated result. */
    method Run() returns (r: Result)
      modifies this
      ensures r == result && result == Catch(Script(old(result), test))
    {
      var i := 0;
      var outcome := Normal;
      while i < |test| && outcome.Normal?
        invariant 0 <= i <= |test|
        invariant outcome.Normal? ==> Script(old(result), test) == Script(result, test[i..])
        invariant outcome.Thrown? ==> Script(old(result), test) == Step(result, outcome)
        decreases |test| - i
      {
        assert test[i..][0] == test[i] && test[i..][1..] == test[i + 1..];
        outcome := Do(test[i]);
        i := i + 1;
      }
      match outcome {
        case Normal =>
        case Thrown(FailNowSignal) =>
        case Thrown(CString(s)) => Error(["Unexpected string exception: ", s]);
        case Thrown(StdException(what)) => Error(["Unexpected exception: ", what]);
        case Thrown(Unknown) => Error(["Unrecognized exception"]);
      }
      r := result;
    }
  }

  /** A test as `addTests` or `registerTest` hands it over: a name and a body. */
  datatype Named = Named(name: string, body: seq<Action>)

  /** The name and result `RunTest` reports for one test. */
  datatype Report = Report(name: string, result: Result)

  /** `RunTest`: every test gets a Runner of its own, so nothing carries over between tests. */
  method RunTest(t: Named) returns (report: Report)
    ensures report == Report(t.name, RunResult(t.body))
  {
    var runner := new Runner(t.body);
    var result := runner.Run();
    report := Report(t.name, result);
  }

  /** `RunSuite`: the suite's tests, in the order `addTests` yields them, each renamed
      "suite: test". */
  method RunSuite(suiteName: string, tests: seq<Named>) returns (reports: seq<Report>)
    ensures |reports| == |tests|
    ensures forall i :: 0 <= i < |tests| ==>
      reports[i] == Report(suiteName + ": " + tests[i].name, RunResult(tests[i].body))
  {
    var suiteTests: seq<Named> := [];
    for i := 0 to |tests|
      invariant |suiteTests| == i
      invariant forall j :: 0 <= j < i ==> suiteTests[j] == Named(suiteName + ": " + tests[j].name, tests[j].body)
    {
      suiteTests := suiteTests + [Named(suiteName + ": " + tests[i].name, tests[i].body)];
    }
    reports := [];
    for i := 0 to |suiteTests|
      invariant |reports| == i
      invariant forall j :: 0 <= j < i ==> reports[j] == Report(suiteTests[j].name, RunResult(suiteTests[j].body))
    {
      var report := RunTest(suiteTests[i]);
      reports := reports + [report];
    }
  }

  /** The reports of one suite's tests, in order, each named "suite: test". */
  function SuiteBlock(suiteName: string, tests: seq<Named>): seq<Report>
  {
    seq(|tests|, i requires 0 <= i < |tests| =>
      Report(suiteName + ": " + tests[i].name, RunResult(tests[i].body)))
  }

  /** The reports of the suites with the given names, one suite after the other. */
  function SuiteReports(suites: map<string, seq<Named>>, names: seq<string>): seq<Report>
    requires forall k :: k in names ==> k in suites
  {
    if names == [] then []
    else
      var last := names[|names| - 1];
      SuiteReports(suites, names[..|names| - 1]) + SuiteBlock(last, suites[last])
  }

  lemma IsSuiteBlock(reports: seq<Report>, suiteName: string, tests: seq<Named>)
    requires |reports| == |tests|
    requires forall i :: 0 <= i < |tests| ==>
      reports[i] == Report(suiteName + ": " + tests[i].name, RunResult(tests[i].body))
    ensures reports == SuiteBlock(suiteName, tests)
  {
  }

  lemma SuiteReportsStep(suites: map<string, seq<Named>>, names: seq<string>, i: nat)
    requires i < |names| && forall k :: k in names ==> k in suites
    ensures SuiteReports(suites, names[..i + 1]) == SuiteReports(suites, names[..i]) + SuiteBlock(names[i], suites[names[i]])
  {
    assert names[..i + 1][..i] == names[..i];
  }

  /** The registries of standalone tests and suites. */
  class TestRun {
    var suites: map<string, seq<Named>>
    var tests: map<string, seq<Action>>

    constructor ()
      ensures suites == map[] && tests == map[]
    {
      suites := map[];
      tests := map[];
    }

    /** A second registration under the same name replaces the first. */
    method RegisterSuite(name: string, suite: seq<Named>)
      modifies this
      ensures suites == old(suites)[name := suite] && tests == old(tests)
    {
      suites := suites[name := suite];
    }

    method RegisterTest(name: string, body: seq<Action>)
      modifies this
      ensures tests == old(tests)[name := body] && suites == old(suites)
    {
      tests := tests[name := body];
    }

    /** `for_each` over the suites, in name order. */
    method RunSuites() returns (reports: seq<Report>)
      ensures reports == SuiteReports(suites, Strings.SortedKeys(suites.Keys))
    {
      var suiteNames := Strings.SortedKeys(suites.Keys);
      reports := [];
      for i := 0 to |suiteNames|
        invariant reports == SuiteReports(suites, suiteNames[..i])
      {
        var more := RunSuite(suiteNames[i], suites[suiteNames[i]]);
        IsSuiteBlock(more, suiteNames[i], suites[suiteNames[i]]);
        SuiteReportsStep(suites, suiteNames, i);
        reports := reports + more;
      }
      assert suiteNames[..|suiteNames|] == suiteNames;
    }

    /** `for_each` over the standalone tests, in name order. */
    method RunTests() returns (reports: seq<Report>)
      ensures var names := Strings.SortedKeys(tests.Keys);
        |reports| == |names| &&
        forall i :: 0 <= i < |names| ==> reports[i] == Report(names[i], RunResult(tests[names[i]]))
    {
      var names := Strings.SortedKeys(tests.Keys);
      reports := [];
      for i := 0 to |names|
        invariant |reports| == i
        invariant forall j :: 0 <= j < i ==> reports[j] == Report(names[j], RunResult(tests[names[j]]))
      {
        var report := RunTest(Named(names[i], tests[names[i]]));
        reports := reports + [report];
      }
    }

    /** Every suite in name order, then every standalone test in name order. */
    method Run() returns (reports: seq<Report>)
      ensures
        var suiteNames := Strings.SortedKeys(suites.Keys);
        var testNames := Strings.SortedKeys(tests.Keys);
        var n := |SuiteReports(suites, suiteNames)|;
        && |reports| == n + |testNames|
        && reports[..n] == SuiteReports(suites, suiteNames)
        && forall i :: 0 <= i < |testNames| ==>
             reports[n + i] == Report(testNames[i], RunResult(tests[testNames[i]]))
    {
      var fromSuites := RunSuites();
      var fromTests := RunTests();
      reports := fromSuites + fromTests;
      assert reports[..|fromSuites|] == fromSuites;
    }
  }
}
