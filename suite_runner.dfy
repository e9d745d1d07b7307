/**
 * The suite registry and `run_tests` of dheunit/runner.h. Every Suite registers itself
 * when it is constructed; `run_tests` runs the registered suites in order, each on a
 * fresh Tester of dheunit/test.h, brackets each run with `start` and `end` on the
 * log, and reports whether any suite's Tester failed. Nothing catches an exception
 * escaping a suite's `run`: it leaves `run_tests` at once, without the `end`.
 */
module SuiteRunner {
  import opened Wrappers
  import T = Tester

  /** A Suite: its name and the body of its `run(Tester &)`. */
  datatype Suite = Suite(name: string, body: seq<T.Action>)

  /** A call `run_tests` makes on its log. */
  datatype Event = Start(name: string) | End

  /** What `run_tests` leaves behind: the log calls it made, the value it returns, and
      how it ends. `failed` is the return value, so it means nothing once it threw. */
  datatype Report = Report(events: seq<Event>, failed: bool, outcome: Outcome)

  /** One suite's run on a fresh root Tester. */
  function SuiteRun(s: Suite): T.Effect
  {
    T.Script(0, false, s.body)
  }

  /** `run_tests` over the first suites of the registry. */
  function RunAll(suites: seq<Suite>): Report
    decreases |suites|
  {
    if suites == [] then Report([], false, Normal)
    else
      var r := RunAll(suites[..|suites| - 1]);
      var s := suites[|suites| - 1];
      var e := SuiteRun(s);
      if r.outcome.Thrown? then r
      else if e.outcome.Thrown? then Report(r.events + [Start(s.name)], r.failed, e.outcome)
      else Report(r.events + [Start(s.name), End], r.failed || e.called, Normal)
  }

  /** The log calls of a run in which no suite threw: a start and an end per suite. */
  function Brackets(suites: seq<Suite>): seq<Event>
    decreases |suites|
  {
    if suites == [] then [] else Brackets(suites[..|suites| - 1]) + [Start(suites[|suites| - 1].name), End]
  }

  /** When no suite throws, `run_tests` starts and ends every suite in registry order and
      returns true exactly when some suite's Tester failed. */
  lemma {:induction false} RunAllNormal(suites: seq<Suite>)
    requires forall i :: 0 <= i < |suites| ==> SuiteRun(suites[i]).outcome == Normal
    ensures RunAll(suites).outcome == Normal
    ensures RunAll(suites).events == Brackets(suites)
    ensures RunAll(suites).failed <==> exists i :: 0 <= i < |suites| && SuiteRun(suites[i]).called
    decreases |suites|
  {
    if suites != [] {
      var init := suites[..|suites| - 1];
      assert forall i :: 0 <= i < |init| ==> init[i] == suites[i];
      RunAllNormal(init);
      if RunAll(init).failed {
        var i :| 0 <= i < |init| && SuiteRun(init[i]).called;
        assert SuiteRun(suites[i]).called;
      }
    }
  }

  /** The brackets are balanced: one start and one end per suite, alternating. */
  lemma {:induction false} BracketsShape(suites: seq<Suite>)
    ensures |Brackets(suites)| == 2 * |suites|
    ensures forall i :: 0 <= i < |suites| ==>
              Brackets(suites)[2 * i] == Start(suites[i].name) && Brackets(suites)[2 * i + 1] == End
    decreases |suites|
  {
    if suites != [] {
      var init := suites[..|suites| - 1];
      BracketsShape(init);
      assert forall i :: 0 <= i < |init| ==> init[i] == suites[i];
    }
  }

  /** A suite that throws ends the run: the suites after it never start. */
  lemma {:induction false} ThrowStopsRun(suites: seq<Suite>, s: Suite, rest: seq<Suite>)
    requires RunAll(suites).outcome == Normal && SuiteRun(s).outcome.Thrown?
    ensures RunAll(suites + [s] + rest) == Report(RunAll(suites).events + [Start(s.name)], RunAll(suites).failed, SuiteRun(s).outcome)
    decreases |rest|
  {
    if rest == [] {
      assert suites + [s] + rest == suites + [s];
      assert (suites + [s])[..|suites + [s]| - 1] == suites;
    } else {
      var init := rest[..|rest| - 1];
      ThrowStopsRun(suites, s, init);
      assert (suites + [s] + rest)[..|suites + [s] + rest| - 1] == suites + [s] + init;
    }
  }

  /** The `suites()` registry: a vector every Suite constructor appends itself to. */
  class Registry {
    var suites: seq<Suite>

    constructor ()
      ensures suites == []
    {
      suites := [];
    }

    /** `Suite::Suite(name)`: registers the suite last, duplicates included. */
    method Register(s: Suite)
      modifies this
      ensures suites == old(suites) + [s]
    {
      suites := suites + [s];
    }
  }

  /** A log that records the calls `run_tests` makes on it. */
  class EventLog {
    var events: seq<Event>

    constructor ()
      ensures events == []
    {
      events := [];
    }

    method Start(name: string)
      modifies this
      ensures events == old(events) + [Event.Start(name)]
    {
      events := events + [Event.Start(name)];
    }

    method End()
      modifies this
      ensures events == old(events) + [Event.End]
    {
      events := events + [Event.End];
    }
  }

  /** One suite's turn in `run_tests`: `start`, the suite's `run` on a fresh root Tester,
      then `end` unless the run threw. */
  method RunOne(s: Suite, log: EventLog) returns (failed: bool, outcome: Outcome)
    modifies log
    ensures outcome == SuiteRun(s).outcome
    ensures outcome.Thrown? ==> log.events == old(log.events) + [Start(s.name)]
    ensures outcome == Normal ==> log.events == old(log.events) + [Start(s.name), End] && failed == SuiteRun(s).called
  {
    log.Start(s.name);
    var out := new T.Stream();
    var t := new T.Tester(s.name, out);
    outcome := t.Exec(s.body);
    failed := t.failed;
    if outcome == Normal {
      log.End();
    }
  }

  /** One more suite in the registry: what RunAll adds for it. */
  lemma RunAllStep(suites: seq<Suite>, i: nat)
    requires i < |suites| && RunAll(suites[..i]).outcome == Normal
    ensures var r, e := RunAll(suites[..i]), SuiteRun(suites[i]);
      e.outcome == Normal ==>
        RunAll(suites[..i + 1]) == Report(r.events + [Start(suites[i].name), End], r.failed || e.called, Normal)
  {
    assert suites[..i + 1][..i] == suites[..i];
  }

  /** `run_tests(log)`: the `for_each` over the registry, OR-ing each suite's failure. */
  method RunTests(registry: Registry, log: EventLog) returns (failed: bool, outcome: Outcome)
    modifies log
    ensures var r := RunAll(registry.suites);
            log.events == old(log.events) + r.events && outcome == r.outcome &&
            (outcome == Normal ==> failed == r.failed)
  {
    var suites := registry.suites;
    failed := false;
    for i := 0 to |suites|
      invariant var r := RunAll(suites[..i]);
                r.outcome == Normal && log.events == old(log.events) + r.events && failed == r.failed
    {
      var failedOne;
      failedOne, outcome := RunOne(suites[i], log);
      if outcome.Thrown? {
        ThrowStopsRun(suites[..i], suites[i], suites[i + 1..]);
        assert suites[..i] + [suites[i]] + suites[i + 1..] == suites;
        return;
      }
      RunAllStep(suites, i);
      failed := failed || failedOne;
    }
    assert suites[..|suites|] == suites;
    outcome := Normal;
  }
}
