/**
 * The oldest runner, in src/Test.cpp and src/Runner.cpp: a Reporter (and its twin, the
 * Runner) keeps a failed flag and the messages logged, in order. Unlike the later
 * Testers, `failNow` here only marks the failure: nothing is thrown, so the test goes
 * on. A test body is a script of calls; an exception the body raises ends it.
 */
module Legacy {
  import opened Wrappers

  /** One statement of a test body. */
  datatype Call =
    | Log(msg: string)
    | Error(msg: string)
    | Fatal(msg: string)
    | Fail
    | FailNow
    | Raise(e: Exception)

  /** A Test: its name and the body of its `run(Reporter &)`. */
  datatype Test = Test(name: string, body: seq<Call>)

  /** The messages the calls log, in call order. */
  function Messages(calls: seq<Call>): seq<string>
    decreases |calls|
  {
    if calls == [] then []
    else
      var c := calls[|calls| - 1];
      Messages(calls[..|calls| - 1]) + (if c.Log? || c.Error? || c.Fatal? then [c.msg] else [])
  }

  /** Whether one of the calls marks the test failed. */
  predicate Fails(calls: seq<Call>)
  {
    exists i :: 0 <= i < |calls| && (calls[i].Error? || calls[i].Fatal? || calls[i].Fail? || calls[i].FailNow?)
  }

  /** The index of the first call that raises, or the length when none does. */
  function FirstRaise(body: seq<Call>): (n: nat)
    ensures n <= |body|
    ensures forall j :: 0 <= j < n ==> !body[j].Raise?
    ensures n < |body| ==> body[n].Raise?
    decreases |body|
  {
    if body == [] || body[0].Raise? then 0 else 1 + FirstRaise(body[1..])
  }

  /** The calls a body gets through: those before the first exception. */
  function Before(body: seq<Call>): seq<Call>
  {
    body[..FirstRaise(body)]
  }

  /** How a body ends: with the first exception it raises, if any. */
  function Escape(body: seq<Call>): Outcome
  {
    var n := FirstRaise(body);
    if n < |body| then Thrown(body[n].e) else Normal
  }

  /** The logged messages of two runs of calls, one after the other. */
  lemma {:induction false} MessagesAppend(a: seq<Call>, b: seq<Call>)
    ensures Messages(a + b) == Messages(a) + Messages(b)
    decreases |b|
  {
    if b == [] {
      assert a + b == a;
    } else {
      var init := b[..|b| - 1];
      MessagesAppend(a, init);
      assert (a + b)[..|a + b| - 1] == a + init;
      assert (a + b)[|a + b| - 1] == b[|b| - 1];
    }
  }

  /** A body with no exception in its first part gets through all of that part. */
  lemma {:induction false} BeforeAppend(pre: seq<Call>, post: seq<Call>)
    requires forall j :: 0 <= j < |pre| ==> !pre[j].Raise?
    ensures Before(pre + post) == pre + Before(post)
    ensures Escape(pre + post) == Escape(post)
    decreases |pre|
  {
    if pre == [] {
      assert pre + post == post;
    } else {
      BeforeAppend(pre[1..], post);
      assert (pre + post)[1..] == pre[1..] + post;
      assert pre == [pre[0]] + pre[1..];
    }
  }

  /** `failNow` does not stop the test: the calls after it still run and log, and the
      test has failed. */
  lemma FailNowContinues(pre: seq<Call>, post: seq<Call>)
    requires forall j :: 0 <= j < |pre| ==> !pre[j].Raise?
    ensures Before(pre + [FailNow] + post) == pre + [FailNow] + Before(post)
    ensures Messages(Before(pre + [FailNow] + post)) == Messages(pre) + Messages(Before(post))
    ensures Fails(Before(pre + [FailNow] + post))
  {
    var head := pre + [FailNow];
    assert forall j :: 0 <= j < |head| ==> !head[j].Raise?;
    BeforeAppend(head, post);
    var all := head + Before(post);
    assert Before(pre + [FailNow] + post) == all;
    MessagesAppend(head, Before(post));
    assert Messages(head) == Messages(pre) by {
      assert head[..|head| - 1] == pre;
    }
    assert 0 <= |pre| < |all| && all[|pre|] == FailNow;
  }

  /** `fatal` logs its message and fails the test, then the calls after it still run. */
  lemma FatalContinues(pre: seq<Call>, msg: string, post: seq<Call>)
    requires forall j :: 0 <= j < |pre| ==> !pre[j].Raise?
    ensures Messages(Before(pre + [Fatal(msg)] + post)) == Messages(pre) + [msg] + Messages(Before(post))
    ensures Fails(Before(pre + [Fatal(msg)] + post))
  {
    var head := pre + [Fatal(msg)];
    assert forall j :: 0 <= j < |head| ==> !head[j].Raise?;
    BeforeAppend(head, post);
    var all := head + Before(post);
    assert Before(pre + [Fatal(msg)] + post) == all;
    MessagesAppend(head, Before(post));
    assert Messages(head) == Messages(pre) + [msg] by {
      assert head[..|head| - 1] == pre;
    }
    assert 0 <= |pre| < |all| && all[|pre|] == Fatal(msg);
  }

  /** What a test leaves on the Reporter it ran with. */
  datatype Record = Record(failed: bool, logs: seq<string>)

  /** The Record of a body run on a fresh Reporter. */
  function Recorded(body: seq<Call>): Record
  {
    Record(Fails(Before(body)), Messages(Before(body)))
  }

  /** The Reporter of src/Test.cpp. */
  class Reporter {
    var failed: bool
    var logs: seq<string>

    constructor ()
      ensures !failed && logs == []
    {
      failed := false;
      logs := [];
    }

    function Failed(): bool
      reads this
    {
      failed
    }

    function Logs(): seq<string>
      reads this
    {
      logs
    }

    method Log(msg: string)
      modifies this
      ensures logs == old(logs) + [msg] && failed == old(failed)
    {
      logs := logs + [msg];
    }

    method Fail()
      modifies this
      ensures failed && logs == old(logs)
    {
      failed := true;
    }

    /** Marks the failure and returns; it does not stop the test. */
    method FailNow()
      modifies this
      ensures failed && logs == old(logs)
    {
      Fail();
    }

    method Error(msg: string)
      modifies this
      ensures logs == old(logs) + [msg] && failed
    {
      Log(msg);
      Fail();
    }

    method Fatal(msg: string)
      modifies this
      ensures logs == old(logs) + [msg] && failed
    {
      Log(msg);
      FailNow();
    }

    /** One call of a body that does not raise. */
    method Do(c: Call)
      requires !c.Raise?
      modifies this
      ensures logs == old(logs) + Messages([c]) && failed == (old(failed) || Fails([c]))
    {
      assert [c][..0] == [];
      assert [c][0] == c;
      match c
      case Log(m) => Log(m);
      case Error(m) => Error(m);
      case Fatal(m) => Fatal(m);
      case Fail => Fail();
      case FailNow => FailNow();
    }

    /** `test->run(*this)`: the body's calls in order until one raises, which ends the
        run with that exception. */
    method Exec(body: seq<Call>) returns (outcome: Outcome)
      modifies this
      ensures logs == old(logs) + Messages(Before(body))
      ensures failed == (old(failed) || Fails(Before(body)))
      ensures outcome == Escape(body)
    {
      var i := 0;
      while i < FirstRaise(body)
        invariant 0 <= i <= FirstRaise(body)
        invariant logs == old(logs) + Messages(body[..i])
        invariant failed == (old(failed) || Fails(body[..i]))
      {
        Do(body[i]);
        PrefixStep(body, i);
        i := i + 1;
      }
      outcome := if i < |body| then Thrown(body[i].e) else Normal;
    }
  }

  /** What one more call of a body adds to the messages and to the failure. */
  lemma PrefixStep(body: seq<Call>, i: nat)
    requires i < |body|
    ensures Messages(body[..i + 1]) == Messages(body[..i]) + Messages([body[i]])
    ensures Fails(body[..i + 1]) <==> Fails(body[..i]) || Fails([body[i]])
  {
    assert body[..i + 1] == body[..i] + [body[i]];
    MessagesAppend(body[..i], [body[i]]);
    FailsAppend(body[..i], [body[i]]);
  }

  lemma FailsAppend(a: seq<Call>, b: seq<Call>)
    ensures Fails(a + b) <==> Fails(a) || Fails(b)
  {
    if Fails(a + b) {
      var i :| 0 <= i < |a + b| && ((a + b)[i].Error? || (a + b)[i].Fatal? || (a + b)[i].Fail? || (a + b)[i].FailNow?);
      if i >= |a| {
        assert b[i - |a|] == (a + b)[i];
      }
    }
    if Fails(a) {
      var i :| 0 <= i < |a| && (a[i].Error? || a[i].Fatal? || a[i].Fail? || a[i].FailNow?);
      assert (a + b)[i] == a[i];
    }
    if Fails(b) {
      var i :| 0 <= i < |b| && (b[i].Error? || b[i].Fatal? || b[i].Fail? || b[i].FailNow?);
      assert (a + b)[|a| + i] == b[i];
    }
  }

  /** The registry of src/Test.cpp: `suite()` and its `tests` vector. */
  class Suite {
    var tests: seq<Test>

    constructor ()
      ensures tests == []
    {
      tests := [];
    }

    /** `Test::Test(name)` registering itself with `Suite::add`: kept in call order. */
    method Add(t: Test)
      modifies this
      ensures tests == old(tests) + [t]
    {
      tests := tests + [t];
    }

    /** `Suite::run`: every test on a fresh Reporter; an exception from one test is
        caught and the next test still runs. */
    method Run() returns (records: seq<Record>)
      ensures |records| == |tests|
      ensures forall i :: 0 <= i < |tests| ==> records[i] == Recorded(tests[i].body)
    {
      records := [];
      for i := 0 to |tests|
        invariant |records| == i
        invariant forall j :: 0 <= j < i ==> records[j] == Recorded(tests[j].body)
      {
        var reporter := new Reporter();
        var _ := reporter.Exec(tests[i].body);
        records := records + [Record(reporter.Failed(), reporter.Logs())];
      }
    }
  }

  /** The Runner of src/Runner.cpp: the same record as the Reporter, run by `run`. */
  class Runner {
    var failed: bool
    var logs: seq<string>

    constructor ()
      ensures !failed && logs == []
    {
      failed := false;
      logs := [];
    }

    function Failed(): bool
      reads this
    {
      failed
    }

    function Logs(): seq<string>
      reads this
    {
      logs
    }

    method Log(msg: string)
      modifies this
      ensures logs == old(logs) + [msg] && failed == old(failed)
    {
      logs := logs + [msg];
    }

    method Fail()
      modifies this
      ensures failed && logs == old(logs)
    {
      failed := true;
    }

    method FailNow()
      modifies this
      ensures failed && logs == old(logs)
    {
      Fail();
    }

    method Error(msg: string)
      modifies this
      ensures logs == old(logs) + [msg] && failed
    {
      Log(msg);
      Fail();
    }

    method Fatal(msg: string)
      modifies this
      ensures logs == old(logs) + [msg] && failed
    {
      Log(msg);
      FailNow();
    }

    /** One call of a body that does not raise. */
    method Do(c: Call)
      requires !c.Raise?
      modifies this
      ensures logs == old(logs) + Messages([c]) && failed == (old(failed) || Fails([c]))
    {
      assert [c][..0] == [];
      assert [c][0] == c;
      match c
      case Log(m) => Log(m);
      case Error(m) => Error(m);
      case Fatal(m) => Fatal(m);
      case Fail => Fail();
      case FailNow => FailNow();
    }

    /** `run(test)`: the body's calls on this Runner until one raises; the exception is
        caught, and it does not mark the test failed. */
    method Run(body: seq<Call>)
      modifies this
      ensures logs == old(logs) + Messages(Before(body))
      ensures failed == (old(failed) || Fails(Before(body)))
    {
      var i := 0;
      while i < FirstRaise(body)
        invariant 0 <= i <= FirstRaise(body)
        invariant logs == old(logs) + Messages(body[..i])
        invariant failed == (old(failed) || Fails(body[..i]))
      {
        Do(body[i]);
        PrefixStep(body, i);
        i := i + 1;
      }
    }
  }

  /** An exception escaping a body on the Runner leaves the test failed only if a call
      before it failed it. */
  lemma RaiseDoesNotFail(pre: seq<Call>, e: Exception, post: seq<Call>)
    requires forall j :: 0 <= j < |pre| ==> !pre[j].Raise?
    ensures Before(pre + [Raise(e)] + post) == pre
    ensures Fails(Before(pre + [Raise(e)] + post)) == Fails(pre)
    ensures Escape(pre + [Raise(e)] + post) == Thrown(e)
  {
    BeforeAppend(pre, [Raise(e)] + post);
    assert pre + [Raise(e)] + post == pre + ([Raise(e)] + post);
  }
}
