/**
 * The Tester of dheunit/test.h: a test's handle for logging and reporting failure.
 * Every Tester writes to one shared stream, each line indented four spaces per
 * ancestor; failing a Tester fails all its ancestors; a subtest runs on a child Tester
 * and no exception escapes it.
 *
 * A test body is a script of Tester calls (Action). The spec functions Perform and
 * Script give what a call or a script writes, whether it calls `fail` on the Tester
 * (which then fails the whole chain up to the root), and how it ends.
 */
module Tester {
  import opened Wrappers
  import opened Format
  import Assertions
  import opened StreamLog

  /** A call a test body makes on its Tester, or an exception the body throws. */
  datatype Action =
    | Log(args: Args)
    | Error(args: Args)
    | Fatal(args: Args)
    | Logf(format: string, fargs: seq<string>)
    | Errorf(format: string, fargs: seq<string>)
    | Fatalf(format: string, fargs: seq<string>)
    | Fail
    | FailNow
    | AssertThat(context: Option<string>, check: Assertions.Check)
    | AssertThatF(context: Option<string>, check: Assertions.Check)
    | Run(name: string, body: seq<Action>)
    | Raise(e: Exception)

  /** What a call does: the text it writes, whether it calls `fail` on its Tester, and
      how it ends. */
  datatype Effect = Effect(text: string, called: bool, outcome: Outcome)

  const Quiet := Effect("", false, Normal)

  function Size(a: Action): (n: nat)
    ensures n >= 1
    decreases a
  {
    match a
    case Run(_, body) => 2 + SizeAll(body)
    case AssertThat(context, _) => if context.None? then 2 else 3
    case AssertThatF(context, _) => if context.None? then 3 else 4
    case _ => 1
  }

  function SizeAll(body: seq<Action>): nat
    decreases body
  {
    if body == [] then 0 else Size(body[0]) + SizeAll(body[1..])
  }

  /** `log(args...)` at the given depth. */
  function LogText(depth: nat, args: Args): string
  {
    Line(depth, Join(args))
  }

  /** `logf(format, args...)` at the given depth: `writef` on the prefixed format, then a
      newline unless `writef` threw. */
  function LogfEffect(depth: nat, format: string, args: seq<string>): Effect
  {
    var w := Formatted(Some(Indent(depth) + format), args);
    Effect(w.text + (if w.error.None? then "\n" else ""), false, Format.Outcome(w))
  }

  /** A call followed by `fail()` (stop: `fail_now()`), which is not reached if the call threw. */
  function Failing(e: Effect, stop: bool): Effect
  {
    if e.outcome.Thrown? then e
    else Effect(e.text, true, if stop then Thrown(FailNowSignal) else Normal)
  }

  /** A call made on a new child Tester named `context`, which logs its name first. */
  function Within(depth: nat, context: string, k: Effect): Effect
  {
    Effect(Line(depth + 1, context) + k.text, k.called, k.outcome)
  }

  /** One call on a Tester at `depth` whose `failed()` is `failed`. */
  function Perform(depth: nat, failed: bool, a: Action): Effect
    decreases Size(a), 0
  {
    match a
    case Log(args) => Effect(LogText(depth, args), false, Normal)
    case Error(args) => Failing(Effect(LogText(depth, args), false, Normal), false)
    case Fatal(args) => Failing(Effect(LogText(depth, args), false, Normal), true)
    case Logf(f, xs) => LogfEffect(depth, f, xs)
    case Errorf(f, xs) => Failing(LogfEffect(depth, f, xs), false)
    case Fatalf(f, xs) => Failing(LogfEffect(depth, f, xs), true)
    case Fail => Failing(Quiet, false)
    case FailNow => Failing(Quiet, true)
    case AssertThat(None, c) => Asserted(depth, failed, c)
    case AssertThat(Some(ctx), c) => Within(depth, ctx, Perform(depth + 1, false, AssertThat(None, c)))
    case AssertThatF(None, c) =>
      var k := Perform(depth, failed, AssertThat(None, c));
      if k.outcome.Normal? && (failed || k.called) then Failing(k, true) else k
    case AssertThatF(Some(ctx), c) => Within(depth, ctx, Perform(depth + 1, false, AssertThatF(None, c)))
    case Run(name, body) => Subtest(depth, name, body)
    case Raise(e) => Effect("", false, Thrown(e))
  }

  /** `assertion(t, subject)`: the assertion's closure makes at most one `errorf` or
      `error` call on the Tester. */
  function Asserted(depth: nat, failed: bool, c: Assertions.Check): Effect
    decreases 1, 1
  {
    match Assertions.Verdict(c)
    case None => Quiet
    case Some(Errorf(f, xs)) => Perform(depth, failed, Errorf(f, xs))
    case Some(Error(m)) => Perform(depth, failed, Error([m]))
  }

  /** A body run on a Tester at `depth` until its end or until an exception escapes. */
  function Script(depth: nat, failed: bool, body: seq<Action>): Effect
    decreases SizeAll(body), 1
  {
    if body == [] then Quiet
    else
      var e := Perform(depth, failed, body[0]);
      if e.outcome.Thrown? then e
      else
        var rest := Script(depth, failed || e.called, body[1..]);
        Effect(e.text + rest.text, e.called || rest.called, rest.outcome)
  }

  /** `run(name, test)`: a child Tester logs its name and runs the body, and its
      handlers deal with whatever escapes. */
  function Subtest(depth: nat, name: string, body: seq<Action>): Effect
    decreases SizeAll(body) + 1, 2
  {
    var s := Script(depth + 1, false, body);
    var h := Handled(depth + 1, s.called, s.outcome);
    Effect(Line(depth + 1, name) + s.text + h.text, s.called || h.called, Normal)
  }

  /** The handlers of `run`, on the child Tester: fail_now's signal is swallowed, any other
      exception is reported with `error`. */
  function Handled(depth: nat, failed: bool, outcome: Outcome): Effect
    decreases 1, 1
  {
    if outcome.Thrown? && outcome.e != FailNowSignal then Perform(depth, failed, Error(Complaint(outcome.e)))
    else Quiet
  }

  /** Running a body in two parts: the second part starts from the failed state the first
      left, and does not run if the first threw. */
  lemma {:induction false} ScriptAppend(depth: nat, failed: bool, a: seq<Action>, b: seq<Action>)
    ensures var s := Script(depth, failed, a);
            var t := Script(depth, failed || s.called, b);
            Script(depth, failed, a + b) ==
              if s.outcome.Thrown? then s else Effect(s.text + t.text, s.called || t.called, t.outcome)
    decreases |a|
  {
    if a == [] {
      assert a + b == b;
    } else {
      assert (a + b)[0] == a[0] && (a + b)[1..] == a[1..] + b;
      var e := Perform(depth, failed, a[0]);
      if !e.outcome.Thrown? {
        var f := failed || e.called;
        var s := Script(depth, f, a[1..]);
        var t := Script(depth, f || s.called, b);
        ScriptAppend(depth, f, a[1..], b);
        Associates(e.text, s.text, t.text);
      }
    }
  }

  /** A Tester's own calls and a failing check's errorf never leave the prefix out of
      the format: `logf` behaves as `writef` on the bare format, indented. */
  lemma LogfIndents(depth: nat, format: string, args: seq<string>)
    ensures var w := Formatted(Some(format), args);
            LogfEffect(depth, format, args) ==
              Effect(Indent(depth) + w.text + (if w.error.None? then "\n" else ""), false, Format.Outcome(w))
  {
    IndentIsSpaces(depth);
    RenderAfterPlainPrefix(Indent(depth), format, args);
  }

  /** The line a failing check logs. */
  function Says(c: Assertions.Check): string
  {
    match c
    case Compare(actual, a) => Assertions.Expected(actual, a)
    case IsTrue(_) => "was false, want true"
    case IsFalse(_) => "was true, want false"
  }

  /** A failing comparison's errorf logs exactly the expected line and fails the Tester. */
  lemma ComparisonComplaint(depth: nat, failed: bool, actual: int, a: Assertions.Assertion)
    ensures Perform(depth, failed, Errorf(Assertions.FormatOf(a), Assertions.Arguments(actual, a))) ==
      Effect(Line(depth, Assertions.Expected(actual, a)), true, Normal)
  {
    LogfIndents(depth, Assertions.FormatOf(a), Assertions.Arguments(actual, a));
    Assertions.ComplaintFormats(actual, a);
  }

  /** A check either does nothing, or logs exactly one line at the Tester's indent and
      fails the Tester; it never throws. */
  lemma AssertedLogsOneLine(depth: nat, failed: bool, c: Assertions.Check)
    ensures Perform(depth, failed, AssertThat(None, c)) ==
      if Assertions.Verdict(c).None? then Quiet else Effect(Line(depth, Says(c)), true, Normal)
  {
    match c
    case Compare(actual, a) =>
      if Assertions.Fails(actual, a) {
        var f, xs := Assertions.FormatOf(a), Assertions.Arguments(actual, a);
        assert Assertions.Verdict(c) == Some(Assertions.Errorf(f, xs));
        assert Perform(depth, failed, AssertThat(None, c)) == Perform(depth, failed, Errorf(f, xs));
        ComparisonComplaint(depth, failed, actual, a);
      }
    case IsTrue(v) =>
    case IsFalse(v) =>
  }

  /** assert_that_f without a context stops the test whenever the Tester has failed, even
      if the check itself passes. */
  lemma AssertThatFStops(depth: nat, failed: bool, c: Assertions.Check)
    ensures Perform(depth, failed, AssertThatF(None, c)).outcome ==
      if failed || Assertions.Verdict(c).Some? then Thrown(FailNowSignal) else Normal
  {
    AssertedLogsOneLine(depth, failed, c);
  }

  /** With a context, assert_that_f asks a fresh child Tester, so only the check's own
      failure fails and stops the test. */
  lemma AssertThatFInContextStops(depth: nat, failed: bool, context: string, c: Assertions.Check)
    ensures Perform(depth, failed, AssertThatF(Some(context), c)).outcome ==
      if Assertions.Verdict(c).Some? then Thrown(FailNowSignal) else Normal
    ensures Perform(depth, failed, AssertThatF(Some(context), c)).called <==> Assertions.Verdict(c).Some?
  {
    AssertedLogsOneLine(depth + 1, false, c);
  }

  /** A failing check under a context logs the context one level in and the complaint
      at that same level, under the context line, and does not stop the test. */
  lemma AssertThatInContext(depth: nat, failed: bool, context: string, c: Assertions.Check)
    requires Assertions.Verdict(c).Some?
    ensures Perform(depth, failed, AssertThat(Some(context), c)) ==
      Effect(Line(depth + 1, context) + Line(depth + 1, Says(c)), true, Normal)
  {
    AssertedLogsOneLine(depth + 1, false, c);
  }

  /** `fatal` logs its line, fails the Tester and ends the test: nothing after it runs. */
  lemma {:induction false} FatalEndsScript(depth: nat, failed: bool, pre: seq<Action>, args: Args, post: seq<Action>)
    requires Script(depth, failed, pre).outcome == Normal
    ensures Script(depth, failed, pre + [Fatal(args)] + post) ==
      Effect(Script(depth, failed, pre).text + Line(depth, Join(args)), true, Thrown(FailNowSignal))
  {
    var s := Script(depth, failed, pre);
    ScriptAppend(depth, failed, pre, [Fatal(args)] + post);
    assert pre + [Fatal(args)] + post == pre + ([Fatal(args)] + post);
    assert ([Fatal(args)] + post)[0] == Fatal(args);
  }

  /** A subtest that calls fail_now ends there, and the parent goes on with its next
      statement, failed. */
  lemma {:induction false} ParentContinuesAfterFailNow(depth: nat, failed: bool, name: string,
                                                     pre: seq<Action>, post: seq<Action>, rest: seq<Action>)
    requires Script(depth + 1, false, pre).outcome == Normal
    ensures var r := Script(depth, true, rest);
            Script(depth, failed, [Run(name, pre + [FailNow] + post)] + rest) ==
              Effect(Line(depth + 1, name) + Script(depth + 1, false, pre).text + r.text, true, r.outcome)
  {
    var body := pre + [FailNow] + post;
    ScriptAppend(depth + 1, false, pre, [FailNow] + post);
    assert body == pre + ([FailNow] + post);
    assert ([FailNow] + post)[0] == FailNow;
    var p := Script(depth + 1, false, pre);
    assert Script(depth + 1, p.called, [FailNow] + post) == Effect("", true, Thrown(FailNowSignal));
    assert p.text + "" == p.text;
    var s := Script(depth + 1, false, body);
    assert s == Effect(p.text, true, Thrown(FailNowSignal));
    assert Handled(depth + 1, true, s.outcome) == Quiet;
    assert Line(depth + 1, name) + p.text + "" == Line(depth + 1, name) + p.text;
    assert Perform(depth, failed, Run(name, body)) == Effect(Line(depth + 1, name) + p.text, true, Normal);
    var all := [Run(name, body)] + rest;
    assert all[0] == Run(name, body) && all[1..] == rest;
  }

  /** Any exception other than fail_now's signal escaping a subtest body is caught by
      `run`, logged one level in, and fails the subtest; `run` itself never throws. */
  lemma {:induction false} SubtestCatches(depth: nat, failed: bool, name: string,
                                         pre: seq<Action>, e: Exception, post: seq<Action>)
    requires e != FailNowSignal && Script(depth + 1, false, pre).outcome == Normal
    ensures Perform(depth, failed, Run(name, pre + [Raise(e)] + post)) ==
      Effect(Line(depth + 1, name) + Script(depth + 1, false, pre).text + Line(depth + 1, Join(Complaint(e))),
             true, Normal)
  {
    var p := Script(depth + 1, false, pre);
    ScriptAppend(depth + 1, false, pre, [Raise(e)] + post);
    assert pre + [Raise(e)] + post == pre + ([Raise(e)] + post);
    assert ([Raise(e)] + post)[0] == Raise(e);
    assert Script(depth + 1, p.called, [Raise(e)] + post) == Effect("", false, Thrown(e));
    assert p.text + "" == p.text;
    assert Script(depth + 1, false, pre + [Raise(e)] + post) == Effect(p.text, p.called, Thrown(e));
    assert Handled(depth + 1, p.called, Thrown(e)) == Effect(Line(depth + 1, Join(Complaint(e))), true, Normal);
  }

  /** No exception escapes `run`, and the subtest fails exactly when its body called
      fail or threw something other than fail_now's signal. */
  lemma SubtestNeverThrows(depth: nat, failed: bool, name: string, body: seq<Action>)
    ensures var s := Script(depth + 1, false, body);
            var p := Perform(depth, failed, Run(name, body));
            p.outcome == Normal &&
            (p.called <==> s.called || (s.outcome.Thrown? && s.outcome.e != FailNowSignal))
  {
    var s := Script(depth + 1, false, body);
    if s.outcome.Thrown? && s.outcome.e != FailNowSignal {
      assert Handled(depth + 1, s.called, s.outcome).called;
    } else {
      assert Handled(depth + 1, s.called, s.outcome) == Quiet;
    }
  }

  /** The stream all Testers of one run write to. */
  class Stream {
    var text: string

    constructor ()
      ensures text == ""
    {
      text := "";
    }
  }

  class Tester {
    const parent: Tester?
    const name: string
    const out: Stream
    /** Number of ancestors. */
    ghost const depth: nat
    var failed: bool

    /** The ancestors of this Tester. */
    ghost const above: set<Tester>

    /** The parent chain ends at a root, one level per link, all on one stream. */
    ghost predicate Valid()
      decreases depth
    {
      (forall t :: t in above ==> t.out == out && t.depth < depth) &&
      (parent == null ==> depth == 0 && above == {}) &&
      (parent != null ==>
         parent.depth + 1 == depth && parent.out == out && above == {parent} + parent.above && parent.Valid())
    }

    /** This Tester and all its ancestors: the Testers `fail` marks. */
    ghost function Chain(): set<Tester>
    {
      {this} + above
    }

    /** What a call did: appended `e.text` to the stream, ended as `e.outcome`, and left
        every Tester of the chain failed if it was or if `e.called`. */
    twostate predicate Performed(e: Effect, outcome: Outcome)
      requires Valid()
      reads out, Chain()
    {
      out.text == old(out.text) + e.text && outcome == e.outcome &&
      forall t :: t in Chain() ==> t.failed == (old(t.failed) || e.called)
    }

    /** Four spaces per ancestor. */
    function Prefix(): (r: string)
      requires Valid()
      ensures r == Indent(depth)
      decreases depth
    {
      if parent == null then ""
      else
        IndentSucc(parent.depth);
        parent.Prefix() + "    "
    }

    /** A root Tester; it logs its own name. */
    constructor (name: string, out: Stream)
      modifies out
      ensures Valid() && parent == null && depth == 0 && this.name == name && this.out == out && !failed
      ensures out.text == old(out.text) + Line(0, name)
    {
      parent := null;
      this.name := name;
      this.out := out;
      depth := 0;
      above := {};
      failed := false;
      new;
      Log([name]);
    }

    /** A child Tester on the parent's stream; it logs its own name one level in. */
    constructor Child(parent: Tester, name: string)
      requires parent.Valid()
      modifies parent.out
      ensures Valid() && this.parent == parent && depth == parent.depth + 1 && this.name == name
      ensures out == parent.out && !failed && Chain() == {this} + parent.Chain()
      ensures out.text == old(parent.out.text) + Line(depth, name)
    {
      this.parent := parent;
      this.name := name;
      out := parent.out;
      depth := parent.depth + 1;
      above := {parent} + parent.above;
      failed := false;
      new;
      Log([name]);
    }

    method Log(args: Args)
      requires Valid()
      modifies out
      ensures Performed(Perform(depth, old(failed), Action.Log(args)), Normal)
    {
      var line := Format.Write(args);
      var text := Prefix() + line + "\n";
      assert text == LogText(depth, args);
      out.text := out.text + text;
    }

    /** Marks this Tester and every ancestor failed. */
    method Fail()
      requires Valid()
      modifies Chain()
      ensures Performed(Perform(depth, old(failed), Action.Fail), Normal)
      decreases depth
    {
      failed := true;
      if parent != null {
        parent.Fail();
      }
    }

    method FailNow() returns (outcome: Outcome)
      requires Valid()
      modifies Chain()
      ensures Performed(Perform(depth, old(failed), Action.FailNow), outcome)
    {
      Fail();
      outcome := Thrown(FailNowSignal);
    }

    method Error(args: Args)
      requires Valid()
      modifies out, Chain()
      ensures Performed(Perform(depth, old(failed), Action.Error(args)), Normal)
    {
      Log(args);
      Fail();
    }

    method Fatal(args: Args) returns (outcome: Outcome)
      requires Valid()
      modifies out, Chain()
      ensures Performed(Perform(depth, old(failed), Action.Fatal(args)), outcome)
    {
      Log(args);
      outcome := FailNow();
    }

    /** What `writef` put on the stream stays there when it throws. */
    method Logf(format: string, args: seq<string>) returns (outcome: Outcome)
      requires Valid()
      modifies out
      ensures Performed(Perform(depth, old(failed), Action.Logf(format, args)), outcome)
    {
      var emitted, err := Format.Writef(Some(Prefix() + format), args);
      out.text := out.text + emitted;
      if err.Some? {
        return Thrown(StdException(What(err.value)));
      }
      out.text := out.text + "\n";
      outcome := Normal;
    }

    method Errorf(format: string, args: seq<string>) returns (outcome: Outcome)
      requires Valid()
      modifies out, Chain()
      ensures Performed(Perform(depth, old(failed), Action.Errorf(format, args)), outcome)
    {
      outcome := Logf(format, args);
      if outcome.Thrown? {
        return;
      }
      Fail();
    }

    method Fatalf(format: string, args: seq<string>) returns (outcome: Outcome)
      requires Valid()
      modifies out, Chain()
      ensures Performed(Perform(depth, old(failed), Action.Fatalf(format, args)), outcome)
    {
      outcome := Logf(format, args);
      if outcome.Thrown? {
        return;
      }
      outcome := FailNow();
    }

    /** `assert_that(subject, assertion)`: `assertion(*this, subject)`. */
    method AssertThat(c: Assertions.Check) returns (outcome: Outcome)
      requires Valid()
      modifies out, Chain()
      ensures Performed(Perform(depth, old(failed), Action.AssertThat(None, c)), outcome)
    {
      match Assertions.Verdict(c)
      case None =>
        outcome := Normal;
      case Some(Errorf(f, xs)) =>
        outcome := Errorf(f, xs);
      case Some(Error(m)) =>
        Error([m]);
        outcome := Normal;
    }

    /** `assert_that(context, subject, assertion)`: the assertion runs on a child Tester
        named `context`. */
    method AssertThatIn(context: string, c: Assertions.Check) returns (outcome: Outcome)
      requires Valid()
      modifies out, Chain()
      ensures Performed(Within(depth, context, Perform(depth + 1, false, Action.AssertThat(None, c))), outcome)
    {
      ghost var k := Perform(depth + 1, false, Action.AssertThat(None, c));
      ghost var e := Within(depth, context, k);
      var t := new Tester.Child(this, context);
      assert t.Chain() == {t} + Chain();
      ghost var mid := out.text;
      assert mid == old(out.text) + Line(depth + 1, context);
      outcome := t.AssertThat(c);
      assert out.text == mid + k.text && outcome == k.outcome;
      assert out.text == old(out.text) + e.text;
      assert forall s :: s in Chain() ==> s.failed == (old(s.failed) || e.called);
    }

    /** `assert_that_f(subject, assertion)`: the assertion, then `fail_now()` if this
        Tester has failed. */
    method AssertThatF(c: Assertions.Check) returns (outcome: Outcome)
      requires Valid()
      modifies out, Chain()
      ensures Performed(Perform(depth, old(failed), Action.AssertThatF(None, c)), outcome)
    {
      outcome := AssertThat(c);
      if outcome.Normal? && failed {
        outcome := FailNow();
      }
    }

    /** `assert_that_f(context, subject, assertion)`: `assert_that_f` on a child Tester
        named `context`, whose fail_now propagates out of this call. */
    method AssertThatFIn(context: string, c: Assertions.Check) returns (outcome: Outcome)
      requires Valid()
      modifies out, Chain()
      ensures Performed(Within(depth, context, Perform(depth + 1, false, Action.AssertThatF(None, c))), outcome)
    {
      ghost var k := Perform(depth + 1, false, Action.AssertThatF(None, c));
      ghost var e := Within(depth, context, k);
      var t := new Tester.Child(this, context);
      assert t.Chain() == {t} + Chain();
      ghost var mid := out.text;
      assert mid == old(out.text) + Line(depth + 1, context);
      outcome := t.AssertThatF(c);
      assert out.text == mid + k.text && outcome == k.outcome;
      assert out.text == old(out.text) + e.text;
      assert forall s :: s in Chain() ==> s.failed == (old(s.failed) || e.called);
    }

    /** `run(name, test)`. */
    method RunSubtest(name: string, body: seq<Action>)
      requires Valid()
      modifies out, Chain()
      ensures Performed(Perform(depth, old(failed), Action.Run(name, body)), Normal)
      decreases SizeAll(body) + 1, 2
    {
      ghost var s := Script(depth + 1, false, body);
      ghost var before := out.text;
      var t := new Tester.Child(this, name);
      ghost var mid := out.text;
      var outcome := t.Exec(body);
      assert out.text == mid + s.text && outcome == s.outcome;
      ghost var h := Handled(depth + 1, s.called, s.outcome);
      t.Handle(outcome);
      Associates(before, Line(depth + 1, name), s.text);
      Associates(before, Line(depth + 1, name) + s.text, h.text);
    }

    /** The catch clauses of `run`, on the child Tester that ran the body. */
    method Handle(outcome: Outcome)
      requires Valid()
      modifies out, Chain()
      ensures Performed(Handled(depth, old(failed), outcome), Normal)
    {
      if outcome.Thrown? && outcome.e != FailNowSignal {
        Error(Complaint(outcome.e));
      }
    }

    /** Runs a test body on this Tester. */
    method Exec(body: seq<Action>) returns (outcome: Outcome)
      requires Valid()
      modifies out, Chain()
      ensures Performed(Script(depth, old(failed), body), outcome)
      decreases SizeAll(body), 1
    {
      if body == [] {
        return Normal;
      }
      outcome := Do(body[0]);
      if outcome.Thrown? {
        return;
      }
      outcome := Exec(body[1..]);
    }

    /** One statement of a test body. */
    method Do(a: Action) returns (outcome: Outcome)
      requires Valid()
      modifies out, Chain()
      ensures Performed(Perform(depth, old(failed), a), outcome)
      decreases Size(a), 0
    {
      match a
      case Log(args) =>
        Log(args);
        outcome := Normal;
      case Error(args) =>
        Error(args);
        outcome := Normal;
      case Fatal(args) =>
        outcome := Fatal(args);
      case Logf(f, xs) =>
        outcome := Logf(f, xs);
      case Errorf(f, xs) =>
        outcome := Errorf(f, xs);
      case Fatalf(f, xs) =>
        outcome := Fatalf(f, xs);
      case Fail =>
        Fail();
        outcome := Normal;
      case FailNow =>
        outcome := FailNow();
      case AssertThat(None, c) =>
        outcome := AssertThat(c);
      case AssertThat(Some(ctx), c) =>
        outcome := AssertThatIn(ctx, c);
      case AssertThatF(None, c) =>
        outcome := AssertThatF(c);
      case AssertThatF(Some(ctx), c) =>
        outcome := AssertThatFIn(ctx, c);
      case Run(name, body) =>
        RunSubtest(name, body);
        outcome := Normal;
      case Raise(e) =>
        outcome := Thrown(e);
    }
  }
}
