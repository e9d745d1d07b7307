/**
 * BufferedLog of dheunit/internal/buffered-log.h: a stack of named sections over an
 * underlying Log. A section's name reaches the underlying log only when a line is
 * first written inside it, and its end only if it was announced.
 */
module BufferedLog {
  import opened LogBuffer

  /** A LogBuffer's state, as a value. */
  datatype Section = Section(name: string, announced: bool)

  /** One call made on a BufferedLog. */
  datatype Call = BeginCall(name: string) | WriteCall(line: string) | EndCall

  /** The begins for the sections not yet announced, outermost first. */
  function Headers(secs: seq<Section>): (ops: seq<Op>)
    ensures |ops| <= |secs|
    decreases |secs|
  {
    if secs == [] then []
    else (if secs[0].announced then [] else [Op.Begin(secs[0].name)]) + Headers(secs[1..])
  }

  function AnnounceAll(secs: seq<Section>): (r: seq<Section>)
    ensures |r| == |secs|
    ensures forall i :: 0 <= i < |r| ==> r[i] == Section(secs[i].name, true)
  {
    seq(|secs|, i requires 0 <= i < |secs| => Section(secs[i].name, true))
  }

  /** Number of announced sections. */
  function CountAnnounced(secs: seq<Section>): nat
    decreases |secs|
  {
    if secs == [] then 0 else (if secs[0].announced then 1 else 0) + CountAnnounced(secs[1..])
  }

  /** Announced sections form a bottom part of the stack. */
  predicate AnnouncedPrefix(secs: seq<Section>)
  {
    forall i, j :: 0 <= i < j < |secs| && secs[j].announced ==> secs[i].announced
  }

  /** The stack after a call, and what the call sent to the underlying log. */
  datatype Step = Step(sections: seq<Section>, ops: seq<Op>)

  /** The effect of one call; `write` and `end` need an open section (back() of an
      empty vector is undefined). */
  function Apply(secs: seq<Section>, c: Call): Step
    requires !c.BeginCall? ==> secs != []
  {
    match c
    case BeginCall(name) => Step(secs + [Section(name, false)], [])
    case WriteCall(line) => Step(AnnounceAll(secs), Headers(secs) + [Op.Write(line)])
    case EndCall => Step(secs[..|secs| - 1], if secs[|secs| - 1].announced then [Op.End] else [])
  }

  /** Every write and end happens while a section is open, starting from `height` open ones. */
  predicate Legal(height: nat, calls: seq<Call>)
    decreases |calls|
  {
    calls == [] ||
    match calls[0]
    case BeginCall(_) => Legal(height + 1, calls[1..])
    case WriteCall(_) => height > 0 && Legal(height, calls[1..])
    case EndCall => height > 0 && Legal(height - 1, calls[1..])
  }

  /** A run of calls: the final stack and everything sent to the underlying log. */
  function Replay(secs: seq<Section>, calls: seq<Call>): Step
    requires Legal(|secs|, calls)
    decreases |calls|
  {
    if calls == [] then Step(secs, [])
    else
      var first := Apply(secs, calls[0]);
      var rest := Replay(first.sections, calls[1..]);
      Step(rest.sections, first.ops + rest.ops)
  }

  lemma {:induction false} HeadersCount(secs: seq<Section>)
    ensures Opened(Headers(secs)) == |secs| - CountAnnounced(secs)
    decreases |secs|
  {
    if secs != [] {
      HeadersCount(secs[1..]);
      OpenedAppend(if secs[0].announced then [] else [Op.Begin(secs[0].name)], Headers(secs[1..]));
      assert Opened([Op.Begin(secs[0].name)]) == 1 by {
        assert [Op.Begin(secs[0].name)][..0] == [];
      }
    }
  }

  lemma {:induction false} AllAnnouncedCount(secs: seq<Section>)
    requires forall i :: 0 <= i < |secs| ==> secs[i].announced
    ensures CountAnnounced(secs) == |secs|
    decreases |secs|
  {
    if secs != [] { AllAnnouncedCount(secs[1..]); }
  }

  lemma {:induction false} CountAppend(a: seq<Section>, b: seq<Section>)
    ensures CountAnnounced(a + b) == CountAnnounced(a) + CountAnnounced(b)
    decreases |a|
  {
    if a == [] {
      assert a + b == b;
    } else {
      assert (a + b)[1..] == a[1..] + b;
      CountAppend(a[1..], b);
    }
  }

  /** Each call changes the underlying log's count of open sections by exactly the change
      in the number of announced sections on the stack. */
  lemma StepBalance(secs: seq<Section>, c: Call)
    requires !c.BeginCall? ==> secs != []
    ensures Opened(Apply(secs, c).ops) == CountAnnounced(Apply(secs, c).sections) - CountAnnounced(secs)
  {
    match c
    case BeginCall(name) =>
      CountAppend(secs, [Section(name, false)]);
    case WriteCall(line) =>
      HeadersCount(secs);
      AllAnnouncedCount(AnnounceAll(secs));
      OpenedAppend(Headers(secs), [Op.Write(line)]);
      assert Opened([Op.Write(line)]) == 0 by {
        assert [Op.Write(line)][..0] == [];
      }
    case EndCall =>
      var n := |secs| - 1;
      assert secs == secs[..n] + [secs[n]];
      CountAppend(secs[..n], [secs[n]]);
      assert Opened([Op.End]) == -1 by {
        assert [Op.End][..0] == [];
      }
  }

  /** Over any legal run, begins minus ends on the underlying log equals the growth in
      the number of announced open sections. */
  lemma {:induction false} ReplayBalance(secs: seq<Section>, calls: seq<Call>)
    requires Legal(|secs|, calls)
    ensures Opened(Replay(secs, calls).ops) == CountAnnounced(Replay(secs, calls).sections) - CountAnnounced(secs)
    decreases |calls|
  {
    if calls != [] {
      var first := Apply(secs, calls[0]);
      StepBalance(secs, calls[0]);
      ReplayBalance(first.sections, calls[1..]);
      OpenedAppend(first.ops, Replay(first.sections, calls[1..]).ops);
    }
  }

  /** Every call keeps the announced sections at the bottom of the stack. */
  lemma StepKeepsPrefix(secs: seq<Section>, c: Call)
    requires !c.BeginCall? ==> secs != []
    requires AnnouncedPrefix(secs)
    ensures AnnouncedPrefix(Apply(secs, c).sections)
  {
  }

  /** Sections opened and closed with no line written in between leave no trace on the
      underlying log: the stack below is untouched and nothing is sent. */
  lemma {:induction false} SilentRun(base: seq<Section>, secs: seq<Section>, calls: seq<Call>)
    requires |base| <= |secs| && secs[..|base|] == base
    requires forall i :: |base| <= i < |secs| ==> !secs[i].announced
    requires Legal(|secs| - |base|, calls)
    requires forall i :: 0 <= i < |calls| ==> !calls[i].WriteCall?
    ensures Legal(|secs|, calls)
    ensures Replay(secs, calls).ops == []
    ensures |base| <= |Replay(secs, calls).sections|
    ensures Replay(secs, calls).sections[..|base|] == base
    decreases |calls|
  {
    LegalRaise(|secs| - |base|, |base|, calls);
    if calls != [] {
      var next := Apply(secs, calls[0]).sections;
      if calls[0].BeginCall? {
        assert next[..|base|] == base;
      } else {
        assert calls[0].EndCall?;
        assert next[..|base|] == base;
      }
      SilentRun(base, next, calls[1..]);
    }
  }

  /** A run legal from some height stays legal from a higher one. */
  lemma {:induction false} LegalRaise(h: nat, extra: nat, calls: seq<Call>)
    requires Legal(h, calls)
    ensures Legal(h + extra, calls)
    decreases |calls|
  {
    if calls != [] {
      match calls[0]
      case BeginCall(_) => LegalRaise(h + 1, extra, calls[1..]);
      case WriteCall(_) => LegalRaise(h, extra, calls[1..]);
      case EndCall => LegalRaise(h - 1, extra, calls[1..]);
    }
  }

  /** A begin, a line and an end on an empty log: the header, the line and the end. */
  lemma OneLineSection(name: string, line: string)
    ensures Legal(0, [BeginCall(name), WriteCall(line), EndCall])
    ensures Replay([], [BeginCall(name), WriteCall(line), EndCall]).ops
         == [Op.Begin(name), Op.Write(line), Op.End]
  {
    var s1 := Apply([], BeginCall(name));
    var s2 := Apply(s1.sections, WriteCall(line));
    assert Headers([Section(name, false)]) == [Op.Begin(name)];
    assert s2.sections == [Section(name, true)];
    assert [BeginCall(name), WriteCall(line), EndCall][1..] == [WriteCall(line), EndCall];
    assert [WriteCall(line), EndCall][1..] == [EndCall];
    assert [EndCall][1..] == [];
    assert Legal(0, []);
    assert Legal(1, [EndCall]);
    assert Legal(1, [WriteCall(line), EndCall]);
    assert [Section(name, false)][1..] == [];
    assert Replay([], []) == Step([], []);
    assert Replay([Section(name, true)], [EndCall]).ops == [Op.End];
    assert Replay([Section(name, false)], [WriteCall(line), EndCall]).ops == [Op.Begin(name), Op.Write(line), Op.End];
  }

  class BufferedLog {
    const log: Trace
    var bufs: seq<LogBuffer>
    /** Begins minus ends the underlying log had already seen when this one was made. */
    ghost const mark: int

    ghost function Sections(): seq<Section>
      reads this, bufs
    {
      seq(|bufs|, i reads this, bufs requires 0 <= i < |bufs| => Section(bufs[i].name, bufs[i].announced))
    }

    ghost predicate Valid()
      reads this, bufs, log
    {
      && (forall i :: 0 <= i < |bufs| ==> bufs[i].log == log)
      && (forall i, j :: 0 <= i < j < |bufs| ==> bufs[i] != bufs[j])
      && AnnouncedPrefix(Sections())
      && Opened(log.ops) == mark + CountAnnounced(Sections())
    }

    constructor (log: Trace)
      ensures Valid() && this.log == log && bufs == [] && mark == Opened(log.ops)
    {
      this.log := log;
      bufs := [];
      mark := Opened(log.ops);
    }

    /** Only pushes a section: nothing reaches the underlying log. */
    method Begin(name: string)
      requires Valid()
      modifies this
      ensures Valid() && |bufs| == old(|bufs|) + 1 && bufs[..|bufs| - 1] == old(bufs) && fresh(bufs[|bufs| - 1])
      ensures Sections() == Apply(old(Sections()), BeginCall(name)).sections
      ensures log.ops == old(log.ops)
    {
      var b := new LogBuffer(name, log);
      bufs := bufs + [b];
      assert Sections() == old(Sections()) + [Section(name, false)];
      CountAppend(old(Sections()), [Section(name, false)]);
    }

    /** Announces every open section not yet announced, outermost first. */
    method AnnounceOpen()
      requires Valid()
      modifies bufs, log
      ensures Sections() == AnnounceAll(old(Sections()))
      ensures log.ops == old(log.ops) + Headers(old(Sections()))
    {
      ghost var secs := Sections();
      for i := 0 to |bufs|
        invariant forall j :: 0 <= j < i ==> bufs[j].announced
        invariant forall j :: i <= j < |bufs| ==> bufs[j].announced == secs[j].announced
        invariant log.ops == old(log.ops) + Headers(secs[..i])
      {
        bufs[i].Announce();
        HeadersSnoc(secs, i);
      }
      assert secs[..|bufs|] == secs;
    }

    /** Announces the open sections, then writes the line inside the innermost one. */
    method Write(line: string)
      requires Valid() && bufs != []
      modifies bufs, log
      ensures Valid()
      ensures Sections() == Apply(old(Sections()), WriteCall(line)).sections
      ensures log.ops == old(log.ops) + Apply(old(Sections()), WriteCall(line)).ops
    {
      ghost var secs := Sections();
      AnnounceOpen();
      bufs[|bufs| - 1].Write(line);
      StepBalance(secs, WriteCall(line));
      assert log.ops == old(log.ops) + Apply(secs, WriteCall(line)).ops;
      OpenedAppend(old(log.ops), Apply(secs, WriteCall(line)).ops);
    }

    /** Pops the top section, ending it on the underlying log only if it was announced. */
    method End()
      requires Valid() && bufs != []
      modifies this, log
      ensures Valid()
      ensures Sections() == Apply(old(Sections()), EndCall).sections
      ensures log.ops == old(log.ops) + Apply(old(Sections()), EndCall).ops
    {
      ghost var secs := Sections();
      var buf := bufs[|bufs| - 1];
      buf.Clean();
      bufs := bufs[..|bufs| - 1];
      assert Sections() == secs[..|secs| - 1];
      StepBalance(secs, EndCall);
      OpenedAppend(old(log.ops), Apply(secs, EndCall).ops);
    }
  }

  lemma HeadersSnoc(secs: seq<Section>, i: nat)
    requires i < |secs|
    ensures Headers(secs[..i + 1]) == Headers(secs[..i]) + (if secs[i].announced then [] else [Op.Begin(secs[i].name)])
  {
    HeadersAppend(secs[..i], [secs[i]]);
    assert secs[..i + 1] == secs[..i] + [secs[i]];
  }

  lemma {:induction false} HeadersAppend(a: seq<Section>, b: seq<Section>)
    ensures Headers(a + b) == Headers(a) + Headers(b)
    decreases |a|
  {
    if a == [] {
      assert a + b == b;
    } else {
      assert (a + b)[1..] == a[1..] + b;
      HeadersAppend(a[1..], b);
    }
  }
}
