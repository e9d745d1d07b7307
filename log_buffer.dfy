/**
 * The section log of dheunit/log.h (begin / write / end), seen from outside as the
 * sequence of calls it receives, and the LogBuffer of dheunit/internal/log-buffer.h
 * and dheunit/internal/buffered-log.h: one named section that announces itself to
 * the underlying log at most once.
 */
module LogBuffer {

  /** One call received by a Log. */
  datatype Op = Begin(name: string) | Write(line: string) | End

  /** A Log that keeps every call it receives, in order. */
  class Trace {
    var ops: seq<Op>

    constructor ()
      ensures ops == []
    {
      ops := [];
    }

    method Begin(name: string)
      modifies this
      ensures ops == old(ops) + [Op.Begin(name)]
    {
      ops := ops + [Op.Begin(name)];
    }

    method Write(line: string)
      modifies this
      ensures ops == old(ops) + [Op.Write(line)]
    {
      ops := ops + [Op.Write(line)];
    }

    method End()
      modifies this
      ensures ops == old(ops) + [Op.End]
    {
      ops := ops + [Op.End];
    }
  }

  /** How one call changes the number of open sections. */
  function Delta(op: Op): int
  {
    match op
    case Begin(_) => 1
    case Write(_) => 0
    case End => -1
  }

  /** Number of sections a run of calls leaves open: begins minus ends. */
  function Opened(ops: seq<Op>): int
    decreases |ops|
  {
    if ops == [] then 0 else Delta(ops[0]) + Opened(ops[1..])
  }

  lemma {:induction false} OpenedAppend(a: seq<Op>, b: seq<Op>)
    ensures Opened(a + b) == Opened(a) + Opened(b)
    decreases |a|
  {
    if a == [] {
      assert a + b == b;
    } else {
      assert (a + b)[0] == a[0] && (a + b)[1..] == a[1..] + b;
      OpenedAppend(a[1..], b);
    }
  }

  class LogBuffer {
    const name: string
    const log: Trace
    var announced: bool

    /** A new buffer starts unannounced. */
    constructor (name: string, log: Trace)
      ensures this.name == name && this.log == log && !announced
    {
      this.name := name;
      this.log := log;
      announced := false;
    }

    /** Begins the section on the log the first time only; `announced` never reverts. */
    method Announce()
      modifies this, log
      ensures announced
      ensures log.ops == old(log.ops) + (if old(announced) then [] else [Op.Begin(name)])
    {
      if announced {
        return;
      }
      log.Begin(name);
      announced := true;
    }

    /** Forwards the line; it does not announce the section. */
    method Write(line: string)
      modifies log
      ensures log.ops == old(log.ops) + [Op.Write(line)]
    {
      log.Write(line);
    }

    /** Ends the section on the log if and only if it was announced. */
    method Clean()
      modifies log
      ensures log.ops == old(log.ops) + (if announced then [Op.End] else [])
    {
      if announced {
        log.End();
      }
    }
  }

  /** Announcing twice has the effect of announcing once. */
  method AnnounceTwice(b: LogBuffer)
    modifies b, b.log
    ensures b.announced
    ensures b.log.ops == old(b.log.ops) + (if old(b.announced) then [] else [Op.Begin(b.name)])
  {
    b.Announce();
    b.Announce();
  }
}
