/**
 * Logger of dheunit/logger.h: a thin front for a log that receives `record`,
 * `begin` and `end(bool)`. Lines are built with the formatter of the Format module.
 */
module Logger {
  import opened Wrappers
  import opened Format

  /** One call received by the log behind a Logger. */
  datatype Event = Began(name: string) | Recorded(line: string) | Ended(always: bool)

  /** A log that keeps every call it receives, in order. */
  class Sink {
    var events: seq<Event>

    constructor ()
      ensures events == []
    {
      events := [];
    }

    method Record(line: string)
      modifies this
      ensures events == old(events) + [Recorded(line)]
    {
      events := events + [Recorded(line)];
    }

    method Begin(name: string)
      modifies this
      ensures events == old(events) + [Began(name)]
    {
      events := events + [Began(name)];
    }

    method End(always: bool)
      modifies this
      ensures events == old(events) + [Ended(always)]
    {
      events := events + [Ended(always)];
    }
  }

  class Logger {
    const log: Sink

    constructor (log: Sink)
      ensures this.log == log
    {
      this.log := log;
    }

    /** Records exactly one line: the arguments joined by single spaces. */
    method Log(args: Args)
      modifies log
      ensures log.events == old(log.events) + [Recorded(Join(args))]
    {
      var line := Write(args);
      log.Record(line);
    }

    /** Records exactly one formatted line, or nothing when the format is rejected;
        the FormatError then escapes to the caller. */
    method Logf(format: string, args: seq<string>) returns (outcome: Outcome)
      modifies log
      ensures outcome == Format.Outcome(Formatted(Some(format), args))
      ensures log.events == old(log.events) +
        (if outcome.Normal? then [Recorded(Formatted(Some(format), args).text)] else [])
    {
      var line, err := Writef(Some(format), args);
      if err.Some? {
        return Thrown(StdException(What(err.value)));
      }
      log.Record(line);
      outcome := Normal;
    }

    method Begin(name: string)
      modifies log
      ensures log.events == old(log.events) + [Began(name)]
    {
      log.Begin(name);
    }

    method End(always: bool)
      modifies log
      ensures log.events == old(log.events) + [Ended(always)]
    {
      log.End(always);
    }
  }
}
