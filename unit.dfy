/**
 * The value types of include/dheunit.h: LogEntry, which builds one log line with the
 * formatter, and TestID and Result, which name and report a test.
 */
module Unit {
  import opened Wrappers
  import opened Format
  import Strings

  /** Accumulates one log entry from one or more writes. */
  class LogEntry {
    var os: string

    constructor ()
      ensures os == ""
    {
      os := "";
    }

    /** Appends the arguments separated by single spaces. */
    method Write(args: Args)
      modifies this
      ensures os == old(os) + Join(args)
    {
      var text := Format.Write(args);
      os := os + text;
    }

    /** Appends the formatted text; on a FormatError the characters already written
        stay in the entry and the error escapes. */
    method Writef(f: Option<string>, args: seq<string>) returns (outcome: Outcome)
      modifies this
      ensures os == old(os) + Formatted(f, args).text
      ensures outcome == Format.Outcome(Formatted(f, args))
    {
      var text, err := Format.Writef(f, args);
      os := os + text;
      outcome := if err.Some? then Thrown(StdException(What(err.value))) else Normal;
    }

    method Str() returns (s: string)
      ensures s == os
    {
      s := os;
    }
  }

  datatype TestID = TestID(suiteName: string, testName: string)

  /** `TestID::operator<`: by suite name, then by test name, with std::string's `<`. */
  predicate Less(a: TestID, b: TestID)
  {
    if Strings.Less(a.suiteName, b.suiteName) then true
    else if Strings.Less(b.suiteName, a.suiteName) then false
    else Strings.Less(a.testName, b.testName)
  }

  /** The comparison is the lexicographic order on (suite name, test name). */
  lemma LessIsLexicographic(a: TestID, b: TestID)
    ensures Less(a, b) <==>
      Strings.Less(a.suiteName, b.suiteName) ||
      (a.suiteName == b.suiteName && Strings.Less(a.testName, b.testName))
  {
    if !Strings.Less(a.suiteName, b.suiteName) && !Strings.Less(b.suiteName, a.suiteName) {
      Strings.Trichotomy(a.suiteName, b.suiteName);
    } else if Strings.Less(a.suiteName, b.suiteName) {
    } else {
      Strings.Irreflexive(a.suiteName);
    }
  }

  lemma LessIrreflexive(a: TestID)
    ensures !Less(a, a)
  {
    Strings.Irreflexive(a.suiteName);
    Strings.Irreflexive(a.testName);
  }

  lemma LessTransitive(a: TestID, b: TestID, c: TestID)
    requires Less(a, b) && Less(b, c)
    ensures Less(a, c)
  {
    LessIsLexicographic(a, b);
    LessIsLexicographic(b, c);
    LessIsLexicographic(a, c);
    if Strings.Less(a.suiteName, b.suiteName) && Strings.Less(b.suiteName, c.suiteName) {
      Strings.Transitive(a.suiteName, b.suiteName, c.suiteName);
    } else if a.suiteName == b.suiteName && b.suiteName == c.suiteName {
      Strings.Transitive(a.testName, b.testName, c.testName);
    }
  }

  /** Two different ids are always ordered one way or the other. */
  lemma LessTotal(a: TestID, b: TestID)
    requires a != b
    ensures Less(a, b) || Less(b, a)
  {
    LessIsLexicographic(a, b);
    LessIsLexicographic(b, a);
    if a.suiteName != b.suiteName {
      Strings.Total(a.suiteName, b.suiteName);
    } else {
      Strings.Total(a.testName, b.testName);
    }
  }

  /** A test's id, whether it passed, and its log; the accessors are the fields. */
  datatype Result = Result(id: TestID, passed: bool, log: seq<string>)
  {
    function SuiteName(): string
    {
      id.suiteName
    }

    function TestName(): string
    {
      id.testName
    }
  }
}
