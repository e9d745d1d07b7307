/**
 * The log-line formatter: `write` (space join) and `writef` ({}-anchor substitution)
 * of dheunit/format.h. dheunit/logger.h and LogEntry in include/dheunit.h repeat the same
 * code character for character; they use the members defined here.
 *
 * Arguments are modelled as already-rendered strings. A `char const *` format is an
 * Option<string>: None is the null pointer, and the walk reads a '\0' past the last
 * character (the terminator), so it also stops at an embedded NUL.
 */
module Format {
  import opened Wrappers

  /** A variadic argument pack of `write`: it has no zero-argument overload. */
  type Args = a: seq<string> | |a| > 0 witness [""]

  datatype FormatError = NullFormat | NotEnoughArguments | TooManyArguments

  /** The what() text of each FormatError. */
  function What(e: FormatError): string
  {
    match e
    case NullFormat => "Log format error: null format"
    case NotEnoughArguments => "Log format error: not enough arguments"
    case TooManyArguments => "Log format error: too many arguments"
  }

  /** What a `writef` call leaves behind: the characters it put on the stream,
      and the FormatError it raised, if any. Nothing written is rolled back. */
  datatype Written = Written(text: string, error: Option<FormatError>)

  /** How the `writef` call ends: a FormatError is a std::runtime_error carrying What(). */
  function Outcome(w: Written): Outcome
  {
    match w.error
    case None => Normal
    case Some(e) => Thrown(StdException(What(e)))
  }

  function Prepend(p: string, w: Written): Written
  {
    Written(p + w.text, w.error)
  }

  /** `f[i]` for a NUL-terminated character array holding `s`. */
  function At(s: string, i: nat): char
  {
    if i < |s| then s[i] else '\0'
  }

  predicate AnchorAt(s: string, i: nat)
  {
    At(s, i) == '{' && At(s, i + 1) == '}'
  }

  /** What `writef(out, f, args...)` writes and raises, with the format pointer
      at the start of `f`; `format + 2` is `f[2..]`. */
  function Render(f: string, args: seq<string>): Written
    decreases |f|
  {
    if At(f, 0) == '\0' then
      Written("", if args == [] then None else Some(TooManyArguments))
    else if AnchorAt(f, 0) then
      if args == [] then Written("", Some(NotEnoughArguments))
      else Prepend(args[0], Render(f[2..], args[1..]))
    else
      Prepend([f[0]], Render(f[1..], args))
  }

  /** Both `writef` overloads: a null format fails before anything is written. */
  function Formatted(format: Option<string>, args: seq<string>): Written
  {
    match format
    case None => Written("", Some(NullFormat))
    case Some(f) => Render(f, args)
  }

  /** `writef(out, format, args...)`: walks the format one character at a time,
      putting literal characters and arguments on the stream. */
  method Writef(format: Option<string>, args: seq<string>) returns (emitted: string, err: Option<FormatError>)
    ensures Written(emitted, err) == Formatted(format, args)
  {
    if format.None? {
      return "", Some(NullFormat);
    }
    var f := format.value;
    var i, k := 0, 0;
    emitted := "";
    while At(f, i) != '\0'
      invariant i <= |f| && k <= |args|
      invariant Prepend(emitted, Render(f[i..], args[k..])) == Render(f, args)
      decreases |f| - i
    {
      assert At(f[i..], 0) == At(f, i) && At(f[i..], 1) == At(f, i + 1);
      if AnchorAt(f, i) {
        if k == |args| {
          return emitted, Some(NotEnoughArguments);
        }
        assert f[i..][2..] == f[i + 2..] && args[k..][1..] == args[k + 1..];
        emitted := emitted + args[k];
        i, k := i + 2, k + 1;
      } else {
        assert f[i..][1..] == f[i + 1..];
        emitted := emitted + [f[i]];
        i := i + 1;
      }
    }
    assert At(f[i..], 0) == '\0';
    err := if k < |args| then Some(TooManyArguments) else None;
  }

  /** The line `write(out, args...)` produces: the arguments separated by one space. */
  function Join(args: Args): string
    decreases |args|
  {
    if |args| == 1 then args[0] else args[0] + " " + Join(args[1..])
  }

  /** `write(out, args...)`: each argument but the last is followed by a space. */
  method Write(args: Args) returns (emitted: string)
    ensures emitted == Join(args)
  {
    emitted := "";
    var i := 0;
    while i < |args| - 1
      invariant 0 <= i <= |args| - 1
      invariant emitted + Join(args[i..]) == Join(args)
    {
      assert args[i..][1..] == args[i + 1..];
      emitted := emitted + args[i] + " ";
      i := i + 1;
    }
    assert args[i..] == [args[i]];
    emitted := emitted + args[i];
  }

  /** Splits a line at every space: the inverse of Join. */
  function Split(s: string): (parts: seq<string>)
    ensures |parts| > 0
    decreases |s|
  {
    if |s| == 0 then [""]
    else if s[0] == ' ' then [""] + Split(s[1..])
    else
      var r := Split(s[1..]);
      [[s[0]] + r[0]] + r[1..]
  }

  lemma {:induction false} SplitWord(a: string, t: string)
    requires ' ' !in a
    ensures Split(a + t) == [a + Split(t)[0]] + Split(t)[1..]
    decreases |a|
  {
    if |a| > 0 {
      assert a[0] in a && (a + t)[0] == a[0];
      assert (a + t)[1..] == a[1..] + t;
      assert forall c :: c in a[1..] ==> c in a;
      SplitWord(a[1..], t);
      var r := Split(a[1..] + t);
      assert [a[0]] + r[0] == a + Split(t)[0];
    } else {
      assert a + t == t;
      assert a + Split(t)[0] == Split(t)[0];
      assert [Split(t)[0]] + Split(t)[1..] == Split(t);
    }
  }

  /** `write` loses nothing: when no argument contains a space, splitting the
      line at its spaces gives back exactly the arguments. */
  lemma {:induction false} SplitJoin(args: Args)
    requires forall i :: 0 <= i < |args| ==> ' ' !in args[i]
    ensures Split(Join(args)) == args
    decreases |args|
  {
    if |args| == 1 {
      SplitWord(args[0], "");
      assert args[0] + "" == args[0];
    } else {
      var rest: Args := args[1..];
      SplitJoin(rest);
      SplitWord(args[0], " " + Join(rest));
      assert (" " + Join(rest))[1..] == Join(rest);
      assert Split(" " + Join(rest)) == [""] + rest;
      assert args[0] + "" == args[0];
      assert [args[0]] + rest == args;
      assert args[0] + " " + Join(rest) == args[0] + (" " + Join(rest));
    }
  }

  /** A piece of format text with no anchor in it and no terminator. */
  predicate AnchorFree(s: string)
  {
    forall i :: 0 <= i < |s| ==> s[i] != '\0' && (s[i] == '{' ==> i + 1 == |s| || s[i + 1] != '}')
  }

  /** The format made of the given literal segments with an anchor between each two. */
  function Template(segs: seq<string>): string
    requires |segs| > 0
    decreases |segs|
  {
    if |segs| == 1 then segs[0] else segs[0] + "{}" + Template(segs[1..])
  }

  /** The segments with the arguments in the anchors' places. */
  function Interleave(segs: seq<string>, args: seq<string>): string
    requires |segs| == |args| + 1
    decreases |args|
  {
    if args == [] then segs[0] else segs[0] + args[0] + Interleave(segs[1..], args[1..])
  }

  /** Literal text is copied unchanged, including a '{' not followed by '}'. */
  lemma {:induction false} RenderLiteral(s: string, rest: string, args: seq<string>)
    requires AnchorFree(s)
    requires rest == [] || rest[0] != '}'
    ensures Render(s + rest, args) == Prepend(s, Render(rest, args))
    decreases |s|
  {
    if |s| == 0 {
      assert s + rest == rest;
    } else {
      assert (s + rest)[1..] == s[1..] + rest;
      assert At(s + rest, 1) != '}' || s[0] != '{';
      RenderLiteral(s[1..], rest, args);
      assert s == [s[0]] + s[1..];
    }
  }

  /** A literal segment and the anchor after it: the anchor takes the next argument,
      or fails when none is left, after the segment is written. */
  lemma SegmentThenAnchor(s: string, t: string, args: seq<string>)
    requires AnchorFree(s)
    ensures args != [] ==> Render(s + "{}" + t, args) == Prepend(s + args[0], Render(t, args[1..]))
    ensures args == [] ==> Render(s + "{}" + t, args) == Written(s, Some(NotEnoughArguments))
  {
    var tail := "{}" + t;
    assert s + "{}" + t == s + tail;
    RenderLiteral(s, tail, args);
    assert tail[2..] == t;
    if args != [] {
      Associates(s, args[0], Render(t, args[1..]).text);
    } else {
      assert s + "" == s;
    }
  }

  lemma SegmentsAnchorFree(segs: seq<string>)
    requires |segs| > 0 && forall i :: 0 <= i < |segs| ==> AnchorFree(segs[i])
    ensures AnchorFree(segs[0]) && forall i :: 0 <= i < |segs[1..]| ==> AnchorFree(segs[1..][i])
  {
    assert forall i :: 0 <= i < |segs[1..]| ==> segs[1..][i] == segs[i + 1];
  }

  /** As many arguments as anchors: each anchor takes its argument. */
  lemma {:induction false} SubstituteExact(segs: seq<string>, args: seq<string>)
    requires |segs| == |args| + 1
    requires forall i :: 0 <= i < |segs| ==> AnchorFree(segs[i])
    ensures Render(Template(segs), args) == Written(Interleave(segs, args), None)
    decreases |args|
  {
    SegmentsAnchorFree(segs);
    if args == [] {
      RenderLiteral(segs[0], [], args);
      assert segs[0] + [] == segs[0];
    } else {
      SegmentThenAnchor(segs[0], Template(segs[1..]), args);
      SubstituteExact(segs[1..], args[1..]);
    }
  }

  /** More arguments than anchors: the whole format is written, then the call fails. */
  lemma {:induction false} SubstituteTooMany(segs: seq<string>, args: seq<string>)
    requires |segs| > 0 && |args| > |segs| - 1
    requires forall i :: 0 <= i < |segs| ==> AnchorFree(segs[i])
    ensures Render(Template(segs), args) == Written(Interleave(segs, args[..|segs| - 1]), Some(TooManyArguments))
    decreases |segs|
  {
    SegmentsAnchorFree(segs);
    if |segs| == 1 {
      RenderLiteral(segs[0], [], args);
      assert segs[0] + [] == segs[0];
    } else {
      SegmentThenAnchor(segs[0], Template(segs[1..]), args);
      SubstituteTooMany(segs[1..], args[1..]);
      assert args[..|segs| - 1][1..] == args[1..][..|segs| - 2];
    }
  }

  /** Fewer arguments than anchors: the call fails at the first anchor left without one. */
  lemma {:induction false} SubstituteTooFew(segs: seq<string>, args: seq<string>)
    requires |args| < |segs| - 1
    requires forall i :: 0 <= i < |segs| ==> AnchorFree(segs[i])
    ensures Render(Template(segs), args) == Written(Interleave(segs[..|args| + 1], args), Some(NotEnoughArguments))
    decreases |args|
  {
    SegmentsAnchorFree(segs);
    SegmentThenAnchor(segs[0], Template(segs[1..]), args);
    if args != [] {
      SubstituteTooFew(segs[1..], args[1..]);
      assert segs[..|args| + 1][1..] == segs[1..][..|args|];
    }
  }

  /** The substitution rule of `writef`: each anchor takes the next argument, left to
      right, and the text between anchors is unchanged. Too few arguments fail at the
      first unmatched anchor, too many when the format ends; in both cases the text
      written before the failure stays on the stream. */
  lemma Substitution(segs: seq<string>, args: seq<string>)
    requires |segs| > 0
    requires forall i :: 0 <= i < |segs| ==> AnchorFree(segs[i])
    ensures |args| == |segs| - 1 ==>
      Render(Template(segs), args) == Written(Interleave(segs, args), None)
    ensures |args| > |segs| - 1 ==>
      Render(Template(segs), args) == Written(Interleave(segs, args[..|segs| - 1]), Some(TooManyArguments))
    ensures |args| < |segs| - 1 ==>
      Render(Template(segs), args) == Written(Interleave(segs[..|args| + 1], args), Some(NotEnoughArguments))
  {
    if |args| == |segs| - 1 {
      SubstituteExact(segs, args);
    } else if |args| > |segs| - 1 {
      SubstituteTooMany(segs, args);
    } else {
      SubstituteTooFew(segs, args);
    }
  }

  /** With no arguments, a format without anchors is copied verbatim. */
  lemma NoArgumentsVerbatim(f: string)
    requires AnchorFree(f)
    ensures Formatted(Some(f), []) == Written(f, None)
  {
    Substitution([f], []);
  }

  /** With no arguments left, an anchor raises "not enough arguments". */
  lemma {:induction false} AnchorWithoutArgument(before: string, after: string)
    requires AnchorFree(before)
    ensures Formatted(Some(before + "{}" + after), []) == Written(before, Some(NotEnoughArguments))
  {
    RenderLiteral(before, "{}" + after, []);
    assert before + "{}" + after == before + ("{}" + after);
  }

  /** A prefix with no '{' and no NUL passes through unchanged, whatever follows. */
  lemma {:induction false} RenderAfterPlainPrefix(p: string, f: string, args: seq<string>)
    requires forall i :: 0 <= i < |p| ==> p[i] != '{' && p[i] != '\0'
    ensures Render(p + f, args) == Prepend(p, Render(f, args))
    decreases |p|
  {
    if |p| == 0 {
      assert p + f == f;
    } else {
      assert (p + f)[1..] == p[1..] + f;
      RenderAfterPlainPrefix(p[1..], f, args);
      assert p == [p[0]] + p[1..];
    }
  }

  /** The cases the log-write tests pin down. */
  lemma EmptyFormatExample()
    ensures Formatted(Some(""), []) == Written("", None)
  {
    Substitution([""], []);
  }

  lemma OneAnchorExample()
    ensures Formatted(Some("prefix {} suffix"), ["arg1"]) == Written("prefix arg1 suffix", None)
  {
    var segs := ["prefix ", " suffix"];
    assert Template(segs) == "prefix {} suffix";
    Substitution(segs, ["arg1"]);
  }

  lemma ThreeAnchorsTemplate()
    ensures Template(["", ",", ",", ""]) == "{},{},{}"
  {
    assert ["", ",", ",", ""][1..] == [",", ",", ""];
    assert [",", ",", ""][1..] == [",", ""];
    assert [",", ""][1..] == [""];
  }

  lemma ThreeAnchorsInterleave()
    ensures Interleave(["", ",", ",", ""], ["arg1", "arg2", "arg3"]) == "arg1,arg2,arg3"
  {
    assert ["", ",", ",", ""][1..] == [",", ",", ""] && ["arg1", "arg2", "arg3"][1..] == ["arg2", "arg3"];
    assert [",", ",", ""][1..] == [",", ""] && ["arg2", "arg3"][1..] == ["arg3"];
    assert Interleave([",", ""], ["arg3"]) == ",arg3";
    assert Interleave([",", ",", ""], ["arg2", "arg3"]) == ",arg2,arg3";
  }

  lemma ThreeAnchorsExample()
    ensures Formatted(Some("{},{},{}"), ["arg1", "arg2", "arg3"]) == Written("arg1,arg2,arg3", None)
  {
    ThreeAnchorsTemplate();
    ThreeAnchorsInterleave();
    SubstituteExact(["", ",", ",", ""], ["arg1", "arg2", "arg3"]);
  }

  lemma TooFewArgumentsExample()
    ensures Formatted(Some("{},{},{}"), ["arg1", "arg2"]).error == Some(NotEnoughArguments)
  {
    var segs := ["", ",", ",", ""];
    ThreeAnchorsTemplate();
    SubstituteTooFew(segs, ["arg1", "arg2"]);
  }

  lemma TooManyArgumentsExample()
    ensures Formatted(Some("{},{},{}"), ["arg1", "arg2", "arg3", "arg4"]).error == Some(TooManyArguments)
  {
    var segs := ["", ",", ",", ""];
    ThreeAnchorsTemplate();
    SubstituteTooMany(segs, ["arg1", "arg2", "arg3", "arg4"]);
  }

  /** `"{{}foo"` with one argument: the first '{' is literal. */
  lemma BraceBeforeAnchorExample()
    ensures Formatted(Some("{{}foo"), ["arg1"]) == Written("{arg1foo", None)
  {
    var segs := ["{", "foo"];
    assert Template(segs) == "{{}foo";
    Substitution(segs, ["arg1"]);
  }
}
