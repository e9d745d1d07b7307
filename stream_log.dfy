/**
 * StreamLog of dheunit/internal/stream-log.h and VerboseLog of
 * dheunit/internal/verbose-log.h, which are the same class under two names: a log
 * that writes each section name and each line at once, four spaces further in for
 * every open section. The calls it receives are the events of LogBuffer.Op; `record`
 * is `write`, and `end`'s bool argument is ignored.
 */
module StreamLog {
  import opened Wrappers
  import opened LogBuffer

  /** Four spaces per open section. */
  function Indent(depth: nat): (r: string)
    ensures |r| == 4 * depth
  {
    if depth == 0 then "" else "    " + Indent(depth - 1)
  }

  /** An indent is nothing but spaces. */
  lemma {:induction false} IndentIsSpaces(depth: nat)
    ensures forall i :: 0 <= i < |Indent(depth)| ==> Indent(depth)[i] == ' '
    decreases depth
  {
    if depth > 0 {
      IndentIsSpaces(depth - 1);
    }
  }

  lemma {:induction false} IndentSucc(depth: nat)
    ensures Indent(depth + 1) == Indent(depth) + "    "
    decreases depth
  {
    if depth > 0 {
      IndentSucc(depth - 1);
    }
  }

  /** One output line at the given depth. */
  function Line(depth: nat, text: string): string
  {
    Indent(depth) + text + "\n"
  }

  /** A name or line the log writes, with the number of sections open around it. */
  datatype Placed = Placed(depth: nat, text: string)

  /** What the placed lines look like on the stream: one indented line each. */
  function Text(lines: seq<Placed>): string
    decreases |lines|
  {
    if lines == [] then "" else Line(lines[0].depth, lines[0].text) + Text(lines[1..])
  }

  lemma {:induction false} TextAppend(a: seq<Placed>, b: seq<Placed>)
    ensures Text(a + b) == Text(a) + Text(b)
    decreases |a|
  {
    if a == [] {
      assert a + b == b;
    } else {
      var h := Line(a[0].depth, a[0].text);
      assert (a + b)[0] == a[0] && (a + b)[1..] == a[1..] + b;
      assert Text(a + b) == h + Text(a[1..] + b);
      TextAppend(a[1..], b);
      Associates(h, Text(a[1..]), Text(b));
    }
  }

  lemma TextOne(p: Placed)
    ensures Text([p]) == Line(p.depth, p.text)
  {
    assert [p][1..] == [];
    assert Line(p.depth, p.text) + "" == Line(p.depth, p.text);
  }

  /** What one call writes at the given depth: `end` writes nothing. */
  function Emit(op: Op, depth: nat): seq<Placed>
  {
    match op
    case Begin(name) => [Placed(depth, name)]
    case Write(line) => [Placed(depth, line)]
    case End => []
  }

  /** No `end` is received while no section is open, starting at `depth` open sections. */
  predicate Nests(ops: seq<Op>, depth: int)
    decreases |ops|
  {
    depth >= 0 && (ops == [] || Nests(ops[1..], depth + Delta(ops[0])))
  }

  /** The lines written for a run of calls, the depth threaded from call to call. */
  function Render(ops: seq<Op>, depth: int): seq<Placed>
    requires Nests(ops, depth)
    decreases |ops|
  {
    if ops == [] then [] else Emit(ops[0], depth) + Render(ops[1..], depth + Delta(ops[0]))
  }

  lemma OpenedCons(x: Op, rest: seq<Op>)
    ensures Opened([x] + rest) == Delta(x) + Opened(rest)
  {
    assert ([x] + rest)[1..] == rest;
  }

  /** A run nests if and only if its first part does and the rest nests from where the
      first part left the depth. */
  lemma {:induction false} NestsAppend(a: seq<Op>, b: seq<Op>, depth: int)
    ensures Nests(a + b, depth) <==> Nests(a, depth) && Nests(b, depth + Opened(a))
    decreases |a|
  {
    if a == [] {
      assert a + b == b;
    } else {
      assert (a + b)[0] == a[0] && (a + b)[1..] == a[1..] + b;
      OpenedCons(a[0], a[1..]);
      assert a == [a[0]] + a[1..];
      NestsAppend(a[1..], b, depth + Delta(a[0]));
    }
  }

  lemma NestsCons(x: Op, rest: seq<Op>, depth: int)
    ensures Nests([x] + rest, depth) <==> depth >= 0 && Nests(rest, depth + Delta(x))
  {
    assert ([x] + rest)[0] == x && ([x] + rest)[1..] == rest;
  }

  /** The first call's lines, then the rest from the depth it leaves. */
  lemma RenderCons(x: Op, rest: seq<Op>, depth: int)
    requires Nests([x] + rest, depth)
    ensures depth >= 0 && Nests(rest, depth + Delta(x))
    ensures Render([x] + rest, depth) == Emit(x, depth) + Render(rest, depth + Delta(x))
  {
    assert ([x] + rest)[0] == x && ([x] + rest)[1..] == rest;
  }

  /** The lines for a run are the lines for its first part followed by the lines for
      the rest, written from the depth the first part reached. */
  lemma {:induction false} RenderAppend(a: seq<Op>, b: seq<Op>, depth: int)
    requires Nests(a + b, depth)
    ensures Nests(a, depth) && Nests(b, depth + Opened(a))
    ensures Render(a + b, depth) == Render(a, depth) + Render(b, depth + Opened(a))
    decreases |a|
  {
    NestsAppend(a, b, depth);
    if a == [] {
      assert a + b == b;
    } else {
      var x, r := a[0], a[1..];
      var d1 := depth + Delta(x);
      assert a == [x] + r && a + b == [x] + (r + b);
      RenderCons(x, r + b, depth);
      RenderCons(x, r, depth);
      RenderAppend(r, b, d1);
      OpenedCons(x, r);
      Associates(Emit(x, depth), Render(r, d1), Render(b, d1 + Opened(r)));
    }
  }

  /** Threading the depth through the calls places every name and line where the calls
      before it say: right after their lines, at the starting depth plus their begins
      minus their ends. */
  lemma RenderPlacesLine(pre: seq<Op>, x: Op, post: seq<Op>, depth: int)
    requires Nests(pre + [x] + post, depth)
    ensures Nests(pre, depth) && depth + Opened(pre) >= 0
    ensures Nests(post, depth + Opened(pre) + Delta(x))
    ensures Render(pre + [x] + post, depth) ==
      Render(pre, depth) + Emit(x, depth + Opened(pre)) + Render(post, depth + Opened(pre) + Delta(x))
  {
    var d := depth + Opened(pre);
    assert pre + [x] + post == pre + ([x] + post);
    RenderAppend(pre, [x] + post, depth);
    RenderCons(x, post, d);
    Associates(Render(pre, depth), Emit(x, d), Render(post, d + Delta(x)));
  }

  lemma RenderOne(x: Op, depth: int)
    requires Nests([x], depth)
    ensures depth >= 0 && Render([x], depth) == Emit(x, depth)
  {
    RenderCons(x, [], depth);
    assert [x] + [] == [x];
    assert Emit(x, depth) + [] == Emit(x, depth);
  }

  /** After sections that were all ended again, lines are written at the starting depth. */
  lemma BalancedReturns(ops: seq<Op>, depth: int, line: string)
    requires Nests(ops, depth) && Opened(ops) == 0
    ensures Nests(ops + [Op.Write(line)], depth)
    ensures Render(ops + [Op.Write(line)], depth) == Render(ops, depth) + [Placed(depth, line)]
  {
    assert Nests([Op.Write(line)], depth) by {
      assert [Op.Write(line)][1..] == [];
    }
    NestsAppend(ops, [Op.Write(line)], depth);
    RenderAppend(ops, [Op.Write(line)], depth);
    RenderOne(Op.Write(line), depth);
  }

  lemma SectionPlaces(name: string, line: string, depth: nat)
    ensures Nests([Op.Begin(name), Op.Write(line), Op.End], depth)
    ensures Render([Op.Begin(name), Op.Write(line), Op.End], depth) == [Placed(depth, name)] + [Placed(depth + 1, line)]
  {
    var ops := [Op.Begin(name), Op.Write(line), Op.End];
    var tail := [Op.Write(line), Op.End];
    assert ops == [Op.Begin(name)] + tail && tail == [Op.Write(line)] + [Op.End];
    assert [Op.End] == [Op.End] + [];
    NestsCons(Op.End, [], depth + 1);
    NestsCons(Op.Write(line), [Op.End], depth + 1);
    NestsCons(Op.Begin(name), tail, depth);
    RenderCons(Op.Begin(name), tail, depth);
    RenderCons(Op.Write(line), [Op.End], depth + 1);
    RenderOne(Op.End, depth + 1);
    assert Render(ops, depth) == [Placed(depth, name)] + ([Placed(depth + 1, line)] + []);
  }

  /** Lines written between a begin and the matching end sit four spaces further in. */
  lemma SectionIndents(name: string, line: string, depth: nat)
    ensures Nests([Op.Begin(name), Op.Write(line), Op.End], depth)
    ensures Text(Render([Op.Begin(name), Op.Write(line), Op.End], depth))
         == Indent(depth) + name + "\n" + Indent(depth) + "    " + line + "\n"
  {
    SectionPlaces(name, line, depth);
    TextAppend([Placed(depth, name)], [Placed(depth + 1, line)]);
    TextOne(Placed(depth, name));
    TextOne(Placed(depth + 1, line));
    IndentSucc(depth);
    var first, second := Indent(depth) + name + "\n", Indent(depth) + "    ";
    assert Line(depth + 1, line) == second + line + "\n";
    assert first + (second + line + "\n") == first + second + line + "\n";
  }

  class StreamLog {
    /** Everything written to the stream so far. */
    var out: string
    /** Number of open sections. */
    var depth: nat
    /** The calls received so far. */
    ghost var calls: seq<Op>

    /** The stream holds exactly the rendering of the calls received, and the depth is
        their begins minus ends. */
    ghost predicate Valid()
      reads this
    {
      Nests(calls, 0) && out == Text(Render(calls, 0)) && depth == Opened(calls)
    }

    constructor ()
      ensures Valid() && out == "" && depth == 0 && calls == []
    {
      out := "";
      depth := 0;
      calls := [];
    }

    /** Writes the line at the current indent. */
    method Write(line: string)
      requires Valid()
      modifies this
      ensures Valid() && calls == old(calls) + [Op.Write(line)]
      ensures out == old(out) + Line(old(depth), line) && depth == old(depth)
    {
      Received(Op.Write(line));
      TextOne(Placed(depth, line));
      out := out + Line(depth, line);
      calls := calls + [Op.Write(line)];
    }

    /** `record` is `write`. */
    method Record(line: string)
      requires Valid()
      modifies this
      ensures Valid() && calls == old(calls) + [Op.Write(line)]
      ensures out == old(out) + Line(old(depth), line) && depth == old(depth)
    {
      Write(line);
    }

    /** Writes the name at the current indent, then opens a section. */
    method Begin(name: string)
      requires Valid()
      modifies this
      ensures Valid() && calls == old(calls) + [Op.Begin(name)]
      ensures out == old(out) + Line(old(depth), name) && depth == old(depth) + 1
    {
      Received(Op.Begin(name));
      TextOne(Placed(depth, name));
      out := out + Line(depth, name);
      depth := depth + 1;
      calls := calls + [Op.Begin(name)];
    }

    /** Closes a section and writes nothing, whatever `write` says. */
    method End(write: bool)
      requires Valid() && depth > 0
      modifies this
      ensures Valid() && calls == old(calls) + [Op.End]
      ensures out == old(out) && depth == old(depth) - 1
    {
      Received(Op.End);
      depth := depth - 1;
      calls := calls + [Op.End];
    }

    /** What one more call adds to the stream. */
    lemma Received(op: Op)
      requires Valid() && (op.End? ==> depth > 0)
      ensures Nests(calls + [op], 0)
      ensures Opened(calls + [op]) == depth + Delta(op)
      ensures Text(Render(calls + [op], 0)) == out + Text(Emit(op, depth))
    {
      OpenedCons(op, []);
      assert [op] + [] == [op];
      OpenedAppend(calls, [op]);
      assert Nests([op], depth) by {
        assert [op][1..] == [];
      }
      NestsAppend(calls, [op], 0);
      RenderAppend(calls, [op], 0);
      RenderOne(op, depth);
      TextAppend(Render(calls, 0), Emit(op, depth));
    }
  }
}
