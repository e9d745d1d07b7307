/**
 * The set-up/tear-down contexts of dheunit.cpp, dheunit/src/context.cpp and
 * src/suite/context.cpp, and the `Test::run` of dheunit.cpp, test.cpp and
 * src/suite/test.cpp. A context has a name, an optional parent and two lists of hooks.
 * `create` runs the parent's `create` and then its own befores in order; `destroy` runs
 * its own afters in reverse order and then the parent's `destroy`. Contexts live in an
 * arena and refer to their parent by index; a hook is the line it prints and how it
 * ends, so what is observable is the trace of hooks run.
 */
module Contexts {
  import opened Wrappers

  /** A before or after hook, or a test body: the line it prints and how it ends. */
  datatype Hook = Hook(line: string, outcome: Outcome)

  /** What a run of hooks did: the lines printed, and how it ended. */
  datatype Run = Run(trace: seq<string>, outcome: Outcome)

  const Nothing := Run([], Normal)

  /** One run after another; an exception from the first skips the second. */
  function Then(a: Run, b: Run): Run
  {
    if a.outcome.Thrown? then a else Run(a.trace + b.trace, b.outcome)
  }

  /** Hooks called in order until one throws. */
  function RunHooks(hooks: seq<Hook>): Run
    decreases |hooks|
  {
    if hooks == [] then Nothing
    else Then(Run([hooks[0].line], hooks[0].outcome), RunHooks(hooks[1..]))
  }

  function Labels(hooks: seq<Hook>): (r: seq<string>)
    ensures |r| == |hooks| && forall i :: 0 <= i < |hooks| ==> r[i] == hooks[i].line
  {
    seq(|hooks|, i requires 0 <= i < |hooks| => hooks[i].line)
  }

  function Reversed<T>(s: seq<T>): (r: seq<T>)
    ensures |r| == |s| && forall i :: 0 <= i < |s| ==> r[i] == s[|s| - 1 - i]
    decreases |s|
  {
    if s == [] then [] else [s[|s| - 1]] + Reversed(s[..|s| - 1])
  }

  lemma ThenAssociates(a: Run, b: Run, c: Run)
    ensures Then(Then(a, b), c) == Then(a, Then(b, c))
  {
  }

  /** Running two lists of hooks one after the other is running their concatenation. */
  lemma {:induction false} RunHooksAppend(a: seq<Hook>, b: seq<Hook>)
    ensures RunHooks(a + b) == Then(RunHooks(a), RunHooks(b))
    decreases |a|
  {
    if a == [] {
      assert a + b == b;
    } else {
      assert (a + b)[0] == a[0] && (a + b)[1..] == a[1..] + b;
      RunHooksAppend(a[1..], b);
      ThenAssociates(Run([a[0].line], a[0].outcome), RunHooks(a[1..]), RunHooks(b));
    }
  }

  /** Hooks that all return normally print their lines in order. */
  lemma {:induction false} RunHooksNormal(hooks: seq<Hook>)
    requires forall i :: 0 <= i < |hooks| ==> hooks[i].outcome == Normal
    ensures RunHooks(hooks) == Run(Labels(hooks), Normal)
    decreases |hooks|
  {
    if hooks != [] {
      RunHooksNormal(hooks[1..]);
      assert Labels(hooks) == [hooks[0].line] + Labels(hooks[1..]);
    }
  }

  /** The first hook that throws is the last one run: its line is printed and its
      exception ends the run. */
  lemma RunHooksStops(pre: seq<Hook>, h: Hook, post: seq<Hook>)
    requires forall i :: 0 <= i < |pre| ==> pre[i].outcome == Normal
    requires h.outcome.Thrown?
    ensures RunHooks(pre + [h] + post) == Run(Labels(pre) + [h.line], h.outcome)
  {
    RunHooksAppend(pre + [h], post);
    RunHooksAppend(pre, [h]);
    RunHooksNormal(pre);
    assert [h][1..] == [];
  }

  datatype Context = Context(name: string, parent: Option<nat>, befores: seq<Hook>, afters: seq<Hook>)

  /** Every parent is created before its children, so the parent links end at a root. */
  predicate WellFormed(tree: seq<Context>)
  {
    forall i :: 0 <= i < |tree| && tree[i].parent.Some? ==> tree[i].parent.value < i
  }

  /** `create()`. */
  function CreateRun(tree: seq<Context>, id: nat): Run
    requires WellFormed(tree) && id < |tree|
    decreases id
  {
    var c := tree[id];
    var up := if c.parent.Some? then CreateRun(tree, c.parent.value) else Nothing;
    Then(up, RunHooks(c.befores))
  }

  /** `destroy()`. */
  function DestroyRun(tree: seq<Context>, id: nat): Run
    requires WellFormed(tree) && id < |tree|
    decreases id
  {
    var c := tree[id];
    var own := RunHooks(Reversed(c.afters));
    if c.parent.Some? then Then(own, DestroyRun(tree, c.parent.value)) else own
  }

  /** The contexts from the root down to `id`. */
  function Ancestry(tree: seq<Context>, id: nat): (path: seq<nat>)
    requires WellFormed(tree) && id < |tree|
    ensures |path| >= 1 && path[|path| - 1] == id
    ensures forall k :: 0 <= k < |path| ==> path[k] < |tree|
    ensures tree[path[0]].parent == None
    ensures forall k :: 0 < k < |path| ==> tree[path[k]].parent == Some(path[k - 1])
    decreases id
  {
    match tree[id].parent
    case None => [id]
    case Some(p) => Ancestry(tree, p) + [id]
  }

  /** Reference definition of `create`: the befores of every context on the path, the
      outermost context's first. */
  function BeforesAlong(tree: seq<Context>, path: seq<nat>): seq<Hook>
    requires forall k :: 0 <= k < |path| ==> path[k] < |tree|
    decreases |path|
  {
    if path == [] then [] else tree[path[0]].befores + BeforesAlong(tree, path[1..])
  }

  /** Reference definition of `destroy`: the afters of every context on the path, each
      context's in reverse. */
  function AftersAlong(tree: seq<Context>, path: seq<nat>): seq<Hook>
    requires forall k :: 0 <= k < |path| ==> path[k] < |tree|
    decreases |path|
  {
    if path == [] then [] else Reversed(tree[path[0]].afters) + AftersAlong(tree, path[1..])
  }

  lemma {:induction false} BeforesAlongAppend(tree: seq<Context>, path: seq<nat>, id: nat)
    requires forall k :: 0 <= k < |path| ==> path[k] < |tree|
    requires id < |tree|
    ensures BeforesAlong(tree, path + [id]) == BeforesAlong(tree, path) + tree[id].befores
    decreases |path|
  {
    if path == [] {
      assert [] + [id] == [id];
      assert [id][1..] == [];
    } else {
      assert (path + [id])[1..] == path[1..] + [id];
      BeforesAlongAppend(tree, path[1..], id);
    }
  }

  /** `create()` runs the befores of the root first and of the context itself last, each
      context's in the order they were added. */
  lemma {:induction false} CreateFollowsAncestry(tree: seq<Context>, id: nat)
    requires WellFormed(tree) && id < |tree|
    ensures CreateRun(tree, id) == RunHooks(BeforesAlong(tree, Ancestry(tree, id)))
    decreases id
  {
    match tree[id].parent
    case None =>
      assert [id][1..] == [];
      assert BeforesAlong(tree, [id]) == tree[id].befores + [];
      assert tree[id].befores + [] == tree[id].befores;
    case Some(p) =>
      CreateFollowsAncestry(tree, p);
      BeforesAlongAppend(tree, Ancestry(tree, p), id);
      RunHooksAppend(BeforesAlong(tree, Ancestry(tree, p)), tree[id].befores);
  }

  /** `destroy()` runs the afters of the context itself first and of the root last, each
      context's in the reverse of the order they were added. */
  lemma {:induction false} DestroyMirrorsCreate(tree: seq<Context>, id: nat)
    requires WellFormed(tree) && id < |tree|
    ensures DestroyRun(tree, id) == RunHooks(AftersAlong(tree, Reversed(Ancestry(tree, id))))
    decreases id
  {
    var own := Reversed(tree[id].afters);
    match tree[id].parent
    case None =>
      assert Reversed(Ancestry(tree, id)) == [id];
      assert [id][1..] == [];
      assert AftersAlong(tree, [id]) == own + [];
      assert own + [] == own;
    case Some(p) =>
      DestroyMirrorsCreate(tree, p);
      var up := Ancestry(tree, p);
      assert Reversed(up + [id]) == [id] + Reversed(up);
      assert ([id] + Reversed(up))[1..] == Reversed(up);
      RunHooksAppend(own, AftersAlong(tree, Reversed(up)));
      if RunHooks(own).outcome.Normal? {
        assert RunHooks(own).trace + DestroyRun(tree, p).trace == RunHooks(own).trace + RunHooks(AftersAlong(tree, Reversed(up))).trace;
      }
  }

  /** `description()` of src/suite/context.cpp: the names from the root down, joined by "::". */
  function Description(tree: seq<Context>, id: nat): string
    requires WellFormed(tree) && id < |tree|
    decreases id
  {
    match tree[id].parent
    case None => tree[id].name
    case Some(p) => Description(tree, p) + "::" + tree[id].name
  }

  /** Number of colons in a string. */
  function Colons(s: string): nat
  {
    multiset(s)[':']
  }

  /** When no name holds a colon, a description holds two per ancestor: the separators. */
  lemma {:induction false} DescriptionSeparators(tree: seq<Context>, id: nat)
    requires WellFormed(tree) && id < |tree|
    requires forall i :: 0 <= i < |tree| ==> ':' !in tree[i].name
    ensures Colons(Description(tree, id)) == 2 * (|Ancestry(tree, id)| - 1)
    decreases id
  {
    assert multiset(tree[id].name)[':'] == 0;
    match tree[id].parent
    case None =>
    case Some(p) =>
      DescriptionSeparators(tree, p);
      var d := Description(tree, p);
      assert multiset(d + "::" + tree[id].name) == multiset(d) + multiset("::") + multiset(tree[id].name);
      assert multiset("::")[':'] == 2;
  }

  /** A test: its name, its body and the context it was declared in (none when the DSL
      declares it outside every `describe`). */
  datatype TestCase = TestCase(name: string, body: Hook, context: Option<nat>)

  /** `Test::run`: `create`, the body, `destroy`; an exception skips what follows. */
  function TestRun(tree: seq<Context>, id: nat, body: Hook): Run
    requires WellFormed(tree) && id < |tree|
  {
    Then(Then(CreateRun(tree, id), Run([body.line], body.outcome)), DestroyRun(tree, id))
  }

  /** A test whose hooks and body all return normally prints every before on the path
      from the root, the body, then every after on the path back up to the root. */
  lemma TestRunTrace(tree: seq<Context>, id: nat, body: Hook)
    requires WellFormed(tree) && id < |tree|
    requires forall i :: 0 <= i < |tree| ==>
               (forall h :: h in tree[i].befores ==> h.outcome == Normal) &&
               (forall h :: h in tree[i].afters ==> h.outcome == Normal)
    requires body.outcome == Normal
    ensures var path := Ancestry(tree, id);
            TestRun(tree, id, body) ==
            Run(Labels(BeforesAlong(tree, path)) + [body.line] + Labels(AftersAlong(tree, Reversed(path))), Normal)
  {
    var path := Ancestry(tree, id);
    CreateFollowsAncestry(tree, id);
    DestroyMirrorsCreate(tree, id);
    HooksAlongNormal(tree, path);
    HooksAlongNormal(tree, Reversed(path));
    RunHooksNormal(BeforesAlong(tree, path));
    RunHooksNormal(AftersAlong(tree, Reversed(path)));
  }

  lemma {:induction false} HooksAlongNormal(tree: seq<Context>, path: seq<nat>)
    requires forall k :: 0 <= k < |path| ==> path[k] < |tree|
    requires forall i :: 0 <= i < |tree| ==>
               (forall h :: h in tree[i].befores ==> h.outcome == Normal) &&
               (forall h :: h in tree[i].afters ==> h.outcome == Normal)
    ensures forall i :: 0 <= i < |BeforesAlong(tree, path)| ==> BeforesAlong(tree, path)[i].outcome == Normal
    ensures forall i :: 0 <= i < |AftersAlong(tree, path)| ==> AftersAlong(tree, path)[i].outcome == Normal
    decreases |path|
  {
    if path != [] {
      HooksAlongNormal(tree, path[1..]);
      var c := tree[path[0]];
      assert forall i :: 0 <= i < |c.befores| ==> c.befores[i] in c.befores;
      assert forall i :: 0 <= i < |c.afters| ==> Reversed(c.afters)[i] in c.afters;
    }
  }

  /** A body that throws ends the test: `destroy` does not run. */
  lemma ThrowSkipsDestroy(tree: seq<Context>, id: nat, body: Hook)
    requires WellFormed(tree) && id < |tree|
    requires CreateRun(tree, id).outcome == Normal && body.outcome.Thrown?
    ensures TestRun(tree, id, body) == Run(CreateRun(tree, id).trace + [body.line], body.outcome)
  {
  }

  /** `Test::description()` of src/suite/test.cpp. */
  function TestDescription(tree: seq<Context>, id: nat, name: string): (r: string)
    requires WellFormed(tree) && id < |tree|
  {
    Description(tree, id) + "::" + name
  }

  /** A test's description holds one more separator than its context's. */
  lemma TestDescriptionSeparators(tree: seq<Context>, id: nat, name: string)
    requires WellFormed(tree) && id < |tree|
    requires ':' !in name && forall i :: 0 <= i < |tree| ==> ':' !in tree[i].name
    ensures Colons(TestDescription(tree, id, name)) == 2 * |Ancestry(tree, id)|
  {
    DescriptionSeparators(tree, id);
    var d := Description(tree, id);
    assert multiset(d + "::" + name) == multiset(d) + multiset("::") + multiset(name);
    assert multiset("::")[':'] == 2;
    assert multiset(name)[':'] == 0;
  }

  /** The contexts, each with its hook vectors, held in one arena. */
  class Arena {
    var contexts: seq<Context>

    ghost predicate Valid()
      reads this
    {
      WellFormed(contexts)
    }

    constructor ()
      ensures Valid() && contexts == []
    {
      contexts := [];
    }

    /** `new Context{name, parent}`. */
    method NewContext(name: string, parent: Option<nat>) returns (id: nat)
      requires Valid() && (parent.Some? ==> parent.value < |contexts|)
      modifies this
      ensures Valid() && id == |old(contexts)|
      ensures contexts == old(contexts) + [Context(name, parent, [], [])]
    {
      id := |contexts|;
      contexts := contexts + [Context(name, parent, [], [])];
    }

    /** `addBefore`: appends to this context's befores only. */
    method AddBefore(id: nat, h: Hook)
      requires Valid() && id < |contexts|
      modifies this
      ensures Valid()
      ensures contexts == old(contexts[id := contexts[id].(befores := contexts[id].befores + [h])])
    {
      contexts := contexts[id := contexts[id].(befores := contexts[id].befores + [h])];
    }

    /** `addAfter`: appends to this context's afters only. */
    method AddAfter(id: nat, h: Hook)
      requires Valid() && id < |contexts|
      modifies this
      ensures Valid()
      ensures contexts == old(contexts[id := contexts[id].(afters := contexts[id].afters + [h])])
    {
      contexts := contexts[id := contexts[id].(afters := contexts[id].afters + [h])];
    }

    /** `create()`: the parent's `create`, then the befores in order. */
    method Create(id: nat) returns (r: Run)
      requires Valid() && id < |contexts|
      ensures r == CreateRun(contexts, id)
      decreases id
    {
      var c := contexts[id];
      if c.parent.Some? {
        r := Create(c.parent.value);
      } else {
        r := Nothing;
      }
      ghost var up := r;
      var i := 0;
      while i < |c.befores| && r.outcome == Normal
        invariant 0 <= i <= |c.befores|
        invariant r == Then(up, RunHooks(c.befores[..i]))
        invariant r.outcome.Thrown? ==> up.outcome.Thrown? || RunHooks(c.befores[..i]).outcome.Thrown?
      {
        var h := c.befores[i];
        r := Run(r.trace + [h.line], h.outcome);
        assert c.befores[..i + 1] == c.befores[..i] + [h];
        RunHooksAppend(c.befores[..i], [h]);
        assert [h][1..] == [];
        i := i + 1;
      }
      if i < |c.befores| {
        assert c.befores == c.befores[..i] + c.befores[i..];
        RunHooksAppend(c.befores[..i], c.befores[i..]);
      } else {
        assert c.befores[..i] == c.befores;
      }
    }

    /** `destroy()`: the afters from the last added to the first, then the parent's
        `destroy`. */
    method Destroy(id: nat) returns (r: Run)
      requires Valid() && id < |contexts|
      ensures r == DestroyRun(contexts, id)
      decreases id
    {
      var c := contexts[id];
      ghost var rev := Reversed(c.afters);
      r := Nothing;
      var i := |c.afters|;
      while i > 0 && r.outcome == Normal
        invariant 0 <= i <= |c.afters|
        invariant r == RunHooks(rev[..|c.afters| - i])
      {
        var h := c.afters[i - 1];
        ghost var k := |c.afters| - i;
        assert rev[k] == h;
        r := Run(r.trace + [h.line], h.outcome);
        assert rev[..k + 1] == rev[..k] + [h];
        RunHooksAppend(rev[..k], [h]);
        assert [h][1..] == [];
        i := i - 1;
      }
      ghost var k := |c.afters| - i;
      if i > 0 {
        assert rev == rev[..k] + rev[k..];
        RunHooksAppend(rev[..k], rev[k..]);
        return;
      }
      assert rev[..k] == rev;
      if r.outcome.Normal? && c.parent.Some? {
        var rest := Destroy(c.parent.value);
        r := Run(r.trace + rest.trace, rest.outcome);
      }
    }

    /** `Test::run` for a test declared in a context. */
    method RunTest(t: TestCase) returns (r: Run)
      requires Valid() && t.context.Some? && t.context.value < |contexts|
      ensures r == TestRun(contexts, t.context.value, t.body)
    {
      r := Create(t.context.value);
      if r.outcome.Thrown? {
        return;
      }
      r := Run(r.trace + [t.body.line], t.body.outcome);
      if r.outcome.Thrown? {
        return;
      }
      var down := Destroy(t.context.value);
      r := Then(r, down);
    }
  }
}
