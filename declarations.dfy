/**
 * The builders that declare contexts, hooks and tests: the Suite of dheunit.cpp and of
 * dheunit/src/suite.cpp (`addContext`, `addBefore`, `addAfter`, `addTest`, `runTests`),
 * and the `describe`/`before`/`after`/`it` of dheunit/dsl/dheunit.cpp, which keep a
 * stack of contexts instead of one current context. A builder callback is modelled as
 * the script of declarations it makes.
 */
module Declarations {
  import opened Wrappers
  import opened Contexts

  /** One call a builder callback makes. */
  datatype Decl =
    | Describe(name: string, body: seq<Decl>)   // `describe` / `addContext`
    | Before(hook: Hook)                        // `before` / `addBefore`
    | After(hook: Hook)                         // `after` / `addAfter`
    | It(name: string, test: Hook)              // `it` / `addTest`

  function Size(d: Decl): (n: nat)
    ensures n >= 1
    decreases d
  {
    match d
    case Describe(_, body) => 2 + SizeAll(body)
    case _ => 1
  }

  function SizeAll(ds: seq<Decl>): nat
    decreases ds
  {
    if ds == [] then 0 else Size(ds[0]) + SizeAll(ds[1..])
  }

  /** The contexts declared so far and the tests registered so far. */
  datatype Built = Built(tree: seq<Context>, tests: seq<TestCase>)

  /** The parent links end at a root, and every test's context exists. */
  predicate Sound(b: Built)
  {
    WellFormed(b.tree) &&
    forall i :: 0 <= i < |b.tests| && b.tests[i].context.Some? ==> b.tests[i].context.value < |b.tree|
  }

  /** A hook needs a current context to be added to. */
  predicate InScope(scope: Option<nat>, d: Decl)
  {
    scope.Some? || d.Describe? || d.It?
  }

  /** The contexts that existed keep their names and parents, and the tests registered
      before stay registered, in order. */
  predicate Grows(b: Built, r: Built)
  {
    |b.tree| <= |r.tree| && b.tests <= r.tests &&
    forall i :: 0 <= i < |b.tree| ==> r.tree[i].name == b.tree[i].name && r.tree[i].parent == b.tree[i].parent
  }

  /** The before hook one declaration adds to its own context, if any. */
  function OwnBefore(d: Decl): seq<Hook>
  {
    if d.Before? then [d.hook] else []
  }

  function OwnAfter(d: Decl): seq<Hook>
  {
    if d.After? then [d.hook] else []
  }

  /** The hooks a builder adds to its own context, in order. */
  function TopBefores(ds: seq<Decl>): seq<Hook>
    decreases |ds|
  {
    if ds == [] then [] else OwnBefore(ds[0]) + TopBefores(ds[1..])
  }

  function TopAfters(ds: seq<Decl>): seq<Hook>
    decreases |ds|
  {
    if ds == [] then [] else OwnAfter(ds[0]) + TopAfters(ds[1..])
  }

  /** One declaration made while `scope` is the current context. */
  function Declare(b: Built, scope: Option<nat>, d: Decl): (r: Built)
    requires Sound(b) && (scope.Some? ==> scope.value < |b.tree|) && InScope(scope, d)
    ensures Sound(r) && |b.tree| <= |r.tree|
    decreases Size(d), 0
  {
    match d
    case Describe(name, body) =>
      var id := |b.tree|;
      var b1 := Built(b.tree + [Context(name, scope, [], [])], b.tests);
      DeclareAll(b1, Some(id), body)
    case Before(h) =>
      var c := b.tree[scope.value];
      Built(b.tree[scope.value := c.(befores := c.befores + [h])], b.tests)
    case After(h) =>
      var c := b.tree[scope.value];
      Built(b.tree[scope.value := c.(afters := c.afters + [h])], b.tests)
    case It(name, test) =>
      Built(b.tree, b.tests + [TestCase(name, test, scope)])
  }

  /** A builder's declarations, in order, all with the same current context. */
  function DeclareAll(b: Built, scope: Option<nat>, ds: seq<Decl>): (r: Built)
    requires Sound(b) && (scope.Some? ==> scope.value < |b.tree|)
    requires forall i :: 0 <= i < |ds| ==> InScope(scope, ds[i])
    ensures Sound(r) && |b.tree| <= |r.tree|
    decreases SizeAll(ds), 1
  {
    if ds == [] then b
    else DeclareAll(Declare(b, scope, ds[0]), scope, ds[1..])
  }

  /** A declaration changes only the hooks of the current context: every other context
      that existed is unchanged, the current one keeps its name and parent, and the
      tests registered before stay registered, in order. */
  lemma {:induction false} DeclareKeeps(b: Built, scope: Option<nat>, d: Decl)
    requires Sound(b) && (scope.Some? ==> scope.value < |b.tree|) && InScope(scope, d)
    ensures var r := Declare(b, scope, d);
            Grows(b, r) && forall i :: 0 <= i < |b.tree| && Some(i) != scope ==> r.tree[i] == b.tree[i]
    ensures var r := Declare(b, scope, d);
            scope.Some? ==> r.tree[scope.value].name == b.tree[scope.value].name &&
                            r.tree[scope.value].parent == b.tree[scope.value].parent
    decreases Size(d), 0
  {
    if d.Describe? {
      var b1 := Built(b.tree + [Context(d.name, scope, [], [])], b.tests);
      DeclareAllKeeps(b1, Some(|b.tree|), d.body);
    }
  }

  lemma {:induction false} DeclareAllKeeps(b: Built, scope: Option<nat>, ds: seq<Decl>)
    requires Sound(b) && (scope.Some? ==> scope.value < |b.tree|)
    requires forall i :: 0 <= i < |ds| ==> InScope(scope, ds[i])
    ensures var r := DeclareAll(b, scope, ds);
            Grows(b, r) && forall i :: 0 <= i < |b.tree| && Some(i) != scope ==> r.tree[i] == b.tree[i]
    ensures var r := DeclareAll(b, scope, ds);
            scope.Some? ==> r.tree[scope.value].name == b.tree[scope.value].name &&
                            r.tree[scope.value].parent == b.tree[scope.value].parent
    decreases SizeAll(ds), 1
  {
    if ds != [] {
      var b1 := Declare(b, scope, ds[0]);
      DeclareKeeps(b, scope, ds[0]);
      DeclareAllKeeps(b1, scope, ds[1..]);
    }
  }

  /** The befores and afters a context ends up with are exactly those its builder added
      directly, in the order it added them: nested `describe`s add to their own
      contexts only. */
  lemma HooksOfScope(b: Built, s: nat, ds: seq<Decl>)
    requires Sound(b) && s < |b.tree|
    requires forall i :: 0 <= i < |ds| ==> InScope(Some(s), ds[i])
    ensures DeclareAll(b, Some(s), ds).tree[s].befores == b.tree[s].befores + TopBefores(ds)
    ensures DeclareAll(b, Some(s), ds).tree[s].afters == b.tree[s].afters + TopAfters(ds)
  {
    BeforesOfScope(b, s, ds);
    AftersOfScope(b, s, ds);
  }

  lemma {:induction false} BeforesOfScope(b: Built, s: nat, ds: seq<Decl>)
    requires Sound(b) && s < |b.tree|
    requires forall i :: 0 <= i < |ds| ==> InScope(Some(s), ds[i])
    ensures DeclareAll(b, Some(s), ds).tree[s].befores == b.tree[s].befores + TopBefores(ds)
    decreases |ds|
  {
    if ds == [] {
      assert b.tree[s].befores + [] == b.tree[s].befores;
    } else {
      var b1 := Declare(b, Some(s), ds[0]);
      BeforesOfScope(b1, s, ds[1..]);
      HookOfDecl(b, s, ds[0]);
      Associates(b.tree[s].befores, OwnBefore(ds[0]), TopBefores(ds[1..]));
    }
  }

  lemma {:induction false} AftersOfScope(b: Built, s: nat, ds: seq<Decl>)
    requires Sound(b) && s < |b.tree|
    requires forall i :: 0 <= i < |ds| ==> InScope(Some(s), ds[i])
    ensures DeclareAll(b, Some(s), ds).tree[s].afters == b.tree[s].afters + TopAfters(ds)
    decreases |ds|
  {
    if ds == [] {
      assert b.tree[s].afters + [] == b.tree[s].afters;
    } else {
      var b1 := Declare(b, Some(s), ds[0]);
      AftersOfScope(b1, s, ds[1..]);
      HookOfDecl(b, s, ds[0]);
      Associates(b.tree[s].afters, OwnAfter(ds[0]), TopAfters(ds[1..]));
    }
  }

  /** What one declaration adds to the hooks of its own scope. */
  lemma HookOfDecl(b: Built, s: nat, d: Decl)
    requires Sound(b) && s < |b.tree|
    ensures Declare(b, Some(s), d).tree[s].befores == b.tree[s].befores + OwnBefore(d)
    ensures Declare(b, Some(s), d).tree[s].afters == b.tree[s].afters + OwnAfter(d)
  {
    match d
    case Describe(name, body) =>
      var b1 := Built(b.tree + [Context(name, Some(s), [], [])], b.tests);
      DeclareAllKeeps(b1, Some(|b.tree|), body);
      assert b1.tree[s] == b.tree[s];
      assert b.tree[s].befores + [] == b.tree[s].befores;
      assert b.tree[s].afters + [] == b.tree[s].afters;
    case Before(h) =>
      assert b.tree[s].afters + [] == b.tree[s].afters;
    case After(h) =>
      assert b.tree[s].befores + [] == b.tree[s].befores;
    case It(_, _) =>
      assert b.tree[s].befores + [] == b.tree[s].befores;
      assert b.tree[s].afters + [] == b.tree[s].afters;
  }

  /** `describe(name, builder)` adds one context, a child of the current one, whose
      hooks are those the builder added directly. */
  lemma DescribeCreatesChild(b: Built, scope: Option<nat>, name: string, body: seq<Decl>)
    requires Sound(b) && (scope.Some? ==> scope.value < |b.tree|)
    requires forall i :: 0 <= i < |body| ==> InScope(Some(|b.tree|), body[i])
    ensures var r := Declare(b, scope, Describe(name, body));
            |b.tree| < |r.tree| &&
            r.tree[|b.tree|] == Context(name, scope, TopBefores(body), TopAfters(body))
  {
    var id := |b.tree|;
    var b1 := Built(b.tree + [Context(name, scope, [], [])], b.tests);
    HooksOfScope(b1, id, body);
    DeclareAllKeeps(b1, Some(id), body);
  }

  /** `runTests()`: the tests in registration order; nothing catches an exception. */
  function RunTests(tree: seq<Context>, tests: seq<TestCase>): Run
    requires WellFormed(tree)
    requires forall i :: 0 <= i < |tests| ==> tests[i].context.Some? && tests[i].context.value < |tree|
    decreases |tests|
  {
    if tests == [] then Nothing
    else
      var t := tests[|tests| - 1];
      Then(RunTests(tree, tests[..|tests| - 1]), TestRun(tree, t.context.value, t.body))
  }

  /** Once a test has thrown, the tests after it never run. */
  lemma {:induction false} RunTestsStop(tree: seq<Context>, tests: seq<TestCase>, n: nat)
    requires WellFormed(tree) && n <= |tests|
    requires forall i :: 0 <= i < |tests| ==> tests[i].context.Some? && tests[i].context.value < |tree|
    requires RunTests(tree, tests[..n]).outcome.Thrown?
    ensures RunTests(tree, tests) == RunTests(tree, tests[..n])
    decreases |tests| - n
  {
    if n < |tests| {
      assert tests[..|tests| - 1][..n] == tests[..n];
      RunTestsStop(tree, tests[..|tests| - 1], n);
    } else {
      assert tests[..n] == tests;
    }
  }

  /** The test one declaration registers on its own context, if any. */
  function OwnTest(d: Decl, scope: Option<nat>): seq<TestCase>
  {
    if d.It? then [TestCase(d.name, d.test, scope)] else []
  }

  /** The tests a builder registers directly, bound to its scope, in order. */
  function TopTests(ds: seq<Decl>, scope: Option<nat>): seq<TestCase>
    decreases |ds|
  {
    if ds == [] then [] else OwnTest(ds[0], scope) + TopTests(ds[1..], scope)
  }

  /** A `before`, `after` or `it` on the current context, spelled out. */
  lemma FlatStep(b: Built, s: nat, d: Decl)
    requires Sound(b) && s < |b.tree| && !d.Describe?
    ensures Declare(b, Some(s), d) ==
            Built(b.tree[s := AddHooks(b.tree[s], OwnBefore(d), OwnAfter(d))], b.tests + OwnTest(d, Some(s)))
  {
    var c := b.tree[s];
    assert c.befores + [] == c.befores && c.afters + [] == c.afters && b.tests + [] == b.tests;
    if d.It? {
      assert b.tree[s := c] == b.tree;
    }
  }

  /** Hooks added to one context in two steps. */
  function AddHooks(c: Context, bs: seq<Hook>, as_: seq<Hook>): Context
  {
    c.(befores := c.befores + bs, afters := c.afters + as_)
  }

  lemma AddHooksTwice(tree: seq<Context>, s: nat, bs1: seq<Hook>, as1: seq<Hook>, bs2: seq<Hook>, as2: seq<Hook>)
    requires s < |tree|
    ensures var t1 := tree[s := AddHooks(tree[s], bs1, as1)];
            t1[s := AddHooks(t1[s], bs2, as2)] == tree[s := AddHooks(tree[s], bs1 + bs2, as1 + as2)]
  {
    var c := tree[s];
    assert c.befores + bs1 + bs2 == c.befores + (bs1 + bs2);
    assert c.afters + as1 + as2 == c.afters + (as1 + as2);
  }

  /** A builder with no nested `describe` only adds hooks to its own context and
      registers tests bound to it. */
  lemma {:induction false} FlatDeclares(b: Built, s: nat, ds: seq<Decl>)
    requires Sound(b) && s < |b.tree|
    requires forall i :: 0 <= i < |ds| ==> !ds[i].Describe?
    ensures DeclareAll(b, Some(s), ds) ==
            Built(b.tree[s := AddHooks(b.tree[s], TopBefores(ds), TopAfters(ds))], b.tests + TopTests(ds, Some(s)))
    decreases |ds|
  {
    if ds == [] {
      var c := b.tree[s];
      assert c.befores + [] == c.befores && c.afters + [] == c.afters && b.tests + [] == b.tests;
      assert b.tree[s := c] == b.tree;
    } else {
      var d := ds[0];
      var b1 := Declare(b, Some(s), d);
      FlatStep(b, s, d);
      FlatDeclares(b1, s, ds[1..]);
      AddHooksTwice(b.tree, s, OwnBefore(d), OwnAfter(d), TopBefores(ds[1..]), TopAfters(ds[1..]));
      Associates(b.tests, OwnTest(d, Some(s)), TopTests(ds[1..], Some(s)));
    }
  }

  /** A builder's declarations split anywhere: the second part continues from what the
      first part built. */
  lemma {:induction false} DeclareAllAppend(b: Built, scope: Option<nat>, a: seq<Decl>, c: seq<Decl>)
    requires Sound(b) && (scope.Some? ==> scope.value < |b.tree|)
    requires forall i :: 0 <= i < |a + c| ==> InScope(scope, (a + c)[i])
    ensures forall i :: 0 <= i < |a| ==> InScope(scope, a[i])
    ensures forall i :: 0 <= i < |c| ==> InScope(scope, c[i])
    ensures DeclareAll(b, scope, a + c) == DeclareAll(DeclareAll(b, scope, a), scope, c)
    decreases |a|
  {
    assert forall i :: 0 <= i < |a| ==> (a + c)[i] == a[i];
    assert forall i :: 0 <= i < |c| ==> (a + c)[|a| + i] == c[i];
    if a == [] {
      assert a + c == c;
    } else {
      assert (a + c)[0] == a[0] && (a + c)[1..] == a[1..] + c;
      DeclareAllAppend(Declare(b, scope, a[0]), scope, a[1..], c);
    }
  }

  /** The shape of the builder at the end of dheunit.cpp: an outer context with one
      before and one after holding an inner context with one before, one after and
      some tests. */
  function Nested(outer: string, ob: Hook, oa: Hook, inner: string, ib: Hook, ia: Hook, its: seq<Decl>): seq<Decl>
  {
    [Describe(outer, [Before(ob), After(oa), Describe(inner, [Before(ib), After(ia)] + its)])]
  }

  /** The contexts the nested builder declares. */
  function NestedTree(root: string, outer: string, ob: Hook, oa: Hook, inner: string, ib: Hook, ia: Hook): seq<Context>
  {
    [Context(root, None, [], []), Context(outer, Some(0), [ob], [oa]), Context(inner, Some(1), [ib], [ia])]
  }

  /** What the nested builder declares on a fresh Suite: the two contexts, the inner one
      a child of the outer one, and its tests bound to the inner context. */
  lemma NestedBuilds(root: string, outer: string, ob: Hook, oa: Hook, inner: string, ib: Hook, ia: Hook, its: seq<Decl>)
    requires forall i :: 0 <= i < |its| ==> its[i].It?
    ensures DeclareAll(Built([Context(root, None, [], [])], []), Some(0), Nested(outer, ob, oa, inner, ib, ia, its))
         == Built(NestedTree(root, outer, ob, oa, inner, ib, ia), TopTests(its, Some(2)))
  {
    var nest := Describe(inner, [Before(ib), After(ia)] + its);
    OuterStarts(root, outer, ob, oa, inner, ib, ia, its);
    OuterBody(root, outer, ob, oa, nest);
    InnerBuilds(root, outer, ob, oa, inner, ib, ia, its);
  }

  /** The outer builder: its two hooks, then the inner `describe`. */
  lemma OuterBody(root: string, outer: string, ob: Hook, oa: Hook, nest: Decl)
    ensures DeclareAll(Built([Context(root, None, [], []), Context(outer, Some(0), [], [])], []), Some(1), [Before(ob), After(oa)] + [nest])
         == DeclareAll(Built([Context(root, None, [], []), Context(outer, Some(0), [ob], [oa])], []), Some(1), [nest])
  {
    var b1 := Built([Context(root, None, [], []), Context(outer, Some(0), [], [])], []);
    DeclareAllAppend(b1, Some(1), [Before(ob), After(oa)], [nest]);
    OuterHooks(root, outer, ob, oa);
  }

  /** `describe(outer, ...)` on a fresh Suite: a child of the root, then its builder. */
  lemma OuterStarts(root: string, outer: string, ob: Hook, oa: Hook, inner: string, ib: Hook, ia: Hook, its: seq<Decl>)
    requires forall i :: 0 <= i < |its| ==> its[i].It?
    ensures DeclareAll(Built([Context(root, None, [], [])], []), Some(0), Nested(outer, ob, oa, inner, ib, ia, its))
         == DeclareAll(Built([Context(root, None, [], []), Context(outer, Some(0), [], [])], []), Some(1),
                       [Before(ob), After(oa)] + [Describe(inner, [Before(ib), After(ia)] + its)])
  {
    var b0 := Built([Context(root, None, [], [])], []);
    var ds := Nested(outer, ob, oa, inner, ib, ia, its);
    var d := ds[0];
    assert DeclareAll(b0, Some(0), ds) == DeclareAll(Declare(b0, Some(0), d), Some(0), []);
    var b1 := Built([Context(root, None, [], []), Context(outer, Some(0), [], [])], []);
    assert b0.tree + [Context(outer, Some(0), [], [])] == b1.tree;
    assert Declare(b0, Some(0), d) == DeclareAll(b1, Some(1), d.body);
    assert d.body == [Before(ob), After(oa)] + [Describe(inner, [Before(ib), After(ia)] + its)];
  }

  lemma OuterHooks(root: string, outer: string, ob: Hook, oa: Hook)
    ensures DeclareAll(Built([Context(root, None, [], []), Context(outer, Some(0), [], [])], []), Some(1), [Before(ob), After(oa)])
         == Built([Context(root, None, [], []), Context(outer, Some(0), [ob], [oa])], [])
  {
    var tree := [Context(root, None, [], []), Context(outer, Some(0), [], [])];
    HookedScope(tree, 1, ob, oa, []);
    assert [Before(ob), After(oa)] + [] == [Before(ob), After(oa)];
    assert tree[1].befores + [ob] == [ob] && tree[1].afters + [oa] == [oa];
  }

  /** A context's own builder holding one before, one after and some tests. */
  lemma HookedScope(tree: seq<Context>, s: nat, ib: Hook, ia: Hook, its: seq<Decl>)
    requires WellFormed(tree) && s < |tree|
    requires forall i :: 0 <= i < |its| ==> its[i].It?
    ensures DeclareAll(Built(tree, []), Some(s), [Before(ib), After(ia)] + its)
         == Built(tree[s := AddHooks(tree[s], [ib], [ia])], TopTests(its, Some(s)))
  {
    var ds := [Before(ib), After(ia)] + its;
    FlatHooks(ib, ia, its, Some(s));
    FlatDeclares(Built(tree, []), s, ds);
    assert [] + TopTests(its, Some(s)) == TopTests(its, Some(s));
  }

  lemma InnerBuilds(root: string, outer: string, ob: Hook, oa: Hook, inner: string, ib: Hook, ia: Hook, its: seq<Decl>)
    requires forall i :: 0 <= i < |its| ==> its[i].It?
    ensures DeclareAll(Built([Context(root, None, [], []), Context(outer, Some(0), [ob], [oa])], []), Some(1), [Describe(inner, [Before(ib), After(ia)] + its)])
         == Built(NestedTree(root, outer, ob, oa, inner, ib, ia), TopTests(its, Some(2)))
  {
    var tree := [Context(root, None, [], []), Context(outer, Some(0), [ob], [oa])];
    var nest := Describe(inner, [Before(ib), After(ia)] + its);
    var t1 := tree + [Context(inner, Some(1), [], [])];
    ChainWellFormed(tree, t1);
    InnerStarts(tree, nest);
    HookedScope(t1, 2, ib, ia, its);
    InnerHooked(root, outer, ob, oa, inner, ib, ia);
  }

  /** The root, the outer context and, once declared, the inner one each link only back. */
  lemma ChainWellFormed(tree: seq<Context>, t1: seq<Context>)
    requires |tree| == 2 && tree[0].parent == None && tree[1].parent == Some(0)
    requires |t1| == 3 && t1[..2] == tree && t1[2].parent == Some(1)
    ensures WellFormed(tree) && WellFormed(t1)
  {
    assert t1[0] == tree[0] && t1[1] == tree[1];
  }

  lemma InnerHooked(root: string, outer: string, ob: Hook, oa: Hook, inner: string, ib: Hook, ia: Hook)
    ensures var t1 := [Context(root, None, [], []), Context(outer, Some(0), [ob], [oa])] + [Context(inner, Some(1), [], [])];
            t1[2 := AddHooks(t1[2], [ib], [ia])] == NestedTree(root, outer, ob, oa, inner, ib, ia)
  {
    assert [] + [ib] == [ib] && [] + [ia] == [ia];
  }

  /** `describe(inner, ...)` inside the outer context: a third context, then its builder. */
  lemma InnerStarts(tree: seq<Context>, nest: Decl)
    requires |tree| == 2 && WellFormed(tree) && nest.Describe?
    ensures DeclareAll(Built(tree, []), Some(1), [nest])
         == DeclareAll(Built(tree + [Context(nest.name, Some(1), [], [])], []), Some(2), nest.body)
  {
    var b := Built(tree, []);
    assert DeclareAll(b, Some(1), [nest]) == DeclareAll(Declare(b, Some(1), nest), Some(1), []);
  }

  /** The hooks of `[before, after] + tests`. */
  lemma FlatHooks(ib: Hook, ia: Hook, its: seq<Decl>, scope: Option<nat>)
    requires forall i :: 0 <= i < |its| ==> its[i].It?
    ensures TopBefores([Before(ib), After(ia)] + its) == [ib]
    ensures TopAfters([Before(ib), After(ia)] + its) == [ia]
    ensures TopTests([Before(ib), After(ia)] + its, scope) == TopTests(its, scope)
    ensures forall i :: 0 <= i < |[Before(ib), After(ia)] + its| ==> !([Before(ib), After(ia)] + its)[i].Describe?
  {
    var ds := [Before(ib), After(ia)] + its;
    assert ds[1..][1..] == its;
    assert forall i :: 2 <= i < |ds| ==> ds[i] == its[i - 2];
    NoHooks(its);
  }

  lemma {:induction false} NoHooks(its: seq<Decl>)
    requires forall i :: 0 <= i < |its| ==> its[i].It?
    ensures TopBefores(its) == [] && TopAfters(its) == []
    decreases |its|
  {
    if its != [] {
      NoHooks(its[1..]);
    }
  }

  /** Creating the inner context runs the outer before, then the inner one. */
  lemma NestedCreate(root: string, outer: string, ob: Hook, oa: Hook, inner: string, ib: Hook, ia: Hook)
    requires ob.outcome == Normal
    ensures var tree := NestedTree(root, outer, ob, oa, inner, ib, ia);
            WellFormed(tree) && CreateRun(tree, 2) == Run([ob.line, ib.line], ib.outcome)
  {
    var tree := NestedTree(root, outer, ob, oa, inner, ib, ia);
    assert RunHooks([ob]) == Run([ob.line], Normal);
    assert RunHooks([ib]) == Run([ib.line], ib.outcome);
    assert CreateRun(tree, 0) == Nothing;
    assert CreateRun(tree, 1) == Run([ob.line], Normal);
  }

  /** Destroying the inner context runs the inner after, then the outer one. */
  lemma NestedDestroy(root: string, outer: string, ob: Hook, oa: Hook, inner: string, ib: Hook, ia: Hook)
    requires ia.outcome == Normal
    ensures var tree := NestedTree(root, outer, ob, oa, inner, ib, ia);
            WellFormed(tree) && DestroyRun(tree, 2) == Run([ia.line, oa.line], oa.outcome)
  {
    var tree := NestedTree(root, outer, ob, oa, inner, ib, ia);
    assert RunHooks([oa]) == Run([oa.line], oa.outcome);
    assert RunHooks([ia]) == Run([ia.line], Normal);
    assert Reversed([oa]) == [oa] && Reversed([ia]) == [ia];
    assert DestroyRun(tree, 0) == Nothing;
    assert DestroyRun(tree, 1) == Run([oa.line], oa.outcome);
  }

  /** For OUTER holding INNER, a test of INNER runs OUTER's before, INNER's before, its
      body, INNER's after and OUTER's after, in that order. */
  lemma NestedTestRun(root: string, outer: string, ob: Hook, oa: Hook, inner: string, ib: Hook, ia: Hook, its: seq<Decl>, body: Hook)
    requires forall i :: 0 <= i < |its| ==> its[i].It?
    requires ob.outcome == Normal && oa.outcome == Normal && ib.outcome == Normal && ia.outcome == Normal
    requires body.outcome == Normal
    ensures var b := DeclareAll(Built([Context(root, None, [], [])], []), Some(0), Nested(outer, ob, oa, inner, ib, ia, its));
            |b.tree| == 3 && WellFormed(b.tree) &&
            TestRun(b.tree, 2, body) == Run([ob.line, ib.line, body.line, ia.line, oa.line], Normal)
  {
    NestedBuilds(root, outer, ob, oa, inner, ib, ia, its);
    InnerTestRun(root, outer, ob, oa, inner, ib, ia, body);
  }

  lemma InnerTestRun(root: string, outer: string, ob: Hook, oa: Hook, inner: string, ib: Hook, ia: Hook, body: Hook)
    requires ob.outcome == Normal && oa.outcome == Normal && ib.outcome == Normal && ia.outcome == Normal
    requires body.outcome == Normal
    ensures WellFormed(NestedTree(root, outer, ob, oa, inner, ib, ia))
    ensures TestRun(NestedTree(root, outer, ob, oa, inner, ib, ia), 2, body) == Run([ob.line, ib.line, body.line, ia.line, oa.line], Normal)
  {
    NestedCreate(root, outer, ob, oa, inner, ib, ia);
    NestedDestroy(root, outer, ob, oa, inner, ib, ia);
  }

  /** The first test of the example throws an `int` that nothing catches: `runTests`
      ends in the middle of that test, after OUTER's and INNER's befores and before
      any after hook. */
  lemma NestedThrowEndsRun(root: string, outer: string, ob: Hook, oa: Hook, inner: string, ib: Hook, ia: Hook, name: string, t: Hook, its: seq<Decl>)
    requires forall i :: 0 <= i < |its| ==> its[i].It?
    requires ob.outcome == Normal && ib.outcome == Normal && t.outcome.Thrown?
    ensures var b := DeclareAll(Built([Context(root, None, [], [])], []), Some(0), Nested(outer, ob, oa, inner, ib, ia, [It(name, t)] + its));
            |b.tree| == 3 && WellFormed(b.tree) &&
            (forall i :: 0 <= i < |b.tests| ==> b.tests[i].context == Some(2)) &&
            RunTests(b.tree, b.tests) == Run([ob.line, ib.line, t.line], t.outcome)
  {
    var all := [It(name, t)] + its;
    NestedBuilds(root, outer, ob, oa, inner, ib, ia, all);
    TestsBound(all);
    FirstTestThrows(root, outer, ob, oa, inner, ib, ia, t, TopTests(all, Some(2)));
  }

  /** When the first test on the inner context throws, the run is its befores and its body. */
  lemma {:induction false} FirstTestThrows(root: string, outer: string, ob: Hook, oa: Hook, inner: string, ib: Hook, ia: Hook, t: Hook, tests: seq<TestCase>)
    requires ob.outcome == Normal && ib.outcome == Normal && t.outcome.Thrown?
    requires |tests| >= 1 && tests[0].body == t
    requires forall i :: 0 <= i < |tests| ==> tests[i].context == Some(2)
    ensures WellFormed(NestedTree(root, outer, ob, oa, inner, ib, ia))
    ensures RunTests(NestedTree(root, outer, ob, oa, inner, ib, ia), tests) == Run([ob.line, ib.line, t.line], t.outcome)
  {
    var tree := NestedTree(root, outer, ob, oa, inner, ib, ia);
    NestedCreate(root, outer, ob, oa, inner, ib, ia);
    assert tests[..1][..0] == [];
    assert RunTests(tree, tests[..1]) == Run([ob.line, ib.line, t.line], t.outcome);
    RunTestsStop(tree, tests, 1);
  }

  lemma {:induction false} TestsBound(its: seq<Decl>)
    requires forall i :: 0 <= i < |its| ==> its[i].It?
    ensures |TopTests(its, Some(2))| == |its|
    ensures forall i :: 0 <= i < |its| ==> TopTests(its, Some(2))[i] == TestCase(its[i].name, its[i].test, Some(2))
    decreases |its|
  {
    if its != [] {
      TestsBound(its[1..]);
    }
  }

  /** The Suite of dheunit.cpp and dheunit/src/suite.cpp. */
  class Suite {
    const arena: Arena
    var current: nat
    var tests: seq<TestCase>

    ghost predicate Valid()
      reads this, arena
    {
      arena.Valid() && current < |arena.contexts| && Sound(State()) &&
      forall i :: 0 <= i < |tests| ==> tests[i].context.Some?
    }

    ghost function State(): Built
      reads this, arena
    {
      Built(arena.contexts, tests)
    }

    /** A new Suite: one root context, named "root" in dheunit.cpp and "suite" in
        dheunit/src/suite.h, which is the current context. */
    constructor (root: string)
      ensures Valid() && fresh(arena) && current == 0
      ensures State() == Built([Context(root, None, [], [])], [])
    {
      arena := new Arena();
      tests := [];
      new;
      current := arena.NewContext(root, None);
    }

    /** `addContext(name, body)`: a child of the current context becomes current while
        the body runs; the previous current context is then restored. */
    method AddContext(name: string, body: seq<Decl>)
      requires Valid()
      modifies this, arena
      ensures Valid() && current == old(current)
      ensures State() == Declare(old(State()), Some(current), Describe(name, body))
      decreases SizeAll(body) + 1, 2
    {
      var parent := current;
      current := arena.NewContext(name, Some(parent));
      Exec(body);
      current := parent;
    }

    /** `addBefore(body)`: a before hook on the current context. */
    method AddBefore(h: Hook)
      requires Valid()
      modifies arena
      ensures Valid() && State() == Declare(old(State()), Some(current), Before(h))
    {
      arena.AddBefore(current, h);
    }

    /** `addAfter(body)`: an after hook on the current context. */
    method AddAfter(h: Hook)
      requires Valid()
      modifies arena
      ensures Valid() && State() == Declare(old(State()), Some(current), After(h))
    {
      arena.AddAfter(current, h);
    }

    /** `addTest(name, body)`: a test bound to the current context. */
    method AddTest(name: string, body: Hook)
      requires Valid()
      modifies this
      ensures Valid() && current == old(current)
      ensures State() == Declare(old(State()), Some(current), It(name, body))
    {
      tests := tests + [TestCase(name, body, Some(current))];
    }

    /** Runs a builder callback with the current context as its scope. */
    method Exec(body: seq<Decl>)
      requires Valid()
      modifies this, arena
      ensures Valid() && current == old(current)
      ensures State() == DeclareAll(old(State()), Some(current), body)
      decreases SizeAll(body), 1
    {
      if body != [] {
        Do(body[0]);
        Exec(body[1..]);
      }
    }

    method Do(d: Decl)
      requires Valid()
      modifies this, arena
      ensures Valid() && current == old(current)
      ensures State() == Declare(old(State()), Some(current), d)
      decreases Size(d), 0
    {
      match d
      case Describe(name, body) => AddContext(name, body);
      case Before(h) => AddBefore(h);
      case After(h) => AddAfter(h);
      case It(name, test) => AddTest(name, test);
    }

    /** `runTests()`. */
    method RunAll() returns (r: Run)
      requires Valid()
      ensures r == RunTests(arena.contexts, tests)
    {
      r := Nothing;
      var i := 0;
      while i < |tests| && r.outcome.Normal?
        invariant 0 <= i <= |tests|
        invariant r == RunTests(arena.contexts, tests[..i])
      {
        var one := arena.RunTest(tests[i]);
        assert tests[..i + 1][..i] == tests[..i];
        r := Then(r, one);
        i := i + 1;
      }
      if i < |tests| {
        RunTestsStop(arena.contexts, tests, i);
      } else {
        assert tests[..i] == tests;
      }
    }
  }

  /** The declarations of dheunit/dsl/dheunit.cpp: a stack of contexts, the innermost
      `describe` on top. */
  class Dsl {
    const arena: Arena
    var stack: seq<nat>
    var tests: seq<TestCase>

    ghost predicate Valid()
      reads this, arena
    {
      arena.Valid() && Sound(State()) && forall k :: 0 <= k < |stack| ==> stack[k] < |arena.contexts|
    }

    ghost function State(): Built
      reads this, arena
    {
      Built(arena.contexts, tests)
    }

    constructor ()
      ensures Valid() && fresh(arena) && stack == [] && State() == Built([], [])
    {
      arena := new Arena();
      stack := [];
      tests := [];
    }

    /** `context()`: the top of the stack, or none when it is empty. */
    function Current(): (r: Option<nat>)
      reads this
      ensures r.None? <==> stack == []
      ensures r.Some? ==> r.value in stack
    {
      if stack == [] then None else Some(stack[|stack| - 1])
    }

    /** `describe(name, builder)`: pushes a child of the current context (a root when
        there is none), runs the builder, pops it again, and answers true. */
    method Describe(name: string, builder: seq<Decl>) returns (ok: bool)
      requires Valid()
      modifies this, arena
      ensures Valid() && stack == old(stack) && ok
      ensures State() == Declare(old(State()), old(Current()), Decl.Describe(name, builder))
      decreases SizeAll(builder) + 1, 2
    {
      var id := arena.NewContext(name, Current());
      stack := stack + [id];
      Exec(builder);
      stack := stack[..|stack| - 1];
      return true;
    }

    /** `before(body)`: needs an enclosing `describe`, since `context()` is null otherwise. */
    method Before(h: Hook)
      requires Valid() && stack != []
      modifies arena
      ensures Valid() && State() == Declare(old(State()), old(Current()), Decl.Before(h))
    {
      arena.AddBefore(stack[|stack| - 1], h);
    }

    /** `after(body)`: needs an enclosing `describe`. */
    method After(h: Hook)
      requires Valid() && stack != []
      modifies arena
      ensures Valid() && State() == Declare(old(State()), old(Current()), Decl.After(h))
    {
      arena.AddAfter(stack[|stack| - 1], h);
    }

    /** `it(name, body)`: a test bound to the current context, or to none outside every
        `describe`. */
    method It(name: string, body: Hook)
      requires Valid()
      modifies this
      ensures Valid() && stack == old(stack)
      ensures State() == Declare(old(State()), old(Current()), Decl.It(name, body))
    {
      tests := tests + [TestCase(name, body, Current())];
    }

    method Exec(body: seq<Decl>)
      requires Valid() && forall i :: 0 <= i < |body| ==> InScope(Current(), body[i])
      modifies this, arena
      ensures Valid() && stack == old(stack)
      ensures State() == DeclareAll(old(State()), old(Current()), body)
      decreases SizeAll(body), 1
    {
      if body != [] {
        Do(body[0]);
        Exec(body[1..]);
      }
    }

    method Do(d: Decl)
      requires Valid() && InScope(Current(), d)
      modifies this, arena
      ensures Valid() && stack == old(stack)
      ensures State() == Declare(old(State()), old(Current()), d)
      decreases Size(d), 0
    {
      match d
      case Describe(name, body) => var _ := Describe(name, body);
      case Before(h) => Before(h);
      case After(h) => After(h);
      case It(name, test) => It(name, test);
    }
  }
}
