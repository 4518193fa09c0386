// Hoisting static trees out of the render function does not change what is
// rendered, up to the marks that hoisting itself leaves.
module Hoisting {
  import opened Sequences
  import opened Children
  import opened Templates
  import opened Optimizer
  import opened Codegen
  import opened Contents

  // ----- static nodes render the same everywhere

  lemma {:induction false} SteadyRender(w: World, n: Node, e: Env, f: Env)
    requires Steady(w, n)
    ensures Render(w, n, e) == Render(w, n, f)
    decreases n
  {
    if n.Element? {
      SteadyRenderAll(w, n.children, e, f);
      assert AttrValues(w, e, n.attrs) == AttrValues(w, f, n.attrs);
      assert !LoneLoop(n.children);
      SteadyBase(w, n, e);
      SteadyBase(w, n, f);
    }
  }

  lemma SteadyBase(w: World, n: Node, e: Env)
    requires Steady(w, n) && n.Element?
    ensures Render(w, n, e) == RenderBase(w, n, e)
  {
  }

  lemma {:induction false} SteadyRenderAll(w: World, ns: seq<Node>, e: Env, f: Env)
    requires AllSteady(w, ns)
    ensures RenderAll(w, ns, e) == RenderAll(w, ns, f)
    decreases ns
  {
    if ns != [] {
      SteadyRenderAll(w, ns[..|ns| - 1], e, f);
      SteadyRender(w, ns[|ns| - 1], e, f);
    }
  }

  predicate KeylessVn(n: Vn) {
    n.TextVn? || n.CommentVn? || n.mark.key.None? || !n.mark.key.value.User?
  }

  // No vnode that renderStatic is going to mark has a key of the user's.
  predicate Keyless(c: Child) {
    match c
    case Single(n) => KeylessVn(n)
    case Nested(items, _) => forall i :: 0 <= i < |items| && items[i].Single? ==> KeylessVn(items[i].n)
    case _ => true
  }

  lemma {:induction false} SteadyKeyless(w: World, n: Node, e: Env)
    requires Steady(w, n)
    ensures Keyless(Render(w, n, e))
    decreases n
  {
    if n.Element? {
      SteadyBase(w, n, e);
      if n.tag == "template" && n.children != [] {
        SteadyKeylessAll(w, n.children, e);
        assert !LoneLoop(n.children);
      }
    }
  }

  lemma {:induction false} SteadyKeylessAll(w: World, ns: seq<Node>, e: Env)
    requires AllSteady(w, ns)
    ensures Keyless(Nested(RenderAll(w, ns, e), false))
    decreases ns
  {
    if ns != [] {
      SteadyKeylessAll(w, ns[..|ns| - 1], e);
      SteadyKeyless(w, ns[|ns| - 1], e);
    }
  }

  lemma KeylessErased(c: Child)
    ensures Keyless(EraseChild(c)) <==> Keyless(c)
  {
    if c.Nested? {
      var e := EraseKids(c.items);
      forall i | 0 <= i < |c.items|
        ensures e[i].Single? == c.items[i].Single?
        ensures c.items[i].Single? ==> (KeylessVn(e[i].n) <==> KeylessVn(c.items[i].n))
      {
        assert e[i] == EraseChild(c.items[i]);
      }
      assert EraseChild(c) == Nested(e, c.isVList);
      assert Keyless(Nested(e, c.isVList)) <==> Keyless(c);
    }
  }

  lemma PartErased(c: Child, index: nat, i: nat)
    requires c.Single? ==> KeylessVn(c.n)
    ensures EraseChild(MarkPart(c, index, i)) == EraseChild(c)
  {
  }

  lemma MarkErased(c: Child, index: nat)
    requires Keyless(c)
    ensures EraseChild(MarkTree(c, index)) == EraseChild(c)
  {
    if c.Nested? {
      var m := MarkTree(c, index);
      forall i | 0 <= i < |c.items|
        ensures EraseKids(m.items)[i] == EraseKids(c.items)[i]
      {
        PartErased(c.items[i], index, i);
        assert m.items[i] == MarkPart(c.items[i], index, i);
      }
    }
  }

  // ----- what is below a vnode matters only up to marks

  function EraseIn(k: Kids): Kids {
    if k.Kids? then Kids(EraseKids(k.items)) else NoKids
  }

  function EraseOutput(o: Output): Output {
    match o
    case One(n) => One(Erase(n))
    case Many(ns) => Many(EraseAll(ns))
    case _ => o
  }

  // Components do not look at the marks of the vnodes they are given.
  ghost predicate Blind(w: World) {
    forall tag: string, key: Option<Key>, attrs: seq<(string, string)>, j: Kids, k: Kids ::
      EraseIn(j) == EraseIn(k) ==>
        EraseOutput(w.component(tag, key, attrs, j)) == EraseOutput(w.component(tag, key, attrs, k))
  }

  lemma EraseSingles(ns: seq<Vn>)
    ensures EraseKids(Singles(ns)) == Singles(EraseAll(ns))
  {
  }

  lemma CreateErased(w: World, tag: string, key: Option<Key>, attrs: seq<(string, string)>, j: Kids, k: Kids)
    requires Blind(w) && EraseIn(j) == EraseIn(k)
    ensures EraseChild(CreateElement(w, tag, key, attrs, j)) == EraseChild(CreateElement(w, tag, key, attrs, k))
  {
    var a, b := w.component(tag, key, attrs, j), w.component(tag, key, attrs, k);
    assert EraseOutput(a) == EraseOutput(b);
    if a.Many? && b.Many? {
      EraseSingles(a.ns);
      EraseSingles(b.ns);
    }
  }

  lemma NormalizedErased(t: NormType, cs: seq<Child>, ds: seq<Child>)
    requires EraseKids(cs) == EraseKids(ds)
    ensures EraseKids(Normalized(t, cs)) == EraseKids(Normalized(t, ds))
  {
    match t
    case NoNormalize =>
    case SimpleNormalize =>
      SplicedErased(cs);
      SplicedErased(ds);
    case AlwaysNormalize =>
      NormIgnoresMarks(cs, ds);
      EraseSingles(Norm(cs, false, None));
      EraseSingles(Norm(ds, false, None));
  }

  // ----- generated code

  lemma {:induction false} GenGrows(w: World, n: Node, fns: seq<Code>)
    ensures fns <= Gen(w, n, fns).fns
    ensures n.Element? ==>
              fns <= GenBase(w, n, fns).fns && GenBase(w, n, fns).fns <= GenBranch(w, n, fns).fns
    decreases n, 4
  {
    if n.Element? {
      if n.children != [] {
        GenGrows(w, n.children[0], fns);
        GenGrowsAll(w, n.children, fns);
      }
      if n.branch.If? {
        GenGrowsElses(w, n.branch.elses, GenBase(w, n, fns).fns);
      }
      GenGrowsOut(w, n, fns);
    }
  }

  lemma GenGrowsOut(w: World, n: Node, fns: seq<Code>)
    requires n.Element?
    ensures GenBranch(w, n, fns).fns == GenLoop(w, n, fns).fns && GenLoop(w, n, fns).fns <= Gen(w, n, fns).fns
  {
  }

  lemma {:induction false} GenGrowsBlock(w: World, b: Block, fns: seq<Code>)
    ensures fns <= GenBlock(w, b, fns).fns
    decreases b, 5
  {
    GenGrows(w, b.node, fns);
  }

  lemma {:induction false} GenGrowsElses(w: World, elses: seq<Block>, fns: seq<Code>)
    ensures fns <= GenElses(w, elses, fns).fns
    decreases elses
  {
    if elses != [] {
      GenGrowsBlock(w, elses[0], fns);
      GenGrowsElses(w, elses[1..], GenBlock(w, elses[0], fns).fns);
    }
  }

  lemma {:induction false} GenGrowsAll(w: World, ns: seq<Node>, fns: seq<Code>)
    ensures fns <= GenAll(w, ns, fns).fns
    decreases ns
  {
    if ns != [] {
      GenGrowsAll(w, ns[..|ns| - 1], fns);
      GenGrows(w, ns[|ns| - 1], GenAll(w, ns[..|ns| - 1], fns).fns);
    }
  }

  // Function j is that of the static root m, generated when there were k
  // functions.
  ghost predicate OwnedBy(w: World, fns: seq<Code>, j: nat, m: Node, k: nat) {
    && k <= j < |fns| && m.Element? && m.marks.staticRoot && Hoistable(w, m)
    && GenLoop(w, m, fns[..k]) == Out(fns[j], fns[..j])
  }

  ghost predicate Owned(w: World, fns: seq<Code>, j: nat) {
    exists m: Node, k: nat :: OwnedBy(w, fns, j, m, k)
  }

  ghost predicate AllOwned(w: World, fns: seq<Code>, start: nat) {
    forall j: nat :: start <= j < |fns| ==> Owned(w, fns, j)
  }

  lemma OwnedGrows(w: World, fns: seq<Code>, gns: seq<Code>, j: nat)
    requires fns <= gns && Owned(w, fns, j)
    ensures Owned(w, gns, j)
  {
    var m: Node, k: nat :| OwnedBy(w, fns, j, m, k);
    assert gns[..k] == fns[..k] && gns[..j] == fns[..j];
    assert OwnedBy(w, gns, j, m, k);
  }

  lemma OwnedJoin(w: World, fns: seq<Code>, gns: seq<Code>, start: nat)
    requires fns <= gns && AllOwned(w, fns, start) && AllOwned(w, gns, |fns|)
    ensures AllOwned(w, gns, start)
  {
    hide Owned;
    forall j: nat | start <= j < |gns|
      ensures Owned(w, gns, j)
    {
      if j < |fns| {
        OwnedGrows(w, fns, gns, j);
      }
    }
  }

  lemma OwnedNone(w: World, fns: seq<Code>)
    ensures AllOwned(w, fns, |fns|)
  {
  }

  // Every static function that is generated is that of a static root, and has
  // the index that was generated for it.
  lemma {:induction false} GenOwns(w: World, n: Node, fns: seq<Code>)
    requires Hoistable(w, n)
    ensures AllOwned(w, Gen(w, n, fns).fns, |fns|)
    decreases n, 4
  {
    hide *;
    OwnedNone(w, fns);
    if n.Element? {
      GenGrows(w, n, fns);
      GenGrowsOut(w, n, fns);
      BranchOwns(w, n, fns);
      RootOwns(w, n, fns);
    } else {
      GenLeaf(w, n, fns);
    }
  }

  lemma GenLeaf(w: World, n: Node, fns: seq<Code>)
    requires !n.Element?
    ensures Gen(w, n, fns).fns == fns
  {
  }

  lemma RootOwns(w: World, n: Node, fns: seq<Code>)
    requires n.Element? && Hoistable(w, n) && fns <= GenLoop(w, n, fns).fns && AllOwned(w, GenLoop(w, n, fns).fns, |fns|)
    ensures AllOwned(w, Gen(w, n, fns).fns, |fns|)
  {
    hide Owned, GenLoop, Hoistable;
    var o := GenLoop(w, n, fns);
    if n.marks.staticRoot {
      var gns := o.fns + [o.code];
      GenHoisted(w, n, fns);
      assert gns[..|fns|] == fns && gns[..|o.fns|] == o.fns && gns[|o.fns|] == o.code;
      IsOwned(w, gns, |o.fns|, n, |fns|);
      OwnedJoin(w, o.fns, gns, |fns|);
    } else {
      GenPlain(w, n, fns);
    }
  }

  lemma IsOwned(w: World, fns: seq<Code>, j: nat, m: Node, k: nat)
    requires k <= j < |fns| && m.Element? && m.marks.staticRoot && Hoistable(w, m)
    requires GenLoop(w, m, fns[..k]) == Out(fns[j], fns[..j])
    ensures Owned(w, fns, j)
  {
    hide Hoistable, GenLoop;
    assert OwnedBy(w, fns, j, m, k);
  }

  lemma {:induction false} BranchOwns(w: World, n: Node, fns: seq<Code>)
    requires n.Element? && Hoistable(w, n)
    ensures AllOwned(w, GenLoop(w, n, fns).fns, |fns|) && fns <= GenLoop(w, n, fns).fns
    decreases n, 3
  {
    hide *;
    GenGrows(w, n, fns);
    GenGrowsOut(w, n, fns);
    HoistableElses(w, n);
    BaseOwns(w, n, fns);
    BranchFns(w, n, fns);
    if n.branch.If? {
      ElsesOwn(w, n.branch.elses, GenBase(w, n, fns).fns);
      OwnedJoin(w, GenBase(w, n, fns).fns, GenBranch(w, n, fns).fns, |fns|);
    }
  }

  lemma BranchFns(w: World, n: Node, fns: seq<Code>)
    requires n.Element?
    ensures GenBranch(w, n, fns).fns ==
            if n.branch.If? then GenElses(w, n.branch.elses, GenBase(w, n, fns).fns).fns else GenBase(w, n, fns).fns
  {
  }

  lemma {:induction false} ElsesOwn(w: World, elses: seq<Block>, fns: seq<Code>)
    requires HoistableBlocks(w, elses)
    ensures AllOwned(w, GenElses(w, elses, fns).fns, |fns|)
    decreases elses
  {
    hide *;
    OwnedNone(w, fns);
    ElsesFns(w, elses, fns);
    if elses != [] {
      var o := GenBlock(w, elses[0], fns);
      BlockOwns(w, elses[0], fns);
      GenGrowsElses(w, elses[1..], o.fns);
      ElsesOwn(w, elses[1..], o.fns);
      OwnedJoin(w, o.fns, GenElses(w, elses[1..], o.fns).fns, |fns|);
    }
  }

  lemma ElsesFns(w: World, elses: seq<Block>, fns: seq<Code>)
    requires HoistableBlocks(w, elses)
    ensures elses == [] ==> GenElses(w, elses, fns).fns == fns
    ensures elses != [] ==>
              && HoistableBlock(w, elses[0]) && HoistableBlocks(w, elses[1..])
              && var o := GenBlock(w, elses[0], fns);
                GenElses(w, elses, fns).fns == if elses[0].exp.None? then o.fns else GenElses(w, elses[1..], o.fns).fns
  {
  }

  lemma {:induction false} BlockOwns(w: World, b: Block, fns: seq<Code>)
    requires HoistableBlock(w, b)
    ensures AllOwned(w, GenBlock(w, b, fns).fns, |fns|)
    decreases b, 5
  {
    GenOwns(w, b.node, fns);
  }

  lemma {:induction false} BaseOwns(w: World, n: Node, fns: seq<Code>)
    requires n.Element? && Hoistable(w, n)
    ensures AllOwned(w, GenBase(w, n, fns).fns, |fns|)
    decreases n, 1
  {
    hide *;
    OwnedNone(w, fns);
    HoistableElses(w, n);
    BaseFns(w, n, fns);
    if n.children != [] {
      if LoneLoop(n.children) {
        HoistableFirst(w, n.children);
        GenOwns(w, n.children[0], fns);
      } else {
        AllOwn(w, n.children, fns);
      }
    }
  }

  lemma BaseFns(w: World, n: Node, fns: seq<Code>)
    requires n.Element?
    ensures GenBase(w, n, fns).fns ==
            if n.children == [] then fns
            else if LoneLoop(n.children) then Gen(w, n.children[0], fns).fns
            else GenAll(w, n.children, fns).fns
  {
  }

  lemma {:induction false} AllOwn(w: World, ns: seq<Node>, fns: seq<Code>)
    requires HoistableAll(w, ns)
    ensures AllOwned(w, GenAll(w, ns, fns).fns, |fns|)
    decreases ns
  {
    hide *;
    OwnedNone(w, fns);
    AllFns(w, ns, fns);
    if ns != [] {
      var before, n := ns[..|ns| - 1], ns[|ns| - 1];
      var os := GenAll(w, before, fns);
      HoistableFirst(w, ns);
      AllOwn(w, before, fns);
      GenGrows(w, n, os.fns);
      GenOwns(w, n, os.fns);
      OwnedJoin(w, os.fns, Gen(w, n, os.fns).fns, |fns|);
    }
  }

  lemma AllFns(w: World, ns: seq<Node>, fns: seq<Code>)
    ensures GenAll(w, ns, fns).fns ==
            if ns == [] then fns else Gen(w, ns[|ns| - 1], GenAll(w, ns[..|ns| - 1], fns).fns).fns
  {
  }

  // What a static function renders with no data and nothing cached.
  function Alone(w: World, fns: seq<Code>, i: nat): Child
    requires i < |fns|
  {
    Eval(Program(w, fns, map[]), fns[i], map[], map[], i).child
  }

  // Every cached tree is what its own function renders.
  ghost predicate ValidTrees(w: World, fns: seq<Code>, trees: Trees) {
    forall i: nat :: i in trees ==> i < |fns| && EraseChild(trees[i]) == EraseChild(Alone(w, fns, i))
  }

  ghost predicate Agrees(p: Program, r: Ran, c: Child) {
    EraseChild(r.child) == EraseChild(c) && ValidTrees(p.w, p.fns, r.trees)
  }

  ghost predicate AgreesAll(p: Program, r: RanAll, cs: seq<Child>) {
    EraseKids(r.items) == EraseKids(cs) && ValidTrees(p.w, p.fns, r.trees)
  }

  // The code may be run now: its static functions are in the program.
  ghost predicate Ready(p: Program, fns: seq<Code>, trees: Trees, limit: nat) {
    Blind(p.w) && fns <= p.fns && |fns| <= limit && ValidTrees(p.w, p.fns, trees)
  }

  lemma {:induction false} HoistPreserves(p: Program, n: Node, fns: seq<Code>, env: Env, trees: Trees, limit: nat)
    requires Hoistable(p.w, n) && Ready(p, Gen(p.w, n, fns).fns, trees, limit)
    ensures Agrees(p, Eval(p, Gen(p.w, n, fns).code, env, trees, limit), Render(p.w, n, env))
    decreases n, 4
  {
    hide *;
    if n.Element? {
      if n.marks.staticRoot {
        StaticCase(p, n, fns, env, trees, limit);
      } else {
        GenPlain(p.w, n, fns);
        LoopPreserves(p, n, fns, env, trees, limit);
      }
    } else {
      ReadyTrees(p, Gen(p.w, n, fns).fns, trees, limit);
      LeafPreserves(p, n, fns, env, trees, limit);
    }
  }

  lemma LeafPreserves(p: Program, n: Node, fns: seq<Code>, env: Env, trees: Trees, limit: nat)
    requires !n.Element? && ValidTrees(p.w, p.fns, trees)
    ensures Agrees(p, Eval(p, Gen(p.w, n, fns).code, env, trees, limit), Render(p.w, n, env))
  {
  }

  lemma GenPlain(w: World, n: Node, fns: seq<Code>)
    requires n.Element? && !n.marks.staticRoot
    ensures Gen(w, n, fns) == GenLoop(w, n, fns)
  {
  }

  lemma GenHoisted(w: World, n: Node, fns: seq<Code>)
    requires n.Element? && n.marks.staticRoot
    ensures var o := GenLoop(w, n, fns);
            Gen(w, n, fns) == Out(Hoisted(|o.fns|, n.marks.staticInFor), o.fns + [o.code])
  {
  }

  lemma {:induction false} StaticCase(p: Program, n: Node, fns: seq<Code>, env: Env, trees: Trees, limit: nat)
    requires n.Element? && n.marks.staticRoot
    requires Hoistable(p.w, n) && Ready(p, Gen(p.w, n, fns).fns, trees, limit)
    ensures Agrees(p, Eval(p, Gen(p.w, n, fns).code, env, trees, limit), Render(p.w, n, env))
    decreases n, 3, 1
  {
    hide *;
    var o := GenLoop(p.w, n, fns);
    var i := |o.fns|;
    GenHoisted(p.w, n, fns);
    ReadyFor(p, o.fns, o.code, trees, limit);
    var q := Program(p.w, p.fns, map[]);
    LoopPreserves(p, n, fns, p.base, trees, i);
    LoopPreserves(q, n, fns, map[], map[], i);
    HoistableSteady(p.w, n);
    SteadyRender(p.w, n, p.base, map[]);
    SteadyRender(p.w, n, env, map[]);
    SteadyKeyless(p.w, n, map[]);
    StaticRun(p, i, n.marks.staticInFor, env, trees, limit, Render(p.w, n, map[]));
  }

  lemma HoistableSteady(w: World, n: Node)
    requires n.Element? && n.marks.staticRoot && Hoistable(w, n)
    ensures Steady(w, n)
  {
  }

  lemma ReadyFor(p: Program, fns: seq<Code>, code: Code, trees: Trees, limit: nat)
    requires Ready(p, fns + [code], trees, limit)
    ensures Ready(p, fns, trees, |fns|) && Ready(Program(p.w, p.fns, map[]), fns, map[], |fns|)
    ensures |fns| < |p.fns| && p.fns[|fns|] == code && |fns| < limit && ValidTrees(p.w, p.fns, trees)
  {
    assert (fns + [code])[|fns|] == code;
  }

  // One run of renderStatic.
  lemma StaticRun(p: Program, i: nat, inFor: bool, env: Env, trees: Trees, limit: nat, c: Child)
    requires i < |p.fns| && i < limit && ValidTrees(p.w, p.fns, trees)
    requires Agrees(p, Eval(p, p.fns[i], p.base, trees, i), c)
    requires Agrees(Program(p.w, p.fns, map[]), Eval(Program(p.w, p.fns, map[]), p.fns[i], map[], map[], i), c)
    requires Keyless(c)
    ensures Agrees(p, Eval(p, Hoisted(i, inFor), env, trees, limit), c)
  {
    var r := Eval(p, p.fns[i], p.base, trees, i);
    KeylessErased(r.child);
    KeylessErased(c);
    MarkErased(r.child, i);
    assert EraseChild(Alone(p.w, p.fns, i)) == EraseChild(c);
  }

  lemma {:induction false} LoopPreserves(p: Program, n: Node, fns: seq<Code>, env: Env, trees: Trees, limit: nat)
    requires n.Element? && Hoistable(p.w, n) && Ready(p, GenLoop(p.w, n, fns).fns, trees, limit)
    ensures Agrees(p, Eval(p, GenLoop(p.w, n, fns).code, env, trees, limit), Render(p.w, n, env))
    decreases n, 3, 0
  {
    hide *;
    GenLoopIs(p.w, n, fns);
    if n.loop.None? {
      BranchPreserves(p, n, fns, env, trees, limit);
      RenderOnce(p.w, n, env);
    } else {
      var rounds := Rounds(p.w.eval(n.loop.value.exp, env));
      if rounds.Some? {
        RoundsPreserve(p, n, fns, env, rounds.value, trees, limit);
      }
      ReadyTrees(p, GenLoop(p.w, n, fns).fns, trees, limit);
      ListRun(p, n, GenBranch(p.w, n, fns).code, env, trees, limit);
    }
  }

  lemma GenLoopIs(w: World, n: Node, fns: seq<Code>)
    requires n.Element?
    ensures GenLoop(w, n, fns).fns == GenBranch(w, n, fns).fns
    ensures n.loop.Some? ==> GenLoop(w, n, fns).code == List(n.loop.value, GenBranch(w, n, fns).code)
    ensures n.loop.None? ==> GenLoop(w, n, fns) == GenBranch(w, n, fns)
  {
  }

  lemma RenderOnce(w: World, n: Node, env: Env)
    requires n.Element? && n.loop.None?
    ensures Render(w, n, env) == RenderBranch(w, n, env)
  {
  }

  lemma ListRun(p: Program, n: Node, body: Code, env: Env, trees: Trees, limit: nat)
    requires n.Element? && n.loop.Some?
    requires ValidTrees(p.w, p.fns, trees)
    requires var rounds := Rounds(p.w.eval(n.loop.value.exp, env));
             rounds.Some? ==>
               AgreesAll(p, EvalRounds(p, n.loop.value, body, env, rounds.value, trees, limit),
                         RenderRounds(p.w, n, env, rounds.value))
    ensures Agrees(p, Eval(p, List(n.loop.value, body), env, trees, limit), Render(p.w, n, env))
  {
  }

  lemma {:induction false} RoundsPreserve(p: Program, n: Node, fns: seq<Code>, env: Env, rounds: seq<Round>, trees: Trees, limit: nat)
    requires n.Element? && n.loop.Some? && Hoistable(p.w, n) && Ready(p, GenBranch(p.w, n, fns).fns, trees, limit)
    ensures AgreesAll(p, EvalRounds(p, n.loop.value, GenBranch(p.w, n, fns).code, env, rounds, trees, limit),
                      RenderRounds(p.w, n, env, rounds))
    decreases n, 2, |rounds| + 1
  {
    hide *;
    var l, body := n.loop.value, GenBranch(p.w, n, fns).code;
    if rounds == [] {
      NoRounds(p, n, body, env, trees, limit);
      ReadyTrees(p, GenBranch(p.w, n, fns).fns, trees, limit);
      AgreesNone(p, trees);
    } else {
      var before := rounds[..|rounds| - 1];
      RoundsPreserve(p, n, fns, env, before, trees, limit);
      var r := EvalRounds(p, l, body, env, before, trees, limit);
      ReadyAgain(p, GenBranch(p.w, n, fns).fns, trees, limit, r, RenderRounds(p.w, n, env, before));
      BranchPreserves(p, n, fns, Bind(env, l, rounds[|rounds| - 1]), r.trees, limit);
      OneRound(p, n, body, env, rounds, trees, limit);
      AgreesMore(p, r, RenderRounds(p.w, n, env, before), Eval(p, body, Bind(env, l, rounds[|rounds| - 1]), r.trees, limit),
                 RenderBranch(p.w, n, Bind(env, l, rounds[|rounds| - 1])));
    }
  }

  lemma NoRounds(p: Program, n: Node, body: Code, env: Env, trees: Trees, limit: nat)
    requires n.Element? && n.loop.Some?
    ensures EvalRounds(p, n.loop.value, body, env, [], trees, limit) == RanAll([], trees)
    ensures RenderRounds(p.w, n, env, []) == []
  {
  }

  lemma OneRound(p: Program, n: Node, body: Code, env: Env, rounds: seq<Round>, trees: Trees, limit: nat)
    requires n.Element? && n.loop.Some? && rounds != []
    ensures var l, before, e := n.loop.value, rounds[..|rounds| - 1], Bind(env, n.loop.value, rounds[|rounds| - 1]);
            var r := EvalRounds(p, l, body, env, before, trees, limit);
            var s := Eval(p, body, e, r.trees, limit);
            EvalRounds(p, l, body, env, rounds, trees, limit) == RanAll(r.items + [s.child], s.trees) &&
            RenderRounds(p.w, n, env, rounds) == RenderRounds(p.w, n, env, before) + [RenderBranch(p.w, n, e)]
  {
  }

  lemma ReadyTrees(p: Program, fns: seq<Code>, trees: Trees, limit: nat)
    requires Ready(p, fns, trees, limit)
    ensures ValidTrees(p.w, p.fns, trees) && Blind(p.w)
  {
  }

  lemma ReadyAgain(p: Program, fns: seq<Code>, trees: Trees, limit: nat, r: RanAll, cs: seq<Child>)
    requires Ready(p, fns, trees, limit) && AgreesAll(p, r, cs)
    ensures Ready(p, fns, r.trees, limit)
  {
  }

  lemma ReadyEarlier(p: Program, early: seq<Code>, fns: seq<Code>, trees: Trees, limit: nat)
    requires Ready(p, fns, trees, limit) && early <= fns
    ensures Ready(p, early, trees, limit)
  {
  }

  lemma AgreesNone(p: Program, trees: Trees)
    requires ValidTrees(p.w, p.fns, trees)
    ensures AgreesAll(p, RanAll([], trees), [])
  {
  }

  lemma AgreesMore(p: Program, r: RanAll, cs: seq<Child>, s: Ran, c: Child)
    requires AgreesAll(p, r, cs) && Agrees(p, s, c)
    ensures AgreesAll(p, RanAll(r.items + [s.child], s.trees), cs + [c])
  {
    EraseConcat(r.items, [s.child]);
    EraseConcat(cs, [c]);
    assert EraseKids([s.child]) == EraseKids([c]);
  }

  lemma {:induction false} BranchPreserves(p: Program, n: Node, fns: seq<Code>, env: Env, trees: Trees, limit: nat)
    requires n.Element? && Hoistable(p.w, n) && Ready(p, GenBranch(p.w, n, fns).fns, trees, limit)
    ensures Agrees(p, Eval(p, GenBranch(p.w, n, fns).code, env, trees, limit), RenderBranch(p.w, n, env))
    decreases n, 2, 0
  {
    hide *;
    GenBranchIs(p, n, fns, env, trees, limit);
    GenGrows(p.w, n, fns);
    var o := GenBase(p.w, n, fns);
    if n.branch.If? && !Truthy(p.w.eval(n.branch.exp, env)) {
      HoistableElses(p.w, n);
      ElsesPreserve(p, n.branch.elses, o.fns, env, trees, limit);
    } else {
      ReadyEarlier(p, o.fns, GenBranch(p.w, n, fns).fns, trees, limit);
      BasePreserves(p, n, fns, env, trees, limit);
    }
  }

  lemma GenBranchIs(p: Program, n: Node, fns: seq<Code>, env: Env, trees: Trees, limit: nat)
    requires n.Element?
    ensures var o, b := GenBase(p.w, n, fns), GenBranch(p.w, n, fns);
            if n.branch.If? && !Truthy(p.w.eval(n.branch.exp, env)) then
              var q := GenElses(p.w, n.branch.elses, o.fns);
              b.fns == q.fns && RenderBranch(p.w, n, env) == RenderElses(p.w, n.branch.elses, env) &&
              Eval(p, b.code, env, trees, limit) == Eval(p, q.code, env, trees, limit)
            else
              RenderBranch(p.w, n, env) == RenderBase(p.w, n, env) &&
              Eval(p, b.code, env, trees, limit) == Eval(p, o.code, env, trees, limit)
  {
  }

  ghost predicate HoistableAll(w: World, ns: seq<Node>) {
    forall i :: 0 <= i < |ns| ==> Hoistable(w, ns[i])
  }

  ghost predicate HoistableBlocks(w: World, bs: seq<Block>) {
    forall i :: 0 <= i < |bs| ==> HoistableBlock(w, bs[i])
  }

  lemma HoistableElses(w: World, n: Node)
    requires n.Element? && Hoistable(w, n)
    ensures HoistableAll(w, n.children)
    ensures n.branch.If? ==> HoistableBlocks(w, n.branch.elses)
  {
  }

  lemma {:induction false} ElsesPreserve(p: Program, elses: seq<Block>, fns: seq<Code>, env: Env, trees: Trees, limit: nat)
    requires HoistableBlocks(p.w, elses) && Ready(p, GenElses(p.w, elses, fns).fns, trees, limit)
    ensures Agrees(p, Eval(p, GenElses(p.w, elses, fns).code, env, trees, limit), RenderElses(p.w, elses, env))
    decreases elses
  {
    hide *;
    if elses == [] {
      ReadyTrees(p, GenElses(p.w, elses, fns).fns, trees, limit);
      NoElses(p, fns, env, trees, limit);
    } else {
      var b := elses[0];
      var o := GenBlock(p.w, b, fns);
      FirstElse(p, elses, fns, env, trees, limit);
      if b.exp.None? || Truthy(p.w.eval(b.exp.value, env)) {
        GenGrowsElses(p.w, elses[1..], o.fns);
        ReadyEarlier(p, o.fns, GenElses(p.w, elses, fns).fns, trees, limit);
        BlockPreserves(p, b, fns, env, trees, limit);
      } else {
        ElsesPreserve(p, elses[1..], o.fns, env, trees, limit);
      }
    }
  }

  lemma NoElses(p: Program, fns: seq<Code>, env: Env, trees: Trees, limit: nat)
    requires ValidTrees(p.w, p.fns, trees)
    ensures Agrees(p, Eval(p, GenElses(p.w, [], fns).code, env, trees, limit), RenderElses(p.w, [], env))
  {
  }

  lemma FirstElse(p: Program, elses: seq<Block>, fns: seq<Code>, env: Env, trees: Trees, limit: nat)
    requires elses != [] && HoistableBlocks(p.w, elses)
    ensures HoistableBlock(p.w, elses[0]) && HoistableBlocks(p.w, elses[1..])
    ensures var b, o, g := elses[0], GenBlock(p.w, elses[0], fns), GenElses(p.w, elses, fns);
            var q := GenElses(p.w, elses[1..], o.fns);
            (g.fns == if b.exp.None? then o.fns else q.fns) &&
            if b.exp.None? || Truthy(p.w.eval(b.exp.value, env)) then
              RenderElses(p.w, elses, env) == RenderBlock(p.w, b, env) &&
              Eval(p, g.code, env, trees, limit) == Eval(p, o.code, env, trees, limit)
            else
              RenderElses(p.w, elses, env) == RenderElses(p.w, elses[1..], env) &&
              Eval(p, g.code, env, trees, limit) == Eval(p, q.code, env, trees, limit)
  {
  }

  lemma {:induction false} BlockPreserves(p: Program, b: Block, fns: seq<Code>, env: Env, trees: Trees, limit: nat)
    requires HoistableBlock(p.w, b) && Ready(p, GenBlock(p.w, b, fns).fns, trees, limit)
    ensures Agrees(p, Eval(p, GenBlock(p.w, b, fns).code, env, trees, limit), RenderBlock(p.w, b, env))
    decreases b, 5
  {
    HoistPreserves(p, b.node, fns, env, trees, limit);
  }

  lemma {:induction false} BasePreserves(p: Program, n: Node, fns: seq<Code>, env: Env, trees: Trees, limit: nat)
    requires n.Element? && Hoistable(p.w, n) && Ready(p, GenBase(p.w, n, fns).fns, trees, limit)
    ensures Agrees(p, Eval(p, GenBase(p.w, n, fns).code, env, trees, limit), RenderBase(p.w, n, env))
    decreases n, 1
  {
    hide *;
    ReadyTrees(p, GenBase(p.w, n, fns).fns, trees, limit);
    HoistableElses(p.w, n);
    if n.children == [] {
      ChildlessRun(p, n, fns, env, trees, limit);
    } else if LoneLoop(n.children) {
      LoneRun(p, n, fns, env, trees, limit);
      HoistableFirst(p.w, n.children);
      HoistPreserves(p, n.children[0], fns, env, trees, limit);
    } else {
      ChildrenRun(p, n, fns, env, trees, limit);
      AllPreserve(p, n.children, fns, env, trees, limit);
    }
  }

  lemma HoistableFirst(w: World, ns: seq<Node>)
    requires HoistableAll(w, ns) && ns != []
    ensures Hoistable(w, ns[0]) && HoistableAll(w, ns[..|ns| - 1]) && Hoistable(w, ns[|ns| - 1])
  {
  }

  lemma ChildlessRun(p: Program, n: Node, fns: seq<Code>, env: Env, trees: Trees, limit: nat)
    requires n.Element? && n.children == [] && ValidTrees(p.w, p.fns, trees)
    ensures Agrees(p, Eval(p, GenBase(p.w, n, fns).code, env, trees, limit), RenderBase(p.w, n, env))
  {
  }

  lemma KidsErased(t: NormType, c: Child, d: Child)
    requires EraseChild(c) == EraseChild(d)
    ensures EraseIn(RunKids(t, c)) == EraseIn(RunKids(t, d))
    ensures RunKids(NoNormalize, c) == AsKids(c)
  {
    if c.Nested? {
      NormalizedErased(t, c.items, d.items);
    }
  }

  lemma LoneRun(p: Program, n: Node, fns: seq<Code>, env: Env, trees: Trees, limit: nat)
    requires n.Element? && n.children != [] && LoneLoop(n.children) && Blind(p.w)
    ensures GenBase(p.w, n, fns).fns == Gen(p.w, n.children[0], fns).fns
    ensures var o := Gen(p.w, n.children[0], fns);
            Agrees(p, Eval(p, o.code, env, trees, limit), Render(p.w, n.children[0], env)) ==>
              Agrees(p, Eval(p, GenBase(p.w, n, fns).code, env, trees, limit), RenderBase(p.w, n, env))
  {
    var o := Gen(p.w, n.children[0], fns);
    var r, c := Eval(p, o.code, env, trees, limit), Render(p.w, n.children[0], env);
    if Agrees(p, r, c) && n.tag != "template" {
      KidsErased(NoNormalize, r.child, c);
      KidsErased(NoNormalize, c, c);
      CreateErased(p.w, TagValue(p.w, env, n.tag, n.component), KeyValue(p.w, env, n.key), AttrValues(p.w, env, n.attrs),
                   RunKids(NoNormalize, r.child), AsKids(c));
    }
  }

  lemma ChildrenRun(p: Program, n: Node, fns: seq<Code>, env: Env, trees: Trees, limit: nat)
    requires n.Element? && n.children != [] && !LoneLoop(n.children) && Blind(p.w)
    ensures GenBase(p.w, n, fns).fns == GenAll(p.w, n.children, fns).fns
    ensures var os := GenAll(p.w, n.children, fns);
            AgreesAll(p, EvalAll(p, os.codes, env, trees, limit), RenderAll(p.w, n.children, env)) ==>
              Agrees(p, Eval(p, GenBase(p.w, n, fns).code, env, trees, limit), RenderBase(p.w, n, env))
  {
    var os := GenAll(p.w, n.children, fns);
    var r, cs := EvalAll(p, os.codes, env, trees, limit), RenderAll(p.w, n.children, env);
    if AgreesAll(p, r, cs) {
      var t := NormTypeOf(p.w, n.children);
      assert Eval(p, Items(os.codes), env, trees, limit) == Ran(Nested(r.items, false), r.trees);
      if n.tag != "template" {
        KidsErased(t, Nested(r.items, false), Nested(cs, false));
        CreateErased(p.w, TagValue(p.w, env, n.tag, n.component), KeyValue(p.w, env, n.key), AttrValues(p.w, env, n.attrs),
                     RunKids(t, Nested(r.items, false)), Kids(Normalized(t, cs)));
      }
    }
  }

  lemma {:induction false} AllPreserve(p: Program, ns: seq<Node>, fns: seq<Code>, env: Env, trees: Trees, limit: nat)
    requires HoistableAll(p.w, ns) && Ready(p, GenAll(p.w, ns, fns).fns, trees, limit)
    ensures AgreesAll(p, EvalAll(p, GenAll(p.w, ns, fns).codes, env, trees, limit), RenderAll(p.w, ns, env))
    decreases ns
  {
    hide *;
    AllRun(p, ns, fns, env, trees, limit);
    if ns == [] {
      ReadyTrees(p, GenAll(p.w, ns, fns).fns, trees, limit);
      AgreesNone(p, trees);
    } else {
      var before, n := ns[..|ns| - 1], ns[|ns| - 1];
      var os := GenAll(p.w, before, fns);
      HoistableFirst(p.w, ns);
      GenGrows(p.w, n, os.fns);
      ReadyEarlier(p, os.fns, GenAll(p.w, ns, fns).fns, trees, limit);
      AllPreserve(p, before, fns, env, trees, limit);
      var r := EvalAll(p, os.codes, env, trees, limit);
      ReadyAgain(p, GenAll(p.w, ns, fns).fns, trees, limit, r, RenderAll(p.w, before, env));
      HoistPreserves(p, n, os.fns, env, r.trees, limit);
      AgreesMore(p, r, RenderAll(p.w, before, env), Eval(p, Gen(p.w, n, os.fns).code, env, r.trees, limit),
                 Render(p.w, n, env));
    }
  }

  lemma AllRun(p: Program, ns: seq<Node>, fns: seq<Code>, env: Env, trees: Trees, limit: nat)
    ensures ns == [] ==> GenAll(p.w, ns, fns) == Outs([], fns) && RenderAll(p.w, ns, env) == [] &&
                         EvalAll(p, GenAll(p.w, ns, fns).codes, env, trees, limit) == RanAll([], trees)
    ensures ns != [] ==>
              var before, n := ns[..|ns| - 1], ns[|ns| - 1];
              var os := GenAll(p.w, before, fns);
              var o := Gen(p.w, n, os.fns);
              var r := EvalAll(p, os.codes, env, trees, limit);
              var s := Eval(p, o.code, env, r.trees, limit);
              GenAll(p.w, ns, fns).fns == o.fns && RenderAll(p.w, ns, env) == RenderAll(p.w, before, env) + [Render(p.w, n, env)] &&
              EvalAll(p, GenAll(p.w, ns, fns).codes, env, trees, limit) == RanAll(r.items + [s.child], s.trees)
  {
    if ns != [] {
      var os := GenAll(p.w, ns[..|ns| - 1], fns);
      var o := Gen(p.w, ns[|ns| - 1], os.fns);
      assert (os.codes + [o.code])[..|os.codes|] == os.codes;
    }
  }

  // ----- the optimizer changes marks only

  // The node without its marks.
  function Unmark(n: Node): Node
    decreases n, 0
  {
    if !n.Element? then n
    else
      Element(n.tag, n.key, n.attrs, n.component, n.loop,
              if n.branch.If? then If(n.branch.exp, UnmarkBlocks(n.branch.elses)) else n.branch,
              UnmarkAll(n.children), Marks(false, false, false))
  }

  function UnmarkAll(ns: seq<Node>): (r: seq<Node>)
    ensures |r| == |ns| && forall i :: 0 <= i < |ns| ==> r[i] == Unmark(ns[i])
    decreases ns
  {
    if ns == [] then [] else [Unmark(ns[0])] + UnmarkAll(ns[1..])
  }

  function UnmarkBlock(b: Block): Block
    decreases b
  {
    Block(b.exp, Unmark(b.node))
  }

  function UnmarkBlocks(bs: seq<Block>): (r: seq<Block>)
    ensures |r| == |bs| && forall i :: 0 <= i < |bs| ==> r[i] == UnmarkBlock(bs[i])
    decreases bs
  {
    if bs == [] then [] else [UnmarkBlock(bs[0])] + UnmarkBlocks(bs[1..])
  }

  lemma {:induction false} MarkedUnmark(w: World, n: Node, under: bool)
    ensures Unmark(Marked(w, n, under)) == Unmark(n)
    decreases n, 0
  {
    if n.Element? && (w.reserved(n.tag) || n.tag == "slot") {
      var r := Marked(w, n, under);
      forall i | 0 <= i < |n.children|
        ensures Unmark(r.children[i]) == Unmark(n.children[i])
      {
        MarkedUnmark(w, n.children[i], Inside(n, under));
      }
      if n.branch.If? {
        forall i | 0 <= i < |n.branch.elses|
          ensures UnmarkBlock(r.branch.elses[i]) == UnmarkBlock(n.branch.elses[i])
        {
          MarkedUnmarkBlock(w, n.branch.elses[i], under);
        }
        assert UnmarkBlocks(r.branch.elses) == UnmarkBlocks(n.branch.elses);
      }
      assert UnmarkAll(r.children) == UnmarkAll(n.children);
    }
  }

  lemma {:induction false} MarkedUnmarkBlock(w: World, b: Block, under: bool)
    ensures UnmarkBlock(MarkedBlock(w, b, under)) == UnmarkBlock(b)
    decreases b
  {
    MarkedUnmark(w, b.node, under);
  }

  lemma {:induction false} RootedUnmark(n: Node, isInFor: bool)
    ensures Unmark(Rooted(n, isInFor)) == Unmark(n)
    decreases n, 0
  {
    if n.Element? && !WorthHoisting(n) {
      var r := Rooted(n, isInFor);
      forall i | 0 <= i < |n.children|
        ensures Unmark(r.children[i]) == Unmark(n.children[i])
      {
        RootedUnmark(n.children[i], isInFor || n.loop.Some?);
      }
      if n.branch.If? {
        forall i | 0 <= i < |n.branch.elses|
          ensures UnmarkBlock(r.branch.elses[i]) == UnmarkBlock(n.branch.elses[i])
        {
          RootedUnmarkBlock(n.branch.elses[i], isInFor);
        }
        assert UnmarkBlocks(r.branch.elses) == UnmarkBlocks(n.branch.elses);
      }
      assert UnmarkAll(r.children) == UnmarkAll(n.children);
    }
  }

  lemma {:induction false} RootedUnmarkBlock(b: Block, isInFor: bool)
    ensures UnmarkBlock(RootedBlock(b, isInFor)) == UnmarkBlock(b)
    decreases b
  {
    RootedUnmark(b.node, isInFor);
  }

  // Marks have no meaning of their own.
  lemma {:induction false} RenderUnmark(w: World, n: Node, env: Env)
    ensures Render(w, Unmark(n), env) == Render(w, n, env)
    decreases n, 4
  {
    if n.Element? {
      var m := Unmark(n);
      if n.loop.None? {
        BranchUnmark(w, n, env);
      } else {
        var rounds := Rounds(w.eval(n.loop.value.exp, env));
        if rounds.Some? {
          RoundsUnmark(w, n, env, rounds.value);
        }
      }
    }
  }

  lemma {:induction false} RoundsUnmark(w: World, n: Node, env: Env, rounds: seq<Round>)
    requires n.Element? && n.loop.Some?
    ensures RenderRounds(w, Unmark(n), env, rounds) == RenderRounds(w, n, env, rounds)
    decreases n, 3, |rounds|
  {
    if rounds != [] {
      RoundsUnmark(w, n, env, rounds[..|rounds| - 1]);
      BranchUnmark(w, n, Bind(env, n.loop.value, rounds[|rounds| - 1]));
    }
  }

  lemma {:induction false} BranchUnmark(w: World, n: Node, env: Env)
    requires n.Element?
    ensures RenderBranch(w, Unmark(n), env) == RenderBranch(w, n, env)
    decreases n, 2
  {
    BaseUnmark(w, n, env);
    if n.branch.If? {
      ElsesUnmark(w, n.branch.elses, env);
    }
  }

  lemma {:induction false} ElsesUnmark(w: World, bs: seq<Block>, env: Env)
    ensures RenderElses(w, UnmarkBlocks(bs), env) == RenderElses(w, bs, env)
    decreases bs
  {
    if bs != [] {
      BlockUnmark(w, bs[0], env);
      ElsesUnmark(w, bs[1..], env);
      assert UnmarkBlocks(bs)[1..] == UnmarkBlocks(bs[1..]);
    }
  }

  lemma {:induction false} BlockUnmark(w: World, b: Block, env: Env)
    ensures RenderBlock(w, UnmarkBlock(b), env) == RenderBlock(w, b, env)
    decreases b, 5
  {
    RenderUnmark(w, b.node, env);
  }

  lemma {:induction false} BaseUnmark(w: World, n: Node, env: Env)
    requires n.Element?
    ensures RenderBase(w, Unmark(n), env) == RenderBase(w, n, env)
    decreases n, 1
  {
    AllUnmark(w, n.children, env);
    if LoneLoop(n.children) {
      RenderUnmark(w, n.children[0], env);
    }
    NormTypeUnmark(w, n.children);
    ShapeUnmark(n.children);
    hide Render, RenderAll, NormTypeOf, LoneLoop, UnmarkAll, CreateElement;
    assert Unmark(n).children == UnmarkAll(n.children);
    BaseAlike(w, n, Unmark(n), env);
  }

  lemma ShapeUnmark(ns: seq<Node>)
    ensures LoneLoop(UnmarkAll(ns)) <==> LoneLoop(ns)
    ensures UnmarkAll(ns) == [] <==> ns == []
    ensures ns != [] ==> UnmarkAll(ns)[0] == Unmark(ns[0])
  {
  }

  lemma BaseAlike(w: World, n: Node, m: Node, env: Env)
    requires n.Element? && m.Element? && m == Unmark(n)
    requires LoneLoop(m.children) <==> LoneLoop(n.children)
    requires m.children == [] <==> n.children == []
    requires LoneLoop(n.children) ==> Render(w, m.children[0], env) == Render(w, n.children[0], env)
    requires RenderAll(w, m.children, env) == RenderAll(w, n.children, env)
    requires NormTypeOf(w, m.children) == NormTypeOf(w, n.children)
    ensures RenderBase(w, m, env) == RenderBase(w, n, env)
  {
    hide Render, RenderAll, NormTypeOf, UnmarkAll, CreateElement;
  }

  lemma {:induction false} AllUnmark(w: World, ns: seq<Node>, env: Env)
    ensures RenderAll(w, UnmarkAll(ns), env) == RenderAll(w, ns, env)
    decreases ns
  {
    hide Render, Unmark;
    if ns != [] {
      AllUnmark(w, ns[..|ns| - 1], env);
      RenderUnmark(w, ns[|ns| - 1], env);
      assert UnmarkAll(ns)[..|ns| - 1] == UnmarkAll(ns[..|ns| - 1]);
    }
  }

  lemma AsksUnmark(w: World, n: Node)
    ensures AsksAlways(Unmark(n)) <==> AsksAlways(n)
    ensures AsksSimple(w, Unmark(n)) <==> AsksSimple(w, n)
  {
    if n.Element? && n.branch.If? {
      var bs := UnmarkBlocks(n.branch.elses);
      forall i | 0 <= i < |bs|
        ensures NeedsNormalization(bs[i].node) <==> NeedsNormalization(n.branch.elses[i].node)
        ensures MaybeComponent(w, bs[i].node) <==> MaybeComponent(w, n.branch.elses[i].node)
      {
        assert bs[i] == UnmarkBlock(n.branch.elses[i]);
      }
    }
  }

  lemma NormTypeUnmark(w: World, ns: seq<Node>)
    ensures NormTypeOf(w, UnmarkAll(ns)) == NormTypeOf(w, ns)
  {
    forall i | 0 <= i < |ns|
      ensures AsksAlways(UnmarkAll(ns)[i]) <==> AsksAlways(ns[i])
      ensures AsksSimple(w, UnmarkAll(ns)[i]) <==> AsksSimple(w, ns[i])
    {
      AsksUnmark(w, ns[i]);
    }
  }

  lemma OptimizedRender(w: World, root: Node, env: Env)
    ensures Render(w, Optimized(w, root), env) == Render(w, root, env)
  {
    MarkedUnmark(w, root, false);
    RootedUnmark(Marked(w, root, false), false);
    RenderUnmark(w, root, env);
    RenderUnmark(w, Optimized(w, root), env);
  }

  // ----- every render of a component

  // One call of the render function generated from the optimized template.
  function RunOnce(w: World, root: Node, env: Env, trees: Trees): Ran {
    var o := Gen(w, Optimized(w, root), []);
    Eval(Program(w, o.fns, env), o.code, env, trees, |o.fns|)
  }

  // Successive renders with changing data, keeping the static trees.
  function RunAll(w: World, root: Node, envs: seq<Env>): RanAll {
    if envs == [] then RanAll([], map[])
    else
      var r := RunAll(w, root, envs[..|envs| - 1]);
      var s := RunOnce(w, root, envs[|envs| - 1], r.trees);
      RanAll(r.items + [s.child], s.trees)
  }

  lemma RenderPreserved(w: World, root: Node, env: Env, trees: Trees)
    requires Raw(root) && Blind(w) && ValidTrees(w, Gen(w, Optimized(w, root), []).fns, trees)
    ensures EraseChild(RunOnce(w, root, env, trees).child) == EraseChild(Render(w, root, env))
    ensures ValidTrees(w, Gen(w, Optimized(w, root), []).fns, RunOnce(w, root, env, trees).trees)
  {
    var n := Optimized(w, root);
    var o := Gen(w, n, []);
    OptimizedHoistable(w, root);
    OptimizedRender(w, root, env);
    HoistPreserves(Program(w, o.fns, env), n, [], env, trees, |o.fns|);
  }

  lemma NoTrees(w: World, fns: seq<Code>)
    ensures ValidTrees(w, fns, map[])
  {
  }

  // However often a component renders, each render gives what the template
  // means for the data of that moment.
  lemma {:induction false} RendersPreserved(w: World, root: Node, envs: seq<Env>)
    requires Raw(root) && Blind(w)
    ensures ValidTrees(w, Gen(w, Optimized(w, root), []).fns, RunAll(w, root, envs).trees)
    ensures |RunAll(w, root, envs).items| == |envs|
    ensures forall i :: 0 <= i < |envs| ==>
                          EraseChild(RunAll(w, root, envs).items[i]) == EraseChild(Render(w, root, envs[i]))
    decreases |envs|
  {
    hide Raw, Blind, Optimized, Gen, Eval, Render, EraseChild, ValidTrees, RunOnce;
    if envs == [] {
      NoTrees(w, Gen(w, Optimized(w, root), []).fns);
    } else {
      var before := envs[..|envs| - 1];
      RendersPreserved(w, root, before);
      RenderPreserved(w, root, envs[|envs| - 1], RunAll(w, root, before).trees);
    }
  }

  // Each of them shows what the template holds for the data of that moment.
  lemma RendersContent(w: World, loading: string -> bool, root: Node, envs: seq<Env>)
    requires Raw(root) && Blind(w) && Regular(w, loading)
    ensures |RunAll(w, root, envs).items| == |envs|
    ensures forall i :: 0 <= i < |envs| ==>
                          OfChild(RunAll(w, root, envs).items[i]) == OfNode(w, loading, root, envs[i])
  {
    RendersPreserved(w, root, envs);
    hide *;
    forall i | 0 <= i < |envs|
      ensures OfChild(RunAll(w, root, envs).items[i]) == OfNode(w, loading, root, envs[i])
    {
      SameContent(RunAll(w, root, envs).items[i], Render(w, root, envs[i]));
      RenderContent(w, loading, root, envs[i]);
    }
  }

  lemma AllContent(w: World, root: Node, env: Env, c: Child)
    requires EraseChild(c) == EraseChild(Render(w, root, env))
    ensures forall loading: string -> bool :: Regular(w, loading) ==> OfChild(c) == OfNode(w, loading, root, env)
  {
    SameContent(c, Render(w, root, env));
    hide OfChild, OfNode, Regular;
    forall loading: string -> bool | Regular(w, loading)
      ensures OfChild(c) == OfNode(w, loading, root, env)
    {
      RenderContent(w, loading, root, env);
    }
  }

  // The code generated without optimizing, for comparison.
  function RunPlain(w: World, root: Node, env: Env): Child {
    var o := Gen(w, root, []);
    Eval(Program(w, o.fns, env), o.code, env, map[], |o.fns|).child
  }

  lemma OptimizedLikePlain(w: World, root: Node, env: Env, trees: Trees)
    requires Raw(root) && Blind(w) && ValidTrees(w, Gen(w, Optimized(w, root), []).fns, trees)
    ensures EraseChild(RunOnce(w, root, env, trees).child) == EraseChild(RunPlain(w, root, env))
  {
    RenderPreserved(w, root, env, trees);
    RawIs(w, root);
    var o := Gen(w, root, []);
    HoistPreserves(Program(w, o.fns, env), root, [], env, map[], |o.fns|);
  }

  // Running static function i, with any valid cache and any data, gives what
  // its owner means, and nothing in it has a key that marking would overwrite.
  lemma StaticMeaning(w: World, root: Node, fns: seq<Code>, trees: Trees, i: nat, data: Env) returns (m: Node, k: nat)
    requires Raw(root) && Blind(w) && fns == Gen(w, Optimized(w, root), []).fns && ValidTrees(w, fns, trees) && i < |fns|
    ensures OwnedBy(w, fns, i, m, k)
    ensures var r := Eval(Program(w, fns, data), fns[i], data, trees, i);
            && EraseChild(r.child) == EraseChild(Templates.Render(w, m, data))
            && EraseChild(Alone(w, fns, i)) == EraseChild(Templates.Render(w, m, data))
            && EraseChild(MarkTree(r.child, i)) == EraseChild(r.child)
            && ValidTrees(w, fns, r.trees[i := MarkTree(r.child, i)])
  {
    hide *;
    OptimizedHoistable(w, root);
    GenOwns(w, Optimized(w, root), []);
    m, k := OwnerOf(w, fns, i);
    RunOwner(w, fns, trees, i, data, m, k);
  }

  lemma OwnerOf(w: World, fns: seq<Code>, i: nat) returns (m: Node, k: nat)
    requires AllOwned(w, fns, 0) && i < |fns|
    ensures OwnedBy(w, fns, i, m, k)
  {
    hide OwnedBy;
    assert Owned(w, fns, i);
    m, k :| OwnedBy(w, fns, i, m, k);
  }

  lemma RunOwner(w: World, fns: seq<Code>, trees: Trees, i: nat, data: Env, m: Node, k: nat)
    requires Blind(w) && ValidTrees(w, fns, trees) && i < |fns| && OwnedBy(w, fns, i, m, k)
    ensures var r := Eval(Program(w, fns, data), fns[i], data, trees, i);
            && EraseChild(r.child) == EraseChild(Templates.Render(w, m, data))
            && EraseChild(Alone(w, fns, i)) == EraseChild(Templates.Render(w, m, data))
            && EraseChild(MarkTree(r.child, i)) == EraseChild(r.child)
            && ValidTrees(w, fns, r.trees[i := MarkTree(r.child, i)])
  {
    hide *;
    var p, q := Program(w, fns, data), Program(w, fns, map[]);
    OwnerParts(w, fns, i, m, k);
    NothingCached(w, fns);
    ReadyAt(p, i, trees);
    ReadyAt(q, i, map[]);
    LoopPreserves(p, m, fns[..k], data, trees, i);
    LoopPreserves(q, m, fns[..k], map[], map[], i);
    HoistableSteady(w, m);
    SteadyRender(w, m, data, map[]);
    SteadyKeyless(w, m, data);
    Kept(p, fns, i, data, trees, Templates.Render(w, m, data));
  }

  lemma NothingCached(w: World, fns: seq<Code>)
    ensures ValidTrees(w, fns, map[])
  {
  }

  lemma OwnerParts(w: World, fns: seq<Code>, i: nat, m: Node, k: nat)
    requires OwnedBy(w, fns, i, m, k)
    ensures k <= i < |fns| && m.Element? && m.marks.staticRoot && Hoistable(w, m)
    ensures GenLoop(w, m, fns[..k]).fns == fns[..i] && GenLoop(w, m, fns[..k]).code == fns[i]
  {
    hide Hoistable, GenLoop;
  }

  lemma ReadyAt(p: Program, i: nat, trees: Trees)
    requires Blind(p.w) && i <= |p.fns| && ValidTrees(p.w, p.fns, trees)
    ensures Ready(p, p.fns[..i], trees, i)
  {
    hide Blind, ValidTrees;
  }

  lemma Kept(p: Program, fns: seq<Code>, i: nat, data: Env, trees: Trees, c: Child)
    requires p.fns == fns && i < |fns| && Keyless(c)
    requires Agrees(p, Eval(p, fns[i], data, trees, i), c)
    requires Agrees(Program(p.w, fns, map[]), Eval(Program(p.w, fns, map[]), fns[i], map[], map[], i), c)
    ensures var r := Eval(p, fns[i], data, trees, i);
            && EraseChild(r.child) == EraseChild(c) && EraseChild(Alone(p.w, fns, i)) == EraseChild(c)
            && EraseChild(MarkTree(r.child, i)) == EraseChild(r.child)
            && ValidTrees(p.w, fns, r.trees[i := MarkTree(r.child, i)])
  {
    hide EraseChild, MarkTree, Keyless, Eval;
    var r := Eval(p, fns[i], data, trees, i);
    KeylessErased(r.child);
    KeylessErased(c);
    MarkErased(r.child, i);
  }

  // ----- the marks themselves

  // The vnode of static tree `index`, or each vnode of its array, is static
  // and has a key of its own.
  predicate MarkedAs(t: Child, index: nat) {
    match t
    case Single(n) => n.mark == Mark(Some(Static(index, None)), true)
    case Nested(items, _) =>
      forall k :: 0 <= k < |items| && items[k].Single? ==> items[k].n.mark == Mark(Some(Static(index, Some(k))), true)
    case _ => true
  }

  ghost predicate AllMarked(trees: Trees) {
    forall i :: i in trees ==> MarkedAs(trees[i], i)
  }

  lemma TreeMarked(c: Child, index: nat)
    ensures MarkedAs(MarkTree(c, index), index)
  {
    if c.Nested? {
      var m := MarkTree(c, index);
      forall k | 0 <= k < |c.items| && m.items[k].Single?
        ensures m.items[k].n.mark == Mark(Some(Static(index, Some(k))), true)
      {
        assert m.items[k] == MarkPart(c.items[k], index, k);
      }
    }
  }

  lemma OneMarked(trees: Trees, c: Child, index: nat)
    requires AllMarked(trees)
    ensures AllMarked(trees[index := MarkTree(c, index)])
  {
    TreeMarked(c, index);
    hide MarkedAs, MarkTree;
  }

  // Running code caches marked trees only, each under its own index.
  lemma {:induction false} EvalMarked(p: Program, c: Code, env: Env, trees: Trees, limit: nat)
    requires AllMarked(trees)
    ensures AllMarked(Eval(p, c, env, trees, limit).trees)
    decreases limit, c, 0
  {
    hide AllMarked, MarkTree, CreateElement;
    match c
    case Ternary(exp, yes, no) =>
      EvalMarked(p, yes, env, trees, limit);
      EvalMarked(p, no, env, trees, limit);
    case List(l, body) =>
      var rounds := Rounds(p.w.eval(l.exp, env));
      if rounds.Some? {
        RoundsMarked(p, l, body, env, rounds.value, trees, limit);
      }
    case Items(items) => AllEvalMarked(p, items, env, trees, limit);
    case Hoisted(index, inFor) =>
      if index < limit && index < |p.fns| {
        EvalMarked(p, p.fns[index], p.base, trees, index);
        var r := Eval(p, p.fns[index], p.base, trees, index);
        OneMarked(r.trees, r.child, index);
      }
    case Create(_, _, _, _, kids) =>
      if kids.KidsCode? {
        EvalMarked(p, kids.code, env, trees, limit);
      }
    case _ =>
  }

  lemma {:induction false} AllEvalMarked(p: Program, cs: seq<Code>, env: Env, trees: Trees, limit: nat)
    requires AllMarked(trees)
    ensures AllMarked(EvalAll(p, cs, env, trees, limit).trees)
    decreases limit, cs
  {
    hide AllMarked, Eval;
    if cs != [] {
      AllEvalMarked(p, cs[..|cs| - 1], env, trees, limit);
      EvalMarked(p, cs[|cs| - 1], env, EvalAll(p, cs[..|cs| - 1], env, trees, limit).trees, limit);
    }
  }

  lemma {:induction false} RoundsMarked(p: Program, l: Loop, body: Code, env: Env, rounds: seq<Round>, trees: Trees, limit: nat)
    requires AllMarked(trees)
    ensures AllMarked(EvalRounds(p, l, body, env, rounds, trees, limit).trees)
    decreases limit, body, |rounds| + 1
  {
    hide AllMarked, Eval, Bind;
    if rounds != [] {
      var before := rounds[..|rounds| - 1];
      RoundsMarked(p, l, body, env, before, trees, limit);
      EvalMarked(p, body, Bind(env, l, rounds[|rounds| - 1]), EvalRounds(p, l, body, env, before, trees, limit).trees, limit);
    }
  }

  // The code renders this static tree inside a list, afresh each time.
  predicate Renews(c: Code, i: nat) {
    match c
    case Ternary(_, yes, no) => Renews(yes, i) || Renews(no, i)
    case List(_, body) => Renews(body, i)
    case Items(items) => exists k :: 0 <= k < |items| && Renews(items[k], i)
    case Hoisted(index, inFor) => index == i && inFor
    case Create(_, _, _, _, kids) => kids.KidsCode? && Renews(kids.code, i)
    case _ => false
  }

  predicate RenewsAny(cs: seq<Code>, i: nat) {
    exists k :: 0 <= k < |cs| && Renews(cs[k], i)
  }

  // The tree is cached, and the same in both.
  predicate Stays(trees: Trees, after: Trees, i: nat) {
    i in trees && trees[i] != Undefined ==> i in after && after[i] == trees[i]
  }

  // A tree that is cached is taken from the cache from then on.
  lemma {:induction false} EvalKeeps(p: Program, c: Code, env: Env, trees: Trees, limit: nat, i: nat)
    requires !Renews(c, i) && !RenewsAny(p.fns, i)
    ensures Stays(trees, Eval(p, c, env, trees, limit).trees, i)
    decreases limit, c, 0
  {
    hide MarkTree, CreateElement;
    match c
    case Ternary(exp, yes, no) =>
      EvalKeeps(p, yes, env, trees, limit, i);
      EvalKeeps(p, no, env, trees, limit, i);
    case List(l, body) =>
      var rounds := Rounds(p.w.eval(l.exp, env));
      if rounds.Some? {
        RoundsKeep(p, l, body, env, rounds.value, trees, limit, i);
      }
    case Items(items) => AllEvalKeep(p, items, env, trees, limit, i);
    case Hoisted(index, inFor) =>
      if index < limit && index < |p.fns| {
        assert !Renews(p.fns[index], i);
        EvalKeeps(p, p.fns[index], p.base, trees, index, i);
      }
    case Create(_, _, _, _, kids) =>
      if kids.KidsCode? {
        EvalKeeps(p, kids.code, env, trees, limit, i);
      }
    case _ =>
  }

  lemma {:induction false} AllEvalKeep(p: Program, cs: seq<Code>, env: Env, trees: Trees, limit: nat, i: nat)
    requires (forall k :: 0 <= k < |cs| ==> !Renews(cs[k], i)) && !RenewsAny(p.fns, i)
    ensures Stays(trees, EvalAll(p, cs, env, trees, limit).trees, i)
    decreases limit, cs
  {
    hide Eval, Renews, RenewsAny;
    if cs != [] {
      AllEvalKeep(p, cs[..|cs| - 1], env, trees, limit, i);
      EvalKeeps(p, cs[|cs| - 1], env, EvalAll(p, cs[..|cs| - 1], env, trees, limit).trees, limit, i);
    }
  }

  lemma {:induction false} RoundsKeep(p: Program, l: Loop, body: Code, env: Env, rounds: seq<Round>, trees: Trees, limit: nat, i: nat)
    requires !Renews(body, i) && !RenewsAny(p.fns, i)
    ensures Stays(trees, EvalRounds(p, l, body, env, rounds, trees, limit).trees, i)
    decreases limit, body, |rounds| + 1
  {
    hide Eval, Bind, Renews, RenewsAny;
    if rounds != [] {
      var before := rounds[..|rounds| - 1];
      RoundsKeep(p, l, body, env, before, trees, limit, i);
      EvalKeeps(p, body, Bind(env, l, rounds[|rounds| - 1]), EvalRounds(p, l, body, env, before, trees, limit).trees, limit, i);
    }
  }

  lemma RunKeeps(p: Program, c: Code, env: Env, trees: Trees, limit: nat)
    ensures forall i: nat :: !Renews(c, i) && !RenewsAny(p.fns, i) ==> Stays(trees, Eval(p, c, env, trees, limit).trees, i)
  {
    hide *;
    forall i: nat | !Renews(c, i) && !RenewsAny(p.fns, i)
      ensures Stays(trees, Eval(p, c, env, trees, limit).trees, i)
    {
      EvalKeeps(p, c, env, trees, limit, i);
    }
  }

  // A component instance with its render functions and its static trees.
  class Instance {
    const w: World
    const root: Node
    const code: Code
    const staticRenderFns: seq<Code>
    var staticTrees: Trees

    ghost predicate Valid()
      reads this
    {
      Raw(root) && Blind(w) && Gen(w, Optimized(w, root), []) == Out(code, staticRenderFns) &&
      ValidTrees(w, staticRenderFns, staticTrees) && AllMarked(staticTrees)
    }

    constructor (w: World, root: Node)
      requires Raw(root) && Blind(w)
      ensures Valid() && this.w == w && this.root == root && staticTrees == map[]
    {
      var n := Optimize(w, root);
      var o := Gen(w, n, []);
      this.w, this.root := w, root;
      this.code, this.staticRenderFns := o.code, o.fns;
      this.staticTrees := map[];
    }

    // renderStatic, as running generated code calls it. Whatever was
    // cached and whatever the data is, the tree is what the static root that
    // owns the index means.
    method RenderStatic(data: Env, index: nat, isInFor: bool) returns (tree: Child)
      requires Valid() && index < |staticRenderFns|
      modifies this`staticTrees
      ensures Valid() && MarkedAs(tree, index) && index in staticTrees && staticTrees[index] == tree
      ensures index in old(staticTrees) && old(staticTrees)[index] != Undefined && !isInFor ==>
                tree == old(staticTrees)[index] && staticTrees == old(staticTrees)
      ensures Ran(tree, staticTrees) ==
              Eval(Program(w, staticRenderFns, data), Hoisted(index, isInFor), data, old(staticTrees), |staticRenderFns|)
      ensures EraseChild(tree) == EraseChild(Alone(w, staticRenderFns, index))
      ensures exists m: Node, k: nat ::
                OwnedBy(w, staticRenderFns, index, m, k) && EraseChild(tree) == EraseChild(Templates.Render(w, m, data))
    {
      ghost var m, k := StaticMeaning(w, root, staticRenderFns, staticTrees, index, data);
      if index in staticTrees && staticTrees[index] != Undefined && !isInFor {
        return staticTrees[index];
      }
      var r := Eval(Program(w, staticRenderFns, data), staticRenderFns[index], data, staticTrees, index);
      tree := MarkTree(r.child, index);
      TreeMarked(r.child, index);
      EvalMarked(Program(w, staticRenderFns, data), staticRenderFns[index], data, staticTrees, index);
      OneMarked(r.trees, r.child, index);
      staticTrees := r.trees[index := tree];
    }

    // Each render gives what the template means for the data of the moment.
    method Render(data: Env) returns (vnode: Child)
      requires Valid()
      modifies this`staticTrees
      ensures Valid()
      ensures EraseChild(vnode) == EraseChild(Templates.Render(w, root, data))
      ensures forall loading: string -> bool :: Regular(w, loading) ==> OfChild(vnode) == OfNode(w, loading, root, data)
      ensures forall i: nat :: !Renews(code, i) && !RenewsAny(staticRenderFns, i) ==> Stays(old(staticTrees), staticTrees, i)
    {
      RunKeeps(Program(w, staticRenderFns, data), code, data, staticTrees, |staticRenderFns|);
      RenderPreserved(w, root, data, staticTrees);
      var r := Eval(Program(w, staticRenderFns, data), code, data, staticTrees, |staticRenderFns|);
      AllContent(w, root, data, r.child);
      EvalMarked(Program(w, staticRenderFns, data), code, data, staticTrees, |staticRenderFns|);
      staticTrees := r.trees;
      return r.child;
    }
  }
}
