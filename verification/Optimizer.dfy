// The optimizer: which nodes of a template never change, and which of them
// are worth hoisting out of the render function.
module Optimizer {
  import opened Templates

  predicate IsBuiltInTag(tag: string) {
    tag == "slot" || tag == "component"
  }

  // isStatic; `underTemplateFor` is what isDirectChildOfTemplateFor finds by
  // walking up the parents.
  predicate LocallyStatic(w: World, n: Node, underTemplateFor: bool) {
    match n
    case Expression(_) => false
    case Text(_, _) => true
    case Element(tag, key, attrs, component, loop, branch, _, _) =>
      (forall i :: 0 <= i < |attrs| ==> attrs[i].Fixed?) && branch.Plain? && loop.None? && !IsBuiltInTag(tag) &&
      w.reserved(tag) && !underTemplateFor && key.None? && component.None?
  }

  predicate Inside(n: Node, underTemplateFor: bool) {
    n.Element? && n.tag == "template" && (n.loop.Some? || underTemplateFor)
  }

  predicate MarkedStatic(n: Node) {
    n.Text? || (n.Element? && n.marks.isStatic)
  }

  predicate AllMarkedStatic(ns: seq<Node>) {
    forall i :: 0 <= i < |ns| ==> MarkedStatic(ns[i])
  }

  predicate AllBlocksStatic(bs: seq<Block>) {
    forall i :: 0 <= i < |bs| ==> MarkedStatic(bs[i].node)
  }

  function Elses(n: Node): seq<Block> {
    if n.Element? && n.branch.If? then n.branch.elses else []
  }

  function WithParts(n: Node, children: seq<Node>, elses: seq<Block>, marks: Marks): Node
    requires n.Element?
  {
    Element(n.tag, n.key, n.attrs, n.component, n.loop, if n.branch.If? then If(n.branch.exp, elses) else n.branch, children, marks)
  }

  // ----- first pass

  function Marked(w: World, n: Node, under: bool): Node
    decreases n, 1
  {
    if !n.Element? then n
    else if !w.reserved(n.tag) && n.tag != "slot" then
      WithParts(n, n.children, Elses(n), n.marks.(isStatic := LocallyStatic(w, n, under)))
    else
      var children := MarkedAll(w, n.children, Inside(n, under));
      var elses := if n.branch.If? then MarkedBlocks(w, n.branch.elses, under) else [];
      WithParts(n, children, elses, n.marks.(isStatic :=
        LocallyStatic(w, n, under) && AllMarkedStatic(children) && AllBlocksStatic(elses)))
  }

  function MarkedAll(w: World, ns: seq<Node>, under: bool): (r: seq<Node>)
    ensures |r| == |ns| && forall i :: 0 <= i < |ns| ==> r[i] == Marked(w, ns[i], under)
    decreases ns
  {
    if ns == [] then [] else [Marked(w, ns[0], under)] + MarkedAll(w, ns[1..], under)
  }

  function MarkedBlock(w: World, b: Block, under: bool): Block
    decreases b, 2
  {
    Block(b.exp, Marked(w, b.node, under))
  }

  function MarkedBlocks(w: World, bs: seq<Block>, under: bool): (r: seq<Block>)
    ensures |r| == |bs| && forall i :: 0 <= i < |bs| ==> r[i] == MarkedBlock(w, bs[i], under)
    decreases bs
  {
    if bs == [] then [] else [MarkedBlock(w, bs[0], under)] + MarkedBlocks(w, bs[1..], under)
  }

  // markStatic$1
  method MarkStatic(w: World, n: Node, under: bool) returns (r: Node)
    ensures r == Marked(w, n, under)
    decreases n
  {
    if !n.Element? {
      return n;
    }
    var isStatic := LocallyStatic(w, n, under);
    if !w.reserved(n.tag) && n.tag != "slot" {
      return WithParts(n, n.children, Elses(n), n.marks.(isStatic := isStatic));
    }
    var children, i := [], 0;
    while i < |n.children|
      invariant 0 <= i <= |n.children| && |children| == i
      invariant forall k :: 0 <= k < i ==> children[k] == Marked(w, n.children[k], Inside(n, under))
      invariant isStatic <==> LocallyStatic(w, n, under) && AllMarkedStatic(children)
    {
      var child := MarkStatic(w, n.children[i], Inside(n, under));
      if !MarkedStatic(child) {
        isStatic := false;
      }
      children := children + [child];
      i := i + 1;
    }
    assert children == MarkedAll(w, n.children, Inside(n, under));
    var elses, bs := [], Elses(n);
    i := 0;
    while i < |bs|
      invariant 0 <= i <= |bs| && |elses| == i
      invariant forall k :: 0 <= k < i ==> elses[k] == MarkedBlock(w, bs[k], under)
      invariant isStatic <==> LocallyStatic(w, n, under) && AllMarkedStatic(children) && AllBlocksStatic(elses)
    {
      var block := MarkBlock(w, bs[i], under);
      if !MarkedStatic(block.node) {
        isStatic := false;
      }
      elses := elses + [block];
      i := i + 1;
    }
    assert elses == MarkedBlocks(w, bs, under);
    return WithParts(n, children, elses, n.marks.(isStatic := isStatic));
  }

  method MarkBlock(w: World, b: Block, under: bool) returns (r: Block)
    ensures r == MarkedBlock(w, b, under)
    decreases b
  {
    var node := MarkStatic(w, b.node, under);
    return Block(b.exp, node);
  }

  // ----- second pass

  predicate WorthHoisting(n: Node) {
    n.Element? && n.marks.isStatic && n.children != [] && !(|n.children| == 1 && n.children[0].Text?)
  }

  function Rooted(n: Node, isInFor: bool): Node
    decreases n, 1
  {
    if !n.Element? then n
    else
      var inFor := if n.marks.isStatic then isInFor else n.marks.staticInFor;
      if WorthHoisting(n) then WithParts(n, n.children, Elses(n), Marks(n.marks.isStatic, true, inFor))
      else
        WithParts(n, RootedAll(n.children, isInFor || n.loop.Some?),
                  if n.branch.If? then RootedBlocks(n.branch.elses, isInFor) else [],
                  Marks(n.marks.isStatic, false, inFor))
  }

  function RootedAll(ns: seq<Node>, isInFor: bool): (r: seq<Node>)
    ensures |r| == |ns| && forall i :: 0 <= i < |ns| ==> r[i] == Rooted(ns[i], isInFor)
    decreases ns
  {
    if ns == [] then [] else [Rooted(ns[0], isInFor)] + RootedAll(ns[1..], isInFor)
  }

  function RootedBlock(b: Block, isInFor: bool): Block
    decreases b, 2
  {
    Block(b.exp, Rooted(b.node, isInFor))
  }

  function RootedBlocks(bs: seq<Block>, isInFor: bool): (r: seq<Block>)
    ensures |r| == |bs| && forall i :: 0 <= i < |bs| ==> r[i] == RootedBlock(bs[i], isInFor)
    decreases bs
  {
    if bs == [] then [] else [RootedBlock(bs[0], isInFor)] + RootedBlocks(bs[1..], isInFor)
  }

  // markStaticRoots
  method MarkStaticRoots(n: Node, isInFor: bool) returns (r: Node)
    ensures r == Rooted(n, isInFor)
    decreases n
  {
    if !n.Element? {
      return n;
    }
    var inFor := n.marks.staticInFor;
    if n.marks.isStatic {
      inFor := isInFor;
    }
    if n.marks.isStatic && |n.children| > 0 && !(|n.children| == 1 && n.children[0].Text?) {
      return WithParts(n, n.children, Elses(n), Marks(n.marks.isStatic, true, inFor));
    }
    var children, i := [], 0;
    while i < |n.children|
      invariant 0 <= i <= |n.children| && |children| == i
      invariant forall k :: 0 <= k < i ==> children[k] == Rooted(n.children[k], isInFor || n.loop.Some?)
    {
      var child := MarkStaticRoots(n.children[i], isInFor || n.loop.Some?);
      children := children + [child];
      i := i + 1;
    }
    assert children == RootedAll(n.children, isInFor || n.loop.Some?);
    var elses, bs := [], Elses(n);
    i := 0;
    while i < |bs|
      invariant 0 <= i <= |bs| && |elses| == i
      invariant forall k :: 0 <= k < i ==> elses[k] == RootedBlock(bs[k], isInFor)
    {
      var block := MarkBlockRoots(bs[i], isInFor);
      elses := elses + [block];
      i := i + 1;
    }
    assert elses == RootedBlocks(bs, isInFor);
    return WithParts(n, children, elses, Marks(n.marks.isStatic, false, inFor));
  }

  method MarkBlockRoots(b: Block, isInFor: bool) returns (r: Block)
    ensures r == RootedBlock(b, isInFor)
    decreases b
  {
    var node := MarkStaticRoots(b.node, isInFor);
    return Block(b.exp, node);
  }

  // optimize
  function Optimized(w: World, root: Node): Node {
    Rooted(Marked(w, root, false), false)
  }

  method Optimize(w: World, root: Node) returns (r: Node)
    ensures r == Optimized(w, root)
    ensures Raw(root) ==> Owed(w, root, r, true, false, false)
  {
    r := MarkStatic(w, root, false);
    r := MarkStaticRoots(r, false);
    if Raw(root) {
      OptimizedExactly(w, root);
    }
  }

  // ----- what the marks mean

  // Nothing in the node depends on an expression.
  predicate Steady(w: World, n: Node)
    decreases n
  {
    match n
    case Expression(_) => false
    case Text(_, _) => true
    case Element(_, _, _, _, _, _, children, _) =>
      LocallyStatic(w, n, false) && forall i :: 0 <= i < |children| ==> Steady(w, children[i])
  }

  predicate AllSteady(w: World, ns: seq<Node>) {
    forall i :: 0 <= i < |ns| ==> Steady(w, ns[i])
  }

  // The first pass marks static exactly the steady nodes, except those that
  // only templates separate from a template with v-for.
  lemma {:induction false} MarkedExactly(w: World, n: Node, under: bool)
    ensures MarkedStatic(Marked(w, n, under)) <==> Steady(w, n) && !(n.Element? && under)
    decreases n
  {
    if n.Element? && (w.reserved(n.tag) || n.tag == "slot") {
      var children := MarkedAll(w, n.children, Inside(n, under));
      if LocallyStatic(w, n, under) {
        assert !Inside(n, under);
        forall i | 0 <= i < |n.children|
          ensures MarkedStatic(children[i]) <==> Steady(w, n.children[i])
        {
          MarkedExactly(w, n.children[i], false);
        }
        assert AllMarkedStatic(children) <==> AllSteady(w, n.children);
      }
    }
  }

  // Marks do not influence what is steady.
  lemma {:induction false} MarkedSteady(w: World, n: Node, under: bool)
    ensures Steady(w, Marked(w, n, under)) <==> Steady(w, n)
    decreases n
  {
    if n.Element? && (w.reserved(n.tag) || n.tag == "slot") {
      var children := MarkedAll(w, n.children, Inside(n, under));
      forall i | 0 <= i < |n.children|
        ensures Steady(w, children[i]) <==> Steady(w, n.children[i])
      {
        MarkedSteady(w, n.children[i], Inside(n, under));
      }
      assert AllSteady(w, children) <==> AllSteady(w, n.children);
    }
  }

  // Below a static node everything is static.
  lemma StaticBelow(w: World, n: Node, under: bool, i: nat)
    requires n.Element? && i < |n.children| && MarkedStatic(Marked(w, n, under))
    ensures MarkedStatic(Marked(w, n, under).children[i])
  {
    MarkedExactly(w, n, under);
  }

  // As the parser leaves a node: nothing marked.
  predicate Unmarked(n: Node)
    decreases n, 0
  {
    n.Element? ==>
      !n.marks.staticRoot && (forall i :: 0 <= i < |n.children| ==> Unmarked(n.children[i])) &&
      (n.branch.If? ==> forall i :: 0 <= i < |n.branch.elses| ==> UnmarkedBlock(n.branch.elses[i]))
  }

  predicate UnmarkedBlock(b: Block)
    decreases b
  {
    Unmarked(b.node)
  }

  // Static roots are steady, have children, and are never inside one another.
  predicate Hoistable(w: World, n: Node)
    decreases n, 0
  {
    n.Element? ==>
      (n.marks.staticRoot ==> Steady(w, n) && n.children != [] &&
                              forall i :: 0 <= i < |n.children| ==> Unmarked(n.children[i])) &&
      (forall i :: 0 <= i < |n.children| ==> Hoistable(w, n.children[i])) &&
      (n.branch.If? ==> forall i :: 0 <= i < |n.branch.elses| ==> HoistableBlock(w, n.branch.elses[i]))
  }

  predicate HoistableBlock(w: World, b: Block)
    decreases b
  {
    Hoistable(w, b.node)
  }

  // Every element says static only if it is steady.
  predicate TrulyStatic(w: World, n: Node)
    decreases n, 0
  {
    n.Element? ==>
      (n.marks.isStatic ==> Steady(w, n)) &&
      (forall i :: 0 <= i < |n.children| ==> TrulyStatic(w, n.children[i])) &&
      (n.branch.If? ==> forall i :: 0 <= i < |n.branch.elses| ==> TrulyStaticBlock(w, n.branch.elses[i]))
  }

  predicate TrulyStaticBlock(w: World, b: Block)
    decreases b
  {
    TrulyStatic(w, b.node)
  }

  // No static marks yet.
  predicate Raw(n: Node)
    decreases n, 0
  {
    n.Element? ==>
      !n.marks.staticRoot && !n.marks.isStatic && (forall i :: 0 <= i < |n.children| ==> Raw(n.children[i])) &&
      (n.branch.If? ==> forall i :: 0 <= i < |n.branch.elses| ==> RawBlock(n.branch.elses[i]))
  }

  predicate RawBlock(b: Block)
    decreases b
  {
    Raw(b.node)
  }

  lemma {:induction false} RawIs(w: World, n: Node)
    requires Raw(n)
    ensures Unmarked(n) && TrulyStatic(w, n) && Hoistable(w, n)
    decreases n, 0
  {
    if n.Element? {
      forall i | 0 <= i < |n.children|
        ensures Unmarked(n.children[i]) && TrulyStatic(w, n.children[i]) && Hoistable(w, n.children[i])
      {
        RawIs(w, n.children[i]);
      }
      if n.branch.If? {
        forall i | 0 <= i < |n.branch.elses|
          ensures UnmarkedBlock(n.branch.elses[i]) && TrulyStaticBlock(w, n.branch.elses[i])
          ensures HoistableBlock(w, n.branch.elses[i])
        {
          RawBlockIs(w, n.branch.elses[i]);
        }
      }
    }
  }

  lemma {:induction false} RawBlockIs(w: World, b: Block)
    requires RawBlock(b)
    ensures UnmarkedBlock(b) && TrulyStaticBlock(w, b) && HoistableBlock(w, b)
    decreases b
  {
    RawIs(w, b.node);
  }

  lemma {:induction false} MarkedIsSound(w: World, n: Node, under: bool)
    requires Raw(n)
    ensures Unmarked(Marked(w, n, under)) && TrulyStatic(w, Marked(w, n, under))
    decreases n, 0
  {
    MarkedExactly(w, n, under);
    MarkedSteady(w, n, under);
    RawIs(w, n);
    if n.Element? && (w.reserved(n.tag) || n.tag == "slot") {
      var r := Marked(w, n, under);
      forall i | 0 <= i < |n.children|
        ensures Unmarked(r.children[i]) && TrulyStatic(w, r.children[i])
      {
        MarkedIsSound(w, n.children[i], Inside(n, under));
      }
      if n.branch.If? {
        forall i | 0 <= i < |n.branch.elses|
          ensures UnmarkedBlock(r.branch.elses[i]) && TrulyStaticBlock(w, r.branch.elses[i])
        {
          MarkedBlockIsSound(w, n.branch.elses[i], under);
        }
      }
    }
  }

  lemma {:induction false} MarkedBlockIsSound(w: World, b: Block, under: bool)
    requires RawBlock(b)
    ensures UnmarkedBlock(MarkedBlock(w, b, under)) && TrulyStaticBlock(w, MarkedBlock(w, b, under))
    decreases b
  {
    MarkedIsSound(w, b.node, under);
  }

  lemma {:induction false} RootedSteady(w: World, n: Node, isInFor: bool)
    ensures Steady(w, Rooted(n, isInFor)) <==> Steady(w, n)
    decreases n
  {
    if n.Element? && !WorthHoisting(n) {
      var children := RootedAll(n.children, isInFor || n.loop.Some?);
      forall i | 0 <= i < |n.children|
        ensures Steady(w, children[i]) <==> Steady(w, n.children[i])
      {
        RootedSteady(w, n.children[i], isInFor || n.loop.Some?);
      }
      assert AllSteady(w, children) <==> AllSteady(w, n.children);
    }
  }

  lemma {:induction false} UnmarkedHoistable(w: World, n: Node)
    requires Unmarked(n)
    ensures Hoistable(w, n)
    decreases n, 0
  {
    if n.Element? {
      forall i | 0 <= i < |n.children|
        ensures Hoistable(w, n.children[i])
      {
        UnmarkedHoistable(w, n.children[i]);
      }
      if n.branch.If? {
        forall i | 0 <= i < |n.branch.elses|
          ensures HoistableBlock(w, n.branch.elses[i])
        {
          UnmarkedHoistableBlock(w, n.branch.elses[i]);
        }
      }
    }
  }

  lemma {:induction false} UnmarkedHoistableBlock(w: World, b: Block)
    requires UnmarkedBlock(b)
    ensures HoistableBlock(w, b)
    decreases b
  {
    UnmarkedHoistable(w, b.node);
  }

  lemma {:induction false} RootedHoistable(w: World, n: Node, isInFor: bool)
    requires Unmarked(n) && TrulyStatic(w, n)
    ensures Hoistable(w, Rooted(n, isInFor))
    decreases n, 0
  {
    if n.Element? {
      var r := Rooted(n, isInFor);
      RootedSteady(w, n, isInFor);
      if WorthHoisting(n) {
        forall i | 0 <= i < |n.children|
          ensures Hoistable(w, n.children[i])
        {
          UnmarkedHoistable(w, n.children[i]);
        }
        assert n.branch.Plain?;
      } else {
        forall i | 0 <= i < |n.children|
          ensures Hoistable(w, r.children[i])
        {
          RootedHoistable(w, n.children[i], isInFor || n.loop.Some?);
        }
        if n.branch.If? {
          forall i | 0 <= i < |n.branch.elses|
            ensures HoistableBlock(w, r.branch.elses[i])
          {
            RootedHoistableBlock(w, n.branch.elses[i], isInFor);
          }
        }
      }
    }
  }

  lemma {:induction false} RootedHoistableBlock(w: World, b: Block, isInFor: bool)
    requires UnmarkedBlock(b) && TrulyStaticBlock(w, b)
    ensures HoistableBlock(w, RootedBlock(b, isInFor))
    decreases b
  {
    RootedHoistable(w, b.node, isInFor);
  }

  // What is hoisted after the two passes is steady and never nested.
  lemma OptimizedHoistable(w: World, root: Node)
    requires Raw(root)
    ensures Hoistable(w, Optimized(w, root))
  {
    MarkedIsSound(w, root, false);
    RootedHoistable(w, Marked(w, root, false), false);
  }

  // ----- the marks, node by node

  // Nothing in the node can change: a platform element that is no slot, with
  // written-out attributes only, no v-for, v-if, v-else, key or `is`, and the
  // like below it.
  predicate Constant(w: World, n: Node)
    decreases n
  {
    match n
    case Expression(_) => false
    case Text(_, _) => true
    case Element(tag, key, attrs, component, loop, branch, children, _) =>
      && w.reserved(tag) && tag != "slot" && tag != "component"
      && key.None? && component.None? && loop.None? && branch.Plain?
      && (forall i :: 0 <= i < |attrs| ==> attrs[i].Fixed?)
      && (forall i :: 0 <= i < |children| ==> Constant(w, children[i]))
  }

  lemma {:induction false} SteadyExactly(w: World, n: Node)
    ensures Steady(w, n) <==> Constant(w, n)
    decreases n
  {
    if n.Element? {
      forall i | 0 <= i < |n.children|
        ensures Steady(w, n.children[i]) <==> Constant(w, n.children[i])
      {
        SteadyExactly(w, n.children[i]);
      }
      assert AllSteady(w, n.children) <==> forall i :: 0 <= i < |n.children| ==> Constant(w, n.children[i]);
    }
  }

  // r is n with the marks that optimizing owes it. Components are not
  // `entered`: nothing below them is static. A static root is a constant node
  // with more to it than one text, and there is none below another; whether
  // a static node is in v-for is said by the elements above it, except that
  // v-else blocks do not see the v-for of their own element.
  ghost predicate Owed(w: World, n: Node, r: Node, entered: bool, under: bool, isInFor: bool)
    decreases n, 0
  {
    if !n.Element? then r == n
    else
      var isStatic := entered && Constant(w, n) && !under;
      var isRoot := isStatic && n.children != [] && !(|n.children| == 1 && n.children[0].Text?);
      var inside := entered && (w.reserved(n.tag) || n.tag == "slot");
      && r.Element? && r.marks.isStatic == isStatic && r.marks.staticRoot == isRoot
      && (isStatic ==> r.marks.staticInFor == isInFor)
      && |r.children| == |n.children|
      && (forall i :: 0 <= i < |n.children| ==>
        if isRoot then Unmarked(r.children[i])
        else Owed(w, n.children[i], r.children[i], inside, n.tag == "template" && (n.loop.Some? || under), isInFor || n.loop.Some?))
      && (n.branch.If? ==>
        && r.branch.If? && |r.branch.elses| == |n.branch.elses|
        && forall i :: 0 <= i < |n.branch.elses| ==> OwedBlock(w, n.branch.elses[i], r.branch.elses[i], inside, under, isInFor))
  }

  ghost predicate OwedBlock(w: World, b: Block, r: Block, entered: bool, under: bool, isInFor: bool)
    decreases b
  {
    r.exp == b.exp && Owed(w, b.node, r.node, entered, under, isInFor)
  }

  // What the first pass makes of a node, if it gets there.
  function Visited(w: World, n: Node, entered: bool, under: bool): Node {
    if entered then Marked(w, n, under) else n
  }

  lemma VisitedStatic(w: World, n: Node, entered: bool, under: bool)
    requires Raw(n) && n.Element?
    ensures Visited(w, n, entered, under).Element?
    ensures Visited(w, n, entered, under).marks.isStatic <==> entered && Constant(w, n) && !under
    ensures Unmarked(Visited(w, n, entered, under))
  {
    MarkedExactly(w, n, under);
    SteadyExactly(w, n);
    MarkedIsSound(w, n, under);
    RawIs(w, n);
  }

  lemma VisitedParts(w: World, n: Node, entered: bool, under: bool)
    requires n.Element?
    ensures var m, inside := Visited(w, n, entered, under), entered && (w.reserved(n.tag) || n.tag == "slot");
      && m.Element? && m.loop == n.loop && |m.children| == |n.children|
      && (forall i :: 0 <= i < |n.children| ==>
        m.children[i] == Visited(w, n.children[i], inside, n.tag == "template" && (n.loop.Some? || under)))
      && (n.branch.If? ==>
        && m.branch.If? && |m.branch.elses| == |n.branch.elses|
        && forall i :: 0 <= i < |n.branch.elses| ==>
          m.branch.elses[i] == Block(n.branch.elses[i].exp, Visited(w, n.branch.elses[i].node, inside, under)))
  {
  }

  lemma VisitedFirst(w: World, n: Node, entered: bool, under: bool)
    ensures Visited(w, n, entered, under).Text? <==> n.Text?
  {
  }

  lemma {:induction false} RootedOwed(w: World, n: Node, entered: bool, under: bool, isInFor: bool)
    requires Raw(n)
    ensures Owed(w, n, Rooted(Visited(w, n, entered, under), isInFor), entered, under, isInFor)
    decreases n, 0
  {
    hide *;
    if n.Element? {
      RawParts(n);
      VisitedStatic(w, n, entered, under);
      VisitedParts(w, n, entered, under);
      var m := Visited(w, n, entered, under);
      var inside := entered && (w.reserved(n.tag) || n.tag == "slot");
      var below, inFor := n.tag == "template" && (n.loop.Some? || under), isInFor || n.loop.Some?;
      var r := Rooted(m, isInFor);
      var isRoot := entered && Constant(w, n) && !under && n.children != [] && !(|n.children| == 1 && n.children[0].Text?);
      if n.children != [] {
        VisitedFirst(w, n.children[0], inside, below);
      }
      Worth(m);
      RootedParts(m, isInFor);
      if isRoot {
        UnmarkedParts(m);
        ConstantParts(w, n);
      } else {
        forall i | 0 <= i < |n.children|
          ensures Owed(w, n.children[i], r.children[i], inside, below, inFor)
        {
          RootedOwed(w, n.children[i], inside, below, inFor);
        }
      }
      if n.branch.If? {
        forall i | 0 <= i < |n.branch.elses|
          ensures OwedBlock(w, n.branch.elses[i], r.branch.elses[i], inside, under, isInFor)
        {
          RootedOwedBlock(w, n.branch.elses[i], inside, under, isInFor);
        }
      }
      IsOwed(w, n, r, entered, under, isInFor);
    } else {
      VisitedLeaf(w, n, entered, under);
      LeafOwed(w, n, entered, under, isInFor);
    }
  }

  lemma Worth(n: Node)
    ensures WorthHoisting(n) <==> n.Element? && n.marks.isStatic && n.children != [] && !(|n.children| == 1 && n.children[0].Text?)
  {
  }

  lemma RootedParts(m: Node, isInFor: bool)
    requires m.Element?
    ensures var r, root, inFor := Rooted(m, isInFor), WorthHoisting(m), isInFor || m.loop.Some?;
      && r.Element? && r.marks.isStatic == m.marks.isStatic && r.marks.staticRoot == root
      && (m.marks.isStatic ==> r.marks.staticInFor == isInFor)
      && |r.children| == |m.children|
      && (forall i :: 0 <= i < |m.children| ==> r.children[i] == if root then m.children[i] else Rooted(m.children[i], inFor))
      && (m.branch.If? && !root ==>
        && r.branch.If? && |r.branch.elses| == |m.branch.elses|
        && forall i :: 0 <= i < |m.branch.elses| ==> r.branch.elses[i] == RootedBlock(m.branch.elses[i], isInFor))
  {
  }

  lemma IsOwed(w: World, n: Node, r: Node, entered: bool, under: bool, isInFor: bool)
    requires n.Element? && r.Element? && |r.children| == |n.children|
    requires var isStatic := entered && Constant(w, n) && !under;
      var isRoot := isStatic && n.children != [] && !(|n.children| == 1 && n.children[0].Text?);
      var inside := entered && (w.reserved(n.tag) || n.tag == "slot");
      && r.marks.isStatic == isStatic && r.marks.staticRoot == isRoot && (isStatic ==> r.marks.staticInFor == isInFor)
      && (forall i :: 0 <= i < |n.children| ==>
        if isRoot then Unmarked(r.children[i])
        else Owed(w, n.children[i], r.children[i], inside, n.tag == "template" && (n.loop.Some? || under), isInFor || n.loop.Some?))
      && (n.branch.If? ==>
        && r.branch.If? && |r.branch.elses| == |n.branch.elses|
        && forall i :: 0 <= i < |n.branch.elses| ==> OwedBlock(w, n.branch.elses[i], r.branch.elses[i], inside, under, isInFor))
    ensures Owed(w, n, r, entered, under, isInFor)
  {
    hide Constant, Unmarked, OwedBlock;
  }

  lemma LeafOwed(w: World, n: Node, entered: bool, under: bool, isInFor: bool)
    requires !n.Element?
    ensures Owed(w, n, Rooted(n, isInFor), entered, under, isInFor)
  {
  }

  lemma VisitedLeaf(w: World, n: Node, entered: bool, under: bool)
    requires !n.Element?
    ensures Visited(w, n, entered, under) == n
  {
  }

  lemma ConstantParts(w: World, n: Node)
    requires n.Element? && Constant(w, n)
    ensures n.branch.Plain?
  {
  }

  lemma RawParts(n: Node)
    requires Raw(n) && n.Element?
    ensures forall i :: 0 <= i < |n.children| ==> Raw(n.children[i])
    ensures n.branch.If? ==> forall i :: 0 <= i < |n.branch.elses| ==> RawBlock(n.branch.elses[i])
  {
  }

  lemma UnmarkedParts(n: Node)
    requires Unmarked(n) && n.Element?
    ensures forall i :: 0 <= i < |n.children| ==> Unmarked(n.children[i])
  {
  }

  lemma {:induction false} RootedOwedBlock(w: World, b: Block, entered: bool, under: bool, isInFor: bool)
    requires RawBlock(b)
    ensures OwedBlock(w, b, RootedBlock(Block(b.exp, Visited(w, b.node, entered, under)), isInFor), entered, under, isInFor)
    decreases b
  {
    hide Visited;
    RootedOwed(w, b.node, entered, under, isInFor);
  }

  // Optimizing marks exactly what it should.
  lemma OptimizedExactly(w: World, root: Node)
    requires Raw(root)
    ensures Owed(w, root, Optimized(w, root), true, false, false)
  {
    RootedOwed(w, root, true, false, false);
  }
}
