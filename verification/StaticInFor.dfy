// A static tree that is rendered once per round of a list must not be shared
// between the rounds; the optimizer flags such trees.
module StaticInFor {
  import opened Sequences
  import opened Templates
  import opened Optimizer
  import opened Codegen

  // The code fetches, inside a list, a static tree without the flag that
  // makes renderStatic render it afresh.
  predicate Shares(c: Code, inList: bool)
    decreases c
  {
    match c
    case Hoisted(_, inFor) => inList && !inFor
    case List(_, body) => Shares(body, true)
    case Ternary(_, yes, no) => Shares(yes, inList) || Shares(no, inList)
    case Items(items) => exists i :: 0 <= i < |items| && Shares(items[i], inList)
    case Create(_, _, _, _, kids) => kids.KidsCode? && Shares(kids.code, inList)
    case _ => false
  }

  predicate SharesAny(cs: seq<Code>, inList: bool) {
    exists i :: 0 <= i < |cs| && Shares(cs[i], inList)
  }

  // No v-else in front of block i takes every case that is left.
  predicate Reached(bs: seq<Block>, i: nat) {
    i < |bs| && forall k :: 0 <= k < i ==> bs[k].exp.Some?
  }

  // A static root that is not inside a further v-for.
  predicate HasRoot(n: Node)
    decreases n, 0
  {
    n.Element? &&
    (WorthHoisting(n) ||
     (n.loop.None? && exists i :: 0 <= i < |n.children| && HasRoot(n.children[i])) ||
     (n.branch.If? && exists i :: 0 <= i < |n.branch.elses| && Reached(n.branch.elses, i) && HasRootBlock(n.branch.elses[i])))
  }

  predicate HasRootBlock(b: Block)
    decreases b
  {
    HasRoot(b.node)
  }

  // Outside every v-for there is an element with both v-for and v-if whose
  // v-else blocks hold a static root.
  predicate Overlooked(n: Node)
    decreases n, 0
  {
    n.Element? && !WorthHoisting(n) &&
    ((n.loop.None? && exists i :: 0 <= i < |n.children| && Overlooked(n.children[i])) ||
     (n.branch.If? && exists i :: 0 <= i < |n.branch.elses| && Reached(n.branch.elses, i) &&
                                  if n.loop.Some? then HasRootBlock(n.branch.elses[i])
                                  else OverlookedBlock(n.branch.elses[i])))
  }

  predicate OverlookedBlock(b: Block)
    decreases b
  {
    Overlooked(b.node)
  }

  // What is shared from n on, in a list or not, flagged as such or not.
  predicate Sharing(n: Node, inList: bool, isInFor: bool) {
    !isInFor && if inList then HasRoot(n) else Overlooked(n)
  }

  predicate SharingBlock(b: Block, inList: bool, isInFor: bool) {
    Sharing(b.node, inList, isInFor)
  }

  predicate SharingAny(ns: seq<Node>, inList: bool, isInFor: bool) {
    exists i :: 0 <= i < |ns| && Sharing(ns[i], inList, isInFor)
  }

  predicate SharingBlocks(bs: seq<Block>, inList: bool, isInFor: bool) {
    exists i :: 0 <= i < |bs| && Reached(bs, i) && SharingBlock(bs[i], inList, isInFor)
  }

  lemma SharingIs(n: Node, inList: bool, isInFor: bool)
    ensures !n.Element? ==> !Sharing(n, inList, isInFor)
    ensures n.Element? && WorthHoisting(n) ==> (Sharing(n, inList, isInFor) <==> inList && !isInFor)
    ensures n.Element? && !WorthHoisting(n) ==>
              (Sharing(n, inList, isInFor) <==>
               SharingAny(n.children, inList || n.loop.Some?, isInFor || n.loop.Some?) ||
               (n.branch.If? && SharingBlocks(n.branch.elses, inList || n.loop.Some?, isInFor)))
  {
    if n.Element? && !WorthHoisting(n) && !isInFor {
      if inList || n.loop.Some? {
        assert n.branch.If? ==>
            (SharingBlocks(n.branch.elses, true, false) <==>
             exists i :: 0 <= i < |n.branch.elses| && Reached(n.branch.elses, i) && HasRootBlock(n.branch.elses[i]));
      } else {
        assert n.branch.If? ==>
            (SharingBlocks(n.branch.elses, false, false) <==>
             exists i :: 0 <= i < |n.branch.elses| && Reached(n.branch.elses, i) && OverlookedBlock(n.branch.elses[i]));
      }
      if n.loop.None? && inList {
        assert SharingAny(n.children, true, false) <==> exists i :: 0 <= i < |n.children| && HasRoot(n.children[i]);
      } else if n.loop.None? {
        assert SharingAny(n.children, false, false) <==> exists i :: 0 <= i < |n.children| && Overlooked(n.children[i]);
      }
    }
  }

  lemma {:induction false} GenShares(w: World, n: Node, fns: seq<Code>, inList: bool, isInFor: bool)
    ensures Shares(Gen(w, Rooted(n, isInFor), fns).code, inList) <==> Sharing(n, inList, isInFor)
    decreases n, 4
  {
    hide SharingAny, SharingBlocks, Sharing;
    SharingIs(n, inList, isInFor);
    if n.Element? && !WorthHoisting(n) {
      var r := Rooted(n, isInFor);
      var l, f := inList || n.loop.Some?, isInFor || n.loop.Some?;
      BaseShares(w, n, r, fns, l, f);
      if n.branch.If? {
        ElsesShare(w, n.branch.elses, GenBase(w, r, fns).fns, l, isInFor);
      }
      GenShape(w, r, fns, inList);
    } else if n.Element? {
      HoistedShape(w, n, fns, inList, isInFor);
    }
  }

  lemma GenShape(w: World, r: Node, fns: seq<Code>, inList: bool)
    requires r.Element? && !r.marks.staticRoot
    ensures var b, l := GenBase(w, r, fns), inList || r.loop.Some?;
            Shares(Gen(w, r, fns).code, inList) <==>
            Shares(b.code, l) || (r.branch.If? && Shares(GenElses(w, r.branch.elses, b.fns).code, l))
  {
    hide GenBase, GenElses;
    var l, br := inList || r.loop.Some?, GenBranch(w, r, fns);
    assert Shares(br.code, l) <==>
      Shares(GenBase(w, r, fns).code, l) ||
      (r.branch.If? && Shares(GenElses(w, r.branch.elses, GenBase(w, r, fns).fns).code, l));
    hide GenBranch;
    assert r.loop.Some? ==> Gen(w, r, fns).code == List(r.loop.value, br.code);
  }

  lemma HoistedShape(w: World, n: Node, fns: seq<Code>, inList: bool, isInFor: bool)
    requires n.Element? && WorthHoisting(n)
    ensures Shares(Gen(w, Rooted(n, isInFor), fns).code, inList) <==> inList && !isInFor
  {
    hide GenLoop;
  }

  lemma {:induction false} BaseShares(w: World, n: Node, r: Node, fns: seq<Code>, inList: bool, isInFor: bool)
    requires n.Element? && r.Element? && r.children == RootedAll(n.children, isInFor)
    ensures Shares(GenBase(w, r, fns).code, inList) <==> SharingAny(n.children, inList, isInFor)
    decreases n, 1
  {
    hide Sharing, RootedAll;
    RootedShape(n.children, isInFor);
    if n.children != [] {
      if LoneLoop(n.children) {
        GenShares(w, n.children[0], fns, inList, isInFor);
      } else {
        AllShare(w, n.children, fns, inList, isInFor);
        assert SharesAny(GenAll(w, r.children, fns).codes, inList) <==> Shares(Items(GenAll(w, r.children, fns).codes), inList);
      }
    }
  }

  lemma RootedShape(ns: seq<Node>, isInFor: bool)
    ensures RootedAll(ns, isInFor) == [] <==> ns == []
    ensures LoneLoop(RootedAll(ns, isInFor)) <==> LoneLoop(ns)
    ensures ns != [] ==> RootedAll(ns, isInFor)[0] == Rooted(ns[0], isInFor)
  {
  }

  lemma {:induction false} AllShare(w: World, ns: seq<Node>, fns: seq<Code>, inList: bool, isInFor: bool)
    ensures SharesAny(GenAll(w, RootedAll(ns, isInFor), fns).codes, inList) <==> SharingAny(ns, inList, isInFor)
    decreases ns
  {
    hide *;
    if ns == [] {
      NoNode(w, fns, inList, isInFor);
    } else {
      var before, n := ns[..|ns| - 1], ns[|ns| - 1];
      var os := GenAll(w, RootedAll(before, isInFor), fns);
      AllShare(w, before, fns, inList, isInFor);
      GenShares(w, n, os.fns, inList, isInFor);
      LastCode(w, ns, fns, isInFor);
      AnyMore(os.codes, Gen(w, Rooted(n, isInFor), os.fns).code, inList);
      AnyNode(before, n, inList, isInFor);
      assert before + [n] == ns;
    }
  }

  lemma NoNode(w: World, fns: seq<Code>, inList: bool, isInFor: bool)
    ensures !SharesAny(GenAll(w, RootedAll([], isInFor), fns).codes, inList) && !SharingAny([], inList, isInFor)
  {
  }

  lemma LastCode(w: World, ns: seq<Node>, fns: seq<Code>, isInFor: bool)
    requires ns != []
    ensures var os := GenAll(w, RootedAll(ns[..|ns| - 1], isInFor), fns);
            GenAll(w, RootedAll(ns, isInFor), fns).codes == os.codes + [Gen(w, Rooted(ns[|ns| - 1], isInFor), os.fns).code]
  {
    hide Rooted, Gen;
    var rs := RootedAll(ns, isInFor);
    assert rs[..|rs| - 1] == RootedAll(ns[..|ns| - 1], isInFor);
  }

  lemma AnyMore(cs: seq<Code>, c: Code, inList: bool)
    ensures SharesAny(cs + [c], inList) <==> SharesAny(cs, inList) || Shares(c, inList)
  {
    hide Shares;
    if SharesAny(cs, inList) {
      var i :| 0 <= i < |cs| && Shares(cs[i], inList);
      assert (cs + [c])[i] == cs[i];
    }
    assert (cs + [c])[|cs|] == c;
  }

  lemma AnyNode(ns: seq<Node>, n: Node, inList: bool, isInFor: bool)
    ensures SharingAny(ns + [n], inList, isInFor) <==> SharingAny(ns, inList, isInFor) || Sharing(n, inList, isInFor)
  {
    hide Sharing;
    if SharingAny(ns, inList, isInFor) {
      var i :| 0 <= i < |ns| && Sharing(ns[i], inList, isInFor);
      assert (ns + [n])[i] == ns[i];
    }
    assert (ns + [n])[|ns|] == n;
  }

  lemma AnyBlock(bs: seq<Block>, inList: bool, isInFor: bool)
    requires bs != []
    ensures SharingBlocks(bs, inList, isInFor) <==>
            SharingBlock(bs[0], inList, isInFor) || (bs[0].exp.Some? && SharingBlocks(bs[1..], inList, isInFor))
  {
    hide SharingBlock;
    var rest := bs[1..];
    if bs[0].exp.Some? && SharingBlocks(rest, inList, isInFor) {
      var i :| 0 <= i < |rest| && Reached(rest, i) && SharingBlock(rest[i], inList, isInFor);
      forall k | 0 <= k < i + 1
        ensures bs[k].exp.Some?
      {
        if k > 0 {
          assert rest[k - 1] == bs[k];
        }
      }
      assert rest[i] == bs[i + 1];
    }
    if SharingBlocks(bs, inList, isInFor) && !SharingBlock(bs[0], inList, isInFor) {
      var i :| 0 <= i < |bs| && Reached(bs, i) && SharingBlock(bs[i], inList, isInFor);
      assert rest[i - 1] == bs[i];
      assert Reached(rest, i - 1);
    }
    assert Reached(bs, 0);
  }

  lemma {:induction false} ElsesShare(w: World, bs: seq<Block>, fns: seq<Code>, inList: bool, isInFor: bool)
    ensures Shares(GenElses(w, RootedBlocks(bs, isInFor), fns).code, inList) <==> SharingBlocks(bs, inList, isInFor)
    decreases bs
  {
    hide SharingBlock, SharingBlocks;
    var rs := RootedBlocks(bs, isInFor);
    if bs == [] {
      NoBlock(inList, isInFor);
    } else {
      AnyBlock(bs, inList, isInFor);
      assert rs[0] == RootedBlock(bs[0], isInFor);
      assert rs[1..] == RootedBlocks(bs[1..], isInFor);
      BlockShares(w, bs[0], fns, inList, isInFor);
      var o := GenBlock(w, RootedBlock(bs[0], isInFor), fns);
      ElsesShare(w, bs[1..], o.fns, inList, isInFor);
    }
  }

  lemma NoBlock(inList: bool, isInFor: bool)
    ensures !SharingBlocks([], inList, isInFor)
  {
  }

  lemma {:induction false} BlockShares(w: World, b: Block, fns: seq<Code>, inList: bool, isInFor: bool)
    ensures Shares(GenBlock(w, RootedBlock(b, isInFor), fns).code, inList) <==> SharingBlock(b, inList, isInFor)
    decreases b, 5
  {
    GenShares(w, b.node, fns, inList, isInFor);
  }

  // The generated render function shares a static tree between the rounds of
  // a list exactly if the template has an overlooked element: the blocks of
  // v-else are flagged as if they were outside the v-for of their element.
  lemma SharesExactly(w: World, root: Node)
    ensures Shares(Gen(w, Optimized(w, root), []).code, false) <==> Overlooked(Marked(w, root, false))
  {
    GenShares(w, Marked(w, root, false), [], false, false);
  }

  // <i v-for="x in xs" v-if="c"/><p v-else><b><u/></b>{{y}}</p>
  const HIDDEN := Marks(false, false, false)

  const STATIC_CHILD := Element("b", None, [], None, None, Plain, [Element("u", None, [], None, None, Plain, [], HIDDEN)], HIDDEN)

  const ELSE_CHILD := Element("p", None, [], None, None, Else, [STATIC_CHILD, Expression("y")], HIDDEN)

  const LOOP_CHILD := Element("i", None, [], None, Some(Loop("xs", "x", None, None)), If("c", [Block(None, ELSE_CHILD)]), [], HIDDEN)

  lemma SharingTemplate(w: World)
    requires forall tag :: tag in {"b", "u", "p", "i", "div"} ==> w.reserved(tag)
    ensures Raw(LOOP_CHILD)
    ensures Shares(Gen(w, Optimized(w, LOOP_CHILD), []).code, false)
  {
    RawExample();
    SharesExactly(w, LOOP_CHILD);
    MarkedExactly(w, STATIC_CHILD, false);
    var m := Marked(w, LOOP_CHILD, false);
    var e := Marked(w, ELSE_CHILD, false);
    assert m.branch.elses[0] == MarkedBlock(w, Block(None, ELSE_CHILD), false);
    assert m.branch.elses[0].node == e;
    assert e.children[0] == Marked(w, STATIC_CHILD, false);
    assert WorthHoisting(e.children[0]);
    assert HasRoot(e.children[0]);
    assert HasRootBlock(m.branch.elses[0]);
    assert Reached(m.branch.elses, 0);
  }

  lemma RawExample()
    ensures Raw(LOOP_CHILD)
  {
    assert Raw(STATIC_CHILD.children[0]);
    assert Raw(STATIC_CHILD);
    assert Raw(ELSE_CHILD.children[0]) && Raw(ELSE_CHILD.children[1]);
    assert Raw(ELSE_CHILD);
    assert RawBlock(Block(None, ELSE_CHILD));
    assert RawBlock(LOOP_CHILD.branch.elses[0]);
  }
}
