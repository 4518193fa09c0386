// The normalization that the compiler asks for leaves a flat array of vnodes.
module Flatness {
  import opened Sequences
  import opened Children
  import opened Templates

  predicate Flat(cs: seq<Child>) {
    forall i :: 0 <= i < |cs| ==> cs[i].Single?
  }

  // A vnode, or the list of vnodes that a functional component returned.
  predicate Shallow(c: Child) {
    c.Single? || (c.Nested? && Flat(c.items))
  }

  predicate AllShallow(cs: seq<Child>) {
    forall i :: 0 <= i < |cs| ==> Shallow(cs[i])
  }

  lemma CreateShallow(w: World, tag: string, key: Option<Key>, attrs: seq<(string, string)>, kids: Kids)
    ensures Shallow(CreateElement(w, tag, key, attrs, kids))
    ensures w.reserved(tag) ==> CreateElement(w, tag, key, attrs, kids).Single?
  {
  }

  lemma {:induction false} SplicedShallow(cs: seq<Child>)
    requires AllShallow(cs)
    ensures Flat(Spliced(cs))
  {
    if cs != [] {
      SplicedShallow(cs[..|cs| - 1]);
      assert Shallow(cs[|cs| - 1]);
    }
  }

  // As the parser leaves v-else blocks: elements without a v-if of their own.
  predicate Parsed(n: Node) {
    n.Element? && n.branch.If? ==>
      forall i :: 0 <= i < |n.branch.elses| ==> n.branch.elses[i].node.Element? && !n.branch.elses[i].node.branch.If?
  }

  predicate AllParsed(cs: seq<Node>) {
    forall i :: 0 <= i < |cs| ==> Parsed(cs[i])
  }

  // An `is` on a platform tag, which the compiler takes for that element.
  predicate Disguised(w: World, n: Node) {
    n.Element? && n.component.Some? && w.reserved(n.tag)
  }

  // One of the blocks that can be chosen is disguised: no v-else comes before
  // it, and no block with the same condition.
  predicate DisguisedElse(w: World, elses: seq<Block>, before: set<string>) {
    elses != [] &&
    var b := elses[0];
    if b.exp.None? then Disguised(w, b.node)
    else (b.exp.value !in before && Disguised(w, b.node)) || DisguisedElse(w, elses[1..], before + {b.exp.value})
  }

  predicate CanDisguise(w: World, n: Node) {
    Disguised(w, n) || (n.Element? && n.branch.If? && DisguisedElse(w, n.branch.elses, {n.branch.exp}))
  }

  lemma ElementShape(w: World, n: Node, env: Env)
    requires n.Element? && !NeedsNormalization(n)
    ensures Shallow(RenderBase(w, n, env))
    ensures w.reserved(n.tag) && !Disguised(w, n) ==> RenderBase(w, n, env).Single?
  {
    CreateShallow(w, TagValue(w, env, n.tag, n.component), KeyValue(w, env, n.key), AttrValues(w, env, n.attrs),
                  RenderKids(w, n, env));
  }

  lemma BlockShape(w: World, b: Block, env: Env)
    requires b.node.Element? && !b.node.branch.If? && !NeedsNormalization(b.node)
    ensures RenderBlock(w, b, env) == RenderBase(w, b.node, env)
  {
    assert Render(w, b.node, env) == RenderBranch(w, b.node, env);
  }

  predicate Simple(elses: seq<Block>) {
    forall i :: 0 <= i < |elses| ==>
      elses[i].node.Element? && !elses[i].node.branch.If? && !NeedsNormalization(elses[i].node)
  }

  predicate PlatformTags(w: World, elses: seq<Block>) {
    forall i :: 0 <= i < |elses| ==> !MaybeComponent(w, elses[i].node)
  }

  lemma {:induction false} ElsesShape(w: World, elses: seq<Block>, env: Env, before: set<string>)
    requires Simple(elses)
    requires forall e :: e in before ==> !Truthy(w.eval(e, env))
    ensures Shallow(RenderElses(w, elses, env))
    ensures PlatformTags(w, elses) && !DisguisedElse(w, elses, before) ==> RenderElses(w, elses, env).Single?
    decreases |elses|
  {
    if elses != [] {
      var b := elses[0];
      if b.exp.None? || Truthy(w.eval(b.exp.value, env)) {
        ElementShape(w, b.node, env);
        BlockShape(w, b, env);
      } else {
        ElsesShape(w, elses[1..], env, before + {b.exp.value});
      }
    }
  }

  lemma ChildShape(w: World, n: Node, env: Env)
    requires Parsed(n) && !AsksAlways(n)
    ensures Shallow(Render(w, n, env))
    ensures !AsksSimple(w, n) && !CanDisguise(w, n) ==> Render(w, n, env).Single?
  {
    if n.Element? {
      ElementShape(w, n, env);
      assert Render(w, n, env) == RenderBranch(w, n, env);
      if n.branch.If? && !Truthy(w.eval(n.branch.exp, env)) {
        ElsesShape(w, n.branch.elses, env, {n.branch.exp});
      }
    }
  }

  lemma RenderAllAt(w: World, ns: seq<Node>, env: Env, i: nat)
    requires i < |ns|
    ensures RenderAll(w, ns, env)[i] == Render(w, ns[i], env)
    decreases |ns|
  {
    if i < |ns| - 1 {
      RenderAllAt(w, ns[..|ns| - 1], env, i);
    }
  }

  // The choice spelled out: full normalization for a child or v-else block
  // that is a v-for, a template or a slot, simple normalization for one that
  // is not a platform tag.
  predicate MakesList(n: Node) {
    n.Element? && (n.loop.Some? || n.tag == "template" || n.tag == "slot")
  }

  predicate Foreign(w: World, n: Node) {
    n.Element? && !w.reserved(n.tag)
  }

  // The child itself or one of its v-else blocks.
  ghost predicate Candidate(n: Node, m: Node) {
    n.Element? && (m == n || (n.branch.If? && exists i :: 0 <= i < |n.branch.elses| && n.branch.elses[i].node == m))
  }

  lemma AsksExactly(w: World, n: Node)
    ensures AsksAlways(n) <==> exists m: Node :: Candidate(n, m) && MakesList(m)
    ensures AsksSimple(w, n) <==> exists m: Node :: Candidate(n, m) && Foreign(w, m)
  {
    if n.Element? {
      assert Candidate(n, n);
      if n.branch.If? {
        forall i | 0 <= i < |n.branch.elses|
          ensures Candidate(n, n.branch.elses[i].node)
        {
        }
      }
    }
  }

  lemma NormTypeExactly(w: World, cs: seq<Node>)
    ensures NormTypeOf(w, cs) == AlwaysNormalize <==>
            exists i: nat, m: Node :: i < |cs| && Candidate(cs[i], m) && MakesList(m)
    ensures NormTypeOf(w, cs) == SimpleNormalize <==>
            NormTypeOf(w, cs) != AlwaysNormalize && exists i: nat, m: Node :: i < |cs| && Candidate(cs[i], m) && Foreign(w, m)
  {
    hide AsksAlways, AsksSimple, Candidate, MakesList, Foreign;
    forall i | 0 <= i < |cs|
      ensures AsksAlways(cs[i]) <==> exists m: Node :: Candidate(cs[i], m) && MakesList(m)
      ensures AsksSimple(w, cs[i]) <==> exists m: Node :: Candidate(cs[i], m) && Foreign(w, m)
    {
      AsksExactly(w, cs[i]);
    }
  }

  // Whatever normalization is chosen, the children become a flat array,
  // unless none is chosen and a child can be disguised.
  lemma ChildrenFlat(w: World, cs: seq<Node>, env: Env)
    requires AllParsed(cs)
    requires NormTypeOf(w, cs) == NoNormalize ==> forall i :: 0 <= i < |cs| ==> !CanDisguise(w, cs[i])
    ensures Flat(Normalized(NormTypeOf(w, cs), RenderAll(w, cs, env)))
  {
    var t, items := NormTypeOf(w, cs), RenderAll(w, cs, env);
    if t != AlwaysNormalize {
      forall i | 0 <= i < |cs|
        ensures Shallow(items[i]) && (t == NoNormalize ==> items[i].Single?)
      {
        RenderAllAt(w, cs, env, i);
        ChildShape(w, cs[i], env);
      }
      SplicedShallow(items);
    }
  }

  // A world in which only one condition holds, and every component is
  // functional and returns a list.
  function Adverse(w: World, tag: string, exp: Option<string>): World {
    World((e, env) => Bool(exp == Some(e)), v => tag, w.reserved, (t, key, attrs, kids) => Many([]))
  }

  lemma DisguisedNested(w: World, tag: string, exp: Option<string>, n: Node, env: Env)
    requires tag != "" && !w.reserved(tag) && Disguised(w, n) && !NeedsNormalization(n)
    ensures RenderBase(Adverse(w, tag, exp), n, env).Nested?
  {
  }

  // The one condition that makes a disguised block the chosen one.
  lemma {:induction false} ChooseElse(w: World, tag: string, elses: seq<Block>, before: set<string>) returns (exp: Option<string>)
    requires tag != "" && !w.reserved(tag) && Simple(elses) && DisguisedElse(w, elses, before)
    ensures exp.Some? ==> exp.value !in before
    ensures RenderElses(Adverse(w, tag, exp), elses, map[]).Nested?
    decreases |elses|
  {
    var b := elses[0];
    if b.exp.None? || (b.exp.value !in before && Disguised(w, b.node)) {
      exp := b.exp;
      DisguisedNested(w, tag, exp, b.node, map[]);
      var v := Adverse(w, tag, exp);
      BlockShape(v, b, map[]);
    } else {
      exp := ChooseElse(w, tag, elses[1..], before + {b.exp.value});
    }
  }

  lemma ChooseChild(w: World, tag: string, n: Node) returns (exp: Option<string>)
    requires tag != "" && !w.reserved(tag) && Parsed(n) && !AsksAlways(n) && CanDisguise(w, n)
    ensures Render(Adverse(w, tag, exp), n, map[]).Nested?
  {
    if Disguised(w, n) {
      exp := if n.branch.If? then Some(n.branch.exp) else None;
      DisguisedNested(w, tag, exp, n, map[]);
    } else {
      exp := ChooseElse(w, tag, n.branch.elses, {n.branch.exp});
    }
  }

  ghost predicate AlwaysFlat(w: World, cs: seq<Node>) {
    forall v: World, env: Env ::
      v.reserved == w.reserved ==> Flat(Normalized(NormTypeOf(v, cs), RenderAll(v, cs, env)))
  }

  predicate SomeDisguise(w: World, cs: seq<Node>) {
    exists i :: 0 <= i < |cs| && CanDisguise(w, cs[i])
  }

  // The choice is sound for a template whatever the data, the scripts and the
  // components are, exactly if it normalizes or no child can be disguised.
  lemma FlatExactly(w: World, tag: string, cs: seq<Node>)
    requires tag != "" && !w.reserved(tag) && AllParsed(cs)
    ensures AlwaysFlat(w, cs) <==> NormTypeOf(w, cs) != NoNormalize || !SomeDisguise(w, cs)
  {
    if NormTypeOf(w, cs) != NoNormalize || !SomeDisguise(w, cs) {
      forall v: World, env: Env | v.reserved == w.reserved
        ensures Flat(Normalized(NormTypeOf(v, cs), RenderAll(v, cs, env)))
      {
        SameTags(w, v, cs);
        ChildrenFlat(v, cs, env);
      }
    } else {
      var i :| 0 <= i < |cs| && CanDisguise(w, cs[i]);
      var exp := ChooseChild(w, tag, cs[i]);
      var v := Adverse(w, tag, exp);
      SameTags(w, v, cs);
      RenderAllAt(v, cs, map[], i);
      assert !Flat(Normalized(NormTypeOf(v, cs), RenderAll(v, cs, map[])));
    }
  }

  lemma SameTags(w: World, v: World, cs: seq<Node>)
    requires v.reserved == w.reserved
    ensures NormTypeOf(v, cs) == NormTypeOf(w, cs)
    ensures SomeDisguise(v, cs) <==> SomeDisguise(w, cs)
  {
    forall i | 0 <= i < |cs|
      ensures AsksSimple(v, cs[i]) <==> AsksSimple(w, cs[i])
      ensures CanDisguise(v, cs[i]) <==> CanDisguise(w, cs[i])
    {
      if cs[i].Element? && cs[i].branch.If? {
        SameElses(w, v, cs[i].branch.elses, {cs[i].branch.exp});
      }
    }
  }

  lemma {:induction false} SameElses(w: World, v: World, elses: seq<Block>, before: set<string>)
    requires v.reserved == w.reserved
    ensures DisguisedElse(v, elses, before) <==> DisguisedElse(w, elses, before)
    decreases |elses|
  {
    if elses != [] && elses[0].exp.Some? {
      SameElses(w, v, elses[1..], before + {elses[0].exp.value});
    }
  }

  // <li :is="kind"/>
  const DISGUISED := Element("li", None, [], Some("kind"), None, Plain, [], Marks(false, false, false))

  lemma DisguisedItem(w: World, tag: string)
    requires tag != "" && !w.reserved(tag) && w.reserved("li")
    ensures !AlwaysFlat(w, [DISGUISED])
  {
    FlatExactly(w, tag, [DISGUISED]);
    assert CanDisguise(w, [DISGUISED][0]);
  }
}
