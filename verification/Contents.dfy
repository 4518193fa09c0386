// What is there to see of a template and of a vnode tree: tags with their keys
// and attributes, comments, and the characters of text, in document order.
module Contents {
  import opened Sequences
  import opened Children
  import opened Templates

  datatype Bit =
    | Open(tag: string, key: Option<string>, attrs: seq<(string, string)>)
    | Close
    | Letter(c: char)
    | Remark(comment: string)

  function Letters(s: string): (r: seq<Bit>)
    ensures |r| == |s| && forall i :: 0 <= i < |s| ==> r[i] == Letter(s[i])
  {
    seq(|s|, i requires 0 <= i < |s| => Letter(s[i]))
  }

  // ----- of vnodes

  // The key that the template gave the vnode.
  function UserKey(m: Mark): Option<string> {
    if m.key.Some? && m.key.value.User? then Some(m.key.value.s) else None
  }

  function OfVn(n: Vn): seq<Bit>
    decreases n, 1
  {
    match n
    case TextVn(text, _) => Letters(text)
    case CommentVn(comment, _) => [Remark(comment)]
    case ElemVn(tag, attrs, kids, m) => [Open(tag, UserKey(m), attrs)] + OfKids(kids) + [Close]
    case CompVn(name, attrs, kids, m) => [Open(name, UserKey(m), attrs)] + OfKids(kids) + [Close]
  }

  function OfKids(k: Kids): seq<Bit>
    decreases k, 1
  {
    if k.Kids? then OfChildren(k.items) else []
  }

  function OfChild(c: Child): seq<Bit>
    decreases c, 2
  {
    match c
    case Undefined => []
    case Boolean(_) => []
    case Primitive(s) => Letters(s)
    case Single(n) => OfVn(n)
    case Nested(items, _) => OfChildren(items)
  }

  function OfChildren(cs: seq<Child>): seq<Bit>
    decreases cs, 0
  {
    if cs == [] then [] else OfChildren(cs[..|cs| - 1]) + OfChild(cs[|cs| - 1])
  }

  // ----- of templates, in an environment

  predicate Falsy(v: Value) {
    v == Nothing || v == Bool(false) || v == Str("") || v == Num(0)
  }

  // How often v-for over v goes round, and what it passes in round i.
  function RoundCount(v: Value): nat {
    match v
    case Arr(items) => |items|
    case Str(s) => |s|
    case Num(n) => n
    case Obj(entries) => |entries|
    case _ => 0
  }

  function ItemOf(v: Value, i: nat): Value
    requires i < RoundCount(v)
  {
    match v
    case Arr(items) => items[i]
    case Str(s) => Str([s[i]])
    case Num(_) => Num(i + 1)
    case Obj(entries) => entries[i].1
  }

  function FirstOf(v: Value, i: nat): Value
    requires i < RoundCount(v)
  {
    if v.Obj? then Str(v.entries[i].0) else Num(i)
  }

  function SecondOf(v: Value, i: nat): Value
    requires i < RoundCount(v)
  {
    if v.Obj? then Num(i) else Nothing
  }

  function Named(x: Option<string>): set<string> {
    if x.Some? then {x.value} else {}
  }

  // The environment inside round i: a later parameter hides an earlier one
  // of the same name.
  function RoundEnv(env: Env, l: Loop, v: Value, i: nat): Env
    requires i < RoundCount(v)
  {
    map x | x in env.Keys + {l.alias} + Named(l.iterator1) + Named(l.iterator2) ::
      if l.iterator2 == Some(x) then SecondOf(v, i)
      else if l.iterator1 == Some(x) then FirstOf(v, i)
      else if l.alias == x then ItemOf(v, i)
      else env[x]
  }

  function OfAttrs(w: World, attrs: seq<Attr>, env: Env): seq<(string, string)> {
    if attrs == [] then []
    else
      OfAttrs(w, attrs[..|attrs| - 1], env) +
      match attrs[|attrs| - 1]
      case Fixed(name, value) => [(name, value)]
      case Bound(name, exp) => [(name, w.show(w.eval(exp, env)))]
  }

  // No component is functional; `loading` names the async ones that have not
  // arrived yet.
  ghost predicate Regular(w: World, loading: string -> bool) {
    forall tag: string, key: Option<Key>, attrs: seq<(string, string)>, kids: Kids ::
      var o := w.component(tag, key, attrs, kids);
      !o.One? && !o.Many? && (o.Missing? <==> loading(tag))
  }

  function OfNode(w: World, loading: string -> bool, n: Node, env: Env): seq<Bit>
    decreases n, 4
  {
    match n
    case Expression(exp) => Letters(w.show(w.eval(exp, env)))
    case Text(text, isComment) => if isComment then [Remark(text)] else Letters(text)
    case Element(_, _, _, _, loop, _, _, _) =>
      if loop.None? then OfChoice(w, loading, n, env)
      else
        var v := w.eval(loop.value.exp, env);
        OfRounds(w, loading, n, env, v, RoundCount(v))
  }

  function OfRounds(w: World, loading: string -> bool, n: Node, env: Env, v: Value, rounds: nat): seq<Bit>
    requires n.Element? && n.loop.Some? && rounds <= RoundCount(v)
    decreases n, 3, rounds
  {
    if rounds == 0 then []
    else
      OfRounds(w, loading, n, env, v, rounds - 1) +
      OfChoice(w, loading, n, RoundEnv(env, n.loop.value, v, rounds - 1))
  }

  // The element, or the first block whose condition holds.
  function OfChoice(w: World, loading: string -> bool, n: Node, env: Env): seq<Bit>
    requires n.Element?
    decreases n, 2
  {
    if n.branch.If? && Falsy(w.eval(n.branch.exp, env)) then OfBlocks(w, loading, n.branch.elses, env)
    else OfElement(w, loading, n, env)
  }

  function OfBlocks(w: World, loading: string -> bool, bs: seq<Block>, env: Env): seq<Bit>
    decreases bs
  {
    if bs == [] then [Remark("")]
    else if bs[0].exp.Some? && Falsy(w.eval(bs[0].exp.value, env)) then OfBlocks(w, loading, bs[1..], env)
    else OfBlock(w, loading, bs[0], env)
  }

  function OfBlock(w: World, loading: string -> bool, b: Block, env: Env): seq<Bit>
    decreases b, 5
  {
    OfNode(w, loading, b.node, env)
  }

  function OfElement(w: World, loading: string -> bool, n: Node, env: Env): seq<Bit>
    requires n.Element?
    decreases n, 1
  {
    if n.tag == "template" then OfNodes(w, loading, n.children, env)
    else
      var tag := if n.component.Some? then w.show(w.eval(n.component.value, env)) else n.tag;
      var key := if n.key.Some? then Some(w.show(w.eval(n.key.value, env))) else None;
      if tag == "" || (!w.reserved(tag) && loading(tag)) then [Remark("")]
      else [Open(tag, key, OfAttrs(w, n.attrs, env))] + OfNodes(w, loading, n.children, env) + [Close]
  }

  function OfNodes(w: World, loading: string -> bool, ns: seq<Node>, env: Env): seq<Bit>
    decreases ns
  {
    if ns == [] then []
    else OfNodes(w, loading, ns[..|ns| - 1], env) + OfNode(w, loading, ns[|ns| - 1], env)
  }

  // ----- normalization loses nothing of it

  function OfVns(ns: seq<Vn>): seq<Bit> {
    if ns == [] then [] else OfVns(ns[..|ns| - 1]) + OfVn(ns[|ns| - 1])
  }

  lemma OneVn(ns: seq<Vn>, n: Vn)
    ensures OfVns(ns + [n]) == OfVns(ns) + OfVn(n)
  {
    assert (ns + [n])[..|ns|] == ns;
  }

  lemma OneChild(cs: seq<Child>, c: Child)
    ensures OfChildren(cs + [c]) == OfChildren(cs) + OfChild(c)
  {
    assert (cs + [c])[..|cs|] == cs;
  }

  lemma {:induction false} VnsConcat(a: seq<Vn>, b: seq<Vn>)
    ensures OfVns(a + b) == OfVns(a) + OfVns(b)
  {
    hide OfVn;
    if b == [] {
      assert a + b == a;
    } else {
      VnsConcat(a, b[..|b| - 1]);
      assert (a + b)[..|a + b| - 1] == a + b[..|b| - 1];
    }
  }

  lemma {:induction false} ChildrenConcat(a: seq<Child>, b: seq<Child>)
    ensures OfChildren(a + b) == OfChildren(a) + OfChildren(b)
  {
    hide OfChild;
    if b == [] {
      assert a + b == a;
    } else {
      ChildrenConcat(a, b[..|b| - 1]);
      assert (a + b)[..|a + b| - 1] == a + b[..|b| - 1];
    }
  }

  lemma {:induction false} SinglesContent(ns: seq<Vn>)
    ensures OfChildren(Singles(ns)) == OfVns(ns)
  {
    if ns != [] {
      SinglesContent(ns[..|ns| - 1]);
      assert Singles(ns)[..|ns| - 1] == Singles(ns[..|ns| - 1]);
      assert OfChild(Singles(ns)[|ns| - 1]) == OfVn(ns[|ns| - 1]);
    }
  }

  lemma TextsJoin(a: string, b: string)
    ensures Letters(a + b) == Letters(a) + Letters(b)
  {
  }

  lemma PutContent(res: seq<Vn>, n: Vn)
    ensures OfVns(Put(res, n)) == OfVns(res) + OfVn(n)
  {
    hide *;
    PutIs(res, n);
    if n.TextVn? && IsTextLast(res) {
      var before, last := res[..|res| - 1], res[|res| - 1];
      OneVn(before, last);
      OneVn(before, TextVn(last.text + n.text, NO_MARK));
      assert before + [last] == res;
      TextContent(last);
      TextContent(n);
      TextContent(TextVn(last.text + n.text, NO_MARK));
      TextsJoin(last.text, n.text);
      Associates(OfVns(before), Letters(last.text), Letters(n.text));
    } else {
      OneVn(res, n);
    }
  }

  predicate IsTextLast(res: seq<Vn>) {
    res != [] && res[|res| - 1].TextVn?
  }

  lemma PutIs(res: seq<Vn>, n: Vn)
    ensures IsTextLast(res) <==> res != [] && res[|res| - 1].TextVn?
    ensures Put(res, n) ==
            if n.TextVn? && IsTextLast(res) then res[..|res| - 1] + [TextVn(res[|res| - 1].text + n.text, NO_MARK)] else res + [n]
  {
  }

  lemma TextContent(n: Vn)
    requires n.TextVn?
    ensures OfVn(n) == Letters(n.text)
  {
  }

  lemma Associates(a: seq<Bit>, b: seq<Bit>, c: seq<Bit>)
    ensures a + (b + c) == (a + b) + c
  {
  }

  lemma JoinContent(res: seq<Vn>, c: seq<Vn>)
    ensures OfVns(Join(res, c)) == OfVns(res) + OfVns(c)
  {
    hide OfVn, Put;
    if c != [] {
      PutContent(res, c[0]);
      VnsConcat(Put(res, c[0]), c[1..]);
      VnsConcat([c[0]], c[1..]);
      OneVn([], c[0]);
      assert [] + [c[0]] == [c[0]] && [c[0]] + c[1..] == c;
    }
  }

  lemma ListKeyContent(n: Vn, isVList: bool, i: nat, nestedIndex: Option<seq<nat>>)
    ensures OfVn(WithListKey(n, isVList, i, nestedIndex)) == OfVn(n)
  {
  }

  lemma StepContent(res: seq<Vn>, c: Child, i: nat, isVList: bool, nestedIndex: Option<seq<nat>>)
    requires c.Nested? ==> OfVns(Norm(c.items, c.isVList, Deeper(nestedIndex, i))) == OfChildren(c.items)
    ensures OfVns(Step(res, c, i, isVList, nestedIndex)) == OfVns(res) + OfChild(c)
  {
    hide OfVns, OfChildren, Put, Join, WithListKey, Norm;
    match c
    case Undefined =>
    case Boolean(_) =>
    case Primitive(s) => PutContent(res, TextVn(s, NO_MARK));
    case Single(n) =>
      ListKeyContent(n, isVList, i, nestedIndex);
      PutContent(res, WithListKey(n, isVList, i, nestedIndex));
    case Nested(items, vlist) => JoinContent(res, Norm(items, vlist, Deeper(nestedIndex, i)));
  }

  lemma {:induction false} NormContent(cs: seq<Child>, isVList: bool, nestedIndex: Option<seq<nat>>)
    ensures OfVns(Norm(cs, isVList, nestedIndex)) == OfChildren(cs)
    decreases cs, 1
  {
    assert cs[..|cs|] == cs;
    LoopContent(cs, |cs|, isVList, nestedIndex);
  }

  lemma {:induction false} LoopContent(cs: seq<Child>, n: nat, isVList: bool, nestedIndex: Option<seq<nat>>)
    requires n <= |cs|
    ensures OfVns(Children.Loop(cs, n, isVList, nestedIndex)) == OfChildren(cs[..n])
    decreases cs, 0, n
  {
    hide OfVn, OfChild, Step, Norm;
    if n > 0 {
      var c := cs[n - 1];
      LoopContent(cs, n - 1, isVList, nestedIndex);
      if c.Nested? {
        NormContent(c.items, c.isVList, Deeper(nestedIndex, n - 1));
      }
      StepContent(Children.Loop(cs, n - 1, isVList, nestedIndex), c, n - 1, isVList, nestedIndex);
      OneChild(cs[..n - 1], c);
      assert cs[..n - 1] + [c] == cs[..n];
    }
  }

  lemma {:induction false} SplicedContent(cs: seq<Child>)
    ensures OfChildren(Spliced(cs)) == OfChildren(cs)
  {
    hide OfChild;
    if cs != [] {
      var before, c := cs[..|cs| - 1], cs[|cs| - 1];
      SplicedContent(before);
      ChildrenConcat(Spliced(before), SplicedOne(c));
      OneSpliced(c);
    }
  }

  lemma OneSpliced(c: Child)
    ensures OfChildren(SplicedOne(c)) == OfChild(c)
  {
    if !c.Nested? {
      OneChild([], c);
      assert [] + [c] == [c];
    }
  }

  lemma NormalizedContent(t: NormType, cs: seq<Child>)
    ensures OfChildren(Normalized(t, cs)) == OfChildren(cs)
  {
    match t
    case NoNormalize =>
    case SimpleNormalize => SplicedContent(cs);
    case AlwaysNormalize =>
      NormContent(cs, false, None);
      SinglesContent(Norm(cs, false, None));
  }

  // ----- erasing marks loses nothing of it

  lemma {:induction false} EraseContent(n: Vn)
    ensures OfVn(Erase(n)) == OfVn(n)
    decreases n, 1
  {
    if (n.ElemVn? || n.CompVn?) && n.kids.Kids? {
      EraseKidsContent(n.kids.items);
    }
  }

  lemma {:induction false} EraseChildContent(c: Child)
    ensures OfChild(EraseChild(c)) == OfChild(c)
    decreases c, 2
  {
    match c
    case Single(n) => EraseContent(n);
    case Nested(items, _) => EraseKidsContent(items);
    case _ =>
  }

  lemma {:induction false} EraseKidsContent(cs: seq<Child>)
    ensures OfChildren(EraseKids(cs)) == OfChildren(cs)
    decreases cs, 0
  {
    hide OfChild, EraseChild;
    if cs != [] {
      EraseLast(cs);
      EraseKidsContent(cs[..|cs| - 1]);
      EraseChildContent(cs[|cs| - 1]);
    }
  }

  // What is the same up to marks has the same contents.
  lemma SameContent(c: Child, d: Child)
    requires EraseChild(c) == EraseChild(d)
    ensures OfChild(c) == OfChild(d)
  {
    EraseChildContent(c);
    EraseChildContent(d);
  }

  // ----- rendering shows the template

  lemma BindIs(env: Env, l: Loop, v: Value, i: nat)
    requires i < RoundCount(v)
    ensures Rounds(v).Some? && |Rounds(v).value| == RoundCount(v)
    ensures Bind(env, l, Rounds(v).value[i]) == RoundEnv(env, l, v, i)
  {
    assert Rounds(v).value[i] == Round(ItemOf(v, i), FirstOf(v, i), SecondOf(v, i));
  }

  lemma RoundsCount(v: Value)
    ensures (if Rounds(v).Some? then |Rounds(v).value| else 0) == RoundCount(v)
  {
  }

  lemma TruthyIs(v: Value)
    ensures Truthy(v) <==> !Falsy(v)
  {
  }

  lemma {:induction false} AttrsAre(w: World, attrs: seq<Attr>, env: Env)
    ensures AttrValues(w, env, attrs) == OfAttrs(w, attrs, env)
  {
    if attrs != [] {
      AttrsAre(w, attrs[..|attrs| - 1], env);
      assert AttrValues(w, env, attrs)[..|attrs| - 1] == AttrValues(w, env, attrs[..|attrs| - 1]);
    }
  }

  lemma CreateContent(w: World, loading: string -> bool, tag: string, key: Option<Key>, attrs: seq<(string, string)>, kids: Kids)
    requires Regular(w, loading) && (key.Some? ==> key.value.User?)
    ensures OfChild(CreateElement(w, tag, key, attrs, kids)) ==
            if tag == "" || (!w.reserved(tag) && loading(tag)) then [Remark("")]
            else [Open(tag, UserKey(Mark(key, false)), attrs)] + OfKids(kids) + [Close]
  {
    var o := w.component(tag, key, attrs, kids);
    assert !o.One? && !o.Many? && (o.Missing? <==> loading(tag));
  }

  // Whatever the data, the scripts and the stateful components are: rendering
  // a template shows what the template holds, all of it and in its order.
  lemma {:induction false} RenderContent(w: World, loading: string -> bool, n: Node, env: Env)
    requires Regular(w, loading)
    ensures OfChild(Render(w, n, env)) == OfNode(w, loading, n, env)
    decreases n, 4
  {
    hide *;
    if !n.Element? {
      LeafContent(w, loading, n, env);
    } else if n.loop.None? {
      ChoiceContent(w, loading, n, env);
      OnceContent(w, loading, n, env);
    } else {
      var v := w.eval(n.loop.value.exp, env);
      RoundsCount(v);
      if Rounds(v).Some? {
        RoundsContent(w, loading, n, env, v, RoundCount(v));
      }
      LoopContents(w, loading, n, env);
    }
  }

  lemma LeafContent(w: World, loading: string -> bool, n: Node, env: Env)
    requires !n.Element?
    ensures OfChild(Render(w, n, env)) == OfNode(w, loading, n, env)
  {
  }

  lemma OnceContent(w: World, loading: string -> bool, n: Node, env: Env)
    requires n.Element? && n.loop.None?
    ensures Render(w, n, env) == RenderBranch(w, n, env) && OfNode(w, loading, n, env) == OfChoice(w, loading, n, env)
  {
  }

  lemma LoopContents(w: World, loading: string -> bool, n: Node, env: Env)
    requires n.Element? && n.loop.Some?
    requires var v := w.eval(n.loop.value.exp, env);
             (if Rounds(v).Some? then |Rounds(v).value| else 0) == RoundCount(v) &&
             (Rounds(v).Some? ==>
                OfChildren(RenderRounds(w, n, env, Rounds(v).value[..RoundCount(v)])) ==
                OfRounds(w, loading, n, env, v, RoundCount(v)))
    ensures OfChild(Render(w, n, env)) == OfNode(w, loading, n, env)
  {
    hide Rounds, RoundCount, RenderRounds, OfChildren;
    var v := w.eval(n.loop.value.exp, env);
    if Rounds(v).Some? {
      assert Rounds(v).value[..RoundCount(v)] == Rounds(v).value;
    }
  }

  lemma {:induction false} RoundsContent(w: World, loading: string -> bool, n: Node, env: Env, v: Value, rounds: nat)
    requires Regular(w, loading) && n.Element? && n.loop.Some? && Rounds(v).Some? && rounds <= |Rounds(v).value|
    ensures rounds <= RoundCount(v)
    ensures OfChildren(RenderRounds(w, n, env, Rounds(v).value[..rounds])) == OfRounds(w, loading, n, env, v, rounds)
    decreases n, 3, rounds
  {
    hide Regular, Rounds, Bind, RoundEnv, RenderBranch, OfChoice;
    RoundsCount(v);
    if rounds > 0 {
      var all := Rounds(v).value;
      RoundsContent(w, loading, n, env, v, rounds - 1);
      BindIs(env, n.loop.value, v, rounds - 1);
      ChoiceContent(w, loading, n, RoundEnv(env, n.loop.value, v, rounds - 1));
      assert all[..rounds][..rounds - 1] == all[..rounds - 1];
      OneChild(RenderRounds(w, n, env, all[..rounds - 1]), RenderBranch(w, n, RoundEnv(env, n.loop.value, v, rounds - 1)));
    }
  }

  lemma {:induction false} ChoiceContent(w: World, loading: string -> bool, n: Node, env: Env)
    requires Regular(w, loading) && n.Element?
    ensures OfChild(RenderBranch(w, n, env)) == OfChoice(w, loading, n, env)
    decreases n, 2
  {
    hide Regular, RenderBase, OfElement, Truthy, Falsy;
    ElementContent(w, loading, n, env);
    if n.branch.If? {
      TruthyIs(w.eval(n.branch.exp, env));
      BlocksContent(w, loading, n.branch.elses, env);
    }
  }

  lemma {:induction false} BlocksContent(w: World, loading: string -> bool, bs: seq<Block>, env: Env)
    requires Regular(w, loading)
    ensures OfChild(RenderElses(w, bs, env)) == OfBlocks(w, loading, bs, env)
    decreases bs
  {
    hide Regular, RenderBlock, OfBlock, Truthy, Falsy;
    if bs != [] {
      if bs[0].exp.Some? {
        TruthyIs(w.eval(bs[0].exp.value, env));
      }
      BlockContent(w, loading, bs[0], env);
      BlocksContent(w, loading, bs[1..], env);
    }
  }

  lemma {:induction false} BlockContent(w: World, loading: string -> bool, b: Block, env: Env)
    requires Regular(w, loading)
    ensures OfChild(RenderBlock(w, b, env)) == OfBlock(w, loading, b, env)
    decreases b, 5
  {
    RenderContent(w, loading, b.node, env);
  }

  lemma {:induction false} ElementContent(w: World, loading: string -> bool, n: Node, env: Env)
    requires Regular(w, loading) && n.Element?
    ensures OfChild(RenderBase(w, n, env)) == OfElement(w, loading, n, env)
    decreases n, 1
  {
    hide Regular, CreateElement, RenderAll, OfNodes, OfChildren, AttrValues, OfAttrs, RenderKids;
    NodesContent(w, loading, n.children, env);
    KidsContent(w, loading, n, env);
    if n.children == [] {
      NoNodes(w, loading, env);
    } else if LoneLoop(n.children) {
      RenderContent(w, loading, n.children[0], env);
      LoneContent(w, loading, n.children, env);
    }
    if n.tag != "template" {
      AttrsAre(w, n.attrs, env);
      CreateContent(w, loading, TagValue(w, env, n.tag, n.component), KeyValue(w, env, n.key), AttrValues(w, env, n.attrs),
                    RenderKids(w, n, env));
    }
  }

  lemma NoNodes(w: World, loading: string -> bool, env: Env)
    ensures OfNodes(w, loading, [], env) == []
  {
  }

  lemma LoneContent(w: World, loading: string -> bool, ns: seq<Node>, env: Env)
    requires |ns| == 1
    ensures OfNodes(w, loading, ns, env) == OfNode(w, loading, ns[0], env)
  {
    hide OfNode;
    assert ns[..0] == [];
  }

  lemma {:induction false} KidsContent(w: World, loading: string -> bool, n: Node, env: Env)
    requires Regular(w, loading) && n.Element?
    ensures OfKids(RenderKids(w, n, env)) == OfNodes(w, loading, n.children, env)
    decreases n, 0
  {
    hide Regular, Normalized, RenderAll, OfNodes, OfChildren;
    if n.children == [] {
      NoNodes(w, loading, env);
    } else if LoneLoop(n.children) {
      RenderContent(w, loading, n.children[0], env);
      LoneContent(w, loading, n.children, env);
      LoopShape(w, n.children[0], env);
      var c := Render(w, n.children[0], env);
      assert OfKids(AsKids(c)) == OfChild(c);
    } else {
      NodesContent(w, loading, n.children, env);
      NormalizedContent(NormTypeOf(w, n.children), RenderAll(w, n.children, env));
    }
  }

  lemma LoopShape(w: World, n: Node, env: Env)
    requires n.Element? && n.loop.Some?
    ensures Render(w, n, env).Nested? || Render(w, n, env).Undefined?
  {
  }

  lemma {:induction false} NodesContent(w: World, loading: string -> bool, ns: seq<Node>, env: Env)
    requires Regular(w, loading)
    ensures OfChildren(RenderAll(w, ns, env)) == OfNodes(w, loading, ns, env)
    decreases ns
  {
    hide Regular, Render, OfNode;
    if ns != [] {
      NodesContent(w, loading, ns[..|ns| - 1], env);
      RenderContent(w, loading, ns[|ns| - 1], env);
      OneChild(RenderAll(w, ns[..|ns| - 1], env), Render(w, ns[|ns| - 1], env));
    }
  }
}
