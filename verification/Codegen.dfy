// Render functions: the code generated for a template, and running it.
module Codegen {
  import opened Sequences
  import opened Children
  import opened Templates

  datatype KidsCode = NoKidsCode | KidsCode(code: Code, normType: NormType)

  // One constructor for each runtime helper that generated code calls.
  datatype Code =
    | Create(tag: string, component: Option<string>, key: Option<string>, attrs: seq<Attr>, kids: KidsCode)
    | Ternary(exp: string, yes: Code, no: Code)
    | List(l: Loop, body: Code)
    | TextOf(exp: string)
    | Literal(text: string)
    | Empty(comment: string)
    | Hoisted(index: nat, inFor: bool)
    | Items(items: seq<Code>)
    | Void

  // ----- generation; `fns` is state.staticRenderFns

  datatype Out = Out(code: Code, fns: seq<Code>)

  datatype Outs = Outs(codes: seq<Code>, fns: seq<Code>)

  // genNode and genElement
  function Gen(w: World, n: Node, fns: seq<Code>): Out
    decreases n, 4
  {
    match n
    case Expression(exp) => Out(TextOf(exp), fns)
    case Text(text, isComment) => Out(if isComment then Empty(text) else Literal(text), fns)
    case Element(_, _, _, _, _, _, _, marks) =>
      if marks.staticRoot then
        var o := GenLoop(w, n, fns);
        Out(Hoisted(|o.fns|, marks.staticInFor), o.fns + [o.code])
      else GenLoop(w, n, fns)
  }

  // genFor
  function GenLoop(w: World, n: Node, fns: seq<Code>): Out
    requires n.Element?
    decreases n, 3
  {
    var o := GenBranch(w, n, fns);
    if n.loop.Some? then Out(List(n.loop.value, o.code), o.fns) else o
  }

  // genIf
  function GenBranch(w: World, n: Node, fns: seq<Code>): Out
    requires n.Element?
    decreases n, 2
  {
    var o := GenBase(w, n, fns);
    if n.branch.If? then
      var p := GenElses(w, n.branch.elses, o.fns);
      Out(Ternary(n.branch.exp, o.code, p.code), p.fns)
    else o
  }

  // genIfConditions
  function GenElses(w: World, elses: seq<Block>, fns: seq<Code>): Out
    decreases elses
  {
    if elses == [] then Out(Empty(""), fns)
    else
      var o := GenBlock(w, elses[0], fns);
      if elses[0].exp.None? then o
      else
        var p := GenElses(w, elses[1..], o.fns);
        Out(Ternary(elses[0].exp.value, o.code, p.code), p.fns)
  }

  function GenBlock(w: World, b: Block, fns: seq<Code>): Out
    decreases b, 5
  {
    Gen(w, b.node, fns)
  }

  function GenBase(w: World, n: Node, fns: seq<Code>): Out
    requires n.Element?
    decreases n, 1
  {
    if n.tag == "template" then
      if n.children == [] then Out(Void, fns)
      else if LoneLoop(n.children) then Gen(w, n.children[0], fns)
      else
        var os := GenAll(w, n.children, fns);
        Out(Items(os.codes), os.fns)
    else if n.children == [] then Out(Create(n.tag, n.component, n.key, n.attrs, NoKidsCode), fns)
    else if LoneLoop(n.children) then
      var o := Gen(w, n.children[0], fns);
      Out(Create(n.tag, n.component, n.key, n.attrs, KidsCode(o.code, NoNormalize)), o.fns)
    else
      var os := GenAll(w, n.children, fns);
      Out(Create(n.tag, n.component, n.key, n.attrs, KidsCode(Items(os.codes), NormTypeOf(w, n.children))), os.fns)
  }

  // genChildren
  function GenAll(w: World, nodes: seq<Node>, fns: seq<Code>): Outs
    decreases nodes
  {
    if nodes == [] then Outs([], fns)
    else
      var os := GenAll(w, nodes[..|nodes| - 1], fns);
      var o := Gen(w, nodes[|nodes| - 1], os.fns);
      Outs(os.codes + [o.code], o.fns)
  }

  // ----- running generated code

  type Trees = map<nat, Child>

  datatype Program = Program(w: World, fns: seq<Code>, base: Env)

  datatype Ran = Ran(child: Child, trees: Trees)

  datatype RanAll = RanAll(items: seq<Child>, trees: Trees)

  // markStatic on what a static render function returned
  function MarkPart(c: Child, index: nat, i: nat): Child {
    if c.Single? then Single(WithMark(c.n, Mark(Some(Static(index, Some(i))), true))) else c
  }

  function MarkTree(t: Child, index: nat): Child {
    match t
    case Single(n) => Single(WithMark(n, Mark(Some(Static(index, None)), true)))
    case Nested(items, v) => Nested(seq(|items|, i requires 0 <= i < |items| => MarkPart(items[i], index, i)), v)
    case _ => t
  }

  // renderStatic takes the tree rendered before, unless it is inside v-for;
  // otherwise it renders one, marks it and keeps it.
  predicate Reusable(trees: Trees, index: nat, inFor: bool) {
    index in trees && trees[index] != Undefined && !inFor
  }

  function Stored(index: nat, r: Ran): Ran {
    Ran(MarkTree(r.child, index), r.trees[index := MarkTree(r.child, index)])
  }

  // `trees` is _staticTrees. A static function calls only functions with a
  // smaller index, so `limit` is never in the way of generated code.
  function Eval(p: Program, c: Code, env: Env, trees: Trees, limit: nat): Ran
    decreases limit, c, 0
  {
    match c
    case TextOf(exp) => Ran(Single(TextVn(p.w.show(p.w.eval(exp, env)), NO_MARK)), trees)
    case Literal(text) => Ran(Single(TextVn(text, NO_MARK)), trees)
    case Empty(comment) => Ran(Single(CommentVn(comment, NO_MARK)), trees)
    case Void => Ran(Undefined, trees)
    case Ternary(exp, yes, no) =>
      if Truthy(p.w.eval(exp, env)) then Eval(p, yes, env, trees, limit) else Eval(p, no, env, trees, limit)
    case List(l, body) =>
      var rounds := Rounds(p.w.eval(l.exp, env));
      if rounds.None? then Ran(Undefined, trees)
      else
        var r := EvalRounds(p, l, body, env, rounds.value, trees, limit);
        Ran(Nested(r.items, true), r.trees)
    case Items(items) =>
      var r := EvalAll(p, items, env, trees, limit);
      Ran(Nested(r.items, false), r.trees)
    case Hoisted(index, inFor) =>
      if Reusable(trees, index, inFor) then Ran(trees[index], trees)
      else if index < limit && index < |p.fns| then Stored(index, Eval(p, p.fns[index], p.base, trees, index))
      else Ran(Undefined, trees)
    case Create(tag, component, key, attrs, kids) =>
      var r := if kids.NoKidsCode? then Ran(Undefined, trees) else Eval(p, kids.code, env, trees, limit);
      Ran(CreateElement(p.w, TagValue(p.w, env, tag, component), KeyValue(p.w, env, key), AttrValues(p.w, env, attrs),
                        if kids.NoKidsCode? then NoKids else RunKids(kids.normType, r.child)),
          r.trees)
  }

  // The children argument of _c after the normalization it asks for.
  function RunKids(t: NormType, c: Child): Kids {
    if c.Nested? then Kids(Normalized(t, c.items)) else NoKids
  }

  function EvalAll(p: Program, cs: seq<Code>, env: Env, trees: Trees, limit: nat): RanAll
    decreases limit, cs
  {
    if cs == [] then RanAll([], trees)
    else
      var r := EvalAll(p, cs[..|cs| - 1], env, trees, limit);
      var s := Eval(p, cs[|cs| - 1], env, r.trees, limit);
      RanAll(r.items + [s.child], s.trees)
  }

  function EvalRounds(p: Program, l: Loop, body: Code, env: Env, rounds: seq<Round>, trees: Trees, limit: nat): RanAll
    decreases limit, body, |rounds| + 1
  {
    if rounds == [] then RanAll([], trees)
    else
      var r := EvalRounds(p, l, body, env, rounds[..|rounds| - 1], trees, limit);
      var s := Eval(p, body, Bind(env, l, rounds[|rounds| - 1]), r.trees, limit);
      RanAll(r.items + [s.child], s.trees)
  }
}
