// Parsed templates, and what a template renders in an environment.
module Templates {
  import opened Sequences
  import opened Children

  // ----- values of template expressions

  datatype Value =
    | Nothing
    | Bool(b: bool)
    | Str(s: string)
    | Num(n: nat)
    | Arr(items: seq<Value>)
    | Obj(entries: seq<(string, Value)>)

  type Env = map<string, Value>

  predicate Truthy(v: Value) {
    match v
    case Nothing => false
    case Bool(b) => b
    case Str(s) => s != ""
    case Num(n) => n != 0
    case _ => true
  }

  // What createComponent makes of a tag: nothing known by that name, an
  // async component still loading, a stateful component, or the one vnode or
  // the list that a functional component returned.
  datatype Output = Unknown | Missing | Stateful | One(n: Vn) | Many(ns: seq<Vn>)

  // What the template is rendered with: the JavaScript it embeds, the
  // platform's tags and the registered components.
  datatype World = World(
    eval: (string, Env) -> Value,
    show: Value -> string,
    reserved: string -> bool,
    component: (string, Option<Key>, seq<(string, string)>, Kids) -> Output)

  // ----- parsed templates

  datatype Attr = Fixed(name: string, value: string) | Bound(name: string, exp: string)

  datatype Loop = Loop(exp: string, alias: string, iterator1: Option<string>, iterator2: Option<string>)

  datatype Block = Block(exp: Option<string>, node: Node)

  // v-if with its v-else-if and v-else blocks, or an element that is itself
  // such a block.
  datatype Branch = Plain | If(exp: string, elses: seq<Block>) | Else

  datatype Marks = Marks(isStatic: bool, staticRoot: bool, staticInFor: bool)

  datatype Node =
    | Element(tag: string, key: Option<string>, attrs: seq<Attr>, component: Option<string>,
              loop: Option<Loop>, branch: Branch, children: seq<Node>, marks: Marks)
    | Expression(exp: string)
    | Text(text: string, isComment: bool)

  // ----- v-for

  datatype Round = Round(item: Value, first: Value, second: Value)

  // The calls renderList makes to its callback.
  function Rounds(v: Value): Option<seq<Round>> {
    match v
    case Arr(items) => Some(seq(|items|, i requires 0 <= i < |items| => Round(items[i], Num(i), Nothing)))
    case Str(s) => Some(seq(|s|, i requires 0 <= i < |s| => Round(Str([s[i]]), Num(i), Nothing)))
    case Num(n) => Some(seq(n, i requires 0 <= i < n => Round(Num(i + 1), Num(i), Nothing)))
    case Obj(entries) =>
      Some(seq(|entries|, i requires 0 <= i < |entries| => Round(entries[i].1, Str(entries[i].0), Num(i))))
    case _ => None
  }

  function Bind(env: Env, l: Loop, r: Round): Env {
    var e := env[l.alias := r.item];
    var e := if l.iterator1.Some? then e[l.iterator1.value := r.first] else e;
    if l.iterator2.Some? then e[l.iterator2.value := r.second] else e
  }

  // ----- the choice of runtime normalization

  datatype NormType = NoNormalize | SimpleNormalize | AlwaysNormalize

  predicate NeedsNormalization(n: Node) {
    n.Element? && (n.loop.Some? || n.tag == "template" || n.tag == "slot")
  }

  predicate MaybeComponent(w: World, n: Node) {
    n.Element? && !w.reserved(n.tag)
  }

  predicate SomeBlock(n: Node, f: Node -> bool) {
    n.Element? && n.branch.If? && exists i :: 0 <= i < |n.branch.elses| && f(n.branch.elses[i].node)
  }

  predicate AsksAlways(n: Node) {
    n.Element? && (NeedsNormalization(n) || SomeBlock(n, NeedsNormalization))
  }

  predicate AsksSimple(w: World, n: Node) {
    n.Element? && (MaybeComponent(w, n) || SomeBlock(n, m => MaybeComponent(w, m)))
  }

  function NormTypeOf(w: World, cs: seq<Node>): NormType {
    if exists i :: 0 <= i < |cs| && AsksAlways(cs[i]) then AlwaysNormalize
    else if exists i :: 0 <= i < |cs| && AsksSimple(w, cs[i]) then SimpleNormalize
    else NoNormalize
  }

  method GetNormalizationType(w: World, children: seq<Node>) returns (res: NormType)
    ensures res == NormTypeOf(w, children)
  {
    res := NoNormalize;
    var i := 0;
    while i < |children|
      invariant 0 <= i <= |children|
      invariant forall k :: 0 <= k < i ==> !AsksAlways(children[k])
      invariant res == if exists k :: 0 <= k < i && AsksSimple(w, children[k]) then SimpleNormalize else NoNormalize
    {
      var el := children[i];
      if el.Element? {
        if AsksAlways(el) {
          return AlwaysNormalize;
        }
        if AsksSimple(w, el) {
          res := SimpleNormalize;
        }
      }
      i := i + 1;
    }
  }

  function Normalized(t: NormType, cs: seq<Child>): seq<Child> {
    match t
    case NoNormalize => cs
    case SimpleNormalize => Spliced(cs)
    case AlwaysNormalize => Singles(Norm(cs, false, None))
  }

  // ----- rendering

  const EMPTY := Single(CommentVn("", NO_MARK))

  function AttrValue(w: World, env: Env, a: Attr): (string, string) {
    match a
    case Fixed(name, value) => (name, value)
    case Bound(name, exp) => (name, w.show(w.eval(exp, env)))
  }

  function AttrValues(w: World, env: Env, attrs: seq<Attr>): seq<(string, string)> {
    seq(|attrs|, i requires 0 <= i < |attrs| => AttrValue(w, env, attrs[i]))
  }

  function KeyValue(w: World, env: Env, key: Option<string>): Option<Key> {
    if key.Some? then Some(User(w.show(w.eval(key.value, env)))) else None
  }

  function TagValue(w: World, env: Env, tag: string, component: Option<string>): string {
    if component.Some? then w.show(w.eval(component.value, env)) else tag
  }

  // _createElement, with its children already normalized
  function CreateElement(w: World, tag: string, key: Option<Key>, attrs: seq<(string, string)>, kids: Kids): Child {
    if tag == "" then EMPTY
    else if w.reserved(tag) then Single(ElemVn(tag, attrs, kids, Mark(key, false)))
    else
      match w.component(tag, key, attrs, kids)
      case Unknown => Single(ElemVn(tag, attrs, kids, Mark(key, false)))
      case Missing => EMPTY
      case Stateful => Single(CompVn(tag, attrs, kids, Mark(key, false)))
      case One(n) => Single(n)
      case Many(ns) => Nested(Singles(ns), false)
  }

  // A lone v-for child is passed as the children array itself.
  predicate LoneLoop(children: seq<Node>) {
    |children| == 1 && children[0].Element? && children[0].loop.Some? &&
    children[0].tag != "template" && children[0].tag != "slot"
  }

  function AsKids(c: Child): Kids {
    if c.Nested? then Kids(c.items) else NoKids
  }

  // The meaning of a template: v-for outside v-if outside the element.
  function Render(w: World, n: Node, env: Env): Child
    decreases n, 4
  {
    match n
    case Expression(exp) => Single(TextVn(w.show(w.eval(exp, env)), NO_MARK))
    case Text(text, isComment) => Single(if isComment then CommentVn(text, NO_MARK) else TextVn(text, NO_MARK))
    case Element(_, _, _, _, loop, _, _, _) =>
      if loop.None? then RenderBranch(w, n, env)
      else
        var rounds := Rounds(w.eval(loop.value.exp, env));
        if rounds.None? then Undefined else Nested(RenderRounds(w, n, env, rounds.value), true)
  }

  function RenderRounds(w: World, n: Node, env: Env, rounds: seq<Round>): seq<Child>
    requires n.Element? && n.loop.Some?
    decreases n, 3, |rounds|
  {
    if rounds == [] then []
    else
      RenderRounds(w, n, env, rounds[..|rounds| - 1]) +
      [RenderBranch(w, n, Bind(env, n.loop.value, rounds[|rounds| - 1]))]
  }

  function RenderBranch(w: World, n: Node, env: Env): Child
    requires n.Element?
    decreases n, 2
  {
    if n.branch.If? && !Truthy(w.eval(n.branch.exp, env)) then RenderElses(w, n.branch.elses, env)
    else RenderBase(w, n, env)
  }

  function RenderElses(w: World, elses: seq<Block>, env: Env): Child
    decreases elses
  {
    if elses == [] then EMPTY
    else
      var b := elses[0];
      if b.exp.None? || Truthy(w.eval(b.exp.value, env)) then RenderBlock(w, b, env)
      else RenderElses(w, elses[1..], env)
  }

  function RenderBlock(w: World, b: Block, env: Env): Child
    decreases b, 5
  {
    Render(w, b.node, env)
  }

  function RenderBase(w: World, n: Node, env: Env): Child
    requires n.Element?
    decreases n, 1
  {
    if n.tag == "template" then
      if n.children == [] then Undefined
      else if LoneLoop(n.children) then Render(w, n.children[0], env)
      else Nested(RenderAll(w, n.children, env), false)
    else
      CreateElement(w, TagValue(w, env, n.tag, n.component), KeyValue(w, env, n.key), AttrValues(w, env, n.attrs),
                    RenderKids(w, n, env))
  }

  function RenderKids(w: World, n: Node, env: Env): Kids
    requires n.Element?
    decreases n, 0
  {
    if n.children == [] then NoKids
    else if LoneLoop(n.children) then AsKids(Render(w, n.children[0], env))
    else Kids(Normalized(NormTypeOf(w, n.children), RenderAll(w, n.children, env)))
  }

  function RenderAll(w: World, nodes: seq<Node>, env: Env): (r: seq<Child>)
    ensures |r| == |nodes|
    decreases nodes
  {
    if nodes == [] then [] else RenderAll(w, nodes[..|nodes| - 1], env) + [Render(w, nodes[|nodes| - 1], env)]
  }
}
