// Virtual nodes, what it means that a document shows one, and how that
// survives edits elsewhere in the document.
module VNodes {
  import opened Sequences
  import opened Dom

  type VId = nat

  // `type` of the attrs object of an input element's data, when there is one.
  datatype Attrs = Attrs(typ: Option<string>)
  datatype Data = Data(attrs: Option<Attrs>)

  // The children array of an element, when it has one.
  datatype Children = NoChildren | Children(list: seq<VNode>)

  // `id` is the object identity of the vnode; the mutable `elm` slot of every
  // vnode lives in the patcher, as a map from these identities.
  datatype VNode =
    | Elem(id: VId, key: Option<string>, tag: string, data: Option<Data>, children: Children)
    | Text(id: VId, key: Option<string>, text: string)
    | Comment(id: VId, key: Option<string>, text: string)
  {
    function Kind(): Kind {
      match this
      case Elem(_, _, tag, _, _) => Element(tag)
      case Text(_, _, text) => TextNode(text)
      case Comment(_, _, text) => CommentNode(text)
    }
  }

  // `typeA === typeB` in sameInputType also tells "no attrs" (false) from
  // "attrs without type" (undefined).
  function InputType(v: VNode): Option<Option<string>> {
    if v.Elem? && v.data.Some? && v.data.value.attrs.Some? then Some(v.data.value.attrs.value.typ) else None
  }

  const TEXT_INPUT_TYPES := {"text", "number", "password", "search", "email", "tel", "url"}

  predicate IsTextInput(t: Option<Option<string>>) {
    t.Some? && t.value.Some? && t.value.value in TEXT_INPUT_TYPES
  }

  predicate SameInputType(a: VNode, b: VNode) {
    (a.Elem? && a.tag == "input") ==>
      (InputType(a) == InputType(b) || (IsTextInput(InputType(a)) && IsTextInput(InputType(b))))
  }

  predicate SameVnode(a: VNode, b: VNode) {
    && a.key == b.key
    && (match (a, b)
        case (Elem(_, _, s, c, _), Elem(_, _, t, d, _)) => s == t && c.Some? == d.Some?
        case (Text(_, _, _), Text(_, _, _)) => true
        case (Comment(_, _, _), Comment(_, _, _)) => true
        case _ => false)
    && SameInputType(a, b)
  }

  // The attrs object of a vnode's data has this type property.
  predicate HasType(v: VNode, typ: Option<string>) {
    v.Elem? && v.data.Some? && v.data.value.attrs.Some? && v.data.value.attrs.value.typ == typ
  }

  // When an old vnode can be patched into a new one: same key, same kind of
  // node, and for elements the same tag, data on both or on neither; inputs
  // need the same type, no attrs at all, or two of the text types.
  ghost predicate Patchable(a: VNode, b: VNode) {
    a.key == b.key &&
    ((a.Text? && b.Text?) || (a.Comment? && b.Comment?) ||
     (a.Elem? && b.Elem? && a.tag == b.tag && (a.data.Some? <==> b.data.Some?) &&
      (a.tag == "input" ==>
         || (exists t: Option<string> :: HasType(a, t) && HasType(b, t))
         || (forall t: Option<string> :: !HasType(a, t) && !HasType(b, t))
         || (exists s, t :: HasType(a, Some(s)) && HasType(b, Some(t)) && IsTextType(s) && IsTextType(t)))))
  }

  predicate IsTextType(s: string) {
    s == "text" || s == "number" || s == "password" || s == "search" || s == "email" || s == "tel" || s == "url"
  }

  lemma SameVnodeExactly(a: VNode, b: VNode)
    ensures SameVnode(a, b) <==> Patchable(a, b)
  {
    if a.Elem? && b.Elem? && a.tag == "input" {
      TypeOf(a);
      TypeOf(b);
    }
  }

  lemma TypeOf(v: VNode)
    ensures forall t: Option<string> :: HasType(v, t) <==> InputType(v) == Some(t)
  {
  }

  // Identities used in a tree.
  function Ids(v: VNode): set<VId>
    decreases v, 1
  {
    {v.id} + (if v.Elem? && v.children.Children? then AllIds(v.children.list) else {})
  }

  function AllIds(vs: seq<VNode>): set<VId>
    decreases vs, 0
  {
    set i, x | 0 <= i < |vs| && x in Ids(vs[i]) :: x
  }

  lemma AllIdsSnoc(vs: seq<VNode>, i: nat)
    requires i < |vs|
    ensures AllIds(vs[..i + 1]) == AllIds(vs[..i]) + Ids(vs[i])
  {
    forall x | x in AllIds(vs[..i]) + Ids(vs[i]) ensures x in AllIds(vs[..i + 1]) {
      if x in Ids(vs[i]) {
        assert vs[..i + 1][i] == vs[i];
      } else {
        var j :| 0 <= j < i && x in Ids(vs[..i][j]);
        assert vs[..i + 1][j] == vs[..i][j];
      }
    }
  }

  lemma AllIdsCons(vs: seq<VNode>, i: nat)
    requires i < |vs|
    ensures AllIds(vs[i..]) == Ids(vs[i]) + AllIds(vs[i + 1..])
  {
    forall x | x in Ids(vs[i]) + AllIds(vs[i + 1..]) ensures x in AllIds(vs[i..]) {
      if x in Ids(vs[i]) {
        assert vs[i..][0] == vs[i];
      } else {
        var j :| 0 <= j < |vs[i + 1..]| && x in Ids(vs[i + 1..][j]);
        assert vs[i..][j + 1] == vs[i + 1..][j];
      }
    }
    forall x | x in AllIds(vs[i..]) ensures x in Ids(vs[i]) + AllIds(vs[i + 1..]) {
      var j :| 0 <= j < |vs[i..]| && x in Ids(vs[i..][j]);
      if j > 0 {
        assert vs[i + 1..][j - 1] == vs[i..][j];
      }
    }
  }

  // No two siblings share a key.
  ghost predicate DistinctKeys(vs: seq<VNode>) {
    forall i, j :: 0 <= i < j < |vs| && vs[i].key.Some? ==> vs[i].key != vs[j].key
  }

  ghost predicate Unused(e: map<VId, Id>, ids: set<VId>) {
    forall x :: x in ids ==> x !in e
  }

  // What a render function must hand to the patcher: separate vnode objects
  // all the way down, and no duplicate keys among siblings.
  ghost predicate WellFormed(v: VNode)
    decreases v, 1
  {
    v.Elem? && v.children.Children? ==> v.id !in AllIds(v.children.list) && AllWellFormed(v.children.list)
  }

  ghost predicate AllWellFormed(vs: seq<VNode>)
    decreases vs, 0
  {
    && DistinctKeys(vs)
    && (forall i :: 0 <= i < |vs| ==> WellFormed(vs[i]))
    && (forall i, j :: 0 <= i < j < |vs| ==> Ids(vs[i]) !! Ids(vs[j]))
  }

  type Elms = map<VId, Id>

  // The document nodes held by a tree.
  function Foot(e: Elms, v: VNode): set<Id> {
    set x | x in Ids(v) && x in e :: e[x]
  }

  function AllFoot(e: Elms, vs: seq<VNode>): set<Id> {
    set x | x in AllIds(vs) && x in e :: e[x]
  }

  // The document subtree at v.elm is exactly v, node by node, and each vnode
  // of v points at its own document node.
  ghost predicate Rendered(d: Doc, e: Elms, v: VNode)
    decreases v, 1
  {
    && v.id in e && e[v.id] in d.kind && e[v.id] in d.kids
    && d.kind[e[v.id]] == v.Kind()
    && (if v.Elem? && v.children.Children? then RenderedList(d, e, e[v.id], v.children.list)
        else d.kids[e[v.id]] == [])
  }

  ghost predicate RenderedList(d: Doc, e: Elms, p: Id, vs: seq<VNode>)
    decreases vs, 0
  {
    && p in d.kids && |d.kids[p]| == |vs|
    && (forall i :: 0 <= i < |vs| ==> Rendered(d, e, vs[i]) && d.kids[p][i] == e[vs[i].id])
    && (forall i :: 0 <= i < |vs| ==> p !in Foot(e, vs[i]))
    && Apart(e, vs)
  }

  // Siblings hold different document nodes.
  ghost predicate Apart(e: Elms, vs: seq<VNode>) {
    forall i, j :: 0 <= i < j < |vs| ==> Foot(e, vs[i]) !! Foot(e, vs[j])
  }

  // From (d0, e0) to (d1, e1) vnodes got elements but none lost or changed
  // one, and old document nodes outside F kept their kind and children.
  ghost predicate Edits(d0: Doc, e0: Elms, d1: Doc, e1: Elms, F: set<Id>) {
    && d0.next <= d1.next
    && (forall x :: x in e0 ==> x in e1 && e1[x] == e0[x])
    && (forall n :: n in d0.kind ==> n in d1.kind)
    && (forall n :: n in d0.kind && n !in F ==> d1.kind[n] == d0.kind[n])
    && (forall n :: n in d0.kids && n !in F ==> n in d1.kids && d1.kids[n] == d0.kids[n])
  }

  // Nodes of F1 are nodes of F0 or did not exist in d0.
  ghost predicate Within(d0: Doc, F1: set<Id>, F0: set<Id>) {
    forall n :: n in F1 ==> n in F0 || n >= d0.next
  }

  lemma EditsTrans(d0: Doc, e0: Elms, d1: Doc, e1: Elms, d2: Doc, e2: Elms, F: set<Id>, G: set<Id>)
    requires d0.Valid()
    requires Edits(d0, e0, d1, e1, F) && Edits(d1, e1, d2, e2, G) && Within(d0, G, F)
    ensures Edits(d0, e0, d2, e2, F)
  {
  }

  lemma {:induction false} RenderedIds(d: Doc, e: Elms, v: VNode)
    requires Rendered(d, e, v)
    ensures forall x :: x in Ids(v) ==> x in e && e[x] in d.kind
    decreases v
  {
    if v.Elem? && v.children.Children? {
      var vs := v.children.list;
      forall i | 0 <= i < |vs|
        ensures forall x :: x in Ids(vs[i]) ==> x in e && e[x] in d.kind
      {
        RenderedIds(d, e, vs[i]);
      }
    }
  }

  // A shown tree stays shown while nothing of it is edited.
  lemma {:induction false} RenderedFrame(d0: Doc, e0: Elms, d1: Doc, e1: Elms, F: set<Id>, v: VNode)
    requires d0.Valid()
    requires Rendered(d0, e0, v) && Edits(d0, e0, d1, e1, F) && Foot(e0, v) !! F
    ensures Rendered(d1, e1, v) && Foot(e1, v) == Foot(e0, v)
    decreases v, 1
  {
    RenderedIds(d0, e0, v);
    assert e0[v.id] in Foot(e0, v);
    if v.Elem? && v.children.Children? {
      assert AllFoot(e0, v.children.list) <= Foot(e0, v);
      RenderedListFrame(d0, e0, d1, e1, F, e0[v.id], v.children.list);
    }
  }

  lemma {:induction false} RenderedListFrame(d0: Doc, e0: Elms, d1: Doc, e1: Elms, F: set<Id>, p: Id, vs: seq<VNode>)
    requires d0.Valid()
    requires RenderedList(d0, e0, p, vs) && Edits(d0, e0, d1, e1, F)
    requires p !in F && AllFoot(e0, vs) !! F
    ensures RenderedList(d1, e1, p, vs)
    decreases vs, 0
  {
    forall i | 0 <= i < |vs|
      ensures Rendered(d1, e1, vs[i]) && Foot(e1, vs[i]) == Foot(e0, vs[i])
      ensures vs[i].id in e0 && e1[vs[i].id] == e0[vs[i].id]
    {
      FootIn(e0, vs, i);
      RenderedFrame(d0, e0, d1, e1, F, vs[i]);
    }
  }

  lemma FootIn(e: Elms, vs: seq<VNode>, i: nat)
    requires i < |vs|
    ensures Foot(e, vs[i]) <= AllFoot(e, vs)
  {
  }

  // b took over the element of a, and the children of b those of a as far as
  // they can be matched, level by level.
  ghost predicate TookOver(e: Elms, a: VNode, b: VNode)
    decreases b, 1
  {
    && a.id in e && b.id in e && e[b.id] == e[a.id]
    && (a.Elem? && b.Elem? && a.children.Children? && b.children.Children? ==> Reused(e, a.children.list, b.children.list))
  }

  ghost predicate Reused(e: Elms, olds: seq<VNode>, news: seq<VNode>)
    decreases news, 1
  {
    && (DistinctKeys(olds) ==>
      forall i, j :: 0 <= i < |olds| && 0 <= j < |news| && news[j].key.Some? && SameVnode(olds[i], news[j]) ==>
        TookOver(e, olds[i], news[j]))
    && Frugal(e, olds, news)
  }

  // No element is made that could have been reused: of an old and a new child
  // that are the same vnode, one was matched at least.
  ghost predicate Frugal(e: Elms, olds: seq<VNode>, news: seq<VNode>)
    decreases news, 0
  {
    forall i, j :: 0 <= i < |olds| && 0 <= j < |news| && (news[j].key.None? || DistinctKeys(olds)) && SameVnode(olds[i], news[j]) ==>
      || (exists k :: 0 <= k < |news| && Inherits(e, olds[i], news[k]))
      || (exists k :: 0 <= k < |olds| && Inherits(e, olds[k], news[j]))
  }

  // b is the same vnode as a and took over from it.
  ghost predicate Inherits(e: Elms, a: VNode, b: VNode)
    decreases b, 3
  {
    SameVnode(a, b) && TookOver(e, a, b)
  }

  // Every new child either reuses the element of an old child it is the same
  // vnode as, or has an element created from `base` on.
  ghost predicate Origins(e: Elms, olds: seq<VNode>, news: seq<VNode>, base: Id) {
    forall j :: 0 <= j < |news| ==>
      news[j].id in e && (e[news[j].id] >= base || exists i :: 0 <= i < |olds| && Inherits(e, olds[i], news[j]))
  }

  lemma {:induction false} TookOverGrows(e: Elms, e': Elms, a: VNode, b: VNode)
    requires TookOver(e, a, b) && forall x :: x in e ==> x in e' && e'[x] == e[x]
    ensures TookOver(e', a, b)
    decreases b, 1
  {
    if a.Elem? && b.Elem? && a.children.Children? && b.children.Children? {
      ReusedGrows(e, e', a.children.list, b.children.list);
    }
  }

  lemma {:induction false} ReusedGrows(e: Elms, e': Elms, olds: seq<VNode>, news: seq<VNode>)
    requires Reused(e, olds, news) && forall x :: x in e ==> x in e' && e'[x] == e[x]
    ensures Reused(e', olds, news)
    decreases news, 0
  {
    hide SameVnode, Frugal, TookOver;
    if DistinctKeys(olds) {
      forall i, j | 0 <= i < |olds| && 0 <= j < |news| && news[j].key.Some? && SameVnode(olds[i], news[j])
        ensures TookOver(e', olds[i], news[j])
      {
        TookOverGrows(e, e', olds[i], news[j]);
      }
    }
    forall i, k | 0 <= i < |olds| && 0 <= k < |news| && Inherits(e, olds[i], news[k])
      ensures Inherits(e', olds[i], news[k])
    {
      TookOverGrows(e, e', olds[i], news[k]);
    }
    FrugalGrows(e, e', olds, news);
  }

  lemma FrugalGrows(e: Elms, e': Elms, olds: seq<VNode>, news: seq<VNode>)
    requires Frugal(e, olds, news)
    requires forall i, k :: 0 <= i < |olds| && 0 <= k < |news| && Inherits(e, olds[i], news[k]) ==> Inherits(e', olds[i], news[k])
    ensures Frugal(e', olds, news)
  {
    hide SameVnode, Inherits;
  }
}
