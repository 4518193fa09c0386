// What a document subtree looks like, independent of node identities, and why
// a patched subtree cannot be told from one rendered from scratch.
module Markup {
  import opened Dom
  import opened VNodes

  datatype Tree = Tree(kind: Kind, kids: seq<Tree>)

  // The markup a vnode stands for.
  function Html(v: VNode): Tree
    decreases v, 1
  {
    match v
    case Text(_, _, text) => Tree(TextNode(text), [])
    case Comment(_, _, text) => Tree(CommentNode(text), [])
    case Elem(_, _, tag, _, NoChildren) => Tree(Element(tag), [])
    case Elem(_, _, tag, _, Children(list)) => Tree(Element(tag), AllHtml(list))
  }

  function AllHtml(vs: seq<VNode>): (ts: seq<Tree>)
    ensures |ts| == |vs| && forall i :: 0 <= i < |vs| ==> ts[i] == Html(vs[i])
    decreases vs, 0
  {
    if vs == [] then [] else [Html(vs[0])] + AllHtml(vs[1..])
  }

  // The subtree at n reads t.
  ghost predicate Shows(d: Doc, n: Id, t: Tree)
    decreases t
  {
    && n in d.kind && n in d.kids && d.kind[n] == t.kind
    && |d.kids[n]| == |t.kids|
    && forall i :: 0 <= i < |t.kids| ==> Shows(d, d.kids[n][i], t.kids[i])
  }

  lemma {:induction false} ShowsOne(d: Doc, n: Id, s: Tree, t: Tree)
    requires Shows(d, n, s) && Shows(d, n, t)
    ensures s == t
    decreases s
  {
    forall i | 0 <= i < |s.kids| ensures s.kids[i] == t.kids[i] {
      ShowsOne(d, d.kids[n][i], s.kids[i], t.kids[i]);
    }
    assert s.kids == t.kids;
  }

  lemma {:induction false} RenderedShows(d: Doc, e: Elms, v: VNode)
    requires Rendered(d, e, v)
    ensures v.id in e && Shows(d, e[v.id], Html(v))
    decreases v
  {
    if v.Elem? && v.children.Children? {
      var vs := v.children.list;
      forall i | 0 <= i < |vs| ensures Shows(d, d.kids[e[v.id]][i], AllHtml(vs)[i]) {
        RenderedShows(d, e, vs[i]);
      }
    }
  }

  // Patch equals re-render: whatever document shows v, reached by patching or
  // by creating everything anew, reads the same at v's element.
  lemma SameAsFresh(d1: Doc, e1: Elms, d2: Doc, e2: Elms, v: VNode, t: Tree)
    requires Rendered(d1, e1, v) && Rendered(d2, e2, v)
    ensures v.id in e1 && v.id in e2
    ensures Shows(d1, e1[v.id], t) <==> Shows(d2, e2[v.id], t)
    ensures Shows(d1, e1[v.id], t) <==> t == Html(v)
  {
    RenderedShows(d1, e1, v);
    RenderedShows(d2, e2, v);
    if Shows(d1, e1[v.id], t) {
      ShowsOne(d1, e1[v.id], t, Html(v));
    }
    if Shows(d2, e2[v.id], t) {
      ShowsOne(d2, e2[v.id], t, Html(v));
    }
  }

  // Nothing below a shown tree has the root as a child.
  lemma {:induction false} RootOutside(d: Doc, e: Elms, v: VNode, m: Id)
    requires Rendered(d, e, v) && m in Foot(e, v)
    ensures m in d.kids && forall c :: c in d.kids[m] ==> c in Foot(e, v) && c != e[v.id]
    decreases v
  {
    var n := e[v.id];
    if v.Elem? && v.children.Children? {
      var vs := v.children.list;
      if m == n {
        forall c | c in d.kids[m] ensures c in Foot(e, v) && c != n {
          var i :| 0 <= i < |d.kids[m]| && d.kids[m][i] == c;
          assert Rendered(d, e, vs[i]) && vs[i].id in Ids(vs[i]);
          assert c in Foot(e, vs[i]);
          assert Ids(vs[i]) <= Ids(v);
        }
      } else {
        var x :| x in Ids(v) && x in e && e[x] == m;
        assert x in AllIds(vs);
        var i :| 0 <= i < |vs| && x in Ids(vs[i]);
        assert m in Foot(e, vs[i]);
        RootOutside(d, e, vs[i], m);
        assert Ids(vs[i]) <= Ids(v);
        assert Foot(e, vs[i]) <= Foot(e, v);
      }
    }
  }
}
