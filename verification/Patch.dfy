// The virtual DOM patcher: `createPatchFunction` with module hooks, directives
// and components left out.
module Patch {
  import opened Sequences
  import opened Dom
  import opened VNodes
  import opened ChildLists
  import opened Diff
  import opened Windows
  import opened Keys
  import opened DiffSteps
  import opened Markup

  // Creation only adds: every old node keeps its kind and its parent, and
  // child lists outside P.
  ghost predicate Grows(d0: Doc, e0: Elms, d1: Doc, e1: Elms, P: set<Id>) {
    && Edits(d0, e0, d1, e1, P)
    && (forall n :: n in d0.kind ==> n in d1.kind && d1.kind[n] == d0.kind[n])
    && (forall n :: n in d0.kind ==> (n in d1.parent <==> n in d0.parent))
    && (forall n :: n in d0.kind && n in d0.parent ==> n in d1.parent && d1.parent[n] == d0.parent[n])
  }

  lemma GrowsTrans(d0: Doc, e0: Elms, d1: Doc, e1: Elms, d2: Doc, e2: Elms, P: set<Id>, Q: set<Id>)
    requires d0.Valid() && d1.Valid()
    requires Grows(d0, e0, d1, e1, P) && Grows(d1, e1, d2, e2, Q) && Within(d0, Q, P)
    ensures Grows(d0, e0, d2, e2, P)
  {
  }

  function ParentSet(p: Option<Id>): set<Id> {
    if p.Some? then {p.value} else {}
  }

  // What createElm leaves behind for v.
  ghost predicate Built(d0: Doc, e0: Elms, d1: Doc, e1: Elms, v: VNode) {
    && Rendered(d1, e1, v)
    && Within(d0, Foot(e1, v), {})
    && e1.Keys == e0.Keys + Ids(v)
  }

  ghost predicate BuiltList(d0: Doc, e0: Elms, d1: Doc, e1: Elms, p: Id, vs: seq<VNode>) {
    && RenderedList(d1, e1, p, vs)
    && AllNew(d0, e1, vs)
    && e1.Keys == e0.Keys + AllIds(vs)
  }

  // None of these trees holds a node of d0.
  ghost predicate AllNew(d0: Doc, e: Elms, vs: seq<VNode>) {
    forall i :: 0 <= i < |vs| ==> Within(d0, Foot(e, vs[i]), {})
  }

  lemma NewNode(d: Doc, e: Elms, v: VNode)
    requires d.Valid() && v.id !in e
    ensures var d1, e1 := d.Create(v.Kind()), e[v.id := d.next];
      && Grows(d, e, d1, e1, {}) && d1.Valid()
      && d.next in d1.kind && d.next in d1.kids && d.next !in d1.parent && d1.kids[d.next] == [] && d1.kind[d.next] == v.Kind()
      && e1.Keys == e.Keys + {v.id}
  {
    CreateValid(d, v.Kind());
  }

  lemma NewLeaf(d: Doc, e: Elms, v: VNode)
    requires d.Valid() && v.id !in e && !(v.Elem? && v.children.Children?)
    ensures Built(d, e, d.Create(v.Kind()), e[v.id := d.next], v)
  {
    assert Ids(v) == {v.id};
    assert Foot(e[v.id := d.next], v) == {d.next};
  }

  lemma NewFoot(d: Doc, e: Elms, v: VNode)
    requires v.Elem? && v.children.Children? && v.id in e && e[v.id] >= d.next
    requires AllNew(d, e, v.children.list)
    ensures Within(d, Foot(e, v), {})
  {
    forall n | n in Foot(e, v) ensures n >= d.next {
      var x :| x in Ids(v) && x in e && e[x] == n;
      if x != v.id {
        assert x in AllIds(v.children.list);
        var i :| 0 <= i < |v.children.list| && x in Ids(v.children.list[i]);
        assert n in Foot(e, v.children.list[i]);
      }
    }
  }

  // An element whose children were built under it.
  lemma NewElem(d: Doc, e: Elms, v: VNode, d2: Doc, e2: Elms)
    requires d.Valid() && d2.Valid() && v.id !in e && v.Elem? && v.children.Children?
    requires var d1, e1 := d.Create(v.Kind()), e[v.id := d.next];
      Grows(d1, e1, d2, e2, {d.next}) && BuiltList(d1, e1, d2, e2, d.next, v.children.list)
    ensures Grows(d, e, d2, e2, {}) && Built(d, e, d2, e2, v)
    ensures v.id in e2 && e2[v.id] == d.next && d.next in d2.kind && d.next !in d2.parent
  {
    hide *;
    NewNode(d, e, v);
    var d1, e1 := d.Create(v.Kind()), e[v.id := d.next];
    GrowsTrans(d, e, d1, e1, d2, e2, {}, {d.next}) by { FreshWithin(d); }
    NewElemKept(d, e, v, d2, e2);
    NewElemRendered(d2, e2, v);
    NewFoot(d, e2, v);
    NewElemBuilt(d, e, v, d2, e2);
  }

  lemma FreshWithin(d: Doc)
    ensures Within(d, {d.next}, {})
  {
  }

  lemma NewElemKept(d: Doc, e: Elms, v: VNode, d2: Doc, e2: Elms)
    requires d.Valid() && d2.Valid() && v.id !in e && v.Elem? && v.children.Children?
    requires var d1, e1 := d.Create(v.Kind()), e[v.id := d.next];
      d1.Valid() && Grows(d1, e1, d2, e2, {d.next}) && BuiltList(d1, e1, d2, e2, d.next, v.children.list)
      && d.next !in d1.parent && d.next in d1.kind && d1.kind[d.next] == v.Kind()
    ensures v.id in e2 && e2[v.id] == d.next && d.next in d2.kind && d2.kind[d.next] == v.Kind() && d.next !in d2.parent
    ensures RenderedList(d2, e2, d.next, v.children.list) && AllNew(d, e2, v.children.list)
    ensures e2.Keys == e.Keys + {v.id} + AllIds(v.children.list)
  {
    hide Rendered, RenderedList, Foot, AllIds, Doc.Valid;
    var e1 := e[v.id := d.next];
    assert e1[v.id] == d.next && e1.Keys == e.Keys + {v.id};
  }

  lemma NewElemBuilt(d: Doc, e: Elms, v: VNode, d2: Doc, e2: Elms)
    requires v.Elem? && v.children.Children? && Rendered(d2, e2, v) && Within(d, Foot(e2, v), {})
    requires e2.Keys == e.Keys + {v.id} + AllIds(v.children.list)
    ensures Built(d, e, d2, e2, v)
  {
    hide Rendered, Within, Foot;
  }

  lemma NewElemRendered(d: Doc, e: Elms, v: VNode)
    requires v.Elem? && v.children.Children? && v.id in e && e[v.id] in d.kind && d.kind[e[v.id]] == v.Kind()
    requires RenderedList(d, e, e[v.id], v.children.list)
    ensures Rendered(d, e, v)
  {
  }

  lemma PlaceGrows(d0: Doc, e0: Elms, d1: Doc, e1: Elms, p: Id, n: Id, k: nat)
    requires d0.Valid() && Grows(d0, e0, d1, e1, {}) && n >= d0.next
    requires p in d0.kids && p in d1.kids && k <= |d1.kids[p]|
    ensures Grows(d0, e0, d1.Place(p, n, k), e1, {p})
  {
  }

  // Inserting a node that is new since d0.
  lemma Inserted(d0: Doc, e0: Elms, d1: Doc, e1: Elms, v: VNode, p: Id, ref: Option<Id>)
    requires d0.Valid() && d1.Valid()
    requires Grows(d0, e0, d1, e1, {}) && Built(d0, e0, d1, e1, v)
    requires v.id in e1 && e1[v.id] in d1.kind && e1[v.id] !in d1.parent && e1[v.id] >= d0.next
    requires p in d0.kids && p in d1.kids && d1.kids[p] == d0.kids[p] && (ref.Some? ==> ref.value in d0.kids[p])
    ensures var d2 := d1.InsertBefore(p, e1[v.id], ref);
      && d2.Valid() && Grows(d0, e0, d2, e1, {p}) && Built(d0, e0, d2, e1, v)
      && p in d2.kids
      && d2.kids[p] == d0.kids[p][..Slot(d0.kids[p], ref)] + [e1[v.id]] + d0.kids[p][Slot(d0.kids[p], ref)..]
  {
    hide Rendered;
    var k := Slot(d0.kids[p], ref);
    InsertFresh(d1, p, e1[v.id], ref);
    hide Doc.InsertBefore;
    PlaceGrows(d0, e0, d1, e1, p, e1[v.id], k);
    assert p in d0.kind;
    Unseen(d0, e1, v);
    hide Grows;
    RenderedFrame(d1, e1, d1.Place(p, e1[v.id], k), e1, {p}, v);
  }

  lemma GrowsKids(d0: Doc, e0: Elms, d1: Doc, e1: Elms, P: set<Id>, p: Id)
    requires d0.Valid() && Grows(d0, e0, d1, e1, P) && p in d0.kids && p !in P
    ensures p in d1.kids && d1.kids[p] == d0.kids[p]
  {
  }

  lemma AllNewSnoc(d0: Doc, d1: Doc, e1: Elms, e2: Elms, cur: seq<VNode>, v: VNode)
    requires d0.next <= d1.next && AllNew(d0, e1, cur)
    requires forall j :: 0 <= j < |cur| ==> Foot(e2, cur[j]) == Foot(e1, cur[j])
    requires Within(d1, Foot(e2, v), {})
    ensures AllNew(d0, e2, cur + [v])
  {
    hide Foot;
    var next := cur + [v];
    forall j | 0 <= j < |next| ensures Within(d0, Foot(e2, next[j]), {}) {
      if j < |cur| {
        assert next[j] == cur[j];
        assert Within(d0, Foot(e1, cur[j]), {});
      } else {
        assert next[j] == v;
      }
    }
  }

  lemma GrowsNext(d0: Doc, e0: Elms, d1: Doc, e1: Elms, P: set<Id>)
    requires Grows(d0, e0, d1, e1, P)
    ensures d0.next <= d1.next && Edits(d0, e0, d1, e1, P)
  {
  }

  lemma ListLength(d: Doc, e: Elms, p: Id, vs: seq<VNode>)
    requires RenderedList(d, e, p, vs)
    ensures p in d.kids && |d.kids[p]| == |vs|
  {
  }

  // createChildren appended one more child.
  lemma ChildBuilt(d0: Doc, e0: Elms, d1: Doc, e1: Elms, d2: Doc, e2: Elms, p: Id, vs: seq<VNode>, i: nat)
    requires d0.Valid() && d1.Valid() && i < |vs|
    requires Grows(d0, e0, d1, e1, {p}) && BuiltList(d0, e0, d1, e1, p, vs[..i])
    requires Grows(d1, e1, d2, e2, {p}) && Built(d1, e1, d2, e2, vs[i])
    requires p in d1.kids && p in d2.kids && vs[i].id in e2 && d2.kids[p] == d1.kids[p] + [e2[vs[i].id]]
    ensures Grows(d0, e0, d2, e2, {p}) && BuiltList(d0, e0, d2, e2, p, vs[..i + 1])
    ensures e2.Keys == e0.Keys + AllIds(vs[..i + 1])
  {
    hide Rendered, Foot, Edits, Within, Doc.Valid, Grows, AllNew, RenderedList, AllIds;
    var cur, v := vs[..i], vs[i];
    ListLength(d1, e1, p, cur);
    WithinSelf(d0, {p});
    GrowsTrans(d0, e0, d1, e1, d2, e2, {p}, {p});
    GrowsNext(d0, e0, d1, e1, {p});
    GrowsNext(d1, e1, d2, e2, {p});
    var s := d1.kids[p];
    assert s[..|s|] + [e2[v.id]] + s[|s|..] == s + [e2[v.id]];
    Created(d1, e1, d2, e2, p, cur, i, v);
    assert cur[..i] + [v] + cur[i..] == cur + [v] == vs[..i + 1];
    AllIdsSnoc(vs, i);
    AllNewSnoc(d0, d1, e1, e2, cur, v);
  }

  lemma NothingBuilt(d: Doc, e: Elms, n: Id)
    requires d.Valid() && n in d.kids && d.kids[n] == []
    ensures Grows(d, e, d, e, {n}) && BuiltList(d, e, d, e, n, [])
  {
  }

  lemma NextChild(e0: Elms, e: Elms, vs: seq<VNode>, i: nat)
    requires AllWellFormed(vs) && Unused(e0, AllIds(vs)) && i < |vs| && e.Keys == e0.Keys + AllIds(vs[..i])
    ensures WellFormed(vs[i]) && Unused(e, Ids(vs[i]))
  {
    forall x | x in AllIds(vs[..i]) ensures x !in Ids(vs[i]) {
      var j :| 0 <= j < i && x in Ids(vs[..i][j]);
      assert Ids(vs[j]) !! Ids(vs[i]);
    }
    forall x | x in Ids(vs[i]) ensures x in AllIds(vs) {
    }
  }

  lemma AppendSlot(s: seq<Id>, n: Id, x: Id)
    ensures Slot(s, None) == |s| && ParentSet(Some(n)) == {n}
    ensures s[..|s|] + [x] + s[|s|..] == s + [x]
  {
  }

  lemma WithinSelf(d: Doc, F: set<Id>)
    ensures Within(d, F, F)
  {
  }

  // Where addVnodes inserts: right behind the new front.
  lemma AddSlot(d0: Doc, e0: Elms, d: Doc, e: Elms, p: Id, F: set<Id>, g: State, ref: Option<Id>)
    requires Core(d0, e0, d, e, p, F, g) && g.os > g.oe && g.ns <= g.ne
    requires g.ne + 1 < |g.news| ==> g.news[g.ne + 1].id in e
    requires ref == if g.ne + 1 < |g.news| then Some(e[g.news[g.ne + 1].id]) else None
    ensures p in d.kids && g.ns <= |d.kids[p]| && (ref.Some? ==> ref.value in d.kids[p])
    ensures Slot(d.kids[p], ref) == g.ns
  {
    hide Showing, AllWellFormed, Unused;
    ShowAt(d0, e0, d, e, p, F, g.Cur());
    assert g.Window() == [];
    assert g.Cur() == g.news[..g.ns] + g.news[g.ne + 1..];
    if g.ne + 1 < |g.news| {
      assert g.Cur()[g.ns] == g.news[g.ne + 1];
      assert IndexOf(d.kids[p], d.kids[p][g.ns]) == g.ns;
    }
  }

  lemma NewElm(d: Doc, e: Elms, v: VNode)
    requires v.id in e && Within(d, Foot(e, v), {})
    ensures e[v.id] >= d.next
  {
    assert v.id in Ids(v);
    assert e[v.id] in Foot(e, v);
  }

  // CreateElm did exactly what the diff expects of a creation.
  lemma CreatedInPlace(d0: Doc, e0: Elms, d1: Doc, e1: Elms, d2: Doc, e2: Elms, p: Id, F: set<Id>, g: State, ref: Option<Id>)
    requires Core(d0, e0, d1, e1, p, F, g) && g.ns <= g.ne && g.ns < |g.news| && d2.Valid()
    requires Grows(d1, e1, d2, e2, ParentSet(Some(p))) && Built(d1, e1, d2, e2, g.news[g.ns]) && g.news[g.ns].id in e2
    requires p in d1.kids && p in d2.kids && Slot(d1.kids[p], ref) == g.ns
    requires d2.kids[p] == d1.kids[p][..Slot(d1.kids[p], ref)] + [e2[g.news[g.ns].id]] + d1.kids[p][Slot(d1.kids[p], ref)..]
    ensures Core(d0, e0, d2, e2, p, F, g.(ns := g.ns + 1))
    ensures forall x :: x in e1 ==> x in e2 && e2[x] == e1[x]
    ensures e2[g.news[g.ns].id] >= g.base
  {
    hide Rendered, Slot, Foot, Within, Showing, AllWellFormed, Unused;
    NewElm(d1, e2, g.news[g.ns]);
    assert g.base == d0.next;
    hide Core;
    Unpack(d0, e0, d1, e1, p, F, g);
    ShowingParts(d0, e0, d1, e1, p, F, g.Cur());
    EditsNext(d0, e0, d1, e1, F);
    ShowAt(d0, e0, d1, e1, p, F, g.Cur());
    assert d2.kind[p] == d1.kind[p];
    StepCreated(d0, e0, d1, e1, d2, e2, p, F, g);
  }

  lemma AddedLast(d0: Doc, e0: Elms, d1: Doc, e1: Elms, e2: Elms, p: Id, F: set<Id>, g: State)
    requires Core(d0, e0, d1, e1, p, F, g) && Matching(g, e1) && g.os > g.oe && g.ns <= g.ne
    requires forall x :: x in e1 ==> x in e2 && e2[x] == e1[x]
    requires g.news[g.ns].id in e2 && e2[g.news[g.ns].id] >= g.base
    ensures g.(ns := g.ns + 1).Shape() && Matching(g.(ns := g.ns + 1), e2)
  {
    hide Showing, Unused;
    Exhausted(g);
    Added(g, e1, e2);
  }

  // The state updateChildren starts in.
  ghost predicate Begun(d: Doc, e: Elms, p: Id, olds: seq<VNode>) {
    d.Valid() && p in d.kind && RenderedList(d, e, p, olds)
  }

  // The state updateChildren must reach.
  ghost predicate Refreshed(d0: Doc, e0: Elms, d1: Doc, e1: Elms, p: Id, olds: seq<VNode>, news: seq<VNode>) {
    && Showing(d0, e0, d1, e1, p, {p} + AllFoot(e0, olds), news)
    && e1.Keys == e0.Keys + AllIds(news)
    && Reused(e1, olds, news) && Origins(e1, olds, news, d0.next)
  }

  // The key index is built at most once, while the whole window is defined.
  ghost predicate Lookup(g: State, index: Option<map<string, nat>>)
    requires g.Shape()
  {
    if index.Some? then g.Indexed(index.value)
    else forall i :: 0 <= i < |g.oldCh| ==> g.oldCh[i].Some?
  }

  lemma Defined(g: State)
    requires g.Shape()
    ensures At(g.oldCh, g.os) == (if g.os < |g.olds| then g.oldCh[g.os] else None)
    ensures At(g.oldCh, g.oe) == (if g.oe >= 0 then g.oldCh[g.oe] else None)
  {
  }

  lemma StartShown(d: Doc, e: Elms, p: Id, olds: seq<VNode>)
    requires Begun(d, e, p, olds)
    ensures Showing(d, e, d, e, p, {p} + AllFoot(e, olds), olds)
  {
    hide Rendered, RenderedList;
    assert p in {p} + AllFoot(e, olds);
    forall i | 0 <= i < |olds| ensures Within(d, Foot(e, olds[i]), {p} + AllFoot(e, olds)) {
      FootIn(e, olds, i);
    }
    hide Foot, AllFoot;
  }

  lemma StartCur(d: Doc, olds: seq<VNode>, news: seq<VNode>, oldCh: seq<Option<VNode>>, e: Elms)
    requires |oldCh| == |olds| && forall i :: 0 <= i < |olds| ==> oldCh[i] == Some(olds[i])
    ensures var g := State(olds, news, oldCh, 0, |olds| - 1, 0, |news| - 1, d.next);
      && g.Shape() && Matching(g, e) && Lookup(g, None) && g.Cur() == olds
  {
    var g := State(olds, news, oldCh, 0, |olds| - 1, 0, |news| - 1, d.next);
    hide Live, DistinctKeys;
    assert forall i :: !g.Gone(i) && !g.Done(i);
    assert g.Window() == oldCh;
    LiveAll(olds, oldCh);
  }

  lemma Start(d: Doc, e: Elms, p: Id, olds: seq<VNode>, news: seq<VNode>, oldCh: seq<Option<VNode>>)
    requires Begun(d, e, p, olds) && AllWellFormed(news) && Unused(e, AllIds(news))
    requires |oldCh| == |olds| && forall i :: 0 <= i < |olds| ==> oldCh[i] == Some(olds[i])
    ensures Loop(d, e, d, e, p, {p} + AllFoot(e, olds), State(olds, news, oldCh, 0, |olds| - 1, 0, |news| - 1, d.next), None)
  {
    hide Showing, Begun, AllWellFormed, Unused, AllIds, AllFoot, State.Cur, State.Shape, Matching, Lookup;
    StartShown(d, e, p, olds);
    StartCur(d, olds, news, oldCh, e);
    NoIds(news);
  }

  lemma NoIds(vs: seq<VNode>)
    ensures AllIds(vs[..0]) == {} && AllIds(vs[|vs|..]) == {}
  {
  }

  lemma {:induction false} LiveAll(vs: seq<VNode>, s: seq<Option<VNode>>)
    requires |s| == |vs| && forall i :: 0 <= i < |vs| ==> s[i] == Some(vs[i])
    ensures Live(s) == vs
  {
    if s != [] {
      LiveAll(vs[1..], s[1..]);
    }
  }

  // A live old vnode and an unprocessed new one can be given to patchVnode.
  lemma Ready(d0: Doc, e0: Elms, d: Doc, e: Elms, p: Id, F: set<Id>, g: State, i: nat, j: nat)
    requires Core(d0, e0, d, e, p, F, g) && g.os <= i <= g.oe && g.ns <= j <= g.ne && g.oldCh[i].Some?
    ensures d.Valid() && Rendered(d, e, g.oldCh[i].value) && j < |g.news|
    ensures WellFormed(g.news[j]) && Unused(e, Ids(g.news[j]))
  {
    hide *;
    NewReady(d0, e0, d, e, p, F, g, j);
    Unpack(d0, e0, d, e, p, F, g);
    WindowMiddle(g, i);
    LiveShown(g, i);
    ShowAt(d0, e0, d, e, p, F, g.Cur());
  }

  lemma LiveShown(g: State, i: nat)
    requires g.Shape() && g.os <= i <= g.oe && g.oldCh[i].Some?
    ensures g.oldCh[i].value in g.Cur()
  {
    hide Live;
    WindowMiddle(g, i);
    var a, w := Live(g.oldCh[g.os..i]), Live(g.Window());
    assert w[|a|] == g.oldCh[i].value;
    assert g.Cur()[|g.news[..g.ns]| + |a|] == w[|a|];
  }

  lemma PairDone(g: State, g': State, i: int, j: int, d1: Doc, e1: Elms, d2: Doc, e2: Elms)
    requires g.Shape() && g.os <= g.oe && g.ns <= g.ne && Matching(g, e1)
    requires
      || (g' == g.(os := g.os + 1, ns := g.ns + 1) && i == g.os && j == g.ns)
      || (g' == g.(oe := g.oe - 1, ne := g.ne - 1) && i == g.oe && j == g.ne)
      || (g' == g.(os := g.os + 1, ne := g.ne - 1) && i == g.os && j == g.ne)
      || (g' == g.(oe := g.oe - 1, ns := g.ns + 1) && i == g.oe && j == g.ns)
      || (g.os < i < g.oe && g' == g.(oldCh := g.oldCh[i := None], ns := g.ns + 1) && j == g.ns)
    requires g.oldCh[i].Some? && SameVnode(g.oldCh[i].value, g.news[j])
    requires PatchedTo(d1, e1, d2, e2, g.oldCh[i].value, g.news[j])
    ensures g'.Shape() && Matching(g', e2)
  {
    PatchedKeys(d1, e1, d2, e2, g.oldCh[i].value, g.news[j]);
    assert Pairs(g, g', i, j);
    hide Rendered, Edits, Within, TookOver, Matching, SameVnode, Pairs;
    Paired(g, g', i, j, e1, e2);
  }

  lemma LookupKept(g: State, g': State, index: Option<map<string, nat>>)
    requires g.Shape() && g'.Shape() && Lookup(g, index) && g'.olds == g.olds && g.os <= g'.os && g'.oe <= g.oe
    requires index.None? ==> g'.oldCh == g.oldCh
    ensures Lookup(g', index)
  {
  }

  lemma IndexBuilt(g: State, index: map<string, nat>)
    requires g.Shape() && Lookup(g, None) && g.os <= g.oe
    requires forall k :: k in index ==> g.os <= index[k] <= g.oe && g.oldCh[index[k]].Some? && g.oldCh[index[k]].value.key == Some(k)
    requires forall i :: g.os <= i <= g.oe && g.oldCh[i].Some? && g.oldCh[i].value.key.Some? ==> g.oldCh[i].value.key.value in index
    ensures Lookup(g, Some(index))
  {
  }

  // The key index answers with a vnode that is still in the window.
  lemma FoundIn(d0: Doc, e0: Elms, d: Doc, e: Elms, p: Id, F: set<Id>, g: State, index: map<string, nat>)
    requires Core(d0, e0, d, e, p, F, g) && Matching(g, e) && Lookup(g, Some(index))
    requires g.ns <= g.ne && g.news[g.ns].key.Some? && g.news[g.ns].key.value in index
    ensures var x := index[g.news[g.ns].key.value];
      g.os <= x <= g.oe && x < |g.oldCh| && g.oldCh[x] == Some(g.olds[x])
  {
    hide Showing, Unused;
    Found(g, index);
  }

  lemma CreatedNew(d0: Doc, e0: Elms, d: Doc, e1: Elms, e2: Elms, p: Id, F: set<Id>, g: State, index: map<string, nat>)
    requires Core(d0, e0, d, e1, p, F, g) && Matching(g, e1) && Lookup(g, Some(index)) && g.ns <= g.ne
    requires Missing(g, index)
    requires forall x :: x in e1 ==> x in e2 && e2[x] == e1[x]
    requires g.news[g.ns].id in e2 && e2[g.news[g.ns].id] >= g.base
    ensures g.(ns := g.ns + 1).Shape() && Matching(g.(ns := g.ns + 1), e2)
  {
    hide Showing, Unused;
    NotFound(g, index);
    Added(g, e1, e2);
  }

  // Where the loop inserts a created node: before the first live old one.
  lemma StartSlot(d0: Doc, e0: Elms, d: Doc, e: Elms, p: Id, F: set<Id>, g: State)
    requires Core(d0, e0, d, e, p, F, g) && g.os <= g.oe && g.ns <= g.ne && g.oldCh[g.os].Some?
    ensures var s := g.oldCh[g.os].value.id;
      && s in e && p in d.kids && g.ns <= |d.kids[p]| && e[s] in d.kids[p]
      && Slot(d.kids[p], Some(e[s])) == g.ns
  {
    hide Showing, AllWellFormed, Unused, State.Cur;
    CurStartStart(g);
    ShowAt(d0, e0, d, e, p, F, g.Cur());
    assert IndexOf(d.kids[p], d.kids[p][g.ns]) == g.ns;
  }

  lemma Finished(d0: Doc, e0: Elms, d: Doc, e: Elms, p: Id, g: State)
    requires Core(d0, e0, d, e, p, {p} + AllFoot(e0, g.olds), g) && g.ns == g.ne + 1 && g.os == g.oe + 1
    requires g.Sourced(e) && Frugal(e, g.olds, g.news) && (DistinctKeys(g.olds) ==> g.Kept(e))
    ensures Refreshed(d0, e0, d, e, p, g.olds, g.news)
  {
    hide Showing, AllWellFormed, Unused, AllFoot, DistinctKeys, Origins, Reused, Frugal, State.Kept, State.Sourced;
    assert g.base == d0.next;
    assert g.Window() == [];
    assert g.Cur() == g.news;
    AllIdsSplit(g.news, g.ns);
    AllDone(g, e);
  }

  lemma AllDone(g: State, e: Elms)
    requires g.ns == g.ne + 1 && g.Sourced(e) && Frugal(e, g.olds, g.news) && (DistinctKeys(g.olds) ==> g.Kept(e))
    ensures Reused(e, g.olds, g.news) && Origins(e, g.olds, g.news, g.base)
  {
    hide SameVnode, DistinctKeys, Inherits, TookOver, Frugal;
    assert forall j :: 0 <= j < |g.news| ==> g.Done(j);
  }

  lemma AllIdsSplit(vs: seq<VNode>, k: nat)
    requires k <= |vs|
    ensures AllIds(vs[..k]) + AllIds(vs[k..]) == AllIds(vs)
  {
    forall x | x in AllIds(vs) ensures x in AllIds(vs[..k]) + AllIds(vs[k..]) {
      var i :| 0 <= i < |vs| && x in Ids(vs[i]);
      if i < k {
        assert vs[..k][i] == vs[i];
      } else {
        assert vs[k..][i - k] == vs[i];
      }
    }
  }

  // The vnode right behind the old window already has its element.
  lemma BackElm(d0: Doc, e0: Elms, d: Doc, e: Elms, p: Id, F: set<Id>, g: State)
    requires Core(d0, e0, d, e, p, F, g) && g.os > g.oe
    ensures g.ne + 1 < |g.news| ==> g.news[g.ne + 1].id in e
  {
    hide Showing, AllWellFormed, Unused;
    ShowAt(d0, e0, d, e, p, F, g.Cur());
    assert g.Window() == [];
    if g.ne + 1 < |g.news| {
      assert g.Cur()[g.ns] == g.news[g.ne + 1];
    }
  }

  lemma MatchedKept(g: State, g': State, e: Elms)
    requires g.Shape() && Matching(g, e) && g.ns == g.ne + 1 && g' == g.(os := g.oe + 1)
    ensures g'.Sourced(e) && Frugal(e, g'.olds, g'.news) && (DistinctKeys(g'.olds) ==> g'.Kept(e))
  {
    assert forall j :: 0 <= j < |g.news| ==> g.Done(j);
    hide SameVnode, Inherits, TookOver, DistinctKeys;
    assert forall j :: g'.Done(j) <==> g.Done(j);
  }

  // Everything the diff loop keeps true.
  ghost predicate Loop(d0: Doc, e0: Elms, d: Doc, e: Elms, p: Id, F: set<Id>, g: State, index: Option<map<string, nat>>) {
    && g.Shape()
    && Core(d0, e0, d, e, p, F, g)
    && Matching(g, e)
    && Lookup(g, index)
  }

  lemma LoopParts(d0: Doc, e0: Elms, d: Doc, e: Elms, p: Id, F: set<Id>, g: State, index: Option<map<string, nat>>)
    requires Loop(d0, e0, d, e, p, F, g, index)
    ensures g.Shape() && Core(d0, e0, d, e, p, F, g) && Matching(g, e) && Lookup(g, index)
    ensures |g.oldCh| == |g.olds| && 0 <= g.os <= g.oe + 1 <= |g.olds| && 0 <= g.ns <= g.ne + 1 <= |g.news|
  {
    hide Core, Matching, Lookup;
  }

  // The loop goes on with g' after the document and the matching were brought
  // there.
  lemma LoopNext(d0: Doc, e0: Elms, d1: Doc, e1: Elms, d: Doc, e: Elms, p: Id, F: set<Id>, g: State, g': State, index: Option<map<string, nat>>)
    requires Loop(d0, e0, d1, e1, p, F, g, index)
    requires g'.Shape() && Core(d0, e0, d, e, p, F, g') && Matching(g', e)
    requires g'.olds == g.olds && g.os <= g'.os && g'.oe <= g.oe && (index.None? ==> g'.oldCh == g.oldCh)
    ensures Loop(d0, e0, d, e, p, F, g', index)
  {
    hide Core, Matching, Lookup;
    LookupKept(g, g', index);
  }

  lemma SkipStart(d0: Doc, e0: Elms, d: Doc, e: Elms, p: Id, F: set<Id>, g: State, index: Option<map<string, nat>>)
    requires Loop(d0, e0, d, e, p, F, g, index) && g.os <= g.oe && g.os < |g.oldCh| && g.oldCh[g.os].None?
    ensures Loop(d0, e0, d, e, p, F, g.(os := g.os + 1), index)
  {
    hide *;
    LoopParts(d0, e0, d, e, p, F, g, index);
    StepSkipStart(d0, e0, d, e, p, F, g);
    Skipped(g, g.(os := g.os + 1), e);
    LoopNext(d0, e0, d, e, d, e, p, F, g, g.(os := g.os + 1), index);
  }

  lemma SkipEnd(d0: Doc, e0: Elms, d: Doc, e: Elms, p: Id, F: set<Id>, g: State, index: Option<map<string, nat>>)
    requires Loop(d0, e0, d, e, p, F, g, index) && g.os <= g.oe < |g.oldCh| && g.oldCh[g.oe].None?
    ensures Loop(d0, e0, d, e, p, F, g.(oe := g.oe - 1), index)
  {
    hide *;
    LoopParts(d0, e0, d, e, p, F, g, index);
    StepSkipEnd(d0, e0, d, e, p, F, g);
    Skipped(g, g.(oe := g.oe - 1), e);
    LoopNext(d0, e0, d, e, d, e, p, F, g, g.(oe := g.oe - 1), index);
  }

  // Neither the index nor the search has an old vnode that the next new one
  // could reuse.
  ghost predicate Missing(g: State, index: map<string, nat>)
    requires 0 <= g.ns < |g.news| && g.Shape()
  {
    var v := g.news[g.ns];
    if v.key.Some? then
      v.key.value in index ==>
        var x := index[v.key.value];
        x < |g.oldCh| && g.oldCh[x].Some? && !SameVnode(g.oldCh[x].value, v)
    else Searched(g, v)
  }

  lemma MissingIn(g: State, index: map<string, nat>)
    requires 0 <= g.ns < |g.news| && g.Shape()
    requires var v := g.news[g.ns];
      v.key.Some? && v.key.value in index ==>
        index[v.key.value] < |g.oldCh| && g.oldCh[index[v.key.value]].Some? && !SameVnode(g.oldCh[index[v.key.value]].value, v)
    requires var v := g.news[g.ns];
      v.key.None? ==>
        && (forall i :: g.os <= i < g.oe && g.oldCh[i].Some? ==> !SameVnode(v, g.oldCh[i].value))
        && (g.os <= g.oe && g.oldCh[g.oe].Some? ==> !SameVnode(g.oldCh[g.oe].value, v))
    ensures Missing(g, index)
  {
  }

  lemma LoopDefined(d0: Doc, e0: Elms, d: Doc, e: Elms, p: Id, F: set<Id>, g: State)
    requires Loop(d0, e0, d, e, p, F, g, None)
    ensures forall i :: 0 <= i < |g.oldCh| ==> g.oldCh[i].Some?
    ensures 0 <= g.os && g.oe < |g.oldCh|
  {
    hide Core, Matching;
  }

  lemma LoopIndexed(d0: Doc, e0: Elms, d: Doc, e: Elms, p: Id, F: set<Id>, g: State, index: map<string, nat>)
    requires Loop(d0, e0, d, e, p, F, g, None) && 0 <= g.os <= g.oe < |g.oldCh|
    requires forall k :: k in index ==> g.os <= index[k] <= g.oe && g.oldCh[index[k]].Some? && g.oldCh[index[k]].value.key == Some(k)
    requires forall i :: g.os <= i <= g.oe && g.oldCh[i].Some? && g.oldCh[i].value.key.Some? ==> g.oldCh[i].value.key.value in index
    ensures Loop(d0, e0, d, e, p, F, g, Some(index))
  {
    hide Core, Matching;
    IndexBuilt(g, index);
  }

  lemma AtSame(s: seq<Option<VNode>>, t: seq<Option<VNode>>, i: nat)
    requires i < |s| == |t| && s[i] == t[i]
    ensures At(s, i) == At(t, i)
  {
  }

  // patchVnode hands the element of the old vnode to the new one first.
  lemma HandOver(d: Doc, e: Elms, old_: VNode, v: VNode)
    requires d.Valid() && Rendered(d, e, old_) && SameVnode(old_, v) && Unused(e, Ids(v))
    ensures old_.id in e && old_.id != v.id && v.id !in e
    ensures var e1 := e[v.id := e[old_.id]];
      && Edits(d, e, d, e1, {}) && e1.Keys == e.Keys + {v.id} && Rendered(d, e1, old_) && Foot(e1, old_) == Foot(e, old_)
  {
    assert v.id in Ids(v);
    RenderedFrame(d, e, d, e[v.id := e[old_.id]], {}, old_);
  }

  lemma SameShape(old_: VNode, v: VNode)
    requires SameVnode(old_, v)
    ensures old_.Elem? <==> v.Elem?
    ensures old_.Text? <==> v.Text?
    ensures old_.Elem? ==> old_.tag == v.tag
  {
  }

  lemma {:induction false} TookOverSelf(d: Doc, e: Elms, v: VNode)
    requires Rendered(d, e, v)
    ensures TookOver(e, v, v)
    decreases v
  {
    if v.Elem? && v.children.Children? {
      var vs := v.children.list;
      forall i | 0 <= i < |vs|
        ensures Inherits(e, vs[i], vs[i])
      {
        TookOverSelf(d, e, vs[i]);
        SameAsSelf(vs[i]);
      }
      AllInherit(e, vs);
      hide Frugal, Inherits;
      if DistinctKeys(vs) {
        forall i, j | 0 <= i < |vs| && 0 <= j < |vs| && vs[j].key.Some? && SameVnode(vs[i], vs[j])
          ensures TookOver(e, vs[i], vs[j])
        {
          assert i == j;
          TookOverSelf(d, e, vs[j]);
        }
      }
    }
  }

  lemma SameAsSelf(v: VNode)
    ensures SameVnode(v, v)
  {
  }

  lemma AllInherit(e: Elms, vs: seq<VNode>)
    requires forall i :: 0 <= i < |vs| ==> Inherits(e, vs[i], vs[i])
    ensures Frugal(e, vs, vs)
  {
    hide Inherits, SameVnode, DistinctKeys;
  }

  lemma Unchanged(d: Doc, e: Elms, v: VNode)
    requires d.Valid() && Rendered(d, e, v)
    ensures PatchedTo(d, e, d, e, v, v)
  {
    RenderedIds(d, e, v);
    TookOverSelf(d, e, v);
  }

  // Text and comment nodes get the new text.
  lemma LeafPatched(d: Doc, e: Elms, old_: VNode, v: VNode)
    requires d.Valid() && Rendered(d, e, old_) && SameVnode(old_, v) && Unused(e, Ids(v)) && !old_.Elem?
    ensures v.id !in e && old_.id in e && e[old_.id] in d.kind && !d.kind[e[old_.id]].Element? && !v.Elem?
    ensures var n := e[old_.id];
      var d1 := if old_.text != v.text then d.SetData(n, v.text) else d;
      PatchedTo(d, e, d1, e[v.id := n], old_, v)
  {
    HandOver(d, e, old_, v);
    SameShape(old_, v);
    var n := e[old_.id];
    var e1 := e[v.id := n];
    assert Ids(v) == {v.id} && Foot(e, old_) == {n} && Foot(e1, v) == {n} by { assert Ids(old_) == {old_.id}; }
    assert d.kids[n] == [] && n in d.kids;
    hide Foot, Ids, SameVnode, Unused, Edits;
    DataSet(d, e, e1, n, if old_.text != v.text then d.SetData(n, v.text) else d, v);
  }

  lemma DataSet(d: Doc, e: Elms, e1: Elms, n: Id, d1: Doc, v: VNode)
    requires d.Valid() && n in d.kids && d.kids[n] == [] && !v.Elem? && v.id in e1 && e1[v.id] == n
    requires forall x :: x in e ==> x in e1 && e1[x] == e[x]
    requires n in d1.kind && d1.kind[n] == v.Kind() && d1 == d.(kind := d.kind[n := v.Kind()])
    ensures d1.Valid() && Edits(d, e, d1, e1, {n}) && Rendered(d1, e1, v)
  {
  }

  function Kids(v: VNode): seq<VNode> {
    if v.Elem? && v.children.Children? then v.children.list else []
  }

  // An element is ready to have its children updated.
  lemma ElemBegun(d: Doc, e: Elms, old_: VNode, v: VNode)
    requires d.Valid() && Rendered(d, e, old_) && SameVnode(old_, v) && Unused(e, Ids(v)) && WellFormed(v) && old_.Elem?
    ensures old_.id in e && v.id !in e && v.Elem?
    ensures var e1 := e[v.id := e[old_.id]];
      Begun(d, e1, e[old_.id], Kids(old_)) && AllWellFormed(Kids(v)) && Unused(e1, AllIds(Kids(v)))
  {
    HandOver(d, e, old_, v);
    hide Edits, Doc.Valid;
    SameShape(old_, v);
    hide SameVnode;
    assert AllIds([]) == {};
    assert Kids(v) != [] ==> AllIds(Kids(v)) <= Ids(v) && v.id !in AllIds(Kids(v));
  }

  lemma FootParts(e: Elms, v: VNode)
    requires v.id in e && v.Elem?
    ensures Foot(e, v) == {e[v.id]} + AllFoot(e, Kids(v))
  {
    assert Kids(v) == [] ==> AllIds(Kids(v)) == {};
    assert Ids(v) == {v.id} + AllIds(Kids(v));
  }

  lemma WithinParts(d: Doc, e: Elms, v: VNode, F: set<Id>)
    requires v.id in e && v.Elem? && e[v.id] in F
    requires AllWithin(d, e, Kids(v), F)
    ensures Within(d, Foot(e, v), F)
  {
    FootParts(e, v);
    forall n | n in AllFoot(e, Kids(v)) ensures n in F || n >= d.next {
      var x :| x in AllIds(Kids(v)) && x in e && e[x] == n;
      var i :| 0 <= i < |Kids(v)| && x in Ids(Kids(v)[i]);
      assert n in Foot(e, Kids(v)[i]);
    }
  }

  lemma EditsFrom(d: Doc, e: Elms, e1: Elms, d2: Doc, e2: Elms, F: set<Id>)
    requires Edits(d, e1, d2, e2, F) && forall x :: x in e ==> x in e1 && e1[x] == e[x]
    ensures Edits(d, e, d2, e2, F)
  {
  }

  lemma ElemFoot(e: Elms, old_: VNode, v: VNode)
    requires old_.id in e && v.id !in e && old_.Elem?
    requires Foot(e[v.id := e[old_.id]], old_) == Foot(e, old_)
    ensures Foot(e, old_) == {e[old_.id]} + AllFoot(e[v.id := e[old_.id]], Kids(old_))
  {
    FootParts(e[v.id := e[old_.id]], old_);
  }

  lemma ElemKeys(v: VNode)
    requires v.Elem?
    ensures Ids(v) == {v.id} + AllIds(Kids(v))
  {
    assert Kids(v) == [] ==> AllIds(Kids(v)) == {};
  }

  lemma ShowingParts(d0: Doc, e0: Elms, d: Doc, e: Elms, p: Id, F: set<Id>, cur: seq<VNode>)
    requires Showing(d0, e0, d, e, p, F, cur)
    ensures d.Valid() && p in F && p in d0.kind && p in d.kind && d.kind[p] == d0.kind[p]
    ensures Edits(d0, e0, d, e, F) && RenderedList(d, e, p, cur) && AllWithin(d0, e, cur, F)
    ensures forall x :: x in e0 ==> x in e && e[x] == e0[x]
  {
  }

  lemma RefreshedParts(d0: Doc, e0: Elms, d: Doc, e: Elms, p: Id, olds: seq<VNode>, news: seq<VNode>)
    requires Refreshed(d0, e0, d, e, p, olds, news)
    ensures Showing(d0, e0, d, e, p, {p} + AllFoot(e0, olds), news)
    ensures e.Keys == e0.Keys + AllIds(news) && Reused(e, olds, news)
  {
  }

  lemma KindsOf(d: Doc, e: Elms, old_: VNode, v: VNode)
    requires Rendered(d, e, old_) && SameVnode(old_, v) && old_.Elem?
    ensures old_.id in e && e[old_.id] in d.kind && d.kind[e[old_.id]] == v.Kind()
  {
  }

  lemma TookOverElem(e: Elms, a: VNode, b: VNode)
    requires a.Elem? && b.Elem? && a.id in e && b.id in e && e[b.id] == e[a.id] && Reused(e, Kids(a), Kids(b))
    ensures TookOver(e, a, b)
  {
  }

  lemma ElemPatched(d: Doc, e: Elms, d2: Doc, e2: Elms, old_: VNode, v: VNode)
    requires d.Valid() && Rendered(d, e, old_) && SameVnode(old_, v) && Unused(e, Ids(v)) && old_.Elem? && old_.id in e
    requires Refreshed(d, e[v.id := e[old_.id]], d2, e2, e[old_.id], Kids(old_), Kids(v))
    ensures PatchedTo(d, e, d2, e2, old_, v)
  {
    hide Doc.Valid, Refreshed, Showing, Rendered, SameVnode, Unused, Edits, Foot, AllFoot, Within, AllWithin, Kids, TookOver, Reused;
    var n := e[old_.id];
    var e1 := e[v.id := n];
    HandOver(d, e, old_, v);
    SameShape(old_, v);
    KindsOf(d, e, old_, v);
    ElemFoot(e, old_, v);
    ElemKeys(v);
    RefreshedParts(d, e1, d2, e2, n, Kids(old_), Kids(v));
    ShowingParts(d, e1, d2, e2, n, Foot(e, old_), Kids(v));
    EditsFrom(d, e, e1, d2, e2, Foot(e, old_));
    ElemRendered(d2, e2, v);
    WithinParts(d, e2, v, Foot(e, old_));
    TookOverElem(e2, old_, v);
  }

  lemma ElemRendered(d: Doc, e: Elms, v: VNode)
    requires v.Elem? && v.id in e && e[v.id] in d.kind && d.kind[e[v.id]] == v.Kind()
    requires RenderedList(d, e, e[v.id], Kids(v))
    ensures Rendered(d, e, v)
  {
  }

  lemma KidsOf(v: VNode)
    ensures v.Elem? && v.children.Children? ==> Kids(v) == v.children.list
    ensures v.Elem? && v.children.NoChildren? ==> Kids(v) == []
  {
  }

  lemma NothingLeft(d: Doc, e: Elms, p: Id)
    requires Loop(d, e, d, e, p, {p} + AllFoot(e, []), State([], [], [], 0, -1, 0, -1, d.next), None)
    ensures Refreshed(d, e, d, e, p, [], [])
  {
    hide Showing;
    Finished(d, e, d, e, p, State([], [], [], 0, -1, 0, -1, d.next));
  }

  // What patch is given to start from: nothing, the vnode it rendered last, or
  // an element of the document to mount on.
  datatype Former = Nothing | Vnode(v: VNode) | RealElement(n: Id)

  // The root of v is where node n was, and only the parent of that place and
  // nodes of F were edited.
  ghost predicate InPlaceOf(d0: Doc, e0: Elms, d: Doc, e: Elms, n: Id, F: set<Id>, v: VNode) {
    && v.id in e
    && if n in d0.parent then
      var p := d0.parent[n];
      && p in d0.kids && p in d.kids && n in d0.kids[p]
      && Edits(d0, e0, d, e, {p} + F)
      && d.kids[p] == d0.kids[p][IndexOf(d0.kids[p], n) := e[v.id]]
    else
      Edits(d0, e0, d, e, F)
  }

  // The root of v is where the root of old_ was, and only the parent of that
  // place and the old tree itself were edited.
  ghost predicate Swapped(d0: Doc, e0: Elms, d: Doc, e: Elms, old_: VNode, v: VNode)
  {
    old_.id in e0 && InPlaceOf(d0, e0, d, e, e0[old_.id], Foot(e0, old_), v)
  }

  lemma BuiltParts(d0: Doc, e0: Elms, d: Doc, e: Elms, v: VNode)
    requires Built(d0, e0, d, e, v) && Grows(d0, e0, d, e, ParentSet(None))
    ensures Rendered(d, e, v) && Edits(d0, e0, d, e, {})
  {
    hide Rendered;
  }

  lemma EditsMore(d0: Doc, e0: Elms, d: Doc, e: Elms, F: set<Id>, G: set<Id>)
    requires Edits(d0, e0, d, e, F) && F <= G
    ensures Edits(d0, e0, d, e, G)
  {
  }

  lemma PatchedSwap(d0: Doc, e0: Elms, d: Doc, e: Elms, old_: VNode, v: VNode)
    requires d0.Valid() && Rendered(d0, e0, old_) && PatchedTo(d0, e0, d, e, old_, v)
    ensures d.Valid() && Rendered(d, e, v) && Swapped(d0, e0, d, e, old_, v)
  {
    hide Rendered, TookOver, Foot, Within;
    var n := e0[old_.id];
    if n in d0.parent {
      var p := d0.parent[n];
      if p in Foot(e0, old_) {
        RootOutside(d0, e0, old_, p);
      }
      EditsMore(d0, e0, d, e, Foot(e0, old_), {p} + Foot(e0, old_));
    }
  }

  lemma RootKnown(d: Doc, e: Elms, v: VNode)
    requires d.Valid() && Rendered(d, e, v)
    ensures v.id in e && e[v.id] in d.kind
  {
  }

  lemma RootReady(d: Doc, n: Id)
    requires d.Valid() && n in d.kind
    ensures n in d.parent ==>
      && d.parent[n] in d.kids && n in d.kids[d.parent[n]]
      && (d.NextSibling(n).Some? ==> d.NextSibling(n).value in d.kids[d.parent[n]])
  {
  }

  lemma AfterSlot(s: seq<Id>, n: Id, ref: Option<Id>)
    requires Distinct(s) && n in s
    requires ref == var i := IndexOf(s, n); if i + 1 < |s| then Some(s[i + 1]) else None
    ensures Slot(s, ref) == IndexOf(s, n) + 1
  {
    var i := IndexOf(s, n);
    if i + 1 < |s| {
      assert IndexOf(s, s[i + 1]) == i + 1;
    }
  }

  // Insert behind the child at i, then remove that child.
  lemma ReplaceAt(s: seq<Id>, i: nat, v: Id)
    requires Distinct(s) && i < |s| && v !in s
    ensures IndexOf(s, s[i]) == i
    ensures Remove(s[..i + 1] + [v] + s[i + 1..], s[i]) == s[i := v]
  {
    var t := s[..i + 1] + [v] + s[i + 1..];
    CutAt(s, i, v);
    assert t[i] == s[i] && forall j :: 0 <= j < i ==> t[j] == s[j];
    assert IndexOf(t, s[i]) == i;
  }

  lemma CutAt<T>(s: seq<T>, i: nat, v: T)
    requires i < |s|
    ensures var t := s[..i + 1] + [v] + s[i + 1..];
      t[..i] + t[i + 1..] == s[i := v]
  {
    var t := s[..i + 1] + [v] + s[i + 1..];
    assert t[..i] == s[..i] && t[i + 1..] == [v] + s[i + 1..];
  }

  lemma Stranger(d0: Doc, n: Id, p: Id)
    requires d0.Valid() && p in d0.kids && n >= d0.next
    ensures n !in d0.kids[p] && Distinct(d0.kids[p]) && p in d0.kind
  {
    assert forall c :: c in d0.kids[p] ==> c in d0.kind;
  }

  lemma ReplacedSeq(s: seq<Id>, n: Id, x: Id, ref: Option<Id>)
    requires Distinct(s) && n in s && x !in s
    requires ref == var i := IndexOf(s, n); if i + 1 < |s| then Some(s[i + 1]) else None
    ensures Remove(s[..Slot(s, ref)] + [x] + s[Slot(s, ref)..], n) == s[IndexOf(s, n) := x]
  {
    hide Slot, Remove;
    AfterSlot(s, n, ref);
    ReplaceAt(s, IndexOf(s, n), x);
  }

  lemma ReplacedKids(d0: Doc, d1: Doc, n: Id, p: Id, x: Id)
    requires d0.Valid() && d1.Valid() && n in d0.parent && d0.parent[n] == p && p in d0.kids && p in d1.kids
    requires n in d1.parent && d1.parent[n] == p && x >= d0.next
    requires var s, ref := d0.kids[p], d0.NextSibling(n);
      d1.kids[p] == s[..Slot(s, ref)] + [x] + s[Slot(s, ref)..]
    ensures n in d0.kids[p] && p in d0.kind
    ensures var d := d1.Detach(n);
      var s: seq<Id> := d0.kids[p][IndexOf(d0.kids[p], n) := x];
      && d.Valid() && d.kind == d1.kind && d.next == d1.next && p in d.kids && d.kids == d1.kids[p := s]
  {
    Stranger(d0, x, p);
    assert n in d0.kids[p];
    ReplacedSeq(d0.kids[p], n, x, d0.NextSibling(n));
    DetachValid(d1, n);
    hide Doc.Valid, Distinct, Slot, Remove, Doc.NextSibling;
  }

  lemma Joins(d0: Doc, e0: Elms, d1: Doc, e: Elms, n: Id, p: Id)
    requires d0.Valid() && Grows(d0, e0, d1, e, {p}) && n in d0.parent && d0.parent[n] == p
    ensures n in d1.parent && d1.parent[n] == p && Edits(d0, e0, d1, e, {p})
  {
  }

  lemma ListEdits(d1: Doc, e: Elms, p: Id, s: seq<Id>, d2: Doc)
    requires p in d1.kids && d2.kids == d1.kids[p := s] && d2.kind == d1.kind && d2.next == d1.next
    ensures Edits(d1, e, d2, e, {p})
  {
  }

  // The old root has a parent p: the new one takes its place there.
  lemma ReplacedUnder(d0: Doc, e0: Elms, d1: Doc, e: Elms, n: Id, p: Id, v: VNode)
    requires d0.Valid() && d1.Valid() && n in d0.parent && d0.parent[n] == p && p in d0.kids && p in d1.kids
    requires Grows(d0, e0, d1, e, {p}) && v.id in e && Rendered(d1, e, v) && Within(d0, Foot(e, v), {})
    requires var s, ref := d0.kids[p], d0.NextSibling(n);
      d1.kids[p] == s[..Slot(s, ref)] + [e[v.id]] + s[Slot(s, ref)..]
    ensures var d := d1.Detach(n);
      && d.Valid() && Rendered(d, e, v) && p in d.kids && n in d0.kids[p]
      && d.kids[p] == d0.kids[p][IndexOf(d0.kids[p], n) := e[v.id]]
      && Edits(d0, e0, d, e, {p})
  {
    hide Rendered, Grows, Slot, Doc.NextSibling;
    Unseen(d0, e, v);
    assert v.id in Ids(v);
    assert e[v.id] in Foot(e, v);
    Joins(d0, e0, d1, e, n, p);
    ReplacedKids(d0, d1, n, p, e[v.id]);
    hide Foot, Doc.Valid, Doc.Detach;
    var d := d1.Detach(n);
    ListEdits(d1, e, p, d.kids[p], d);
    hide Edits;
    RenderedFrame(d1, e, d, e, {p}, v);
    EditsTrans(d0, e0, d1, e, d, e, {p}, {p});
  }

  lemma Replaced(d0: Doc, e0: Elms, d1: Doc, e: Elms, n: Id, F: set<Id>, v: VNode)
    requires d0.Valid() && d1.Valid()
    requires var parent := if n in d0.parent then Some(d0.parent[n]) else None;
      && Grows(d0, e0, d1, e, ParentSet(parent)) && Built(d0, e0, d1, e, v) && v.id in e
      && (parent.Some? ==>
        var p := parent.value;
        && p in d0.kids && p in d1.kids
        && var s, ref := d0.kids[p], d0.NextSibling(n);
        d1.kids[p] == s[..Slot(s, ref)] + [e[v.id]] + s[Slot(s, ref)..])
    ensures var d := if n in d0.parent then d1.Detach(n) else d1;
      d.Valid() && Rendered(d, e, v) && InPlaceOf(d0, e0, d, e, n, F, v)
  {
    hide Rendered, Edits, Foot, Doc.Valid, Slot, Doc.NextSibling, Doc.Detach;
    if n in d0.parent {
      var p := d0.parent[n];
      ReplacedUnder(d0, e0, d1, e, n, p, v);
      EditsMore(d0, e0, d1.Detach(n), e, {p}, {p} + F);
    } else {
      EditsMore(d0, e0, d1, e, {}, F);
    }
  }

  lemma IsSwapped(d0: Doc, e0: Elms, d: Doc, e: Elms, old_: VNode, v: VNode)
    requires old_.id in e0 && InPlaceOf(d0, e0, d, e, e0[old_.id], Foot(e0, old_), v)
    ensures Swapped(d0, e0, d, e, old_, v)
  {
    hide InPlaceOf, Foot;
  }

  // A tree built anew has a new root, and the replaced node is nowhere.
  lemma NewRoot(d0: Doc, e0: Elms, d1: Doc, e: Elms, n: Id, v: VNode)
    requires d0.Valid() && d1.Valid() && Built(d0, e0, d1, e, v) && n in d0.kind
    requires Grows(d0, e0, d1, e, ParentSet(if n in d0.parent then Some(d0.parent[n]) else None))
    ensures v.id in e && e[v.id] >= d0.next
    ensures n !in (if n in d0.parent then d1.Detach(n) else d1).parent
  {
    assert v.id in Ids(v);
    assert e[v.id] in Foot(e, v);
    if n in d0.parent {
      DetachValid(d1, n);
    }
    hide Rendered;
  }

  lemma PatchedRoot(d0: Doc, e0: Elms, d: Doc, e: Elms, old_: VNode, v: VNode)
    requires Rendered(d0, e0, old_) && PatchedTo(d0, e0, d, e, old_, v)
    ensures old_.id in e0 && v.id in e && e[v.id] == e0[old_.id] && TookOver(e, old_, v)
  {
    hide Reused, Foot, Within;
  }

  class Patcher {
    var doc: Doc
    var elm: Elms

    method Insert(parent: Option<Id>, n: Id, ref: Option<Id>)
      requires doc.Valid() && n in doc.kind
      requires parent.Some? ==> parent.value in doc.kids
      modifies this`doc
      ensures parent.None? ==> doc == old(doc)
      ensures parent.Some? && ref.Some? && ref.value !in old(doc).kids[parent.value] ==> doc == old(doc)
      ensures parent.Some? && (ref.Some? ==> ref.value in old(doc).kids[parent.value]) ==>
        doc == old(doc).InsertBefore(parent.value, n, ref)
    {
      if parent.Some? {
        if ref.Some? {
          if ref.value in doc.parent && doc.parent[ref.value] == parent.value {
            doc := doc.InsertBefore(parent.value, n, ref);
          }
        } else {
          doc := doc.InsertBefore(parent.value, n, None);
        }
      }
    }

    method CreateElm(v: VNode, parentElm: Option<Id>, refElm: Option<Id>)
      requires doc.Valid() && WellFormed(v) && Unused(elm, Ids(v))
      requires parentElm.Some? ==> parentElm.value in doc.kids
      requires parentElm.Some? && refElm.Some? ==> refElm.value in doc.kids[parentElm.value]
      modifies this
      decreases v, 1
      ensures doc.Valid() && Grows(old(doc), old(elm), doc, elm, ParentSet(parentElm))
      ensures Built(old(doc), old(elm), doc, elm, v) && v.id in elm
      ensures parentElm.None? ==> elm[v.id] !in doc.parent
      ensures parentElm.Some? ==>
        var s := old(doc).kids[parentElm.value];
        parentElm.value in doc.kids &&
        doc.kids[parentElm.value] == s[..Slot(s, refElm)] + [elm[v.id]] + s[Slot(s, refElm)..]
    {
      ghost var d0, e0 := doc, elm;
      assert v.id in Ids(v);
      hide Rendered, RenderedList, Edits, BuiltList, Grows;
      NewNode(doc, elm, v);
      var n := doc.next;
      doc := doc.Create(v.Kind());
      elm := elm[v.id := n];
      if v.Elem? && v.children.Children? {
        CreateChildren(v.children.list, n);
        NewElem(d0, e0, v, doc, elm);
      } else {
        NewLeaf(d0, e0, v);
      }
      ghost var d1 := doc;
      if parentElm.Some? {
        GrowsKids(d0, e0, d1, elm, {}, parentElm.value);
      }
      Insert(parentElm, n, refElm);
      if parentElm.Some? {
        Inserted(d0, e0, d1, elm, v, parentElm.value, refElm);
      }
    }

    method CreateChildren(children: seq<VNode>, n: Id)
      requires doc.Valid() && AllWellFormed(children) && Unused(elm, AllIds(children))
      requires n in doc.kids && doc.kids[n] == []
      modifies this
      decreases children, 0
      ensures doc.Valid() && Grows(old(doc), old(elm), doc, elm, {n})
      ensures BuiltList(old(doc), old(elm), doc, elm, n, children)
    {
      hide *;
      ghost var d0, e0 := doc, elm;
      NothingBuilt(doc, elm, n);
      var i := 0;
      assert children[..0] == [];
      while i < |children|
        invariant 0 <= i <= |children|
        invariant doc.Valid() && n in doc.kids && Grows(d0, e0, doc, elm, {n})
        invariant BuiltList(d0, e0, doc, elm, n, children[..i]) && elm.Keys == e0.Keys + AllIds(children[..i])
      {
        ghost var d1, e1 := doc, elm;
        NextChild(e0, elm, children, i);
        CreateElm(children[i], Some(n), None);
        AppendSlot(d1.kids[n], n, elm[children[i].id]);
        ChildBuilt(d0, e0, d1, e1, doc, elm, n, children, i);
        i := i + 1;
      }
      assert children[..|children|] == children;
    }

    method CreateKeyToOldIdx(children: seq<Option<VNode>>, beginIdx: nat, endIdx: int) returns (index: map<string, nat>)
      requires endIdx < |children|
      requires forall i :: beginIdx <= i <= endIdx ==> children[i].Some?
      ensures forall k :: k in index ==> beginIdx <= index[k] <= endIdx && children[index[k]].value.key == Some(k)
      ensures forall i :: beginIdx <= i <= endIdx && children[i].value.key.Some? ==>
        children[i].value.key.value in index && i <= index[children[i].value.key.value]
    {
      index := map[];
      var i := beginIdx;
      while i <= endIdx
        invariant beginIdx <= i && (i <= endIdx + 1 || i == beginIdx)
        invariant forall k :: k in index ==> beginIdx <= index[k] < i && index[k] <= endIdx && children[index[k]].value.key == Some(k)
        invariant forall n :: beginIdx <= n < i && n <= endIdx && children[n].value.key.Some? ==>
          children[n].value.key.value in index && n <= index[children[n].value.key.value]
      {
        var key := children[i].value.key;
        if key.Some? {
          index := index[key.value := i];
        }
        i := i + 1;
      }
    }

    // The last index of the window is not searched: the loop has just
    // compared that vnode with `node`.
    method FindIdxInOld(node: VNode, oldCh: seq<Option<VNode>>, start: nat, end: int) returns (r: Option<nat>)
      requires end <= |oldCh|
      ensures r.Some? ==> start <= r.value < end && oldCh[r.value].Some? && SameVnode(node, oldCh[r.value].value)
      ensures forall i :: start <= i < (if r.Some? then r.value else end) && oldCh[i].Some? ==> !SameVnode(node, oldCh[i].value)
    {
      var i := start;
      while i < end
        invariant start <= i
        invariant forall n :: start <= n < i && n < end && oldCh[n].Some? ==> !SameVnode(node, oldCh[n].value)
      {
        if oldCh[i].Some? && SameVnode(node, oldCh[i].value) {
          return Some(i);
        }
        i := i + 1;
      }
      return None;
    }

    // addVnodes: create vnodes[startIdx..endIdx] before refElm, left to right.
    // The ghost parameters say which diff this is part of.
    method AddVnodes(parentElm: Id, refElm: Option<Id>, vnodes: seq<VNode>, startIdx: int, endIdx: int,
                     ghost d0: Doc, ghost e0: Elms, ghost F: set<Id>, ghost g: State)
      requires Core(d0, e0, doc, elm, parentElm, F, g) && Matching(g, elm)
      requires vnodes == g.news && startIdx == g.ns && endIdx == g.ne && g.os > g.oe
      requires endIdx + 1 < |vnodes| ==> vnodes[endIdx + 1].id in elm
      requires refElm == if endIdx + 1 < |vnodes| then Some(elm[vnodes[endIdx + 1].id]) else None
      modifies this
      decreases vnodes, 0, 0
      ensures Core(d0, e0, doc, elm, parentElm, F, g.(ns := g.ne + 1)) && Matching(g.(ns := g.ne + 1), elm)
    {
      hide *;
      var i := startIdx;
      Unpack(d0, e0, doc, elm, parentElm, F, g);
      while i <= endIdx
        invariant startIdx <= i <= endIdx + 1
        invariant Core(d0, e0, doc, elm, parentElm, F, g.(ns := i)) && g.(ns := i).Shape() && Matching(g.(ns := i), elm)
        invariant endIdx + 1 < |vnodes| ==> vnodes[endIdx + 1].id in elm
        invariant refElm == if endIdx + 1 < |vnodes| then Some(elm[vnodes[endIdx + 1].id]) else None
      {
        ghost var h, d1, e1 := g.(ns := i), doc, elm;
        NewReady(d0, e0, doc, elm, parentElm, F, h, i);
        AddSlot(d0, e0, doc, elm, parentElm, F, h, refElm);
        CreateElm(vnodes[i], Some(parentElm), refElm);
        CreatedInPlace(d0, e0, d1, e1, doc, elm, parentElm, F, h, refElm);
        AddedLast(d0, e0, d1, e1, elm, parentElm, F, h);
        i := i + 1;
      }
    }

    // removeVnodes: drop what is still defined in vnodes[startIdx..endIdx].
    method RemoveVnodes(vnodes: seq<Option<VNode>>, startIdx: int, endIdx: int,
                        ghost d0: Doc, ghost e0: Elms, ghost p: Id, ghost F: set<Id>, ghost g: State)
      requires Core(d0, e0, doc, elm, p, F, g)
      requires vnodes == g.oldCh && startIdx == g.os && endIdx == g.oe
      modifies this`doc
      ensures Core(d0, e0, doc, elm, p, F, g.(os := g.oe + 1))
    {
      hide *;
      var i := startIdx;
      Unpack(d0, e0, doc, elm, p, F, g);
      while i <= endIdx
        invariant startIdx <= i <= endIdx + 1
        invariant Core(d0, e0, doc, elm, p, F, g.(os := i))
      {
        ghost var h := g.(os := i);
        if vnodes[i].Some? {
          StepRemoved(d0, e0, doc, elm, p, F, h);
          doc := doc.Detach(elm[vnodes[i].value.id]);
        } else {
          StepSkipStart(d0, e0, doc, elm, p, F, h);
        }
        i := i + 1;
      }
    }

    // The branches of the diff loop, one method each: start against start,
    method PatchStart(oldStartVnode: VNode, newStartVnode: VNode,
                      ghost d0: Doc, ghost e0: Elms, p: Id, ghost F: set<Id>, ghost g: State, ghost index: Option<map<string, nat>>)
      requires Loop(d0, e0, doc, elm, p, F, g, index) && g.ns <= g.ne
      requires g.os <= g.oe && g.oldCh[g.os] == Some(oldStartVnode) && newStartVnode == g.news[g.ns]
      requires SameVnode(oldStartVnode, newStartVnode)
      modifies this
      decreases g.news, 0, 0
      ensures Loop(d0, e0, doc, elm, p, F, g.(os := g.os + 1, ns := g.ns + 1), index)
    {
      hide *;
      ghost var d1, e1 := doc, elm;
      LoopParts(d0, e0, doc, elm, p, F, g, index);
      ghost var g' := g.(os := g.os + 1, ns := g.ns + 1);
      Ready(d0, e0, doc, elm, p, F, g, g.os, g.ns);
      PatchVnode(oldStartVnode, newStartVnode);
      StepStartStart(d0, e0, d1, e1, doc, elm, p, F, g);
      PairDone(g, g', g.os, g.ns, d1, e1, doc, elm);
      LoopNext(d0, e0, d1, e1, doc, elm, p, F, g, g', index);
    }

    // end against end,
    method PatchEnd(oldEndVnode: VNode, newEndVnode: VNode,
                    ghost d0: Doc, ghost e0: Elms, p: Id, ghost F: set<Id>, ghost g: State, ghost index: Option<map<string, nat>>)
      requires Loop(d0, e0, doc, elm, p, F, g, index) && g.ns <= g.ne
      requires g.os <= g.oe && g.oldCh[g.oe] == Some(oldEndVnode) && newEndVnode == g.news[g.ne]
      requires SameVnode(oldEndVnode, newEndVnode)
      modifies this
      decreases g.news, 0, 0
      ensures Loop(d0, e0, doc, elm, p, F, g.(oe := g.oe - 1, ne := g.ne - 1), index)
    {
      hide *;
      ghost var d1, e1 := doc, elm;
      LoopParts(d0, e0, doc, elm, p, F, g, index);
      ghost var g' := g.(oe := g.oe - 1, ne := g.ne - 1);
      Ready(d0, e0, doc, elm, p, F, g, g.oe, g.ne);
      PatchVnode(oldEndVnode, newEndVnode);
      StepEndEnd(d0, e0, d1, e1, doc, elm, p, F, g);
      PairDone(g, g', g.oe, g.ne, d1, e1, doc, elm);
      LoopNext(d0, e0, d1, e1, doc, elm, p, F, g, g', index);
    }

    // start against end,
    method PatchMovedRight(oldStartVnode: VNode, oldEndVnode: VNode, newEndVnode: VNode,
                           ghost d0: Doc, ghost e0: Elms, p: Id, ghost F: set<Id>, ghost g: State, ghost index: Option<map<string, nat>>)
      requires Loop(d0, e0, doc, elm, p, F, g, index) && g.ns <= g.ne
      requires g.os <= g.oe && g.oldCh[g.os] == Some(oldStartVnode) && g.oldCh[g.oe] == Some(oldEndVnode)
      requires newEndVnode == g.news[g.ne] && SameVnode(oldStartVnode, newEndVnode)
      modifies this
      decreases g.news, 0, 0
      ensures Loop(d0, e0, doc, elm, p, F, g.(os := g.os + 1, ne := g.ne - 1), index)
    {
      hide *;
      ghost var d1, e1 := doc, elm;
      LoopParts(d0, e0, doc, elm, p, F, g, index);
      ghost var g' := g.(os := g.os + 1, ne := g.ne - 1);
      Ready(d0, e0, doc, elm, p, F, g, g.os, g.ne);
      PatchVnode(oldStartVnode, newEndVnode);
      StepStartEnd(d0, e0, d1, e1, doc, elm, p, F, g);
      PairDone(g, g', g.os, g.ne, d1, e1, doc, elm);
      doc := doc.InsertBefore(p, elm[oldStartVnode.id], doc.NextSibling(elm[oldEndVnode.id]));
      LoopNext(d0, e0, d1, e1, doc, elm, p, F, g, g', index);
    }

    // end against start,
    method PatchMovedLeft(oldStartVnode: VNode, oldEndVnode: VNode, newStartVnode: VNode,
                          ghost d0: Doc, ghost e0: Elms, p: Id, ghost F: set<Id>, ghost g: State, ghost index: Option<map<string, nat>>)
      requires Loop(d0, e0, doc, elm, p, F, g, index) && g.ns <= g.ne
      requires g.os < g.oe && g.oldCh[g.os] == Some(oldStartVnode) && g.oldCh[g.oe] == Some(oldEndVnode)
      requires newStartVnode == g.news[g.ns] && SameVnode(oldEndVnode, newStartVnode)
      modifies this
      decreases g.news, 0, 0
      ensures Loop(d0, e0, doc, elm, p, F, g.(oe := g.oe - 1, ns := g.ns + 1), index)
    {
      hide *;
      ghost var d1, e1 := doc, elm;
      LoopParts(d0, e0, doc, elm, p, F, g, index);
      ghost var g' := g.(oe := g.oe - 1, ns := g.ns + 1);
      Ready(d0, e0, doc, elm, p, F, g, g.oe, g.ns);
      PatchVnode(oldEndVnode, newStartVnode);
      StepEndStart(d0, e0, d1, e1, doc, elm, p, F, g);
      PairDone(g, g', g.oe, g.ns, d1, e1, doc, elm);
      doc := doc.InsertBefore(p, elm[oldEndVnode.id], Some(elm[oldStartVnode.id]));
      LoopNext(d0, e0, d1, e1, doc, elm, p, F, g, g', index);
    }

    // an old vnode found by key or by search,
    method PatchFound(oldStartVnode: VNode, vnodeToMove: VNode, idxInOld: nat, newStartVnode: VNode,
                      ghost d0: Doc, ghost e0: Elms, p: Id, ghost F: set<Id>, ghost g: State, ghost index: Option<map<string, nat>>)
      requires Loop(d0, e0, doc, elm, p, F, g, index) && g.ns <= g.ne
      requires g.os < idxInOld < g.oe && g.oldCh[g.os] == Some(oldStartVnode) && g.oldCh[idxInOld] == Some(vnodeToMove)
      requires newStartVnode == g.news[g.ns] && SameVnode(vnodeToMove, newStartVnode) && index.Some?
      modifies this
      decreases g.news, 0, 0
      ensures Loop(d0, e0, doc, elm, p, F, g.(oldCh := g.oldCh[idxInOld := None], ns := g.ns + 1), index)
    {
      hide *;
      ghost var d1, e1 := doc, elm;
      LoopParts(d0, e0, doc, elm, p, F, g, index);
      ghost var g' := g.(oldCh := g.oldCh[idxInOld := None], ns := g.ns + 1);
      Ready(d0, e0, doc, elm, p, F, g, idxInOld, g.ns);
      PatchVnode(vnodeToMove, newStartVnode);
      StepMoved(d0, e0, d1, e1, doc, elm, p, F, g, idxInOld);
      PairDone(g, g', idxInOld, g.ns, d1, e1, doc, elm);
      doc := doc.InsertBefore(p, elm[vnodeToMove.id], Some(elm[oldStartVnode.id]));
      LoopNext(d0, e0, d1, e1, doc, elm, p, F, g, g', index);
    }

    // and a new element, or one with the key of a different element.
    method CreateStart(oldStartVnode: VNode, newStartVnode: VNode,
                       ghost d0: Doc, ghost e0: Elms, p: Id, ghost F: set<Id>, ghost g: State, ghost index: Option<map<string, nat>>)
      requires Loop(d0, e0, doc, elm, p, F, g, index) && g.ns <= g.ne
      requires g.os <= g.oe && g.oldCh[g.os] == Some(oldStartVnode) && newStartVnode == g.news[g.ns]
      requires index.Some? && g.Shape() && Missing(g, index.value)
      modifies this
      decreases g.news, 0, 0
      ensures Loop(d0, e0, doc, elm, p, F, g.(ns := g.ns + 1), index)
    {
      hide *;
      ghost var d1, e1 := doc, elm;
      LoopParts(d0, e0, doc, elm, p, F, g, index);
      NewReady(d0, e0, doc, elm, p, F, g, g.ns);
      StartSlot(d0, e0, doc, elm, p, F, g);
      CreateElm(newStartVnode, Some(p), Some(elm[oldStartVnode.id]));
      CreatedInPlace(d0, e0, d1, e1, doc, elm, p, F, g, Some(e1[oldStartVnode.id]));
      CreatedNew(d0, e0, d1, e1, elm, p, F, g, index.value);
      LoopNext(d0, e0, d1, e1, doc, elm, p, F, g, g.(ns := g.ns + 1), index);
    }

    // The last branch of the loop: look the new vnode up among the old ones.
    method PlaceByKey(keyToIdx: Option<map<string, nat>>, oldCh: seq<Option<VNode>>, oldStartIdx: nat, oldEndIdx: nat,
                      oldStartVnode: VNode, oldEndVnode: VNode, newStartVnode: VNode,
                      ghost d0: Doc, ghost e0: Elms, p: Id, ghost F: set<Id>, ghost g: State)
      returns (oldKeyToIdx: Option<map<string, nat>>, oldCh': seq<Option<VNode>>)
      requires Loop(d0, e0, doc, elm, p, F, g, keyToIdx) && g.ns <= g.ne && g.os <= g.oe
      requires oldCh == g.oldCh && oldStartIdx == g.os && oldEndIdx == g.oe < |oldCh|
      requires oldCh[g.os] == Some(oldStartVnode) && oldCh[g.oe] == Some(oldEndVnode) && newStartVnode == g.news[g.ns]
      requires !SameVnode(oldStartVnode, newStartVnode) && !SameVnode(oldEndVnode, newStartVnode)
      modifies this
      decreases g.news, 0, 1
      ensures Loop(d0, e0, doc, elm, p, F, g.(oldCh := oldCh', ns := g.ns + 1), oldKeyToIdx)
      ensures |oldCh'| == |oldCh| && oldCh'[g.os] == oldCh[g.os] && oldCh'[g.oe] == oldCh[g.oe]
    {
      hide *;
      oldCh' := oldCh;
      oldKeyToIdx := keyToIdx;
      if oldKeyToIdx.None? {
        LoopDefined(d0, e0, doc, elm, p, F, g);
        var index := CreateKeyToOldIdx(oldCh, oldStartIdx, oldEndIdx);
        LoopIndexed(d0, e0, doc, elm, p, F, g, index);
        oldKeyToIdx := Some(index);
      }
      LoopParts(d0, e0, doc, elm, p, F, g, oldKeyToIdx);
      var index := oldKeyToIdx.value;
      var idxInOld: Option<nat>;
      if newStartVnode.key.Some? {
        idxInOld := if newStartVnode.key.value in index then Some(index[newStartVnode.key.value]) else None;
        if idxInOld.Some? {
          FoundIn(d0, e0, doc, elm, p, F, g, index);
        }
      } else {
        idxInOld := FindIdxInOld(newStartVnode, oldCh, oldStartIdx, oldEndIdx);
        if idxInOld.Some? {
          SameVnodeSymmetric(newStartVnode, oldCh[idxInOld.value].value);
        }
      }
      if idxInOld.Some? && SameVnode(oldCh[idxInOld.value].value, newStartVnode) {
        PatchFound(oldStartVnode, oldCh[idxInOld.value].value, idxInOld.value, newStartVnode, d0, e0, p, F, g, oldKeyToIdx);
        oldCh' := oldCh[idxInOld.value := None];
      } else {
        MissingIn(g, index);
        CreateStart(oldStartVnode, newStartVnode, d0, e0, p, F, g, oldKeyToIdx);
      }
    }

    // After the loop: create what is left of the new list, or remove what is
    // left of the old one.
    method FinishChildren(newCh: seq<VNode>, oldCh: seq<Option<VNode>>, oldStartIdx: int, oldEndIdx: int, newStartIdx: int, newEndIdx: int,
                          ghost d0: Doc, ghost e0: Elms, parentElm: Id, ghost g: State, ghost index: Option<map<string, nat>>)
      requires Loop(d0, e0, doc, elm, parentElm, {parentElm} + AllFoot(e0, g.olds), g, index)
      requires g == State(g.olds, newCh, oldCh, oldStartIdx, oldEndIdx, newStartIdx, newEndIdx, g.base)
      requires oldStartIdx > oldEndIdx || newStartIdx > newEndIdx
      modifies this
      decreases g.news, 0, 1
      ensures Refreshed(d0, e0, doc, elm, parentElm, g.olds, newCh)
    {
      hide *;
      ghost var F := {parentElm} + AllFoot(e0, g.olds);
      LoopParts(d0, e0, doc, elm, parentElm, F, g, index);
      ghost var h := g;
      if oldStartIdx > oldEndIdx {
        BackElm(d0, e0, doc, elm, parentElm, F, g);
        var refElm := if newEndIdx + 1 < |newCh| then Some(elm[newCh[newEndIdx + 1].id]) else None;
        AddVnodes(parentElm, refElm, newCh, newStartIdx, newEndIdx, d0, e0, F, g);
        h := g.(ns := g.ne + 1);
        Unpack(d0, e0, doc, elm, parentElm, F, h);
      } else if newStartIdx > newEndIdx {
        RemoveVnodes(oldCh, oldStartIdx, oldEndIdx, d0, e0, parentElm, F, g);
      }
      MatchedKept(h, h.(os := h.oe + 1), elm);
      Finished(d0, e0, doc, elm, parentElm, h.(os := h.oe + 1));
    }

    method UpdateChildren(parentElm: Id, olds: seq<VNode>, newCh: seq<VNode>)
      requires Begun(doc, elm, parentElm, olds) && AllWellFormed(newCh) && Unused(elm, AllIds(newCh))
      modifies this
      decreases newCh, 1
      ensures Refreshed(old(doc), old(elm), doc, elm, parentElm, olds, newCh)
    {
      hide *;
      ghost var d0, e0, F := doc, elm, {parentElm} + AllFoot(elm, olds);
      var oldCh: seq<Option<VNode>> := seq(|olds|, i requires 0 <= i < |olds| => Some(olds[i]));
      var oldStartIdx, newStartIdx := 0, 0;
      var oldEndIdx := |oldCh| - 1;
      var oldStartVnode, oldEndVnode := At(oldCh, 0), At(oldCh, oldEndIdx);
      var newEndIdx := |newCh| - 1;
      var oldKeyToIdx: Option<map<string, nat>> := None;
      ghost var g := State(olds, newCh, oldCh, oldStartIdx, oldEndIdx, newStartIdx, newEndIdx, d0.next);
      Start(doc, elm, parentElm, olds, newCh, oldCh);

      while oldStartIdx <= oldEndIdx && newStartIdx <= newEndIdx
        invariant g == State(olds, newCh, oldCh, oldStartIdx, oldEndIdx, newStartIdx, newEndIdx, d0.next)
        invariant Loop(d0, e0, doc, elm, parentElm, F, g, oldKeyToIdx)
        invariant oldStartVnode == At(oldCh, oldStartIdx) && oldEndVnode == At(oldCh, oldEndIdx)
        decreases oldEndIdx - oldStartIdx + newEndIdx - newStartIdx
      {
        LoopParts(d0, e0, doc, elm, parentElm, F, g, oldKeyToIdx);
        Defined(g);
        if oldStartVnode.None? { // vnode has been moved left
          SkipStart(d0, e0, doc, elm, parentElm, F, g, oldKeyToIdx);
          oldStartIdx := oldStartIdx + 1;
          oldStartVnode := At(oldCh, oldStartIdx);
          g := g.(os := g.os + 1);
        } else if oldEndVnode.None? {
          SkipEnd(d0, e0, doc, elm, parentElm, F, g, oldKeyToIdx);
          oldEndIdx := oldEndIdx - 1;
          oldEndVnode := At(oldCh, oldEndIdx);
          g := g.(oe := g.oe - 1);
        } else if SameVnode(oldStartVnode.value, newCh[newStartIdx]) {
          PatchStart(oldStartVnode.value, newCh[newStartIdx], d0, e0, parentElm, F, g, oldKeyToIdx);
          oldStartIdx, newStartIdx := oldStartIdx + 1, newStartIdx + 1;
          oldStartVnode := At(oldCh, oldStartIdx);
          g := g.(os := g.os + 1, ns := g.ns + 1);
        } else if SameVnode(oldEndVnode.value, newCh[newEndIdx]) {
          PatchEnd(oldEndVnode.value, newCh[newEndIdx], d0, e0, parentElm, F, g, oldKeyToIdx);
          oldEndIdx, newEndIdx := oldEndIdx - 1, newEndIdx - 1;
          oldEndVnode := At(oldCh, oldEndIdx);
          g := g.(oe := g.oe - 1, ne := g.ne - 1);
        } else if SameVnode(oldStartVnode.value, newCh[newEndIdx]) {
          PatchMovedRight(oldStartVnode.value, oldEndVnode.value, newCh[newEndIdx], d0, e0, parentElm, F, g, oldKeyToIdx);
          oldStartIdx, newEndIdx := oldStartIdx + 1, newEndIdx - 1;
          oldStartVnode := At(oldCh, oldStartIdx);
          g := g.(os := g.os + 1, ne := g.ne - 1);
        } else if SameVnode(oldEndVnode.value, newCh[newStartIdx]) {
          PatchMovedLeft(oldStartVnode.value, oldEndVnode.value, newCh[newStartIdx], d0, e0, parentElm, F, g, oldKeyToIdx);
          oldEndIdx, newStartIdx := oldEndIdx - 1, newStartIdx + 1;
          oldEndVnode := At(oldCh, oldEndIdx);
          g := g.(oe := g.oe - 1, ns := g.ns + 1);
        } else {
          ghost var was := oldCh;
          oldKeyToIdx, oldCh := PlaceByKey(oldKeyToIdx, oldCh, oldStartIdx, oldEndIdx, oldStartVnode.value, oldEndVnode.value, newCh[newStartIdx],
                                           d0, e0, parentElm, F, g);
          AtSame(was, oldCh, oldStartIdx);
          AtSame(was, oldCh, oldEndIdx);
          newStartIdx := newStartIdx + 1;
          g := State(olds, newCh, oldCh, oldStartIdx, oldEndIdx, newStartIdx, newEndIdx, d0.next);
        }
      }
      FinishChildren(newCh, oldCh, oldStartIdx, oldEndIdx, newStartIdx, newEndIdx, d0, e0, parentElm, g, oldKeyToIdx);
    }

    method PatchVnode(oldVnode: VNode, vnode: VNode)
      requires doc.Valid() && Rendered(doc, elm, oldVnode) && SameVnode(oldVnode, vnode)
      requires vnode == oldVnode || (WellFormed(vnode) && Unused(elm, Ids(vnode)))
      modifies this
      decreases vnode, 2
      ensures PatchedTo(old(doc), old(elm), doc, elm, oldVnode, vnode)
    {
      ghost var d0, e0 := doc, elm;
      hide *;
      if oldVnode == vnode {
        Unchanged(doc, elm, vnode);
        return;
      }
      HandOver(doc, elm, oldVnode, vnode);
      SameShape(oldVnode, vnode);
      var n := elm[oldVnode.id];
      if vnode.Elem? { // vnode.text is undefined
        ElemBegun(doc, elm, oldVnode, vnode);
        elm := elm[vnode.id := n];
        PatchElem(n, oldVnode, vnode);
        ElemPatched(d0, e0, doc, elm, oldVnode, vnode);
      } else {
        LeafPatched(doc, elm, oldVnode, vnode);
        elm := elm[vnode.id := n];
        if oldVnode.text != vnode.text {
          doc := doc.SetData(n, vnode.text);
        }
      }
    }

    // The children of a patched element.
    method PatchElem(n: Id, oldVnode: VNode, vnode: VNode)
      requires oldVnode.Elem? && vnode.Elem? && Begun(doc, elm, n, Kids(oldVnode))
      requires AllWellFormed(Kids(vnode)) && Unused(elm, AllIds(Kids(vnode)))
      modifies this
      decreases vnode, 1
      ensures Refreshed(old(doc), old(elm), doc, elm, n, Kids(oldVnode), Kids(vnode))
    {
      hide *;
      ghost var d0, e0, F := doc, elm, {n} + AllFoot(elm, Kids(oldVnode));
      KidsOf(oldVnode);
      KidsOf(vnode);
      if oldVnode.children.Children? && vnode.children.Children? {
        UpdateChildren(n, oldVnode.children.list, vnode.children.list);
      } else if vnode.children.Children? {
        var ch := vnode.children.list;
        ghost var g := State([], ch, [], 0, -1, 0, |ch| - 1, d0.next);
        Start(doc, elm, n, [], ch, []);
        LoopParts(d0, e0, doc, elm, n, F, g, None);
        AddVnodes(n, None, ch, 0, |ch| - 1, d0, e0, F, g);
        g := g.(ns := g.ne + 1);
        Unpack(d0, e0, doc, elm, n, F, g);
        MatchedKept(g, g, elm);
        Finished(d0, e0, doc, elm, n, g);
      } else if oldVnode.children.Children? {
        var oldCh := oldVnode.children.list;
        var slots: seq<Option<VNode>> := seq(|oldCh|, i requires 0 <= i < |oldCh| => Some(oldCh[i]));
        ghost var g := State(oldCh, [], slots, 0, |oldCh| - 1, 0, -1, d0.next);
        Start(doc, elm, n, oldCh, [], slots);
        LoopParts(d0, e0, doc, elm, n, F, g, None);
        RemoveVnodes(slots, 0, |slots| - 1, d0, e0, n, F, g);
        MatchedKept(g, g.(os := g.oe + 1), elm);
        Finished(d0, e0, doc, elm, n, g.(os := g.oe + 1));
      } else {
        Start(doc, elm, n, [], [], []);
        NothingLeft(doc, elm, n);
      }
    }

    // Build the new tree in front of the node behind n, then take n out.
    method ReplaceNode(n: Id, vnode: VNode, ghost F: set<Id>)
      requires doc.Valid() && WellFormed(vnode) && Unused(elm, Ids(vnode)) && n in doc.kind
      modifies this
      ensures doc.Valid() && Rendered(doc, elm, vnode)
      ensures InPlaceOf(old(doc), old(elm), doc, elm, n, F, vnode)
      ensures vnode.id in elm && elm[vnode.id] >= old(doc).next && n !in doc.parent
    {
      hide *;
      ghost var d0, e0 := doc, elm;
      RootReady(doc, n);
      var parentElm := if n in doc.parent then Some(doc.parent[n]) else None;
      CreateElm(vnode, parentElm, doc.NextSibling(n));
      ghost var d1 := doc;
      if parentElm.Some? {
        doc := doc.Detach(n);
      }
      Replaced(d0, e0, d1, elm, n, F, vnode);
      NewRoot(d0, e0, d1, elm, n, vnode);
    }

    // The function `patch` returns: patch in place, or build anew and swap the
    // roots; mounting on an element swaps it for the new tree. Without a new
    // vnode the old one is only destroyed, which does not touch the document.
    method Patch(oldVnode: Former, vnode: Option<VNode>)
      requires doc.Valid() && (vnode.Some? ==> WellFormed(vnode.value) && Unused(elm, Ids(vnode.value)))
      requires oldVnode.Vnode? ==> Rendered(doc, elm, oldVnode.v)
      requires oldVnode.RealElement? ==> oldVnode.n in doc.kind
      modifies this
      ensures vnode.None? ==> doc == old(doc) && elm == old(elm)
      ensures vnode.Some? ==>
                && doc.Valid() && Rendered(doc, elm, vnode.value)
                && vnode.value.id in elm && Shows(doc, elm[vnode.value.id], Html(vnode.value))
                && match oldVnode
                   case Nothing => Edits(old(doc), old(elm), doc, elm, {}) && elm[vnode.value.id] !in doc.parent
                   case Vnode(v) =>
                     && Swapped(old(doc), old(elm), doc, elm, v, vnode.value) && v.id in old(elm)
                     && if Patchable(v, vnode.value)
                        then elm[vnode.value.id] == old(elm)[v.id] && TookOver(elm, v, vnode.value)
                        else elm[vnode.value.id] >= old(doc).next && old(elm)[v.id] !in doc.parent
                   case RealElement(n) =>
                     && InPlaceOf(old(doc), old(elm), doc, elm, n, {}, vnode.value)
                     && elm[vnode.value.id] >= old(doc).next && n !in doc.parent
    {
      if vnode.None? {
        return;
      }
      hide *;
      ghost var d0, e0 := doc, elm;
      var new_ := vnode.value;
      match oldVnode {
        case Nothing =>
          CreateElm(new_, None, None);
          BuiltParts(d0, e0, doc, elm, new_);
        case Vnode(v) =>
          RootKnown(doc, elm, v);
          SameVnodeExactly(v, new_);
          if SameVnode(v, new_) {
            PatchVnode(v, new_);
            PatchedSwap(d0, e0, doc, elm, v, new_);
            PatchedRoot(d0, e0, doc, elm, v, new_);
          } else {
            ReplaceNode(elm[v.id], new_, Foot(elm, v));
            IsSwapped(d0, e0, doc, elm, v, new_);
          }
        case RealElement(n) =>
          ReplaceNode(n, new_, {});
      }
      RenderedShows(doc, elm, new_);
    }
  }
}
