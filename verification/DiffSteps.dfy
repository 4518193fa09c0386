// One lemma per branch of the diff loop: the branch turns one consistent
// state of document, elements and windows into the next.
module DiffSteps {
  import opened Sequences
  import opened Dom
  import opened VNodes
  import opened Diff
  import opened Windows

  ghost predicate Core(d0: Doc, e0: Elms, d: Doc, e: Elms, p: Id, F: set<Id>, g: State) {
    && g.Shape() && g.base == d0.next
    && AllWellFormed(g.news) && Unused(e0, AllIds(g.news))
    && Showing(d0, e0, d, e, p, F, g.Cur())
    && e.Keys == e0.Keys + AllIds(g.news[..g.ns]) + AllIds(g.news[g.ne + 1..])
  }

  lemma Unpack(d0: Doc, e0: Elms, d: Doc, e: Elms, p: Id, F: set<Id>, g: State)
    requires Core(d0, e0, d, e, p, F, g)
    ensures g.Shape() && Showing(d0, e0, d, e, p, F, g.Cur())
    ensures |g.oldCh| == |g.olds| && 0 <= g.os <= g.oe + 1 <= |g.olds| && 0 <= g.ns <= g.ne + 1 <= |g.news|
    ensures e.Keys == e0.Keys + AllIds(g.news[..g.ns]) + AllIds(g.news[g.ne + 1..])
  {
    hide Showing, AllWellFormed, Unused, State.Cur;
  }

  lemma Pack(d0: Doc, e0: Elms, d1: Doc, e1: Elms, d: Doc, e: Elms, p: Id, F: set<Id>, g0: State, g: State)
    requires Core(d0, e0, d1, e1, p, F, g0)
    requires g.Shape() && g.news == g0.news && g.base == g0.base && Showing(d0, e0, d, e, p, F, g.Cur())
    requires e.Keys == e0.Keys + AllIds(g.news[..g.ns]) + AllIds(g.news[g.ne + 1..])
    ensures Core(d0, e0, d, e, p, F, g)
  {
    hide Showing, AllWellFormed, Unused, State.Cur;
  }

  lemma PatchedKeys(d0: Doc, e0: Elms, d1: Doc, e1: Elms, old_: VNode, v: VNode)
    requires PatchedTo(d0, e0, d1, e1, old_, v)
    ensures e1.Keys == e0.Keys + Ids(v) && forall x :: x in e0 ==> x in e1 && e1[x] == e0[x]
  {
  }

  // A live old vnode and an unprocessed new one can be given to patchVnode.
  lemma NewReady(d0: Doc, e0: Elms, d: Doc, e: Elms, p: Id, F: set<Id>, g: State, j: nat)
    requires Core(d0, e0, d, e, p, F, g) && g.ns <= j <= g.ne
    ensures j < |g.news| && d.Valid() && WellFormed(g.news[j]) && Unused(e, Ids(g.news[j]))
  {
    hide Showing, Edits;
    assert d.Valid() by { ShowAt(d0, e0, d, e, p, F, g.Cur()); }
    hide State.Cur;
    var v := g.news[j];
    forall x | x in AllIds(g.news[..g.ns]) ensures x !in Ids(v) {
      var i :| 0 <= i < |g.news[..g.ns]| && x in Ids(g.news[..g.ns][i]);
      assert Ids(g.news[i]) !! Ids(v);
    }
    forall x | x in AllIds(g.news[g.ne + 1..]) ensures x !in Ids(v) {
      var i :| 0 <= i < |g.news[g.ne + 1..]| && x in Ids(g.news[g.ne + 1..][i]);
      assert Ids(g.news[g.ne + 1 + i]) !! Ids(v);
    }
    assert forall x :: x in Ids(v) ==> x in AllIds(g.news);
  }

  lemma KeysFront(e0: Elms, e1: Elms, e2: Elms, g: State)
    requires g.Shape() && g.ns <= g.ne
    requires e1.Keys == e0.Keys + AllIds(g.news[..g.ns]) + AllIds(g.news[g.ne + 1..])
    requires e2.Keys == e1.Keys + Ids(g.news[g.ns])
    ensures e2.Keys == e0.Keys + AllIds(g.news[..g.ns + 1]) + AllIds(g.news[g.ne + 1..])
  {
    AllIdsSnoc(g.news, g.ns);
  }

  lemma KeysBack(e0: Elms, e1: Elms, e2: Elms, g: State)
    requires g.Shape() && g.ns <= g.ne
    requires e1.Keys == e0.Keys + AllIds(g.news[..g.ns]) + AllIds(g.news[g.ne + 1..])
    requires e2.Keys == e1.Keys + Ids(g.news[g.ne])
    ensures e2.Keys == e0.Keys + AllIds(g.news[..g.ns]) + AllIds(g.news[g.ne..])
  {
    AllIdsCons(g.news, g.ne);
  }

  // A skipped slot of the old array.
  lemma StepSkipStart(d0: Doc, e0: Elms, d: Doc, e: Elms, p: Id, F: set<Id>, g: State)
    requires Core(d0, e0, d, e, p, F, g) && g.os <= g.oe && g.oldCh[g.os].None?
    ensures Core(d0, e0, d, e, p, F, g.(os := g.os + 1))
  {
    CurDropFirst(g);
    hide Showing, AllWellFormed, Unused, State.Cur;
  }

  lemma StepSkipEnd(d0: Doc, e0: Elms, d: Doc, e: Elms, p: Id, F: set<Id>, g: State)
    requires Core(d0, e0, d, e, p, F, g) && g.os <= g.oe && g.oldCh[g.oe].None?
    ensures Core(d0, e0, d, e, p, F, g.(oe := g.oe - 1))
  {
    hide *;
    Unpack(d0, e0, d, e, p, F, g);
    CurDropLast(g);
    Pack(d0, e0, d, e, d, e, p, F, g, g.(oe := g.oe - 1));
  }

  lemma StepStartStart(d0: Doc, e0: Elms, d1: Doc, e1: Elms, d2: Doc, e2: Elms, p: Id, F: set<Id>, g: State)
    requires Core(d0, e0, d1, e1, p, F, g) && g.os <= g.oe && g.ns <= g.ne && g.oldCh[g.os].Some?
    requires PatchedTo(d1, e1, d2, e2, g.oldCh[g.os].value, g.news[g.ns])
    ensures Core(d0, e0, d2, e2, p, F, g.(os := g.os + 1, ns := g.ns + 1))
  {
    hide *;
    Unpack(d0, e0, d1, e1, p, F, g);
    CurStartStart(g);
    PatchedKeys(d1, e1, d2, e2, g.oldCh[g.os].value, g.news[g.ns]);
    KeysFront(e0, e1, e2, g);
    ShowPatched(d0, e0, d1, e1, d2, e2, p, F, g.Cur(), g.ns, g.news[g.ns]);
    Pack(d0, e0, d1, e1, d2, e2, p, F, g, g.(os := g.os + 1, ns := g.ns + 1));
  }

  lemma StepEndEnd(d0: Doc, e0: Elms, d1: Doc, e1: Elms, d2: Doc, e2: Elms, p: Id, F: set<Id>, g: State)
    requires Core(d0, e0, d1, e1, p, F, g) && g.os <= g.oe && g.ns <= g.ne && g.oldCh[g.oe].Some?
    requires PatchedTo(d1, e1, d2, e2, g.oldCh[g.oe].value, g.news[g.ne])
    ensures Core(d0, e0, d2, e2, p, F, g.(oe := g.oe - 1, ne := g.ne - 1))
  {
    hide *;
    Unpack(d0, e0, d1, e1, p, F, g);
    CurEndEnd(g);
    PatchedKeys(d1, e1, d2, e2, g.oldCh[g.oe].value, g.news[g.ne]);
    KeysBack(e0, e1, e2, g);
    ShowPatched(d0, e0, d1, e1, d2, e2, p, F, g.Cur(), EndAt(g), g.news[g.ne]);
    Pack(d0, e0, d1, e1, d2, e2, p, F, g, g.(oe := g.oe - 1, ne := g.ne - 1));
  }

  // The element of the vnode at position i is also that of whatever vnode
  // patched it.
  lemma ElmAt(d0: Doc, e0: Elms, d1: Doc, e1: Elms, d2: Doc, e2: Elms, p: Id, F: set<Id>, cur: seq<VNode>, next: seq<VNode>, i: nat)
    requires Showing(d0, e0, d1, e1, p, F, cur) && Showing(d0, e0, d2, e2, p, F, next) && |next| == |cur| && i < |cur|
    requires p in d1.kids && p in d2.kids && d2.kids[p] == d1.kids[p]
    requires cur[i].id in e2 && cur[i].id in e1 && e2[cur[i].id] == e1[cur[i].id]
    ensures next[i].id in e2 && e2[next[i].id] == e2[cur[i].id]
  {
    hide *;
    ShowAt(d0, e0, d1, e1, p, F, cur);
    ShowAt(d0, e0, d2, e2, p, F, next);
  }

  lemma StepStartEnd(d0: Doc, e0: Elms, d1: Doc, e1: Elms, d2: Doc, e2: Elms, p: Id, F: set<Id>, g: State)
    requires Core(d0, e0, d1, e1, p, F, g) && g.os <= g.oe && g.ns <= g.ne && g.oldCh[g.os].Some? && g.oldCh[g.oe].Some?
    requires PatchedTo(d1, e1, d2, e2, g.oldCh[g.os].value, g.news[g.ne])
    ensures var s, t := g.oldCh[g.os].value.id, g.oldCh[g.oe].value.id;
      && s in e2 && t in e2 && d2.Valid() && p in d2.kids && e2[s] in d2.kind
      && var ref := d2.NextSibling(e2[t]);
      && (ref.Some? ==> ref.value in d2.kids[p])
      && Core(d0, e0, d2.InsertBefore(p, e2[s], ref), e2, p, F, g.(os := g.os + 1, ne := g.ne - 1))
  {
    hide *;
    Unpack(d0, e0, d1, e1, p, F, g);
    PatchedKeys(d1, e1, d2, e2, g.oldCh[g.os].value, g.news[g.ne]);
    CurStartEnd(g);
    CurEndEnd(g);
    var cur := g.Cur();
    var mid := cur[g.ns := g.news[g.ne]];
    KeysBack(e0, e1, e2, g);
    ShowPatched(d0, e0, d1, e1, d2, e2, p, F, cur, g.ns, g.news[g.ne]);
    ShowAt(d0, e0, d1, e1, p, F, cur);
    ShowAt(d0, e0, d2, e2, p, F, mid);
    ElmAt(d0, e0, d1, e1, d2, e2, p, F, cur, mid, EndAt(g));
    ElmAt(d0, e0, d1, e1, d2, e2, p, F, cur, mid, g.ns);
    ShowMovedRight(d0, e0, d2, e2, p, F, mid, g.ns, EndAt(g));
    var s, t := g.oldCh[g.os].value.id, g.oldCh[g.oe].value.id;
    var d3 := d2.InsertBefore(p, e2[s], d2.NextSibling(e2[t]));
    Pack(d0, e0, d1, e1, d3, e2, p, F, g, g.(os := g.os + 1, ne := g.ne - 1));
  }

  lemma StepEndStart(d0: Doc, e0: Elms, d1: Doc, e1: Elms, d2: Doc, e2: Elms, p: Id, F: set<Id>, g: State)
    requires Core(d0, e0, d1, e1, p, F, g) && g.os < g.oe && g.ns <= g.ne && g.oldCh[g.os].Some? && g.oldCh[g.oe].Some?
    requires PatchedTo(d1, e1, d2, e2, g.oldCh[g.oe].value, g.news[g.ns])
    ensures var s, t := g.oldCh[g.os].value.id, g.oldCh[g.oe].value.id;
      && s in e2 && t in e2 && d2.Valid() && p in d2.kids && e2[t] in d2.kind && e2[s] in d2.kids[p]
      && Core(d0, e0, d2.InsertBefore(p, e2[t], Some(e2[s])), e2, p, F, g.(oe := g.oe - 1, ns := g.ns + 1))
  {
    hide *;
    Unpack(d0, e0, d1, e1, p, F, g);
    PatchedKeys(d1, e1, d2, e2, g.oldCh[g.oe].value, g.news[g.ns]);
    CurEndStart(g);
    CurStartStart(g);
    var cur := g.Cur();
    var mid := cur[EndAt(g) := g.news[g.ns]];
    KeysFront(e0, e1, e2, g);
    ShowPatched(d0, e0, d1, e1, d2, e2, p, F, cur, EndAt(g), g.news[g.ns]);
    ShowAt(d0, e0, d1, e1, p, F, cur);
    ShowAt(d0, e0, d2, e2, p, F, mid);
    ElmAt(d0, e0, d1, e1, d2, e2, p, F, cur, mid, EndAt(g));
    ElmAt(d0, e0, d1, e1, d2, e2, p, F, cur, mid, g.ns);
    ShowMovedLeft(d0, e0, d2, e2, p, F, mid, g.ns, EndAt(g));
    var s, t := g.oldCh[g.os].value.id, g.oldCh[g.oe].value.id;
    var d3 := d2.InsertBefore(p, e2[t], Some(e2[s]));
    Pack(d0, e0, d1, e1, d3, e2, p, F, g, g.(oe := g.oe - 1, ns := g.ns + 1));
  }

  // A match found by key or by search.
  lemma StepMoved(d0: Doc, e0: Elms, d1: Doc, e1: Elms, d2: Doc, e2: Elms, p: Id, F: set<Id>, g: State, x: nat)
    requires Core(d0, e0, d1, e1, p, F, g) && g.os < x <= g.oe && g.ns <= g.ne && g.oldCh[g.os].Some? && g.oldCh[x].Some?
    requires PatchedTo(d1, e1, d2, e2, g.oldCh[x].value, g.news[g.ns])
    ensures var s, t := g.oldCh[g.os].value.id, g.oldCh[x].value.id;
      && s in e2 && t in e2 && d2.Valid() && p in d2.kids && e2[t] in d2.kind && e2[s] in d2.kids[p]
      && Core(d0, e0, d2.InsertBefore(p, e2[t], Some(e2[s])), e2, p, F, g.(oldCh := g.oldCh[x := None], ns := g.ns + 1))
  {
    hide *;
    Unpack(d0, e0, d1, e1, p, F, g);
    PatchedKeys(d1, e1, d2, e2, g.oldCh[x].value, g.news[g.ns]);
    CurMoved(g, x);
    CurStartStart(g);
    var cur := g.Cur();
    var k := g.ns + |Live(g.oldCh[g.os..x])|;
    var mid := cur[k := g.news[g.ns]];
    KeysFront(e0, e1, e2, g);
    ShowPatched(d0, e0, d1, e1, d2, e2, p, F, cur, k, g.news[g.ns]);
    ShowAt(d0, e0, d1, e1, p, F, cur);
    ShowAt(d0, e0, d2, e2, p, F, mid);
    ElmAt(d0, e0, d1, e1, d2, e2, p, F, cur, mid, k);
    ElmAt(d0, e0, d1, e1, d2, e2, p, F, cur, mid, g.ns);
    ShowMovedLeft(d0, e0, d2, e2, p, F, mid, g.ns, k);
    var s, t := g.oldCh[g.os].value.id, g.oldCh[x].value.id;
    var d3 := d2.InsertBefore(p, e2[t], Some(e2[s]));
    Pack(d0, e0, d1, e1, d3, e2, p, F, g, g.(oldCh := g.oldCh[x := None], ns := g.ns + 1));
  }

  // A new element put at the end of the new front.
  lemma StepCreated(d0: Doc, e0: Elms, d1: Doc, e1: Elms, d2: Doc, e2: Elms, p: Id, F: set<Id>, g: State)
    requires Core(d0, e0, d1, e1, p, F, g) && g.ns <= g.ne
    requires d2.Valid() && Edits(d1, e1, d2, e2, {p}) && p in d1.kind && p in d2.kind && d2.kind[p] == d1.kind[p]
    requires Rendered(d2, e2, g.news[g.ns]) && Within(d1, Foot(e2, g.news[g.ns]), {}) && g.news[g.ns].id in e2
    requires e2.Keys == e1.Keys + Ids(g.news[g.ns])
    requires p in d1.kids && p in d2.kids && g.ns <= |d1.kids[p]|
    requires d2.kids[p] == d1.kids[p][..g.ns] + [e2[g.news[g.ns].id]] + d1.kids[p][g.ns..]
    ensures Core(d0, e0, d2, e2, p, F, g.(ns := g.ns + 1))
  {
    hide *;
    Unpack(d0, e0, d1, e1, p, F, g);
    CurCreated(g);
    KeysFront(e0, e1, e2, g);
    ShowCreated(d0, e0, d1, e1, d2, e2, p, F, g.Cur(), g.ns, g.news[g.ns]);
    Pack(d0, e0, d1, e1, d2, e2, p, F, g, g.(ns := g.ns + 1));
  }

  // An old vnode left over when the new list is used up.
  lemma StepRemoved(d0: Doc, e0: Elms, d: Doc, e: Elms, p: Id, F: set<Id>, g: State)
    requires Core(d0, e0, d, e, p, F, g) && g.os <= g.oe && g.oldCh[g.os].Some?
    ensures var s := g.oldCh[g.os].value.id;
      && s in e && d.Valid()
      && Core(d0, e0, d.Detach(e[s]), e, p, F, g.(os := g.os + 1))
  {
    hide *;
    Unpack(d0, e0, d, e, p, F, g);
    CurRemoved(g);
    ShowRemoved(d0, e0, d, e, p, F, g.Cur(), g.ns);
    ShowAt(d0, e0, d, e, p, F, g.Cur());
    Pack(d0, e0, d, e, d.Detach(e[g.oldCh[g.os].value.id]), e, p, F, g, g.(os := g.os + 1));
  }

  lemma CurRemoved(g: State)
    requires g.Shape() && g.os <= g.oe && g.oldCh[g.os].Some?
    ensures var g' := g.(os := g.os + 1);
      && g'.Shape() && g.ns < |g.Cur()| && g.Cur()[g.ns] == g.oldCh[g.os].value
      && g.Cur()[..g.ns] + g.Cur()[g.ns + 1..] == g'.Cur()
  {
    WindowFirst(g);
    var g' := g.(os := g.os + 1);
    var L := Live(g'.Window());
    assert Live([g.oldCh[g.os]]) == [g.oldCh[g.os].value];
    assert g.Cur() == g.news[..g.ns] + ([g.oldCh[g.os].value] + L) + g.news[g.ne + 1..];
  }
}
