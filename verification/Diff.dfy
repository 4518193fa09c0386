// The bookkeeping of `updateChildren`: how each branch of its loop keeps the
// children of one element in the shape "new front, old middle, new back".
module Diff {
  import opened Sequences
  import opened Dom
  import opened VNodes
  import opened ChildLists

  // The children of p show exactly `cur`; since (d0, e0) only nodes of F and
  // nodes created later were touched, and p is still the same element.
  ghost predicate Showing(d0: Doc, e0: Elms, d: Doc, e: Elms, p: Id, F: set<Id>, cur: seq<VNode>) {
    && d0.Valid() && d.Valid()
    && p in F && p in d0.kind && p in d.kind && d.kind[p] == d0.kind[p]
    && Edits(d0, e0, d, e, F)
    && RenderedList(d, e, p, cur)
    && AllWithin(d0, e, cur, F)
  }

  ghost predicate AllWithin(d0: Doc, e: Elms, vs: seq<VNode>, F: set<Id>) {
    forall i :: 0 <= i < |vs| ==> Within(d0, Foot(e, vs[i]), F)
  }

  // What patchVnode promises for one pair.
  ghost predicate PatchedTo(d0: Doc, e0: Elms, d1: Doc, e1: Elms, old_: VNode, v: VNode) {
    && d1.Valid() && Edits(d0, e0, d1, e1, Foot(e0, old_))
    && Rendered(d1, e1, v) && Within(d0, Foot(e1, v), Foot(e0, old_))
    && old_.id in e0 && v.id in e1 && e1[v.id] == e0[old_.id]
    && e1.Keys == e0.Keys + Ids(v)
    && TookOver(e1, old_, v)
  }

  lemma WithinTrans(d0: Doc, d1: Doc, A: set<Id>, B: set<Id>, F: set<Id>)
    requires Within(d1, A, B) && Within(d0, B, F) && d0.next <= d1.next
    ensures Within(d0, A, F)
  {
  }

  lemma EditsNext(d0: Doc, e0: Elms, d1: Doc, e1: Elms, F: set<Id>)
    requires Edits(d0, e0, d1, e1, F)
    ensures d0.next <= d1.next && forall n :: n in d0.kind ==> n in d1.kind
    ensures forall n :: n in d0.kind && n !in F ==> d1.kind[n] == d0.kind[n]
    ensures forall x :: x in e0 ==> x in e1 && e1[x] == e0[x]
  {
  }

  lemma ShowPatched(d0: Doc, e0: Elms, d1: Doc, e1: Elms, d2: Doc, e2: Elms,
                    p: Id, F: set<Id>, cur: seq<VNode>, k: nat, v: VNode)
    requires Showing(d0, e0, d1, e1, p, F, cur) && k < |cur|
    requires PatchedTo(d1, e1, d2, e2, cur[k], v)
    ensures Showing(d0, e0, d2, e2, p, F, cur[k := v])
    ensures d2.kids[p] == d1.kids[p]
  {
    assert Rendered(d1, e1, cur[k]) && p !in Foot(e1, cur[k]);
    hide Rendered, Foot, Within, Doc.Valid;
    Patched(d1, e1, d2, e2, p, cur, k, v);
    hide RenderedList;
    assert Within(d0, Foot(e1, cur[k]), F);
    EditsTrans(d0, e0, d1, e1, d2, e2, F, Foot(e1, cur[k]));
    EditsNext(d0, e0, d1, e1, F);
    EditsNext(d1, e1, d2, e2, Foot(e1, cur[k]));
    hide Edits;
    WithinTrans(d0, d1, Foot(e2, v), Foot(e1, cur[k]), F);
  }

  lemma ShowCreated(d0: Doc, e0: Elms, d1: Doc, e1: Elms, d2: Doc, e2: Elms,
                    p: Id, F: set<Id>, cur: seq<VNode>, k: nat, v: VNode)
    requires Showing(d0, e0, d1, e1, p, F, cur) && k <= |cur|
    requires d2.Valid() && Edits(d1, e1, d2, e2, {p}) && p in d1.kind && p in d2.kind && d2.kind[p] == d1.kind[p]
    requires Rendered(d2, e2, v) && Within(d1, Foot(e2, v), {}) && v.id in e2
    requires p in d1.kids && p in d2.kids && k <= |d1.kids[p]|
    requires d2.kids[p] == d1.kids[p][..k] + [e2[v.id]] + d1.kids[p][k..]
    ensures Showing(d0, e0, d2, e2, p, F, cur[..k] + [v] + cur[k..])
  {
    hide Rendered, Foot, Doc.Valid;
    Created(d1, e1, d2, e2, p, cur, k, v);
    hide RenderedList;
    EditsTrans(d0, e0, d1, e1, d2, e2, F, {p});
    EditsNext(d0, e0, d1, e1, F);
    hide Edits;
    WithinTrans(d0, d1, Foot(e2, v), {}, F);
    hide Within;
    var next := cur[..k] + [v] + cur[k..];
    forall i | 0 <= i < |next| ensures Within(d0, Foot(e2, next[i]), F) {
      Spliced(cur, k, v, i);
    }
  }

  lemma ShowAt(d0: Doc, e0: Elms, d: Doc, e: Elms, p: Id, F: set<Id>, cur: seq<VNode>)
    requires Showing(d0, e0, d, e, p, F, cur)
    ensures d0.Valid() && d.Valid() && p in d.kids && p in d.kind && |d.kids[p]| == |cur|
    ensures forall i :: 0 <= i < |cur| ==> Rendered(d, e, cur[i]) && cur[i].id in e && d.kids[p][i] == e[cur[i].id]
    ensures forall i :: 0 <= i < |cur| ==> d.kids[p][i] in d.kids[p] && d.kids[p][i] in d.kind
  {
    hide AllWithin, Edits, Apart, Foot;
    forall i | 0 <= i < |cur|
      ensures Rendered(d, e, cur[i]) && cur[i].id in e && d.kids[p][i] == e[cur[i].id]
    {
    }
  }

  // The children of p were only put in another order, or some were dropped.
  lemma ShowRearranged(d0: Doc, e0: Elms, d1: Doc, e: Elms, d2: Doc,
                       p: Id, F: set<Id>, cur: seq<VNode>, next: seq<VNode>, from: int -> int)
    requires Showing(d0, e0, d1, e, p, F, cur)
    requires p in d1.kids && p in d2.kids && |d1.kids[p]| == |cur| && |d2.kids[p]| == |next|
    requires d2.Valid() && d2.kids == d1.kids[p := d2.kids[p]] && d2.kind == d1.kind && d2.next == d1.next
    requires forall i :: 0 <= i < |next| ==> 0 <= from(i) < |cur| && next[i] == cur[from(i)] && d2.kids[p][i] == d1.kids[p][from(i)]
    requires forall i, j :: 0 <= i < j < |next| ==> from(i) != from(j)
    ensures Showing(d0, e0, d2, e, p, F, next)
  {
    hide Rendered, Foot, Doc.Valid;
    assert Edits(d1, e, d2, e, {p});
    Rearranged(d1, d2, e, p, cur, next, from);
    hide RenderedList;
    EditsTrans(d0, e0, d1, e, d2, e, F, {p});
  }

  function Left(m: int, k: int, i: int): int {
    if i < m then i else if i == m then k else if i <= k then i - 1 else i
  }

  function Right(k: int, m: int, i: int): int {
    if i < k then i else if i < m then i + 1 else if i == m then k else i
  }

  function Over(k: int, i: int): int {
    if i < k then i else i + 1
  }

  lemma LeftAt<T>(s: seq<T>, m: nat, k: nat, i: nat)
    requires m < k < |s| && i < |s|
    ensures 0 <= Left(m, k, i) < |s| && (s[..m] + [s[k]] + s[m..k] + s[k + 1..])[i] == s[Left(m, k, i)]
  {
  }

  lemma RightAt<T>(s: seq<T>, k: nat, m: nat, i: nat)
    requires k <= m < |s| && i < |s|
    ensures 0 <= Right(k, m, i) < |s| && (s[..k] + s[k + 1..m + 1] + [s[k]] + s[m + 1..])[i] == s[Right(k, m, i)]
  {
  }

  lemma OverAt<T>(s: seq<T>, k: nat, i: nat)
    requires k < |s| && i < |s| - 1
    ensures 0 <= Over(k, i) < |s| && (s[..k] + s[k + 1..])[i] == s[Over(k, i)]
  {
  }

  // Vnode moved left.
  lemma ShowMovedLeft(d0: Doc, e0: Elms, d1: Doc, e: Elms, p: Id, F: set<Id>, cur: seq<VNode>, m: nat, k: nat)
    requires Showing(d0, e0, d1, e, p, F, cur) && m < k < |cur|
    ensures cur[m].id in e && cur[k].id in e && d1.Valid() && p in d1.kids && e[cur[k].id] in d1.kind && e[cur[m].id] in d1.kids[p]
    ensures Showing(d0, e0, d1.InsertBefore(p, e[cur[k].id], Some(e[cur[m].id])), e, p, F,
                    cur[..m] + [cur[k]] + cur[m..k] + cur[k + 1..])
  {
    hide *;
    ShowAt(d0, e0, d1, e, p, F, cur);
    var s := d1.kids[p];
    var d2 := d1.InsertBefore(p, s[k], Some(s[m]));
    InsertSibling(d1, p, s[k], Some(s[m]));
    MoveLeft(d1, p, m, k);
    var next := cur[..m] + [cur[k]] + cur[m..k] + cur[k + 1..];
    var from := i => Left(m, k, i);
    forall i | 0 <= i < |next|
      ensures 0 <= from(i) < |cur| && next[i] == cur[from(i)] && d2.kids[p][i] == s[from(i)]
    {
      LeftAt(cur, m, k, i);
      LeftAt(s, m, k, i);
    }
    LeftOnce(m, k);
    ShowRearranged(d0, e0, d1, e, d2, p, F, cur, next, from);
  }

  lemma LeftOnce(m: nat, k: nat)
    requires m < k
    ensures forall i, j :: 0 <= i < j ==> Left(m, k, i) != Left(m, k, j)
  {
  }

  lemma OverOnce(k: nat)
    ensures forall i, j :: 0 <= i < j ==> Over(k, i) != Over(k, j)
  {
  }

  lemma RightOnce(k: nat, m: nat)
    requires k <= m
    ensures forall i, j :: 0 <= i < j ==> Right(k, m, i) != Right(k, m, j)
  {
  }

  // Vnode moved right.
  lemma ShowMovedRight(d0: Doc, e0: Elms, d1: Doc, e: Elms, p: Id, F: set<Id>, cur: seq<VNode>, k: nat, m: nat)
    requires Showing(d0, e0, d1, e, p, F, cur) && k <= m < |cur|
    ensures cur[m].id in e && cur[k].id in e && d1.Valid() && p in d1.kids && e[cur[k].id] in d1.kind
    ensures var ref := d1.NextSibling(e[cur[m].id]);
      && (ref.Some? ==> ref.value in d1.kids[p])
      && Showing(d0, e0, d1.InsertBefore(p, e[cur[k].id], ref), e, p, F,
                 cur[..k] + cur[k + 1..m + 1] + [cur[k]] + cur[m + 1..])
  {
    hide *;
    ShowAt(d0, e0, d1, e, p, F, cur);
    var s := d1.kids[p];
    var ref := d1.NextSibling(s[m]);
    NextSiblingAt(d1, p, m);
    var d2 := d1.InsertBefore(p, s[k], ref);
    InsertSibling(d1, p, s[k], ref);
    MoveRight(d1, p, k, m);
    var next := cur[..k] + cur[k + 1..m + 1] + [cur[k]] + cur[m + 1..];
    var from := i => Right(k, m, i);
    forall i | 0 <= i < |next|
      ensures 0 <= from(i) < |cur| && next[i] == cur[from(i)] && d2.kids[p][i] == s[from(i)]
    {
      RightAt(cur, k, m, i);
      RightAt(s, k, m, i);
    }
    RightOnce(k, m);
    ShowRearranged(d0, e0, d1, e, d2, p, F, cur, next, from);
  }

  lemma ShowRemoved(d0: Doc, e0: Elms, d1: Doc, e: Elms, p: Id, F: set<Id>, cur: seq<VNode>, k: nat)
    requires Showing(d0, e0, d1, e, p, F, cur) && k < |cur|
    ensures cur[k].id in e && d1.Valid()
    ensures Showing(d0, e0, d1.Detach(e[cur[k].id]), e, p, F, cur[..k] + cur[k + 1..])
  {
    hide *;
    ShowAt(d0, e0, d1, e, p, F, cur);
    var s := d1.kids[p];
    var d2 := d1.Detach(s[k]);
    DetachChild(d1, p, k);
    var next := cur[..k] + cur[k + 1..];
    var from := i => Over(k, i);
    forall i | 0 <= i < |next|
      ensures 0 <= from(i) < |cur| && next[i] == cur[from(i)] && d2.kids[p][i] == s[from(i)]
    {
      OverAt(cur, k, i);
      OverAt(s, k, i);
    }
    OverOnce(k);
    ShowRearranged(d0, e0, d1, e, d2, p, F, cur, next, from);
  }
}
