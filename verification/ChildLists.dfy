// One child list of the document while it is being patched. `cur` is the list
// of vnodes, old and new, that the children of p show at the moment; each
// lemma is one kind of edit the diff makes to it.
module ChildLists {
  import opened Dom
  import opened VNodes

  // The vnode at k was patched into `v`, which took over its element.
  lemma Patched(d0: Doc, e0: Elms, d1: Doc, e1: Elms, p: Id, cur: seq<VNode>, k: nat, v: VNode)
    requires d0.Valid()
    requires RenderedList(d0, e0, p, cur) && k < |cur|
    requires Edits(d0, e0, d1, e1, Foot(e0, cur[k]))
    requires Rendered(d0, e0, cur[k]) && Rendered(d1, e1, v) && e1[v.id] == e0[cur[k].id]
    requires Within(d0, Foot(e1, v), Foot(e0, cur[k]))
    ensures RenderedList(d1, e1, p, cur[k := v])
    ensures d1.kids[p] == d0.kids[p]
    ensures forall i :: 0 <= i < |cur| && i != k ==> Foot(e1, cur[i]) == Foot(e0, cur[i])
  {
    var next := cur[k := v];
    forall i | 0 <= i < |cur| && i != k
      ensures Rendered(d1, e1, cur[i]) && Foot(e1, cur[i]) == Foot(e0, cur[i])
      ensures e1[cur[i].id] == e0[cur[i].id]
      ensures Foot(e1, v) !! Foot(e0, cur[i])
    {
      RenderedFrame(d0, e0, d1, e1, Foot(e0, cur[k]), cur[i]);
      RenderedIds(d0, e0, cur[i]);
    }
  }

  // The vnodes of a child list that only p's own list was edited around.
  lemma Kept(d0: Doc, e0: Elms, d1: Doc, e1: Elms, p: Id, cur: seq<VNode>)
    requires d0.Valid()
    requires RenderedList(d0, e0, p, cur) && Edits(d0, e0, d1, e1, {p})
    ensures forall i :: 0 <= i < |cur| ==> Rendered(d1, e1, cur[i]) && Foot(e1, cur[i]) == Foot(e0, cur[i])
    ensures forall i :: 0 <= i < |cur| ==> cur[i].id in e1 && e1[cur[i].id] == d0.kids[p][i]
    ensures forall i, n :: 0 <= i < |cur| && n in Foot(e0, cur[i]) ==> n in d0.kind
  {
    forall i | 0 <= i < |cur|
      ensures Rendered(d1, e1, cur[i]) && Foot(e1, cur[i]) == Foot(e0, cur[i])
      ensures e1[cur[i].id] == e0[cur[i].id]
      ensures forall n :: n in Foot(e0, cur[i]) ==> n in d0.kind
    {
      RenderedFrame(d0, e0, d1, e1, {p}, cur[i]);
      RenderedIds(d0, e0, cur[i]);
    }
  }

  // A tree that was built after d0 holds no node of d0.
  lemma Unseen(d0: Doc, e: Elms, v: VNode)
    requires d0.Valid() && Within(d0, Foot(e, v), {})
    ensures forall n :: n in d0.kind ==> n !in Foot(e, v)
  {
  }

  lemma ListOf(d: Doc, e: Elms, p: Id, vs: seq<VNode>)
    requires p in d.kids && |d.kids[p]| == |vs|
    requires forall i :: 0 <= i < |vs| ==>
      Rendered(d, e, vs[i]) && vs[i].id in e && d.kids[p][i] == e[vs[i].id] && p !in Foot(e, vs[i])
    requires Apart(e, vs)
    ensures RenderedList(d, e, p, vs)
  {
    hide Rendered, Foot, Apart;
  }

  function Skip(k: int, i: int): int { if i < k then i else i - 1 }

  lemma Spliced<T>(s: seq<T>, k: nat, x: T, i: nat)
    requires k <= |s| && i <= |s|
    ensures (s[..k] + [x] + s[k..])[i] == if i == k then x else s[Skip(k, i)]
  {
  }

  // A vnode outside the list was created and put at position k.
  lemma Created(d0: Doc, e0: Elms, d1: Doc, e1: Elms, p: Id, cur: seq<VNode>, k: nat, v: VNode)
    requires d0.Valid()
    requires RenderedList(d0, e0, p, cur) && k <= |cur|
    requires Edits(d0, e0, d1, e1, {p}) && p in d1.kids
    requires Rendered(d1, e1, v) && v.id in e1
    requires d1.kids[p] == d0.kids[p][..k] + [e1[v.id]] + d0.kids[p][k..]
    requires Within(d0, Foot(e1, v), {})
    ensures RenderedList(d1, e1, p, cur[..k] + [v] + cur[k..])
    ensures forall i :: 0 <= i < |cur| ==> Foot(e1, cur[i]) == Foot(e0, cur[i])
  {
    hide Rendered, Foot, Edits;
    assert p in d0.kind;
    Kept(d0, e0, d1, e1, p, cur);
    assert Apart(e1, cur);
    Unseen(d0, e1, v);
    hide Apart, Within, Doc.Valid;
    var next := cur[..k] + [v] + cur[k..];
    forall i | 0 <= i < |next|
      ensures next[i] == if i == k then v else cur[Skip(k, i)]
      ensures Rendered(d1, e1, next[i]) && next[i].id in e1 && d1.kids[p][i] == e1[next[i].id] && p !in Foot(e1, next[i])
    {
      Spliced(cur, k, v, i);
      Spliced(d0.kids[p], k, e1[v.id], i);
    }
    CreatedApart(e1, cur, k, v, next);
    hide RenderedList;
    ListOf(d1, e1, p, next);
  }

  lemma CreatedApart(e: Elms, cur: seq<VNode>, k: nat, v: VNode, next: seq<VNode>)
    requires k <= |cur| && |next| == |cur| + 1
    requires forall i :: 0 <= i < |next| ==> next[i] == if i == k then v else cur[Skip(k, i)]
    requires Apart(e, cur)
    requires forall i :: 0 <= i < |cur| ==> Foot(e, v) !! Foot(e, cur[i])
    ensures Apart(e, next)
  {
    hide Foot;
    forall i, j | 0 <= i < j < |next|
      ensures Foot(e, next[i]) !! Foot(e, next[j])
    {
      if i != k && j != k {
        assert Skip(k, i) < Skip(k, j);
      }
    }
  }

  // The child list of p was rearranged by `from`: position i now holds what
  // position from(i) held. Nothing below p changed.
  lemma Rearranged(d0: Doc, d1: Doc, e: Elms, p: Id, cur: seq<VNode>, next: seq<VNode>, from: int -> int)
    requires d0.Valid()
    requires RenderedList(d0, e, p, cur)
    requires Edits(d0, e, d1, e, {p}) && p in d1.kids && |d1.kids[p]| == |next|
    requires forall i :: 0 <= i < |next| ==> 0 <= from(i) < |cur| && next[i] == cur[from(i)] && d1.kids[p][i] == d0.kids[p][from(i)]
    requires forall i, j :: 0 <= i < j < |next| ==> from(i) != from(j)
    ensures RenderedList(d1, e, p, next)
  {
    forall i | 0 <= i < |next|
      ensures Rendered(d1, e, next[i])
    {
      RenderedFrame(d0, e, d1, e, {p}, cur[from(i)]);
    }
    forall i, j | 0 <= i < j < |next|
      ensures Foot(e, next[i]) !! Foot(e, next[j])
    {
      if from(i) < from(j) {} else { assert from(j) < from(i); }
    }
  }
}
