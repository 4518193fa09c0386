// What updateChildren does with the elements it finds and makes: none is
// shared, and every one is accounted for.
module Conservation {
  import opened Sequences
  import opened Dom
  import opened VNodes
  import opened Diff
  import opened Patch

  // One old child was matched with one new child, over the element x.
  ghost predicate Matched(e0: Elms, e1: Elms, a: VNode, b: VNode, x: Id) {
    SameVnode(a, b) && a.id in e0 && b.id in e1 && e0[a.id] == x && e1[b.id] == x
  }

  function Members(s: seq<Id>): (r: set<Id>)
    ensures forall x :: x in r <==> x in s
  {
    set x | x in s
  }

  lemma {:induction false} MembersCount(s: seq<Id>)
    requires Distinct(s)
    ensures |Members(s)| == |s|
  {
    if s != [] {
      MembersCount(s[..|s| - 1]);
      assert Members(s) == Members(s[..|s| - 1]) + {s[|s| - 1]};
    }
  }

  lemma Split(a: set<Id>, b: set<Id>)
    ensures |a| == |a * b| + |a - b|
  {
    assert a == (a * b) + (a - b);
    assert (a * b) !! (a - b);
  }

  lemma ListFacts(d: Doc, e: Elms, p: Id, vs: seq<VNode>)
    requires d.Valid() && RenderedList(d, e, p, vs)
    ensures p in d.kids && Distinct(d.kids[p]) && |d.kids[p]| == |vs|
    ensures forall i :: 0 <= i < |vs| ==> vs[i].id in e && d.kids[p][i] == e[vs[i].id]
  {
  }

  // Matched children keep their element, removed ones lose theirs, created
  // ones get a new one: the old children are the matched and the removed, the
  // new children are the matched and the created.
  lemma Conserved(d0: Doc, e0: Elms, d1: Doc, e1: Elms, p: Id, olds: seq<VNode>, news: seq<VNode>)
    requires Begun(d0, e0, p, olds) && Refreshed(d0, e0, d1, e1, p, olds, news)
    ensures p in d0.kids && p in d1.kids
    ensures var before, after := Members(d0.kids[p]), Members(d1.kids[p]);
            |olds| == |before * after| + |before - after| && |news| == |before * after| + |after - before| &&
            (forall x :: x in after - before ==> x >= d0.next) &&
            (forall x :: x in before * after ==>
               exists i, j :: 0 <= i < |olds| && 0 <= j < |news| && Matched(e0, e1, olds[i], news[j], x))
  {
    var before, after := Keeps(d0, e0, d1, e1, p, olds, news);
    hide *;
    Split(before, after);
    Split(after, before);
    assert before * after == after * before;
  }

  lemma Keeps(d0: Doc, e0: Elms, d1: Doc, e1: Elms, p: Id, olds: seq<VNode>, news: seq<VNode>) returns (before: set<Id>, after: set<Id>)
    requires Begun(d0, e0, p, olds) && Refreshed(d0, e0, d1, e1, p, olds, news)
    ensures p in d0.kids && p in d1.kids && before == Members(d0.kids[p]) && after == Members(d1.kids[p])
    ensures |before| == |olds| && |after| == |news|
    ensures forall x :: x in after - before ==> x >= d0.next
    ensures forall x :: x in before * after ==>
              exists i, j :: 0 <= i < |olds| && 0 <= j < |news| && Matched(e0, e1, olds[i], news[j], x)
  {
    Lists(d0, e0, d1, e1, p, olds, news);
    before, after := Members(d0.kids[p]), Members(d1.kids[p]);
    MembersCount(d0.kids[p]);
    MembersCount(d1.kids[p]);
    forall x | x in after
      ensures x >= d0.next || x in before
      ensures x in before ==>
                exists i, j :: 0 <= i < |olds| && 0 <= j < |news| && Matched(e0, e1, olds[i], news[j], x)
    {
      var j :| 0 <= j < |d1.kids[p]| && d1.kids[p][j] == x;
      OneChild(d0, e0, d1, e1, p, olds, news, j);
    }
  }

  lemma Lists(d0: Doc, e0: Elms, d1: Doc, e1: Elms, p: Id, olds: seq<VNode>, news: seq<VNode>)
    requires Begun(d0, e0, p, olds) && Refreshed(d0, e0, d1, e1, p, olds, news)
    ensures p in d0.kids && Distinct(d0.kids[p]) && |d0.kids[p]| == |olds|
    ensures p in d1.kids && Distinct(d1.kids[p]) && |d1.kids[p]| == |news|
    ensures forall i :: 0 <= i < |olds| ==> olds[i].id in e0 && d0.kids[p][i] == e0[olds[i].id]
    ensures forall j :: 0 <= j < |news| ==> news[j].id in e1 && d1.kids[p][j] == e1[news[j].id]
    ensures forall y :: y in e0 ==> y in e1 && e1[y] == e0[y]
    ensures Origins(e1, olds, news, d0.next)
    ensures forall x :: x in d0.kids[p] ==> x < d0.next
  {
    hide *;
    BegunFacts(d0, e0, p, olds);
    RefreshedFacts(d0, e0, d1, e1, p, olds, news);
    ListFacts(d0, e0, p, olds);
    ListFacts(d1, e1, p, news);
  }

  lemma BegunFacts(d: Doc, e: Elms, p: Id, olds: seq<VNode>)
    requires Begun(d, e, p, olds)
    ensures d.Valid() && RenderedList(d, e, p, olds)
    ensures p in d.kids && forall x :: x in d.kids[p] ==> x < d.next
  {
    forall x | x in d.kids[p]
      ensures x < d.next
    {
      assert x in d.kind;
    }
  }

  lemma RefreshedFacts(d0: Doc, e0: Elms, d1: Doc, e1: Elms, p: Id, olds: seq<VNode>, news: seq<VNode>)
    requires Refreshed(d0, e0, d1, e1, p, olds, news)
    ensures d1.Valid() && RenderedList(d1, e1, p, news) && Origins(e1, olds, news, d0.next)
    ensures forall y :: y in e0 ==> y in e1 && e1[y] == e0[y]
  {
    hide RenderedList, Reused, Origins, AllWithin, Doc.Valid;
  }

  lemma OneChild(d0: Doc, e0: Elms, d1: Doc, e1: Elms, p: Id, olds: seq<VNode>, news: seq<VNode>, j: nat)
    requires p in d0.kids && |d0.kids[p]| == |olds| && j < |news|
    requires forall i :: 0 <= i < |olds| ==> olds[i].id in e0 && d0.kids[p][i] == e0[olds[i].id]
    requires forall y :: y in e0 ==> y in e1 && e1[y] == e0[y]
    requires Origins(e1, olds, news, d0.next) && news[j].id in e1
    requires forall x :: x in d0.kids[p] ==> x < d0.next
    ensures var x := e1[news[j].id];
            (x >= d0.next || x in d0.kids[p]) &&
            (x in d0.kids[p] ==> exists i, k :: 0 <= i < |olds| && 0 <= k < |news| && Matched(e0, e1, olds[i], news[k], x))
  {
    var x := e1[news[j].id];
    if x < d0.next {
      var i :| 0 <= i < |olds| && Inherits(e1, olds[i], news[j]);
      assert TookOver(e1, olds[i], news[j]);
      assert d0.kids[p][i] == x;
      assert Matched(e0, e1, olds[i], news[j], x);
    }
  }
}
