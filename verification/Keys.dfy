// Keys in the diff: which old vnode a keyed new vnode is matched with.
module Keys {
  import opened Sequences
  import opened VNodes
  import opened Windows

  ghost predicate Matching(g: State, e: Elms)
    requires g.Shape()
  {
    g.Accounted() && g.Sourced(e) && g.Tight(e) && (DistinctKeys(g.olds) ==> g.Kept(e))
  }

  // Branches that patch the old vnode i into the new vnode j.
  ghost predicate Pairs(g: State, g': State, i: int, j: int) {
    || (g' == g.(os := g.os + 1, ns := g.ns + 1) && i == g.os && j == g.ns)
    || (g' == g.(oe := g.oe - 1, ne := g.ne - 1) && i == g.oe && j == g.ne)
    || (g' == g.(os := g.os + 1, ne := g.ne - 1) && i == g.os && j == g.ne)
    || (g' == g.(oe := g.oe - 1, ns := g.ns + 1) && i == g.oe && j == g.ns)
    || (0 <= g.os <= i <= g.oe && i < |g.oldCh| && g' == g.(oldCh := g.oldCh[i := None], ns := g.ns + 1) && j == g.ns)
  }

  lemma PairsMoves(g: State, g': State, i: int, j: int)
    requires g.Shape() && g.os <= g.oe && g.ns <= g.ne && Pairs(g, g', i, j)
    ensures g'.Shape() && 0 <= i < |g.olds| && 0 <= j < |g.news| && g'.olds == g.olds && g'.news == g.news
    ensures forall n :: g'.Done(n) <==> g.Done(n) || n == j
    ensures forall n :: g'.Gone(n) ==> g.Gone(n) || n == i
  {
  }

  lemma KeptGrows(g: State, e1: Elms, e2: Elms)
    requires g.Kept(e1) && forall x :: x in e1 ==> x in e2 && e2[x] == e1[x]
    ensures g.Kept(e2)
  {
    forall i, j | g.Done(j) && 0 <= i < |g.olds| && g.news[j].key.Some? && SameVnode(g.olds[i], g.news[j])
      ensures TookOver(e2, g.olds[i], g.news[j])
    {
      TookOverGrows(e1, e2, g.olds[i], g.news[j]);
    }
  }

  lemma SourcedGrows(g: State, e1: Elms, e2: Elms)
    requires g.Sourced(e1) && forall x :: x in e1 ==> x in e2 && e2[x] == e1[x]
    ensures g.Sourced(e2)
  {
    forall j | g.Done(j)
      ensures g.news[j].id in e2
      ensures e2[g.news[j].id] >= g.base || exists i :: 0 <= i < |g.olds| && Inherits(e2, g.olds[i], g.news[j])
    {
      if e1[g.news[j].id] < g.base {
        var i :| 0 <= i < |g.olds| && Inherits(e1, g.olds[i], g.news[j]);
        InheritsGrows(e1, e2, g.olds[i], g.news[j]);
      }
    }
  }

  lemma InheritsGrows(e1: Elms, e2: Elms, a: VNode, b: VNode)
    requires Inherits(e1, a, b) && forall x :: x in e1 ==> x in e2 && e2[x] == e1[x]
    ensures Inherits(e2, a, b)
  {
    hide SameVnode;
    TookOverGrows(e1, e2, a, b);
  }

  lemma TightGrows(g: State, e1: Elms, e2: Elms)
    requires g.Shape() && g.Tight(e1) && forall x :: x in e1 ==> x in e2 && e2[x] == e1[x]
    ensures g.Tight(e2)
  {
    hide SameVnode, Inherits, DistinctKeys;
    forall i, j | 0 <= i < |g.olds| && 0 <= j < |g.news| && Inherits(e1, g.olds[i], g.news[j])
      ensures Inherits(e2, g.olds[i], g.news[j])
    {
      InheritsGrows(e1, e2, g.olds[i], g.news[j]);
    }
  }

  lemma TightPaired(g: State, g': State, i: int, j: int, e: Elms)
    requires g.Shape() && g.os <= g.oe && g.ns <= g.ne && Pairs(g, g', i, j) && g.Tight(e)
    requires 0 <= i < |g.olds| && 0 <= j < |g.news| && Inherits(e, g.olds[i], g.news[j])
    ensures g'.Shape() && g'.Tight(e)
  {
    PairsMoves(g, g', i, j);
    PairsGone(g, g', i, j);
    hide Pairs, State.Done, State.Gone, SameVnode, Inherits, DistinctKeys;
  }

  lemma PairsGone(g: State, g': State, i: int, j: int)
    requires g.Shape() && g.os <= g.oe && g.ns <= g.ne && Pairs(g, g', i, j)
    ensures |g'.oldCh| == |g'.olds| && forall n :: g.Gone(n) ==> g'.Gone(n)
  {
  }

  lemma TightAdded(g: State, e: Elms)
    requires g.Shape() && g.ns <= g.ne && g.Tight(e)
    requires g.news[g.ns].key.None? || DistinctKeys(g.olds) ==> NoneIn(g, g.news[g.ns])
    ensures g.(ns := g.ns + 1).Shape() && g.(ns := g.ns + 1).Tight(e)
  {
    var g' := g.(ns := g.ns + 1);
    assert forall n :: g'.Done(n) <==> g.Done(n) || n == g.ns;
    assert forall n :: g'.Gone(n) <==> g.Gone(n);
    assert forall i :: 0 <= i < |g.olds| && !g.Gone(i) ==> g.os <= i <= g.oe && g.oldCh[i] == Some(g.olds[i]);
    hide State.Done, State.Gone, SameVnode, Inherits, DistinctKeys;
  }

  lemma Paired(g: State, g': State, i: int, j: int, e1: Elms, e2: Elms)
    requires g.Shape() && g.os <= g.oe && g.ns <= g.ne && Pairs(g, g', i, j)
    requires Matching(g, e1)
    requires 0 <= i < |g.olds| && 0 <= j < |g.news| && SameVnode(g.olds[i], g.news[j])
    requires forall x :: x in e1 ==> x in e2 && e2[x] == e1[x]
    requires TookOver(e2, g.olds[i], g.news[j])
    ensures g'.Shape() && Matching(g', e2)
  {
    PairsMoves(g, g', i, j);
    SourcedGrows(g, e1, e2);
    TightGrows(g, e1, e2);
    assert g'.base == g.base;
    assert Inherits(e2, g.olds[i], g.news[j]);
    TightPaired(g, g', i, j, e2);
    hide Pairs, State.Done, State.Gone, State.Shape, TookOver, Inherits;
    assert g'.Accounted();
    assert g'.Sourced(e2);
    if DistinctKeys(g.olds) {
      KeptGrows(g, e1, e2);
      forall n, m | g'.Done(m) && 0 <= n < |g.olds| && m < |g.news| && g.news[m].key.Some? && SameVnode(g.olds[n], g.news[m])
        ensures TookOver(e2, g.olds[n], g.news[m])
      {
        if m == j {
          assert g.olds[n].key == g.olds[i].key;
          assert n == i;
        }
      }
    }
  }

  lemma Skipped(g: State, g': State, e: Elms)
    requires g.Shape() && g.os <= g.oe && Matching(g, e)
    requires (g' == g.(os := g.os + 1) && g.oldCh[g.os].None?) || (g' == g.(oe := g.oe - 1) && g.oldCh[g.oe].None?)
    ensures g'.Shape() && Matching(g', e)
  {
    assert forall n :: g'.Gone(n) <==> g.Gone(n);
    assert forall n :: g'.Done(n) <==> g.Done(n);
  }

  // No old vnode at all can be reused for the new vnode j.
  ghost predicate NoTwin(g: State, j: int)
    requires 0 <= j < |g.news|
  {
    forall i :: 0 <= i < |g.olds| && g.news[j].key.Some? ==> !SameVnode(g.olds[i], g.news[j])
  }

  lemma Added(g: State, e1: Elms, e2: Elms)
    requires g.Shape() && g.ns <= g.ne && Matching(g, e1)
    requires forall x :: x in e1 ==> x in e2 && e2[x] == e1[x]
    requires DistinctKeys(g.olds) ==> NoTwin(g, g.ns)
    requires g.news[g.ns].key.None? || DistinctKeys(g.olds) ==> NoneIn(g, g.news[g.ns])
    requires g.news[g.ns].id in e2 && e2[g.news[g.ns].id] >= g.base
    ensures g.(ns := g.ns + 1).Shape() && Matching(g.(ns := g.ns + 1), e2)
  {
    var g' := g.(ns := g.ns + 1);
    hide SameVnode, Inherits, NoneIn, State.Tight;
    SourcedGrows(g, e1, e2);
    TightGrows(g, e1, e2);
    TightAdded(g, e2);
    if DistinctKeys(g.olds) {
      KeptGrows(g, e1, e2);
    }
    assert forall n :: g'.Done(n) <==> g.Done(n) || n == g.ns;
    assert forall n :: g'.Gone(n) <==> g.Gone(n);
  }

  // An old vnode that is used up had another key than any unprocessed new one.
  lemma UsedUp(g: State, i: int, j: int)
    requires g.Shape() && g.Accounted() && DistinctKeys(g.news)
    requires g.ns <= j <= g.ne && g.Gone(i) && g.news[j].key.Some?
    ensures g.olds[i].key != g.news[j].key
  {
    forall m | g.Done(m) ensures g.news[m].key != g.news[j].key {
      if m < j {} else { assert j < m; }
    }
  }

  lemma SameVnodeSymmetric(a: VNode, b: VNode)
    ensures SameVnode(a, b) <==> SameVnode(b, a)
  {
  }

  // No vnode still in the window can be reused for v.
  ghost predicate NoneIn(g: State, v: VNode)
    requires g.Shape()
  {
    forall i :: g.os <= i <= g.oe && g.oldCh[i].Some? ==> !SameVnode(g.oldCh[i].value, v)
  }

  // What findIdxInOld looked at, and the end of the window, which the loop
  // has compared before.
  ghost predicate Searched(g: State, v: VNode)
    requires g.Shape()
  {
    && (forall i :: g.os <= i < g.oe && g.oldCh[i].Some? ==> !SameVnode(v, g.oldCh[i].value))
    && (g.os <= g.oe && g.oldCh[g.oe].Some? ==> !SameVnode(g.oldCh[g.oe].value, v))
  }

  // When the key index, or for a vnode without a key the linear search, finds
  // nothing, there is nothing in the window to find; by key there is nothing
  // in the whole old list.
  lemma NotFound(g: State, index: map<string, nat>)
    requires g.Shape() && g.Accounted() && g.Indexed(index) && DistinctKeys(g.news)
    requires g.ns <= g.ne
    requires var v := g.news[g.ns];
      if v.key.Some? then v.key.value !in index || !SameVnode(g.olds[index[v.key.value]], v) else Searched(g, v)
    ensures DistinctKeys(g.olds) ==> NoTwin(g, g.ns)
    ensures g.news[g.ns].key.None? || DistinctKeys(g.olds) ==> NoneIn(g, g.news[g.ns])
  {
    var v := g.news[g.ns];
    if v.key.Some? && DistinctKeys(g.olds) {
      NotIndexed(g, index);
    } else if v.key.None? {
      forall i | g.os <= i <= g.oe && g.oldCh[i].Some?
        ensures !SameVnode(g.oldCh[i].value, v)
      {
        SameVnodeSymmetric(g.oldCh[i].value, v);
      }
    }
  }

  lemma NotIndexed(g: State, index: map<string, nat>)
    requires g.Shape() && g.Accounted() && g.Indexed(index) && DistinctKeys(g.news) && DistinctKeys(g.olds)
    requires g.ns <= g.ne && g.news[g.ns].key.Some?
    requires var v := g.news[g.ns];
      v.key.value !in index || !SameVnode(g.olds[index[v.key.value]], v)
    ensures NoTwin(g, g.ns)
  {
    var v := g.news[g.ns];
    forall i | 0 <= i < |g.olds| && v.key.Some? ensures !SameVnode(g.olds[i], v) {
      if g.Gone(i) {
        UsedUp(g, i, g.ns);
      } else if g.olds[i].key == v.key {
        assert g.olds[index[v.key.value]].key == g.olds[i].key;
        if index[v.key.value] < i {} else if i < index[v.key.value] {}
      }
    }
  }

  // When the old window is empty nothing is left to reuse.
  lemma Exhausted(g: State)
    requires g.Shape() && g.Accounted() && DistinctKeys(g.news) && g.os > g.oe && g.ns <= g.ne
    ensures NoTwin(g, g.ns)
  {
    var v := g.news[g.ns];
    forall i | 0 <= i < |g.olds| && v.key.Some? ensures !SameVnode(g.olds[i], v) {
      UsedUp(g, i, g.ns);
    }
  }

  // Keys as Array elements: the index answers with a vnode still in the window.
  lemma Found(g: State, index: map<string, nat>)
    requires g.Shape() && g.Accounted() && g.Indexed(index) && DistinctKeys(g.news)
    requires g.ns <= g.ne && g.news[g.ns].key.Some? && g.news[g.ns].key.value in index
    ensures var x := index[g.news[g.ns].key.value];
      g.os <= x <= g.oe && x < |g.oldCh| && g.oldCh[x] == Some(g.olds[x])
  {
    var x := index[g.news[g.ns].key.value];
    assert !g.Gone(x) by {
      if g.Gone(x) {
        UsedUp(g, x, g.ns);
      }
    }
  }
}
