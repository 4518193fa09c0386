// The two index windows of `updateChildren` and the list of vnodes its parent
// shows while they shrink: new front, live part of the old window, new back.
module Windows {
  import opened Sequences
  import opened Dom
  import opened VNodes

  // The entries of the old children array not yet set to undefined.
  function Live(s: seq<Option<VNode>>): seq<VNode> {
    if s == [] then [] else (if s[0].Some? then [s[0].value] else []) + Live(s[1..])
  }

  lemma {:induction false} LiveConcat(s: seq<Option<VNode>>, t: seq<Option<VNode>>)
    ensures Live(s + t) == Live(s) + Live(t)
  {
    hide Live;
    if s == [] {
      LiveNone();
      assert s + t == t;
    } else {
      LiveConcat(s[1..], t);
      assert (s + t)[1..] == s[1..] + t && (s + t)[0] == s[0];
      LiveCons(s);
      LiveCons(s + t);
    }
  }

  lemma LiveNone()
    ensures Live([]) == []
  {
  }

  lemma LiveCons(s: seq<Option<VNode>>)
    requires s != []
    ensures Live(s) == (if s[0].Some? then [s[0].value] else []) + Live(s[1..])
  {
  }

  // Array access beyond the end is undefined.
  function At(s: seq<Option<VNode>>, i: int): Option<VNode> {
    if 0 <= i < |s| then s[i] else None
  }

  // olds, news: the arguments; oldCh: the old array as it is now; os..oe and
  // ns..ne: the windows, both ends included; base: the first identity of a
  // document node created by this diff.
  datatype State = State(olds: seq<VNode>, news: seq<VNode>, oldCh: seq<Option<VNode>>, os: int, oe: int, ns: int, ne: int,
                         base: Id) {

    ghost predicate Shape() {
      && |oldCh| == |olds|
      && 0 <= os <= oe + 1 <= |olds|
      && 0 <= ns <= ne + 1 <= |news|
      && forall i :: 0 <= i < |olds| && oldCh[i].Some? ==> oldCh[i].value == olds[i]
    }

    function Window(): seq<Option<VNode>>
      requires Shape()
    {
      oldCh[os..oe + 1]
    }

    function Cur(): seq<VNode>
      requires Shape()
    {
      news[..ns] + Live(Window()) + news[ne + 1..]
    }

    predicate Done(j: int) {
      0 <= j < |news| && (j < ns || ne < j)
    }

    predicate Gone(i: int)
      requires |oldCh| == |olds|
    {
      0 <= i < |olds| && (i < os || oe < i || oldCh[i].None?)
    }

    // An old vnode leaves the window only together with a new one of its key.
    ghost predicate Accounted()
      requires |oldCh| == |olds|
    {
      forall i :: Gone(i) ==> exists j :: Done(j) && news[j].key == olds[i].key
    }

    // Keyed new vnodes took over the elements of their old counterparts.
    ghost predicate Kept(e: Elms) {
      forall i, j :: Done(j) && 0 <= i < |olds| && news[j].key.Some? && SameVnode(olds[i], news[j]) ==>
        TookOver(e, olds[i], news[j])
    }

    ghost predicate Sourced(e: Elms) {
      forall j :: Done(j) ==>
        news[j].id in e && (e[news[j].id] >= base || exists i :: 0 <= i < |olds| && Inherits(e, olds[i], news[j]))
    }

    // Every old vnode that left the window was taken over, and a finished new
    // vnode that took over from none is the same as none still there.
    ghost predicate Tight(e: Elms)
      requires |oldCh| == |olds|
    {
      && (forall i :: Gone(i) ==> exists j :: Done(j) && Inherits(e, olds[i], news[j]))
      && (forall i, j :: Done(j) && 0 <= i < |olds| && !Gone(i) && (news[j].key.None? || DistinctKeys(olds)) && SameVnode(olds[i], news[j]) ==>
        exists k :: 0 <= k < |olds| && Inherits(e, olds[k], news[j]))
    }

    // The key index is a correct snapshot: whatever key it knows is that of
    // the old vnode it names, and it knows every key still in the window.
    ghost predicate Indexed(index: map<string, nat>) {
      && (forall k :: k in index ==> index[k] < |olds| && olds[index[k]].key == Some(k))
      && (forall i :: 0 <= i < |olds| && os <= i <= oe && olds[i].key.Some? ==> olds[i].key.value in index)
    }
  }

  // Stepping over an emptied slot at the start of the window.
  lemma CurDropFirst(g: State)
    requires g.Shape() && g.os <= g.oe && g.oldCh[g.os].None?
    ensures g.(os := g.os + 1).Shape() && g.(os := g.os + 1).Cur() == g.Cur()
  {
    assert g.Window()[1..] == g.(os := g.os + 1).Window();
  }

  lemma WindowLast(g: State)
    requires g.Shape() && g.os <= g.oe
    ensures g.(oe := g.oe - 1).Shape()
    ensures Live(g.Window()) == Live(g.(oe := g.oe - 1).Window()) + Live([g.oldCh[g.oe]])
  {
    var s := g.(oe := g.oe - 1).Window();
    assert g.Window() == s + [g.oldCh[g.oe]];
    LiveConcat(s, [g.oldCh[g.oe]]);
  }

  lemma CurDropLast(g: State)
    requires g.Shape() && g.os <= g.oe && g.oldCh[g.oe].None?
    ensures g.(oe := g.oe - 1).Shape() && g.(oe := g.oe - 1).Cur() == g.Cur()
  {
    WindowLast(g);
    assert Live([g.oldCh[g.oe]]) == [];
  }

  lemma WindowFirst(g: State)
    requires g.Shape() && g.os <= g.oe
    ensures g.(os := g.os + 1).Shape()
    ensures Live(g.Window()) == Live([g.oldCh[g.os]]) + Live(g.(os := g.os + 1).Window())
  {
    var s := g.(os := g.os + 1).Window();
    assert g.Window() == [g.oldCh[g.os]] + s;
    LiveConcat([g.oldCh[g.os]], s);
  }

  lemma WindowMiddle(g: State, x: nat)
    requires g.Shape() && g.os <= x <= g.oe && g.oldCh[x].Some?
    ensures g.(oldCh := g.oldCh[x := None]).Shape()
    ensures var a, b := Live(g.oldCh[g.os..x]), Live(g.oldCh[x + 1..g.oe + 1]);
      && Live(g.Window()) == a + [g.oldCh[x].value] + b
      && Live(g.(oldCh := g.oldCh[x := None]).Window()) == a + b
  {
    hide Live;
    var s, t := g.oldCh[g.os..x], g.oldCh[x + 1..g.oe + 1];
    WindowCut(g, x);
    hide *;
    WindowSplit(s, g.oldCh[x], t);
    WindowSplit(s, None, t);
  }

  lemma WindowCut(g: State, x: nat)
    requires g.Shape() && g.os <= x <= g.oe
    ensures var h, s, t := g.(oldCh := g.oldCh[x := None]), g.oldCh[g.os..x], g.oldCh[x + 1..g.oe + 1];
      h.Shape() && g.Window() == s + [g.oldCh[x]] + t && h.Window() == s + [None] + t
  {
    Cut(g.oldCh, g.os, x, g.oe, None);
  }

  lemma Cut<T>(s: seq<T>, i: nat, x: nat, j: nat, y: T)
    requires i <= x <= j < |s|
    ensures s[i..j + 1] == s[i..x] + [s[x]] + s[x + 1..j + 1]
    ensures s[x := y][i..j + 1] == s[i..x] + [y] + s[x + 1..j + 1]
  {
  }

  lemma MoveToFront<T>(A: seq<T>, a: seq<T>, o: T, b: seq<T>, B: seq<T>, v: T)
    ensures var cur, k := A + (a + [o] + b) + B, |A| + |a|;
      && cur[k] == o
      && var mid := cur[k := v];
      mid[..|A|] + [mid[k]] + mid[|A|..k] + mid[k + 1..] == (A + [v]) + (a + b) + B
  {
    var cur, k := A + (a + [o] + b) + B, |A| + |a|;
    var mid := cur[k := v];
    assert mid[..|A|] == A;
    assert mid[|A|..k] == a;
    assert mid[k + 1..] == b + B;
  }

  lemma WindowSplit(s: seq<Option<VNode>>, o: Option<VNode>, t: seq<Option<VNode>>)
    ensures Live(s + [o] + t) == Live(s) + (if o.Some? then [o.value] else []) + Live(t)
  {
    LiveConcat(s + [o], t);
    LiveConcat(s, [o]);
  }

  // Start against start.
  lemma CurStartStart(g: State)
    requires g.Shape() && g.os <= g.oe && g.ns <= g.ne && g.oldCh[g.os].Some?
    ensures var g' := g.(os := g.os + 1, ns := g.ns + 1);
      && g'.Shape() && g.ns < |g.Cur()| && g.Cur()[g.ns] == g.oldCh[g.os].value
      && g.Cur()[g.ns := g.news[g.ns]] == g'.Cur()
  {
    WindowFirst(g);
    var g' := g.(os := g.os + 1, ns := g.ns + 1);
    var L := Live(g'.Window());
    assert Live([g.oldCh[g.os]]) == [g.oldCh[g.os].value];
    assert g.Cur() == g.news[..g.ns] + ([g.oldCh[g.os].value] + L) + g.news[g.ne + 1..];
    assert g'.news[..g'.ns] == g.news[..g.ns] + [g.news[g.ns]];
  }

  // Position in the displayed list of the last live old vnode.
  function EndAt(g: State): int
    requires g.Shape()
  {
    g.ns + |Live(g.Window())| - 1
  }

  // End against end.
  lemma CurEndEnd(g: State)
    requires g.Shape() && g.os <= g.oe && g.ns <= g.ne && g.oldCh[g.oe].Some?
    ensures var g' := g.(oe := g.oe - 1, ne := g.ne - 1);
      && g'.Shape() && g.ns <= EndAt(g) < |g.Cur()| && g.Cur()[EndAt(g)] == g.oldCh[g.oe].value
      && g.Cur()[EndAt(g) := g.news[g.ne]] == g'.Cur()
  {
    WindowLast(g);
    var g' := g.(oe := g.oe - 1, ne := g.ne - 1);
    var L := Live(g'.Window());
    assert Live([g.oldCh[g.oe]]) == [g.oldCh[g.oe].value];
    assert g.Cur() == g.news[..g.ns] + (L + [g.oldCh[g.oe].value]) + g.news[g.ne + 1..];
    assert g'.news[g'.ne + 1..] == [g.news[g.ne]] + g.news[g.ne + 1..];
  }

  // Start against end: patched in place, then moved behind the last one.
  lemma CurStartEnd(g: State)
    requires g.Shape() && g.os <= g.oe && g.ns <= g.ne && g.oldCh[g.os].Some?
    ensures var g' := g.(os := g.os + 1, ne := g.ne - 1);
      && g'.Shape() && g.ns <= EndAt(g) < |g.Cur()| && g.Cur()[g.ns] == g.oldCh[g.os].value
      && var mid := g.Cur()[g.ns := g.news[g.ne]];
      mid[..g.ns] + mid[g.ns + 1..EndAt(g) + 1] + [mid[g.ns]] + mid[EndAt(g) + 1..] == g'.Cur()
  {
    WindowFirst(g);
    var g' := g.(os := g.os + 1, ne := g.ne - 1);
    var L := Live(g'.Window());
    assert Live([g.oldCh[g.os]]) == [g.oldCh[g.os].value];
    assert g.Cur() == g.news[..g.ns] + ([g.oldCh[g.os].value] + L) + g.news[g.ne + 1..];
    assert g'.news[g'.ne + 1..] == [g.news[g.ne]] + g.news[g.ne + 1..];
    var mid := g.Cur()[g.ns := g.news[g.ne]];
    assert mid[g.ns + 1..EndAt(g) + 1] == L;
    assert mid[..g.ns] == g.news[..g.ns];
    assert mid[EndAt(g) + 1..] == g.news[g.ne + 1..];
  }

  lemma LiveFirst(s: seq<Option<VNode>>)
    requires |s| > 0 && s[0].Some?
    ensures |Live(s)| >= 1
  {
  }

  lemma CurMovedParts(g: State, x: nat, a: seq<VNode>, b: seq<VNode>)
    requires g.Shape() && g.os <= x <= g.oe && g.ns <= g.ne && g.oldCh[x].Some?
    requires a == Live(g.oldCh[g.os..x]) && b == Live(g.oldCh[x + 1..g.oe + 1])
    ensures g.(oldCh := g.oldCh[x := None], ns := g.ns + 1).Shape()
    ensures g.Cur() == g.news[..g.ns] + (a + [g.oldCh[x].value] + b) + g.news[g.ne + 1..]
    ensures g.(oldCh := g.oldCh[x := None], ns := g.ns + 1).Cur() == (g.news[..g.ns] + [g.news[g.ns]]) + (a + b) + g.news[g.ne + 1..]
  {
    hide Live;
    WindowMiddle(g, x);
    assert g.news[..g.ns + 1] == g.news[..g.ns] + [g.news[g.ns]];
  }

  // A live old vnode at index x against start: patched in place, then moved
  // before the first live one.
  lemma CurMoved(g: State, x: nat)
    requires g.Shape() && g.os < x <= g.oe && g.ns <= g.ne && g.oldCh[x].Some? && g.oldCh[g.os].Some?
    ensures var g' := g.(oldCh := g.oldCh[x := None], ns := g.ns + 1);
      var k := g.ns + |Live(g.oldCh[g.os..x])|;
      && g'.Shape() && g.ns < k < |g.Cur()| && g.Cur()[k] == g.oldCh[x].value
      && var mid := g.Cur()[k := g.news[g.ns]];
      mid[..g.ns] + [mid[k]] + mid[g.ns..k] + mid[k + 1..] == g'.Cur()
  {
    hide State.Cur, State.Window, Live;
    var a, b := Live(g.oldCh[g.os..x]), Live(g.oldCh[x + 1..g.oe + 1]);
    LiveFirst(g.oldCh[g.os..x]);
    CurMovedParts(g, x, a, b);
    MoveToFront(g.news[..g.ns], a, g.oldCh[x].value, b, g.news[g.ne + 1..], g.news[g.ns]);
  }

  lemma CurEndStartParts(g: State, a: seq<VNode>)
    requires g.Shape() && g.os < g.oe && g.ns <= g.ne && g.oldCh[g.oe].Some? && g.oldCh[g.os].Some?
    requires a == Live(g.oldCh[g.os..g.oe])
    ensures g.(oe := g.oe - 1, ns := g.ns + 1).Shape() && |a| >= 1 && EndAt(g) == g.ns + |a|
    ensures g.Cur() == g.news[..g.ns] + (a + [g.oldCh[g.oe].value] + []) + g.news[g.ne + 1..]
    ensures g.(oe := g.oe - 1, ns := g.ns + 1).Cur() == (g.news[..g.ns] + [g.news[g.ns]]) + (a + []) + g.news[g.ne + 1..]
  {
    WindowLast(g);
    assert g.oldCh[g.os..g.oe][0] == g.oldCh[g.os];
    assert Live([g.oldCh[g.oe]]) == [g.oldCh[g.oe].value];
    hide Live;
    assert a + [g.oldCh[g.oe].value] + [] == a + [g.oldCh[g.oe].value] && a + [] == a;
    assert g.news[..g.ns + 1] == g.news[..g.ns] + [g.news[g.ns]];
  }

  // End against start.
  lemma CurEndStart(g: State)
    requires g.Shape() && g.os < g.oe && g.ns <= g.ne && g.oldCh[g.oe].Some? && g.oldCh[g.os].Some?
    ensures var g' := g.(oe := g.oe - 1, ns := g.ns + 1);
      && g'.Shape() && g.ns < EndAt(g) < |g.Cur()| && g.Cur()[EndAt(g)] == g.oldCh[g.oe].value
      && var mid := g.Cur()[EndAt(g) := g.news[g.ns]];
      mid[..g.ns] + [mid[EndAt(g)]] + mid[g.ns..EndAt(g)] + mid[EndAt(g) + 1..] == g'.Cur()
  {
    var a := Live(g.oldCh[g.os..g.oe]);
    CurEndStartParts(g, a);
    hide State.Cur, State.Window, Live, EndAt;
    MoveToFront(g.news[..g.ns], a, g.oldCh[g.oe].value, [], g.news[g.ne + 1..], g.news[g.ns]);
  }

  // A new element before the first live old one.
  lemma CurCreated(g: State)
    requires g.Shape() && g.ns <= g.ne
    ensures var g' := g.(ns := g.ns + 1);
      && g'.Shape() && g.ns <= |g.Cur()|
      && g.Cur()[..g.ns] + [g.news[g.ns]] + g.Cur()[g.ns..] == g'.Cur()
  {
    assert g.news[..g.ns + 1] == g.news[..g.ns] + [g.news[g.ns]];
  }
}
