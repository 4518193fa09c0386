// The part of the browser's document that the patcher edits: a mutable forest
// of nodes with parent and child lists (sections 4.2.3 and 4.4 of the WHATWG
// DOM Standard), reached through the wrappers collected in `nodeOps`.
module Dom {
  import opened Sequences

  type Id = nat

  datatype Kind = Element(tag: string) | TextNode(data: string) | CommentNode(data: string)

  // Every node ever created stays in `kind` and `kids`; a node without an
  // entry in `parent` is detached. `next` is an identity no node has yet.
  datatype Doc = Doc(kind: map<Id, Kind>, kids: map<Id, seq<Id>>, parent: map<Id, Id>, next: Id) {

    // Parent and child lists agree.
    ghost predicate Valid() {
      && kids.Keys == kind.Keys
      && (forall n :: n in kind ==> n < next)
      && (forall n :: n in kids ==> Distinct(kids[n]))
      && (forall n, c :: n in kids && c in kids[n] ==> c in kind && c in parent && parent[c] == n)
      && (forall c :: c in parent ==> parent[c] in kids && c in kids[parent[c]])
    }

    function Create(k: Kind): Doc {
      Doc(kind[next := k], kids[next := []], parent, next + 1)
    }

    // removeChild, with the parent looked up first (`removeNode`): nothing
    // happens to a node that has no parent.
    function Detach(n: Id): Doc
      requires Valid()
    {
      if n in parent then
        this.(kids := kids[parent[n] := Remove(kids[parent[n]], n)], parent := parent - {n})
      else this
    }

    function NextSibling(n: Id): Option<Id>
      requires Valid()
    {
      if n in parent then
        var s := kids[parent[n]];
        var i := IndexOf(s, n);
        if i + 1 < |s| then Some(s[i + 1]) else None
      else None
    }

    // insertBefore of an attached node moves it; a node inserted before
    // itself keeps its place. Without a reference this is appendChild.
    function InsertBefore(p: Id, n: Id, ref: Option<Id>): Doc
      requires Valid() && p in kids && n in kind
      requires ref.Some? ==> ref.value in kids[p]
    {
      var r := if ref == Some(n) then NextSibling(n) else ref;
      var d := Detach(n);
      var s := d.kids[p];
      d.Place(p, n, if r.Some? && r.value in s then IndexOf(s, r.value) else |s|)
    }

    // A detached node becomes child number i of p.
    function Place(p: Id, n: Id, i: nat): Doc
      requires p in kids && i <= |kids[p]|
    {
      this.(kids := kids[p := kids[p][..i] + [n] + kids[p][i..]], parent := parent[n := p])
    }

    function SetData(n: Id, text: string): Doc
      requires n in kind && !kind[n].Element?
    {
      this.(kind := kind[n := if kind[n].TextNode? then TextNode(text) else CommentNode(text)])
    }
  }

  lemma CreateValid(d: Doc, k: Kind)
    requires d.Valid()
    ensures d.Create(k).Valid() && d.next !in d.kind && d.next !in d.parent
  {
  }

  lemma DetachValid(d: Doc, n: Id)
    requires d.Valid()
    ensures d.Detach(n).Valid() && n !in d.Detach(n).parent
    ensures d.Detach(n).kind == d.kind && d.Detach(n).next == d.next
    ensures forall m :: m in d.kids && !(n in d.parent && m == d.parent[n]) ==> d.Detach(n).kids[m] == d.kids[m]
  {
    hide Remove, Distinct;
    if n in d.parent {
      var p := d.parent[n];
      RemoveDistinct(d.kids[p], n);
      var e := d.Detach(n);
      forall m, c | m in e.kids && c in e.kids[m]
        ensures c in e.kind && c in e.parent && e.parent[c] == m
      {
        assert c in d.kids[m];
      }
      forall c | c in e.parent
        ensures e.parent[c] in e.kids && c in e.kids[e.parent[c]]
      {
      }
    }
  }

  lemma InsertDistinct<T>(s: seq<T>, i: nat, x: T)
    requires Distinct(s) && i <= |s| && x !in s
    ensures Distinct(s[..i] + [x] + s[i..])
    ensures forall y :: y in s[..i] + [x] + s[i..] <==> y in s || y == x
  {
    assert forall y :: y in s <==> y in s[..i] || y in s[i..];
  }

  lemma PlaceValid(d: Doc, p: Id, n: Id, i: nat)
    requires d.Valid() && p in d.kids && n in d.kind && n !in d.parent && i <= |d.kids[p]|
    ensures d.Place(p, n, i).Valid()
  {
    hide Distinct;
    var s := d.kids[p];
    InsertDistinct(s, i, n);
    var e := d.Place(p, n, i);
    forall m, c | m in e.kids && c in e.kids[m]
      ensures c in e.kind && c in e.parent && e.parent[c] == m
    {
    }
    forall c | c in e.parent
      ensures e.parent[c] in e.kids && c in e.kids[e.parent[c]]
    {
    }
  }

  lemma InsertValid(d: Doc, p: Id, n: Id, ref: Option<Id>)
    requires d.Valid() && p in d.kids && n in d.kind
    requires ref.Some? ==> ref.value in d.kids[p]
    ensures d.InsertBefore(p, n, ref).Valid()
  {
    hide Doc.Valid, Doc.Detach, Doc.NextSibling, IndexOf;
    DetachValid(d, n);
    var e := d.Detach(n);
    var r := if ref == Some(n) then d.NextSibling(n) else ref;
    assert e.kids.Keys == e.kind.Keys && d.kids.Keys == d.kind.Keys by { KeysAgree(d); KeysAgree(e); }
    PlaceValid(e, p, n, if r.Some? && r.value in e.kids[p] then IndexOf(e.kids[p], r.value) else |e.kids[p]|);
  }

  lemma KeysAgree(d: Doc)
    requires d.Valid()
    ensures d.kids.Keys == d.kind.Keys
  {
  }

  // Where a node put before `ref` ends up among the children s.
  function Slot(s: seq<Id>, ref: Option<Id>): (k: nat)
    ensures k <= |s|
  {
    if ref.Some? && ref.value in s then IndexOf(s, ref.value) else |s|
  }

  // A node that has no parent yet.
  lemma InsertFresh(d: Doc, p: Id, n: Id, ref: Option<Id>)
    requires d.Valid() && p in d.kids && n in d.kind && n !in d.parent
    requires ref.Some? ==> ref.value in d.kids[p]
    ensures d.InsertBefore(p, n, ref) == d.Place(p, n, Slot(d.kids[p], ref))
    ensures d.InsertBefore(p, n, ref).Valid()
  {
    assert n !in d.kids[p];
    PlaceValid(d, p, n, Slot(d.kids[p], ref));
  }

  // Moving a child among its siblings changes that one child list only: the
  // child goes directly in front of the reference, or to the end without one,
  // and the others keep their order.
  lemma InsertSibling(d: Doc, p: Id, n: Id, ref: Option<Id>)
    requires d.Valid() && p in d.kids && n in d.kids[p]
    requires ref.Some? ==> ref.value in d.kids[p]
    ensures var e := d.InsertBefore(p, n, ref);
      && e.Valid() && e.kind == d.kind && e.next == d.next && p in e.kids
      && e.kids == d.kids[p := e.kids[p]]
      && var s, t := d.kids[p], Remove(d.kids[p], n);
        (ref == Some(n) ==> e.kids[p] == s) && (ref.None? ==> e.kids[p] == t + [n]) &&
        (ref.Some? && ref.value != n ==>
           ref.value in t && e.kids[p] == t[..IndexOf(t, ref.value)] + [n] + t[IndexOf(t, ref.value)..])
  {
    hide *;
    SiblingFrame(d, p, n, ref);
    SiblingSlot(d, p, n, ref);
  }

  lemma SiblingFrame(d: Doc, p: Id, n: Id, ref: Option<Id>)
    requires d.Valid() && p in d.kids && n in d.kids[p]
    requires ref.Some? ==> ref.value in d.kids[p]
    ensures n in d.kind
    ensures var e := d.InsertBefore(p, n, ref);
      && e.Valid() && e.kind == d.kind && e.next == d.next && p in e.kids
      && e.kids == d.kids[p := e.kids[p]]
  {
    InsertValid(d, p, n, ref);
    hide Remove, IndexOf, Distinct;
  }

  lemma SiblingSlot(d: Doc, p: Id, n: Id, ref: Option<Id>)
    requires d.Valid() && p in d.kids && n in d.kids[p]
    requires ref.Some? ==> ref.value in d.kids[p]
    ensures n in d.kind && p in d.InsertBefore(p, n, ref).kids
    ensures var e, s, t := d.InsertBefore(p, n, ref), d.kids[p], Remove(d.kids[p], n);
      (ref == Some(n) ==> e.kids[p] == s) && (ref.None? ==> e.kids[p] == t + [n]) &&
      (ref.Some? && ref.value != n ==>
         ref.value in t && e.kids[p] == t[..IndexOf(t, ref.value)] + [n] + t[IndexOf(t, ref.value)..])
  {
    hide *;
    var s := d.kids[p];
    var k := IndexOf(s, n);
    KeysAgree(d);
    DetachAt(d, p, k);
    NextSiblingAt(d, p, k);
    RemoveAt(s, k);
    PlacedAt(d, p, k, ref);
    MembersLeft(s, k, ref);
    BackInPlace(s, k);
    var r := if ref == Some(n) then d.NextSibling(n) else ref;
    SlotIs(Remove(s, n), r);
    var t := Remove(s, n);
    assert t[..|t|] == t && t[|t|..] == [];
  }

  lemma SlotIs(s: seq<Id>, ref: Option<Id>)
    ensures ref.Some? && ref.value in s ==> Slot(s, ref) == IndexOf(s, ref.value)
    ensures ref.None? ==> Slot(s, ref) == |s|
  {
    hide IndexOf;
  }

  lemma PlacedAt(d: Doc, p: Id, k: nat, ref: Option<Id>)
    requires d.Valid() && p in d.kids && k < |d.kids[p]| && d.kids[p][k] in d.kind
    requires ref.Some? ==> ref.value in d.kids[p]
    requires p in d.Detach(d.kids[p][k]).kids
    ensures var n, t := d.kids[p][k], d.Detach(d.kids[p][k]).kids[p];
      var i := Slot(t, if ref == Some(n) then d.NextSibling(n) else ref);
      p in d.InsertBefore(p, n, ref).kids && d.InsertBefore(p, n, ref).kids[p] == t[..i] + [n] + t[i..]
  {
    hide Doc.Valid, Doc.Detach, Doc.NextSibling, IndexOf;
  }

  lemma MembersLeft(s: seq<Id>, k: nat, ref: Option<Id>)
    requires Distinct(s) && k < |s| && (ref.Some? ==> ref.value in s)
    ensures ref.Some? && ref.value != s[k] ==> ref.value in s[..k] + s[k + 1..]
  {
    CutMembers(s, k);
  }

  // A child put in front of its own next sibling is where it was.
  lemma BackInPlace(s: seq<Id>, k: nat)
    requires Distinct(s) && k < |s|
    ensures var t := s[..k] + s[k + 1..];
      if k + 1 < |s| then s[k + 1] in t && t[..IndexOf(t, s[k + 1])] + [s[k]] + t[IndexOf(t, s[k + 1])..] == s else t + [s[k]] == s
  {
    var t := s[..k] + s[k + 1..];
    if k + 1 < |s| {
      assert t[k] == s[k + 1];
      assert forall i :: 0 <= i < k ==> t[i] == s[i];
      assert IndexOf(t, s[k + 1]) == k;
    }
  }

  lemma DetachChild(d: Doc, p: Id, k: nat)
    requires d.Valid() && p in d.kids && k < |d.kids[p]|
    ensures var s := d.kids[p];
      var e := d.Detach(s[k]);
      && e.Valid() && e.kind == d.kind && e.next == d.next
      && e.kids == d.kids[p := s[..k] + s[k + 1..]]
  {
    assert d.kids[p][k] in d.kids[p];
    DetachValid(d, d.kids[p][k]);
    RemoveAt(d.kids[p], k);
  }

  // A child moved left: from position k to before position m.
  lemma MoveLeft(d: Doc, p: Id, m: nat, k: nat)
    requires d.Valid() && p in d.kids && m < k < |d.kids[p]|
    ensures var s := d.kids[p];
      d.InsertBefore(p, s[k], Some(s[m])).kids[p] == s[..m] + [s[k]] + s[m..k] + s[k + 1..]
  {
    var s := d.kids[p];
    hide Doc.Valid, Doc.Detach, Doc.NextSibling;
    DetachAt(d, p, k);
    var t := s[..k] + s[k + 1..];
    assert t[m] == s[m];
    assert IndexOf(t, t[m]) == m;
    assert t[..m] + [s[k]] + t[m..] == s[..m] + [s[k]] + s[m..k] + s[k + 1..];
  }

  lemma NextSiblingAt(d: Doc, p: Id, m: nat)
    requires d.Valid() && p in d.kids && m < |d.kids[p]|
    ensures var s := d.kids[p];
      d.NextSibling(s[m]) == (if m + 1 < |s| then Some(s[m + 1]) else None)
  {
    var s := d.kids[p];
    assert s[m] in s;
    assert IndexOf(s, s[m]) == m;
  }

  lemma DetachAt(d: Doc, p: Id, k: nat)
    requires d.Valid() && p in d.kids && k < |d.kids[p]|
    ensures var s := d.kids[p];
      && s[k] in s && s[k] in d.kind && Distinct(s)
      && p in d.Detach(s[k]).kids && d.Detach(s[k]).kids[p] == s[..k] + s[k + 1..]
      && Distinct(s[..k] + s[k + 1..])
  {
    var s := d.kids[p];
    assert s[k] in s;
    RemoveAt(s, k);
    RemoveDistinct(s, s[k]);
  }

  // A child moved right: from position k to after position m.
  lemma MoveRight(d: Doc, p: Id, k: nat, m: nat)
    requires d.Valid() && p in d.kids && k <= m < |d.kids[p]|
    ensures var s := d.kids[p];
      d.InsertBefore(p, s[k], d.NextSibling(s[m])).kids[p] == s[..k] + s[k + 1..m + 1] + [s[k]] + s[m + 1..]
  {
    var s := d.kids[p];
    hide Doc.Valid, Doc.Detach, Doc.NextSibling;
    NextSiblingAt(d, p, m);
    DetachAt(d, p, k);
    var t := s[..k] + s[k + 1..];
    Shifted(s, k, m);
    if m + 1 < |s| {
      assert IndexOf(t, t[m]) == m;
    }
  }

  lemma Shifted<T>(s: seq<T>, k: nat, m: nat)
    requires k <= m < |s|
    ensures var t := s[..k] + s[k + 1..];
      |t| == |s| - 1 && (m < |t| ==> t[m] == s[m + 1]) && (m == |t| ==> t[..m] == t && t[m..] == []) &&
      t[..m] + [s[k]] + t[m..] == s[..k] + s[k + 1..m + 1] + [s[k]] + s[m + 1..]
  {
    var t := s[..k] + s[k + 1..];
    assert t[..m] == s[..k] + s[k + 1..m + 1];
    assert t[m..] == s[m + 1..];
  }
}
