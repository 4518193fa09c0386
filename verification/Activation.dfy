// The flags that keep-alive leaves on a tree of components.
module Activation {

  datatype Vm = Vm(id: nat, children: seq<Vm>)

  // _inactive is null until the component is first activated.
  datatype Flag = Null | No | Yes

  datatype Hook = Activated(id: nat) | Deactivated(id: nat)

  type Flags = map<nat, Flag>

  type Directs = map<nat, bool>

  // The flags, and the hooks that have been called.
  datatype State = State(flags: Flags, hooks: seq<Hook>)

  // ----- component trees

  function Ids(vm: Vm): set<nat>
    decreases vm
  {
    {vm.id} + IdsOf(vm.children)
  }

  function IdsOf(vms: seq<Vm>): set<nat>
    decreases vms
  {
    if vms == [] then {} else IdsOf(vms[..|vms| - 1]) + Ids(vms[|vms| - 1])
  }

  // Every component occurs once.
  predicate Tree(vm: Vm)
    decreases vm
  {
    vm.id !in IdsOf(vm.children) && Trees(vm.children)
  }

  predicate Trees(vms: seq<Vm>)
    decreases vms
  {
    vms == [] || (Trees(vms[..|vms| - 1]) && Tree(vms[|vms| - 1]) && IdsOf(vms[..|vms| - 1]) !! Ids(vms[|vms| - 1]))
  }

  predicate Known(ids: set<nat>, flags: Flags, direct: Directs) {
    ids <= flags.Keys && ids <= direct.Keys
  }

  // A flag next to that of the parent: inactive exactly if the component is
  // switched off or its parent inactive; active if its parent is and it is not
  // switched off. Below a component that was never activated, either is left.
  predicate Fits(flag: Flag, direct: bool, parent: Flag) {
    (flag.Yes? <==> direct || parent.Yes?) && (parent.No? && !direct ==> flag.No?)
  }

  predicate Agrees(vm: Vm, flags: Flags, direct: Directs, parent: Flag)
    requires Known(Ids(vm), flags, direct)
    decreases vm
  {
    Fits(flags[vm.id], direct[vm.id], parent) && AllAgree(vm.children, flags, direct, flags[vm.id])
  }

  predicate AllAgree(vms: seq<Vm>, flags: Flags, direct: Directs, parent: Flag)
    requires Known(IdsOf(vms), flags, direct)
    decreases vms
  {
    vms == [] ||
    (AllAgree(vms[..|vms| - 1], flags, direct, parent) && Agrees(vms[|vms| - 1], flags, direct, parent))
  }

  predicate Same<T(==)>(ids: set<nat>, m: map<nat, T>, n: map<nat, T>) {
    forall id :: id in ids ==> id in m && id in n && m[id] == n[id]
  }

  lemma {:induction false} AgreesFrame(vm: Vm, f: Flags, g: Flags, d: Directs, e: Directs, parent: Flag)
    requires Known(Ids(vm), f, d) && Known(Ids(vm), g, e) && Same(Ids(vm), f, g) && Same(Ids(vm), d, e)
    requires Agrees(vm, f, d, parent)
    ensures Agrees(vm, g, e, parent)
    decreases vm
  {
    AllAgreeFrame(vm.children, f, g, d, e, f[vm.id]);
  }

  lemma {:induction false} AllAgreeFrame(vms: seq<Vm>, f: Flags, g: Flags, d: Directs, e: Directs, parent: Flag)
    requires Known(IdsOf(vms), f, d) && Known(IdsOf(vms), g, e) && Same(IdsOf(vms), f, g) && Same(IdsOf(vms), d, e)
    requires AllAgree(vms, f, d, parent)
    ensures AllAgree(vms, g, e, parent)
    decreases vms
  {
    if vms != [] {
      AllAgreeFrame(vms[..|vms| - 1], f, g, d, e, parent);
      AgreesFrame(vms[|vms| - 1], f, g, d, e, parent);
    }
  }

  // ----- what activating and deactivating do below a component

  function Off(vm: Vm, s: State): (t: State)
    requires Ids(vm) <= s.flags.Keys
    ensures t.flags.Keys == s.flags.Keys
    decreases vm
  {
    if s.flags[vm.id].Yes? then s
    else
      var t := AllOff(vm.children, State(s.flags[vm.id := Yes], s.hooks));
      State(t.flags, t.hooks + [Deactivated(vm.id)])
  }

  function AllOff(vms: seq<Vm>, s: State): (t: State)
    requires IdsOf(vms) <= s.flags.Keys
    ensures t.flags.Keys == s.flags.Keys
    decreases vms
  {
    if vms == [] then s else Off(vms[|vms| - 1], AllOff(vms[..|vms| - 1], s))
  }

  function On(vm: Vm, s: State, direct: Directs): (t: State)
    requires Known(Ids(vm), s.flags, direct)
    ensures t.flags.Keys == s.flags.Keys
    decreases vm, 1
  {
    if direct[vm.id] then s else OnNow(vm, s, direct)
  }

  function OnNow(vm: Vm, s: State, direct: Directs): (t: State)
    requires Known(Ids(vm), s.flags, direct)
    ensures t.flags.Keys == s.flags.Keys
    decreases vm, 0
  {
    if s.flags[vm.id].No? then s
    else
      var t := AllOn(vm.children, State(s.flags[vm.id := No], s.hooks), direct);
      State(t.flags, t.hooks + [Activated(vm.id)])
  }

  function AllOn(vms: seq<Vm>, s: State, direct: Directs): (t: State)
    requires Known(IdsOf(vms), s.flags, direct)
    ensures t.flags.Keys == s.flags.Keys
    decreases vms
  {
    if vms == [] then s else On(vms[|vms| - 1], AllOn(vms[..|vms| - 1], s, direct), direct)
  }

  // The components from below, each behind its children.
  function Inward(vm: Vm): seq<nat>
    decreases vm
  {
    InwardAll(vm.children) + [vm.id]
  }

  function InwardAll(vms: seq<Vm>): seq<nat>
    decreases vms
  {
    if vms == [] then [] else InwardAll(vms[..|vms| - 1]) + Inward(vms[|vms| - 1])
  }

  // One hook for each of these components whose flag changes from f to g.
  function Calls(ids: seq<nat>, f: Flags, g: Flags): seq<Hook> {
    if ids == [] then []
    else
      var id := ids[|ids| - 1];
      Calls(ids[..|ids| - 1], f, g) +
      if id in f && id in g && f[id] != g[id] then [if g[id].Yes? then Deactivated(id) else Activated(id)] else []
  }

  // Between two states only flags of these components change, and the hooks
  // called are those of the components whose flag changed, in this order.
  ghost predicate Called(ids: seq<nat>, s: State, t: State) {
    t.flags.Keys == s.flags.Keys && t.hooks == s.hooks + Calls(ids, s.flags, t.flags) &&
    forall id :: id in s.flags && id !in ids ==> s.flags[id] == t.flags[id]
  }

  lemma {:induction false} InwardIds(vm: Vm)
    ensures forall id :: id in Inward(vm) <==> id in Ids(vm)
    decreases vm
  {
    InwardAllIds(vm.children);
  }

  lemma {:induction false} InwardAllIds(vms: seq<Vm>)
    ensures forall id :: id in InwardAll(vms) <==> id in IdsOf(vms)
    decreases vms
  {
    if vms != [] {
      InwardAllIds(vms[..|vms| - 1]);
      InwardIds(vms[|vms| - 1]);
    }
  }

  lemma {:induction false} CallsJoin(a: seq<nat>, b: seq<nat>, f: Flags, g: Flags)
    ensures Calls(a + b, f, g) == Calls(a, f, g) + Calls(b, f, g)
  {
    if b == [] {
      assert a + b == a;
    } else {
      var n := |b| - 1;
      CallsJoin(a, b[..n], f, g);
      assert (a + b)[..|a| + n] == a + b[..n];
    }
  }

  lemma {:induction false} CallsFrame(ids: seq<nat>, f: Flags, g: Flags, f': Flags, g': Flags)
    requires f.Keys == f'.Keys && g.Keys == g'.Keys
    requires forall id :: id in ids && id in f ==> f[id] == f'[id]
    requires forall id :: id in ids && id in g ==> g[id] == g'[id]
    ensures Calls(ids, f, g) == Calls(ids, f', g')
  {
    if ids != [] {
      assert ids[|ids| - 1] in ids;
      CallsFrame(ids[..|ids| - 1], f, g, f', g');
    }
  }

  lemma CalledJoin(a: seq<nat>, b: seq<nat>, s: State, t: State, u: State)
    requires (forall id :: id in a ==> id !in b) && Called(a, s, t) && Called(b, t, u)
    ensures Called(a + b, s, u)
  {
    hide Calls;
    CallsJoin(a, b, s.flags, u.flags);
    CallsFrame(a, s.flags, t.flags, s.flags, u.flags);
    CallsFrame(b, t.flags, u.flags, s.flags, u.flags);
  }

  lemma {:induction false} NoneCalled(ids: seq<nat>, s: State)
    ensures Called(ids, s, s)
  {
    if ids != [] {
      NoneCalled(ids[..|ids| - 1], s);
    }
  }

  // A component's own change, around the changes below it.
  lemma CalledAround(id: nat, ids: seq<nat>, s: State, f: Flag, t: State)
    requires id in s.flags && id !in ids && s.flags[id] != f && !f.Null?
    requires Called(ids, State(s.flags[id := f], s.hooks), t)
    ensures Called(ids + [id], s, State(t.flags, t.hooks + [if f.Yes? then Deactivated(id) else Activated(id)]))
  {
    var r := State(s.flags[id := f], s.hooks);
    assert r.flags[id] == t.flags[id];
    CallsFrame(ids, r.flags, t.flags, s.flags, t.flags);
    assert (ids + [id])[..|ids|] == ids;
  }

  lemma {:induction false} OffCalled(vm: Vm, s: State)
    requires Tree(vm) && Ids(vm) <= s.flags.Keys
    ensures Called(Inward(vm), s, Off(vm, s))
    decreases vm
  {
    hide Called;
    if s.flags[vm.id].Yes? {
      NoneCalled(Inward(vm), s);
    } else {
      var r := State(s.flags[vm.id := Yes], s.hooks);
      AllOffCalled(vm.children, r);
      InwardAllIds(vm.children);
      CalledAround(vm.id, InwardAll(vm.children), s, Yes, AllOff(vm.children, r));
    }
  }

  lemma {:induction false} AllOffCalled(vms: seq<Vm>, s: State)
    requires Trees(vms) && IdsOf(vms) <= s.flags.Keys
    ensures Called(InwardAll(vms), s, AllOff(vms, s))
    decreases vms
  {
    hide Called;
    if vms == [] {
      NoneCalled([], s);
    } else {
      var before, vm := vms[..|vms| - 1], vms[|vms| - 1];
      AllOffCalled(before, s);
      OffCalled(vm, AllOff(before, s));
      InwardAllIds(before);
      InwardIds(vm);
      CalledJoin(InwardAll(before), Inward(vm), s, AllOff(before, s), AllOff(vms, s));
    }
  }

  lemma {:induction false} OnCalled(vm: Vm, s: State, direct: Directs)
    requires Tree(vm) && Known(Ids(vm), s.flags, direct)
    ensures Called(Inward(vm), s, On(vm, s, direct))
    decreases vm, 1
  {
    hide Called;
    if direct[vm.id] {
      NoneCalled(Inward(vm), s);
    } else {
      OnNowCalled(vm, s, direct);
    }
  }

  lemma {:induction false} OnNowCalled(vm: Vm, s: State, direct: Directs)
    requires Tree(vm) && Known(Ids(vm), s.flags, direct)
    ensures Called(Inward(vm), s, OnNow(vm, s, direct))
    decreases vm, 0
  {
    hide Called;
    if s.flags[vm.id].No? {
      NoneCalled(Inward(vm), s);
    } else {
      var r := State(s.flags[vm.id := No], s.hooks);
      AllOnCalled(vm.children, r, direct);
      InwardAllIds(vm.children);
      CalledAround(vm.id, InwardAll(vm.children), s, No, AllOn(vm.children, r, direct));
    }
  }

  lemma {:induction false} AllOnCalled(vms: seq<Vm>, s: State, direct: Directs)
    requires Trees(vms) && Known(IdsOf(vms), s.flags, direct)
    ensures Called(InwardAll(vms), s, AllOn(vms, s, direct))
    decreases vms
  {
    hide Called;
    if vms == [] {
      NoneCalled([], s);
    } else {
      var before, vm := vms[..|vms| - 1], vms[|vms| - 1];
      AllOnCalled(before, s, direct);
      OnCalled(vm, AllOn(before, s, direct), direct);
      InwardAllIds(before);
      InwardIds(vm);
      CalledJoin(InwardAll(before), Inward(vm), s, AllOn(before, s, direct), AllOn(vms, s, direct));
    }
  }

  // Nothing outside of ids is touched.
  lemma CalledSame(ids: seq<nat>, others: set<nat>, s: State, t: State)
    requires Called(ids, s, t) && (forall id :: id in ids ==> id !in others) && others <= s.flags.Keys
    ensures Same(others, s.flags, t.flags)
  {
  }

  // ----- the flags keep agreeing with the switches

  lemma {:induction false} OffAgrees(vm: Vm, s: State, d: Directs, parent: Flag)
    requires Tree(vm) && Known(Ids(vm), s.flags, d) && Agrees(vm, s.flags, d, parent)
    ensures Agrees(vm, Off(vm, s).flags, d, Yes)
    ensures Off(vm, s).flags[vm.id].Yes? && AllAgree(vm.children, Off(vm, s).flags, d, Yes)
    decreases vm
  {
    if !s.flags[vm.id].Yes? {
      var r := State(s.flags[vm.id := Yes], s.hooks);
      AllAgreeFrame(vm.children, s.flags, r.flags, d, d, s.flags[vm.id]);
      AllOffAgree(vm.children, r, d, s.flags[vm.id]);
      AllOffCalled(vm.children, r);
      InwardAllIds(vm.children);
      CalledSame(InwardAll(vm.children), {vm.id}, r, AllOff(vm.children, r));
      assert vm.id in {vm.id};
    }
  }

  lemma {:induction false} AllOffAgree(vms: seq<Vm>, s: State, d: Directs, parent: Flag)
    requires Trees(vms) && Known(IdsOf(vms), s.flags, d) && AllAgree(vms, s.flags, d, parent)
    ensures AllAgree(vms, AllOff(vms, s).flags, d, Yes)
    decreases vms
  {
    if vms != [] {
      var before, vm := vms[..|vms| - 1], vms[|vms| - 1];
      var t := AllOff(before, s);
      AllOffAgree(before, s, d, parent);
      AllOffCalled(before, s);
      InwardAllIds(before);
      InwardIds(vm);
      CalledSame(InwardAll(before), Ids(vm), s, t);
      AgreesFrame(vm, s.flags, t.flags, d, d, parent);
      OffAgrees(vm, t, d, parent);
      OffCalled(vm, t);
      CalledSame(Inward(vm), IdsOf(before), t, Off(vm, t));
      AllAgreeFrame(before, t.flags, Off(vm, t).flags, d, d, Yes);
    }
  }

  lemma {:induction false} OnAgrees(vm: Vm, s: State, d: Directs, parent: Flag)
    requires Tree(vm) && Known(Ids(vm), s.flags, d) && Agrees(vm, s.flags, d, parent)
    ensures Agrees(vm, On(vm, s, d).flags, d, No)
    decreases vm, 1
  {
    if !d[vm.id] {
      OnNowAgrees(vm, s, d);
    }
  }

  lemma {:induction false} OnNowAgrees(vm: Vm, s: State, d: Directs)
    requires Tree(vm) && Known(Ids(vm), s.flags, d) && AllAgree(vm.children, s.flags, d, s.flags[vm.id])
    ensures OnNow(vm, s, d).flags[vm.id].No? && AllAgree(vm.children, OnNow(vm, s, d).flags, d, No)
    decreases vm, 0
  {
    if !s.flags[vm.id].No? {
      var r := State(s.flags[vm.id := No], s.hooks);
      AllAgreeFrame(vm.children, s.flags, r.flags, d, d, s.flags[vm.id]);
      AllOnAgree(vm.children, r, d, s.flags[vm.id]);
      AllOnCalled(vm.children, r, d);
      InwardAllIds(vm.children);
      CalledSame(InwardAll(vm.children), {vm.id}, r, AllOn(vm.children, r, d));
      assert vm.id in {vm.id};
    }
  }

  lemma {:induction false} AllOnAgree(vms: seq<Vm>, s: State, d: Directs, parent: Flag)
    requires Trees(vms) && Known(IdsOf(vms), s.flags, d) && AllAgree(vms, s.flags, d, parent)
    ensures AllAgree(vms, AllOn(vms, s, d).flags, d, No)
    decreases vms
  {
    if vms != [] {
      var before, vm := vms[..|vms| - 1], vms[|vms| - 1];
      var t := AllOn(before, s, d);
      AllOnAgree(before, s, d, parent);
      AllOnCalled(before, s, d);
      InwardAllIds(before);
      InwardIds(vm);
      CalledSame(InwardAll(before), Ids(vm), s, t);
      AgreesFrame(vm, s.flags, t.flags, d, d, parent);
      OnAgrees(vm, t, d, parent);
      OnCalled(vm, t, d);
      CalledSame(Inward(vm), IdsOf(before), t, On(vm, t, d));
      AllAgreeFrame(before, t.flags, On(vm, t, d).flags, d, d, No);
    }
  }

  // ----- a component somewhere in the tree

  predicate IsPath(vm: Vm, path: seq<nat>)
    decreases path
  {
    path == [] || (path[0] < |vm.children| && IsPath(vm.children[path[0]], path[1..]))
  }

  function Find(vm: Vm, path: seq<nat>): Vm
    requires IsPath(vm, path)
    decreases path
  {
    if path == [] then vm else Find(vm.children[path[0]], path[1..])
  }

  // The $parent chain, the root first.
  function Parents(vm: Vm, path: seq<nat>): seq<nat>
    requires IsPath(vm, path)
    decreases path
  {
    if path == [] then [] else [vm.id] + Parents(vm.children[path[0]], path[1..])
  }

  predicate SomeInactive(ids: seq<nat>, flags: Flags) {
    exists i :: 0 <= i < |ids| && ids[i] in flags && flags[ids[i]].Yes?
  }

  // The flags after switching one component off or on.
  function Switched(vm: Vm, s: State, direct: Directs, off: bool, above: bool): (t: State)
    requires Known(Ids(vm), s.flags, direct)
    ensures t.flags.Keys == s.flags.Keys
  {
    if above then s else if off then Off(vm, s) else OnNow(vm, s, direct[vm.id := false])
  }

  lemma SwitchedCalled(vm: Vm, s: State, direct: Directs, off: bool, above: bool)
    requires Tree(vm) && Known(Ids(vm), s.flags, direct)
    ensures Called(Inward(vm), s, Switched(vm, s, direct, off, above))
  {
    hide Called;
    if above {
      NoneCalled(Inward(vm), s);
    } else if off {
      OffCalled(vm, s);
    } else {
      OnNowCalled(vm, s, direct[vm.id := false]);
    }
  }

  lemma SwitchedAgrees(vm: Vm, s: State, direct: Directs, off: bool, parent: Flag)
    requires Tree(vm) && Known(Ids(vm), s.flags, direct) && Agrees(vm, s.flags, direct, parent)
    ensures Agrees(vm, Switched(vm, s, direct, off, parent.Yes?).flags, direct[vm.id := off], parent)
    ensures var t := Switched(vm, s, direct, off, parent.Yes?);
            !parent.Yes? ==> t.flags[vm.id] == if off then Yes else No
  {
    var e := direct[vm.id := off];
    AllAgreeFrame(vm.children, s.flags, s.flags, direct, e, s.flags[vm.id]);
    if !parent.Yes? {
      if off {
        OffAgrees(vm, s, direct, parent);
        var t := Off(vm, s);
        AllAgreeFrame(vm.children, t.flags, t.flags, direct, e, Yes);
      } else {
        OnNowAgrees(vm, s, e);
      }
    }
  }

  lemma {:induction false} TreesAt(vms: seq<Vm>, i: nat)
    requires Trees(vms) && i < |vms|
    ensures Tree(vms[i]) && Ids(vms[i]) <= IdsOf(vms)
    ensures forall j :: 0 <= j < |vms| && j != i ==> Ids(vms[j]) !! Ids(vms[i]) && Ids(vms[j]) <= IdsOf(vms)
    decreases |vms|
  {
    var before := vms[..|vms| - 1];
    if i < |before| {
      TreesAt(before, i);
    } else {
      forall j | 0 <= j < |before|
        ensures Ids(vms[j]) <= IdsOf(before)
      {
        TreesAt(before, j);
      }
    }
  }

  lemma {:induction false} AllAgreeAt(vms: seq<Vm>, i: nat, f: Flags, d: Directs, parent: Flag)
    requires Known(IdsOf(vms), f, d) && AllAgree(vms, f, d, parent) && i < |vms|
    ensures Known(Ids(vms[i]), f, d) && Agrees(vms[i], f, d, parent)
    decreases |vms|
  {
    if i < |vms| - 1 {
      AllAgreeAt(vms[..|vms| - 1], i, f, d, parent);
    }
  }

  lemma {:induction false} AllAgreeFrom(vms: seq<Vm>, f: Flags, d: Directs, parent: Flag)
    requires Known(IdsOf(vms), f, d)
    requires forall i :: 0 <= i < |vms| ==> Known(Ids(vms[i]), f, d) && Agrees(vms[i], f, d, parent)
    ensures AllAgree(vms, f, d, parent)
    decreases |vms|
  {
    if vms != [] {
      AllAgreeFrom(vms[..|vms| - 1], f, d, parent);
    }
  }

  lemma {:induction false} FindIds(vm: Vm, path: seq<nat>)
    requires Tree(vm) && IsPath(vm, path)
    ensures Tree(Find(vm, path)) && Ids(Find(vm, path)) <= Ids(vm)
    decreases path
  {
    if path != [] {
      TreesAt(vm.children, path[0]);
      FindIds(vm.children[path[0]], path[1..]);
    }
  }

  // One child of a component is changed, its siblings are not.
  lemma OneChild(vms: seq<Vm>, k: nat, f: Flags, g: Flags, d: Directs, e: Directs, parent: Flag)
    requires Trees(vms) && k < |vms| && Known(IdsOf(vms), f, d) && Known(IdsOf(vms), g, e)
    requires AllAgree(vms, f, d, parent) && Known(Ids(vms[k]), g, e) && Agrees(vms[k], g, e, parent)
    requires Same(IdsOf(vms) - Ids(vms[k]), f, g) && Same(IdsOf(vms) - Ids(vms[k]), d, e)
    ensures AllAgree(vms, g, e, parent)
  {
    forall i | 0 <= i < |vms|
      ensures Known(Ids(vms[i]), g, e) && Agrees(vms[i], g, e, parent)
    {
      TreesAt(vms, i);
      if i != k {
        AllAgreeAt(vms, i, f, d, parent);
        assert Ids(vms[i]) <= IdsOf(vms) - Ids(vms[k]);
        AgreesFrame(vms[i], f, g, d, e, parent);
      }
    }
    AllAgreeFrom(vms, g, e, parent);
  }

  // Wherever a component is switched, the whole tree agrees again.
  lemma {:induction false} SwitchAgrees(root: Vm, path: seq<nat>, s: State, direct: Directs, off: bool, parent: Flag)
    requires Tree(root) && IsPath(root, path) && Known(Ids(root), s.flags, direct) && Agrees(root, s.flags, direct, parent)
    ensures Ids(Find(root, path)) <= Ids(root)
    ensures var vm := Find(root, path);
            var t := Switched(vm, s, direct, off, parent.Yes? || SomeInactive(Parents(root, path), s.flags));
            Agrees(root, t.flags, direct[vm.id := off], parent)
    decreases path
  {
    FindIds(root, path);
    if path == [] {
      SwitchedAgrees(root, s, direct, off, parent);
    } else {
      var k, flag := path[0], s.flags[root.id];
      var child, vm := root.children[k], Find(root, path);
      TreesAt(root.children, k);
      AllAgreeAt(root.children, k, s.flags, direct, flag);
      SwitchAgrees(child, path[1..], s, direct, off, flag);
      ParentsInactive(root, path, s.flags);
      FindIds(child, path[1..]);
      var t := Switched(vm, s, direct, off, parent.Yes? || SomeInactive(Parents(root, path), s.flags));
      assert t == Switched(vm, s, direct, off, flag.Yes? || SomeInactive(Parents(child, path[1..]), s.flags));
      SwitchedCalled(vm, s, direct, off, parent.Yes? || SomeInactive(Parents(root, path), s.flags));
      InwardIds(vm);
      var rest := Ids(root) - Ids(child);
      CalledSame(Inward(vm), rest, s, t);
      var e := direct[vm.id := off];
      assert Same(IdsOf(root.children) - Ids(child), s.flags, t.flags);
      OneChild(root.children, k, s.flags, t.flags, direct, e, flag);
      assert root.id in rest;
    }
  }

  lemma ParentsInactive(root: Vm, path: seq<nat>, flags: Flags)
    requires IsPath(root, path) && path != [] && root.id in flags
    ensures SomeInactive(Parents(root, path), flags) <==>
            flags[root.id].Yes? || SomeInactive(Parents(root.children[path[0]], path[1..]), flags)
  {
    var rest := Parents(root.children[path[0]], path[1..]);
    var all := Parents(root, path);
    assert all == [root.id] + rest;
    if SomeInactive(rest, flags) {
      var i :| 0 <= i < |rest| && rest[i] in flags && flags[rest[i]].Yes?;
      assert all[i + 1] == rest[i];
    }
    assert all[0] == root.id;
  }

  predicate SomeOff(ids: seq<nat>, direct: Directs) {
    exists i :: 0 <= i < |ids| && ids[i] in direct && direct[ids[i]]
  }

  lemma ParentsOff(root: Vm, path: seq<nat>, direct: Directs)
    requires IsPath(root, path) && path != [] && root.id in direct
    ensures SomeOff(Parents(root, path), direct) <==>
            direct[root.id] || SomeOff(Parents(root.children[path[0]], path[1..]), direct)
  {
    var rest := Parents(root.children[path[0]], path[1..]);
    var all := Parents(root, path);
    assert all == [root.id] + rest;
    if SomeOff(rest, direct) {
      var i :| 0 <= i < |rest| && rest[i] in direct && direct[rest[i]];
      assert all[i + 1] == rest[i];
    }
    assert all[0] == root.id;
  }

  // A component of an agreeing tree agrees with its parent, which is inactive
  // exactly if one of the parents is, or has been switched off.
  lemma {:induction false} AgreesBelow(root: Vm, path: seq<nat>, flags: Flags, direct: Directs, above: Flag)
    returns (parent: Flag)
    requires Tree(root) && IsPath(root, path) && Known(Ids(root), flags, direct) && Agrees(root, flags, direct, above)
    ensures Known(Ids(Find(root, path)), flags, direct) && Agrees(Find(root, path), flags, direct, parent)
    ensures parent.Yes? <==> above.Yes? || SomeInactive(Parents(root, path), flags)
    ensures parent.Yes? <==> above.Yes? || SomeOff(Parents(root, path), direct)
    decreases path
  {
    if path == [] {
      parent := above;
    } else {
      TreesAt(root.children, path[0]);
      AllAgreeAt(root.children, path[0], flags, direct, flags[root.id]);
      parent := AgreesBelow(root.children[path[0]], path[1..], flags, direct, flags[root.id]);
      ParentsInactive(root, path, flags);
      ParentsOff(root, path, direct);
    }
  }

  // Any component of an agreeing tree: inactive exactly if it or one of its
  // parents has been switched off.
  lemma InactiveExactly(root: Vm, path: seq<nat>, flags: Flags, direct: Directs)
    requires Tree(root) && IsPath(root, path) && Known(Ids(root), flags, direct) && Agrees(root, flags, direct, Null)
    ensures Find(root, path).id in flags && Find(root, path).id in direct
    ensures flags[Find(root, path).id].Yes? <==>
            direct[Find(root, path).id] || SomeOff(Parents(root, path), direct)
  {
    var parent := AgreesBelow(root, path, flags, direct, Null);
  }

  // ----- what one switch changes, said by path

  // No component on the way from vm to the one below it is switched off.
  predicate Open(vm: Vm, path: seq<nat>, direct: Directs)
    requires IsPath(vm, path)
    decreases path
  {
    path == [] ||
    var child := vm.children[path[0]];
    child.id in direct && !direct[child.id] && Open(child, path[1..], direct)
  }

  // From f to g, this component has been switched: off, with everything below
  // it; or on, with everything below it that is not switched off itself.
  ghost predicate Turned(vm: Vm, off: bool, direct: Directs, f: Flags, g: Flags) {
    forall path: seq<nat> :: IsPath(vm, path) ==>
      var id := Find(vm, path).id;
      id in f && id in g && g[id] == if off then Yes else if Open(vm, path, direct) then No else f[id]
  }

  // Activity goes down every open way and stops where it is not open.
  lemma {:induction false} OpenExactly(vm: Vm, path: seq<nat>, flags: Flags, direct: Directs)
    requires Tree(vm) && IsPath(vm, path) && Known(Ids(vm), flags, direct)
    requires AllAgree(vm.children, flags, direct, flags[vm.id])
    ensures Find(vm, path).id in flags
    ensures Open(vm, path, direct) && flags[vm.id].No? ==> flags[Find(vm, path).id].No?
    ensures !Open(vm, path, direct) || flags[vm.id].Yes? ==> flags[Find(vm, path).id].Yes?
    decreases path
  {
    if path != [] {
      TreesAt(vm.children, path[0]);
      AllAgreeAt(vm.children, path[0], flags, direct, flags[vm.id]);
      OpenExactly(vm.children[path[0]], path[1..], flags, direct);
    }
  }

  lemma {:induction false} OpenFrame(vm: Vm, path: seq<nat>, d: Directs, e: Directs)
    requires Tree(vm) && IsPath(vm, path) && Same(IdsOf(vm.children), d, e)
    ensures Open(vm, path, d) <==> Open(vm, path, e)
    decreases path
  {
    if path != [] {
      TreesAt(vm.children, path[0]);
      OpenFrame(vm.children[path[0]], path[1..], d, e);
    }
  }

  lemma SwitchTurns(vm: Vm, s: State, direct: Directs, off: bool, parent: Flag)
    requires Tree(vm) && Known(Ids(vm), s.flags, direct) && Agrees(vm, s.flags, direct, parent) && !parent.Yes?
    ensures Turned(vm, off, direct, s.flags, Switched(vm, s, direct, off, false).flags)
  {
    var t, e := Switched(vm, s, direct, off, false), direct[vm.id := off];
    SwitchedAgrees(vm, s, direct, off, parent);
    forall path: seq<nat> | IsPath(vm, path)
      ensures var id := Find(vm, path).id;
              id in s.flags && id in t.flags &&
              t.flags[id] == if off then Yes else if Open(vm, path, direct) then No else s.flags[id]
    {
      OpenExactly(vm, path, s.flags, direct);
      OpenExactly(vm, path, t.flags, e);
      OpenFrame(vm, path, direct, e);
    }
  }

  class Components {
    const root: Vm
    var inactive: Flags
    var directInactive: Directs
    var hooks: seq<Hook>

    ghost predicate Valid()
      reads this
    {
      Tree(root) && Known(Ids(root), inactive, directInactive) && Agrees(root, inactive, directInactive, Null)
    }

    function Value(): State
      reads this
    {
      State(inactive, hooks)
    }

    // initLifecycle leaves _inactive null and _directInactive false.
    constructor (root: Vm)
      requires Tree(root)
      ensures Valid() && this.root == root && hooks == []
    {
      this.root := root;
      inactive := map id | id in Ids(root) :: Null;
      directInactive := map id | id in Ids(root) :: false;
      hooks := [];
      new;
      NewAgrees(root, inactive, directInactive);
    }

    method IsInInactiveTree(parents: seq<nat>) returns (found: bool)
      ensures found <==> SomeInactive(parents, inactive)
    {
      var i := |parents|;
      while i > 0
        invariant 0 <= i <= |parents|
        invariant forall k :: i <= k < |parents| ==> !(parents[k] in inactive && inactive[parents[k]].Yes?)
      {
        i := i - 1;
        if parents[i] in inactive && inactive[parents[i]].Yes? {
          return true;
        }
      }
      return false;
    }

    method ActivateChildComponent(vm: Vm, parents: seq<nat>, direct: bool)
      requires Known(Ids(vm), inactive, directInactive)
      modifies this
      ensures directInactive == if direct then old(directInactive)[vm.id := false] else old(directInactive)
      ensures Value() ==
              if direct then Switched(vm, old(Value()), old(directInactive), false, SomeInactive(parents, old(inactive)))
              else On(vm, old(Value()), old(directInactive))
      decreases vm
    {
      if direct {
        directInactive := directInactive[vm.id := false];
        var found := IsInInactiveTree(parents);
        if found {
          return;
        }
      } else if directInactive[vm.id] {
        return;
      }
      if inactive[vm.id].Yes? || inactive[vm.id].Null? {
        inactive := inactive[vm.id := No];
        ghost var s, d := Value(), directInactive;
        var i := 0;
        AllOf(vm.children);
        while i < |vm.children|
          invariant 0 <= i <= |vm.children| && directInactive == d
          invariant Known(IdsOf(vm.children[..i]), s.flags, d) && Value() == AllOn(vm.children[..i], s, d)
        {
          OneMore(vm.children, i);
          ActivateChildComponent(vm.children[i], parents + [vm.id], false);
          i := i + 1;
        }
        hooks := hooks + [Activated(vm.id)];
      }
    }

    method DeactivateChildComponent(vm: Vm, parents: seq<nat>, direct: bool)
      requires Known(Ids(vm), inactive, directInactive)
      modifies this
      ensures directInactive == if direct then old(directInactive)[vm.id := true] else old(directInactive)
      ensures Value() ==
              if direct && SomeInactive(parents, old(inactive)) then old(Value()) else Off(vm, old(Value()))
      decreases vm
    {
      if direct {
        directInactive := directInactive[vm.id := true];
        var found := IsInInactiveTree(parents);
        if found {
          return;
        }
      }
      if !inactive[vm.id].Yes? {
        inactive := inactive[vm.id := Yes];
        ghost var s, d := Value(), directInactive;
        var i := 0;
        AllOf(vm.children);
        while i < |vm.children|
          invariant 0 <= i <= |vm.children| && directInactive == d
          invariant IdsOf(vm.children[..i]) <= s.flags.Keys && Value() == AllOff(vm.children[..i], s)
        {
          OneMore(vm.children, i);
          DeactivateChildComponent(vm.children[i], parents + [vm.id], false);
          i := i + 1;
        }
        hooks := hooks + [Deactivated(vm.id)];
      }
    }

    // A direct call on any component of the tree: below an inactive parent
    // it is only noted; otherwise the component is turned off or on, with what
    // is below it, and the hooks of exactly those that changed are called,
    // from below.
    method Switch(path: seq<nat>, off: bool)
      requires Valid() && IsPath(root, path)
      modifies this
      ensures Valid()
      ensures directInactive == old(directInactive)[Find(root, path).id := off]
      ensures Called(Inward(Find(root, path)), old(Value()), Value())
      ensures if SomeOff(Parents(root, path), old(directInactive)) then Value() == old(Value())
              else Turned(Find(root, path), off, old(directInactive), old(inactive), inactive)
    {
      var vm, parents := Find(root, path), Parents(root, path);
      FindIds(root, path);
      SwitchAgrees(root, path, Value(), directInactive, off, Null);
      SwitchedCalled(vm, Value(), directInactive, off, SomeInactive(parents, inactive));
      ghost var parent := AgreesBelow(root, path, inactive, directInactive, Null);
      if !parent.Yes? {
        SwitchTurns(vm, Value(), directInactive, off, parent);
      }
      if off {
        DeactivateChildComponent(vm, parents, true);
      } else {
        ActivateChildComponent(vm, parents, true);
      }
    }
  }

  lemma {:induction false} NewAgrees(vm: Vm, flags: Flags, direct: Directs)
    requires Known(Ids(vm), flags, direct)
    requires forall id :: id in Ids(vm) ==> flags[id].Null? && !direct[id]
    ensures Agrees(vm, flags, direct, Null)
    decreases vm
  {
    NewAllAgree(vm.children, flags, direct);
  }

  lemma {:induction false} NewAllAgree(vms: seq<Vm>, flags: Flags, direct: Directs)
    requires Known(IdsOf(vms), flags, direct)
    requires forall id :: id in IdsOf(vms) ==> flags[id].Null? && !direct[id]
    ensures AllAgree(vms, flags, direct, Null)
    decreases vms
  {
    if vms != [] {
      NewAllAgree(vms[..|vms| - 1], flags, direct);
      NewAgrees(vms[|vms| - 1], flags, direct);
    }
  }

  lemma AllOf(vms: seq<Vm>)
    ensures vms[..|vms|] == vms && vms[..0] == [] && IdsOf(vms[..0]) == {}
  {
  }

  lemma OneMore(vms: seq<Vm>, i: nat)
    requires i < |vms|
    ensures vms[..i + 1][..i] == vms[..i] && IdsOf(vms[..i + 1]) == IdsOf(vms[..i]) + Ids(vms[i])
    ensures Ids(vms[i]) <= IdsOf(vms)
  {
    assert vms[..i + 1][..i] == vms[..i];
    AllIn(vms, i);
  }

  lemma {:induction false} AllIn(vms: seq<Vm>, i: nat)
    requires i < |vms|
    ensures Ids(vms[i]) <= IdsOf(vms)
    decreases |vms|
  {
    if i < |vms| - 1 {
      AllIn(vms[..|vms| - 1], i);
    }
  }
}
