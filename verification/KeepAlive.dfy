// The keep-alive component: a cache of component instances that forgets the
// one used least recently.
module KeepAlive {
  import opened Sequences

  // The vnode of a component as keep-alive finds it in its slot.
  datatype Vnode = Vnode(key: Option<string>, cid: string, localName: string, tag: string, name: Option<string>)

  // A cached vnode, with the instance that patching created for it.
  datatype Entry = Entry(vnode: Vnode, instance: nat)

  // Missing entries and null entries are the same to every operation.
  datatype Cache = Cache(entries: map<string, Entry>, keys: seq<string>)

  const EMPTY := Cache(map[], [])

  function KeyOf(v: Vnode): string {
    if v.key.Some? then v.key.value
    else if v.localName == "" then v.cid
    else v.cid + "::" + v.localName
  }

  // Keys of the user's own are taken as they are. Otherwise two vnodes share
  // an entry exactly if they are of one constructor, registered under one
  // name. A cid is a number, so there is no colon in it.
  lemma KeyExactly(v: Vnode, w: Vnode)
    ensures v.key.Some? ==> KeyOf(v) == v.key.value
    ensures v.key.None? && w.key.None? && ':' !in v.cid && ':' !in w.cid ==>
              (KeyOf(v) == KeyOf(w) <==> v.cid == w.cid && v.localName == w.localName)
  {
    if v.key.None? && w.key.None? && ':' !in v.cid && ':' !in w.cid && KeyOf(v) == KeyOf(w) {
      CidIs(v);
      CidIs(w);
    }
  }

  lemma CidIs(v: Vnode)
    requires v.key.None? && ':' !in v.cid
    ensures var n := |v.cid|;
            v.cid <= KeyOf(v) && (v.localName == "" <==> KeyOf(v) == v.cid) && ':' !in KeyOf(v)[..n] &&
            (v.localName != "" ==> n + 2 < |KeyOf(v)| && KeyOf(v)[n] == ':' && KeyOf(v)[n + 2..] == v.localName)
  {
  }

  // `keys` lists exactly the cached keys, each once.
  ghost predicate Listed(c: Cache) {
    Distinct(c.keys) && forall k :: k in c.keys <==> k in c.entries
  }

  // ----- what one operation does

  function Dropped(c: Cache, key: string): Cache {
    Cache(map k | k in c.entries && k != key :: c.entries[k], Remove(c.keys, key))
  }

  function Hit(c: Cache, key: string): Cache {
    Cache(c.entries, Remove(c.keys, key) + [key])
  }

  function Stored(c: Cache, key: string, e: Entry): Cache {
    Cache(c.entries[key := e], c.keys + [key])
  }

  // A limit of 0 is no limit.
  function Pruned(c: Cache, max: nat): Cache {
    if max > 0 && |c.keys| > max then Dropped(c, c.keys[0]) else c
  }

  // One render of a component that is not excluded; on a miss, patching
  // creates the given instance.
  function Used(c: Cache, max: nat, e: Entry): Cache {
    var key := KeyOf(e.vnode);
    if key in c.entries then Hit(c, key) else Pruned(Stored(c, key, e), max)
  }

  // The instance that this render destroys: that of the oldest entry, if it
  // has to go and its tag is not on the screen.
  function Evicted(c: Cache, max: nat, e: Entry, current: Option<Vnode>): seq<nat> {
    var s := Stored(c, KeyOf(e.vnode), e);
    if KeyOf(e.vnode) !in c.entries && max > 0 && |s.keys| > max && s.keys[0] in s.entries &&
       (current.None? || s.entries[s.keys[0]].vnode.tag != current.value.tag)
    then [s.entries[s.keys[0]].instance] else []
  }

  class Instance {
    const max: nat
    var entries: map<string, Entry>
    var keys: seq<string>
    var destroyed: seq<nat>

    ghost predicate Valid()
      reads this
    {
      Listed(Value()) && (max > 0 ==> |keys| <= max)
    }

    function Value(): Cache
      reads this
    {
      Cache(entries, keys)
    }

    constructor (max: nat)
      ensures Valid() && Value() == EMPTY && destroyed == [] && this.max == max
    {
      this.max := max;
      entries, keys, destroyed := map[], [], [];
    }

    // The instance is destroyed, unless the vnode on the screen has its tag.
    method PruneCacheEntry(key: string, current: Option<Vnode>)
      modifies this
      ensures Value() == Dropped(old(Value()), key)
      ensures destroyed ==
              if key in old(entries) && (current.None? || old(entries)[key].vnode.tag != current.value.tag)
              then old(destroyed) + [old(entries)[key].instance] else old(destroyed)
    {
      if key in entries && (current.None? || entries[key].vnode.tag != current.value.tag) {
        destroyed := destroyed + [entries[key].instance];
      }
      entries := map k | k in entries && k != key :: entries[k];
      keys := Remove(keys, key);
    }

    // The render function; the result is the instance that is kept alive.
    method Render(vnode: Option<Vnode>, included: Option<string -> bool>, excluded: Option<string -> bool>,
                  created: nat, current: Option<Vnode>) returns (instance: Option<nat>)
      requires Valid()
      modifies this
      ensures Valid()
      ensures if || vnode.None?
                 || (included.Some? && (vnode.value.name.None? || !included.value(vnode.value.name.value)))
                 || (excluded.Some? && vnode.value.name.Some? && excluded.value(vnode.value.name.value)) then
                instance.None? && Value() == old(Value()) && destroyed == old(destroyed)
              else
                Value() == Used(old(Value()), max, Entry(vnode.value, created)) &&
                destroyed == old(destroyed) + Evicted(old(Value()), max, Entry(vnode.value, created), current) &&
                instance == (if KeyOf(vnode.value) in old(entries) then Some(old(entries)[KeyOf(vnode.value)].instance) else None)
    {
      hide Listed, Distinct, Remove, IndexOf;
      instance := None;
      if vnode.Some? {
        var v := vnode.value;
        if (included.Some? && (v.name.None? || !included.value(v.name.value))) ||
           (excluded.Some? && v.name.Some? && excluded.value(v.name.value)) {
          return;
        }
        var key := KeyOf(v);
        UsedListed(Value(), max, Entry(v, created));
        if key in entries {
          instance := Some(entries[key].instance);
          keys := Remove(keys, key);
          keys := keys + [key];
        } else {
          entries := entries[key := Entry(v, created)];
          keys := keys + [key];
          if max > 0 && |keys| > max {
            PruneCacheEntry(keys[0], current);
          }
        }
      }
    }

    // When include or exclude changes, entries whose name the filter refuses go.
    method PruneCache(filter: string -> bool, current: Option<Vnode>)
      requires Valid()
      modifies this
      ensures Valid()
      ensures forall k :: k in entries <==>
                            k in old(entries) && (old(entries)[k].vnode.name.Some? ==> filter(old(entries)[k].vnode.name.value))
      ensures forall k :: k in entries ==> entries[k] == old(entries)[k]
      ensures keys == Kept(old(keys), entries.Keys)
      ensures exists ks: seq<string> ::
                && Distinct(ks) && destroyed == old(destroyed) + InstancesOf(old(entries), ks)
                && forall k :: k in ks <==>
                                 && k in old(entries) && k !in entries
                                 && (current.None? || old(entries)[k].vnode.tag != current.value.tag)
    {
      hide InstancesOf, Refused, OffScreen, Kept, Remove, Distinct, IndexOf;
      var rest := entries.Keys;
      KeptAll(keys, entries.Keys);
      ghost var ks: seq<string> := [];
      NoInstances(entries, destroyed);
      while rest != {}
        invariant rest <= old(entries).Keys
        invariant Valid() && keys == Kept(old(keys), entries.Keys)
        invariant forall k :: k in entries <==> k in old(entries) && (k !in rest ==> !Refused(old(entries)[k], filter))
        invariant forall k :: k in entries ==> entries[k] == old(entries)[k]
        invariant Distinct(ks) && destroyed == old(destroyed) + InstancesOf(old(entries), ks)
        invariant forall k :: k in ks <==>
                                k in old(entries) && k !in rest && Refused(old(entries)[k], filter) && OffScreen(old(entries)[k], current)
        decreases |rest|
      {
        var key :| key in rest;
        var cachedNode := entries[key];
        RefusedIs(cachedNode, filter, current);
        if cachedNode.vnode.name.Some? && !filter(cachedNode.vnode.name.value) {
          DroppedListed(Value(), key);
          KeptDropped(old(keys), entries.Keys, key);
          if OffScreen(cachedNode, current) {
            OneInstance(old(entries), ks, key, old(destroyed));
            ks := ks + [key];
          }
          PruneCacheEntry(key, current);
        }
        rest := rest - {key};
      }
      forall k | k in old(entries)
        ensures Refused(old(entries)[k], filter) <==>
                old(entries)[k].vnode.name.Some? && !filter(old(entries)[k].vnode.name.value)
        ensures OffScreen(old(entries)[k], current) <==> current.None? || old(entries)[k].vnode.tag != current.value.tag
      {
        RefusedIs(old(entries)[k], filter, current);
      }
      assert forall k :: k in ks <==> k in old(entries) && k !in entries && OffScreen(old(entries)[k], current);
    }

    method Destroyed()
      requires Valid()
      modifies this
      ensures Valid() && Value() == EMPTY
      ensures exists ks: seq<string> ::
                && Distinct(ks) && destroyed == old(destroyed) + InstancesOf(old(entries), ks)
                && forall k :: k in ks <==> k in old(entries)
    {
      hide InstancesOf, Remove, Distinct, IndexOf;
      var rest := entries.Keys;
      ghost var ks: seq<string> := [];
      NoInstances(entries, destroyed);
      while rest != {}
        invariant rest == entries.Keys && Valid()
        invariant forall k :: k in rest ==> k in old(entries) && entries[k] == old(entries)[k]
        invariant Distinct(ks) && destroyed == old(destroyed) + InstancesOf(old(entries), ks)
        invariant forall k :: k in ks <==> k in old(entries) && k !in rest
        decreases |rest|
      {
        var key :| key in rest;
        DroppedListed(Value(), key);
        OneInstance(old(entries), ks, key, old(destroyed));
        ks := ks + [key];
        PruneCacheEntry(key, None);
        rest := rest - {key};
      }
      NoKeys(Value());
    }
  }

  // The filter of a pattern refuses a named component.
  predicate Refused(e: Entry, filter: string -> bool) {
    e.vnode.name.Some? && !filter(e.vnode.name.value)
  }

  // The vnode on the screen is not of this entry's tag.
  predicate OffScreen(e: Entry, current: Option<Vnode>) {
    current.None? || e.vnode.tag != current.value.tag
  }

  lemma RefusedIs(e: Entry, filter: string -> bool, current: Option<Vnode>)
    ensures Refused(e, filter) <==> e.vnode.name.Some? && !filter(e.vnode.name.value)
    ensures OffScreen(e, current) <==> current.None? || e.vnode.tag != current.value.tag
  {
  }

  function InstancesOf(entries: map<string, Entry>, ks: seq<string>): seq<nat> {
    if ks == [] then []
    else
      InstancesOf(entries, ks[..|ks| - 1]) +
      if ks[|ks| - 1] in entries then [entries[ks[|ks| - 1]].instance] else []
  }

  lemma NoInstances(entries: map<string, Entry>, destroyed: seq<nat>)
    ensures InstancesOf(entries, []) == [] && destroyed + [] == destroyed && Distinct<string>([])
  {
  }

  lemma OneInstance(entries: map<string, Entry>, ks: seq<string>, key: string, destroyed: seq<nat>)
    requires Distinct(ks) && key !in ks && key in entries
    ensures Distinct(ks + [key])
    ensures destroyed + InstancesOf(entries, ks + [key]) == destroyed + InstancesOf(entries, ks) + [entries[key].instance]
  {
    assert (ks + [key])[..|ks|] == ks;
    forall i, j | 0 <= i < j < |ks + [key]|
      ensures (ks + [key])[i] != (ks + [key])[j]
    {
      assert ks[i] in ks;
      assert j < |ks| ==> (ks + [key])[j] == ks[j];
    }
  }

  lemma NoKeys(c: Cache)
    requires Listed(c) && c.entries.Keys == {}
    ensures c.keys == []
  {
    FirstIn(c.keys);
  }

  lemma FirstIn(s: seq<string>)
    ensures s == [] || s[0] in s
  {
  }

  lemma DroppedListed(c: Cache, key: string)
    requires Listed(c)
    ensures Listed(Dropped(c, key)) && |Dropped(c, key).keys| <= |c.keys|
    ensures Dropped(c, key).entries.Keys == c.entries.Keys - {key}
  {
    RemoveDistinct(c.keys, key);
  }

  lemma HitListed(c: Cache, key: string)
    requires Listed(c) && key in c.entries
    ensures Listed(Hit(c, key)) && |Hit(c, key).keys| == |c.keys|
  {
    RemoveDistinct(c.keys, key);
  }

  lemma UsedListed(c: Cache, max: nat, e: Entry)
    requires Listed(c) && (max > 0 ==> |c.keys| <= max)
    ensures Listed(Used(c, max, e)) && (max > 0 ==> |Used(c, max, e).keys| <= max)
  {
    var key := KeyOf(e.vnode);
    if key in c.entries {
      HitListed(c, key);
    } else {
      var s := Stored(c, key, e);
      assert Listed(s);
      if max > 0 && |s.keys| > max {
        DroppedListed(s, s.keys[0]);
        RemoveDistinct(s.keys, s.keys[0]);
      }
    }
  }

  // A use destroys exactly the instance of the entry that it pushes out, if
  // the vnode on the screen has another tag.
  lemma EvictedExactly(c: Cache, max: nat, e: Entry, current: Option<Vnode>)
    requires Listed(c)
    ensures (forall k :: k in c.entries ==> k in Used(c, max, e).entries) ==> Evicted(c, max, e, current) == []
    ensures forall k :: k in c.entries && k !in Used(c, max, e).entries ==>
              Evicted(c, max, e, current) ==
              if current.None? || c.entries[k].vnode.tag != current.value.tag then [c.entries[k].instance] else []
    ensures forall k :: k in c.entries && k in Used(c, max, e).entries ==> Used(c, max, e).entries[k] == c.entries[k]
  {
    hide Remove, Distinct;
    var key := KeyOf(e.vnode);
    var s := Stored(c, key, e);
    if key !in c.entries && max > 0 && |s.keys| > max {
      assert s.keys[0] == c.keys[0];
      assert c.keys[0] in c.keys;
    }
  }

  // The keys that are still cached, in their old order.
  function Kept(keys: seq<string>, cached: set<string>): seq<string> {
    if keys == [] then []
    else Kept(keys[..|keys| - 1], cached) + if keys[|keys| - 1] in cached then [keys[|keys| - 1]] else []
  }

  lemma {:induction false} KeptAll(keys: seq<string>, cached: set<string>)
    requires forall k :: k in keys ==> k in cached
    ensures Kept(keys, cached) == keys
  {
    if keys != [] {
      KeptAll(keys[..|keys| - 1], cached);
    }
  }

  lemma {:induction false} KeptNot(keys: seq<string>, cached: set<string>, key: string)
    requires key !in keys
    ensures Kept(keys, cached - {key}) == Kept(keys, cached) && key !in Kept(keys, cached)
  {
    if keys != [] {
      KeptNot(keys[..|keys| - 1], cached, key);
    }
  }

  lemma {:induction false} KeptDropped(keys: seq<string>, cached: set<string>, key: string)
    requires Distinct(keys)
    ensures Kept(keys, cached - {key}) == Remove(Kept(keys, cached), key)
  {
    hide Remove, IndexOf;
    if keys == [] {
      RemoveLast([], key);
    } else {
      var before, last := keys[..|keys| - 1], keys[|keys| - 1];
      if last == key {
        KeptNot(before, cached, key);
        RemoveLast(Kept(before, cached), key);
        assert Kept(before, cached) + [] == Kept(before, cached);
      } else {
        var old_ := Kept(before, cached);
        KeptDropped(before, cached, key);
        RemoveAppend(old_, key, last);
        assert last in cached - {key} <==> last in cached;
        if last !in cached {
          assert Kept(keys, cached) == old_ + [] == old_;
          assert Kept(keys, cached - {key}) == Remove(old_, key) + [] == Remove(old_, key);
        }
      }
    }
  }

  lemma RemoveLast(s: seq<string>, key: string)
    requires key !in s
    ensures Remove(s + [key], key) == s && Remove(s, key) == s
  {
    hide IndexOf;
    assert (s + [key])[|s|] == key;
    assert forall i :: 0 <= i < |s| ==> (s + [key])[i] == s[i] && s[i] in s;
    assert IndexOf(s + [key], key) == |s|;
    assert (s + [key])[..|s|] == s;
  }

  lemma RemoveAppend(s: seq<string>, key: string, other: string)
    requires other != key
    ensures Remove(s + [other], key) == Remove(s, key) + [other]
  {
    if key in s {
      RemoveFront(s, [other], key);
    }
  }

  lemma {:induction false} IndexFront(s: seq<string>, t: seq<string>, key: string)
    requires key in s
    ensures IndexOf(s + t, key) == IndexOf(s, key)
  {
    if s[0] != key {
      IndexFront(s[1..], t, key);
      assert (s + t)[1..] == s[1..] + t;
    }
  }

  lemma RemoveFront(s: seq<string>, t: seq<string>, key: string)
    requires key in s
    ensures Remove(s + t, key) == Remove(s, key) + t
  {
    hide IndexOf;
    IndexFront(s, t, key);
    var i := IndexOf(s, key);
    assert key in s + t;
    assert (s + t)[..i] == s[..i];
    assert (s + t)[i + 1..] == s[i + 1..] + t;
  }

  lemma {:induction false} RemoveBack(s: seq<string>, t: seq<string>, key: string)
    requires key !in s
    ensures Remove(s + t, key) == s + Remove(t, key)
  {
    hide IndexOf;
    if key in t {
      IndexBack(s, t, key);
      var i := IndexOf(t, key);
      assert (s + t)[..|s| + i] == s + t[..i];
      assert (s + t)[|s| + i + 1..] == t[i + 1..];
    } else {
      assert key !in s + t;
    }
  }

  lemma {:induction false} IndexBack(s: seq<string>, t: seq<string>, key: string)
    requires key !in s && key in t
    ensures key in s + t && IndexOf(s + t, key) == |s| + IndexOf(t, key)
  {
    assert key in s + t;
    if s == [] {
      assert s + t == t;
    } else {
      assert (s + t)[1..] == s[1..] + t;
      IndexBack(s[1..], t, key);
    }
  }

  // ----- least recently used

  function KeysOf(uses: seq<Entry>): (r: seq<string>)
    ensures |r| == |uses| && forall i :: 0 <= i < |uses| ==> r[i] == KeyOf(uses[i].vnode)
  {
    seq(|uses|, i requires 0 <= i < |uses| => KeyOf(uses[i].vnode))
  }

  function Run(uses: seq<Entry>, max: nat): Cache {
    if uses == [] then EMPTY else Used(Run(uses[..|uses| - 1], max), max, uses[|uses| - 1])
  }

  // The distinct keys in the order of their last uses.
  function ByLastUse(keys: seq<string>): seq<string> {
    if keys == [] then []
    else Remove(ByLastUse(keys[..|keys| - 1]), keys[|keys| - 1]) + [keys[|keys| - 1]]
  }

  function Newest(s: seq<string>, max: nat): seq<string> {
    if max == 0 || |s| <= max then s else s[|s| - max..]
  }

  lemma {:induction false} RunListed(uses: seq<Entry>, max: nat)
    ensures Listed(Run(uses, max)) && (max > 0 ==> |Run(uses, max).keys| <= max)
  {
    if uses != [] {
      RunListed(uses[..|uses| - 1], max);
      UsedListed(Run(uses[..|uses| - 1], max), max, uses[|uses| - 1]);
    }
  }

  lemma {:induction false} ByLastUseDistinct(keys: seq<string>)
    ensures Distinct(ByLastUse(keys))
    ensures forall k :: k in ByLastUse(keys) <==> k in keys
  {
    if keys != [] {
      var before := keys[..|keys| - 1];
      ByLastUseDistinct(before);
      RemoveDistinct(ByLastUse(before), keys[|keys| - 1]);
      assert keys == before + [keys[|keys| - 1]];
    }
  }

  lemma NewestHit(r: seq<string>, max: nat, key: string)
    requires Distinct(r) && key in Newest(r, max)
    ensures Newest(Remove(r, key) + [key], max) == Remove(Newest(r, max), key) + [key]
  {
    hide IndexOf, Remove;
    if max > 0 && |r| > max {
      var a, l := r[..|r| - max], r[|r| - max..];
      assert r == a + l;
      TailDistinct(a, l, key);
      RemoveBack(a, l, key);
      var n := Remove(l, key) + [key];
      RemoveDistinct(l, key);
      NewestTail(a, n, max);
      assert Remove(r, key) + [key] == a + n;
    } else {
      RemoveDistinct(r, key);
    }
  }

  lemma TailDistinct(a: seq<string>, l: seq<string>, key: string)
    requires Distinct(a + l) && key in l
    ensures key !in a && Distinct(l)
  {
    var j :| 0 <= j < |l| && l[j] == key;
    assert (a + l)[|a| + j] == key;
    forall i | 0 <= i < |a|
      ensures a[i] != key
    {
      assert (a + l)[i] == a[i];
    }
    forall i, k | 0 <= i < k < |l|
      ensures l[i] != l[k]
    {
      assert (a + l)[|a| + i] == l[i] && (a + l)[|a| + k] == l[k];
    }
  }

  lemma NewestTail(a: seq<string>, n: seq<string>, max: nat)
    requires |n| == max > 0
    ensures Newest(a + n, max) == n
  {
  }

  lemma NewestMiss(r: seq<string>, max: nat, key: string)
    requires Distinct(r) && key !in Newest(r, max)
    ensures var l := Newest(r, max) + [key];
            Newest(Remove(r, key) + [key], max) == if max > 0 && |l| > max then l[1..] else l
  {
    if max > 0 && |r| > max {
      var a, l := r[..|r| - max], r[|r| - max..];
      assert r == a + l;
      if key in a {
        RemoveFront(a, l, key);
      } else {
        assert key !in r;
        assert Remove(a, key) == a;
      }
      assert Remove(r, key) == Remove(a, key) + l;
      assert Remove(r, key) + [key] == Remove(a, key) + (l + [key]);
    }
  }

  // After any sequence of uses, the cache holds the last distinct keys used,
  // in the order of their last uses.
  lemma {:induction false} LeastRecentlyUsed(uses: seq<Entry>, max: nat)
    ensures Run(uses, max).keys == Newest(ByLastUse(KeysOf(uses)), max)
  {
    hide Remove, IndexOf, Distinct, Newest;
    if uses == [] {
      NewestNone(max);
    } else {
      var before, e := uses[..|uses| - 1], uses[|uses| - 1];
      var c, key := Run(before, max), KeyOf(e.vnode);
      var r := ByLastUse(KeysOf(before));
      LeastRecentlyUsed(before, max);
      RunListed(before, max);
      ByLastUseDistinct(KeysOf(before));
      assert KeysOf(uses)[..|uses| - 1] == KeysOf(before);
      if key in c.entries {
        NewestHit(r, max, key);
      } else {
        NewestMiss(r, max, key);
        var s := Stored(c, key, e);
        if max > 0 && |s.keys| > max {
          FirstRemoved(s.keys);
        }
      }
    }
  }

  lemma NewestNone(max: nat)
    ensures Newest([], max) == []
  {
  }

  lemma FirstRemoved(s: seq<string>)
    requires s != []
    ensures Remove(s, s[0]) == s[1..]
  {
    assert IndexOf(s, s[0]) == 0;
  }

  function LastUse(keys: seq<string>, key: string): (i: nat)
    requires key in keys
    ensures i < |keys| && keys[i] == key && forall j :: i < j < |keys| ==> keys[j] != key
  {
    if keys[|keys| - 1] == key then |keys| - 1 else LastUse(keys[..|keys| - 1], key)
  }

  lemma RemoveOrder(s: seq<string>, key: string, i: nat, j: nat) returns (x: nat, y: nat)
    requires i < j < |Remove(s, key)|
    ensures x < y < |s| && s[x] == Remove(s, key)[i] && s[y] == Remove(s, key)[j]
  {
    hide IndexOf;
    var k := if key in s then IndexOf(s, key) else |s|;
    x, y := if i < k then i else i + 1, if j < k then j else j + 1;
  }

  lemma LastUseBefore(keys: seq<string>, key: string)
    requires keys != [] && key in keys[..|keys| - 1] && key != keys[|keys| - 1]
    ensures key in keys && LastUse(keys, key) == LastUse(keys[..|keys| - 1], key)
  {
    assert keys == keys[..|keys| - 1] + [keys[|keys| - 1]];
  }

  lemma {:induction false} ByLastUseOrdered(keys: seq<string>, i: nat, j: nat)
    requires i < j < |ByLastUse(keys)|
    ensures ByLastUse(keys)[i] in keys && ByLastUse(keys)[j] in keys
    ensures LastUse(keys, ByLastUse(keys)[i]) < LastUse(keys, ByLastUse(keys)[j])
    decreases |keys|
  {
    hide Remove;
    var before, last := keys[..|keys| - 1], keys[|keys| - 1];
    var r, p := ByLastUse(keys), ByLastUse(before);
    assert keys[|keys| - 1] in keys;
    ByLastUseDistinct(before);
    RemoveDistinct(p, last);
    assert r[i] in Remove(p, last);
    LastUseBefore(keys, r[i]);
    if j < |r| - 1 {
      assert r[j] in Remove(p, last);
      LastUseBefore(keys, r[j]);
      var x, y := RemoveOrder(p, last, i, j);
      ByLastUseOrdered(before, x, y);
    }
  }

  // The last use that found the key uncached.
  function LastMiss(uses: seq<Entry>, max: nat, key: string): Option<nat> {
    if uses == [] then None
    else
      var before, e := uses[..|uses| - 1], uses[|uses| - 1];
      if KeyOf(e.vnode) == key && key !in Run(before, max).entries then Some(|uses| - 1) else LastMiss(before, max, key)
  }

  // What is cached for a key is what was stored when it was last missed.
  lemma {:induction false} StoredAtMiss(uses: seq<Entry>, max: nat, key: string)
    requires key in Run(uses, max).entries
    ensures var miss := LastMiss(uses, max, key);
            miss.Some? && miss.value < |uses| && Run(uses, max).entries[key] == uses[miss.value]
  {
    if uses != [] {
      var before := uses[..|uses| - 1];
      if key in Run(before, max).entries {
        StoredAtMiss(before, max, key);
      }
    }
  }
}
