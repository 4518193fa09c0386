// What happens between evaluations: cell writes, notifications, running a
// watcher, tearing one down, creating one.
module Consistency {
  import opened Sequences
  import opened Getters
  import opened Subscriptions

  // A watcher the consistency promise is about.
  ghost predicate Promised(h: Heap, w: WatcherId)
    requires w in h.ws && w in h.prog
  {
    !h.prog[w].lazy && h.ws[w].active && AllActive(h, h.prog[w].getter, h.prog[w].level)
  }

  // Each such watcher is current, or in the queue, or about to be notified.
  ghost predicate Watched(h: Heap, queued: set<WatcherId>, rest: set<WatcherId>)
    requires h.ws.Keys == h.prog.Keys
  {
    forall w :: w in h.ws && Promised(h, w) ==> Current(h, w) || w in queued || w in rest
  }

  // The computed cache is right except for those about to be notified.
  ghost predicate CacheBut(h: Heap, rest: set<WatcherId>)
    requires h.ws.Keys == h.prog.Keys
  {
    forall k :: k in h.ws && Cached(h, k) ==> Current(h, k) || k in rest
  }

  ghost predicate Idle(h: Heap) {
    h.target.None? && h.stack == []
  }

  // Between evaluations, with notifications outstanding for `rest`.
  ghost predicate Stable(h: Heap, queued: set<WatcherId>, rest: set<WatcherId>) {
    && Idle(h) && Base(h) && Linked(h) && Collecting(h)
    && CacheBut(h, rest) && Watched(h, queued, rest) && Named(h)
  }

  lemma StableGood(h: Heap, queued: set<WatcherId>)
    requires Stable(h, queued, {})
    ensures Good(h) && h.ws.Keys == h.prog.Keys && h.subs.Keys == h.cells.Keys && forall w :: !Busy(h, w)
  {
    hide Base, Linked, Collecting, Current, Cached, Promised, Named;
    BaseKeys(h);
  }

  ghost function ToSet(s: seq<WatcherId>): set<WatcherId> {
    set w | w in s
  }

  function Write(h: Heap, c: CellId, v: int): Heap {
    h.(cells := h.cells[c := v])
  }

  // Only watchers subscribed to the cell can lose their value.
  lemma Written(h: Heap, queued: set<WatcherId>, c: CellId, v: int)
    requires Stable(h, queued, {}) && c in h.cells
    ensures c in h.subs && Stable(Write(h, c, v), queued, ToSet(h.subs[c]))
  {
    BaseKeys(h);
    WrittenBase(h, c, v);
    WrittenEach(h, c, v);
    NamedSame(h, Write(h, c, v));
    hide Base, Linked, Collecting, Current, Cached, Promised, Named;
  }

  lemma WrittenEach(h: Heap, c: CellId, v: int)
    requires Base(h) && Linked(h) && c in h.cells && h.ws.Keys == h.prog.Keys && c in h.subs
    ensures var g := Write(h, c, v);
      forall k :: k in h.ws ==>
        && (Cached(g, k) ==> Cached(h, k)) && (Promised(g, k) ==> Promised(h, k))
        && ((Cached(h, k) || Promised(h, k)) && Current(h, k) ==> Current(g, k) || k in h.subs[c])
  {
    var g := Write(h, c, v);
    hide Base, Linked, Reach;
    forall k | k in h.ws
      ensures Cached(g, k) ==> Cached(h, k)
      ensures Promised(g, k) ==> Promised(h, k)
      ensures (Cached(h, k) || Promised(h, k)) && Current(h, k) ==> Current(g, k) || k in h.subs[c]
    {
      if h.ws[k].active && Current(h, k) {
        WrittenCurrent(h, c, v, k);
      }
      hide Current;
    }
  }

  lemma WrittenBase(h: Heap, c: CellId, v: int)
    requires Base(h) && Linked(h) && Collecting(h) && c in h.cells
    ensures var g := Write(h, c, v);
      Base(g) && Linked(g) && Collecting(g)
  {
    hide WellFormed, Tidy, Link;
    assert h.cells[c := v].Keys == h.cells.Keys;
    assert forall w :: Busy(Write(h, c, v), w) <==> Busy(h, w);
  }

  lemma WrittenCurrent(h: Heap, c: CellId, v: int, k: WatcherId)
    requires Base(h) && Linked(h) && c in h.subs && c in h.cells && k in h.ws && h.ws[k].active && Current(h, k)
    ensures Current(Write(h, c, v), k) || k in h.subs[c]
  {
    var d := h.prog[k];
    assert Link(h.subs[c], h.ws[k], d.lazy, k, c);
    if c !in h.ws[k].depIds {
      hide Base, Linked;
      OnlyTouched(h.prog, h.cells, h.cells[c := v], d.getter, d.level);
    }
  }

  // update of a computed property: only the flag is set.
  function MarkDirty(h: Heap, k: WatcherId): Heap
    requires k in h.ws
  {
    h.(ws := h.ws[k := h.ws[k].(dirty := true)])
  }

  lemma Marked(h: Heap, queued: set<WatcherId>, rest: set<WatcherId>, k: WatcherId)
    requires Stable(h, queued, rest) && k in h.ws && k in h.prog && h.prog[k].lazy
    ensures Stable(MarkDirty(h, k), queued, rest - {k})
  {
    hide Base, Linked, Collecting, Current, Cached, Promised, Named, Reach;
    BaseKeys(h);
    MarkedSlots(h, k);
    MarkedEach(h, k);
  }

  lemma MarkedSlots(h: Heap, k: WatcherId)
    requires Base(h) && Linked(h) && Collecting(h) && Named(h) && k in h.ws
    ensures var g := MarkDirty(h, k);
      Base(g) && Linked(g) && Collecting(g) && Named(g)
  {
    hide Base, Linked, Collecting, Named;
    Reslotted(h, k, MarkDirty(h, k).ws[k]);
    NamedSame(h, MarkDirty(h, k));
  }

  lemma MarkedEach(h: Heap, k: WatcherId)
    requires h.ws.Keys == h.prog.Keys && k in h.ws && h.prog[k].lazy
    ensures var g := MarkDirty(h, k);
      forall w :: w in h.ws ==>
        (Current(g, w) <==> Current(h, w)) && (Promised(g, w) ==> Promised(h, w) && w != k) && (Cached(g, w) ==> Cached(h, w) && w != k)
  {
    hide Reach, Val, Touch;
  }

  // update of any other watcher: it is queued.
  lemma Queued(h: Heap, queued: set<WatcherId>, rest: set<WatcherId>, w: WatcherId)
    requires Stable(h, queued, rest) && w in h.ws && w in h.prog && !h.prog[w].lazy
    ensures Stable(h, queued + {w}, rest - {w})
  {
    hide Base, Linked, Collecting, Current, AllActive, Named;
    BaseKeys(h);
  }

  function SetValue(h: Heap, w: WatcherId, v: int): Heap
    requires w in h.ws
  {
    h.(ws := h.ws[w := h.ws[w].(value := Some(v))])
  }

  // Running a watcher that was taken off the queue makes it current.
  lemma RunDone(h: Heap, queued: set<WatcherId>, w: WatcherId, g: Heap, v: int)
    requires h.ws.Keys == h.prog.Keys && Idle(h) && Watched(h, queued, {w}) && w in h.ws && !h.prog[w].lazy
    requires Good(g) && Ran(h, g, w) && w in g.ws
    requires var d := h.prog[w];
      AllActive(h, d.getter, d.level) ==>
        v == Val(h.prog, h.cells, d.getter, d.level) && g.ws[w].depIds == Touch(h.prog, h.cells, d.getter, d.level)
    ensures Stable(SetValue(g, w, v), queued, {})
  {
    hide Base, Linked, Collecting, Promised, Current, CacheOk, Named, Ran, EvalStep, AllActive, Val, Touch;
    BaseKeys(g);
    RunKept(h, g, w);
    ValueSlots(g, w, v);
    forall k | k in h.ws
      ensures Promised(SetValue(g, w, v), k) ==> Promised(h, k)
      ensures Promised(SetValue(g, w, v), k) && k != w && Current(h, k) ==> Current(SetValue(g, w, v), k)
      ensures Promised(SetValue(g, w, v), k) && k == w ==> Current(SetValue(g, w, v), k)
    {
      RunDoneAt(h, w, g, v, k);
    }
    RunCache(g, w, v);
  }

  lemma RunKept(h: Heap, g: Heap, w: WatcherId)
    requires h.ws.Keys == h.prog.Keys && w in h.ws && Ran(h, g, w)
    ensures g.prog == h.prog && g.cells == h.cells && g.ws.Keys == h.ws.Keys && g.target == h.target && g.stack == h.stack
  {
    hide EvalStep;
  }

  lemma ValueSlots(g: Heap, w: WatcherId, v: int)
    requires Base(g) && Linked(g) && Collecting(g) && Named(g) && w in g.ws
    ensures var r := SetValue(g, w, v);
      Base(r) && Linked(r) && Collecting(r) && Named(r)
  {
    hide Base, Linked, Collecting, Named;
    BaseKeys(g);
    Valued(g, w);
    Reslotted(g, w, SetValue(g, w, v).ws[w]);
    NamedSame(g, SetValue(g, w, v));
  }

  lemma Valued(g: Heap, w: WatcherId)
    requires Base(g) && w in g.ws
    ensures w in g.prog && (g.prog[w].lazy && !g.ws[w].dirty ==> g.ws[w].value.Some?)
  {
  }

  lemma RunCache(g: Heap, w: WatcherId, v: int)
    requires g.ws.Keys == g.prog.Keys && CacheOk(g) && w in g.ws && !g.prog[w].lazy
    ensures CacheBut(SetValue(g, w, v), {})
  {
    hide Val, Touch, Reach;
  }

  lemma RunDoneAt(h: Heap, w: WatcherId, g: Heap, v: int, k: WatcherId)
    requires h.ws.Keys == h.prog.Keys && w in h.ws && !h.prog[w].lazy && Ran(h, g, w) && w in g.ws && k in h.ws
    requires var d := h.prog[w];
      AllActive(h, d.getter, d.level) ==>
        v == Val(h.prog, h.cells, d.getter, d.level) && g.ws[w].depIds == Touch(h.prog, h.cells, d.getter, d.level)
    ensures var r := SetValue(g, w, v);
      && (Promised(r, k) ==> Promised(h, k))
      && (Promised(r, k) && k != w && Current(h, k) ==> Current(r, k))
      && (Promised(r, k) && k == w ==> Current(r, k))
  {
    hide Reach, Val, Touch;
    assert EvalStep(h.ws[k], g.ws[k], k != w && (!h.prog[k].lazy || Busy(h, k)), false);
    assert forall j :: j in h.ws ==> EvalStep(h.ws[j], g.ws[j], j != w && (!h.prog[j].lazy || Busy(h, j)), false);
  }

  // A watcher that was torn down before its turn is simply dropped.
  lemma RunSkipped(h: Heap, queued: set<WatcherId>, w: WatcherId)
    requires h.ws.Keys == h.prog.Keys && Watched(h, queued, {w}) && w in h.ws && !h.ws[w].active
    ensures Watched(h, queued, {})
  {
    hide Current, AllActive;
  }

  // Reading a computed property outside any evaluation.
  lemma ReadStable(h: Heap, queued: set<WatcherId>, g: Heap)
    requires Stable(h, queued, {}) && Good(g) && h.ws.Keys == h.prog.Keys && Evaluated(h, g)
    ensures Stable(g, queued, {})
  {
    assert g.prog == h.prog && g.cells == h.cells;
    forall k | k in h.ws
      ensures Promised(g, k) <==> Promised(h, k)
      ensures Promised(h, k) && Current(h, k) ==> Current(g, k)
    {
      ReadStableAt(h, g, k);
    }
    hide Base, Linked, Collecting, Promised, Current, Named;
  }

  lemma ReadStableAt(h: Heap, g: Heap, k: WatcherId)
    requires h.ws.Keys == h.prog.Keys && Evaluated(h, g) && k in h.ws
    ensures Promised(g, k) <==> Promised(h, k)
    ensures Promised(h, k) && Current(h, k) ==> Current(g, k)
  {
    hide Reach, Val, Touch;
    assert forall w :: w in h.ws ==> EvalStep(h.ws[w], g.ws[w], !h.prog[w].lazy || Busy(h, w), h.target == Some(w));
  }

  // Watcher.teardown.
  function TornDown(h: Heap, w: WatcherId): Heap
    requires w in h.ws
  {
    h.(ws := h.ws[w := h.ws[w].(active := false)],
       subs := map c | c in h.subs :: if c in h.ws[w].depIds then Remove(h.subs[c], w) else h.subs[c])
  }

  lemma TornDownSubs(h: Heap, w: WatcherId, c: CellId)
    requires h.ws.Keys == h.prog.Keys && Linked(h) && w in h.ws && h.ws[w].newDepIds == {} && c in h.subs
    ensures c in TornDown(h, w).subs
    ensures var s := TornDown(h, w).subs[c];
      Distinct(s) && w !in s && forall k :: k in s <==> k in h.subs[c] && k != w
  {
    RemoveDistinct(h.subs[c], w);
    assert Link(h.subs[c], h.ws[w], h.prog[w].lazy, w, c);
  }

  lemma TornDownStable(h: Heap, queued: set<WatcherId>, w: WatcherId)
    requires Stable(h, queued, {}) && w in h.ws
    ensures Stable(TornDown(h, w), queued, {})
    ensures forall c :: c in h.subs ==> w !in TornDown(h, w).subs[c]
  {
    StableGood(h, queued);
    IdleIds(h, w);
    hide *;
    StableKeeps(h, queued, {});
    TornDownBase(h, w);
    TornDownLinked(h, w);
    TornDownEach(h, w);
    TornDownIdle(h, w);
    KeptPromises(h, TornDown(h, w), queued);
    IsStable(TornDown(h, w), queued, {});
  }

  lemma StableKeeps(h: Heap, queued: set<WatcherId>, rest: set<WatcherId>)
    requires Stable(h, queued, rest)
    ensures Idle(h) && Base(h) && h.ws.Keys == h.prog.Keys && Linked(h) && Collecting(h)
    ensures CacheBut(h, rest) && Watched(h, queued, rest) && Named(h)
  {
  }

  lemma IsStable(h: Heap, queued: set<WatcherId>, rest: set<WatcherId>)
    requires Idle(h) && Base(h) && Linked(h) && Collecting(h) && CacheBut(h, rest) && Watched(h, queued, rest) && Named(h)
    ensures Stable(h, queued, rest)
  {
  }

  lemma TornDownIdle(h: Heap, w: WatcherId)
    requires Idle(h) && w in h.ws
    ensures Idle(TornDown(h, w)) && TornDown(h, w).ws.Keys == h.ws.Keys && TornDown(h, w).prog == h.prog
    ensures Named(h) ==> Named(TornDown(h, w))
  {
    if Named(h) {
      NamedSame(h, TornDown(h, w));
    }
  }

  lemma KeptPromises(h: Heap, g: Heap, queued: set<WatcherId>)
    requires h.ws.Keys == h.prog.Keys == g.ws.Keys == g.prog.Keys && CacheBut(h, {}) && Watched(h, queued, {})
    requires forall k :: k in h.ws ==>
      (Promised(g, k) ==> Promised(h, k)) && (Cached(g, k) ==> Cached(h, k)) && (Current(g, k) <==> Current(h, k))
    ensures CacheBut(g, {}) && Watched(g, queued, {})
  {
    hide Promised, Cached, Current;
  }

  // Tearing down makes no new promise and breaks none.
  lemma TornDownEach(h: Heap, w: WatcherId)
    requires h.ws.Keys == h.prog.Keys && w in h.ws
    ensures var g := TornDown(h, w);
      forall k :: k in h.ws ==>
        (Promised(g, k) ==> Promised(h, k)) && (Cached(g, k) ==> Cached(h, k)) && (Current(g, k) <==> Current(h, k))
  {
    hide Reach, Val, Touch;
  }

  lemma TornDownBase(h: Heap, w: WatcherId)
    requires Base(h) && Collecting(h) && w in h.ws && forall k :: !Busy(h, k)
    ensures var g := TornDown(h, w);
      Base(g) && Collecting(g)
  {
    hide WellFormed;
    var g := TornDown(h, w);
    assert Tidy(g.ws[w]) by { assert Tidy(h.ws[w]); }
    hide Tidy;
    assert Base(g);
    hide Base;
    assert forall k :: Busy(g, k) <==> Busy(h, k);
  }

  lemma TornDownLinked(h: Heap, w: WatcherId)
    requires h.ws.Keys == h.prog.Keys && Linked(h) && w in h.ws && h.ws[w].newDepIds == {}
    ensures Linked(TornDown(h, w))
    ensures forall c :: c in h.subs ==> w !in TornDown(h, w).subs[c]
  {
    var g := TornDown(h, w);
    forall c | c in g.subs
      ensures Distinct(g.subs[c]) && w !in g.subs[c] && forall k :: k in g.subs[c] ==> k in g.ws
    {
      TornDownSubs(h, w, c);
    }
    forall c, k | c in g.subs && k in g.ws
      ensures Link(g.subs[c], g.ws[k], g.prog[k].lazy, k, c)
    {
      TornDownSubs(h, w, c);
      assert Link(h.subs[c], h.ws[k], h.prog[k].lazy, k, c);
    }
  }

  // ----- computed properties after teardown

  // Where update reaches: a computed property is marked, others are queued.
  function Told(h: Heap, k: WatcherId): Heap {
    if k in h.ws && k in h.prog && h.prog[k].lazy then MarkDirty(h, k) else h
  }

  // What notify makes of the heap, telling the subscribers in turn.
  function Notified(h: Heap, subs: seq<WatcherId>): Heap {
    if subs == [] then h else Told(Notified(h, subs[..|subs| - 1]), subs[|subs| - 1])
  }

  // reactiveSetter, notifications delivered.
  function Wrote(h: Heap, c: CellId, v: int): Heap {
    if c in h.cells && c in h.subs && h.cells[c] != v then Notified(Write(h, c, v), h.subs[c]) else h
  }

  function WroteAll(h: Heap, writes: seq<(CellId, int)>): Heap {
    if writes == [] then h
    else Wrote(WroteAll(h, writes[..|writes| - 1]), writes[|writes| - 1].0, writes[|writes| - 1].1)
  }

  // The subscribers that are queued when they are told.
  ghost function Queueable(p: Prog, subs: seq<WatcherId>): set<WatcherId> {
    set w | w in subs && w in p && !p[w].lazy
  }

  lemma {:induction false} NotifiedStable(h: Heap, queued: set<WatcherId>, rest: set<WatcherId>, subs: seq<WatcherId>)
    requires Stable(h, queued, rest) && forall w :: w in subs ==> w in h.ws && w in h.prog
    ensures Stable(Notified(h, subs), queued + Queueable(h.prog, subs), rest - ToSet(subs))
    ensures Notified(h, subs).prog == h.prog && Notified(h, subs).ws.Keys == h.ws.Keys
  {
    hide Stable;
    if subs == [] {
      assert queued + Queueable(h.prog, subs) == queued;
      assert rest - ToSet(subs) == rest;
    } else {
      var before, k := subs[..|subs| - 1], subs[|subs| - 1];
      assert subs == before + [k];
      NotifiedStable(h, queued, rest, before);
      var g, q, r := Notified(h, before), queued + Queueable(h.prog, before), rest - ToSet(before);
      assert r - {k} == rest - ToSet(subs);
      if h.prog[k].lazy {
        Marked(g, q, r, k);
        assert Queueable(h.prog, subs) == Queueable(h.prog, before);
      } else {
        Queued(g, q, r, k);
        assert q + {k} == queued + Queueable(h.prog, subs);
      }
    }
  }

  lemma WroteStable(h: Heap, queued: set<WatcherId>, c: CellId, v: int) returns (more: set<WatcherId>)
    requires Stable(h, queued, {})
    ensures Stable(Wrote(h, c, v), more, {})
  {
    hide Stable;
    more := queued;
    if c in h.cells && c in h.subs && h.cells[c] != v {
      Written(h, queued, c, v);
      var g, subs := Write(h, c, v), h.subs[c];
      Subscribed(g, queued, ToSet(subs), c);
      NotifiedStable(g, queued, ToSet(subs), subs);
      assert ToSet(subs) - ToSet(subs) == {};
      more := queued + Queueable(h.prog, subs);
    }
  }

  lemma Subscribed(h: Heap, queued: set<WatcherId>, rest: set<WatcherId>, c: CellId)
    requires Stable(h, queued, rest) && c in h.subs
    ensures forall w :: w in h.subs[c] ==> w in h.ws && w in h.prog
  {
    hide Collecting, CacheBut, Watched, WellFormed, Tidy, Link, Named;
  }

  // A torn-down computed property with a cached value that nobody will
  // invalidate.
  ghost predicate Deaf(h: Heap, k: WatcherId) {
    && k in h.ws && k in h.prog && h.prog[k].lazy && !h.ws[k].active && !h.ws[k].dirty
    && forall c :: c in h.subs ==> k !in h.subs[c]
  }

  lemma {:induction false} NotifiedOthers(h: Heap, subs: seq<WatcherId>, k: WatcherId)
    requires k in h.ws && k !in subs
    ensures var g := Notified(h, subs);
      k in g.ws && g.ws[k] == h.ws[k] && g.prog == h.prog && g.subs == h.subs && g.cells == h.cells
  {
    if subs != [] {
      NotifiedOthers(h, subs[..|subs| - 1], k);
    }
  }

  lemma {:induction false} StaysDeaf(h: Heap, k: WatcherId, writes: seq<(CellId, int)>)
    requires Deaf(h, k)
    ensures var g := WroteAll(h, writes);
      Deaf(g, k) && g.ws[k] == h.ws[k] && g.prog == h.prog
  {
    if writes != [] {
      var before, w := writes[..|writes| - 1], writes[|writes| - 1];
      StaysDeaf(h, k, before);
      var g := WroteAll(h, before);
      if w.0 in g.cells && w.0 in g.subs && g.cells[w.0] != w.1 {
        NotifiedOthers(Write(g, w.0, w.1), g.subs[w.0], k);
      }
    }
  }

  lemma {:induction false} WroteAllStable(h: Heap, queued: set<WatcherId>, writes: seq<(CellId, int)>) returns (more: set<WatcherId>)
    requires Stable(h, queued, {})
    ensures Stable(WroteAll(h, writes), more, {})
  {
    hide Stable;
    more := queued;
    if writes != [] {
      more := WroteAllStable(h, queued, writes[..|writes| - 1]);
      more := WroteStable(WroteAll(h, writes[..|writes| - 1]), more, writes[|writes| - 1].0, writes[|writes| - 1].1);
    }
  }

  // When a cached computed property has been torn down, then after any
  // sequence of writes, every subscriber told, it still serves what it held:
  // the right value exactly if its getter gives the same as at the teardown.
  lemma StaleExactly(h: Heap, queued: set<WatcherId>, k: WatcherId, writes: seq<(CellId, int)>) returns (more: set<WatcherId>)
    requires Stable(h, queued, {}) && k in h.ws && k in h.prog && Cached(h, k)
    ensures var g, d := WroteAll(TornDown(h, k), writes), h.prog[k];
      && Stable(g, more, {})
      && Deaf(g, k) && g.prog == h.prog
      && (g.ws[k].value == Some(Val(g.prog, g.cells, d.getter, d.level)) <==>
          Val(g.prog, g.cells, d.getter, d.level) == Val(h.prog, h.cells, d.getter, d.level))
  {
    TornDownStable(h, queued, k);
    more := WroteAllStable(TornDown(h, k), queued, writes);
    assert Current(h, k) by { StableGood(h, queued); }
    hide Stable, Current, AllActive;
    assert Deaf(TornDown(h, k), k);
    StaysDeaf(TornDown(h, k), k, writes);
    HeldValue(h, k);
  }

  lemma HeldValue(h: Heap, k: WatcherId)
    requires k in h.ws && k in h.prog && Current(h, k)
    ensures h.ws[k].value == Some(Val(h.prog, h.cells, h.prog[k].getter, h.prog[k].level))
  {
  }

  // One get of w that reads these cells in turn.
  function WithDeps(h: Heap, w: WatcherId, cs: seq<CellId>): (g: Heap)
    requires w in h.ws && forall c :: c in cs ==> c in h.subs
    ensures g.ws.Keys == h.ws.Keys && g.subs.Keys == h.subs.Keys
  {
    if cs == [] then h else
      assert forall c :: c in cs[..|cs| - 1] ==> c in cs;
      WithDep(WithDeps(h, w, cs[..|cs| - 1]), w, cs[|cs| - 1])
  }

  function Reread(h: Heap, w: WatcherId, cs: seq<CellId>): Heap
    requires w in h.ws && forall c :: c in cs ==> c in h.subs
  {
    CleanedUp(Popped(WithDeps(Pushed(h, w), w, cs)), w)
  }

  lemma {:induction false} WithDepsIs(h: Heap, w: WatcherId, cs: seq<CellId>)
    requires w in h.ws && forall c :: c in cs ==> c in h.subs
    requires h.ws[w].newDepIds == {} && forall c :: c in h.subs ==> w !in h.subs[c]
    ensures var g := WithDeps(h, w, cs);
      && g.ws[w].depIds == h.ws[w].depIds && g.ws[w].newDepIds == set c | c in cs
      && forall c :: c in g.subs ==> (w in g.subs[c] <==> c in cs && c !in h.ws[w].depIds)
  {
    if cs != [] {
      var before, c := cs[..|cs| - 1], cs[|cs| - 1];
      assert cs == before + [c];
      WithDepsIs(h, w, before);
    }
  }

  // Read again after its teardown, a watcher subscribes exactly to the cells
  // that it did not depend on before: addDep takes the old deps for
  // subscribed, although teardown removed it from their lists.
  lemma RereadSubscribes(h: Heap, w: WatcherId, cs: seq<CellId>)
    requires w in h.ws && forall c :: c in cs ==> c in h.subs
    requires h.ws[w].newDepIds == {} && forall c :: c in h.subs ==> w !in h.subs[c]
    ensures var g := Reread(h, w, cs);
      && g.subs.Keys == h.subs.Keys && w in g.ws && g.ws[w].depIds == set c | c in cs
      && forall c :: c in g.subs ==> (w in g.subs[c] <==> c in cs && c !in h.ws[w].depIds)
  {
    var p := Pushed(h, w);
    WithDepsIs(p, w, cs);
    var g := Popped(WithDeps(p, w, cs));
    forall c | c in g.subs
      ensures c in g.ws[w].depIds && c !in g.ws[w].newDepIds ==> w !in g.subs[c]
    {
    }
  }

  // A computed property over one cell, evaluated and subscribed.
  function OneComputed(): Heap {
    Heap(map[0 := Def(Cell(0), true, 0)], map[0 := 1], map[0 := [0]],
         map[0 := Watcher(true, false, Some(1), [0], [], {0}, {})], None, [])
  }

  // The smallest case: one cell, one computed property, one write.
  lemma StaleAfterTeardown()
    ensures Stable(OneComputed(), {}, {}) && Cached(OneComputed(), 0)
    ensures var g := WroteAll(TornDown(OneComputed(), 0), [(0, 2)]);
            Deaf(g, 0) && g.ws[0].value != Some(Val(g.prog, g.cells, g.prog[0].getter, g.prog[0].level))
  {
    var h := OneComputed();
    OneComputedStable();
    var _ := StaleExactly(h, {}, 0, [(0, 2)]);
    hide Stable;
    var t := TornDown(h, 0);
    assert [(0 as nat, 2)][..0] == [];
    assert WroteAll(t, [(0, 2)]) == Wrote(t, 0, 2);
    assert Remove([0 as nat], 0) == [] by { assert IndexOf([0 as nat], 0) == 0; }
    assert t.subs[0] == [];
    assert Wrote(t, 0, 2).cells[0] == 2;
  }

  lemma OneComputedStable()
    ensures Stable(OneComputed(), {}, {}) && Cached(OneComputed(), 0)
  {
    var h := OneComputed();
    assert Tidy(h.ws[0]);
    assert Link(h.subs[0], h.ws[0], true, 0, 0);
    assert forall w: WatcherId :: !Busy(h, w);
    assert Current(h, 0);
  }

  // `new Watcher` before its first evaluation.
  function AddWatcher(h: Heap, w: WatcherId, d: Def): Heap {
    h.(prog := h.prog[w := d], ws := h.ws[w := Watcher(true, d.lazy, None, [], [], {}, {})])
  }

  // A dep and its cell come into being together.
  function AddCell(h: Heap, c: CellId, v: int): Heap {
    h.(cells := h.cells[c := v], subs := h.subs[c := []])
  }

  // g only adds cells and watchers to h.
  ghost predicate Grown(h: Heap, g: Heap) {
    && (forall k :: k in h.prog ==> k in g.prog && g.prog[k] == h.prog[k])
    && (forall c :: c in h.cells ==> c in g.cells && g.cells[c] == h.cells[c])
    && (forall k :: k in h.ws ==> k in g.ws && g.ws[k] == h.ws[k])
  }

  lemma GrownSame(h: Heap, g: Heap, k: WatcherId)
    requires Base(h) && Grown(h, g) && k in h.ws
    ensures WellFormed(g.prog, g.cells.Keys, h.prog[k].getter, h.prog[k].level)
    ensures (Current(g, k) <==> Current(h, k)) && (Promised(g, k) <==> Promised(h, k)) && (Cached(g, k) <==> Cached(h, k))
  {
    var d := h.prog[k];
    hide Tidy;
    Extends(h.prog, g.prog, h.cells, g.cells, d.getter, d.level);
    TouchKnown(h.prog, h.cells, d.getter, d.level);
    hide WellFormed, Val, Touch, Reach;
  }

  lemma GrownEach(h: Heap, g: Heap)
    requires Base(h) && Grown(h, g)
    ensures forall k :: k in h.ws ==> k in g.ws && k in g.prog && WellFormed(g.prog, g.cells.Keys, g.prog[k].getter, g.prog[k].level)
    ensures forall k :: k in h.ws ==>
      (Current(g, k) <==> Current(h, k)) && (Promised(g, k) <==> Promised(h, k)) && (Cached(g, k) <==> Cached(h, k))
  {
    BaseKeys(h);
    forall k | k in h.ws
      ensures WellFormed(g.prog, g.cells.Keys, g.prog[k].getter, g.prog[k].level)
      ensures (Current(g, k) <==> Current(h, k)) && (Promised(g, k) <==> Promised(h, k)) && (Cached(g, k) <==> Cached(h, k))
    {
      GrownSame(h, g, k);
    }
  }

  lemma AddWatcherStable(h: Heap, queued: set<WatcherId>, w: WatcherId, d: Def)
    requires Stable(h, queued, {}) && w !in h.ws && WellFormed(h.prog, h.cells.Keys, d.getter, d.level)
    ensures Stable(AddWatcher(h, w, d), queued, if d.lazy then {} else {w})
  {
    hide Base, Linked, Collecting, Current, Promised, Cached, WellFormed, Named;
    BaseKeys(h);
    var g := AddWatcher(h, w, d);
    GrownEach(h, g);
    AddWatcherBase(h, w, d);
    AddWatcherLinked(h, w, d);
    NotPromised(g, w);
    AddWatcherCollecting(h, w, d);
    GrownNamed(h, g);
    hide Grown, Named;
  }

  // New watchers have no deps yet.
  lemma GrownNamed(h: Heap, g: Heap)
    requires Base(h) && Named(h) && Grown(h, g)
    requires forall k :: k in g.ws && k !in h.ws ==> g.ws[k].depIds == {} && g.ws[k].newDepIds == {}
    ensures Named(g)
  {
    hide Tidy;
    BaseKeys(h);
    forall w | w in g.ws && w in g.prog
      ensures g.ws[w].depIds <= MentionsOf(g.prog, w) && g.ws[w].newDepIds <= MentionsOf(g.prog, w)
    {
      if w in h.ws {
        ExtendsMentions(h.prog, g.prog, h.cells.Keys, h.prog[w].getter, h.prog[w].level);
      }
    }
  }

  lemma AddWatcherCollecting(h: Heap, w: WatcherId, d: Def)
    requires h.ws.Keys == h.prog.Keys && Collecting(h) && w !in h.ws
    ensures Collecting(AddWatcher(h, w, d))
  {
    assert forall k :: Busy(AddWatcher(h, w, d), k) <==> Busy(h, k);
  }

  lemma NotPromised(h: Heap, w: WatcherId)
    requires w in h.ws && w in h.prog
    ensures h.prog[w].lazy ==> !Promised(h, w)
    ensures (h.prog[w].lazy ==> h.ws[w].dirty) ==> !Cached(h, w)
  {
  }

  lemma AddWatcherBase(h: Heap, w: WatcherId, d: Def)
    requires Base(h) && w !in h.ws && WellFormed(h.prog, h.cells.Keys, d.getter, d.level)
    ensures Base(AddWatcher(h, w, d))
  {
    hide WellFormed, Val, Touch, Reach, Current, Promised, Cached, Tidy;
    var g := AddWatcher(h, w, d);
    GrownEach(h, g);
    hide Grown;
    Extends(h.prog, g.prog, h.cells, g.cells, d.getter, d.level);
    NewTidy(d.lazy);
  }

  lemma NewTidy(lazy: bool)
    ensures Tidy(Watcher(true, lazy, None, [], [], {}, {}))
  {
  }

  lemma AddWatcherLinked(h: Heap, w: WatcherId, d: Def)
    requires h.ws.Keys == h.prog.Keys && Linked(h) && w !in h.ws
    ensures Linked(AddWatcher(h, w, d))
  {
    var g := AddWatcher(h, w, d);
    forall c, k | c in g.subs && k in g.ws
      ensures Link(g.subs[c], g.ws[k], g.prog[k].lazy, k, c)
    {
      if k != w {
        assert Link(h.subs[c], h.ws[k], h.prog[k].lazy, k, c);
      }
    }
  }

  lemma AddCellStable(h: Heap, queued: set<WatcherId>, c: CellId, v: int)
    requires Stable(h, queued, {}) && c !in h.cells
    ensures Stable(AddCell(h, c, v), queued, {})
  {
    hide *;
    var g := AddCell(h, c, v);
    StableKeeps(h, queued, {});
    AddCellSame(h, c, v);
    GrownEach(h, g);
    AddCellBase(h, c, v);
    KeptPromises(h, g, queued);
    GrownNamed(h, g);
    IsStable(g, queued, {});
  }

  lemma AddCellSame(h: Heap, c: CellId, v: int)
    requires Idle(h) && h.ws.Keys == h.prog.Keys && Collecting(h) && c !in h.cells
    ensures var g := AddCell(h, c, v);
            Idle(g) && g.ws == h.ws && g.prog == h.prog && Collecting(g) && Grown(h, g)
  {
    assert forall k :: Busy(AddCell(h, c, v), k) <==> Busy(h, k);
  }

  lemma AddCellBase(h: Heap, c: CellId, v: int)
    requires Base(h) && Linked(h) && c !in h.cells
    ensures Base(AddCell(h, c, v)) && Linked(AddCell(h, c, v))
  {
    var g := AddCell(h, c, v);
    GrownEach(h, g);
    hide WellFormed, Tidy, Current, Promised, Cached, Grown, Linked;
    assert Base(g);
    AddCellLinked(h, c, v);
  }

  lemma AddCellLinked(h: Heap, c: CellId, v: int)
    requires Base(h) && Linked(h) && c !in h.cells
    ensures AddCell(h, c, v).ws.Keys == AddCell(h, c, v).prog.Keys && Linked(AddCell(h, c, v))
  {
    BaseKeys(h);
    BaseDeps(h, c);
    hide Base;
    var g := AddCell(h, c, v);
    forall e, k | e in g.subs && k in g.ws
      ensures Link(g.subs[e], g.ws[k], g.prog[k].lazy, k, e)
    {
      if e != c {
        assert Link(h.subs[e], h.ws[k], h.prog[k].lazy, k, e);
      }
    }
  }

  lemma BaseDeps(h: Heap, c: CellId)
    requires Base(h) && c !in h.cells
    ensures forall w :: w in h.ws ==> c !in h.ws[w].depIds && c !in h.ws[w].newDepIds
  {
    hide WellFormed, Tidy;
  }
}
