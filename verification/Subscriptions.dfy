// The two-way subscription protocol between deps and watchers: what the deps'
// subscriber lists and the watchers' dependency slots must say about each
// other, and that every step of an evaluation keeps it.
module Subscriptions {
  import opened Sequences
  import opened Getters

  // The slots a watcher updates. A dep is named by the cell it guards.
  datatype Watcher = Watcher(active: bool, dirty: bool, value: Option<int>,
                             deps: seq<CellId>, newDeps: seq<CellId>,
                             depIds: set<CellId>, newDepIds: set<CellId>)

  // Cells with their deps' subscriber lists, watchers, and `Dep.target` with
  // the stack below it.
  datatype Heap = Heap(prog: Prog, cells: Cells, subs: map<CellId, seq<WatcherId>>, ws: map<WatcherId, Watcher>,
                       target: Option<WatcherId>, stack: seq<WatcherId>)

  // The id sets mirror the lists, which have no duplicates.
  ghost predicate Tidy(w: Watcher) {
    && Distinct(w.deps) && Distinct(w.newDeps)
    && (forall c :: c in w.depIds <==> c in w.deps)
    && (forall c :: c in w.newDepIds <==> c in w.newDeps)
  }

  ghost predicate Base(h: Heap) {
    && h.ws.Keys == h.prog.Keys && h.subs.Keys == h.cells.Keys
    && (forall w :: w in h.prog ==> WellFormed(h.prog, h.cells.Keys, h.prog[w].getter, h.prog[w].level))
    && (forall w :: w in h.ws ==> Tidy(h.ws[w]) && h.ws[w].depIds <= h.cells.Keys && h.ws[w].newDepIds <= h.cells.Keys)
    && (forall w :: w in h.ws && h.prog[w].lazy && !h.ws[w].dirty ==> h.ws[w].value.Some?)
  }

  // An active watcher is subscribed to exactly the deps in its two lists. A
  // torn-down one is subscribed to nothing, unless it is a computed property
  // that was read again afterwards.
  ghost predicate Linked(h: Heap)
    requires h.ws.Keys == h.prog.Keys
  {
    && (forall c :: c in h.subs ==> Distinct(h.subs[c]))
    && (forall c, w :: c in h.subs && w in h.subs[c] ==> w in h.ws)
    && (forall c, w :: c in h.subs && w in h.ws ==> Link(h.subs[c], h.ws[w], h.prog[w].lazy, w, c))
  }

  ghost predicate Link(subs: seq<WatcherId>, x: Watcher, lazy: bool, w: WatcherId, c: CellId) {
    if x.active then w in subs <==> c in x.depIds || c in x.newDepIds
    else w in subs ==> lazy && (c in x.depIds || c in x.newDepIds)
  }

  ghost predicate Busy(h: Heap, w: WatcherId) {
    h.target == Some(w) || w in h.stack
  }

  // Collecting watchers are alive or computed; all others have no new deps.
  ghost predicate Collecting(h: Heap)
    requires h.ws.Keys == h.prog.Keys
  {
    && (h.stack != [] ==> h.target.Some?)
    && (forall w :: Busy(h, w) ==> w in h.ws && (h.ws[w].active || h.prog[w].lazy))
    && (forall w :: w in h.ws && !Busy(h, w) ==> h.ws[w].newDeps == [])
  }

  // No computed property that the getter can reach has been torn down.
  ghost predicate AllActive(h: Heap, e: Expr, b: nat) {
    forall k :: k in Reach(h.prog, e, b) ==> k in h.ws && h.ws[k].active
  }

  // The watcher holds what a from-scratch evaluation would give, and its deps
  // are exactly the cells that evaluation would read.
  ghost predicate Current(h: Heap, w: WatcherId)
    requires w in h.ws && w in h.prog
  {
    var d := h.prog[w];
    && h.ws[w].value == Some(Val(h.prog, h.cells, d.getter, d.level))
    && h.ws[w].depIds == Touch(h.prog, h.cells, d.getter, d.level)
  }

  // A computed property whose cached value is about to be served.
  ghost predicate Cached(h: Heap, k: WatcherId)
    requires k in h.ws && k in h.prog
  {
    h.prog[k].lazy && h.ws[k].active && !h.ws[k].dirty && AllActive(h, h.prog[k].getter, h.prog[k].level)
  }

  // The computed cache: not dirty means current.
  ghost predicate CacheOk(h: Heap)
    requires h.ws.Keys == h.prog.Keys
  {
    forall k :: k in h.ws && Cached(h, k) ==> Current(h, k)
  }

  // The cells that the getter of w can mention.
  function MentionsOf(p: Prog, w: WatcherId): set<CellId>
    requires w in p
  {
    Mentions(p, p[w].getter, p[w].level)
  }

  // Whatever was torn down or read again: a watcher depends on nothing that
  // its getter does not mention.
  ghost predicate Named(h: Heap) {
    forall w :: w in h.ws && w in h.prog ==>
      h.ws[w].depIds <= MentionsOf(h.prog, w) && h.ws[w].newDepIds <= MentionsOf(h.prog, w)
  }

  // What is evaluated is part of what the current target mentions.
  ghost predicate Covers(h: Heap, e: Expr, b: nat) {
    h.target.Some? ==> h.target.value in h.prog && Mentions(h.prog, e, b) <= MentionsOf(h.prog, h.target.value)
  }

  ghost predicate Good(h: Heap) {
    Base(h) && Linked(h) && Collecting(h) && CacheOk(h) && Named(h)
  }

  // Named survives everything that collects no further dep.
  lemma NamedSame(h: Heap, g: Heap)
    requires Named(h) && g.prog == h.prog && g.ws.Keys == h.ws.Keys
    requires forall k :: k in h.ws ==>
      && (g.ws[k].depIds <= h.ws[k].depIds || g.ws[k].depIds <= h.ws[k].newDepIds)
      && g.ws[k].newDepIds <= h.ws[k].newDepIds
    ensures Named(g)
  {
    hide Mentions;
  }

  lemma AddDepNamed(h: Heap, w: WatcherId, c: CellId)
    requires Named(h) && w in h.ws && c in h.subs && w in h.prog && c in MentionsOf(h.prog, w)
    ensures Named(WithDep(h, w, c))
  {
    hide Mentions;
  }

  lemma CleanupNamed(g: Heap, w: WatcherId)
    requires Named(g) && w in g.ws
    ensures Named(CleanedUp(Popped(g), w))
  {
    NamedSame(g, CleanedUp(Popped(g), w));
  }

  // Watcher.addDep.
  function WithDep(h: Heap, w: WatcherId, c: CellId): Heap
    requires w in h.ws && c in h.subs
  {
    var x := h.ws[w];
    if c in x.newDepIds then h else
      var y := x.(newDepIds := x.newDepIds + {c}, newDeps := x.newDeps + [c]);
      h.(ws := h.ws[w := y], subs := if c in x.depIds then h.subs else h.subs[c := h.subs[c] + [w]])
  }

  // Watcher.cleanupDeps.
  function CleanedUp(h: Heap, w: WatcherId): Heap
    requires w in h.ws
  {
    var x := h.ws[w];
    h.(ws := h.ws[w := x.(deps := x.newDeps, depIds := x.newDepIds, newDeps := [], newDepIds := {})],
       subs := map c | c in h.subs :: if c in x.depIds && c !in x.newDepIds then Remove(h.subs[c], w) else h.subs[c])
  }

  function Pushed(h: Heap, w: WatcherId): Heap {
    h.(stack := if h.target.Some? then h.stack + [h.target.value] else h.stack, target := Some(w))
  }

  function Popped(h: Heap): Heap {
    if h.stack == [] then h.(target := None)
    else h.(target := Some(h.stack[|h.stack| - 1]), stack := h.stack[..|h.stack| - 1])
  }

  lemma AddDepGood(h: Heap, w: WatcherId, c: CellId)
    requires Good(h) && h.target == Some(w) && w in h.ws && c in h.subs && w in h.prog && c in MentionsOf(h.prog, w)
    ensures Good(WithDep(h, w, c))
  {
    if c !in h.ws[w].newDepIds {
      hide *;
      GoodParts(h);
      TargetAlive(h, w);
      AddDepBase(h, w, c);
      AddDepLinked(h, w, c);
      AddDepCollecting(h, w, c);
      AddDepCache(h, w, c);
      AddDepNamed(h, w, c);
      IsGood(WithDep(h, w, c));
    }
  }

  lemma GoodParts(h: Heap)
    requires Good(h)
    ensures Base(h) && h.ws.Keys == h.prog.Keys && Linked(h) && Collecting(h) && CacheOk(h) && Named(h)
  {
  }

  lemma AddDepCache(h: Heap, w: WatcherId, c: CellId)
    requires h.ws.Keys == h.prog.Keys && CacheOk(h) && w in h.ws && c in h.subs
    ensures WithDep(h, w, c).ws.Keys == WithDep(h, w, c).prog.Keys && CacheOk(WithDep(h, w, c))
  {
    hide CacheOk;
    SameCache(h, WithDep(h, w, c));
  }

  lemma TargetAlive(h: Heap, w: WatcherId)
    requires h.ws.Keys == h.prog.Keys && Collecting(h) && h.target == Some(w)
    ensures w in h.ws && (h.ws[w].active || h.prog[w].lazy)
  {
    assert Busy(h, w);
  }

  lemma AddDepCollecting(h: Heap, w: WatcherId, c: CellId)
    requires h.ws.Keys == h.prog.Keys && Collecting(h) && h.target == Some(w) && w in h.ws && c in h.subs
    ensures Collecting(WithDep(h, w, c))
  {
    assert Busy(h, w);
    assert forall k :: Busy(WithDep(h, w, c), k) <==> Busy(h, k);
  }

  lemma AddDepBase(h: Heap, w: WatcherId, c: CellId)
    requires Base(h) && w in h.ws && c in h.subs && c !in h.ws[w].newDepIds
    ensures Base(WithDep(h, w, c))
  {
    var g := WithDep(h, w, c);
    var x, y := h.ws[w], g.ws[w];
    assert Tidy(y) by {
      assert c !in x.newDeps;
    }
  }

  lemma AddDepLinked(h: Heap, w: WatcherId, c: CellId)
    requires h.ws.Keys == h.prog.Keys && Linked(h) && w in h.ws && c in h.subs && c !in h.ws[w].newDepIds
    requires h.ws[w].active || h.prog[w].lazy
    ensures WithDep(h, w, c).ws.Keys == h.prog.Keys && Linked(WithDep(h, w, c))
  {
    var g := WithDep(h, w, c);
    assert Link(h.subs[c], h.ws[w], h.prog[w].lazy, w, c);
    forall d, k | d in g.subs && k in g.ws
      ensures Link(g.subs[d], g.ws[k], g.prog[k].lazy, k, d)
    {
      assert Link(h.subs[d], h.ws[k], h.prog[k].lazy, k, d);
    }
  }

  // The cache condition only looks at cells, definitions and settled slots.
  lemma SameCache(h: Heap, g: Heap)
    requires h.ws.Keys == h.prog.Keys && CacheOk(h)
    requires g.prog == h.prog && g.cells == h.cells && g.ws.Keys == h.ws.Keys
    requires forall k :: k in h.ws ==>
      && g.ws[k].active == h.ws[k].active && g.ws[k].dirty == h.ws[k].dirty
      && g.ws[k].value == h.ws[k].value && g.ws[k].depIds == h.ws[k].depIds
    ensures CacheOk(g)
  {
    hide Val, Touch, Reach;
  }

  // What evaluating some getter may change: nothing but computed caches that
  // are not being filled already, and the new deps of the current target.
  ghost predicate Evaluated(h: Heap, g: Heap)
    requires h.ws.Keys == h.prog.Keys
  {
    && g.prog == h.prog && g.cells == h.cells && g.target == h.target && g.stack == h.stack
    && g.ws.Keys == h.ws.Keys && g.subs.Keys == h.subs.Keys
    && (forall w :: w in h.ws ==>
      EvalStep(h.ws[w], g.ws[w], !h.prog[w].lazy || Busy(h, w), h.target == Some(w)))
  }

  // One watcher's share of an evaluation. `kept`: its cache and deps stay;
  // `target`: it is the one collecting.
  ghost predicate EvalStep(x: Watcher, y: Watcher, kept: bool, target: bool) {
    && y.active == x.active && (y.dirty ==> x.dirty)
    && (kept ==> Settled(x, y))
    && (if target then x.newDepIds <= y.newDepIds else y.newDeps == x.newDeps && y.newDepIds == x.newDepIds)
  }

  ghost predicate Settled(x: Watcher, y: Watcher) {
    y.value == x.value && y.dirty == x.dirty && y.deps == x.deps && y.depIds == x.depIds
  }

  // The target has collected exactly D on top of what it had.
  ghost predicate Collected(h: Heap, g: Heap, D: set<CellId>) {
    h.target.Some? && h.target.value in h.ws && h.target.value in g.ws ==>
      g.ws[h.target.value].newDepIds == h.ws[h.target.value].newDepIds + D
  }

  lemma EvaluatedSelf(h: Heap)
    requires h.ws.Keys == h.prog.Keys
    ensures Evaluated(h, h) && Collected(h, h, {})
  {
  }

  lemma EvaluatedTrans(h0: Heap, h1: Heap, h2: Heap)
    requires h0.ws.Keys == h0.prog.Keys && Evaluated(h0, h1) && h1.ws.Keys == h1.prog.Keys && Evaluated(h1, h2)
    ensures Evaluated(h0, h2)
  {
    assert forall w :: Busy(h1, w) <==> Busy(h0, w);
    hide Busy;
    forall w | w in h0.ws
      ensures EvalStep(h0.ws[w], h2.ws[w], !h0.prog[w].lazy || Busy(h0, w), h0.target == Some(w))
    {
      assert EvalStep(h0.ws[w], h1.ws[w], !h0.prog[w].lazy || Busy(h0, w), h0.target == Some(w));
      assert EvalStep(h1.ws[w], h2.ws[w], !h1.prog[w].lazy || Busy(h1, w), h1.target == Some(w));
    }
  }

  lemma CollectedTrans(h0: Heap, h1: Heap, h2: Heap, D: set<CellId>, E: set<CellId>)
    requires h0.ws.Keys == h0.prog.Keys && Evaluated(h0, h1)
    requires Collected(h0, h1, D) && Collected(h1, h2, E)
    ensures Collected(h0, h2, D + E)
  {
  }

  lemma AddDepEvaluated(h: Heap, w: WatcherId, c: CellId)
    requires Good(h) && h.target == Some(w) && w in h.ws && c in h.subs
    ensures Evaluated(h, WithDep(h, w, c)) && Collected(h, WithDep(h, w, c), {c})
  {
    hide WellFormed, CacheOk, Linked, Named;
    assert Busy(h, w);
  }

  // Expressions see the same computed properties and cells throughout.
  lemma AllActiveSame(h: Heap, g: Heap, e: Expr, b: nat)
    requires h.ws.Keys == h.prog.Keys && Evaluated(h, g)
    ensures AllActive(g, e, b) <==> AllActive(h, e, b)
  {
    hide Reach;
    assert forall k :: k in h.ws ==> EvalStep(h.ws[k], g.ws[k], !h.prog[k].lazy || Busy(h, k), h.target == Some(k));
  }

  lemma NoNewIds(x: Watcher)
    requires Tidy(x) && x.newDeps == []
    ensures x.newDepIds == {}
  {
  }

  lemma PushGood(h: Heap, w: WatcherId)
    requires Good(h) && w in h.ws && !Busy(h, w) && (h.ws[w].active || h.prog[w].lazy)
    ensures Good(Pushed(h, w)) && Pushed(h, w).ws[w].newDeps == [] && Pushed(h, w).ws[w].newDepIds == {}
    ensures forall k :: Busy(Pushed(h, w), k) <==> k == w || Busy(h, k)
  {
    hide CacheOk, WellFormed, Mentions;
    var g := Pushed(h, w);
    assert forall k :: Busy(g, k) <==> k == w || Busy(h, k);
    SameCache(h, g);
    NoNewIds(h.ws[w]);
  }

  // What one Watcher.get of w changes besides what any evaluation may.
  ghost predicate Ran(h: Heap, g: Heap, w: WatcherId)
    requires h.ws.Keys == h.prog.Keys && w in h.ws
  {
    && g.prog == h.prog && g.cells == h.cells && g.target == h.target && g.stack == h.stack
    && g.ws.Keys == h.ws.Keys && g.subs.Keys == h.subs.Keys
    && (forall k :: k in h.ws ==>
      EvalStep(h.ws[k], g.ws[k], k != w && (!h.prog[k].lazy || Busy(h, k)), false))
    && g.ws[w].value == h.ws[w].value && g.ws[w].dirty == h.ws[w].dirty
  }

  lemma PushPop(h: Heap, g: Heap, w: WatcherId)
    requires h.stack != [] ==> h.target.Some?
    requires g.target == Pushed(h, w).target && g.stack == Pushed(h, w).stack
    ensures Popped(g).target == h.target && Popped(g).stack == h.stack
    ensures forall k :: Busy(Pushed(h, w), k) <==> k == w || Busy(h, k)
  {
    var p := Pushed(h, w);
    assert h.target.Some? ==> p.stack[..|p.stack| - 1] == h.stack;
  }

  lemma IdleIds(h: Heap, w: WatcherId)
    requires Good(h) && w in h.ws && !Busy(h, w)
    ensures h.ws[w].newDeps == [] && h.ws[w].newDepIds == {} && (h.stack != [] ==> h.target.Some?)
    ensures h.ws.Keys == h.prog.Keys
  {
    hide Linked, CacheOk, WellFormed, Named;
    NoNewIds(h.ws[w]);
  }

  // popTarget and cleanupDeps at the end of get.
  lemma FinishRan(h: Heap, g: Heap, w: WatcherId)
    requires Good(h) && w in h.ws && !Busy(h, w) && Pushed(h, w).ws.Keys == Pushed(h, w).prog.Keys && Evaluated(Pushed(h, w), g)
    ensures w in Popped(g).ws && Ran(h, CleanedUp(Popped(g), w), w)
    ensures CleanedUp(Popped(g), w).ws[w].depIds == g.ws[w].newDepIds
  {
    IdleIds(h, w);
    hide Good;
    PushPop(h, g, w);
    CleanupRan(h, Pushed(h, w), g, w);
  }

  lemma PoppedIs(g: Heap)
    ensures Popped(g) == g.(target := Popped(g).target, stack := Popped(g).stack)
  {
  }

  lemma CleanupRan(h: Heap, p: Heap, g: Heap, w: WatcherId)
    requires h.ws.Keys == h.prog.Keys && w in h.ws && h.ws[w].newDeps == [] && h.ws[w].newDepIds == {}
    requires p == h.(stack := p.stack, target := Some(w)) && Evaluated(p, g)
    requires Popped(g).target == h.target && Popped(g).stack == h.stack
    requires forall k :: Busy(p, k) <==> k == w || Busy(h, k)
    ensures w in Popped(g).ws && Ran(h, CleanedUp(Popped(g), w), w)
    ensures CleanedUp(Popped(g), w).ws[w].depIds == g.ws[w].newDepIds
  {
    hide Busy, Popped;
    var q := Popped(g);
    PoppedIs(g);
    var r := CleanedUp(q, w);
    assert r.ws == g.ws[w := g.ws[w].(deps := g.ws[w].newDeps, depIds := g.ws[w].newDepIds, newDeps := [], newDepIds := {})];
    assert r.subs.Keys == g.subs.Keys && r.prog == g.prog && r.cells == g.cells && r.target == h.target && r.stack == h.stack;
    hide CleanedUp;
    forall k | k in h.ws
      ensures EvalStep(h.ws[k], r.ws[k], k != w && (!h.prog[k].lazy || Busy(h, k)), false)
      ensures k == w ==> r.ws[k].value == h.ws[k].value && r.ws[k].dirty == h.ws[k].dirty
    {
      assert EvalStep(p.ws[k], g.ws[k], !p.prog[k].lazy || Busy(p, k), p.target == Some(k));
    }
  }

  lemma FinishGood(h: Heap, g: Heap, w: WatcherId)
    requires Good(h) && w in h.ws && !Busy(h, w) && (h.ws[w].active || h.prog[w].lazy)
    requires h.prog[w].lazy ==> h.ws[w].dirty
    requires Pushed(h, w).ws.Keys == Pushed(h, w).prog.Keys && Evaluated(Pushed(h, w), g) && Good(g)
    ensures w in Popped(g).ws && Good(CleanedUp(Popped(g), w))
  {
    FinishRan(h, g, w);
    var r := CleanedUp(Popped(g), w);
    FinishBase(h, g, w);
    FinishCollecting(h, r, w);
    hide *;
    IsGood(r);
  }

  lemma IsGood(h: Heap)
    requires Base(h) && Linked(h) && Collecting(h) && CacheOk(h) && Named(h)
    ensures Good(h)
  {
  }

  lemma FinishBase(h: Heap, g: Heap, w: WatcherId)
    requires w in h.ws && w in h.prog && (h.prog[w].lazy ==> h.ws[w].dirty) && Busy(Pushed(h, w), w)
    requires Pushed(h, w).ws.Keys == Pushed(h, w).prog.Keys && Evaluated(Pushed(h, w), g) && Good(g)
    ensures var r := CleanedUp(Popped(g), w);
      Base(r) && Linked(r) && CacheOk(r) && Named(r)
  {
    hide Base, Linked, CacheOk, Collecting, Named;
    assert g.ws.Keys == g.prog.Keys by { BaseKeys(g); }
    CleanupBase(g, w);
    CleanupLinked(g, w);
    FinishCache(g, w);
    CleanupNamed(g, w);
  }

  lemma BaseKeys(g: Heap)
    requires Base(g)
    ensures g.ws.Keys == g.prog.Keys && g.subs.Keys == g.cells.Keys
  {
  }

  // Collecting only looks at target, stack, new deps and who is alive.
  lemma FinishCollecting(h: Heap, r: Heap, w: WatcherId)
    requires h.ws.Keys == h.prog.Keys && Collecting(h) && w in h.ws && Ran(h, r, w)
    ensures Collecting(r)
  {
    assert forall k :: Busy(r, k) <==> Busy(h, k);
    assert forall k :: k in h.ws ==> EvalStep(h.ws[k], r.ws[k], k != w && (!h.prog[k].lazy || Busy(h, k)), false);
  }

  lemma CleanupBase(g: Heap, w: WatcherId)
    requires Base(g) && w in g.ws
    ensures Base(CleanedUp(Popped(g), w))
  {
    hide WellFormed;
    var r := CleanedUp(Popped(g), w);
    assert Tidy(r.ws[w]) by { assert Tidy(g.ws[w]); }
  }

  lemma CleanupSubs(g: Heap, w: WatcherId, c: CellId)
    requires w in g.ws && c in g.subs && Distinct(g.subs[c])
    ensures var s := CleanedUp(Popped(g), w).subs;
      && c in s && Distinct(s[c])
      && (forall k :: k in s[c] <==> k in g.subs[c] && !(k == w && c in g.ws[w].depIds && c !in g.ws[w].newDepIds))
  {
    RemoveDistinct(g.subs[c], w);
  }

  lemma CleanupLinked(g: Heap, w: WatcherId)
    requires Base(g) && Linked(g) && w in g.ws
    ensures CleanedUp(Popped(g), w).ws.Keys == g.prog.Keys && Linked(CleanedUp(Popped(g), w))
  {
    BaseKeys(g);
    hide Base, Link, Distinct;
    var r := CleanedUp(Popped(g), w);
    forall c | c in r.subs
      ensures Distinct(r.subs[c]) && forall k :: k in r.subs[c] ==> k in r.ws
    {
      CleanupSubs(g, w, c);
    }
    forall c, k | c in r.subs && k in r.ws
      ensures Link(r.subs[c], r.ws[k], r.prog[k].lazy, k, c)
    {
      CleanupLink(g, w, c, k);
    }
  }

  lemma CleanupLink(g: Heap, w: WatcherId, c: CellId, k: WatcherId)
    requires g.ws.Keys == g.prog.Keys && Linked(g) && w in g.ws && c in g.subs && k in g.ws
    ensures var r := CleanedUp(Popped(g), w);
            c in r.subs && k in r.ws && Link(r.subs[c], r.ws[k], g.prog[k].lazy, k, c)
  {
    CleanupSubs(g, w, c);
    assert Link(g.subs[c], g.ws[k], g.prog[k].lazy, k, c);
  }

  // The computed property being filled is still dirty, so it serves nothing.
  lemma FinishCache(g: Heap, w: WatcherId)
    requires g.ws.Keys == g.prog.Keys && CacheOk(g) && w in g.ws
    requires g.prog[w].lazy ==> g.ws[w].dirty
    ensures CacheOk(CleanedUp(Popped(g), w))
  {
    hide Val, Touch, Reach;
  }

  // Watcher.evaluate: store the value, clear the flag.
  function Fill(h: Heap, k: WatcherId, v: int): Heap
    requires k in h.ws
  {
    h.(ws := h.ws[k := h.ws[k].(value := Some(v), dirty := false)])
  }

  // Changing value or dirty flag of one watcher leaves subscriptions alone.
  lemma Reslotted(h: Heap, w: WatcherId, x: Watcher)
    requires Base(h) && Linked(h) && Collecting(h) && w in h.ws
    requires x == h.ws[w].(value := x.value, dirty := x.dirty)
    requires h.prog[w].lazy && !x.dirty ==> x.value.Some?
    ensures var g := h.(ws := h.ws[w := x]);
      Base(g) && Linked(g) && Collecting(g)
  {
    hide Base, Linked, Collecting;
    BaseKeys(h);
    ReslottedBase(h, w, x);
    ReslottedLinked(h, w, x);
    ReslottedCollecting(h, w, x);
  }

  lemma ReslottedLinked(h: Heap, w: WatcherId, x: Watcher)
    requires h.ws.Keys == h.prog.Keys && Linked(h) && w in h.ws
    requires x == h.ws[w].(value := x.value, dirty := x.dirty)
    ensures Linked(h.(ws := h.ws[w := x]))
  {
    hide Link, Distinct;
    var g := h.(ws := h.ws[w := x]);
    forall c, k | c in g.subs && k in g.ws
      ensures Link(g.subs[c], g.ws[k], g.prog[k].lazy, k, c)
    {
      assert Link(h.subs[c], h.ws[k], h.prog[k].lazy, k, c);
      SameLink(h.subs[c], h.ws[k], g.ws[k], h.prog[k].lazy, k, c);
    }
  }

  // A subscription depends on who is alive and on the collected ids only.
  lemma SameLink(subs: seq<WatcherId>, x: Watcher, y: Watcher, lazy: bool, w: WatcherId, c: CellId)
    requires x.active == y.active && x.depIds == y.depIds && x.newDepIds == y.newDepIds
    ensures Link(subs, x, lazy, w, c) <==> Link(subs, y, lazy, w, c)
  {
  }

  lemma ReslottedCollecting(h: Heap, w: WatcherId, x: Watcher)
    requires h.ws.Keys == h.prog.Keys && Collecting(h) && w in h.ws
    requires x == h.ws[w].(value := x.value, dirty := x.dirty)
    ensures Collecting(h.(ws := h.ws[w := x]))
  {
    assert forall k :: Busy(h.(ws := h.ws[w := x]), k) <==> Busy(h, k);
  }

  lemma ReslottedBase(h: Heap, w: WatcherId, x: Watcher)
    requires Base(h) && w in h.ws
    requires x == h.ws[w].(value := x.value, dirty := x.dirty)
    requires h.prog[w].lazy && !x.dirty ==> x.value.Some?
    ensures Base(h.(ws := h.ws[w := x]))
  {
    hide WellFormed;
    assert Tidy(x) by { assert Tidy(h.ws[w]); }
    hide Tidy;
  }

  lemma FillGood(h: Heap, k: WatcherId, v: int)
    requires Good(h) && k in h.ws && h.prog[k].lazy
    requires var d := h.prog[k];
      AllActive(h, d.getter, d.level) ==>
        v == Val(h.prog, h.cells, d.getter, d.level) && h.ws[k].depIds == Touch(h.prog, h.cells, d.getter, d.level)
    ensures Good(Fill(h, k, v))
  {
    hide Base, Linked, Collecting, CacheOk, Mentions;
    BaseKeys(h);
    Reslotted(h, k, Fill(h, k, v).ws[k]);
    FillCache(h, k, v);
  }

  lemma FillCache(h: Heap, k: WatcherId, v: int)
    requires h.ws.Keys == h.prog.Keys && CacheOk(h) && k in h.ws
    requires var d := h.prog[k];
      AllActive(h, d.getter, d.level) ==>
        v == Val(h.prog, h.cells, d.getter, d.level) && h.ws[k].depIds == Touch(h.prog, h.cells, d.getter, d.level)
    ensures CacheOk(Fill(h, k, v))
  {
    hide Val, Touch, Reach;
  }
}
