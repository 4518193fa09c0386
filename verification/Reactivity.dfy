// Deps, watchers, computed properties and the flush loop of the scheduler.
module Reactivity {
  import opened Sequences
  import opened Getters
  import opened Subscriptions
  import opened Scheduler
  import opened Consistency
  import opened Turns

  // Every watcher that is collecting sits above what may now be evaluated.
  ghost predicate Above(h: Heap, b: nat) {
    forall w :: Busy(h, w) ==> w in h.prog && h.prog[w].level >= b
  }

  lemma GoodKeys(h: Heap)
    requires Good(h)
    ensures h.ws.Keys == h.prog.Keys && h.subs.Keys == h.cells.Keys
    ensures forall w :: w in h.prog ==> WellFormed(h.prog, h.cells.Keys, h.prog[w].getter, h.prog[w].level)
    ensures forall w :: Busy(h, w) ==> w in h.ws
    ensures forall w :: w in h.ws && h.prog[w].lazy && !h.ws[w].dirty ==> h.ws[w].value.Some?
  {
    hide Linked, CacheOk, WellFormed, Tidy, Named;
  }

  ghost predicate Meets(h: Heap, e: Expr, b: nat, v: int, g: Heap) {
    AllActive(h, e, b) ==> v == Val(h.prog, h.cells, e, b) && Collected(h, g, Touch(h.prog, h.cells, e, b))
  }

  lemma MeetsLit(h: Heap, n: int, b: nat)
    requires Good(h)
    ensures Evaluated(h, h) && Meets(h, Lit(n), b, n, h)
  {
    GoodKeys(h);
    EvaluatedSelf(h);
  }

  lemma MeetsCell(h: Heap, c: CellId, b: nat)
    requires Good(h) && WellFormed(h.prog, h.cells.Keys, Cell(c), b) && Covers(h, Cell(c), b)
    ensures h.ws.Keys == h.prog.Keys && c in h.cells && c in h.subs
    ensures h.target.None? ==> Evaluated(h, h) && Meets(h, Cell(c), b, h.cells[c], h)
    ensures h.target.Some? ==>
      var t := h.target.value;
      t in h.ws && Good(WithDep(h, t, c)) && Evaluated(h, WithDep(h, t, c)) && Meets(h, Cell(c), b, h.cells[c], WithDep(h, t, c))
  {
    GoodKeys(h);
    if h.target.Some? {
      assert Busy(h, h.target.value);
      hide Good;
      AddDepGood(h, h.target.value, c);
      AddDepEvaluated(h, h.target.value, c);
      hide WithDep, Collected, Evaluated;
    } else {
      EvaluatedSelf(h);
      hide Good, Evaluated;
    }
  }

  lemma MeetsOp(h: Heap, e: Expr, b: nat, x: int, h1: Heap, y: int, h2: Heap)
    requires Good(h) && Good(h1) && e.Op?
    requires h.ws.Keys == h.prog.Keys && Evaluated(h, h1) && Meets(h, e.l, b, x, h1)
    requires h1.ws.Keys == h1.prog.Keys && Evaluated(h1, h2) && Meets(h1, e.r, b, y, h2)
    ensures Evaluated(h, h2) && Meets(h, e, b, e.f(x, y), h2)
  {
    hide Good;
    EvaluatedTrans(h, h1, h2);
    AllActiveSame(h, h1, e.r, b);
    if AllActive(h, e, b) {
      assert AllActive(h, e.l, b) && AllActive(h, e.r, b);
      hide AllActive;
      assert h1.prog == h.prog && h1.cells == h.cells;
      CollectedTrans(h, h1, h2, Touch(h.prog, h.cells, e.l, b), Touch(h.prog, h.cells, e.r, b));
      hide Evaluated, Collected;
    }
  }

  lemma MeetsCond(h: Heap, e: Expr, b: nat, x: int, h1: Heap, y: int, h2: Heap)
    requires Good(h) && Good(h1) && e.Cond?
    requires h.ws.Keys == h.prog.Keys && Evaluated(h, h1) && Meets(h, e.test, b, x, h1)
    requires h1.ws.Keys == h1.prog.Keys && Evaluated(h1, h2) && Meets(h1, if x != 0 then e.thn else e.els, b, y, h2)
    ensures Evaluated(h, h2) && Meets(h, e, b, y, h2)
  {
    hide Good;
    var f := if x != 0 then e.thn else e.els;
    EvaluatedTrans(h, h1, h2);
    AllActiveSame(h, h1, f, b);
    if AllActive(h, e, b) {
      assert AllActive(h, e.test, b) && AllActive(h, f, b);
      hide AllActive;
      assert h1.prog == h.prog && h1.cells == h.cells;
      CollectedTrans(h, h1, h2, Touch(h.prog, h.cells, e.test, b), Touch(h.prog, h.cells, f, b));
      hide Evaluated, Collected;
    }
  }

  lemma CoverParts(h: Heap, g: Heap, e: Expr, b: nat)
    requires Covers(h, e, b) && g.prog == h.prog && g.target == h.target
    ensures e.Op? ==> Covers(g, e.l, b) && Covers(g, e.r, b)
    ensures e.Cond? ==> Covers(g, e.test, b) && Covers(g, e.thn, b) && Covers(g, e.els, b)
    ensures e.Computed? && e.k in h.prog && h.prog[e.k].level < b ==> Covers(g, h.prog[e.k].getter, h.prog[e.k].level)
  {
  }

  // A computed property is not dirty any more once it has been filled.
  lemma FilledEvaluated(h: Heap, g: Heap, k: WatcherId, v: int)
    requires h.ws.Keys == h.prog.Keys && k in h.ws && h.prog[k].lazy && !Busy(h, k) && Ran(h, g, k)
    ensures Evaluated(h, Fill(g, k, v)) && Collected(h, Fill(g, k, v), {})
  {
    forall w | w in h.ws
      ensures EvalStep(h.ws[w], Fill(g, k, v).ws[w], !h.prog[w].lazy || Busy(h, w), h.target == Some(w))
    {
      assert EvalStep(h.ws[w], g.ws[w], w != k && (!h.prog[w].lazy || Busy(h, w)), false);
    }
    if h.target.Some? && h.target.value in h.ws {
      var t := h.target.value;
      assert EvalStep(h.ws[t], g.ws[t], t != k && (!h.prog[t].lazy || Busy(h, t)), false);
    }
  }

  lemma GetBegins(h: Heap, w: WatcherId)
    requires Good(h) && w in h.ws && w in h.prog && !Busy(h, w) && (h.ws[w].active || h.prog[w].lazy) && Above(h, h.prog[w].level)
    ensures Good(Pushed(h, w)) && Above(Pushed(h, w), h.prog[w].level) && Pushed(h, w).prog == h.prog && Pushed(h, w).cells == h.cells
    ensures WellFormed(h.prog, h.cells.Keys, h.prog[w].getter, h.prog[w].level)
    ensures Covers(Pushed(h, w), h.prog[w].getter, h.prog[w].level)
  {
    GoodKeys(h);
    PushGood(h, w);
    hide Good, WellFormed, Mentions;
  }

  // The collected deps of the finished target are what the evaluation read.
  lemma TargetCollected(h: Heap, g: Heap, w: WatcherId, v: int)
    requires h.ws.Keys == h.prog.Keys && w in h.prog && h.ws[w].newDepIds == {}
    requires Pushed(h, w).ws.Keys == Pushed(h, w).prog.Keys && Evaluated(Pushed(h, w), g)
    requires Meets(Pushed(h, w), h.prog[w].getter, h.prog[w].level, v, g)
    ensures w in g.ws
    ensures var d := h.prog[w];
      AllActive(h, d.getter, d.level) ==>
        v == Val(h.prog, h.cells, d.getter, d.level) && g.ws[w].newDepIds == Touch(h.prog, h.cells, d.getter, d.level)
  {
    hide EvalStep, Reach, Val, Touch;
    var p := Pushed(h, w);
    assert p.prog == h.prog && p.cells == h.cells && p.ws == h.ws && p.target == Some(w);
    hide Pushed;
    if AllActive(h, h.prog[w].getter, h.prog[w].level) {
      assert AllActive(p, h.prog[w].getter, h.prog[w].level);
      hide AllActive;
    }
  }

  lemma GetEnds(h: Heap, g: Heap, w: WatcherId, v: int)
    requires Good(h) && w in h.ws && w in h.prog && !Busy(h, w) && (h.ws[w].active || h.prog[w].lazy)
    requires h.prog[w].lazy ==> h.ws[w].dirty
    requires Good(g) && Pushed(h, w).ws.Keys == Pushed(h, w).prog.Keys && Evaluated(Pushed(h, w), g)
    requires Meets(Pushed(h, w), h.prog[w].getter, h.prog[w].level, v, g)
    ensures h.ws.Keys == h.prog.Keys && w in Popped(g).ws
    ensures var r := CleanedUp(Popped(g), w);
      Good(r) && Ran(h, r, w) && GetMeets(h, w, v, r)
  {
    hide Good, Evaluated, Ran, CleanedUp, Popped, Pushed, Reach, Val, Touch, Meets, AllActive;
    GoodKeys(h);
    IdleIds(h, w);
    PushGood(h, w);
    FinishRan(h, g, w);
    FinishGood(h, g, w);
    TargetCollected(h, g, w, v);
  }

  lemma ReadEvaluated(h: Heap, k: WatcherId, h1: Heap, h2: Heap)
    requires h.ws.Keys == h.prog.Keys && Evaluated(h, h1) && Collected(h, h1, {}) && k in h1.ws
    requires h1.ws.Keys == h1.prog.Keys && Evaluated(h1, h2) && Collected(h1, h2, h1.ws[k].depIds)
    ensures Evaluated(h, h2) && Collected(h, h2, h1.ws[k].depIds)
  {
    hide Evaluated, Collected;
    EvaluatedTrans(h, h1, h2);
    CollectedTrans(h, h1, h2, {}, h1.ws[k].depIds);
    assert {} + h1.ws[k].depIds == h1.ws[k].depIds;
  }

  lemma CacheHit(h: Heap, k: WatcherId)
    requires Good(h) && k in h.ws && k in h.prog && Cached(h, k)
    ensures Current(h, k)
  {
    hide Base, Linked, Collecting, Cached, Current, Named;
  }

  lemma ReadMeets(h: Heap, k: WatcherId, b: nat, h1: Heap, h2: Heap)
    requires Good(h) && k in h.ws && k in h.prog && h.prog[k].lazy && h.prog[k].level < b
    requires h.ws.Keys == h.prog.Keys && Evaluated(h, h1) && Collected(h, h1, {}) && Good(h1) && k in h1.ws && !h1.ws[k].dirty
    requires h1.ws.Keys == h1.prog.Keys && Evaluated(h1, h2) && Collected(h1, h2, h1.ws[k].depIds)
    ensures h1.ws[k].value.Some?
    ensures Evaluated(h, h2) && Meets(h, Computed(k), b, h1.ws[k].value.value, h2)
  {
    hide Good, Evaluated, Collected, AllActive;
    GoodKeys(h1);
    ReadEvaluated(h, k, h1, h2);
    EvaluatedBasics(h, h1, b);
    if AllActive(h, Computed(k), b) {
      AllActiveSame(h, h1, h.prog[k].getter, h.prog[k].level);
      AllActiveSame(h, h1, Computed(k), b);
      ActiveParts(h, k, b);
      ActiveParts(h1, k, b);
      CacheHit(h1, k);
    }
  }

  lemma ActiveParts(h: Heap, k: WatcherId, b: nat)
    requires k in h.prog && h.prog[k].level < b && AllActive(h, Computed(k), b)
    ensures k in h.ws && h.ws[k].active && AllActive(h, h.prog[k].getter, h.prog[k].level)
  {
  }

  lemma EvaluatedBasics(h: Heap, g: Heap, b: nat)
    requires h.ws.Keys == h.prog.Keys && Evaluated(h, g)
    ensures g.prog == h.prog && g.cells == h.cells && g.target == h.target && g.stack == h.stack && g.ws.Keys == h.ws.Keys
    ensures g.subs.Keys == h.subs.Keys
    ensures forall w :: Busy(g, w) <==> Busy(h, w)
    ensures Above(h, b) ==> Above(g, b)
  {
    hide EvalStep;
  }

  lemma NotBusy(h: Heap, k: WatcherId, b: nat)
    requires k in h.prog && h.prog[k].level < b && Above(h, b)
    ensures !Busy(h, k) && Above(h, h.prog[k].level)
  {
  }

  lemma NoTarget(h: Heap, D: set<CellId>)
    requires h.target.None?
    ensures Collected(h, h, D)
  {
  }

  lemma FilledGood(h: Heap, g: Heap, k: WatcherId, v: int)
    requires h.ws.Keys == h.prog.Keys && k in h.ws && h.prog[k].lazy && Ran(h, g, k)
    requires Good(g) && k in g.ws && GetMeets(h, k, v, g)
    ensures k in g.prog && Good(Fill(g, k, v))
  {
    assert g.prog == h.prog && g.cells == h.cells;
    RanActive(h, g, k, h.prog[k].getter, h.prog[k].level);
    hide Good, Ran, AllActive, Val, Touch;
    FillGood(g, k, v);
  }

  lemma RanActive(h: Heap, g: Heap, w: WatcherId, e: Expr, b: nat)
    requires h.ws.Keys == h.prog.Keys && w in h.ws && Ran(h, g, w)
    ensures AllActive(g, e, b) <==> AllActive(h, e, b)
  {
    hide Reach;
    assert forall k :: k in h.ws ==> EvalStep(h.ws[k], g.ws[k], k != w && (!h.prog[k].lazy || Busy(h, k)), false);
  }

  lemma CleanupReady(g: Heap, w: WatcherId)
    requires Good(g) && w in g.ws
    ensures Popped(g).ws == g.ws && Popped(g).subs == g.subs && Tidy(g.ws[w]) && g.ws[w].depIds <= g.subs.Keys
  {
    hide Linked, CacheOk, Collecting, WellFormed, Named;
  }

  lemma DependStep(h: Heap, g: Heap, t: WatcherId, k: WatcherId, deps: seq<CellId>, i: nat)
    requires Good(h) && h.ws.Keys == h.prog.Keys && h.target == Some(t) && t in h.ws
    requires Good(g) && Evaluated(h, g) && i < |deps| && deps[i] in g.subs
    requires t in h.prog && deps[i] in MentionsOf(h.prog, t)
    requires Collected(h, g, Elements(deps[i + 1..]))
    ensures g.ws.Keys == g.prog.Keys && t in g.ws && g.target == Some(t)
    ensures var r := WithDep(g, t, deps[i]);
      Good(r) && Evaluated(h, r) && Collected(h, r, Elements(deps[i..]))
  {
    hide *;
    EvaluatedBasics(h, g, 0);
    GoodKeys(g);
    var r := WithDep(g, t, deps[i]);
    AddDepGood(g, t, deps[i]);
    AddDepEvaluated(g, t, deps[i]);
    EvaluatedTrans(h, g, r);
    CollectedTrans(h, g, r, Elements(deps[i + 1..]), {deps[i]});
    ElementsFrom(deps, i);
  }

  lemma ElementsFrom(deps: seq<CellId>, i: nat)
    requires i < |deps|
    ensures Elements(deps[i + 1..]) + {deps[i]} == Elements(deps[i..])
  {
    assert deps[i..] == [deps[i]] + deps[i + 1..];
  }

  ghost function Elements(s: seq<CellId>): set<CellId> {
    set x | x in s
  }

  lemma DependReady(h: Heap, k: WatcherId, t: WatcherId)
    requires Good(h) && k in h.ws && k in h.prog && h.target == Some(t) && !Busy(h, k)
    requires Covers(h, h.prog[k].getter, h.prog[k].level)
    ensures h.ws.Keys == h.prog.Keys && t in h.ws && t != k && t in h.prog
    ensures forall i :: 0 <= i < |h.ws[k].deps| ==> h.ws[k].deps[i] in h.subs && h.ws[k].deps[i] in MentionsOf(h.prog, t)
    ensures Elements(h.ws[k].deps) == h.ws[k].depIds && Elements(h.ws[k].deps[|h.ws[k].deps|..]) == {}
  {
    hide Linked, CacheOk, WellFormed, Mentions;
    assert Busy(h, t);
    assert Tidy(h.ws[k]);
  }

  lemma OnlyTarget(g: Heap, t: WatcherId, c: CellId)
    requires t in g.ws && c in g.subs
    ensures forall k :: k in g.ws && k != t ==> k in WithDep(g, t, c).ws && WithDep(g, t, c).ws[k] == g.ws[k]
    ensures t in WithDep(g, t, c).ws && WithDep(g, t, c).subs.Keys == g.subs.Keys
  {
  }

  // Watcher.evaluate after get: store the value, clear the flag.
  lemma FillIs(h: Heap, k: WatcherId, v: int)
    requires k in h.ws
    ensures k in Fill(h, k, v).ws && !Fill(h, k, v).ws[k].dirty
  {
  }

  // cleanupDeps has looked at the deps from position i on.
  ghost predicate Cleaned(subs: map<CellId, seq<WatcherId>>, now: map<CellId, seq<WatcherId>>, x: Watcher, i: nat, w: WatcherId)
    requires i <= |x.deps|
  {
    && now.Keys == subs.Keys
    && (forall c :: c in subs ==> now[c] == if c in x.deps[i..] && c !in x.newDepIds then Remove(subs[c], w) else subs[c])
  }

  lemma CleanStart(subs: map<CellId, seq<WatcherId>>, x: Watcher, w: WatcherId)
    ensures Cleaned(subs, subs, x, |x.deps|, w)
  {
  }

  lemma CleanStep(subs: map<CellId, seq<WatcherId>>, now: map<CellId, seq<WatcherId>>, x: Watcher, i: nat, w: WatcherId)
    requires i < |x.deps| && Cleaned(subs, now, x, i + 1, w) && Tidy(x) && x.depIds <= subs.Keys
    ensures x.deps[i] in now
    ensures Cleaned(subs, if x.deps[i] !in x.newDepIds then now[x.deps[i] := Remove(now[x.deps[i]], w)] else now, x, i, w)
  {
    hide Tidy, Remove;
    var d := x.deps[i];
    TidyAt(x, i);
    OneFrom(x.deps, i);
    CleanAt(subs, now, x, i, w);
  }

  // d has just been looked at, the deps behind it before.
  lemma CleanAt(subs: map<CellId, seq<WatcherId>>, now: map<CellId, seq<WatcherId>>, x: Watcher, i: nat, w: WatcherId)
    requires i < |x.deps| && Cleaned(subs, now, x, i + 1, w) && x.deps[i] in subs && x.deps[i] !in x.deps[i + 1..]
    requires forall c :: c in x.deps[i..] <==> c == x.deps[i] || c in x.deps[i + 1..]
    ensures x.deps[i] in now
    ensures Cleaned(subs, if x.deps[i] !in x.newDepIds then now[x.deps[i] := Remove(now[x.deps[i]], w)] else now, x, i, w)
  {
    hide Remove;
    var d, tail, all := x.deps[i], x.deps[i + 1..], x.deps[i..];
    var r := if d !in x.newDepIds then now[d := Remove(now[d], w)] else now;
    forall c | c in subs
      ensures r[c] == if c in all && c !in x.newDepIds then Remove(subs[c], w) else subs[c]
    {
      assert now[c] == if c in tail && c !in x.newDepIds then Remove(subs[c], w) else subs[c];
    }
  }

  lemma OneFrom(deps: seq<CellId>, i: nat)
    requires i < |deps|
    ensures forall c :: c in deps[i..] <==> c == deps[i] || c in deps[i + 1..]
  {
    assert deps[i..] == [deps[i]] + deps[i + 1..];
  }

  lemma TidyAt(x: Watcher, i: nat)
    requires i < |x.deps| && Tidy(x)
    ensures x.deps[i] in x.depIds && x.deps[i] !in x.deps[i + 1..]
  {
  }

  lemma CleanDone(h: Heap, now: map<CellId, seq<WatcherId>>, w: WatcherId)
    requires w in h.ws && Tidy(h.ws[w]) && Cleaned(h.subs, now, h.ws[w], 0, w)
    ensures now == CleanedUp(h, w).subs
  {
    assert h.ws[w].deps[0..] == h.ws[w].deps;
  }

  datatype Outcome = Finished | TooManyUpdates | StillRunning

  // Cells may have changed and watchers may be gone, but none is new.
  ghost predicate SameWatchers(h: Heap, g: Heap) {
    g.prog == h.prog && g.ws.Keys == h.ws.Keys && g.cells.Keys == h.cells.Keys
  }

  lemma SameWatchersSelf(h: Heap)
    ensures SameWatchers(h, h)
  {
  }

  lemma SameWatchersTrans(h0: Heap, h1: Heap, h2: Heap)
    requires SameWatchers(h0, h1) && SameWatchers(h1, h2)
    ensures SameWatchers(h0, h2)
  {
  }

  lemma SubsKnown(h: Heap, q: Sched, c: CellId, subs: seq<WatcherId>)
    requires Steady(h, q, ToSet(subs)) && c in h.subs && subs == h.subs[c]
    ensures forall j :: 0 <= j < |subs| ==> subs[j] in h.ws && subs[j] in h.prog
    ensures SameWatchers(h, h)
  {
    Subscribed(h, q.has, ToSet(subs), c);
    hide Stable, QueueKnown;
  }

  // One more subscriber of the copied list has been told.
  lemma ToldOne(h: Heap, q: Sched, subs: seq<WatcherId>, i: nat, log0: seq<Run>, log1: seq<Run>, log2: seq<Run>)
    requires i < |subs| && subs[i] in h.prog && LastCalls(log1) <= LastCalls(log0) + Queueable(h.prog, subs[..i])
    requires LastCalls(log2) <= LastCalls(log1) + if h.prog[subs[i]].lazy then {} else {subs[i]}
    ensures Notified(h, subs[..i + 1]) == Told(Notified(h, subs[..i]), subs[i])
    ensures Enqueued(h.prog, q, subs[..i + 1]) ==
            if h.prog[subs[i]].lazy then Enqueued(h.prog, q, subs[..i]) else QueuedIn(Enqueued(h.prog, q, subs[..i]), subs[i])
    ensures LastCalls(log2) <= LastCalls(log0) + Queueable(h.prog, subs[..i + 1])
  {
    hide LastCalls, QueuedIn, Told;
    assert subs[..i + 1][..i] == subs[..i];
    assert subs[..i + 1] == subs[..i] + [subs[i]];
  }

  lemma ToldNone(h: Heap, q: Sched, subs: seq<WatcherId>)
    ensures Notified(h, subs[..0]) == h && Enqueued(h.prog, q, subs[..0]) == q
  {
  }

  lemma ToldIs(h: Heap, w: WatcherId)
    requires w in h.ws && w in h.prog
    ensures Told(h, w) == if h.prog[w].lazy then h.(ws := h.ws[w := h.ws[w].(dirty := true)]) else h
  {
  }

  // Who subscribed to a cell can mention it.
  lemma SubsMention(h: Heap, q: Sched, c: CellId)
    requires Steady(h, q, {}) && c in h.subs
    ensures forall x :: x in Queueable(h.prog, h.subs[c]) ==> x in h.prog && !h.prog[x].lazy && c in MentionsOf(h.prog, x)
  {
    BaseKeys(h);
    hide Base, Collecting, CacheBut, Watched, QueueKnown, Mentions;
    forall x | x in Queueable(h.prog, h.subs[c])
      ensures c in MentionsOf(h.prog, x)
    {
      assert Link(h.subs[c], h.ws[x], h.prog[x].lazy, x, c);
    }
  }

  lemma SetCellCalls(h: Heap, q: Sched, c: CellId, v: int, p: Prog, log0: seq<Run>, log1: seq<Run>)
    requires Steady(h, q, {}) && c in h.subs && p == h.prog
    requires LastCalls(log1) <= LastCalls(log0) + Queueable(h.prog, h.subs[c])
    ensures CallsFrom(log0, log1, p, [SetCell(c, v)])
  {
    SubsMention(h, q, c);
    hide Steady, Queueable, LastCalls, Mentions;
    forall x | x in LastCalls(log1)
      ensures x in LastCalls(log0) || (x in p && !p[x].lazy && Writes([SetCell(c, v)], MentionsOf(p, x)))
    {
      if x !in LastCalls(log0) {
        assert [SetCell(c, v)][0].c in MentionsOf(p, x);
      }
    }
  }

  lemma NoneLeft(subs: seq<WatcherId>)
    ensures ToSet(subs[|subs|..]) == {}
  {
  }

  lemma Delivered(h: Heap, q: Sched, subs: seq<WatcherId>, i: nat)
    requires i < |subs| && Steady(h, q, ToSet(subs[i..]) - {subs[i]})
    ensures Steady(h, q, ToSet(subs[i + 1..]))
  {
    assert subs[i..] == [subs[i]] + subs[i + 1..];
    assert ToSet(subs[i..]) - {subs[i]} <= ToSet(subs[i + 1..]);
    Weaken(h, q, ToSet(subs[i..]) - {subs[i]}, ToSet(subs[i + 1..]));
  }

  lemma Weaken(h: Heap, q: Sched, rest: set<WatcherId>, more: set<WatcherId>)
    requires Steady(h, q, rest) && rest <= more
    ensures Steady(h, q, more)
  {
    BaseKeys(h);
    hide Base, Linked, Collecting, Current, Cached, Promised, Named;
  }

  lemma MarkedSteady(h: Heap, q: Sched, rest: set<WatcherId>, w: WatcherId)
    requires Steady(h, q, rest) && w in h.ws && w in h.prog && h.prog[w].lazy
    ensures var g := h.(ws := h.ws[w := h.ws[w].(dirty := true)]);
      && Steady(g, q, rest - {w}) && SameWatchers(h, g) && g.cells == h.cells
      && forall k :: k in h.ws && k in h.prog ==> k in g.ws && k in g.prog
  {
    hide Stable;
    Marked(h, q.has, rest, w);
  }

  lemma QueuedSteady(h: Heap, q: Sched, r: Sched, rest: set<WatcherId>, w: WatcherId)
    requires Steady(h, q, rest) && w in h.ws && w in h.prog && !h.prog[w].lazy
    requires r.has == q.has + {w} && forall x :: x in r.queue ==> x in q.queue || x == w
    ensures Steady(h, r, rest - {w})
  {
    hide Stable;
    Queued(h, q.has, rest, w);
  }

  lemma ModeParts(q: Sched)
    ensures q.Resting() ==> !q.flushing && q.registered == (if q.waiting then 1 else 0)
    ensures q.Running() ==> q.flushing && q.waiting && 0 <= q.index < |q.queue|
    ensures !(q.Resting() && q.Running())
  {
    hide Increasing, Elems, Distinct;
  }

  lemma IsSplicePoint(q: Sched, w: WatcherId, p: int)
    requires q.index < p <= |q.queue| && (forall j :: p <= j < |q.queue| ==> q.queue[j] > w)
    requires p == q.index + 1 || (0 <= p - 1 && q.queue[p - 1] <= w)
    ensures SplicePoint(q, w, p)
  {
  }

  lemma QueuedAlready(q: Sched, w: WatcherId)
    requires w in q.has
    ensures QueuedIn(q, w) == q
  {
  }

  lemma PushedQueue(q: Sched, w: WatcherId, r: Sched)
    requires r.queue == q.queue + [w] || exists i :: 0 <= i <= |q.queue| && r.queue == q.queue[..i] + [w] + q.queue[i..]
    ensures forall x :: x in r.queue ==> x in q.queue || x == w
  {
  }

  lemma StillMode(q: Sched, log: seq<Run>, r: Sched, log': seq<Run>)
    requires Scheduler.Grows(q, log, r, log')
    ensures q.Resting() ==> r.Resting()
    ensures q.Running() ==> r.Running() && |log'| > 0
  {
    hide Increasing, Elems, Distinct;
  }

  lemma WrittenSteady(h: Heap, q: Sched, c: CellId, v: int)
    requires Steady(h, q, {}) && c in h.cells
    ensures c in h.subs
    ensures var g := h.(cells := h.cells[c := v]);
      && Steady(g, q, ToSet(g.subs[c])) && SameWatchers(h, g)
  {
    hide Stable;
    Written(h, q.has, c, v);
    assert h.cells[c := v].Keys == h.cells.Keys;
  }

  lemma TornDownSteady(h: Heap, q: Sched, w: WatcherId)
    requires Steady(h, q, {}) && w in h.ws
    ensures var g := TornDown(h, w);
      && Steady(g, q, {}) && SameWatchers(h, g) && g.cells == h.cells && w in g.ws && !g.ws[w].active
      && forall c :: c in g.subs ==> w !in g.subs[c]
  {
    hide Stable;
    TornDownStable(h, q.has, w);
  }

  lemma TearReady(h: Heap, q: Sched, w: WatcherId)
    requires Steady(h, q, {}) && w in h.ws
    ensures h.ws[w].depIds <= h.subs.Keys && Tidy(h.ws[w])
  {
    hide Linked, Collecting, CacheBut, Watched, WellFormed, QueueKnown, Named;
  }

  // teardown has looked at the deps from position i on.
  ghost predicate Torn(h: Heap, now: map<CellId, seq<WatcherId>>, w: WatcherId, i: nat)
    requires w in h.ws && i <= |h.ws[w].deps|
  {
    && now.Keys == h.subs.Keys && Tidy(h.ws[w]) && h.ws[w].depIds <= h.subs.Keys
    && (forall c :: c in h.subs ==> now[c] == if c in h.ws[w].deps[i..] then Remove(h.subs[c], w) else h.subs[c])
  }

  lemma TearStart(h: Heap, w: WatcherId)
    requires w in h.ws && h.ws[w].depIds <= h.subs.Keys && Tidy(h.ws[w])
    ensures Torn(h, h.subs, w, |h.ws[w].deps|)
  {
  }

  lemma TearStep(h: Heap, now: map<CellId, seq<WatcherId>>, w: WatcherId, i: nat)
    requires w in h.ws && i < |h.ws[w].deps| && Torn(h, now, w, i + 1)
    ensures var d := h.ws[w].deps[i];
      d in now && Torn(h, now[d := Remove(now[d], w)], w, i)
  {
    var deps := h.ws[w].deps;
    var d := deps[i];
    assert d in h.ws[w].depIds && d !in deps[i + 1..];
    assert deps[i..] == [d] + deps[i + 1..];
    hide Tidy, Remove;
  }

  lemma TearDone(h: Heap, now: map<CellId, seq<WatcherId>>, w: WatcherId)
    requires w in h.ws && Torn(h, now, w, 0)
    ensures h.(subs := now, ws := h.ws[w := h.ws[w].(active := false)]) == TornDown(h, w)
  {
    assert h.ws[w].deps[0..] == h.ws[w].deps;
  }

  lemma TopReady(h: Heap, q: Sched, k: WatcherId)
    requires Steady(h, q, {}) && k in h.prog && h.prog[k].lazy
    ensures Good(h) && Above(h, h.prog[k].level + 1) && h.ws.Keys == h.prog.Keys && Covers(h, Computed(k), h.prog[k].level + 1)
  {
    StableGood(h, q.has);
    hide Stable, Good, QueueKnown;
  }

  lemma TopDone(h: Heap, q: Sched, k: WatcherId, v: int, g: Heap)
    requires Steady(h, q, {}) && k in h.prog && h.prog[k].lazy && Good(g)
    requires h.ws.Keys == h.prog.Keys && Evaluated(h, g) && Meets(h, Computed(k), h.prog[k].level + 1, v, g)
    ensures Steady(g, q, {}) && SameWatchers(h, g) && g.cells == h.cells
    ensures var d := h.prog[k];
      AllActive(h, Computed(k), d.level + 1) ==> v == Val(h.prog, h.cells, d.getter, d.level)
  {
    hide Stable, Good;
    ReadStable(h, q.has, g);
    EvaluatedBasics(h, g, 0);
    hide Evaluated, AllActive;
  }

  lemma RunReady(h: Heap, q: Sched, w: WatcherId)
    requires Steady(h, q, {w}) && w in h.ws && w in h.prog && !h.prog[w].lazy
    ensures Good(h) && Above(h, h.prog[w].level) && h.ws.Keys == h.prog.Keys && !Busy(h, w)
  {
    BaseKeys(h);
    hide Base, Linked, Collecting, Current, Watched, QueueKnown, Named;
    assert CacheOk(h);
  }

  // get has run: storing its result, changed or not, makes w current.
  lemma RanDone(h: Heap, q: Sched, w: WatcherId, g: Heap, v: int)
    requires Steady(h, q, {w}) && w in h.ws && w in h.prog && !h.prog[w].lazy
    requires h.ws.Keys == h.prog.Keys && Good(g) && Ran(h, g, w) && w in g.ws && GetMeets(h, w, v, g)
    ensures var r := g.(ws := g.ws[w := g.ws[w].(value := Some(v))]);
      && Steady(r, q, {}) && SameWatchers(h, r) && SameWatchers(h, g)
      && (g.ws[w].value == Some(v) ==> r == g)
  {
    hide Stable, Good, Ran, AllActive, Watched, Val, Touch, Base, Linked, Collecting, CacheBut;
    StableKeeps(h, q.has, {w});
    RanKeys(h, q, g, w);
    RunDone(h, q.has, w, g, v);
    assert g.ws[w].value == Some(v) ==> g.ws[w].(value := Some(v)) == g.ws[w] && g.ws[w := g.ws[w]] == g.ws;
  }

  lemma RanKeys(h: Heap, q: Sched, g: Heap, w: WatcherId)
    requires h.ws.Keys == h.prog.Keys && w in h.ws && Ran(h, g, w)
    ensures g.prog == h.prog && g.ws.Keys == h.ws.Keys && g.cells == h.cells
  {
    hide EvalStep;
  }

  lemma RunInactive(h: Heap, q: Sched, w: WatcherId)
    requires Steady(h, q, {w}) && w in h.ws && w in h.prog && !h.prog[w].lazy && !h.ws[w].active
    ensures Steady(h, q, {})
  {
    BaseKeys(h);
    RunSkipped(h, q.has, w);
    hide Base, Linked, Collecting, Watched, Current, QueueKnown, Named;
  }

  lemma FlushStart(h: Heap, q: Sched)
    requires Steady(h, q, {}) && q.Resting() && q.waiting
    ensures Started(q) == q.(flushing := true, registered := 0, queue := Sort(q.queue), index := 0)
    ensures Steady(h, Started(q), {}) && Head(Started(q), [])
  {
    hide Stable, Head;
    HeadStart(q);
  }

  lemma FlushTake(h: Heap, q: Sched, log: seq<Run>)
    requires Steady(h, q, {}) && Head(q, log) && q.index < |q.queue| && 0 <= q.index
    ensures var id := q.queue[q.index];
      && id in h.ws && id in h.prog && !h.prog[id].lazy
      && Steady(h, q.(has := q.has - {id}), {id}) && q.(has := q.has - {id}).Running()
  {
    HeadTake(q, log);
    BaseKeys(h);
    hide Base, Linked, Collecting, Current, Cached, Promised, Head, Named;
  }

  lemma FlushTurn(h: Heap, q: Sched, id: WatcherId)
    requires Steady(h, q, {})
    ensures Recount(q, id).has == q.has && Recount(q, id).queue == q.queue && Recount(q, id).index == q.index
    ensures var count := (if id in q.circular then q.circular[id] else 0) + 1;
      && Recount(q, id) == (if id in q.has then q.(circular := q.circular[id := count]) else q)
      && (id in q.has ==> Circ(Recount(q, id), id) == count)
    ensures forall c, i :: Steady(h, q.(circular := c, index := i), {})
  {
    hide Stable;
  }

  lemma FlushBound(h: Heap, q: Sched, log: seq<Run>)
    requires Steady(h, q, {}) && Head(q, log)
    ensures AtOrAbove(log) ==>
      && NonDecreasing(Ids(log))
      && (forall w: WatcherId :: Count(Ids(log), w) <= 101)
      && |log| <= 101 * |Plain(h.prog)|
  {
    hide Stable, Head;
    if AtOrAbove(log) {
      HeadBound(q, log, Plain(h.prog));
    }
  }

  lemma FlushBroken(h: Heap, q: Sched, id: WatcherId, log: seq<Run>)
    requires Steady(h, q, {}) && Circ(q, id) > 100 && Circ(q, id) <= Count(Ids(log), id)
    ensures Good(h) && Count(Ids(log), id) > 100
  {
    hide Stable, Count;
    StableGood(h, q.has);
  }

  // The loop ran to its end: nothing is pending, so everything is current.
  lemma FlushDone(h: Heap, q: Sched, log: seq<Run>)
    requires Steady(h, q, {}) && Head(q, log) && q.index >= |q.queue|
    ensures Steady(h, EMPTY, {}) && EMPTY.Resting() && !EMPTY.waiting
    ensures forall w :: w in h.ws && w in h.prog && Promised(h, w) ==> Current(h, w)
  {
    BaseKeys(h);
    hide Base, Linked, Collecting, Current, Cached, Promised, Orderly, Ids, Named;
    assert q.queue[q.index..] == [];
    assert q.has == {};
  }

  lemma AddCellSteady(h: Heap, q: Sched, c: CellId, v: int)
    requires Steady(h, q, {}) && c !in h.cells
    ensures Steady(AddCell(h, c, v), q, {})
  {
    hide Stable;
    AddCellStable(h, q.has, c, v);
  }

  lemma AddWatcherSteady(h: Heap, q: Sched, w: WatcherId, d: Def)
    requires Steady(h, q, {}) && w !in h.ws && WellFormed(h.prog, h.cells.Keys, d.getter, d.level)
    ensures var g := AddWatcher(h, w, d);
      && Steady(g, q, if d.lazy then {} else {w}) && w in g.ws && w in g.prog && g.prog[w] == d && g.ws[w].active
      && g.ws.Keys == g.prog.Keys
      && (d.lazy ==> Watching(h, g, w, d))
  {
    hide *;
    var g := AddWatcher(h, w, d);
    SteadyParts(h, q, {});
    NewBase(h, q);
    BaseKeys(h);
    AddWatcherStable(h, q.has, w, d);
    NewKeys(h, w, d);
    AddWatcherIs(h, w, d);
    StableKeeps(g, q.has, if d.lazy then {} else {w});
    QueueStays(h, g, q);
    IsSteady(g, q, if d.lazy then {} else {w});
    if d.lazy {
      NewWatching(h, g, w, d);
    }
  }

  lemma SteadyParts(h: Heap, q: Sched, rest: set<WatcherId>)
    requires Steady(h, q, rest)
    ensures Stable(h, q.has, rest) && QueueKnown(h, q)
  {
    hide Stable, QueueKnown;
  }

  lemma IsSteady(h: Heap, q: Sched, rest: set<WatcherId>)
    requires Stable(h, q.has, rest) && QueueKnown(h, q)
    ensures Steady(h, q, rest)
  {
    hide Stable, QueueKnown;
  }

  lemma QueueStays(h: Heap, g: Heap, q: Sched)
    requires QueueKnown(h, q) && h.ws.Keys <= g.ws.Keys && forall k :: k in h.prog ==> k in g.prog && g.prog[k] == h.prog[k]
    ensures QueueKnown(g, q)
  {
  }

  lemma NewWatching(h: Heap, g: Heap, w: WatcherId, d: Def)
    requires w !in h.ws && d.lazy && g == AddWatcher(h, w, d)
    requires g.ws.Keys == h.ws.Keys + {w} && g.prog == h.prog[w := d] && forall k :: k in h.ws ==> g.ws[k].active == h.ws[k].active
    ensures Watching(h, g, w, d)
  {
    hide AllActive, Promised, Current;
  }

  lemma NewUnqueued(h: Heap, q: Sched, w: WatcherId)
    requires QueueKnown(h, q) && (q.Resting() || q.Running()) && w !in h.ws
    ensures w !in q.has
  {
  }

  lemma NewRan(h: Heap, w: WatcherId, d: Def, g: Heap, r: Heap)
    requires g == AddWatcher(h, w, d) && w in g.ws && g.ws.Keys == g.prog.Keys && Ran(g, r, w)
    ensures r.prog == g.prog && r.ws.Keys == g.ws.Keys && r.cells == h.cells && r.subs.Keys == h.subs.Keys && w in r.ws
    ensures r.ws[w].active && r.ws[w].dirty == d.lazy
    ensures forall k :: k in g.ws ==> k in r.ws && r.ws[k].active == g.ws[k].active
  {
    assert EvalStep(g.ws[w], r.ws[w], false, false);
    forall k | k in g.ws
      ensures r.ws[k].active == g.ws[k].active
    {
      assert EvalStep(g.ws[k], r.ws[k], k != w && (!g.prog[k].lazy || Busy(g, k)), false);
    }
  }

  lemma AllActiveNew(h: Heap, w: WatcherId, d: Def, g: Heap)
    requires Base(h) && w !in h.ws && WellFormed(h.prog, h.cells.Keys, d.getter, d.level)
    requires g.prog == h.prog[w := d] && g.ws.Keys == h.ws.Keys + {w} && forall k :: k in h.ws ==> g.ws[k].active == h.ws[k].active
    requires AllActive(h, d.getter, d.level)
    ensures AllActive(g, d.getter, d.level)
  {
    hide Tidy;
    Extends(h.prog, g.prog, h.cells, h.cells, d.getter, d.level);
    hide WellFormed, Val, Touch, Reach;
  }

  lemma NotQueued(r: Heap, q: Sched, w: WatcherId)
    requires Steady(r, q, {}) && w in r.ws && w in r.prog && r.ws.Keys == r.prog.Keys && w !in q.has
    ensures Promised(r, w) ==> Current(r, w)
  {
    BaseKeys(r);
    hide Base, Linked, Collecting, Promised, Current, QueueKnown;
  }

  lemma ValidParts(h: Heap, q: Sched, uid: nat)
    requires Steady(h, q, {}) && Numbered(h, uid)
    ensures uid + 1 !in h.ws && h.ws.Keys == h.prog.Keys
  {
    NewBase(h, q);
    BaseKeys(h);
    hide Steady, Base;
  }

  // Ids are given out in turn.
  ghost predicate Numbered(h: Heap, uid: nat) {
    forall w :: w in h.ws ==> w <= uid
  }

  lemma WatchingNumbered(h: Heap, g: Heap, w: WatcherId, d: Def, uid: nat)
    requires Numbered(h, uid) && Watching(h, g, w, d) && w == uid + 1
    ensures Numbered(g, w)
  {
    hide AllActive, Promised, Current;
  }

  // A new watcher with nothing torn down below it starts out current.
  lemma NewPromised(h: Heap, w: WatcherId, d: Def, g: Heap, r: Heap, v: int)
    requires Base(h) && w !in h.ws && WellFormed(h.prog, h.cells.Keys, d.getter, d.level) && !d.lazy
    requires g == AddWatcher(h, w, d) && w in g.ws && g.ws.Keys == g.prog.Keys && Ran(g, r, w) && w in r.ws && w in r.prog
    requires AllActive(h, d.getter, d.level)
    ensures Promised(SetValue(r, w, v), w)
  {
    hide Base, WellFormed, Ran;
    assert g.prog == h.prog[w := d];
    NewKeys(h, w, d);
    NewRan(h, w, d, g, r);
    AllActiveNew(h, w, d, g);
    RanActive(g, r, w, d.getter, d.level);
    hide AddWatcher;
    assert AllActive(SetValue(r, w, v), d.getter, d.level) by { hide Reach, Promised; }
    hide AllActive;
  }

  lemma NewKeys(h: Heap, w: WatcherId, d: Def)
    requires Base(h) && w !in h.ws
    ensures var g := AddWatcher(h, w, d);
      && g.ws.Keys == h.ws.Keys + {w} && g.prog == h.prog[w := d] && g.ws.Keys == g.prog.Keys && g.cells == h.cells
      && (forall k :: k in h.ws ==> g.ws[k].active == h.ws[k].active)
      && (forall k :: k in h.prog ==> k in g.prog && g.prog[k] == h.prog[k])
  {
    hide WellFormed, Tidy;
  }

  lemma WatchDone(h: Heap, g: Heap, q: Sched, w: WatcherId, d: Def, r: Heap, v: int)
    requires Steady(h, q, {}) && (q.Resting() || q.Running()) && w !in h.ws && WellFormed(h.prog, h.cells.Keys, d.getter, d.level) && !d.lazy
    requires g == AddWatcher(h, w, d) && w in g.ws && Steady(g, q, {w}) && w in g.prog && g.ws.Keys == g.prog.Keys
    requires Good(r) && Ran(g, r, w) && w in r.ws && GetMeets(g, w, v, r)
    ensures var s := SetValue(r, w, v);
      Steady(s, q, {}) && Watching(h, s, w, d)
  {
    hide *;
    var s := SetValue(r, w, v);
    SteadyParts(h, q, {});
    NewUnqueued(h, q, w);
    NewBase(h, q);
    NewKeys(h, w, d);
    AddWatcherIs(h, w, d);
    NewRan(h, w, d, g, r);
    RanDone(g, q, w, r, v);
    SetValueIs(r, w, v);
    NotQueued(s, q, w);
    if AllActive(h, d.getter, d.level) {
      NewPromised(h, w, d, g, r, v);
    }
    SetWatching(h, s, w, d);
  }

  lemma SetWatching(h: Heap, s: Heap, w: WatcherId, d: Def)
    requires s.cells == h.cells && s.subs.Keys == h.subs.Keys && s.prog == h.prog[w := d]
    requires s.ws.Keys == h.ws.Keys + {w} && w !in h.ws
    requires w in s.ws && w in s.prog && s.ws[w].active && s.ws[w].dirty == d.lazy
    requires forall k :: k in h.ws ==> k in s.ws && s.ws[k].active == h.ws[k].active
    requires AllActive(h, d.getter, d.level) ==> Promised(s, w) && Current(s, w)
    ensures Watching(h, s, w, d)
  {
    hide AllActive, Promised, Current;
  }

  lemma NewBase(h: Heap, q: Sched)
    requires Steady(h, q, {})
    ensures Base(h)
  {
    hide Base;
  }

  function Started(q: Sched): Sched {
    q.(flushing := true, registered := 0, queue := Sort(q.queue), index := 0)
  }

  lemma SteadyBase(h: Heap, q: Sched)
    requires Steady(h, q, {})
    ensures Base(h) && h.ws.Keys == h.prog.Keys
  {
    BaseKeys(h);
    hide Base;
  }

  lemma SameProg(h: Heap, g: Heap)
    requires SameWatchers(h, g)
    ensures g.prog == h.prog
  {
  }

  lemma SetValueIs(h: Heap, w: WatcherId, v: int)
    requires w in h.ws
    ensures SetValue(h, w, v) == h.(ws := h.ws[w := h.ws[w].(value := Some(v))])
  {
  }

  lemma AddWatcherIs(h: Heap, w: WatcherId, d: Def)
    ensures w in AddWatcher(h, w, d).ws && w in AddWatcher(h, w, d).prog && AddWatcher(h, w, d).prog[w] == d
    ensures AddWatcher(h, w, d).ws[w].active && AddWatcher(h, w, d).ws[w].dirty == d.lazy
  {
  }

  // ----- the effects of a callback

  lemma NothingWritten(h: Heap, q: Sched, c: CellId, v: int)
    requires c !in h.cells || h.cells[c] == v
    ensures Did(h, q, SetCell(c, v), h, q) && (c in h.cells ==> h.cells == h.cells[c := v])
  {
  }

  lemma SomethingWritten(h: Heap, q: Sched, c: CellId, v: int)
    requires c in h.cells && c in h.subs && h.cells[c] != v
    ensures var g := h.(cells := h.cells[c := v]);
      c in g.subs && Did(h, q, SetCell(c, v), Notified(g, g.subs[c]), Enqueued(g.prog, q, g.subs[c]))
  {
    hide Notified, Enqueued;
  }

  lemma SameAdds(h: Heap, g: Heap, e: Effect, uid: nat)
    requires (SameWatchers(h, g) || g == h) && Numbered(h, uid)
    ensures OnlyAdds(h, g) && PlainKept(h, g, [e]) && Numbered(g, uid)
  {
  }

  lemma DidTeardown(h: Heap, q: Sched, w: WatcherId)
    ensures Did(h, q, Teardown(w), if w in h.ws && h.ws[w].active then TornDown(h, w) else h, q)
  {
  }

  lemma DidRead(h: Heap, q: Sched, k: WatcherId, g: Heap)
    requires if k in h.prog && h.prog[k].lazy then h.ws.Keys == h.prog.Keys && Evaluated(h, g) else g == h
    ensures Did(h, q, ReadComputed(k), g, q)
  {
  }

  lemma DidCell(h: Heap, q: Sched, c: CellId, v: int, g: Heap, uid: nat)
    requires g == (if c in h.cells then h else AddCell(h, c, v)) && Numbered(h, uid)
    ensures Did(h, q, NewCell(c, v), g, q) && OnlyAdds(h, g) && PlainKept(h, g, [NewCell(c, v)]) && Numbered(g, uid)
  {
  }

  lemma DidWatch(h: Heap, q: Sched, getter: Expr, lazy: bool, level: nat, g: Heap, w: WatcherId)
    requires Watching(h, g, w, Def(getter, lazy, level)) && WellFormed(h.prog, h.cells.Keys, getter, level)
    requires h.ws.Keys == h.prog.Keys
    ensures var e := NewWatcher(getter, lazy, level);
      Did(h, q, e, g, q) && OnlyAdds(h, g) && PlainKept(h, g, [e])
  {
    hide AllActive, Promised, Current, WellFormed;
    var e := NewWatcher(getter, lazy, level);
    if Quiet([e]) {
      assert [e][0].lazy;
      assert Plain(g.prog) == Plain(h.prog);
    }
  }

  lemma DidNotWatch(h: Heap, q: Sched, getter: Expr, lazy: bool, level: nat)
    requires !WellFormed(h.prog, h.cells.Keys, getter, level)
    ensures Did(h, q, NewWatcher(getter, lazy, level), h, q)
    ensures OnlyAdds(h, h) && PlainKept(h, h, [NewWatcher(getter, lazy, level)])
  {
  }

  lemma PlainNone(h: Heap, es: seq<Effect>)
    ensures PlainKept(h, h, es[..0])
  {
  }

  // ----- one run of a watcher

  lemma IsGot(h: Heap, w: WatcherId, v: int, g: Heap)
    requires h.ws.Keys == h.prog.Keys && w in h.ws && w in h.prog && Good(g) && Ran(h, g, w) && w in g.ws && GetMeets(h, w, v, g)
    ensures Got(h, w, v, g)
  {
    hide Good, Ran, GetMeets;
  }

  lemma RanAdds(h: Heap, g: Heap, uid: nat)
    requires SameWatchers(h, g) && Numbered(h, uid)
    ensures OnlyAdds(h, g) && Numbered(g, uid) && Plain(g.prog) == Plain(h.prog) && g.prog == h.prog
  {
  }

  lemma IsStored(m: Heap, q: Sched, w: WatcherId, v: int, g: Heap, r: Sched, callback: Callback)
    requires w in m.ws
    requires if m.ws[w].value == Some(v) then g == m && r == q
             else DidAll(SetValue(m, w, v), q, callback(w, v, m.ws[w].value, m.cells), g, r)
    ensures Stored(callback, m, q, w, v, g, r)
  {
    hide DidAll, SetValue;
  }

  lemma IsRun(h: Heap, q: Sched, w: WatcherId, v: int, m: Heap, g: Heap, r: Sched, callback: Callback)
    requires w in h.ws && h.ws[w].active && Got(h, w, v, m) && Stored(callback, m, q, w, v, g, r)
    ensures RunDid(callback, h, q, w, g, r)
  {
    hide Got, Stored;
  }

  lemma NotRun(h: Heap, q: Sched, w: WatcherId, callback: Callback)
    requires w in h.ws && !h.ws[w].active
    ensures RunDid(callback, h, q, w, h, q)
  {
    hide Got, Stored;
  }

  lemma TameRun(h: Heap, h1: Heap, g: Heap, q: Sched, w: WatcherId, v: int, old_: Option<int>, cells: Cells,
                callback: Callback, log0: seq<Run>, log1: seq<Run>)
    requires Steady(h, q, {w}) && h1.prog == h.prog && OnlyAdds(h, g) && OnlyAdds(h1, g)
    requires var es := callback(w, v, old_, cells);
      CallsFrom(log0, log1, g.prog, es) && PlainKept(h1, g, es)
    ensures Tame(h.prog, callback) ==>
      Plain(g.prog) == Plain(h.prog) && forall x :: x in LastCalls(log1) ==> x in LastCalls(log0) || x >= w
  {
    hide Plain, CallsFrom, LastCalls, Forward, Quiet, Base, OnlyAdds;
    if Tame(h.prog, callback) {
      var es := callback(w, v, old_, cells);
      assert Forward(h.prog, w, es) && Quiet(es);
      TameCalls(h, g, w, log0, log1, es);
    }
  }

  // ----- one turn of the flush loop

  // Some watcher has run more often than the loop puts up with.
  ghost predicate Overrun(log: seq<Run>) {
    exists w: WatcherId :: Count(Ids(log), w) > 100
  }

  lemma SomeOverrun(log: seq<Run>, id: WatcherId)
    requires Count(Ids(log), id) > 100
    ensures Overrun(log)
  {
  }

  lemma Limit()
    ensures MAX_UPDATE_COUNT == 100
  {
  }

  lemma NothingAbove()
    ensures AtOrAbove([])
  {
  }

  lemma TakenIs(q: Sched)
    requires 0 <= q.index < |q.queue|
    ensures Taken(q) == q.(has := q.has - {q.queue[q.index]})
  {
  }

  lemma NoCalls(log: seq<Run>, id: WatcherId)
    ensures LastCalls(log + [Scheduler.Run(id, [])]) == {}
  {
  }

  lemma TameTurn(h0: Heap, h1: Heap, h: Heap, callback: Callback, log1: seq<Run>, id: WatcherId, log2: seq<Run>)
    requires Base(h0) && OnlyAdds(h0, h1)
    requires Tame(h0.prog, callback) ==> AtOrAbove(log1) && Plain(h1.prog) == Plain(h0.prog)
    requires Tame(h1.prog, callback) ==> Plain(h.prog) == Plain(h1.prog) && forall x :: x in LastCalls(log2) ==> x >= id
    requires |log2| == |log1| + 1 && log2[..|log1|] == log1 && log2[|log1|].id == id
    ensures Tame(h0.prog, callback) ==> AtOrAbove(log2) && Plain(h.prog) == Plain(h0.prog)
  {
    hide Base, Tame, OnlyAdds, Plain;
    if Tame(h0.prog, callback) {
      StaysTame(h0, h1, callback);
      forall i, x | 0 <= i < |log2| && x in log2[i].calls
        ensures x >= log2[i].id
      {
        if i < |log1| {
          assert log2[i] == log1[i];
        } else {
          assert x in LastCalls(log2);
        }
      }
    }
  }

  lemma IsNext(callback: Callback, a: Point, id: WatcherId, b: Point, r: Sched)
    requires 0 <= a.q.index < |a.q.queue| && id == a.q.queue[a.q.index]
    requires RunDid(callback, a.h, Taken(a.q), id, b.h, r)
    requires Circ(Recount(r, id), id) <= 100 && b.q == Recount(r, id).(index := r.index + 1)
    ensures Next(callback, a, b)
  {
    hide RunDid, Taken, Recount, Circ;
    assert Passed(r, id, b.q);
  }

  lemma IsBroken(callback: Callback, a: Point, id: WatcherId, g: Heap, r: Sched)
    requires 0 <= a.q.index < |a.q.queue| && id == a.q.queue[a.q.index]
    requires RunDid(callback, a.h, Taken(a.q), id, g, r) && Circ(Recount(r, id), id) > 100
    ensures Breaks(callback, a)
  {
    hide RunDid, Taken, Recount, Circ;
  }

  lemma ReactorParts(r: Reactor)
    requires r.Valid()
    ensures Steady(r.h, r.q, {}) && Numbered(r.h, r.uid)
  {
    hide Steady;
  }

  lemma IsReactor(r: Reactor)
    requires Steady(r.h, r.q, {}) && r.q.Resting() && Numbered(r.h, r.uid)
    ensures r.Valid()
  {
    hide Steady, Sched.Resting;
  }

  class Reactor {
    var h: Heap
    var q: Sched
    var uid: nat
    const callback: Callback
    ghost var log: seq<Run>

    // Between flushes, and while a flush runs one of its watchers.
    ghost predicate Valid()
      reads this
    {
      Steady(h, q, {}) && (q.Resting() || (q.Running() && |log| > 0)) && Numbered(h, uid)
    }

    method AddDep(w: WatcherId, c: CellId)
      requires w in h.ws && c in h.subs
      modifies this`h
      ensures h == WithDep(old(h), w, c)
    {
      var x := h.ws[w];
      if c !in x.newDepIds {
        h := h.(ws := h.ws[w := x.(newDepIds := x.newDepIds + {c}, newDeps := x.newDeps + [c])]);
        if c !in x.depIds {
          h := h.(subs := h.subs[c := h.subs[c] + [w]]);
        }
      }
    }

    method CleanupDeps(w: WatcherId)
      requires w in h.ws && Tidy(h.ws[w]) && h.ws[w].depIds <= h.subs.Keys
      modifies this`h
      ensures h == CleanedUp(old(h), w)
    {
      var x := h.ws[w];
      ghost var subs := h.subs;
      CleanStart(subs, x, w);
      var i := |x.deps|;
      while i > 0
        invariant 0 <= i <= |x.deps|
        invariant h == old(h).(subs := h.subs) && Cleaned(subs, h.subs, x, i, w)
      {
        i := i - 1;
        var dep := x.deps[i];
        CleanStep(subs, h.subs, x, i, w);
        if dep !in x.newDepIds {
          h := h.(subs := h.subs[dep := Remove(h.subs[dep], w)]);
        }
      }
      CleanDone(old(h), h.subs, w);
      h := h.(ws := h.ws[w := x.(deps := x.newDeps, depIds := x.newDepIds, newDeps := [], newDepIds := {})]);
    }

    // The getter functions, read through the reactive getters of cells and
    // computed properties.
    method Evaluate(e: Expr, ghost b: nat) returns (v: int)
      requires Good(h) && WellFormed(h.prog, h.cells.Keys, e, b) && Above(h, b) && Covers(h, e, b)
      modifies this`h
      decreases b, 0, e
      ensures Good(h) && old(h).ws.Keys == old(h).prog.Keys && Evaluated(old(h), h) && Meets(old(h), e, b, v, h)
    {
      ghost var h0 := h;
      GoodKeys(h);
      hide Good, Evaluated, Meets, Above, Busy, Covers;
      CoverParts(h, h, e, b);
      match e
      case Lit(n) =>
        MeetsLit(h, n, b);
        v := n;
      case Cell(c) =>
        MeetsCell(h, c, b);
        v := h.cells[c];
        if h.target.Some? {
          AddDep(h.target.value, c);
        }
      case Computed(k) =>
        v := ReadComputed(k, b);
      case Op(f, l, r) =>
        var x := Evaluate(l, b);
        ghost var h1 := h;
        GoodKeys(h);
        EvaluatedBasics(h0, h, b);
        CoverParts(h0, h, e, b);
        var y := Evaluate(r, b);
        MeetsOp(h0, e, b, x, h1, y, h);
        v := f(x, y);
      case Cond(t, thn, els) =>
        var x := Evaluate(t, b);
        ghost var h1 := h;
        GoodKeys(h);
        EvaluatedBasics(h0, h, b);
        CoverParts(h0, h, e, b);
        if x != 0 {
          v := Evaluate(thn, b);
        } else {
          v := Evaluate(els, b);
        }
        MeetsCond(h0, e, b, x, h1, v, h);
    }

    // computedGetter
    method ReadComputed(k: WatcherId, ghost b: nat) returns (v: int)
      requires Good(h) && k in h.prog && h.prog[k].lazy && h.prog[k].level < b && Above(h, b) && Covers(h, Computed(k), b)
      modifies this`h
      decreases b, 0, Computed(k), 0
      ensures Good(h) && old(h).ws.Keys == old(h).prog.Keys && Evaluated(old(h), h) && Meets(old(h), Computed(k), b, v, h)
    {
      ghost var h0 := h;
      GoodKeys(h);
      NotBusy(h, k, b);
      EvaluatedSelf(h);
      hide *;
      if h.ws[k].dirty {
        EvaluateComputed(k);
      }
      ghost var h1 := h;
      GoodKeys(h);
      EvaluatedBasics(h0, h, b);
      EvaluatedSelf(h);
      CoverParts(h0, h, Computed(k), b);
      if h.target.Some? {
        Depend(k);
      } else {
        NoTarget(h, h.ws[k].depIds);
      }
      ReadMeets(h0, k, b, h1, h);
      v := h.ws[k].value.value;
    }

    // Watcher.evaluate
    method EvaluateComputed(k: WatcherId)
      requires Good(h) && k in h.ws && k in h.prog && h.prog[k].lazy && h.ws[k].dirty && !Busy(h, k) && Above(h, h.prog[k].level)
      modifies this`h
      decreases h.prog[k].level, 2
      ensures Good(h) && old(h).ws.Keys == old(h).prog.Keys && Evaluated(old(h), h) && Collected(old(h), h, {})
      ensures k in h.ws && !h.ws[k].dirty
    {
      ghost var h0 := h;
      GoodKeys(h);
      hide *;
      var value := Get(k);
      GoodKeys(h);
      FilledGood(h0, h, k, value);
      FilledEvaluated(h0, h, k, value);
      FillIs(h, k, value);
      h := Fill(h, k, value);
    }

    // Watcher.depend
    method Depend(k: WatcherId)
      requires Good(h) && k in h.ws && k in h.prog && h.target.Some? && !Busy(h, k)
      requires Covers(h, h.prog[k].getter, h.prog[k].level)
      modifies this`h
      ensures Good(h) && old(h).ws.Keys == old(h).prog.Keys && Evaluated(old(h), h) && Collected(old(h), h, old(h).ws[k].depIds)
      ensures k in h.ws && h.ws[k] == old(h).ws[k]
    {
      hide *;
      ghost var h0 := h;
      var t := h.target.value;
      var deps := h.ws[k].deps;
      DependReady(h, k, t);
      EvaluatedSelf(h);
      var i := |deps|;
      while i > 0
        invariant 0 <= i <= |deps|
        invariant Good(h) && h0.ws.Keys == h0.prog.Keys && Evaluated(h0, h) && Collected(h0, h, Elements(deps[i..]))
        invariant k in h.ws && h.ws[k] == h0.ws[k] && h.subs.Keys == h0.subs.Keys && t in h.ws
      {
        i := i - 1;
        DependStep(h0, h, t, k, deps, i);
        ghost var g := h;
        AddDep(t, deps[i]);
        OnlyTarget(g, t, deps[i]);
      }
      assert deps[0..] == deps;
    }

    // Watcher.get
    method Get(w: WatcherId) returns (value: int)
      requires Good(h) && w in h.ws && w in h.prog && !Busy(h, w) && (h.ws[w].active || h.prog[w].lazy)
      requires h.prog[w].lazy ==> h.ws[w].dirty
      requires Above(h, h.prog[w].level)
      modifies this`h
      decreases h.prog[w].level, 1
      ensures Good(h) && old(h).ws.Keys == old(h).prog.Keys && Ran(old(h), h, w) && w in h.ws && GetMeets(old(h), w, value, h)
    {
      ghost var h0 := h;
      GetBegins(h, w);
      GoodKeys(h);
      hide *;
      h := Pushed(h, w);
      value := Evaluate(h.prog[w].getter, h.prog[w].level);
      GetEnds(h0, h, w, value);
      CleanupReady(h, w);
      h := Popped(h);
      CleanupDeps(w);
    }

    // Dep.notify, with the subscriber list copied first.
    method Notify(c: CellId)
      requires c in h.subs && Steady(h, q, ToSet(h.subs[c]))
      requires q.Resting() || (q.Running() && |log| > 0)
      modifies this`h, this`q, this`log
      ensures Steady(h, q, {}) && Scheduler.Grows(old(q), old(log), q, log)
      ensures SameWatchers(old(h), h) && h.cells == old(h).cells
      ensures h == Notified(old(h), old(h).subs[c]) && q == Enqueued(old(h).prog, old(q), old(h).subs[c])
      ensures LastCalls(log) <= LastCalls(old(log)) + Queueable(old(h).prog, old(h).subs[c])
    {
      hide *;
      var subs := h.subs[c];
      ghost var h0, q0, log0 := h, q, log;
      ModeParts(q);
      GrowsSelf(q, log);
      SubsKnown(h, q, c, subs);
      NoneLeft(subs);
      ToldNone(h, q, subs);
      assert subs[0..] == subs;
      var i := 0;
      while i < |subs|
        invariant 0 <= i <= |subs|
        invariant Steady(h, q, ToSet(subs[i..])) && Scheduler.Grows(q0, log0, q, log)
        invariant q.Resting() || (q.Running() && |log| > 0)
        invariant SameWatchers(h0, h) && h.cells == h0.cells && h.prog == h0.prog
        invariant forall j :: 0 <= j < |subs| ==> subs[j] in h.ws && subs[j] in h.prog
        invariant h == Notified(h0, subs[..i]) && q == Enqueued(h0.prog, q0, subs[..i])
        invariant LastCalls(log) <= LastCalls(log0) + Queueable(h0.prog, subs[..i])
      {
        ghost var h1, q1, log1 := h, q, log;
        Update(subs[i], ToSet(subs[i..]));
        ToldOne(h0, q0, subs, i, log0, log1, log);
        Delivered(h, q, subs, i);
        GrowsTrans(q0, log0, q1, log1, q, log);
        SameWatchersTrans(h0, h1, h);
        i := i + 1;
      }
      assert subs[..i] == subs;
    }

    // Watcher.update
    method Update(w: WatcherId, ghost rest: set<WatcherId>)
      requires Steady(h, q, rest) && w in h.ws && w in h.prog
      requires q.Resting() || (q.Running() && |log| > 0)
      modifies this`h, this`q, this`log
      ensures Steady(h, q, rest - {w}) && Scheduler.Grows(old(q), old(log), q, log)
      ensures q.Resting() || (q.Running() && |log| > 0)
      ensures SameWatchers(old(h), h) && h.cells == old(h).cells && h.prog == old(h).prog
      ensures forall k :: k in old(h).ws && k in old(h).prog ==> k in h.ws && k in h.prog
      ensures h == Told(old(h), w) && q == if old(h).prog[w].lazy then old(q) else QueuedIn(old(q), w)
      ensures LastCalls(log) <= LastCalls(old(log)) + if old(h).prog[w].lazy then {} else {w}
    {
      hide *;
      ModeParts(q);
      ToldIs(h, w);
      if h.prog[w].lazy {
        MarkedSteady(h, q, rest, w);
        GrowsSelf(q, log);
        h := h.(ws := h.ws[w := h.ws[w].(dirty := true)]);
      } else { // not `sync`
        ghost var q0 := q;
        SameWatchersSelf(h);
        QueueWatcher(w);
        QueuedSteady(h, q0, q, rest, w);
      }
    }

    // queueWatcher
    method QueueWatcher(w: WatcherId)
      requires q.Resting() || (q.Running() && |log| > 0)
      modifies this`q, this`log
      ensures q == QueuedIn(old(q), w) && LastCalls(log) <= LastCalls(old(log)) + {w}
      ensures q.has == old(q).has + {w} && Scheduler.Grows(old(q), old(log), q, log)
      ensures q.Resting() || (q.Running() && |log| > 0)
      ensures forall x :: x in q.queue ==> x in old(q).queue || x == w
    {
      hide *;
      ghost var q0 := q;
      ModeParts(q);
      CallCalls(log, w);
      if w !in q.has {
        if !q.flushing {
          QueuedInIs(q, w, |q.queue|);
          GrowsPush(q, log, w);
          q := q.(queue := q.queue + [w], has := q.has + {w});
        } else {
          // splice by id; if already past its id, it runs next
          var i := |q.queue| - 1;
          while i > q.index && q.queue[i] > w
            invariant q.index <= i < |q.queue|
            invariant forall j :: i < j < |q.queue| ==> q.queue[j] > w
          {
            i := i - 1;
          }
          IsSplicePoint(q, w, i + 1);
          QueuedInIs(q, w, i + 1);
          GrowsSplice(q, log, w, i + 1);
          log := Call(log, w);
          q := q.(queue := q.queue[..i + 1] + [w] + q.queue[i + 1..], has := q.has + {w});
        }
        if !q.waiting {
          q := q.(waiting := true, registered := q.registered + 1); // nextTick(flushSchedulerQueue)
        }
        PushedQueue(q0, w, q);
      } else if q.flushing {
        QueuedAlready(q, w);
        GrowsAgain(q, log, w);
        log := Call(log, w);
      } else {
        QueuedAlready(q, w);
        GrowsSelf(q, log);
      }
      StillMode(q0, old(log), q, log);
    }

    // Watcher.teardown
    method TeardownWatcher(w: WatcherId)
      requires Steady(h, q, {}) && w in h.ws
      modifies this`h
      ensures Steady(h, q, {}) && SameWatchers(old(h), h) && h.cells == old(h).cells
      ensures h == if old(h).ws[w].active then TornDown(old(h), w) else old(h)
      ensures w in h.ws && !h.ws[w].active
      ensures old(h).ws[w].active ==> forall c :: c in h.subs ==> w !in h.subs[c]
    {
      hide *;
      ghost var h0 := h;
      SameWatchersSelf(h);
      if h.ws[w].active {
        TearReady(h, q, w);
        TornDownSteady(h, q, w);
        var deps := h.ws[w].deps;
        var i := |deps|;
        TearStart(h, w);
        while i > 0
          invariant 0 <= i <= |deps|
          invariant h == h0.(subs := h.subs) && Torn(h0, h.subs, w, i)
        {
          i := i - 1;
          TearStep(h0, h.subs, w, i);
          h := h.(subs := h.subs[deps[i] := Remove(h.subs[deps[i]], w)]);
        }
        TearDone(h0, h.subs, w);
        h := h.(ws := h.ws[w := h.ws[w].(active := false)]);
      }
    }

    // reactiveSetter
    method SetCell(c: CellId, v: int)
      requires Steady(h, q, {}) && c in h.cells
      requires q.Resting() || (q.Running() && |log| > 0)
      modifies this`h, this`q, this`log
      ensures Steady(h, q, {}) && Scheduler.Grows(old(q), old(log), q, log)
      ensures q.Resting() || (q.Running() && |log| > 0)
      ensures SameWatchers(old(h), h) && h.cells == old(h).cells[c := v]
      ensures Did(old(h), old(q), Effect.SetCell(c, v), h, q)
      ensures CallsFrom(old(log), log, h.prog, [Effect.SetCell(c, v)])
    {
      hide *;
      ghost var h0, q0, log0 := h, q, log;
      ModeParts(q);
      SameWatchersSelf(h);
      GrowsSelf(q, log);
      if v == h.cells[c] {
        NothingWritten(h, q, c, v);
        CallsNone(log, h.prog, [Effect.SetCell(c, v)]);
        return;
      }
      WrittenSteady(h, q, c, v);
      h := h.(cells := h.cells[c := v]);
      ghost var h1 := h;
      Notify(c);
      SameWatchersTrans(h0, h1, h);
      StillMode(q0, log0, q, log);
      SomethingWritten(h0, q0, c, v);
      SameProg(h0, h);
      SetCellCalls(h0, q0, c, v, h.prog, log0, log);
    }

    // A computed property read outside any evaluation.
    method ReadAtTop(k: WatcherId) returns (v: int)
      requires Steady(h, q, {}) && k in h.prog && h.prog[k].lazy
      modifies this`h
      ensures Steady(h, q, {}) && SameWatchers(old(h), h) && h.cells == old(h).cells
      ensures old(h).ws.Keys == old(h).prog.Keys && Evaluated(old(h), h)
      ensures var d := old(h).prog[k];
        AllActive(old(h), Computed(k), d.level + 1) ==> v == Val(old(h).prog, old(h).cells, d.getter, d.level)
    {
      hide *;
      ghost var h0 := h;
      TopReady(h, q, k);
      v := ReadComputed(k, h.prog[k].level + 1);
      TopDone(h0, q, k, v, h);
    }

    // One thing that a callback does.
    method Perform(e: Effect)
      requires Steady(h, q, {}) && (q.Resting() || (q.Running() && |log| > 0)) && Numbered(h, uid)
      modifies this`h, this`q, this`log, this`uid
      ensures Steady(h, q, {}) && Scheduler.Grows(old(q), old(log), q, log) && Numbered(h, uid)
      ensures q.Resting() || (q.Running() && |log| > 0)
      ensures OnlyAdds(old(h), h) && Did(old(h), old(q), e, h, q)
      ensures CallsFrom(old(log), log, h.prog, [e]) && PlainKept(old(h), h, [e])
    {
      hide *;
      ghost var h0 := h;
      ModeParts(q);
      OnlyAddsSelf(h);
      GrowsSelf(q, log);
      match e {
        case SetCell(c, v) =>
          if c in h.cells {
            SetCell(c, v);
            SameAdds(h0, h, e, uid);
          } else {
            NothingWritten(h, q, c, v);
            CallsNone(log, h.prog, [e]);
            SameAdds(h, h, e, uid);
          }
        case Teardown(w) =>
          if w in h.ws {
            TeardownWatcher(w);
          }
          DidTeardown(h0, q, w);
          CallsNone(log, h.prog, [e]);
          SameAdds(h0, h, e, uid);
        case ReadComputed(k) =>
          if k in h.prog && h.prog[k].lazy {
            var _ := ReadAtTop(k);
          }
          DidRead(h0, q, k, h);
          CallsNone(log, h.prog, [e]);
          SameAdds(h0, h, e, uid);
        case NewCell(c, v) =>
          if c !in h.cells {
            DefineReactive(c, v);
          }
          DidCell(h0, q, c, v, h, uid);
          CallsNone(log, h.prog, [e]);
        case NewWatcher(getter, lazy, level) =>
          SteadyBase(h, q);
          if WellFormed(h.prog, h.cells.Keys, getter, level) {
            var w := Watch(getter, lazy, level);
            DidWatch(h0, q, getter, lazy, level, h, w);
          } else {
            DidNotWatch(h, q, getter, lazy, level);
          }
          CallsNone(log, h.prog, [e]);
      }
    }

    // The callback of a watcher.
    method RunCallback(effects: seq<Effect>)
      requires Steady(h, q, {}) && (q.Resting() || (q.Running() && |log| > 0)) && Numbered(h, uid)
      modifies this`h, this`q, this`log, this`uid
      ensures Steady(h, q, {}) && Scheduler.Grows(old(q), old(log), q, log) && Numbered(h, uid)
      ensures OnlyAdds(old(h), h) && DidAll(old(h), old(q), effects, h, q)
      ensures CallsFrom(old(log), log, h.prog, effects) && PlainKept(old(h), h, effects)
    {
      hide *;
      ghost var h0, q0, log0 := h, q, log;
      ModeParts(q);
      OnlyAddsSelf(h);
      GrowsSelf(q, log);
      DidNone(h, q, effects);
      CallsNone(log, h.prog, effects[..0]);
      PlainNone(h, effects);
      var i := 0;
      while i < |effects|
        invariant 0 <= i <= |effects|
        invariant Steady(h, q, {}) && Scheduler.Grows(q0, log0, q, log) && OnlyAdds(h0, h) && Numbered(h, uid)
        invariant q.Resting() || (q.Running() && |log| > 0)
        invariant DidAll(h0, q0, effects[..i], h, q)
        invariant CallsFrom(log0, log, h.prog, effects[..i]) && PlainKept(h0, h, effects[..i])
      {
        ghost var h1, q1, log1 := h, q, log;
        SteadyBase(h, q);
        Perform(effects[i]);
        OnlyAddsTrans(h0, h1, h);
        GrowsTrans(q0, log0, q1, log1, q, log);
        DidMore(h0, q0, effects, i, h1, q1, h, q);
        CallsMore(h1, h, log0, log1, log, effects, i);
        PlainMore(h0, h1, h, effects, i);
        i := i + 1;
      }
      assert effects[..i] == effects;
    }

    // Watcher.run
    method Run(w: WatcherId)
      requires Steady(h, q, {w}) && w in h.ws && w in h.prog && !h.prog[w].lazy && Numbered(h, uid)
      requires q.Running() && |log| > 0
      modifies this`h, this`q, this`log, this`uid
      ensures Steady(h, q, {}) && Scheduler.Grows(old(q), old(log), q, log) && Numbered(h, uid)
      ensures OnlyAdds(old(h), h) && RunDid(callback, old(h), old(q), w, h, q)
      ensures Tame(old(h).prog, callback) ==>
                Plain(h.prog) == Plain(old(h).prog) && forall x :: x in LastCalls(log) ==> x in LastCalls(old(log)) || x >= w
    {
      hide *;
      ghost var h0, q0, log0 := h, q, log;
      ModeParts(q);
      OnlyAddsSelf(h);
      GrowsSelf(q, log);
      RunReady(h, q, w);
      if h.ws[w].active {
        var value := Get(w);
        IsGot(h0, w, value, h);
        RanDone(h0, q, w, h, value);
        RanAdds(h0, h, uid);
        ghost var m := h;
        if h.ws[w].value != Some(value) {
          var oldValue := h.ws[w].value;
          h := h.(ws := h.ws[w := h.ws[w].(value := Some(value))]);
          ghost var h1 := h;
          SetValueIs(m, w, value);
          RanAdds(h0, h1, uid);
          var effects := callback(w, value, oldValue, h.cells);
          RunCallback(effects);
          OnlyAddsTrans(h0, h1, h);
          TameRun(h0, h1, h, q0, w, value, oldValue, m.cells, callback, log0, log);
        }
        IsStored(m, q0, w, value, h, q, callback);
        IsRun(h0, q0, w, value, m, h, q, callback);
      } else {
        RunInactive(h, q, w);
        NotRun(h, q, w, callback);
      }
    }

    // flushSchedulerQueue. The loop of the source has no bound of its own; a
    // run that has not ended after `fuel` turns is left as it is.
    method FlushSchedulerQueue(fuel: nat) returns (outcome: Outcome, ghost trace: seq<Point>)
      requires Valid() && q.Resting() && q.waiting
      modifies this`h, this`q, this`log, this`uid
      ensures OnlyAdds(old(h), h)
      ensures Trace(callback, trace) && trace[0] == Point(old(h), Started(old(q))) && |trace| <= fuel + 1
      ensures outcome.Finished? ==>
                && Valid() && q.Resting() && !q.waiting
                && trace[|trace| - 1].q.index >= |trace[|trace| - 1].q.queue|
                && forall w :: w in h.ws && w in h.prog && Promised(h, w) ==> Current(h, w)
      ensures outcome.TooManyUpdates? ==>
                && Good(h) && q == EMPTY && Breaks(callback, trace[|trace| - 1])
                && Overrun(log)
      ensures outcome.StillRunning? ==>
                && Steady(h, q, {}) && Head(q, log) && q.index < |q.queue| && |log| == fuel
                && trace[|trace| - 1] == Point(h, q)
      ensures AtOrAbove(log) ==> NonDecreasing(Ids(log)) && forall w: WatcherId :: Count(Ids(log), w) <= 101
      ensures AtOrAbove(log) && fuel > 101 * |Plain(h.prog)| ==> !outcome.StillRunning?
      ensures Tame(old(h).prog, callback) ==>
                && AtOrAbove(log) && Plain(h.prog) == Plain(old(h).prog)
                && (fuel > 101 * |Plain(old(h).prog)| ==> !outcome.StillRunning?)
    {
      hide *;
      ghost var h0 := h;
      ReactorParts(this);
      SteadyBase(h, q);
      OnlyAddsSelf(h);
      FlushStart(h, q);
      TraceStart(callback, Point(h, Started(q)));
      NothingAbove();
      Limit();
      log := [];
      q := q.(flushing := true, registered := 0, queue := Sort(q.queue), index := 0);
      outcome, trace := Finished, [Point(h, q)];
      var turns := 0;
      while q.index < |q.queue|
        invariant turns == |log| <= fuel
        invariant Steady(h, q, {}) && Head(q, log) && OnlyAdds(h0, h) && Numbered(h, uid)
        invariant |trace| == turns + 1 && Trace(callback, trace) && trace[0] == Point(h0, Started(old(q)))
        invariant trace[|trace| - 1] == Point(h, q)
        invariant Tame(h0.prog, callback) ==> AtOrAbove(log) && Plain(h.prog) == Plain(h0.prog)
        decreases fuel - turns
      {
        if turns == fuel {
          FlushBound(h, q, log);
          return StillRunning, trace;
        }
        ghost var h1, q1, log1 := h, q, log;
        var watcher := q.queue[q.index];
        FlushTake(h, q, log);
        TakenIs(q);
        log := log + [Scheduler.Run(watcher, [])];
        NoCalls(log1, watcher);
        q := q.(has := q.has - {watcher});
        Run(watcher);
        OnlyAddsTrans(h0, h1, h);
        HeadTurn(q1, log1, q, log);
        FlushTurn(h, q, watcher);
        TameTurn(h0, h1, h, callback, log1, watcher, log);
        turns := turns + 1;
        ghost var r := q;
        if watcher in q.has {
          var count := (if watcher in q.circular then q.circular[watcher] else 0) + 1;
          q := q.(circular := q.circular[watcher := count]);
          if count > MAX_UPDATE_COUNT {
            FlushBroken(h, q, watcher, log);
            IsBroken(callback, trace[|trace| - 1], watcher, h, r);
            SomeOverrun(log, watcher);
            q := EMPTY; // resetSchedulerState
            return TooManyUpdates, trace;
          }
        }
        q := q.(index := q.index + 1);
        IsNext(callback, trace[|trace| - 1], watcher, Point(h, q), r);
        TraceNext(callback, trace, Point(h, q));
        trace := trace + [Point(h, q)];
      }
      FlushBound(h, q, log);
      FlushDone(h, q, log);
      q := EMPTY; // resetSchedulerState
      IsReactor(this);
    }

    constructor (callback: Callback)
      ensures Valid() && h.ws == map[] && h.cells == map[] && q.Resting() && !q.waiting && uid == 0
      ensures this.callback == callback
    {
      this.callback := callback;
      h := Heap(map[], map[], map[], map[], None, []);
      q := EMPTY;
      uid := 0;
      log := [];
    }

    // defineReactive: a cell with its own dep.
    method DefineReactive(c: CellId, v: int)
      requires Steady(h, q, {}) && c !in h.cells
      modifies this`h
      ensures Steady(h, q, {}) && h == AddCell(old(h), c, v)
    {
      hide Steady, Stable;
      AddCellSteady(h, q, c, v);
      h := h.(cells := h.cells[c := v], subs := h.subs[c := []]);
    }

    // `new Watcher`: a computed property stays dirty, any other watcher is
    // evaluated at once.
    method Watch(getter: Expr, lazy: bool, level: nat) returns (w: WatcherId)
      requires Steady(h, q, {}) && (q.Resting() || (q.Running() && |log| > 0)) && Numbered(h, uid)
      requires WellFormed(h.prog, h.cells.Keys, getter, level)
      modifies this`h, this`uid
      ensures Steady(h, q, {}) && Numbered(h, uid) && w == uid == old(uid) + 1
      ensures Watching(old(h), h, w, Def(getter, lazy, level))
    {
      ghost var h0 := h;
      hide *;
      ValidParts(h, q, uid);
      uid := uid + 1;
      w := uid;
      var d := Def(getter, lazy, level);
      AddWatcherSteady(h, q, w, d);
      AddWatcherIs(h, w, d);
      h := AddWatcher(h, w, d);
      if !lazy {
        ghost var h1 := h;
        RunReady(h, q, w);
        var value := Get(w);
        WatchDone(h0, h1, q, w, d, h, value);
        SetValueIs(h, w, value);
        h := SetValue(h, w, value);
      }
      WatchingNumbered(h0, h, w, d, w - 1);
    }
  }
}
