// A flush that never ends: two watchers whose callbacks each write the cell
// that the other one reads.
module Rally {
  import opened Sequences
  import opened Getters
  import opened Subscriptions
  import opened Scheduler
  import opened Consistency
  import opened Turns
  import opened Reactivity

  // Watcher 1 reads cell 0, watcher 2 reads cell 1.
  function Players(): Prog {
    map[1 := Def(Cell(0), false, 0), 2 := Def(Cell(1), false, 0)]
  }

  function Partner(w: WatcherId): WatcherId {
    if w == 1 then 2 else 1
  }

  function CellOf(w: WatcherId): CellId {
    if w == 1 then 0 else 1
  }

  // The callback of either increments the cell of the other.
  function Volley(w: WatcherId, value: int, old_: Option<int>, cells: Cells): seq<Effect> {
    var c := CellOf(Partner(w));
    if c in cells then [SetCell(c, cells[c] + 1)] else []
  }

  ghost predicate Playing(h: Heap) {
    && h.prog == Players() && h.cells.Keys == {0, 1} && h.ws.Keys == {1, 2}
    && h.ws[1].active && h.ws[2].active
  }

  // One of the two is pending, alone, and has a new value to find.
  ghost predicate Rallying(a: Point) {
    var q := a.q;
    && Playing(a.h)
    && q.flushing && q.waiting && 0 <= q.index && |q.queue| == q.index + 1 && q.circular == map[]
    && var id := q.queue[q.index];
      id in {1, 2} && q.has == {id} && a.h.ws[id].value != Some(a.h.cells[CellOf(id)])
  }

  lemma OnlyOne(s: seq<WatcherId>, x: WatcherId)
    requires Distinct(s) && x in s && forall y :: y in s ==> y == x
    ensures s == [x]
  {
    assert s[0] in s;
    SecondDiffers(s);
  }

  lemma SecondDiffers(s: seq<WatcherId>)
    requires Distinct(s)
    ensures |s| > 1 ==> s[1] in s && s[1] != s[0]
  {
  }

  // What the scheduler has not queued is current.
  lemma Waiting(h: Heap, q: Sched, w: WatcherId)
    requires Steady(h, q, {}) && Playing(h) && w in {1, 2} && w !in q.has
    ensures h.ws[w].value == Some(h.cells[CellOf(w)]) && h.ws[w].depIds == {CellOf(w)}
  {
    hide Base, Linked, Collecting, CacheBut, QueueKnown, Named;
    assert Promised(h, w);
  }

  // A watcher that depends on its own cell is the one subscriber of it.
  lemma Subscriber(h: Heap, w: WatcherId)
    requires Base(h) && Linked(h) && Collecting(h) && Idle(h) && Playing(h) && w in {1, 2}
    requires h.ws[1].depIds == {0} && h.ws[2].depIds == {1}
    ensures CellOf(w) in h.subs && h.subs[CellOf(w)] == [w]
  {
    var c := CellOf(w);
    BaseKeys(h);
    NoneCollected(h, 1);
    NoneCollected(h, 2);
    assert Link(h.subs[c], h.ws[1], false, 1, c);
    assert Link(h.subs[c], h.ws[2], false, 2, c);
    assert forall y :: y in h.subs[c] ==> y in h.ws;
    hide Base, Collecting, Linked, Link;
    OnlyOne(h.subs[c], w);
  }

  lemma NoneCollected(h: Heap, w: WatcherId)
    requires Base(h) && Collecting(h) && Idle(h) && w in h.ws
    ensures h.ws[w].newDepIds == {}
  {
    hide WellFormed;
    assert !Busy(h, w);
    assert Tidy(h.ws[w]);
    NoNewIds(h.ws[w]);
  }

  // get of the pending player finds the value of its cell.
  lemma Fetched(h: Heap, q: Sched, id: WatcherId, v: int, m: Heap)
    requires Steady(h, q, {}) && Playing(h) && id in {1, 2} && Partner(id) !in q.has && Got(h, id, v, m)
    ensures v == h.cells[CellOf(id)] && m.cells == h.cells && Playing(m) && Good(m) && Idle(m)
    ensures m.ws[id].value == h.ws[id].value && m.ws[id].depIds == {CellOf(id)}
    ensures m.ws[Partner(id)].value == Some(h.cells[CellOf(Partner(id))]) && m.ws[Partner(id)].depIds == {CellOf(Partner(id))}
  {
    hide Good, Base, Linked, Collecting, CacheBut, Watched, QueueKnown, Named;
    Waiting(h, q, Partner(id));
    forall k | k in h.ws
      ensures EvalStep(h.ws[k], m.ws[k], k != id && (!h.prog[k].lazy || Busy(h, k)), false)
    {
    }
  }

  lemma Served(m: Heap, q: Sched, id: WatcherId, v: int, g: Heap, r: Sched)
    requires Playing(m) && Good(m) && Idle(m) && m.ws[1].depIds == {0} && m.ws[2].depIds == {1} && id in {1, 2}
    requires m.ws[Partner(id)].value == Some(m.cells[CellOf(Partner(id))])
    requires DidAll(SetValue(m, id, v), q, Volley(id, v, m.ws[id].value, m.cells), g, r)
    requires Partner(id) !in q.has && |q.queue| == q.index + 1 && q.flushing && q.waiting && 0 <= q.index
    ensures Playing(g) && g.ws[Partner(id)].value != Some(g.cells[CellOf(Partner(id))])
    ensures r == q.(queue := q.queue + [Partner(id)], has := q.has + {Partner(id)})
  {
    hide *;
    GoodParts(m);
    PartnerIs(id);
    var p := Partner(id);
    Subscriber(m, p);
    VolleyIs(m, id, v);
    var c, u := CellOf(p), m.cells[CellOf(p)] + 1;
    DidOne(SetValue(m, id, v), q, SetCell(c, u), g, r);
    Valued(m, id, v, c, u);
    ToldPlayer(Write(SetValue(m, id, v), c, u), q, p);
    WroteIs(SetValue(m, id, v), q, c, u, p, g, r);
    QueuedNext(q, p);
  }

  lemma PartnerIs(id: WatcherId)
    requires id in {1, 2}
    ensures Partner(id) in {1, 2} && Partner(id) != id && CellOf(Partner(id)) in {0, 1}
  {
  }

  lemma VolleyIs(m: Heap, id: WatcherId, v: int)
    requires Playing(m) && id in {1, 2}
    ensures CellOf(Partner(id)) in m.cells && id in m.ws
    ensures Volley(id, v, m.ws[id].value, m.cells) == [SetCell(CellOf(Partner(id)), m.cells[CellOf(Partner(id))] + 1)]
  {
  }

  // The heap after storing the value and writing the partner's cell.
  lemma Valued(m: Heap, id: WatcherId, v: int, c: CellId, u: int)
    requires Playing(m) && id in {1, 2} && c == CellOf(Partner(id)) && c in m.cells && u == m.cells[c] + 1
    requires m.ws[Partner(id)].value == Some(m.cells[c])
    ensures var s := SetValue(m, id, v);
      && s.cells == m.cells && s.subs == m.subs && s.prog == m.prog
      && var g := Write(s, c, u);
        g.prog == Players() && g.subs == m.subs && Playing(g) &&
        g.ws[Partner(id)].value != Some(g.cells[CellOf(Partner(id))])
  {
  }

  lemma WroteIs(h: Heap, q: Sched, c: CellId, u: int, p: WatcherId, g: Heap, r: Sched)
    requires Did(h, q, SetCell(c, u), g, r) && c in h.cells && c in h.subs && h.cells[c] != u && h.subs[c] == [p]
    requires var w := Write(h, c, u);
      Notified(w, [p]) == w && Enqueued(w.prog, q, [p]) == QueuedIn(q, p)
    ensures g == Write(h, c, u) && r == QueuedIn(q, p)
  {
    hide Notified, Enqueued, QueuedIn;
  }

  lemma QueuedNext(q: Sched, p: WatcherId)
    requires p !in q.has && |q.queue| == q.index + 1 && q.flushing && q.waiting && 0 <= q.index
    ensures QueuedIn(q, p) == q.(queue := q.queue + [p], has := q.has + {p})
  {
    QueuedInIs(q, p, |q.queue|);
  }

  lemma DidOne(h: Heap, q: Sched, e: Effect, g: Heap, r: Sched)
    requires DidAll(h, q, [e], g, r)
    ensures Did(h, q, e, g, r)
  {
    hide Did;
    assert [e][..0] == [];
    assert DidThen(h, q, [], e, g, r);
  }

  lemma ToldPlayer(h: Heap, q: Sched, p: WatcherId)
    requires h.prog == Players() && p in {1, 2}
    ensures Notified(h, [p]) == h && Enqueued(h.prog, q, [p]) == QueuedIn(q, p)
  {
    assert [p][..0] == [];
  }

  // Whatever a turn did, the partner is pending now.
  lemma Returned(a: Point, g: Heap, r: Sched)
    requires Rallying(a) && Steady(a.h, a.q, {}) && RunDid(Volley, a.h, Taken(a.q), a.q.queue[a.q.index], g, r)
    ensures var p := Partner(a.q.queue[a.q.index]);
      && r == a.q.(queue := a.q.queue + [p], has := {p})
      && Playing(g) && g.ws[p].value != Some(g.cells[CellOf(p)])
  {
    hide Steady, Got, DidAll, Good;
    var id := a.q.queue[a.q.index];
    var t := Taken(a.q);
    assert t == a.q.(has := {});
    var v, m :| Got(a.h, id, v, m) && Stored(Volley, m, t, id, v, g, r);
    Fetched(a.h, a.q, id, v, m);
    Served(m, t, id, v, g, r);
  }

  lemma RallyNext(a: Point, b: Point)
    requires Rallying(a) && Steady(a.h, a.q, {}) && Next(Volley, a, b)
    ensures Rallying(b)
  {
    hide Steady, RunDid;
    var id := a.q.queue[a.q.index];
    var r :| RunDid(Volley, a.h, Taken(a.q), id, b.h, r) && Passed(r, id, b.q);
    Returned(a, b.h, r);
  }

  lemma RallyUnbroken(a: Point)
    requires Rallying(a) && Steady(a.h, a.q, {})
    ensures !Breaks(Volley, a)
  {
    hide Steady, RunDid;
    var id := a.q.queue[a.q.index];
    forall g: Heap, r: Sched | RunDid(Volley, a.h, Taken(a.q), id, g, r)
      ensures Circ(Recount(r, id), id) <= 100
    {
      Returned(a, g, r);
    }
  }

  // Every trace that starts as a rally goes on as one: a watcher is pending
  // at every point, and the break is never taken.
  lemma {:induction false} RallyOn(trace: seq<Point>, i: nat)
    requires Trace(Volley, trace) && Rallying(trace[0]) && i < |trace|
    ensures Rallying(trace[i]) && trace[i].q.index == trace[0].q.index + i && !Breaks(Volley, trace[i])
  {
    hide Rallying, Next, Steady, Breaks;
    if i > 0 {
      RallyOn(trace, i - 1);
      RallyNext(trace[i - 1], trace[i]);
      NextIndex(trace[i - 1], trace[i]);
    }
    RallyUnbroken(trace[i]);
  }

  lemma NextIndex(a: Point, b: Point)
    requires Rallying(a) && Steady(a.h, a.q, {}) && Next(Volley, a, b)
    ensures b.q.index == a.q.index + 1
  {
    hide Steady, RunDid;
    var id := a.q.queue[a.q.index];
    var r :| RunDid(Volley, a.h, Taken(a.q), id, b.h, r) && Passed(r, id, b.q);
    Returned(a, b.h, r);
  }

  // The first write queues watcher 1.
  lemma Opening(h: Heap, q: Sched, g: Heap, r: Sched)
    requires Steady(h, q, {}) && Playing(h) && h.cells[0] == 0 && q == EMPTY
    requires Did(h, q, SetCell(0, 1), g, r)
    ensures r.Resting() && r.waiting && Rallying(Point(g, Started(r)))
  {
    Waiting(h, q, 1);
    Waiting(h, q, 2);
    assert Base(h) && Linked(h) && Collecting(h) && Idle(h);
    Subscriber(h, 1);
    hide Steady, Base, Linked, Collecting;
    ToldPlayer(Write(h, 0, 1), q, 1);
    QueuedInIs(q, 1, 0);
    assert r.queue == [1];
    assert Sort([1 as nat]) == [1];
  }

  lemma NothingQueued(q: Sched)
    requires q.Resting() && !q.waiting
    ensures q == EMPTY
  {
    assert q.queue == [];
  }

  lemma CellAdded(h: Heap, c: CellId, v: int)
    ensures var g := AddCell(h, c, v);
      g.cells == h.cells[c := v] && g.prog == h.prog && g.ws == h.ws
  {
  }

  lemma NoneNumbered(h: Heap, uid: nat)
    requires h.ws.Keys == {}
    ensures Numbered(h, uid)
  {
  }

  lemma ReadsCell(h: Heap, c: CellId)
    requires c in h.cells
    ensures WellFormed(h.prog, h.cells.Keys, Cell(c), 0)
  {
  }

  lemma WatchKeeps(h: Heap, g: Heap, w: WatcherId, d: Def)
    requires Watching(h, g, w, d)
    ensures g.cells == h.cells && g.prog == h.prog[w := d] && g.ws.Keys == h.ws.Keys + {w} && w in g.ws && g.ws[w].active
    ensures forall k :: k in h.ws ==> g.ws[k].active == h.ws[k].active
  {
    hide AllActive, Promised, Current;
  }

  lemma Ready(h0: Heap, h2: Heap, h3: Heap, h: Heap)
    requires h0.prog.Keys == {} && h0.cells == map[]
    requires h2.cells == h0.cells[0 := 0][1 := 0] && h2.prog == h0.prog && h2.ws == h0.ws && h0.ws == map[]
    requires h3.cells == h2.cells && h3.prog == h2.prog[1 := Def(Cell(0), false, 0)] && h3.ws.Keys == h2.ws.Keys + {1}
    requires h.cells == h3.cells && h.prog == h3.prog[2 := Def(Cell(1), false, 0)] && h.ws.Keys == h3.ws.Keys + {2}
    requires h3.ws[1].active && h.ws[2].active && forall k :: k in h3.ws ==> h.ws[k].active == h3.ws[k].active
    ensures Playing(h) && h.cells == map[0 := 0, 1 := 0]
  {
    assert h0.prog == map[];
    assert 1 in h3.ws;
  }

  lemma StillNumbered(h: Heap, g: Heap, uid: nat)
    requires Numbered(h, uid) && SameWatchers(h, g)
    ensures Numbered(g, uid)
  {
  }

  // A flush that begins as a rally has not ended.
  lemma RallyEnd(trace: seq<Point>)
    requires Trace(Volley, trace) && Rallying(trace[0])
    ensures var a := trace[|trace| - 1];
      a.q.index < |a.q.queue| && !Breaks(Volley, a) && a.h.prog == Players()
  {
    RallyOn(trace, |trace| - 1);
    hide Next, Steady, Breaks;
  }

  // The flush of such a reactor is still running after any number of turns.
  method PlayForever(fuel: nat) returns (r: Reactor, outcome: Outcome)
    ensures r.callback == Volley && r.h.prog == Players()
    ensures outcome.StillRunning? && |r.log| == fuel
  {
    r := new Reactor(Volley);
    hide *;
    ReactorParts(r);
    ghost var h0 := r.h;
    NothingQueued(r.q);
    SteadyBase(h0, r.q);
    CellAdded(h0, 0, 0);
    r.DefineReactive(0, 0);
    ghost var h1 := r.h;
    CellAdded(h1, 1, 0);
    r.DefineReactive(1, 0);
    ghost var h2 := r.h;
    NoneNumbered(h2, r.uid);
    ReadsCell(h2, 0);
    var first := r.Watch(Cell(0), false, 0);
    ghost var h3 := r.h;
    WatchKeeps(h2, h3, first, Def(Cell(0), false, 0));
    ReadsCell(h3, 1);
    var second := r.Watch(Cell(1), false, 0);
    ghost var h, q := r.h, r.q;
    WatchKeeps(h3, h, second, Def(Cell(1), false, 0));
    Ready(h0, h2, h3, h);
    r.SetCell(0, 1);
    Opening(h, q, r.h, r.q);
    SameProg(h, r.h);
    StillNumbered(h, r.h, r.uid);
    IsReactor(r);
    ghost var trace;
    outcome, trace := r.FlushSchedulerQueue(fuel);
    RallyEnd(trace);
  }
}
