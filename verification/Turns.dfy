// What one turn of the flush loop does to the heap and the queue, and traces
// of turns.
module Turns {
  import opened Sequences
  import opened Getters
  import opened Subscriptions
  import opened Scheduler
  import opened Consistency

  // What a watcher's callback does, in terms of this runtime.
  datatype Effect =
    | SetCell(c: CellId, v: int)
    | Teardown(w: WatcherId)
    | ReadComputed(k: WatcherId)
    | NewCell(c: CellId, v: int)
    | NewWatcher(getter: Expr, lazy: bool, level: nat)

  type Callback = (WatcherId, int, Option<int>, Cells) -> seq<Effect>

  ghost predicate QueueKnown(h: Heap, q: Sched) {
    forall w :: w in q.queue ==> w in h.ws && w in h.prog && !h.prog[w].lazy
  }

  // Between evaluations: subscriptions, caches and the queue agree with the
  // cells, up to the notifications of `rest` still to be delivered.
  ghost predicate Steady(h: Heap, q: Sched, rest: set<WatcherId>) {
    Stable(h, q.has, rest) && QueueKnown(h, q)
  }

  // The queue after the subscribers have been told in turn.
  function Enqueued(p: Prog, q: Sched, subs: seq<WatcherId>): Sched {
    if subs == [] then q
    else
      var r, w := Enqueued(p, q, subs[..|subs| - 1]), subs[|subs| - 1];
      if w in p && !p[w].lazy then QueuedIn(r, w) else r
  }

  // reactiveSetter does something only for a new value.
  predicate Changes(h: Heap, c: CellId, v: int) {
    c in h.cells && c in h.subs && h.cells[c] != v
  }

  // g is h with the new watcher w: dirty if it is a computed property,
  // current otherwise, unless it reads something torn down.
  ghost predicate Watching(h: Heap, g: Heap, w: WatcherId, d: Def) {
    && g.cells == h.cells && g.subs.Keys == h.subs.Keys && g.prog == h.prog[w := d]
    && g.ws.Keys == h.ws.Keys + {w} && w !in h.ws
    && w in g.ws && w in g.prog && g.ws[w].active && g.ws[w].dirty == d.lazy
    && (forall k :: k in h.ws ==> g.ws[k].active == h.ws[k].active)
    && (!d.lazy && AllActive(h, d.getter, d.level) ==> Promised(g, w) && Current(g, w))
  }

  ghost predicate Did(h: Heap, q: Sched, e: Effect, g: Heap, r: Sched) {
    match e
    case SetCell(c, v) =>
      g == Wrote(h, c, v) && r == if Changes(h, c, v) then Enqueued(h.prog, q, h.subs[c]) else q
    case Teardown(w) =>
      r == q && g == if w in h.ws && h.ws[w].active then TornDown(h, w) else h
    case ReadComputed(k) =>
      r == q && if k in h.prog && h.prog[k].lazy then h.ws.Keys == h.prog.Keys && Evaluated(h, g) else g == h
    case NewCell(c, v) =>
      r == q && g == if c in h.cells then h else AddCell(h, c, v)
    case NewWatcher(getter, lazy, level) =>
      r == q && if WellFormed(h.prog, h.cells.Keys, getter, level)
                then exists w: WatcherId :: Watching(h, g, w, Def(getter, lazy, level)) else g == h
  }

  ghost predicate DidAll(h: Heap, q: Sched, es: seq<Effect>, g: Heap, r: Sched)
    decreases |es|, 0
  {
    if es == [] then g == h && r == q else DidThen(h, q, es[..|es| - 1], es[|es| - 1], g, r)
  }

  ghost predicate DidThen(h: Heap, q: Sched, before: seq<Effect>, e: Effect, g: Heap, r: Sched)
    decreases |before|, 1
  {
    exists m: Heap, s: Sched :: DidAll(h, q, before, m, s) && Did(m, s, e, g, r)
  }

  // The result of get, in terms of the heap it started from.
  ghost predicate GetMeets(h: Heap, w: WatcherId, v: int, g: Heap)
    requires w in h.prog && w in g.ws
  {
    var d := h.prog[w];
    AllActive(h, d.getter, d.level) ==>
      v == Val(h.prog, h.cells, d.getter, d.level) && g.ws[w].depIds == Touch(h.prog, h.cells, d.getter, d.level)
  }

  // get of w gave v and left g.
  ghost predicate Got(h: Heap, w: WatcherId, v: int, g: Heap) {
    && h.ws.Keys == h.prog.Keys && w in h.ws && Good(g) && Ran(h, g, w) && w in g.ws && GetMeets(h, w, v, g)
  }

  // Watcher.run: get, and if the value is new, store it and call back.
  ghost predicate RunDid(callback: Callback, h: Heap, q: Sched, w: WatcherId, g: Heap, r: Sched) {
    w in h.ws &&
    if !h.ws[w].active then g == h && r == q
    else exists v: int, m: Heap :: Got(h, w, v, m) && Stored(callback, m, q, w, v, g, r)
  }

  ghost predicate Stored(callback: Callback, m: Heap, q: Sched, w: WatcherId, v: int, g: Heap, r: Sched) {
    w in m.ws &&
    if m.ws[w].value == Some(v) then g == m && r == q
    else DidAll(SetValue(m, w, v), q, callback(w, v, m.ws[w].value, m.cells), g, r)
  }

  // The callback is called exactly if the value computed from scratch is not
  // the one stored before; it is given both, and sees the new one stored.
  lemma RunCalls(callback: Callback, h: Heap, q: Sched, w: WatcherId, g: Heap, r: Sched)
    requires RunDid(callback, h, q, w, g, r) && w in h.prog && h.ws[w].active
    requires AllActive(h, h.prog[w].getter, h.prog[w].level)
    ensures var v := Val(h.prog, h.cells, h.prog[w].getter, h.prog[w].level);
            if h.ws[w].value == Some(v) then
              g.cells == h.cells && g.prog == h.prog && r == q && w in g.ws && g.ws[w].value == Some(v)
            else
              exists m: Heap ::
                && m.cells == h.cells && m.prog == h.prog && m.ws.Keys == h.ws.Keys && m.ws[w].value == Some(v)
                && DidAll(m, q, callback(w, v, h.ws[w].value, h.cells), g, r)
  {
    hide AllActive, Val, Touch, Good, DidAll, EvalStep;
    var v: int, m: Heap :| Got(h, w, v, m) && Stored(callback, m, q, w, v, g, r);
    var n := SetValue(m, w, v);
    assert n.cells == h.cells && n.prog == h.prog && n.ws.Keys == h.ws.Keys && n.ws[w].value == Some(v);
  }

  // What a cell holds in the end.
  function LastSet(es: seq<Effect>, c: CellId, v: int): int {
    if es == [] then v
    else
      var e := es[|es| - 1];
      if e.SetCell? && e.c == c then e.v else LastSet(es[..|es| - 1], c, v)
  }

  // What a callback does has been done afterwards: every cell holds what it was
  // set to last, exactly the watchers that were torn down are inactive, and new
  // cells are there.
  lemma {:induction false} EffectsDone(h: Heap, q: Sched, es: seq<Effect>, g: Heap, r: Sched)
    requires DidAll(h, q, es, g, r) && h.subs.Keys == h.cells.Keys
    ensures g.subs.Keys == g.cells.Keys && h.cells.Keys <= g.cells.Keys && h.ws.Keys <= g.ws.Keys
    ensures forall c :: c in h.cells ==> g.cells[c] == LastSet(es, c, h.cells[c])
    ensures forall w :: w in h.ws ==> (g.ws[w].active <==> h.ws[w].active && Teardown(w) !in es)
    ensures forall i :: 0 <= i < |es| && es[i].NewCell? ==> es[i].c in g.cells
    decreases |es|
  {
    if es != [] {
      var before, e := es[..|es| - 1], es[|es| - 1];
      assert DidThen(h, q, before, e, g, r);
      var m: Heap, s: Sched :| DidAll(h, q, before, m, s) && Did(m, s, e, g, r);
      EffectsDone(h, q, before, m, s);
      hide DidAll, DidThen, Did;
      assert es == before + [e];
      EffectDone(m, s, e, g, r);
    }
  }

  lemma EffectDone(h: Heap, q: Sched, e: Effect, g: Heap, r: Sched)
    requires Did(h, q, e, g, r) && h.subs.Keys == h.cells.Keys
    ensures g.subs.Keys == g.cells.Keys && h.cells.Keys <= g.cells.Keys && h.ws.Keys <= g.ws.Keys
    ensures forall c :: c in h.cells ==> g.cells[c] == if e.SetCell? && e.c == c then e.v else h.cells[c]
    ensures forall w :: w in h.ws ==> (g.ws[w].active <==> h.ws[w].active && e != Teardown(w))
    ensures e.NewCell? ==> e.c in g.cells
  {
    if e.SetCell? && Changes(h, e.c, e.v) {
      ToldAll(Write(h, e.c, e.v), h.subs[e.c]);
    }
  }

  // Telling subscribers writes no cell and tears nothing down.
  lemma {:induction false} ToldAll(h: Heap, subs: seq<WatcherId>)
    ensures var g := Notified(h, subs);
            g.cells == h.cells && g.subs == h.subs && g.ws.Keys == h.ws.Keys &&
            forall w :: w in h.ws ==> g.ws[w].active == h.ws[w].active
  {
    if subs != [] {
      ToldAll(h, subs[..|subs| - 1]);
    }
  }

  // ----- traces of the flush loop

  // A state at the head of the loop.
  datatype Point = Point(h: Heap, q: Sched)

  // has[id] = null
  function Taken(q: Sched): Sched {
    if q.index < |q.queue| then q.(has := q.has - {q.queue[q.index]}) else q
  }

  // One turn that does not end in the break.
  ghost predicate Next(callback: Callback, a: Point, b: Point) {
    a.q.index < |a.q.queue| &&
    var id := a.q.queue[a.q.index];
    exists r: Sched :: RunDid(callback, a.h, Taken(a.q), id, b.h, r) && Passed(r, id, b.q)
  }

  ghost predicate Passed(r: Sched, id: WatcherId, q: Sched) {
    Circ(Recount(r, id), id) <= 100 && q == Recount(r, id).(index := r.index + 1)
  }

  // One turn that does.
  ghost predicate Breaks(callback: Callback, a: Point) {
    a.q.index < |a.q.queue| &&
    var id := a.q.queue[a.q.index];
    exists g: Heap, r: Sched :: RunDid(callback, a.h, Taken(a.q), id, g, r) && Circ(Recount(r, id), id) > 100
  }

  ghost predicate Trace(callback: Callback, points: seq<Point>) {
    && |points| > 0
    && (forall i :: 0 <= i < |points| ==> Steady(points[i].h, points[i].q, {}))
    && (forall i :: 0 <= i < |points| - 1 ==> Next(callback, points[i], points[i + 1]))
  }

  lemma TraceStart(callback: Callback, a: Point)
    requires Steady(a.h, a.q, {})
    ensures Trace(callback, [a])
  {
  }

  lemma TraceNext(callback: Callback, points: seq<Point>, b: Point)
    requires Trace(callback, points) && Next(callback, points[|points| - 1], b) && Steady(b.h, b.q, {})
    ensures Trace(callback, points + [b])
  {
    hide Next, Steady;
    var all := points + [b];
    forall i | 0 <= i < |all|
      ensures Steady(all[i].h, all[i].q, {})
      ensures i < |all| - 1 ==> Next(callback, all[i], all[i + 1])
    {
      if i < |points| {
        assert all[i] == points[i];
        if i < |points| - 1 {
          assert all[i + 1] == points[i + 1];
        }
      }
    }
  }

  // ----- who can be queued by writing what

  // The watchers that are run by the scheduler.
  ghost function Plain(p: Prog): set<WatcherId> {
    set w | w in p && !p[w].lazy
  }

  ghost predicate Writes(es: seq<Effect>, cells: set<CellId>) {
    exists i :: 0 <= i < |es| && es[i].SetCell? && es[i].c in cells
  }

  // The effects write a cell that the getter of some watcher below w can
  // mention, directly or through computed properties.
  ghost predicate Forward(p: Prog, w: WatcherId, es: seq<Effect>) {
    forall x :: x in p && !p[x].lazy && Writes(es, MentionsOf(p, x)) ==> x >= w
  }

  // The effects create computed properties at most.
  ghost predicate Quiet(es: seq<Effect>) {
    forall i :: 0 <= i < |es| && es[i].NewWatcher? ==> es[i].lazy
  }

  // What a caller can check of the getters and callbacks before a flush: no
  // callback writes what a watcher with a smaller id can read, and none
  // creates a watcher that the scheduler would run.
  ghost predicate Tame(p: Prog, callback: Callback) {
    forall w: WatcherId, v: int, old_: Option<int>, cells: Cells ::
      Forward(p, w, callback(w, v, old_, cells)) && Quiet(callback(w, v, old_, cells))
  }

  // Cells may have changed, watchers may be gone, cells and watchers may be
  // new.
  ghost predicate OnlyAdds(h: Heap, g: Heap) {
    && (forall k :: k in h.prog ==> k in g.prog && g.prog[k] == h.prog[k])
    && h.cells.Keys <= g.cells.Keys && h.ws.Keys <= g.ws.Keys
  }

  lemma OnlyAddsSelf(h: Heap)
    ensures OnlyAdds(h, h)
  {
  }

  lemma OnlyAddsTrans(h0: Heap, h1: Heap, h2: Heap)
    requires OnlyAdds(h0, h1) && OnlyAdds(h1, h2)
    ensures OnlyAdds(h0, h2)
  {
  }

  // Mentions of a getter do not change when watchers are added.
  lemma SameMentions(h: Heap, g: Heap, w: WatcherId)
    requires Base(h) && OnlyAdds(h, g) && w in h.prog
    ensures w in g.prog && MentionsOf(g.prog, w) == MentionsOf(h.prog, w)
  {
    hide Tidy;
    ExtendsMentions(h.prog, g.prog, h.cells.Keys, h.prog[w].getter, h.prog[w].level);
  }

  // The condition is not lost during a flush.
  lemma StaysTame(h: Heap, g: Heap, callback: Callback)
    requires Base(h) && OnlyAdds(h, g) && Plain(g.prog) == Plain(h.prog) && Tame(h.prog, callback)
    ensures Tame(g.prog, callback)
  {
    forall w: WatcherId, v: int, old_: Option<int>, cells: Cells
      ensures Forward(g.prog, w, callback(w, v, old_, cells)) && Quiet(callback(w, v, old_, cells))
    {
      StaysForward(h, g, w, callback(w, v, old_, cells));
    }
  }

  lemma StaysForward(h: Heap, g: Heap, w: WatcherId, es: seq<Effect>)
    requires Base(h) && OnlyAdds(h, g) && Plain(g.prog) == Plain(h.prog) && Forward(h.prog, w, es)
    ensures Forward(g.prog, w, es)
  {
    hide Base, Writes;
    forall x | x in g.prog && !g.prog[x].lazy && Writes(es, MentionsOf(g.prog, x))
      ensures x >= w
    {
      assert x in Plain(g.prog);
      SameMentions(h, g, x);
    }
  }

  // ----- the calls of queueWatcher in the run that is going on

  ghost function LastCalls(log: seq<Run>): set<WatcherId> {
    if log == [] then {} else ToSet(log[|log| - 1].calls)
  }

  lemma CallCalls(log: seq<Run>, w: WatcherId)
    ensures LastCalls(Call(log, w)) <= LastCalls(log) + {w}
  {
  }

  // From log0 to log1, queueWatcher was called for watchers that can mention
  // a cell that the effects write, and for no others.
  ghost predicate CallsFrom(log0: seq<Run>, log1: seq<Run>, p: Prog, es: seq<Effect>) {
    forall x :: x in LastCalls(log1) ==>
      x in LastCalls(log0) || (x in p && !p[x].lazy && Writes(es, MentionsOf(p, x)))
  }

  lemma CallsNone(log: seq<Run>, p: Prog, es: seq<Effect>)
    ensures CallsFrom(log, log, p, es)
  {
  }

  lemma WritesMore(es: seq<Effect>, i: nat, cells: set<CellId>)
    requires i < |es|
    ensures Writes(es[..i + 1], cells) <==> Writes(es[..i], cells) || Writes([es[i]], cells)
  {
    if Writes(es[..i + 1], cells) {
      var j :| 0 <= j < i + 1 && es[j].SetCell? && es[j].c in cells;
      if j < i {
        assert es[..i][j] == es[j];
      } else {
        assert [es[i]][0] == es[j];
      }
    }
    if Writes(es[..i], cells) {
      var j :| 0 <= j < i && es[..i][j].SetCell? && es[..i][j].c in cells;
      assert es[..i + 1][j] == es[j];
    }
    if Writes([es[i]], cells) {
      assert es[..i + 1][i] == es[i] == [es[i]][0];
    }
  }

  lemma CallsMore(h: Heap, g: Heap, log0: seq<Run>, log1: seq<Run>, log2: seq<Run>, es: seq<Effect>, i: nat)
    requires i < |es| && Base(h) && OnlyAdds(h, g)
    requires CallsFrom(log0, log1, h.prog, es[..i]) && CallsFrom(log1, log2, g.prog, [es[i]])
    ensures CallsFrom(log0, log2, g.prog, es[..i + 1])
  {
    hide Base, Writes, LastCalls;
    forall x | x in LastCalls(log2)
      ensures x in LastCalls(log0) || (x in g.prog && !g.prog[x].lazy && Writes(es[..i + 1], MentionsOf(g.prog, x)))
    {
      if x in LastCalls(log1) && x !in LastCalls(log0) {
        SameMentions(h, g, x);
      }
      if x in g.prog {
        WritesMore(es, i, MentionsOf(g.prog, x));
      }
    }
  }

  lemma DidNone(h: Heap, q: Sched, es: seq<Effect>)
    ensures DidAll(h, q, es[..0], h, q)
  {
  }

  lemma DidMore(h: Heap, q: Sched, es: seq<Effect>, i: nat, m: Heap, s: Sched, g: Heap, r: Sched)
    requires i < |es| && DidAll(h, q, es[..i], m, s) && Did(m, s, es[i], g, r)
    ensures DidAll(h, q, es[..i + 1], g, r)
  {
    hide Did;
    assert es[..i + 1][..i] == es[..i];
    assert DidThen(h, q, es[..i], es[i], g, r);
  }

  // Effects that create computed properties at most leave the scheduler's
  // watchers as they are.
  ghost predicate PlainKept(h: Heap, g: Heap, es: seq<Effect>) {
    Quiet(es) ==> Plain(g.prog) == Plain(h.prog)
  }

  lemma PlainMore(h: Heap, m: Heap, g: Heap, es: seq<Effect>, i: nat)
    requires i < |es| && PlainKept(h, m, es[..i]) && PlainKept(m, g, [es[i]])
    ensures PlainKept(h, g, es[..i + 1])
  {
    hide Plain;
    if Quiet(es[..i + 1]) {
      assert forall j :: 0 <= j < i ==> es[..i][j] == es[..i + 1][j];
      assert [es[i]][0] == es[..i + 1][i];
    }
  }

  // In a run of w that starts with no calls, everything that is queued has
  // an id at or above that of w.
  lemma TameCalls(h: Heap, g: Heap, w: WatcherId, log0: seq<Run>, log1: seq<Run>, es: seq<Effect>)
    requires Base(h) && OnlyAdds(h, g) && Plain(g.prog) == Plain(h.prog)
    requires Forward(h.prog, w, es) && CallsFrom(log0, log1, g.prog, es)
    ensures forall x :: x in LastCalls(log1) ==> x in LastCalls(log0) || x >= w
  {
    hide Base, LastCalls, Writes, Plain;
    StaysForward(h, g, w, es);
  }
}
