// The scheduler's queue: `queue`, `has`, `circular`, `waiting`, `flushing` and
// `index`, as one value, and the shape the flush loop keeps them in.
module Scheduler {
  import opened Sequences
  import opened Getters

  const MAX_UPDATE_COUNT := 100

  // `has` holds the ids whose entry is not null; `registered` counts the
  // flush callbacks handed to nextTick and not yet started.
  datatype Sched = Sched(queue: seq<WatcherId>, has: set<WatcherId>, circular: map<WatcherId, nat>,
                         waiting: bool, flushing: bool, index: nat, registered: nat)
  {
    // Between flushes.
    ghost predicate Resting() {
      && !flushing && index == 0 && circular == map[]
      && Distinct(queue) && has == Elems(queue)
      && (waiting <==> queue != [])
      && registered == (if waiting then 1 else 0)
    }

    // Inside a flush, from position i of the queue on everything is pending.
    ghost predicate FlushingFrom(i: int) {
      && flushing && waiting && registered == 0
      && 0 <= i <= |queue| && index <= |queue|
      && Increasing(queue[i..]) && has == Elems(queue[i..])
    }

    // While a watcher runs: everything behind it is pending.
    ghost predicate Running() {
      index < |queue| && FlushingFrom(index + 1)
    }
  }

  ghost function Elems(s: seq<WatcherId>): set<WatcherId> {
    set x | x in s
  }

  ghost predicate Increasing(s: seq<WatcherId>) {
    forall i, j :: 0 <= i < j < |s| ==> s[i] < s[j]
  }

  const EMPTY := Sched([], {}, map[], false, false, 0, 0)

  // Array.prototype.sort by id.
  function Insert(x: WatcherId, s: seq<WatcherId>): seq<WatcherId> {
    if s == [] || x <= s[0] then [x] + s else [s[0]] + Insert(x, s[1..])
  }

  function Sort(s: seq<WatcherId>): seq<WatcherId> {
    if s == [] then [] else Insert(s[0], Sort(s[1..]))
  }

  lemma {:induction false} InsertSorted(x: WatcherId, s: seq<WatcherId>)
    requires Increasing(s) && x !in s
    ensures Increasing(Insert(x, s)) && |Insert(x, s)| == |s| + 1
    ensures forall y :: y in Insert(x, s) <==> y == x || y in s
  {
    if s == [] || x <= s[0] {
    } else {
      InsertSorted(x, s[1..]);
      var t := Insert(x, s[1..]);
      assert forall y :: y in t ==> s[0] < y;
      assert forall i :: 0 <= i < |t| ==> s[0] < t[i] by {
        forall i | 0 <= i < |t| ensures s[0] < t[i] {
          assert t[i] in t;
        }
      }
    }
  }

  // Sorting the queue keeps the very same watchers, in order of their ids.
  lemma {:induction false} Sorted(s: seq<WatcherId>)
    requires Distinct(s)
    ensures Increasing(Sort(s)) && |Sort(s)| == |s|
    ensures forall x :: x in Sort(s) <==> x in s
  {
    if s != [] {
      Sorted(s[1..]);
      assert s[0] !in s[1..];
      InsertSorted(s[0], Sort(s[1..]));
    }
  }

  // Where queueWatcher splices a watcher in during a flush: behind the last
  // pending watcher with a smaller id, and never before index + 1.
  ghost predicate SplicePoint(q: Sched, w: WatcherId, p: int) {
    && q.index < p <= |q.queue|
    && (forall j :: p <= j < |q.queue| ==> q.queue[j] > w)
    && (p == q.index + 1 || q.queue[p - 1] <= w)
  }

  lemma SpliceIncreasing(s: seq<WatcherId>, k: nat, w: WatcherId)
    requires Increasing(s) && k <= |s| && (k > 0 ==> s[k - 1] < w) && (k < |s| ==> w < s[k])
    ensures Increasing(s[..k] + [w] + s[k..])
    ensures Elems(s[..k] + [w] + s[k..]) == Elems(s) + {w}
  {
    SpliceOrder(s, k, w);
    SpliceElems(s, k, w);
  }

  lemma SpliceAtIndex(s: seq<WatcherId>, k: nat, w: WatcherId, i: nat)
    requires k <= |s| && i <= |s|
    ensures (s[..k] + [w] + s[k..])[i] == if i < k then s[i] else if i == k then w else s[i - 1]
  {
  }

  lemma SpliceOrder(s: seq<WatcherId>, k: nat, w: WatcherId)
    requires Increasing(s) && k <= |s| && (k > 0 ==> s[k - 1] < w) && (k < |s| ==> w < s[k])
    ensures Increasing(s[..k] + [w] + s[k..])
  {
    var t := s[..k] + [w] + s[k..];
    forall i, j | 0 <= i < j < |t|
      ensures t[i] < t[j]
    {
      SpliceAtIndex(s, k, w, i);
      SpliceAtIndex(s, k, w, j);
    }
  }

  lemma SpliceElems(s: seq<WatcherId>, k: nat, w: WatcherId)
    requires k <= |s|
    ensures Elems(s[..k] + [w] + s[k..]) == Elems(s) + {w}
  {
    var t := s[..k] + [w] + s[k..];
    forall x | x in s
      ensures x in t
    {
      var i :| 0 <= i < |s| && s[i] == x;
      SpliceAtIndex(s, k, w, if i < k then i else i + 1);
    }
    SpliceAtIndex(s, k, w, k);
  }

  lemma SpliceTail<T>(q: seq<T>, n: nat, p: nat, w: T)
    requires n <= p <= |q|
    ensures (q[..p] + [w] + q[p..])[n..] == q[n..][..p - n] + [w] + q[n..][p - n..]
  {
  }

  lemma SpliceKeeps(q: Sched, w: WatcherId, p: int)
    requires q.Running() && w !in q.has && SplicePoint(q, w, p)
    ensures q.(queue := q.queue[..p] + [w] + q.queue[p..], has := q.has + {w}).Running()
  {
    SplicedBetween(q, w, p);
    RunningParts(q);
    assert q.index < p <= |q.queue|;
    hide *;
    SpliceAt(q, w, p, q.queue[..p] + [w] + q.queue[p..]);
  }

  lemma SpliceAt(q: Sched, w: WatcherId, p: int, t: seq<WatcherId>)
    requires q.flushing && q.waiting && q.registered == 0 && 0 <= q.index < p <= |q.queue|
    requires t == q.queue[..p] + [w] + q.queue[p..]
    requires var s, k := q.queue[q.index + 1..], p - (q.index + 1);
      0 <= k <= |s| && (k > 0 ==> s[k - 1] < w) && (k < |s| ==> w < s[k]) && Increasing(s) && q.has == Elems(s)
    ensures q.(queue := t, has := q.has + {w}).Running()
  {
    hide *;
    var n := q.index + 1;
    SpliceTail(q.queue, n, p, w);
    SpliceIncreasing(q.queue[n..], p - n, w);
    IsRunning(q.(queue := t, has := q.has + {w}), t[n..]);
  }

  lemma RunningParts(q: Sched)
    requires q.Running()
    ensures q.flushing && q.waiting && q.registered == 0 && 0 <= q.index < |q.queue|
    ensures Increasing(q.queue[q.index + 1..]) && q.has == Elems(q.queue[q.index + 1..])
  {
  }

  lemma IsRunning(q: Sched, tail: seq<WatcherId>)
    requires q.flushing && q.waiting && q.registered == 0 && 0 <= q.index < |q.queue|
    requires q.queue[q.index + 1..] == tail && Increasing(tail) && q.has == Elems(tail)
    ensures q.Running()
  {
    hide Increasing, Elems;
  }

  lemma SplicedBetween(q: Sched, w: WatcherId, p: int)
    requires q.Running() && w !in q.has && SplicePoint(q, w, p)
    ensures var s, k := q.queue[q.index + 1..], p - (q.index + 1);
      0 <= k <= |s| && (k > 0 ==> s[k - 1] < w) && (k < |s| ==> w < s[k])
  {
    var s, k := q.queue[q.index + 1..], p - (q.index + 1);
    hide Increasing;
    if k > 0 {
      assert s[k - 1] in s;
    }
  }

  lemma PushKeeps(q: Sched, w: WatcherId)
    requires q.Resting() && w !in q.has
    ensures var r := q.(queue := q.queue + [w], has := q.has + {w}, waiting := true, registered := if q.waiting then q.registered else q.registered + 1);
      r.Resting()
  {
  }

  // Taking the next watcher: has[id] = null, then run.
  lemma TakeNext(q: Sched)
    requires q.FlushingFrom(q.index) && q.index < |q.queue|
    ensures q.(has := q.has - {q.queue[q.index]}).Running()
  {
    var s := q.queue[q.index..];
    assert s == [s[0]] + s[1..];
    assert q.queue[q.index + 1..] == s[1..];
    assert s[0] !in s[1..];
  }

  lemma StepOn(q: Sched)
    requires q.Running()
    ensures q.(index := q.index + 1).FlushingFrom(q.index + 1)
  {
  }

  lemma Begin(q: Sched)
    requires q.Resting() && q.waiting
    ensures q.(flushing := true, registered := 0, queue := Sort(q.queue)).FlushingFrom(0)
  {
    Sorted(q.queue);
    assert Sort(q.queue)[0..] == Sort(q.queue);
  }

  // One run of a watcher in a flush, with the ids queueWatcher was called
  // with while it ran.
  datatype Run = Run(id: WatcherId, calls: seq<WatcherId>)

  function Ids(log: seq<Run>): seq<WatcherId> {
    seq(|log|, i requires 0 <= i < |log| => log[i].id)
  }

  // Every run only queues watchers at or above its own id.
  ghost predicate AtOrAbove(log: seq<Run>) {
    forall i, x :: 0 <= i < |log| && x in log[i].calls ==> x >= log[i].id
  }

  ghost predicate NonDecreasing(s: seq<WatcherId>) {
    forall i, j :: 0 <= i < j < |s| ==> s[i] <= s[j]
  }

  ghost function Count(s: seq<WatcherId>, w: WatcherId): nat {
    if s == [] then 0 else Count(s[..|s| - 1], w) + if s[|s| - 1] == w then 1 else 0
  }

  ghost function Circ(q: Sched, w: WatcherId): nat {
    if w in q.circular then q.circular[w] else 0
  }

  // At the loop head: the watchers run so far are in order, nothing pending
  // lies below the last of them, and `circular` counts reruns.
  ghost predicate Orderly(runs: seq<WatcherId>, q: Sched) {
    && NonDecreasing(runs)
    && (runs != [] ==> forall x :: x in q.has ==> x >= runs[|runs| - 1])
    && (forall w: WatcherId :: Count(runs, w) == Circ(q, w) + if w in runs && w !in q.has then 1 else 0)
  }

  lemma {:induction false} Counted(s: seq<WatcherId>, w: WatcherId)
    ensures Count(s, w) > 0 <==> w in s
  {
    if s != [] {
      Counted(s[..|s| - 1], w);
      assert s == s[..|s| - 1] + [s[|s| - 1]];
    }
  }

  // One turn of the flush loop: id is taken, runs, and queues watchers at or
  // above itself; q1 is the queue after its has entry was cleared.
  lemma OrderlyRun(runs: seq<WatcherId>, q: Sched, id: WatcherId, q2: Sched)
    requires Orderly(runs, q) && RerunsCounted(runs, q) && id in q.has && (forall x :: x in q.has ==> x >= id)
    requires q.has - {id} <= q2.has && forall x :: x in q2.has ==> x in q.has || x >= id
    requires q2.circular == if id in q2.has then q.circular[id := Circ(q, id) + 1] else q.circular
    ensures NonDecreasing(runs + [id]) && forall x :: x in q2.has ==> x >= id
    ensures forall w: WatcherId :: Count(runs + [id], w) == Circ(q2, w) + if w in runs + [id] && w !in q2.has then 1 else 0
    ensures forall w: WatcherId :: Count(runs + [id], w) <= 101
  {
    var s := runs + [id];
    assert s[..|s| - 1] == runs;
    if runs != [] {
      assert id >= runs[|runs| - 1];
      assert forall i :: 0 <= i < |runs| ==> runs[i] <= runs[|runs| - 1];
    }
    forall w: WatcherId
      ensures Count(s, w) == Circ(q2, w) + if w in s && w !in q2.has then 1 else 0
      ensures Count(s, w) <= 101
    {
      Counted(runs, w);
      assert Count(s, w) == Count(runs, w) + if id == w then 1 else 0;
      assert w in runs ==> w <= id;
    }
  }

  lemma OrderlyStart(q: Sched)
    requires q.circular == map[]
    ensures Orderly([], q) && RerunsCounted([], q)
  {
  }

  // Few runs of each watcher, few runs in all.
  lemma {:induction false} RunsBounded(s: seq<WatcherId>, ids: set<WatcherId>, most: nat)
    requires forall w :: w in s ==> w in ids
    requires forall w: WatcherId :: Count(s, w) <= most
    ensures |s| <= most * |ids|
    decreases ids
  {
    if s != [] {
      var w := s[|s| - 1];
      Without(s, w);
      var t := Filtered(s, w);
      forall x: WatcherId ensures Count(t, x) <= most {
        FilteredCount(s, w, x);
      }
      RunsBounded(t, ids - {w}, most);
      assert |ids| == |ids - {w}| + 1;
      assert most * |ids| == most * |ids - {w}| + most;
    }
  }

  ghost function Filtered(s: seq<WatcherId>, w: WatcherId): seq<WatcherId> {
    if s == [] then [] else Filtered(s[..|s| - 1], w) + if s[|s| - 1] == w then [] else [s[|s| - 1]]
  }

  lemma {:induction false} Without(s: seq<WatcherId>, w: WatcherId)
    ensures |Filtered(s, w)| + Count(s, w) == |s|
    ensures forall x :: x in Filtered(s, w) ==> x in s && x != w
  {
    if s != [] {
      Without(s[..|s| - 1], w);
      assert s == s[..|s| - 1] + [s[|s| - 1]];
    }
  }

  lemma {:induction false} FilteredCount(s: seq<WatcherId>, w: WatcherId, x: WatcherId)
    ensures Count(Filtered(s, w), x) == if x == w then 0 else Count(s, x)
  {
    if s != [] {
      var p, l := s[..|s| - 1], s[|s| - 1];
      FilteredCount(p, w, x);
      if l == w {
        assert Filtered(s, w) == Filtered(p, w);
      } else {
        var t := Filtered(p, w) + [l];
        assert t[..|t| - 1] == Filtered(p, w);
      }
    }
  }

  // What code outside the flush loop itself may do to the queue, with the log
  // of the run it happens in: only add watchers behind the current one.
  ghost predicate Grows(q0: Sched, log0: seq<Run>, q1: Sched, log1: seq<Run>) {
    && (q0.Resting() ==> q1.Resting() && log1 == log0)
    && (q0.Running() ==>
      && q1.Running() && q1.index == q0.index && q1.queue[..q0.index + 1] == q0.queue[..q0.index + 1]
      && q1.circular == q0.circular && Extended(q0.has, log0, q1.has, log1))
    && q0.has <= q1.has
  }

  ghost predicate Extended(has0: set<WatcherId>, log0: seq<Run>, has1: set<WatcherId>, log1: seq<Run>) {
    && |log0| > 0 && |log1| == |log0| && log1[..|log0| - 1] == log0[..|log0| - 1]
    && var r0, r1 := log0[|log0| - 1], log1[|log0| - 1];
      && r1.id == r0.id
      && (forall x :: x in r0.calls ==> x in r1.calls)
      && (forall x :: x in has1 ==> x in has0 || x in r1.calls)
  }

  lemma GrowsSelf(q: Sched, log: seq<Run>)
    requires q.Running() ==> |log| > 0
    ensures Grows(q, log, q, log)
  {
  }

  lemma GrowsTrans(q0: Sched, log0: seq<Run>, q1: Sched, log1: seq<Run>, q2: Sched, log2: seq<Run>)
    requires Grows(q0, log0, q1, log1) && Grows(q1, log1, q2, log2)
    ensures Grows(q0, log0, q2, log2)
  {
    hide Increasing, Elems, Distinct;
  }

  // queueWatcher, as a whole: the log gains a call, the queue a watcher.
  function Call(log: seq<Run>, w: WatcherId): seq<Run> {
    if log == [] then [] else log[|log| - 1 := log[|log| - 1].(calls := log[|log| - 1].calls + [w])]
  }

  lemma GrowsPush(q: Sched, log: seq<Run>, w: WatcherId)
    requires q.Resting() && w !in q.has
    ensures var r := q.(queue := q.queue + [w], has := q.has + {w}, waiting := true,
                        registered := if q.waiting then q.registered else q.registered + 1);
      Grows(q, log, r, log)
  {
    PushKeeps(q, w);
    hide Increasing, Elems, Distinct;
  }

  lemma GrowsSplice(q: Sched, log: seq<Run>, w: WatcherId, p: int)
    requires q.Running() && w !in q.has && SplicePoint(q, w, p) && |log| > 0
    ensures Grows(q, log, q.(queue := q.queue[..p] + [w] + q.queue[p..], has := q.has + {w}), Call(log, w))
  {
    SpliceKeeps(q, w, p);
    hide Increasing, Elems, Distinct;
  }

  lemma GrowsAgain(q: Sched, log: seq<Run>, w: WatcherId)
    requires q.Running() && w in q.has && |log| > 0
    ensures Grows(q, log, q, Call(log, w))
  {
    hide Increasing, Elems, Distinct;
  }

  // The flush loop's head: everything from index on is pending, and the log
  // names what ran before it.
  ghost predicate Head(q: Sched, log: seq<Run>) {
    && q.FlushingFrom(q.index)
    && |log| == q.index && Ids(log) == q.queue[..q.index]
    && (AtOrAbove(log) ==> Orderly(Ids(log), q))
    && RerunsCounted(Ids(log), q)
  }

  // `circular` never counts more reruns than there were runs, and the loop
  // has not given up.
  ghost predicate RerunsCounted(runs: seq<WatcherId>, q: Sched) {
    forall w: WatcherId :: Circ(q, w) <= Count(runs, w) && Circ(q, w) <= 100
  }

  lemma RerunCounted(runs: seq<WatcherId>, q: Sched, id: WatcherId, q2: Sched)
    requires RerunsCounted(runs, q) && q2.circular == q.circular
    ensures Circ(Recount(q2, id), id) <= Count(runs + [id], id)
    ensures id !in q2.has ==> Circ(Recount(q2, id), id) <= 100
    ensures Circ(Recount(q2, id), id) <= 100 ==> RerunsCounted(runs + [id], Recount(q2, id))
  {
    var s := runs + [id];
    assert s[..|s| - 1] == runs;
    assert forall w: WatcherId :: Circ(q2, w) == Circ(q, w);
    assert forall w: WatcherId :: Count(s, w) == Count(runs, w) + if w == id then 1 else 0;
  }

  lemma HeadStart(q: Sched)
    requires q.Resting() && q.waiting
    ensures var r := q.(flushing := true, registered := 0, queue := Sort(q.queue), index := 0);
      && Head(r, []) && r.has == q.has && forall x :: x in r.queue ==> x in q.queue
  {
    Begin(q);
    Sorted(q.queue);
    OrderlyStart(q.(flushing := true, registered := 0, queue := Sort(q.queue), index := 0));
    assert AtOrAbove([]) && Ids([]) == [];
  }

  // `has[id] = null` and the watcher is about to run.
  lemma HeadTake(q: Sched, log: seq<Run>)
    requires Head(q, log) && q.index < |q.queue|
    ensures var id := q.queue[q.index];
      && id in q.has && (forall x :: x in q.has ==> x >= id)
      && q.(has := q.has - {id}).Running()
  {
    TakeNext(q);
    var s := q.queue[q.index..];
    assert s[0] in s;
    forall x | x in s ensures x >= s[0] {
      var i :| 0 <= i < |s| && s[i] == x;
    }
  }

  // q after the run of id, its circular entry updated as the loop does.
  function Recount(q: Sched, id: WatcherId): Sched {
    if id in q.has then q.(circular := q.circular[id := (if id in q.circular then q.circular[id] else 0) + 1]) else q
  }

  lemma LogTurn(log: seq<Run>, id: WatcherId, has1: set<WatcherId>, has2: set<WatcherId>, log2: seq<Run>)
    requires Extended(has1, log + [Run(id, [])], has2, log2)
    ensures |log2| == |log| + 1 && log2[..|log|] == log && log2[|log|].id == id
    ensures Ids(log2) == Ids(log) + [id]
    ensures AtOrAbove(log2) ==> AtOrAbove(log) && forall x :: x in has2 ==> x in has1 || x >= id
  {
    var log1 := log + [Run(id, [])];
    assert |log2| == |log| + 1 && log1[..|log1| - 1] == log;
    assert forall i :: 0 <= i < |log| ==> log2[i] == log2[..|log|][i];
    if AtOrAbove(log2) {
      assert forall x :: x in log2[|log|].calls ==> x >= id;
    }
  }

  lemma HeadTurn(q: Sched, log: seq<Run>, q2: Sched, log2: seq<Run>)
    requires Head(q, log) && 0 <= q.index < |q.queue|
    requires var id := q.queue[q.index];
      Grows(q.(has := q.has - {id}), log + [Run(id, [])], q2, log2)
    ensures var id := q.queue[q.index];
      var q3 := Recount(q2, id);
      && Ids(log2) == Ids(log) + [id] && |log2| == |log| + 1 && log2[..|log|] == log && log2[|log|].id == id
      && q2.index == q.index
      && (AtOrAbove(log2) ==>
        && NonDecreasing(Ids(log2))
        && forall w: WatcherId :: Count(Ids(log2), w) <= 101)
      && Circ(q3, id) <= Count(Ids(log2), id) && (id !in q2.has ==> Circ(q3, id) <= 100)
      && (Circ(q3, id) <= 100 ==> Head(q3.(index := q3.index + 1), log2))
  {
    hide *;
    HeadParts(q, log);
    var id := q.queue[q.index];
    HeadTake(q, log);
    var q1 := q.(has := q.has - {id});
    var q3 := Recount(q2, id);
    TurnQueue(q1, log + [Run(id, [])], q2, log2);
    LogTurn(log, id, q1.has, q2.has, log2);
    RerunCounted(Ids(log), q, id, q2);
    RecountIs(q, q2, id);
    if AtOrAbove(log2) {
      OrderlyRun(Ids(log), q, id, q3);
      OrderlyNext(Ids(log), q, id, q3);
    }
    if Circ(q3, id) <= 100 {
      PrefixSnoc(q.queue, q.index, q2.queue);
      HeadNext(q3, log2);
    }
  }

  lemma PrefixSnoc(s: seq<WatcherId>, i: nat, t: seq<WatcherId>)
    requires i < |s| && i < |t| && t[..i + 1] == s[..i + 1]
    ensures t[..i + 1] == s[..i] + [s[i]]
  {
  }

  lemma HeadParts(q: Sched, log: seq<Run>)
    requires Head(q, log)
    ensures 0 <= q.index <= |q.queue| && |log| == q.index && Ids(log) == q.queue[..q.index]
    ensures RerunsCounted(Ids(log), q) && (AtOrAbove(log) ==> Orderly(Ids(log), q))
  {
    hide RerunsCounted, Orderly, Increasing;
  }

  lemma RecountIs(q: Sched, q2: Sched, id: WatcherId)
    requires q2.circular == q.circular
    ensures var q3 := Recount(q2, id);
      && q3.has == q2.has && q3.queue == q2.queue && q3.index == q2.index
      && q3.circular == if id in q3.has then q.circular[id := Circ(q, id) + 1] else q.circular
  {
  }

  lemma HeadNext(q: Sched, log: seq<Run>)
    requires q.Running() && |log| == q.index + 1 && Ids(log) == q.queue[..q.index + 1]
    requires RerunsCounted(Ids(log), q) && (AtOrAbove(log) ==> Orderly(Ids(log), q.(index := q.index + 1)))
    ensures Head(q.(index := q.index + 1), log)
  {
    StepOn(q);
    var r := q.(index := q.index + 1);
    assert forall w: WatcherId :: Circ(r, w) == Circ(q, w);
    hide Orderly, Increasing, Sched.Running;
  }

  lemma TurnQueue(q1: Sched, log1: seq<Run>, q2: Sched, log2: seq<Run>)
    requires q1.Running() && Grows(q1, log1, q2, log2) && 0 <= q1.index < |q1.queue|
    ensures q1.index < |q2.queue| && Extended(q1.has, log1, q2.has, log2)
    ensures q2.Running() && q2.index == q1.index && q2.queue[..q1.index + 1] == q1.queue[..q1.index + 1]
    ensures q2.circular == q1.circular && q1.has <= q2.has && Recount(q2, q1.queue[q1.index]).Running()
  {
    hide Increasing, Elems;
  }

  lemma OrderlyNext(runs: seq<WatcherId>, q: Sched, id: WatcherId, q3: Sched)
    requires Orderly(runs, q) && NonDecreasing(runs + [id]) && forall x :: x in q3.has ==> x >= id
    requires forall w: WatcherId :: Count(runs + [id], w) == Circ(q3, w) + if w in runs + [id] && w !in q3.has then 1 else 0
    ensures Orderly(runs + [id], q3.(index := q3.index + 1))
  {
    hide NonDecreasing, Count;
    var r := q3.(index := q3.index + 1);
    assert forall w: WatcherId :: Circ(r, w) == Circ(q3, w);
  }

  lemma HeadBound(q: Sched, log: seq<Run>, ids: set<WatcherId>)
    requires Head(q, log) && AtOrAbove(log) && forall x :: x in q.queue ==> x in ids
    ensures NonDecreasing(Ids(log)) && forall w: WatcherId :: Count(Ids(log), w) <= 101
    ensures |log| <= 101 * |ids|
  {
    assert forall x :: x in Ids(log) ==> x in q.queue;
    RunsBounded(Ids(log), ids, 101);
  }

  // ----- queueWatcher as a function

  // Where the loop of queueWatcher stops, counting down from i.
  function SpliceIndex(queue: seq<WatcherId>, index: nat, i: int, w: WatcherId): (p: nat)
    requires index <= i < |queue|
    ensures index < p <= i + 1
    decreases i
  {
    if i > index && queue[i] > w then SpliceIndex(queue, index, i - 1, w) else i + 1
  }

  lemma {:induction false} SpliceIndexIs(q: Sched, i: int, w: WatcherId)
    requires q.index <= i < |q.queue| && (forall j :: i < j < |q.queue| ==> q.queue[j] > w)
    ensures SplicePoint(q, w, SpliceIndex(q.queue, q.index, i, w))
    decreases i
  {
    if i > q.index && q.queue[i] > w {
      SpliceIndexIs(q, i - 1, w);
    }
  }

  lemma SplicePointUnique(q: Sched, w: WatcherId, p: int, r: int)
    requires SplicePoint(q, w, p) && SplicePoint(q, w, r)
    ensures p == r
  {
  }

  // While a flush runs there is a current watcher at index.
  function QueuedIn(q: Sched, w: WatcherId): Sched {
    if w in q.has then q
    else
      var p := if q.flushing && q.index < |q.queue| then SpliceIndex(q.queue, q.index, |q.queue| - 1, w) else |q.queue|;
      var r := q.(queue := q.queue[..p] + [w] + q.queue[p..], has := q.has + {w});
      if r.waiting then r else r.(waiting := true, registered := r.registered + 1)
  }

  lemma QueuedInIs(q: Sched, w: WatcherId, p: int)
    requires w !in q.has && (q.flushing ==> SplicePoint(q, w, p)) && (!q.flushing ==> p == |q.queue|)
    ensures 0 <= p <= |q.queue|
    ensures var r := q.(queue := q.queue[..p] + [w] + q.queue[p..], has := q.has + {w});
      QueuedIn(q, w) == if r.waiting then r else r.(waiting := true, registered := r.registered + 1)
    ensures p == |q.queue| ==> q.queue[..p] + [w] + q.queue[p..] == q.queue + [w]
  {
    if q.flushing {
      SpliceIndexIs(q, |q.queue| - 1, w);
      SplicePointUnique(q, w, p, SpliceIndex(q.queue, q.index, |q.queue| - 1, w));
    }
  }
}
