// nextTick: callbacks that run once, in order, in the turn of one timer.
module NextTick {

  // A callback, given by what it does in turn when it is called. The flush
  // of the scheduler's queue is a callback of its own kind.
  datatype Callback = User(id: nat, effects: seq<Effect>) | SchedulerFlush(effects: seq<Effect>)

  // Call nextTick, or queue a watcher, which asks for a flush.
  datatype Effect = Tick(cb: Callback) | QueueWatcher(flush: seq<Effect>)

  function Flushes(cbs: seq<Callback>): nat {
    if cbs == [] then 0 else Flushes(cbs[..|cbs| - 1]) + if cbs[|cbs| - 1].SchedulerFlush? then 1 else 0
  }

  lemma {:induction false} FlushesConcat(a: seq<Callback>, b: seq<Callback>)
    ensures Flushes(a + b) == Flushes(a) + Flushes(b)
  {
    if b == [] {
      assert a + b == a;
    } else {
      FlushesConcat(a, b[..|b| - 1]);
      assert (a + b)[..|a + b| - 1] == a + b[..|b| - 1];
    }
  }

  lemma FlushesFirst(cb: Callback, tail: seq<Callback>, callbacks: seq<Callback>)
    ensures Flushes([cb] + tail + callbacks) == (if cb.SchedulerFlush? then 1 else 0) + Flushes(tail + callbacks)
  {
    assert [cb] + tail + callbacks == [cb] + (tail + callbacks);
    FlushesConcat([cb], tail + callbacks);
    assert [cb][..0] == [];
  }

  lemma FlushesMore(rest: seq<Callback>, callbacks: seq<Callback>, cb: Callback)
    ensures Flushes(rest + (callbacks + [cb])) == Flushes(rest + callbacks) + if cb.SchedulerFlush? then 1 else 0
  {
    assert rest + (callbacks + [cb]) == (rest + callbacks) + [cb];
    assert ((rest + callbacks) + [cb])[..|rest + callbacks|] == rest + callbacks;
  }

  lemma Grown(a: seq<Callback>, b: seq<Callback>, cb: Callback)
    ensures a + (b + [cb]) == (a + b) + [cb]
  {
  }

  // nextTick is not called with the scheduler's flush by anyone else.
  predicate Ordinary(es: seq<Effect>)
    decreases es
  {
    forall i :: 0 <= i < |es| ==> OrdinaryEffect(es[i])
  }

  predicate OrdinaryEffect(e: Effect)
    decreases e
  {
    match e
    case Tick(cb) => cb.User? && Ordinary(cb.effects)
    case QueueWatcher(flush) => Ordinary(flush)
  }

  predicate AllOrdinary(cbs: seq<Callback>) {
    forall i :: 0 <= i < |cbs| ==> Ordinary(cbs[i].effects)
  }

  predicate Queues(es: seq<Effect>) {
    exists i :: 0 <= i < |es| && es[i].QueueWatcher?
  }

  // What these effects register: every callback given to nextTick, and one
  // flush, for the first watcher queued while none is waiting.
  function Registers(es: seq<Effect>, waiting: bool): seq<Callback> {
    if es == [] then []
    else
      var before, e := es[..|es| - 1], es[|es| - 1];
      Registers(before, waiting) +
      match e
      case Tick(cb) => [cb]
      case QueueWatcher(flush) => if waiting || Queues(before) then [] else [SchedulerFlush(flush)]
  }

  // Whether a flush is waiting after these callbacks: the flush itself ends
  // with none.
  function WaitingAfter(cbs: seq<Callback>, waiting: bool): bool {
    if cbs == [] then waiting
    else
      var cb := cbs[|cbs| - 1];
      cb.User? && (WaitingAfter(cbs[..|cbs| - 1], waiting) || Queues(cb.effects))
  }

  function RegistersAll(cbs: seq<Callback>, waiting: bool): seq<Callback> {
    if cbs == [] then []
    else
      var before := cbs[..|cbs| - 1];
      RegistersAll(before, waiting) + Registers(cbs[|cbs| - 1].effects, WaitingAfter(before, waiting))
  }

  lemma RegistersMore(es: seq<Effect>, i: nat, waiting: bool)
    requires i < |es|
    ensures Registers(es[..i + 1], waiting) ==
            Registers(es[..i], waiting) +
            match es[i]
            case Tick(cb) => [cb]
            case QueueWatcher(flush) => if waiting || Queues(es[..i]) then [] else [SchedulerFlush(flush)]
    ensures Queues(es[..i + 1]) <==> Queues(es[..i]) || es[i].QueueWatcher?
  {
    var longer := es[..i + 1];
    assert longer[..i] == es[..i];
    assert longer[i] == es[i];
    if Queues(es[..i]) {
      var k :| 0 <= k < i && es[..i][k].QueueWatcher?;
      assert longer[k].QueueWatcher?;
    }
  }

  lemma RegistersAllMore(cbs: seq<Callback>, i: nat, waiting: bool)
    requires i < |cbs|
    ensures RegistersAll(cbs[..i + 1], waiting) ==
            RegistersAll(cbs[..i], waiting) + Registers(cbs[i].effects, WaitingAfter(cbs[..i], waiting))
    ensures WaitingAfter(cbs[..i + 1], waiting) <==>
            cbs[i].User? && (WaitingAfter(cbs[..i], waiting) || Queues(cbs[i].effects))
  {
    assert cbs[..i + 1][..i] == cbs[..i];
  }

  lemma NoneRegister(waiting: bool)
    ensures Registers([], waiting) == [] && RegistersAll([], waiting) == [] && WaitingAfter([], waiting) == waiting
    ensures !Queues([]) && AllOrdinary([])
  {
  }

  class Loop {
    var callbacks: seq<Callback>
    var pending: bool
    var waiting: bool
    var timers: nat
    // what has been handed to nextTick, what has been called, and the part
    // of the current copy that is still to be called
    ghost var registered: seq<Callback>
    ghost var executed: seq<Callback>
    ghost var rest: seq<Callback>
    // within flushSchedulerQueue
    ghost var flushing: bool

    ghost predicate Valid()
      reads this
    {
      executed + rest + callbacks == registered &&
      timers == (if pending then 1 else 0) &&
      (callbacks != [] <==> pending) &&
      Flushes(rest + callbacks) == (if waiting && !flushing then 1 else 0) &&
      (flushing ==> waiting) &&
      AllOrdinary(rest) && AllOrdinary(callbacks)
    }

    constructor ()
      ensures Valid() && registered == [] && timers == 0
    {
      callbacks, pending, waiting, timers := [], false, false, 0;
      registered, executed, rest, flushing := [], [], [], false;
    }

    method NextTick(cb: Callback)
      requires Valid() && Ordinary(cb.effects)
      requires cb.SchedulerFlush? ==> !waiting
      modifies this`callbacks, this`pending, this`timers, this`registered
      ensures registered == old(registered) + [cb] && callbacks == old(callbacks) + [cb]
      ensures pending && timers == 1
      ensures cb.User? ==> Valid()
      ensures Flushes(rest + callbacks) == old(Flushes(rest + callbacks)) + if cb.SchedulerFlush? then 1 else 0
    {
      hide Flushes, Ordinary;
      FlushesMore(rest, callbacks, cb);
      Grown(executed + rest, callbacks, cb);
      callbacks := callbacks + [cb];
      registered := registered + [cb];
      if !pending {
        pending := true;
        timers := timers + 1;
      }
    }

    // The part of queueWatcher that asks for a flush.
    method QueueFlush(flush: seq<Effect>)
      requires Valid() && Ordinary(flush)
      modifies this`callbacks, this`pending, this`timers, this`registered, this`waiting
      ensures Valid() && waiting && (old(waiting) ==> callbacks == old(callbacks))
      ensures !old(waiting) ==> callbacks == old(callbacks) + [SchedulerFlush(flush)]
      ensures registered == old(registered) + if old(waiting) then [] else [SchedulerFlush(flush)]
    {
      if !waiting {
        NextTick(SchedulerFlush(flush));
        waiting := true;
      }
    }

    method Perform(effects: seq<Effect>)
      requires Valid() && Ordinary(effects)
      modifies this`callbacks, this`pending, this`timers, this`registered, this`waiting
      ensures Valid()
      ensures registered == old(registered) + Registers(effects, old(waiting))
      ensures callbacks == old(callbacks) + Registers(effects, old(waiting))
      ensures waiting <==> old(waiting) || Queues(effects)
    {
      hide Registers, Queues, Flushes;
      NoneRegister(waiting);
      assert effects[..0] == [];
      var i := 0;
      while i < |effects|
        invariant 0 <= i <= |effects|
        invariant Valid() && (waiting <==> old(waiting) || Queues(effects[..i]))
        invariant registered == old(registered) + Registers(effects[..i], old(waiting))
        invariant callbacks == old(callbacks) + Registers(effects[..i], old(waiting))
      {
        assert OrdinaryEffect(effects[i]);
        RegistersMore(effects, i, old(waiting));
        match effects[i] {
          case Tick(cb) => NextTick(cb);
          case QueueWatcher(flush) => QueueFlush(flush);
        }
        i := i + 1;
      }
      assert effects[..i] == effects;
    }

    // The timer's callback: everything registered before it is called, in
    // order; what is registered meanwhile is left for a timer of its own.
    method FlushCallbacks()
      requires Valid() && timers == 1 && rest == [] && !flushing
      modifies this
      ensures Valid() && rest == [] && !flushing
      ensures executed == old(executed) + old(callbacks) == old(registered)
      ensures callbacks == RegistersAll(old(callbacks), old(waiting))
      ensures waiting <==> WaitingAfter(old(callbacks), old(waiting))
      ensures registered == old(registered) + callbacks && (timers == 0 <==> callbacks == [])
    {
      hide Registers, RegistersAll, WaitingAfter, Queues, Flushes, Ordinary, AllOrdinary;
      timers := timers - 1;
      pending := false;
      var copies := callbacks;
      callbacks := [];
      rest := copies;
      assert executed + rest + callbacks == registered;
      assert rest + callbacks == [] + copies;
      NoneRegister(waiting);
      assert copies[..0] == [];
      var i := 0;
      while i < |copies|
        invariant 0 <= i <= |copies|
        invariant Valid() && !flushing && rest == copies[i..]
        invariant executed + rest == old(registered) && callbacks == RegistersAll(copies[..i], old(waiting))
        invariant waiting <==> WaitingAfter(copies[..i], old(waiting))
      {
        var cb := copies[i];
        RegistersAllMore(copies, i, old(waiting));
        Take(cb);
        Perform(cb.effects);
        if cb.SchedulerFlush? {
          // resetSchedulerState
          waiting, flushing := false, false;
        }
        i := i + 1;
      }
      assert copies[..i] == copies;
    }

    // The next callback of the copy begins.
    ghost method Take(cb: Callback)
      requires Valid() && !flushing && rest != [] && rest[0] == cb
      modifies this`executed, this`rest, this`flushing
      ensures Valid() && rest == old(rest)[1..] && executed == old(executed) + [cb]
      ensures flushing == cb.SchedulerFlush? && Ordinary(cb.effects)
    {
      hide Ordinary, Flushes;
      var tail := rest[1..];
      assert rest == [cb] + tail;
      FlushesFirst(cb, tail, callbacks);
      executed := executed + [cb];
      rest := tail;
      flushing := cb.SchedulerFlush?;
      assert executed + rest + callbacks == registered;
    }
  }
}
