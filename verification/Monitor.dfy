// Two threads that take turns by notifying and waiting on one monitor.
module Monitor {

  datatype Thread = First | Second

  function Other(t: Thread): Thread {
    if t.First? then Second else First
  }

  // Where a thread is in its endless loop: in front of the lock, inside with
  // nothing done, after notifying, after printing, in the wait set, notified
  // but without the lock, back from waiting with the lock.
  datatype Place = Outside | Entered | Notified | Printed | Waiting | Woken | Back

  datatype State = State(first: Place, second: Place, owner: Owner, marks: seq<Thread>)

  datatype Owner = Nobody | Held(thread: Thread)

  const START := State(Outside, Outside, Nobody, [])

  function At(s: State, t: Thread): Place {
    if t.First? then s.first else s.second
  }

  function Move(s: State, t: Thread, p: Place): State {
    if t.First? then s.(first := p) else s.(second := p)
  }

  // Taking the lock needs the lock to be free; nobody leaves the wait set on
  // his own.
  predicate Enabled(s: State, t: Thread) {
    match At(s, t)
    case Outside => s.owner.Nobody?
    case Woken => s.owner.Nobody?
    case Waiting => false
    case _ => true
  }

  function Step(s: State, t: Thread): State
    requires Enabled(s, t)
  {
    match At(s, t)
    case Outside => Move(s, t, Entered).(owner := Held(t))
    case Entered =>
      var u := Other(t);
      Move(if At(s, u).Waiting? then Move(s, u, Woken) else s, t, Notified)
    case Notified => Move(s, t, Printed).(marks := s.marks + [t])
    case Printed => Move(s, t, Waiting).(owner := Nobody)
    case Woken => Move(s, t, Back).(owner := Held(t))
    case Back => Move(s, t, Outside).(owner := Nobody)
  }

  // A schedule names the thread that moves next; one that cannot is skipped.
  function Run(schedule: seq<Thread>): State {
    if schedule == [] then START
    else
      var s, t := Run(schedule[..|schedule| - 1]), schedule[|schedule| - 1];
      if Enabled(s, t) then Step(s, t) else s
  }

  predicate Holds(p: Place) {
    p.Entered? || p.Notified? || p.Printed? || p.Back?
  }

  // The lock belongs to whoever is inside, and only to one.
  predicate Exclusive(s: State) {
    forall t :: Holds(At(s, t)) <==> s.owner == Held(t)
  }

  predicate Fresh(s: State, t: Thread) {
    (At(s, t).Outside? || At(s, t).Entered? || At(s, t).Notified?) && At(s, Other(t)).Outside?
  }

  // Having printed last, u waits until the other one notifies.
  predicate Turn(s: State, u: Thread) {
    var p, q := At(s, u), At(s, Other(u));
    ((p.Printed? || p.Waiting?) && (q.Woken? || q.Back? || q.Outside? || q.Entered?)) || (p.Woken? && q.Notified?)
  }

  predicate Inv(s: State) {
    Exclusive(s) &&
    if s.marks == [] then Fresh(s, First) || Fresh(s, Second) else Turn(s, s.marks[|s.marks| - 1])
  }

  predicate Alternating(marks: seq<Thread>) {
    forall i :: 0 <= i < |marks| - 1 ==> marks[i + 1] == Other(marks[i])
  }

  lemma StepInv(s: State, t: Thread)
    requires Inv(s) && Enabled(s, t) && Alternating(s.marks)
    ensures Inv(Step(s, t)) && Alternating(Step(s, t).marks)
  {
    assert At(s, First) == s.first && At(s, Second) == s.second;
    assert Exclusive(Step(s, t)) by {
      forall u: Thread
        ensures Holds(At(Step(s, t), u)) <==> Step(s, t).owner == Held(u)
      {
        assert Holds(At(s, u)) <==> s.owner == Held(u);
        assert Holds(At(s, t)) <==> s.owner == Held(t);
      }
    }
    assert Holds(At(s, Other(t))) <==> s.owner == Held(Other(t));
  }

  // In every interleaving, the marks strictly alternate, the threads are
  // never both waiting, and one of them can always move.
  lemma {:induction false} Alternates(schedule: seq<Thread>)
    ensures Inv(Run(schedule)) && Alternating(Run(schedule).marks)
    ensures !(Run(schedule).first.Waiting? && Run(schedule).second.Waiting?)
    ensures Enabled(Run(schedule), First) || Enabled(Run(schedule), Second)
  {
    if schedule != [] {
      var before, t := schedule[..|schedule| - 1], schedule[|schedule| - 1];
      Alternates(before);
      if Enabled(Run(before), t) {
        StepInv(Run(before), t);
      }
    }
    var s := Run(schedule);
    assert Holds(At(s, First)) <==> s.owner == Held(First);
    assert Holds(At(s, Second)) <==> s.owner == Held(Second);
  }

  // ----- progress

  // How far a thread is from its next mark.
  function Distance(p: Place): nat {
    match p
    case Notified => 0
    case Entered => 1
    case Outside => 2
    case Back => 3
    case Woken => 4
    case Waiting => 5
    case Printed => 6
  }

  function Rank(s: State): nat {
    Distance(s.first) + Distance(s.second)
  }

  lemma StepRank(s: State, t: Thread)
    requires Enabled(s, t)
    ensures Step(s, t).marks == s.marks ==> Rank(Step(s, t)) < Rank(s)
  {
  }

  // A run of steps, each of which is possible.
  predicate Possible(s: State, steps: seq<Thread>)
    decreases |steps|
  {
    steps == [] || (Enabled(s, steps[0]) && Possible(Step(s, steps[0]), steps[1..]))
  }

  function After(s: State, steps: seq<Thread>): State
    requires Possible(s, steps)
    decreases |steps|
  {
    if steps == [] then s else After(Step(s, steps[0]), steps[1..])
  }

  lemma {:induction false} AfterGrows(s: State, steps: seq<Thread>)
    requires Possible(s, steps)
    ensures s.marks <= After(s, steps).marks
    decreases |steps|
  {
    if steps != [] {
      AfterGrows(Step(s, steps[0]), steps[1..]);
    }
  }

  // Whoever moves, thirteen steps always print a further mark.
  lemma {:induction false} KeepsPrinting(s: State, steps: seq<Thread>)
    requires Possible(s, steps) && |steps| > Rank(s)
    ensures |After(s, steps).marks| > |s.marks|
    decreases |steps|
  {
    var t := Step(s, steps[0]);
    StepRank(s, steps[0]);
    AfterGrows(t, steps[1..]);
    if t.marks == s.marks {
      KeepsPrinting(t, steps[1..]);
    }
  }
}
