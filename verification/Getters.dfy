// Getter functions of watchers and computed properties, as expressions over
// reactive cells and computed properties, and what they mean from scratch.
module Getters {

  type CellId = nat
  type WatcherId = nat

  // `Op` is any read-only operation of two arguments; a conditional reads its
  // test and then only the branch it takes, so that the set of cells read can
  // change from run to run.
  datatype Expr =
    | Lit(n: int)
    | Cell(c: CellId)
    | Computed(k: WatcherId)
    | Op(f: (int, int) -> int, l: Expr, r: Expr)
    | Cond(test: Expr, thn: Expr, els: Expr)

  // What the constructor of a watcher fixes. `level` witnesses that computed
  // properties do not read themselves, directly or through others.
  datatype Def = Def(getter: Expr, lazy: bool, level: nat)

  type Prog = map<WatcherId, Def>
  type Cells = map<CellId, int>

  // Every cell exists, and every computed property read is one of a lower level.
  predicate WellFormed(p: Prog, cells: set<CellId>, e: Expr, b: nat) {
    match e
    case Lit(_) => true
    case Cell(c) => c in cells
    case Computed(k) => k in p && p[k].lazy && p[k].level < b
    case Op(_, l, r) => WellFormed(p, cells, l, b) && WellFormed(p, cells, r, b)
    case Cond(t, x, y) => WellFormed(p, cells, t, b) && WellFormed(p, cells, x, b) && WellFormed(p, cells, y, b)
  }

  // Evaluation from scratch: no cache, no dependency tracking.
  ghost function Val(p: Prog, cells: Cells, e: Expr, b: nat): int
    decreases b, e
  {
    match e
    case Lit(n) => n
    case Cell(c) => if c in cells then cells[c] else 0
    case Computed(k) => if k in p && p[k].level < b then Val(p, cells, p[k].getter, p[k].level) else 0
    case Op(f, l, r) => f(Val(p, cells, l, b), Val(p, cells, r, b))
    case Cond(t, x, y) => if Val(p, cells, t, b) != 0 then Val(p, cells, x, b) else Val(p, cells, y, b)
  }

  // The cells such an evaluation reads, through computed properties too.
  ghost function Touch(p: Prog, cells: Cells, e: Expr, b: nat): set<CellId>
    decreases b, e
  {
    match e
    case Lit(_) => {}
    case Cell(c) => {c}
    case Computed(k) => if k in p && p[k].level < b then Touch(p, cells, p[k].getter, p[k].level) else {}
    case Op(_, l, r) => Touch(p, cells, l, b) + Touch(p, cells, r, b)
    case Cond(t, x, y) =>
      Touch(p, cells, t, b) + if Val(p, cells, t, b) != 0 then Touch(p, cells, x, b) else Touch(p, cells, y, b)
  }

  // The computed properties that e can reach.
  ghost function Reach(p: Prog, e: Expr, b: nat): set<WatcherId>
    decreases b, e
  {
    match e
    case Lit(_) => {}
    case Cell(_) => {}
    case Computed(k) => {k} + if k in p && p[k].level < b then Reach(p, p[k].getter, p[k].level) else {}
    case Op(_, l, r) => Reach(p, l, b) + Reach(p, r, b)
    case Cond(t, x, y) => Reach(p, t, b) + Reach(p, x, b) + Reach(p, y, b)
  }

  // The cells that e can mention, on any branch and through computed
  // properties too.
  function Mentions(p: Prog, e: Expr, b: nat): set<CellId>
    decreases b, e
  {
    match e
    case Lit(_) => {}
    case Cell(c) => {c}
    case Computed(k) => if k in p && p[k].level < b then Mentions(p, p[k].getter, p[k].level) else {}
    case Op(_, l, r) => Mentions(p, l, b) + Mentions(p, r, b)
    case Cond(t, x, y) => Mentions(p, t, b) + Mentions(p, x, b) + Mentions(p, y, b)
  }

  lemma {:induction false} ExtendsMentions(p: Prog, q: Prog, cells: set<CellId>, e: Expr, b: nat)
    requires forall k :: k in p ==> k in q && q[k] == p[k] && WellFormed(p, cells, p[k].getter, p[k].level)
    requires WellFormed(p, cells, e, b)
    ensures Mentions(q, e, b) == Mentions(p, e, b) && Mentions(p, e, b) <= cells
    decreases b, e
  {
    match e
    case Lit(_) =>
    case Cell(_) =>
    case Computed(k) =>
      ExtendsMentions(p, q, cells, p[k].getter, p[k].level);
    case Op(_, l, r) =>
      ExtendsMentions(p, q, cells, l, b);
      ExtendsMentions(p, q, cells, r, b);
    case Cond(c, x, y) =>
      ExtendsMentions(p, q, cells, c, b);
      ExtendsMentions(p, q, cells, x, b);
      ExtendsMentions(p, q, cells, y, b);
  }

  // A getter cannot tell two stores apart that agree on the cells it reads.
  lemma {:induction false} OnlyTouched(p: Prog, s: Cells, t: Cells, e: Expr, b: nat)
    requires forall c :: c in Touch(p, s, e, b) ==> (c in s <==> c in t) && (c in s ==> s[c] == t[c])
    ensures Val(p, t, e, b) == Val(p, s, e, b) && Touch(p, t, e, b) == Touch(p, s, e, b)
    decreases b, e
  {
    match e
    case Lit(_) =>
    case Cell(_) =>
    case Computed(k) =>
      if k in p && p[k].level < b {
        OnlyTouched(p, s, t, p[k].getter, p[k].level);
      }
    case Op(_, l, r) =>
      OnlyTouched(p, s, t, l, b);
      OnlyTouched(p, s, t, r, b);
    case Cond(c, x, y) =>
      OnlyTouched(p, s, t, c, b);
      if Val(p, s, c, b) != 0 {
        OnlyTouched(p, s, t, x, b);
      } else {
        OnlyTouched(p, s, t, y, b);
      }
  }

  // The bound b only matters for well-formedness.
  lemma {:induction false} BoundFree(p: Prog, cells: Cells, e: Expr, b: nat, b': nat)
    requires WellFormed(p, cells.Keys, e, b) && b <= b'
    ensures WellFormed(p, cells.Keys, e, b')
    ensures Val(p, cells, e, b') == Val(p, cells, e, b)
    ensures Touch(p, cells, e, b') == Touch(p, cells, e, b)
    ensures Reach(p, e, b') == Reach(p, e, b)
  {
    match e
    case Lit(_) =>
    case Cell(_) =>
    case Computed(_) =>
    case Op(_, l, r) =>
      BoundFree(p, cells, l, b, b');
      BoundFree(p, cells, r, b, b');
    case Cond(t, x, y) =>
      BoundFree(p, cells, t, b, b');
      BoundFree(p, cells, x, b, b');
      BoundFree(p, cells, y, b, b');
  }

  // New watchers and cells change nothing for a well-formed getter.
  lemma {:induction false} Extends(p: Prog, q: Prog, s: Cells, t: Cells, e: Expr, b: nat)
    requires forall k :: k in p ==> k in q && q[k] == p[k] && WellFormed(p, s.Keys, p[k].getter, p[k].level)
    requires forall c :: c in s ==> c in t && t[c] == s[c]
    requires WellFormed(p, s.Keys, e, b)
    ensures WellFormed(q, t.Keys, e, b)
    ensures Val(q, t, e, b) == Val(p, s, e, b) && Touch(q, t, e, b) == Touch(p, s, e, b)
    ensures Reach(q, e, b) == Reach(p, e, b)
    decreases b, e
  {
    match e
    case Lit(_) =>
    case Cell(_) =>
    case Computed(k) =>
      Extends(p, q, s, t, p[k].getter, p[k].level);
    case Op(_, l, r) =>
      Extends(p, q, s, t, l, b);
      Extends(p, q, s, t, r, b);
    case Cond(c, x, y) =>
      Extends(p, q, s, t, c, b);
      Extends(p, q, s, t, x, b);
      Extends(p, q, s, t, y, b);
  }

  lemma {:induction false} TouchKnown(p: Prog, cells: Cells, e: Expr, b: nat)
    requires forall k :: k in p ==> WellFormed(p, cells.Keys, p[k].getter, p[k].level)
    requires WellFormed(p, cells.Keys, e, b)
    ensures Touch(p, cells, e, b) <= cells.Keys
    ensures forall k :: k in Reach(p, e, b) ==> k in p && p[k].lazy && p[k].level < b
    decreases b, e
  {
    match e
    case Lit(_) =>
    case Cell(_) =>
    case Computed(k) =>
      TouchKnown(p, cells, p[k].getter, p[k].level);
    case Op(_, l, r) =>
      TouchKnown(p, cells, l, b);
      TouchKnown(p, cells, r, b);
    case Cond(t, x, y) =>
      TouchKnown(p, cells, t, b);
      TouchKnown(p, cells, x, b);
      TouchKnown(p, cells, y, b);
  }
}
