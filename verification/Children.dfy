// Values of children arrays in render functions, and their normalization.
module Children {
  import opened Sequences

  // A key set by the user, by full normalization of a v-for list, or by
  // marking a static tree.
  datatype Key = User(s: string) | VList(path: seq<nat>, i: nat) | Static(index: nat, part: Option<nat>)

  datatype Mark = Mark(key: Option<Key>, isStatic: bool)

  const NO_MARK := Mark(None, false)

  // Vnodes as render functions build them. `CompVn` is the placeholder of a
  // stateful component.
  datatype Vn =
    | TextVn(text: string, mark: Mark)
    | CommentVn(comment: string, mark: Mark)
    | ElemVn(tag: string, attrs: seq<(string, string)>, kids: Kids, mark: Mark)
    | CompVn(name: string, attrs: seq<(string, string)>, kids: Kids, mark: Mark)

  datatype Kids = NoKids | Kids(items: seq<Child>)

  datatype Child =
    | Undefined
    | Boolean(b: bool)
    | Primitive(s: string)
    | Single(n: Vn)
    | Nested(items: seq<Child>, isVList: bool)

  predicate IsText(res: seq<Vn>, i: int) {
    0 <= i < |res| && res[i].TextVn?
  }

  // Append one vnode, merging it into a text node in front of it.
  function Put(res: seq<Vn>, n: Vn): seq<Vn> {
    if n.TextVn? && IsText(res, |res| - 1) then res[..|res| - 1] + [TextVn(res[|res| - 1].text + n.text, NO_MARK)]
    else res + [n]
  }

  // Append a list of vnodes, merging text across the seam.
  function Join(res: seq<Vn>, c: seq<Vn>): seq<Vn> {
    if c == [] then res else Put(res, c[0]) + c[1..]
  }

  function WithMark(n: Vn, m: Mark): Vn {
    match n
    case TextVn(t, _) => TextVn(t, m)
    case CommentVn(t, _) => CommentVn(t, m)
    case ElemVn(tag, attrs, kids, _) => ElemVn(tag, attrs, kids, m)
    case CompVn(name, attrs, kids, _) => CompVn(name, attrs, kids, m)
  }

  // A vnode without a key gets one from its place in a v-for list.
  function WithListKey(n: Vn, isVList: bool, i: nat, nestedIndex: Option<seq<nat>>): Vn {
    if isVList && (n.ElemVn? || n.CompVn?) && n.mark.key.None? && nestedIndex.Some?
    then WithMark(n, n.mark.(key := Some(VList(nestedIndex.value, i))))
    else n
  }

  function Deeper(nestedIndex: Option<seq<nat>>, i: nat): Option<seq<nat>> {
    Some((if nestedIndex.Some? then nestedIndex.value else []) + [i])
  }

  // What the loop of normalizeArrayChildren makes of res and one child.
  function Step(res: seq<Vn>, c: Child, i: nat, isVList: bool, nestedIndex: Option<seq<nat>>): seq<Vn>
    decreases c, 0
  {
    match c
    case Undefined => res
    case Boolean(_) => res
    case Nested(items, vlist) => Join(res, Norm(items, vlist, Deeper(nestedIndex, i)))
    case Primitive(s) => if s != "" || IsText(res, |res| - 1) then Put(res, TextVn(s, NO_MARK)) else res
    case Single(n) => Put(res, WithListKey(n, isVList, i, nestedIndex))
  }

  function Loop(children: seq<Child>, n: nat, isVList: bool, nestedIndex: Option<seq<nat>>): seq<Vn>
    requires n <= |children|
    decreases children, 1, n
  {
    if n == 0 then [] else Step(Loop(children, n - 1, isVList, nestedIndex), children[n - 1], n - 1, isVList, nestedIndex)
  }

  function Norm(children: seq<Child>, isVList: bool, nestedIndex: Option<seq<nat>>): seq<Vn>
    decreases children, 2
  {
    Loop(children, |children|, isVList, nestedIndex)
  }

  // normalizeArrayChildren
  method NormalizeArrayChildren(children: seq<Child>, isVList: bool, nestedIndex: Option<seq<nat>>) returns (res: seq<Vn>)
    decreases children
    ensures res == Norm(children, isVList, nestedIndex)
    ensures EraseAll(res) == Merge([], Flatten(children))
    ensures NoAdjacentText(res)
  {
    hide Loop, Norm, Flatten, Merge, EraseAll, NoAdjacentText, Step, Join, Put;
    res := [];
    var i := 0;
    LoopStart(children, isVList, nestedIndex);
    while i < |children|
      invariant 0 <= i <= |children|
      invariant res == Loop(children, i, isVList, nestedIndex)
    {
      var c := children[i];
      var lastIndex := |res| - 1;
      LoopNext(children, i, isVList, nestedIndex);
      if c.Undefined? || c.Boolean? {
        StepNothing(res, c, i, isVList, nestedIndex);
        i := i + 1;
        continue;
      }
      if c.Nested? {
        StepNested(res, c, i, isVList, nestedIndex);
        if |c.items| > 0 {
          var ns := NormalizeArrayChildren(c.items, c.isVList, Deeper(nestedIndex, i));
          JoinAppends(res, ns);
          if IsText(ns, 0) && IsText(res, lastIndex) {
            res := res[lastIndex := TextVn(res[lastIndex].text + ns[0].text, NO_MARK)];
            ns := ns[1..];
          }
          res := res + ns;
        }
      } else if c.Primitive? {
        StepPrimitive(res, c, i, isVList, nestedIndex);
        if IsText(res, lastIndex) {
          res := res[lastIndex := TextVn(res[lastIndex].text + c.s, NO_MARK)];
        } else if c.s != "" {
          res := res + [TextVn(c.s, NO_MARK)];
        }
      } else {
        var n := c.n;
        StepSingle(res, c, i, isVList, nestedIndex);
        if n.TextVn? && IsText(res, lastIndex) {
          res := res[lastIndex := TextVn(res[lastIndex].text + n.text, NO_MARK)];
        } else {
          if isVList && (n.ElemVn? || n.CompVn?) && n.mark.key.None? && nestedIndex.Some? {
            n := WithMark(n, n.mark.(key := Some(VList(nestedIndex.value, i))));
          }
          res := res + [n];
        }
      }
      i := i + 1;
    }
    NormIs(children, isVList, nestedIndex);
    NormErase(children, isVList, nestedIndex);
    NormNoAdjacentText(children, isVList, nestedIndex);
  }

  lemma LoopStart(cs: seq<Child>, isVList: bool, nestedIndex: Option<seq<nat>>)
    ensures Loop(cs, 0, isVList, nestedIndex) == []
  {
  }

  lemma LoopNext(cs: seq<Child>, i: nat, isVList: bool, nestedIndex: Option<seq<nat>>)
    requires i < |cs|
    ensures Loop(cs, i + 1, isVList, nestedIndex) == Step(Loop(cs, i, isVList, nestedIndex), cs[i], i, isVList, nestedIndex)
  {
  }

  lemma NormIs(cs: seq<Child>, isVList: bool, nestedIndex: Option<seq<nat>>)
    ensures Norm(cs, isVList, nestedIndex) == Loop(cs, |cs|, isVList, nestedIndex)
  {
  }

  lemma StepNothing(res: seq<Vn>, c: Child, i: nat, isVList: bool, nestedIndex: Option<seq<nat>>)
    requires c.Undefined? || c.Boolean?
    ensures Step(res, c, i, isVList, nestedIndex) == res
  {
  }

  lemma StepNested(res: seq<Vn>, c: Child, i: nat, isVList: bool, nestedIndex: Option<seq<nat>>)
    requires c.Nested?
    ensures Step(res, c, i, isVList, nestedIndex) == Join(res, Norm(c.items, c.isVList, Deeper(nestedIndex, i)))
    ensures c.items == [] ==> Step(res, c, i, isVList, nestedIndex) == res
  {
  }

  lemma StepPrimitive(res: seq<Vn>, c: Child, i: nat, isVList: bool, nestedIndex: Option<seq<nat>>)
    requires c.Primitive?
    ensures IsText(res, |res| - 1) ==>
              Step(res, c, i, isVList, nestedIndex) == res[|res| - 1 := TextVn(res[|res| - 1].text + c.s, NO_MARK)]
    ensures !IsText(res, |res| - 1) ==>
              Step(res, c, i, isVList, nestedIndex) == if c.s == "" then res else res + [TextVn(c.s, NO_MARK)]
  {
  }

  lemma StepSingle(res: seq<Vn>, c: Child, i: nat, isVList: bool, nestedIndex: Option<seq<nat>>)
    requires c.Single?
    ensures c.n.TextVn? && IsText(res, |res| - 1) ==>
              Step(res, c, i, isVList, nestedIndex) == res[|res| - 1 := TextVn(res[|res| - 1].text + c.n.text, NO_MARK)]
    ensures !(c.n.TextVn? && IsText(res, |res| - 1)) ==>
              Step(res, c, i, isVList, nestedIndex) == res + [WithListKey(c.n, isVList, i, nestedIndex)]
  {
  }

  lemma JoinAppends(res: seq<Vn>, c: seq<Vn>)
    ensures IsText(c, 0) && IsText(res, |res| - 1) ==>
              Join(res, c) == res[|res| - 1 := TextVn(res[|res| - 1].text + c[0].text, NO_MARK)] + c[1..]
    ensures !(IsText(c, 0) && IsText(res, |res| - 1)) ==> Join(res, c) == res + c
  {
  }

  // simpleNormalizeChildren: lists among the children are spliced in, one
  // level deep.
  function Spliced(cs: seq<Child>): seq<Child> {
    if cs == [] then [] else Spliced(cs[..|cs| - 1]) + SplicedOne(cs[|cs| - 1])
  }

  function SplicedOne(c: Child): seq<Child> {
    if c.Nested? then c.items else [c]
  }

  method SimpleNormalizeChildren(children: seq<Child>) returns (res: seq<Child>)
    ensures res == Spliced(children)
  {
    var i := 0;
    while i < |children|
      invariant 0 <= i <= |children|
      invariant forall k :: 0 <= k < i ==> !children[k].Nested?
    {
      if children[i].Nested? {
        return Spliced(children);
      }
      i := i + 1;
    }
    SplicedFlat(children);
    return children;
  }

  lemma {:induction false} SplicedFlat(cs: seq<Child>)
    requires forall k :: 0 <= k < |cs| ==> !cs[k].Nested?
    ensures Spliced(cs) == cs
  {
    if cs != [] {
      SplicedFlat(cs[..|cs| - 1]);
      assert cs[..|cs| - 1] + [cs[|cs| - 1]] == cs;
    }
  }

  lemma {:induction false} SplicedErased(cs: seq<Child>)
    ensures EraseKids(Spliced(cs)) == Spliced(EraseKids(cs))
  {
    hide Erase, EraseChild;
    if cs != [] {
      var p, c := cs[..|cs| - 1], cs[|cs| - 1];
      SplicedErased(p);
      EraseLast(cs);
      EraseOne(c);
      EraseConcat(Spliced(p), SplicedOne(c));
      assert Spliced(cs) == Spliced(p) + SplicedOne(c);
    }
  }

  lemma EraseLast(cs: seq<Child>)
    requires cs != []
    ensures EraseKids(cs)[..|cs| - 1] == EraseKids(cs[..|cs| - 1]) && EraseKids(cs)[|cs| - 1] == EraseChild(cs[|cs| - 1])
  {
    hide EraseKids, EraseChild;
    var e, p := EraseKids(cs), cs[..|cs| - 1];
    assert |e| == |cs| && |EraseKids(p)| == |p|;
    forall i | 0 <= i < |p|
      ensures e[i] == EraseKids(p)[i]
    {
      assert p[i] == cs[i];
    }
  }

  lemma EraseOne(c: Child)
    ensures EraseKids(SplicedOne(c)) == SplicedOne(EraseChild(c))
  {
  }

  lemma EraseConcat(a: seq<Child>, b: seq<Child>)
    ensures EraseKids(a + b) == EraseKids(a) + EraseKids(b)
  {
  }

  // ----- the meaning of normalization: flatten, then merge adjacent text

  // Generated keys and static marks are not part of what is rendered.
  function Plain(m: Mark): Mark {
    Mark(if m.key.Some? && m.key.value.User? then m.key else None, false)
  }

  function Erase(n: Vn): Vn
    decreases n, 1
  {
    match n
    case TextVn(t, _) => TextVn(t, NO_MARK)
    case CommentVn(t, _) => CommentVn(t, NO_MARK)
    case ElemVn(tag, attrs, kids, m) =>
      ElemVn(tag, attrs, if kids.Kids? then Kids(EraseKids(kids.items)) else NoKids, Plain(m))
    case CompVn(name, attrs, kids, m) =>
      CompVn(name, attrs, if kids.Kids? then Kids(EraseKids(kids.items)) else NoKids, Plain(m))
  }

  function EraseChild(c: Child): Child
    decreases c, 1
  {
    match c
    case Single(n) => Single(Erase(n))
    case Nested(items, v) => Nested(EraseKids(items), v)
    case _ => c
  }

  function EraseKids(cs: seq<Child>): (r: seq<Child>)
    ensures |r| == |cs| && forall i :: 0 <= i < |cs| ==> r[i] == EraseChild(cs[i])
    decreases cs, 2
  {
    if cs == [] then [] else [EraseChild(cs[0])] + EraseKids(cs[1..])
  }

  function EraseAll(ns: seq<Vn>): (r: seq<Vn>)
    ensures |r| == |ns| && forall i :: 0 <= i < |ns| ==> r[i] == Erase(ns[i])
  {
    seq(|ns|, i requires 0 <= i < |ns| => Erase(ns[i]))
  }

  // The strings and vnodes of an arbitrarily nested array, left to right.
  function Flatten(cs: seq<Child>): seq<Vn>
    decreases cs, 2
  {
    if cs == [] then [] else Flatten(cs[..|cs| - 1]) + FlatOne(cs[|cs| - 1])
  }

  function FlatOne(c: Child): seq<Vn>
    decreases c, 1
  {
    match c
    case Undefined => []
    case Boolean(_) => []
    case Primitive(s) => if s == "" then [] else [TextVn(s, NO_MARK)]
    case Single(n) => [Erase(n)]
    case Nested(items, _) => Flatten(items)
  }

  function Merge(res: seq<Vn>, xs: seq<Vn>): seq<Vn> {
    if xs == [] then res else Put(Merge(res, xs[..|xs| - 1]), xs[|xs| - 1])
  }

  lemma {:induction false} MergeConcat(res: seq<Vn>, xs: seq<Vn>, ys: seq<Vn>)
    ensures Merge(res, xs + ys) == Merge(Merge(res, xs), ys)
  {
    if ys == [] {
      assert xs + ys == xs;
    } else {
      MergeConcat(res, xs, ys[..|ys| - 1]);
      assert (xs + ys)[..|xs + ys| - 1] == xs + ys[..|ys| - 1];
    }
  }

  lemma JoinPut(a: seq<Vn>, b: seq<Vn>, n: Vn)
    ensures Put(Join(a, b), n) == Join(a, Put(b, n))
  {
    if b == [] {
      assert Put(b, n) == [n];
    } else if |b| == 1 {
      assert b == [b[0]];
      JoinPutOne(a, b[0], n);
    } else {
      JoinPutLong(a, b, n);
    }
  }

  lemma JoinPutOne(a: seq<Vn>, t: Vn, n: Vn)
    ensures Put(Join(a, [t]), n) == Join(a, Put([t], n))
  {
    assert Join(a, [t]) == Put(a, t);
    if t.TextVn? && n.TextVn? {
      PutTwice(a, t, n);
      assert Put([t], n) == [TextVn(t.text + n.text, NO_MARK)];
    } else {
      assert Put([t], n) == [t, n];
      assert [t, n][1..] == [n];
    }
  }

  lemma PutTwice(a: seq<Vn>, t: Vn, n: Vn)
    requires t.TextVn? && n.TextVn?
    ensures Put(Put(a, t), n) == Put(a, TextVn(t.text + n.text, NO_MARK))
  {
    if IsText(a, |a| - 1) {
      var s := a[|a| - 1].text;
      assert (s + t.text) + n.text == s + (t.text + n.text);
      assert Put(a, t)[..|a| - 1] == a[..|a| - 1];
    } else {
      assert (a + [t])[..|a|] == a;
    }
  }

  lemma JoinPutLong(a: seq<Vn>, b: seq<Vn>, n: Vn)
    requires |b| > 1
    ensures Put(Join(a, b), n) == Join(a, Put(b, n))
  {
    var p := Put(a, b[0]);
    PutAfter(p, b[1..], n);
    PutAfter([b[0]], b[1..], n);
    assert [b[0]] + b[1..] == b;
    var q := Put(b[1..], n);
    assert ([b[0]] + q)[1..] == q;
  }

  lemma PutAfter(p: seq<Vn>, b: seq<Vn>, n: Vn)
    requires b != []
    ensures Put(p + b, n) == p + Put(b, n)
  {
    assert (p + b)[|p + b| - 1] == b[|b| - 1];
    assert (p + b)[..|p + b| - 1] == p + b[..|b| - 1];
  }

  // Merging a nested array on its own first makes no difference.
  lemma {:induction false} MergeJoin(res: seq<Vn>, xs: seq<Vn>)
    ensures Merge(res, xs) == Join(res, Merge([], xs))
  {
    if xs != [] {
      var ys := xs[..|xs| - 1];
      MergeJoin(res, ys);
      JoinPut(res, Merge([], ys), xs[|xs| - 1]);
    }
  }

  lemma ErasePut(res: seq<Vn>, n: Vn)
    ensures EraseAll(Put(res, n)) == Put(EraseAll(res), Erase(n))
  {
  }

  lemma EraseJoin(a: seq<Vn>, b: seq<Vn>)
    ensures EraseAll(Join(a, b)) == Join(EraseAll(a), EraseAll(b))
  {
    if b != [] {
      ErasePut(a, b[0]);
    }
  }

  lemma EraseStep(res: seq<Vn>, c: Child, i: nat, isVList: bool, nestedIndex: Option<seq<nat>>)
    requires c.Nested? ==> EraseAll(Norm(c.items, c.isVList, Deeper(nestedIndex, i))) == Merge([], Flatten(c.items))
    ensures EraseAll(Step(res, c, i, isVList, nestedIndex)) == Merge(EraseAll(res), FlatOne(c))
  {
    hide Merge, EraseAll, Put, Join, Erase, WithListKey;
    match c
    case Undefined => MergeNone(EraseAll(res));
    case Boolean(_) => MergeNone(EraseAll(res));
    case Primitive(s) =>
      ErasePrimitive(res, c, i, isVList, nestedIndex);
    case Single(n) =>
      var m := WithListKey(n, isVList, i, nestedIndex);
      EraseListKey(n, isVList, i, nestedIndex);
      ErasePut(res, m);
      MergeOne(EraseAll(res), Erase(n));
    case Nested(items, vlist) =>
      EraseJoin(res, Norm(items, vlist, Deeper(nestedIndex, i)));
      MergeJoin(EraseAll(res), Flatten(items));
  }

  lemma MergeNone(res: seq<Vn>)
    ensures Merge(res, []) == res
  {
  }

  lemma EraseListKey(n: Vn, isVList: bool, i: nat, nestedIndex: Option<seq<nat>>)
    ensures Erase(WithListKey(n, isVList, i, nestedIndex)) == Erase(n)
  {
  }

  lemma ErasePrimitive(res: seq<Vn>, c: Child, i: nat, isVList: bool, nestedIndex: Option<seq<nat>>)
    requires c.Primitive?
    ensures EraseAll(Step(res, c, i, isVList, nestedIndex)) == Merge(EraseAll(res), FlatOne(c))
  {
    var t := TextVn(c.s, NO_MARK);
    if c.s == "" {
      assert FlatOne(c) == [];
      assert Merge(EraseAll(res), []) == EraseAll(res);
      if IsText(res, |res| - 1) {
        var u := res[|res| - 1].text;
        assert u + c.s == u;
        assert Put(res, t) == res[|res| - 1 := TextVn(u, NO_MARK)];
        assert EraseAll(Put(res, t)) == EraseAll(res);
      }
    } else {
      ErasePut(res, t);
      assert Erase(t) == t;
      MergeOne(EraseAll(res), t);
    }
  }

  lemma MergeOne(res: seq<Vn>, n: Vn)
    ensures Merge(res, [n]) == Put(res, n)
  {
    assert [n][..0] == [];
  }

  // Up to generated keys and marks, normalizing is flattening and merging.
  lemma {:induction false} NormErase(cs: seq<Child>, isVList: bool, nestedIndex: Option<seq<nat>>)
    ensures EraseAll(Norm(cs, isVList, nestedIndex)) == Merge([], Flatten(cs))
    decreases cs, 1
  {
    assert cs[..|cs|] == cs;
    LoopErase(cs, |cs|, isVList, nestedIndex);
  }

  lemma {:induction false} LoopErase(cs: seq<Child>, n: nat, isVList: bool, nestedIndex: Option<seq<nat>>)
    requires n <= |cs|
    ensures EraseAll(Loop(cs, n, isVList, nestedIndex)) == Merge([], Flatten(cs[..n]))
    decreases cs, 0, n
  {
    if n > 0 {
      var c := cs[n - 1];
      LoopErase(cs, n - 1, isVList, nestedIndex);
      if c.Nested? {
        NormErase(c.items, c.isVList, Deeper(nestedIndex, n - 1));
      }
      EraseStep(Loop(cs, n - 1, isVList, nestedIndex), c, n - 1, isVList, nestedIndex);
      assert cs[..n][..n - 1] == cs[..n - 1];
      MergeConcat([], Flatten(cs[..n - 1]), FlatOne(c));
    }
  }

  // ----- what merging keeps

  predicate NoAdjacentText(ns: seq<Vn>) {
    forall i :: 0 < i < |ns| ==> !(ns[i - 1].TextVn? && ns[i].TextVn?)
  }

  lemma {:induction false} MergeNoAdjacentText(xs: seq<Vn>)
    ensures NoAdjacentText(Merge([], xs))
  {
    if xs != [] {
      MergeNoAdjacentText(xs[..|xs| - 1]);
    }
  }

  lemma NormNoAdjacentText(cs: seq<Child>, isVList: bool, nestedIndex: Option<seq<nat>>)
    ensures NoAdjacentText(Norm(cs, isVList, nestedIndex))
  {
    var r := Norm(cs, isVList, nestedIndex);
    NormErase(cs, isVList, nestedIndex);
    MergeNoAdjacentText(Flatten(cs));
    forall i | 0 < i < |r|
      ensures !(r[i - 1].TextVn? && r[i].TextVn?)
    {
      assert EraseAll(r)[i - 1].TextVn? == r[i - 1].TextVn?;
      assert EraseAll(r)[i].TextVn? == r[i].TextVn?;
    }
  }

  // A list of vnodes read piece by piece: characters of text, other nodes.
  datatype Piece = Char(c: char) | Whole(n: Vn)

  function Chars(s: string): (r: seq<Piece>)
    ensures |r| == |s| && forall i :: 0 <= i < |s| ==> r[i] == Char(s[i])
  {
    seq(|s|, i requires 0 <= i < |s| => Char(s[i]))
  }

  function PiecesOf(n: Vn): seq<Piece> {
    if n.TextVn? then Chars(n.text) else [Whole(n)]
  }

  function Pieces(ns: seq<Vn>): seq<Piece> {
    if ns == [] then [] else Pieces(ns[..|ns| - 1]) + PiecesOf(ns[|ns| - 1])
  }

  lemma PiecesPut(res: seq<Vn>, n: Vn)
    ensures Pieces(Put(res, n)) == Pieces(res) + PiecesOf(n)
  {
    if n.TextVn? && IsText(res, |res| - 1) {
      var s := res[|res| - 1].text;
      var p := res[..|res| - 1];
      assert Put(res, n)[..|res| - 1] == p;
      assert Chars(s + n.text) == Chars(s) + Chars(n.text);
      assert Pieces(res) == Pieces(p) + Chars(s);
      assert (Pieces(p) + Chars(s)) + Chars(n.text) == Pieces(p) + (Chars(s) + Chars(n.text));
    } else {
      assert (res + [n])[..|res|] == res;
    }
  }

  lemma {:induction false} MergePieces(xs: seq<Vn>)
    ensures Pieces(Merge([], xs)) == Pieces(xs)
  {
    if xs != [] {
      MergePieces(xs[..|xs| - 1]);
      PiecesPut(Merge([], xs[..|xs| - 1]), xs[|xs| - 1]);
    }
  }

  // No character and no node is lost, added or reordered.
  lemma NormPieces(cs: seq<Child>, isVList: bool, nestedIndex: Option<seq<nat>>)
    ensures Pieces(EraseAll(Norm(cs, isVList, nestedIndex))) == Pieces(Flatten(cs))
  {
    NormErase(cs, isVList, nestedIndex);
    MergePieces(Flatten(cs));
  }

  function Singles(ns: seq<Vn>): (r: seq<Child>)
    ensures |r| == |ns| && forall i :: 0 <= i < |ns| ==> r[i] == Single(ns[i])
  {
    seq(|ns|, i requires 0 <= i < |ns| => Single(ns[i]))
  }

  lemma {:induction false} LoopFixed(ns: seq<Vn>, n: nat)
    requires NoAdjacentText(ns) && n <= |ns|
    ensures Loop(Singles(ns), n, false, None) == ns[..n]
  {
    if n > 0 {
      LoopFixed(ns, n - 1);
      assert Singles(ns)[n - 1] == Single(ns[n - 1]);
      if n > 1 {
        assert ns[..n - 1][n - 2] == ns[n - 2];
      }
      assert ns[..n] == ns[..n - 1] + [ns[n - 1]];
    }
  }

  // Normalizing a second time changes nothing, not even a key.
  lemma NormIdempotent(cs: seq<Child>, isVList: bool, nestedIndex: Option<seq<nat>>)
    ensures Norm(Singles(Norm(cs, isVList, nestedIndex)), false, None) == Norm(cs, isVList, nestedIndex)
  {
    var ns := Norm(cs, isVList, nestedIndex);
    NormNoAdjacentText(cs, isVList, nestedIndex);
    LoopFixed(ns, |ns|);
    assert ns[..|ns|] == ns;
  }

  // ----- marks do not influence what normalization renders

  lemma {:induction false} EraseTwice(n: Vn)
    ensures Erase(Erase(n)) == Erase(n)
    decreases n, 1
  {
    if (n.ElemVn? || n.CompVn?) && n.kids.Kids? {
      EraseKidsTwice(n.kids.items);
    }
  }

  lemma {:induction false} EraseChildTwice(c: Child)
    ensures EraseChild(EraseChild(c)) == EraseChild(c)
    decreases c, 1
  {
    match c
    case Single(n) => EraseTwice(n);
    case Nested(items, _) => EraseKidsTwice(items);
    case _ =>
  }

  lemma {:induction false} EraseKidsTwice(cs: seq<Child>)
    ensures EraseKids(EraseKids(cs)) == EraseKids(cs)
    decreases cs, 2
  {
    forall i | 0 <= i < |cs|
      ensures EraseKids(EraseKids(cs))[i] == EraseKids(cs)[i]
    {
      EraseChildTwice(cs[i]);
    }
  }

  lemma {:induction false} FlattenErased(cs: seq<Child>)
    ensures Flatten(EraseKids(cs)) == Flatten(cs)
    decreases cs
  {
    if cs != [] {
      var c, p := cs[|cs| - 1], cs[..|cs| - 1];
      FlattenErased(p);
      assert EraseKids(cs)[..|cs| - 1] == EraseKids(p);
      match c {
        case Single(n) => EraseTwice(n);
        case Nested(items, _) => FlattenErased(items);
        case _ =>
      }
    }
  }

  // Children that differ in marks only are normalized alike.
  lemma NormIgnoresMarks(cs: seq<Child>, ds: seq<Child>)
    requires EraseKids(cs) == EraseKids(ds)
    ensures EraseAll(Norm(cs, false, None)) == EraseAll(Norm(ds, false, None))
  {
    NormErase(cs, false, None);
    NormErase(ds, false, None);
    FlattenErased(cs);
    FlattenErased(ds);
  }

  // ----- generated keys

  predicate HasListKey(n: Vn) {
    n.mark.key.Some? && n.mark.key.value.VList?
  }

  // The place a generated key names: the way down the lists, and the index.
  function Place(n: Vn): seq<nat>
    requires HasListKey(n)
  {
    n.mark.key.value.path + [n.mark.key.value.i]
  }

  // Vnodes come from render functions without generated keys.
  predicate Unlisted(c: Child)
    decreases c, 1
  {
    match c
    case Single(n) => !HasListKey(n)
    case Nested(items, _) => AllUnlisted(items)
    case _ => true
  }

  predicate AllUnlisted(cs: seq<Child>)
    decreases cs, 2
  {
    forall i :: 0 <= i < |cs| ==> Unlisted(cs[i])
  }

  predicate DistinctListKeys(ns: seq<Vn>) {
    forall i, j :: 0 <= i < j < |ns| && HasListKey(ns[i]) && HasListKey(ns[j]) ==> ns[i].mark.key != ns[j].mark.key
  }

  // Every generated key names a place below p, at an index from lo up to hi.
  predicate Below(ns: seq<Vn>, p: seq<nat>, lo: nat, hi: nat) {
    forall i :: 0 <= i < |ns| && HasListKey(ns[i]) ==>
      |Place(ns[i])| > |p| && Place(ns[i])[..|p|] == p && lo <= Place(ns[i])[|p|] < hi
  }

  function PathOf(nestedIndex: Option<seq<nat>>): seq<nat> {
    if nestedIndex.Some? then nestedIndex.value else []
  }

  lemma PutKeys(res: seq<Vn>, n: Vn, p: seq<nat>, i: nat)
    requires DistinctListKeys(res) && Below(res, p, 0, i) && Below([n], p, i, i + 1)
    ensures DistinctListKeys(Put(res, n)) && Below(Put(res, n), p, 0, i + 1)
  {
    assert [n][0] == n;
  }

  lemma AppendKeys(res: seq<Vn>, c: seq<Vn>, p: seq<nat>, i: nat)
    requires DistinctListKeys(res) && Below(res, p, 0, i) && DistinctListKeys(c) && Below(c, p, i, i + 1)
    ensures DistinctListKeys(res + c) && Below(res + c, p, 0, i + 1)
  {
  }

  lemma JoinKeys(res: seq<Vn>, c: seq<Vn>, p: seq<nat>, i: nat)
    requires DistinctListKeys(res) && Below(res, p, 0, i) && DistinctListKeys(c) && Below(c, p, i, i + 1)
    ensures DistinctListKeys(Join(res, c)) && Below(Join(res, c), p, 0, i + 1)
  {
    hide Put, Below, DistinctListKeys;
    if c == [] {
      Wider(res, p, i);
    } else if c[0].TextVn? && IsText(res, |res| - 1) {
      MergedKeys(res, c, p, i);
    } else {
      PutAppends(res, c[0]);
      assert res + [c[0]] + c[1..] == res + c;
      AppendKeys(res, c, p, i);
    }
  }

  lemma PutAppends(res: seq<Vn>, n: Vn)
    requires !(n.TextVn? && IsText(res, |res| - 1))
    ensures Put(res, n) == res + [n]
  {
  }

  lemma Wider(ns: seq<Vn>, p: seq<nat>, i: nat)
    requires Below(ns, p, 0, i)
    ensures Below(ns, p, 0, i + 1)
  {
  }

  lemma MergedKeys(res: seq<Vn>, c: seq<Vn>, p: seq<nat>, i: nat)
    requires DistinctListKeys(res) && Below(res, p, 0, i) && DistinctListKeys(c) && Below(c, p, i, i + 1)
    requires c != [] && c[0].TextVn? && IsText(res, |res| - 1)
    ensures DistinctListKeys(Join(res, c)) && Below(Join(res, c), p, 0, i + 1)
  {
    var before := res[..|res| - 1] + [TextVn(res[|res| - 1].text + c[0].text, NO_MARK)];
    assert DistinctListKeys(before) && Below(before, p, 0, i);
    assert DistinctListKeys(c[1..]) && Below(c[1..], p, i, i + 1);
    AppendKeys(before, c[1..], p, i);
  }

  lemma Deeper1(ns: seq<Vn>, p: seq<nat>, i: nat, n: nat)
    requires Below(ns, p + [i], 0, n)
    ensures Below(ns, p, i, i + 1)
  {
    forall k | 0 <= k < |ns| && HasListKey(ns[k])
      ensures |Place(ns[k])| > |p| && Place(ns[k])[..|p|] == p && i <= Place(ns[k])[|p|] < i + 1
    {
      var q := Place(ns[k]);
      assert q[..|p| + 1] == p + [i];
      assert q[..|p|] == q[..|p| + 1][..|p|];
      assert q[|p|] == q[..|p| + 1][|p|];
    }
  }

  lemma ListKeyPlace(n: Vn, isVList: bool, i: nat, nestedIndex: Option<seq<nat>>)
    requires !HasListKey(n)
    ensures Below([WithListKey(n, isVList, i, nestedIndex)], PathOf(nestedIndex), i, i + 1)
  {
    var m, p := WithListKey(n, isVList, i, nestedIndex), PathOf(nestedIndex);
    if HasListKey(m) {
      assert Place(m) == p + [i];
      assert Place(m)[..|p|] == p;
    }
  }

  lemma StepKeys(res: seq<Vn>, c: Child, i: nat, isVList: bool, nestedIndex: Option<seq<nat>>)
    requires Unlisted(c) && DistinctListKeys(res) && Below(res, PathOf(nestedIndex), 0, i)
    requires c.Nested? ==>
               var ns := Norm(c.items, c.isVList, Deeper(nestedIndex, i));
               DistinctListKeys(ns) && Below(ns, PathOf(Deeper(nestedIndex, i)), 0, |c.items|)
    ensures var r := Step(res, c, i, isVList, nestedIndex);
            DistinctListKeys(r) && Below(r, PathOf(nestedIndex), 0, i + 1)
  {
    hide DistinctListKeys, Below, Put, Join, WithListKey, Norm;
    var p := PathOf(nestedIndex);
    Wider(res, p, i);
    match c
    case Undefined =>
    case Boolean(_) =>
    case Primitive(s) =>
      NoKeyBelow(TextVn(s, NO_MARK), p, i);
      PutKeys(res, TextVn(s, NO_MARK), p, i);
    case Single(n) =>
      ListKeyPlace(n, isVList, i, nestedIndex);
      PutKeys(res, WithListKey(n, isVList, i, nestedIndex), p, i);
    case Nested(items, vlist) =>
      var ns := Norm(items, vlist, Deeper(nestedIndex, i));
      Deeper1(ns, p, i, |items|);
      JoinKeys(res, ns, p, i);
  }

  lemma NoKeyBelow(n: Vn, p: seq<nat>, i: nat)
    requires !HasListKey(n)
    ensures Below([n], p, i, i + 1)
  {
  }

  // No two vnodes of a normalized array get the same generated key.
  lemma {:induction false} NormKeys(cs: seq<Child>, isVList: bool, nestedIndex: Option<seq<nat>>)
    requires AllUnlisted(cs)
    ensures DistinctListKeys(Norm(cs, isVList, nestedIndex)) && Below(Norm(cs, isVList, nestedIndex), PathOf(nestedIndex), 0, |cs|)
    decreases cs, 1
  {
    LoopKeys(cs, |cs|, isVList, nestedIndex);
  }

  lemma {:induction false} LoopKeys(cs: seq<Child>, n: nat, isVList: bool, nestedIndex: Option<seq<nat>>)
    requires n <= |cs| && AllUnlisted(cs)
    ensures DistinctListKeys(Loop(cs, n, isVList, nestedIndex)) && Below(Loop(cs, n, isVList, nestedIndex), PathOf(nestedIndex), 0, n)
    decreases cs, 0, n
  {
    if n > 0 {
      var c := cs[n - 1];
      LoopKeys(cs, n - 1, isVList, nestedIndex);
      assert Unlisted(c);
      if c.Nested? {
        NormKeys(c.items, c.isVList, Deeper(nestedIndex, n - 1));
      }
      hide DistinctListKeys, Below, Step, Unlisted, AllUnlisted;
      StepKeys(Loop(cs, n - 1, isVList, nestedIndex), c, n - 1, isVList, nestedIndex);
    }
  }

  // In a v-for list every element without a key of its own gets one, and the
  // others keep theirs.
  lemma {:induction false} ListKeyed(ns: seq<Vn>, n: nat, path: seq<nat>)
    requires n <= |ns| && forall i :: 0 <= i < |ns| ==> ns[i].ElemVn? || ns[i].CompVn?
    ensures var r := Loop(Singles(ns), n, true, Some(path));
            |r| == n && forall i :: 0 <= i < n ==>
              (r[i].ElemVn? || r[i].CompVn?) && Erase(r[i]) == Erase(ns[i]) &&
              r[i].mark.key == if ns[i].mark.key == None then Some(VList(path, i)) else ns[i].mark.key
  {
    hide *;
    LoopStart(Singles(ns), true, Some(path));
    if n > 0 {
      var before, m := Loop(Singles(ns), n - 1, true, Some(path)), ns[n - 1];
      ListKeyed(ns, n - 1, path);
      SinglesAt(ns, n - 1);
      LoopNext(Singles(ns), n - 1, true, Some(path));
      ElementKeyed(before, m, n - 1, path);
    }
  }

  lemma SinglesAt(ns: seq<Vn>, i: nat)
    requires i < |ns|
    ensures |Singles(ns)| == |ns| && Singles(ns)[i] == Single(ns[i])
  {
  }

  lemma ElementKeyed(res: seq<Vn>, n: Vn, i: nat, path: seq<nat>)
    requires n.ElemVn? || n.CompVn?
    ensures var m := WithListKey(n, true, i, Some(path));
            && Step(res, Single(n), i, true, Some(path)) == res + [m]
            && (m.ElemVn? || m.CompVn?) && Erase(m) == Erase(n)
            && m.mark.key == if n.mark.key == None then Some(VList(path, i)) else n.mark.key
  {
  }
}
