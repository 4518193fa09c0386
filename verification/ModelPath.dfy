// parseModel: splitting the expression of a v-model into the path of an
// object and its last key.
module ModelPath {
  import opened Sequences

  datatype Split = Split(exp: string, key: Option<string>)

  function TrimStart(s: string): string {
    if s != "" && IsSpace(s[0]) then TrimStart(s[1..]) else s
  }

  function TrimEnd(s: string): string {
    if s != "" && IsSpace(s[|s| - 1]) then TrimEnd(s[..|s| - 1]) else s
  }

  function Trim(s: string): string {
    TrimEnd(TrimStart(s))
  }

  // Trimming takes all the white space off both ends, and nothing else.
  lemma TrimExactly(s: string) returns (before: string, after: string)
    ensures s == before + Trim(s) + after && AllSpaces(before) && AllSpaces(after)
    ensures Trim(s) != "" ==> !IsSpace(Trim(s)[0]) && !IsSpace(Trim(s)[|Trim(s)| - 1])
    ensures Trim(s) == "" <==> AllSpaces(s)
  {
    var t := TrimStart(s);
    before := TrimmedStart(s);
    after := TrimmedEnd(t);
    if Trim(s) != "" {
      assert Trim(s)[0] == t[0] == s[|before|];
    }
    assert s == before + Trim(s) + after;
  }

  lemma {:induction false} TrimmedStart(s: string) returns (before: string)
    ensures s == before + TrimStart(s) && AllSpaces(before)
    ensures TrimStart(s) != "" ==> !IsSpace(TrimStart(s)[0])
  {
    before := "";
    if s != "" && IsSpace(s[0]) {
      before := TrimmedStart(s[1..]);
      before := [s[0]] + before;
    }
  }

  lemma {:induction false} TrimmedEnd(s: string) returns (after: string)
    ensures s == TrimEnd(s) + after && AllSpaces(after)
    ensures TrimEnd(s) != "" ==> !IsSpace(TrimEnd(s)[|TrimEnd(s)| - 1])
  {
    after := "";
    if s != "" && IsSpace(s[|s| - 1]) {
      after := TrimmedEnd(s[..|s| - 1]);
      after := after + [s[|s| - 1]];
    }
  }

  function LastIndexOf(s: string, c: char): (pos: int)
    ensures -1 <= pos < |s|
    ensures pos >= 0 ==> s[pos] == c
    ensures forall i :: pos < i < |s| ==> s[i] != c
  {
    if s == "" then -1 else if s[|s| - 1] == c then |s| - 1 else LastIndexOf(s[..|s| - 1], c)
  }

  // slice, for bounds within the string; empty if they are out of order
  function Slice(s: string, lo: nat, hi: nat): string
    requires hi <= |s|
  {
    if lo <= hi then s[lo..hi] else ""
  }

  predicate IsQuote(c: char) {
    c == '"' || c == '\''
  }

  // ----- reading the brackets of a path character by character

  // `open` is the quote of the string being read, `depth` counts brackets,
  // `pos` and `end` are where the last outermost pair opened and closed.
  datatype Scan = Scan(open: Option<char>, depth: nat, pos: nat, end: nat)

  function Next(t: Scan, i: nat, c: char): Scan {
    if t.open.Some? then (if c == t.open.value then t.(open := None) else t)
    else if IsQuote(c) then t.(open := Some(c))
    else if c == '[' then (if t.depth == 0 then Scan(None, 1, i, t.end) else t.(depth := t.depth + 1))
    else if c == ']' && t.depth > 0 then
      (if t.depth == 1 then Scan(None, 0, t.pos, i) else t.(depth := t.depth - 1))
    else t
  }

  // The characters at lo, ..., hi - 1 of the string.
  function ScanFrom(t: Scan, s: string, lo: nat, hi: nat): Scan
    requires lo <= hi <= |s|
    decreases hi
  {
    if lo == hi then t else Next(ScanFrom(t, s, lo, hi - 1), hi - 1, s[hi - 1])
  }

  const START := Scan(None, 0, 0, 0)

  // The character at 0 is never looked at.
  function Scanned(s: string, hi: nat): Scan
    requires hi <= |s|
  {
    if hi == 0 then START else ScanFrom(START, s, 1, hi)
  }

  predicate HasBrackets(s: string) {
    '[' in s && s != "" && s[|s| - 1] == ']'
  }

  function SplitOf(val: string): Split {
    var s := Trim(val);
    if HasBrackets(s) then
      var t := Scanned(s, |s|);
      ScanBounds(s, |s|);
      Split(s[..t.pos], Some(Slice(s, t.pos + 1, t.end)))
    else
      var dot := LastIndexOf(s, '.');
      if dot >= 0 then Split(s[..dot], Some("\"" + s[dot + 1..] + "\"")) else Split(s, None)
  }

  lemma {:induction false} ScanBounds(s: string, hi: nat)
    requires hi <= |s|
    ensures Scanned(s, hi).pos <= hi && Scanned(s, hi).end <= hi
  {
    if hi > 1 {
      ScanBounds(s, hi - 1);
    }
  }

  class PathParser {
    var str: string
    var index: nat
    var expressionPos: nat
    var expressionEndPos: nat

    constructor ()
      ensures str == "" && index == 0
    {
      str, index, expressionPos, expressionEndPos := "", 0, 0, 0;
    }

    // What has been read, inside the given string and bracket depth.
    ghost predicate At(open: Option<char>, depth: nat)
      reads this
    {
      index <= |str| &&
      Scan(open, depth, expressionPos, expressionEndPos) == Scanned(str, if index < |str| then index + 1 else index)
    }

    function Eof(): bool
      reads this
    {
      index >= |str|
    }

    // The character at the next position; None behind the end.
    method Advance() returns (c: Option<char>)
      requires index < |str|
      modifies this`index
      ensures index == old(index) + 1
      ensures c == if index < |str| then Some(str[index]) else None
    {
      index := index + 1;
      c := if index < |str| then Some(str[index]) else None;
    }

    method ParseString(quote: char, ghost depth: nat)
      requires At(Some(quote), depth)
      modifies this`index
      ensures old(index) <= index
      ensures At(None, depth) || (Eof() && At(Some(quote), depth))
    {
      while !Eof()
        invariant old(index) <= index
        invariant At(Some(quote), depth)
        decreases |str| - index
      {
        var c := Advance();
        if c == Some(quote) {
          break;
        }
      }
    }

    method ParseBracket()
      requires index < |str| && index > 0 && str[index] == '['
      requires Scan(None, 0, expressionPos, expressionEndPos) == Scanned(str, index)
      modifies this`index, this`expressionPos, this`expressionEndPos
      ensures old(index) <= index
      ensures At(None, 0) || (Eof() && exists open: Option<char>, depth: nat :: At(open, depth))
    {
      var inBracket := 1;
      expressionPos := index;
      while !Eof()
        invariant old(index) <= index && inBracket > 0
        invariant At(None, inBracket) || (Eof() && exists open: Option<char>, depth: nat :: At(open, depth))
        decreases |str| - index
      {
        var c := Advance();
        if c.Some? && IsQuote(c.value) {
          ParseString(c.value, inBracket);
          continue;
        }
        if c == Some('[') {
          inBracket := inBracket + 1;
        }
        if c == Some(']') {
          inBracket := inBracket - 1;
        }
        if inBracket == 0 {
          expressionEndPos := index;
          break;
        }
      }
    }

    method ParseModel(val: string) returns (res: Split)
      modifies this
      ensures res == SplitOf(val)
    {
      var s := Trim(val);
      if !('[' in s) || LastIndexOf(s, ']') < |s| - 1 {
        var dot := LastIndexOf(s, '.');
        return if dot > -1 then Split(s[..dot], Some("\"" + s[dot + 1..] + "\"")) else Split(s, None);
      }
      str := s;
      index, expressionPos, expressionEndPos := 0, 0, 0;
      while !Eof()
        invariant str == s
        invariant At(None, 0) || (Eof() && exists open: Option<char>, depth: nat :: At(open, depth))
        decreases |str| - index
      {
        var c := Advance();
        if c.Some? && IsQuote(c.value) {
          ParseString(c.value, 0);
        } else if c == Some('[') {
          ParseBracket();
        }
      }
      ScanBounds(s, |s|);
      return Split(s[..expressionPos], Some(Slice(s, expressionPos + 1, expressionEndPos)));
    }
  }

  // ----- printing and parsing again

  function Printed(base: string, key: string): string {
    base + "[" + key + "]"
  }

  // At the end of base, no string and no bracket is open.
  predicate Outside(base: string) {
    var t := Scanned(base, |base|);
    t.open.None? && t.depth == 0
  }

  // What reading the first characters of a key does inside a bracket.
  function Within(key: string, hi: nat): Scan
    requires hi <= |key|
  {
    ScanFrom(START.(depth := 1), key, 0, hi)
  }

  // The key does not close the bracket it is in, and at its end no string
  // and no further bracket is open.
  predicate Encloses(key: string) {
    (forall i :: 0 <= i < |key| ==> Within(key, i).depth > 0) &&
    Within(key, |key|).open.None? && Within(key, |key|).depth == 1
  }

  // ----- what a path is made of

  // Characters, groups in brackets, and strings in quotes, one after another.
  datatype Key =
    | Empty
    | Plain(before: Key, c: char)
    | Group(before: Key, inner: Key)
    | Quoted(before: Key, quote: char, text: string)

  function Show(k: Key): string {
    match k
    case Empty => ""
    case Plain(before, c) => Show(before) + [c]
    case Group(before, inner) => Show(before) + "[" + Show(inner) + "]"
    case Quoted(before, quote, text) => Show(before) + [quote] + text + [quote]
  }

  // Quotes only around strings that do not contain them, brackets only in
  // pairs; at the top level a closing bracket may stand alone.
  predicate Good(k: Key, top: bool) {
    match k
    case Empty => true
    case Plain(before, c) => Good(before, top) && c != '"' && c != '\'' && c != '[' && (c == ']' ==> top)
    case Group(before, inner) => Good(before, top) && Good(inner, false)
    case Quoted(before, quote, text) => Good(before, top) && (quote == '"' || quote == '\'') && quote !in text
  }

  // No group at the top level.
  predicate Flat(k: Key) {
    match k
    case Empty => true
    case Plain(before, _) => Flat(before)
    case Group(_, _) => false
    case Quoted(before, _, _) => Flat(before)
  }

  lemma {:induction false} ScanJoin(t: Scan, s: string, lo: nat, mid: nat, hi: nat)
    requires lo <= mid <= hi <= |s|
    ensures ScanFrom(t, s, lo, hi) == ScanFrom(ScanFrom(t, s, lo, mid), s, mid, hi)
    decreases hi
  {
    if mid < hi {
      ScanJoin(t, s, lo, mid, hi - 1);
    }
  }

  // Inside a string nothing changes until its quote comes again.
  lemma {:induction false} StringScan(t: Scan, s: string, lo: nat, hi: nat)
    requires lo <= hi <= |s| && t.open.Some? && forall i :: lo <= i < hi ==> s[i] != t.open.value
    ensures ScanFrom(t, s, lo, hi) == t
    decreases hi
  {
    if lo < hi {
      StringScan(t, s, lo, hi - 1);
    }
  }

  // From one place of a string on, it reads as this key.
  predicate StandsAt(k: Key, s: string, lo: nat) {
    lo + |Show(k)| <= |s| && s[lo..lo + |Show(k)|] == Show(k)
  }

  lemma SubSlice(s: string, lo: nat, w: string, i: nat, j: nat)
    requires lo + |w| <= |s| && s[lo..lo + |w|] == w && i <= j <= |w|
    ensures s[lo + i..lo + j] == w[i..j]
  {
    forall k | 0 <= k < j - i
      ensures s[lo + i..lo + j][k] == w[i..j][k]
    {
      assert s[lo..lo + |w|][i + k] == w[i + k];
    }
  }

  // A string between two characters, behind another string.
  lemma Between(s: string, lo: nat, a: string, x: char, b: string, y: char)
    requires lo + |a| + |b| + 2 <= |s| && s[lo..lo + |a| + |b| + 2] == a + [x] + b + [y]
    ensures var n := lo + |a|;
            s[lo..n] == a && s[n] == x && s[n + 1..n + 1 + |b|] == b && s[n + 1 + |b|] == y
  {
    var w, n := a + [x] + b + [y], |a|;
    SubSlice(s, lo, w, 0, n);
    SubSlice(s, lo, w, n + 1, n + 1 + |b|);
    assert w[..n] == a;
    assert w[n + 1..n + 1 + |b|] == b;
    assert s[lo + n] == w[n] && s[lo + n + 1 + |b|] == w[n + 1 + |b|];
  }

  lemma StandsPlain(k: Key, s: string, lo: nat)
    requires k.Plain? && StandsAt(k, s, lo)
    ensures |Show(k)| == |Show(k.before)| + 1 && lo + |Show(k)| <= |s|
    ensures StandsAt(k.before, s, lo) && s[lo + |Show(k.before)|] == k.c
  {
    var a := Show(k.before);
    SubSlice(s, lo, Show(k), 0, |a|);
    assert Show(k)[..|a|] == a;
    assert s[lo + |a|] == Show(k)[|a|];
  }

  lemma StandsGroup(k: Key, s: string, lo: nat)
    requires k.Group? && StandsAt(k, s, lo)
    ensures |Show(k)| == |Show(k.before)| + |Show(k.inner)| + 2 && lo + |Show(k)| <= |s|
    ensures var n := lo + |Show(k.before)|;
            StandsAt(k.before, s, lo) && s[n] == '[' && StandsAt(k.inner, s, n + 1) && s[n + 1 + |Show(k.inner)|] == ']'
  {
    Between(s, lo, Show(k.before), '[', Show(k.inner), ']');
  }

  lemma StandsQuoted(k: Key, s: string, lo: nat)
    requires k.Quoted? && StandsAt(k, s, lo)
    ensures |Show(k)| == |Show(k.before)| + |k.text| + 2 && lo + |Show(k)| <= |s|
    ensures var n := lo + |Show(k.before)|;
            StandsAt(k.before, s, lo) && s[n] == k.quote && s[n + 1..n + 1 + |k.text|] == k.text &&
            s[n + 1 + |k.text|] == k.quote
  {
    Between(s, lo, Show(k.before), k.quote, k.text, k.quote);
  }

  // Reading on inside a string.
  lemma QuotedScan(t: Scan, s: string, lo: nat, text: string, i: nat)
    requires t.open.Some? && t.open.value !in text && lo <= i <= lo + |text| <= |s| && s[lo..lo + |text|] == text
    ensures ScanFrom(t, s, lo, i) == t
  {
    forall j | lo <= j < i
      ensures s[j] != t.open.value
    {
      assert s[j] == text[j - lo];
    }
    StringScan(t, s, lo, i);
  }

  lemma StandsWithin(k: Key, s: string, lo: nat)
    requires StandsAt(k, s, lo)
    ensures lo + |Show(k)| <= |s|
  {
  }

  // A good key is read through, and leaves strings and brackets as they were.
  predicate Passes(t: Scan, s: string, lo: nat, hi: nat)
    requires lo <= hi <= |s|
  {
    ScanFrom(t, s, lo, hi).open.None? && ScanFrom(t, s, lo, hi).depth == t.depth &&
    forall i :: lo <= i <= hi ==> ScanFrom(t, s, lo, i).depth >= t.depth
  }

  lemma PassesOne(t: Scan, s: string, lo: nat, n: nat)
    requires lo <= n < |s| && Passes(t, s, lo, n)
    requires s[n] != '"' && s[n] != '\'' && s[n] != '[' && (s[n] == ']' ==> t.depth == 0)
    ensures Passes(t, s, lo, n + 1)
  {
    assert ScanFrom(t, s, lo, n + 1) == Next(ScanFrom(t, s, lo, n), n, s[n]);
  }

  lemma PassesGroup(t: Scan, s: string, lo: nat, n: nat, m: nat)
    requires lo <= n < m < |s| && Passes(t, s, lo, n) && s[n] == '[' && s[m] == ']'
    requires Passes(ScanFrom(t, s, lo, n + 1), s, n + 1, m)
    ensures Passes(t, s, lo, m + 1)
  {
    var u := ScanFrom(t, s, lo, n + 1);
    assert u == Next(ScanFrom(t, s, lo, n), n, '[') && u.depth == t.depth + 1;
    forall i | lo <= i <= m
      ensures ScanFrom(t, s, lo, i).depth >= t.depth
      ensures i > n ==> ScanFrom(t, s, lo, i) == ScanFrom(u, s, n + 1, i)
    {
      if i > n {
        ScanJoin(t, s, lo, n + 1, i);
      }
    }
    assert ScanFrom(t, s, lo, m + 1) == Next(ScanFrom(t, s, lo, m), m, ']');
  }

  lemma PassesQuoted(t: Scan, s: string, lo: nat, n: nat, text: string)
    requires lo <= n && n + 1 + |text| < |s| && Passes(t, s, lo, n) && (s[n] == '"' || s[n] == '\'') && s[n] !in text
    requires s[n + 1..n + 1 + |text|] == text && s[n + 1 + |text|] == s[n]
    ensures Passes(t, s, lo, n + 2 + |text|)
  {
    var u, m := ScanFrom(t, s, lo, n + 1), n + 1 + |text|;
    assert u == Next(ScanFrom(t, s, lo, n), n, s[n]) && u.depth == t.depth && u.open == Some(s[n]);
    forall i | lo <= i <= m
      ensures ScanFrom(t, s, lo, i).depth >= t.depth
      ensures i > n ==> ScanFrom(t, s, lo, i) == u
    {
      if i > n {
        ScanJoin(t, s, lo, n + 1, i);
        QuotedScan(u, s, n + 1, text, i);
      }
    }
    assert ScanFrom(t, s, lo, m + 1) == Next(ScanFrom(t, s, lo, m), m, s[m]);
  }

  lemma {:induction false} GoodScan(k: Key, t: Scan, s: string, lo: nat)
    requires StandsAt(k, s, lo) && t.open.None? && Good(k, t.depth == 0)
    ensures lo + |Show(k)| <= |s| && Passes(t, s, lo, lo + |Show(k)|)
    decreases k
  {
    hide *;
    StandsWithin(k, s, lo);
    GoodParts(k, t.depth == 0);
    match k
    case Empty =>
      NoneShown();
      PassesNone(t, s, lo);
    case Plain(before, c) =>
      StandsPlain(k, s, lo);
      GoodScan(before, t, s, lo);
      PassesOne(t, s, lo, lo + |Show(before)|);
    case Group(before, inner) =>
      StandsGroup(k, s, lo);
      var n := lo + |Show(before)|;
      GoodScan(before, t, s, lo);
      OpeningScan(t, s, lo, n);
      GoodScan(inner, ScanFrom(t, s, lo, n + 1), s, n + 1);
      PassesGroup(t, s, lo, n, n + 1 + |Show(inner)|);
    case Quoted(before, quote, text) =>
      StandsQuoted(k, s, lo);
      GoodScan(before, t, s, lo);
      PassesQuoted(t, s, lo, lo + |Show(before)|, text);
  }

  lemma GoodParts(k: Key, top: bool)
    requires Good(k, top)
    ensures k.Plain? ==> Good(k.before, top) && k.c != '"' && k.c != '\'' && k.c != '[' && (k.c == ']' ==> top)
    ensures k.Group? ==> Good(k.before, top) && Good(k.inner, false)
    ensures k.Quoted? ==> Good(k.before, top) && (k.quote == '"' || k.quote == '\'') && k.quote !in k.text
  {
  }

  lemma PassesNone(t: Scan, s: string, lo: nat)
    requires t.open.None? && lo <= |s|
    ensures Passes(t, s, lo, lo)
  {
  }

  lemma OpeningScan(t: Scan, s: string, lo: nat, n: nat)
    requires lo <= n < |s| && Passes(t, s, lo, n) && s[n] == '['
    ensures var u := ScanFrom(t, s, lo, n + 1); u.open.None? && u.depth == t.depth + 1
  {
  }

  lemma NoneShown()
    ensures Show(Empty) == ""
  {
  }

  // Without groups, outside of brackets, nothing is noted.
  lemma {:induction false} FlatScan(k: Key, t: Scan, s: string, lo: nat)
    requires StandsAt(k, s, lo) && t.open.None? && t.depth == 0 && Good(k, true) && Flat(k)
    ensures lo + |Show(k)| <= |s| && ScanFrom(t, s, lo, lo + |Show(k)|) == t
    decreases k
  {
    hide *;
    StandsWithin(k, s, lo);
    GoodParts(k, true);
    FlatParts(k);
    match k
    case Empty =>
      NoneShown();
      NoneScanned(t, s, lo);
    case Plain(before, c) =>
      StandsPlain(k, s, lo);
      FlatScan(before, t, s, lo);
      FlatOne(t, s, lo, lo + |Show(before)|);
    case Quoted(before, quote, text) =>
      StandsQuoted(k, s, lo);
      FlatScan(before, t, s, lo);
      FlatQuoted(t, s, lo, lo + |Show(before)|, text);
  }

  lemma FlatParts(k: Key)
    requires Flat(k)
    ensures !k.Group? && (!k.Empty? ==> Flat(k.before))
  {
  }

  lemma NoneScanned(t: Scan, s: string, lo: nat)
    requires lo <= |s|
    ensures ScanFrom(t, s, lo, lo) == t
  {
  }

  lemma FlatOne(t: Scan, s: string, lo: nat, n: nat)
    requires lo <= n < |s| && t.open.None? && t.depth == 0 && ScanFrom(t, s, lo, n) == t
    requires s[n] != '"' && s[n] != '\'' && s[n] != '['
    ensures ScanFrom(t, s, lo, n + 1) == t
  {
  }

  lemma FlatQuoted(t: Scan, s: string, lo: nat, n: nat, text: string)
    requires lo <= n && n + 1 + |text| < |s| && t.open.None? && ScanFrom(t, s, lo, n) == t
    requires (s[n] == '"' || s[n] == '\'') && s[n] !in text
    requires s[n + 1..n + 1 + |text|] == text && s[n + 1 + |text|] == s[n]
    ensures ScanFrom(t, s, lo, n + 2 + |text|) == t
  {
    var u, m := ScanFrom(t, s, lo, n + 1), n + 1 + |text|;
    assert u == t.(open := Some(s[n]));
    ScanJoin(t, s, lo, n + 1, m);
    QuotedScan(u, s, n + 1, text, m);
    assert ScanFrom(t, s, lo, m + 1) == Next(u, m, s[m]);
  }

  // The keys of the brackets that are open, the outermost first.
  function ShowAll(ks: seq<Key>): string {
    if ks == [] then ""
    else (if |ks| == 1 then "" else ShowAll(ks[..|ks| - 1]) + "[") + Show(ks[|ks| - 1])
  }

  predicate GoodAll(ks: seq<Key>, top: bool) {
    forall i :: 0 <= i < |ks| ==> Good(ks[i], top && i == 0)
  }

  // The innermost key goes on.
  lemma ShowLast(ks: seq<Key>, k: Key, more: string)
    requires ks != [] && Show(k) == Show(ks[|ks| - 1]) + more
    ensures ShowAll(ks[..|ks| - 1] + [k]) == ShowAll(ks) + more
  {
    hide Show;
    var n := |ks| - 1;
    assert (ks[..n] + [k])[..n] == ks[..n];
  }

  lemma ShowOpened(ks: seq<Key>)
    requires ks != []
    ensures ShowAll(ks + [Empty]) == ShowAll(ks) + "["
  {
    assert (ks + [Empty])[..|ks|] == ks;
  }

  lemma ShowClosed(ks: seq<Key>)
    requires |ks| > 1
    ensures var n := |ks| - 1;
            ShowAll(ks[..n - 1] + [Group(ks[n - 1], ks[n])]) == ShowAll(ks) + "]"
  {
    hide *;
    var n := |ks| - 1;
    var rest, more := ks[..n], "[" + Show(ks[n]) + "]";
    GroupShown(ks[n - 1], ks[n]);
    assert rest[..n - 1] == ks[..n - 1];
    ShowLast(rest, Group(ks[n - 1], ks[n]), more);
    ClosedShown(ks);
  }

  lemma GroupShown(before: Key, inner: Key)
    ensures Show(Group(before, inner)) == Show(before) + ("[" + Show(inner) + "]")
  {
    Bracketed(Show(before), Show(inner));
  }

  lemma ClosedShown(ks: seq<Key>)
    requires |ks| > 1
    ensures ShowAll(ks) + "]" == ShowAll(ks[..|ks| - 1]) + ("[" + Show(ks[|ks| - 1]) + "]")
  {
    hide *;
    LastShown(ks);
    Bracketed(ShowAll(ks[..|ks| - 1]), Show(ks[|ks| - 1]));
  }

  lemma LastShown(ks: seq<Key>)
    requires |ks| > 1
    ensures ShowAll(ks) == ShowAll(ks[..|ks| - 1]) + "[" + Show(ks[|ks| - 1])
  {
  }

  lemma Bracketed(a: string, b: string)
    ensures a + "[" + b + "]" == a + ("[" + b + "]")
  {
  }

  // What has been read so far, taken apart.
  ghost predicate TakenApart(t: Scan, u: Scan, r: string, ks: seq<Key>, text: string) {
    && |ks| == u.depth - t.depth + 1 && ks != [] && GoodAll(ks, t.depth == 0)
    && match u.open
       case None => r == ShowAll(ks)
       case Some(q) => IsQuote(q) && q !in text && r == ShowAll(ks) + [q] + text
  }

  lemma TakenOneMore(t: Scan, u: Scan, r: string, ks: seq<Key>, text: string, i: nat, c: char)
    returns (ls: seq<Key>, more: string)
    requires TakenApart(t, u, r, ks, text) && Next(u, i, c).depth >= t.depth
    ensures TakenApart(t, Next(u, i, c), r + [c], ls, more)
  {
    hide ShowAll;
    var n := |ks| - 1;
    ls, more := ks, "";
    if u.open.Some? {
      if c == u.open.value {
        ls := ks[..n] + [Quoted(ks[n], c, text)];
        ShowLast(ks, Quoted(ks[n], c, text), [c] + text + [c]);
      } else {
        more := text + [c];
      }
    } else if IsQuote(c) {
    } else if c == '[' {
      ls := ks + [Empty];
      ShowOpened(ks);
    } else if c == ']' && u.depth > 0 {
      ls := ks[..n - 1] + [Group(ks[n - 1], ks[n])];
      ShowClosed(ks);
    } else {
      ls := ks[..n] + [Plain(ks[n], c)];
      ShowLast(ks, Plain(ks[n], c), [c]);
    }
  }

  // Whatever never closes a bracket it did not open can be taken apart.
  lemma {:induction false} Taken(t: Scan, s: string, lo: nat, hi: nat) returns (ks: seq<Key>, text: string)
    requires lo <= hi <= |s| && t.open.None?
    requires forall i :: lo <= i <= hi ==> ScanFrom(t, s, lo, i).depth >= t.depth
    ensures TakenApart(t, ScanFrom(t, s, lo, hi), s[lo..hi], ks, text)
    decreases hi
  {
    hide TakenApart, Next;
    if lo == hi {
      ks, text := [Empty], "";
      TakenNone(t);
    } else {
      assert ScanFrom(t, s, lo, hi).depth >= t.depth;
      var js, part := Taken(t, s, lo, hi - 1);
      ks, text := TakenOneMore(t, ScanFrom(t, s, lo, hi - 1), s[lo..hi - 1], js, part, hi - 1, s[hi - 1]);
      assert s[lo..hi - 1] + [s[hi - 1]] == s[lo..hi];
    }
  }

  lemma TakenNone(t: Scan)
    requires t.open.None?
    ensures TakenApart(t, t, "", [Empty], "")
  {
  }

  lemma TakenWhole(t: Scan, u: Scan, r: string, ks: seq<Key>, text: string)
    requires TakenApart(t, u, r, ks, text) && u.open.None? && u.depth == t.depth
    ensures Good(ks[0], t.depth == 0) && Show(ks[0]) == r
  {
  }

  lemma EnclosesExactly(key: string)
    ensures Encloses(key) <==> exists k: Key :: Good(k, false) && Show(k) == key
  {
    var t := START.(depth := 1);
    if Encloses(key) {
      hide TakenApart;
      forall i | 0 <= i <= |key|
        ensures ScanFrom(t, key, 0, i).depth >= 1
      {
        assert ScanFrom(t, key, 0, i) == Within(key, i);
      }
      var ks, text := Taken(t, key, 0, |key|);
      assert key[0..|key|] == key;
      TakenWhole(t, ScanFrom(t, key, 0, |key|), key, ks, text);
    }
    if k: Key :| Good(k, false) && Show(k) == key {
      assert key[0..|key|] == key;
      GoodScan(k, t, key, 0);
    }
  }

  lemma OutsideExactly(base: string)
    requires base != ""
    ensures Outside(base) <==> exists k: Key :: Good(k, true) && Show(k) == base[1..]
  {
    if Outside(base) {
      hide TakenApart;
      var ks, text := Taken(START, base, 1, |base|);
      assert base[1..|base|] == base[1..];
      TakenWhole(START, ScanFrom(START, base, 1, |base|), base[1..], ks, text);
    }
    if k: Key :| Good(k, true) && Show(k) == base[1..] {
      assert base[1..|base|] == base[1..];
      GoodScan(k, START, base, 1);
    }
  }

  lemma {:induction false} PrefixScan(s: string, base: string, hi: nat)
    requires base <= s && hi <= |base|
    ensures Scanned(s, hi) == Scanned(base, hi)
  {
    if hi > 1 {
      PrefixScan(s, base, hi - 1);
    }
  }

  lemma ScanNext(s: string, i: nat)
    requires 0 < i < |s|
    ensures Scanned(s, i + 1) == Next(Scanned(s, i), i, s[i])
  {
  }

  // Where the last group opened and closed, scanning was outside and inside.
  lemma {:induction false} ScanMarks(s: string, hi: nat)
    requires hi <= |s|
    ensures var t := Scanned(s, hi);
            (t.pos > 0 ==> t.pos < hi && Scanned(s, t.pos).open.None? && Scanned(s, t.pos).depth == 0) &&
            (t.end > 0 ==> t.end < hi && Scanned(s, t.end).open.None? && Scanned(s, t.end).depth == 1)
  {
    if hi > 1 {
      ScanMarks(s, hi - 1);
      ScanNext(s, hi - 1);
    }
  }

  // A group that opens later is the later one.
  lemma {:induction false} LaterGroup(s: string, m: nat, n: nat)
    requires 0 < m <= n <= |s| && Scanned(s, m).depth == 0
    ensures Scanned(s, n).depth > 0 ==> Scanned(s, n).pos >= m
    decreases n
  {
    if m < n {
      LaterGroup(s, m, n - 1);
      ScanNext(s, n - 1);
    }
  }

  // Inside its bracket the key is read as it is on its own.
  lemma {:induction false} KeyScan(base: string, key: string, j: nat)
    requires base != "" && Outside(base) && j <= |key|
    requires forall i :: 0 <= i < j ==> Within(key, i).depth > 0
    ensures var t := Scanned(Printed(base, key), |base| + 1 + j);
            t.open == Within(key, j).open && t.depth == Within(key, j).depth && t.pos == |base|
  {
    var s := Printed(base, key);
    if j == 0 {
      PrefixScan(s, base, |base|);
      ScanNext(s, |base|);
    } else {
      KeyScan(base, key, j - 1);
      ScanNext(s, |base| + j);
      assert s[|base| + j] == key[j - 1];
      assert Within(key, j) == Next(Within(key, j - 1), j - 1, key[j - 1]);
    }
  }

  lemma SpelledTrim(base: string, key: string, rest: string)
    requires base != "" && !IsSpace(base[0]) && (rest != "" ==> rest[|rest| - 1] == ']')
    ensures Trim(Printed(base, key) + rest) == Printed(base, key) + rest && HasBrackets(Printed(base, key) + rest)
  {
    var s := Printed(base, key) + rest;
    assert s[0] == base[0] && s[|s| - 1] == ']' && s[|base|] == '[';
  }

  // Nothing that follows the group is a group.
  lemma RoundTrip(base: string, key: string, rest: Key)
    requires base != "" && !IsSpace(base[0])
    requires Outside(base) && Encloses(key) && Good(rest, true) && Flat(rest)
    requires Show(rest) != "" ==> Show(rest)[|Show(rest)| - 1] == ']'
    ensures SplitOf(Printed(base, key) + Show(rest)) == Split(base, Some(key))
  {
    hide *;
    var s := Printed(base, key) + Show(rest);
    SpelledTrim(base, key, Show(rest));
    GroupScanned(base, key);
    RestScanned(Printed(base, key), rest);
    PrintedParts(base, key, Show(rest));
    SplitBrackets(s);
  }

  lemma GroupScanned(base: string, key: string)
    requires base != "" && Outside(base) && Encloses(key)
    ensures var r := Printed(base, key);
            r != "" && |r| == |base| + |key| + 2 && Scanned(r, |r|) == Scan(None, 0, |base|, |r| - 1)
  {
    var r := Printed(base, key);
    KeyScan(base, key, |key|);
    ScanNext(r, |r| - 1);
  }

  lemma RestScanned(r: string, rest: Key)
    requires r != "" && Scanned(r, |r|).open.None? && Scanned(r, |r|).depth == 0 && Good(rest, true) && Flat(rest)
    ensures Scanned(r + Show(rest), |r + Show(rest)|) == Scanned(r, |r|)
  {
    var s := r + Show(rest);
    PrefixScan(s, r, |r|);
    FlatScan(rest, Scanned(r, |r|), s, |r|);
    ScanJoin(START, s, 1, |r|, |s|);
  }

  lemma PrintedParts(base: string, key: string, rest: string)
    ensures var s := Printed(base, key) + rest;
            |s| == |base| + |key| + 2 + |rest| && s[..|base|] == base && Slice(s, |base| + 1, |base| + 1 + |key|) == key
  {
  }

  lemma SplitBrackets(s: string)
    requires Trim(s) == s && HasBrackets(s)
    ensures var t := Scanned(s, |s|);
            t.pos <= |s| && t.end <= |s| && SplitOf(s) == Split(s[..t.pos], Some(Slice(s, t.pos + 1, t.end)))
  {
    ScanBounds(s, |s|);
  }

  lemma RoundTripOnly(base: string, key: string)
    requires base != "" && !IsSpace(base[0])
    requires SplitOf(Printed(base, key)) == Split(base, Some(key))
    ensures Outside(base) && Encloses(key)
  {
    var s := Printed(base, key);
    var t := Scanned(s, |s|);
    SpelledTrim(base, key, "");
    assert s + "" == s;
    ScanBounds(s, |s|);
    ScanMarks(s, |s|);
    assert t.pos == |base|;
    PrefixScan(s, base, |base|);
    if key != "" {
      assert t.end == |s| - 1;
      KeyStays(base, key, |key|);
      KeyScan(base, key, |key|);
    }
  }

  lemma {:induction false} KeyStays(base: string, key: string, j: nat)
    requires base != "" && Outside(base) && j <= |key|
    requires var s := Printed(base, key);
             Scanned(s, |s| - 1).depth > 0 && Scanned(s, |s|).pos == |base| && Scanned(s, |s| - 1).pos == |base|
    ensures forall i :: 0 <= i < j ==> Within(key, i).depth > 0
  {
    if j > 0 {
      KeyStays(base, key, j - 1);
      KeyScan(base, key, j - 1);
      var s := Printed(base, key);
      if Within(key, j - 1).depth == 0 {
        LaterGroup(s, |base| + j, |s| - 1);
        assert false;
      }
    }
  }

  // A path and a key are found again exactly if every bracket and every
  // string in them is complete; only outside of brackets a closing one may be
  // left over. The first character of the path may be any but white space.
  lemma RoundTripExactly(base: string, key: string)
    ensures SplitOf(Printed(base, key)) == Split(base, Some(key)) <==>
            (base == "" && key == "") ||
            (base != "" && !IsSpace(base[0]) &&
             (exists path: Key :: Good(path, true) && Show(path) == base[1..]) &&
             (exists inner: Key :: Good(inner, false) && Show(inner) == key))
  {
    if base == "" {
      NoBase(key);
    } else if IsSpace(base[0]) {
      SpaceLost(Printed(base, key));
    } else {
      OutsideExactly(base);
      EnclosesExactly(key);
      if Outside(base) && Encloses(key) {
        RoundTrip(base, key, Empty);
        assert Printed(base, key) + "" == Printed(base, key);
      }
      if SplitOf(Printed(base, key)) == Split(base, Some(key)) {
        RoundTripOnly(base, key);
      }
    }
  }

  // A path that is only a group is not recognized as one.
  lemma NoBase(key: string)
    ensures SplitOf(Printed("", key)) == Split("", Some(key)) <==> key == ""
  {
    var s := Printed("", key);
    assert s[0] == '[' && s[|s| - 1] == ']';
    assert Trim(s) == s && HasBrackets(s);
    ScanOpened(s, |s|);
    SplitBrackets(s);
    if key == "" {
      assert Scanned(s, 2) == Next(Scanned(s, 1), 1, ']');
    }
  }

  // Nothing is closed before it is opened.
  lemma {:induction false} ScanOpened(s: string, hi: nat)
    requires hi <= |s|
    ensures var t := Scanned(s, hi); t.pos == 0 ==> t.end == 0 && t.depth == 0
  {
    if hi > 1 {
      ScanOpened(s, hi - 1);
      ScanNext(s, hi - 1);
    }
  }

  lemma SpaceLost(s: string)
    ensures SplitOf(s).exp != "" ==> !IsSpace(SplitOf(s).exp[0])
  {
    var before, after := TrimExactly(s);
    if HasBrackets(Trim(s)) {
      ScanBounds(Trim(s), |Trim(s)|);
    }
  }

  // In any path with brackets the last complete group is the key: what is in
  // front of it is the object, and closing brackets behind it do not matter.
  lemma LastGroup(first: char, path: Key, key: Key, rest: Key)
    requires !IsSpace(first) && Good(path, true) && Good(key, false) && Good(rest, true) && Flat(rest)
    requires Show(rest) != "" ==> Show(rest)[|Show(rest)| - 1] == ']'
    ensures SplitOf([first] + Show(path) + "[" + Show(key) + "]" + Show(rest)) ==
            Split([first] + Show(path), Some(Show(key)))
  {
    hide *;
    var base := [first] + Show(path);
    assert base[1..] == Show(path);
    OutsideExactly(base);
    EnclosesExactly(Show(key));
    RoundTrip(base, Show(key), rest);
    Spelled(base, Show(key));
  }

  lemma Spelled(base: string, key: string)
    ensures Printed(base, key) == base + "[" + key + "]"
  {
  }

  // Groups may follow one another: the last one is the key.
  lemma GroupOutside(base: string, key: string)
    requires base != "" && Outside(base) && Encloses(key)
    ensures Outside(Printed(base, key))
  {
    KeyScan(base, key, |key|);
    ScanNext(Printed(base, key), |base| + 1 + |key|);
  }

  // Names without quotes and brackets need no care.
  predicate Name(s: string) {
    forall i :: 0 <= i < |s| ==> !IsQuote(s[i]) && s[i] != '[' && s[i] != ']'
  }

  lemma {:induction false} NameScan(s: string, t: Scan, lo: nat, hi: nat)
    requires Name(s) && lo <= hi <= |s| && t.open.None?
    ensures ScanFrom(t, s, lo, hi) == t
    decreases hi
  {
    if hi > lo {
      NameScan(s, t, lo, hi - 1);
    }
  }

  lemma NameEncloses(s: string)
    requires Name(s)
    ensures Encloses(s) && Outside(s)
  {
    forall i | 0 <= i <= |s|
      ensures Within(s, i) == START.(depth := 1)
    {
      NameScan(s, START.(depth := 1), 0, i);
    }
    if s != "" {
      NameScan(s, START, 1, |s|);
    }
  }

  // Without brackets at the end, everything up to the last dot is the object;
  // without a dot, there is no key.
  lemma DotExactly(val: string) returns (name: string)
    requires !HasBrackets(Trim(val))
    ensures '.' !in name
    ensures if '.' in Trim(val) then
              SplitOf(val).key == Some("\"" + name + "\"") && Trim(val) == SplitOf(val).exp + "." + name
            else
              SplitOf(val).key == None && Trim(val) == SplitOf(val).exp
  {
    var s := Trim(val);
    var dot := LastIndexOf(s, '.');
    name := if dot >= 0 then s[dot + 1..] else "";
    if dot >= 0 {
      assert s == s[..dot] + "." + s[dot + 1..];
    }
  }

  // a.b.c
  lemma DotRoundTrip(base: string, key: string)
    requires base != "" && !IsSpace(base[0])
    requires key != "" ==> !IsSpace(key[|key| - 1])
    requires '.' !in key && !HasBrackets(base + "." + key)
    ensures SplitOf(base + "." + key) == Split(base, Some("\"" + key + "\""))
  {
    var s := base + "." + key;
    assert s[0] == base[0] && s[|base|] == '.';
    assert key != "" ==> s[|s| - 1] == key[|key| - 1];
    assert Trim(s) == s;
    var dot := LastIndexOf(s, '.');
    forall k | |base| < k < |s|
      ensures s[k] != '.'
    {
      assert s[k] == key[k - |base| - 1];
    }
    assert s[..dot] == base && s[dot + 1..] == key;
  }
}
