// The HTML parser: start and end events for a stream of tags that need not
// match, and the tree that is built from the events.
module Html {
  import opened Sequences

  datatype Token = StartTag(name: string, unarySlash: bool) | EndTag(name: string) | Chars(text: string)

  datatype Event = Start(tag: string, unary: bool) | End(tag: string)

  function LowerChar(c: char): char {
    if 'A' <= c <= 'Z' then c + 32 as char else c
  }

  function Lower(s: string): (r: string)
    ensures |r| == |s|
  {
    seq(|s|, i requires 0 <= i < |s| => LowerChar(s[i]))
  }

  // The same name when the case of letters is ignored.
  predicate SameName(a: string, b: string) {
    |a| == |b| && forall i :: 0 <= i < |a| ==> SameLetter(a[i], b[i])
  }

  predicate SameLetter(c: char, d: char) {
    || c == d
    || ('A' <= c <= 'Z' && d as int == c as int + 32)
    || ('A' <= d <= 'Z' && c as int == d as int + 32)
  }

  lemma LowerExactly(a: string, b: string)
    ensures Lower(a) == Lower(b) <==> SameName(a, b)
  {
    if Lower(a) == Lower(b) {
      forall i | 0 <= i < |a|
        ensures SameLetter(a[i], b[i])
      {
        assert LowerChar(a[i]) == Lower(a)[i] == Lower(b)[i] == LowerChar(b[i]);
      }
    }
    if SameName(a, b) {
      forall i | 0 <= i < |a|
        ensures Lower(a)[i] == Lower(b)[i]
      {
        assert SameLetter(a[i], b[i]);
      }
    }
  }

  predicate IsUnaryTag(tag: string) {
    tag in {
      "area", "base", "br", "col", "embed", "frame", "hr", "img", "input", "isindex", "keygen",
      "link", "meta", "param", "source", "track", "wbr"}
  }

  predicate CanBeLeftOpenTag(tag: string) {
    tag in {"colgroup", "dd", "dt", "li", "options", "p", "td", "tfoot", "th", "thead", "tr", "source"}
  }

  predicate IsNonPhrasingTag(tag: string) {
    tag in {
      "address", "article", "aside", "base", "blockquote", "body", "caption", "col", "colgroup", "dd",
      "details", "dialog", "div", "dl", "dt", "fieldset", "figcaption", "figure", "footer", "form",
      "h1", "h2", "h3", "h4", "h5", "h6", "head", "header", "hgroup", "hr", "html", "legend", "li", "menuitem", "meta",
      "optgroup", "option", "param", "rp", "rt", "source", "style", "summary", "tbody", "td", "tfoot", "th", "thead",
      "title", "tr", "track"}
  }

  // ----- what the parser does, on the open tags and the events so far

  datatype State = State(tags: seq<string>, events: seq<Event>)

  // lastTag; the empty name stands for none
  function Last(tags: seq<string>): string {
    if tags == [] then "" else tags[|tags| - 1]
  }

  // The end events that close these tags, the innermost first.
  function Ends(tags: seq<string>): seq<Event> {
    if tags == [] then [] else [End(tags[|tags| - 1])] + Ends(tags[..|tags| - 1])
  }

  // Position of the closest open tag with this lower-case name, or -1.
  function Closest(tags: seq<string>, lower: string): (pos: int)
    ensures -1 <= pos < |tags|
    ensures pos >= 0 ==> Lower(tags[pos]) == lower
    ensures forall i :: pos < i < |tags| ==> Lower(tags[i]) != lower
  {
    if tags == [] then -1
    else if Lower(tags[|tags| - 1]) == lower then |tags| - 1
    else Closest(tags[..|tags| - 1], lower)
  }

  function CloseTo(s: State, pos: nat): State
    requires pos <= |s.tags|
  {
    State(s.tags[..pos], s.events + Ends(s.tags[pos..]))
  }

  function Ended(s: State, name: string): State {
    var pos := if name == "" then 0 else Closest(s.tags, Lower(name));
    if pos >= 0 then CloseTo(s, pos)
    else if Lower(name) == "br" then State(s.tags, s.events + [Start(name, true)])
    else if Lower(name) == "p" then State(s.tags, s.events + [Start(name, false), End(name)])
    else s
  }

  // Which tags an end tag closes: everything down to the closest open one of
  // its name, case ignored. Without one, br and p still leave an element.
  lemma EndedExactly(s: State, name: string)
    requires name != ""
    ensures forall pos: nat ::
              pos < |s.tags| && SameName(s.tags[pos], name) && (forall i :: pos < i < |s.tags| ==> !SameName(s.tags[i], name)) ==>
                Closes(s, pos, Ended(s, name))
    ensures (forall i :: 0 <= i < |s.tags| ==> !SameName(s.tags[i], name)) ==>
              Ended(s, name).tags == s.tags &&
              Ended(s, name).events ==
              s.events +
              if SameName(name, "br") then [Start(name, true)]
              else if SameName(name, "p") then [Start(name, false), End(name)]
              else []
  {
    hide Ends;
    var pos := Closest(s.tags, Lower(name));
    LowerExactly(name, "br");
    LowerExactly(name, "p");
    LowerNames();
    forall i | 0 <= i < |s.tags|
      ensures SameName(s.tags[i], name) <==> Lower(s.tags[i]) == Lower(name)
    {
      LowerExactly(s.tags[i], name);
    }
    if pos >= 0 {
      EndsAt(s.tags[pos..]);
      assert SameName(s.tags[pos], name);
    }
  }

  // From some position on, the tags are closed, the innermost first.
  ghost predicate Closes(s: State, pos: nat, t: State) {
    && pos <= |s.tags| && t.tags == s.tags[..pos] && |t.events| == |s.events| + |s.tags| - pos && s.events <= t.events
    && forall k :: pos <= k < |s.tags| ==> t.events[|s.events| + |s.tags| - 1 - k] == End(s.tags[k])
  }

  lemma LowerNames()
    ensures Lower("br") == "br" && Lower("p") == "p"
  {
  }

  lemma {:induction false} EndsAt(tags: seq<string>)
    ensures |Ends(tags)| == |tags|
    ensures forall i :: 0 <= i < |tags| ==> Ends(tags)[i] == End(tags[|tags| - 1 - i])
  {
    if tags != [] {
      EndsAt(tags[..|tags| - 1]);
    }
  }

  function Implied(expectHTML: bool, s: State, name: string): State {
    var s := if expectHTML && Last(s.tags) == "p" && IsNonPhrasingTag(name) then Ended(s, "p") else s;
    if expectHTML && CanBeLeftOpenTag(name) && Last(s.tags) == name then Ended(s, name) else s
  }

  function Started(expectHTML: bool, s: State, name: string, unarySlash: bool): State {
    var s, unary := Implied(expectHTML, s, name), IsUnaryTag(name) || unarySlash;
    State(if unary then s.tags else s.tags + [name], s.events + [Start(name, unary)])
  }

  function Read(expectHTML: bool, s: State, t: Token): State {
    match t
    case StartTag(name, unarySlash) => Started(expectHTML, s, name, unarySlash)
    case EndTag(name) => Ended(s, name)
    case Chars(_) => s
  }

  function ReadAll(expectHTML: bool, tokens: seq<Token>): State {
    if tokens == [] then State([], [])
    else Read(expectHTML, ReadAll(expectHTML, tokens[..|tokens| - 1]), tokens[|tokens| - 1])
  }

  // The events of a whole document: what is left open is closed at its end.
  function Events(expectHTML: bool, tokens: seq<Token>): seq<Event> {
    Ended(ReadAll(expectHTML, tokens), "").events
  }

  // ----- well-nested events

  function OpenAfter(events: seq<Event>): seq<string> {
    if events == [] then []
    else Moved(OpenAfter(events[..|events| - 1]), events[|events| - 1])
  }

  function Moved(tags: seq<string>, e: Event): seq<string> {
    if e.Start? then (if e.unary then tags else tags + [e.tag]) else if tags == [] then [] else tags[..|tags| - 1]
  }

  // An end event names the tag that was opened last.
  predicate Fits(tags: seq<string>, e: Event) {
    e.End? ==> tags != [] && tags[|tags| - 1] == e.tag
  }

  // Nothing that must not be directly inside this parent starts there.
  predicate Allowed(parent: string, tag: string) {
    !(parent == "p" && IsNonPhrasingTag(tag)) && !(parent == tag && CanBeLeftOpenTag(tag))
  }

  predicate Placed(tags: seq<string>, e: Event) {
    e.Start? ==> Allowed(Last(tags), e.tag)
  }

  predicate WellNested(events: seq<Event>) {
    forall k :: 0 <= k < |events| ==> Fits(OpenAfter(events[..k]), events[k])
  }

  predicate WellPlaced(events: seq<Event>) {
    forall k :: 0 <= k < |events| ==> Placed(OpenAfter(events[..k]), events[k])
  }

  // No two neighbours on the stack break the rule.
  predicate Apart(tags: seq<string>) {
    forall i :: 0 <= i < |tags| - 1 ==> Allowed(tags[i], tags[i + 1])
  }

  predicate Sound(expectHTML: bool, s: State) {
    OpenAfter(s.events) == s.tags && WellNested(s.events) && (expectHTML ==> WellPlaced(s.events) && Apart(s.tags))
  }

  lemma Append(events: seq<Event>, e: Event)
    ensures OpenAfter(events + [e]) == Moved(OpenAfter(events), e)
    ensures WellNested(events) && Fits(OpenAfter(events), e) ==> WellNested(events + [e])
    ensures WellPlaced(events) && Placed(OpenAfter(events), e) ==> WellPlaced(events + [e])
  {
    var all := events + [e];
    assert all[..|events|] == events;
    forall k | 0 <= k < |events|
      ensures all[..k] == events[..k] && all[k] == events[k]
    {
    }
  }

  lemma {:induction false} ClosingSound(expectHTML: bool, s: State, pos: nat)
    requires Sound(expectHTML, s) && pos <= |s.tags|
    ensures Sound(expectHTML, CloseTo(s, pos))
    decreases |s.tags| - pos
  {
    hide WellNested, WellPlaced, OpenAfter;
    if pos == |s.tags| {
      assert s.tags[..pos] == s.tags;
      assert s.events + [] == s.events;
    } else {
      var n := |s.tags| - 1;
      var t := State(s.tags[..n], s.events + [End(s.tags[n])]);
      Append(s.events, End(s.tags[n]));
      ClosingSound(expectHTML, t, pos);
      assert s.tags[pos..][..n - pos] == t.tags[pos..];
      assert s.tags[pos..][n - pos] == s.tags[n];
      assert s.events + ([End(s.tags[n])] + Ends(t.tags[pos..])) == t.events + Ends(t.tags[pos..]);
    }
  }

  lemma EndedSound(expectHTML: bool, s: State, name: string)
    requires Sound(expectHTML, s)
    ensures Sound(expectHTML, Ended(s, name))
  {
    hide WellNested, WellPlaced, OpenAfter, IsNonPhrasingTag, CanBeLeftOpenTag, Apart;
    var pos := if name == "" then 0 else Closest(s.tags, Lower(name));
    if pos >= 0 {
      ClosingSound(expectHTML, s, pos);
    } else if Lower(name) == "br" {
      LoneBreak(name);
      Append(s.events, Start(name, true));
    } else if Lower(name) == "p" {
      LoneParagraph(s.tags, name);
      var es := s.events + [Start(name, false)];
      Append(s.events, Start(name, false));
      Append(es, End(name));
      assert es + [End(name)] == s.events + [Start(name, false), End(name)];
    }
  }

  lemma LoneBreak(name: string)
    requires Lower(name) == "br"
    ensures !IsNonPhrasingTag(name) && !CanBeLeftOpenTag(name)
  {
    assert |name| == 2;
    assert LowerChar(name[0]) == "br"[0] == 'b';
    assert name[0] == 'b' || name[0] == 'B';
  }

  lemma LoneParagraph(tags: seq<string>, name: string)
    requires Closest(tags, Lower(name)) == -1 && Lower(name) == "p"
    ensures Allowed(Last(tags), name)
  {
    hide IsNonPhrasingTag, CanBeLeftOpenTag;
    assert Lower("p") == "p";
    if tags == [] {
      assert name != "";
    } else {
      assert Lower(tags[|tags| - 1]) != "p";
    }
  }

  // Closing the innermost tag by its own name closes nothing else.
  lemma EndedTop(s: State, name: string)
    requires s.tags != [] && Last(s.tags) == name && name != ""
    ensures Ended(s, name) == ClosedTop(s)
  {
    var n := |s.tags| - 1;
    assert Closest(s.tags, Lower(name)) == n;
    assert s.tags[n..] == [name];
    assert Ends([name]) == [End(name)] + Ends([name][..0]);
  }

  lemma ImpliedSound(expectHTML: bool, s: State, name: string)
    requires Sound(expectHTML, s)
    ensures Sound(expectHTML, Implied(expectHTML, s, name))
    ensures expectHTML ==> Allowed(Last(Implied(expectHTML, s, name).tags), name)
  {
    hide WellNested, WellPlaced, OpenAfter, IsNonPhrasingTag, CanBeLeftOpenTag, Ended;
    if expectHTML {
      NamesOpen(name);
      var t := s;
      if Last(s.tags) == "p" && IsNonPhrasingTag(name) {
        EndedSound(expectHTML, s, "p");
        EndedTop(s, "p");
        t := Ended(s, "p");
      }
      if CanBeLeftOpenTag(name) && Last(t.tags) == name {
        EndedSound(expectHTML, t, name);
        EndedTop(t, name);
      }
    }
  }

  // What a start tag closes by itself: a p that must not contain it, and an
  // element of its own name that may be left open; each time the innermost.
  lemma ImpliedExactly(s: State, name: string)
    ensures Implied(false, s, name) == s
    ensures var n := |s.tags|;
            var t := if n > 0 && s.tags[n - 1] == "p" && IsNonPhrasingTag(name) then ClosedTop(s) else s;
            Implied(true, s, name) ==
            if t.tags != [] && t.tags[|t.tags| - 1] == name && CanBeLeftOpenTag(name) then ClosedTop(t) else t
  {
    hide IsNonPhrasingTag, CanBeLeftOpenTag, Ended;
    NamesOpen(name);
    var t := s;
    if s.tags != [] && s.tags[|s.tags| - 1] == "p" && IsNonPhrasingTag(name) {
      EndedTop(s, "p");
      t := Ended(s, "p");
    }
    if t.tags != [] && t.tags[|t.tags| - 1] == name && CanBeLeftOpenTag(name) {
      EndedTop(t, name);
    }
  }

  function ClosedTop(s: State): State
    requires s.tags != []
  {
    State(s.tags[..|s.tags| - 1], s.events + [End(s.tags[|s.tags| - 1])])
  }

  lemma NamesOpen(name: string)
    ensures CanBeLeftOpenTag("p") && (CanBeLeftOpenTag(name) ==> name != "") && !IsNonPhrasingTag("p")
  {
  }

  lemma ReadSound(expectHTML: bool, s: State, t: Token)
    requires Sound(expectHTML, s)
    ensures Sound(expectHTML, Read(expectHTML, s, t))
  {
    hide WellNested, WellPlaced, OpenAfter, IsNonPhrasingTag, CanBeLeftOpenTag, IsUnaryTag, Ended, Implied;
    match t
    case Chars(_) =>
    case EndTag(name) =>
      EndedSound(expectHTML, s, name);
    case StartTag(name, unarySlash) =>
      ImpliedSound(expectHTML, s, name);
      var u := Implied(expectHTML, s, name);
      Append(u.events, Start(name, IsUnaryTag(name) || unarySlash));
  }

  lemma {:induction false} ReadAllSound(expectHTML: bool, tokens: seq<Token>)
    ensures Sound(expectHTML, ReadAll(expectHTML, tokens))
  {
    if tokens != [] {
      ReadAllSound(expectHTML, tokens[..|tokens| - 1]);
      ReadSound(expectHTML, ReadAll(expectHTML, tokens[..|tokens| - 1]), tokens[|tokens| - 1]);
    }
  }

  // However the tags of a document mismatch, its events are well nested and
  // complete; and with expectHTML, nothing starts where it must not.
  lemma DocumentSound(expectHTML: bool, tokens: seq<Token>)
    ensures WellNested(Events(expectHTML, tokens)) && OpenAfter(Events(expectHTML, tokens)) == []
    ensures expectHTML ==> WellPlaced(Events(expectHTML, tokens))
  {
    ReadAllSound(expectHTML, tokens);
    EndedSound(expectHTML, ReadAll(expectHTML, tokens), "");
  }

  // ----- documents without mistakes

  // The tag that a reader of the event would have written.
  function Written(e: Event): Token {
    if e.Start? then StartTag(e.tag, e.unary) else EndTag(e.tag)
  }

  function WrittenAll(events: seq<Event>): (r: seq<Token>)
    ensures |r| == |events| && forall i :: 0 <= i < |events| ==> r[i] == Written(events[i])
  {
    seq(|events|, i requires 0 <= i < |events| => Written(events[i]))
  }

  // Every tag has a name, and void elements are not opened.
  predicate Plausible(e: Event) {
    e.tag != "" && (e.Start? && IsUnaryTag(e.tag) ==> e.unary)
  }

  lemma ReadWritten(expectHTML: bool, s: State, e: Event)
    requires Plausible(e) && Fits(s.tags, e) && (expectHTML ==> Placed(s.tags, e))
    ensures Read(expectHTML, s, Written(e)) == State(Moved(s.tags, e), s.events + [e])
  {
    if e.Start? {
      assert Implied(expectHTML, s, e.tag) == s;
    } else {
      EndedTop(s, e.tag);
    }
  }

  // Tags that match and are where they may be are read as they are written:
  // nothing is closed early, added, dropped or changed.
  lemma {:induction false} Faithful(expectHTML: bool, events: seq<Event>)
    requires WellNested(events) && (expectHTML ==> WellPlaced(events))
    requires forall i :: 0 <= i < |events| ==> Plausible(events[i])
    ensures ReadAll(expectHTML, WrittenAll(events)) == State(OpenAfter(events), events)
  {
    hide *;
    if events == [] {
      NothingRead(expectHTML);
    } else {
      var before, e := events[..|events| - 1], events[|events| - 1];
      Shortened(expectHTML, events);
      Faithful(expectHTML, before);
      ReadLast(expectHTML, events);
      ReadWritten(expectHTML, State(OpenAfter(before), before), e);
      assert before + [e] == events;
    }
  }

  lemma NothingRead(expectHTML: bool)
    ensures ReadAll(expectHTML, WrittenAll([])) == State(OpenAfter([]), [])
  {
  }

  lemma Shortened(expectHTML: bool, events: seq<Event>)
    requires events != [] && WellNested(events) && (expectHTML ==> WellPlaced(events))
    ensures var before, e := events[..|events| - 1], events[|events| - 1];
            WellNested(before) && Fits(OpenAfter(before), e) && OpenAfter(events) == Moved(OpenAfter(before), e) &&
            (expectHTML ==> WellPlaced(before) && Placed(OpenAfter(before), e))
  {
    hide OpenAfter, Fits, Placed;
    var before := events[..|events| - 1];
    forall k | 0 <= k < |before|
      ensures before[..k] == events[..k] && before[k] == events[k]
    {
    }
    LastOpen(events);
  }

  lemma LastOpen(events: seq<Event>)
    requires events != []
    ensures OpenAfter(events) == Moved(OpenAfter(events[..|events| - 1]), events[|events| - 1])
  {
  }

  lemma ReadLast(expectHTML: bool, events: seq<Event>)
    requires events != []
    ensures ReadAll(expectHTML, WrittenAll(events)) ==
            Read(expectHTML, ReadAll(expectHTML, WrittenAll(events[..|events| - 1])), Written(events[|events| - 1]))
  {
    hide Read, Written;
    assert WrittenAll(events)[..|events| - 1] == WrittenAll(events[..|events| - 1]);
  }

  lemma FaithfulDocument(expectHTML: bool, events: seq<Event>)
    requires WellNested(events) && (expectHTML ==> WellPlaced(events)) && OpenAfter(events) == []
    requires forall i :: 0 <= i < |events| ==> Plausible(events[i])
    ensures Events(expectHTML, WrittenAll(events)) == events
  {
    Faithful(expectHTML, events);
  }

  // ----- the tree built from the events

  // Elements and text; interpolated text is an expression node.
  datatype Tree = Element(tag: string, unary: bool, children: seq<Tree>) | Text(text: string, interpolated: bool)

  // An element whose end is still to come, with its children so far.
  datatype Frame = Frame(tag: string, children: seq<Tree>)

  // The builder's stack, the finished trees outside of all elements, of which
  // the first is the root, and whether text is preformatted.
  datatype Building = Building(stack: seq<Frame>, trees: seq<Tree>, inPre: bool)

  const NO_BUILDING := Building([], [], false)

  // How text is decoded, and which text contains an interpolation.
  datatype TextOptions = TextOptions(preserveWhitespace: bool, decode: string -> string, interpolates: string -> bool)

  predicate IsPreTag(tag: string) {
    tag == "pre"
  }

  predicate IsTextTag(tag: string) {
    tag == "script" || tag == "style"
  }

  function Add(b: Building, t: Tree): Building {
    if b.stack == [] then Building([], b.trees + [t], b.inPre)
    else
      var top := b.stack[|b.stack| - 1];
      Building(b.stack[..|b.stack| - 1] + [Frame(top.tag, top.children + [t])], b.trees, b.inPre)
  }

  // closeElement
  function Closed(b: Building, tag: string): Building {
    b.(inPre := b.inPre && !IsPreTag(tag))
  }

  function BuildStart(b: Building, tag: string, unary: bool): Building {
    if unary then Closed(Add(b, Element(tag, true, [])), tag)
    else Building(b.stack + [Frame(tag, [])], b.trees, b.inPre || IsPreTag(tag))
  }

  predicate IsBlank(t: Tree) {
    t.Text? && t.text == " "
  }

  predicate EndsBlank(ts: seq<Tree>) {
    ts != [] && IsBlank(ts[|ts| - 1])
  }

  // A blank at the end of an element goes, unless text is preformatted.
  function Trimmed(ts: seq<Tree>, inPre: bool): seq<Tree> {
    if EndsBlank(ts) && !ts[|ts| - 1].interpolated && !inPre then ts[..|ts| - 1] else ts
  }

  function BuildEnd(b: Building): Building
    requires b.stack != []
  {
    var top := b.stack[|b.stack| - 1];
    Closed(Add(b.(stack := b.stack[..|b.stack| - 1]), Element(top.tag, false, Trimmed(top.children, b.inPre))), top.tag)
  }

  // What becomes of a piece of text inside an element with these children.
  function Cooked(o: TextOptions, f: Frame, inPre: bool, text: string): string {
    if inPre || !AllSpaces(text) then (if IsTextTag(f.tag) then text else o.decode(text))
    else if o.preserveWhitespace && f.children != [] then " "
    else ""
  }

  function WithText(o: TextOptions, ts: seq<Tree>, text: string): seq<Tree> {
    if text == "" then ts
    else if text != " " && o.interpolates(text) then ts + [Text(text, true)]
    else if text != " " || !EndsBlank(ts) then ts + [Text(text, false)]
    else ts
  }

  function BuildChars(b: Building, o: TextOptions, text: string): Building {
    if b.stack == [] then b
    else
      var top := b.stack[|b.stack| - 1];
      var children := WithText(o, top.children, Cooked(o, top, b.inPre, text));
      b.(stack := b.stack[..|b.stack| - 1] + [Frame(top.tag, children)])
  }

  // Reading a tree in document order.
  function Walk(t: Tree): seq<Event>
    decreases t
  {
    match t
    case Text(_, _) => []
    case Element(tag, unary, children) =>
      if unary then [Start(tag, true)] else [Start(tag, false)] + WalkAll(children) + [End(tag)]
  }

  function WalkAll(ts: seq<Tree>): seq<Event>
    decreases ts
  {
    if ts == [] then [] else WalkAll(ts[..|ts| - 1]) + Walk(ts[|ts| - 1])
  }

  function WalkOpen(stack: seq<Frame>): seq<Event> {
    if stack == [] then []
    else
      WalkOpen(stack[..|stack| - 1]) + [Start(stack[|stack| - 1].tag, false)] + WalkAll(stack[|stack| - 1].children)
  }

  function WalkBuilding(b: Building): seq<Event> {
    WalkAll(b.trees) + WalkOpen(b.stack)
  }

  function Tags(stack: seq<Frame>): (r: seq<string>)
    ensures |r| == |stack| && forall i :: 0 <= i < |stack| ==> r[i] == stack[i].tag
  {
    seq(|stack|, i requires 0 <= i < |stack| => stack[i].tag)
  }

  lemma AllOne(ts: seq<Tree>, t: Tree)
    ensures WalkAll(ts + [t]) == WalkAll(ts) + Walk(t)
  {
    assert (ts + [t])[..|ts|] == ts;
  }

  lemma OpenOne(stack: seq<Frame>, f: Frame)
    ensures WalkOpen(stack + [f]) == WalkOpen(stack) + [Start(f.tag, false)] + WalkAll(f.children)
  {
    assert (stack + [f])[..|stack|] == stack;
  }

  lemma AddWalk(b: Building, t: Tree)
    ensures WalkBuilding(Add(b, t)) == WalkBuilding(b) + Walk(t)
    ensures Tags(Add(b, t).stack) == Tags(b.stack)
  {
    hide Walk, WalkAll, WalkOpen;
    if b.stack == [] {
      AllOne(b.trees, t);
      NothingOpen();
    } else {
      var n := |b.stack| - 1;
      var rest, top := b.stack[..n], b.stack[n];
      AllOne(top.children, t);
      OpenOne(rest, Frame(top.tag, top.children + [t]));
      OpenOne(rest, top);
      assert rest + [top] == b.stack;
    }
  }

  lemma NothingOpen()
    ensures WalkOpen([]) == [] && WalkAll([]) == []
  {
  }

  lemma StartWalk(b: Building, tag: string, unary: bool)
    ensures WalkBuilding(BuildStart(b, tag, unary)) == WalkBuilding(b) + [Start(tag, unary)]
    ensures Tags(BuildStart(b, tag, unary).stack) == Moved(Tags(b.stack), Start(tag, unary))
  {
    if unary {
      AddWalk(b, Element(tag, true, []));
    } else {
      hide Walk, WalkAll, WalkOpen;
      NothingOpen();
      OpenOne(b.stack, Frame(tag, []));
    }
  }

  lemma EndWalk(b: Building)
    requires b.stack != []
    ensures WalkBuilding(BuildEnd(b)) == WalkBuilding(b) + [End(b.stack[|b.stack| - 1].tag)]
    ensures Tags(BuildEnd(b).stack) == Tags(b.stack)[..|b.stack| - 1]
  {
    var top, rest := b.stack[|b.stack| - 1], b.stack[..|b.stack| - 1];
    var t := Element(top.tag, false, Trimmed(top.children, b.inPre));
    hide Walk, WalkAll, WalkOpen, Add, Trimmed;
    TreeWalk(top.tag, Trimmed(top.children, b.inPre));
    TrimmedWalk(top.children, b.inPre);
    AddWalk(b.(stack := rest), t);
    OpenOne(rest, top);
    assert rest + [top] == b.stack;
    Reassociate(WalkAll(b.trees), WalkOpen(rest), [Start(top.tag, false)], WalkAll(top.children), [End(top.tag)]);
  }

  lemma TreeWalk(tag: string, children: seq<Tree>)
    ensures Walk(Element(tag, false, children)) == [Start(tag, false)] + WalkAll(children) + [End(tag)]
  {
  }

  lemma TrimmedWalk(ts: seq<Tree>, inPre: bool)
    ensures WalkAll(Trimmed(ts, inPre)) == WalkAll(ts)
  {
  }

  lemma WithTextWalk(o: TextOptions, ts: seq<Tree>, text: string)
    ensures WalkAll(WithText(o, ts, text)) == WalkAll(ts)
  {
    AllOne(ts, Text(text, true));
    AllOne(ts, Text(text, false));
  }

  lemma CharsWalk(b: Building, o: TextOptions, text: string)
    ensures WalkBuilding(BuildChars(b, o, text)) == WalkBuilding(b)
    ensures Tags(BuildChars(b, o, text).stack) == Tags(b.stack)
  {
    hide Walk, WalkAll, WalkOpen, WithText, Cooked;
    if b.stack != [] {
      var n := |b.stack| - 1;
      var rest, top := b.stack[..n], b.stack[n];
      var children := WithText(o, top.children, Cooked(o, top, b.inPre, text));
      WithTextWalk(o, top.children, Cooked(o, top, b.inPre, text));
      OpenOne(rest, Frame(top.tag, children));
      OpenOne(rest, top);
      assert rest + [top] == b.stack;
    }
  }

  lemma Reassociate(a: seq<Event>, b: seq<Event>, c: seq<Event>, d: seq<Event>, e: seq<Event>)
    ensures (a + b) + (c + d + e) == (a + (b + c + d)) + e
  {
  }

  // The tree as it stands: every open element is attached to its parent.
  function Ast(b: Building): seq<Tree>
    decreases |b.stack|
  {
    if b.stack == [] then b.trees
    else
      var top := b.stack[|b.stack| - 1];
      Ast(Add(b.(stack := b.stack[..|b.stack| - 1]), Element(top.tag, false, top.children)))
  }

  // An element is the last child of its parent from its start on.
  lemma StartAttaches(b: Building, tag: string, unary: bool)
    ensures Ast(BuildStart(b, tag, unary)) == Ast(Add(b, Element(tag, unary, [])))
  {
    if unary {
      AstIgnoresPre(Add(b, Element(tag, true, [])), BuildStart(b, tag, unary));
    } else {
      var c := BuildStart(b, tag, unary);
      assert c.stack[..|c.stack| - 1] == b.stack;
      AstIgnoresPre(Add(b, Element(tag, false, [])), Add(c.(stack := b.stack), Element(tag, false, [])));
    }
  }

  // Its end changes the tree only by a blank that goes.
  lemma EndKeeps(b: Building)
    requires b.stack != []
    ensures var top := b.stack[|b.stack| - 1];
            Ast(BuildEnd(b)) == Ast(b.(stack := b.stack[|b.stack| - 1 := Frame(top.tag, Trimmed(top.children, b.inPre))]))
  {
    var n := |b.stack| - 1;
    var top := b.stack[n];
    var c := b.(stack := b.stack[n := Frame(top.tag, Trimmed(top.children, b.inPre))]);
    assert c.stack[..n] == b.stack[..n];
    AstIgnoresPre(Add(c.(stack := c.stack[..n]), Element(top.tag, false, Trimmed(top.children, b.inPre))), BuildEnd(b));
  }

  lemma {:induction false} AstIgnoresPre(b: Building, c: Building)
    requires b.stack == c.stack && b.trees == c.trees
    ensures Ast(b) == Ast(c)
    decreases |b.stack|
  {
    if b.stack != [] {
      var n := |b.stack| - 1;
      var t := Element(b.stack[n].tag, false, b.stack[n].children);
      AstIgnoresPre(Add(b.(stack := b.stack[..n]), t), Add(c.(stack := c.stack[..n]), t));
    }
  }

  // ----- white space

  predicate NoBlankPairs(ts: seq<Tree>) {
    forall i :: 0 < i < |ts| ==> !(IsBlank(ts[i - 1]) && IsBlank(ts[i]))
  }

  // Nowhere in the tree do blanks follow one another or end an element.
  predicate Neat(t: Tree)
    decreases t, 0
  {
    t.Element? ==> NeatList(t.children) && !EndsBlank(t.children)
  }

  predicate NeatList(ts: seq<Tree>)
    decreases ts, 1
  {
    NoBlankPairs(ts) && forall i :: 0 <= i < |ts| ==> Neat(ts[i])
  }

  // Interpolated text is never just a blank.
  predicate Worded(ts: seq<Tree>) {
    forall i :: 0 <= i < |ts| ==> !(IsBlank(ts[i]) && ts[i].interpolated)
  }

  predicate NeatFrame(f: Frame) {
    NeatList(f.children) && Worded(f.children)
  }

  predicate NeatBuilding(b: Building) {
    !b.inPre && (forall i :: 0 <= i < |b.trees| ==> Neat(b.trees[i])) &&
    forall i :: 0 <= i < |b.stack| ==> NeatFrame(b.stack[i])
  }

  // No element with preformatted text.
  predicate PreFree(events: seq<Event>) {
    forall i :: 0 <= i < |events| ==> !IsPreTag(events[i].tag)
  }

  lemma AddNeat(b: Building, t: Tree)
    requires NeatBuilding(b) && t.Element? && Neat(t)
    ensures NeatBuilding(Add(b, t))
  {
    if b.stack != [] {
      hide Neat, NeatList, Worded;
      var n := |b.stack| - 1;
      assert NeatFrame(b.stack[n]);
      OneMoreNeat(b.stack[n].tag, b.stack[n].children, t);
    }
  }

  lemma OneMoreNeat(tag: string, ts: seq<Tree>, t: Tree)
    requires NeatFrame(Frame(tag, ts)) && Neat(t) && (IsBlank(t) ==> !EndsBlank(ts) && !t.interpolated)
    ensures NeatFrame(Frame(tag, ts + [t]))
  {
    hide Neat;
    var us := ts + [t];
    forall i | 0 <= i < |us|
      ensures Neat(us[i]) && !(IsBlank(us[i]) && us[i].interpolated)
      ensures i > 0 ==> !(IsBlank(us[i - 1]) && IsBlank(us[i]))
    {
      if i < |ts| {
        assert us[i] == ts[i];
      }
    }
  }

  lemma StartNeat(b: Building, tag: string, unary: bool)
    requires NeatBuilding(b) && !IsPreTag(tag)
    ensures NeatBuilding(BuildStart(b, tag, unary))
  {
    if unary {
      AddNeat(b, Element(tag, true, []));
    } else {
      assert NeatFrame(Frame(tag, []));
      hide Neat, NeatFrame;
    }
  }

  lemma EndNeat(b: Building)
    requires NeatBuilding(b) && b.stack != []
    ensures NeatBuilding(BuildEnd(b))
  {
    var n := |b.stack| - 1;
    var top := b.stack[n];
    assert NeatFrame(top);
    TrimmedNeat(top);
    hide NeatFrame, Neat, Trimmed;
    AddNeat(b.(stack := b.stack[..n]), Element(top.tag, false, Trimmed(top.children, false)));
  }

  lemma TrimmedNeat(f: Frame)
    requires NeatFrame(f)
    ensures Neat(Element(f.tag, false, Trimmed(f.children, false)))
  {
    var ts := f.children;
    var us := Trimmed(ts, false);
    if EndsBlank(ts) {
      assert us == ts[..|ts| - 1];
      if |us| > 0 {
        assert us[|us| - 1] == ts[|ts| - 2];
      }
      assert NeatList(us);
    }
  }

  lemma CharsNeat(b: Building, o: TextOptions, text: string)
    requires NeatBuilding(b)
    ensures NeatBuilding(BuildChars(b, o, text))
  {
    if b.stack != [] {
      var n := |b.stack| - 1;
      var top := b.stack[n];
      var cooked := Cooked(o, top, b.inPre, text);
      assert NeatFrame(top);
      if cooked != "" {
        if cooked != " " || !EndsBlank(top.children) {
          OneMoreNeat(top.tag, top.children, Text(cooked, cooked != " " && o.interpolates(cooked)));
        }
      }
      hide NeatFrame, Cooked, Neat;
    }
  }

  // ----- what the trees say, and what the document said

  // The document as its handlers got it: tags, and text as written.
  datatype Entry = Ev(e: Event) | Raw(text: string)

  // A tree read out: its tags, and the text nodes between them.
  datatype Item = Tag(e: Event) | Said(text: string, interpolated: bool)

  function Reads(t: Tree): seq<Item>
    decreases t
  {
    match t
    case Text(text, interpolated) => [Said(text, interpolated)]
    case Element(tag, unary, children) =>
      if unary then [Tag(Start(tag, true))] else [Tag(Start(tag, false))] + ReadsAll(children) + [Tag(End(tag))]
  }

  function ReadsAll(ts: seq<Tree>): seq<Item>
    decreases ts
  {
    if ts == [] then [] else ReadsAll(ts[..|ts| - 1]) + Reads(ts[|ts| - 1])
  }

  function ReadsOpen(stack: seq<Frame>): seq<Item> {
    if stack == [] then []
    else
      ReadsOpen(stack[..|stack| - 1]) + [Tag(Start(stack[|stack| - 1].tag, false))] + ReadsAll(stack[|stack| - 1].children)
  }

  function ReadsBuilding(b: Building): seq<Item> {
    ReadsAll(b.trees) + ReadsOpen(b.stack)
  }

  function Evs(events: seq<Event>): (r: seq<Entry>)
    ensures |r| == |events| && forall i :: 0 <= i < |events| ==> r[i] == Ev(events[i])
  {
    seq(|events|, i requires 0 <= i < |events| => Ev(events[i]))
  }

  function EventsOf(log: seq<Entry>): seq<Event> {
    if log == [] then []
    else EventsOf(log[..|log| - 1]) + if log[|log| - 1].Ev? then [log[|log| - 1].e] else []
  }

  // The tokens of a document up to some point, with the events they cause.
  function LogOf(expectHTML: bool, tokens: seq<Token>): seq<Entry> {
    if tokens == [] then []
    else
      var before, t := tokens[..|tokens| - 1], tokens[|tokens| - 1];
      LogOf(expectHTML, before) +
      if t.Chars? then [Raw(t.text)]
      else
        var events, n := ReadAll(expectHTML, tokens).events, |ReadAll(expectHTML, before).events|;
        if n <= |events| then Evs(events[n..]) else []
  }

  // A whole document: what is left open is closed at its end.
  function DocumentLog(expectHTML: bool, tokens: seq<Token>): seq<Entry> {
    var events, n := Events(expectHTML, tokens), |ReadAll(expectHTML, tokens).events|;
    LogOf(expectHTML, tokens) + if n <= |events| then Evs(events[n..]) else []
  }

  // Inside an open pre element; the first end of one turns this off.
  predicate Preformatted(events: seq<Event>) {
    events != [] &&
    var e := events[|events| - 1];
    if e.tag == "pre" then e.Start? && !e.unary else Preformatted(events[..|events| - 1])
  }

  predicate LastIs(items: seq<Item>, x: Item) {
    items != [] && items[|items| - 1] == x
  }

  const SPACE := Said(" ", false)

  // What has to be read after one more tag: a blank in front of an end tag
  // is not kept, except in preformatted text.
  function AfterTag(items: seq<Item>, pre: bool, e: Event): seq<Item> {
    (if e.End? && !pre && LastIs(items, SPACE) then items[..|items| - 1] else items) + [Tag(e)]
  }

  // The word that a piece of text inside the given element stands for; white
  // space counts where it is preformatted.
  function Word(o: TextOptions, parent: string, text: string): string {
    if parent == "script" || parent == "style" then text else o.decode(text)
  }

  // Directly behind the start tag of the element that is open.
  predicate AtStart(items: seq<Item>) {
    items != [] && items[|items| - 1].Tag? && items[|items| - 1].e.Start? && !items[|items| - 1].e.unary
  }

  function Blank(items: seq<Item>): seq<Item> {
    if items != [] && items[|items| - 1].Said? && items[|items| - 1].text == " " then items else items + [SPACE]
  }

  // What has to be read after one more piece of text with these tags open.
  // White space becomes a blank if it is to be preserved and is not at the
  // start of the element; a blank is not kept behind a blank.
  function AfterText(o: TextOptions, items: seq<Item>, tags: seq<string>, pre: bool, text: string): seq<Item> {
    if tags == [] then items
    else if pre || !AllSpaces(text) then
      var word := Word(o, tags[|tags| - 1], text);
      if word == "" then items else if word == " " then Blank(items) else items + [Said(word, o.interpolates(word))]
    else if o.preserveWhitespace && !AtStart(items) then Blank(items)
    else items
  }

  function ItemsOf(o: TextOptions, log: seq<Entry>): seq<Item> {
    if log == [] then []
    else
      var before, x := log[..|log| - 1], log[|log| - 1];
      var items, events := ItemsOf(o, before), EventsOf(before);
      match x
      case Ev(e) => AfterTag(items, Preformatted(events), e)
      case Raw(text) => AfterText(o, items, OpenAfter(events), Preformatted(events), text)
  }

  // A text that is no blank, and the elements it is in, the innermost last.
  datatype Spot = Spot(path: seq<string>, text: string, interpolated: bool)

  function TagsOf(items: seq<Item>): seq<Event> {
    if items == [] then []
    else TagsOf(items[..|items| - 1]) + if items[|items| - 1].Tag? then [items[|items| - 1].e] else []
  }

  // The texts of the trees in document order, blanks left out.
  function Spots(items: seq<Item>): seq<Spot> {
    if items == [] then []
    else
      var before, x := items[..|items| - 1], items[|items| - 1];
      Spots(before) + if x.Said? && x.text != " " then [Spot(OpenAfter(TagsOf(before)), x.text, x.interpolated)] else []
  }

  // The texts of the document in their order: those inside an element that
  // are no white space, or stand in preformatted text.
  function Spoken(o: TextOptions, log: seq<Entry>): seq<Spot> {
    if log == [] then []
    else
      var before, x := log[..|log| - 1], log[|log| - 1];
      var path := OpenAfter(EventsOf(before));
      Spoken(o, before) +
      if x.Ev? || path == [] || (AllSpaces(x.text) && !Preformatted(EventsOf(before))) then []
      else
        var word := Word(o, path[|path| - 1], x.text);
        if word == "" || word == " " then [] else [Spot(path, word, o.interpolates(word))]
  }

  lemma ItemsMore(o: TextOptions, log: seq<Entry>, x: Entry)
    ensures var items, events := ItemsOf(o, log), EventsOf(log);
            ItemsOf(o, log + [x]) ==
            if x.Ev? then AfterTag(items, Preformatted(events), x.e)
            else AfterText(o, items, OpenAfter(events), Preformatted(events), x.text)
    ensures EventsOf(log + [x]) == EventsOf(log) + if x.Ev? then [x.e] else []
  {
    assert (log + [x])[..|log|] == log;
  }

  lemma SpotsMore(items: seq<Item>, x: Item)
    ensures TagsOf(items + [x]) == TagsOf(items) + if x.Tag? then [x.e] else []
    ensures Spots(items + [x]) ==
            Spots(items) + if x.Said? && x.text != " " then [Spot(OpenAfter(TagsOf(items)), x.text, x.interpolated)] else []
  {
    assert (items + [x])[..|items|] == items;
  }

  lemma DroppedBlank(items: seq<Item>)
    requires LastIs(items, SPACE)
    ensures TagsOf(items[..|items| - 1]) == TagsOf(items) && Spots(items[..|items| - 1]) == Spots(items)
  {
  }

  lemma SpotsTag(items: seq<Item>, pre: bool, e: Event)
    ensures TagsOf(AfterTag(items, pre, e)) == TagsOf(items) + [e] && Spots(AfterTag(items, pre, e)) == Spots(items)
  {
    hide TagsOf, Spots;
    if e.End? && !pre && LastIs(items, SPACE) {
      DroppedBlank(items);
      SpotsMore(items[..|items| - 1], Tag(e));
    } else {
      SpotsMore(items, Tag(e));
    }
  }

  lemma SpotsText(o: TextOptions, items: seq<Item>, tags: seq<string>, pre: bool, text: string)
    requires tags == OpenAfter(TagsOf(items))
    ensures TagsOf(AfterText(o, items, tags, pre, text)) == TagsOf(items)
    ensures Spots(AfterText(o, items, tags, pre, text)) ==
            Spots(items) +
            if tags == [] || (AllSpaces(text) && !pre) then []
            else
              var word := Word(o, tags[|tags| - 1], text);
              if word == "" || word == " " then [] else [Spot(tags, word, o.interpolates(word))]
  {
    hide TagsOf, Spots, OpenAfter, Word, AllSpaces;
    SpotsMore(items, SPACE);
    if tags != [] {
      var word := Word(o, tags[|tags| - 1], text);
      SpotsMore(items, Said(word, o.interpolates(word)));
    }
  }

  // The texts of the trees are the texts of the document, each in the element
  // that was open there, decoded outside script and style, and marked where
  // there is something to interpolate.
  lemma {:induction false} SpotsSpoken(o: TextOptions, log: seq<Entry>)
    ensures Spots(ItemsOf(o, log)) == Spoken(o, log) && TagsOf(ItemsOf(o, log)) == EventsOf(log)
  {
    hide *;
    if log == [] {
      SpokenNothing(o);
    } else {
      var before, x := log[..|log| - 1], log[|log| - 1];
      SpotsSpoken(o, before);
      assert before + [x] == log;
      ItemsMore(o, before, x);
      SpokenMore(o, before, x);
      if x.Ev? {
        SpotsTag(ItemsOf(o, before), Preformatted(EventsOf(before)), x.e);
      } else {
        SpotsText(o, ItemsOf(o, before), OpenAfter(EventsOf(before)), Preformatted(EventsOf(before)), x.text);
      }
    }
  }

  lemma SpokenNothing(o: TextOptions)
    ensures Spots(ItemsOf(o, [])) == Spoken(o, []) && TagsOf(ItemsOf(o, [])) == EventsOf([])
  {
  }

  lemma SpokenMore(o: TextOptions, log: seq<Entry>, x: Entry)
    ensures Spoken(o, log + [x]) ==
            var path := OpenAfter(EventsOf(log));
            Spoken(o, log) +
            if x.Ev? || path == [] || (AllSpaces(x.text) && !Preformatted(EventsOf(log))) then []
            else
              var word := Word(o, path[|path| - 1], x.text);
              if word == "" || word == " " then [] else [Spot(path, word, o.interpolates(word))]
  {
    hide OpenAfter, EventsOf, AllSpaces, Preformatted, Word;
    assert (log + [x])[..|log|] == log;
  }

  // ----- the builder reads as it should

  lemma ReadsOne(ts: seq<Tree>, t: Tree)
    ensures ReadsAll(ts + [t]) == ReadsAll(ts) + Reads(t)
  {
    assert (ts + [t])[..|ts|] == ts;
  }

  lemma ReadsFrame(stack: seq<Frame>, f: Frame)
    ensures ReadsOpen(stack + [f]) == ReadsOpen(stack) + [Tag(Start(f.tag, false))] + ReadsAll(f.children)
  {
    assert (stack + [f])[..|stack|] == stack;
  }

  lemma ReadsNothing()
    ensures ReadsOpen([]) == [] && ReadsAll([]) == []
  {
  }

  lemma AddReads(b: Building, t: Tree)
    ensures ReadsBuilding(Add(b, t)) == ReadsBuilding(b) + Reads(t)
  {
    hide Reads, ReadsAll, ReadsOpen;
    if b.stack == [] {
      ReadsOne(b.trees, t);
      ReadsNothing();
    } else {
      var n := |b.stack| - 1;
      var rest, top := b.stack[..n], b.stack[n];
      ReadsOne(top.children, t);
      ReadsFrame(rest, Frame(top.tag, top.children + [t]));
      ReadsFrame(rest, top);
      assert rest + [top] == b.stack;
    }
  }

  lemma StartReads(b: Building, tag: string, unary: bool)
    ensures ReadsBuilding(BuildStart(b, tag, unary)) == ReadsBuilding(b) + [Tag(Start(tag, unary))]
    ensures BuildStart(b, tag, unary).inPre == if tag == "pre" then !unary else b.inPre
  {
    if unary {
      AddReads(b, Element(tag, true, []));
    } else {
      hide Reads, ReadsAll, ReadsOpen;
      ReadsNothing();
      ReadsFrame(b.stack, Frame(tag, []));
    }
  }

  // The last thing read inside the element that is open.
  lemma LastRead(b: Building)
    requires b.stack != []
    ensures var items, ts := ReadsBuilding(b), b.stack[|b.stack| - 1].children;
            && items != []
            && (ts == [] <==> AtStart(items))
            && (ts != [] && ts[|ts| - 1].Text? ==>
                  items[|items| - 1] == Said(ts[|ts| - 1].text, ts[|ts| - 1].interpolated))
            && (items[|items| - 1].Said? <==> ts != [] && ts[|ts| - 1].Text?)
  {
    var n := |b.stack| - 1;
    var rest, top := b.stack[..n], b.stack[n];
    ReadsFrame(rest, top);
    assert rest + [top] == b.stack;
    if top.children != [] {
      LastReads(top.children);
    }
  }

  lemma LastReads(ts: seq<Tree>)
    requires ts != []
    ensures var r, t := ReadsAll(ts), ts[|ts| - 1];
            r != [] && (t.Text? ==> r[|r| - 1] == Said(t.text, t.interpolated)) &&
            (t.Element? ==> r[|r| - 1] == if t.unary then Tag(Start(t.tag, true)) else Tag(End(t.tag)))
  {
  }

  lemma EndReads(b: Building)
    requires b.stack != []
    ensures ReadsBuilding(BuildEnd(b)) == AfterTag(ReadsBuilding(b), b.inPre, End(b.stack[|b.stack| - 1].tag))
    ensures BuildEnd(b).inPre == if b.stack[|b.stack| - 1].tag == "pre" then false else b.inPre
  {
    hide Reads, ReadsAll, ReadsOpen, Trimmed, AfterTag;
    var top, rest := b.stack[|b.stack| - 1], b.stack[..|b.stack| - 1];
    var kept := Trimmed(top.children, b.inPre);
    LastRead(b);
    ElementReads(top.tag, kept);
    AddReads(b.(stack := rest), Element(top.tag, false, kept));
    ReadsFrame(rest, top);
    assert rest + [top] == b.stack;
    TrimmedReads(top.children, b.inPre);
    var head := ReadsAll(b.trees) + ReadsOpen(rest) + [Tag(Start(top.tag, false))];
    assert ReadsBuilding(b) == head + ReadsAll(top.children);
    ClosedItems(head, ReadsAll(top.children), ReadsAll(kept), b.inPre, End(top.tag));
  }

  lemma ClosedItems(head: seq<Item>, items: seq<Item>, kept: seq<Item>, pre: bool, e: Event)
    requires e.End?
    requires (!pre && items == kept + [SPACE]) || (items == kept && (pre || !LastIs(head + items, SPACE)))
    ensures AfterTag(head + items, pre, e) == head + kept + [Tag(e)]
  {
    if items != kept {
      assert head + items == head + kept + [SPACE];
      assert (head + kept + [SPACE])[..|head + kept|] == head + kept;
    }
  }

  lemma ElementReads(tag: string, children: seq<Tree>)
    ensures Reads(Element(tag, false, children)) == [Tag(Start(tag, false))] + ReadsAll(children) + [Tag(End(tag))]
  {
  }

  lemma TrimmedReads(ts: seq<Tree>, inPre: bool)
    ensures Trimmed(ts, inPre) != ts ==> ReadsAll(ts) == ReadsAll(Trimmed(ts, inPre)) + [SPACE]
    ensures Trimmed(ts, inPre) != ts <==> !inPre && ts != [] && ts[|ts| - 1] == Text(" ", false)
  {
    hide *;
    TrimmedIs(ts, inPre);
    if Trimmed(ts, inPre) != ts {
      ReadsOne(Trimmed(ts, inPre), Text(" ", false));
      SpaceReads();
    }
  }

  lemma TrimmedIs(ts: seq<Tree>, inPre: bool)
    ensures Trimmed(ts, inPre) != ts ==> ts == Trimmed(ts, inPre) + [Text(" ", false)]
    ensures Trimmed(ts, inPre) != ts <==> !inPre && ts != [] && ts[|ts| - 1] == Text(" ", false)
  {
    if ts != [] {
      assert ts[..|ts| - 1] + [ts[|ts| - 1]] == ts;
    }
  }

  lemma SpaceReads()
    ensures Reads(Text(" ", false)) == [SPACE]
  {
  }

  lemma WithTextReads(o: TextOptions, ts: seq<Tree>, text: string)
    ensures ReadsAll(WithText(o, ts, text)) ==
            ReadsAll(ts) +
            if text == "" || (text == " " && ts != [] && ts[|ts| - 1].Text? && ts[|ts| - 1].text == " ") then []
            else [Said(text, text != " " && o.interpolates(text))]
  {
    ReadsOne(ts, Text(text, true));
    ReadsOne(ts, Text(text, false));
  }

  lemma CharsReads(b: Building, o: TextOptions, text: string)
    ensures ReadsBuilding(BuildChars(b, o, text)) == AfterText(o, ReadsBuilding(b), Tags(b.stack), b.inPre, text)
    ensures BuildChars(b, o, text).inPre == b.inPre
  {
    hide Reads, ReadsAll, ReadsOpen, WithText, AllSpaces;
    if b.stack != [] {
      var n := |b.stack| - 1;
      var rest, top := b.stack[..n], b.stack[n];
      var cooked := Cooked(o, top, b.inPre, text);
      LastRead(b);
      WithTextReads(o, top.children, cooked);
      ReadsFrame(rest, Frame(top.tag, WithText(o, top.children, cooked)));
      ReadsFrame(rest, top);
      assert rest + [top] == b.stack;
      var head := ReadsAll(b.trees) + ReadsOpen(rest) + [Tag(Start(top.tag, false))];
      assert ReadsBuilding(b) == head + ReadsAll(top.children);
      assert ReadsBuilding(BuildChars(b, o, text)) == head + ReadsAll(WithText(o, top.children, cooked));
      hide ReadsBuilding, BuildChars;
    }
  }

  lemma PreAfter(events: seq<Event>, e: Event)
    ensures Preformatted(events + [e]) <==> if e.tag == "pre" then e.Start? && !e.unary else Preformatted(events)
  {
    assert (events + [e])[..|events|] == events;
  }

  // From one log to another only events were added.
  ghost predicate Logged(log0: seq<Entry>, events0: seq<Event>, log: seq<Entry>, events: seq<Event>) {
    events0 <= events && log == log0 + Evs(events[|events0|..])
  }

  lemma LoggedSelf(log: seq<Entry>, events: seq<Event>)
    ensures Logged(log, events, log, events)
  {
  }

  lemma LoggedMore(log0: seq<Entry>, events0: seq<Event>, log: seq<Entry>, events: seq<Event>, e: Event)
    requires Logged(log0, events0, log, events)
    ensures Logged(log0, events0, log + [Ev(e)], events + [e])
  {
    assert (events + [e])[|events0|..] == events[|events0|..] + [e];
  }

  lemma LoggedTrans(log0: seq<Entry>, events0: seq<Event>, log1: seq<Entry>, events1: seq<Event>, log: seq<Entry>, events: seq<Event>)
    requires Logged(log0, events0, log1, events1) && Logged(log1, events1, log, events)
    ensures Logged(log0, events0, log, events)
  {
    assert events[|events0|..] == events1[|events0|..] + events[|events1|..];
  }

  // ----- the start, end and chars handlers of parse

  class Builder {
    const options: TextOptions
    var stack: seq<Frame>
    var trees: seq<Tree>
    var inPre: bool

    constructor (options: TextOptions)
      ensures Value() == NO_BUILDING && this.options == options
    {
      this.options := options;
      stack, trees, inPre := [], [], false;
    }

    function Value(): Building
      reads this
    {
      Building(stack, trees, inPre)
    }

    method Attach(t: Tree)
      modifies this
      ensures Value() == Add(old(Value()), t)
    {
      if stack == [] {
        trees := trees + [t];
      } else {
        var currentParent := stack[|stack| - 1];
        stack := stack[..|stack| - 1] + [Frame(currentParent.tag, currentParent.children + [t])];
      }
    }

    method CloseElement(tag: string)
      modifies this
      ensures Value() == Closed(old(Value()), tag)
    {
      if IsPreTag(tag) {
        inPre := false;
      }
    }

    method Start(tag: string, unary: bool)
      modifies this
      ensures Value() == BuildStart(old(Value()), tag, unary)
    {
      if IsPreTag(tag) {
        inPre := true;
      }
      if !unary {
        stack := stack + [Frame(tag, [])];
      } else {
        Attach(Element(tag, true, []));
        CloseElement(tag);
      }
    }

    method End()
      requires stack != []
      modifies this
      ensures Value() == BuildEnd(old(Value()))
    {
      // remove trailing white space
      var element := stack[|stack| - 1];
      var children := element.children;
      if children != [] {
        var lastNode := children[|children| - 1];
        if lastNode.Text? && !lastNode.interpolated && lastNode.text == " " && !inPre {
          children := children[..|children| - 1];
        }
      }
      // pop the stack
      stack := stack[..|stack| - 1];
      Attach(Element(element.tag, false, children));
      CloseElement(element.tag);
    }

    method Chars(text: string)
      modifies this
      ensures Value() == BuildChars(old(Value()), options, text)
    {
      if stack == [] {
        return;
      }
      var currentParent := stack[|stack| - 1];
      var children := currentParent.children;
      var text := if inPre || !AllSpaces(text)
                  then (if IsTextTag(currentParent.tag) then text else options.decode(text))
                  else if options.preserveWhitespace && children != [] then " " else "";
      if text != "" {
        if text != " " && options.interpolates(text) {
          children := children + [Text(text, true)];
        } else if text != " " || children == [] || !IsBlank(children[|children| - 1]) {
          children := children + [Text(text, false)];
        }
      }
      stack := stack[..|stack| - 1] + [Frame(currentParent.tag, children)];
    }
  }

  datatype Opened = Opened(tag: string, lowerCasedTag: string)

  function NamesOf(stack: seq<Opened>): (r: seq<string>)
    ensures |r| == |stack| && forall i :: 0 <= i < |stack| ==> r[i] == stack[i].tag
  {
    seq(|stack|, i requires 0 <= i < |stack| => stack[i].tag)
  }

  predicate Lowered(stack: seq<Opened>) {
    forall i :: 0 <= i < |stack| ==> stack[i].lowerCasedTag == Lower(stack[i].tag)
  }

  // The builder has seen exactly these events, read out as the log says, and
  // kept white space neat.
  ghost predicate Mirrors(o: TextOptions, b: Building, events: seq<Event>, log: seq<Entry>) {
    && Tags(b.stack) == OpenAfter(events) && WalkBuilding(b) == events && (PreFree(events) ==> NeatBuilding(b))
    && EventsOf(log) == events && ReadsBuilding(b) == ItemsOf(o, log) && b.inPre == Preformatted(events)
  }

  lemma PreFreeBefore(events: seq<Event>, e: Event)
    ensures PreFree(events + [e]) ==> PreFree(events) && !IsPreTag(e.tag)
  {
    if PreFree(events + [e]) {
      assert (events + [e])[|events|] == e;
      forall i | 0 <= i < |events|
        ensures !IsPreTag(events[i].tag)
      {
        assert (events + [e])[i] == events[i];
      }
    }
  }

  lemma MirrorChars(b: Building, events: seq<Event>, log: seq<Entry>, o: TextOptions, text: string)
    requires Mirrors(o, b, events, log)
    ensures Mirrors(o, BuildChars(b, o, text), events, log + [Raw(text)])
  {
    hide WalkBuilding, OpenAfter, BuildChars, PreFree, NeatBuilding, ReadsBuilding, ItemsOf, EventsOf, AfterText, Preformatted;
    CharsReads(b, o, text);
    ItemsMore(o, log, Raw(text));
    CharsWalk(b, o, text);
    if PreFree(events) {
      CharsNeat(b, o, text);
    }
  }

  lemma Nothing(expectHTML: bool)
    ensures Sound(expectHTML, State([], [])) && (forall o: TextOptions :: Mirrors(o, NO_BUILDING, [], []))
    ensures forall stack: seq<Opened> :: stack == [] ==> NamesOf(stack) == []
  {
  }

  lemma MirrorStart(o: TextOptions, b: Building, events: seq<Event>, log: seq<Entry>, tag: string, unary: bool)
    requires Mirrors(o, b, events, log)
    ensures Mirrors(o, BuildStart(b, tag, unary), events + [Start(tag, unary)], log + [Ev(Start(tag, unary))])
  {
    hide WalkBuilding, OpenAfter, WellNested, WellPlaced, BuildStart, PreFree, NeatBuilding, ReadsBuilding, ItemsOf, EventsOf, Preformatted;
    StartReads(b, tag, unary);
    ItemsMore(o, log, Ev(Start(tag, unary)));
    PreAfter(events, Start(tag, unary));
    StartWalk(b, tag, unary);
    Append(events, Start(tag, unary));
    PreFreeBefore(events, Start(tag, unary));
    if PreFree(events + [Start(tag, unary)]) {
      StartNeat(b, tag, unary);
    }
  }

  lemma MirrorEnd(o: TextOptions, b: Building, events: seq<Event>, log: seq<Entry>, tag: string)
    requires Mirrors(o, b, events, log) && Fits(OpenAfter(events), End(tag))
    ensures b.stack != [] && Mirrors(o, BuildEnd(b), events + [End(tag)], log + [Ev(End(tag))])
  {
    hide WalkBuilding, OpenAfter, WellNested, WellPlaced, BuildEnd, PreFree, NeatBuilding, ReadsBuilding, ItemsOf, EventsOf, AfterTag,
         Preformatted;
    assert Tags(b.stack) != [];
    EndReads(b);
    ItemsMore(o, log, Ev(End(tag)));
    PreAfter(events, End(tag));
    EndWalk(b);
    Append(events, End(tag));
    PreFreeBefore(events, End(tag));
    if PreFree(events + [End(tag)]) {
      EndNeat(b);
    }
  }

  lemma ClosestEnd(tags: seq<string>, lower: string)
    ensures Closest(tags, lower) == Closest(tags[..|tags|], lower)
  {
    assert tags[..|tags|] == tags;
  }

  lemma ClosestStep(stack: seq<Opened>, pos: nat, lower: string)
    requires pos < |stack| && Lowered(stack) && stack[pos].lowerCasedTag != lower
    ensures Closest(NamesOf(stack)[..pos + 1], lower) == Closest(NamesOf(stack)[..pos], lower)
  {
    var tags := NamesOf(stack);
    assert tags[..pos + 1][..pos] == tags[..pos];
  }

  lemma ClosestFound(stack: seq<Opened>, pos: int, lower: string)
    requires -1 <= pos < |stack| && Lowered(stack) && (pos >= 0 ==> stack[pos].lowerCasedTag == lower)
    ensures Closest(NamesOf(stack)[..pos + 1], lower) == pos
  {
  }

  lemma EndedIs(s: State, name: string, pos: int)
    requires pos == if name == "" then 0 else Closest(s.tags, Lower(name))
    ensures 0 <= pos ==> pos <= |s.tags| && Ended(s, name) == CloseTo(s, pos)
    ensures pos < 0 ==>
              Ended(s, name).tags == s.tags &&
              Ended(s, name).events ==
              s.events + if Lower(name) == "br" then [Start(name, true)]
                         else if Lower(name) == "p" then [Start(name, false), End(name)] else []
  {
  }

  lemma CloseNone(s: State)
    ensures CloseTo(s, |s.tags|).events == s.events
  {
  }

  lemma CloseIs(s: State, pos: nat)
    requires pos <= |s.tags|
    ensures CloseTo(s, pos) == State(s.tags[..pos], CloseTo(s, pos).events)
  {
  }

  lemma ClosingStep(expectHTML: bool, s: State, i: nat)
    requires Sound(expectHTML, s) && i < |s.tags|
    ensures CloseTo(s, i).events == CloseTo(s, i + 1).events + [End(s.tags[i])]
    ensures Fits(OpenAfter(CloseTo(s, i + 1).events), End(s.tags[i]))
  {
    hide OpenAfter, WellNested, WellPlaced, Apart;
    ClosingSound(expectHTML, s, i + 1);
    EndsLast(s.tags[i..]);
    assert s.tags[i..][1..] == s.tags[i + 1..];
  }

  lemma {:induction false} EndsLast(tags: seq<string>)
    requires tags != []
    ensures Ends(tags) == Ends(tags[1..]) + [End(tags[0])]
  {
    if |tags| > 1 {
      var p := tags[..|tags| - 1];
      EndsLast(p);
      assert tags[1..][..|tags| - 2] == p[1..];
    }
  }

  lemma Truncated(stack: seq<Opened>, pos: nat)
    requires pos <= |stack| && Lowered(stack)
    ensures Lowered(stack[..pos]) && NamesOf(stack[..pos]) == NamesOf(stack)[..pos]
    ensures Last(NamesOf(stack[..pos])) == if pos > 0 then stack[pos - 1].tag else ""
  {
  }

  lemma Pushed(stack: seq<Opened>, tag: string)
    requires Lowered(stack)
    ensures Lowered(stack + [Opened(tag, Lower(tag))])
    ensures NamesOf(stack + [Opened(tag, Lower(tag))]) == NamesOf(stack) + [tag]
    ensures Last(NamesOf(stack) + [tag]) == tag
  {
  }

  lemma OpenedNow(events: seq<Event>, tag: string)
    ensures Fits(OpenAfter(events + [Start(tag, false)]), End(tag))
  {
    assert (events + [Start(tag, false)])[..|events|] == events;
  }

  lemma TwoEvents(events: seq<Event>, a: Event, b: Event)
    ensures events + [a] + [b] == events + [a, b]
  {
  }

  lemma StartedIs(expectHTML: bool, s: State, name: string, unarySlash: bool)
    ensures var u, unary := Implied(expectHTML, s, name), IsUnaryTag(name) || unarySlash;
            Started(expectHTML, s, name, unarySlash) ==
            State(if unary then u.tags else u.tags + [name], u.events + [Start(name, unary)])
  {
  }

  lemma StartedSound(expectHTML: bool, s: State, name: string, unarySlash: bool)
    requires Sound(expectHTML, s)
    ensures Sound(expectHTML, Started(expectHTML, s, name, unarySlash))
  {
    ReadSound(expectHTML, s, StartTag(name, unarySlash));
  }

  lemma ImpliedIs(expectHTML: bool, s: State, name: string)
    ensures !expectHTML ==> Implied(expectHTML, s, name) == s
    ensures expectHTML ==>
              var t := if Last(s.tags) == "p" && IsNonPhrasingTag(name) then Ended(s, "p") else s;
              Implied(expectHTML, s, name) ==
              if CanBeLeftOpenTag(name) && Last(t.tags) == name then Ended(t, name) else t
  {
  }

  lemma ReadNone(expectHTML: bool, tokens: seq<Token>)
    ensures ReadAll(expectHTML, tokens[..0]) == State([], []) && LogOf(expectHTML, tokens[..0]) == []
  {
  }

  lemma ReadMore(expectHTML: bool, tokens: seq<Token>, i: nat)
    requires i < |tokens|
    ensures ReadAll(expectHTML, tokens[..i + 1]) == Read(expectHTML, ReadAll(expectHTML, tokens[..i]), tokens[i])
    ensures forall s: State :: Read(expectHTML, s, tokens[i]) ==
                               if tokens[i].StartTag? then Started(expectHTML, s, tokens[i].name, tokens[i].unarySlash)
                               else if tokens[i].EndTag? then Ended(s, tokens[i].name)
                               else s
  {
    hide Started, Ended;
    assert tokens[..i + 1][..i] == tokens[..i];
  }

  lemma ValueIs(p: Parser)
    ensures p.Value().events == p.events
  {
  }

  // One more token is in the log.
  lemma LogMore(expectHTML: bool, tokens: seq<Token>, i: nat, log0: seq<Entry>, events0: seq<Event>, log: seq<Entry>, events: seq<Event>)
    requires i < |tokens| && log0 == LogOf(expectHTML, tokens[..i])
    requires events0 == ReadAll(expectHTML, tokens[..i]).events && events == ReadAll(expectHTML, tokens[..i + 1]).events
    requires if tokens[i].Chars? then log == log0 + [Raw(tokens[i].text)] else Logged(log0, events0, log, events)
    ensures log == LogOf(expectHTML, tokens[..i + 1])
  {
    hide ReadAll;
    assert tokens[..i + 1][..i] == tokens[..i];
  }

  lemma LogDone(expectHTML: bool, tokens: seq<Token>, log0: seq<Entry>, events0: seq<Event>, log: seq<Entry>, events: seq<Event>)
    requires log0 == LogOf(expectHTML, tokens) && events0 == ReadAll(expectHTML, tokens).events
    requires events == Ended(ReadAll(expectHTML, tokens), "").events && Logged(log0, events0, log, events)
    ensures log == DocumentLog(expectHTML, tokens)
  {
    hide ReadAll, LogOf;
  }

  lemma AllClosed(expectHTML: bool, tokens: seq<Token>)
    ensures Ended(ReadAll(expectHTML, tokens), "").events == Events(expectHTML, tokens)
    ensures OpenAfter(Events(expectHTML, tokens)) == []
  {
    DocumentSound(expectHTML, tokens);
  }

  lemma MirrorDone(o: TextOptions, b: Building, events: seq<Event>, log: seq<Entry>)
    requires Mirrors(o, b, events, log) && OpenAfter(events) == []
    ensures b.stack == [] && WalkAll(b.trees) == events
    ensures ReadsAll(b.trees) == ItemsOf(o, log)
    ensures PreFree(events) ==> forall i :: 0 <= i < |b.trees| ==> Neat(b.trees[i])
  {
    assert |Tags(b.stack)| == 0;
  }

  lemma BuilderIs(b: Builder)
    ensures b.Value() == Building(b.stack, b.trees, b.inPre)
  {
  }

  lemma ValidParts(p: Parser)
    requires p.Valid()
    ensures Lowered(p.stack) && p.lastTag == Last(NamesOf(p.stack)) && Sound(p.expectHTML, p.Value())
    ensures Mirrors(p.builder.options, p.builder.Value(), p.events, p.log) && p.Value() == State(NamesOf(p.stack), p.events)
    ensures |NamesOf(p.stack)| == |p.stack| && forall i :: 0 <= i < |p.stack| ==> NamesOf(p.stack)[i] == p.stack[i].tag
  {
  }

  lemma IsValid(p: Parser)
    requires Lowered(p.stack) && p.lastTag == Last(NamesOf(p.stack))
    requires Sound(p.expectHTML, State(NamesOf(p.stack), p.events)) && Mirrors(p.builder.options, p.builder.Value(), p.events, p.log)
    ensures p.Valid() && p.Value() == State(NamesOf(p.stack), p.events)
  {
  }

  class Parser {
    const expectHTML: bool
    const builder: Builder
    var stack: seq<Opened>
    var lastTag: string
    ghost var events: seq<Event>
    ghost var log: seq<Entry>

    ghost predicate Valid()
      reads this, builder
    {
      Lowered(stack) && lastTag == Last(NamesOf(stack)) && Sound(expectHTML, Value()) && Mirrors(builder.options, builder.Value(), events, log)
    }

    ghost function Value(): State
      reads this
    {
      State(NamesOf(stack), events)
    }

    constructor (expectHTML: bool, options: TextOptions)
      ensures Valid() && fresh(builder) && this.expectHTML == expectHTML
      ensures Value() == State([], []) && builder.Value() == NO_BUILDING && log == [] && builder.options == options
    {
      this.expectHTML := expectHTML;
      builder := new Builder(options);
      stack, lastTag, events, log := [], "", [], [];
      new;
      Nothing(expectHTML);
    }

    method EmitStart(tag: string, unary: bool)
      requires Mirrors(builder.options, builder.Value(), events, log)
      modifies this`events, this`log, builder
      ensures events == old(events) + [Start(tag, unary)] && log == old(log) + [Ev(Start(tag, unary))]
      ensures Mirrors(builder.options, builder.Value(), events, log)
    {
      MirrorStart(builder.options, builder.Value(), events, log, tag, unary);
      builder.Start(tag, unary);
      log := log + [Ev(Start(tag, unary))];
      events := events + [Start(tag, unary)];
    }

    method EmitEnd(tag: string)
      requires Mirrors(builder.options, builder.Value(), events, log) && Fits(OpenAfter(events), End(tag))
      modifies this`events, this`log, builder
      ensures events == old(events) + [End(tag)] && log == old(log) + [Ev(End(tag))]
      ensures Mirrors(builder.options, builder.Value(), events, log)
    {
      MirrorEnd(builder.options, builder.Value(), events, log, tag);
      builder.End();
      log := log + [Ev(End(tag))];
      events := events + [End(tag)];
    }

    method ParseEndTag(tagName: string)
      requires Valid()
      modifies this, builder
      ensures Valid()
      ensures Value() == Ended(old(Value()), tagName)
      ensures Logged(old(log), old(events), log, events)
    {
      hide *;
      ghost var s := Value();
      ghost var log0, events0 := log, events;
      LoggedSelf(log, events);
      ValidParts(this);
      EndedSound(expectHTML, s, tagName);
      var pos := 0;
      if tagName != "" {
        pos := |stack| - 1;
        ClosestEnd(NamesOf(stack), Lower(tagName));
        while pos >= 0 && stack[pos].lowerCasedTag != Lower(tagName)
          invariant -1 <= pos < |stack|
          invariant Closest(NamesOf(stack), Lower(tagName)) == Closest(NamesOf(stack)[..pos + 1], Lower(tagName))
          modifies {}
        {
          ClosestStep(stack, pos, Lower(tagName));
          pos := pos - 1;
        }
        ClosestFound(stack, pos, Lower(tagName));
      }
      EndedIs(s, tagName, pos);
      if pos >= 0 {
        CloseNone(s);
        var i := |stack| - 1;
        while i >= pos
          invariant pos - 1 <= i < |stack|
          invariant stack == old(stack) && lastTag == old(lastTag)
          invariant events == CloseTo(s, i + 1).events && Logged(log0, events0, log, events)
          invariant Mirrors(builder.options, builder.Value(), events, log)
        {
          ClosingStep(expectHTML, s, i);
          LoggedMore(log0, events0, log, events, End(stack[i].tag));
          EmitEnd(stack[i].tag);
          i := i - 1;
        }
        Truncated(stack, pos);
        stack := stack[..pos];
        lastTag := if pos > 0 then stack[pos - 1].tag else "";
        CloseIs(s, pos);
      } else if Lower(tagName) == "br" {
        LoggedMore(log0, events0, log, events, Start(tagName, true));
        EmitStart(tagName, true);
      } else if Lower(tagName) == "p" {
        OpenedNow(events, tagName);
        LoggedMore(log0, events0, log, events, Start(tagName, false));
        EmitStart(tagName, false);
        LoggedMore(log0, events0, log, events, End(tagName));
        EmitEnd(tagName);
        TwoEvents(s.events, Start(tagName, false), End(tagName));
      }
      IsValid(this);
    }

    method HandleStartTag(tagName: string, unarySlash: bool)
      requires Valid()
      modifies this, builder
      ensures Valid()
      ensures Value() == Started(expectHTML, old(Value()), tagName, unarySlash)
      ensures Logged(old(log), old(events), log, events)
    {
      hide *;
      ghost var s := Value();
      ghost var log0, events0 := log, events;
      LoggedSelf(log, events);
      ValidParts(this);
      StartedSound(expectHTML, s, tagName, unarySlash);
      ImpliedIs(expectHTML, s, tagName);
      if expectHTML {
        if lastTag == "p" && IsNonPhrasingTag(tagName) {
          ParseEndTag(lastTag);
        }
        ValidParts(this);
        ghost var log1, events1 := log, events;
        LoggedSelf(log, events);
        if CanBeLeftOpenTag(tagName) && lastTag == tagName {
          ParseEndTag(tagName);
        }
        LoggedTrans(log0, events0, log1, events1, log, events);
      }
      ValidParts(this);
      StartedIs(expectHTML, s, tagName, unarySlash);
      var unary := IsUnaryTag(tagName) || unarySlash;
      if !unary {
        Pushed(stack, tagName);
        stack := stack + [Opened(tagName, Lower(tagName))];
        lastTag := tagName;
      }
      LoggedMore(log0, events0, log, events, Start(tagName, unary));
      EmitStart(tagName, unary);
      IsValid(this);
    }

    method HandleChars(text: string)
      requires Valid()
      modifies this`log, builder
      ensures Valid() && Value() == old(Value()) && log == old(log) + [Raw(text)]
    {
      hide *;
      ValidParts(this);
      MirrorChars(builder.Value(), events, log, builder.options, text);
      builder.Chars(text);
      log := log + [Raw(text)];
      IsValid(this);
    }

    // The whole document: well-nested events, an empty builder stack, and
    // trees that read as the events; without preformatted text no element
    // ends in a blank and no two blanks are neighbours.
    method ParseHTML(tokens: seq<Token>)
      requires Valid() && Value() == State([], []) && log == []
      modifies this, builder
      ensures Valid()
      ensures events == Events(expectHTML, tokens)
      ensures builder.stack == [] && WalkAll(builder.trees) == events
      ensures ReadsAll(builder.trees) == ItemsOf(builder.options, DocumentLog(expectHTML, tokens))
      ensures Spots(ReadsAll(builder.trees)) == Spoken(builder.options, DocumentLog(expectHTML, tokens))
      ensures PreFree(events) ==> forall i :: 0 <= i < |builder.trees| ==> Neat(builder.trees[i])
    {
      hide *;
      var i := 0;
      ReadNone(expectHTML, tokens);
      while i < |tokens|
        invariant 0 <= i <= |tokens|
        invariant Valid() && Value() == ReadAll(expectHTML, tokens[..i]) && log == LogOf(expectHTML, tokens[..i])
      {
        ReadMore(expectHTML, tokens, i);
        ghost var log0, events0 := log, events;
        ValueIs(this);
        match tokens[i] {
          case StartTag(name, unarySlash) => HandleStartTag(name, unarySlash);
          case EndTag(name) => ParseEndTag(name);
          case Chars(text) => HandleChars(text);
        }
        ValueIs(this);
        LogMore(expectHTML, tokens, i, log0, events0, log, events);
        i := i + 1;
      }
      assert tokens[..i] == tokens;
      ValueIs(this);
      ghost var log0, events0 := log, events;
      ParseEndTag("");
      ValueIs(this);
      LogDone(expectHTML, tokens, log0, events0, log, events);
      SpotsSpoken(builder.options, log);
      AllClosed(expectHTML, tokens);
      ValidParts(this);
      MirrorDone(builder.options, builder.Value(), events, log);
      BuilderIs(builder);
    }
  }
}
