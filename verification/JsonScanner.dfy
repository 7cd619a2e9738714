/**
 The assistant's JSON scanner: a byte automaton that cuts complete objects out of prose.
 It is specified as a fold over the text and proved to agree with a printer of JSON values.
 */
module JsonScanner {
  import opened Wrappers
  import opened Text

  // ----- the automaton -----

  datatype Mode = Code | Quoted | Escaped

  /** Nesting depth, string mode, where the object being read starts (-1 for none), and the position. */
  datatype State = State(depth: nat, mode: Mode, start: int, at: nat)

  /** The place of a complete object. */
  datatype Span = Span(from: int, to: int)

  /** Ready for the next object. */
  function Ready(at: nat): State {
    State(0, Code, -1, at)
  }

  /** One character of a string. */
  function NextMode(mode: Mode, c: char): Mode {
    if mode.Escaped? then Quoted
    else if c == '\\' then Escaped
    else if c == '"' then Code
    else Quoted
  }

  function Step(s: State, c: char): State {
    if !s.mode.Code? then State(s.depth, NextMode(s.mode, c), s.start, s.at + 1)
    else if c == '{' then State(s.depth + 1, Code, if s.depth == 0 then s.at else s.start, s.at + 1)
    else if c == '}' && s.depth > 0 then State(s.depth - 1, Code, if s.depth == 1 then -1 else s.start, s.at + 1)
    else State(s.depth, if c == '"' then Quoted else Code, s.start, s.at + 1)
  }

  /** The brace that returns to depth 0 completes an object. */
  function Completed(s: State, c: char): seq<Span> {
    if s.mode.Code? && s.depth == 1 && c == '}' then [Span(s.start, s.at + 1)] else []
  }

  function After(s: State, text: string): State
    decreases |text|
  {
    if text == "" then s else After(Step(s, text[0]), text[1..])
  }

  function Found(s: State, text: string): seq<Span>
    decreases |text|
  {
    if text == "" then [] else Completed(s, text[0]) + Found(Step(s, text[0]), text[1..])
  }

  function Cut(text: string, spans: seq<Span>): seq<string> {
    if spans == [] then []
    else if 0 <= spans[0].from <= spans[0].to <= |text| then
      [text[spans[0].from..spans[0].to]] + Cut(text, spans[1..])
    else Cut(text, spans[1..])
  }

  /** The objects of a text, in order. */
  function Objects(text: string): seq<string> {
    Cut(text, Found(Ready(0), text))
  }

  /** The state that the scanner's variables stand for. */
  function StateOf(depth: nat, start: int, inString: bool, escaped: bool, at: nat): State {
    State(depth, if !inString then Code else if escaped then Escaped else Quoted, start, at)
  }

  lemma OneStep(s: State, c: char, text: string)
    ensures After(s, [c] + text) == After(Step(s, c), text)
    ensures Found(s, [c] + text) == Completed(s, c) + Found(Step(s, c), text)
  {
    assert ([c] + text)[0] == c && ([c] + text)[1..] == text;
  }

  lemma {:induction false} ScanOfConcat(s: State, a: string, b: string)
    ensures After(s, a + b) == After(After(s, a), b)
    ensures Found(s, a + b) == Found(s, a) + Found(After(s, a), b)
    decreases |a|
  {
    if a == "" {
      assert a + b == b;
    } else {
      assert (a + b)[0] == a[0] && (a + b)[1..] == a[1..] + b;
      ScanOfConcat(Step(s, a[0]), a[1..], b);
    }
  }

  lemma {:induction false} CutOfConcat(text: string, spans: seq<Span>, more: seq<Span>)
    ensures Cut(text, spans + more) == Cut(text, spans) + Cut(text, more)
  {
    if spans == [] {
      assert spans + more == more;
    } else {
      assert (spans + more)[0] == spans[0] && (spans + more)[1..] == spans[1..] + more;
      CutOfConcat(text, spans[1..], more);
    }
  }

  // ----- the loop -----

  /** The state before the character at position i, and the objects complete by then. */
  function StateAt(text: string, i: nat): State
    requires i <= |text|
  {
    After(Ready(0), text[..i])
  }

  function ObjectsBefore(text: string, i: nat): seq<string>
    requires i <= |text|
  {
    Cut(text, Found(Ready(0), text[..i]))
  }

  /** The object that the character at position i completes. */
  function Finished(text: string, i: nat, s: State): seq<string>
    requires i < |text|
  {
    if s.mode.Code? && s.depth == 1 && text[i] == '}' && 0 <= s.start <= i then [text[s.start..i + 1]] else []
  }

  lemma PositionStep(text: string, i: nat, s: State)
    requires i < |text| && s == StateAt(text, i)
    requires s.at == i && (s.depth > 0 ==> 0 <= s.start <= i)
    ensures StateAt(text, i + 1) == Step(s, text[i])
    ensures ObjectsBefore(text, i + 1) == ObjectsBefore(text, i) + Finished(text, i, s)
  {
    var c := text[i];
    assert text[..i + 1] == text[..i] + [c];
    ScanOfConcat(Ready(0), text[..i], [c]);
    OneStep(s, c, "");
    assert [c] + "" == [c];
    assert Completed(s, c) + [] == Completed(s, c);
    CutOfConcat(text, Found(Ready(0), text[..i]), Completed(s, c));
    assert Cut(text, Completed(s, c)) == Finished(text, i, s);
  }

  method JsonObjectsInText(text: string) returns (objects: seq<string>)
    ensures objects == Objects(text)
  {
    objects := [];
    var depth, start, inString, escaped := 0, -1, false, false;
    var i := 0;
    while i < |text|
      invariant 0 <= i <= |text| && depth >= 0 && -1 <= start <= i
      invariant depth > 0 <==> start >= 0
      invariant escaped ==> inString
      invariant StateOf(depth, start, inString, escaped, i) == StateAt(text, i)
      invariant objects == ObjectsBefore(text, i)
    {
      var ch := text[i];
      PositionStep(text, i, StateOf(depth, start, inString, escaped, i));
      if inString {
        if escaped {
          escaped := false;
        } else if ch == '\\' {
          escaped := true;
        } else if ch == '"' {
          inString := false;
        }
      } else if ch == '"' {
        inString := true;
      } else if ch == '{' {
        if depth == 0 {
          start := i;
        }
        depth := depth + 1;
      } else if ch == '}' && depth > 0 {
        depth := depth - 1;
        if depth == 0 && start >= 0 {
          objects := objects + [text[start..i + 1]];
          start := -1;
        }
      }
      i := i + 1;
    }
    assert text[..i] == text;
  }

  // ----- concrete JSON syntax (RFC 8259, sections 2 to 7) -----

  /** The characters of a string: unescaped ones, and a backslash with the character it escapes. */
  datatype Units = NoUnits | Plain(c: char, rest: Units) | Escape(c: char, rest: Units)

  /** Values with the white space they are written with; a literal is a number, true, false or null. */
  datatype Value =
    | Literal(text: string)
    | Quote(units: Units)
    | Array(gap: string, items: Items)
    | Object(gap: string, members: Members)

  datatype Items = NoItems | Item(value: Value, gap: string, gapNext: string, next: Items)

  datatype Members =
    | NoMembers
    | Member(name: Units, gapName: string, gapColon: string, value: Value, gap: string, gapNext: string, next: Members)

  function PrintUnits(u: Units): string {
    match u
    case NoUnits => ""
    case Plain(c, rest) => [c] + PrintUnits(rest)
    case Escape(c, rest) => ['\\', c] + PrintUnits(rest)
  }

  function PrintQuote(u: Units): string {
    "\"" + (PrintUnits(u) + "\"")
  }

  function Braced(body: string): string {
    ['{'] + (body + "}")
  }

  function Print(v: Value): string {
    match v
    case Literal(text) => text
    case Quote(units) => PrintQuote(units)
    case Array(gap, items) => "[" + gap + PrintItems(items) + "]"
    case Object(gap, members) => Braced(gap + PrintMembers(members))
  }

  function PrintItems(items: Items): string {
    match items
    case NoItems => ""
    case Item(value, gap, gapNext, next) =>
      Print(value) + gap + (if next.NoItems? then "" else "," + gapNext) + PrintItems(next)
  }

  function PrintMembers(members: Members): string {
    match members
    case NoMembers => ""
    case Member(name, gapName, gapColon, value, gap, gapNext, next) =>
      PrintQuote(name) + gapName + ":" + gapColon + Print(value) + gap
      + (if next.NoMembers? then "" else "," + gapNext) + PrintMembers(next)
  }

  /** Section 7: anything but control characters, quotation marks and backslashes stands for itself. */
  predicate LegalUnits(u: Units) {
    match u
    case NoUnits => true
    case Plain(c, rest) => c >= ' ' && c != '"' && c != '\\' && LegalUnits(rest)
    case Escape(c, rest) => c in "\"\\/bfnrtu" && LegalUnits(rest)
  }

  predicate LegalGap(gap: string) {
    forall i :: 0 <= i < |gap| ==> gap[i] in " \t\n\r"
  }

  predicate LegalLiteral(text: string) {
    text != "" && forall i :: 0 <= i < |text| ==>
      'a' <= text[i] <= 'z' || 'A' <= text[i] <= 'Z' || '0' <= text[i] <= '9' || text[i] in "+-."
  }

  predicate Legal(v: Value) {
    match v
    case Literal(text) => LegalLiteral(text)
    case Quote(units) => LegalUnits(units)
    case Array(gap, items) => LegalGap(gap) && LegalItems(items)
    case Object(gap, members) => LegalGap(gap) && LegalMembers(members)
  }

  predicate LegalItems(items: Items) {
    match items
    case NoItems => true
    case Item(value, gap, gapNext, next) => Legal(value) && LegalGap(gap) && LegalGap(gapNext) && LegalItems(next)
  }

  predicate LegalMembers(members: Members) {
    match members
    case NoMembers => true
    case Member(name, gapName, gapColon, value, gap, gapNext, next) =>
      && LegalUnits(name) && LegalGap(gapName) && LegalGap(gapColon) && Legal(value)
      && LegalGap(gap) && LegalGap(gapNext) && LegalMembers(next)
  }

  // ----- printed values leave the automaton where it was -----

  function Moved(s: State, mode: Mode, n: nat): State {
    State(s.depth, mode, s.start, s.at + n)
  }

  /** Nothing happens but the passing of the text. */
  ghost predicate Passes(s: State, text: string) {
    After(s, text) == Moved(s, Code, |text|) && Found(s, text) == []
  }

  ghost predicate Transparent(text: string) {
    forall s: State {:trigger Passes(s, text)} :: s.mode.Code? && s.depth > 0 ==> Passes(s, text)
  }

  lemma PassesConcat(s: State, a: string, b: string)
    requires s.mode.Code? && Passes(s, a) && Passes(Moved(s, Code, |a|), b)
    ensures Passes(s, a + b)
  {
    ScanOfConcat(s, a, b);
  }

  lemma TransparentConcat(a: string, b: string)
    requires Transparent(a) && Transparent(b)
    ensures Transparent(a + b)
  {
    forall s: State | s.mode.Code? && s.depth > 0 ensures Passes(s, a + b) {
      PassesConcat(s, a, b);
    }
  }

  /** Text without quotation marks and braces. */
  predicate Braceless(text: string) {
    forall i :: 0 <= i < |text| ==> text[i] != '"' && text[i] != '{' && text[i] != '}'
  }

  lemma {:induction false} BracelessPasses(s: State, text: string)
    requires s.mode.Code? && Braceless(text)
    ensures Passes(s, text)
    decreases |text|
  {
    if text != "" {
      BracelessPasses(Step(s, text[0]), text[1..]);
    }
  }

  lemma BracelessTransparent(text: string)
    requires Braceless(text)
    ensures Transparent(text)
  {
    forall s: State | s.mode.Code? && s.depth > 0 ensures Passes(s, text) {
      BracelessPasses(s, text);
    }
  }

  /** A string is left at its closing quotation mark and at no other. */
  lemma {:induction false} StringCloses(s: State, u: Units)
    requires s.mode.Quoted? && LegalUnits(u)
    ensures Passes(s, PrintUnits(u) + "\"")
    decreases u
  {
    match u
    case NoUnits =>
      OneStep(s, '"', "");
      assert PrintUnits(u) + "\"" == ['"'] + "";
    case Plain(c, rest) =>
      StringCloses(Step(s, c), rest);
      OneStep(s, c, PrintUnits(rest) + "\"");
      assert PrintUnits(u) + "\"" == [c] + (PrintUnits(rest) + "\"");
    case Escape(c, rest) =>
      StringCloses(Step(Step(s, '\\'), c), rest);
      OneStep(Step(s, '\\'), c, PrintUnits(rest) + "\"");
      OneStep(s, '\\', [c] + (PrintUnits(rest) + "\""));
      assert PrintUnits(u) + "\"" == ['\\'] + ([c] + (PrintUnits(rest) + "\""));
  }

  lemma QuotePasses(s: State, u: Units)
    requires s.mode.Code? && LegalUnits(u)
    ensures Passes(s, PrintQuote(u))
  {
    StringCloses(Step(s, '"'), u);
    OneStep(s, '"', PrintUnits(u) + "\"");
  }

  lemma QuoteTransparent(u: Units)
    requires LegalUnits(u)
    ensures Transparent(PrintQuote(u))
  {
    forall s: State | s.mode.Code? && s.depth > 0 ensures Passes(s, PrintQuote(u)) {
      QuotePasses(s, u);
    }
  }

  lemma ClosingScan(s: State, body: string)
    requires Passes(s, body)
    ensures After(s, body + "}") == Step(Moved(s, Code, |body|), '}')
    ensures Found(s, body + "}") == Completed(Moved(s, Code, |body|), '}')
  {
    ScanOfConcat(s, body, "}");
    OneStep(Moved(s, Code, |body|), '}', "");
    assert "}" == ['}'] + "";
  }

  /** Braces around transparent text: the closing brace comes back to the depth of the opening one. */
  lemma BracesScan(s: State, body: string)
    requires s.mode.Code? && Transparent(body)
    ensures var last := Moved(Step(s, '{'), Code, |body|);
            After(s, Braced(body)) == Step(last, '}') && Found(s, Braced(body)) == Completed(last, '}')
  {
    assert Passes(Step(s, '{'), body);
    ClosingScan(Step(s, '{'), body);
    OneStep(s, '{', body + "}");
  }

  lemma BracesTransparent(body: string)
    requires Transparent(body)
    ensures Transparent(Braced(body))
  {
    forall s: State | s.mode.Code? && s.depth > 0 ensures Passes(s, Braced(body)) {
      BracesScan(s, body);
    }
  }

  lemma {:induction false} PrintTransparent(v: Value)
    requires Legal(v)
    ensures Transparent(Print(v))
  {
    match v
    case Literal(text) => BracelessTransparent(text);
    case Quote(units) => QuoteTransparent(units);
    case Array(gap, items) =>
      BracelessTransparent("[" + gap);
      ItemsTransparent(items);
      BracelessTransparent("]");
      TransparentConcat("[" + gap, PrintItems(items));
      TransparentConcat("[" + gap + PrintItems(items), "]");
    case Object(gap, members) =>
      BodyTransparent(gap, members);
      BracesTransparent(gap + PrintMembers(members));
  }

  lemma {:induction false} BodyTransparent(gap: string, members: Members)
    requires LegalGap(gap) && LegalMembers(members)
    ensures Transparent(gap + PrintMembers(members))
    decreases members, 1
  {
    BracelessTransparent(gap);
    MembersTransparent(members);
    TransparentConcat(gap, PrintMembers(members));
  }

  lemma {:induction false} ItemsTransparent(items: Items)
    requires LegalItems(items)
    ensures Transparent(PrintItems(items))
  {
    match items
    case NoItems => BracelessTransparent("");
    case Item(value, gap, gapNext, next) =>
      var separator := if next.NoItems? then "" else "," + gapNext;
      PrintTransparent(value);
      BracelessTransparent(gap);
      BracelessTransparent(separator);
      ItemsTransparent(next);
      TransparentConcat(Print(value), gap);
      TransparentConcat(Print(value) + gap, separator);
      TransparentConcat(Print(value) + gap + separator, PrintItems(next));
  }

  lemma {:induction false} MembersTransparent(members: Members)
    requires LegalMembers(members)
    ensures Transparent(PrintMembers(members))
    decreases members, 0
  {
    match members
    case NoMembers => BracelessTransparent("");
    case Member(name, gapName, gapColon, value, gap, gapNext, next) =>
      var separator := if next.NoMembers? then "" else "," + gapNext;
      var head := PrintQuote(name) + gapName + ":" + gapColon;
      HeadTransparent(name, gapName, gapColon);
      PrintTransparent(value);
      BracelessTransparent(gap);
      BracelessTransparent(separator);
      MembersTransparent(next);
      TransparentConcat(head, Print(value));
      TransparentConcat(head + Print(value), gap);
      TransparentConcat(head + Print(value) + gap, separator);
      TransparentConcat(head + Print(value) + gap + separator, PrintMembers(next));
  }

  lemma HeadTransparent(name: Units, gapName: string, gapColon: string)
    requires LegalUnits(name) && LegalGap(gapName) && LegalGap(gapColon)
    ensures Transparent(PrintQuote(name) + gapName + ":" + gapColon)
  {
    QuoteTransparent(name);
    BracelessTransparent(gapName);
    BracelessTransparent(":");
    BracelessTransparent(gapColon);
    TransparentConcat(PrintQuote(name), gapName);
    TransparentConcat(PrintQuote(name) + gapName, ":");
    TransparentConcat(PrintQuote(name) + gapName + ":", gapColon);
  }

  lemma BracedIsFound(s: State, body: string)
    requires s.mode.Code? && s.depth == 0 && s.start == -1 && Transparent(body)
    ensures Found(s, Braced(body)) == [Span(s.at, s.at + |body| + 2)]
    ensures After(s, Braced(body)) == Moved(s, Code, |body| + 2)
  {
    var last := Moved(Step(s, '{'), Code, |body|);
    BracesScan(s, body);
    assert Step(last, '}') == Moved(s, Code, |body| + 2);
    assert Completed(last, '}') == [Span(s.at, s.at + |body| + 2)];
  }

  /** A printed object is found as it stands, and the scanner is ready for the next. */
  lemma {:induction false} PrintedObjectIsFound(v: Value, at: nat)
    requires v.Object? && Legal(v)
    ensures Found(Ready(at), Print(v)) == [Span(at, at + |Print(v)|)]
    ensures After(Ready(at), Print(v)) == Ready(at + |Print(v)|)
  {
    BodyTransparent(v.gap, v.members);
    BracedIsFound(Ready(at), v.gap + PrintMembers(v.members));
  }

  // ----- objects in prose -----

  /** Prose, a complete quotation, or an object. */
  datatype Piece = Prose(text: string) | Quotation(units: Units) | Embedded(value: Value)

  datatype Passage = End | Then(piece: Piece, rest: Passage)

  /** Prose is free of quotation marks and opening braces; a stray closing brace is fine. */
  predicate LegalPiece(p: Piece) {
    match p
    case Prose(text) => forall i :: 0 <= i < |text| ==> text[i] != '"' && text[i] != '{'
    case Quotation(units) => LegalUnits(units)
    case Embedded(value) => value.Object? && Legal(value)
  }

  predicate LegalPassage(p: Passage) {
    p.End? || (LegalPiece(p.piece) && LegalPassage(p.rest))
  }

  function PrintPiece(p: Piece): string {
    match p
    case Prose(text) => text
    case Quotation(units) => PrintQuote(units)
    case Embedded(value) => Print(value)
  }

  function PrintPassage(p: Passage): string {
    if p.End? then "" else PrintPiece(p.piece) + PrintPassage(p.rest)
  }

  function EmbeddedIn(p: Passage): seq<string> {
    if p.End? then []
    else (if p.piece.Embedded? then [Print(p.piece.value)] else []) + EmbeddedIn(p.rest)
  }

  lemma {:induction false} ProseIsSkipped(text: string, at: nat)
    requires forall i :: 0 <= i < |text| ==> text[i] != '"' && text[i] != '{'
    ensures Passes(Ready(at), text)
    decreases |text|
  {
    if text != "" {
      ProseIsSkipped(text[1..], at + 1);
    }
  }

  function SpanOf(p: Piece, from: nat, to: nat): seq<Span> {
    if p.Embedded? then [Span(from, to)] else []
  }

  lemma PieceIsScanned(p: Piece, at: nat)
    requires LegalPiece(p)
    ensures After(Ready(at), PrintPiece(p)) == Ready(at + |PrintPiece(p)|)
    ensures Found(Ready(at), PrintPiece(p)) == SpanOf(p, at, at + |PrintPiece(p)|)
  {
    match p
    case Prose(text) => ProseIsSkipped(text, at);
    case Quotation(units) => QuotePasses(Ready(at), units);
    case Embedded(value) => PrintedObjectIsFound(value, at);
  }

  lemma CutFirst(text: string, span: Span, spans: seq<Span>)
    requires 0 <= span.from <= span.to <= |text|
    ensures Cut(text, [span] + spans) == [text[span.from..span.to]] + Cut(text, spans)
  {
    assert ([span] + spans)[1..] == spans;
  }

  lemma FirstPiece(p: Passage, at: nat, to: nat)
    requires p.Then? && LegalPiece(p.piece) && to == at + |PrintPiece(p.piece)|
    ensures Found(Ready(at), PrintPassage(p)) == SpanOf(p.piece, at, to) + Found(Ready(to), PrintPassage(p.rest))
  {
    PieceIsScanned(p.piece, at);
    ScanOfConcat(Ready(at), PrintPiece(p.piece), PrintPassage(p.rest));
  }

  lemma CutPiece(text: string, before: string, p: Passage, to: nat, spans: seq<Span>, all: seq<Span>)
    requires p.Then? && text == before + PrintPassage(p) && to == |before| + |PrintPiece(p.piece)|
    requires all == SpanOf(p.piece, |before|, to) + spans && Cut(text, spans) == EmbeddedIn(p.rest)
    ensures Cut(text, all) == EmbeddedIn(p)
  {
    assert text[|before|..to] == PrintPiece(p.piece);
    if p.piece.Embedded? {
      CutFirst(text, Span(|before|, to), spans);
    } else {
      assert all == spans;
    }
  }

  lemma {:induction false} CutPassage(text: string, before: string, p: Passage)
    requires LegalPassage(p) && text == before + PrintPassage(p)
    ensures Cut(text, Found(Ready(|before|), PrintPassage(p))) == EmbeddedIn(p)
    decreases p
  {
    if p.Then? {
      var next := before + PrintPiece(p.piece);
      assert text == next + PrintPassage(p.rest);
      CutPassage(text, next, p.rest);
      FirstPiece(p, |before|, |next|);
      CutPiece(text, before, p, |next|, Found(Ready(|next|), PrintPassage(p.rest)),
               Found(Ready(|before|), PrintPassage(p)));
    }
  }

  /** The scanner returns exactly the objects embedded in a text, in order, and as they were printed. */
  lemma ObjectsOfPassage(p: Passage)
    requires LegalPassage(p)
    ensures Objects(PrintPassage(p)) == EmbeddedIn(p)
  {
    assert PrintPassage(p) == "" + PrintPassage(p);
    CutPassage(PrintPassage(p), "", p);
  }

  // ----- every text -----

  /** Inside an object: its text so far, scanned alone, leads to the same depth and mode. */
  ghost predicate SameAlone(s: State, part: string) {
    After(Ready(0), part) == State(s.depth, s.mode, 0, |part|) && Found(Ready(0), part) == []
  }

  ghost predicate AsIfAlone(text: string, i: nat, s: State)
    requires i <= |text|
  {
    && s.at == i
    && (s.depth == 0 ==> s.start == -1)
    && (s.depth > 0 ==> 0 <= s.start < i && SameAlone(s, text[s.start..i]))
  }

  lemma OneMore(s: State, text: string, c: char)
    ensures After(s, text + [c]) == Step(After(s, text), c)
    ensures Found(s, text + [c]) == Found(s, text) + Completed(After(s, text), c)
  {
    ScanOfConcat(s, text, [c]);
    OneStep(After(s, text), c, "");
    assert [c] + "" == [c];
    assert Completed(After(s, text), c) + [] == Completed(After(s, text), c);
  }

  lemma SameAloneStep(s: State, part: string, c: char)
    requires s.depth > 0 && SameAlone(s, part) && Step(s, c).depth > 0
    ensures SameAlone(Step(s, c), part + [c])
  {
    OneMore(Ready(0), part, c);
  }

  lemma SameAloneStart(s: State, c: char)
    requires s.depth == 0 && Step(s, c).depth > 0
    ensures SameAlone(Step(s, c), [c])
  {
    OneMore(Ready(0), "", c);
    assert "" + [c] == [c];
  }

  lemma AsIfAloneStep(text: string, i: nat, s: State)
    requires i < |text| && AsIfAlone(text, i, s)
    ensures AsIfAlone(text, i + 1, Step(s, text[i]))
  {
    var c := text[i];
    if Step(s, c).depth > 0 {
      if s.depth > 0 {
        SameAloneStep(s, text[s.start..i], c);
        assert text[s.start..i + 1] == text[s.start..i] + [c];
      } else {
        SameAloneStart(s, c);
        assert text[i..i + 1] == [c];
      }
    }
  }

  lemma {:induction false} AlwaysAsIfAlone(text: string, i: nat)
    requires i <= |text|
    ensures AsIfAlone(text, i, StateAt(text, i))
  {
    if i > 0 {
      AlwaysAsIfAlone(text, i - 1);
      AsIfAloneStep(text, i - 1, StateAt(text, i - 1));
      PositionStep(text, i - 1, StateAt(text, i - 1));
    }
  }

  lemma FinishedScansAlone(text: string, i: nat)
    requires i < |text| && Finished(text, i, StateAt(text, i)) != []
    ensures var o := text[StateAt(text, i).start..i + 1]; Found(Ready(0), o) == [Span(0, |o|)]
  {
    AlwaysAsIfAlone(text, i);
    var s := StateAt(text, i);
    assert text[s.start..i + 1] == text[s.start..i] + [text[i]];
    OneMore(Ready(0), text[s.start..i], text[i]);
  }

  lemma {:induction false} RescanBefore(text: string, i: nat, k: nat)
    requires i <= |text| && k < |ObjectsBefore(text, i)|
    ensures var o := ObjectsBefore(text, i)[k]; Found(Ready(0), o) == [Span(0, |o|)]
  {
    if i > 0 {
      AlwaysAsIfAlone(text, i - 1);
      PositionStep(text, i - 1, StateAt(text, i - 1));
      if k < |ObjectsBefore(text, i - 1)| {
        RescanBefore(text, i - 1, k);
      } else {
        FinishedScansAlone(text, i - 1);
      }
    }
  }

  /** Whatever the text, everything found is one complete object: scanning it again finds it and nothing else. */
  lemma RescanFindsItself(text: string, k: nat)
    requires k < |Objects(text)|
    ensures Objects(Objects(text)[k]) == [Objects(text)[k]]
  {
    assert text[..|text|] == text;
    RescanBefore(text, |text|, k);
    var o := Objects(text)[k];
    assert o[0..|o|] == o;
    CutFirst(o, Span(0, |o|), []);
    assert [Span(0, |o|)] + [] == [Span(0, |o|)];
  }

  /** The spans lie one after the other between two positions. */
  predicate InOrder(spans: seq<Span>, lo: int, hi: int) {
    if spans == [] then lo <= hi
    else lo <= spans[0].from < spans[0].to && InOrder(spans[1..], spans[0].to, hi)
  }

  /** Whatever the text, the objects found are disjoint pieces of it, in the order they stand in. */
  lemma {:induction false} FoundInOrder(s: State, text: string)
    requires s.depth > 0 ==> 0 <= s.start < s.at
    requires s.depth == 0 ==> s.start == -1
    ensures InOrder(Found(s, text), if s.depth == 0 then s.at else s.start, s.at + |text|)
    decreases |text|
  {
    if text != "" {
      var next := Step(s, text[0]);
      var rest := Found(next, text[1..]);
      FoundInOrder(next, text[1..]);
      if Completed(s, text[0]) == [] {
        assert [] + rest == rest;
        LaterInOrder(rest, if s.depth == 0 then s.at else s.start, if next.depth == 0 then next.at else next.start,
                     s.at + |text|);
      } else {
        assert ([Span(s.start, s.at + 1)] + rest)[1..] == rest;
      }
    }
  }

  lemma LaterInOrder(spans: seq<Span>, early: int, late: int, hi: int)
    requires InOrder(spans, late, hi) && early <= late
    ensures InOrder(spans, early, hi)
  {
  }
}
