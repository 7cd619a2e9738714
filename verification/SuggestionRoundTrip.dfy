/**
 What acceptance reads back of a suggestion that the sync printed: exactly when a field makes the
 round trip, and which lines of the sender's own can come in its place.
 */
module SuggestionRoundTrip {
  import opened Wrappers
  import opened Text
  import opened SuggestionBody

  /** What the phone pattern can find: digits and punctuation, with white space inside, newlines included. */
  predicate PhoneLike(phone: string) {
    Trimmed(phone) && Letterless(phone)
  }

  predicate Letterless(s: string) {
    forall i :: 0 <= i < |s| ==> InPhone(s[i])
  }

  predicate InPhone(c: char) {
    IsSpace(c) || c in "0123456789+()./-"
  }

  /** The enrichment as the sync finds it: trimmed values on one line, but for a name and a phone. */
  predicate Found(e: Enrichment) {
    && '\n' !in e.title && '\n' !in e.linkedIn && '\n' !in e.website
    && Trimmed(e.name) && Trimmed(e.title) && Trimmed(e.linkedIn) && PhoneLike(e.phone)
  }

  // ----- lines and labels -----

  /** A printed line still starts with its label after trimming. */
  lemma TrimmedLine(tag: string, value: string)
    requires tag != "" && !IsSpace(tag[0])
    ensures Trim(Tagged(tag, value)) == tag + ":" + TrimRight(" " + value)
  {
    var p := tag + ":";
    assert Tagged(tag, value) == p + (" " + value);
    assert TrimLeft(p + (" " + value)) == p + (" " + value);
    TrimRightKeepsPrefix(p, " " + value);
  }

  /** A printed line never matches a label that differs from its own somewhere. */
  lemma OtherLabel(tag: string, value: string, wanted: string, k: nat)
    requires tag != "" && !IsSpace(tag[0])
    requires k <= |wanted| && k <= |tag|
    requires Lower(tag + ":")[k] != Lower(wanted + ":")[k]
    ensures !MatchesLabel(Tagged(tag, value), wanted)
  {
    TrimmedLine(tag, value);
    var line := Trim(Tagged(tag, value));
    assert line[k] == (tag + ":")[k];
    assert Lower(line)[k] == Lower(tag + ":")[k];
    LowerPrefix(wanted);
  }

  lemma LowerPrefix(tag: string)
    ensures Lower(tag + ":") == Lower(tag) + ":"
  {
    LowerOfConcat(tag, ":");
    assert Lower(":") == ":";
  }

  lemma SplitsAfterPrefix(p: string, rest: string)
    ensures HasPrefix(Lower(p + rest), Lower(p)) && (p + rest)[|p|..] == rest
  {
    LowerOfConcat(p, rest);
  }

  lemma TrimAfterSpace(value: string)
    requires Trimmed(value)
    ensures Trim(" " + value) == value
  {
    var padded := " " + value;
    assert padded[0] == ' ' && padded[1..] == value;
    assert TrimLeft(padded) == TrimLeft(value) == value;
  }

  /** Two labels that differ in one of their letters. */
  predicate Differ(tag: string, wanted: string, k: nat) {
    k < |wanted| && k < |tag| && LowerChar(tag[k]) != LowerChar(wanted[k])
  }

  lemma DifferentLabel(tag: string, value: string, wanted: string, k: nat)
    requires tag != "" && !IsSpace(tag[0]) && Differ(tag, wanted, k)
    ensures !MatchesLabel(Tagged(tag, value), wanted)
  {
    assert Lower(tag + ":")[k] == LowerChar(tag[k]) && Lower(wanted + ":")[k] == LowerChar(wanted[k]);
    OtherLabel(tag, value, wanted, k);
  }

  lemma {:induction false} FirstLineOf(s: string)
    ensures var first := Lines(s)[0];
            && first <= s && '\n' !in first && (first == s <==> '\n' !in s)
    ensures forall i, k :: 0 <= i < |Lines(s)| && 0 <= k < |Lines(s)[i]| ==> Lines(s)[i][k] in s
  {
    if s != "" {
      FirstLineOf(s[1..]);
      assert s == [s[0]] + s[1..];
    }
  }

  lemma {:induction false} TrimStartsInside(s: string)
    ensures TrimLeft(s) != "" ==> TrimLeft(s)[0] in s
  {
    if s != "" && IsSpace(s[0]) {
      TrimStartsInside(s[1..]);
    }
  }

  /** Labels start with a letter. */
  lemma NoLetterNoPrefix(t: string, f: Field)
    requires t == "" || InPhone(t[0])
    ensures !HasPrefix(Lower(t), Lower(Label(f)) + ":")
  {
    if t != "" {
      assert Lower(t)[0] == LowerChar(t[0]) == t[0];
      assert (Lower(Label(f)) + ":")[0] == LowerChar(Label(f)[0]);
    }
  }

  /** A line without letters carries no label. */
  lemma NoLetterNoLabel(line: string, f: Field)
    requires Letterless(line)
    ensures !MatchesLabel(line, Label(f))
  {
    TrimStartsInside(line);
    NoLetterNoPrefix(Trim(line), f);
  }

  /** A printed line gives its trimmed value back, when the value starts with something. */
  lemma OwnLabelTrims(tag: string, value: string)
    requires tag != "" && !IsSpace(tag[0]) && value != "" && !IsSpace(value[0])
    ensures MatchesLabel(Tagged(tag, value), tag) && FieldOfLine(Tagged(tag, value), tag) == Trim(value)
  {
    TrimmedLine(tag, value);
    LowerPrefix(tag);
    SplitsAfterPrefix(tag + ":", TrimRight(" " + value));
    TrimRightAfterSpace(value);
    assert (tag + ":" + TrimRight(" " + value))[|tag| + 1..] == TrimRight(" " + value);
  }

  /** Trimming on the right leaves a first character that is no space, and what is in front of it. */
  lemma TrimRightKeepsFront(front: string, value: string)
    requires value != "" && !IsSpace(value[0])
    ensures TrimRight(front + value) == front + TrimRight(value)
  {
    var p := front + value[..1];
    assert front + value == p + value[1..] && value == value[..1] + value[1..];
    TrimRightKeepsPrefix(p, value[1..]);
    TrimRightKeepsPrefix(value[..1], value[1..]);
    assert front + (value[..1] + TrimRight(value[1..])) == p + TrimRight(value[1..]);
  }

  lemma TrimRightAfterSpace(value: string)
    requires value != "" && !IsSpace(value[0])
    ensures Trim(TrimRight(" " + value)) == Trim(value)
  {
    TrimRightKeepsFront(" ", value);
    var v := TrimRight(value);
    TrimKept(value, v);
    TrimAfterSpace(v);
  }

  lemma TrimKept(value: string, v: string)
    requires value != "" && !IsSpace(value[0]) && v == TrimRight(value)
    ensures Trim(value) == v && (v != "" ==> v[0] == value[0]) && Trimmed(v)
  {
    assert TrimLeft(value) == value;
  }

  lemma OtherFirstLetter(line: string, tag: string)
    requires line != "" && !IsSpace(line[0]) && tag != "" && LowerChar(line[0]) != LowerChar(tag[0])
    ensures !MatchesLabel(line, tag)
  {
    TrimKept(line, TrimRight(line));
    var t := Trim(line);
    assert t != "" ==> Lower(t)[0] == LowerChar(line[0]) && (Lower(tag) + ":")[0] == LowerChar(tag[0]);
  }

  lemma StartsWithOther(line: string, first: char, f: Field)
    requires line != "" && line[0] == first && (first == 'C' || first == 'R')
    ensures !MatchesLabel(line, Label(f))
  {
    OtherFirstLetter(line, Label(f));
  }

  /** The printed frame around the sender's text carries no label. */
  lemma FrameIsUnlabelled(f: Field)
    ensures !MatchesLabel("", Label(f)) && !MatchesLabel(CONTEXT_TITLE, Label(f)) && !MatchesLabel(FOOTER, Label(f))
  {
    StartsWithOther(CONTEXT_TITLE, 'C', f);
    StartsWithOther(FOOTER, 'R', f);
  }

  // ----- asking line by line -----

  type Question = string -> Option<string>

  /** What one line says about a label, if it carries it. */
  function Answer(line: string, tag: string): Option<string> {
    if MatchesLabel(line, tag) then Some(FieldOfLine(line, tag)) else None
  }

  function AnswersTo(tag: string): Question {
    (line: string) => Answer(line, tag)
  }

  /** What the first line that answers says. */
  function FirstAnswer(lines: seq<string>, ask: Question): Option<string> {
    if lines == [] then None
    else if ask(lines[0]).Some? then ask(lines[0])
    else FirstAnswer(lines[1..], ask)
  }

  function Or(a: Option<string>, b: Option<string>): Option<string> {
    if a.Some? then a else b
  }

  lemma FirstOfCons(line: string, rest: seq<string>, ask: Question)
    ensures FirstAnswer([line] + rest, ask) == Or(ask(line), FirstAnswer(rest, ask))
  {
    assert ([line] + rest)[1..] == rest;
  }

  lemma {:induction false} FirstOfConcat(a: seq<string>, b: seq<string>, ask: Question)
    ensures FirstAnswer(a + b, ask) == Or(FirstAnswer(a, ask), FirstAnswer(b, ask))
  {
    if a == [] {
      assert a + b == b;
    } else {
      assert a + b == [a[0]] + (a[1..] + b) && a == [a[0]] + a[1..];
      FirstOfCons(a[0], a[1..] + b, ask);
      FirstOfCons(a[0], a[1..], ask);
      FirstOfConcat(a[1..], b, ask);
    }
  }

  lemma {:induction false} NobodyAnswers(lines: seq<string>, ask: Question)
    requires forall i :: 0 <= i < |lines| ==> ask(lines[i]) == None
    ensures FirstAnswer(lines, ask) == None
  {
    if lines != [] {
      assert forall i :: 0 <= i < |lines[1..]| ==> lines[1..][i] == lines[i + 1];
      NobodyAnswers(lines[1..], ask);
    }
  }

  /** Line `i` is the first that answers. */
  predicate AnswersFirst(lines: seq<string>, ask: Question, i: int) {
    0 <= i < |lines| && ask(lines[i]).Some? && forall j :: 0 <= j < i ==> ask(lines[j]) == None
  }

  lemma {:induction false} SomebodyAnswers(lines: seq<string>, ask: Question) returns (i: nat)
    requires FirstAnswer(lines, ask).Some?
    ensures AnswersFirst(lines, ask, i) && ask(lines[i]) == FirstAnswer(lines, ask)
  {
    if ask(lines[0]).Some? {
      i := 0;
    } else {
      var k := SomebodyAnswers(lines[1..], ask);
      assert forall j :: 0 < j <= k ==> lines[j] == lines[1..][j - 1];
      i := k + 1;
    }
  }

  lemma {:induction false} FieldIsFirstAnswer(lines: seq<string>, tag: string)
    ensures FieldIn(lines, tag) == GetOr(FirstAnswer(lines, AnswersTo(tag)), "")
  {
    if lines != [] {
      FieldIsFirstAnswer(lines[1..], tag);
    }
  }

  function GetOr(a: Option<string>, other: string): string {
    if a.Some? then a.value else other
  }

  /** No line carries the label. */
  predicate Unlabelled(lines: seq<string>, tag: string) {
    forall i :: 0 <= i < |lines| ==> !MatchesLabel(lines[i], tag)
  }

  /** The first line with the label, if there is one, has this after its colon. */
  predicate Says(lines: seq<string>, tag: string, value: string) {
    forall i :: 0 <= i < |lines| && IsFirstWith(lines, tag, i) ==> FieldOfLine(lines[i], tag) == value
  }

  predicate IsFirstWith(lines: seq<string>, tag: string, i: nat) {
    i < |lines| && MatchesLabel(lines[i], tag) && forall j :: 0 <= j < i ==> !MatchesLabel(lines[j], tag)
  }

  lemma UnlabelledIff(lines: seq<string>, tag: string)
    ensures Unlabelled(lines, tag) <==> FirstAnswer(lines, AnswersTo(tag)) == None
  {
    var ask := AnswersTo(tag);
    if Unlabelled(lines, tag) {
      NobodyAnswers(lines, ask);
    }
    if FirstAnswer(lines, ask) == None {
      SilenceMeans(lines, ask);
      assert forall i :: 0 <= i < |lines| ==> ask(lines[i]) == None;
    }
  }

  lemma {:induction false} SilenceMeans(lines: seq<string>, ask: Question)
    requires FirstAnswer(lines, ask) == None
    ensures forall i :: 0 <= i < |lines| ==> ask(lines[i]) == None
  {
    if lines != [] {
      SilenceMeans(lines[1..], ask);
      assert forall i :: 0 < i < |lines| ==> lines[i] == lines[1..][i - 1];
    }
  }

  lemma SaysIff(lines: seq<string>, tag: string, value: string)
    requires !Unlabelled(lines, tag)
    ensures Says(lines, tag, value) <==> FirstAnswer(lines, AnswersTo(tag)) == Some(value)
  {
    UnlabelledIff(lines, tag);
    var i := SomebodyAnswers(lines, AnswersTo(tag));
    FirstIsFirst(lines, tag, i);
  }

  lemma FirstIsFirst(lines: seq<string>, tag: string, i: nat)
    requires AnswersFirst(lines, AnswersTo(tag), i)
    ensures IsFirstWith(lines, tag, i) && AnswersTo(tag)(lines[i]) == Some(FieldOfLine(lines[i], tag))
    ensures forall k :: 0 <= k < |lines| && IsFirstWith(lines, tag, k) ==> k == i
  {
    forall j | 0 <= j < i
      ensures !MatchesLabel(lines[j], tag)
    {
      assert AnswersTo(tag)(lines[j]) == None;
    }
  }

  // ----- questions about a field -----

  /** The question gets no answer from lines with this tag. */
  ghost predicate Skips(ask: Question, tag: string) {
    forall v :: ask(Tagged(tag, v)) == None
  }

  /** It gets the value from lines with its own. */
  ghost predicate Reads(ask: Question, tag: string) {
    forall v :: v != "" && !IsSpace(v[0]) ==> ask(Tagged(tag, v)) == Some(Trim(v))
  }

  /** A question about field `f` reads lines with the label of `g`, or skips them. */
  ghost predicate AskedOf(ask: Question, f: Field, g: Field) {
    if f == g then Reads(ask, Label(g)) else Skips(ask, Label(g))
  }

  ghost predicate SkipsLetterless(ask: Question) {
    forall line :: Letterless(line) ==> ask(line) == None
  }

  predicate SkipsFrame(ask: Question) {
    ask("") == None && ask(CONTEXT_TITLE) == None && ask(FOOTER) == None
  }

  ghost predicate AsksFor(ask: Question, f: Field) {
    && Skips(ask, "Email") && Skips(ask, "Suggested company domain") && Skips(ask, "Website") && Skips(ask, "Subject")
    && AskedOf(ask, f, Name) && AskedOf(ask, f, Title) && AskedOf(ask, f, Phone) && AskedOf(ask, f, LinkedIn)
    && SkipsLetterless(ask) && SkipsFrame(ask)
  }

  lemma OtherIsSkipped(tag: string, wanted: string, k: nat)
    requires tag != "" && !IsSpace(tag[0]) && Differ(tag, wanted, k)
    ensures Skips(AnswersTo(wanted), tag)
  {
    forall v
      ensures AnswersTo(wanted)(Tagged(tag, v)) == None
    {
      DifferentLabel(tag, v, wanted, k);
    }
  }

  lemma OwnIsRead(tag: string)
    requires tag != "" && !IsSpace(tag[0])
    ensures Reads(AnswersTo(tag), tag)
  {
    forall v | v != "" && !IsSpace(v[0])
      ensures AnswersTo(tag)(Tagged(tag, v)) == Some(Trim(v))
    {
      OwnLabelTrims(tag, v);
    }
  }

  /** A label is read from lines with itself and from no others; labels differ in their first or second letter. */
  lemma ReadOrSkipped(f: Field, g: Field)
    ensures AskedOf(AnswersTo(Label(f)), f, g)
  {
    if f == g {
      OwnIsRead(Label(f));
    } else {
      OtherIsSkipped(Label(g), Label(f), if (f.Title? && g.Phone?) || (f.Phone? && g.Title?) then 1 else 0);
    }
  }

  /** No label starts like the tags of the other printed lines. */
  lemma OthersAreSkipped(f: Field)
    ensures var ask := AnswersTo(Label(f));
            Skips(ask, "Email") && Skips(ask, "Suggested company domain") && Skips(ask, "Website") && Skips(ask, "Subject")
  {
    OtherIsSkipped("Email", Label(f), 0);
    OtherIsSkipped("Suggested company domain", Label(f), 0);
    OtherIsSkipped("Website", Label(f), 0);
    OtherIsSkipped("Subject", Label(f), 0);
  }

  lemma LetterlessIsSkipped(f: Field)
    ensures SkipsLetterless(AnswersTo(Label(f)))
  {
    forall line | Letterless(line)
      ensures !MatchesLabel(line, Label(f))
    {
      NoLetterNoLabel(line, f);
    }
  }

  lemma FrameIsSkipped(f: Field)
    ensures SkipsFrame(AnswersTo(Label(f)))
  {
    FrameIsUnlabelled(f);
  }

  lemma LabelAsks(f: Field)
    ensures AsksFor(AnswersTo(Label(f)), f)
  {
    ReadOrSkipped(f, Name);
    ReadOrSkipped(f, Title);
    ReadOrSkipped(f, Phone);
    ReadOrSkipped(f, LinkedIn);
    OthersAreSkipped(f);
    LetterlessIsSkipped(f);
    FrameIsSkipped(f);
  }

  // ----- printed texts, line by line -----

  /** The lines of some texts, one text after the other. */
  function AllLines(texts: seq<string>): seq<string> {
    if texts == [] then [] else Lines(texts[0]) + AllLines(texts[1..])
  }

  lemma {:induction false} LinesOfJoined(texts: seq<string>, rest: seq<string>)
    requires rest != []
    ensures Lines(Join(texts + rest)) == AllLines(texts) + Lines(Join(rest))
  {
    if texts == [] {
      assert texts + rest == rest;
    } else {
      assert texts + rest == [texts[0]] + (texts[1..] + rest);
      LinesOfJoin(texts[0], texts[1..] + rest);
      LinesOfJoined(texts[1..], rest);
    }
  }

  lemma {:induction false} AllLinesOfConcat(a: seq<string>, b: seq<string>)
    ensures AllLines(a + b) == AllLines(a) + AllLines(b)
  {
    if a == [] {
      assert a + b == b;
    } else {
      assert a + b == [a[0]] + (a[1..] + b);
      AllLinesOfConcat(a[1..], b);
    }
  }

  lemma {:induction false} LinesAfterPrefix(p: string, s: string)
    requires '\n' !in p
    ensures Lines(p + s) == [p + Lines(s)[0]] + Lines(s)[1..]
  {
    if p == "" {
      assert p + s == s && p + Lines(s)[0] == Lines(s)[0];
    } else {
      assert p + s == [p[0]] + (p[1..] + s);
      LinesAfterPrefix(p[1..], s);
      assert [p[0]] + (p[1..] + Lines(s)[0]) == p + Lines(s)[0];
    }
  }

  lemma AllLinesOfOne(text: string)
    ensures AllLines([text]) == Lines(text)
  {
    assert [text][1..] == [];
  }

  lemma JoinedLines(texts: seq<string>)
    requires texts != []
    ensures Lines(Join(texts)) == AllLines(texts)
  {
    var front, last := texts[..|texts| - 1], texts[|texts| - 1];
    assert texts == front + [last];
    LinesOfJoined(front, [last]);
    AllLinesOfConcat(front, [last]);
    AllLinesOfOne(last);
  }

  lemma LinesOfTagged(tag: string, value: string)
    requires '\n' !in tag
    ensures Lines(Tagged(tag, value)) == [Tagged(tag, Lines(value)[0])] + Lines(value)[1..]
  {
    LinesAfterPrefix(tag + ": ", value);
  }

  lemma StartsFirstLine(s: string)
    requires s != "" && s[0] != '\n'
    ensures Lines(s)[0] != "" && Lines(s)[0][0] == s[0]
  {
  }

  // ----- what printed texts answer -----

  /** What the lines of some texts answer. */
  function Told(texts: seq<string>, ask: Question): Option<string> {
    FirstAnswer(AllLines(texts), ask)
  }

  lemma ToldConcat(a: seq<string>, b: seq<string>, ask: Question)
    ensures Told(a + b, ask) == Or(Told(a, ask), Told(b, ask))
  {
    AllLinesOfConcat(a, b);
    FirstOfConcat(AllLines(a), AllLines(b), ask);
  }

  lemma ToldOne(text: string, ask: Question)
    ensures Told([text], ask) == FirstAnswer(Lines(text), ask)
  {
    AllLinesOfOne(text);
  }

  /** The part of a value below its first line. */
  function Extra(value: string): seq<string> {
    Lines(value)[1..]
  }

  /** What is read of a printed value: its first line. */
  function FirstLine(value: string): string {
    Trim(Lines(value)[0])
  }

  lemma FirstLineIsSome(value: string)
    requires Trimmed(value) && value != ""
    ensures FirstLine(value) != ""
  {
    StartsFirstLine(value);
    TrimKept(Lines(value)[0], TrimRight(Lines(value)[0]));
    StartsAreKept(Lines(value)[0]);
  }

  lemma StartsAreKept(s: string)
    requires s != "" && !IsSpace(s[0])
    ensures TrimRight(s) != ""
  {
    TrimRightKeepsFront("", s);
    TrimRightKeepsPrefix(s[..1], s[1..]);
    assert s == s[..1] + s[1..];
  }

  lemma ToldTagged(tag: string, value: string, ask: Question)
    requires '\n' !in tag
    ensures FirstAnswer(Lines(Tagged(tag, value)), ask) ==
            Or(ask(Tagged(tag, Lines(value)[0])), FirstAnswer(Extra(value), ask))
  {
    LinesOfTagged(tag, value);
    FirstOfCons(Tagged(tag, Lines(value)[0]), Extra(value), ask);
  }

  /** A text with another tag answers with what its further lines say. */
  lemma ToldSkipped(tag: string, value: string, ask: Question)
    requires '\n' !in tag && Skips(ask, tag)
    ensures Told([Tagged(tag, value)], ask) == FirstAnswer(Extra(value), ask)
    ensures Told(Labelled(tag, value), ask) == FirstAnswer(Extra(value), ask)
  {
    ToldOne(Tagged(tag, value), ask);
    ToldTagged(tag, value, ask);
    assert value == "" ==> Extra(value) == [];
  }

  /** A text with the wanted tag answers with its first line. */
  lemma ToldRead(tag: string, value: string, ask: Question)
    requires '\n' !in tag && Reads(ask, tag) && Trimmed(value)
    ensures Told(Labelled(tag, value), ask) == if value == "" then None else Some(FirstLine(value))
  {
    if value != "" {
      ToldOne(Tagged(tag, value), ask);
      ToldTagged(tag, value, ask);
      StartsFirstLine(value);
    }
  }

  lemma OneLineAddsNone(value: string, ask: Question)
    requires '\n' !in value
    ensures FirstAnswer(Extra(value), ask) == None
  {
    OneLine(value);
  }

  lemma PhoneAddsNone(phone: string, ask: Question)
    requires Letterless(phone) && SkipsLetterless(ask)
    ensures FirstAnswer(Extra(phone), ask) == None
  {
    FirstLineOf(phone);
    forall i | 0 <= i < |Extra(phone)|
      ensures Letterless(Extra(phone)[i])
    {
      assert Extra(phone)[i] == Lines(phone)[i + 1];
    }
    NobodyAnswers(Extra(phone), ask);
  }

  // ----- the header -----

  /** What can be read of a value that was found: of a name or a phone, the first line. */
  function Readable(f: Field, e: Enrichment): string {
    FirstLine(Value(f, e))
  }

  /** The answer of a printed value, if it was found. */
  function Printed(value: string): Option<string> {
    if value == "" then None else Some(FirstLine(value))
  }

  lemma ToldOther(tag: string, value: string, ask: Question)
    requires '\n' !in tag && '\n' !in value && Skips(ask, tag)
    ensures Told(Labelled(tag, value), ask) == None && Told([Tagged(tag, value)], ask) == None
  {
    OneLineAddsNone(value, ask);
    ToldSkipped(tag, value, ask);
  }

  /** The lines of the field itself answer, no others of the header do; but for further lines of the name. */
  ghost predicate HeaderTells(f: Field, e: Enrichment, ask: Question) {
    && Told(Labelled("Name", e.name), ask) == (if f.Name? then Printed(e.name) else FirstAnswer(Extra(e.name), ask))
    && Told(Labelled("Possible title", e.title), ask) == (if f.Title? then Printed(e.title) else None)
    && Told(Labelled("Phone", e.phone), ask) == (if f.Phone? then Printed(e.phone) else None)
    && Told(Labelled("LinkedIn", e.linkedIn), ask) == (if f.LinkedIn? then Printed(e.linkedIn) else None)
  }

  /** One labelled value of the header: read for its own field, skipped for every other. */
  lemma FieldTells(f: Field, g: Field, value: string, ask: Question)
    requires AskedOf(ask, f, g) && Trimmed(value)
    ensures Told(Labelled(Label(g), value), ask) == if f == g then Printed(value) else FirstAnswer(Extra(value), ask)
  {
    LabelIsOneLine(g);
    if f == g {
      ToldRead(Label(g), value, ask);
    } else {
      ToldSkipped(Label(g), value, ask);
    }
  }

  lemma LabelIsOneLine(f: Field)
    ensures '\n' !in Label(f)
  {
  }

  lemma FieldsTell(f: Field, e: Enrichment, ask: Question)
    requires AsksFor(ask, f) && Found(e)
    ensures HeaderTells(f, e, ask)
  {
    PhoneAddsNone(e.phone, ask);
    OneLineAddsNone(e.title, ask);
    OneLineAddsNone(e.linkedIn, ask);
    FieldTells(f, Name, e.name, ask);
    FieldTells(f, Title, e.title, ask);
    FieldTells(f, Phone, e.phone, ask);
    FieldTells(f, LinkedIn, e.linkedIn, ask);
  }

  lemma EmailTells(from: string, ask: Question)
    requires Skips(ask, "Email")
    ensures Told([Tagged("Email", from)], ask) == FirstAnswer(Extra(from), ask)
  {
    ToldSkipped("Email", from, ask);
  }

  lemma CompanyTells(domainName: string, ask: Question)
    requires Skips(ask, "Suggested company domain")
    ensures Told(Labelled("Suggested company domain", domainName), ask) == FirstAnswer(Extra(domainName), ask)
  {
    ToldSkipped("Suggested company domain", domainName, ask);
  }

  lemma WebsiteTells(website: string, ask: Question)
    requires Skips(ask, "Website") && '\n' !in website
    ensures Told(Labelled("Website", website), ask) == None
  {
    ToldOther("Website", website, ask);
  }

  lemma SubjectTells(subject: string, ask: Question)
    requires Skips(ask, "Subject")
    ensures Told([Tagged("Subject", subject)], ask) == FirstAnswer(Extra(subject), ask)
  {
    ToldSkipped("Subject", subject, ask);
  }

  lemma FooterTells(ask: Question)
    requires ask("") == None && ask(FOOTER) == None
    ensures Told(["", FOOTER], ask) == None
  {
    assert '\n' !in "Review and create/link a contact" && '\n' !in " if this is a real person.";
    ToldTwo("", FOOTER, ask);
  }

  /** Six texts after each other. */
  lemma ToldSix(name: seq<string>, email: seq<string>, company: seq<string>, title: seq<string>, phone: seq<string>,
                linkedIn: seq<string>, ask: Question)
    ensures Told(name + (email + (company + (title + (phone + linkedIn)))), ask) ==
            Or(Told(name, ask), Or(Told(email, ask), Or(Told(company, ask),
               Or(Told(title, ask), Or(Told(phone, ask), Told(linkedIn, ask))))))
  {
    ToldConcat(phone, linkedIn, ask);
    ToldConcat(title, phone + linkedIn, ask);
    ToldConcat(company, title + (phone + linkedIn), ask);
    ToldConcat(email, company + (title + (phone + linkedIn)), ask);
    ToldConcat(name, email + (company + (title + (phone + linkedIn))), ask);
  }

  /** The further lines of the sender's name and address, above the values of all fields but the name. */
  function Above(from: string, domainName: string, e: Enrichment): seq<string> {
    Extra(e.name) + (Extra(from) + Extra(domainName))
  }

  lemma AboveTells(from: string, domainName: string, e: Enrichment, ask: Question)
    ensures FirstAnswer(Above(from, domainName, e), ask) ==
            Or(FirstAnswer(Extra(e.name), ask), Or(FirstAnswer(Extra(from), ask), FirstAnswer(Extra(domainName), ask)))
    ensures e.name == "" ==> Extra(e.name) == []
  {
    FirstOfConcat(Extra(from), Extra(domainName), ask);
    FirstOfConcat(Extra(e.name), Extra(from) + Extra(domainName), ask);
  }

  lemma HeaderParts(from: string, domainName: string, e: Enrichment)
    ensures HeaderLines(from, domainName, e) ==
            Labelled("Name", e.name) + ([Tagged("Email", from)] + (Labelled("Suggested company domain", domainName)
            + (Labelled("Possible title", e.title) + (Labelled("Phone", e.phone) + Labelled("LinkedIn", e.linkedIn)))))
  {
  }

  /** The header: the further lines of name and address come before the values of all other fields. */
  lemma ToldHeader(f: Field, from: string, domainName: string, e: Enrichment, ask: Question)
    requires AsksFor(ask, f) && Found(e)
    ensures Told(HeaderLines(from, domainName, e), ask) ==
            if f.Name? && e.name != "" then Printed(e.name)
            else Or(FirstAnswer(Above(from, domainName, e), ask), Printed(Value(f, e)))
  {
    FieldsTell(f, e, ask);
    EmailTells(from, ask);
    CompanyTells(domainName, ask);
    AboveTells(from, domainName, e, ask);
    HeaderParts(from, domainName, e);
    ToldSix(Labelled("Name", e.name), [Tagged("Email", from)], Labelled("Suggested company domain", domainName),
      Labelled("Possible title", e.title), Labelled("Phone", e.phone), Labelled("LinkedIn", e.linkedIn), ask);
  }

  // ----- the free text below -----

  /** The sender's own lines below the header: the subject after its first line, and the quoted context. */
  function OwnLines(subject: string, e: Enrichment): seq<string> {
    Extra(subject) + Lines(e.context)
  }

  function Frame(context: string): seq<string> {
    if context == "" then [] else ["", CONTEXT_TITLE, context]
  }

  lemma ToldOneLine(line: string, ask: Question)
    requires '\n' !in line && ask(line) == None
    ensures Told([line], ask) == None
  {
    ToldOne(line, ask);
    OneLine(line);
  }

  lemma ToldTwo(a: string, b: string, ask: Question)
    requires '\n' !in a && '\n' !in b && ask(a) == None && ask(b) == None
    ensures Told([a, b], ask) == None
  {
    assert [a, b] == [a] + [b];
    ToldConcat([a], [b], ask);
    ToldOneLine(a, ask);
    ToldOneLine(b, ask);
  }

  lemma ToldContext(context: string, ask: Question)
    requires ask("") == None && ask(CONTEXT_TITLE) == None
    ensures Told(Frame(context), ask) == FirstAnswer(Lines(context), ask)
  {
    if context != "" {
      var head := ["", CONTEXT_TITLE];
      assert Frame(context) == head + [context];
      ToldConcat(head, [context], ask);
      ToldTwo("", CONTEXT_TITLE, ask);
      ToldOne(context, ask);
    }
  }

  /** Five texts, of which only the second and the third say something. */
  lemma ToldFive(website: seq<string>, subject: seq<string>, context: seq<string>, footer: seq<string>, ask: Question)
    requires Told(website, ask) == Told(footer, ask) == None
    ensures Told(website + subject + context + footer, ask) == Or(Told(subject, ask), Told(context, ask))
  {
    ToldConcat(website, subject, ask);
    ToldConcat(website + subject, context, ask);
    ToldConcat(website + subject + context, footer, ask);
  }

  lemma TailParts(subject: string, e: Enrichment)
    ensures TailLines(subject, e) ==
            Labelled("Website", e.website) + [Tagged("Subject", subject)] + Frame(e.context) + ["", FOOTER]
  {
  }

  /** Of the free text, only the sender's own lines answer. */
  lemma ToldTail(f: Field, subject: string, e: Enrichment, ask: Question)
    requires AsksFor(ask, f) && '\n' !in e.website
    ensures Told(TailLines(subject, e), ask) == FirstAnswer(OwnLines(subject, e), ask)
  {
    TailParts(subject, e);
    WebsiteTells(e.website, ask);
    SubjectTells(subject, ask);
    ToldContext(e.context, ask);
    FooterTells(ask);
    ToldFive(Labelled("Website", e.website), [Tagged("Subject", subject)], Frame(e.context), ["", FOOTER], ask);
    FirstOfConcat(Extra(subject), Lines(e.context), ask);
  }

  // ----- the whole body -----

  /** All lines of the sender's own making, in the order in which they are read. */
  function SenderLines(from: string, domainName: string, subject: string, e: Enrichment): seq<string> {
    Above(from, domainName, e) + OwnLines(subject, e)
  }

  lemma ToldBody(f: Field, from: string, domainName: string, subject: string, e: Enrichment, ask: Question)
    requires AsksFor(ask, f) && Found(e)
    ensures FirstAnswer(Lines(ContactSuggestionBody(from, domainName, subject, e)), ask) ==
            if Value(f, e) == "" then FirstAnswer(SenderLines(from, domainName, subject, e), ask)
            else if f.Name? then Some(Readable(f, e))
            else Or(FirstAnswer(Above(from, domainName, e), ask), Some(Readable(f, e)))
  {
    JoinedLines(HeaderLines(from, domainName, e) + TailLines(subject, e));
    ToldConcat(HeaderLines(from, domainName, e), TailLines(subject, e), ask);
    ToldHeader(f, from, domainName, e, ask);
    ToldTail(f, subject, e, ask);
    FirstOfConcat(Above(from, domainName, e), OwnLines(subject, e), ask);
  }

  /**
   What acceptance reads back, for every mail: a value that was found, up to the end of its first
   line, unless a further line of the sender's name or address carries the label; for a value that
   was not found, whatever the first of the sender's own lines with the label says.
   */
  lemma ParseAfterPrint(f: Field, from: string, domainName: string, subject: string, e: Enrichment)
    requires Found(e)
    ensures FieldIn(Lines(ContactSuggestionBody(from, domainName, subject, e)), Label(f)) ==
            if Value(f, e) == "" then FieldIn(SenderLines(from, domainName, subject, e), Label(f))
            else if f.Name? || Unlabelled(Above(from, domainName, e), Label(f)) then Readable(f, e)
            else FieldIn(Above(from, domainName, e), Label(f))
  {
    LabelAsks(f);
    ToldBody(f, from, domainName, subject, e, AnswersTo(Label(f)));
    FieldIsFirstAnswer(Lines(ContactSuggestionBody(from, domainName, subject, e)), Label(f));
    FieldIsFirstAnswer(SenderLines(from, domainName, subject, e), Label(f));
    FieldIsFirstAnswer(Above(from, domainName, e), Label(f));
    UnlabelledIff(Above(from, domainName, e), Label(f));
  }

  /** A value is readable as a whole when it is on one line. */
  lemma ReadableIff(f: Field, e: Enrichment)
    requires Trimmed(Value(f, e))
    ensures Readable(f, e) == Value(f, e) <==> '\n' !in Value(f, e)
  {
    FirstLineOf(Value(f, e));
    assert |Readable(f, e)| <= |Lines(Value(f, e))[0]|;
  }

  /** What the parser finds is what the first line with the label says; it finds nothing where there is none. */
  lemma FieldSays(lines: seq<string>, tag: string, value: string)
    ensures FieldIn(lines, tag) == value <==> if Unlabelled(lines, tag) then value == "" else Says(lines, tag, value)
    ensures Unlabelled(lines, tag) ==> Says(lines, tag, value)
  {
    FieldIsFirstAnswer(lines, tag);
    UnlabelledIff(lines, tag);
    if !Unlabelled(lines, tag) {
      SaysIff(lines, tag, value);
    }
  }

  /**
   The round trip of a value that was not found holds exactly when the first of the sender's own
   lines with the label, if there is one, has nothing after its colon. That of a value that was
   found holds exactly when the value is on one line; if a further line of the sender's name or
   address carries the label of another field, exactly when the first such line says the same.
   */
  lemma RoundTripIff(f: Field, from: string, domainName: string, subject: string, e: Enrichment)
    requires Found(e)
    ensures FieldIn(Lines(ContactSuggestionBody(from, domainName, subject, e)), Label(f)) == Value(f, e) <==>
            if Value(f, e) == "" then Says(SenderLines(from, domainName, subject, e), Label(f), "")
            else if f.Name? || Unlabelled(Above(from, domainName, e), Label(f)) then '\n' !in Value(f, e)
            else Says(Above(from, domainName, e), Label(f), Value(f, e))
  {
    ParseAfterPrint(f, from, domainName, subject, e);
    ReadableIff(f, e);
    FieldSays(SenderLines(from, domainName, subject, e), Label(f), "");
    FieldSays(Above(from, domainName, e), Label(f), Value(f, e));
  }

  // ----- where it fails -----

  lemma SecondLineSays(tag: string, subject: string, value: string)
    requires '\n' !in tag && '\n' !in subject && '\n' !in value
    ensures Extra(subject + "\n" + Tagged(tag, value)) == [Tagged(tag, value)]
  {
    LinesOfConcat(subject, Tagged(tag, value));
    OneLine(subject);
    OneLine(Tagged(tag, value));
  }

  lemma SecondLineTells(f: Field, above: seq<string>, value: string, context: string, all: string, ask: Question)
    requires AsksFor(ask, f) && FirstAnswer(above, ask) == None
    requires Extra(all) == [Tagged(Label(f), value)] && value != "" && Trimmed(value)
    ensures FirstAnswer(above + (Extra(all) + Lines(context)), ask) == Some(value)
  {
    FirstOfConcat(above, Extra(all) + Lines(context), ask);
    FirstOfConcat(Extra(all), Lines(context), ask);
    FirstOfCons(Tagged(Label(f), value), [], ask);
    assert [Tagged(Label(f), value)] + [] == [Tagged(Label(f), value)];
  }

  /** A field that was not found, filled from the second line of the subject. */
  lemma SubjectFillsEmptyField(f: Field, from: string, domainName: string, subject: string, value: string, e: Enrichment,
                               all: string)
    requires Found(e) && Value(f, e) == "" && Unlabelled(Above(from, domainName, e), Label(f))
    requires '\n' !in subject && '\n' !in value && value != "" && Trimmed(value)
    requires all == subject + "\n" + Tagged(Label(f), value)
    ensures FieldIn(Lines(ContactSuggestionBody(from, domainName, all, e)), Label(f)) == value != Value(f, e)
  {
    ParseAfterPrint(f, from, domainName, all, e);
    LabelIsOneLine(f);
    SecondLineSays(Label(f), subject, value);
    LabelAsks(f);
    UnlabelledIff(Above(from, domainName, e), Label(f));
    SecondLineTells(f, Above(from, domainName, e), value, e.context, all, AnswersTo(Label(f)));
    FieldIsFirstAnswer(SenderLines(from, domainName, all, e), Label(f));
  }
}
