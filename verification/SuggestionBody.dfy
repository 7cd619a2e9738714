/**
 The printer/parser pair for the body of a new-contact suggestion: mail sync
 prints enrichment fields as labelled lines, accepting the suggestion parses
 them back out of a text that also carries the sender's own words.
 */
module SuggestionBody {
  import opened Text

  /** What the sender enrichment found; an empty string means "not found". */
  datatype Enrichment = Enrichment(
    name: string, phone: string, linkedIn: string, website: string, title: string, context: string)

  /** The labels that acceptance reads back. */
  datatype Field = Name | Title | Phone | LinkedIn

  function Label(f: Field): string {
    match f
    case Name => "Name"
    case Title => "Possible title"
    case Phone => "Phone"
    case LinkedIn => "LinkedIn"
  }

  function Value(f: Field, e: Enrichment): string {
    match f
    case Name => e.name
    case Title => e.title
    case Phone => e.phone
    case LinkedIn => e.linkedIn
  }

  function Tagged(tag: string, value: string): string {
    tag + ": " + value
  }

  /** A labelled line, or nothing when there is no value for it. */
  function Labelled(tag: string, value: string): seq<string> {
    if value == "" then [] else [Tagged(tag, value)]
  }

  /** The lines above the website line: the ones acceptance is meant to read. */
  function HeaderLines(from: string, domainName: string, e: Enrichment): seq<string> {
    Labelled("Name", e.name) + AddressLines(from, domainName, e)
  }

  function AddressLines(from: string, domainName: string, e: Enrichment): seq<string> {
    [Tagged("Email", from)] + CompanyLines(domainName, e)
  }

  function CompanyLines(domainName: string, e: Enrichment): seq<string> {
    Labelled("Suggested company domain", domainName) + (Labelled("Possible title", e.title) + ContactLines(e))
  }

  function ContactLines(e: Enrichment): seq<string> {
    Labelled("Phone", e.phone) + Labelled("LinkedIn", e.linkedIn)
  }

  /** The lines that repeat free text of the mail. */
  function TailLines(subject: string, e: Enrichment): seq<string> {
    Labelled("Website", e.website)
    + [Tagged("Subject", subject)]
    + (if e.context == "" then [] else ["", CONTEXT_TITLE, e.context])
    + ["", FOOTER]
  }

  const CONTEXT_TITLE := "Context from email:"
  const FOOTER := "Review and create/link a contact" + " if this is a real person."

  function ContactSuggestionBody(from: string, domainName: string, subject: string, e: Enrichment): string {
    Join(HeaderLines(from, domainName, e) + TailLines(subject, e))
  }

  lemma {:induction false} LineStands(lines: seq<string>, line: string)
    requires line in lines && '\n' !in line
    ensures line in Lines(Join(lines))
  {
    OneLine(line);
    if |lines| > 1 {
      assert lines == [lines[0]] + lines[1..];
      LinesOfJoin(lines[0], lines[1..]);
      if line != lines[0] {
        LineStands(lines[1..], line);
      }
    }
  }

  /** What the user reads of the sender besides the fields: each of these is on a line of the body, if it is one line. */
  predicate Shown(from: string, domainName: string, subject: string, e: Enrichment, line: string) {
    || line == "Email: " + from
    || (domainName != "" && line == "Suggested company domain: " + domainName)
    || (e.website != "" && line == "Website: " + e.website)
    || line == "Subject: " + subject
    || (e.context != "" && line == e.context)
  }

  lemma ShownIsPrinted(from: string, domainName: string, subject: string, e: Enrichment, line: string)
    requires Shown(from, domainName, subject, e, line) && '\n' !in line
    ensures line in Lines(ContactSuggestionBody(from, domainName, subject, e))
  {
    var header, tail := HeaderLines(from, domainName, e), TailLines(subject, e);
    TagsRead(from, domainName);
    if line == "Email: " + from {
      assert line in AddressLines(from, domainName, e);
    } else if domainName != "" && line == "Suggested company domain: " + domainName {
      assert line in Labelled("Suggested company domain", domainName);
      assert line in CompanyLines(domainName, e);
    } else {
      TailShows(subject, e, line);
    }
    assert line in header + tail;
    LineStands(header + tail, line);
  }

  lemma TagsRead(from: string, domainName: string)
    ensures Tagged("Email", from) == "Email: " + from
    ensures Tagged("Suggested company domain", domainName) == "Suggested company domain: " + domainName
  {
    assert "Email" + ": " == "Email: ";
    assert "Suggested company domain" + ": " == "Suggested company domain: ";
  }

  lemma TailShows(subject: string, e: Enrichment, line: string)
    requires || (e.website != "" && line == "Website: " + e.website)
             || line == "Subject: " + subject
             || (e.context != "" && line == e.context)
    ensures line in TailLines(subject, e)
  {
    assert Tagged("Website", e.website) == "Website: " + e.website;
    assert Tagged("Subject", subject) == "Subject: " + subject;
  }

  predicate MatchesLabel(line: string, tag: string) {
    HasPrefix(Lower(Trim(line)), Lower(tag) + ":")
  }

  function FieldOfLine(line: string, tag: string): string
    requires MatchesLabel(line, tag)
  {
    Trim(Trim(line)[|tag| + 1..])
  }

  /** The value on the first line that carries the tag. */
  function FieldIn(lines: seq<string>, tag: string): (r: string)
    ensures Trimmed(r)
  {
    if lines == [] then ""
    else if MatchesLabel(lines[0], tag) then FieldOfLine(lines[0], tag)
    else FieldIn(lines[1..], tag)
  }

  /** One iteration of the scan. */
  lemma FieldFrom(lines: seq<string>, i: nat, tag: string)
    requires i < |lines|
    ensures FieldIn(lines[i..], tag) ==
            if MatchesLabel(lines[i], tag) then FieldOfLine(lines[i], tag) else FieldIn(lines[i + 1..], tag)
  {
    assert lines[i..][1..] == lines[i + 1..];
  }

  /** The parser: a scan over the lines that stops at the first match. */
  method ParsePromptField(body: string, tag: string) returns (r: string)
    ensures r == FieldIn(Lines(body), tag)
  {
    var lines := Lines(body);
    var i := 0;
    assert lines[0..] == lines;
    while i < |lines|
      invariant 0 <= i <= |lines|
      invariant FieldIn(lines, tag) == FieldIn(lines[i..], tag)
    {
      FieldFrom(lines, i, tag);
      if MatchesLabel(lines[i], tag) {
        return FieldOfLine(lines[i], tag);
      }
      i := i + 1;
    }
    return "";
  }

  /** First and last name: the first word, and the remaining words joined by single spaces. */
  function ParseSuggestedName(body: string): (string, string) {
    SplitName(FieldIn(Lines(body), "Name"))
  }

  function SplitName(name: string): (string, string) {
    var parts := Fields(name);
    if |parts| == 0 then ("", "") else (parts[0], JoinWords(parts[1..]))
  }

  function JoinWords(words: seq<string>): string {
    if |words| == 0 then ""
    else if |words| == 1 then words[0]
    else words[0] + " " + JoinWords(words[1..])
  }

  /** Acceptance can name the person exactly when the parsed name is not empty. */
  lemma NameParses(body: string)
    ensures ParseSuggestedName(body) == ("", "") <==> FieldIn(Lines(body), "Name") == ""
  {
    SplitIffNamed(FieldIn(Lines(body), "Name"));
  }

  lemma SplitIffNamed(name: string)
    requires Trimmed(name)
    ensures SplitName(name) == ("", "") <==> name == ""
  {
    NoFieldsIffBlank(name);
  }

  // ----- names -----

  predicate Word(s: string) {
    s != "" && forall k :: 0 <= k < |s| ==> !IsSpace(s[k])
  }

  lemma {:induction false} FieldsAreWords(s: string)
    ensures forall i :: 0 <= i < |Fields(s)| ==> Word(Fields(s)[i])
  {
    if s != "" {
      FieldsAreWords(s[1..]);
    }
  }

  lemma {:induction false} FieldsOfWord(word: string, rest: string)
    requires Word(word) && (rest == "" || IsSpace(rest[0]))
    ensures Fields(word + rest) == [word] + Fields(rest)
  {
    var s := word + rest;
    assert s[0] == word[0];
    if |word| == 1 {
      assert s[1..] == rest && [s[0]] == word;
    } else {
      assert s[1..] == word[1..] + rest && [s[0]] + word[1..] == word;
      FieldsOfWord(word[1..], rest);
    }
  }

  lemma FieldsAfterSpace(s: string)
    ensures Fields(" " + s) == Fields(s)
  {
    assert (" " + s)[1..] == s;
  }

  lemma TrimmedAround(first: string, middle: string, last: string)
    requires Trimmed(first) && Trimmed(last) && first != "" && last != ""
    ensures Trimmed(first + middle + last)
  {
    var s := first + middle + last;
    assert s[0] == first[0] && s[|s| - 1] == last[|last| - 1];
  }

  /** Words joined by single spaces are split into the same words. */
  lemma {:induction false} FieldsOfJoin(words: seq<string>)
    requires forall i :: 0 <= i < |words| ==> Word(words[i])
    ensures Fields(JoinWords(words)) == words && Trimmed(JoinWords(words))
  {
    if |words| == 1 {
      FieldsOfWord(words[0], "");
      assert words[0] + "" == words[0];
    } else if |words| > 1 {
      var rest := JoinWords(words[1..]);
      FieldsOfJoin(words[1..]);
      FieldsOfBoth(words[0], rest);
      TrimmedAround(words[0], " ", rest);
    }
  }

  /** First and last name together are the words of the name. */
  predicate Names(first: string, last: string, name: string) {
    first != "" && Fields(first + " " + last) == Fields(name)
  }

  lemma WordsAreNames(first: string, rest: seq<string>, name: string)
    requires Word(first) && (forall i :: 0 <= i < |rest| ==> Word(rest[i])) && Fields(name) == [first] + rest
    ensures Names(first, JoinWords(rest), name) && Trimmed(first) && Trimmed(JoinWords(rest))
  {
    FieldsOfJoin(rest);
    FieldsOfBoth(first, JoinWords(rest));
  }

  lemma FieldsOfBoth(first: string, last: string)
    requires Word(first)
    ensures Fields(first + " " + last) == [first] + Fields(last)
  {
    FieldsOfWord(first, " " + last);
    FieldsAfterSpace(last);
    assert first + " " + last == first + (" " + last);
  }

  lemma NameIsSplit(name: string, parts: seq<string>)
    requires parts == Fields(name) && parts != []
    ensures Names(Trim(parts[0]), Trim(JoinWords(parts[1..])), name)
  {
    FieldsAreWords(name);
    assert parts == [parts[0]] + parts[1..];
    WordsAreNames(parts[0], parts[1..], name);
  }
}
