/**
 The parts of Go's `strings` package the CRM rests on, over ASCII text:
 trimming, case folding, prefixes, searching and splitting into lines.
 */
module Text {
  import opened Wrappers

  predicate IsSpace(c: char) {
    c == ' ' || c == '\t' || c == '\n' || c == '\r' || c == '\U{0B}' || c == '\U{0C}'
  }

  /** Nothing for `strings.TrimSpace` to remove. */
  predicate Trimmed(s: string) {
    s == "" || (!IsSpace(s[0]) && !IsSpace(s[|s| - 1]))
  }

  function TrimLeft(s: string): (r: string)
    ensures r == "" || !IsSpace(r[0])
  {
    if s != "" && IsSpace(s[0]) then TrimLeft(s[1..]) else s
  }

  function TrimRight(s: string): (r: string)
    ensures r == "" || !IsSpace(r[|r| - 1])
    ensures |r| <= |s| && (r != "" ==> r[0] == s[0])
  {
    if s != "" && IsSpace(s[|s| - 1]) then TrimRight(s[..|s| - 1]) else s
  }

  function Trim(s: string): (r: string)
    ensures Trimmed(r)
    ensures Trimmed(s) ==> r == s
  {
    TrimRight(TrimLeft(s))
  }

  /** Trimming takes away a front and a back of the text. */
  lemma {:induction false} TrimLeftIsSuffix(s: string)
    ensures var r := TrimLeft(s);
            |r| <= |s| && r == s[|s| - |r|..]
  {
    if s != "" && IsSpace(s[0]) {
      TrimLeftIsSuffix(s[1..]);
    }
  }

  lemma {:induction false} TrimRightIsPrefix(s: string)
    ensures TrimRight(s) <= s
  {
    if s != "" && IsSpace(s[|s| - 1]) {
      TrimRightIsPrefix(s[..|s| - 1]);
    }
  }

  predicate Blank(s: string) {
    forall i :: 0 <= i < |s| ==> IsSpace(s[i])
  }

  lemma {:induction false} TrimLeftTakesBlanks(s: string) returns (front: string)
    ensures Blank(front) && s == front + TrimLeft(s)
  {
    if s != "" && IsSpace(s[0]) {
      front := TrimLeftTakesBlanks(s[1..]);
      front := [s[0]] + front;
      assert s == [s[0]] + s[1..];
    } else {
      front := "";
    }
  }

  lemma {:induction false} TrimRightTakesBlanks(s: string) returns (back: string)
    ensures Blank(back) && s == TrimRight(s) + back
  {
    if s != "" && IsSpace(s[|s| - 1]) {
      back := TrimRightTakesBlanks(s[..|s| - 1]);
      back := back + [s[|s| - 1]];
      assert s == s[..|s| - 1] + [s[|s| - 1]];
    } else {
      back := "";
    }
  }

  /** Trimming takes white space from both ends, and nothing else. */
  lemma TrimTakesBlanks(s: string)
    ensures exists front, back :: Blank(front) && Blank(back) && s == front + Trim(s) + back
  {
    var front := TrimLeftTakesBlanks(s);
    var back := TrimRightTakesBlanks(TrimLeft(s));
    assert s == front + Trim(s) + back;
  }

  function LowerChar(c: char): char {
    if 'A' <= c <= 'Z' then c + ('a' - 'A') else c
  }

  function Lower(s: string): (r: string)
    ensures |r| == |s|
    ensures forall i :: 0 <= i < |s| ==> r[i] == LowerChar(s[i])
  {
    seq(|s|, i requires 0 <= i < |s| => LowerChar(s[i]))
  }

  /** `strings.ToLower(strings.TrimSpace(s))`, the form in which addresses are compared. */
  function Normal(s: string): string {
    Lower(Trim(s))
  }

  predicate HasPrefix(s: string, prefix: string) {
    prefix <= s
  }

  predicate OccursAt(s: string, pattern: string, i: nat) {
    i + |pattern| <= |s| && s[i..i + |pattern|] == pattern
  }

  /** `strings.Index`: the first place where the pattern occurs. */
  function IndexOf(s: string, pattern: string): (r: Option<nat>)
    ensures r.Some? ==> OccursAt(s, pattern, r.value)
    ensures r.Some? ==> forall i: nat :: i < r.value ==> !OccursAt(s, pattern, i)
    ensures r.None? ==> forall i: nat :: !OccursAt(s, pattern, i)
  {
    IndexFrom(s, pattern, 0)
  }

  function IndexFrom(s: string, pattern: string, from: nat): (r: Option<nat>)
    requires from <= |s|
    ensures r.Some? ==> from <= r.value && OccursAt(s, pattern, r.value)
    ensures r.Some? ==> forall i: nat :: from <= i < r.value ==> !OccursAt(s, pattern, i)
    ensures r.None? ==> forall i: nat :: from <= i ==> !OccursAt(s, pattern, i)
    decreases |s| - from
  {
    if OccursAt(s, pattern, from) then Some(from)
    else if from == |s| then None
    else IndexFrom(s, pattern, from + 1)
  }

  /** A character is found where it occurs for the first time. */
  lemma IndexAfter(skipped: string, pattern: char, rest: string)
    requires pattern !in skipped
    ensures IndexOf(skipped + [pattern] + rest, [pattern]) == Some(|skipped|)
  {
    var s := skipped + [pattern] + rest;
    assert OccursAt(s, [pattern], |skipped|);
    forall i: nat | i < |skipped| ensures !OccursAt(s, [pattern], i) {
      assert s[i..i + 1][0] == skipped[i];
    }
  }

  predicate Contains(s: string, pattern: string) {
    IndexOf(s, pattern).Some?
  }

  /** One more character in front: a line of its own, or part of the first line. */
  function ConsLine(c: char, lines: seq<string>): (r: seq<string>)
    requires lines != []
    ensures r != []
  {
    if c == '\n' then [""] + lines else [[c] + lines[0]] + lines[1..]
  }

  /** `strings.Split(s, "\n")`. */
  function Lines(s: string): (r: seq<string>)
    ensures r != []
  {
    if s == "" then [""] else ConsLine(s[0], Lines(s[1..]))
  }

  /** `strings.Join(lines, "\n")`. */
  function Join(lines: seq<string>): string {
    if |lines| == 0 then ""
    else if |lines| == 1 then lines[0]
    else lines[0] + "\n" + Join(lines[1..])
  }

  /** `strings.Fields`: the maximal runs of non-space characters. */
  function Fields(s: string): (r: seq<string>)
    ensures forall i :: 0 <= i < |r| ==> r[i] != ""
  {
    if s == "" then []
    else if IsSpace(s[0]) then Fields(s[1..])
    else
      var rest := Fields(s[1..]);
      if |s| > 1 && !IsSpace(s[1]) && rest != [] then [[s[0]] + rest[0]] + rest[1..]
      else [[s[0]]] + rest
  }

  /** A string without newlines is one line. */
  lemma {:induction false} OneLine(s: string)
    requires '\n' !in s
    ensures Lines(s) == [s]
  {
    if s != "" {
      OneLine(s[1..]);
      assert [s[0]] + s[1..] == s;
    }
  }

  lemma ConsLineOfConcat(c: char, first: seq<string>, second: seq<string>)
    requires first != []
    ensures ConsLine(c, first + second) == ConsLine(c, first) + second
  {
    assert (first + second)[1..] == first[1..] + second;
  }

  /** Splitting is a homomorphism: a newline between two texts concatenates their lines. */
  lemma {:induction false} LinesOfConcat(a: string, b: string)
    ensures Lines(a + "\n" + b) == Lines(a) + Lines(b)
  {
    var s := a + "\n" + b;
    if a == "" {
      assert s[1..] == b;
    } else {
      LinesOfConcat(a[1..], b);
      assert s[0] == a[0] && s[1..] == a[1..] + "\n" + b;
      ConsLineOfConcat(a[0], Lines(a[1..]), Lines(b));
    }
  }

  /** What a joined list splits into: the lines of its first part, then those of the rest. */
  lemma LinesOfJoin(line: string, rest: seq<string>)
    requires rest != []
    ensures Lines(Join([line] + rest)) == Lines(line) + Lines(Join(rest))
  {
    assert ([line] + rest)[1..] == rest;
    LinesOfConcat(line, Join(rest));
  }

  lemma {:induction false} NoFieldsIffBlank(s: string)
    ensures Fields(s) == [] <==> TrimLeft(s) == ""
  {
    if s != "" && IsSpace(s[0]) {
      NoFieldsIffBlank(s[1..]);
    }
  }

  /** Trimming on the right never reaches into a prefix that ends in a non-space. */
  lemma {:induction false} TrimRightKeepsPrefix(p: string, v: string)
    requires p != "" && !IsSpace(p[|p| - 1])
    ensures TrimRight(p + v) == p + TrimRight(v)
  {
    if v == "" {
      assert p + v == p;
    } else {
      assert (p + v)[|p + v| - 1] == v[|v| - 1];
      if IsSpace(v[|v| - 1]) {
        assert (p + v)[..|p + v| - 1] == p + v[..|v| - 1];
        TrimRightKeepsPrefix(p, v[..|v| - 1]);
      }
    }
  }

  lemma LowerOfConcat(a: string, b: string)
    ensures Lower(a + b) == Lower(a) + Lower(b)
  {
  }

  lemma LowerIsStable(t: string)
    ensures Lower(Lower(t)) == Lower(t)
    ensures Trimmed(t) ==> Trimmed(Lower(t))
  {
  }

  lemma NormalIsStable(s: string)
    ensures Trimmed(Normal(s)) && Lower(Normal(s)) == Normal(s) && Normal(Normal(s)) == Normal(s)
  {
    LowerIsStable(Trim(s));
  }
}
