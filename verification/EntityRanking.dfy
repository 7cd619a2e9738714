/**
 Ranking of the assistant's entity matches: a nested scoring loop that keeps the best
 candidate of each key in a map, and a pass over the map in an arbitrary order.
 */
module EntityRanking {
  import opened Text

  datatype Match = Match(kind: string, id: string, title: string, subtitle: string)

  datatype Scored = Scored(ref: Match, score: nat)

  function Key(m: Match): string {
    m.kind + ":" + m.id
  }

  function Haystack(m: Match): string {
    Lower(m.title + " " + m.subtitle)
  }

  /** The key stands for kind and id, as long as no kind holds a colon. */
  lemma {:induction false} KeyMeans(kind: string, id: string, other: string, otherId: string)
    requires ':' !in kind && ':' !in other
    ensures kind + ":" + id == other + ":" + otherId <==> kind == other && id == otherId
    decreases |kind|
  {
    if kind + ":" + id == other + ":" + otherId {
      var key := kind + ":" + id;
      assert kind != "" ==> key[0] == kind[0];
      assert other != "" ==> key[0] == other[0];
      assert kind == "" ==> key[0] == ':';
      assert other == "" ==> key[0] == ':';
      if kind != "" {
        assert key[1..] == kind[1..] + ":" + id && key[1..] == other[1..] + ":" + otherId;
        KeyMeans(kind[1..], id, other[1..], otherId);
        assert kind == [key[0]] + kind[1..] && other == [key[0]] + other[1..];
      } else {
        assert key[1..] == id && key[1..] == otherId;
      }
    }
  }

  /** Two references have one key exactly if they name the same thing. */
  lemma SameKeyIff(a: Match, b: Match)
    requires ':' !in a.kind && ':' !in b.kind
    ensures Key(a) == Key(b) <==> a.kind == b.kind && a.id == b.id
  {
    KeyMeans(a.kind, a.id, b.kind, b.id);
  }

  /** How many of the tokens occur in the candidate's text. */
  function Score(tokens: seq<string>, m: Match): (r: nat)
    ensures r <= |tokens|
    decreases |tokens|
  {
    if tokens == [] then 0
    else
      var n := |tokens| - 1;
      Score(tokens[..n], m) + (if Contains(Haystack(m), tokens[n]) then 1 else 0)
  }

  method CountTokens(tokens: seq<string>, m: Match) returns (score: nat)
    ensures score == Score(tokens, m)
  {
    score := 0;
    var haystack := Haystack(m);
    var i := 0;
    while i < |tokens|
      invariant 0 <= i <= |tokens|
      invariant score == Score(tokens[..i], m)
    {
      assert tokens[..i + 1][..i] == tokens[..i];
      if Contains(haystack, tokens[i]) {
        score := score + 1;
      }
      i := i + 1;
    }
    assert tokens[..i] == tokens;
  }

  /** The score says all and says none. */
  lemma {:induction false} ScoreMeans(tokens: seq<string>, m: Match)
    ensures Score(tokens, m) == |tokens| <==> (forall i :: 0 <= i < |tokens| ==> Contains(Haystack(m), tokens[i]))
    ensures Score(tokens, m) == 0 <==> (forall i :: 0 <= i < |tokens| ==> !Contains(Haystack(m), tokens[i]))
    decreases |tokens|
  {
    if tokens != [] {
      var n := |tokens| - 1;
      ScoreMeans(tokens[..n], m);
      assert forall i :: 0 <= i < n ==> tokens[..n][i] == tokens[i];
    }
  }

  lemma HaystackIs(m: Match)
    ensures Haystack(m) == Lower(m.title) + " " + Lower(m.subtitle)
  {
    LowerOfConcat(m.title + " ", m.subtitle);
    LowerOfConcat(m.title, " ");
  }

  lemma OccursInFront(a: string, b: string, token: string)
    requires Contains(a, token)
    ensures Contains(a + b, token)
  {
    var i := IndexOf(a, token).value;
    assert (a + b)[i..i + |token|] == a[i..i + |token|];
    assert OccursAt(a + b, token, i);
  }

  lemma OccursBehind(a: string, b: string, token: string)
    requires Contains(b, token)
    ensures Contains(a + b, token)
  {
    var i := IndexOf(b, token).value;
    assert (a + b)[|a| + i..|a| + i + |token|] == b[i..i + |token|];
    assert OccursAt(a + b, token, |a| + i);
  }

  /** What occurs in two texts with a space between them occurs in one of them, or holds a space. */
  lemma OccursInPart(a: string, b: string, token: string)
    requires Contains(a + " " + b, token)
    ensures Contains(a, token) || Contains(b, token) || ' ' in token
  {
    var all := a + " " + b;
    var i := IndexOf(all, token).value;
    if i + |token| <= |a| {
      assert a[i..i + |token|] == all[i..i + |token|];
      assert OccursAt(a, token, i);
    } else if i <= |a| {
      assert token[|a| - i] == all[|a|];
    } else {
      var at := i - |a| - 1;
      assert b[at..at + |token|] == all[i..i + |token|];
      assert OccursAt(b, token, at);
    }
  }

  /** A token occurs in the candidate exactly if it occurs in the title or in the subtitle, in lower case. */
  lemma OccursIff(m: Match, token: string)
    requires ' ' !in token
    ensures Contains(Haystack(m), token) <==> Contains(Lower(m.title), token) || Contains(Lower(m.subtitle), token)
  {
    var title, subtitle := Lower(m.title), Lower(m.subtitle);
    HaystackIs(m);
    if Contains(Haystack(m), token) {
      OccursInPart(title, subtitle, token);
    }
    if Contains(title, token) {
      OccursInFront(title, " ", token);
      OccursInFront(title + " ", subtitle, token);
    }
    if Contains(subtitle, token) {
      OccursBehind(title + " ", subtitle, token);
    }
  }

  /** The positions of the tokens that occur in the candidate. */
  function Occurring(tokens: seq<string>, m: Match): set<nat> {
    set i: nat | i < |tokens| && Contains(Haystack(m), tokens[i])
  }

  lemma OccurringGrows(tokens: seq<string>, m: Match, last: string)
    ensures Occurring(tokens + [last], m) ==
            Occurring(tokens, m) + if Contains(Haystack(m), last) then {|tokens|} else {}
    ensures |tokens| !in Occurring(tokens, m)
  {
  }

  /** The score is how many tokens occur, repeated tokens counting each time. */
  lemma {:induction false} ScoreCounts(tokens: seq<string>, m: Match)
    ensures Score(tokens, m) == |Occurring(tokens, m)|
    decreases |tokens|
  {
    if tokens != [] {
      var front, last := tokens[..|tokens| - 1], tokens[|tokens| - 1];
      ScoreCounts(front, m);
      OccurringGrows(front, m, last);
      assert tokens == front + [last];
    }
  }

  // ----- the best candidate of each key -----

  /** The first of the best-scoring candidates with its key. */
  ghost predicate FirstBest(score: Match -> nat, candidates: seq<Match>, m: Match) {
    exists p :: FirstBestAt(score, candidates, p, m)
  }

  ghost predicate FirstBestAt(score: Match -> nat, candidates: seq<Match>, p: int, m: Match) {
    && 0 <= p < |candidates| && candidates[p] == m && score(m) > 0
    && (forall q :: 0 <= q < |candidates| && Key(candidates[q]) == Key(m) ==>
          score(candidates[q]) <= score(m) && (q < p ==> score(candidates[q]) < score(m)))
  }

  /** The map holds the first best candidate of every key that has a matching candidate. */
  ghost predicate HoldsBest(score: Match -> nat, candidates: seq<Match>, seen: map<string, Scored>) {
    && (forall k :: k in seen ==>
          Key(seen[k].ref) == k && seen[k].score == score(seen[k].ref) && FirstBest(score, candidates, seen[k].ref))
    && (forall i :: 0 <= i < |candidates| && score(candidates[i]) > 0 ==> Key(candidates[i]) in seen)
  }

  ghost predicate IsBestScore(score: Match -> nat, candidates: seq<Match>, best: nat) {
    && (forall i :: 0 <= i < |candidates| ==> score(candidates[i]) <= best)
    && (best > 0 ==> exists i :: 0 <= i < |candidates| && score(candidates[i]) == best)
  }

  function Considered(seen: map<string, Scored>, candidate: Match, score: nat): map<string, Scored> {
    if score == 0 then seen
    else if Key(candidate) !in seen || score > seen[Key(candidate)].score then
      seen[Key(candidate) := Scored(candidate, score)]
    else seen
  }

  lemma FirstBestLasts(score: Match -> nat, candidates: seq<Match>, next: Match, m: Match)
    requires FirstBest(score, candidates, m)
    requires Key(next) == Key(m) ==> score(next) <= score(m)
    ensures FirstBest(score, candidates + [next], m)
  {
    var p :| FirstBestAt(score, candidates, p, m);
    assert FirstBestAt(score, candidates + [next], p, m);
  }

  lemma NewBest(score: Match -> nat, candidates: seq<Match>, next: Match)
    requires score(next) > 0
    requires forall q :: 0 <= q < |candidates| && Key(candidates[q]) == Key(next) ==> score(candidates[q]) < score(next)
    ensures FirstBest(score, candidates + [next], next)
  {
    assert FirstBestAt(score, candidates + [next], |candidates|, next);
  }

  lemma BelowBest(score: Match -> nat, candidates: seq<Match>, seen: map<string, Scored>, q: int)
    requires HoldsBest(score, candidates, seen) && 0 <= q < |candidates| && Key(candidates[q]) in seen
    ensures score(candidates[q]) <= seen[Key(candidates[q])].score
  {
    var m := seen[Key(candidates[q])].ref;
    var p :| FirstBestAt(score, candidates, p, m);
  }

  lemma ConsideredHoldsBest(score: Match -> nat, candidates: seq<Match>, seen: map<string, Scored>, next: Match)
    requires HoldsBest(score, candidates, seen)
    ensures HoldsBest(score, candidates + [next], Considered(seen, next, score(next)))
  {
    var after := Considered(seen, next, score(next));
    forall k | k in after
      ensures Key(after[k].ref) == k && after[k].score == score(after[k].ref)
      ensures FirstBest(score, candidates + [next], after[k].ref)
    {
      if k in seen && after[k] == seen[k] {
        FirstBestLasts(score, candidates, next, seen[k].ref);
      } else {
        forall q | 0 <= q < |candidates| && Key(candidates[q]) == Key(next) ensures score(candidates[q]) < score(next) {
          if score(candidates[q]) > 0 {
            BelowBest(score, candidates, seen, q);
          }
        }
        NewBest(score, candidates, next);
      }
    }
  }

  // ----- which of them survive -----

  function Scorer(tokens: seq<string>): Match -> nat {
    m => Score(tokens, m)
  }

  predicate Usable(m: Match) {
    m.id != "" && m.title != ""
  }

  /** When a candidate matches all of several tokens, only such candidates are kept. */
  ghost predicate Passes(score: Match -> nat, tokens: nat, candidates: seq<Match>, m: Match) {
    tokens > 1 && (exists i :: 0 <= i < |candidates| && score(candidates[i]) == tokens) ==> score(m) == tokens
  }

  /** What deserves a place in the answer. */
  ghost predicate Survives(score: Match -> nat, tokens: nat, candidates: seq<Match>, m: Match) {
    FirstBest(score, candidates, m) && Passes(score, tokens, candidates, m) && Usable(m)
  }

  ghost function Survivors(score: Match -> nat, tokens: nat, candidates: seq<Match>): set<Match> {
    set m | m in candidates && Survives(score, tokens, candidates, m)
  }

  function Keys(refs: seq<Match>): set<string> {
    set m | m in refs :: Key(m)
  }

  predicate DistinctKeys(refs: seq<Match>) {
    forall i, j :: 0 <= i < j < |refs| ==> Key(refs[i]) != Key(refs[j])
  }

  lemma KeysOfAppend(refs: seq<Match>, m: Match)
    ensures Keys(refs + [m]) == Keys(refs) + {Key(m)}
    ensures DistinctKeys(refs) && Key(m) !in Keys(refs) ==> DistinctKeys(refs + [m])
  {
    forall k | k in Keys(refs) + {Key(m)} ensures k in Keys(refs + [m]) {
      if k == Key(m) {
        assert m in refs + [m];
      } else {
        var r :| r in refs && Key(r) == k;
        assert r in refs + [m];
      }
    }
  }

  // ----- removing duplicates -----

  /** The first usable reference of each key. */
  function Firsts(refs: seq<Match>): seq<Match>
    decreases |refs|
  {
    if refs == [] then [] else WithFirst(Firsts(refs[..|refs| - 1]), refs[|refs| - 1])
  }

  function WithFirst(before: seq<Match>, m: Match): seq<Match> {
    if Usable(m) && Key(m) !in Keys(before) then before + [m] else before
  }

  lemma FirstsGrow(refs: seq<Match>, i: nat)
    requires i < |refs|
    ensures Firsts(refs[..i + 1]) == WithFirst(Firsts(refs[..i]), refs[i])
  {
    assert refs[..i + 1][..i] == refs[..i];
  }

  lemma {:induction false} FirstsPrefix(refs: seq<Match>, i: nat)
    requires i <= |refs|
    ensures Firsts(refs[..i]) <= Firsts(refs)
    decreases |refs| - i
  {
    if i == |refs| {
      assert refs[..i] == refs;
    } else {
      FirstsGrow(refs, i);
      FirstsPrefix(refs, i + 1);
    }
  }

  /** Each usable key once, and only usable references of the list. */
  lemma {:induction false} FirstsAreDistinct(refs: seq<Match>)
    ensures DistinctKeys(Firsts(refs))
    ensures forall m :: m in Firsts(refs) ==> m in refs && Usable(m)
    ensures forall m :: m in refs && Usable(m) ==> Key(m) in Keys(Firsts(refs))
    decreases |refs|
  {
    if refs != [] {
      var before, m := refs[..|refs| - 1], refs[|refs| - 1];
      FirstsAreDistinct(before);
      KeysOfAppend(Firsts(before), m);
      assert refs == before + [m];
    }
  }

  const LIMIT := 8

  /** Keeps the first usable reference of each key, and stops when eight are found. */
  method DedupeEntityRefs(refs: seq<Match>) returns (out: seq<Match>)
    ensures out <= Firsts(refs) && |out| <= LIMIT
    ensures |out| < LIMIT ==> out == Firsts(refs)
  {
    out := [];
    var seen: set<string> := {};
    var i := 0;
    while i < |refs|
      invariant 0 <= i <= |refs| && |out| < LIMIT
      invariant out == Firsts(refs[..i]) && seen == Keys(out)
    {
      var ref := refs[i];
      FirstsGrow(refs, i);
      i := i + 1;
      if Usable(ref) && Key(ref) !in seen {
        KeysOfAppend(out, ref);
        seen := seen + {Key(ref)};
        out := out + [ref];
        if |out| >= LIMIT {
          FirstsPrefix(refs, i);
          return;
        }
      }
    }
    assert refs[..i] == refs;
  }

  // ----- ranking -----

  /** The candidates considered one after the other. */
  function Considering(tokens: seq<string>, candidates: seq<Match>): (map<string, Scored>, nat) {
    if candidates == [] then (map[], 0)
    else
      var before := Considering(tokens, candidates[..|candidates| - 1]);
      Consider(tokens, before, candidates[|candidates| - 1])
  }

  function Consider(tokens: seq<string>, before: (map<string, Scored>, nat), next: Match): (map<string, Scored>, nat) {
    var score := Score(tokens, next);
    (Considered(before.0, next, score), if score > before.1 then score else before.1)
  }

  lemma ConsideringOneMore(tokens: seq<string>, candidates: seq<Match>, i: nat)
    requires i < |candidates|
    ensures Considering(tokens, candidates[..i + 1]) == Consider(tokens, Considering(tokens, candidates[..i]), candidates[i])
  {
    assert candidates[..i + 1][..i] == candidates[..i];
  }

  lemma {:induction false} ConsideringHoldsBest(tokens: seq<string>, candidates: seq<Match>)
    ensures var (seen, best) := Considering(tokens, candidates);
            HoldsBest(Scorer(tokens), candidates, seen) && IsBestScore(Scorer(tokens), candidates, best)
  {
    if candidates != [] {
      var front, next := candidates[..|candidates| - 1], candidates[|candidates| - 1];
      ConsideringHoldsBest(tokens, front);
      assert candidates == front + [next];
      ConsideredHoldsBest(Scorer(tokens), front, Considering(tokens, front).0, next);
      ConsideredBestScore(Scorer(tokens), front, Considering(tokens, front).1, next);
    }
  }

  /** The loop over the candidates. */
  method CollectBest(tokens: seq<string>, candidates: seq<Match>)
    returns (seen: map<string, Scored>, best: nat)
    ensures HoldsBest(Scorer(tokens), candidates, seen) && IsBestScore(Scorer(tokens), candidates, best)
  {
    seen, best := map[], 0;
    var i := 0;
    while i < |candidates|
      invariant 0 <= i <= |candidates|
      invariant (seen, best) == Considering(tokens, candidates[..i])
    {
      var candidate := candidates[i];
      var score := CountTokens(tokens, candidate);
      ConsideringOneMore(tokens, candidates, i);
      i := i + 1;
      if score == 0 {
        continue;
      }
      if Key(candidate) !in seen || score > seen[Key(candidate)].score {
        seen := seen[Key(candidate) := Scored(candidate, score)];
      }
      if score > best {
        best := score;
      }
    }
    assert candidates[..i] == candidates;
    ConsideringHoldsBest(tokens, candidates);
  }

  lemma ConsideredBestScore(score: Match -> nat, candidates: seq<Match>, best: nat, next: Match)
    requires IsBestScore(score, candidates, best)
    ensures IsBestScore(score, candidates + [next], if score(next) > best then score(next) else best)
  {
    var all := candidates + [next];
    assert all[|candidates|] == next;
    if 0 < best && score(next) <= best {
      var i :| 0 <= i < |candidates| && score(candidates[i]) == best;
      assert score(all[i]) == best;
    }
  }

  /** Whether the pass over the map keeps an entry. */
  predicate Kept(tokens: nat, best: nat, item: Scored) {
    !(tokens > 1 && best == tokens && item.score < best)
  }

  predicate KeyedByRef(seen: map<string, Scored>) {
    forall k :: k in seen ==> Key(seen[k].ref) == k
  }

  /** The list holds the kept entries of the map, each key once. */
  ghost predicate ListsKept(tokens: nat, best: nat, seen: map<string, Scored>, rest: set<string>, refs: seq<Match>) {
    && DistinctKeys(refs)
    && (forall m :: m in refs ==> Key(m) in seen && Key(m) !in rest && seen[Key(m)].ref == m)
    && (forall k :: k in seen ==> (seen[k].ref in refs <==> k !in rest && Kept(tokens, best, seen[k])))
  }

  /** The pass over the map, in whatever order its keys come. */
  method ListKept(tokens: nat, best: nat, seen: map<string, Scored>) returns (refs: seq<Match>)
    requires KeyedByRef(seen)
    ensures ListsKept(tokens, best, seen, {}, refs)
  {
    refs := [];
    var rest := seen.Keys;
    while rest != {}
      invariant rest <= seen.Keys && ListsKept(tokens, best, seen, rest, refs)
      decreases rest
    {
      var k :| k in rest;
      rest := rest - {k};
      if tokens > 1 && best == tokens && seen[k].score < best {
        continue;
      }
      KeysOfAppend(refs, seen[k].ref);
      refs := refs + [seen[k].ref];
    }
  }

  lemma FirstBestUnique(score: Match -> nat, candidates: seq<Match>, m: Match, m': Match)
    requires FirstBest(score, candidates, m) && FirstBest(score, candidates, m') && Key(m) == Key(m')
    ensures m == m'
  {
    var p :| FirstBestAt(score, candidates, p, m);
    var p' :| FirstBestAt(score, candidates, p', m');
  }

  /** The filter of the loop is the all-tokens rule. */
  lemma KeptIffPasses(score: Match -> nat, tokens: nat, candidates: seq<Match>, best: nat, item: Scored)
    requires IsBestScore(score, candidates, best) && item.score == score(item.ref)
    requires forall m :: score(m) <= tokens
    ensures Kept(tokens, best, item) <==> Passes(score, tokens, candidates, item.ref)
  {
  }

  lemma FirstsAreSurvivors(score: Match -> nat, tokens: nat, candidates: seq<Match>, best: nat,
                           seen: map<string, Scored>, refs: seq<Match>)
    requires HoldsBest(score, candidates, seen) && IsBestScore(score, candidates, best)
    requires forall m :: score(m) <= tokens
    requires ListsKept(tokens, best, seen, {}, refs)
    ensures forall m :: m in Firsts(refs) <==> m in Survivors(score, tokens, candidates)
  {
    FirstsAreDistinct(refs);
    forall m ensures m in Firsts(refs) <==> m in Survivors(score, tokens, candidates) {
      if m in Firsts(refs) {
        KeptIffPasses(score, tokens, candidates, best, seen[Key(m)]);
        var p :| FirstBestAt(score, candidates, p, m);
      }
      if m in Survivors(score, tokens, candidates) {
        SurvivorIsFirst(score, tokens, candidates, best, seen, refs, m);
      }
    }
  }

  lemma SurvivorIsFirst(score: Match -> nat, tokens: nat, candidates: seq<Match>, best: nat,
                        seen: map<string, Scored>, refs: seq<Match>, m: Match)
    requires HoldsBest(score, candidates, seen) && IsBestScore(score, candidates, best)
    requires forall m :: score(m) <= tokens
    requires ListsKept(tokens, best, seen, {}, refs)
    requires Survives(score, tokens, candidates, m)
    ensures m in Firsts(refs)
  {
    var p :| FirstBestAt(score, candidates, p, m);
    assert Key(candidates[p]) in seen;
    FirstBestUnique(score, candidates, m, seen[Key(m)].ref);
    KeptIffPasses(score, tokens, candidates, best, seen[Key(m)]);
    FirstsAreDistinct(refs);
    var r :| r in Firsts(refs) && Key(r) == Key(m);
    assert seen[Key(r)].ref == r;
  }

  lemma {:induction false} CountDistinct(refs: seq<Match>, members: set<Match>)
    requires DistinctKeys(refs)
    requires forall m :: m in refs <==> m in members
    ensures |refs| == |members|
    decreases |refs|
  {
    if refs == [] {
      assert members == {};
    } else {
      var before, m := refs[..|refs| - 1], refs[|refs| - 1];
      assert refs == before + [m];
      assert m !in before;
      CountDistinct(before, members - {m});
    }
  }

  lemma TakenSurvive(firsts: seq<Match>, out: seq<Match>, survivors: set<Match>)
    requires DistinctKeys(firsts) && out <= firsts
    requires forall m :: m in firsts <==> m in survivors
    requires |out| <= LIMIT && (|out| < LIMIT ==> out == firsts)
    ensures DistinctKeys(out)
    ensures forall m :: m in out ==> m in survivors
    ensures |survivors| <= LIMIT ==> forall m :: m in survivors ==> m in out
    ensures |survivors| > LIMIT ==> |out| == LIMIT
  {
    CountDistinct(firsts, survivors);
    if |survivors| <= LIMIT {
      assert out == firsts;
    }
  }

  /**
   The answer for a query: distinct keys; only survivors, each the best candidate of its key;
   all of them when there are at most eight, and eight of them otherwise.
   */
  method RankAssistantEntityMatches(tokens: seq<string>, candidates: seq<Match>) returns (out: seq<Match>)
    ensures DistinctKeys(out)
    ensures forall m :: m in out ==> m in Survivors(Scorer(tokens), |tokens|, candidates)
    ensures |Survivors(Scorer(tokens), |tokens|, candidates)| <= LIMIT ==>
              forall m :: m in Survivors(Scorer(tokens), |tokens|, candidates) ==> m in out
    ensures |Survivors(Scorer(tokens), |tokens|, candidates)| > LIMIT ==> |out| == LIMIT
  {
    if |tokens| == 0 {
      return [];
    }
    var seen, best := CollectBest(tokens, candidates);
    var refs := ListKept(|tokens|, best, seen);
    out := DedupeEntityRefs(refs);
    FirstsAreSurvivors(Scorer(tokens), |tokens|, candidates, best, seen, refs);
    FirstsAreDistinct(refs);
    TakenSurvive(Firsts(refs), out, Survivors(Scorer(tokens), |tokens|, candidates));
  }
}
