/**
 What the reading statements of the store answer, for every order in which the database may
 hand out its rows.
 */
module CrmQueries {
  import opened Wrappers
  import opened Text
  import opened CrmTables

  // ----- one row of several -----

  /** Some member, if there is one. */
  predicate Finds(found: Option<Id>, s: set<Id>) {
    (found.Some? ==> found.value in s) && (found.None? ==> s == {})
  }

  lemma FirstFinds(q: seq<string>, s: set<string>)
    requires Enumerates(q, s)
    ensures Finds(FirstOf(q), s)
  {
    assert q != [] ==> q[0] in s;
    assert q == [] ==> forall x :: x in s ==> x in q;
  }

  /** Looking an address up finds somebody who answers to it, and nobody only if nobody does. */
  lemma PersonFound(w: World, db: Db, email: string)
    requires ValidWorld(w)
    ensures var r := FindPersonByEmail(w, db, email);
            r.Ok? ==> Finds(r.value, Answering(db.view, email))
  {
    var all := Answering(db.view, email);
    FirstFinds(w.order(db.calls, all), all);
  }

  /** Looking a domain up finds a company that owns it, and none only if none does. */
  lemma CompanyFound(w: World, db: Db, domainName: string)
    requires ValidWorld(w)
    ensures var r := FindCompanyByDomain(w, db, domainName);
            r.Ok? ==> Finds(r.value, CompaniesOf(db.view, domainName))
  {
    var all := CompaniesOf(db.view, domainName);
    FirstFinds(w.order(db.calls, all), all);
  }

  // ----- the newest rows -----

  predicate Descending(t: Tables, ids: seq<string>) {
    forall i, j :: 0 <= i < j < |ids| ==> SentAt(t, ids[i]) >= SentAt(t, ids[j])
  }

  lemma {:induction false} PutByTimeMeans(t: Tables, id: string, sorted: seq<string>)
    requires Descending(t, sorted) && NoRepeats(sorted) && id !in sorted
    ensures var out := PutByTime(t, id, sorted);
            && Descending(t, out) && NoRepeats(out) && |out| == |sorted| + 1
            && forall k :: k in out <==> k == id || k in sorted
  {
    if !(sorted == [] || SentAt(t, id) >= SentAt(t, sorted[0])) {
      var rest := PutByTime(t, id, sorted[1..]);
      assert sorted == [sorted[0]] + sorted[1..];
      PutByTimeMeans(t, id, sorted[1..]);
      PutInFront(t, sorted[0], rest);
    }
  }

  lemma PutInFront(t: Tables, id: string, rest: seq<string>)
    requires Descending(t, rest) && NoRepeats(rest) && id !in rest
    requires forall k :: k in rest ==> SentAt(t, id) >= SentAt(t, k)
    ensures Descending(t, [id] + rest) && NoRepeats([id] + rest)
  {
    var out := [id] + rest;
    forall i, j | 0 <= i < j < |out|
      ensures SentAt(t, out[i]) >= SentAt(t, out[j]) && out[i] != out[j]
    {
      assert out[j] == rest[j - 1] && out[j] in rest;
      assert i > 0 ==> out[i] == rest[i - 1];
    }
  }

  /** Sorting changes the order only. */
  lemma {:induction false} NewestFirstMeans(t: Tables, ids: seq<string>)
    requires NoRepeats(ids)
    ensures var out := NewestFirst(t, ids);
            && Descending(t, out) && NoRepeats(out) && |out| == |ids|
            && forall k :: k in out <==> k in ids
  {
    if ids != [] {
      assert ids == [ids[0]] + ids[1..];
      NewestFirstMeans(t, ids[1..]);
      PutByTimeMeans(t, ids[0], NewestFirst(t, ids[1..]));
    }
  }

  /**
   The newest of some messages, newest first and each once: as many as the limit admits, and
   none of those left out is newer than one of them.
   */
  ghost predicate NewestOf(t: Tables, ids: seq<string>, all: set<string>, limit: nat) {
    && NoRepeats(ids) && Descending(t, ids)
    && (forall k :: k in ids ==> k in all)
    && |ids| == (if |all| <= limit then |all| else limit)
    && (|all| <= limit ==> forall k :: k in all ==> k in ids)
    && (forall k, i :: k in all && k !in ids && 0 <= i < |ids| ==> SentAt(t, k) <= SentAt(t, ids[i]))
  }

  lemma {:induction false} EnumerationLength(q: seq<string>, s: set<string>)
    requires Enumerates(q, s)
    ensures |q| == |s|
    decreases |q|
  {
    if q != [] {
      assert q[0] in s;
      forall x | x in s - {q[0]}
        ensures x in q[1..]
      {
        var i :| 0 <= i < |q| && q[i] == x;
        assert q[1..][i - 1] == x;
      }
      assert forall x :: x in q[1..] ==> x in q;
      EnumerationLength(q[1..], s - {q[0]});
    } else {
      assert forall x :: x in s ==> x in q;
    }
  }

  lemma TakeIsNewest(t: Tables, q: seq<string>, all: set<string>, limit: nat)
    requires Enumerates(q, all) && Descending(t, q)
    ensures NewestOf(t, Take(q, limit), all, limit)
  {
    EnumerationLength(q, all);
    var ids := Take(q, limit);
    forall k, i | k in all && k !in ids && 0 <= i < |ids|
      ensures SentAt(t, k) <= SentAt(t, ids[i])
    {
      var j :| 0 <= j < |q| && q[j] == k;
      assert forall n :: 0 <= n < |ids| ==> q[n] == ids[n];
    }
  }

  /** A listing holds the newest messages that mention the address. */
  lemma ListedAreNewest(w: World, t: Tables, call: nat, email: string, limit: nat)
    requires ValidWorld(w)
    ensures NewestOf(t, ListedMessages(w, t, call, email, limit), Mentioning(t, email), limit)
  {
    var all := Mentioning(t, email);
    var q := w.order(call, all);
    assert Enumerates(q, all);
    NewestFirstMeans(t, q);
    TakeIsNewest(t, NewestFirst(t, q), all, limit);
  }

  // ----- prompts and suppressions -----

  lemma CreatedIsOpen(w: World, db: Db, p: Prompt)
    requires p.status.Open? && CreateAIPrompt(w, db, p).Ok?
    ensures HasOpenPrompt(CreateAIPrompt(w, db, p).db.view, p.kind, p.title)
  {
    var created := CreateAIPrompt(w, db, p);
    assert created.value in created.db.view.prompts;
  }

  lemma ResolvedIsClosed(w: World, t: Tables, db: Db, id: Id, row: Prompt, status: Status)
    requires !HasOpenPrompt(t, row.kind, row.title) && db.view.prompts == t.prompts[id := row] && !status.Open?
    requires ResolveAIPrompt(w, db, id, status).Ok?
    ensures !HasOpenPrompt(ResolveAIPrompt(w, db, id, status).db.view, row.kind, row.title)
  {
    var after := ResolveAIPrompt(w, db, id, status).db.view;
    forall q | q in after.prompts && after.prompts[q].status.Open?
      ensures !(after.prompts[q].kind == row.kind && after.prompts[q].title == row.title)
    {
      assert q != id && t.prompts[q] == after.prompts[q];
    }
  }

  /** A prompt is found by kind and title from its creation until it is resolved, if it was the only one. */
  lemma PromptSeenWhileOpen(w: World, db: Db, p: Prompt, status: Status)
    requires p.status.Open? && !status.Open? && !HasOpenPrompt(db.view, p.kind, p.title)
    requires CreateAIPrompt(w, db, p).Ok?
    ensures var created := CreateAIPrompt(w, db, p);
            var asked := AIPromptExists(w, created.db, p.kind, p.title);
            && (asked.Ok? ==> asked.value)
            && var resolved := ResolveAIPrompt(w, asked.db, created.value, status);
               resolved.Ok? ==>
                 var again := AIPromptExists(w, resolved.db, p.kind, p.title);
                 again.Ok? ==> !again.value
  {
    var created := CreateAIPrompt(w, db, p);
    CreatedIsOpen(w, db, p);
    var asked := AIPromptExists(w, created.db, p.kind, p.title);
    if ResolveAIPrompt(w, asked.db, created.value, status).Ok? {
      ResolvedIsClosed(w, db.view, asked.db, created.value, created.db.view.prompts[created.value], status);
    }
  }

  /**
   A suppression is found in every spelling of its target from the moment it is stored until it is
   lifted, in any spelling again; the answers about all others stay.
   */
  lemma SuppressionSeenUntilLifted(
    w: World, db: Db, kind: Kind, targetType: string, target: string, spelling: string, other: Suppression)
    requires Lower(spelling) == Lower(target) && other != Suppression(kind, targetType, Lower(target))
    requires SuppressSuggestion(w, db, kind, targetType, target).Ok?
    ensures var stored := SuppressSuggestion(w, db, kind, targetType, target);
            var asked := IsSuggestionSuppressed(w, stored.db, kind, targetType, spelling);
            && (asked.Ok? ==> asked.value)
            && (other in stored.db.view.suppressions <==> other in db.view.suppressions)
            && var lifted := UnsuppressSuggestion(w, asked.db, kind, targetType, spelling);
               lifted.Ok? ==>
                 var again := IsSuggestionSuppressed(w, lifted.db, kind, targetType, target);
                 && (again.Ok? ==> !again.value)
                 && (other in lifted.db.view.suppressions <==> other in db.view.suppressions)
  {
  }
}
