/**
 What exactly a processed message leaves behind: whom it is recorded for, what is kept for
 the owner only, and which deal links it suggests.
 */
module IngestedContent {
  import opened Wrappers
  import opened Text
  import opened CrmTables
  import opened CrmQueries
  import opened EmailSync
  import opened EmailSyncProofs
  import opened Acceptance

  // ----- whom a message concerns -----

  /** The normalised addresses among some, without the mailbox's own. */
  ghost predicate ConcernedBy(own: string, emails: seq<string>, e: string) {
    e != "" && e != own && exists i :: 0 <= i < |emails| && Normal(emails[i]) == e
  }

  lemma ConcernedByCons(own: string, emails: seq<string>, e: string)
    requires emails != []
    ensures ConcernedBy(own, emails, e) <==>
            (e != "" && e != own && Normal(emails[0]) == e) || ConcernedBy(own, emails[1..], e)
  {
    if ConcernedBy(own, emails[1..], e) {
      var i :| 0 <= i < |emails[1..]| && Normal(emails[1..][i]) == e;
      assert Normal(emails[i + 1]) == e;
    }
    if ConcernedBy(own, emails, e) {
      var i :| 0 <= i < |emails| && Normal(emails[i]) == e;
      assert i > 0 ==> Normal(emails[1..][i - 1]) == e;
    }
  }

  lemma {:induction false} AddAllMeans(own: string, out: seq<string>, emails: seq<string>, e: string)
    requires NoRepeats(out)
    ensures NoRepeats(AddAllRelevant(own, out, emails))
    ensures e in AddAllRelevant(own, out, emails) <==> e in out || ConcernedBy(own, emails, e)
    decreases |emails|
  {
    if emails != [] {
      ConcernedByCons(own, emails, e);
      AddAllMeans(own, AddRelevant(own, out, emails[0]), emails[1..], e);
    }
  }

  /** The relevant addresses: sender and recipients, normalised, each once, without the mailbox itself. */
  lemma RelevantEmailsMeans(account: Account, m: Message, e: string)
    ensures NoRepeats(RelevantEmails(account, m))
    ensures e in RelevantEmails(account, m) <==> ConcernedBy(Normal(account.email), [m.fromEmail] + m.toEmails, e)
  {
    AddAllMeans(Normal(account.email), [], [m.fromEmail] + m.toEmails, e);
  }

  /**
   Recording and history agree on whom a mail concerns: with trimmed addresses, the relevant ones are
   those that the stored mail is listed for, but the mailbox's own.
   */
  lemma RelevantAreMentioned(account: Account, m: Message, e: string)
    requires Trimmed(m.fromEmail) && (forall i :: 0 <= i < |m.toEmails| ==> Trimmed(m.toEmails[i]))
    requires Normal(e) == e && e != "" && e != Normal(account.email)
    ensures e in RelevantEmails(account, m) <==> Mentions(m, e)
  {
    var all := [m.fromEmail] + m.toEmails;
    RelevantEmailsMeans(account, m, e);
    assert Lower(e) == e by { NormalIsStable(e); }
    forall i | 0 <= i < |all|
      ensures Normal(all[i]) == Lower(all[i])
    {
    }
    if Mentions(m, e) && Lower(m.fromEmail) != Lower(e) {
      var i :| 0 <= i < |m.toEmails| && Lower(m.toEmails[i]) == Lower(e);
      assert all[i + 1] == m.toEmails[i];
    }
    if Lower(m.fromEmail) == Lower(e) {
      assert Normal(all[0]) == e;
    }
  }

  ghost predicate AnswersSome(t: Tables, emails: seq<string>, p: Id) {
    exists i :: 0 <= i < |emails| && p in Answering(t, emails[i])
  }

  /** Everybody matched answers to an address, and every address somebody answers to has somebody matched. */
  ghost predicate Represents(t: Tables, emails: seq<string>, matched: set<Id>, people: set<Id>) {
    && matched <= people
    && (forall p :: p in people && p !in matched ==> AnswersSome(t, emails, p))
    && (forall i :: 0 <= i < |emails| && Answering(t, emails[i]) != {} ==> Answering(t, emails[i]) * people != {})
  }

  lemma FoundAnswers(w: World, db: Db, email: string)
    requires ValidWorld(w)
    ensures var f := FindPersonByEmail(w, db, email);
            f.Ok? ==> f.db.view == db.view
                      && (f.value.Some? ==> f.value.value in Answering(db.view, email))
                      && (f.value.None? ==> Answering(db.view, email) == {})
  {
    PersonFound(w, db, email);
    assert Enumerates(w.order(db.calls, Answering(db.view, email)), Answering(db.view, email));
  }

  lemma RepresentsCons(t: Tables, emails: seq<string>, matched: set<Id>, next: set<Id>, people: set<Id>)
    requires emails != [] && matched <= next && Represents(t, emails[1..], next, people)
    requires forall p :: p in next && p !in matched ==> p in Answering(t, emails[0])
    requires Answering(t, emails[0]) != {} ==> Answering(t, emails[0]) * next != {}
    ensures Represents(t, emails, matched, people)
  {
    forall p | p in people && p !in matched ensures AnswersSome(t, emails, p) {
      if p in next {
        assert p in Answering(t, emails[0]);
      } else {
        var i :| 0 <= i < |emails[1..]| && p in Answering(t, emails[1..][i]);
        assert p in Answering(t, emails[i + 1]);
      }
    }
    forall i | 0 <= i < |emails| && Answering(t, emails[i]) != {} ensures Answering(t, emails[i]) * people != {} {
      if i > 0 {
        assert emails[1..][i - 1] == emails[i];
      } else {
        var p :| p in Answering(t, emails[0]) * next;
        assert p in Answering(t, emails[0]) * people;
      }
    }
  }

  /** Whom a message is recorded for. */
  lemma {:induction false} MatchedRepresent(w: World, db: Db, emails: seq<string>, matched: set<Id>)
    requires ValidWorld(w)
    ensures var r := MatchPeople(w, db, emails, matched);
            r.Ok? ==> Represents(db.view, emails, matched, r.value)
    decreases |emails|
  {
    if emails != [] {
      var f := FindPersonByEmail(w, db, emails[0]);
      FoundAnswers(w, db, emails[0]);
      if f.Ok? {
        var next := if f.value.Some? then matched + {f.value.value} else matched;
        assert f.value.Some? ==> f.value.value in Answering(db.view, emails[0]) * next;
        MatchedRepresent(w, f.db, emails[1..], next);
        var r := MatchPeople(w, f.db, emails[1..], next);
        if r.Ok? {
          RepresentsCons(db.view, emails, matched, next, r.value);
        }
      }
    }
  }

  // ----- what is kept for the owner -----

  /** The full text goes to the owner's details of the activity, and only when the mailbox has an owner. */
  function DetailsOf(t: Tables, account: Account, activity: Id, m: Message): map<Id, string> {
    if account.owner != "" && PrivateBody(m) != "" then t.details[activity := PrivateBody(m)] else t.details
  }

  lemma TextKeptForOwner(w: World, db: Db, account: Account, m: Message, activity: Id, people: set<Id>)
    requires db.inTx
    ensures var r := PointAndTouch(w, db, account, m, activity, people);
            r.Ok? ==> r.db.view.details == DetailsOf(db.view, account, activity, m)
  {
    var d1 := CreateDetail(w, db, account, activity, PrivateBody(m));
    if d1.Ok? {
      var d2 := SetEmailMessageActivity(w, d1.db, m.id, activity);
      if d2.Ok? {
        TouchAllTouches(w, d2.db, w.order(d2.db.calls, people), m.sentAt);
      }
    }
  }

  // ----- deal links -----

  /** The row stored for a prompt. */
  function StoredPrompt(p: Prompt): Prompt {
    p.(targetIdentifier := Lower(p.targetIdentifier))
  }

  /** Old prompts stay; every new one is among the wanted; every wanted title has an open prompt. */
  ghost predicate Prompted(t: Tables, after: Tables, wanted: seq<Prompt>) {
    && (forall q :: q in t.prompts ==> q in after.prompts && after.prompts[q] == t.prompts[q])
    && (forall q :: q in after.prompts && q !in t.prompts ==> IsWanted(wanted, after.prompts[q]))
    && (forall i :: 0 <= i < |wanted| ==> HasOpenPrompt(after, wanted[i].kind, wanted[i].title))
  }

  ghost predicate IsWanted(wanted: seq<Prompt>, row: Prompt) {
    exists i :: 0 <= i < |wanted| && row == StoredPrompt(wanted[i])
  }

  /** One prompt: created unless an open one of its kind and title exists. */
  lemma OnePrompted(w: World, db: Db, p: Prompt)
    requires FreshIds(w, db.view, db.next)
    ensures var r := PromptOnce(w, db, p);
            r.Ok? ==>
              && r.db.view == db.view.(prompts := r.db.view.prompts) && db.next <= r.db.next
              && r.db.view.prompts == (if HasOpenPrompt(db.view, p.kind, p.title) then db.view.prompts
                                       else db.view.prompts[w.uuid(db.next) := StoredPrompt(p)])
  {
  }

  lemma OpenAfterPrompt(t: Tables, after: Tables, id: Id, p: Prompt)
    requires p.status.Open? && id !in t.prompts
    requires after.prompts == if HasOpenPrompt(t, p.kind, p.title) then t.prompts else t.prompts[id := StoredPrompt(p)]
    ensures HasOpenPrompt(after, p.kind, p.title)
  {
    if HasOpenPrompt(t, p.kind, p.title) {
      var q :| q in t.prompts && t.prompts[q].kind == p.kind && t.prompts[q].title == p.title && t.prompts[q].status.Open?;
      assert q in after.prompts;
    } else {
      assert after.prompts[id] == StoredPrompt(p);
    }
  }

  lemma PromptedCons(t: Tables, u: Tables, after: Tables, id: Id, p: Prompt, rest: seq<Prompt>)
    requires p.status.Open? && id !in t.prompts
    requires u.prompts == if HasOpenPrompt(t, p.kind, p.title) then t.prompts else t.prompts[id := StoredPrompt(p)]
    requires Prompted(u, after, rest)
    ensures Prompted(t, after, [p] + rest)
  {
    var wanted := [p] + rest;
    OpenAfterPrompt(t, u, id, p);
    forall q | q in after.prompts && q !in t.prompts ensures IsWanted(wanted, after.prompts[q]) {
      if q in u.prompts {
        assert after.prompts[q] == StoredPrompt(wanted[0]);
      } else {
        var i :| 0 <= i < |rest| && after.prompts[q] == StoredPrompt(rest[i]);
        assert wanted[i + 1] == rest[i];
      }
    }
    forall i | 0 <= i < |wanted| ensures HasOpenPrompt(after, wanted[i].kind, wanted[i].title) {
      if i == 0 {
        var q :| q in u.prompts && u.prompts[q].kind == p.kind && u.prompts[q].title == p.title && u.prompts[q].status.Open?;
        assert after.prompts[q] == u.prompts[q];
      } else {
        assert wanted[i] == rest[i - 1];
      }
    }
  }

  lemma PromptedStep(w: World, db: Db, p: Prompt, rest: seq<Prompt>, after: Tables)
    requires FreshIds(w, db.view, db.next) && p.status.Open? && PromptOnce(w, db, p).Ok?
    requires Prompted(PromptOnce(w, db, p).db.view, after, rest)
    ensures Prompted(db.view, after, [p] + rest)
  {
    OnePrompted(w, db, p);
    PromptedCons(db.view, PromptOnce(w, db, p).db.view, after, w.uuid(db.next), p, rest);
  }

  /** Successful or not, as an outcome. */
  ghost predicate EachIsPrompted(db: Db, prompts: seq<Prompt>, r: Result<nat>) {
    r.Ok? ==> Prompted(db.view, r.db.view, prompts)
  }

  predicate AllOpen(prompts: seq<Prompt>) {
    prompts == [] || (prompts[0].status.Open? && AllOpen(prompts[1..]))
  }

  lemma {:induction false} DealPromptsAreOpen(m: Message, activity: Id, seen: map<Id, Deal>, ids: seq<Id>)
    ensures AllOpen(DealPrompts(m, activity, seen, ids))
    decreases |ids|
  {
    if ids != [] {
      var rest := DealPrompts(m, activity, seen, ids[1..]);
      DealPromptsAreOpen(m, activity, seen, ids[1..]);
      if ids[0] in seen {
        var p := DealPrompt(m, activity, seen[ids[0]]);
        assert ([p] + rest)[1..] == rest;
      } else {
        assert [] + rest == rest;
      }
    }
  }

  lemma OnceKeepsFresh(w: World, db: Db, p: Prompt)
    requires ValidWorld(w) && FreshIds(w, db.view, db.next)
    ensures var once := PromptOnce(w, db, p);
            once.Ok? ==> FreshIds(w, once.db.view, once.db.next)
  {
    OnePrompted(w, db, p);
    forall i: nat | i >= db.next + 1 ensures w.uuid(i) != w.uuid(db.next) {}
  }

  lemma EachPromptedCons(w: World, db: Db, p: Prompt, rest: seq<Prompt>, r: Result<nat>)
    requires FreshIds(w, db.view, db.next) && p.status.Open? && PromptOnce(w, db, p).Ok?
    requires EachIsPrompted(PromptOnce(w, db, p).db, rest, r)
    ensures EachIsPrompted(db, [p] + rest, r)
  {
    if r.Ok? {
      PromptedStep(w, db, p, rest, r.db.view);
    }
  }

  /** The first of several prompts: what the others add to it. */
  lemma EachPromptedFirst(w: World, db: Db, prompts: seq<Prompt>, created: nat) returns (once: Result<nat>)
    requires ValidWorld(w) && FreshIds(w, db.view, db.next) && prompts != [] && prompts[0].status.Open?
    ensures PromptEach(w, db, prompts, created) ==
            if once.Err? then Err(once.db) else PromptEach(w, once.db, prompts[1..], created + once.value)
    ensures once.Ok? ==> FreshIds(w, once.db.view, once.db.next)
    ensures forall r: Result<nat> {:trigger EachIsPrompted(db, prompts, r)} ::
              once.Ok? && EachIsPrompted(once.db, prompts[1..], r) ==> EachIsPrompted(db, prompts, r)
  {
    once := PromptOnce(w, db, prompts[0]);
    PromptEachStep(w, db, prompts, created);
    OnceKeepsFresh(w, db, prompts[0]);
    assert prompts == [prompts[0]] + prompts[1..];
    forall r: Result<nat> {:trigger EachIsPrompted(db, prompts, r)} | once.Ok? && EachIsPrompted(once.db, prompts[1..], r)
      ensures EachIsPrompted(db, prompts, r)
    {
      EachPromptedCons(w, db, prompts[0], prompts[1..], r);
    }
  }

  lemma {:induction false} EachPrompted(w: World, db: Db, prompts: seq<Prompt>, created: nat)
    requires ValidWorld(w) && FreshIds(w, db.view, db.next) && AllOpen(prompts)
    ensures EachIsPrompted(db, prompts, PromptEach(w, db, prompts, created))
    decreases |prompts|
  {
    if prompts != [] {
      var once := EachPromptedFirst(w, db, prompts, created);
      if once.Ok? {
        EachPrompted(w, once.db, prompts[1..], created + once.value);
      }
    }
  }

  /** The deals of the people, by id. */
  ghost predicate DealsOf(w: World, people: set<Id>, seen: map<Id, Deal>) {
    && (forall d :: d in seen ==> seen[d].id == d && exists p :: p in people && seen[d] in w.deals(p))
    && (forall p, deal :: p in people && deal in w.deals(p) ==> deal.id in seen)
  }

  ghost predicate DealsOfList(w: World, people: seq<Id>, before: map<Id, Deal>, seen: map<Id, Deal>) {
    && before.Keys <= seen.Keys
    && (forall d :: d in seen ==>
          (d in before && seen[d] == before[d]) || (seen[d].id == d && exists p :: p in people && seen[d] in w.deals(p)))
    && (forall p, deal :: p in people && deal in w.deals(p) ==> deal.id in seen)
  }

  lemma {:induction false} AddDealsMeans(seen: map<Id, Deal>, deals: seq<Deal>)
    ensures var after := AddDeals(seen, deals);
            && seen.Keys <= after.Keys
            && (forall d :: d in after ==> (d in seen && after[d] == seen[d]) || (after[d].id == d && after[d] in deals))
            && (forall deal :: deal in deals ==> deal.id in after)
    decreases |deals|
  {
    if deals != [] {
      AddDealsMeans(seen[deals[0].id := deals[0]], deals[1..]);
    }
  }

  lemma {:induction false} CollectedDeals(w: World, db: Db, people: seq<Id>, seen: map<Id, Deal>)
    ensures var r := CollectDeals(w, db, people, seen);
            r.Ok? ==> DealsOfList(w, people, seen, r.value)
    decreases |people|
  {
    if people != [] {
      var q := Query(w, db, w.deals(people[0]));
      if q.Ok? {
        var next := AddDeals(seen, q.value);
        AddDealsMeans(seen, q.value);
        CollectedDeals(w, q.db, people[1..], next);
        assert people == [people[0]] + people[1..];
      }
    }
  }

  lemma DealsCollected(w: World, db: Db, people: set<Id>)
    requires ValidWorld(w)
    ensures var r := CollectDeals(w, db, w.order(db.calls, people), map[]);
            r.Ok? ==> DealsOf(w, people, r.value)
  {
    assert Enumerates(w.order(db.calls, people), people);
    CollectedDeals(w, db, w.order(db.calls, people), map[]);
  }

  function AskAbout(m: Message, activity: Id): Deal -> Prompt {
    (deal: Deal) => DealPrompt(m, activity, deal)
  }

  /** The prompts ask about the deals, and about every enumerated one of them. */
  ghost predicate PromptsForDeals(ask: Deal -> Prompt, seen: map<Id, Deal>, ids: seq<Id>, prompts: seq<Prompt>) {
    && (forall i :: 0 <= i < |prompts| ==> IsDealPrompt(ask, seen, prompts[i]))
    && (forall d :: d in seen && d in ids ==> ask(seen[d]) in prompts)
  }

  ghost predicate IsDealPrompt(ask: Deal -> Prompt, seen: map<Id, Deal>, p: Prompt) {
    exists d :: d in seen && p == ask(seen[d])
  }

  lemma PromptsForDealsCons(ask: Deal -> Prompt, seen: map<Id, Deal>, ids: seq<Id>, rest: seq<Prompt>)
    requires ids != [] && ids[0] in seen && PromptsForDeals(ask, seen, ids[1..], rest)
    ensures PromptsForDeals(ask, seen, ids, [ask(seen[ids[0]])] + rest)
  {
    var all := [ask(seen[ids[0]])] + rest;
    forall i | 0 <= i < |all| ensures IsDealPrompt(ask, seen, all[i]) {
      assert i > 0 ==> all[i] == rest[i - 1];
    }
    assert ids == [ids[0]] + ids[1..];
  }

  lemma PromptsForDealsSkip(ask: Deal -> Prompt, seen: map<Id, Deal>, ids: seq<Id>, rest: seq<Prompt>)
    requires ids != [] && ids[0] !in seen && PromptsForDeals(ask, seen, ids[1..], rest)
    ensures PromptsForDeals(ask, seen, ids, rest)
  {
    assert ids == [ids[0]] + ids[1..];
  }

  lemma DealPromptsStep(m: Message, activity: Id, seen: map<Id, Deal>, ids: seq<Id>, rest: seq<Prompt>)
    requires ids != [] && rest == DealPrompts(m, activity, seen, ids[1..])
    ensures DealPrompts(m, activity, seen, ids) ==
            if ids[0] in seen then [AskAbout(m, activity)(seen[ids[0]])] + rest else rest
  {
    assert [] + rest == rest;
  }

  lemma {:induction false} DealPromptsAre(m: Message, activity: Id, seen: map<Id, Deal>, ids: seq<Id>)
    ensures PromptsForDeals(AskAbout(m, activity), seen, ids, DealPrompts(m, activity, seen, ids))
    decreases |ids|
  {
    if ids != [] {
      var ask, rest := AskAbout(m, activity), DealPrompts(m, activity, seen, ids[1..]);
      DealPromptsAre(m, activity, seen, ids[1..]);
      DealPromptsStep(m, activity, seen, ids, rest);
      if ids[0] in seen {
        PromptsForDealsCons(ask, seen, ids, rest);
      } else {
        PromptsForDealsSkip(ask, seen, ids, rest);
      }
    }
  }

  function DealTitle(deal: Deal): string {
    "Link email to deal: " + DealNameOrId(deal)
  }

  /** Each deal of the people has an open link prompt, and every prompt added asks about one of them and this activity. */
  ghost predicate DealLinksSuggested(w: World, t: Tables, after: Tables, m: Message, activity: Id, people: set<Id>,
                                     seen: map<Id, Deal>) {
    && DealsOf(w, people, seen)
    && (forall q :: q in t.prompts ==> q in after.prompts && after.prompts[q] == t.prompts[q])
    && (forall d :: d in seen ==> HasOpenPrompt(after, EmailDealLink, DealTitle(seen[d])))
    && (forall q :: q in after.prompts && q !in t.prompts ==> IsStoredDealPrompt(m, activity, seen, after.prompts[q]))
  }

  ghost predicate IsStoredDealPrompt(m: Message, activity: Id, seen: map<Id, Deal>, row: Prompt) {
    exists d :: d in seen && row == StoredPrompt(DealPrompt(m, activity, seen[d]))
  }

  lemma DealIsAskedAbout(t: Tables, after: Tables, m: Message, activity: Id, deal: Deal, prompts: seq<Prompt>)
    requires Prompted(t, after, prompts) && DealPrompt(m, activity, deal) in prompts
    ensures HasOpenPrompt(after, EmailDealLink, DealTitle(deal))
  {
    var i :| 0 <= i < |prompts| && prompts[i] == DealPrompt(m, activity, deal);
    assert HasOpenPrompt(after, prompts[i].kind, prompts[i].title);
  }

  lemma NewPromptAsks(t: Tables, after: Tables, m: Message, activity: Id, seen: map<Id, Deal>, ids: seq<Id>,
                      prompts: seq<Prompt>, q: Id)
    requires PromptsForDeals(AskAbout(m, activity), seen, ids, prompts) && Prompted(t, after, prompts)
    requires q in after.prompts && q !in t.prompts
    ensures IsStoredDealPrompt(m, activity, seen, after.prompts[q])
  {
    assert IsWanted(prompts, after.prompts[q]);
    var i :| 0 <= i < |prompts| && after.prompts[q] == StoredPrompt(prompts[i]);
    assert IsDealPrompt(AskAbout(m, activity), seen, prompts[i]);
  }

  lemma PromptedDeals(t: Tables, after: Tables, m: Message, activity: Id, seen: map<Id, Deal>, ids: seq<Id>, prompts: seq<Prompt>)
    requires Enumerates(ids, seen.Keys) && PromptsForDeals(AskAbout(m, activity), seen, ids, prompts)
    requires Prompted(t, after, prompts)
    ensures forall d :: d in seen ==> HasOpenPrompt(after, EmailDealLink, DealTitle(seen[d]))
    ensures forall q :: q in after.prompts && q !in t.prompts ==> IsStoredDealPrompt(m, activity, seen, after.prompts[q])
  {
    forall d | d in seen ensures HasOpenPrompt(after, EmailDealLink, DealTitle(seen[d])) {
      assert AskAbout(m, activity)(seen[d]) in prompts;
      DealIsAskedAbout(t, after, m, activity, seen[d], prompts);
    }
    forall q | q in after.prompts && q !in t.prompts ensures IsStoredDealPrompt(m, activity, seen, after.prompts[q]) {
      NewPromptAsks(t, after, m, activity, seen, ids, prompts, q);
    }
  }

  /** The deals that a mail suggests links to. */
  lemma DealLinksExactly(w: World, db: Db, m: Message, activity: Id, people: set<Id>)
    requires ValidWorld(w) && db.inTx && FreshIds(w, db.view, db.next)
    ensures var r := SuggestDealLinks(w, db, m, activity, people);
            r.Ok? ==> exists seen :: DealLinksSuggested(w, db.view, r.db.view, m, activity, people, seen)
  {
    DealsCollected(w, db, people);
    CollectDealsReads(w, db, w.order(db.calls, people), map[]);
    var c := CollectDeals(w, db, w.order(db.calls, people), map[]);
    if c.Ok? {
      var ids := w.order(c.db.calls, c.value.Keys);
      var prompts := DealPrompts(m, activity, c.value, ids);
      assert Enumerates(ids, c.value.Keys);
      DealPromptsAre(m, activity, c.value, ids);
      DealPromptsAreOpen(m, activity, c.value, ids);
      EachPrompted(w, c.db, prompts, 0);
      var r := PromptEach(w, c.db, prompts, 0);
      if r.Ok? {
        PromptedDeals(db.view, r.db.view, m, activity, c.value, ids, prompts);
        assert DealLinksSuggested(w, db.view, r.db.view, m, activity, people, c.value);
      }
    }
  }
}
