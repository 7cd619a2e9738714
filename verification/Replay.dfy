/**
 Fetching mail again is harmless: with no failing store call and a fixed iteration
 order, repeats of a message change neither the tables nor the report.
 */
module Replay {
  import opened Wrappers
  import opened Text
  import opened CrmTables
  import opened EmailSync
  import opened EmailSyncProofs
  import opened SyncAccounting
  import opened AcceptanceConditions

  /** Collections are walked in an order that depends on their elements only. */
  ghost predicate FixedOrder(w: World) {
    forall m, n, s :: w.order(m, s) == w.order(n, s)
  }

  /** The same state after a different number of store calls. */
  ghost predicate Alike(a: Db, b: Db) {
    b == a.(calls := b.calls)
  }

  /** Both succeed, alike, with the same answer. */
  ghost predicate BothOk<T(!new)>(r: Result<T>, r': Result<T>) {
    r.Ok? && r'.Ok? && r.value == r'.value && Alike(r.db, r'.db) && Running(r.db)
  }

  /** Two states to go on from: alike, and with collections walked in the same order. */
  ghost predicate Twins(w: World, a: Db, b: Db) {
    Quiet(w) && (FixedOrder(w) || a == b) && Running(a) && Alike(a, b)
  }

  lemma {:induction false} MatchAlike(w: World, a: Db, b: Db, emails: seq<string>, matched: set<Id>)
    requires Twins(w, a, b)
    ensures BothOk(MatchPeople(w, a, emails, matched), MatchPeople(w, b, emails, matched))
    decreases |emails|
  {
    if emails != [] {
      var f, f' := FindPersonByEmail(w, a, emails[0]), FindPersonByEmail(w, b, emails[0]);
      MatchAlike(w, f.db, f'.db, emails[1..], if f.value.Some? then matched + {f.value.value} else matched);
    }
  }

  lemma {:induction false} TouchAlike(w: World, a: Db, b: Db, people: seq<Id>, at: int)
    requires Twins(w, a, b)
    ensures BothOk(TouchAll(w, a, people, at), TouchAll(w, b, people, at))
    decreases |people|
  {
    if people != [] {
      TouchAlike(w, TouchPerson(w, a, people[0], at).db, TouchPerson(w, b, people[0], at).db, people[1..], at);
    }
  }

  lemma {:induction false} CollectAlike(w: World, a: Db, b: Db, people: seq<Id>, seen: map<Id, Deal>)
    requires Twins(w, a, b)
    ensures BothOk(CollectDeals(w, a, people, seen), CollectDeals(w, b, people, seen))
    decreases |people|
  {
    if people != [] {
      var deals := w.deals(people[0]);
      CollectAlike(w, Query(w, a, deals).db, Query(w, b, deals).db, people[1..], AddDeals(seen, deals));
    }
  }

  lemma PromptOnceAlike(w: World, a: Db, b: Db, p: Prompt)
    requires Twins(w, a, b)
    ensures BothOk(PromptOnce(w, a, p), PromptOnce(w, b, p))
  {
  }

  lemma {:induction false} PromptEachAlike(w: World, a: Db, b: Db, prompts: seq<Prompt>, created: nat)
    requires Twins(w, a, b)
    ensures BothOk(PromptEach(w, a, prompts, created), PromptEach(w, b, prompts, created))
    decreases |prompts|
  {
    if prompts != [] {
      PromptOnceAlike(w, a, b, prompts[0]);
      var once, once' := PromptOnce(w, a, prompts[0]), PromptOnce(w, b, prompts[0]);
      PromptEachAlike(w, once.db, once'.db, prompts[1..], created + once.value);
    }
  }

  lemma SuggestDealsAlike(w: World, a: Db, b: Db, m: Message, activity: Id, people: set<Id>)
    requires Twins(w, a, b)
    ensures BothOk(SuggestDealLinks(w, a, m, activity, people), SuggestDealLinks(w, b, m, activity, people))
  {
    var order := w.order(a.calls, people);
    assert w.order(b.calls, people) == order;
    CollectAlike(w, a, b, order, map[]);
    var c, c' := CollectDeals(w, a, order, map[]), CollectDeals(w, b, order, map[]);
    var ids := w.order(c.db.calls, c.value.Keys);
    assert w.order(c'.db.calls, c.value.Keys) == ids;
    PromptEachAlike(w, c.db, c'.db, DealPrompts(m, activity, c.value, ids), 0);
  }

  lemma PointAndTouchAlike(w: World, a: Db, b: Db, account: Account, m: Message, activity: Id, people: set<Id>)
    requires Twins(w, a, b)
    ensures BothOk(PointAndTouch(w, a, account, m, activity, people), PointAndTouch(w, b, account, m, activity, people))
  {
    var body := PrivateBody(m);
    var d, d' := CreateDetail(w, a, account, activity, body), CreateDetail(w, b, account, activity, body);
    var s, s' := SetEmailMessageActivity(w, d.db, m.id, activity), SetEmailMessageActivity(w, d'.db, m.id, activity);
    assert w.order(s.db.calls, people) == w.order(s'.db.calls, people);
    TouchAlike(w, s.db, s'.db, w.order(s.db.calls, people), m.sentAt);
  }

  lemma TimelineAlike(w: World, a: Db, b: Db, account: Account, m: Message)
    requires ValidWorld(w) && Twins(w, a, b) && a.view.people == a.durable.people
    ensures BothOk(LinkEmailToTimeline(w, a, account, m), LinkEmailToTimeline(w, b, account, m))
  {
    var emails := RelevantEmails(account, m);
    MatchAlike(w, a, b, emails, {});
    MatchPeopleReads(w, a, emails, {});
    var f, f' := MatchPeople(w, a, emails, {}), MatchPeople(w, b, emails, {});
    if f.value != {} {
      RecordAlike(w, f.db, f'.db, account, m, f.value, Recorded(m));
    }
  }

  /** The part of the timeline that runs once somebody was matched. */
  lemma RecordAlike(w: World, a: Db, b: Db, account: Account, m: Message, people: set<Id>, activity: Activity)
    requires Twins(w, a, b) && people <= a.durable.people.Keys
    ensures var c, c' := CreateActivity(w, a, activity, people), CreateActivity(w, b, activity, people);
            && BothOk(c, c')
            && var p, p' := PointAndTouch(w, c.db, account, m, c.value, people), PointAndTouch(w, c'.db, account, m, c.value, people);
            && BothOk(p, p')
            && BothOk(SuggestDealLinks(w, p.db, m, c.value, people), SuggestDealLinks(w, p'.db, m, c.value, people))
  {
    var c, c' := CreateActivity(w, a, activity, people), CreateActivity(w, b, activity, people);
    PointAndTouchAlike(w, c.db, c'.db, account, m, c.value, people);
    var p, p' := PointAndTouch(w, c.db, account, m, c.value, people), PointAndTouch(w, c'.db, account, m, c.value, people);
    SuggestDealsAlike(w, p.db, p'.db, m, c.value, people);
  }

  lemma SuggestContactAlike(w: World, a: Db, b: Db, from: string, m: Message)
    requires Twins(w, a, b)
    ensures BothOk(SuggestContact(w, a, from, m), SuggestContact(w, b, from, m))
  {
    var f, f' := FindPersonByEmail(w, a, from), FindPersonByEmail(w, b, from);
    var s, s' := IsSuggestionSuppressed(w, f.db, NewContact, "email", from), IsSuggestionSuppressed(w, f'.db, NewContact, "email", from);
    PromptOnceAlike(w, s.db, s'.db, ContactPrompt(w, from, m));
  }

  lemma SuggestCompanyAlike(w: World, a: Db, b: Db, from: string, m: Message)
    requires Twins(w, a, b)
    ensures BothOk(SuggestCompany(w, a, from, m), SuggestCompany(w, b, from, m))
  {
    var d := EmailDomain(from);
    var f, f' := FindCompanyByDomain(w, a, d), FindCompanyByDomain(w, b, d);
    var s, s' := IsSuggestionSuppressed(w, f.db, NewCompany, "domain", d), IsSuggestionSuppressed(w, f'.db, NewCompany, "domain", d);
    PromptOnceAlike(w, s.db, s'.db, CompanyPrompt(from, d, m));
  }

  lemma SuggestEntitiesAlike(w: World, a: Db, b: Db, account: Account, m: Message)
    requires Twins(w, a, b)
    ensures BothOk(SuggestEntities(w, a, account, m), SuggestEntities(w, b, account, m))
  {
    var from := Normal(m.fromEmail);
    SuggestContactAlike(w, a, b, from, m);
    SuggestCompanyAlike(w, SuggestContact(w, a, from, m).db, SuggestContact(w, b, from, m).db, from, m);
  }

  lemma ProcessNoTxAlike(w: World, a: Db, b: Db, account: Account, m: Message)
    requires ValidWorld(w) && Twins(w, a, b) && a.view == a.durable
    ensures BothOk(ProcessNoTx(w, a, account, m), ProcessNoTx(w, b, account, m))
  {
    var up, up' := UpsertEmailMessage(w, a, m), UpsertEmailMessage(w, b, m);
    if up.value {
      TimelineAlike(w, up.db, up'.db, account, m);
      var l, l' := LinkEmailToTimeline(w, up.db, account, m), LinkEmailToTimeline(w, up'.db, account, m);
      SuggestEntitiesAlike(w, l.db, l'.db, account, m);
    }
  }

  /** Processing a message succeeds, and its outcome does not depend on how many calls came before. */
  lemma ProcessAlike(w: World, a: Db, b: Db, account: Account, m: Message)
    requires ValidWorld(w) && Quiet(w) && (FixedOrder(w) || a == b) && Idle(a) && Alike(a, b)
    ensures var r, r' := Process(w, a, account, m), Process(w, b, account, m);
            r.Ok? && r'.Ok? && r.value == r'.value && Alike(r.db, r'.db)
  {
    ProcessNoTxAlike(w, Begin(w, a).db, Begin(w, b).db, account, m);
  }

  /** The messages with repeats of ids in `seen`, or of each other, left out. */
  function Firsts(messages: seq<Message>, seen: set<string>): seq<Message>
    decreases |messages|
  {
    if messages == [] then []
    else if messages[0].id in seen then Firsts(messages[1..], seen)
    else [messages[0]] + Firsts(messages[1..], seen + {messages[0].id})
  }

  /**
   Processing a sequence with repeats ends in the same tables, with the same report, as
   processing the first occurrence of each message only.
   */
  lemma {:induction false} ReplayIsHarmless(w: World, s: Synced, s': Synced, account: Account, messages: seq<Message>, seen: set<string>)
    requires ValidWorld(w) && Quiet(w) && FixedOrder(w)
    requires Sound(w, s.db) && Alike(s.db, s'.db) && s.report == s'.report
    requires seen <= s.db.durable.messages.Keys
    ensures var all, firsts := SyncMessages(w, s, account, messages), SyncMessages(w, s', account, Firsts(messages, seen));
            Alike(all.db, firsts.db) && all.report == firsts.report
    decreases |messages|
  {
    if messages != [] {
      var m := messages[0];
      MessageTwice(w, s, s', account, m);
      var next, next' := After(w, s, account, m), After(w, s', account, m);
      if m.id in seen {
        RepeatIsAlike(w, s, account, m);
        ReplayIsHarmless(w, next, s', account, messages[1..], seen);
      } else {
        ReplayIsHarmless(w, next, next', account, messages[1..], seen + {m.id});
        SyncFirst(w, s', account, m, Firsts(messages[1..], seen + {m.id}));
      }
    }
  }

  /** One message of a sync. */
  function After(w: World, s: Synced, account: Account, m: Message): Synced {
    var r := Process(w, s.db, account, m);
    Synced(r.db, Counted(s.report, r))
  }

  lemma SyncFirst(w: World, s: Synced, account: Account, m: Message, rest: seq<Message>)
    ensures SyncMessages(w, s, account, [m] + rest) == SyncMessages(w, After(w, s, account, m), account, rest)
  {
    assert ([m] + rest)[1..] == rest;
  }

  /** A message that was processed is stored, and so are the others. */
  lemma MessageStored(w: World, db: Db, account: Account, m: Message)
    requires ValidWorld(w) && Sound(w, db) && Process(w, db, account, m).Ok?
    ensures db.durable.messages.Keys + {m.id} <= Process(w, db, account, m).db.durable.messages.Keys
  {
    ProcessEffect(w, db, account, m);
  }

  lemma MessageTwice(w: World, s: Synced, s': Synced, account: Account, m: Message)
    requires ValidWorld(w) && Quiet(w) && FixedOrder(w)
    requires Sound(w, s.db) && Alike(s.db, s'.db) && s.report == s'.report
    ensures var next, next' := After(w, s, account, m), After(w, s', account, m);
            && Sound(w, next.db) && Alike(next.db, next'.db) && next.report == next'.report
            && s.db.durable.messages.Keys + {m.id} <= next.db.durable.messages.Keys
  {
    ProcessAlike(w, s.db, s'.db, account, m);
    MessageStored(w, s.db, account, m);
    MessageBalanced(w, s.db, account, m, s.report);
  }

  lemma RepeatIsAlike(w: World, s: Synced, account: Account, m: Message)
    requires Quiet(w) && Idle(s.db) && m.id in s.db.durable.messages
    ensures Alike(s.db, After(w, s, account, m).db) && After(w, s, account, m).report == s.report
  {
    RepeatProcess(w, s.db, account, m);
  }

  lemma RepeatProcess(w: World, db: Db, account: Account, m: Message)
    requires Quiet(w) && Idle(db) && m.id in db.durable.messages
    ensures var r := Process(w, db, account, m);
            r.Ok? && r.value == Outcome(false, false, 0) && Alike(db, r.db)
  {
  }
}
