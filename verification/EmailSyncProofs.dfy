/**
 Properties of mail ingestion: what one message does to the tables, with store
 calls failing at any point, and what a whole sync reports about them.
 */
module EmailSyncProofs {
  import opened Wrappers
  import opened Text
  import opened CrmTables
  import opened EmailSync

  // ----- invariants of the tables -----

  /** Activity pointers lead to stored activities, and no two messages share one. */
  ghost predicate Consistent(t: Tables) {
    && (forall m :: m in t.messages && t.messages[m].activity.Some? ==> t.messages[m].activity.value in t.activities)
    && (forall m, n :: m in t.messages && n in t.messages && SharePointer(t, m, n) ==> m == n)
  }

  predicate SharePointer(t: Tables, m: string, n: string)
    requires m in t.messages && n in t.messages
  {
    t.messages[m].activity.Some? && t.messages[m].activity == t.messages[n].activity
  }

  ghost predicate SameOpenPrompt(t: Tables, p: Id, q: Id)
    requires p in t.prompts && q in t.prompts
  {
    t.prompts[p].status.Open? && t.prompts[q].status.Open?
    && t.prompts[p].kind == t.prompts[q].kind && t.prompts[p].title == t.prompts[q].title
  }

  /** At most one open prompt for each kind and title. */
  ghost predicate OneOpenPrompt(t: Tables) {
    forall p, q :: p in t.prompts && q in t.prompts && SameOpenPrompt(t, p, q) ==> p == q
  }

  predicate IsSuppressed(t: Tables, p: Prompt) {
    Suppression(p.kind, p.targetType, Lower(p.targetIdentifier)) in t.suppressions
  }

  // ----- what a part of a transaction may do -----

  /** A part of a transaction that writes nothing durable. */
  ghost predicate Contained(db: Db, after: Db) {
    after.durable == db.durable && after.inTx == db.inTx && db.next <= after.next
  }

  /** Only bookkeeping changed. */
  ghost predicate OnlyRead(db: Db, after: Db) {
    after == db.(calls := after.calls, aborted := after.aborted)
  }

  /** `n` prompts were added: open, not suppressed, none of them doubling an open one. */
  ghost predicate PromptsAdded(w: World, db: Db, after: Db, n: nat) {
    && after == db.(view := db.view.(prompts := after.view.prompts), calls := after.calls, next := after.next)
    && db.next <= after.next
    && |after.view.prompts| == |db.view.prompts| + n
    && (forall p :: p in db.view.prompts ==> p in after.view.prompts && after.view.prompts[p] == db.view.prompts[p])
    && (forall p :: p in after.view.prompts && p !in db.view.prompts ==> NewPrompt(db.view, after.view.prompts[p]))
    && FreshIds(w, after.view, after.next)
    && (OneOpenPrompt(db.view) ==> OneOpenPrompt(after.view))
  }

  ghost predicate NewPrompt(t: Tables, p: Prompt) {
    p.status.Open? && (p.kind.EmailDealLink? || ((p.kind.NewContact? || p.kind.NewCompany?) && !IsSuppressed(t, p)))
  }

  lemma PromptsAddedTwice(w: World, a: Db, b: Db, c: Db, n: nat, k: nat)
    requires PromptsAdded(w, a, b, n) && PromptsAdded(w, b, c, k)
    ensures PromptsAdded(w, a, c, n + k)
  {
    assert c == a.(view := a.view.(prompts := c.view.prompts), calls := c.calls, next := c.next);
    forall p | p in c.view.prompts && p !in a.view.prompts
      ensures NewPrompt(a.view, c.view.prompts[p])
    {
      if p in b.view.prompts {
        assert NewPrompt(a.view, b.view.prompts[p]);
      } else {
        assert NewPrompt(b.view, c.view.prompts[p]);
      }
    }
  }

  /** One prompt more, under a fresh id. */
  lemma OneAdded(w: World, db: Db, after: Db, row: Prompt)
    requires ValidWorld(w) && FreshIds(w, db.view, db.next)
    requires after.next == db.next + 1
    requires after == db.(view := db.view.(prompts := db.view.prompts[w.uuid(db.next) := row]), calls := after.calls,
                          next := after.next)
    requires NewPrompt(db.view, row) && !HasOpenPrompt(db.view, row.kind, row.title)
    ensures PromptsAdded(w, db, after, 1)
  {
    var id := w.uuid(db.next);
    assert id !in db.view.prompts;
    forall i: nat | i >= after.next
      ensures w.uuid(i) !in after.view.prompts
    {
      assert w.uuid(i) != id;
    }
  }

  /** What creating a prompt once did, if it succeeded. */
  lemma PromptOnceIs(w: World, db: Db, p: Prompt, row: Prompt)
    requires db.inTx && row == p.(targetIdentifier := Lower(p.targetIdentifier))
    ensures var r := PromptOnce(w, db, p);
            && Contained(db, r.db)
            && (r.Ok? ==> r.value <= 1)
            && (r.Ok? && r.value == 0 ==> r.db == db.(calls := r.db.calls))
            && (r.Ok? && r.value == 1 ==>
                  && !HasOpenPrompt(db.view, p.kind, p.title) && r.db.next == db.next + 1
                  && r.db == db.(view := db.view.(prompts := db.view.prompts[w.uuid(db.next) := row]),
                                 calls := r.db.calls, next := r.db.next))
  {
  }

  lemma NewInAnyCase(t: Tables, p: Prompt, row: Prompt)
    requires NewPrompt(t, p) && row == p.(targetIdentifier := Lower(p.targetIdentifier))
    ensures NewPrompt(t, row)
  {
    LowerIsStable(p.targetIdentifier);
  }

  /** A part of a transaction that adds the prompts it counts. */
  ghost predicate Added(w: World, db: Db, r: Result<nat>) {
    Contained(db, r.db) && (r.Ok? ==> PromptsAdded(w, db, r.db, r.value))
  }

  lemma PromptOnceAdds(w: World, db: Db, p: Prompt)
    requires ValidWorld(w) && db.inTx && FreshIds(w, db.view, db.next) && NewPrompt(db.view, p)
    ensures Added(w, db, PromptOnce(w, db, p))
  {
    var r, row := PromptOnce(w, db, p), p.(targetIdentifier := Lower(p.targetIdentifier));
    PromptOnceIs(w, db, p, row);
    NewInAnyCase(db.view, p, row);
    if r.Ok? && r.value == 1 {
      OneAdded(w, db, r.db, row);
    }
  }

  lemma PromptsAddedNone(w: World, db: Db)
    requires FreshIds(w, db.view, db.next)
    ensures PromptsAdded(w, db, db, 0)
  {
  }

  lemma PromptEachStep(w: World, db: Db, prompts: seq<Prompt>, created: nat)
    requires prompts != []
    ensures var once := PromptOnce(w, db, prompts[0]);
            PromptEach(w, db, prompts, created) ==
            if once.Err? then Err(once.db) else PromptEach(w, once.db, prompts[1..], created + once.value)
  {
  }

  /** The outcome of creating prompts one by one, on top of `created` ones. */
  ghost predicate EachOutcome(w: World, db: Db, created: nat, r: Result<nat>) {
    Contained(db, r.db) && (r.Ok? ==> created <= r.value && PromptsAdded(w, db, r.db, r.value - created))
  }

  lemma EachOutcomeCons(w: World, db: Db, once: Result<nat>, created: nat, r: Result<nat>)
    requires once.Ok? && Added(w, db, once) && EachOutcome(w, once.db, created + once.value, r)
    ensures EachOutcome(w, db, created, r)
  {
    if r.Ok? {
      PromptsAddedTwice(w, db, once.db, r.db, once.value, r.value - created - once.value);
    }
  }

  predicate AllDealPrompts(prompts: seq<Prompt>) {
    forall i :: 0 <= i < |prompts| ==> prompts[i].kind.EmailDealLink? && prompts[i].status.Open?
  }

  lemma AddedGoesOn(w: World, db: Db, once: Result<nat>, created: nat)
    requires db.inTx && Added(w, db, once)
    ensures once.Ok? ==> once.db.inTx && FreshIds(w, once.db.view, once.db.next)
    ensures once.Err? ==> EachOutcome(w, db, created, Err(once.db))
  {
  }

  lemma EachOutcomeOver(w: World, db: Db, once: Result<nat>, created: nat)
    requires once.Ok? && Added(w, db, once)
    ensures forall r: Result<nat> {:trigger EachOutcome(w, db, created, r)} ::
              EachOutcome(w, once.db, created + once.value, r) ==> EachOutcome(w, db, created, r)
  {
    forall r: Result<nat> {:trigger EachOutcome(w, db, created, r)} | EachOutcome(w, once.db, created + once.value, r)
      ensures EachOutcome(w, db, created, r)
    {
      EachOutcomeCons(w, db, once, created, r);
    }
  }

  /** The first of several prompts: what the others add to it. */
  lemma PromptEachFirst(w: World, db: Db, prompts: seq<Prompt>, created: nat) returns (once: Result<nat>)
    requires ValidWorld(w) && db.inTx && FreshIds(w, db.view, db.next) && AllDealPrompts(prompts) && prompts != []
    ensures PromptEach(w, db, prompts, created) ==
            if once.Err? then Err(once.db) else PromptEach(w, once.db, prompts[1..], created + once.value)
    ensures Added(w, db, once)
  {
    once := PromptOnce(w, db, prompts[0]);
    PromptOnceAdds(w, db, prompts[0]);
    PromptEachStep(w, db, prompts, created);
  }

  /** What the others have to be for the whole. */
  lemma PromptEachGoesOn(w: World, db: Db, prompts: seq<Prompt>, created: nat) returns (once: Result<nat>)
    requires ValidWorld(w) && db.inTx && FreshIds(w, db.view, db.next) && AllDealPrompts(prompts) && prompts != []
    ensures PromptEach(w, db, prompts, created) ==
            if once.Err? then Err(once.db) else PromptEach(w, once.db, prompts[1..], created + once.value)
    ensures once.Err? ==> EachOutcome(w, db, created, Err(once.db))
    ensures once.Ok? ==> once.db.inTx && FreshIds(w, once.db.view, once.db.next)
    ensures forall r: Result<nat> {:trigger EachOutcome(w, db, created, r)} ::
              once.Ok? && EachOutcome(w, once.db, created + once.value, r) ==> EachOutcome(w, db, created, r)
  {
    once := PromptEachFirst(w, db, prompts, created);
    AddedGoesOn(w, db, once, created);
    if once.Ok? {
      EachOutcomeOver(w, db, once, created);
    }
  }

  lemma {:induction false} PromptEachAdds(w: World, db: Db, prompts: seq<Prompt>, created: nat)
    requires ValidWorld(w) && db.inTx && FreshIds(w, db.view, db.next) && AllDealPrompts(prompts)
    ensures EachOutcome(w, db, created, PromptEach(w, db, prompts, created))
    decreases |prompts|
  {
    if prompts == [] {
      PromptsAddedNone(w, db);
    } else {
      var once := PromptEachGoesOn(w, db, prompts, created);
      if once.Ok? {
        PromptEachAdds(w, once.db, prompts[1..], created + once.value);
      }
    }
  }

  lemma {:induction false} CollectDealsReads(w: World, db: Db, people: seq<Id>, seen: map<Id, Deal>)
    ensures var r := CollectDeals(w, db, people, seen);
            OnlyRead(db, r.db) && (r.Ok? ==> r.db.aborted == db.aborted)
    decreases |people|
  {
    if people != [] {
      var q := Query(w, db, w.deals(people[0]));
      if q.Ok? {
        CollectDealsReads(w, q.db, people[1..], AddDeals(seen, q.value));
      }
    }
  }

  lemma SuggestDealLinksAdds(w: World, db: Db, m: Message, activity: Id, people: set<Id>)
    requires ValidWorld(w) && db.inTx && FreshIds(w, db.view, db.next)
    ensures var r := SuggestDealLinks(w, db, m, activity, people);
            Contained(db, r.db) && (r.Ok? ==> PromptsAdded(w, db, r.db, r.value))
  {
    CollectDealsReads(w, db, w.order(db.calls, people), map[]);
    var c := CollectDeals(w, db, w.order(db.calls, people), map[]);
    if c.Ok? {
      PromptEachAdds(w, c.db, DealPrompts(m, activity, c.value, w.order(c.db.calls, c.value.Keys)), 0);
    }
  }

  lemma ContactForAdds(w: World, db: Db, from: string, p: Prompt)
    requires ValidWorld(w) && db.inTx && FreshIds(w, db.view, db.next)
    requires p.kind.NewContact? && p.status.Open? && p.targetType == "email" && p.targetIdentifier == from
    ensures var r := ContactFor(w, db, from, p);
            Contained(db, r.db) && (r.Ok? ==> PromptsAdded(w, db, r.db, r.value.created))
  {
    var person := FindPersonByEmail(w, db, from);
    if person.Ok? && person.value.None? {
      var suppressed := IsSuggestionSuppressed(w, person.db, NewContact, "email", from);
      if suppressed.Ok? && !suppressed.value {
        PromptOnceAdds(w, suppressed.db, p);
      }
    }
  }

  lemma SuggestContactAdds(w: World, db: Db, from: string, m: Message)
    requires ValidWorld(w) && db.inTx && FreshIds(w, db.view, db.next)
    ensures var r := SuggestContact(w, db, from, m);
            Contained(db, r.db) && (r.Ok? ==> PromptsAdded(w, db, r.db, r.value.created))
  {
    ContactForAdds(w, db, from, ContactPrompt(w, from, m));
  }

  lemma CompanyForAdds(w: World, db: Db, domainName: string, p: Prompt)
    requires ValidWorld(w) && db.inTx && FreshIds(w, db.view, db.next)
    requires p.kind.NewCompany? && p.status.Open? && p.targetType == "domain" && p.targetIdentifier == domainName
    ensures Added(w, db, CompanyFor(w, db, domainName, p))
  {
    var company := FindCompanyByDomain(w, db, domainName);
    if company.Ok? && company.value.None? {
      var suppressed := IsSuggestionSuppressed(w, company.db, NewCompany, "domain", domainName);
      if suppressed.Ok? && !suppressed.value {
        PromptOnceAdds(w, suppressed.db, p);
      }
    }
  }

  lemma SuggestCompanyAdds(w: World, db: Db, from: string, m: Message)
    requires ValidWorld(w) && db.inTx && FreshIds(w, db.view, db.next)
    ensures Added(w, db, SuggestCompany(w, db, from, m))
  {
    CompanyForAdds(w, db, EmailDomain(from), CompanyPrompt(from, EmailDomain(from), m));
  }

  /** The company's outcome on top of the contact's. */
  lemma AddedAfterContact(w: World, db: Db, contact: Db, created: nat, company: Result<nat>)
    requires PromptsAdded(w, db, contact, created) && Contained(db, contact) && Added(w, contact, company)
    ensures Added(w, db, if company.Err? then company else Ok(created + company.value, company.db))
  {
    if company.Ok? {
      PromptsAddedTwice(w, db, contact, company.db, created, company.value);
    }
  }

  lemma SuggestSenderAdds(w: World, db: Db, from: string, m: Message)
    requires ValidWorld(w) && db.inTx && FreshIds(w, db.view, db.next)
    ensures Added(w, db, SuggestSender(w, db, from, m))
  {
    SuggestContactAdds(w, db, from, m);
    var contact := SuggestContact(w, db, from, m);
    if contact.Ok? && !contact.value.stop {
      SuggestCompanyAdds(w, contact.db, from, m);
      AddedAfterContact(w, db, contact.db, contact.value.created, SuggestCompany(w, contact.db, from, m));
    }
  }

  lemma SuggestEntitiesAdds(w: World, db: Db, account: Account, m: Message)
    requires ValidWorld(w) && db.inTx && FreshIds(w, db.view, db.next)
    ensures Added(w, db, SuggestEntities(w, db, account, m))
  {
    PromptsAddedNone(w, db);
    SuggestSenderAdds(w, db, Normal(m.fromEmail), m);
  }

  // ----- the timeline -----

  /** Matching reads only, and finds somebody exactly when some address is answered. */
  lemma {:induction false} MatchPeopleReads(w: World, db: Db, emails: seq<string>, matched: set<Id>)
    requires ValidWorld(w)
    ensures var r := MatchPeople(w, db, emails, matched);
            && OnlyRead(db, r.db)
            && (r.Ok? ==>
                && r.db.aborted == db.aborted
                && matched <= r.value <= matched + db.view.people.Keys
                && (r.value == {} <==> matched == {} && forall i :: 0 <= i < |emails| ==> Answering(db.view, emails[i]) == {}))
    decreases |emails|
  {
    if emails != [] {
      var f := FindPersonByEmail(w, db, emails[0]);
      var answering := Answering(db.view, emails[0]);
      assert Enumerates(w.order(db.calls, answering), answering);
      if f.Ok? {
        assert f.value.Some? ==> f.value.value in answering;
        assert f.value.None? <==> answering == {} by {
          if x :| x in answering { assert x in w.order(db.calls, answering); }
        }
        var next := if f.value.Some? then matched + {f.value.value} else matched;
        MatchPeopleReads(w, f.db, emails[1..], next);
        assert forall i :: 0 < i < |emails| ==> emails[i] == emails[1..][i - 1];
      }
    }
  }

  /** The people an enumeration names are touched, the others are as before. */
  ghost predicate TouchedBy(people: map<Id, Person>, after: map<Id, Person>, ids: seq<Id>, at: int) {
    && after.Keys == people.Keys
    && forall p :: p in people ==>
         after[p] == if p in ids then people[p].(lastTouch := Some(Later(people[p].lastTouch, at))) else people[p]
  }

  lemma {:induction false} TouchAllTouches(w: World, db: Db, people: seq<Id>, at: int)
    requires db.inTx
    ensures var r := TouchAll(w, db, people, at);
            && Contained(db, r.db)
            && (r.Ok? ==>
                && r.db == db.(view := db.view.(people := r.db.view.people), calls := r.db.calls)
                && TouchedBy(db.view.people, r.db.view.people, people, at))
    decreases |people|
  {
    if people != [] {
      var t := TouchPerson(w, db, people[0], at);
      if t.Ok? {
        TouchAllTouches(w, t.db, people[1..], at);
      }
    }
  }

  /** A stored mail was recorded for `people` as activity `id`, with `n` deal suggestions. */
  ghost predicate Timeline(t: Tables, after: Tables, m: Message, id: Id, people: set<Id>, n: nat) {
    && after == t.(messages := t.messages[m.id := Row(m, Some(id))],
                   activities := t.activities[id := Recorded(m)],
                   links := WithNewActivity(t, id, Recorded(m), people).links,
                   details := after.details, people := after.people, prompts := after.prompts)
    && TouchedSet(t.people, after.people, people, m.sentAt)
    && PromptsGrown(t, after, n)
  }

  ghost predicate PromptsGrown(t: Tables, after: Tables, n: nat) {
    && |after.prompts| == |t.prompts| + n
    && (forall p :: p in t.prompts ==> p in after.prompts && after.prompts[p] == t.prompts[p])
    && (forall p :: p in after.prompts && p !in t.prompts ==> NewPrompt(t, after.prompts[p]))
    && (OneOpenPrompt(t) ==> OneOpenPrompt(after))
  }

  lemma NewActivityKeepsFresh(w: World, t: Tables, a: Activity, people: set<Id>, next: nat)
    requires ValidWorld(w) && FreshIds(w, t, next)
    ensures FreshIds(w, WithNewActivity(t, w.uuid(next), a, people), next + 1)
  {
    var after := WithNewActivity(t, w.uuid(next), a, people);
    forall i: nat | i >= next + 1
      ensures w.uuid(i) !in after.activities && (forall l :: l in after.links ==> l.activity != w.uuid(i))
    {
      assert w.uuid(i) != w.uuid(next);
    }
  }

  lemma PointingKeepsFresh(w: World, t: Tables, id: string, activity: Id, next: nat)
    requires FreshIds(w, t, next)
    requires forall i: nat :: i >= next ==> w.uuid(i) != activity
    ensures FreshIds(w, WithActivity(t, id, activity), next)
  {
  }

  /** The activity was recorded in a transaction of its own and stays whatever happens next. */
  predicate ActivityCommitted(w: World, db: Db, account: Account, m: Message) {
    CommittedFor(w, db, RelevantEmails(account, m), Recorded(m))
  }

  predicate CommittedFor(w: World, db: Db, emails: seq<string>, a: Activity) {
    var matched := MatchPeople(w, db, emails, {});
    matched.Ok? && matched.value != {} && CreateActivity(w, matched.db, a, matched.value).Ok?
  }

  function MatchedPeople(w: World, db: Db, account: Account, m: Message): set<Id> {
    var matched := MatchPeople(w, db, RelevantEmails(account, m), {});
    if matched.Ok? then matched.value else {}
  }

  lemma DetailEffect(w: World, db: Db, account: Account, activity: Id, body: string)
    requires db.inTx
    ensures var r := CreateDetail(w, db, account, activity, body);
            && Contained(db, r.db) && r.db.next == db.next
            && (r.Ok? ==> r.db == db.(view := db.view.(details := r.db.view.details), calls := r.db.calls))
  {
  }

  /** Everybody in `people` is touched, everybody else is as before. */
  ghost predicate TouchedSet(people: map<Id, Person>, after: map<Id, Person>, ids: set<Id>, at: int) {
    && after.Keys == people.Keys
    && forall p :: p in people ==>
         after[p] == if p in ids then people[p].(lastTouch := Some(Later(people[p].lastTouch, at))) else people[p]
  }

  lemma PointAndTouchEffect(w: World, db: Db, account: Account, m: Message, activity: Id, people: set<Id>)
    requires ValidWorld(w) && db.inTx
    requires m.id in db.view.messages && db.view.messages[m.id] == Row(m, None)
    ensures var r := PointAndTouch(w, db, account, m, activity, people);
            && Contained(db, r.db)
            && (r.Ok? ==>
                && r.db == db.(calls := r.db.calls,
                               view := db.view.(messages := db.view.messages[m.id := Row(m, Some(activity))],
                                                details := r.db.view.details, people := r.db.view.people))
                && TouchedSet(db.view.people, r.db.view.people, people, m.sentAt))
  {
    DetailEffect(w, db, account, activity, PrivateBody(m));
    var d1 := CreateDetail(w, db, account, activity, PrivateBody(m));
    if d1.Ok? {
      var d2 := SetEmailMessageActivity(w, d1.db, m.id, activity);
      if d2.Ok? {
        var ids := w.order(d2.db.calls, people);
        assert Enumerates(ids, people);
        TouchAllTouches(w, d2.db, ids, m.sentAt);
      }
    }
  }

  lemma AfterActivityEffect(w: World, db: Db, account: Account, m: Message, activity: Id, people: set<Id>)
    requires ValidWorld(w) && db.inTx && FreshIds(w, db.view, db.next)
    requires forall i: nat :: i >= db.next ==> w.uuid(i) != activity
    requires m.id in db.view.messages && db.view.messages[m.id] == Row(m, None)
    ensures var touched := PointAndTouch(w, db, account, m, activity, people);
            && Contained(db, touched.db)
            && (touched.Ok? ==>
                var r := SuggestDealLinks(w, touched.db, m, activity, people);
                && Contained(db, r.db)
                && (r.Ok? ==>
                    && r.db.aborted == db.aborted && FreshIds(w, r.db.view, r.db.next)
                    && r.db.view == touched.db.view.(prompts := r.db.view.prompts)
                    && PromptsGrown(db.view, r.db.view, r.value)))
  {
    PointAndTouchEffect(w, db, account, m, activity, people);
    var touched := PointAndTouch(w, db, account, m, activity, people);
    if touched.Ok? {
      PointingKeepsFresh(w, db.view, m.id, activity, db.next);
      SuggestDealLinksAdds(w, touched.db, m, activity, people);
      var r := SuggestDealLinks(w, touched.db, m, activity, people);
      if r.Ok? {
        PromptsGrownFrom(w, touched.db, r.db, db.view, r.value);
      }
    }
  }

  /** Growth of the prompts does not depend on the other tables, suppressions apart. */
  lemma PromptsGrownFrom(w: World, db: Db, after: Db, t: Tables, n: nat)
    requires PromptsAdded(w, db, after, n)
    requires t.prompts == db.view.prompts && t.suppressions == db.view.suppressions
    ensures PromptsGrown(t, after.view, n)
  {
    forall p | p in after.view.prompts && p !in t.prompts
      ensures NewPrompt(t, after.view.prompts[p])
    {
      assert NewPrompt(db.view, after.view.prompts[p]);
    }
    if OneOpenPrompt(t) {
      SameOpenPrompts(t, db.view);
    }
  }

  lemma SameOpenPrompts(t: Tables, u: Tables)
    requires t.prompts == u.prompts
    ensures OneOpenPrompt(t) ==> OneOpenPrompt(u)
  {
    if OneOpenPrompt(t) {
      forall p, q | p in u.prompts && q in u.prompts && SameOpenPrompt(u, p, q)
        ensures p == q
      {
        assert SameOpenPrompt(t, p, q);
      }
    }
  }

  /** What the timeline part of one message does, as an outcome. */
  ghost predicate TimelineOutcome(w: World, db: Db, account: Account, m: Message, people: set<Id>, committed: bool, r: Result<Linked>) {
    && r.db.inTx && db.next <= r.db.next && (committed ==> db.next < r.db.next)
    && r.db.durable == (if committed then WithNewActivity(db.durable, w.uuid(db.next), Recorded(m), people) else db.durable)
    && (r.Ok? ==>
        && r.db.aborted == db.aborted && FreshIds(w, r.db.view, r.db.next)
        && r.value.linked == committed
        && (r.value.linked ==> Timeline(db.view, r.db.view, m, w.uuid(db.next), people, r.value.suggestions))
        && (!r.value.linked ==> r.db.view == db.view && r.value.suggestions == 0))
  }

  /** What the timeline part of one message does, whichever store call fails. */
  lemma TimelineEffect(w: World, db: Db, account: Account, m: Message)
    requires ValidWorld(w) && db.inTx && FreshIds(w, db.view, db.next) && FreshIds(w, db.durable, db.next)
    requires m.id in db.view.messages && db.view.messages[m.id] == Row(m, None)
    ensures TimelineOutcome(w, db, account, m, MatchedPeople(w, db, account, m), ActivityCommitted(w, db, account, m),
                            LinkEmailToTimeline(w, db, account, m))
  {
    MatchPeopleReads(w, db, RelevantEmails(account, m), {});
    var matched := MatchPeople(w, db, RelevantEmails(account, m), {});
    if matched.Ok? && matched.value != {} {
      var created := CreateActivity(w, matched.db, Recorded(m), matched.value);
      if created.Ok? {
        NewActivityKeepsFresh(w, db.view, Recorded(m), matched.value, db.next);
        AfterActivityEffect(w, created.db, account, m, w.uuid(db.next), matched.value);
        TimelineOk(w, db, created.db, account, m, matched.value);
      }
    }
  }

  lemma TimelineOk(w: World, db: Db, created: Db, account: Account, m: Message, people: set<Id>)
    requires ValidWorld(w) && created.inTx
    requires m.id in db.view.messages && db.view.messages[m.id] == Row(m, None)
    requires created.view == WithNewActivity(db.view, w.uuid(db.next), Recorded(m), people)
    ensures var touched := PointAndTouch(w, created, account, m, w.uuid(db.next), people);
            touched.Ok? ==>
              var r := SuggestDealLinks(w, touched.db, m, w.uuid(db.next), people);
              r.Ok? && r.db.view == touched.db.view.(prompts := r.db.view.prompts)
              && PromptsGrown(created.view, r.db.view, r.value) ==>
                Timeline(db.view, r.db.view, m, w.uuid(db.next), people, r.value)
  {
    PointAndTouchEffect(w, created, account, m, w.uuid(db.next), people);
    var touched := PointAndTouch(w, created, account, m, w.uuid(db.next), people);
    if touched.Ok? {
      var r := SuggestDealLinks(w, touched.db, m, w.uuid(db.next), people);
      if r.Ok? && PromptsGrown(created.view, r.db.view, r.value) {
        PromptsGrownSame(created.view, db.view, r.db.view, r.value);
      }
    }
  }

  lemma PromptsGrownSame(t: Tables, u: Tables, after: Tables, n: nat)
    requires t.prompts == u.prompts && t.suppressions == u.suppressions && PromptsGrown(t, after, n)
    ensures PromptsGrown(u, after, n)
  {
    forall p | p in after.prompts && p !in u.prompts
      ensures NewPrompt(u, after.prompts[p])
    {
      assert NewPrompt(t, after.prompts[p]);
    }
    if OneOpenPrompt(u) {
      SameOpenPrompts(u, t);
    }
  }

  // ----- one message -----

  /**
   A mail was stored. When `linked`, it points at the new activity `id`, which is linked
   to `people`, who are touched; `n` prompts were added; no other table changed.
   */
  ghost predicate Ingested(t: Tables, after: Tables, m: Message, linked: bool, id: Id, people: set<Id>, n: nat) {
    IngestedRows(t, after, m, linked, id, people) && PromptsGrown(t, after, n)
  }

  ghost predicate IngestedRows(t: Tables, after: Tables, m: Message, linked: bool, id: Id, people: set<Id>) {
    && m.id !in t.messages
    && after == t.(messages := t.messages[m.id := Row(m, if linked then Some(id) else None)],
                   activities := if linked then t.activities[id := Recorded(m)] else t.activities,
                   links := if linked then WithNewActivity(t, id, Recorded(m), people).links else t.links,
                   details := after.details, people := after.people, prompts := after.prompts)
    && TouchedSet(t.people, after.people, if linked then people else {}, m.sentAt)
  }

  function Stored(t: Tables, m: Message): Tables {
    t.(messages := t.messages[m.id := Row(m, None)])
  }

  lemma PromptsGrownTwice(w: World, t: Tables, db: Db, after: Db, n: nat, k: nat)
    requires PromptsGrown(t, db.view, n) && db.view.suppressions == t.suppressions
    requires PromptsAdded(w, db, after, k)
    ensures PromptsGrown(t, after.view, n + k)
  {
    forall p | p in after.view.prompts && p !in t.prompts
      ensures NewPrompt(t, after.view.prompts[p])
    {
      if p in db.view.prompts {
        assert NewPrompt(t, db.view.prompts[p]);
      } else {
        assert NewPrompt(db.view, after.view.prompts[p]);
      }
    }
  }

  lemma IngestedOk(w: World, t: Tables, linked: bool, id: Id, people: set<Id>, m: Message, db: Db, after: Db, n: nat, k: nat)
    requires m.id !in t.messages
    requires linked ==> Timeline(Stored(t, m), db.view, m, id, people, n)
    requires !linked ==> db.view == Stored(t, m) && n == 0
    requires PromptsAdded(w, db, after, k)
    ensures Ingested(t, after.view, m, linked, id, people, n + k)
  {
    if linked {
      TimelineRows(t, db.view, id, people, m, n);
      PromptsGrownSame(Stored(t, m), t, db.view, n);
    } else {
      SameOpenPrompts(t, db.view);
    }
    PromptsGrownTwice(w, t, db, after, n, k);
  }

  lemma TimelineRows(t: Tables, after: Tables, id: Id, people: set<Id>, m: Message, n: nat)
    requires m.id !in t.messages && Timeline(Stored(t, m), after, m, id, people, n)
    ensures IngestedRows(t, after, m, true, id, people)
  {
    StoredThenPointed(t.messages, m, id);
    StoredLinks(t, m, id, people);
  }

  lemma StoredThenPointed(messages: map<string, Row>, m: Message, id: Id)
    ensures messages[m.id := Row(m, None)][m.id := Row(m, Some(id))] == messages[m.id := Row(m, Some(id))]
  {
  }

  lemma StoredLinks(t: Tables, m: Message, id: Id, people: set<Id>)
    ensures WithNewActivity(Stored(t, m), id, Recorded(m), people).links == WithNewActivity(t, id, Recorded(m), people).links
  {
  }

  /** The state right after the mail itself was stored inside the transaction. */
  predicate StoredNow(w: World, db: Db, m: Message) {
    var r := UpsertEmailMessage(w, db, m);
    r.Ok? && r.value
  }

  /** What a new message does once it is stored; `t` are the tables before. */
  ghost predicate NewMailOutcome(w: World, t: Tables, stored: Db, account: Account, m: Message, r: Result<Outcome>) {
    var people := MatchedPeople(w, stored, account, m);
    && r.db.inTx && stored.next <= r.db.next && FreshIds(w, r.db.durable, r.db.next)
    && r.db.durable == (if ActivityCommitted(w, stored, account, m)
                        then WithNewActivity(stored.durable, w.uuid(stored.next), Recorded(m), people)
                        else stored.durable)
    && (r.Ok? ==>
        && r.db.aborted == stored.aborted && FreshIds(w, r.db.view, r.db.next) && r.value.created
        && r.value.linked == ActivityCommitted(w, stored, account, m)
        && Ingested(t, r.db.view, m, r.value.linked, w.uuid(stored.next), people, r.value.suggestions))
  }

  /** The suggestions on top of the timeline, whatever they are. */
  lemma SuggestedOnTop(
    w: World, t: Tables, stored: Db, account: Account, m: Message, people: set<Id>, committed: bool,
    link: Result<Linked>, sug: Result<nat>)
    requires m.id !in t.messages && stored.view == Stored(t, m)
    requires link.Ok? && TimelineOutcome(w, stored, account, m, people, committed, link)
    requires Added(w, link.db, sug)
    ensures sug.db.inTx && stored.next <= sug.db.next && (committed ==> stored.next < sug.db.next)
    ensures sug.db.durable == link.db.durable
    ensures sug.Ok? ==>
              && sug.db.aborted == stored.aborted && FreshIds(w, sug.db.view, sug.db.next)
              && Ingested(t, sug.db.view, m, link.value.linked, w.uuid(stored.next), people, link.value.suggestions + sug.value)
  {
    if sug.Ok? {
      IngestedOk(w, t, link.value.linked, w.uuid(stored.next), people, m, link.db, sug.db, link.value.suggestions, sug.value);
    }
  }

  lemma LaterIsFresh(w: World, t: Tables, n: nat, n': nat)
    requires FreshIds(w, t, n) && n <= n'
    ensures FreshIds(w, t, n')
  {
  }

  lemma CommittedIsFresh(w: World, t: Tables, m: Message, people: set<Id>, committed: bool, n: nat, n': nat)
    requires ValidWorld(w) && FreshIds(w, t, n) && n <= n' && (committed ==> n < n')
    ensures FreshIds(w, if committed then WithNewActivity(t, w.uuid(n), Recorded(m), people) else t, n')
  {
    NewActivityKeepsFresh(w, t, Recorded(m), people, n);
    LaterIsFresh(w, if committed then WithNewActivity(t, w.uuid(n), Recorded(m), people) else t,
                 if committed then n + 1 else n, n');
  }

  lemma NewMailEffect(w: World, t: Tables, stored: Db, account: Account, m: Message)
    requires ValidWorld(w) && stored.inTx && FreshIds(w, stored.view, stored.next) && FreshIds(w, stored.durable, stored.next)
    requires m.id !in t.messages && stored.view == Stored(t, m)
    ensures NewMailOutcome(w, t, stored, account, m, RecordAndSuggest(w, stored, account, m))
  {
    var people, committed := MatchedPeople(w, stored, account, m), ActivityCommitted(w, stored, account, m);
    TimelineEffect(w, stored, account, m);
    var link := LinkEmailToTimeline(w, stored, account, m);
    CommittedIsFresh(w, stored.durable, m, people, committed, stored.next, link.db.next);
    if link.Ok? {
      SuggestEntitiesAdds(w, link.db, account, m);
      var sug := SuggestEntities(w, link.db, account, m);
      SuggestedOnTop(w, t, stored, account, m, people, committed, link, sug);
      CommittedIsFresh(w, stored.durable, m, people, committed, stored.next, sug.db.next);
    }
  }

  lemma ProcessNoTxEffect(w: World, db: Db, account: Account, m: Message)
    requires ValidWorld(w) && db.inTx && !db.aborted && FreshIds(w, db.view, db.next) && FreshIds(w, db.durable, db.next)
    ensures var r := ProcessNoTx(w, db, account, m);
            var stored := UpsertEmailMessage(w, db, m).db;
            if StoredNow(w, db, m) then
              && r == RecordAndSuggest(w, stored, account, m) && stored.next == db.next && stored.durable == db.durable
              && !stored.aborted && m.id !in db.view.messages && NewMailOutcome(w, db.view, stored, account, m, r)
            else
              && r.db == db.(calls := r.db.calls, aborted := r.db.aborted)
              && (r.Ok? ==> !r.db.aborted && r.value == Outcome(false, false, 0) && m.id in db.view.messages)
  {
    var up := UpsertEmailMessage(w, db, m);
    if up.Ok? && up.value {
      NewMailEffect(w, db.view, up.db, account, m);
    }
  }

  /** Whether this call of Process records an activity, durably, before anything else can fail. */
  predicate RecordsActivity(w: World, db: Db, account: Account, m: Message) {
    var begun := Begin(w, db);
    && begun.Ok?
    && StoredNow(w, begun.db, m)
    && ActivityCommitted(w, UpsertEmailMessage(w, begun.db, m).db, account, m)
  }

  /** The people such an activity is linked to. */
  function RecordedFor(w: World, db: Db, account: Account, m: Message): set<Id> {
    MatchedPeople(w, UpsertEmailMessage(w, Begin(w, db).db, m).db, account, m)
  }

  /**
   One fetched message, any store call failing: it is new, already stored, or failed.
   A new one leaves exactly the rows it reports. A stored one leaves everything as it
   was. A failed one does too, unless its activity had been recorded: that activity
   and its links then stay although the message was rolled back.
   */
  lemma ProcessEffect(w: World, db: Db, account: Account, m: Message)
    requires ValidWorld(w) && Idle(db) && FreshIds(w, db.durable, db.next)
    ensures var r := Process(w, db, account, m);
            var people := RecordedFor(w, db, account, m);
            && Idle(r.db) && db.next <= r.db.next && FreshIds(w, r.db.durable, r.db.next)
            && (r.Ok? ==>
                && r.value.created == (m.id !in db.durable.messages)
                && (!r.value.created ==> r.value == Outcome(false, false, 0) && r.db.durable == db.durable)
                && (r.value.created ==>
                    && r.value.linked == RecordsActivity(w, db, account, m)
                    && Ingested(db.durable, r.db.durable, m, r.value.linked, w.uuid(db.next), people, r.value.suggestions)))
            && (r.Err? ==>
                r.db.durable == if RecordsActivity(w, db, account, m)
                                then WithNewActivity(db.durable, w.uuid(db.next), Recorded(m), people)
                                else db.durable)
  {
    var begun := Begin(w, db);
    if begun.Ok? {
      ProcessNoTxEffect(w, begun.db, account, m);
      FinishOutcome(w, ProcessNoTx(w, begun.db, account, m));
    }
  }

  /** A transaction ends idle: committed with what it saw, or with what was durable anyway. */
  lemma FinishOutcome<T>(w: World, r: Result<T>)
    requires r.db.inTx
    ensures var f := Finish(w, r);
            && Idle(f.db) && f.db.next == r.db.next
            && (f.Ok? ==> r.Ok? && f.value == r.value && f.db.durable == r.db.view)
            && (f.Err? ==> f.db.durable == r.db.durable)
  {
  }
}
