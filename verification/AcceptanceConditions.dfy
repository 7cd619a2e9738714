/**
 When accepting a contact suggestion works at all. The policies of the production
 database check an activity's links in the transaction that creates the activity,
 and that one cannot see the person the acceptance has just created.
 */
module AcceptanceConditions {
  import opened Wrappers
  import opened Text
  import opened CrmTables
  import opened CrmQueries
  import opened EmailSyncProofs
  import opened SyncAccounting
  import opened Suggestions
  import opened HistoricalMail
  import opened Acceptance
  import EmailSync

  /** No store call fails by itself. */
  ghost predicate Quiet(w: World) {
    forall n :: !w.fails(n)
  }

  ghost predicate Running(db: Db) {
    db.inTx && !db.aborted
  }

  /** The transaction that creates an activity may link it to the person. */
  predicate Visible(w: World, db: Db, person: Id) {
    !w.policies || person in db.durable.people
  }

  lemma QuietLinkRow(w: World, db: Db, person: Id, row: Row)
    requires Quiet(w) && Running(db)
    requires ValidWorld(w) && row.message.id != "" && Trimmed(row.message.id)
    requires row.activity.Some? ==> row.activity.value in db.view.activities
    ensures var r := LinkAndTouch(w, db, person, row);
            && (r.Ok? <==> row.activity.Some? || Visible(w, db, person))
            && (r.Ok? ==>
                && Running(r.db) && r.db.durable.people == db.durable.people
                && db.view.activities.Keys <= r.db.view.activities.Keys)
  {
    if row.activity.None? {
      QuietCreateForRow(w, db, person, row, HistoricalActivity(row.message));
    }
  }

  lemma QuietCreateForRow(w: World, db: Db, person: Id, row: Row, a: Activity)
    requires Quiet(w) && Running(db)
    requires ValidWorld(w) && row.message.id != "" && Trimmed(row.message.id)
    ensures var r := CreateForRow(w, db, person, row, a);
            && (r.Ok? <==> Visible(w, db, person))
            && (r.Ok? ==>
                && Running(r.db) && r.db.durable.people == db.durable.people
                && db.view.activities.Keys <= r.db.view.activities.Keys)
  {
    assert {person} <= db.durable.people.Keys <==> person in db.durable.people;
    CreateForRowIs(w, db, person, row, a);
  }

  lemma {:induction false} QuietLinkRows(w: World, db: Db, person: Id, rows: seq<Row>)
    requires ValidWorld(w) && Quiet(w) && Running(db)
    requires FreshIds(w, db.view, db.next) && FreshIds(w, db.durable, db.next)
    requires Consistent(db.view) && Listing(db.view, rows)
    ensures var r := LinkRows(w, db, person, rows);
            && (r.Ok? <==> Visible(w, db, person) || Unlinked(rows) == 0)
            && (r.Ok? ==> Running(r.db))
    decreases |rows|
  {
    if rows != [] {
      LinkRowsStep(w, db, person, rows);
      QuietLinkRow(w, db, person, rows[0]);
      LinkAndTouchEffect(w, db, person, rows);
      var first := LinkAndTouch(w, db, person, rows[0]);
      if first.Ok? {
        var linked := LinkRow(w, db, person, rows[0]).db;
        RowKeepsConsistent(db.view, linked.view, person, rows[0]);
        SamePointers(linked.view, first.db.view);
        QuietLinkRows(w, first.db, person, rows[1..]);
      }
    }
  }

  /** No row lacks an activity. */
  lemma {:induction false} NoneUnlinked(t: Tables, rows: seq<Row>)
    requires Listing(t, rows)
    ensures Unlinked(rows) == 0 <==> forall k :: k in Ids(rows) && k in t.messages ==> t.messages[k].activity.Some?
  {
    if rows != [] {
      NoneUnlinked(t, rows[1..]);
    }
  }

  /** Every message of the listing that is call number `call` has an activity. */
  ghost predicate ListedRecorded(w: World, t: Tables, call: nat, email: string) {
    forall k :: k in ListedMessages(w, t, call, email, HISTORY_LIMIT) && k in t.messages ==> t.messages[k].activity.Some?
  }

  lemma QuietHistory(w: World, db: Db, person: Id, email: string)
    requires ValidWorld(w) && Quiet(w) && Running(db)
    requires InsideTx(w, db) && Consistent(db.view)
    ensures var r := LinkHistoricalEmails(w, db, person, email);
            && (r.Ok? <==> Visible(w, db, person) || ListedRecorded(w, db.view, db.calls, email))
            && (r.Ok? ==> Running(r.db))
  {
    var rows := ListedRows(w, db, email);
    ListedIsListing(w, db, email);
    NoneUnlinked(db.view, rows);
    var listed := ListEmailMessagesForAddress(w, db, email, HISTORY_LIMIT);
    QuietLinkRows(w, listed.db, person, rows);
  }

  /** How many calls looking after the employer takes. */
  function EmployerCalls(t: Tables, domainName: string): nat {
    if domainName == "" then 0 else if CompaniesOf(t, domainName) == {} then 1 else 2
  }

  lemma QuietEmployer(w: World, db: Db, person: Id, email: string)
    requires ValidWorld(w) && Quiet(w) && Running(db)
    ensures var r := LinkEmployer(w, db, person, email);
            && r.Ok? && Running(r.db) && r.db.durable == db.durable
            && r.db.calls == db.calls + EmployerCalls(db.view, EmailSync.EmailDomain(email))
  {
    QuietEmployBy(w, db, person, EmailSync.EmailDomain(email));
  }

  lemma QuietEmployBy(w: World, db: Db, person: Id, domainName: string)
    requires ValidWorld(w) && Quiet(w) && Running(db)
    ensures var r := EmployBy(w, db, person, domainName);
            && r.Ok? && Running(r.db) && r.db.durable == db.durable
            && r.db.calls == db.calls + EmployerCalls(db.view, domainName)
  {
    CompanyFound(w, db, domainName);
  }

  /** The call that lists the history, when looking after the employer starts with call number `call`. */
  function ListingCall(t: Tables, call: nat, email: string): nat {
    call + EmployerCalls(t, EmailSync.EmailDomain(email))
  }

  /** Nothing under row-level security stands in the way of the history. */
  ghost predicate HistoryAllowed(w: World, t: Tables, call: nat, email: string) {
    !w.policies || ListedRecorded(w, t, ListingCall(t, call, email), email)
  }

  lemma QuietAfterPerson(w: World, db: Db, id: Id, person: Id, email: string)
    requires ValidWorld(w) && Quiet(w) && Running(db) && id in db.view.prompts
    requires InsideTx(w, db) && Consistent(db.view)
    ensures var r := AfterPerson(w, db, id, person, email);
            && (r.Ok? <==> person in db.durable.people || HistoryAllowed(w, db.view, db.calls, email))
            && (r.Ok? ==> Running(r.db))
  {
    EmployedStart(w, db, person, email);
    var employed := LinkEmployer(w, db, person, email).db;
    QuietHistory(w, employed, person, email);
    LinkHistoricalEmailsEffect(w, employed, person, email);
    QuietResolve(w, LinkHistoricalEmails(w, employed, person, email), id);
  }

  lemma EmployedStart(w: World, db: Db, person: Id, email: string)
    requires ValidWorld(w) && Quiet(w) && Running(db) && InsideTx(w, db) && Consistent(db.view)
    ensures var r := LinkEmployer(w, db, person, email);
            && r.Ok? && Running(r.db) && r.db.durable == db.durable && r.db.view.prompts == db.view.prompts
            && r.db.calls == ListingCall(db.view, db.calls, email)
            && InsideTx(w, r.db) && Consistent(r.db.view)
            && (ListedRecorded(w, r.db.view, r.db.calls, email) <==> ListedRecorded(w, db.view, r.db.calls, email))
  {
    QuietEmployer(w, db, person, email);
    LinkEmployerEffect(w, db, person, email);
    var employed := LinkEmployer(w, db, person, email).db;
    SamePointers(db.view, employed.view);
    SameListed(w, db.view, employed.view, employed.calls, email);
  }

  lemma {:induction false} SameOrder(t: Tables, u: Tables, ids: seq<string>)
    requires t.messages == u.messages
    ensures NewestFirst(t, ids) == NewestFirst(u, ids)
  {
    if ids != [] {
      SameOrder(t, u, ids[1..]);
      SamePlace(t, u, ids[0], NewestFirst(t, ids[1..]));
    }
  }

  lemma {:induction false} SamePlace(t: Tables, u: Tables, id: string, sorted: seq<string>)
    requires t.messages == u.messages
    ensures PutByTime(t, id, sorted) == PutByTime(u, id, sorted)
  {
    if sorted != [] {
      SamePlace(t, u, id, sorted[1..]);
    }
  }

  lemma SameListed(w: World, t: Tables, after: Tables, call: nat, email: string)
    requires after.messages == t.messages
    ensures ListedRecorded(w, after, call, email) <==> ListedRecorded(w, t, call, email)
  {
    assert Mentioning(after, email) == Mentioning(t, email);
    SameOrder(after, t, w.order(call, Mentioning(t, email)));
  }

  lemma QuietResolve(w: World, linked: Result<()>, id: Id)
    requires Quiet(w)
    ensures linked.Ok? && Running(linked.db) && id in linked.db.view.prompts ==>
              var r := ResolveAIPrompt(w, linked.db, id, Accepted); r.Ok? && Running(r.db)
  {
  }

  lemma QuietNewContact(w: World, db: Db, id: Id, email: string, person: Person, t: Tables, call: nat)
    requires ValidWorld(w) && Quiet(w) && Running(db) && id in db.view.prompts
    requires InsideTx(w, db) && Consistent(db.view) && t == db.view && call == db.calls + 1
    ensures var r := AcceptNewContact(w, db, id, email, person);
            && (r.Ok? <==> (person.firstName != "" || person.lastName != "") && HistoryAllowed(w, t, call, email))
            && (r.Ok? ==> Running(r.db) && r.value.created)
  {
    if person.firstName != "" || person.lastName != "" {
      QuietPerson(w, db, person, email, t, call);
      QuietAfterPerson(w, CreatePerson(w, db, person).db, id, w.uuid(db.next), email);
    }
  }

  lemma QuietPerson(w: World, db: Db, person: Person, email: string, t: Tables, call: nat)
    requires ValidWorld(w) && Quiet(w) && Running(db) && InsideTx(w, db) && Consistent(db.view)
    requires t == db.view && call == db.calls + 1
    ensures var created := CreatePerson(w, db, person);
            && created.Ok? && created.value == w.uuid(db.next) && Running(created.db) && InsideTx(w, created.db)
            && Consistent(created.db.view) && w.uuid(db.next) !in created.db.durable.people
            && created.db.view.prompts == db.view.prompts && created.db.calls == call
            && (HistoryAllowed(w, created.db.view, call, email) <==> HistoryAllowed(w, t, call, email))
  {
    var created := CreatePerson(w, db, person);
    WithPersonFresh(w, db.view, person, db.next);
    SamePointers(db.view, created.db.view);
    SameAllowed(w, t, created.db.view, call, email);
  }

  lemma SameListingCall(t: Tables, u: Tables, call: nat, email: string)
    requires u.companies == t.companies && u.domains == t.domains
    ensures ListingCall(u, call, email) == ListingCall(t, call, email)
  {
    SameEmployers(t, u, EmailSync.EmailDomain(email));
  }

  lemma SameAllowed(w: World, t: Tables, u: Tables, call: nat, email: string)
    requires u.messages == t.messages && u.companies == t.companies && u.domains == t.domains
    ensures HistoryAllowed(w, u, call, email) <==> HistoryAllowed(w, t, call, email)
  {
    SameListingCall(t, u, call, email);
    SameListed(w, t, u, ListingCall(t, call, email), email);
  }

  lemma SameEmployers(t: Tables, u: Tables, domainName: string)
    requires u.companies == t.companies && u.domains == t.domains
    ensures EmployerCalls(u, domainName) == EmployerCalls(t, domainName)
  {
    forall c ensures HasDomain(u, c, domainName) <==> HasDomain(t, c, domainName) {}
    assert CompaniesOf(u, domainName) == CompaniesOf(t, domainName);
  }

  /** The person is created: nobody answers, there is a name, and nothing stands in the way of the history. */
  ghost predicate Creates(w: World, t: Tables, call: nat, email: string, person: Person) {
    NewContactReady(t, email, person) && HistoryAllowed(w, t, call, email)
  }

  lemma QuietNamed(w: World, db: Db, id: Id, email: string, person: Person, t: Tables, call: nat)
    requires ValidWorld(w) && Quiet(w) && Running(db) && id in db.view.prompts
    requires InsideTx(w, db) && Consistent(db.view) && t == db.view && call == db.calls + 2
    ensures var r := AcceptNamed(w, db, id, email, person);
            && (r.Ok? ==> Running(r.db))
            && (r.Ok? && r.value.created <==> Creates(w, t, call, email, person))
  {
    if email != "" && Contains(email, "@") {
      PersonFound(w, db, email);
      var existing := FindPersonByEmail(w, db, email);
      if existing.value.None? {
        QuietNewContact(w, existing.db, id, email, person, t, call);
      } else {
        QuietResolve(w, Ok((), existing.db), id);
      }
    }
  }

  lemma QuietContact(w: World, db: Db, id: Id, p: Prompt, t: Tables, call: nat)
    requires ValidWorld(w) && Quiet(w) && Running(db) && id in db.view.prompts
    requires InsideTx(w, db) && Consistent(db.view) && t == db.view && call == db.calls + 2
    ensures var r := AcceptContact(w, db, id, p);
            && (r.Ok? ==> Running(r.db))
            && (r.Ok? && r.value.created <==> CreatesFor(w, t, call, p))
  {
    QuietNamed(w, db, id, SuggestionValue(w, p), SuggestedPerson(SuggestionValue(w, p), p.body), t, call);
  }

  ghost predicate CreatesFor(w: World, t: Tables, call: nat, p: Prompt) {
    Creates(w, t, call, SuggestionValue(w, p), SuggestedPerson(SuggestionValue(w, p), p.body))
  }

  /**
   With no failing store call, accepting an open contact suggestion creates the person exactly
   when nobody answers to the address, the suggestion names somebody, and, under row-level
   security, every message of the history it lists has an activity. The listing is the fifth call
   or, where an employer is looked for and linked, up to two later.
   */
  lemma AcceptCreatesContactIff(w: World, db: Db, id: Id)
    requires ValidWorld(w) && Quiet(w) && Healthy(w, db)
    requires id in db.durable.prompts && db.durable.prompts[id].status.Open? && db.durable.prompts[id].kind.NewContact?
    ensures var r := Accept(w, db, id);
            r.Ok? && r.value.created <==> CreatesFor(w, db.durable, db.calls + 4, db.durable.prompts[id])
  {
    var begun := Begin(w, db);
    var got := GetAIPrompt(w, begun.db, id);
    OpenContact(w, begun.db, id);
    QuietContact(w, got.db, id, got.value, db.durable, db.calls + 4);
    QuietFinish(w, AcceptNoTx(w, begun.db, id));
  }

  lemma OpenContact(w: World, db: Db, id: Id)
    requires Quiet(w) && Running(db) && id in db.view.prompts
    requires db.view.prompts[id].status.Open? && db.view.prompts[id].kind.NewContact?
    ensures var got := GetAIPrompt(w, db, id);
            && got.Ok? && got.value == db.view.prompts[id] && got.db == db.(calls := db.calls + 1)
            && AcceptNoTx(w, db, id) == AcceptContact(w, got.db, id, got.value)
  {
  }

  /** Every stored message that mentions the address has an activity. */
  ghost predicate HistoryRecorded(t: Tables, email: string) {
    forall k :: k in t.messages && Mentions(t.messages[k].message, email) ==> t.messages[k].activity.Some?
  }

  lemma FewAreListed(w: World, t: Tables, call: nat, email: string)
    requires ValidWorld(w) && |Mentioning(t, email)| <= HISTORY_LIMIT
    ensures ListedRecorded(w, t, call, email) <==> HistoryRecorded(t, email)
  {
    ListedAreNewest(w, t, call, email, HISTORY_LIMIT);
    assert forall k :: k in ListedMessages(w, t, call, email, HISTORY_LIMIT) <==> k in Mentioning(t, email);
  }

  /** With at most 200 messages of the address, that is about all of them. */
  lemma AcceptCreatesContactOfFew(w: World, db: Db, id: Id)
    requires ValidWorld(w) && Quiet(w) && Healthy(w, db)
    requires id in db.durable.prompts && db.durable.prompts[id].status.Open? && db.durable.prompts[id].kind.NewContact?
    requires |Mentioning(db.durable, SuggestionValue(w, db.durable.prompts[id]))| <= HISTORY_LIMIT
    ensures var p, r := db.durable.prompts[id], Accept(w, db, id);
            var email := SuggestionValue(w, p);
            r.Ok? && r.value.created <==>
              && NewContactReady(db.durable, email, SuggestedPerson(email, p.body))
              && (!w.policies || HistoryRecorded(db.durable, email))
  {
    var email := SuggestionValue(w, db.durable.prompts[id]);
    AcceptCreatesContactIff(w, db, id);
    FewAreListed(w, db.durable, ListingCall(db.durable, db.calls + 4, email), email);
  }

  lemma QuietFinish<T>(w: World, r: Result<T>)
    requires Quiet(w) && (r.Ok? ==> Running(r.db))
    ensures var f := Finish(w, r); (f.Ok? <==> r.Ok?) && (f.Ok? ==> f.value == r.value)
  {
  }
}
