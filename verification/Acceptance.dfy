/**
 What accepting, linking, suppressing and deleting do to the tables, whichever
 store call fails.
 */
module Acceptance {
  import opened Wrappers
  import opened Text
  import opened CrmTables
  import opened CrmQueries
  import opened EmailSyncProofs
  import opened SyncAccounting
  import opened Suggestions
  import opened HistoricalMail
  import EmailSync
  import SB = SuggestionBody

  /** What every step needs from the database, and leaves. */
  ghost predicate Healthy(w: World, db: Db) {
    Sound(w, db) && WellKeyed(db.durable)
  }

  ghost predicate InsideTx(w: World, db: Db) {
    db.inTx && FreshIds(w, db.view, db.next) && FreshIds(w, db.durable, db.next) && WellKeyed(db.view)
  }

  /** A part of a transaction that writes only activities durably. */
  ghost predicate LeavesActivities(w: World, db: Db, after: Db) {
    after.inTx && ActivitiesAdded(w, db.durable, after.durable, db.next, after.next)
  }

  lemma NothingLeft(w: World, db: Db, after: Db)
    requires after.inTx && after.durable == db.durable && db.next <= after.next
    ensures LeavesActivities(w, db, after)
  {
  }

  lemma LeavesTwice(w: World, a: Db, b: Db, c: Db)
    requires LeavesActivities(w, a, b) && LeavesActivities(w, b, c)
    ensures LeavesActivities(w, a, c)
  {
    ActivitiesAddedTwice(w, a.durable, b.durable, c.durable, a.next, b.next, c.next);
  }

  lemma LinkEmployerEffect(w: World, db: Db, person: Id, email: string)
    requires db.inTx
    ensures var r := LinkEmployer(w, db, person, email);
            && Contained(db, r.db) && r.db.next == db.next
            && r.db.view == db.view.(employments := r.db.view.employments)
  {
    EmployByEffect(w, db, person, EmailSync.EmailDomain(email));
  }

  lemma EmployByEffect(w: World, db: Db, person: Id, domainName: string)
    requires db.inTx
    ensures var r := EmployBy(w, db, person, domainName);
            && Contained(db, r.db) && r.db.next == db.next
            && r.db.view == db.view.(employments := r.db.view.employments)
  {
  }

  /** The person works for a company of the domain, if there is one, and nobody else starts or stops. */
  ghost predicate Employed(t: Tables, after: Tables, person: Id, domainName: string) {
    if domainName == "" || CompaniesOf(t, domainName) == {} then after.employments == t.employments
    else exists c :: c in CompaniesOf(t, domainName) && after.employments == t.employments + {(person, c)}
  }

  /** In a transaction that goes on, the person works for a company of the address's domain if and only if there is one. */
  lemma EmployerExactly(w: World, db: Db, person: Id, email: string)
    requires ValidWorld(w) && db.inTx
    ensures var r := LinkEmployer(w, db, person, email);
            r.Ok? && !r.db.aborted ==> Employed(db.view, r.db.view, person, EmailSync.EmailDomain(email))
  {
    EmployedByOwner(w, db, person, EmailSync.EmailDomain(email));
  }

  lemma EmployedByOwner(w: World, db: Db, person: Id, domainName: string)
    requires ValidWorld(w) && db.inTx
    ensures var r := EmployBy(w, db, person, domainName);
            r.Ok? && !r.db.aborted ==> Employed(db.view, r.db.view, person, domainName)
  {
    CompanyFound(w, db, domainName);
  }

  function Resolved(t: Tables, id: Id, status: Status): map<Id, Prompt>
    requires id in t.prompts
  {
    t.prompts[id := t.prompts[id].(status := status)]
  }

  // ----- accepting a contact -----

  /** The tables once the new person exists. */
  function WithPerson(t: Tables, person: Id, p: Person): Tables {
    t.(people := t.people[person := p])
  }

  /** A new person took over the history of the address and has an employer, and the prompt is accepted. */
  ghost predicate ContactAccepted(t: Tables, after: Tables, id: Id, person: Id, p: Person, email: string) {
    && id in t.prompts && person !in t.people
    && after == t.(messages := after.messages, activities := after.activities, links := after.links,
                   people := after.people, employments := after.employments, prompts := Resolved(t, id, Accepted))
    && TakesHistory(WithPerson(t, person, p), after, person, email)
    && Employed(t, after, person, EmailSync.EmailDomain(email))
  }

  lemma WithPersonFresh(w: World, t: Tables, p: Person, next: nat)
    requires ValidWorld(w) && FreshIds(w, t, next)
    ensures FreshIds(w, WithPerson(t, w.uuid(next), p), next + 1)
  {
    forall i: nat | i >= next + 1
      ensures w.uuid(i) !in WithPerson(t, w.uuid(next), p).people
    {
      assert w.uuid(i) != w.uuid(next);
    }
  }

  /** The person took over the history of the address and has an employer, and the prompt is accepted. */
  ghost predicate PersonSettled(t: Tables, after: Tables, id: Id, person: Id, email: string) {
    && id in t.prompts
    && after == t.(messages := after.messages, activities := after.activities, links := after.links,
                   people := after.people, employments := after.employments, prompts := Resolved(t, id, Accepted))
    && TakesHistory(t, after, person, email)
    && Employed(t, after, person, EmailSync.EmailDomain(email))
  }

  ghost predicate AfterPersonOutcome(w: World, db: Db, id: Id, person: Id, email: string, r: Result<()>) {
    && LeavesActivities(w, db, r.db)
    && (r.Ok? ==> FreshIds(w, r.db.view, r.db.next) && PersonSettled(db.view, r.db.view, id, person, email))
  }

  lemma HistoryFrame(t: Tables, u: Tables, after: Tables, after': Tables, person: Id, rows: seq<Row>)
    requires History(t, after, person, rows)
    requires u == t.(employments := u.employments, prompts := u.prompts)
    requires after' == after.(employments := after'.employments, prompts := after'.prompts)
    ensures History(u, after', person, rows)
  {
    forall k | k in Ids(rows)
      ensures IsLinked(after', k, person)
    {
      assert IsLinked(after, k, person);
    }
    forall k | k in u.messages
      ensures KeptRow(u, after', k)
    {
      assert KeptRow(t, after, k);
    }
    forall a | a in after'.activities && a !in u.activities
      ensures PointedByListed(u, after', a)
    {
      assert PointedByListed(t, after, a);
      ToldFrame(t, u, after, after', a);
    }
    SamePointers(u, t);
    SamePointers(after, after');
  }

  lemma ToldFrame(t: Tables, u: Tables, after: Tables, after': Tables, a: Id)
    requires t.messages == u.messages && after.messages == after'.messages && after.activities == after'.activities
    requires PointedByListed(t, after, a)
    ensures PointedByListed(u, after', a)
  {
    var k :| NewlyTold(t, after, k, a);
    assert NewlyTold(u, after', k, a);
  }

  lemma TakesHistoryFrame(t: Tables, u: Tables, after: Tables, after': Tables, person: Id, email: string)
    requires TakesHistory(t, after, person, email)
    requires u == t.(employments := u.employments, prompts := u.prompts)
    requires after' == after.(employments := after'.employments, prompts := after'.prompts)
    ensures TakesHistory(u, after', person, email)
  {
    var ids :| NewestHistory(t, email, ids) && History(t, after, person, RowsOf(t, ids));
    SameNewestHistory(t, u, email, ids);
    HistoryFrame(t, u, after, after', person, RowsOf(t, ids));
  }

  /** Once an ignored error has aborted the transaction, the history cannot be read. */
  lemma HistoryNeedsRunning(w: World, db: Db, person: Id, email: string)
    ensures LinkHistoricalEmails(w, db, person, email).Ok? ==> !db.aborted
  {
  }

  /** What follows once the employer is looked after. */
  function AfterEmployer(w: World, employed: Db, id: Id, person: Id, email: string): Result<()> {
    var linked := LinkHistoricalEmails(w, employed, person, email);
    if linked.Err? then Err(linked.db) else ResolveAIPrompt(w, linked.db, id, Accepted)
  }

  lemma AfterEmployerEffect(w: World, db: Db, employed: Db, id: Id, person: Id, email: string)
    requires ValidWorld(w) && InsideTx(w, db)
    requires Contained(db, employed) && employed.next == db.next
    requires employed.view == db.view.(employments := employed.view.employments)
    requires !employed.aborted ==> Employed(db.view, employed.view, person, EmailSync.EmailDomain(email))
    ensures AfterPersonOutcome(w, db, id, person, email, AfterEmployer(w, employed, id, person, email))
  {
    NothingLeft(w, db, employed);
    LinkHistoricalEmailsEffect(w, employed, person, email);
    var linked := LinkHistoricalEmails(w, employed, person, email);
    LeavesTwice(w, db, employed, linked.db);
    if linked.Ok? {
      HistoryNeedsRunning(w, employed, person, email);
      ResolveEffect(w, db, employed, linked.db, id, person, email);
    }
  }

  lemma AfterPersonEffect(w: World, db: Db, id: Id, person: Id, email: string)
    requires ValidWorld(w) && InsideTx(w, db)
    ensures AfterPersonOutcome(w, db, id, person, email, AfterPerson(w, db, id, person, email))
  {
    LinkEmployerEffect(w, db, person, email);
    EmployerExactly(w, db, person, email);
    var employed := LinkEmployer(w, db, person, email);
    if employed.Ok? {
      AfterEmployerEffect(w, db, employed.db, id, person, email);
      assert AfterPerson(w, db, id, person, email) == AfterEmployer(w, employed.db, id, person, email);
    } else {
      NothingLeft(w, db, employed.db);
    }
  }

  lemma ResolveWrites(w: World, db: Db, id: Id, status: Status)
    ensures var r := ResolveAIPrompt(w, db, id, status);
            && r.db.next == db.next
            && (db.inTx ==> r.db.inTx && r.db.durable == db.durable)
            && (r.Ok? ==>
                && id in db.view.prompts && r.db.inTx == db.inTx && r.db.aborted == db.aborted
                && r.db.view == db.view.(prompts := Resolved(db.view, id, status)))
  {
  }

  lemma ResolveEffect(w: World, db: Db, employed: Db, linked: Db, id: Id, person: Id, email: string)
    requires LeavesActivities(w, db, linked) && FreshIds(w, linked.view, linked.next)
    requires employed.view == db.view.(employments := employed.view.employments)
    requires Employed(db.view, employed.view, person, EmailSync.EmailDomain(email))
    requires TakesHistory(employed.view, linked.view, person, email)
    requires linked.view == employed.view.(messages := linked.view.messages, activities := linked.view.activities,
                                           links := linked.view.links, people := linked.view.people)
    ensures AfterPersonOutcome(w, db, id, person, email, ResolveAIPrompt(w, linked, id, Accepted))
  {
    ResolveWrites(w, linked, id, Accepted);
    var r := ResolveAIPrompt(w, linked, id, Accepted);
    NothingLeft(w, linked, r.db);
    LeavesTwice(w, db, linked, r.db);
    if r.Ok? {
      ResolvedFresh(w, linked.view, id, linked.next);
      ResolvedHistory(db.view, employed.view, linked.view, id, person, email);
    }
  }

  lemma ResolvedHistory(t: Tables, employed: Tables, linked: Tables, id: Id, person: Id, email: string)
    requires employed == t.(employments := employed.employments)
    requires linked == employed.(messages := linked.messages, activities := linked.activities,
                                 links := linked.links, people := linked.people)
    requires TakesHistory(employed, linked, person, email) && Employed(t, employed, person, EmailSync.EmailDomain(email))
    requires id in t.prompts
    ensures PersonSettled(t, linked.(prompts := Resolved(linked, id, Accepted)), id, person, email)
  {
    TakesHistoryFrame(employed, t, linked, linked.(prompts := Resolved(linked, id, Accepted)), person, email);
  }

  // ----- the four ways to accept -----

  /** The record exists already: only the prompt changes. */
  ghost predicate ExistingAccepted(t: Tables, after: Tables, id: Id) {
    id in t.prompts && after == t.(prompts := Resolved(t, id, Accepted))
  }

  ghost predicate DealAccepted(t: Tables, after: Tables, id: Id, activity: Id, deal: Id) {
    && id in t.prompts && activity in t.activities
    && after == t.(links := t.links + {Link(activity, DealEntity(deal))}, prompts := Resolved(t, id, Accepted))
  }

  ghost predicate CompanyAccepted(t: Tables, after: Tables, id: Id, company: Id, c: Company) {
    && id in t.prompts && company !in t.companies
    && after == t.(companies := t.companies[company := c], prompts := Resolved(t, id, Accepted))
  }

  /** A contact is new when nobody answers to the address and the mail named somebody. */
  predicate NewContactReady(t: Tables, email: string, p: Person) {
    && email != "" && Contains(email, "@")
    && Answering(t, email) == {}
    && (p.firstName != "" || p.lastName != "")
  }

  /** A company is new when nobody owns the domain and a name is left of it. */
  predicate NewCompanyReady(t: Tables, domainName: string) {
    domainName != "" && CompaniesOf(t, domainName) == {} && CompanyName(domainName) != ""
  }

  function NewCompanyOf(domainName: string): Company {
    Company(CompanyName(domainName), Normal(domainName))
  }

  /**
   What accepting a suggestion does, and answers: an existing record only closes the prompt, and
   is one the address or the domain leads to; a new one was called for, and its id is the answer.
   */
  ghost predicate AcceptedView(w: World, t: Tables, after: Tables, id: Id, p: Prompt, next: nat, answer: AcceptResult) {
    match p.kind
    case NewContact => ContactView(w, t, after, id, SuggestionValue(w, p), p.body, next, answer)
    case EmailDealLink =>
      && p.deal.Some? && answer == AcceptResult(false, p.deal.value)
      && DealAccepted(t, after, id, SuggestionValue(w, p), p.deal.value)
    case NewCompany => CompanyView(w, t, after, id, SuggestionValue(w, p), next, answer)
    case OtherKind => false
  }

  ghost predicate ContactView(w: World, t: Tables, after: Tables, id: Id, email: string, body: string, next: nat,
                              answer: AcceptResult) {
    && email != "" && Contains(email, "@")
    && if answer.created then
         && answer.id == w.uuid(next) && NewContactReady(t, email, SuggestedPerson(email, body))
         && ContactAccepted(t, after, id, answer.id, SuggestedPerson(email, body), email)
       else answer.id in Answering(t, email) && ExistingAccepted(t, after, id)
  }

  ghost predicate CompanyView(w: World, t: Tables, after: Tables, id: Id, domainName: string, next: nat, answer: AcceptResult) {
    && domainName != ""
    && if answer.created then
         && answer.id == w.uuid(next) && NewCompanyReady(t, domainName)
         && CompanyAccepted(t, after, id, answer.id, NewCompanyOf(domainName))
       else answer.id in CompaniesOf(t, domainName) && ExistingAccepted(t, after, id)
  }

  ghost predicate AcceptOutcome(w: World, db: Db, id: Id, p: Prompt, r: Result<AcceptResult>) {
    && LeavesActivities(w, db, r.db)
    && (r.Ok? && !r.db.aborted ==>
        FreshIds(w, r.db.view, r.db.next) && AcceptedView(w, db.view, r.db.view, id, p, db.next, r.value))
  }

  /** Closing the prompt of an existing record; its error is ignored, but aborts the transaction. */
  lemma ExistingOutcome(w: World, db: Db, id: Id)
    requires InsideTx(w, db) && id in db.view.prompts
    ensures var after := Ignore(ResolveAIPrompt(w, db, id, Accepted));
            && LeavesActivities(w, db, after)
            && (!after.aborted ==> FreshIds(w, after.view, after.next) && ExistingAccepted(db.view, after.view, id))
  {
    ResolveWrites(w, db, id, Accepted);
    NothingLeft(w, db, ResolveAIPrompt(w, db, id, Accepted).db);
  }

  lemma DealOutcome(w: World, db: Db, id: Id, p: Prompt)
    requires ValidWorld(w) && InsideTx(w, db) && p.kind.EmailDealLink?
    ensures AcceptOutcome(w, db, id, p, AcceptDealLink(w, db, id, p))
  {
    var activity := SuggestionValue(w, p);
    var r := AcceptDealLink(w, db, id, p);
    NothingLeft(w, db, db);
    if p.deal.Some? && activity != "" {
      var linked := LinkActivity(w, db, activity, DealEntity(p.deal.value));
      NothingLeft(w, db, linked.db);
      if linked.Ok? {
        var queried := Query(w, linked.db, ());
        NothingLeft(w, db, queried.db);
        if queried.Ok? {
          DealResolved(w, db, queried.db, id, p);
        }
      }
    }
  }

  lemma DealResolved(w: World, db: Db, linked: Db, id: Id, p: Prompt)
    requires ValidWorld(w) && InsideTx(w, db) && p.kind.EmailDealLink? && p.deal.Some?
    requires SuggestionValue(w, p) in db.view.activities
    requires linked == db.(calls := linked.calls, view := linked.view)
    requires linked.view == db.view.(links := db.view.links + {Link(SuggestionValue(w, p), DealEntity(p.deal.value))})
    ensures var r := ResolveAIPrompt(w, linked, id, Accepted);
            AcceptOutcome(w, db, id, p, if r.Ok? then Ok(AcceptResult(false, p.deal.value), r.db) else Err(r.db))
  {
    DealStored(w, db, linked, id, SuggestionValue(w, p), p.deal.value);
  }

  lemma DealStored(w: World, db: Db, linked: Db, id: Id, activity: Id, deal: Id)
    requires InsideTx(w, db) && activity in db.view.activities
    requires linked == db.(calls := linked.calls, view := linked.view)
    requires linked.view == db.view.(links := db.view.links + {Link(activity, DealEntity(deal))})
    ensures var r := ResolveAIPrompt(w, linked, id, Accepted);
            && LeavesActivities(w, db, r.db)
            && (r.Ok? ==> FreshIds(w, r.db.view, r.db.next) && DealAccepted(db.view, r.db.view, id, activity, deal))
  {
    ResolveWrites(w, linked, id, Accepted);
    var r := ResolveAIPrompt(w, linked, id, Accepted);
    NothingLeft(w, db, r.db);
    if r.Ok? {
      LinkedDealFresh(w, db.view, linked.view, activity, deal, db.next);
      ResolvedFresh(w, linked.view, id, db.next);
    }
  }

  lemma LinkedDealFresh(w: World, t: Tables, u: Tables, activity: Id, deal: Id, next: nat)
    requires FreshIds(w, t, next) && activity in t.activities
    requires u == t.(links := t.links + {Link(activity, DealEntity(deal))})
    ensures FreshIds(w, u, next)
  {
    forall i: nat | i >= next
      ensures forall l :: l in u.links ==> l.activity != w.uuid(i)
    {
      assert w.uuid(i) !in t.activities;
    }
  }

  lemma CompanyOutcome(w: World, db: Db, id: Id, p: Prompt)
    requires ValidWorld(w) && InsideTx(w, db) && p.kind.NewCompany? && id in db.view.prompts
    ensures AcceptOutcome(w, db, id, p, AcceptCompany(w, db, id, p))
  {
    var domainName := SuggestionValue(w, p);
    NothingLeft(w, db, db);
    if domainName != "" {
      var existing := FindCompanyByDomain(w, db, domainName);
      CompanyFound(w, db, domainName);
      NothingLeft(w, db, existing.db);
      if existing.Ok? {
        if existing.value.Some? {
          ExistingOutcome(w, existing.db, id);
        } else {
          NewCompanyOutcome(w, db, existing.db, id, p, domainName);
        }
      }
    }
  }

  lemma NewCompanyOutcome(w: World, db: Db, read: Db, id: Id, p: Prompt, domainName: string)
    requires ValidWorld(w) && InsideTx(w, db) && p.kind.NewCompany?
    requires OnlyRead(db, read) && domainName == SuggestionValue(w, p)
    requires domainName != "" && CompaniesOf(db.view, domainName) == {}
    ensures AcceptOutcome(w, db, id, p, AcceptNewCompany(w, read, id, domainName))
  {
    NothingLeft(w, db, read);
    if CompanyName(domainName) != "" {
      var c := NewCompanyOf(domainName);
      var created := CreateCompany(w, read, c);
      NothingLeft(w, db, created.db);
      if created.Ok? {
        CompanyResolved(w, db, created.db, id, p, domainName);
      }
    }
  }

  lemma CompanyStored(w: World, db: Db, created: Db, id: Id, c: Company)
    requires ValidWorld(w) && InsideTx(w, db)
    requires created.view == db.view.(companies := db.view.companies[w.uuid(db.next) := c])
    requires created.durable == db.durable && created.inTx && created.next == db.next + 1
    ensures var r := ResolveAIPrompt(w, created, id, Accepted);
            && LeavesActivities(w, db, r.db)
            && (r.Ok? ==> FreshIds(w, r.db.view, r.db.next) && CompanyAccepted(db.view, r.db.view, id, w.uuid(db.next), c))
  {
    ResolveWrites(w, created, id, Accepted);
    var r := ResolveAIPrompt(w, created, id, Accepted);
    NothingLeft(w, db, r.db);
    if r.Ok? {
      WithCompanyFresh(w, db.view, c, db.next);
      ResolvedFresh(w, created.view, id, db.next + 1);
    }
  }

  lemma NewCompanyIsAccepted(w: World, t: Tables, after: Tables, id: Id, p: Prompt, domainName: string, next: nat)
    requires p.kind.NewCompany? && domainName == SuggestionValue(w, p) && NewCompanyReady(t, domainName)
    requires CompanyAccepted(t, after, id, w.uuid(next), NewCompanyOf(domainName))
    ensures AcceptedView(w, t, after, id, p, next, AcceptResult(true, w.uuid(next)))
  {
  }

  lemma CompanyResolved(w: World, db: Db, created: Db, id: Id, p: Prompt, domainName: string)
    requires ValidWorld(w) && InsideTx(w, db) && p.kind.NewCompany?
    requires domainName == SuggestionValue(w, p) && NewCompanyReady(db.view, domainName)
    requires created.view == db.view.(companies := db.view.companies[w.uuid(db.next) := NewCompanyOf(domainName)])
    requires created.durable == db.durable && created.inTx && created.next == db.next + 1
    ensures var r := ResolveAIPrompt(w, created, id, Accepted);
            AcceptOutcome(w, db, id, p, if r.Ok? then Ok(AcceptResult(true, w.uuid(db.next)), r.db) else Err(r.db))
  {
    CompanyStored(w, db, created, id, NewCompanyOf(domainName));
    var r := ResolveAIPrompt(w, created, id, Accepted);
    if r.Ok? {
      NewCompanyIsAccepted(w, db.view, r.db.view, id, p, domainName, db.next);
    }
  }

  lemma WithCompanyFresh(w: World, t: Tables, c: Company, next: nat)
    requires ValidWorld(w) && FreshIds(w, t, next)
    ensures FreshIds(w, t.(companies := t.companies[w.uuid(next) := c]), next + 1)
  {
    forall i: nat | i >= next + 1
      ensures w.uuid(i) !in t.companies[w.uuid(next) := c]
    {
      assert w.uuid(i) != w.uuid(next);
    }
  }

  lemma ResolvedFresh(w: World, t: Tables, id: Id, next: nat)
    requires FreshIds(w, t, next) && id in t.prompts
    ensures FreshIds(w, t.(prompts := Resolved(t, id, Accepted)), next)
  {
  }

  lemma ContactOutcome(w: World, db: Db, id: Id, p: Prompt)
    requires ValidWorld(w) && InsideTx(w, db) && p.kind.NewContact? && id in db.view.prompts
    ensures AcceptOutcome(w, db, id, p, AcceptContact(w, db, id, p))
  {
    var email := SuggestionValue(w, p);
    NothingLeft(w, db, db);
    if email != "" && Contains(email, "@") {
      var existing := FindPersonByEmail(w, db, email);
      PersonFound(w, db, email);
      NothingLeft(w, db, existing.db);
      if existing.Ok? {
        if existing.value.Some? {
          ExistingOutcome(w, existing.db, id);
        } else {
          NewContactOutcome(w, db, existing.db, id, email, SuggestedPerson(email, p.body));
          NewContactIsAccepted(w, db, id, p, AcceptContact(w, db, id, p));
        }
      }
    }
  }

  /** A person was created for the address and took over its history. */
  ghost predicate CreatedOutcome(w: World, db: Db, id: Id, email: string, person: Person, r: Result<AcceptResult>) {
    && LeavesActivities(w, db, r.db)
    && (r.Ok? && !r.db.aborted ==>
        && (person.firstName != "" || person.lastName != "")
        && FreshIds(w, r.db.view, r.db.next) && r.value == AcceptResult(true, w.uuid(db.next))
        && ContactAccepted(db.view, r.db.view, id, w.uuid(db.next), person, email))
  }

  lemma NewContactIsAccepted(w: World, db: Db, id: Id, p: Prompt, r: Result<AcceptResult>)
    requires p.kind.NewContact?
    requires var email := SuggestionValue(w, p);
             && email != "" && Contains(email, "@") && Answering(db.view, email) == {}
             && CreatedOutcome(w, db, id, email, SuggestedPerson(email, p.body), r)
    ensures AcceptOutcome(w, db, id, p, r)
  {
  }

  lemma NewContactOutcome(w: World, db: Db, read: Db, id: Id, email: string, person: Person)
    requires ValidWorld(w) && InsideTx(w, db) && OnlyRead(db, read)
    ensures CreatedOutcome(w, db, id, email, person, AcceptNewContact(w, read, id, email, person))
  {
    NothingLeft(w, db, read);
    if person.firstName != "" || person.lastName != "" {
      var created := CreatePerson(w, read, person);
      NothingLeft(w, db, created.db);
      if created.Ok? {
        PersonCreatedOutcome(w, db, created.db, id, email, person);
      }
    }
  }

  lemma PersonCreatedOutcome(w: World, db: Db, created: Db, id: Id, email: string, person: Person)
    requires ValidWorld(w) && InsideTx(w, db) && (person.firstName != "" || person.lastName != "")
    requires created == db.(calls := created.calls, next := db.next + 1, aborted := created.aborted,
                            view := WithPerson(db.view, w.uuid(db.next), person))
    ensures var r := AfterPerson(w, created, id, w.uuid(db.next), email);
            CreatedOutcome(w, db, id, email, person, if r.Ok? then Ok(AcceptResult(true, w.uuid(db.next)), r.db) else Err(r.db))
  {
    WithPersonFresh(w, db.view, person, db.next);
    NothingLeft(w, db, created);
    AfterPersonEffect(w, created, id, w.uuid(db.next), email);
    var r := AfterPerson(w, created, id, w.uuid(db.next), email);
    LeavesTwice(w, db, created, r.db);
    if r.Ok? {
      assert CompaniesOf(created.view, EmailSync.EmailDomain(email)) == CompaniesOf(db.view, EmailSync.EmailDomain(email));
    }
  }

  lemma AcceptNoTxOutcome(w: World, db: Db, id: Id)
    requires ValidWorld(w) && InsideTx(w, db)
    ensures var r := AcceptNoTx(w, db, id);
            && LeavesActivities(w, db, r.db)
            && (r.Ok? ==> id in db.view.prompts && db.view.prompts[id].status.Open?
                          && AcceptOutcome(w, db, id, db.view.prompts[id], r))
  {
    var got := GetAIPrompt(w, db, id);
    NothingLeft(w, db, got.db);
    if got.Ok? && got.value.status.Open? {
      match got.value.kind
      case NewContact => ContactOutcome(w, got.db, id, got.value);
      case EmailDealLink => DealOutcome(w, got.db, id, got.value);
      case NewCompany => CompanyOutcome(w, got.db, id, got.value);
      case OtherKind =>
    }
  }

  // ----- whole requests -----

  /**
   Accepting a suggestion, any store call failing. Success changes the tables in the way that
   fits the prompt. Failure rolls back everything but activities already recorded.
   */
  lemma AcceptEffect(w: World, db: Db, id: Id)
    requires ValidWorld(w) && Healthy(w, db)
    ensures var r := Accept(w, db, id);
            && Idle(r.db)
            && (r.Err? ==> ActivitiesAdded(w, db.durable, r.db.durable, db.next, r.db.next))
            && (r.Ok? ==>
                && db.next <= r.db.next && FreshIds(w, r.db.durable, r.db.next)
                && id in db.durable.prompts && db.durable.prompts[id].status.Open?
                && AcceptedView(w, db.durable, r.db.durable, id, db.durable.prompts[id], db.next, r.value))
  {
    var begun := Begin(w, db);
    if begun.Ok? {
      AcceptNoTxOutcome(w, begun.db, id);
      FinishOutcome(w, AcceptNoTx(w, begun.db, id));
    } else {
      assert ActivitiesAdded(w, db.durable, db.durable, db.next, db.next);
    }
  }

  /**
   The created person takes over the history of the address: his last touch is the latest of all
   messages that mention it; with at most 200 of them each is linked to him.
   */
  lemma AcceptTakesHistory(w: World, db: Db, id: Id)
    requires ValidWorld(w) && Healthy(w, db)
    requires Accept(w, db, id).Ok? && Accept(w, db, id).value.created
    requires id in db.durable.prompts && db.durable.prompts[id].kind.NewContact?
    ensures var r := Accept(w, db, id);
            HistoryCovered(db.durable, r.db.durable, r.value.id, None, SuggestionValue(w, db.durable.prompts[id]))
  {
    AcceptEffect(w, db, id);
    var p, r := db.durable.prompts[id], Accept(w, db, id);
    var email := SuggestionValue(w, p);
    var u := WithPerson(db.durable, r.value.id, SuggestedPerson(email, p.body));
    HistoryTaken(u, r.db.durable, r.value.id, email);
    SameMailCovered(db.durable, u, r.db.durable, r.value.id, None, email);
  }

  lemma SameMailCovered(t: Tables, u: Tables, after: Tables, person: Id, before: Option<int>, email: string)
    requires u.messages == t.messages && u.activities == t.activities
    requires HistoryCovered(u, after, person, before, email)
    ensures HistoryCovered(t, after, person, before, email)
  {
    assert Mentioning(u, email) == Mentioning(t, email) && Unrecorded(u, email) == Unrecorded(t, email);
    assert MentionTimes(u, email) == MentionTimes(t, email);
  }

  /** Only people's columns and addresses changed, and only stored people have addresses. */
  lemma SameMailFresh(w: World, t: Tables, u: Tables, id: Id, next: nat)
    requires FreshIds(w, t, next) && id in t.people
    requires u == t.(addresses := u.addresses, people := u.people) && u.people.Keys == t.people.Keys
    requires forall a :: a in u.addresses ==> a in t.addresses || a.0 == id
    ensures FreshIds(w, u, next)
  {
    forall i: nat | i >= next
      ensures forall a :: a in u.addresses ==> a.0 != w.uuid(i)
    {
      assert w.uuid(i) !in t.people;
    }
  }

  lemma WithAddressFresh(w: World, t: Tables, id: Id, email: string, next: nat)
    requires FreshIds(w, t, next) && id in t.people
    ensures FreshIds(w, WithAddress(t, id, email), next)
  {
    var u := WithAddress(t, id, email);
    assert u.addresses == t.addresses + {(id, Lower(email))} && u.people.Keys == t.people.Keys;
    SameMailFresh(w, t, u, id, next);
  }

  /** The outcome of linking a suggestion: the address stays once it was added. */
  ghost predicate LinkOutcome(w: World, db: Db, id: Id, person: Id, email: string, r: Result<()>) {
    && r.db.inTx
    && (ActivitiesAdded(w, db.durable, r.db.durable, db.next, r.db.next)
        || (person in db.durable.people
            && ActivitiesAdded(w, WithAddress(db.durable, person, email), r.db.durable, db.next, r.db.next)))
    && (r.Ok? ==> FreshIds(w, r.db.view, r.db.next) && PersonLinked(db.view, r.db.view, id, person, email))
  }

  /** The person has the address and its history, and the prompt is accepted. */
  ghost predicate PersonLinked(t: Tables, after: Tables, id: Id, person: Id, email: string) {
    && id in t.prompts && person in t.people
    && after == WithAddress(t, person, email).(
                  messages := after.messages, activities := after.activities, links := after.links,
                  people := after.people, employments := after.employments, prompts := Resolved(t, id, Accepted))
    && TakesHistory(WithAddress(t, person, email), after, person, email)
    && Employed(t, after, person, EmailSync.EmailDomain(email))
  }

  lemma LinkToPersonNoTxOutcome(w: World, db: Db, id: Id, person: Id)
    requires ValidWorld(w) && InsideTx(w, db)
    ensures var r := LinkToPersonNoTx(w, db, id, person);
            && r.db.inTx
            && (id !in db.view.prompts ==> r.Err? && ActivitiesAdded(w, db.durable, r.db.durable, db.next, r.db.next))
            && (id in db.view.prompts ==> LinkOutcome(w, db, id, person, SuggestionValue(w, db.view.prompts[id]), r))
  {
    NothingLeft(w, db, db);
    var got := GetAIPrompt(w, db, id);
    NothingLeft(w, db, got.db);
    if got.Ok? {
      var email := SuggestionValue(w, got.value);
      if got.value.kind.NewContact? && email != "" && Contains(email, "@") {
        LinkAddressOutcome(w, db, got.db, id, person, email);
      }
    }
  }

  lemma LinkAddressOutcome(w: World, db: Db, read: Db, id: Id, person: Id, email: string)
    requires ValidWorld(w) && InsideTx(w, db) && OnlyRead(db, read)
    ensures LinkOutcome(w, db, id, person, email, LinkAddress(w, read, id, person, email))
  {
    NothingLeft(w, db, read);
    var found := GetPerson(w, read, person);
    NothingLeft(w, db, found.db);
    if found.Ok? {
      var added := AddPersonEmail(w, found.db, person, email);
      NothingLeft(w, db, added.db.(durable := db.durable));
      if added.Ok? {
        AddressAddedOutcome(w, db, added.db, id, person, email);
      }
    }
  }

  lemma AddressAddedOutcome(w: World, db: Db, added: Db, id: Id, person: Id, email: string)
    requires ValidWorld(w) && InsideTx(w, db) && person in db.durable.people && person in db.view.people
    requires added == db.(calls := added.calls, aborted := added.aborted,
                          view := WithAddress(db.view, person, email), durable := WithAddress(db.durable, person, email))
    ensures LinkOutcome(w, db, id, person, email, AfterPerson(w, added, id, person, email))
  {
    WithAddressFresh(w, db.view, person, email, db.next);
    WithAddressFresh(w, db.durable, person, email, db.next);
    AfterPersonEffect(w, added, id, person, email);
    AddressThenHistory(w, db, added, id, person, email, AfterPerson(w, added, id, person, email));
  }

  lemma AddressThenHistory(w: World, db: Db, added: Db, id: Id, person: Id, email: string, r: Result<()>)
    requires person in db.durable.people && person in db.view.people && added.next == db.next
    requires added.view == WithAddress(db.view, person, email) && added.durable == WithAddress(db.durable, person, email)
    requires AfterPersonOutcome(w, added, id, person, email, r)
    ensures LinkOutcome(w, db, id, person, email, r)
  {
    if r.Ok? {
      AddressKeepsCompanies(db.view, person, email, EmailSync.EmailDomain(email));
      LinkedView(db.view, added.view, r.db.view, id, person, email);
    }
  }

  lemma AddressKeepsCompanies(t: Tables, person: Id, email: string, domainName: string)
    ensures CompaniesOf(WithAddress(t, person, email), domainName) == CompaniesOf(t, domainName)
  {
    var u := WithAddress(t, person, email);
    forall c ensures HasDomain(u, c, domainName) <==> HasDomain(t, c, domainName) {}
  }

  lemma LinkedView(t: Tables, u: Tables, after: Tables, id: Id, person: Id, email: string)
    requires u == WithAddress(t, person, email) && id in u.prompts && person in t.people
    requires CompaniesOf(u, EmailSync.EmailDomain(email)) == CompaniesOf(t, EmailSync.EmailDomain(email))
    requires after == u.(messages := after.messages, activities := after.activities, links := after.links,
                         people := after.people, employments := after.employments, prompts := Resolved(u, id, Accepted))
    requires TakesHistory(u, after, person, email) && Employed(u, after, person, EmailSync.EmailDomain(email))
    ensures PersonLinked(t, after, id, person, email)
  {
    assert u.prompts == t.prompts && u.employments == t.employments;
  }

  lemma LinkToPersonEffect(w: World, db: Db, id: Id, person: Id)
    requires ValidWorld(w) && Healthy(w, db)
    ensures var r := LinkToPerson(w, db, id, person);
            && Idle(r.db)
            && (r.Ok? ==>
                && db.next <= r.db.next && FreshIds(w, r.db.durable, r.db.next) && id in db.durable.prompts
                && PersonLinked(db.durable, r.db.durable, id, person, SuggestionValue(w, db.durable.prompts[id])))
            && (r.Err? ==>
                || ActivitiesAdded(w, db.durable, r.db.durable, db.next, r.db.next)
                || (id in db.durable.prompts && person in db.durable.people
                    && ActivitiesAdded(w, WithAddress(db.durable, person, SuggestionValue(w, db.durable.prompts[id])),
                                       r.db.durable, db.next, r.db.next)))
  {
    var begun := Begin(w, db);
    if begun.Ok? {
      LinkToPersonNoTxOutcome(w, begun.db, id, person);
      FinishOutcome(w, LinkToPersonNoTx(w, begun.db, id, person));
      OutcomeNext(w, begun.db, LinkToPersonNoTx(w, begun.db, id, person).db);
    } else {
      assert ActivitiesAdded(w, db.durable, db.durable, db.next, db.next);
    }
  }

  /** Linking a suggestion to a person does the same for that person, on top of his own last touch. */
  lemma LinkTakesHistory(w: World, db: Db, id: Id, person: Id)
    requires ValidWorld(w) && Healthy(w, db)
    requires LinkToPerson(w, db, id, person).Ok?
    ensures id in db.durable.prompts && person in db.durable.people
    ensures HistoryCovered(db.durable, LinkToPerson(w, db, id, person).db.durable, person,
                           db.durable.people[person].lastTouch, SuggestionValue(w, db.durable.prompts[id]))
  {
    LinkToPersonEffect(w, db, id, person);
    var t, after := db.durable, LinkToPerson(w, db, id, person).db.durable;
    var email := SuggestionValue(w, t.prompts[id]);
    var u := WithAddress(t, person, email);
    HistoryTaken(u, after, person, email);
    SameMailCovered(t, u, after, person, t.people[person].lastTouch, email);
  }

  lemma OutcomeNext(w: World, db: Db, after: Db)
    ensures forall t: Tables :: ActivitiesAdded(w, t, after.durable, db.next, after.next) ==> db.next <= after.next
  {
  }
}
