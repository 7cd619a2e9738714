/**
 When requests about suggestions are granted, and when mail is recorded: exactly, when no store call
 fails.
 */
module GrantedRequests {
  import opened Wrappers
  import opened Text
  import opened CrmTables
  import opened CrmQueries
  import opened EmailSyncProofs
  import opened SyncAccounting
  import opened Suggestions
  import opened HistoricalMail
  import opened Acceptance
  import opened AcceptanceConditions
  import opened Runs
  import opened IngestedContent
  import opened SenderSuggestions
  import AO = AddressOwners
  import ES = EmailSync
  import Replay

  // ----- accepting -----

  /** What accepting an open suggestion asks for. */
  ghost predicate Acceptable(w: World, t: Tables, call: nat, p: Prompt) {
    var about := SuggestionValue(w, p);
    match p.kind
    case NewContact => about != "" && Contains(about, "@") && (Answering(t, about) != {} || CreatesFor(w, t, call, p))
    case EmailDealLink => p.deal.Some? && about != "" && about in t.activities
    case NewCompany => about != "" && (CompaniesOf(t, about) != {} || CompanyName(about) != "")
    case OtherKind => false
  }

  /** A part of the transaction is granted exactly on the condition, and the transaction is then still good. */
  ghost predicate GrantedIff<T>(r: Result<T>, condition: bool) {
    (r.Ok? <==> condition) && (r.Ok? ==> Running(r.db))
  }

  lemma QuietExisting(w: World, db: Db, id: Id, p: Prompt, t: Tables, call: nat)
    requires ValidWorld(w) && Quiet(w) && Running(db) && id in db.view.prompts && p.kind.NewContact?
    requires InsideTx(w, db) && Consistent(db.view) && t == db.view && call == db.calls + 2
    ensures GrantedIff(AcceptContact(w, db, id, p), Acceptable(w, t, call, p))
  {
    var email := SuggestionValue(w, p);
    if email != "" && Contains(email, "@") {
      PersonFound(w, db, email);
      var existing := FindPersonByEmail(w, db, email);
      if existing.value.None? {
        QuietNewContact(w, existing.db, id, email, SuggestedPerson(email, p.body), t, call);
      } else {
        QuietResolve(w, Ok((), existing.db), id);
      }
    }
  }

  lemma QuietDeal(w: World, db: Db, id: Id, p: Prompt, call: nat)
    requires Quiet(w) && Running(db) && id in db.view.prompts && p.kind.EmailDealLink?
    ensures GrantedIff(AcceptDealLink(w, db, id, p), Acceptable(w, db.view, call, p))
  {
  }

  lemma QuietCompany(w: World, db: Db, id: Id, p: Prompt, call: nat)
    requires ValidWorld(w) && Quiet(w) && Running(db) && id in db.view.prompts && p.kind.NewCompany?
    ensures GrantedIff(AcceptCompany(w, db, id, p), Acceptable(w, db.view, call, p))
  {
    var domainName := SuggestionValue(w, p);
    if domainName != "" {
      CompanyFound(w, db, domainName);
      var existing := FindCompanyByDomain(w, db, domainName);
      if existing.value.None? {
        QuietNewCompany(w, existing.db, id, domainName);
      } else {
        QuietResolve(w, Ok((), existing.db), id);
      }
    }
  }

  lemma QuietNewCompany(w: World, db: Db, id: Id, domainName: string)
    requires Quiet(w) && Running(db) && id in db.view.prompts
    ensures GrantedIff(AcceptNewCompany(w, db, id, domainName), CompanyName(domainName) != "")
  {
  }

  lemma OpenPrompt(w: World, db: Db, id: Id)
    requires Quiet(w) && Running(db)
    ensures var got := GetAIPrompt(w, db, id);
            && (got.Ok? <==> id in db.view.prompts)
            && (got.Ok? ==> got == Ok(db.view.prompts[id], db.(calls := db.calls + 1)))
  {
  }

  /** The suggestion is open, and what accepting it asks for is there. */
  ghost predicate AcceptGranted(w: World, t: Tables, call: nat, id: Id) {
    id in t.prompts && t.prompts[id].status.Open? && Acceptable(w, t, call, t.prompts[id])
  }

  lemma QuietAccept(w: World, db: Db, id: Id, t: Tables, call: nat)
    requires ValidWorld(w) && Quiet(w) && Running(db) && InsideTx(w, db) && Consistent(db.view)
    requires t == db.view && call == db.calls + 3
    ensures AcceptNoTx(w, db, id).Ok? <==> AcceptGranted(w, t, call, id)
    ensures AcceptNoTx(w, db, id).Ok? ==> Running(AcceptNoTx(w, db, id).db)
  {
    OpenPrompt(w, db, id);
    if id in t.prompts && t.prompts[id].status.Open? {
      var read, p := db.(calls := db.calls + 1), t.prompts[id];
      match p.kind
      case NewContact => QuietExisting(w, read, id, p, t, call);
      case EmailDealLink => QuietDeal(w, read, id, p, call);
      case NewCompany => QuietCompany(w, read, id, p, call);
      case OtherKind =>
    }
  }

  function Begun(db: Db): Db {
    db.(calls := db.calls + 1, inTx := true)
  }

  lemma AcceptBegins(w: World, db: Db, id: Id)
    requires Quiet(w)
    ensures Accept(w, db, id) == Finish(w, AcceptNoTx(w, Begun(db), id))
  {
  }

  /** With no failing call, a suggestion is accepted exactly if it is open and what accepting it asks for is there. */
  lemma AcceptedIff(w: World, db: Db, id: Id)
    requires ValidWorld(w) && Quiet(w) && Healthy(w, db)
    ensures Accept(w, db, id).Ok? <==> AcceptGranted(w, db.durable, db.calls + 4, id)
  {
    QuietAccept(w, Begun(db), id, db.durable, db.calls + 4);
    AcceptBegins(w, db, id);
    QuietFinish(w, AcceptNoTx(w, Begun(db), id));
  }

  // ----- linking to an existing record -----

  /** The address may be added: it is nobody's added address already, and fills no empty column with somebody else's. */
  ghost predicate FreeFor(t: Tables, person: Id, email: string)
    requires person in t.people
  {
    && (forall a :: a in t.addresses && Lower(a.1) == Lower(email) ==> a == (person, Lower(email)))
    && (t.people[person].email == "" ==>
          forall p :: p in t.people && p != person && t.people[p].email != "" ==> Lower(t.people[p].email) != Lower(email))
  }

  lemma TakenIff(t: Tables, person: Id, email: string)
    requires person in t.people
    ensures AddressTaken(t, person, email) <==> !FreeFor(t, person, email)
  {
  }

  lemma QuietLinkAddress(w: World, db: Db, id: Id, person: Id, email: string)
    requires ValidWorld(w) && Quiet(w) && Running(db) && InsideTx(w, db) && Consistent(db.view)
    requires db.view == db.durable && id in db.view.prompts
    ensures GrantedIff(LinkAddress(w, db, id, person, email), person in db.view.people && FreeFor(db.view, person, email))
  {
    AO.LinkAddressStages(w, db, id, person, email);
    if person in db.view.people {
      TakenIff(db.view, person, email);
      if FreeFor(db.view, person, email) {
        AddressAddedStart(w, db, person, email);
        QuietAfterPerson(w, AO.WithAddressAdded(db, person, email), id, person, email);
      }
    }
  }

  lemma AddressAddedStart(w: World, db: Db, person: Id, email: string)
    requires Running(db) && InsideTx(w, db) && Consistent(db.view) && db.view == db.durable && person in db.view.people
    ensures var added := AO.WithAddressAdded(db, person, email);
            && Running(added) && InsideTx(w, added) && Consistent(added.view)
            && person in added.durable.people && added.view.prompts == db.view.prompts
  {
    WithAddressFresh(w, db.view, person, email, db.next);
    AO.AddressKeepsMail(db.view, person, email);
    SamePointers(db.view, WithAddress(db.view, person, email));
  }

  ghost predicate PersonLinkable(w: World, t: Tables, id: Id, person: Id) {
    && id in t.prompts && t.prompts[id].kind.NewContact?
    && var email := SuggestionValue(w, t.prompts[id]);
       email != "" && Contains(email, "@") && person in t.people && FreeFor(t, person, email)
  }

  lemma QuietLinkPerson(w: World, db: Db, id: Id, person: Id)
    requires ValidWorld(w) && Quiet(w) && Running(db) && InsideTx(w, db) && Consistent(db.view) && db.view == db.durable
    ensures GrantedIff(LinkToPersonNoTx(w, db, id, person), PersonLinkable(w, db.view, id, person))
  {
    OpenPrompt(w, db, id);
    if id in db.view.prompts {
      var p := db.view.prompts[id];
      if Linkable(p.kind, SuggestionValue(w, p)) {
        QuietLinkAddress(w, db.(calls := db.calls + 1), id, person, SuggestionValue(w, p));
      }
    }
  }

  /** With no failing call, a contact suggestion is linked exactly to a person whose address it may become. */
  lemma LinkedToPersonIff(w: World, db: Db, id: Id, person: Id)
    requires ValidWorld(w) && Quiet(w) && Healthy(w, db)
    ensures LinkToPerson(w, db, id, person).Ok? <==> PersonLinkable(w, db.durable, id, person)
  {
    var begun := Begin(w, db);
    QuietLinkPerson(w, begun.db, id, person);
    QuietFinish(w, LinkToPersonNoTx(w, begun.db, id, person));
  }

  lemma QuietLinkCompany(w: World, db: Db, id: Id, company: Id)
    requires Quiet(w) && Running(db)
    ensures GrantedIff(LinkToCompanyNoTx(w, db, id, company),
                       && id in db.view.prompts && db.view.prompts[id].kind.NewCompany?
                       && SuggestionValue(w, db.view.prompts[id]) != "" && company in db.view.companies)
  {
    OpenPrompt(w, db, id);
  }

  /** With no failing call, a company suggestion is linked exactly to a stored company. */
  lemma LinkedToCompanyIff(w: World, db: Db, id: Id, company: Id)
    requires Quiet(w) && Idle(db)
    ensures LinkToCompany(w, db, id, company).Ok? <==>
              && id in db.durable.prompts && db.durable.prompts[id].kind.NewCompany?
              && SuggestionValue(w, db.durable.prompts[id]) != "" && company in db.durable.companies
  {
    var begun := Begin(w, db);
    QuietLinkCompany(w, begun.db, id, company);
    QuietFinish(w, LinkToCompanyNoTx(w, begun.db, id, company));
  }

  /** The linked company is found by the domain from then on. */
  lemma LinkedCompanyOwns(w: World, db: Db, id: Id, company: Id)
    requires Idle(db) && id in db.durable.prompts && LinkToCompany(w, db, id, company).Ok?
    ensures company in CompaniesOf(LinkToCompany(w, db, id, company).db.durable, SuggestionValue(w, db.durable.prompts[id]))
  {
    LinkCompanyEffect(w, db, id, company);
    var about := SuggestionValue(w, db.durable.prompts[id]);
    LowerIsStable(about);
    assert (company, Lower(about)) in LinkToCompany(w, db, id, company).db.durable.domains;
  }

  // ----- recording mail -----

  lemma {:induction false} QuietMatch(w: World, db: Db, emails: seq<string>, matched: set<Id>)
    requires Quiet(w) && !db.aborted
    ensures ES.MatchPeople(w, db, emails, matched).Ok?
    decreases |emails|
  {
    if emails != [] {
      var found := FindPersonByEmail(w, db, emails[0]);
      QuietMatch(w, found.db, emails[1..], if found.value.Some? then matched + {found.value.value} else matched);
    }
  }

  /** Somebody answers to one of the addresses. */
  ghost predicate Answered(t: Tables, emails: seq<string>) {
    exists i :: 0 <= i < |emails| && Answering(t, emails[i]) != {}
  }

  lemma CommittedIffAnswered(w: World, db: Db, emails: seq<string>, a: Activity)
    requires ValidWorld(w) && Quiet(w) && Running(db) && db.view.people == db.durable.people
    ensures CommittedFor(w, db, emails, a) <==> Answered(db.view, emails)
  {
    QuietMatch(w, db, emails, {});
    MatchPeopleReads(w, db, emails, {});
  }

  lemma SameAnswered(t: Tables, u: Tables, emails: seq<string>)
    requires t.people == u.people && t.addresses == u.addresses
    ensures Answered(t, emails) <==> Answered(u, emails)
  {
    forall i | 0 <= i < |emails|
      ensures Answering(t, emails[i]) == Answering(u, emails[i])
    {
      SameAnswering(t, u, emails[i]);
    }
  }

  /** With no failing call, a new message is processed, and recorded exactly if somebody answers to one of its addresses. */
  lemma RecordedIffAnswered(w: World, db: Db, account: ES.Account, m: Message)
    requires ValidWorld(w) && Quiet(w) && Idle(db) && FreshIds(w, db.durable, db.next) && m.id !in db.durable.messages
    ensures var r := ES.Process(w, db, account, m);
            && r.Ok? && r.value.created
            && (r.value.linked <==> Answered(db.durable, ES.RelevantEmails(account, m)))
  {
    Replay.ProcessAlike(w, db, db, account, m);
    ProcessEffect(w, db, account, m);
    var begun := Begin(w, db);
    var up := UpsertEmailMessage(w, begun.db, m);
    CommittedIffAnswered(w, up.db, ES.RelevantEmails(account, m), ES.Recorded(m));
    SameAnswered(up.db.view, db.durable, ES.RelevantEmails(account, m));
  }
}
