/**
 What users do with suggestions, as methods that change the store. Each is proved to
 do what the function of the same name in Suggestions says.
 */
module SuggestionHandling {
  import opened Wrappers
  import opened Text
  import opened CrmTables
  import opened CrmStore
  import opened HistoricalMail
  import opened Acceptance
  import EmailSync
  import S = Suggestions
  import RE = Reopening
  import AO = AddressOwners

  /** What accepting does to the tables; a failed acceptance leaves activities at most. */
  ghost predicate AcceptMeans(w: World, db: Db, after: Db, id: Id, r: Outcome<S.AcceptResult>) {
    && (r.Success? ==>
        && id in db.durable.prompts && db.durable.prompts[id].status.Open?
        && AcceptedView(w, db.durable, after.durable, id, db.durable.prompts[id], db.next, r.value)
        && (r.value.created && db.durable.prompts[id].kind.NewContact? ==>
            HistoryCovered(db.durable, after.durable, r.value.id, None, S.SuggestionValue(w, db.durable.prompts[id]))))
    && (r.Failure? ==> ActivitiesAdded(w, db.durable, after.durable, db.next, after.next))
  }

  lemma AcceptHolds(w: World, db: Db, after: Db, id: Id, r: Outcome<S.AcceptResult>)
    requires ValidWorld(w) && Healthy(w, db) && Meets(r, after, S.Accept(w, db, id))
    ensures AcceptMeans(w, db, after, id, r)
  {
    AcceptEffect(w, db, id);
    if r.Success? && r.value.created && db.durable.prompts[id].kind.NewContact? {
      AcceptTakesHistory(w, db, id);
    }
  }

  /**
   What linking does: the person has the address and its whole history. The rule that an address
   leads to one person survives, failed or not, exactly unless somebody else answers to it.
   */
  ghost predicate LinkMeans(w: World, db: Db, after: Db, id: Id, person: Id, r: Outcome<()>) {
    && (r.Success? ==>
        && id in db.durable.prompts && person in db.durable.people
        && PersonLinked(db.durable, after.durable, id, person, S.SuggestionValue(w, db.durable.prompts[id]))
        && HistoryCovered(db.durable, after.durable, person, db.durable.people[person].lastTouch,
                          S.SuggestionValue(w, db.durable.prompts[id])))
    && (AO.OnePerson(db.durable) ==> (AO.OnePerson(after.durable) <==> !AO.SharesAddress(w, db, id, person)))
  }

  lemma LinkHolds(w: World, db: Db, after: Db, id: Id, person: Id, r: Outcome<()>)
    requires ValidWorld(w) && Healthy(w, db) && Meets(r, after, S.LinkToPerson(w, db, id, person))
    ensures LinkMeans(w, db, after, id, person, r)
  {
    LinkToPersonEffect(w, db, id, person);
    if r.Success? {
      LinkTakesHistory(w, db, id, person);
    }
    if AO.OnePerson(db.durable) {
      AO.LinkKeepsOnePersonIff(w, db, id, person);
    }
  }

  class SuggestionService {
    const store: Store

    constructor (store: Store)
      ensures this.store == store
    {
      this.store := store;
    }

    // ----- suppressing -----

    method SuppressPrompt(id: Id) returns (r: Outcome<()>)
      modifies store
      ensures Meets(r, store.State(), S.SuppressPrompt(store.w, old(store.State()), id))
      ensures old(Idle(store.State())) ==> RE.DeclineMeans(store.w, old(store.durable), store.durable, id, r.Success?)
    {
      if Idle(store.State()) {
        RE.SuppressedIsDeclined(store.w, store.State(), id);
      }
      var p :- store.GetAIPrompt(id);
      r := SuppressTarget(id, p.kind, S.SuggestionTarget(store.w, p));
    }

    method SuppressTarget(id: Id, kind: Kind, t: S.Target) returns (r: Outcome<()>)
      modifies store
      ensures Meets(r, store.State(), S.SuppressTarget(store.w, old(store.State()), id, kind, t))
    {
      if t.kind == "" || t.identifier == "" {
        return Failure;
      }
      var _ :- store.SuppressSuggestion(kind, t.kind, t.identifier);
      r := store.ResolveAIPrompt(id, Dismissed);
    }

    method UnsuppressPrompt(id: Id) returns (r: Outcome<()>)
      modifies store
      ensures Meets(r, store.State(), S.UnsuppressPrompt(store.w, old(store.State()), id))
      ensures old(Idle(store.State())) ==> RE.ReopenMeans(store.w, old(store.durable), store.durable, id, r.Success?)
    {
      if Idle(store.State()) {
        RE.UnsuppressedIsReopened(store.w, store.State(), id);
      }
      var p :- store.GetAIPrompt(id);
      r := UnsuppressTarget(id, p.kind, S.SuggestionTarget(store.w, p));
    }

    method UnsuppressTarget(id: Id, kind: Kind, t: S.Target) returns (r: Outcome<()>)
      modifies store
      ensures Meets(r, store.State(), S.UnsuppressTarget(store.w, old(store.State()), id, kind, t))
    {
      if t.kind != "" && t.identifier != "" {
        var _ :- store.UnsuppressSuggestion(kind, t.kind, t.identifier);
      }
      r := store.ResolveAIPrompt(id, Open);
    }

    // ----- historical mail -----

    method LinkRow(person: Id, row: Row) returns (r: Outcome<()>)
      modifies store
      ensures Meets(r, store.State(), S.LinkRow(store.w, old(store.State()), person, row))
    {
      if row.activity.Some? {
        r := store.LinkActivity(row.activity.value, PersonEntity(person));
      } else {
        r := CreateForRow(person, row, S.HistoricalActivity(row.message));
      }
    }

    method CreateForRow(person: Id, row: Row, a: Activity) returns (r: Outcome<()>)
      modifies store
      ensures Meets(r, store.State(), S.CreateForRow(store.w, old(store.State()), person, row, a))
    {
      var activity :- store.CreateActivity(a, {person});
      if Trim(row.message.id) == "" || activity == "" {
        return Failure;
      }
      r := store.SetEmailMessageActivity(Trim(row.message.id), activity);
    }

    method LinkRows(person: Id, rows: seq<Row>) returns (r: Outcome<()>)
      modifies store
      ensures Meets(r, store.State(), S.LinkRows(store.w, old(store.State()), person, rows))
    {
      var i := 0;
      while i < |rows|
        invariant 0 <= i <= |rows|
        invariant S.LinkRows(store.w, old(store.State()), person, rows) ==
                  S.LinkRows(store.w, store.State(), person, rows[i..])
      {
        var _ :- LinkRow(person, rows[i]);
        var _ :- store.TouchPerson(person, rows[i].message.sentAt);
        i := i + 1;
      }
      return Success(());
    }

    method LinkHistoricalEmails(person: Id, email: string) returns (r: Outcome<()>)
      modifies store
      ensures Meets(r, store.State(), S.LinkHistoricalEmails(store.w, old(store.State()), person, email))
      ensures ValidWorld(store.w) && old(InsideTx(store.w, store.State())) && r.Success? ==>
                TakesHistory(old(store.view), store.view, person, email)
    {
      if ValidWorld(store.w) && InsideTx(store.w, store.State()) {
        LinkHistoricalEmailsEffect(store.w, store.State(), person, email);
      }
      var ids :- store.ListEmailMessagesForAddress(email, S.HISTORY_LIMIT);
      r := LinkRows(person, S.RowsOf(store.view, ids));
    }

    // ----- accepting -----

    method EmployBy(person: Id, domainName: string) returns (r: Outcome<()>)
      modifies store
      ensures Meets(r, store.State(), S.EmployBy(store.w, old(store.State()), person, domainName))
    {
      if domainName == "" {
        return Success(());
      }
      var company :- store.FindCompanyByDomain(domainName);
      if company.Some? {
        var _ := store.LinkPersonCompany(person, company.value);
      }
      return Success(());
    }

    method AfterPerson(id: Id, person: Id, email: string) returns (r: Outcome<()>)
      modifies store
      ensures Meets(r, store.State(), S.AfterPerson(store.w, old(store.State()), id, person, email))
    {
      var _ :- EmployBy(person, EmailSync.EmailDomain(email));
      var _ :- LinkHistoricalEmails(person, email);
      r := store.ResolveAIPrompt(id, Accepted);
    }

    method AcceptNewContact(id: Id, email: string, person: Person) returns (r: Outcome<S.AcceptResult>)
      modifies store
      ensures Meets(r, store.State(), S.AcceptNewContact(store.w, old(store.State()), id, email, person))
    {
      if person.firstName == "" && person.lastName == "" {
        return Failure;
      }
      var created :- store.CreatePerson(person);
      var _ :- AfterPerson(id, created, email);
      return Success(S.AcceptResult(true, created));
    }

    method AcceptNamed(id: Id, email: string, person: Person) returns (r: Outcome<S.AcceptResult>)
      modifies store
      ensures Meets(r, store.State(), S.AcceptNamed(store.w, old(store.State()), id, email, person))
    {
      if email == "" || !Contains(email, "@") {
        return Failure;
      }
      var existing :- store.FindPersonByEmail(email);
      if existing.Some? {
        var _ := store.ResolveAIPrompt(id, Accepted);
        return Success(S.AcceptResult(false, existing.value));
      }
      r := AcceptNewContact(id, email, person);
    }

    method AcceptContact(id: Id, p: Prompt) returns (r: Outcome<S.AcceptResult>)
      modifies store
      ensures Meets(r, store.State(), S.AcceptContact(store.w, old(store.State()), id, p))
    {
      var email := S.SuggestionValue(store.w, p);
      r := AcceptNamed(id, email, S.SuggestedPerson(email, p.body));
    }

    method AcceptDealLink(id: Id, p: Prompt) returns (r: Outcome<S.AcceptResult>)
      modifies store
      ensures Meets(r, store.State(), S.AcceptDealLink(store.w, old(store.State()), id, p))
    {
      var activity := S.SuggestionValue(store.w, p);
      if p.deal.None? || activity == "" {
        return Failure;
      }
      var _ :- store.LinkActivity(activity, DealEntity(p.deal.value));
      var _ :- store.Query(());
      var _ :- store.ResolveAIPrompt(id, Accepted);
      return Success(S.AcceptResult(false, p.deal.value));
    }

    method AcceptCompany(id: Id, p: Prompt) returns (r: Outcome<S.AcceptResult>)
      modifies store
      ensures Meets(r, store.State(), S.AcceptCompany(store.w, old(store.State()), id, p))
    {
      var domainName := S.SuggestionValue(store.w, p);
      if domainName == "" {
        return Failure;
      }
      var existing :- store.FindCompanyByDomain(domainName);
      if existing.Some? {
        var _ := store.ResolveAIPrompt(id, Accepted);
        return Success(S.AcceptResult(false, existing.value));
      }
      r := AcceptNewCompany(id, domainName);
    }

    method AcceptNewCompany(id: Id, domainName: string) returns (r: Outcome<S.AcceptResult>)
      modifies store
      ensures Meets(r, store.State(), S.AcceptNewCompany(store.w, old(store.State()), id, domainName))
    {
      var name := S.CompanyName(domainName);
      if name == "" {
        return Failure;
      }
      var created :- store.CreateCompany(Company(name, Normal(domainName)));
      var _ :- store.ResolveAIPrompt(id, Accepted);
      return Success(S.AcceptResult(true, created));
    }

    method AcceptNoTx(id: Id) returns (r: Outcome<S.AcceptResult>)
      modifies store
      ensures Meets(r, store.State(), S.AcceptNoTx(store.w, old(store.State()), id))
    {
      var p :- store.GetAIPrompt(id);
      if !p.status.Open? {
        return Failure;
      }
      match p.kind {
        case NewContact => r := AcceptContact(id, p);
        case EmailDealLink => r := AcceptDealLink(id, p);
        case NewCompany => r := AcceptCompany(id, p);
        case OtherKind => r := Failure;
      }
    }

    method Accept(id: Id) returns (r: Outcome<S.AcceptResult>)
      modifies store
      ensures Meets(r, store.State(), S.Accept(store.w, old(store.State()), id))
      ensures ValidWorld(store.w) && old(Healthy(store.w, store.State())) ==>
                AcceptMeans(store.w, old(store.State()), store.State(), id, r)
    {
      r := AcceptInTransaction(id);
      if ValidWorld(store.w) && old(Healthy(store.w, store.State())) {
        AcceptHolds(store.w, old(store.State()), store.State(), id, r);
      }
    }

    method AcceptInTransaction(id: Id) returns (r: Outcome<S.AcceptResult>)
      modifies store
      ensures Meets(r, store.State(), S.Accept(store.w, old(store.State()), id))
    {
      var _ :- store.Begin();
      ghost var spec := S.AcceptNoTx(store.w, store.State(), id);
      var body := AcceptNoTx(id);
      r := store.Finish(body, spec);
    }

    // ----- linking to an existing record -----

    method LinkAddress(id: Id, person: Id, email: string) returns (r: Outcome<()>)
      modifies store
      ensures Meets(r, store.State(), S.LinkAddress(store.w, old(store.State()), id, person, email))
    {
      var _ :- store.GetPerson(person);
      var _ :- store.AddPersonEmail(person, email);
      r := AfterPerson(id, person, email);
    }

    method LinkNamed(id: Id, person: Id, kind: Kind, email: string) returns (r: Outcome<()>)
      modifies store
      ensures Meets(r, store.State(), S.LinkNamed(store.w, old(store.State()), id, person, kind, email))
    {
      if !kind.NewContact? || email == "" || !Contains(email, "@") {
        return Failure;
      }
      r := LinkAddress(id, person, email);
    }

    method LinkToPersonNoTx(id: Id, person: Id) returns (r: Outcome<()>)
      modifies store
      ensures Meets(r, store.State(), S.LinkToPersonNoTx(store.w, old(store.State()), id, person))
    {
      var p :- store.GetAIPrompt(id);
      r := LinkNamed(id, person, p.kind, S.SuggestionValue(store.w, p));
    }

    method LinkToPerson(id: Id, person: Id) returns (r: Outcome<()>)
      modifies store
      ensures Meets(r, store.State(), S.LinkToPerson(store.w, old(store.State()), id, person))
      ensures ValidWorld(store.w) && old(Healthy(store.w, store.State())) ==>
                LinkMeans(store.w, old(store.State()), store.State(), id, person, r)
    {
      r := LinkInTransaction(id, person);
      if ValidWorld(store.w) && old(Healthy(store.w, store.State())) {
        LinkHolds(store.w, old(store.State()), store.State(), id, person, r);
      }
    }

    method LinkInTransaction(id: Id, person: Id) returns (r: Outcome<()>)
      modifies store
      ensures Meets(r, store.State(), S.LinkToPerson(store.w, old(store.State()), id, person))
    {
      var _ :- store.Begin();
      ghost var spec := S.LinkToPersonNoTx(store.w, store.State(), id, person);
      var body := LinkToPersonNoTx(id, person);
      r := store.Finish(body, spec);
    }

    method LinkDomain(id: Id, company: Id, domainName: string) returns (r: Outcome<()>)
      modifies store
      ensures Meets(r, store.State(), S.LinkDomain(store.w, old(store.State()), id, company, domainName))
    {
      var _ :- store.GetCompany(company);
      var _ :- store.AddCompanyDomain(company, domainName);
      r := store.ResolveAIPrompt(id, Accepted);
    }

    method LinkToCompanyNoTx(id: Id, company: Id) returns (r: Outcome<()>)
      modifies store
      ensures Meets(r, store.State(), S.LinkToCompanyNoTx(store.w, old(store.State()), id, company))
    {
      var p :- store.GetAIPrompt(id);
      var domainName := S.SuggestionValue(store.w, p);
      if !p.kind.NewCompany? || domainName == "" {
        return Failure;
      }
      r := LinkDomain(id, company, domainName);
    }

    method LinkToCompany(id: Id, company: Id) returns (r: Outcome<()>)
      modifies store
      ensures Meets(r, store.State(), S.LinkToCompany(store.w, old(store.State()), id, company))
    {
      var _ :- store.Begin();
      ghost var spec := S.LinkToCompanyNoTx(store.w, store.State(), id, company);
      var body := LinkToCompanyNoTx(id, company);
      r := store.Finish(body, spec);
    }
  }
}
