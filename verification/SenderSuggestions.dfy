/**
 Which suggestions a processed message makes about its sender: exactly when a contact and a
 company are suggested, and with which rows.
 */
module SenderSuggestions {
  import opened Wrappers
  import opened Text
  import opened CrmTables
  import opened CrmQueries
  import opened EmailSync
  import opened EmailSyncProofs
  import opened Acceptance
  import opened IngestedContent

  // ----- contacts and companies -----

  /** The sender's suggestion was declined before: nothing at all is suggested for the mail's sender. */
  predicate Declined(t: Tables, from: string) {
    Answering(t, from) == {} && Suppression(NewContact, "email", Lower(from)) in t.suppressions
  }

  predicate WantsContact(t: Tables, from: string) {
    && Answering(t, from) == {} && !Declined(t, from)
    && !HasOpenPrompt(t, NewContact, "New contact: " + from)
  }

  predicate WantsCompany(t: Tables, domainName: string) {
    && domainName != "" && !IsPersonalEmailDomain(domainName)
    && CompaniesOf(t, domainName) == {} && Suppression(NewCompany, "domain", Lower(domainName)) !in t.suppressions
    && !HasOpenPrompt(t, NewCompany, "New company: " + domainName)
  }

  /** The prompts after one more of them, if it is wanted. */
  function WithPrompt(prompts: map<Id, Prompt>, wanted: bool, id: Id, p: Prompt): map<Id, Prompt> {
    if wanted then prompts[id := StoredPrompt(p)] else prompts
  }

  /** The step on one wanted or unwanted prompt: where it went, and the id it took. */
  ghost predicate OneMore(w: World, db: Db, after: Db, wanted: bool, p: Prompt) {
    && after.view == db.view.(prompts := WithPrompt(db.view.prompts, wanted, w.uuid(db.next), p))
    && after.next == db.next + (if wanted then 1 else 0)
  }

  lemma PromptOnceIs(w: World, db: Db, p: Prompt)
    ensures var r := PromptOnce(w, db, p);
            r.Ok? && db.inTx ==> OneMore(w, db, r.db, !HasOpenPrompt(db.view, p.kind, p.title), p)
  {
  }

  /** A contact is suggested if and only if nobody answers, it was not declined, and it is not on the table already. */
  lemma ContactExactly(w: World, db: Db, from: string, m: Message)
    requires ValidWorld(w) && db.inTx
    ensures var r := SuggestContact(w, db, from, m);
            r.Ok? ==> (r.value.stop <==> Declined(db.view, from))
                      && OneMore(w, db, r.db, WantsContact(db.view, from), ContactPrompt(w, from, m))
  {
    ContactCases(w, db, from, ContactPrompt(w, from, m));
  }

  lemma ContactCases(w: World, db: Db, from: string, p: Prompt)
    requires ValidWorld(w) && db.inTx && p.kind.NewContact? && p.title == "New contact: " + from
    ensures var r := ContactFor(w, db, from, p);
            r.Ok? ==> (r.value.stop <==> Declined(db.view, from)) && OneMore(w, db, r.db, WantsContact(db.view, from), p)
  {
    PersonFound(w, db, from);
    var found := FindPersonByEmail(w, db, from);
    if found.Ok? && found.value.None? {
      var suppressed := IsSuggestionSuppressed(w, found.db, NewContact, "email", from);
      if suppressed.Ok? && !suppressed.value {
        PromptOnceIs(w, suppressed.db, p);
      }
    }
  }

  /** A company is suggested if and only if the domain is a business's, nobody owns it, and it is neither declined nor on the table. */
  lemma CompanyExactly(w: World, db: Db, from: string, m: Message)
    requires ValidWorld(w) && db.inTx
    ensures var r := SuggestCompany(w, db, from, m);
            r.Ok? ==> OneMore(w, db, r.db, WantsCompany(db.view, EmailDomain(from)), CompanyPrompt(from, EmailDomain(from), m))
  {
    CompanyCases(w, db, EmailDomain(from), CompanyPrompt(from, EmailDomain(from), m));
  }

  lemma CompanyCases(w: World, db: Db, domainName: string, p: Prompt)
    requires ValidWorld(w) && db.inTx && p.kind.NewCompany? && p.title == "New company: " + domainName
    ensures var r := CompanyFor(w, db, domainName, p);
            r.Ok? ==> OneMore(w, db, r.db, WantsCompany(db.view, domainName), p)
  {
    CompanyFound(w, db, domainName);
    var found := FindCompanyByDomain(w, db, domainName);
    if found.Ok? && found.value.None? {
      var suppressed := IsSuggestionSuppressed(w, found.db, NewCompany, "domain", domainName);
      if suppressed.Ok? && !suppressed.value {
        PromptOnceIs(w, suppressed.db, p);
      }
    }
  }

  /** Of one kind, nothing was added, or exactly this prompt. */
  ghost predicate AddsExactly(before: map<Id, Prompt>, after: map<Id, Prompt>, kind: Kind, wanted: bool, p: Prompt) {
    if wanted then exists q :: OnlyNew(before, after, kind, q, p)
    else forall q :: q in after && q !in before ==> after[q].kind != kind
  }

  ghost predicate OnlyNew(before: map<Id, Prompt>, after: map<Id, Prompt>, kind: Kind, q: Id, p: Prompt) {
    && q in after && q !in before && after[q] == StoredPrompt(p)
    && forall q' :: q' in after && q' !in before && after[q'].kind == kind ==> q' == q
  }

  lemma TwoMore(before: map<Id, Prompt>, deals: map<Id, Prompt>, contact: bool, i: Id, p: Prompt, company: bool, j: Id, k: Prompt)
    requires before.Keys <= deals.Keys && i !in deals && j !in deals && i != j
    requires forall q :: q in deals && q !in before ==> deals[q].kind.EmailDealLink?
    requires p.kind.NewContact? && k.kind.NewCompany?
    ensures var after := WithPrompt(WithPrompt(deals, contact, i, p), company, j, k);
            AddsExactly(before, after, NewContact, contact, p) && AddsExactly(before, after, NewCompany, company, k)
  {
    var after := WithPrompt(WithPrompt(deals, contact, i, p), company, j, k);
    if contact {
      assert OnlyNew(before, after, NewContact, i, p);
    }
    if company {
      assert OnlyNew(before, after, NewCompany, j, k);
    }
  }

  /** Nothing that decides about the sender's suggestions has changed. */
  ghost predicate SameForSender(t: Tables, u: Tables) {
    && u.addresses == t.addresses && u.suppressions == t.suppressions
    && u.companies == t.companies && u.domains == t.domains
    && u.people.Keys == t.people.Keys && (forall p :: p in t.people ==> u.people[p].email == t.people[p].email)
    && (forall q :: q in t.prompts ==> q in u.prompts && u.prompts[q] == t.prompts[q])
    && (forall q :: q in u.prompts && q !in t.prompts ==> u.prompts[q].kind.EmailDealLink?)
  }

  lemma SameOpenOfKind(t: Tables, u: Tables, kind: Kind, title: string)
    requires forall q :: q in t.prompts ==> q in u.prompts && u.prompts[q] == t.prompts[q]
    requires forall q :: q in u.prompts && q !in t.prompts ==> u.prompts[q].kind != kind
    ensures HasOpenPrompt(u, kind, title) <==> HasOpenPrompt(t, kind, title)
  {
    if HasOpenPrompt(t, kind, title) {
      var q :| q in t.prompts && t.prompts[q].kind == kind && t.prompts[q].title == title && t.prompts[q].status.Open?;
      assert q in u.prompts && u.prompts[q] == t.prompts[q];
    }
  }

  lemma SameAnswering(t: Tables, u: Tables, email: string)
    requires u.addresses == t.addresses && u.people.Keys == t.people.Keys
    requires forall p :: p in t.people ==> u.people[p].email == t.people[p].email
    ensures Answering(u, email) == Answering(t, email)
  {
    forall p ensures HasAddress(u, p, email) <==> HasAddress(t, p, email) {}
  }

  lemma SameOwners(t: Tables, u: Tables, domainName: string)
    requires u.companies == t.companies && u.domains == t.domains
    ensures CompaniesOf(u, domainName) == CompaniesOf(t, domainName)
  {
    forall c ensures HasDomain(u, c, domainName) <==> HasDomain(t, c, domainName) {}
  }

  lemma SameWishes(t: Tables, u: Tables, from: string, domainName: string)
    requires SameForSender(t, u)
    ensures Declined(u, from) <==> Declined(t, from)
    ensures WantsContact(u, from) <==> WantsContact(t, from)
    ensures WantsCompany(u, domainName) <==> WantsCompany(t, domainName)
  {
    SameAnswering(t, u, from);
    SameOwners(t, u, domainName);
    SameOpenOfKind(t, u, NewContact, "New contact: " + from);
    SameOpenOfKind(t, u, NewCompany, "New company: " + domainName);
  }

  /** The sender is somebody else. */
  predicate FromOthers(account: Account, from: string) {
    from != "" && from != Lower(account.email)
  }

  /** What suggesting adds to the prompts, as an outcome. */
  ghost predicate Suggests(before: map<Id, Prompt>, after: map<Id, Prompt>, contact: bool, p: Prompt, company: bool, k: Prompt) {
    AddsExactly(before, after, NewContact, contact, p) && AddsExactly(before, after, NewCompany, company, k)
  }

  /** Only deal links were added so far. */
  ghost predicate DealsSoFar(before: map<Id, Prompt>, prompts: map<Id, Prompt>) {
    before.Keys <= prompts.Keys && forall q :: q in prompts && q !in before ==> prompts[q].kind.EmailDealLink?
  }

  lemma ContactOnly(w: World, db: Db, contact: Db, wanted: bool, before: map<Id, Prompt>, p: Prompt, k: Prompt)
    requires ValidWorld(w) && FreshIds(w, db.view, db.next) && DealsSoFar(before, db.view.prompts)
    requires p.kind.NewContact? && k.kind.NewCompany? && OneMore(w, db, contact, wanted, p)
    ensures Suggests(before, contact.view.prompts, wanted, p, false, k)
  {
    TwoMore(before, db.view.prompts, wanted, w.uuid(db.next), p, false, w.uuid(db.next + 1), k);
  }

  lemma ContactThenCompany(w: World, db: Db, contact: Db, company: Db, wanted: bool, domainName: string,
                           before: map<Id, Prompt>, p: Prompt, k: Prompt)
    requires ValidWorld(w) && FreshIds(w, db.view, db.next) && DealsSoFar(before, db.view.prompts)
    requires p.kind.NewContact? && k.kind.NewCompany? && OneMore(w, db, contact, wanted, p)
    requires OneMore(w, contact, company, WantsCompany(contact.view, domainName), k)
    ensures Suggests(before, company.view.prompts, wanted, p, WantsCompany(db.view, domainName), k)
  {
    var i := if wanted then w.uuid(db.next) else w.uuid(db.next + 1);
    CompanyAfterContact(db.view, contact.view, wanted, w.uuid(db.next), p, domainName);
    TwoMore(before, db.view.prompts, wanted, i, p, WantsCompany(db.view, domainName), w.uuid(contact.next), k);
  }

  lemma NothingMore(before: map<Id, Prompt>, prompts: map<Id, Prompt>, p: Prompt, k: Prompt)
    requires DealsSoFar(before, prompts)
    ensures Suggests(before, prompts, false, p, false, k)
  {
  }

  lemma OwnMailSuggestsNothing(w: World, db: Db, account: Account, m: Message, from: string)
    requires from == Normal(m.fromEmail) && !FromOthers(account, from)
    ensures SuggestEntities(w, db, account, m) == Ok(0, db)
  {
  }

  /** Suggesting: first the contact, then, unless the contact was declined, the company. */
  lemma EntitiesExactly(w: World, db: Db, account: Account, m: Message, from: string, before: map<Id, Prompt>)
    requires ValidWorld(w) && db.inTx && FreshIds(w, db.view, db.next) && DealsSoFar(before, db.view.prompts)
    requires from == Normal(m.fromEmail)
    ensures var r := SuggestEntities(w, db, account, m);
            r.Ok? ==> Suggests(before, r.db.view.prompts,
                               FromOthers(account, from) && WantsContact(db.view, from), ContactPrompt(w, from, m),
                               FromOthers(account, from) && !Declined(db.view, from) && WantsCompany(db.view, EmailDomain(from)),
                               CompanyPrompt(from, EmailDomain(from), m))
  {
    if FromOthers(account, from) {
      OthersExactly(w, db, account, m, from, before);
    } else {
      OwnMailSuggestsNothing(w, db, account, m, from);
      NothingMore(before, db.view.prompts, ContactPrompt(w, from, m), CompanyPrompt(from, EmailDomain(from), m));
    }
  }

  lemma OthersExactly(w: World, db: Db, account: Account, m: Message, from: string, before: map<Id, Prompt>)
    requires ValidWorld(w) && db.inTx && FreshIds(w, db.view, db.next) && DealsSoFar(before, db.view.prompts)
    requires from == Normal(m.fromEmail) && FromOthers(account, from)
    ensures var r := SuggestEntities(w, db, account, m);
            r.Ok? ==> Suggests(before, r.db.view.prompts, WantsContact(db.view, from), ContactPrompt(w, from, m),
                               !Declined(db.view, from) && WantsCompany(db.view, EmailDomain(from)),
                               CompanyPrompt(from, EmailDomain(from), m))
  {
    var p, k := ContactPrompt(w, from, m), CompanyPrompt(from, EmailDomain(from), m);
    ContactExactly(w, db, from, m);
    var contact := SuggestContact(w, db, from, m);
    if contact.Ok? {
      SuggestContactAdds(w, db, from, m);
      if contact.value.stop {
        ContactOnly(w, db, contact.db, WantsContact(db.view, from), before, p, k);
      } else {
        CompanyExactly(w, contact.db, from, m);
        var company := SuggestCompany(w, contact.db, from, m);
        if company.Ok? {
          ContactThenCompany(w, db, contact.db, company.db, WantsContact(db.view, from), EmailDomain(from), before, p, k);
        }
      }
    }
  }

  lemma CompanyAfterContact(t: Tables, u: Tables, wanted: bool, id: Id, p: Prompt, domainName: string)
    requires id !in t.prompts && p.kind.NewContact? && u == t.(prompts := WithPrompt(t.prompts, wanted, id, p))
    ensures WantsCompany(u, domainName) <==> WantsCompany(t, domainName)
  {
    SameOwners(t, u, domainName);
    SameOpenOfKind(t, u, NewCompany, "New company: " + domainName);
  }

  // ----- a whole message -----

  lemma DealsOnly(w: World, t: Tables, after: Tables, m: Message, activity: Id, people: set<Id>, seen: map<Id, Deal>)
    requires DealLinksSuggested(w, t, after, m, activity, people, seen)
    ensures DealsSoFar(t.prompts, after.prompts)
  {
    forall q | q in after.prompts && q !in t.prompts ensures after.prompts[q].kind.EmailDealLink? {
      assert IsStoredDealPrompt(m, activity, seen, after.prompts[q]);
    }
  }

  /** A timeline that went well recorded nothing, or went through all of its stages. */
  lemma TimelineStages(w: World, db: Db, account: Account, m: Message)
    ensures var r := LinkEmailToTimeline(w, db, account, m);
            r.Ok? ==> TimelineFrom(w, MatchPeople(w, db, RelevantEmails(account, m), {}), account, m, r.db)
  {
  }

  predicate TimelineFrom(w: World, matched: Result<set<Id>>, account: Account, m: Message, after: Db) {
    && matched.Ok?
    && (matched.value == {} ==> after == matched.db)
    && (matched.value != {} ==> CreatedThen(w, matched.db, account, m, matched.value, after))
  }

  predicate CreatedThen(w: World, db: Db, account: Account, m: Message, people: set<Id>, after: Db) {
    var created := CreateActivity(w, db, Recorded(m), people);
    created.Ok? && TimelineEnd(w, created.db, account, m, created.value, people, after)
  }

  predicate TimelineEnd(w: World, db: Db, account: Account, m: Message, activity: Id, people: set<Id>, after: Db) {
    var touched := PointAndTouch(w, db, account, m, activity, people);
    touched.Ok? && var deals := SuggestDealLinks(w, touched.db, m, activity, people); deals.Ok? && after == deals.db
  }

  lemma TimelineDealsOnly(w: World, db: Db, account: Account, m: Message)
    requires ValidWorld(w) && db.inTx && FreshIds(w, db.view, db.next)
    requires m.id in db.view.messages && db.view.messages[m.id] == Row(m, None)
    ensures var r := LinkEmailToTimeline(w, db, account, m);
            r.Ok? ==> DealsSoFar(db.view.prompts, r.db.view.prompts)
  {
    TimelineStages(w, db, account, m);
    var emails := RelevantEmails(account, m);
    MatchPeopleReads(w, db, emails, {});
    var r, matched := LinkEmailToTimeline(w, db, account, m), MatchPeople(w, db, emails, {});
    if r.Ok? && matched.value != {} {
      CreatedDealsOnly(w, matched.db, account, m, matched.value, r.db);
    }
  }

  lemma CreatedDealsOnly(w: World, db: Db, account: Account, m: Message, people: set<Id>, after: Db)
    requires ValidWorld(w) && db.inTx && FreshIds(w, db.view, db.next)
    requires m.id in db.view.messages && db.view.messages[m.id] == Row(m, None)
    requires CreatedThen(w, db, account, m, people, after)
    ensures DealsSoFar(db.view.prompts, after.view.prompts)
  {
    NewActivityKeepsFresh(w, db.view, Recorded(m), people, db.next);
    var created := CreateActivity(w, db, Recorded(m), people).db;
    assert created.view == WithNewActivity(db.view, w.uuid(db.next), Recorded(m), people) && created.next == db.next + 1;
    PointedDealsOnly(w, created, account, m, w.uuid(db.next), people);
  }

  lemma PointedDealsOnly(w: World, db: Db, account: Account, m: Message, activity: Id, people: set<Id>)
    requires ValidWorld(w) && db.inTx && FreshIds(w, db.view, db.next)
    requires forall i: nat :: i >= db.next ==> w.uuid(i) != activity
    requires m.id in db.view.messages && db.view.messages[m.id] == Row(m, None)
    ensures var touched := PointAndTouch(w, db, account, m, activity, people);
            touched.Ok? ==>
              var r := SuggestDealLinks(w, touched.db, m, activity, people);
              r.Ok? ==> DealsSoFar(db.view.prompts, r.db.view.prompts)
  {
    PointAndTouchEffect(w, db, account, m, activity, people);
    var touched := PointAndTouch(w, db, account, m, activity, people);
    if touched.Ok? {
      PointingKeepsFresh(w, db.view, m.id, activity, db.next);
      DealLinksExactly(w, touched.db, m, activity, people);
      var r := SuggestDealLinks(w, touched.db, m, activity, people);
      if r.Ok? {
        var seen :| DealLinksSuggested(w, touched.db.view, r.db.view, m, activity, people, seen);
        DealsOnly(w, touched.db.view, r.db.view, m, activity, people, seen);
      }
    }
  }

  lemma TimelineForSender(t: Tables, u: Tables, m: Message, id: Id, people: set<Id>, n: nat)
    requires Timeline(t, u, m, id, people, n) && DealsSoFar(t.prompts, u.prompts)
    ensures SameForSender(t, u)
  {
  }

  lemma TimelineKeepsSender(w: World, db: Db, account: Account, m: Message)
    requires ValidWorld(w) && db.inTx && FreshIds(w, db.view, db.next) && FreshIds(w, db.durable, db.next)
    requires m.id in db.view.messages && db.view.messages[m.id] == Row(m, None)
    ensures var r := LinkEmailToTimeline(w, db, account, m);
            r.Ok? ==> SameForSender(db.view, r.db.view) && r.db.inTx && FreshIds(w, r.db.view, r.db.next)
  {
    TimelineEffect(w, db, account, m);
    TimelineDealsOnly(w, db, account, m);
    var r := LinkEmailToTimeline(w, db, account, m);
    if r.Ok? && r.value.linked {
      TimelineForSender(db.view, r.db.view, m, w.uuid(db.next), MatchedPeople(w, db, account, m), r.value.suggestions);
    }
  }

  /** The suggestions about the sender, in terms of the tables before. */
  ghost predicate SenderSuggested(w: World, t: Tables, after: Tables, account: Account, m: Message, from: string) {
    Suggests(t.prompts, after.prompts,
             FromOthers(account, from) && WantsContact(t, from), ContactPrompt(w, from, m),
             FromOthers(account, from) && !Declined(t, from) && WantsCompany(t, EmailDomain(from)),
             CompanyPrompt(from, EmailDomain(from), m))
  }

  lemma StoredForSender(t: Tables, u: Tables, m: Message, from: string)
    requires u == Stored(t, m)
    ensures SameForSender(t, u)
  {
  }

  lemma AfterTimeline(w: World, t: Tables, link: Db, account: Account, m: Message, from: string)
    requires ValidWorld(w) && link.inTx && FreshIds(w, link.view, link.next)
    requires SameForSender(Stored(t, m), link.view) && from == Normal(m.fromEmail)
    ensures var r := SuggestEntities(w, link, account, m);
            r.Ok? ==> SenderSuggested(w, t, r.db.view, account, m, from)
  {
    SameWishes(Stored(t, m), link.view, from, EmailDomain(from));
    StoredForSender(t, Stored(t, m), m, from);
    SameWishes(t, Stored(t, m), from, EmailDomain(from));
    EntitiesExactly(w, link, account, m, from, t.prompts);
  }

  lemma NewMessageStages(w: World, db: Db, account: Account, m: Message)
    ensures var r := ProcessNoTx(w, db, account, m);
            r.Ok? && r.value.created ==>
              var up := UpsertEmailMessage(w, db, m);
              up.Ok? && up.value && SuggestedEnd(w, up.db, account, m, r.db)
  {
  }

  predicate SuggestedEnd(w: World, db: Db, account: Account, m: Message, after: Db) {
    var link := LinkEmailToTimeline(w, db, account, m);
    link.Ok? && var sug := SuggestEntities(w, link.db, account, m); sug.Ok? && after == sug.db
  }

  lemma StoredSuggests(w: World, t: Tables, db: Db, account: Account, m: Message, from: string, after: Db)
    requires ValidWorld(w) && db.inTx && FreshIds(w, db.view, db.next) && FreshIds(w, db.durable, db.next)
    requires db.view == Stored(t, m) && SuggestedEnd(w, db, account, m, after)
    requires from == Normal(m.fromEmail)
    ensures SenderSuggested(w, t, after.view, account, m, from)
  {
    TimelineKeepsSender(w, db, account, m);
    AfterTimeline(w, t, LinkEmailToTimeline(w, db, account, m).db, account, m, from);
  }

  lemma NoTxSuggests(w: World, db: Db, account: Account, m: Message, from: string)
    requires ValidWorld(w) && db.inTx && !db.aborted && FreshIds(w, db.view, db.next) && FreshIds(w, db.durable, db.next)
    requires from == Normal(m.fromEmail)
    ensures var r := ProcessNoTx(w, db, account, m);
            r.Ok? && r.value.created ==> SenderSuggested(w, db.view, r.db.view, account, m, from)
  {
    NewMessageStages(w, db, account, m);
    var r := ProcessNoTx(w, db, account, m);
    if r.Ok? && r.value.created {
      var up := UpsertEmailMessage(w, db, m);
      StoredFresh(w, db, m);
      StoredSuggests(w, db.view, up.db, account, m, from, r.db);
    }
  }

  lemma StoredFresh(w: World, db: Db, m: Message)
    requires db.inTx && FreshIds(w, db.view, db.next)
    ensures var up := UpsertEmailMessage(w, db, m);
            up.Ok? && up.value ==>
              && up.db.inTx && up.db.view == Stored(db.view, m) && up.db.durable == db.durable
              && up.db.next == db.next && FreshIds(w, up.db.view, up.db.next)
  {
  }

  /**
   A new message that was processed suggests its sender as a contact, and the sender's domain as a
   company, exactly when the tables before call for it, and with exactly these texts. A declined
   contact also keeps its company from being suggested.
   */
  lemma SenderSuggestedExactly(w: World, db: Db, account: Account, m: Message, from: string)
    requires ValidWorld(w) && Idle(db) && FreshIds(w, db.durable, db.next)
    requires from == Normal(m.fromEmail)
    ensures var r := Process(w, db, account, m);
            r.Ok? && r.value.created ==> SenderSuggested(w, db.durable, r.db.durable, account, m, from)
  {
    var begun := Begin(w, db);
    if begun.Ok? {
      NoTxSuggests(w, begun.db, account, m, from);
      ProcessNoTxEffect(w, begun.db, account, m);
      FinishOutcome(w, ProcessNoTx(w, begun.db, account, m));
    }
  }

  const MAIL_PROVIDERS := {
    "gmail.com", "googlemail.com", "icloud.com", "me.com", "mac.com", "outlook.com", "hotmail.com", "live.com",
    "yahoo.com", "proton.me", "protonmail.com", "gmx.de", "web.de", "t-online.de", "aol.com"}

  lemma ProviderIsPersonal(d: string)
    requires d in MAIL_PROVIDERS
    ensures IsPersonalEmailDomain(d)
  {
  }

  ghost predicate NoCompanyAdded(t: Tables, after: Tables) {
    forall q :: q in after.prompts && q !in t.prompts ==> after.prompts[q].kind != NewCompany
  }

  lemma PersonalAddsNone(w: World, t: Tables, after: Tables, account: Account, m: Message, from: string)
    requires SenderSuggested(w, t, after, account, m, from) && IsPersonalEmailDomain(EmailDomain(from))
    ensures NoCompanyAdded(t, after)
  {
  }

  /** The sender's address at a mail provider says nothing about his company: none is suggested for it. */
  lemma ProvidersAreNoCompanies(w: World, db: Db, account: Account, m: Message, local: string, d: string)
    requires ValidWorld(w) && Idle(db) && FreshIds(w, db.durable, db.next)
    requires '@' !in local && Normal(m.fromEmail) == local + "@" + d && Normal(d) == d && d in MAIL_PROVIDERS
    requires Process(w, db, account, m).Ok? && Process(w, db, account, m).value.created
    ensures NoCompanyAdded(db.durable, Process(w, db, account, m).db.durable)
  {
    DomainFollowsAt(local, d);
    ProviderIsPersonal(d);
    SenderSuggestedExactly(w, db, account, m, Normal(m.fromEmail));
    PersonalAddsNone(w, db.durable, Process(w, db, account, m).db.durable, account, m, Normal(m.fromEmail));
  }
}
