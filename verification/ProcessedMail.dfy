/**
 What a processed message leaves behind, from the tables before: whom it is recorded for, what its
 owner keeps of it, and which deals it suggests to link it to.
 */
module ProcessedMail {
  import opened Wrappers
  import opened Text
  import opened CrmTables
  import opened EmailSync
  import opened EmailSyncProofs
  import opened IngestedContent
  import opened SenderSuggestions

  /**
   The full text is with the activity, for the owner; each deal of the people has an open link
   prompt, and every link prompt added asks about one of these deals and about this activity.
   */
  ghost predicate MailKept(w: World, t: Tables, after: Tables, account: Account, m: Message, activity: Id, people: set<Id>,
                           seen: map<Id, Deal>) {
    && after.details == DetailsOf(t, account, activity, m)
    && DealsOf(w, people, seen)
    && (forall d :: d in seen ==> HasOpenPrompt(after, EmailDealLink, DealTitle(seen[d])))
    && (forall q :: q in after.prompts && q !in t.prompts && after.prompts[q].kind.EmailDealLink? ==>
          IsStoredDealPrompt(m, activity, seen, after.prompts[q]))
  }

  ghost predicate KeepsMail(w: World, t: Tables, after: Tables, account: Account, m: Message, activity: Id, people: set<Id>) {
    exists seen :: MailKept(w, t, after, account, m, activity, people, seen)
  }

  // ----- the timeline -----

  lemma DealsThenKept(w: World, t: Tables, touched: Tables, after: Tables, account: Account, m: Message, activity: Id,
                      people: set<Id>)
    requires touched.details == DetailsOf(t, account, activity, m) && touched.prompts == t.prompts
    requires after.details == touched.details
    requires exists seen :: DealLinksSuggested(w, touched, after, m, activity, people, seen)
    ensures KeepsMail(w, t, after, account, m, activity, people)
  {
    var seen :| DealLinksSuggested(w, touched, after, m, activity, people, seen);
    assert MailKept(w, t, after, account, m, activity, people, seen);
  }

  lemma EndKept(w: World, db: Db, account: Account, m: Message, activity: Id, people: set<Id>, after: Db)
    requires ValidWorld(w) && db.inTx && FreshIds(w, db.view, db.next)
    requires forall i: nat :: i >= db.next ==> w.uuid(i) != activity
    requires m.id in db.view.messages && db.view.messages[m.id] == Row(m, None)
    requires TimelineEnd(w, db, account, m, activity, people, after)
    ensures KeepsMail(w, db.view, after.view, account, m, activity, people)
  {
    PointAndTouchEffect(w, db, account, m, activity, people);
    TextKeptForOwner(w, db, account, m, activity, people);
    var touched := PointAndTouch(w, db, account, m, activity, people).db;
    PointingKeepsFresh(w, db.view, m.id, activity, db.next);
    SuggestDealLinksAdds(w, touched, m, activity, people);
    DealLinksExactly(w, touched, m, activity, people);
    DealsThenKept(w, db.view, touched.view, after.view, account, m, activity, people);
  }

  lemma SameStart(w: World, t: Tables, u: Tables, after: Tables, account: Account, m: Message, activity: Id, people: set<Id>)
    requires u.details == t.details && u.prompts == t.prompts && KeepsMail(w, u, after, account, m, activity, people)
    ensures KeepsMail(w, t, after, account, m, activity, people)
  {
    var seen :| MailKept(w, u, after, account, m, activity, people, seen);
    assert MailKept(w, t, after, account, m, activity, people, seen);
  }

  lemma CreatedKept(w: World, db: Db, account: Account, m: Message, people: set<Id>, after: Db)
    requires ValidWorld(w) && db.inTx && FreshIds(w, db.view, db.next)
    requires m.id in db.view.messages && db.view.messages[m.id] == Row(m, None)
    requires CreatedThen(w, db, account, m, people, after)
    ensures KeepsMail(w, db.view, after.view, account, m, w.uuid(db.next), people)
  {
    NewActivityKeepsFresh(w, db.view, Recorded(m), people, db.next);
    var created := CreateActivity(w, db, Recorded(m), people).db;
    EndKept(w, created, account, m, w.uuid(db.next), people, after);
    SameStart(w, db.view, created.view, after.view, account, m, w.uuid(db.next), people);
  }

  lemma TimelineKept(w: World, db: Db, account: Account, m: Message)
    requires ValidWorld(w) && db.inTx && FreshIds(w, db.view, db.next)
    requires m.id in db.view.messages && db.view.messages[m.id] == Row(m, None)
    ensures var r := LinkEmailToTimeline(w, db, account, m);
            r.Ok? && MatchedPeople(w, db, account, m) != {} ==>
              KeepsMail(w, db.view, r.db.view, account, m, w.uuid(db.next), MatchedPeople(w, db, account, m))
  {
    TimelineStages(w, db, account, m);
    var emails := RelevantEmails(account, m);
    MatchPeopleReads(w, db, emails, {});
    var r, matched := LinkEmailToTimeline(w, db, account, m), MatchPeople(w, db, emails, {});
    if r.Ok? && matched.value != {} {
      CreatedKept(w, matched.db, account, m, matched.value, r.db);
      SameStart(w, db.view, matched.db.view, r.db.view, account, m, w.uuid(db.next), matched.value);
    }
  }

  // ----- the sender's suggestions change none of it -----

  /** Prompts were added, and none of them asks about a deal. */
  ghost predicate NoDealAdded(db: Db, after: Db) {
    && after.view == db.view.(prompts := after.view.prompts)
    && (forall q :: q in db.view.prompts ==> q in after.view.prompts && after.view.prompts[q] == db.view.prompts[q])
    && (forall q :: q in after.view.prompts && q !in db.view.prompts ==> !after.view.prompts[q].kind.EmailDealLink?)
  }

  lemma OneMoreIsNoDeal(w: World, db: Db, after: Db, wanted: bool, p: Prompt)
    requires OneMore(w, db, after, wanted, p) && !p.kind.EmailDealLink? && w.uuid(db.next) !in db.view.prompts
    ensures NoDealAdded(db, after)
  {
  }

  lemma NoDealTwice(a: Db, b: Db, c: Db)
    requires NoDealAdded(a, b) && NoDealAdded(b, c)
    ensures NoDealAdded(a, c)
  {
  }

  lemma SenderAddsNoDeal(w: World, db: Db, from: string, m: Message)
    requires ValidWorld(w) && db.inTx && FreshIds(w, db.view, db.next)
    ensures var r := SuggestSender(w, db, from, m);
            r.Ok? ==> NoDealAdded(db, r.db)
  {
    var contact := SuggestContact(w, db, from, m);
    ContactExactly(w, db, from, m);
    SuggestContactAdds(w, db, from, m);
    if contact.Ok? {
      OneMoreIsNoDeal(w, db, contact.db, WantsContact(db.view, from), ContactPrompt(w, from, m));
      if !contact.value.stop {
        CompanyExactly(w, contact.db, from, m);
        var company := SuggestCompany(w, contact.db, from, m);
        if company.Ok? {
          OneMoreIsNoDeal(w, contact.db, company.db, WantsCompany(contact.db.view, EmailDomain(from)),
                          CompanyPrompt(from, EmailDomain(from), m));
          NoDealTwice(db, contact.db, company.db);
        }
      }
    }
  }

  lemma EntitiesAddNoDeal(w: World, db: Db, account: Account, m: Message)
    requires ValidWorld(w) && db.inTx && FreshIds(w, db.view, db.next)
    ensures var r := SuggestEntities(w, db, account, m);
            r.Ok? ==> NoDealAdded(db, r.db)
  {
    SenderAddsNoDeal(w, db, Normal(m.fromEmail), m);
  }

  lemma KeptOnTop(w: World, t: Tables, link: Db, after: Db, account: Account, m: Message, activity: Id, people: set<Id>)
    requires KeepsMail(w, t, link.view, account, m, activity, people) && NoDealAdded(link, after)
    ensures KeepsMail(w, t, after.view, account, m, activity, people)
  {
    var seen :| MailKept(w, t, link.view, account, m, activity, people, seen);
    forall d | d in seen
      ensures HasOpenPrompt(after.view, EmailDealLink, DealTitle(seen[d]))
    {
      var q :| q in link.view.prompts && link.view.prompts[q].kind == EmailDealLink
               && link.view.prompts[q].title == DealTitle(seen[d]) && link.view.prompts[q].status.Open?;
      assert after.view.prompts[q] == link.view.prompts[q];
    }
    assert MailKept(w, t, after.view, account, m, activity, people, seen);
  }

  // ----- a whole message -----

  lemma StoredKept(w: World, t: Tables, stored: Db, account: Account, m: Message)
    requires ValidWorld(w) && stored.inTx && FreshIds(w, stored.view, stored.next) && FreshIds(w, stored.durable, stored.next)
    requires stored.view == Stored(t, m)
    ensures var r := RecordAndSuggest(w, stored, account, m);
            r.Ok? && MatchedPeople(w, stored, account, m) != {} ==>
              KeepsMail(w, t, r.db.view, account, m, w.uuid(stored.next), MatchedPeople(w, stored, account, m))
  {
    var people := MatchedPeople(w, stored, account, m);
    TimelineKept(w, stored, account, m);
    TimelineEffect(w, stored, account, m);
    var link := LinkEmailToTimeline(w, stored, account, m);
    if link.Ok? && people != {} {
      EntitiesAddNoDeal(w, link.db, account, m);
      var sug := SuggestEntities(w, link.db, account, m);
      if sug.Ok? {
        KeptOnTop(w, stored.view, link.db, sug.db, account, m, w.uuid(stored.next), people);
        SameStart(w, t, stored.view, sug.db.view, account, m, w.uuid(stored.next), people);
      }
    }
  }

  /** The people answer to addresses of the message, and each answered address is represented. */
  ghost predicate RecordedForAnswering(t: Tables, account: Account, m: Message, people: set<Id>) {
    Represents(t, RelevantEmails(account, m), {}, people)
  }

  lemma MatchedAnswer(w: World, t: Tables, stored: Db, account: Account, m: Message)
    requires ValidWorld(w) && stored.view.people == t.people && stored.view.addresses == t.addresses
    requires MatchPeople(w, stored, RelevantEmails(account, m), {}).Ok?
    ensures RecordedForAnswering(t, account, m, MatchedPeople(w, stored, account, m))
  {
    var emails, people := RelevantEmails(account, m), MatchedPeople(w, stored, account, m);
    MatchedRepresent(w, stored, emails, {});
    SameRepresents(t, stored.view, emails, people);
  }

  lemma SameRepresents(t: Tables, u: Tables, emails: seq<string>, people: set<Id>)
    requires t.people == u.people && t.addresses == u.addresses && Represents(u, emails, {}, people)
    ensures Represents(t, emails, {}, people)
  {
    forall i | 0 <= i < |emails|
      ensures Answering(t, emails[i]) == Answering(u, emails[i])
    {
      SameAnswering(t, u, emails[i]);
    }
    forall p | p in people
      ensures AnswersSome(t, emails, p)
    {
      assert AnswersSome(u, emails, p);
      var i :| 0 <= i < |emails| && p in Answering(u, emails[i]);
      assert p in Answering(t, emails[i]);
    }
  }

  /** The activity is linked to exactly these people, and exactly they are touched: by the later of the old time and the mail's. */
  ghost predicate LinkedTo(t: Tables, after: Tables, m: Message, id: Id, people: set<Id>) {
    && (forall l :: l in after.links <==> l in t.links || (exists p :: p in people && l == Link(id, PersonEntity(p))))
    && after.people.Keys == t.people.Keys
    && (forall p :: p in t.people && p !in people ==> after.people[p] == t.people[p])
    && (forall p :: p in t.people && p in people ==> TouchedAt(t.people[p], after.people[p], m.sentAt))
  }

  predicate TouchedAt(before: Person, after: Person, at: int) {
    && after == before.(lastTouch := after.lastTouch) && after.lastTouch.Some?
    && at <= after.lastTouch.value && (before.lastTouch.Some? ==> before.lastTouch.value <= after.lastTouch.value)
    && (after.lastTouch == Some(at) || after.lastTouch == before.lastTouch)
  }

  lemma RowsAreLinked(t: Tables, after: Tables, m: Message, id: Id, people: set<Id>)
    requires IngestedRows(t, after, m, true, id, people)
    ensures LinkedTo(t, after, m, id, people)
  {
    forall p | p in t.people && p in people
      ensures TouchedAt(t.people[p], after.people[p], m.sentAt)
    {
    }
  }

  lemma ProcessedMailIsLinked(w: World, db: Db, account: Account, m: Message)
    requires ValidWorld(w) && Idle(db) && FreshIds(w, db.durable, db.next)
    requires Process(w, db, account, m).Ok? && Process(w, db, account, m).value.linked
    ensures LinkedTo(db.durable, Process(w, db, account, m).db.durable, m, w.uuid(db.next), RecordedFor(w, db, account, m))
  {
    ProcessEffect(w, db, account, m);
    RowsAreLinked(db.durable, Process(w, db, account, m).db.durable, m, w.uuid(db.next), RecordedFor(w, db, account, m));
  }

  /**
   A new message that was processed and recorded: its activity is for people who answer to its
   addresses, with somebody for each address that is answered, and is linked to them and touches
   them; its owner keeps the full text; and it asks to be linked to the deals of these people, exactly.
   */
  lemma ProcessedMailExactly(w: World, db: Db, account: Account, m: Message)
    requires ValidWorld(w) && Idle(db) && FreshIds(w, db.durable, db.next)
    requires Process(w, db, account, m).Ok? && Process(w, db, account, m).value.linked
    ensures var after, people := Process(w, db, account, m).db.durable, RecordedFor(w, db, account, m);
            && RecordedForAnswering(db.durable, account, m, people)
            && LinkedTo(db.durable, after, m, w.uuid(db.next), people)
            && KeepsMail(w, db.durable, after, account, m, w.uuid(db.next), people)
  {
    ProcessedMailIsLinked(w, db, account, m);
    var begun := Begin(w, db);
    NoTxKept(w, begun.db, account, m);
    ProcessNoTxEffect(w, begun.db, account, m);
    FinishOutcome(w, ProcessNoTx(w, begun.db, account, m));
  }

  lemma NoTxKept(w: World, db: Db, account: Account, m: Message)
    requires ValidWorld(w) && db.inTx && !db.aborted && FreshIds(w, db.view, db.next) && FreshIds(w, db.durable, db.next)
    ensures var r := ProcessNoTx(w, db, account, m);
            var people := MatchedPeople(w, UpsertEmailMessage(w, db, m).db, account, m);
            r.Ok? && r.value.linked ==>
              && RecordedForAnswering(db.view, account, m, people)
              && KeepsMail(w, db.view, r.db.view, account, m, w.uuid(db.next), people)
  {
    var r := ProcessNoTx(w, db, account, m);
    var up := UpsertEmailMessage(w, db, m);
    ProcessNoTxEffect(w, db, account, m);
    if r.Ok? && r.value.linked {
      StoredFresh(w, db, m);
      StoredKept(w, db.view, up.db, account, m);
      MatchedAnswer(w, db.view, up.db, account, m);
    }
  }
}
