/**
 All-or-nothing: a failed message should leave no trace. It is so for every way in which store
 calls can fail if and only if the message is stored already or nobody answers to its
 addresses: otherwise an activity is recorded in a transaction of its own, and can stay.
 */
module FailureTraces {
  import opened Wrappers
  import opened Text
  import opened CrmTables
  import opened EmailSync
  import opened EmailSyncProofs
  import opened SyncAccounting
  import opened ConcreteWorlds

  /** A failed message leaves no trace exactly when no activity was recorded for it. */
  lemma NoTraceIff(w: World, db: Db, account: Account, m: Message)
    requires ValidWorld(w) && Sound(w, db) && Process(w, db, account, m).Err?
    ensures Process(w, db, account, m).db.durable == db.durable <==> !RecordsActivity(w, db, account, m)
  {
    ProcessEffect(w, db, account, m);
    LeftoverCounts(db.durable, w.uuid(db.next), Recorded(m), RecordedFor(w, db, account, m));
    assert w.uuid(db.next) !in db.durable.activities;
  }

  /** Nobody answers to any of the addresses. */
  predicate Unanswered(t: Tables, emails: seq<string>) {
    forall i :: 0 <= i < |emails| ==> Answering(t, emails[i]) == {}
  }

  /** Nobody answers to an address of the message. */
  predicate FromStrangers(t: Tables, account: Account, m: Message) {
    Unanswered(t, RelevantEmails(account, m))
  }

  lemma StrangersLeaveNoTrace(w: World, db: Db, account: Account, m: Message)
    requires ValidWorld(w) && Sound(w, db) && FromStrangers(db.durable, account, m)
    ensures !RecordsActivity(w, db, account, m)
  {
    var begun := Begin(w, db);
    if begun.Ok? && StoredNow(w, begun.db, m) {
      StoringKeepsPeople(w, begun.db, m);
      StrangersNotMatched(w, db.durable, UpsertEmailMessage(w, begun.db, m).db, account, m);
    }
  }

  lemma StoringKeepsPeople(w: World, db: Db, m: Message)
    ensures var view := UpsertEmailMessage(w, db, m).db.view;
            view.people == db.view.people && view.addresses == db.view.addresses
  {
  }

  lemma StrangersNotMatched(w: World, t: Tables, stored: Db, account: Account, m: Message)
    requires ValidWorld(w) && t.people == stored.view.people && t.addresses == stored.view.addresses
    requires FromStrangers(t, account, m)
    ensures !ActivityCommitted(w, stored, account, m)
  {
    NobodyMatched(w, t, stored, RelevantEmails(account, m), Recorded(m));
  }

  lemma NobodyMatched(w: World, t: Tables, db: Db, emails: seq<string>, a: Activity)
    requires ValidWorld(w) && t.people == db.view.people && t.addresses == db.view.addresses
    requires Unanswered(t, emails)
    ensures !CommittedFor(w, db, emails, a)
  {
    SamePeopleAnswer(t, db.view, emails);
    MatchPeopleReads(w, db, emails, {});
  }

  lemma SamePeopleAnswer(t: Tables, u: Tables, emails: seq<string>)
    requires t.people == u.people && t.addresses == u.addresses
    ensures Unanswered(t, emails) <==> Unanswered(u, emails)
  {
    forall p, e
      ensures HasAddress(t, p, e) <==> HasAddress(u, p, e)
    {
    }
    forall i | 0 <= i < |emails|
      ensures Answering(t, emails[i]) == Answering(u, emails[i])
    {
    }
  }

  // ----- a call that fails too late -----

  /** Calls in order: begin, store the mail, look each address up, record the activity, and then this one. */
  function CallAfterActivity(db: Db, account: Account, m: Message): nat {
    db.calls + 2 + |RelevantEmails(account, m)| + 1
  }

  /** The same world, in which that call fails and no other. */
  function FailingLate(w: World, db: Db, account: Account, m: Message): World {
    w.(fails := n => n == CallAfterActivity(db, account, m))
  }

  /** Looking addresses up goes well as long as no call fails. */
  lemma {:induction false} MatchSucceeds(w: World, db: Db, emails: seq<string>, matched: set<Id>)
    requires !db.aborted && forall n :: db.calls <= n < db.calls + |emails| ==> !w.fails(n)
    ensures var r := MatchPeople(w, db, emails, matched);
            r.Ok? && r.db == db.(calls := db.calls + |emails|)
    decreases |emails|
  {
    if emails != [] {
      var found := FindPersonByEmail(w, db, emails[0]);
      MatchSucceeds(w, found.db, emails[1..], if found.value.Some? then matched + {found.value.value} else matched);
    }
  }

  /** The state in which the addresses are looked up. */
  function StoredState(db: Db, m: Message): Db {
    db.(calls := db.calls + 2, inTx := true, view := Stored(db.view, m))
  }

  lemma StoredFirst(w: World, db: Db, m: Message)
    requires Idle(db) && m.id !in db.durable.messages && !w.fails(db.calls) && !w.fails(db.calls + 1)
    ensures Begin(w, db).Ok? && StoredNow(w, Begin(w, db).db, m)
    ensures UpsertEmailMessage(w, Begin(w, db).db, m).db == StoredState(db, m)
  {
  }

  /** The activity is recorded, and the call that follows fails. */
  lemma RecordedThenFails(w: World, stored: Db, account: Account, m: Message, k: nat)
    requires ValidWorld(w) && stored.inTx && !stored.aborted && stored.view.people == stored.durable.people
    requires k == stored.calls + |RelevantEmails(account, m)| + 1 && forall n :: w.fails(n) <==> n == k
    requires !FromStrangers(stored.view, account, m)
    ensures ActivityCommitted(w, stored, account, m) && LinkEmailToTimeline(w, stored, account, m).Err?
  {
    var emails := RelevantEmails(account, m);
    MatchSucceeds(w, stored, emails, {});
    MatchPeopleReads(w, stored, emails, {});
    var matched := MatchPeople(w, stored, emails, {});
    var created := CreateActivity(w, matched.db, Recorded(m), matched.value);
    assert created.Ok? && created.db.calls == k;
    NextCallFails(w, created.db, account, m, created.value, matched.value);
  }

  lemma NextCallFails(w: World, db: Db, account: Account, m: Message, activity: Id, people: set<Id>)
    requires w.fails(db.calls)
    ensures PointAndTouch(w, db, account, m, activity, people).Err?
  {
  }

  lemma SameOtherwise(w: World, db: Db, fails: nat -> bool)
    requires ValidWorld(w) && Sound(w, db)
    ensures ValidWorld(w.(fails := fails)) && Sound(w.(fails := fails), db)
  {
    assert FreshIds(w.(fails := fails), db.durable, db.next);
  }

  lemma FailsWithTimeline(w: World, db: Db, stored: Db, account: Account, m: Message)
    requires Begin(w, db).Ok? && StoredNow(w, Begin(w, db).db, m)
    requires stored == UpsertEmailMessage(w, Begin(w, db).db, m).db
    requires ActivityCommitted(w, stored, account, m) && LinkEmailToTimeline(w, stored, account, m).Err?
    ensures Process(w, db, account, m).Err? && RecordsActivity(w, db, account, m)
  {
    assert ProcessNoTx(w, Begin(w, db).db, account, m).Err?;
  }

  lemma FailsTooLate(w: World, db: Db, account: Account, m: Message)
    requires ValidWorld(w) && Sound(w, db)
    requires m.id !in db.durable.messages && !FromStrangers(db.durable, account, m)
    ensures var v := FailingLate(w, db, account, m);
            && ValidWorld(v) && Sound(v, db)
            && Process(v, db, account, m).Err? && RecordsActivity(v, db, account, m)
  {
    var v := FailingLate(w, db, account, m);
    var stored := StoredState(db, m);
    SameOtherwise(w, db, v.fails);
    StoredFirst(v, db, m);
    SamePeopleAnswer(db.durable, stored.view, RelevantEmails(account, m));
    RecordedThenFails(v, stored, account, m, CallAfterActivity(db, account, m));
    FailsWithTimeline(v, db, stored, account, m);
  }

  /**
   Whenever somebody answers to an address of a new message, one failing call is enough: the
   rollback takes the mail back but not its activity, which no message points at.
   */
  lemma FailureLeavesActivity(w: World, db: Db, account: Account, m: Message)
    requires ValidWorld(w) && Sound(w, db)
    requires m.id !in db.durable.messages && !FromStrangers(db.durable, account, m)
    ensures var r := Process(FailingLate(w, db, account, m), db, account, m);
            && r.Err? && r.db.durable.messages == db.durable.messages
            && |r.db.durable.activities| == |db.durable.activities| + 1
            && Orphans(r.db.durable) == Orphans(db.durable) + {w.uuid(db.next)}
  {
    var v := FailingLate(w, db, account, m);
    FailsTooLate(w, db, account, m);
    ProcessEffect(v, db, account, m);
    LeftoverCounts(db.durable, v.uuid(db.next), Recorded(m), RecordedFor(v, db, account, m));
    assert v.uuid(db.next) !in db.durable.activities;
  }

  // ----- exactly when a message is all-or-nothing -----

  /** The message leaves no trace if these calls fail and the message with them. */
  predicate NoTrace(w: World, db: Db, account: Account, m: Message, fails: nat -> bool) {
    var r := Process(w.(fails := fails), db, account, m);
    r.Err? ==> r.db.durable == db.durable
  }

  /** However store calls fail, the message is stored as a whole or leaves no trace. */
  ghost predicate AllOrNothing(w: World, db: Db, account: Account, m: Message) {
    forall fails: nat -> bool :: NoTrace(w, db, account, m, fails)
  }

  /** Exactly the messages that are stored already, or whose addresses nobody answers to, are all-or-nothing. */
  lemma AllOrNothingIff(w: World, db: Db, account: Account, m: Message)
    requires ValidWorld(w) && Sound(w, db)
    ensures AllOrNothing(w, db, account, m) <==> m.id in db.durable.messages || FromStrangers(db.durable, account, m)
  {
    if m.id in db.durable.messages || FromStrangers(db.durable, account, m) {
      forall fails: nat -> bool
        ensures NoTrace(w, db, account, m, fails)
      {
        SameOtherwise(w, db, fails);
        NothingRecorded(w.(fails := fails), db, account, m);
      }
    } else {
      var v := FailingLate(w, db, account, m);
      FailsTooLate(w, db, account, m);
      NoTraceIff(v, db, account, m);
      assert !NoTrace(w, db, account, m, v.fails);
    }
  }

  lemma NothingRecorded(w: World, db: Db, account: Account, m: Message)
    requires ValidWorld(w) && Sound(w, db)
    requires m.id in db.durable.messages || FromStrangers(db.durable, account, m)
    ensures Process(w, db, account, m).Err? ==> Process(w, db, account, m).db.durable == db.durable
  {
    if m.id !in db.durable.messages {
      StrangersLeaveNoTrace(w, db, account, m);
    }
    if Process(w, db, account, m).Err? {
      NoTraceIff(w, db, account, m);
    }
  }

  // ----- an input -----

  const ADA := "a@b.co"
  const MAILBOX := Account("box", "me@b.co", "owner")
  const MAIL := Message("m1", "inbound", ADA, "", [], "", "", 7)

  function AdaOnly(): Tables {
    Tables(map[], map[], map[], {}, map["ada" := Person("Ada", "", ADA, "", "", "", None)], {}, map[], {}, {}, map[], {}, map[])
  }

  lemma AdaIsRelevant(account: Account, m: Message)
    requires account == MAILBOX && m == MAIL
    ensures RelevantEmails(account, m) == [ADA]
  {
    assert Trimmed(ADA) && Lower(ADA) == ADA;
    assert Trimmed(account.email) && Lower(account.email) == account.email;
    assert [m.fromEmail] + m.toEmails == [ADA];
    assert AddAllRelevant(account.email, [], [ADA]) == AddAllRelevant(account.email, [ADA], []);
  }

  lemma KnownIsRecorded(w: World, db: Db, account: Account, m: Message, email: string, p: Id)
    requires ValidWorld(w) && Sound(w, db) && m.id !in db.durable.messages
    requires RelevantEmails(account, m) == [email] && p in Answering(db.durable, email)
    ensures !AllOrNothing(w, db, account, m)
  {
    assert RelevantEmails(account, m)[0] == email;
    AllOrNothingIff(w, db, account, m);
  }

  lemma AdaIsSound(w: World, db: Db)
    requires w == PlainWorld(_ => false) && db == Db(AdaOnly(), AdaOnly(), false, false, 0, 0)
    ensures ValidWorld(w) && Sound(w, db) && "ada" in Answering(db.durable, ADA)
  {
    PlainWorldIsValid(_ => false);
    NamedAreFresh(_ => false, AdaOnly(), {"ada"});
  }

  /** Not all-or-nothing, for a mailbox as the schema wants it. */
  ghost predicate Broken(w: World, db: Db, account: Account, m: Message) {
    ValidWorld(w) && Sound(w, db) && account.owner != "" && !AllOrNothing(w, db, account, m)
  }

  lemma AdaIsBroken(w: World, db: Db, account: Account, m: Message)
    requires w == PlainWorld(_ => false) && db == Db(AdaOnly(), AdaOnly(), false, false, 0, 0)
    requires account == MAILBOX && m == MAIL
    ensures Broken(w, db, account, m)
  {
    AdaIsSound(w, db);
    AdaIsRelevant(account, m);
    KnownIsRecorded(w, db, account, m, ADA, "ada");
  }

  /** A first mail from somebody known, to a mailbox with an owner. */
  lemma FailingInputExists()
    ensures exists w, db, account, m :: Broken(w, db, account, m)
  {
    AdaIsBroken(PlainWorld(_ => false), Db(AdaOnly(), AdaOnly(), false, false, 0, 0), MAILBOX, MAIL);
  }
}
