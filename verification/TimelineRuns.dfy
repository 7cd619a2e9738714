/**
 The timeline over every run: each activity that a message points at tells this message, and what it
 tells never changes, whatever is fetched, accepted or deleted and whichever store call fails.
 */
module TimelineRuns {
  import opened Wrappers
  import opened Text
  import opened CrmTables
  import opened EmailSyncProofs
  import opened SyncAccounting
  import opened Suggestions
  import opened HistoricalMail
  import opened Acceptance
  import opened Runs
  import opened ActivityTexts
  import EmailSync

  /** The activity is about this mail: as it arrived, or as it was taken over later. */
  ghost predicate Tells(a: Activity, m: Message) {
    Shares(a, m) || Recalls(a, m)
  }

  /** The message has no activity, or one that is about it. */
  ghost predicate IsTold(t: Tables, k: string)
    requires k in t.messages
  {
    t.messages[k].activity.Some? ==>
      t.messages[k].activity.value in t.activities && Tells(t.activities[t.messages[k].activity.value], t.messages[k].message)
  }

  ghost predicate Truthful(t: Tables) {
    forall k :: k in t.messages ==> IsTold(t, k)
  }

  /** No activity was lost or rewritten. */
  ghost predicate ActivitiesStand(t: Tables, after: Tables) {
    forall a :: a in t.activities ==> a in after.activities && after.activities[a] == t.activities[a]
  }

  /** The timeline was extended only, and truthfully. */
  ghost predicate Extended(t: Tables, after: Tables) {
    ActivitiesStand(t, after) && (Truthful(t) ==> Truthful(after))
  }

  lemma ExtendedTwice(t: Tables, u: Tables, v: Tables)
    requires Extended(t, u) && Extended(u, v)
    ensures Extended(t, v)
  {
  }

  /** More activities, and the same messages. */
  lemma SameMessagesExtend(t: Tables, after: Tables)
    requires after.messages == t.messages && ActivitiesStand(t, after)
    ensures Extended(t, after)
  {
    if Truthful(t) {
      forall k | k in after.messages
        ensures IsTold(after, k)
      {
        assert IsTold(t, k);
      }
    }
  }

  // ----- fetched mail -----

  lemma ArrivedExtends(t: Tables, after: Tables, m: Message, linked: bool, id: Id, people: set<Id>)
    requires IngestedRows(t, after, m, linked, id, people) && id !in t.activities
    ensures Extended(t, after)
  {
    RecordedShares(m);
    if Truthful(t) {
      forall k | k in after.messages
        ensures IsTold(after, k)
      {
        if k != m.id {
          assert IsTold(t, k) && after.messages[k] == t.messages[k];
        }
      }
    }
  }

  lemma FetchedExtends(w: World, db: Db, account: EmailSync.Account, m: Message)
    requires ValidWorld(w) && Healthy(w, db)
    ensures Extended(db.durable, EmailSync.Process(w, db, account, m).db.durable)
  {
    ProcessEffect(w, db, account, m);
    var r := EmailSync.Process(w, db, account, m);
    if r.Ok? && r.value.created {
      ArrivedExtends(db.durable, r.db.durable, m, r.value.linked, w.uuid(db.next), RecordedFor(w, db, account, m));
    } else {
      SameMessagesExtend(db.durable, r.db.durable);
    }
  }

  // ----- mail that is taken over -----

  lemma TakenRowIsTold(t: Tables, after: Tables, person: Id, rows: seq<Row>, k: string)
    requires Truthful(t) && Consistent(after) && History(t, after, person, rows) && k in after.messages
    ensures IsTold(after, k)
  {
    assert KeptRow(t, after, k) && IsTold(t, k);
    if t.messages[k].activity.None? && after.messages[k].activity.Some? {
      var a := after.messages[k].activity.value;
      assert PointedByListed(t, after, a);
      var j :| NewlyTold(t, after, j, a);
      assert SharePointer(after, j, k);
      HistoricalRecalls(after.messages[k].message);
    }
  }

  /** The history may start from tables that differ outside messages and activities. */
  lemma HistoryExtends(t: Tables, u: Tables, after: Tables, person: Id, rows: seq<Row>)
    requires Consistent(t) && u.messages == t.messages && u.activities == t.activities
    requires History(u, after, person, rows)
    ensures Extended(t, after)
  {
    SamePointers(t, u);
    assert Extended(t, u) by { SameMessagesExtend(t, u); }
    if Truthful(u) {
      forall k | k in after.messages
        ensures IsTold(after, k)
      {
        TakenRowIsTold(u, after, person, rows, k);
      }
    }
  }

  lemma TakenExtends(t: Tables, u: Tables, after: Tables, person: Id, email: string)
    requires Consistent(t) && u.messages == t.messages && u.activities == t.activities
    requires TakesHistory(u, after, person, email)
    ensures Extended(t, after)
  {
    var ids :| NewestHistory(u, email, ids) && History(u, after, person, RowsOf(u, ids));
    HistoryExtends(t, u, after, person, RowsOf(u, ids));
  }

  lemma AcceptExtends(w: World, db: Db, id: Id)
    requires ValidWorld(w) && Healthy(w, db)
    ensures Extended(db.durable, Accept(w, db, id).db.durable)
  {
    AcceptEffect(w, db, id);
    var r := Accept(w, db, id);
    if r.Ok? {
      AcceptedExtends(w, db.durable, r.db.durable, id, db.durable.prompts[id], r.value, db.next);
    } else {
      SameMessagesExtend(db.durable, r.db.durable);
    }
  }

  lemma AcceptedExtends(w: World, t: Tables, after: Tables, id: Id, p: Prompt, answer: AcceptResult, n: nat)
    requires Consistent(t) && AcceptedView(w, t, after, id, p, n, answer)
    ensures Extended(t, after)
  {
    if p.kind.NewContact? && answer.created {
      NewContactAccepted(w, t, after, id, p, answer, n);
      var q, email :| ContactAccepted(t, after, id, w.uuid(n), q, email);
      TakenExtends(t, WithPerson(t, w.uuid(n), q), after, w.uuid(n), email);
    } else {
      OtherAcceptedMail(w, t, after, id, p, answer, n);
      SameMessagesExtend(t, after);
    }
  }

  lemma LinkPersonExtends(w: World, db: Db, id: Id, person: Id)
    requires ValidWorld(w) && Healthy(w, db)
    ensures Extended(db.durable, LinkToPerson(w, db, id, person).db.durable)
  {
    LinkToPersonEffect(w, db, id, person);
    var r := LinkToPerson(w, db, id, person);
    if r.Err? && ActivitiesAdded(w, db.durable, r.db.durable, db.next, r.db.next) {
      SameMessagesExtend(db.durable, r.db.durable);
    } else {
      var email := SuggestionValue(w, db.durable.prompts[id]);
      var u := WithAddress(db.durable, person, email);
      WithAddressKeepsMail(db.durable, person, email);
      if r.Ok? {
        TakenExtends(db.durable, u, r.db.durable, person, email);
      } else {
        SameMessagesExtend(db.durable, r.db.durable);
      }
    }
  }

  // ----- every run -----

  /** No step rewrites an activity, and none lets a message point at an activity that is not about it. */
  lemma StepExtends(w: World, db: Db, step: Step)
    requires ValidWorld(w) && Healthy(w, db)
    ensures Extended(db.durable, Apply(w, db, step).db.durable)
  {
    match step
    case Fetched(account, message) => FetchedExtends(w, db, account, message);
    case AcceptStep(prompt) => AcceptExtends(w, db, prompt);
    case LinkPersonStep(prompt, person) => LinkPersonExtends(w, db, prompt, person);
    case _ =>
      OtherStepFrame(w, db, step);
      SameMessagesExtend(db.durable, Apply(w, db, step).db.durable);
  }

  /**
   Over every run activities are never rewritten, and every message that points at one is told by it,
   if that held before.
   */
  lemma {:induction false} TimelineOverRuns(w: World, db: Db, steps: seq<Step>)
    requires ValidWorld(w) && Healthy(w, db)
    requires forall i :: 0 <= i < |steps| ==> GoodStep(steps[i])
    ensures Extended(db.durable, Run(w, db, steps).durable)
    decreases |steps|
  {
    if steps != [] {
      var done := Apply(w, db, steps[0]);
      StepEvolves(w, db, steps[0]);
      StepExtends(w, db, steps[0]);
      TimelineOverRuns(w, done.db, steps[1..]);
      ExtendedTwice(db.durable, done.db.durable, Run(w, done.db, steps[1..]).durable);
    }
  }

  /** The message points at an activity that tells what is shared of it, and nothing else. */
  ghost predicate SharesOnly(t: Tables, m: Message, id: Id) {
    && m.id in t.messages && t.messages[m.id].message == m && t.messages[m.id].activity == Some(id)
    && id in t.activities && Shares(t.activities[id], m)
  }

  lemma ArrivalShares(w: World, db: Db, account: EmailSync.Account, m: Message)
    requires ValidWorld(w) && Healthy(w, db)
    requires EmailSync.Process(w, db, account, m).Ok? && EmailSync.Process(w, db, account, m).value.linked
    ensures SharesOnly(EmailSync.Process(w, db, account, m).db.durable, m, w.uuid(db.next))
  {
    ProcessEffect(w, db, account, m);
    RecordedShares(m);
  }

  lemma SharingStays(w: World, t: Tables, after: Tables, n: nat, n': nat, ok: bool, m: Message, id: Id)
    requires SharesOnly(t, m, id) && Evolved(w, t, after, n, n', ok) && Extended(t, after)
    ensures SharesOnly(after, m, id)
  {
    assert KeptRow(t, after, m.id);
  }

  /** Mail that was recorded on arrival never shows its text on the timeline, whatever happens later. */
  lemma TextStaysPrivate(w: World, db: Db, account: EmailSync.Account, m: Message, steps: seq<Step>)
    requires ValidWorld(w) && Healthy(w, db) && m.id != "" && Trimmed(m.id)
    requires EmailSync.Process(w, db, account, m).Ok? && EmailSync.Process(w, db, account, m).value.linked
    requires forall i :: 0 <= i < |steps| ==> GoodStep(steps[i])
    ensures SharesOnly(Run(w, EmailSync.Process(w, db, account, m).db, steps).durable, m, w.uuid(db.next))
  {
    ArrivalShares(w, db, account, m);
    FetchedDone(w, db, Step.Fetched(account, m));
    var arrived := EmailSync.Process(w, db, account, m).db;
    RunEvolves(w, arrived, steps);
    TimelineOverRuns(w, arrived, steps);
    var after := Run(w, arrived, steps);
    SharingStays(w, arrived.durable, after.durable, arrived.next, after.next, AllOk(w, arrived, steps), m, w.uuid(db.next));
  }
}
