/**
 Every run of fetched messages and user requests, in any order, with store calls
 failing at any point.
 */
module Runs {
  import opened Wrappers
  import opened Text
  import opened CrmTables
  import opened EmailSyncProofs
  import opened SyncAccounting
  import opened Suggestions
  import opened HistoricalMail
  import opened Acceptance
  import EmailSync

  /** Fetched messages carry a trimmed, non-empty message id, as the mail client produces them. */
  predicate GoodStep(step: Step) {
    step.Fetched? ==> step.message.id != "" && Trimmed(step.message.id)
  }

  // ----- activity pointers -----

  ghost predicate PointersKept(t: Tables, after: Tables) {
    forall k :: k in t.messages ==> KeptRow(t, after, k)
  }

  /** What one step does to messages and activities; `ok` says that it reported no error. */
  ghost predicate Evolved(w: World, t: Tables, after: Tables, n: nat, n': nat, ok: bool) {
    && n <= n' && FreshIds(w, after, n') && Consistent(after) && WellKeyed(after)
    && PointersKept(t, after) && t.activities.Keys <= after.activities.Keys
    && Orphans(t) <= Orphans(after)
    && (ok ==> Orphans(after) == Orphans(t))
  }

  ghost predicate Steady(w: World, t: Tables, n: nat) {
    FreshIds(w, t, n) && Consistent(t) && WellKeyed(t)
  }

  lemma EvolvedTwice(w: World, t: Tables, u: Tables, v: Tables, a: nat, b: nat, c: nat, ok: bool, ok': bool)
    requires Evolved(w, t, u, a, b, ok) && Evolved(w, u, v, b, c, ok')
    ensures Evolved(w, t, v, a, c, ok && ok')
  {
    forall k | k in t.messages
      ensures KeptRow(t, v, k)
    {
      assert KeptRow(t, u, k);
      assert KeptRow(u, v, k);
    }
  }

  /** Messages and activities are untouched. */
  lemma SameMailEvolves(w: World, t: Tables, after: Tables, n: nat, n': nat, ok: bool)
    requires Steady(w, t, n) && n <= n' && FreshIds(w, after, n')
    requires after.messages == t.messages && after.activities == t.activities
    ensures Evolved(w, t, after, n, n', ok)
  {
    SamePointers(t, after);
    forall k | k in t.messages
      ensures KeptRow(t, after, k)
    {
    }
  }

  /** A failed transaction left activities behind at most. */
  lemma LeftoverEvolves(w: World, t: Tables, after: Tables, n: nat, n': nat)
    requires ValidWorld(w) && Steady(w, t, n) && ActivitiesAdded(w, t, after, n, n')
    ensures Evolved(w, t, after, n, n', false)
  {
    AddedKeepsFresh(w, t, after, n, n');
    assert after.messages == t.messages;
    MoreActivities(t, after);
    forall k | k in t.messages
      ensures KeptRow(t, after, k)
    {
    }
  }

  lemma MoreActivities(t: Tables, after: Tables)
    requires Consistent(t) && after.messages == t.messages && t.activities.Keys <= after.activities.Keys
    ensures Consistent(after) && Orphans(t) <= Orphans(after)
  {
    assert LinkedMessages(after) == LinkedMessages(t) && Pointed(after) == Pointed(t);
    forall x, y | x in after.messages && y in after.messages && SharePointer(after, x, y)
      ensures x == y
    {
      assert SharePointer(t, x, y);
    }
  }

  lemma IngestedEvolves(w: World, t: Tables, after: Tables, m: Message, linked: bool, id: Id, people: set<Id>, n: nat, n': nat)
    requires Steady(w, t, n) && n <= n' && FreshIds(w, after, n') && id !in t.activities
    requires m.id != "" && Trimmed(m.id)
    requires IngestedRows(t, after, m, linked, id, people)
    ensures Evolved(w, t, after, n, n', true)
  {
    IngestedCounts(t, after, m, linked, id, people);
    IngestedKeepsRows(t, after, m, linked, id, people);
  }

  lemma IngestedKeepsRows(t: Tables, after: Tables, m: Message, linked: bool, id: Id, people: set<Id>)
    requires WellKeyed(t) && m.id != "" && Trimmed(m.id)
    requires IngestedRows(t, after, m, linked, id, people)
    ensures PointersKept(t, after) && WellKeyed(after) && t.activities.Keys <= after.activities.Keys
  {
    forall k | k in t.messages
      ensures KeptRow(t, after, k)
    {
      assert after.messages[k] == t.messages[k];
    }
  }

  /** History may start from tables that differ outside messages and activities. */
  lemma HistoryEvolves(w: World, t: Tables, u: Tables, after: Tables, person: Id, rows: seq<Row>, n: nat, n': nat)
    requires Steady(w, t, n) && n <= n' && FreshIds(w, after, n')
    requires u.messages == t.messages && u.activities == t.activities
    requires History(u, after, person, rows)
    ensures Evolved(w, t, after, n, n', true)
  {
    SamePointers(t, u);
    HistoryKeeps(t, u, after, person, rows);
    HistoryOrphans(u, after, person, rows);
  }

  lemma HistoryKeeps(t: Tables, u: Tables, after: Tables, person: Id, rows: seq<Row>)
    requires WellKeyed(t) && u.messages == t.messages && u.activities == t.activities
    requires History(u, after, person, rows)
    ensures PointersKept(t, after) && WellKeyed(after)
  {
    forall k | k in t.messages
      ensures KeptRow(t, after, k)
    {
      assert KeptRow(u, after, k);
    }
    forall k | k in after.messages
      ensures after.messages[k].message.id == k && k != "" && Trimmed(k)
    {
      assert KeptRow(u, after, k);
    }
  }

  lemma HistoryOrphans(u: Tables, after: Tables, person: Id, rows: seq<Row>)
    requires Consistent(u) && History(u, after, person, rows)
    ensures Orphans(after) == Orphans(u)
  {
    forall a | a in after.activities && a !in u.activities
      ensures a in Pointed(after)
    {
      assert PointedByListed(u, after, a);
      var k :| NewlyTold(u, after, k, a);
      assert k in LinkedMessages(after);
    }
    forall a | a in Pointed(u)
      ensures a in Pointed(after)
    {
      var k :| k in LinkedMessages(u) && u.messages[k].activity.value == a;
      assert KeptRow(u, after, k) && k in LinkedMessages(after);
    }
    forall a | a in Pointed(after) && a in u.activities
      ensures a in Pointed(u)
    {
      var k :| k in LinkedMessages(after) && after.messages[k].activity.value == a;
      assert KeptRow(u, after, k);
      assert k in LinkedMessages(u);
    }
  }

  /** Whatever else is accepted, the mail is not touched. */
  lemma OtherAcceptedMail(w: World, t: Tables, after: Tables, id: Id, p: Prompt, answer: AcceptResult, n: nat)
    requires AcceptedView(w, t, after, id, p, n, answer) && !(p.kind.NewContact? && answer.created)
    ensures after.messages == t.messages && after.activities == t.activities
  {
  }

  lemma NewContactAccepted(w: World, t: Tables, after: Tables, id: Id, p: Prompt, answer: AcceptResult, n: nat)
    requires AcceptedView(w, t, after, id, p, n, answer) && p.kind.NewContact? && answer.created
    ensures exists q, email :: ContactAccepted(t, after, id, w.uuid(n), q, email)
  {
  }

  lemma AcceptedEvolves(w: World, t: Tables, after: Tables, id: Id, p: Prompt, answer: AcceptResult, n: nat, n': nat)
    requires Steady(w, t, n) && n <= n' && FreshIds(w, after, n')
    requires AcceptedView(w, t, after, id, p, n, answer)
    ensures Evolved(w, t, after, n, n', true)
  {
    if p.kind.NewContact? && answer.created {
      NewContactAccepted(w, t, after, id, p, answer, n);
      var q, email :| ContactAccepted(t, after, id, w.uuid(n), q, email);
      ContactEvolves(w, t, after, id, q, email, n, n');
    } else {
      OtherAcceptedMail(w, t, after, id, p, answer, n);
      SameMailEvolves(w, t, after, n, n', true);
    }
  }

  lemma ContactEvolves(w: World, t: Tables, after: Tables, id: Id, p: Person, email: string, n: nat, n': nat)
    requires Steady(w, t, n) && n <= n' && FreshIds(w, after, n')
    requires ContactAccepted(t, after, id, w.uuid(n), p, email)
    ensures Evolved(w, t, after, n, n', true)
  {
    TakenEvolves(w, t, WithPerson(t, w.uuid(n), p), after, w.uuid(n), email, n, n');
  }

  lemma TakenEvolves(w: World, t: Tables, u: Tables, after: Tables, person: Id, email: string, n: nat, n': nat)
    requires Steady(w, t, n) && n <= n' && FreshIds(w, after, n')
    requires u.messages == t.messages && u.activities == t.activities
    requires TakesHistory(u, after, person, email)
    ensures Evolved(w, t, after, n, n', true)
  {
    var ids :| NewestHistory(u, email, ids) && History(u, after, person, RowsOf(u, ids));
    HistoryEvolves(w, t, u, after, person, RowsOf(u, ids), n, n');
  }

  lemma AcceptStepEvolves(w: World, db: Db, id: Id)
    requires ValidWorld(w) && Healthy(w, db)
    ensures var r := Accept(w, db, id);
            Idle(r.db) && Evolved(w, db.durable, r.db.durable, db.next, r.db.next, r.Ok?)
  {
    AcceptEffect(w, db, id);
    var r := Accept(w, db, id);
    if r.Ok? {
      AcceptedEvolves(w, db.durable, r.db.durable, id, db.durable.prompts[id], r.value, db.next, r.db.next);
    } else {
      LeftoverEvolves(w, db.durable, r.db.durable, db.next, r.db.next);
    }
  }

  lemma WithAddressSteady(w: World, t: Tables, person: Id, email: string, n: nat)
    requires Steady(w, t, n) && person in t.people
    ensures Steady(w, WithAddress(t, person, email), n)
    ensures Evolved(w, t, WithAddress(t, person, email), n, n, true)
  {
    WithAddressFresh(w, t, person, email, n);
    WithAddressKeepsMail(t, person, email);
    SameMailSteady(w, t, WithAddress(t, person, email), n);
  }

  lemma WithAddressKeepsMail(t: Tables, person: Id, email: string)
    ensures WithAddress(t, person, email).messages == t.messages
    ensures WithAddress(t, person, email).activities == t.activities
  {
  }

  lemma SameMailSteady(w: World, t: Tables, after: Tables, n: nat)
    requires Steady(w, t, n) && FreshIds(w, after, n)
    requires after.messages == t.messages && after.activities == t.activities
    ensures Steady(w, after, n) && Evolved(w, t, after, n, n, true)
  {
    SameMailEvolves(w, t, after, n, n, true);
  }

  lemma LinkPersonStepEvolves(w: World, db: Db, id: Id, person: Id)
    requires ValidWorld(w) && Healthy(w, db)
    ensures var r := LinkToPerson(w, db, id, person);
            Idle(r.db) && Evolved(w, db.durable, r.db.durable, db.next, r.db.next, r.Ok?)
  {
    LinkToPersonEffect(w, db, id, person);
    var r := LinkToPerson(w, db, id, person);
    if r.Err? && ActivitiesAdded(w, db.durable, r.db.durable, db.next, r.db.next) {
      LeftoverEvolves(w, db.durable, r.db.durable, db.next, r.db.next);
    } else {
      var email := SuggestionValue(w, db.durable.prompts[id]);
      WithAddressSteady(w, db.durable, person, email, db.next);
      var u := WithAddress(db.durable, person, email);
      if r.Ok? {
        TakenEvolves(w, db.durable, u, r.db.durable, person, email, db.next, r.db.next);
      } else {
        LeftoverEvolves(w, u, r.db.durable, db.next, r.db.next);
        EvolvedTwice(w, db.durable, u, r.db.durable, db.next, db.next, r.db.next, true, false);
      }
    }
  }

  // ----- steps that leave the mail alone -----

  /** Only these tables may change; prompts keep their rows, except for the status. */
  ghost predicate Clerical(t: Tables, after: Tables) {
    && after == t.(domains := after.domains, prompts := after.prompts, suppressions := after.suppressions)
    && after.prompts.Keys == t.prompts.Keys
    && forall q :: q in t.prompts ==> after.prompts[q] == t.prompts[q].(status := after.prompts[q].status)
  }

  lemma ClericalFresh(w: World, t: Tables, after: Tables, n: nat)
    requires FreshIds(w, t, n) && Clerical(t, after)
    ensures FreshIds(w, after, n)
  {
  }

  lemma ResolveIsClerical(w: World, db: Db, id: Id, status: Status)
    requires Idle(db)
    ensures var r := ResolveAIPrompt(w, db, id, status);
            Idle(r.db) && r.db.next == db.next && Clerical(db.durable, r.db.durable)
  {
  }

  lemma ClericalTwice(t: Tables, u: Tables, v: Tables)
    requires Clerical(t, u) && Clerical(u, v)
    ensures Clerical(t, v)
  {
  }

  lemma SuppressIsClerical(w: World, db: Db, id: Id, kind: Kind, target: Target)
    requires Idle(db)
    ensures var r := SuppressTarget(w, db, id, kind, target);
            Idle(r.db) && r.db.next == db.next && Clerical(db.durable, r.db.durable)
  {
    var first := SuppressSuggestion(w, db, kind, target.kind, target.identifier);
    if first.Ok? {
      ResolveIsClerical(w, first.db, id, Dismissed);
      ClericalTwice(db.durable, first.db.durable, ResolveAIPrompt(w, first.db, id, Dismissed).db.durable);
    }
  }

  lemma UnsuppressIsClerical(w: World, db: Db, id: Id, kind: Kind, target: Target)
    requires Idle(db)
    ensures var r := UnsuppressTarget(w, db, id, kind, target);
            Idle(r.db) && r.db.next == db.next && Clerical(db.durable, r.db.durable)
  {
    ResolveIsClerical(w, db, id, Open);
    var first := UnsuppressSuggestion(w, db, kind, target.kind, target.identifier);
    if first.Ok? {
      ResolveIsClerical(w, first.db, id, Open);
      ClericalTwice(db.durable, first.db.durable, ResolveAIPrompt(w, first.db, id, Open).db.durable);
    }
  }

  lemma LinkDomainResolves(w: World, db: Db, id: Id, company: Id, domainName: string)
    requires db.inTx
    ensures var r := LinkDomain(w, db, id, company, domainName);
            && r.db.inTx && r.db.next == db.next && r.db.durable == db.durable
            && (r.Ok? ==> company in db.view.companies && CompanyLinked(db.view, r.db.view, id, company, domainName))
  {
  }

  /** The company has the domain too, and the prompt is accepted. */
  ghost predicate CompanyLinked(t: Tables, after: Tables, id: Id, company: Id, domainName: string) {
    && id in t.prompts
    && after == t.(domains := t.domains + {(company, Lower(domainName))}, prompts := Resolved(t, id, Accepted))
  }

  /** Linking a suggestion to a company does exactly that, or nothing. */
  lemma LinkCompanyEffect(w: World, db: Db, id: Id, company: Id)
    requires Idle(db)
    ensures var r := LinkToCompany(w, db, id, company);
            && Idle(r.db) && r.db.next == db.next
            && (r.Err? ==> r.db.durable == db.durable)
            && (r.Ok? ==>
                && id in db.durable.prompts && company in db.durable.companies
                && CompanyLinked(db.durable, r.db.durable, id, company, SuggestionValue(w, db.durable.prompts[id])))
  {
    var begun := Begin(w, db);
    if begun.Ok? {
      var got := GetAIPrompt(w, begun.db, id);
      if got.Ok? {
        LinkDomainResolves(w, got.db, id, company, SuggestionValue(w, got.value));
      }
      FinishOutcome(w, LinkToCompanyNoTx(w, begun.db, id, company));
    }
  }

  lemma FetchedEvolves(w: World, db: Db, account: EmailSync.Account, m: Message)
    requires ValidWorld(w) && Healthy(w, db) && m.id != "" && Trimmed(m.id)
    ensures var r := EmailSync.Process(w, db, account, m);
            Idle(r.db) && Evolved(w, db.durable, r.db.durable, db.next, r.db.next, r.Ok?)
  {
    ProcessEffect(w, db, account, m);
    var r := EmailSync.Process(w, db, account, m);
    var id, people := w.uuid(db.next), RecordedFor(w, db, account, m);
    if r.Ok? && r.value.created {
      IngestedEvolves(w, db.durable, r.db.durable, m, r.value.linked, id, people, db.next, r.db.next);
    } else if r.db.durable == db.durable {
      SameMailEvolves(w, db.durable, r.db.durable, db.next, r.db.next, r.Ok?);
    } else {
      LeftoverCounts(db.durable, id, EmailSync.Recorded(m), people);
      LeftBehindEvolves(w, db.durable, id, EmailSync.Recorded(m), people, db.next, r.db.next);
    }
  }

  lemma LeftBehindEvolves(w: World, t: Tables, id: Id, a: Activity, people: set<Id>, n: nat, n': nat)
    requires Steady(w, t, n) && n <= n' && id !in t.activities
    requires FreshIds(w, WithNewActivity(t, id, a, people), n')
    ensures Evolved(w, t, WithNewActivity(t, id, a, people), n, n', false)
  {
    LeftoverCounts(t, id, a, people);
    forall k | k in t.messages
      ensures KeptRow(t, WithNewActivity(t, id, a, people), k)
    {
    }
  }

  lemma ClericalEvolves(w: World, t: Tables, after: Tables, n: nat, ok: bool)
    requires Steady(w, t, n) && Clerical(t, after)
    ensures Evolved(w, t, after, n, n, ok)
  {
    ClericalFresh(w, t, after, n);
    SameMailEvolves(w, t, after, n, n, ok);
  }

  lemma SuppressPromptIsClerical(w: World, db: Db, id: Id)
    requires Idle(db)
    ensures var r := SuppressPrompt(w, db, id);
            Idle(r.db) && r.db.next == db.next && Clerical(db.durable, r.db.durable)
  {
    var got := GetAIPrompt(w, db, id);
    if got.Ok? {
      SuppressIsClerical(w, got.db, id, got.value.kind, SuggestionTarget(w, got.value));
    }
  }

  lemma UnsuppressPromptIsClerical(w: World, db: Db, id: Id)
    requires Idle(db)
    ensures var r := UnsuppressPrompt(w, db, id);
            Idle(r.db) && r.db.next == db.next && Clerical(db.durable, r.db.durable)
  {
    var got := GetAIPrompt(w, db, id);
    if got.Ok? {
      UnsuppressIsClerical(w, got.db, id, got.value.kind, SuggestionTarget(w, got.value));
    }
  }

  lemma SuppressEvolves(w: World, db: Db, id: Id)
    requires Healthy(w, db)
    ensures var r := SuppressPrompt(w, db, id);
            Idle(r.db) && Evolved(w, db.durable, r.db.durable, db.next, r.db.next, r.Ok?)
  {
    SuppressPromptIsClerical(w, db, id);
    var r := SuppressPrompt(w, db, id);
    ClericalEvolves(w, db.durable, r.db.durable, db.next, r.Ok?);
  }

  /** What a step leaves, as one step of a run. */
  ghost predicate StepOutcome(w: World, db: Db, done: Done) {
    Idle(done.db) && Evolved(w, db.durable, done.db.durable, db.next, done.db.next, done.ok)
  }

  predicate IsClerical(step: Step) {
    step.LinkCompanyStep? || step.SuppressStep? || step.UnsuppressStep? || step.ResolveStep?
  }

  ghost predicate ClericalDone(db: Db, done: Done) {
    Idle(done.db) && done.db.next == db.next && Clerical(db.durable, done.db.durable)
  }

  lemma LinkCompanyDone(w: World, db: Db, step: Step)
    requires Healthy(w, db) && step.LinkCompanyStep?
    ensures ClericalDone(db, Apply(w, db, step))
  {
    LinkCompanyEffect(w, db, step.prompt, step.company);
  }

  lemma SuppressDone(w: World, db: Db, step: Step)
    requires Idle(db) && step.SuppressStep?
    ensures ClericalDone(db, Apply(w, db, step))
  {
    SuppressPromptIsClerical(w, db, step.prompt);
  }

  lemma UnsuppressDone(w: World, db: Db, step: Step)
    requires Idle(db) && step.UnsuppressStep?
    ensures ClericalDone(db, Apply(w, db, step))
  {
    UnsuppressPromptIsClerical(w, db, step.prompt);
  }

  lemma ResolveDone(w: World, db: Db, step: Step)
    requires Idle(db) && step.ResolveStep?
    ensures ClericalDone(db, Apply(w, db, step))
  {
    ResolveIsClerical(w, db, step.prompt, step.status);
  }

  lemma ClericalStep(w: World, db: Db, step: Step)
    requires Healthy(w, db) && IsClerical(step)
    ensures ClericalDone(db, Apply(w, db, step))
  {
    if step.LinkCompanyStep? {
      LinkCompanyDone(w, db, step);
    } else if step.SuppressStep? {
      SuppressDone(w, db, step);
    } else if step.UnsuppressStep? {
      UnsuppressDone(w, db, step);
    } else {
      ResolveDone(w, db, step);
    }
  }

  lemma ClericalOutcome(w: World, db: Db, done: Done)
    requires Healthy(w, db) && ClericalDone(db, done)
    ensures StepOutcome(w, db, done)
  {
    ClericalEvolves(w, db.durable, done.db.durable, db.next, done.ok);
  }

  lemma DeletePersonEvolves(w: World, db: Db, person: Id)
    requires Healthy(w, db)
    ensures var r := DeletePerson(w, db, person);
            Idle(r.db) && Evolved(w, db.durable, r.db.durable, db.next, r.db.next, r.Ok?)
  {
    var r := DeletePerson(w, db, person);
    assert FreshIds(w, WithoutPerson(db.durable, person), db.next);
    SameMailEvolves(w, db.durable, r.db.durable, db.next, r.db.next, r.Ok?);
  }

  lemma FetchedDone(w: World, db: Db, step: Step)
    requires ValidWorld(w) && Healthy(w, db) && GoodStep(step) && step.Fetched?
    ensures StepOutcome(w, db, Apply(w, db, step))
  {
    FetchedEvolves(w, db, step.account, step.message);
  }

  lemma AcceptDone(w: World, db: Db, step: Step)
    requires ValidWorld(w) && Healthy(w, db) && GoodStep(step) && step.AcceptStep?
    ensures StepOutcome(w, db, Apply(w, db, step))
  {
    AcceptStepEvolves(w, db, step.prompt);
  }

  lemma LinkPersonDone(w: World, db: Db, step: Step)
    requires ValidWorld(w) && Healthy(w, db) && GoodStep(step) && step.LinkPersonStep?
    ensures StepOutcome(w, db, Apply(w, db, step))
  {
    LinkPersonStepEvolves(w, db, step.prompt, step.person);
  }

  lemma DeletePersonDone(w: World, db: Db, step: Step)
    requires ValidWorld(w) && Healthy(w, db) && GoodStep(step) && step.DeletePersonStep?
    ensures StepOutcome(w, db, Apply(w, db, step))
  {
    DeletePersonEvolves(w, db, step.person);
  }

  lemma AnyStepDone(w: World, db: Db, step: Step)
    requires ValidWorld(w) && Healthy(w, db) && GoodStep(step)
    ensures StepOutcome(w, db, Apply(w, db, step))
  {
    match step
    case Fetched(_, _) => FetchedDone(w, db, step);
    case AcceptStep(_) => AcceptDone(w, db, step);
    case LinkPersonStep(_, _) => LinkPersonDone(w, db, step);
    case DeletePersonStep(_) => DeletePersonDone(w, db, step);
    case _ =>
      ClericalStep(w, db, step);
      ClericalOutcome(w, db, Apply(w, db, step));
  }

  lemma HealthyAgain(w: World, db: Db, done: Done)
    requires StepOutcome(w, db, done)
    ensures Healthy(w, done.db)
  {
  }

  /** One step, whichever store call fails. */
  lemma StepEvolves(w: World, db: Db, step: Step)
    requires ValidWorld(w) && Healthy(w, db) && GoodStep(step)
    ensures var done := Apply(w, db, step);
            Healthy(w, done.db) && Evolved(w, db.durable, done.db.durable, db.next, done.db.next, done.ok)
  {
    AnyStepDone(w, db, step);
    HealthyAgain(w, db, Apply(w, db, step));
  }

  /** No step of the run reported an error. */
  predicate AllOk(w: World, db: Db, steps: seq<Step>)
    decreases |steps|
  {
    steps == [] || (Apply(w, db, steps[0]).ok && AllOk(w, Apply(w, db, steps[0]).db, steps[1..]))
  }

  lemma {:induction false} RunEvolves(w: World, db: Db, steps: seq<Step>)
    requires ValidWorld(w) && Healthy(w, db)
    requires forall i :: 0 <= i < |steps| ==> GoodStep(steps[i])
    ensures var after := Run(w, db, steps);
            Healthy(w, after) && Evolved(w, db.durable, after.durable, db.next, after.next, AllOk(w, db, steps))
    decreases |steps|
  {
    if steps == [] {
      SameMailEvolves(w, db.durable, db.durable, db.next, db.next, true);
    } else {
      StepEvolves(w, db, steps[0]);
      var done := Apply(w, db, steps[0]);
      RunEvolves(w, done.db, steps[1..]);
      var after := Run(w, done.db, steps[1..]);
      EvolvedTwice(w, db.durable, done.db.durable, after.durable, db.next, done.db.next, after.next,
                   done.ok, AllOk(w, done.db, steps[1..]));
    }
  }

  // ----- what failed steps leave -----

  /** Fetching a mail and taking over a history record activities that outlive a rollback. */
  predicate Records(step: Step) {
    step.Fetched? || step.AcceptStep? || step.LinkPersonStep?
  }

  /** The activities that failed steps of the run recorded. */
  function LeftBehind(w: World, db: Db, steps: seq<Step>): set<Id>
    decreases |steps|
  {
    if steps == [] then {}
    else
      var done := Apply(w, db, steps[0]);
      (if done.ok then {} else NewActivities(db.durable, done.db.durable)) + LeftBehind(w, done.db, steps[1..])
  }

  function NewActivities(t: Tables, after: Tables): set<Id> {
    after.activities.Keys - t.activities.Keys
  }

  ghost predicate LeavesMail(t: Tables, after: Tables) {
    after.messages == t.messages && t.activities.Keys <= after.activities.Keys
  }

  lemma FailedFetchLeaves(w: World, db: Db, account: EmailSync.Account, m: Message)
    requires ValidWorld(w) && Healthy(w, db) && EmailSync.Process(w, db, account, m).Err?
    ensures var after := EmailSync.Process(w, db, account, m).db.durable;
            && LeavesMail(db.durable, after)
            && NewActivities(db.durable, after) == if RecordsActivity(w, db, account, m) then {w.uuid(db.next)} else {}
  {
    ProcessEffect(w, db, account, m);
    assert w.uuid(db.next) !in db.durable.activities;
  }

  lemma FailedLinkLeaves(w: World, db: Db, id: Id, person: Id)
    requires ValidWorld(w) && Healthy(w, db) && LinkToPerson(w, db, id, person).Err?
    ensures LeavesMail(db.durable, LinkToPerson(w, db, id, person).db.durable)
  {
    LinkToPersonEffect(w, db, id, person);
    var after := LinkToPerson(w, db, id, person).db.durable;
    if !ActivitiesAdded(w, db.durable, after, db.next, LinkToPerson(w, db, id, person).db.next) {
      WithAddressKeepsMail(db.durable, person, SuggestionValue(w, db.durable.prompts[id]));
    }
  }

  /** Mail and activities are as before, and at most a person is gone. */
  ghost predicate MailFrame(t: Tables, after: Tables) {
    && after.messages == t.messages && after.activities == t.activities
    && after.people.Keys <= t.people.Keys && after.addresses <= t.addresses
    && forall p :: p in after.people ==> after.people[p] == t.people[p]
  }

  lemma DeleteFrame(w: World, db: Db, step: Step)
    requires Idle(db) && step.DeletePersonStep?
    ensures MailFrame(db.durable, Apply(w, db, step).db.durable)
  {
  }

  lemma ClericalFrame(t: Tables, after: Tables)
    requires Clerical(t, after)
    ensures MailFrame(t, after)
  {
  }

  lemma OtherStepFrame(w: World, db: Db, step: Step)
    requires Healthy(w, db) && !Records(step)
    ensures MailFrame(db.durable, Apply(w, db, step).db.durable)
  {
    if step.DeletePersonStep? {
      DeleteFrame(w, db, step);
    } else {
      ClericalStep(w, db, step);
      ClericalFrame(db.durable, Apply(w, db, step).db.durable);
    }
  }

  /**
   A failed step takes its mail back and leaves what it recorded: a fetch the activity of its message,
   exactly if that was recorded; accepting or linking a contact those of older messages; any other nothing.
   */
  lemma FailedStepLeaves(w: World, db: Db, step: Step)
    requires ValidWorld(w) && Healthy(w, db) && !Apply(w, db, step).ok
    ensures LeavesMail(db.durable, Apply(w, db, step).db.durable)
    ensures step.Fetched? ==>
              NewActivities(db.durable, Apply(w, db, step).db.durable) ==
              if RecordsActivity(w, db, step.account, step.message) then {w.uuid(db.next)} else {}
    ensures !Records(step) ==> NewActivities(db.durable, Apply(w, db, step).db.durable) == {}
  {
    match step
    case Fetched(account, message) => FailedFetchLeaves(w, db, account, message);
    case AcceptStep(prompt) => AcceptEffect(w, db, prompt);
    case LinkPersonStep(prompt, person) => FailedLinkLeaves(w, db, prompt, person);
    case _ => OtherStepFrame(w, db, step);
  }

  lemma LeftAreOrphans(t: Tables, after: Tables)
    requires Consistent(t) && LeavesMail(t, after)
    ensures Orphans(after) == Orphans(t) + NewActivities(t, after)
  {
    assert Pointed(after) == Pointed(t) && Pointed(t) <= t.activities.Keys;
  }

  /** Over every run the activities that no message points at are those of before and those that failed steps left. */
  lemma {:induction false} OrphansOverRuns(w: World, db: Db, steps: seq<Step>)
    requires ValidWorld(w) && Healthy(w, db)
    requires forall i :: 0 <= i < |steps| ==> GoodStep(steps[i])
    ensures Orphans(Run(w, db, steps).durable) == Orphans(db.durable) + LeftBehind(w, db, steps)
    decreases |steps|
  {
    if steps != [] {
      var done := Apply(w, db, steps[0]);
      StepEvolves(w, db, steps[0]);
      if !done.ok {
        FailedStepLeaves(w, db, steps[0]);
        LeftAreOrphans(db.durable, done.db.durable);
      }
      OrphansOverRuns(w, done.db, steps[1..]);
    }
  }

  predicate PointsAt(t: Tables, m: string, a: Id) {
    m in t.messages && t.messages[m].activity == Some(a)
  }

  lemma PointedIff(t: Tables, a: Id)
    requires a in t.activities
    ensures a !in Orphans(t) <==> exists m :: PointsAt(t, m, a)
  {
    if m :| m in LinkedMessages(t) && t.messages[m].activity.value == a {
      assert PointsAt(t, m, a);
    }
  }

  /**
   Over every run, with store calls failing anywhere: a message keeps its activity once it has one,
   no activity is pointed at by two messages, and an activity of the run is pointed at if and only if
   no failed step left it behind.
   */
  lemma ActivityPointersOverRuns(w: World, db: Db, steps: seq<Step>)
    requires ValidWorld(w) && Healthy(w, db)
    requires forall i :: 0 <= i < |steps| ==> GoodStep(steps[i])
    ensures var t, after := db.durable, Run(w, db, steps).durable;
            && (forall m, a :: PointsAt(t, m, a) ==> PointsAt(after, m, a))
            && (forall m, k, a :: PointsAt(after, m, a) && PointsAt(after, k, a) ==> m == k)
            && (forall a :: a in after.activities && a !in t.activities ==>
                  (a !in LeftBehind(w, db, steps) <==> exists m :: PointsAt(after, m, a)))
  {
    RunEvolves(w, db, steps);
    OrphansOverRuns(w, db, steps);
    var t, after := db.durable, Run(w, db, steps).durable;
    forall m, a | PointsAt(t, m, a)
      ensures PointsAt(after, m, a)
    {
      assert KeptRow(t, after, m);
    }
    forall m, k, a | PointsAt(after, m, a) && PointsAt(after, k, a)
      ensures m == k
    {
      assert SharePointer(after, m, k);
    }
    forall a | a in after.activities && a !in t.activities
      ensures a !in LeftBehind(w, db, steps) <==> exists m :: PointsAt(after, m, a)
    {
      PointedIff(after, a);
    }
  }
}
