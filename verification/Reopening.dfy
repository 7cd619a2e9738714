/**
 What the requests about one prompt do, failed or not, and what reopening is for: once a suggestion
 was reopened, its suppression is lifted, and mail suggests again what was declined before.
 */
module Reopening {
  import opened Wrappers
  import opened Text
  import opened CrmTables
  import opened EmailSyncProofs
  import opened SyncAccounting
  import opened Suggestions
  import opened HistoricalMail
  import opened Acceptance
  import opened Runs
  import opened SuggestionRuns
  import opened SenderSuggestions
  import EmailSync

  // ----- one request -----

  /** The suppression of a target, if it is one. */
  function OwnOf(kind: Kind, target: Target): set<Suppression> {
    if target.kind == "" || target.identifier == "" then {} else {Suppression(kind, target.kind, Lower(target.identifier))}
  }

  /** The suppression that a prompt is about. */
  function Own(w: World, p: Prompt): set<Suppression> {
    OwnOf(p.kind, SuggestionTarget(w, p))
  }

  /** Prompts and suppressions may have changed, and nothing else. */
  ghost predicate OnlyPromptTables(t: Tables, after: Tables) {
    after == t.(prompts := after.prompts, suppressions := after.suppressions)
  }

  /** The prompt has this status now, and the others are as before. */
  ghost predicate HasStatus(t: Tables, after: Tables, id: Id, status: Status) {
    id in t.prompts && after.prompts == t.prompts[id := t.prompts[id].(status := status)]
  }

  /** Nothing happened. */
  ghost predicate Failed(t: Tables, r: Result<()>) {
    r.Err? && Idle(r.db) && r.db.durable == t
  }

  lemma ReadPrompt(w: World, db: Db, id: Id)
    requires Idle(db)
    ensures var got := GetAIPrompt(w, db, id);
            if w.fails(db.calls) || id !in db.durable.prompts then got.Err? && Idle(got.db) && got.db.durable == db.durable
            else got == Ok(db.durable.prompts[id], db.(calls := db.calls + 1))
  {
  }

  /**
   From the call after the reading on: the suppression is lifted, then the prompt opened. The first
   statement stands when the second fails.
   */
  ghost predicate Reopens(w: World, t: Tables, call: nat, id: Id, own: set<Suppression>, r: Result<()>) {
    var after := r.db.durable;
    && Idle(r.db) && OnlyPromptTables(t, after)
    && (r.Ok? <==> !w.fails(call) && (own != {} ==> !w.fails(call + 1)))
    && (r.Ok? ==> HasStatus(t, after, id, Open))
    && (r.Err? ==> after.prompts == t.prompts)
    && after.suppressions == if !w.fails(call) then t.suppressions - own else t.suppressions
  }

  lemma UnsuppressTargetExactly(w: World, db: Db, id: Id, kind: Kind, target: Target)
    requires Idle(db) && id in db.durable.prompts
    ensures Reopens(w, db.durable, db.calls, id, OwnOf(kind, target), UnsuppressTarget(w, db, id, kind, target))
  {
  }

  /** Reopening reads the prompt, lifts its own suppression and no other, and opens it. */
  lemma ReopenedExactly(w: World, db: Db, id: Id)
    requires Idle(db)
    ensures var r := UnsuppressPrompt(w, db, id);
            if w.fails(db.calls) || id !in db.durable.prompts then Failed(db.durable, r)
            else Reopens(w, db.durable, db.calls + 1, id, Own(w, db.durable.prompts[id]), r)
  {
    ReadPrompt(w, db, id);
    if !w.fails(db.calls) && id in db.durable.prompts {
      var p := db.durable.prompts[id];
      UnsuppressTargetExactly(w, db.(calls := db.calls + 1), id, p.kind, SuggestionTarget(w, p));
    }
  }

  /** From the call after the reading on: the suppression is stored, then the prompt dismissed. */
  ghost predicate Suppresses(w: World, t: Tables, call: nat, id: Id, own: set<Suppression>, r: Result<()>) {
    var after := r.db.durable;
    && Idle(r.db) && OnlyPromptTables(t, after)
    && (r.Ok? <==> own != {} && !w.fails(call) && !w.fails(call + 1))
    && (r.Ok? ==> HasStatus(t, after, id, Dismissed))
    && (r.Err? ==> after.prompts == t.prompts)
    && after.suppressions == if !w.fails(call) then t.suppressions + own else t.suppressions
  }

  lemma SuppressTargetExactly(w: World, db: Db, id: Id, kind: Kind, target: Target)
    requires Idle(db) && id in db.durable.prompts
    ensures Suppresses(w, db.durable, db.calls, id, OwnOf(kind, target), SuppressTarget(w, db, id, kind, target))
  {
  }

  /** Declining reads the prompt, stores its own suppression and no other, and dismisses it; without a target it fails. */
  lemma SuppressedExactly(w: World, db: Db, id: Id)
    requires Idle(db)
    ensures var r := SuppressPrompt(w, db, id);
            if w.fails(db.calls) || id !in db.durable.prompts then Failed(db.durable, r)
            else Suppresses(w, db.durable, db.calls + 1, id, Own(w, db.durable.prompts[id]), r)
  {
    ReadPrompt(w, db, id);
    if !w.fails(db.calls) && id in db.durable.prompts {
      var p := db.durable.prompts[id];
      SuppressTargetExactly(w, db.(calls := db.calls + 1), id, p.kind, SuggestionTarget(w, p));
    }
  }

  /** A success declined the prompt; a failure may have left the suppression behind, and nothing else. */
  ghost predicate DeclineMeans(w: World, t: Tables, after: Tables, id: Id, ok: bool) {
    && OnlyPromptTables(t, after)
    && (ok ==>
        && HasStatus(t, after, id, Dismissed) && Own(w, t.prompts[id]) != {}
        && after.suppressions == t.suppressions + Own(w, t.prompts[id]))
    && (!ok && after != t ==> id in t.prompts && after == t.(suppressions := t.suppressions + Own(w, t.prompts[id])))
  }

  lemma SuppressedIsDeclined(w: World, db: Db, id: Id)
    requires Idle(db)
    ensures var r := SuppressPrompt(w, db, id);
            DeclineMeans(w, db.durable, r.db.durable, id, r.Ok?)
  {
    SuppressedExactly(w, db, id);
  }

  /** A success lifted the suppression and opened the prompt; a failure may have lifted the suppression, and nothing else. */
  ghost predicate ReopenMeans(w: World, t: Tables, after: Tables, id: Id, ok: bool) {
    && OnlyPromptTables(t, after)
    && (ok ==> HasStatus(t, after, id, Open) && after.suppressions == t.suppressions - Own(w, t.prompts[id]))
    && (!ok && after != t ==> id in t.prompts && after == t.(suppressions := t.suppressions - Own(w, t.prompts[id])))
  }

  lemma UnsuppressedIsReopened(w: World, db: Db, id: Id)
    requires Idle(db)
    ensures var r := UnsuppressPrompt(w, db, id);
            ReopenMeans(w, db.durable, r.db.durable, id, r.Ok?)
  {
    ReopenedExactly(w, db, id);
  }

  /** Setting a status sets it, for a stored prompt. */
  lemma ResolvedExactly(w: World, db: Db, id: Id, status: Status)
    requires Idle(db)
    ensures var r := ResolveAIPrompt(w, db, id, status);
            if w.fails(db.calls) || id !in db.durable.prompts then Failed(db.durable, r)
            else r.Ok? && Idle(r.db) && HasStatus(db.durable, r.db.durable, id, status)
                 && r.db.durable == db.durable.(prompts := r.db.durable.prompts)
  {
  }

  // ----- runs that do not decline again -----

  /** The step declines something that this suppression is about. */
  predicate Declines(w: World, t: Tables, step: Step, s: Suppression) {
    step.SuppressStep? && step.prompt in t.prompts && s in Own(w, t.prompts[step.prompt])
  }

  /** No suppression was stored but by declining. */
  ghost predicate OnlyDeclined(w: World, t: Tables, after: Tables, step: Step) {
    forall s :: s in after.suppressions && s !in t.suppressions ==> Declines(w, t, step, s)
  }

  lemma FetchedDeclines(w: World, db: Db, step: Step)
    requires ValidWorld(w) && Healthy(w, db) && step.Fetched?
    ensures OnlyDeclined(w, db.durable, Apply(w, db, step).db.durable, step)
  {
    FetchedOnPrompts(w, db, step.account, step.message);
  }

  lemma AcceptDeclines(w: World, db: Db, step: Step)
    requires ValidWorld(w) && Healthy(w, db) && step.AcceptStep?
    ensures OnlyDeclined(w, db.durable, Apply(w, db, step).db.durable, step)
  {
    AcceptOnPrompts(w, db, step.prompt);
  }

  lemma LinkDeclines(w: World, db: Db, step: Step)
    requires ValidWorld(w) && Healthy(w, db) && step.LinkPersonStep?
    ensures OnlyDeclined(w, db.durable, Apply(w, db, step).db.durable, step)
  {
    LinkPersonOnPrompts(w, db, step.prompt, step.person);
  }

  lemma CompanyDeclines(w: World, db: Db, step: Step)
    requires Healthy(w, db) && step.LinkCompanyStep?
    ensures OnlyDeclined(w, db.durable, Apply(w, db, step).db.durable, step)
  {
    LinkCompanyOnPrompts(w, db, step.prompt, step.company);
  }

  lemma SuppressDeclines(w: World, db: Db, step: Step)
    requires Idle(db) && step.SuppressStep?
    ensures OnlyDeclined(w, db.durable, Apply(w, db, step).db.durable, step)
  {
    SuppressedExactly(w, db, step.prompt);
  }

  lemma UnsuppressDeclines(w: World, db: Db, step: Step)
    requires Idle(db) && step.UnsuppressStep?
    ensures OnlyDeclined(w, db.durable, Apply(w, db, step).db.durable, step)
  {
    ReopenedExactly(w, db, step.prompt);
  }

  lemma OtherDeclines(w: World, db: Db, step: Step)
    requires Idle(db) && (step.ResolveStep? || step.DeletePersonStep?)
    ensures OnlyDeclined(w, db.durable, Apply(w, db, step).db.durable, step)
  {
  }

  lemma StepDeclines(w: World, db: Db, step: Step)
    requires ValidWorld(w) && Healthy(w, db)
    ensures OnlyDeclined(w, db.durable, Apply(w, db, step).db.durable, step)
  {
    match step
    case Fetched(_, _) => FetchedDeclines(w, db, step);
    case AcceptStep(_) => AcceptDeclines(w, db, step);
    case LinkPersonStep(_, _) => LinkDeclines(w, db, step);
    case LinkCompanyStep(_, _) => CompanyDeclines(w, db, step);
    case SuppressStep(_) => SuppressDeclines(w, db, step);
    case UnsuppressStep(_) => UnsuppressDeclines(w, db, step);
    case _ => OtherDeclines(w, db, step);
  }

  /** No step of the run declines it, at the time it is taken. */
  predicate NeverDeclined(w: World, db: Db, steps: seq<Step>, s: Suppression)
    decreases |steps|
  {
    steps == [] || (!Declines(w, db.durable, steps[0], s) && NeverDeclined(w, Apply(w, db, steps[0]).db, steps[1..], s))
  }

  lemma {:induction false} StaysLifted(w: World, db: Db, steps: seq<Step>, s: Suppression)
    requires ValidWorld(w) && Healthy(w, db) && GoodSteps(steps) && s !in db.durable.suppressions && NeverDeclined(w, db, steps, s)
    ensures Healthy(w, Run(w, db, steps)) && s !in Run(w, db, steps).durable.suppressions
    decreases |steps|
  {
    if steps != [] {
      StepEvolves(w, db, steps[0]);
      StepDeclines(w, db, steps[0]);
      StaysLifted(w, Apply(w, db, steps[0]).db, steps[1..], s);
    }
  }

  // ----- asking again -----

  /** The suppression of a contact. */
  function OfContact(from: string): Suppression {
    Suppression(NewContact, "email", Lower(from))
  }

  lemma ContactIsOwn(w: World, p: Prompt, from: string)
    requires p.kind.NewContact? && p.targetType == "email" && p.targetIdentifier == from && from != "" && Normal(from) == from
    ensures Own(w, p) == {OfContact(from)}
  {
    assert Trimmed("email") && Lower("email") == "email";
  }

  /** After reopening, the contact is not suppressed, whatever follows but declining it. */
  lemma ReopenedStaysLifted(w: World, db: Db, id: Id, from: string, steps: seq<Step>)
    requires ValidWorld(w) && Healthy(w, db) && UnsuppressPrompt(w, db, id).Ok? && GoodSteps(steps)
    requires id in db.durable.prompts && Own(w, db.durable.prompts[id]) == {OfContact(from)}
    requires NeverDeclined(w, UnsuppressPrompt(w, db, id).db, steps, OfContact(from))
    ensures var now := Run(w, UnsuppressPrompt(w, db, id).db, steps);
            Healthy(w, now) && OfContact(from) !in now.durable.suppressions
  {
    var reopened := UnsuppressPrompt(w, db, id).db;
    ReopenedExactly(w, db, id);
    ReopenedIsHealthy(w, db, id);
    StaysLifted(w, reopened, steps, OfContact(from));
  }

  lemma ReopenedIsHealthy(w: World, db: Db, id: Id)
    requires ValidWorld(w) && Healthy(w, db)
    ensures Healthy(w, UnsuppressPrompt(w, db, id).db)
  {
    UnsuppressPromptIsClerical(w, db, id);
    var r := UnsuppressPrompt(w, db, id);
    ClericalEvolves(w, db.durable, r.db.durable, db.next, r.Ok?);
  }

  /** Mail of the contact adds his prompt. */
  ghost predicate SuggestsAgain(w: World, t: Tables, r: Result<EmailSync.Outcome>, from: string, m: Message) {
    exists q :: OnlyNew(t.prompts, r.db.durable.prompts, NewContact, q, EmailSync.ContactPrompt(w, from, m))
  }

  /**
   A contact suggestion was reopened, whatever happened since but declining it: a new mail of the
   sender that is processed, with nobody answering to his address and no suggestion of him open,
   suggests him again.
   */
  lemma ReopenedIsSuggestedAgain(w: World, db: Db, id: Id, from: string, steps: seq<Step>, now: Db,
                                 account: EmailSync.Account, m: Message)
    requires ValidWorld(w) && Healthy(w, db) && UnsuppressPrompt(w, db, id).Ok? && GoodSteps(steps)
    requires id in db.durable.prompts && Own(w, db.durable.prompts[id]) == {OfContact(from)}
    requires now == Run(w, UnsuppressPrompt(w, db, id).db, steps)
    requires NeverDeclined(w, UnsuppressPrompt(w, db, id).db, steps, OfContact(from))
    requires from == Normal(m.fromEmail) && FromOthers(account, from)
    requires Answering(now.durable, from) == {} && !HasOpenPrompt(now.durable, NewContact, "New contact: " + from)
    requires EmailSync.Process(w, now, account, m).Ok? && EmailSync.Process(w, now, account, m).value.created
    ensures SuggestsAgain(w, now.durable, EmailSync.Process(w, now, account, m), from, m)
  {
    ReopenedStaysLifted(w, db, id, from, steps);
    SenderSuggestedExactly(w, now, account, m, from);
    assert WantsContact(now.durable, from);
  }

  /** Declined, reopened and dismissed, each going well: the sender's next mail suggests him again. */
  lemma DeclinedThenReopened(w: World, db: Db, id: Id, from: string, account: EmailSync.Account, m: Message)
    requires ValidWorld(w) && Healthy(w, db) && id in db.durable.prompts
    requires var p := db.durable.prompts[id];
             p.kind.NewContact? && p.targetType == "email" && p.targetIdentifier == from
    requires from == Normal(m.fromEmail) && FromOthers(account, from)
    requires SuppressPrompt(w, db, id).Ok?
    requires UnsuppressPrompt(w, SuppressPrompt(w, db, id).db, id).Ok?
    requires var now := Run(w, UnsuppressPrompt(w, SuppressPrompt(w, db, id).db, id).db, [ResolveStep(id, Dismissed)]);
             && Answering(now.durable, from) == {} && !HasOpenPrompt(now.durable, NewContact, "New contact: " + from)
             && EmailSync.Process(w, now, account, m).Ok? && EmailSync.Process(w, now, account, m).value.created
    ensures var now := Run(w, UnsuppressPrompt(w, SuppressPrompt(w, db, id).db, id).db, [ResolveStep(id, Dismissed)]);
            SuggestsAgain(w, now.durable, EmailSync.Process(w, now, account, m), from, m)
  {
    var declined := SuppressPrompt(w, db, id).db;
    SuppressedExactly(w, db, id);
    SuppressEvolves(w, db, id);
    NormalIsStable(m.fromEmail);
    ContactIsOwn(w, declined.durable.prompts[id], from);
    var steps := [ResolveStep(id, Dismissed)];
    ReopenedIsSuggestedAgain(w, declined, id, from, steps, Run(w, UnsuppressPrompt(w, declined, id).db, steps), account, m);
  }
}
