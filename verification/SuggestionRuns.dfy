/**
 Suggestions over every run: open prompts are not doubled, and suppressions last.
 */
module SuggestionRuns {
  import opened Wrappers
  import opened Text
  import opened CrmTables
  import opened EmailSyncProofs
  import opened Suggestions
  import opened HistoricalMail
  import opened Acceptance
  import opened Runs
  import opened ConcreteWorlds
  import EmailSync

  // ----- prompts -----

  /** A prompt keeps its row, except for the status; new prompts are open and not suppressed. */
  ghost predicate PromptsKept(t: Tables, after: Tables) {
    && (forall q :: q in t.prompts ==>
          q in after.prompts && after.prompts[q] == t.prompts[q].(status := after.prompts[q].status))
    && (forall q :: q in after.prompts && q !in t.prompts ==> NewPrompt(t, after.prompts[q]))
  }

  /** Nothing was reopened: prompts are as before, or one of them was closed. */
  ghost predicate Closed(t: Tables, after: Tables, id: Id) {
    || after.prompts == t.prompts
    || (id in t.prompts && (after.prompts == Resolved(t, id, Accepted) || after.prompts == Resolved(t, id, Dismissed)))
  }

  lemma ClosedKeeps(t: Tables, after: Tables, id: Id)
    requires Closed(t, after, id)
    ensures PromptsKept(t, after)
    ensures OneOpenPrompt(t) ==> OneOpenPrompt(after)
  {
    if OneOpenPrompt(t) {
      forall p, q | p in after.prompts && q in after.prompts && SameOpenPrompt(after, p, q)
        ensures p == q
      {
        assert SameOpenPrompt(t, p, q);
      }
    }
  }

  /** Steps that can put a closed prompt back on the table. */
  predicate Reopens(step: Step) {
    step.UnsuppressStep? || (step.ResolveStep? && step.status.Open?)
  }

  lemma ContactFrame(t: Tables, after: Tables, id: Id, added: Id, person: Person, email: string)
    requires ContactAccepted(t, after, id, added, person, email)
    ensures id in t.prompts && added !in t.people && after.prompts == Resolved(t, id, Accepted)
    ensures after.suppressions == t.suppressions && after.addresses == t.addresses
    ensures TakesHistory(WithPerson(t, added, person), after, added, email)
  {
  }

  lemma AcceptedCloses(w: World, t: Tables, after: Tables, id: Id, p: Prompt, n: nat, answer: AcceptResult)
    requires AcceptedView(w, t, after, id, p, n, answer)
    ensures Closed(t, after, id) && after.suppressions == t.suppressions
  {
    var email := SuggestionValue(w, p);
    if p.kind.NewContact? && answer.created {
      ContactFrame(t, after, id, w.uuid(n), SuggestedPerson(email, p.body), email);
    }
  }

  lemma AcceptOnPrompts(w: World, db: Db, id: Id)
    requires ValidWorld(w) && Healthy(w, db)
    ensures var after := Accept(w, db, id).db.durable;
            Closed(db.durable, after, id) && after.suppressions == db.durable.suppressions
  {
    AcceptEffect(w, db, id);
    var r := Accept(w, db, id);
    if r.Ok? {
      AcceptedCloses(w, db.durable, r.db.durable, id, db.durable.prompts[id], db.next, r.value);
    }
  }

  lemma LinkPersonOnPrompts(w: World, db: Db, id: Id, person: Id)
    requires ValidWorld(w) && Healthy(w, db)
    ensures var after := LinkToPerson(w, db, id, person).db.durable;
            Closed(db.durable, after, id) && after.suppressions == db.durable.suppressions
  {
    LinkToPersonEffect(w, db, id, person);
  }

  lemma LinkCompanyOnPrompts(w: World, db: Db, id: Id, company: Id)
    requires Healthy(w, db)
    ensures var after := LinkToCompany(w, db, id, company).db.durable;
            Closed(db.durable, after, id) && after.suppressions == db.durable.suppressions
  {
    LinkCompanyEffect(w, db, id, company);
  }

  /** What a suppression would be for this kind and target. */
  function SuppressionOf(kind: Kind, target: Target): Suppression {
    Suppression(kind, target.kind, Lower(target.identifier))
  }

  lemma SuppressTargetOnPrompts(w: World, db: Db, id: Id, kind: Kind, target: Target)
    requires Idle(db)
    ensures var r := SuppressTarget(w, db, id, kind, target);
            && Idle(r.db) && Closed(db.durable, r.db.durable, id)
            && db.durable.suppressions <= r.db.durable.suppressions
            && (r.Ok? ==> SuppressionOf(kind, target) in r.db.durable.suppressions)
  {
  }

  lemma SuppressOnPrompts(w: World, db: Db, id: Id)
    requires Idle(db)
    ensures var r := SuppressPrompt(w, db, id);
            && Idle(r.db) && Closed(db.durable, r.db.durable, id)
            && db.durable.suppressions <= r.db.durable.suppressions
            && (r.Ok? ==>
                && id in db.durable.prompts
                && SuppressionOf(db.durable.prompts[id].kind, SuggestionTarget(w, db.durable.prompts[id]))
                   in r.db.durable.suppressions)
  {
    var got := GetAIPrompt(w, db, id);
    if got.Ok? {
      SuppressTargetOnPrompts(w, got.db, id, got.value.kind, SuggestionTarget(w, got.value));
    }
  }

  lemma UnsuppressTargetOnPrompts(w: World, db: Db, id: Id, kind: Kind, target: Target)
    requires Idle(db)
    ensures var r := UnsuppressTarget(w, db, id, kind, target);
            && PromptsKept(db.durable, r.db.durable)
            && (forall s :: s in db.durable.suppressions && s != SuppressionOf(kind, target) ==> s in r.db.durable.suppressions)
  {
    UnsuppressIsClerical(w, db, id, kind, target);
  }

  /** The step lifts this suppression. */
  predicate Lifts(w: World, t: Tables, step: Step, s: Suppression) {
    step.UnsuppressStep? && step.prompt in t.prompts
    && s == SuppressionOf(t.prompts[step.prompt].kind, SuggestionTarget(w, t.prompts[step.prompt]))
  }

  ghost predicate SuppressionsKept(w: World, t: Tables, after: Tables, step: Step) {
    forall s :: s in t.suppressions && !Lifts(w, t, step, s) ==> s in after.suppressions
  }

  lemma FetchedOnPrompts(w: World, db: Db, account: EmailSync.Account, m: Message)
    requires ValidWorld(w) && Healthy(w, db)
    ensures var after := EmailSync.Process(w, db, account, m).db.durable;
            && PromptsKept(db.durable, after) && after.suppressions == db.durable.suppressions
            && (OneOpenPrompt(db.durable) ==> OneOpenPrompt(after))
  {
    ProcessEffect(w, db, account, m);
    var r := EmailSync.Process(w, db, account, m);
    if r.Err? || !r.value.created {
      assert r.db.durable.prompts == db.durable.prompts;
      SameOpenPrompts(db.durable, r.db.durable);
    }
  }

  /** What a step does to prompts and suppressions. */
  ghost predicate OnPrompts(w: World, t: Tables, after: Tables, step: Step) {
    && PromptsKept(t, after) && SuppressionsKept(w, t, after, step)
    && (OneOpenPrompt(t) && !Reopens(step) ==> OneOpenPrompt(after))
  }

  lemma ClosedOnPrompts(w: World, t: Tables, after: Tables, id: Id, step: Step)
    requires Closed(t, after, id) && t.suppressions <= after.suppressions
    ensures OnPrompts(w, t, after, step)
  {
    ClosedKeeps(t, after, id);
  }

  /** The step does to prompts what it may. */
  ghost predicate StepIsOnPrompts(w: World, db: Db, step: Step) {
    OnPrompts(w, db.durable, Apply(w, db, step).db.durable, step)
  }

  lemma OnFetched(w: World, db: Db, step: Step)
    requires ValidWorld(w) && Healthy(w, db) && step.Fetched?
    ensures StepIsOnPrompts(w, db, step)
  {
    FetchedOnPrompts(w, db, step.account, step.message);
  }

  lemma OnAccept(w: World, db: Db, step: Step)
    requires ValidWorld(w) && Healthy(w, db) && step.AcceptStep?
    ensures StepIsOnPrompts(w, db, step)
  {
    AcceptOnPrompts(w, db, step.prompt);
    ClosedOnPrompts(w, db.durable, Apply(w, db, step).db.durable, step.prompt, step);
  }

  lemma OnLinkPerson(w: World, db: Db, step: Step)
    requires ValidWorld(w) && Healthy(w, db) && step.LinkPersonStep?
    ensures StepIsOnPrompts(w, db, step)
  {
    LinkPersonOnPrompts(w, db, step.prompt, step.person);
    ClosedOnPrompts(w, db.durable, Apply(w, db, step).db.durable, step.prompt, step);
  }

  lemma OnLinkCompany(w: World, db: Db, step: Step)
    requires ValidWorld(w) && Healthy(w, db) && step.LinkCompanyStep?
    ensures StepIsOnPrompts(w, db, step)
  {
    LinkCompanyOnPrompts(w, db, step.prompt, step.company);
    ClosedOnPrompts(w, db.durable, Apply(w, db, step).db.durable, step.prompt, step);
  }

  lemma OnSuppress(w: World, db: Db, step: Step)
    requires ValidWorld(w) && Healthy(w, db) && step.SuppressStep?
    ensures StepIsOnPrompts(w, db, step)
  {
    SuppressOnPrompts(w, db, step.prompt);
    ClosedOnPrompts(w, db.durable, Apply(w, db, step).db.durable, step.prompt, step);
  }

  lemma OnUnsuppress(w: World, db: Db, step: Step)
    requires Idle(db) && step.UnsuppressStep?
    ensures StepIsOnPrompts(w, db, step)
  {
    var got := GetAIPrompt(w, db, step.prompt);
    if got.Ok? {
      UnsuppressTargetOnPrompts(w, got.db, step.prompt, got.value.kind, SuggestionTarget(w, got.value));
    }
  }

  /** Another status. */
  lemma ResolvedOnPrompts(w: World, t: Tables, after: Tables, id: Id, status: Status)
    requires id in t.prompts && after == t.(prompts := Resolved(t, id, status))
    ensures OnPrompts(w, t, after, ResolveStep(id, status))
  {
    if status != Open {
      ClosedKeeps(t, after, id);
    }
  }

  lemma OnResolve(w: World, db: Db, step: Step)
    requires Idle(db) && step.ResolveStep?
    ensures StepIsOnPrompts(w, db, step)
  {
    var after := Apply(w, db, step).db.durable;
    if after == db.durable {
      ClosedOnPrompts(w, db.durable, after, step.prompt, step);
    } else {
      ResolvedOnPrompts(w, db.durable, after, step.prompt, step.status);
    }
  }

  lemma OnDelete(w: World, db: Db, step: Step)
    requires ValidWorld(w) && Healthy(w, db) && step.DeletePersonStep?
    ensures StepIsOnPrompts(w, db, step)
  {
    ClosedOnPrompts(w, db.durable, Apply(w, db, step).db.durable, "", step);
  }

  /** One step: prompts are kept, and doubled by reopening only. */
  lemma StepOnPrompts(w: World, db: Db, step: Step)
    requires ValidWorld(w) && Healthy(w, db)
    ensures StepIsOnPrompts(w, db, step)
  {
    match step
    case Fetched(_, _) => OnFetched(w, db, step);
    case AcceptStep(_) => OnAccept(w, db, step);
    case LinkPersonStep(_, _) => OnLinkPerson(w, db, step);
    case LinkCompanyStep(_, _) => OnLinkCompany(w, db, step);
    case SuppressStep(_) => OnSuppress(w, db, step);
    case UnsuppressStep(_) => OnUnsuppress(w, db, step);
    case ResolveStep(_, _) => OnResolve(w, db, step);
    case DeletePersonStep(_) => OnDelete(w, db, step);
  }

  // ----- reopening -----

  predicate HasTarget(target: Target) {
    target.kind != "" && target.identifier != ""
  }

  /** The step opens a stored prompt: lifting a suppression takes one store call more when there is a target to lift. */
  predicate Opens(w: World, t: Tables, call: nat, step: Step) {
    match step
    case UnsuppressStep(id) =>
      && id in t.prompts && !w.fails(call) && !w.fails(call + 1)
      && (HasTarget(SuggestionTarget(w, t.prompts[id])) ==> !w.fails(call + 2))
    case ResolveStep(id, status) => status.Open? && id in t.prompts && !w.fails(call)
    case _ => false
  }

  /** Another prompt of this kind and title is open. */
  predicate OtherOpen(t: Tables, id: Id)
    requires id in t.prompts
  {
    exists q :: q in t.prompts && q != id && t.prompts[q].status.Open?
                && t.prompts[q].kind == t.prompts[id].kind && t.prompts[q].title == t.prompts[id].title
  }

  /** The step opens a prompt while another one of its kind and title is open. */
  predicate Doubles(w: World, db: Db, step: Step) {
    Opens(w, db.durable, db.calls, step) && OtherOpen(db.durable, step.prompt)
  }

  /** Prompts after a request that opens one, if it gets that far. */
  ghost predicate OpensWhen(t: Tables, after: Tables, id: Id, opens: bool) {
    if opens then id in t.prompts && after.prompts == Resolved(t, id, Open) else after.prompts == t.prompts
  }

  lemma UnsuppressTargetOpens(w: World, db: Db, id: Id, kind: Kind, target: Target)
    requires Idle(db) && id in db.durable.prompts
    ensures OpensWhen(db.durable, UnsuppressTarget(w, db, id, kind, target).db.durable, id,
                      !w.fails(db.calls) && (HasTarget(target) ==> !w.fails(db.calls + 1)))
  {
  }

  lemma UnsuppressOpens(w: World, db: Db, id: Id)
    requires Idle(db)
    ensures OpensWhen(db.durable, UnsuppressPrompt(w, db, id).db.durable, id,
                      Opens(w, db.durable, db.calls, UnsuppressStep(id)))
  {
    var got := GetAIPrompt(w, db, id);
    if got.Ok? {
      UnsuppressTargetOpens(w, got.db, id, got.value.kind, SuggestionTarget(w, got.value));
    }
  }

  lemma ResolveOpens(w: World, db: Db, id: Id)
    requires Idle(db)
    ensures OpensWhen(db.durable, ResolveAIPrompt(w, db, id, Open).db.durable, id,
                      Opens(w, db.durable, db.calls, ResolveStep(id, Open)))
  {
  }

  lemma OpenedIff(t: Tables, after: Tables, id: Id)
    requires OneOpenPrompt(t) && id in t.prompts && after.prompts == Resolved(t, id, Open)
    ensures OneOpenPrompt(after) <==> !OtherOpen(t, id)
  {
    if OtherOpen(t, id) {
      var q :| q in t.prompts && q != id && t.prompts[q].status.Open?
               && t.prompts[q].kind == t.prompts[id].kind && t.prompts[q].title == t.prompts[id].title;
      assert SameOpenPrompt(after, id, q);
    } else {
      forall p, q | p in after.prompts && q in after.prompts && SameOpenPrompt(after, p, q)
        ensures p == q
      {
        assert p != id && q != id ==> SameOpenPrompt(t, p, q);
      }
    }
  }

  lemma OpensKeepsOneIff(t: Tables, after: Tables, id: Id, opens: bool)
    requires OneOpenPrompt(t) && OpensWhen(t, after, id, opens)
    ensures OneOpenPrompt(after) <==> !(opens && OtherOpen(t, id))
  {
    if opens {
      OpenedIff(t, after, id);
    } else {
      SameOpenPrompts(t, after);
    }
  }

  /** One step, failed or not, keeps the rule if and only if it doubles no prompt. */
  lemma StepKeepsOneOpenIff(w: World, db: Db, step: Step)
    requires ValidWorld(w) && Healthy(w, db) && OneOpenPrompt(db.durable)
    ensures OneOpenPrompt(Apply(w, db, step).db.durable) <==> !Doubles(w, db, step)
  {
    var t, after := db.durable, Apply(w, db, step).db.durable;
    if step.UnsuppressStep? {
      UnsuppressOpens(w, db, step.prompt);
      OpensKeepsOneIff(t, after, step.prompt, Opens(w, t, db.calls, step));
    } else if step.ResolveStep? && step.status.Open? {
      ResolveOpens(w, db, step.prompt);
      OpensKeepsOneIff(t, after, step.prompt, Opens(w, t, db.calls, step));
    } else {
      StepOnPrompts(w, db, step);
    }
  }

  // ----- whole runs -----

  predicate GoodSteps(steps: seq<Step>) {
    forall i :: 0 <= i < |steps| ==> GoodStep(steps[i])
  }

  /** The rule holds in every state of the run. */
  ghost predicate AlwaysOneOpen(w: World, db: Db, steps: seq<Step>)
    decreases |steps|
  {
    OneOpenPrompt(db.durable) && (steps != [] ==> AlwaysOneOpen(w, Apply(w, db, steps[0]).db, steps[1..]))
  }

  predicate NeverDoubles(w: World, db: Db, steps: seq<Step>)
    decreases |steps|
  {
    steps != [] ==> !Doubles(w, db, steps[0]) && NeverDoubles(w, Apply(w, db, steps[0]).db, steps[1..])
  }

  /**
   Over every run, with store calls failing anywhere: at most one prompt of each kind and title is
   open throughout, if and only if no prompt is ever reopened while another one of its kind and
   title is open.
   */
  lemma {:induction false} OneOpenPromptOverRuns(w: World, db: Db, steps: seq<Step>)
    requires ValidWorld(w) && Healthy(w, db) && GoodSteps(steps) && OneOpenPrompt(db.durable)
    ensures AlwaysOneOpen(w, db, steps) <==> NeverDoubles(w, db, steps)
    decreases |steps|
  {
    if steps != [] {
      var next := Apply(w, db, steps[0]).db;
      StepEvolves(w, db, steps[0]);
      StepKeepsOneOpenIff(w, db, steps[0]);
      if OneOpenPrompt(next.durable) {
        OneOpenPromptOverRuns(w, next, steps[1..]);
      }
    }
  }

  /** A dismissed suggestion, and another one about the same address since. */
  function AskedTwice(title: string): Tables {
    NoTables().(prompts := map[
      "old" := Prompt(NewContact, None, "email", "a@b.co", title, "", Dismissed, 0),
      "new" := Prompt(NewContact, None, "email", "a@b.co", title, "", Open, 0)])
  }

  /** The rule holds, and the step breaks it. */
  ghost predicate BreaksOneOpen(w: World, db: Db, step: Step) {
    && ValidWorld(w) && Healthy(w, db) && GoodStep(step) && OneOpenPrompt(db.durable)
    && !OneOpenPrompt(Apply(w, db, step).db.durable)
  }

  lemma AskedTwiceIsHealthy(w: World, db: Db, t: Tables)
    requires w == PlainWorld(_ => false) && t == AskedTwice("New contact: a@b.co") && db == Db(t, t, false, false, 0, 0)
    ensures ValidWorld(w) && Healthy(w, db)
  {
    PlainWorldIsValid(_ => false);
    NamedAreFresh(_ => false, t, {"old", "new"});
  }

  lemma ReopeningDoubles(w: World, db: Db, t: Tables)
    requires w == PlainWorld(_ => false) && t == AskedTwice("New contact: a@b.co") && db == Db(t, t, false, false, 0, 0)
    ensures BreaksOneOpen(w, db, ResolveStep("old", Open))
  {
    AskedTwiceIsHealthy(w, db, t);
    assert "old" in t.prompts && "new" in t.prompts;
    StepKeepsOneOpenIff(w, db, ResolveStep("old", Open));
  }

  lemma DoubledPromptExists()
    ensures exists w, db, step :: BreaksOneOpen(w, db, step)
  {
    var t := AskedTwice("New contact: a@b.co");
    ReopeningDoubles(PlainWorld(_ => false), Db(t, t, false, false, 0, 0), t);
  }

  /** No step of the run lifts the suppression, at the time it is taken. */
  predicate NeverLifted(w: World, db: Db, steps: seq<Step>, s: Suppression)
    decreases |steps|
  {
    steps == [] || (!Lifts(w, db.durable, steps[0], s) && NeverLifted(w, Apply(w, db, steps[0]).db, steps[1..], s))
  }

  function PromptTarget(p: Prompt): Suppression {
    Suppression(p.kind, p.targetType, Lower(p.targetIdentifier))
  }

  /** The prompts a run added, whatever became of them since, leave the suppression alone. */
  ghost predicate RespectsSuppression(t: Tables, after: Tables, s: Suppression) {
    forall q :: q in after.prompts && q !in t.prompts ==> PromptTarget(after.prompts[q]) != s
  }

  lemma StepRespects(t: Tables, after: Tables, s: Suppression)
    requires PromptsKept(t, after) && s in t.suppressions && !s.kind.EmailDealLink?
    ensures RespectsSuppression(t, after, s)
  {
    forall q | q in after.prompts && q !in t.prompts
      ensures PromptTarget(after.prompts[q]) != s
    {
      assert NewPrompt(t, after.prompts[q]);
    }
  }

  /**
   A suppression lasts: whatever is fetched, accepted, linked, dismissed or deleted, the
   suppression stays and no prompt of that kind and target is created, until somebody
   lifts exactly this suppression. Deal links do not consult suppressions.
   */
  lemma {:induction false} SuppressionLasts(w: World, db: Db, steps: seq<Step>, s: Suppression)
    requires ValidWorld(w) && Healthy(w, db) && GoodSteps(steps)
    requires s in db.durable.suppressions && !s.kind.EmailDealLink?
    requires NeverLifted(w, db, steps, s)
    ensures s in Run(w, db, steps).durable.suppressions
    ensures RespectsSuppression(db.durable, Run(w, db, steps).durable, s)
    ensures PromptsKeptOverRun(db.durable, Run(w, db, steps).durable)
    decreases |steps|
  {
    if steps != [] {
      StepEvolves(w, db, steps[0]);
      StepOnPrompts(w, db, steps[0]);
      var next := Apply(w, db, steps[0]).db;
      StepRespects(db.durable, next.durable, s);
      SuppressionLasts(w, next, steps[1..], s);
      RespectsOverRun(db.durable, next.durable, Run(w, next, steps[1..]).durable, s);
    }
  }

  ghost predicate PromptsKeptOverRun(t: Tables, after: Tables) {
    forall q :: q in t.prompts ==>
      q in after.prompts && after.prompts[q] == t.prompts[q].(status := after.prompts[q].status)
  }

  lemma RespectsOverRun(t: Tables, u: Tables, v: Tables, s: Suppression)
    requires RespectsSuppression(t, u, s) && RespectsSuppression(u, v, s)
    requires PromptsKept(t, u) && PromptsKeptOverRun(u, v)
    ensures RespectsSuppression(t, v, s) && PromptsKeptOverRun(t, v)
  {
  }

  /** Over every run a prompt keeps its row, except for the status. */
  lemma {:induction false} PromptsOverRun(w: World, db: Db, steps: seq<Step>)
    requires ValidWorld(w) && Healthy(w, db) && GoodSteps(steps)
    ensures Healthy(w, Run(w, db, steps)) && PromptsKeptOverRun(db.durable, Run(w, db, steps).durable)
    decreases |steps|
  {
    if steps != [] {
      StepEvolves(w, db, steps[0]);
      StepOnPrompts(w, db, steps[0]);
      PromptsOverRun(w, Apply(w, db, steps[0]).db, steps[1..]);
    }
  }

  /**
   Never ask again: once suppressing a contact or company suggestion succeeded, no run creates
   another suggestion of its kind and target until the suppression is lifted. The target is the
   stored one or, for a prompt without one, what its text names.
   */
  lemma NeverAskAgain(w: World, db: Db, id: Id, steps: seq<Step>, s: Suppression)
    requires ValidWorld(w) && Healthy(w, db) && GoodSteps(steps)
    requires id in db.durable.prompts && SuppressPrompt(w, db, id).Ok?
    requires var p := db.durable.prompts[id];
             !p.kind.EmailDealLink? && s == SuppressionOf(p.kind, SuggestionTarget(w, p))
    requires NeverLifted(w, SuppressPrompt(w, db, id).db, steps, s)
    ensures RespectsSuppression(db.durable, Run(w, SuppressPrompt(w, db, id).db, steps).durable, s)
    ensures s in Run(w, SuppressPrompt(w, db, id).db, steps).durable.suppressions
  {
    var suppressed := SuppressPrompt(w, db, id).db;
    SuppressOnPrompts(w, db, id);
    SuppressEvolves(w, db, id);
    SuppressionLasts(w, suppressed, steps, s);
    ClosedPrompts(db.durable, suppressed.durable, id);
    SamePromptsRespect(db.durable, suppressed.durable, Run(w, suppressed, steps).durable, s);
  }

  lemma ClosedPrompts(t: Tables, after: Tables, id: Id)
    requires Closed(t, after, id)
    ensures after.prompts.Keys == t.prompts.Keys
  {
  }

  lemma SamePromptsRespect(t: Tables, u: Tables, after: Tables, s: Suppression)
    requires u.prompts.Keys == t.prompts.Keys && RespectsSuppression(u, after, s)
    ensures RespectsSuppression(t, after, s)
  {
  }
}
