/**
 Suggested contacts that cannot be accepted: under row-level security the mail that suggested its
 sender stands in the way of the person it suggested.
 */
module RefusedContacts {
  import opened Wrappers
  import opened Text
  import opened CrmTables
  import opened EmailSync
  import opened EmailSyncProofs
  import opened SyncAccounting
  import opened Suggestions
  import opened HistoricalMail
  import opened Acceptance
  import opened AcceptanceConditions
  import opened Runs
  import opened SuggestionRuns
  import opened SenderSuggestions
  import opened FailureTraces
  import opened ConcreteWorlds
  import CR = ContactRoundTrip
  import Replay
  import SB = SuggestionBody
  import RT = SuggestionRoundTrip

  /** A contact prompt that processing the mail added. */
  ghost predicate Suggested(w: World, db: Db, account: Account, m: Message, id: Id) {
    var r := Process(w, db, account, m);
    && r.Ok? && r.value.created
    && id in r.db.durable.prompts && id !in db.durable.prompts && r.db.durable.prompts[id].kind.NewContact?
  }

  /** Accepting the prompt creates a person. */
  predicate CreatesPerson(w: World, db: Db, id: Id) {
    var r := Accept(w, db, id);
    r.Ok? && r.value.created
  }

  lemma UnrecordedRefuses(w: World, db: Db, id: Id, k: string)
    requires ValidWorld(w) && Quiet(w) && w.policies && Healthy(w, db)
    requires id in db.durable.prompts && db.durable.prompts[id].kind.NewContact?
    requires var email := SuggestionValue(w, db.durable.prompts[id]);
             k in Mentioning(db.durable, email) && |Mentioning(db.durable, email)| <= HISTORY_LIMIT
    requires db.durable.messages[k].activity.None?
    ensures !CreatesPerson(w, db, id)
  {
    if db.durable.prompts[id].status.Open? {
      AcceptCreatesContactOfFew(w, db, id);
    } else {
      AcceptEffect(w, db, id);
    }
  }

  /** The prompt is still about the sender. */
  lemma StillAboutSender(w: World, db: Db, account: Account, m: Message, from: string, id: Id, steps: seq<Step>, now: Db)
    requires ValidWorld(w) && Healthy(w, db) && m.id != "" && Trimmed(m.id) && from == Normal(m.fromEmail)
    requires Suggested(w, db, account, m, id)
    requires GoodSteps(steps) && now == Run(w, Process(w, db, account, m).db, steps)
    ensures Healthy(w, now) && id in now.durable.prompts
    ensures CR.PrintedFor(now.durable.prompts[id], from, m.subject, Enrich(w, m))
    ensures SuggestionValue(w, now.durable.prompts[id]) == from
  {
    var mailed := Process(w, db, account, m).db;
    CR.MailPrints(w, db, account, m, from, id);
    CR.MailIsHealthy(w, db, account, m);
    PromptsOverRun(w, mailed, steps);
    CR.StillPrinted(mailed.durable, now.durable, id, from, m.subject, Enrich(w, m));
    NormalIsStable(m.fromEmail);
    CR.StoredTarget(w, now.durable.prompts[id], from);
  }

  /**
   Under row-level security a mail stands in the way of the contact it suggested: whatever happened
   since, as long as the mail has no activity and few messages mention the address, accepting
   the suggestion creates nobody, although no store call fails.
   */
  lemma OwnMailRefuses(w: World, db: Db, account: Account, m: Message, from: string, id: Id, steps: seq<Step>, now: Db)
    requires ValidWorld(w) && Quiet(w) && w.policies && Healthy(w, db) && m.id != "" && Trimmed(m.id)
    requires from == Normal(m.fromEmail) && Trimmed(m.fromEmail)
    requires Suggested(w, db, account, m, id)
    requires GoodSteps(steps) && now == Run(w, Process(w, db, account, m).db, steps)
    requires m.id in now.durable.messages ==> now.durable.messages[m.id].activity.None?
    requires |Mentioning(now.durable, from)| <= HISTORY_LIMIT
    ensures !CreatesPerson(w, now, id)
  {
    StillAboutSender(w, db, account, m, from, id, steps, now);
    CR.MailStaysStored(w, db, account, m, steps, now);
    CR.StoredMentions(now.durable, m, from);
    UnrecordedRefuses(w, now, id, m.id);
  }

  // ----- an input -----

  /** The first mail of strangers: it has no activity, and people and addresses are as before. */
  lemma StrangersUnrecorded(w: World, db: Db, account: Account, m: Message)
    requires ValidWorld(w) && Sound(w, db) && FromStrangers(db.durable, account, m)
    requires Process(w, db, account, m).Ok? && Process(w, db, account, m).value.created
    ensures var after := Process(w, db, account, m).db.durable;
            && after.messages == db.durable.messages[m.id := Row(m, None)]
            && after.people == db.durable.people && after.addresses == db.durable.addresses
  {
    ProcessEffect(w, db, account, m);
    StrangersLeaveNoTrace(w, db, account, m);
  }

  lemma SameAnswering(t: Tables, after: Tables, email: string)
    requires after.people == t.people && after.addresses == t.addresses
    ensures Answering(after, email) == Answering(t, email)
  {
    assert forall p :: HasAddress(after, p, email) <==> HasAddress(t, p, email);
  }

  /** Right after the mail: refused because of the policies, and of nothing else. */
  ghost predicate Refuses(w: World, db: Db, account: Account, m: Message, id: Id) {
    && ValidWorld(w) && Quiet(w) && w.policies && Healthy(w, db) && account.owner != ""
    && Suggested(w, db, account, m, id)
    && !CreatesPerson(w, Process(w, db, account, m).db, id)
    && CreatesPerson(w.(policies := false), Process(w, db, account, m).db, id)
  }

  predicate NamedStranger(w: World, t: Tables, account: Account, m: Message, from: string) {
    && FromStrangers(t, account, m) && Answering(t, from) == {}
    && from == Normal(m.fromEmail) && Trimmed(m.fromEmail) && from != "" && Contains(from, "@")
    && Trim(m.fromName) != "" && RT.Found(Enrich(w, m))
  }

  lemma NewPromptIsOpen(w: World, db: Db, account: Account, m: Message, id: Id)
    requires ValidWorld(w) && Sound(w, db) && Suggested(w, db, account, m, id)
    ensures Process(w, db, account, m).db.durable.prompts[id].status.Open?
  {
    ProcessEffect(w, db, account, m);
    assert NewPrompt(db.durable, Process(w, db, account, m).db.durable.prompts[id]);
  }

  lemma NamedIsReady(t: Tables, from: string, subject: string, e: SB.Enrichment, body: string)
    requires Answering(t, from) == {} && from != "" && Contains(from, "@") && Normal(from) == from
    requires RT.Found(e) && e.name != "" && body == SB.ContactSuggestionBody(from, EmailDomain(from), subject, e)
    ensures NewContactReady(t, from, SuggestedPerson(from, body))
  {
    CR.SuggestedPersonCarries(from, subject, e, body);
  }

  lemma SameWithoutPolicies(w: World, open: World, db: Db)
    requires ValidWorld(w) && Quiet(w) && Healthy(w, db) && open == w.(policies := false)
    ensures ValidWorld(open) && Quiet(open) && Healthy(open, db)
  {
  }

  /** Nobody answers, the prompt names somebody, and no policy is in the way. */
  lemma CreatesWithoutPolicies(open: World, db: Db, id: Id, from: string, subject: string, e: SB.Enrichment)
    requires ValidWorld(open) && Quiet(open) && !open.policies && Healthy(open, db)
    requires id in db.durable.prompts && db.durable.prompts[id].status.Open?
    requires CR.PrintedFor(db.durable.prompts[id], from, subject, e) && RT.Found(e) && e.name != ""
    requires Answering(db.durable, from) == {} && from != "" && Contains(from, "@") && Normal(from) == from
    requires |Mentioning(db.durable, from)| <= HISTORY_LIMIT
    ensures CreatesPerson(open, db, id)
  {
    var p := db.durable.prompts[id];
    CR.StoredTarget(open, p, from);
    NamedIsReady(db.durable, from, subject, e, p.body);
    AcceptCreatesContactOfFew(open, db, id);
  }

  lemma NamedStrangerCreates(w: World, open: World, db: Db, account: Account, m: Message, from: string, id: Id)
    requires ValidWorld(w) && Quiet(w) && open == w.(policies := false) && Healthy(w, db)
    requires m.id != "" && Trimmed(m.id) && NamedStranger(w, db.durable, account, m, from)
    requires Suggested(w, db, account, m, id)
    requires |Mentioning(Process(w, db, account, m).db.durable, from)| <= HISTORY_LIMIT
    ensures CreatesPerson(open, Process(w, db, account, m).db, id)
  {
    var mailed := Process(w, db, account, m).db;
    StrangersUnrecorded(w, db, account, m);
    StillAboutSender(w, db, account, m, from, id, [], mailed);
    NewPromptIsOpen(w, db, account, m, id);
    SameAnswering(db.durable, mailed.durable, from);
    NormalIsStable(m.fromEmail);
    SameWithoutPolicies(w, open, mailed);
    CreatesWithoutPolicies(open, mailed, id, from, m.subject, Enrich(w, m));
  }

  /** A new mail of a stranger with a name is refused by itself. */
  lemma NamedStrangerRefused(w: World, db: Db, account: Account, m: Message, from: string, id: Id)
    requires ValidWorld(w) && Quiet(w) && w.policies && Healthy(w, db) && account.owner != ""
    requires m.id != "" && Trimmed(m.id) && NamedStranger(w, db.durable, account, m, from)
    requires Suggested(w, db, account, m, id)
    requires |Mentioning(Process(w, db, account, m).db.durable, from)| <= HISTORY_LIMIT
    ensures Refuses(w, db, account, m, id)
  {
    StrangersUnrecorded(w, db, account, m);
    OwnMailRefuses(w, db, account, m, from, id, [], Process(w, db, account, m).db);
    NamedStrangerCreates(w, w.(policies := false), db, account, m, from, id);
  }

  const SENDER := "a@b.co"
  const BOX := Account("box", "me@b.co", "owner")
  const FIRST_MAIL := Message("m1", "inbound", SENDER, "Ada", [], "", "", 7)

  /** Nothing fails, and the database role is subject to the policies. */
  ghost function GuardedWorld(): World {
    PlainWorld(_ => false).(policies := true)
  }

  function NoRows(): Db {
    Db(NoTables(), NoTables(), false, false, 0, 0)
  }

  lemma GuardedIsQuiet(w: World, db: Db)
    requires w == GuardedWorld() && db == NoRows()
    ensures ValidWorld(w) && Quiet(w) && w.policies && Replay.FixedOrder(w) && Healthy(w, db)
  {
    PlainWorldIsValid(_ => false);
    NamedAreFresh(_ => false, NoTables(), {});
  }

  /** An address as it is compared. */
  predicate PlainAddress(from: string) {
    Normal(from) == from && Trimmed(from) && from != "" && Contains(from, "@")
  }

  lemma SenderIsPlain(from: string)
    requires from == SENDER
    ensures PlainAddress(from)
  {
    assert Trimmed(from) && Lower(from) == from;
    assert OccursAt(from, "@", 1);
  }

  predicate FromTo(account: Account, m: Message, from: string) {
    && m.fromEmail == from && from != Lower(account.email) && account.owner != ""
    && m.id != "" && Trimmed(m.id)
  }

  lemma FirstIsFromTo(account: Account, m: Message, from: string)
    requires account == BOX && m == FIRST_MAIL && from == SENDER
    ensures FromTo(account, m, from)
  {
    assert Lower(account.email)[0] == 'm';
  }

  lemma NobodyKnown(w: World, account: Account, m: Message, from: string)
    ensures FromStrangers(NoTables(), account, m) && WantsContact(NoTables(), from) && Answering(NoTables(), from) == {}
  {
  }

  /** Where nothing fails, a stranger's mail is processed and suggests him. */
  lemma StrangerIsSuggested(w: World, db: Db, account: Account, m: Message, from: string) returns (id: Id)
    requires ValidWorld(w) && Quiet(w) && Replay.FixedOrder(w) && Healthy(w, db)
    requires m.id !in db.durable.messages && from == Normal(m.fromEmail) && FromOthers(account, from)
    requires WantsContact(db.durable, from)
    ensures Suggested(w, db, account, m, id)
  {
    Replay.ProcessAlike(w, db, db, account, m);
    ProcessEffect(w, db, account, m);
    SenderSuggestedExactly(w, db, account, m, from);
    var after := Process(w, db, account, m).db.durable;
    id :| OnlyNew(db.durable.prompts, after.prompts, NewContact, id, ContactPrompt(w, from, m));
  }

  lemma OneMentions(t: Tables, email: string, k: string)
    requires t.messages.Keys == {k}
    ensures |Mentioning(t, email)| <= 1
  {
    if k in Mentioning(t, email) {
      assert Mentioning(t, email) == {k};
    } else {
      assert Mentioning(t, email) == {};
    }
  }

  /** The mail of somebody with a name to somebody else's mailbox. */
  predicate NamedMail(w: World, account: Account, m: Message, from: string) {
    PlainAddress(from) && FromTo(account, m, from) && Trim(m.fromName) != "" && RT.Found(Enrich(w, m))
  }

  lemma AdaIsFound(w: World, m: Message)
    requires w == GuardedWorld() && m == FIRST_MAIL
    ensures Trim(m.fromName) != "" && RT.Found(Enrich(w, m))
  {
    assert Trimmed("Ada");
  }

  /** The first mail ever, from a stranger with a name, under row-level security. */
  ghost predicate FirstContact(w: World, db: Db, account: Account, m: Message, from: string) {
    && ValidWorld(w) && Quiet(w) && w.policies && Replay.FixedOrder(w) && Healthy(w, db) && account.owner != ""
    && db.durable.messages == map[] && m.id != "" && Trimmed(m.id)
    && NamedStranger(w, db.durable, account, m, from) && FromOthers(account, from) && WantsContact(db.durable, from)
  }

  lemma FirstContactRefused(w: World, db: Db, account: Account, m: Message, from: string) returns (id: Id)
    requires FirstContact(w, db, account, m, from)
    ensures Refuses(w, db, account, m, id)
  {
    id := StrangerIsSuggested(w, db, account, m, from);
    StrangersUnrecorded(w, db, account, m);
    OneMentions(Process(w, db, account, m).db.durable, from, m.id);
    NamedStrangerRefused(w, db, account, m, from, id);
  }

  lemma NamedIsFirst(w: World, db: Db, account: Account, m: Message, from: string)
    requires ValidWorld(w) && Quiet(w) && w.policies && Replay.FixedOrder(w) && Healthy(w, db) && db.durable == NoTables()
    requires NamedMail(w, account, m, from)
    ensures FirstContact(w, db, account, m, from)
  {
    NobodyKnown(w, account, m, from);
  }

  /** Empty tables, and no failing call. */
  lemma RefusedInputExists()
    ensures exists w, db, account, m, id :: Refuses(w, db, account, m, id)
  {
    GuardedIsQuiet(GuardedWorld(), NoRows());
    SenderIsPlain(SENDER);
    FirstIsFromTo(BOX, FIRST_MAIL, SENDER);
    AdaIsFound(GuardedWorld(), FIRST_MAIL);
    NamedIsFirst(GuardedWorld(), NoRows(), BOX, FIRST_MAIL, SENDER);
    var id := FirstContactRefused(GuardedWorld(), NoRows(), BOX, FIRST_MAIL, SENDER);
  }
}
