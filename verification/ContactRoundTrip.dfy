/**
 From mail to person: a mail that suggests its sender, any run after it, and the acceptance of the
 suggestion. The person created is the one the sync had found out about.
 */
module ContactRoundTrip {
  import opened Wrappers
  import opened Text
  import opened CrmTables
  import opened EmailSync
  import opened EmailSyncProofs
  import opened SyncAccounting
  import opened Suggestions
  import opened HistoricalMail
  import opened Acceptance
  import opened Runs
  import opened SuggestionRuns
  import opened SenderSuggestions
  import RT = SuggestionRoundTrip
  import SB = SuggestionBody
  import IC = IngestedContent

  /**
   The person carries what was found: of a name or a phone that spans lines the first one. What was
   not found may come from the sender's text, and so may a field whose label a further line of the
   sender's name or address carries.
   */
  predicate Carries(p: Person, e: SB.Enrichment, from: string) {
    && p.email == from
    && (e.name != "" ==> SB.Names(p.firstName, p.lastName, RT.FirstLine(e.name)))
    && (Keeps(SB.Phone, from, e) ==> p.phone == RT.FirstLine(e.phone))
    && (Keeps(SB.Title, from, e) ==> p.title == e.title)
    && (Keeps(SB.LinkedIn, from, e) ==> p.linkedIn == e.linkedIn)
  }

  /** The field was found, and no further line of the sender's name or address comes in its place. */
  predicate Keeps(f: SB.Field, from: string, e: SB.Enrichment) {
    SB.Value(f, e) != "" && RT.Unlabelled(RT.Above(from, EmailDomain(from), e), SB.Label(f))
  }

  // ----- the printed body -----

  /** The fields that are read of a body. */
  datatype Parsed = Parsed(name: string, phone: string, title: string, linkedIn: string)

  function ParsedFrom(lines: seq<string>): Parsed {
    Parsed(SB.FieldIn(lines, "Name"), SB.FieldIn(lines, "Phone"), SB.FieldIn(lines, "Possible title"),
           SB.FieldIn(lines, "LinkedIn"))
  }

  predicate ParsesBack(r: Parsed, from: string, e: SB.Enrichment) {
    && (e.name != "" ==> r.name == RT.FirstLine(e.name))
    && (Keeps(SB.Phone, from, e) ==> r.phone == RT.FirstLine(e.phone))
    && (Keeps(SB.Title, from, e) ==> r.title == RT.FirstLine(e.title))
    && (Keeps(SB.LinkedIn, from, e) ==> r.linkedIn == RT.FirstLine(e.linkedIn))
  }

  lemma FieldsParseBack(from: string, subject: string, e: SB.Enrichment, lines: seq<string>)
    requires RT.Found(e) && lines == Lines(SB.ContactSuggestionBody(from, EmailDomain(from), subject, e))
    ensures ParsesBack(ParsedFrom(lines), from, e)
  {
    RT.ParseAfterPrint(SB.Name, from, EmailDomain(from), subject, e);
    RT.ParseAfterPrint(SB.Phone, from, EmailDomain(from), subject, e);
    RT.ParseAfterPrint(SB.Title, from, EmailDomain(from), subject, e);
    RT.ParseAfterPrint(SB.LinkedIn, from, EmailDomain(from), subject, e);
  }

  /** A name that was read gives two names with its words. */
  lemma NamesFromBody(body: string, name: string, first: string, last: string)
    requires name == SB.FieldIn(Lines(body), "Name") && name != "" && (first, last) == SB.ParseSuggestedName(body)
    ensures SB.Names(Trim(first), Trim(last), name)
  {
    NoFieldsIffBlank(name);
    assert TrimLeft(name) == name;
    SB.NameIsSplit(name, Fields(name));
  }

  /** The person's fields are those that were read. */
  predicate FromFields(p: Person, r: Parsed) {
    && (r.name != "" ==> SB.Names(p.firstName, p.lastName, r.name))
    && p.phone == r.phone && p.title == r.title && p.linkedIn == r.linkedIn
  }

  /** A person made of names and of fields that were read. */
  lemma SuggestedFields(from: string, body: string, first: string, last: string, r: Parsed)
    requires (first, last) == SB.ParseSuggestedName(body) && r == ParsedFrom(Lines(body))
    ensures SuggestedPerson(from, body) == Person(Trim(first), Trim(last), Normal(from), r.phone, r.title, r.linkedIn, None)
  {
  }

  lemma SuggestedFromFields(from: string, body: string, r: Parsed)
    requires r == ParsedFrom(Lines(body))
    ensures FromFields(SuggestedPerson(from, body), r) && SuggestedPerson(from, body).email == Normal(from)
  {
    var (first, last) := SB.ParseSuggestedName(body);
    SuggestedFields(from, body, first, last, r);
    if r.name != "" {
      NamesFromBody(body, r.name, first, last);
    }
  }

  /** What is read of one line is the line. */
  lemma OneLineIsRead(value: string)
    requires Trimmed(value) && '\n' !in value
    ensures RT.FirstLine(value) == value
  {
    RT.FirstLineOf(value);
  }

  lemma PersonCarries(p: Person, from: string, r: Parsed, e: SB.Enrichment)
    requires p.email == from && FromFields(p, r) && ParsesBack(r, from, e) && RT.Found(e)
    ensures Carries(p, e, from)
  {
    OneLineIsRead(e.title);
    OneLineIsRead(e.linkedIn);
    if e.name != "" {
      RT.FirstLineIsSome(e.name);
    }
  }

  lemma SuggestedPersonCarries(from: string, subject: string, e: SB.Enrichment, body: string)
    requires Normal(from) == from && RT.Found(e)
    requires body == SB.ContactSuggestionBody(from, EmailDomain(from), subject, e)
    ensures Carries(SuggestedPerson(from, body), e, from)
  {
    FieldsParseBack(from, subject, e, Lines(body));
    var r := ParsedFrom(Lines(body));
    SuggestedFromFields(from, body, r);
    PersonCarries(SuggestedPerson(from, body), from, r, e);
  }

  // ----- accepting -----

  /** The new person is the suggested one, touched by its history. */
  lemma CreatedPerson(w: World, t: Tables, after: Tables, id: Id, p: Prompt, n: nat, answer: AcceptResult)
    requires p.kind.NewContact? && AcceptedView(w, t, after, id, p, n, answer) && answer.created
    ensures answer.id in after.people
    ensures var q := SuggestedPerson(SuggestionValue(w, p), p.body);
            after.people[answer.id] == q.(lastTouch := after.people[answer.id].lastTouch)
  {
    var q := SuggestedPerson(SuggestionValue(w, p), p.body);
    TakenKeepsPeople(WithPerson(t, answer.id, q), after, answer.id, SuggestionValue(w, p));
  }

  lemma StoredTarget(w: World, p: Prompt, from: string)
    requires p.targetType == "email" && p.targetIdentifier == from && from != "" && Normal(from) == from
    ensures SuggestionValue(w, p) == from
  {
    assert Trimmed("email") && Lower("email") == "email";
  }

  /** The prompt is the one the sync printed for this sender. */
  predicate PrintedFor(p: Prompt, from: string, subject: string, e: SB.Enrichment) {
    && p.kind.NewContact? && p.targetType == "email" && p.targetIdentifier == from
    && p.body == SB.ContactSuggestionBody(from, EmailDomain(from), subject, e)
  }

  /** The person that accepting the prompt creates, if it creates one. */
  lemma AcceptedPersonCarries(w: World, db: Db, id: Id, from: string, subject: string, e: SB.Enrichment)
    requires ValidWorld(w) && Healthy(w, db) && id in db.durable.prompts
    requires from != "" && Normal(from) == from && RT.Found(e)
    requires PrintedFor(db.durable.prompts[id], from, subject, e)
    requires Accept(w, db, id).Ok? && Accept(w, db, id).value.created
    ensures var r := Accept(w, db, id);
            && r.value.id in r.db.durable.people && Carries(r.db.durable.people[r.value.id], e, from)
            && HistoryCovered(db.durable, r.db.durable, r.value.id, None, from)
  {
    var p, r := db.durable.prompts[id], Accept(w, db, id);
    AcceptEffect(w, db, id);
    StoredTarget(w, p, from);
    SuggestedPersonCarries(from, subject, e, p.body);
    CreatedPerson(w, db.durable, r.db.durable, id, p, db.next, r.value);
    AcceptTakesHistory(w, db, id);
  }

  // ----- from the mail -----

  /** The contact prompt a processed mail added. */
  lemma MailPrints(w: World, db: Db, account: Account, m: Message, from: string, id: Id)
    requires ValidWorld(w) && Healthy(w, db) && from == Normal(m.fromEmail)
    requires Process(w, db, account, m).Ok? && Process(w, db, account, m).value.created
    requires var after := Process(w, db, account, m).db.durable;
             id in after.prompts && id !in db.durable.prompts && after.prompts[id].kind.NewContact?
    ensures PrintedFor(Process(w, db, account, m).db.durable.prompts[id], from, m.subject, Enrich(w, m)) && from != ""
  {
    SenderSuggestedExactly(w, db, account, m, from);
    var t, after := db.durable, Process(w, db, account, m).db.durable;
    var wanted := FromOthers(account, from) && WantsContact(t, from);
    OnlyThisPrompt(t.prompts, after.prompts, wanted, ContactPrompt(w, from, m), id);
    NormalIsStable(m.fromEmail);
  }

  lemma OnlyThisPrompt(before: map<Id, Prompt>, after: map<Id, Prompt>, wanted: bool, p: Prompt, id: Id)
    requires AddsExactly(before, after, NewContact, wanted, p)
    requires id in after && id !in before && after[id].kind.NewContact?
    ensures wanted && after[id] == IC.StoredPrompt(p)
  {
  }

  lemma StillPrinted(t: Tables, after: Tables, id: Id, from: string, subject: string, e: SB.Enrichment)
    requires PromptsKeptOverRun(t, after) && id in t.prompts && PrintedFor(t.prompts[id], from, subject, e)
    ensures id in after.prompts && PrintedFor(after.prompts[id], from, subject, e)
  {
  }

  /** The mail is still stored after the run. */
  lemma MailStaysStored(w: World, db: Db, account: Account, m: Message, steps: seq<Step>, now: Db)
    requires ValidWorld(w) && Healthy(w, db) && m.id != "" && Trimmed(m.id)
    requires Process(w, db, account, m).Ok? && Process(w, db, account, m).value.created
    requires GoodSteps(steps) && now == Run(w, Process(w, db, account, m).db, steps)
    ensures m.id in now.durable.messages && now.durable.messages[m.id].message == m
  {
    var mailed := Process(w, db, account, m).db;
    ProcessEffect(w, db, account, m);
    MailIsHealthy(w, db, account, m);
    RunEvolves(w, mailed, steps);
    assert KeptRow(mailed.durable, now.durable, m.id);
  }

  lemma MailIsHealthy(w: World, db: Db, account: Account, m: Message)
    requires ValidWorld(w) && Healthy(w, db) && m.id != "" && Trimmed(m.id)
    ensures Healthy(w, Process(w, db, account, m).db)
  {
    StepEvolves(w, db, Fetched(account, m));
  }

  /**
   The person has the sender's address, and the words of the sender's name; and, unless that name or
   address goes over several lines, whatever title, profile and phone stood in the text of the mail.
   */
  predicate CarriesSender(p: Person, m: Message, found: Scan, from: string) {
    && p.email == from
    && (Trim(m.fromName) != "" ==> SB.Names(p.firstName, p.lastName, RT.FirstLine(Trim(m.fromName))))
    && ('\n' !in Trim(m.fromName) && '\n' !in from && '\n' !in EmailDomain(from) ==>
          && (found.title != "" ==> p.title == found.title)
          && (found.linkedIn != "" ==> p.linkedIn == found.linkedIn)
          && (found.phone != "" ==> p.phone == RT.FirstLine(found.phone)))
  }

  lemma NothingAbove(from: string, domainName: string, e: SB.Enrichment)
    requires '\n' !in e.name && '\n' !in from && '\n' !in domainName
    ensures RT.Above(from, domainName, e) == []
  {
    OneLine(e.name);
    OneLine(from);
    OneLine(domainName);
  }

  lemma PlainKeeps(f: SB.Field, from: string, e: SB.Enrichment)
    requires RT.Above(from, EmailDomain(from), e) == [] && SB.Value(f, e) != ""
    ensures Keeps(f, from, e)
  {
  }

  lemma SenderCarried(w: World, m: Message, from: string, p: Person)
    requires Carries(p, Enrich(w, m), from)
    ensures CarriesSender(p, m, w.scan(Trim(m.body)), from)
  {
    var e := Enrich(w, m);
    if '\n' !in Trim(m.fromName) && '\n' !in from && '\n' !in EmailDomain(from) {
      NothingAbove(from, EmailDomain(from), e);
      if e.title != "" { PlainKeeps(SB.Title, from, e); }
      if e.linkedIn != "" { PlainKeeps(SB.LinkedIn, from, e); }
      if e.phone != "" { PlainKeeps(SB.Phone, from, e); }
    }
  }

  /**
   A mail suggested its sender, anything happened since, and accepting the suggestion creates a
   person. Then his names are the words of the sender's name, he carries the title, the profile and
   the phone that stood in the mail, and he takes over the history of the address.
   */
  lemma MailBecomesPerson(w: World, db: Db, account: Account, m: Message, from: string, id: Id, steps: seq<Step>, now: Db)
    requires ValidWorld(w) && Healthy(w, db) && m.id != "" && Trimmed(m.id) && from == Normal(m.fromEmail)
    requires Process(w, db, account, m).Ok? && Process(w, db, account, m).value.created
    requires var after := Process(w, db, account, m).db.durable;
             id in after.prompts && id !in db.durable.prompts && after.prompts[id].kind.NewContact?
    requires GoodSteps(steps) && now == Run(w, Process(w, db, account, m).db, steps)
    requires RT.Found(Enrich(w, m))
    requires Accept(w, now, id).Ok? && Accept(w, now, id).value.created
    ensures var r := Accept(w, now, id);
            && r.value.id in r.db.durable.people && Carries(r.db.durable.people[r.value.id], Enrich(w, m), from)
            && CarriesSender(r.db.durable.people[r.value.id], m, w.scan(Trim(m.body)), from)
            && HistoryCovered(now.durable, r.db.durable, r.value.id, None, from)
  {
    var mailed := Process(w, db, account, m).db;
    MailPrints(w, db, account, m, from, id);
    MailIsHealthy(w, db, account, m);
    PromptsOverRun(w, mailed, steps);
    StillPrinted(mailed.durable, now.durable, id, from, m.subject, Enrich(w, m));
    NormalIsStable(m.fromEmail);
    AcceptedPersonCarries(w, now, id, from, m.subject, Enrich(w, m));
    SenderCarried(w, m, from, Accept(w, now, id).db.durable.people[Accept(w, now, id).value.id]);
  }

  /** A short history is linked as a whole. */
  lemma ShortHistoryLinks(t: Tables, after: Tables, id: string, person: Id, email: string)
    requires id in Mentioning(t, email) && |Mentioning(t, email)| <= HISTORY_LIMIT
    requires HistoryCovered(t, after, person, None, email)
    ensures IsLinked(after, id, person)
  {
  }

  lemma StoredMentions(after: Tables, m: Message, from: string)
    requires m.id in after.messages && after.messages[m.id].message == m
    requires from == Normal(m.fromEmail) && Trimmed(m.fromEmail)
    ensures m.id in Mentioning(after, from)
  {
    LowerIsStable(m.fromEmail);
    assert Mentions(m, from);
  }

  /** The mail itself is part of that history: with at most 200 messages of the address, it is linked to the person. */
  lemma MailReachesPerson(w: World, db: Db, account: Account, m: Message, from: string, id: Id, steps: seq<Step>, now: Db)
    requires ValidWorld(w) && Healthy(w, db) && m.id != "" && Trimmed(m.id)
    requires from == Normal(m.fromEmail) && Trimmed(m.fromEmail)
    requires Process(w, db, account, m).Ok? && Process(w, db, account, m).value.created
    requires GoodSteps(steps) && now == Run(w, Process(w, db, account, m).db, steps)
    ensures m.id in Mentioning(now.durable, from)
    ensures forall after, person {:trigger HistoryCovered(now.durable, after, person, None, from)} ::
              HistoryCovered(now.durable, after, person, None, from) && |Mentioning(now.durable, from)| <= HISTORY_LIMIT ==>
                IsLinked(after, m.id, person)
  {
    MailStaysStored(w, db, account, m, steps, now);
    StoredMentions(now.durable, m, from);
    forall after, person {:trigger HistoryCovered(now.durable, after, person, None, from)} |
      HistoryCovered(now.durable, after, person, None, from) && |Mentioning(now.durable, from)| <= HISTORY_LIMIT
      ensures IsLinked(after, m.id, person)
    {
      ShortHistoryLinks(now.durable, after, m.id, person, from);
    }
  }
}
