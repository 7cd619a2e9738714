/**
 Mail ingestion as functions of the database state: the specification that the
 methods of EmailService are verified against, and about which the properties of
 whole syncs are proved.
 */
module EmailSync {
  import opened Wrappers
  import opened Text
  import opened CrmTables
  import SuggestionBody

  datatype Account = Account(id: Id, email: string, owner: Id)

  /** What processing one fetched message reports. */
  datatype Outcome = Outcome(created: bool, linked: bool, suggestions: nat)

  // ----- pure parts -----

  /** `strings.Cut(email, "@")`: what follows the first `@`, normalized. */
  function EmailDomain(email: string): string {
    match IndexOf(email, "@")
    case None => ""
    case Some(i) => Normal(email[i + 1..])
  }

  /** The domain stands behind the first `@`, trimmed and in lower case. */
  lemma DomainFollowsAt(local: string, domainName: string)
    requires '@' !in local
    ensures EmailDomain(local + "@" + domainName) == Normal(domainName)
    ensures EmailDomain(local) == ""
  {
    var email := local + "@" + domainName;
    IndexAfter(local, '@', domainName);
    assert email[|local| + 1..] == domainName;
    forall i: nat
      ensures !OccursAt(local, "@", i)
    {
      assert i < |local| ==> local[i..i + 1][0] == local[i];
    }
  }

  predicate IsPersonalEmailDomain(domainName: string) {
    domainName in {
      "gmail.com", "googlemail.com", "icloud.com", "me.com", "mac.com", "outlook.com", "hotmail.com",
      "live.com", "yahoo.com", "proton.me", "protonmail.com", "gmx.de", "web.de", "t-online.de", "aol.com"}
  }

  /** One address considered for the timeline: normalized, not the mailbox's own, not seen before. */
  function AddRelevant(own: string, out: seq<string>, email: string): seq<string> {
    var e := Normal(email);
    if e == "" || e == own || e in out then out else out + [e]
  }

  function AddAllRelevant(own: string, out: seq<string>, emails: seq<string>): seq<string>
    decreases |emails|
  {
    if emails == [] then out else AddAllRelevant(own, AddRelevant(own, out, emails[0]), emails[1..])
  }

  function RelevantEmails(account: Account, m: Message): seq<string> {
    AddAllRelevant(Normal(account.email), [], [m.fromEmail] + m.toEmails)
  }

  function ActivityBody(m: Message): string {
    var about := if m.direction == "outbound" then "Outbound email"
                 else if m.direction == "inbound" then "Inbound email" else "Email";
    if Trim(m.subject) == "" then about else about + "\nSubject: " + Trim(m.subject)
  }

  function PrivateBody(m: Message): string {
    var subject := Trim(m.subject);
    if m.body == "" then subject
    else (if subject == "" then "" else subject + "\n\n") + Trim(m.body)
  }

  function DealNameOrId(deal: Deal): string {
    if Trim(deal.name) != "" then Trim(deal.name) else deal.id
  }

  function Enrich(w: World, m: Message): SuggestionBody.Enrichment {
    var found := w.scan(Trim(m.body));
    SuggestionBody.Enrichment(Trim(m.fromName), found.phone, found.linkedIn, found.website, found.title, found.context)
  }

  function DealPrompt(m: Message, activity: Id, deal: Deal): Prompt {
    Prompt(EmailDealLink, Some(deal.id), "activity", activity,
           "Link email to deal: " + DealNameOrId(deal),
           "Email " + Trim(m.direction) + " may belong on deal " + DealNameOrId(deal) + ".\nSubject: " + Trim(m.subject),
           Open, m.sentAt)
  }

  function ContactPrompt(w: World, from: string, m: Message): Prompt {
    Prompt(NewContact, None, "email", from, "New contact: " + from,
           SuggestionBody.ContactSuggestionBody(from, EmailDomain(from), m.subject, Enrich(w, m)),
           Open, m.sentAt)
  }

  function CompanyPrompt(from: string, domainName: string, m: Message): Prompt {
    Prompt(NewCompany, None, "domain", domainName, "New company: " + domainName,
           "Inbound email from " + from + "\nSubject: " + m.subject
           + "\n\nReview and create/link a company for domain " + domainName + " if relevant.",
           Open, m.sentAt)
  }

  // ----- the timeline -----

  function MatchPeople(w: World, db: Db, emails: seq<string>, matched: set<Id>): Result<set<Id>>
    decreases |emails|
  {
    if emails == [] then Ok(matched, db)
    else
      var (found, db) :- FindPersonByEmail(w, db, emails[0]);
      MatchPeople(w, db, emails[1..], if found.Some? then matched + {found.value} else matched)
  }

  function TouchAll(w: World, db: Db, people: seq<Id>, at: int): Result<()>
    decreases |people|
  {
    if people == [] then Ok((), db)
    else
      var (_, db) :- TouchPerson(w, db, people[0], at);
      TouchAll(w, db, people[1..], at)
  }

  function AddDeals(seen: map<Id, Deal>, deals: seq<Deal>): map<Id, Deal>
    decreases |deals|
  {
    if deals == [] then seen else AddDeals(seen[deals[0].id := deals[0]], deals[1..])
  }

  function CollectDeals(w: World, db: Db, people: seq<Id>, seen: map<Id, Deal>): Result<map<Id, Deal>>
    decreases |people|
  {
    if people == [] then Ok(seen, db)
    else
      var (deals, db) :- Query(w, db, w.deals(people[0]));
      CollectDeals(w, db, people[1..], AddDeals(seen, deals))
  }

  /** Creates the prompt unless an open one of this kind and title exists; 1 if it was created. */
  function PromptOnce(w: World, db: Db, p: Prompt): Result<nat> {
    var (alreadyOpen, db) :- AIPromptExists(w, db, p.kind, p.title);
    if alreadyOpen then Ok(0, db)
    else
      var (_, db) :- CreateAIPrompt(w, db, p);
      Ok(1, db)
  }

  function PromptEach(w: World, db: Db, prompts: seq<Prompt>, created: nat): Result<nat>
    decreases |prompts|
  {
    if prompts == [] then Ok(created, db)
    else
      var (n, db) :- PromptOnce(w, db, prompts[0]);
      PromptEach(w, db, prompts[1..], created + n)
  }

  /** The prompts for the collected deals, in the order of the enumeration. */
  function DealPrompts(m: Message, activity: Id, seen: map<Id, Deal>, ids: seq<Id>): (r: seq<Prompt>)
    ensures forall i :: 0 <= i < |r| ==> r[i].kind.EmailDealLink? && r[i].status.Open?
  {
    if ids == [] then []
    else (if ids[0] in seen then [DealPrompt(m, activity, seen[ids[0]])] else []) + DealPrompts(m, activity, seen, ids[1..])
  }

  function SuggestDealLinks(w: World, db: Db, m: Message, activity: Id, people: set<Id>): Result<nat> {
    var (seen, db) :- CollectDeals(w, db, w.order(db.calls, people), map[]);
    PromptEach(w, db, DealPrompts(m, activity, seen, w.order(db.calls, seen.Keys)), 0)
  }

  datatype Linked = Linked(linked: bool, suggestions: nat)

  function LinkEmailToTimeline(w: World, db: Db, account: Account, m: Message): Result<Linked> {
    var (people, db) :- MatchPeople(w, db, RelevantEmails(account, m), {});
    if people == {} then Ok(Linked(false, 0), db)
    else
      var (activity, db) :- CreateActivity(w, db, Recorded(m), people);
      var (_, db) :- PointAndTouch(w, db, account, m, activity, people);
      var (suggestions, db) :- SuggestDealLinks(w, db, m, activity, people);
      Ok(Linked(true, suggestions), db)
  }

  /** The activity that records a mail. */
  function Recorded(m: Message): Activity {
    Activity(ActivityBody(m), m.sentAt)
  }

  /** Keeps the private text, points the message at its activity and touches the people. */
  function PointAndTouch(w: World, db: Db, account: Account, m: Message, activity: Id, people: set<Id>): Result<()> {
    var (_, db) :- CreateDetail(w, db, account, activity, PrivateBody(m));
    var (_, db) :- SetEmailMessageActivity(w, db, m.id, activity);
    TouchAll(w, db, w.order(db.calls, people), m.sentAt)
  }

  function CreateDetail(w: World, db: Db, account: Account, activity: Id, body: string): Result<()> {
    if account.owner != "" && body != "" then CreateActivityDetail(w, db, activity, body) else Ok((), db)
  }

  // ----- suggestions -----

  /** `stop` is set where the source returns early: on a suppressed suggestion. */
  datatype Suggested = Suggested(created: nat, stop: bool)

  function SuggestContact(w: World, db: Db, from: string, m: Message): Result<Suggested> {
    ContactFor(w, db, from, ContactPrompt(w, from, m))
  }

  function ContactFor(w: World, db: Db, from: string, p: Prompt): Result<Suggested> {
    var (person, db) :- FindPersonByEmail(w, db, from);
    if person.Some? then Ok(Suggested(0, false), db)
    else
      var (suppressed, db) :- IsSuggestionSuppressed(w, db, NewContact, "email", from);
      if suppressed then Ok(Suggested(0, true), db)
      else
        var (n, db) :- PromptOnce(w, db, p);
        Ok(Suggested(n, false), db)
  }

  function SuggestCompany(w: World, db: Db, from: string, m: Message): Result<nat> {
    CompanyFor(w, db, EmailDomain(from), CompanyPrompt(from, EmailDomain(from), m))
  }

  function CompanyFor(w: World, db: Db, domainName: string, p: Prompt): Result<nat> {
    if domainName == "" || IsPersonalEmailDomain(domainName) then Ok(0, db)
    else
      var (company, db) :- FindCompanyByDomain(w, db, domainName);
      if company.Some? then Ok(0, db)
      else
        var (suppressed, db) :- IsSuggestionSuppressed(w, db, NewCompany, "domain", domainName);
        if suppressed then Ok(0, db) else PromptOnce(w, db, p)
  }

  function SuggestEntities(w: World, db: Db, account: Account, m: Message): Result<nat> {
    var from := Normal(m.fromEmail);
    if from == "" || from == Lower(account.email) then Ok(0, db) else SuggestSender(w, db, from, m)
  }

  function SuggestSender(w: World, db: Db, from: string, m: Message): Result<nat> {
    var (contact, db) :- SuggestContact(w, db, from, m);
    if contact.stop then Ok(contact.created, db)
    else
      var (n, db) :- SuggestCompany(w, db, from, m);
      Ok(contact.created + n, db)
  }

  // ----- one message -----

  function ProcessNoTx(w: World, db: Db, account: Account, m: Message): Result<Outcome> {
    var (created, db) :- UpsertEmailMessage(w, db, m);
    if !created then Ok(Outcome(false, false, 0), db) else RecordAndSuggest(w, db, account, m)
  }

  /** What follows once a new message is stored. */
  function RecordAndSuggest(w: World, db: Db, account: Account, m: Message): Result<Outcome> {
    var (link, db) :- LinkEmailToTimeline(w, db, account, m);
    var (n, db) :- SuggestEntities(w, db, account, m);
    Ok(Outcome(true, link.linked, n + link.suggestions), db)
  }

  function Process(w: World, db: Db, account: Account, m: Message): Result<Outcome> {
    var (_, db) :- Begin(w, db);
    Finish(w, ProcessNoTx(w, db, account, m))
  }

  // ----- a whole sync -----

  /** What the outside world answers: secrets, folder lists, fetched mail, the clock. */
  datatype Mail = Mail(
    secret: Account -> bool,
    folders: Account -> Option<seq<string>>,
    fetch: (Account, string, int) -> Option<seq<Message>>,
    now: nat -> int)

  datatype Report = Report(accounts: nat, newMessages: nat, linkedMessages: nat, suggestions: nat, errors: nat)

  /** The database after (a part of) a sync, and the report so far. */
  datatype Synced = Synced(db: Db, report: Report)

  function Counted(report: Report, r: Result<Outcome>): Report {
    match r
    case Err(_) => report.(errors := report.errors + 1)
    case Ok(o, _) =>
      report.(newMessages := report.newMessages + (if o.created then 1 else 0),
              linkedMessages := report.linkedMessages + (if o.linked then 1 else 0),
              suggestions := report.suggestions + o.suggestions)
  }

  function ErrorIf(report: Report, failed: bool): Report {
    if failed then report.(errors := report.errors + 1) else report
  }

  function SyncMessages(w: World, s: Synced, account: Account, messages: seq<Message>): Synced
    decreases |messages|
  {
    if messages == [] then s
    else
      var r := Process(w, s.db, account, messages[0]);
      SyncMessages(w, Synced(r.db, Counted(s.report, r)), account, messages[1..])
  }

  /** The folder's cursor, or the zero time. */
  function Since(cursors: map<(Id, string), int>, account: Id, folder: string): int {
    if (account, folder) in cursors then cursors[(account, folder)] else 0
  }

  function SyncFolder(
    w: World, mail: Mail, s: Synced, account: Account, cursors: map<(Id, string), int>, folder: string): Synced
  {
    match mail.fetch(account, folder, Since(cursors, account.id, folder))
    case None => s.(report := ErrorIf(s.report, true))
    case Some(messages) =>
      var s := SyncMessages(w, s, account, messages);
      var marked := MarkEmailFolderSynced(w, s.db, account.id, folder, mail.now(s.db.calls));
      Synced(marked.db, ErrorIf(s.report, marked.Err?))
  }

  function SyncFolders(
    w: World, mail: Mail, s: Synced, account: Account, cursors: map<(Id, string), int>, folders: seq<string>): Synced
    decreases |folders|
  {
    if folders == [] then s
    else SyncFolders(w, mail, SyncFolder(w, mail, s, account, cursors, folders[0]), account, cursors, folders[1..])
  }

  function SyncAccount(w: World, mail: Mail, s: Synced, account: Account): Synced {
    if !mail.secret(account) then s.(report := ErrorIf(s.report, true))
    else
      var listed := mail.folders(account);
      SyncListed(w, mail, s.(report := ErrorIf(s.report, listed.None?)), account,
                 if listed.Some? then SelectFolders(listed.value) else ["INBOX"])
  }

  function SyncListed(w: World, mail: Mail, s: Synced, account: Account, folders: seq<string>): Synced {
    match Query(w, s.db, s.db.view.cursors)
    case Err(db) => Synced(db, ErrorIf(s.report, true))
    case Ok(cursors, db) =>
      var s := SyncFolders(w, mail, s.(db := db), account, cursors, folders);
      var marked := Query(w, s.db, ());
      Synced(marked.db, ErrorIf(s.report, marked.Err?))
  }

  // ----- folder selection -----

  predicate EqualFold(a: string, b: string) {
    Lower(a) == Lower(b)
  }

  function AddFolder(selected: seq<string>, folder: string): seq<string> {
    AddTrimmed(selected, Trim(folder))
  }

  function AddTrimmed(selected: seq<string>, f: string): seq<string> {
    if f == "" || (exists i :: 0 <= i < |selected| && EqualFold(selected[i], f)) then selected else selected + [f]
  }

  /** Adds every available folder whose name is the wanted one. */
  function AddMatching(selected: seq<string>, available: seq<string>, wanted: string): seq<string>
    decreases |available|
  {
    if available == [] then selected
    else AddMatching(if EqualFold(available[0], wanted) then AddFolder(selected, available[0]) else selected,
                     available[1..], wanted)
  }

  function AddEachMatching(selected: seq<string>, available: seq<string>, wanted: seq<string>): seq<string>
    decreases |wanted|
  {
    if wanted == [] then selected
    else AddEachMatching(AddMatching(selected, available, wanted[0]), available, wanted[1..])
  }

  const SENT_FOLDERS := ["[Gmail]/Sent Mail", "Sent", "Sent Mail", "Sent Items", "INBOX.Sent"]

  function SelectFolders(available: seq<string>): seq<string> {
    var inbox := AddMatching([], available, "INBOX");
    AddEachMatching(if inbox == [] then AddFolder([], "INBOX") else inbox, available, SENT_FOLDERS)
  }
}
