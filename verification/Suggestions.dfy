/**
 What users do with suggestions, as functions of the database state: the
 specification that the methods of SuggestionService are verified against.
 */
module Suggestions {
  import opened Wrappers
  import opened Text
  import opened CrmTables
  import EmailSync
  import SB = SuggestionBody

  datatype Target = Target(kind: string, identifier: string)

  function TrimPrefix(s: string, prefix: string): string {
    if HasPrefix(s, prefix) then s[|prefix|..] else s
  }

  function TrimSuffix(s: string, suffix: string): string {
    if |suffix| <= |s| && s[|s| - |suffix|..] == suffix then s[..|s| - |suffix|] else s
  }

  /** What a suggestion is about; prompts without a stored target fall back on their text. */
  function SuggestionTarget(w: World, p: Prompt): Target {
    var kind, identifier := Normal(p.targetType), Normal(p.targetIdentifier);
    if kind != "" && identifier != "" then Target(kind, identifier)
    else match p.kind
      case NewContact => Target("email", Normal(w.findEmail(TrimPrefix(p.title, "New contact:") + "\n" + p.body)))
      case NewCompany => Target("domain", Normal(TrimPrefix(p.title, "New company:")))
      case _ => Target("", "")
  }

  function SuggestionValue(w: World, p: Prompt): string {
    SuggestionTarget(w, p).identifier
  }

  // ----- suppressing, outside transactions -----

  function SuppressPrompt(w: World, db: Db, id: Id): Result<()> {
    var (p, db) :- GetAIPrompt(w, db, id);
    SuppressTarget(w, db, id, p.kind, SuggestionTarget(w, p))
  }

  /** Two statements: the suppression stands even when the prompt cannot be dismissed. */
  function SuppressTarget(w: World, db: Db, id: Id, kind: Kind, t: Target): Result<()> {
    if t.kind == "" || t.identifier == "" then Err(db)
    else
      var (_, db) :- SuppressSuggestion(w, db, kind, t.kind, t.identifier);
      ResolveAIPrompt(w, db, id, Dismissed)
  }

  function UnsuppressPrompt(w: World, db: Db, id: Id): Result<()> {
    var (p, db) :- GetAIPrompt(w, db, id);
    UnsuppressTarget(w, db, id, p.kind, SuggestionTarget(w, p))
  }

  function UnsuppressTarget(w: World, db: Db, id: Id, kind: Kind, t: Target): Result<()> {
    if t.kind != "" && t.identifier != "" then
      var (_, db) :- UnsuppressSuggestion(w, db, kind, t.kind, t.identifier);
      ResolveAIPrompt(w, db, id, Open)
    else ResolveAIPrompt(w, db, id, Open)
  }

  // ----- historical mail -----

  function TruncatePromptText(s: string, n: nat): string
    requires n > 0
  {
    if |s| <= n then s else s[..n - 1] + ['\U{2026}']
  }

  function HistoricalBody(m: Message): string {
    var subject := Trim(m.subject);
    if m.body == "" then subject
    else (if subject == "" then "" else subject + "\n\n") + TruncatePromptText(Trim(m.body), 2000)
  }

  /** Validates and trims the message id before the statement. */
  function SetMessageActivity(w: World, db: Db, id: string, activity: Id): Result<()> {
    if Trim(id) == "" || activity == "" then Err(db) else SetEmailMessageActivity(w, db, Trim(id), activity)
  }

  /** Links the activity of one listed row to the person; creates the activity first where there is none. */
  function LinkRow(w: World, db: Db, person: Id, row: Row): Result<()> {
    if row.activity.Some? then LinkActivity(w, db, row.activity.value, PersonEntity(person))
    else CreateForRow(w, db, person, row, HistoricalActivity(row.message))
  }

  function HistoricalActivity(m: Message): Activity {
    Activity(HistoricalBody(m), m.sentAt)
  }

  function CreateForRow(w: World, db: Db, person: Id, row: Row, a: Activity): Result<()> {
    var (activity, db) :- CreateActivity(w, db, a, {person});
    SetMessageActivity(w, db, row.message.id, activity)
  }

  function LinkAndTouch(w: World, db: Db, person: Id, row: Row): Result<()> {
    var (_, db) :- LinkRow(w, db, person, row);
    TouchPerson(w, db, person, row.message.sentAt)
  }

  function LinkRows(w: World, db: Db, person: Id, rows: seq<Row>): Result<()>
    decreases |rows|
  {
    if rows == [] then Ok((), db)
    else
      var (_, db) :- LinkAndTouch(w, db, person, rows[0]);
      LinkRows(w, db, person, rows[1..])
  }

  /** The rows of a listing, as they were when they were read. */
  function RowsOf(t: Tables, ids: seq<string>): (r: seq<Row>)
    ensures (forall i :: 0 <= i < |ids| ==> ids[i] in t.messages) ==>
              |r| == |ids| && forall i :: 0 <= i < |ids| ==> r[i] == t.messages[ids[i]]
  {
    if ids == [] then []
    else if ids[0] in t.messages then [t.messages[ids[0]]] + RowsOf(t, ids[1..])
    else RowsOf(t, ids[1..])
  }

  const HISTORY_LIMIT := 200

  function LinkHistoricalEmails(w: World, db: Db, person: Id, email: string): Result<()> {
    var (ids, db) :- ListEmailMessagesForAddress(w, db, email, HISTORY_LIMIT);
    LinkRows(w, db, person, RowsOf(db.view, ids))
  }

  // ----- accepting -----

  datatype AcceptResult = AcceptResult(created: bool, id: Id)

  /** The company of the address's domain, if there is one, employs the person; a failing link is ignored. */
  function LinkEmployer(w: World, db: Db, person: Id, email: string): Result<()> {
    EmployBy(w, db, person, EmailSync.EmailDomain(email))
  }

  function EmployBy(w: World, db: Db, person: Id, domainName: string): Result<()> {
    if domainName == "" then Ok((), db)
    else
      var (company, db) :- FindCompanyByDomain(w, db, domainName);
      if company.None? then Ok((), db)
      else Ok((), Ignore(LinkPersonCompany(w, db, person, company.value)))
  }

  function SuggestedPerson(email: string, body: string): Person {
    var (first, last) := SB.ParseSuggestedName(body);
    var lines := Lines(body);
    Person(Trim(first), Trim(last), Normal(email), SB.FieldIn(lines, "Phone"), SB.FieldIn(lines, "Possible title"),
           SB.FieldIn(lines, "LinkedIn"), None)
  }

  function AcceptContact(w: World, db: Db, id: Id, p: Prompt): Result<AcceptResult> {
    AcceptNamed(w, db, id, SuggestionValue(w, p), SuggestedPerson(SuggestionValue(w, p), p.body))
  }

  /** `person` is the one to create when nobody answers to the address. */
  function AcceptNamed(w: World, db: Db, id: Id, email: string, person: Person): Result<AcceptResult> {
    if email == "" || !Contains(email, "@") then Err(db)
    else
      var (existing, db) :- FindPersonByEmail(w, db, email);
      if existing.Some? then Ok(AcceptResult(false, existing.value), Ignore(ResolveAIPrompt(w, db, id, Accepted)))
      else AcceptNewContact(w, db, id, email, person)
  }

  function AcceptNewContact(w: World, db: Db, id: Id, email: string, person: Person): Result<AcceptResult> {
    if person.firstName == "" && person.lastName == "" then Err(db)
    else
      var (created, db) :- CreatePerson(w, db, person);
      var (_, db) :- AfterPerson(w, db, id, created, email);
      Ok(AcceptResult(true, created), db)
  }

  /** What follows once the person of a suggestion is known. */
  function AfterPerson(w: World, db: Db, id: Id, person: Id, email: string): Result<()> {
    var (_, db) :- LinkEmployer(w, db, person, email);
    var (_, db) :- LinkHistoricalEmails(w, db, person, email);
    ResolveAIPrompt(w, db, id, Accepted)
  }

  function AcceptDealLink(w: World, db: Db, id: Id, p: Prompt): Result<AcceptResult> {
    var activity := SuggestionValue(w, p);
    if p.deal.None? || activity == "" then Err(db)
    else
      var (_, db) :- LinkActivity(w, db, activity, DealEntity(p.deal.value));
      var (_, db) :- Query(w, db, ());
      var (_, db) :- ResolveAIPrompt(w, db, id, Accepted);
      Ok(AcceptResult(false, p.deal.value), db)
  }

  function AcceptCompany(w: World, db: Db, id: Id, p: Prompt): Result<AcceptResult> {
    var domainName := SuggestionValue(w, p);
    if domainName == "" then Err(db)
    else
      var (existing, db) :- FindCompanyByDomain(w, db, domainName);
      if existing.Some? then Ok(AcceptResult(false, existing.value), Ignore(ResolveAIPrompt(w, db, id, Accepted)))
      else AcceptNewCompany(w, db, id, domainName)
  }

  function CompanyName(domainName: string): string {
    Trim(TrimSuffix(TrimSuffix(domainName, ".com"), ".de"))
  }

  predicate EndsIn(s: string, suffix: string) {
    |suffix| <= |s| && s[|s| - |suffix|..] == suffix
  }

  /** The company is named by its domain, without ".com" or ".de" at the end. */
  lemma CompanyIsNamed(name: string)
    requires Trim(name) == name && !EndsIn(name, ".com") && !EndsIn(name, ".de")
    ensures CompanyName(name) == CompanyName(name + ".com") == CompanyName(name + ".de") == name
  {
    assert (name + ".com")[|name|..] == ".com" && (name + ".com")[..|name|] == name;
    assert (name + ".de")[|name|..] == ".de" && (name + ".de")[..|name|] == name;
    var long := name + ".de";
    if |long| >= 4 {
      assert long[|long| - 4..][3] == 'e' != ".com"[3];
    }
  }

  function AcceptNewCompany(w: World, db: Db, id: Id, domainName: string): Result<AcceptResult> {
    if CompanyName(domainName) == "" then Err(db)
    else
      var (created, db) :- CreateCompany(w, db, Company(CompanyName(domainName), Normal(domainName)));
      var (_, db) :- ResolveAIPrompt(w, db, id, Accepted);
      Ok(AcceptResult(true, created), db)
  }

  function AcceptNoTx(w: World, db: Db, id: Id): Result<AcceptResult> {
    var (p, db) :- GetAIPrompt(w, db, id);
    if !p.status.Open? then Err(db)
    else match p.kind
      case NewContact => AcceptContact(w, db, id, p)
      case EmailDealLink => AcceptDealLink(w, db, id, p)
      case NewCompany => AcceptCompany(w, db, id, p)
      case OtherKind => Err(db)
  }

  function Accept(w: World, db: Db, id: Id): Result<AcceptResult> {
    var (_, db) :- Begin(w, db);
    Finish(w, AcceptNoTx(w, db, id))
  }

  // ----- linking to an existing record -----

  function LinkToPersonNoTx(w: World, db: Db, id: Id, person: Id): Result<()> {
    var (p, db) :- GetAIPrompt(w, db, id);
    LinkNamed(w, db, id, person, p.kind, SuggestionValue(w, p))
  }

  /** A contact suggestion that names an address. */
  predicate Linkable(kind: Kind, email: string) {
    kind.NewContact? && email != "" && Contains(email, "@")
  }

  function LinkNamed(w: World, db: Db, id: Id, person: Id, kind: Kind, email: string): Result<()> {
    if Linkable(kind, email) then LinkAddress(w, db, id, person, email) else Err(db)
  }

  function LinkAddress(w: World, db: Db, id: Id, person: Id, email: string): Result<()> {
    var (_, db) :- AddAddress(w, db, person, email);
    AfterPerson(w, db, id, person, email)
  }

  function AddAddress(w: World, db: Db, person: Id, email: string): Result<()> {
    var (_, db) :- GetPerson(w, db, person);
    AddPersonEmail(w, db, person, email)
  }

  function LinkToPerson(w: World, db: Db, id: Id, person: Id): Result<()> {
    var (_, db) :- Begin(w, db);
    Finish(w, LinkToPersonNoTx(w, db, id, person))
  }

  function LinkToCompanyNoTx(w: World, db: Db, id: Id, company: Id): Result<()> {
    var (p, db) :- GetAIPrompt(w, db, id);
    var domainName := SuggestionValue(w, p);
    if !p.kind.NewCompany? || domainName == "" then Err(db) else LinkDomain(w, db, id, company, domainName)
  }

  function LinkDomain(w: World, db: Db, id: Id, company: Id, domainName: string): Result<()> {
    var (_, db) :- GetCompany(w, db, company);
    var (_, db) :- AddCompanyDomain(w, db, company, domainName);
    ResolveAIPrompt(w, db, id, Accepted)
  }

  function LinkToCompany(w: World, db: Db, id: Id, company: Id): Result<()> {
    var (_, db) :- Begin(w, db);
    Finish(w, LinkToCompanyNoTx(w, db, id, company))
  }

  // ----- runs -----

  /** One request or one fetched message. */
  datatype Step =
    | Fetched(account: EmailSync.Account, message: Message)
    | AcceptStep(prompt: Id)
    | LinkPersonStep(prompt: Id, person: Id)
    | LinkCompanyStep(prompt: Id, company: Id)
    | SuppressStep(prompt: Id)
    | UnsuppressStep(prompt: Id)
    | ResolveStep(prompt: Id, status: Status)
    | DeletePersonStep(person: Id)

  datatype Done = Done(ok: bool, db: Db)

  function Ended<T>(r: Result<T>): Done {
    Done(r.Ok?, r.db)
  }

  function Apply(w: World, db: Db, step: Step): Done {
    match step
    case Fetched(account, message) => Ended(EmailSync.Process(w, db, account, message))
    case AcceptStep(prompt) => Ended(Accept(w, db, prompt))
    case LinkPersonStep(prompt, person) => Ended(LinkToPerson(w, db, prompt, person))
    case LinkCompanyStep(prompt, company) => Ended(LinkToCompany(w, db, prompt, company))
    case SuppressStep(prompt) => Ended(SuppressPrompt(w, db, prompt))
    case UnsuppressStep(prompt) => Ended(UnsuppressPrompt(w, db, prompt))
    case ResolveStep(prompt, status) => Ended(ResolveAIPrompt(w, db, prompt, status))
    case DeletePersonStep(person) => Ended(DeletePerson(w, db, person))
  }

  function Run(w: World, db: Db, steps: seq<Step>): Db
    decreases |steps|
  {
    if steps == [] then db else Run(w, Apply(w, db, steps[0]).db, steps[1..])
  }
}
