/**
 The CRM tables one organization sees, and what each SQL statement of the
 Postgres adapter does to them.

 `view` is what the running transaction reads; `durable` is what a rollback
 leaves behind. Most statements of a transaction change `view` only. Two store
 methods, CreateActivity and AddPersonEmail, open a transaction of their own on
 the pool even when they are called inside one: they change both.
 */
module CrmTables {
  import opened Wrappers
  import opened Text

  type Id = string

  datatype Message = Message(
    id: string, direction: string, fromEmail: string, fromName: string,
    toEmails: seq<string>, subject: string, body: string, sentAt: int)

  datatype Row = Row(message: Message, activity: Option<Id>)

  datatype Activity = Activity(body: string, occurredAt: int)

  datatype Entity = PersonEntity(id: Id) | DealEntity(id: Id)

  datatype Link = Link(activity: Id, entity: Entity)

  datatype Person = Person(
    firstName: string, lastName: string, email: string, phone: string,
    title: string, linkedIn: string, lastTouch: Option<int>)

  datatype Company = Company(name: string, domainName: string)

  datatype Deal = Deal(id: Id, name: string)

  datatype Kind = NewContact | NewCompany | EmailDealLink | OtherKind

  datatype Status = Open | Accepted | Dismissed

  datatype Prompt = Prompt(
    kind: Kind, deal: Option<Id>, targetType: string, targetIdentifier: string,
    title: string, body: string, status: Status, lastTouch: int)

  datatype Suppression = Suppression(kind: Kind, targetType: string, targetIdentifier: string)

  datatype Tables = Tables(
    messages: map<string, Row>,
    activities: map<Id, Activity>,
    details: map<Id, string>,
    links: set<Link>,
    people: map<Id, Person>,
    addresses: set<(Id, string)>,
    companies: map<Id, Company>,
    domains: set<(Id, string)>,
    employments: set<(Id, Id)>,
    prompts: map<Id, Prompt>,
    suppressions: set<Suppression>,
    cursors: map<(Id, string), int>)

  function NoTables(): Tables {
    Tables(map[], map[], map[], {}, map[], {}, map[], {}, {}, map[], {}, map[])
  }

  datatype Db = Db(view: Tables, durable: Tables, inTx: bool, aborted: bool, calls: nat, next: nat)

  /** No transaction is open. */
  predicate Idle(db: Db) {
    !db.inTx && !db.aborted && db.view == db.durable
  }

  /**
   Everything the services cannot choose: which store call fails, the identifiers
   handed out by the database, the order in which an unordered collection is walked,
   and what regular expressions and deal listings answer. `policies` says whether the
   database role is subject to row-level security.
   */
  datatype World = World(
    fails: nat -> bool,
    policies: bool,
    uuid: nat -> Id,
    order: (nat, set<string>) -> seq<string>,
    deals: Id -> seq<Deal>,
    findEmail: string -> string,
    scan: string -> Scan)

  /** What the enrichment patterns find in the text of a mail. */
  datatype Scan = Scan(phone: string, linkedIn: string, website: string, title: string, context: string)

  predicate NoRepeats(q: seq<string>) {
    forall i, j :: 0 <= i < j < |q| ==> q[i] != q[j]
  }

  ghost predicate Enumerates(q: seq<string>, s: set<string>) {
    (forall x :: x in q <==> x in s) && NoRepeats(q)
  }

  ghost predicate ValidWorld(w: World) {
    && (forall n, s :: Enumerates(w.order(n, s), s))
    && (forall i, j :: i != j ==> w.uuid(i) != w.uuid(j))
    && (forall i :: w.uuid(i) != "")
  }

  /** Identifiers still to be handed out name nothing yet. */
  ghost predicate FreshIds(w: World, t: Tables, next: nat) {
    forall i: nat :: i >= next ==>
      && w.uuid(i) !in t.activities && w.uuid(i) !in t.people
      && w.uuid(i) !in t.companies && w.uuid(i) !in t.prompts
      && (forall m :: m in t.messages ==> t.messages[m].activity != Some(w.uuid(i)))
      && (forall l :: l in t.links ==> l.activity != w.uuid(i))
      && (forall a :: a in t.addresses ==> a.0 != w.uuid(i))
  }

  /** The outcome of store calls; the state is threaded through failures too. */
  datatype Result<+T> = Ok(value: T, db: Db) | Err(db: Db) {
    predicate IsFailure() {
      Err?
    }

    function PropagateFailure<U>(): Result<U>
      requires Err?
    {
      Err(db)
    }

    function Extract(): (T, Db)
      requires Ok?
    {
      (value, db)
    }
  }

  // ----- statements and transactions -----

  /** One statement. A failure inside a transaction aborts it: all that follows fails. */
  function Statement(w: World, db: Db, after: Tables): Result<()> {
    if db.aborted || w.fails(db.calls) then Err(db.(calls := db.calls + 1, aborted := db.inTx))
    else if db.inTx then Ok((), db.(calls := db.calls + 1, view := after))
    else Ok((), db.(calls := db.calls + 1, view := after, durable := after))
  }

  function Query<T>(w: World, db: Db, answer: T): Result<T> {
    if db.aborted || w.fails(db.calls) then Err(db.(calls := db.calls + 1, aborted := db.inTx))
    else Ok(answer, db.(calls := db.calls + 1))
  }

  function Begin(w: World, db: Db): Result<()> {
    if w.fails(db.calls) then Err(db.(calls := db.calls + 1))
    else Ok((), db.(calls := db.calls + 1, inTx := true))
  }

  function Rollback(db: Db): Db {
    db.(view := db.durable, inTx := false, aborted := false)
  }

  /** The end of `WithinTx`: roll back on an error, else commit, which fails for an aborted transaction. */
  function Finish<T>(w: World, r: Result<T>): Result<T> {
    match r
    case Err(db) => Err(Rollback(db))
    case Ok(value, db) =>
      if db.aborted || w.fails(db.calls) then Err(Rollback(db.(calls := db.calls + 1)))
      else Ok(value, db.(calls := db.calls + 1, durable := db.view, inTx := false))
  }

  /** An error the service ignores. */
  function Ignore<T>(r: Result<T>): Db {
    r.db
  }

  // ----- email messages -----

  function UpsertEmailMessage(w: World, db: Db, m: Message): Result<bool> {
    if m.id in db.view.messages then Query(w, db, false)
    else
      var (_, db) :- Statement(w, db, db.view.(messages := db.view.messages[m.id := Row(m, None)]));
      Ok(true, db)
  }

  /** Points the message at an activity, unless it already has one. */
  function WithActivity(t: Tables, id: string, activity: Id): Tables {
    if id in t.messages && t.messages[id].activity.None?
    then t.(messages := t.messages[id := t.messages[id].(activity := Some(activity))])
    else t
  }

  function SetEmailMessageActivity(w: World, db: Db, id: string, activity: Id): Result<()> {
    Statement(w, db, WithActivity(db.view, id, activity))
  }

  predicate Mentions(m: Message, email: string) {
    Lower(m.fromEmail) == Lower(email) || exists e :: e in m.toEmails && Lower(e) == Lower(email)
  }

  function Mentioning(t: Tables, email: string): set<string> {
    set id | id in t.messages && Mentions(t.messages[id].message, email)
  }

  function Take<T>(s: seq<T>, n: nat): seq<T> {
    if |s| <= n then s else s[..n]
  }

  function SentAt(t: Tables, id: string): int {
    if id in t.messages then t.messages[id].message.sentAt else 0
  }

  /** One more message in a list that is newest first. */
  function PutByTime(t: Tables, id: string, sorted: seq<string>): seq<string> {
    if sorted == [] || SentAt(t, id) >= SentAt(t, sorted[0]) then [id] + sorted
    else [sorted[0]] + PutByTime(t, id, sorted[1..])
  }

  /** Ordered by sent time, newest first; equal times stay in whatever order the rows came. */
  function NewestFirst(t: Tables, ids: seq<string>): seq<string> {
    if ids == [] then [] else PutByTime(t, ids[0], NewestFirst(t, ids[1..]))
  }

  /** What a listing answers when it is call number `call`. */
  function ListedMessages(w: World, t: Tables, call: nat, email: string, limit: nat): seq<string> {
    Take(NewestFirst(t, w.order(call, Mentioning(t, email))), limit)
  }

  /** The newest stored messages that mention the address, up to `limit` of them. */
  function ListEmailMessagesForAddress(w: World, db: Db, email: string, limit: nat): Result<seq<string>> {
    Query(w, db, ListedMessages(w, db.view, db.calls, email, limit))
  }

  // ----- people -----

  /** Everybody the address leads to, by the person's own column or by an added address. */
  function Answering(t: Tables, email: string): set<Id> {
    set p | p in t.people && (Lower(t.people[p].email) == Lower(email) || HasAddress(t, p, email))
  }

  predicate HasAddress(t: Tables, p: Id, email: string) {
    exists a :: a in t.addresses && a.0 == p && Lower(a.1) == Lower(email)
  }

  function FirstOf(q: seq<string>): Option<string> {
    if q == [] then None else Some(q[0])
  }

  function FindPersonByEmail(w: World, db: Db, email: string): Result<Option<Id>> {
    Query(w, db, FirstOf(w.order(db.calls, Answering(db.view, email))))
  }

  function GetPerson(w: World, db: Db, id: Id): Result<()> {
    var (found, db) :- Query(w, db, id in db.view.people);
    if found then Ok((), db) else Err(db)
  }

  function CreatePerson(w: World, db: Db, p: Person): Result<Id> {
    var id := w.uuid(db.next);
    var (_, db) :- Statement(w, db.(next := db.next + 1), db.view.(people := db.view.people[id := p]));
    Ok(id, db)
  }

  function Later(a: Option<int>, at: int): int {
    if a.Some? && a.value > at then a.value else at
  }

  function Touched(people: map<Id, Person>, id: Id, at: int): map<Id, Person> {
    if id in people then people[id := people[id].(lastTouch := Some(Later(people[id].lastTouch, at)))] else people
  }

  function TouchPerson(w: World, db: Db, id: Id, at: int): Result<()> {
    Statement(w, db, db.view.(people := Touched(db.view.people, id, at)))
  }

  /** Adds an address, and makes it the person's own when that column is empty. */
  function WithAddress(t: Tables, id: Id, email: string): Tables {
    var t := t.(addresses := t.addresses + {(id, Lower(email))});
    if id in t.people && t.people[id].email == ""
    then t.(people := t.people[id := t.people[id].(email := Lower(email))])
    else t
  }

  /**
   The unique indexes refuse the new row, or the column it would fill: each index looks at its
   own table only, so an added address may be the column of somebody else.
   */
  predicate AddressTaken(t: Tables, id: Id, email: string) {
    || (exists a :: a in t.addresses && Lower(a.1) == Lower(email) && a != (id, Lower(email)))
    || (id in t.people && t.people[id].email == "" && ColumnTaken(t, id, email))
  }

  predicate ColumnTaken(t: Tables, id: Id, email: string) {
    exists p :: p in t.people && p != id && t.people[p].email != "" && Lower(t.people[p].email) == Lower(email)
  }

  /**
   Runs in a transaction of its own. The foreign key asks for a committed person, the unique
   indexes for an address that no other row has.
   */
  function AddPersonEmail(w: World, db: Db, id: Id, email: string): Result<()> {
    if w.fails(db.calls) || id !in db.durable.people || AddressTaken(db.durable, id, email)
    then Err(db.(calls := db.calls + 1))
    else Ok((), db.(calls := db.calls + 1,
                    view := WithAddress(db.view, id, email),
                    durable := WithAddress(db.durable, id, email)))
  }

  /** Deletes the person with the rows that hang on it. */
  function WithoutPerson(t: Tables, id: Id): Tables {
    t.(people := t.people - {id},
       links := (set l | l in t.links && l.entity != PersonEntity(id)),
       addresses := (set a | a in t.addresses && a.0 != id),
       employments := (set e | e in t.employments && e.0 != id))
  }

  function DeletePerson(w: World, db: Db, id: Id): Result<()> {
    Statement(w, db, WithoutPerson(db.view, id))
  }

  // ----- companies -----

  function CompaniesOf(t: Tables, domainName: string): set<Id> {
    set c | c in t.companies && (Lower(t.companies[c].domainName) == Lower(domainName) || HasDomain(t, c, domainName))
  }

  predicate HasDomain(t: Tables, c: Id, domainName: string) {
    exists d :: d in t.domains && d.0 == c && Lower(d.1) == Lower(domainName)
  }

  function FindCompanyByDomain(w: World, db: Db, domainName: string): Result<Option<Id>> {
    Query(w, db, FirstOf(w.order(db.calls, CompaniesOf(db.view, domainName))))
  }

  function GetCompany(w: World, db: Db, id: Id): Result<()> {
    var (found, db) :- Query(w, db, id in db.view.companies);
    if found then Ok((), db) else Err(db)
  }

  function CreateCompany(w: World, db: Db, c: Company): Result<Id> {
    var id := w.uuid(db.next);
    var (_, db) :- Statement(w, db.(next := db.next + 1), db.view.(companies := db.view.companies[id := c]));
    Ok(id, db)
  }

  function AddCompanyDomain(w: World, db: Db, id: Id, domainName: string): Result<()> {
    Statement(w, db, db.view.(domains := db.view.domains + {(id, Lower(domainName))}))
  }

  function LinkPersonCompany(w: World, db: Db, person: Id, company: Id): Result<()> {
    Statement(w, db, db.view.(employments := db.view.employments + {(person, company)}))
  }

  // ----- activities -----

  function WithNewActivity(t: Tables, id: Id, a: Activity, people: set<Id>): Tables {
    t.(activities := t.activities[id := a], links := t.links + (set p | p in people :: Link(id, PersonEntity(p))))
  }

  /**
   Runs in a transaction of its own. Under row-level security the links are checked
   there, where a person created by the enclosing transaction does not exist yet.
   */
  function CreateActivity(w: World, db: Db, a: Activity, people: set<Id>): Result<Id> {
    if w.fails(db.calls) || (w.policies && !(people <= db.durable.people.Keys)) then Err(db.(calls := db.calls + 1))
    else
      var id := w.uuid(db.next);
      Ok(id, db.(calls := db.calls + 1, next := db.next + 1,
                 view := WithNewActivity(db.view, id, a, people),
                 durable := WithNewActivity(db.durable, id, a, people)))
  }

  function CreateActivityDetail(w: World, db: Db, activity: Id, body: string): Result<()> {
    Statement(w, db, db.view.(details := db.view.details[activity := body]))
  }

  /** The foreign key asks for a stored activity. */
  function LinkActivity(w: World, db: Db, activity: Id, entity: Entity): Result<()> {
    if activity !in db.view.activities then Err(db.(calls := db.calls + 1, aborted := db.inTx))
    else Statement(w, db, db.view.(links := db.view.links + {Link(activity, entity)}))
  }

  // ----- prompts and suppressions -----

  function CreateAIPrompt(w: World, db: Db, p: Prompt): Result<Id> {
    var id := w.uuid(db.next);
    var row := p.(targetIdentifier := Lower(p.targetIdentifier));
    var (_, db) :- Statement(w, db.(next := db.next + 1), db.view.(prompts := db.view.prompts[id := row]));
    Ok(id, db)
  }

  function GetAIPrompt(w: World, db: Db, id: Id): Result<Prompt> {
    var (found, db) :- Query(w, db, if id in db.view.prompts then Some(db.view.prompts[id]) else None);
    if found.Some? then Ok(found.value, db) else Err(db)
  }

  predicate HasOpenPrompt(t: Tables, kind: Kind, title: string) {
    exists p :: p in t.prompts && t.prompts[p].kind == kind && t.prompts[p].title == title && t.prompts[p].status.Open?
  }

  function AIPromptExists(w: World, db: Db, kind: Kind, title: string): Result<bool> {
    Query(w, db, HasOpenPrompt(db.view, kind, title))
  }

  function ResolveAIPrompt(w: World, db: Db, id: Id, status: Status): Result<()> {
    if id !in db.view.prompts then
      var (_, db) :- Query(w, db, ());
      Err(db)
    else
      Statement(w, db, db.view.(prompts := db.view.prompts[id := db.view.prompts[id].(status := status)]))
  }

  /** Suppressions are stored in lower case. */
  function IsSuggestionSuppressed(w: World, db: Db, kind: Kind, targetType: string, target: string): Result<bool> {
    Query(w, db, Suppression(kind, targetType, Lower(target)) in db.view.suppressions)
  }

  function SuppressSuggestion(w: World, db: Db, kind: Kind, targetType: string, target: string): Result<()> {
    Statement(w, db, db.view.(suppressions := db.view.suppressions + {Suppression(kind, targetType, Lower(target))}))
  }

  function UnsuppressSuggestion(w: World, db: Db, kind: Kind, targetType: string, target: string): Result<()> {
    Statement(w, db, db.view.(suppressions := db.view.suppressions - {Suppression(kind, targetType, Lower(target))}))
  }

  function MarkEmailFolderSynced(w: World, db: Db, account: Id, folder: string, at: int): Result<()> {
    Statement(w, db, db.view.(cursors := db.view.cursors[(account, folder) := at]))
  }
}
