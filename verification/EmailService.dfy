/**
 Mail ingestion as it runs: methods that loop over addresses, deals, messages,
 folders and accounts and change the store. Each is proved to do what the function
 of the same name in EmailSync says.
 */
module EmailIngestion {
  import opened Wrappers
  import opened Text
  import opened CrmTables
  import opened CrmStore
  import opened EmailSyncProofs
  import opened SyncAccounting
  import ES = EmailSync
  import FT = FailureTraces

  /** The addresses of a message that matter for the timeline: a loop with a set of seen ones. */
  method RelevantEmails(account: ES.Account, m: Message) returns (out: seq<string>)
    ensures out == ES.RelevantEmails(account, m)
  {
    var own := Normal(account.email);
    var seen: set<string> := {};
    out := [];
    var emails := [m.fromEmail] + m.toEmails;
    var i := 0;
    while i < |emails|
      invariant 0 <= i <= |emails|
      invariant forall e :: e in seen <==> e in out
      invariant ES.RelevantEmails(account, m) == ES.AddAllRelevant(own, out, emails[i..])
    {
      var e := Normal(emails[i]);
      if e != "" && e != own && e !in seen {
        seen := seen + {e};
        out := out + [e];
      }
      i := i + 1;
    }
  }

  /** The folders of a mailbox to fetch: the inbox first, then the sent folders that exist. */
  method SyncFolders(available: seq<string>) returns (selected: seq<string>)
    ensures selected == ES.SelectFolders(available)
  {
    selected := AddMatching([], available, "INBOX");
    if selected == [] {
      selected := ES.AddFolder([], "INBOX");
    }
    var wanted := ES.SENT_FOLDERS;
    var i := 0;
    while i < |wanted|
      invariant 0 <= i <= |wanted|
      invariant ES.SelectFolders(available) == ES.AddEachMatching(selected, available, wanted[i..])
    {
      selected := AddMatching(selected, available, wanted[i]);
      i := i + 1;
    }
  }

  method AddMatching(selected: seq<string>, available: seq<string>, wanted: string) returns (out: seq<string>)
    ensures out == ES.AddMatching(selected, available, wanted)
  {
    out := selected;
    var i := 0;
    while i < |available|
      invariant 0 <= i <= |available|
      invariant ES.AddMatching(selected, available, wanted) == ES.AddMatching(out, available[i..], wanted)
    {
      if ES.EqualFold(available[i], wanted) {
        out := ES.AddFolder(out, available[i]);
      }
      i := i + 1;
    }
  }

  /** One iteration over the prompts. */
  lemma PromptIteration(w: World, db: Db, prompts: seq<Prompt>, i: nat, created: nat)
    requires i < |prompts|
    ensures var once := ES.PromptOnce(w, db, prompts[i]);
            ES.PromptEach(w, db, prompts[i..], created) ==
            if once.Err? then Err(once.db) else ES.PromptEach(w, once.db, prompts[i + 1..], created + once.value)
  {
    assert prompts[i..][1..] == prompts[i + 1..];
  }

  /** Adds the outcome of one message to the report. */
  method Count(r: Outcome<ES.Outcome>, before: ES.Report, ghost spec: Result<ES.Outcome>) returns (report: ES.Report)
    requires (r.Success? <==> spec.Ok?) && (r.Success? ==> r.value == spec.value)
    ensures report == ES.Counted(before, spec)
  {
    report := before;
    if r.Failure? {
      return report.(errors := report.errors + 1);
    }
    if r.value.created {
      report := report.(newMessages := report.newMessages + 1);
    }
    if r.value.linked {
      report := report.(linkedMessages := report.linkedMessages + 1);
    }
    report := report.(suggestions := report.suggestions + r.value.suggestions);
  }

  method FoldersToFetch(listed: Option<seq<string>>) returns (folders: seq<string>)
    ensures folders == if listed.Some? then ES.SelectFolders(listed.value) else ["INBOX"]
  {
    folders := ["INBOX"];
    if listed.Some? {
      folders := SyncFolders(listed.value);
    }
  }

  /**
   What a message leaves: stored once and for all, or not at all. A failed one leaves the mail, the
   people and the suggestions as they were, and everything if nobody answers to its addresses.
   */
  ghost predicate MessageOutcome(t: Tables, after: Tables, account: ES.Account, m: Message, r: Outcome<ES.Outcome>) {
    && (r.Success? ==>
        && m.id in after.messages && (r.value.created <==> m.id !in t.messages)
        && (!r.value.created ==> after == t))
    && (r.Failure? ==>
        && after.messages == t.messages && after.people == t.people && after.prompts == t.prompts
        && (m.id in t.messages || FT.FromStrangers(t, account, m) ==> after == t))
  }

  lemma ProcessMeans(w: World, db: Db, account: ES.Account, m: Message, r: Outcome<ES.Outcome>, after: Db)
    requires ValidWorld(w) && Sound(w, db) && Meets(r, after, ES.Process(w, db, account, m))
    ensures Sound(w, after) && MessageOutcome(db.durable, after.durable, account, m, r)
  {
    ProcessEffect(w, db, account, m);
    MessageBalanced(w, db, account, m, ES.Report(0, 0, 0, 0, 0));
    if m.id in db.durable.messages || FT.FromStrangers(db.durable, account, m) {
      FT.NothingRecorded(w, db, account, m);
    }
  }

  class EmailService {
    const store: Store

    constructor (store: Store)
      ensures this.store == store
    {
      this.store := store;
    }

    // ----- the timeline -----

    method MatchPeople(emails: seq<string>) returns (r: Outcome<set<Id>>)
      modifies store
      ensures Meets(r, store.State(), ES.MatchPeople(store.w, old(store.State()), emails, {}))
    {
      var matched: set<Id> := {};
      var i := 0;
      while i < |emails|
        invariant 0 <= i <= |emails|
        invariant ES.MatchPeople(store.w, old(store.State()), emails, {}) ==
                  ES.MatchPeople(store.w, store.State(), emails[i..], matched)
      {
        var found :- store.FindPersonByEmail(emails[i]);
        if found.Some? {
          matched := matched + {found.value};
        }
        i := i + 1;
      }
      return Success(matched);
    }

    method TouchAll(people: seq<Id>, at: int) returns (r: Outcome<()>)
      modifies store
      ensures Meets(r, store.State(), ES.TouchAll(store.w, old(store.State()), people, at))
    {
      var i := 0;
      while i < |people|
        invariant 0 <= i <= |people|
        invariant ES.TouchAll(store.w, old(store.State()), people, at) ==
                  ES.TouchAll(store.w, store.State(), people[i..], at)
      {
        var _ :- store.TouchPerson(people[i], at);
        i := i + 1;
      }
      return Success(());
    }

    method PointAndTouch(account: ES.Account, m: Message, activity: Id, people: set<Id>) returns (r: Outcome<()>)
      modifies store
      ensures Meets(r, store.State(), ES.PointAndTouch(store.w, old(store.State()), account, m, activity, people))
    {
      var body := ES.PrivateBody(m);
      if account.owner != "" && body != "" {
        var _ :- store.CreateActivityDetail(activity, body);
      }
      var _ :- store.SetEmailMessageActivity(m.id, activity);
      r := TouchAll(store.w.order(store.calls, people), m.sentAt);
    }

    /** All deals of the matched people, each of them once. */
    method CollectDeals(people: seq<Id>) returns (r: Outcome<map<Id, Deal>>)
      modifies store
      ensures Meets(r, store.State(), ES.CollectDeals(store.w, old(store.State()), people, map[]))
    {
      var seen: map<Id, Deal> := map[];
      var i := 0;
      while i < |people|
        invariant 0 <= i <= |people|
        invariant ES.CollectDeals(store.w, old(store.State()), people, map[]) ==
                  ES.CollectDeals(store.w, store.State(), people[i..], seen)
      {
        var deals :- store.Query(store.w.deals(people[i]));
        seen := AddDeals(seen, deals);
        i := i + 1;
      }
      return Success(seen);
    }

    method AddDeals(seen: map<Id, Deal>, deals: seq<Deal>) returns (out: map<Id, Deal>)
      ensures out == ES.AddDeals(seen, deals)
    {
      out := seen;
      var i := 0;
      while i < |deals|
        invariant 0 <= i <= |deals|
        invariant ES.AddDeals(seen, deals) == ES.AddDeals(out, deals[i..])
      {
        out := out[deals[i].id := deals[i]];
        i := i + 1;
      }
    }

    method PromptOnce(p: Prompt) returns (r: Outcome<nat>)
      modifies store
      ensures Meets(r, store.State(), ES.PromptOnce(store.w, old(store.State()), p))
    {
      var alreadyOpen :- store.AIPromptExists(p.kind, p.title);
      if alreadyOpen {
        return Success(0);
      }
      var _ :- store.CreateAIPrompt(p);
      return Success(1);
    }

    method SuggestDealLinks(m: Message, activity: Id, people: set<Id>) returns (r: Outcome<nat>)
      modifies store
      ensures Meets(r, store.State(), ES.SuggestDealLinks(store.w, old(store.State()), m, activity, people))
    {
      var seen :- CollectDeals(store.w.order(store.calls, people));
      var ids := store.w.order(store.calls, seen.Keys);
      r := PromptEach(ES.DealPrompts(m, activity, seen, ids));
    }

    /** The loop over the prompts for the deals, in whatever order the deals were walked. */
    method PromptEach(prompts: seq<Prompt>) returns (r: Outcome<nat>)
      modifies store
      ensures Meets(r, store.State(), ES.PromptEach(store.w, old(store.State()), prompts, 0))
    {
      var created := 0;
      ghost var spec := ES.PromptEach(store.w, store.State(), prompts, 0);
      var i := 0;
      while i < |prompts|
        invariant 0 <= i <= |prompts|
        invariant spec == ES.PromptEach(store.w, store.State(), prompts[i..], created)
      {
        PromptIteration(store.w, store.State(), prompts, i, created);
        var n :- PromptOnce(prompts[i]);
        created := created + n;
        i := i + 1;
      }
      return Success(created);
    }

    method LinkEmailToTimeline(account: ES.Account, m: Message) returns (r: Outcome<ES.Linked>)
      modifies store
      ensures Meets(r, store.State(), ES.LinkEmailToTimeline(store.w, old(store.State()), account, m))
    {
      var emails := RelevantEmails(account, m);
      var people :- MatchPeople(emails);
      if people == {} {
        return Success(ES.Linked(false, 0));
      }
      var activity :- store.CreateActivity(ES.Recorded(m), people);
      var _ :- PointAndTouch(account, m, activity, people);
      var suggestions :- SuggestDealLinks(m, activity, people);
      return Success(ES.Linked(true, suggestions));
    }

    // ----- suggestions -----

    method ContactFor(from: string, p: Prompt) returns (r: Outcome<ES.Suggested>)
      modifies store
      ensures Meets(r, store.State(), ES.ContactFor(store.w, old(store.State()), from, p))
    {
      var person :- store.FindPersonByEmail(from);
      if person.Some? {
        return Success(ES.Suggested(0, false));
      }
      var suppressed :- store.IsSuggestionSuppressed(NewContact, "email", from);
      if suppressed {
        return Success(ES.Suggested(0, true));
      }
      var n :- PromptOnce(p);
      return Success(ES.Suggested(n, false));
    }

    method CompanyFor(domainName: string, p: Prompt) returns (r: Outcome<nat>)
      modifies store
      ensures Meets(r, store.State(), ES.CompanyFor(store.w, old(store.State()), domainName, p))
    {
      if domainName == "" || ES.IsPersonalEmailDomain(domainName) {
        return Success(0);
      }
      var company :- store.FindCompanyByDomain(domainName);
      if company.Some? {
        return Success(0);
      }
      var suppressed :- store.IsSuggestionSuppressed(NewCompany, "domain", domainName);
      if suppressed {
        return Success(0);
      }
      r := PromptOnce(p);
    }

    method SuggestContact(from: string, m: Message) returns (r: Outcome<ES.Suggested>)
      modifies store
      ensures Meets(r, store.State(), ES.SuggestContact(store.w, old(store.State()), from, m))
    {
      r := ContactFor(from, ES.ContactPrompt(store.w, from, m));
    }

    method SuggestCompany(from: string, m: Message) returns (r: Outcome<nat>)
      modifies store
      ensures Meets(r, store.State(), ES.SuggestCompany(store.w, old(store.State()), from, m))
    {
      r := CompanyFor(ES.EmailDomain(from), ES.CompanyPrompt(from, ES.EmailDomain(from), m));
    }

    method SuggestSender(from: string, m: Message) returns (r: Outcome<nat>)
      modifies store
      ensures Meets(r, store.State(), ES.SuggestSender(store.w, old(store.State()), from, m))
    {
      var contact :- SuggestContact(from, m);
      if contact.stop {
        return Success(contact.created);
      }
      var n :- SuggestCompany(from, m);
      return Success(contact.created + n);
    }

    method SuggestEntities(account: ES.Account, m: Message) returns (r: Outcome<nat>)
      modifies store
      ensures Meets(r, store.State(), ES.SuggestEntities(store.w, old(store.State()), account, m))
    {
      var from := Normal(m.fromEmail);
      if from == "" || from == Lower(account.email) {
        return Success(0);
      }
      r := SuggestSender(from, m);
    }

    // ----- one message -----

    method ProcessNoTx(account: ES.Account, m: Message) returns (r: Outcome<ES.Outcome>)
      modifies store
      ensures Meets(r, store.State(), ES.ProcessNoTx(store.w, old(store.State()), account, m))
    {
      var created :- store.UpsertEmailMessage(m);
      if !created {
        return Success(ES.Outcome(false, false, 0));
      }
      var link :- LinkEmailToTimeline(account, m);
      var n :- SuggestEntities(account, m);
      return Success(ES.Outcome(true, link.linked, n + link.suggestions));
    }

    method Process(account: ES.Account, m: Message) returns (r: Outcome<ES.Outcome>)
      modifies store
      ensures Meets(r, store.State(), ES.Process(store.w, old(store.State()), account, m))
      ensures ValidWorld(store.w) && Sound(store.w, old(store.State())) ==>
                Sound(store.w, store.State()) && MessageOutcome(old(store.durable), store.durable, account, m, r)
    {
      r := InTransaction(account, m);
      if ValidWorld(store.w) && Sound(store.w, old(store.State())) {
        ProcessMeans(store.w, old(store.State()), account, m, r, store.State());
      }
    }

    method InTransaction(account: ES.Account, m: Message) returns (r: Outcome<ES.Outcome>)
      modifies store
      ensures Meets(r, store.State(), ES.Process(store.w, old(store.State()), account, m))
    {
      var _ :- store.Begin();
      ghost var spec := ES.ProcessNoTx(store.w, store.State(), account, m);
      var body := ProcessNoTx(account, m);
      r := store.Finish(body, spec);
    }

    // ----- a whole sync -----

    method SyncMessages(account: ES.Account, messages: seq<Message>, before: ES.Report) returns (report: ES.Report)
      modifies store
      ensures ES.Synced(store.State(), report) ==
              ES.SyncMessages(store.w, ES.Synced(old(store.State()), before), account, messages)
    {
      report := before;
      var i := 0;
      while i < |messages|
        invariant 0 <= i <= |messages|
        invariant ES.SyncMessages(store.w, ES.Synced(old(store.State()), before), account, messages) ==
                  ES.SyncMessages(store.w, ES.Synced(store.State(), report), account, messages[i..])
      {
        ghost var spec := ES.Process(store.w, store.State(), account, messages[i]);
        var r := Process(account, messages[i]);
        report := Count(r, report, spec);
        i := i + 1;
      }
    }

    method SyncFolder(
      mail: ES.Mail, account: ES.Account, cursors: map<(Id, string), int>, folder: string, before: ES.Report)
      returns (report: ES.Report)
      modifies store
      ensures ES.Synced(store.State(), report) ==
              ES.SyncFolder(store.w, mail, ES.Synced(old(store.State()), before), account, cursors, folder)
    {
      var fetched := mail.fetch(account, folder, ES.Since(cursors, account.id, folder));
      if fetched.None? {
        return before.(errors := before.errors + 1);
      }
      report := SyncMessages(account, fetched.value, before);
      var marked := store.MarkEmailFolderSynced(account.id, folder, mail.now(store.calls));
      if marked.Failure? {
        report := report.(errors := report.errors + 1);
      }
    }

    method SyncListed(mail: ES.Mail, account: ES.Account, folders: seq<string>, before: ES.Report)
      returns (report: ES.Report)
      modifies store
      ensures ES.Synced(store.State(), report) ==
              ES.SyncListed(store.w, mail, ES.Synced(old(store.State()), before), account, folders)
    {
      var read := store.Query(store.view.cursors);
      if read.Failure? {
        return before.(errors := before.errors + 1);
      }
      report := EachFolder(mail, account, read.value, folders, before);
      var marked := store.Query(());
      if marked.Failure? {
        report := report.(errors := report.errors + 1);
      }
    }

    method EachFolder(
      mail: ES.Mail, account: ES.Account, cursors: map<(Id, string), int>, folders: seq<string>, before: ES.Report)
      returns (report: ES.Report)
      modifies store
      ensures ES.Synced(store.State(), report) ==
              ES.SyncFolders(store.w, mail, ES.Synced(old(store.State()), before), account, cursors, folders)
    {
      report := before;
      var i := 0;
      while i < |folders|
        invariant 0 <= i <= |folders|
        invariant ES.SyncFolders(store.w, mail, ES.Synced(old(store.State()), before), account, cursors, folders) ==
                  ES.SyncFolders(store.w, mail, ES.Synced(store.State(), report), account, cursors, folders[i..])
      {
        report := SyncFolder(mail, account, cursors, folders[i], report);
        i := i + 1;
      }
    }

    method SyncAccount(mail: ES.Mail, account: ES.Account, before: ES.Report) returns (report: ES.Report)
      modifies store
      ensures ES.Synced(store.State(), report) ==
              ES.SyncAccount(store.w, mail, ES.Synced(old(store.State()), before), account)
    {
      if !mail.secret(account) {
        return before.(errors := before.errors + 1);
      }
      var listed := mail.folders(account);
      report := if listed.None? then before.(errors := before.errors + 1) else before;
      var folders := FoldersToFetch(listed);
      report := SyncListed(mail, account, folders, report);
    }
  }
}
