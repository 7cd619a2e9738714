/**
 What a sync fetches: every folder of every mailbox whose secret resolves, from the cursor that was
 stored before the mailbox; and how many errors it reports.
 */
module FetchedMail {
  import opened Wrappers
  import opened CrmTables
  import opened EmailSync
  import opened EmailSyncProofs
  import opened SyncAccounting
  import opened AcceptanceConditions
  import opened OrganizationSyncs
  import opened MailCursors
  import opened LostMail
  import Replay

  // ----- what is asked for -----

  /** The folders of a mailbox: those chosen from the listing, or the inbox when it cannot be listed. */
  function Chosen(mail: Mail, account: Account): seq<string> {
    match mail.folders(account)
    case Some(available) => SelectFolders(available)
    case None => ["INBOX"]
  }

  /** What the server answers for a folder, asked from its stored cursor on, or for everything. */
  function Answer(mail: Mail, account: Account, cursors: map<(Id, string), int>, folder: string): Option<seq<Message>> {
    mail.fetch(account, folder, if (account.id, folder) in cursors then cursors[(account.id, folder)] else 0)
  }

  function IdsOf(messages: seq<Message>): set<string> {
    set m | m in messages :: m.id
  }

  lemma IdsOfCons(messages: seq<Message>)
    requires messages != []
    ensures IdsOf(messages) == {messages[0].id} + IdsOf(messages[1..])
  {
    assert messages == [messages[0]] + messages[1..];
  }

  /** The ids of the messages that are answered for the folders. */
  function AnsweredIds(mail: Mail, account: Account, cursors: map<(Id, string), int>, folders: seq<string>): set<string> {
    if folders == [] then {}
    else
      var answer := Answer(mail, account, cursors, folders[0]);
      (if answer.Some? then IdsOf(answer.value) else {}) + AnsweredIds(mail, account, cursors, folders[1..])
  }

  /** How many of the folders the server does not answer for. */
  function Unanswered(mail: Mail, account: Account, cursors: map<(Id, string), int>, folders: seq<string>): nat {
    if folders == [] then 0
    else (if Answer(mail, account, cursors, folders[0]).None? then 1 else 0) + Unanswered(mail, account, cursors, folders[1..])
  }

  /** The folder's cursor was set, to a time of the sync. */
  ghost predicate Marked(mail: Mail, after: Db, key: (Id, string)) {
    key in after.durable.cursors && exists n: nat :: after.durable.cursors[key] == mail.now(n)
  }

  // ----- one folder, when no call fails -----

  /** A batch that goes well as a whole. */
  ghost predicate AllStored(w: World, s: Synced, after: Synced, ids: set<string>) {
    && Sound(w, after.db) && after.report.errors == s.report.errors
    && after.db.durable.messages.Keys == s.db.durable.messages.Keys + ids
  }

  lemma ProcessGoesWell(w: World, s: Synced, account: Account, m: Message)
    requires ValidWorld(w) && Quiet(w) && Sound(w, s.db)
    ensures var r := Process(w, s.db, account, m);
            AllStored(w, s, Synced(r.db, Counted(s.report, r)), {m.id})
  {
    Replay.ProcessAlike(w, s.db, s.db, account, m);
    ProcessStores(w, s.db, account, m);
    ProcessKeepsCursors(w, s.db, account, m);
  }

  lemma {:induction false} MessagesGoWell(w: World, s: Synced, account: Account, messages: seq<Message>)
    requires ValidWorld(w) && Quiet(w) && Sound(w, s.db)
    ensures AllStored(w, s, SyncMessages(w, s, account, messages), IdsOf(messages))
    decreases |messages|
  {
    if messages != [] {
      ProcessGoesWell(w, s, account, messages[0]);
      var r := Process(w, s.db, account, messages[0]);
      MessagesGoWell(w, Synced(r.db, Counted(s.report, r)), account, messages[1..]);
      IdsOfCons(messages);
    }
  }

  /** One folder: all that is answered is stored, and the cursor set; or nothing happens and it is one error. */
  ghost predicate FolderTaken(
    mail: Mail, before: Synced, after: Synced, account: Account, answer: Option<seq<Message>>, folder: string)
  {
    var t, u, key := before.db.durable, after.db.durable, (account.id, folder);
    match answer
    case None => u == t && after.report.errors == before.report.errors + 1
    case Some(messages) =>
      && u.messages.Keys == t.messages.Keys + IdsOf(messages)
      && Marked(mail, after.db, key) && u.cursors == t.cursors[key := u.cursors[key]]
      && after.report.errors == before.report.errors
  }

  lemma FolderSteps(
    w: World, mail: Mail, s: Synced, account: Account, cursors: map<(Id, string), int>, folder: string, messages: seq<Message>)
    requires Answer(mail, account, cursors, folder) == Some(messages)
    ensures var read := SyncMessages(w, s, account, messages);
            var marked := MarkEmailFolderSynced(w, read.db, account.id, folder, mail.now(read.db.calls));
            SyncFolder(w, mail, s, account, cursors, folder) == Synced(marked.db, ErrorIf(read.report, marked.Err?))
  {
  }

  lemma FolderNotAnswered(
    w: World, mail: Mail, s: Synced, account: Account, cursors: map<(Id, string), int>, folder: string)
    requires Answer(mail, account, cursors, folder) == None
    ensures SyncFolder(w, mail, s, account, cursors, folder) == Synced(s.db, ErrorIf(s.report, true))
  {
  }

  lemma MarkGoesWell(w: World, mail: Mail, before: Synced, read: Synced, account: Account, folder: string, messages: seq<Message>)
    requires Quiet(w) && AllStored(w, before, read, IdsOf(messages)) && read.db.durable.cursors == before.db.durable.cursors
    ensures var marked := MarkEmailFolderSynced(w, read.db, account.id, folder, mail.now(read.db.calls));
            var after := Synced(marked.db, ErrorIf(read.report, marked.Err?));
            Sound(w, after.db) && FolderTaken(mail, before, after, account, Some(messages), folder)
  {
    MarkBalanced(w, read.db, account.id, folder, mail.now(read.db.calls), read.report);
  }

  lemma FolderIsTaken(
    w: World, mail: Mail, s: Synced, account: Account, cursors: map<(Id, string), int>, folder: string)
    requires ValidWorld(w) && Quiet(w) && Sound(w, s.db)
    ensures var after := SyncFolder(w, mail, s, account, cursors, folder);
            Sound(w, after.db) && FolderTaken(mail, s, after, account, Answer(mail, account, cursors, folder), folder)
  {
    var answer := Answer(mail, account, cursors, folder);
    if answer.Some? {
      MessagesGoWell(w, s, account, answer.value);
      MessagesKeepCursors(w, s, account, answer.value);
      FolderSteps(w, mail, s, account, cursors, folder, answer.value);
      MarkGoesWell(w, mail, s, SyncMessages(w, s, account, answer.value), account, folder, answer.value);
    } else {
      FolderNotAnswered(w, mail, s, account, cursors, folder);
    }
  }

  // ----- the folders of a mailbox -----

  /**
   The folders of a mailbox: everything that is answered is stored, and nothing else; the cursor of
   every folder that is answered is set, and no other mailbox's; a folder that is not answered is one error.
   */
  ghost predicate FoldersTaken(
    mail: Mail, before: Synced, after: Synced, account: Account, cursors: map<(Id, string), int>, folders: seq<string>)
  {
    var t, u := before.db.durable, after.db.durable;
    && u.messages.Keys == t.messages.Keys + AnsweredIds(mail, account, cursors, folders)
    && (forall i :: 0 <= i < |folders| && Answer(mail, account, cursors, folders[i]).Some? ==>
          Marked(mail, after.db, (account.id, folders[i])))
    && (forall key :: key in u.cursors && (key !in t.cursors || u.cursors[key] != t.cursors[key]) ==>
          key.0 == account.id && key.1 in folders && Marked(mail, after.db, key))
    && t.cursors.Keys <= u.cursors.Keys
    && after.report.errors == before.report.errors + Unanswered(mail, account, cursors, folders)
  }

  lemma FoldersTakenCons(
    mail: Mail, before: Synced, first: Synced, after: Synced, account: Account, cursors: map<(Id, string), int>,
    folders: seq<string>)
    requires folders != []
    requires FolderTaken(mail, before, first, account, Answer(mail, account, cursors, folders[0]), folders[0])
    requires FoldersTaken(mail, first, after, account, cursors, folders[1..])
    ensures FoldersTaken(mail, before, after, account, cursors, folders)
  {
    forall i | 0 <= i < |folders| && Answer(mail, account, cursors, folders[i]).Some?
      ensures Marked(mail, after.db, (account.id, folders[i]))
    {
      if i == 0 {
        var key := (account.id, folders[0]);
        assert Marked(mail, first.db, key) && key in after.db.durable.cursors;
        assert after.db.durable.cursors[key] == first.db.durable.cursors[key] || Marked(mail, after.db, key);
      } else {
        assert folders[i] == folders[1..][i - 1];
      }
    }
  }

  lemma {:induction false} FoldersAreTaken(
    w: World, mail: Mail, s: Synced, account: Account, cursors: map<(Id, string), int>, folders: seq<string>)
    requires ValidWorld(w) && Quiet(w) && Sound(w, s.db)
    ensures var after := SyncFolders(w, mail, s, account, cursors, folders);
            Sound(w, after.db) && FoldersTaken(mail, s, after, account, cursors, folders)
    decreases |folders|
  {
    if folders != [] {
      var first := SyncFolder(w, mail, s, account, cursors, folders[0]);
      FolderIsTaken(w, mail, s, account, cursors, folders[0]);
      FoldersAreTaken(w, mail, first, account, cursors, folders[1..]);
      FoldersTakenCons(mail, s, first, SyncFolders(w, mail, first, account, cursors, folders[1..]), account, cursors, folders);
    }
  }

  // ----- a mailbox -----

  /** A mailbox whose secret does not resolve is one error; of every other all chosen folders are taken, from the cursors stored before. */
  ghost predicate MailboxTaken(mail: Mail, before: Synced, after: Synced, account: Account) {
    if !mail.secret(account) then
      after.db.durable == before.db.durable && after.report.errors == before.report.errors + 1
    else
      FoldersTaken(mail, Synced(before.db, ErrorIf(before.report, mail.folders(account).None?)), after, account,
                   before.db.durable.cursors, Chosen(mail, account))
  }

  lemma ListedIsTaken(w: World, mail: Mail, s: Synced, account: Account, folders: seq<string>)
    requires ValidWorld(w) && Quiet(w) && Sound(w, s.db)
    ensures var after := SyncListed(w, mail, s, account, folders);
            Sound(w, after.db) && FoldersTaken(mail, s, after, account, s.db.durable.cursors, folders)
  {
    var read := s.(db := s.db.(calls := s.db.calls + 1));
    FoldersAreTaken(w, mail, read, account, s.db.durable.cursors, folders);
  }

  lemma MailboxIsTaken(w: World, mail: Mail, s: Synced, account: Account)
    requires ValidWorld(w) && Quiet(w) && Sound(w, s.db)
    ensures var after := SyncAccount(w, mail, s, account);
            Sound(w, after.db) && MailboxTaken(mail, s, after, account)
  {
    if mail.secret(account) {
      ListedIsTaken(w, mail, s.(report := ErrorIf(s.report, mail.folders(account).None?)), account, Chosen(mail, account));
    }
  }

  /** Failing calls or not: without its secret or its cursors, a mailbox leaves the tables as they were. */
  lemma MailboxSkipped(w: World, mail: Mail, s: Synced, account: Account)
    requires Idle(s.db) && (!mail.secret(account) || w.fails(s.db.calls))
    ensures SyncAccount(w, mail, s, account).db.durable == s.db.durable
  {
  }

  // ----- all mailboxes -----

  /** The organization's tables as they are seen, with the report. */
  function View(s: SiteSynced, o: Id): Synced {
    Synced(Seen(s.site, o), s.report)
  }

  lemma SiteMailboxIsTaken(w: World, mail: Mail, s: SiteSynced, box: Mailbox)
    requires ValidWorld(w) && Quiet(w) && SiteSound(w, s.site)
    ensures var after := SyncMailbox(w, mail, s, box);
            && SiteSound(w, after.site)
            && MailboxTaken(mail, View(s, box.organization), View(after, box.organization), box.account)
            && (forall o :: o != box.organization ==> TablesOf(after.site.tables, o) == TablesOf(s.site.tables, o))
  {
    MailboxIsTaken(w, mail, View(s, box.organization), box.account);
    MailboxBalanced(w, mail, s, box);
  }

  /** What was stored stays stored, and cursors that were set stay set. */
  ghost predicate KeepsTaken(mail: Mail, before: Db, after: Db) {
    && before.durable.messages.Keys <= after.durable.messages.Keys
    && (forall key :: Marked(mail, before, key) ==> Marked(mail, after, key))
  }

  lemma MailboxKeepsTaken(mail: Mail, before: Synced, after: Synced, account: Account)
    requires MailboxTaken(mail, before, after, account)
    ensures KeepsTaken(mail, before.db, after.db)
  {
    forall key | Marked(mail, before.db, key)
      ensures Marked(mail, after.db, key)
    {
      assert mail.secret(account) && after.db.durable.cursors[key] != before.db.durable.cursors[key] ==> Marked(mail, after.db, key);
    }
  }

  lemma {:induction false} MailboxesKeepTaken(w: World, mail: Mail, s: SiteSynced, boxes: seq<Mailbox>, o: Id)
    requires ValidWorld(w) && Quiet(w) && SiteSound(w, s.site)
    ensures KeepsTaken(mail, Seen(s.site, o), Seen(SyncMailboxes(w, mail, s, boxes).site, o))
    decreases |boxes|
  {
    if boxes != [] {
      var next := SyncMailbox(w, mail, s, boxes[0]);
      SiteMailboxIsTaken(w, mail, s, boxes[0]);
      if boxes[0].organization == o {
        MailboxKeepsTaken(mail, View(s, o), View(next, o), boxes[0].account);
      }
      MailboxesKeepTaken(w, mail, next, boxes[1..], o);
    }
  }

  /** Everything that is answered for the mailbox's folders is stored in the end, and their cursors are set. */
  ghost predicate Fetched(mail: Mail, account: Account, cursors: map<(Id, string), int>, after: Db) {
    forall i :: 0 <= i < |Chosen(mail, account)| ==> FetchedFolder(mail, account, cursors, Chosen(mail, account)[i], after)
  }

  ghost predicate FetchedFolder(mail: Mail, account: Account, cursors: map<(Id, string), int>, folder: string, after: Db) {
    var answer := Answer(mail, account, cursors, folder);
    answer.Some? ==>
      && (forall k :: 0 <= k < |answer.value| ==> answer.value[k].id in after.durable.messages)
      && Marked(mail, after, (account.id, folder))
  }

  lemma {:induction false} AnsweredAreIn(
    mail: Mail, account: Account, cursors: map<(Id, string), int>, folders: seq<string>, i: nat, k: nat)
    requires i < |folders| && Answer(mail, account, cursors, folders[i]).Some?
    requires k < |Answer(mail, account, cursors, folders[i]).value|
    ensures Answer(mail, account, cursors, folders[i]).value[k].id in AnsweredIds(mail, account, cursors, folders)
  {
    if i > 0 {
      AnsweredAreIn(mail, account, cursors, folders[1..], i - 1, k);
    }
  }

  lemma TakenIsFetched(mail: Mail, before: Synced, taken: Synced, after: Db, account: Account)
    requires mail.secret(account) && MailboxTaken(mail, before, taken, account) && KeepsTaken(mail, taken.db, after)
    ensures Fetched(mail, account, before.db.durable.cursors, after)
  {
    var cursors, folders := before.db.durable.cursors, Chosen(mail, account);
    forall i | 0 <= i < |folders|
      ensures FetchedFolder(mail, account, cursors, folders[i], after)
    {
      var answer := Answer(mail, account, cursors, folders[i]);
      if answer.Some? {
        forall k | 0 <= k < |answer.value|
          ensures answer.value[k].id in after.durable.messages
        {
          AnsweredAreIn(mail, account, cursors, folders, i, k);
        }
        assert Marked(mail, taken.db, (account.id, folders[i]));
      }
    }
  }

  lemma {:induction false} MailboxOfMany(w: World, mail: Mail, s: SiteSynced, boxes: seq<Mailbox>, i: nat)
    requires ValidWorld(w) && Quiet(w) && SiteSound(w, s.site) && i < |boxes| && mail.secret(boxes[i].account)
    ensures Fetched(mail, boxes[i].account, CursorsOf(SyncMailboxes(w, mail, s, boxes[..i]).site, boxes[i].organization),
                    Seen(SyncMailboxes(w, mail, s, boxes).site, boxes[i].organization))
    decreases i
  {
    var next := SyncMailbox(w, mail, s, boxes[0]);
    SiteMailboxIsTaken(w, mail, s, boxes[0]);
    if i == 0 {
      var o := boxes[0].organization;
      MailboxesKeepTaken(w, mail, next, boxes[1..], o);
      TakenIsFetched(mail, View(s, o), View(next, o), Seen(SyncMailboxes(w, mail, next, boxes[1..]).site, o), boxes[0].account);
    } else {
      assert boxes[..i][1..] == boxes[1..][..i - 1];
      MailboxOfMany(w, mail, next, boxes[1..], i - 1);
    }
  }

  /**
   When no call fails: of every mailbox whose secret resolves, in every folder that the listing
   chooses, each message that the server answers to the cursor stored before the mailbox is in the
   organization's tables after the sync, and the folder's cursor is set.
   */
  lemma EveryMailboxIsFetched(w: World, mail: Mail, site: Site, boxes: seq<Mailbox>, i: nat)
    requires ValidWorld(w) && Quiet(w) && SiteSound(w, site) && i < |boxes| && mail.secret(boxes[i].account)
    ensures var o := boxes[i].organization;
            var before := SyncMailboxes(w, mail, Started(site, |boxes|), boxes[..i]).site;
            Fetched(mail, boxes[i].account, CursorsOf(before, o), Seen(SyncAccounts(w, mail, site, boxes).1, o))
  {
    StartedIsSound(w, site, boxes);
    MailboxOfMany(w, mail, Started(site, |boxes|), boxes, i);
  }

  // ----- cursors of one mailbox -----

  /** The cursors of this account are the same. */
  ghost predicate SameFor(account: Id, cursors: map<(Id, string), int>, other: map<(Id, string), int>) {
    forall key: (Id, string) :: key.0 == account ==>
      (key in cursors <==> key in other) && (key in cursors ==> cursors[key] == other[key])
  }

  lemma {:induction false} OthersLeaveCursors(w: World, mail: Mail, s: SiteSynced, boxes: seq<Mailbox>, o: Id, account: Id)
    requires ValidWorld(w) && Quiet(w) && SiteSound(w, s.site)
    requires forall k :: 0 <= k < |boxes| ==> boxes[k].organization != o || boxes[k].account.id != account
    ensures SameFor(account, CursorsOf(s.site, o), CursorsOf(SyncMailboxes(w, mail, s, boxes).site, o))
    decreases |boxes|
  {
    if boxes != [] {
      var next := SyncMailbox(w, mail, s, boxes[0]);
      SiteMailboxIsTaken(w, mail, s, boxes[0]);
      MailboxLeavesCursors(mail, View(s, boxes[0].organization), View(next, boxes[0].organization), boxes[0].account, account);
      assert forall k :: 0 <= k < |boxes[1..]| ==> boxes[1..][k] == boxes[k + 1];
      OthersLeaveCursors(w, mail, next, boxes[1..], o, account);
    }
  }

  lemma MailboxLeavesCursors(mail: Mail, before: Synced, after: Synced, account: Account, other: Id)
    requires MailboxTaken(mail, before, after, account)
    ensures other != account.id ==> SameFor(other, before.db.durable.cursors, after.db.durable.cursors)
  {
  }

  lemma SameAnswers(mail: Mail, account: Account, cursors: map<(Id, string), int>, other: map<(Id, string), int>, after: Db)
    requires SameFor(account.id, cursors, other) && Fetched(mail, account, other, after)
    ensures Fetched(mail, account, cursors, after)
  {
    forall i | 0 <= i < |Chosen(mail, account)|
      ensures FetchedFolder(mail, account, cursors, Chosen(mail, account)[i], after)
    {
      assert FetchedFolder(mail, account, other, Chosen(mail, account)[i], after);
      assert (account.id, Chosen(mail, account)[i]).0 == account.id;
    }
  }

  /** So for the mailboxes of a sync that are listed once: each is asked from the cursors stored before the sync. */
  lemma ListedOnceIsFetched(w: World, mail: Mail, site: Site, boxes: seq<Mailbox>, i: nat)
    requires ValidWorld(w) && Quiet(w) && SiteSound(w, site) && i < |boxes| && mail.secret(boxes[i].account)
    requires forall k :: 0 <= k < i ==>
               boxes[k].organization != boxes[i].organization || boxes[k].account.id != boxes[i].account.id
    ensures var o := boxes[i].organization;
            Fetched(mail, boxes[i].account, CursorsOf(site, o), Seen(SyncAccounts(w, mail, site, boxes).1, o))
  {
    var o := boxes[i].organization;
    StartedIsSound(w, site, boxes);
    EveryMailboxIsFetched(w, mail, site, boxes, i);
    OthersLeaveCursors(w, mail, Started(site, |boxes|), boxes[..i], o, boxes[i].account.id);
    SameAnswers(mail, boxes[i].account, CursorsOf(site, o),
                CursorsOf(SyncMailboxes(w, mail, Started(site, |boxes|), boxes[..i]).site, o),
                Seen(SyncAccounts(w, mail, site, boxes).1, o));
  }

  // ----- errors, whichever call fails -----

  function FailedMessages(w: World, s: Synced, account: Account, messages: seq<Message>): nat
    decreases |messages|
  {
    if messages == [] then 0
    else
      var r := Process(w, s.db, account, messages[0]);
      (if r.Err? then 1 else 0) + FailedMessages(w, Synced(r.db, Counted(s.report, r)), account, messages[1..])
  }

  /** A folder that is not answered is one error; else there is one for every failed message, and one for a failed mark. */
  function FolderErrors(
    w: World, mail: Mail, s: Synced, account: Account, cursors: map<(Id, string), int>, folder: string): nat
  {
    match Answer(mail, account, cursors, folder)
    case None => 1
    case Some(messages) =>
      FailedMessages(w, s, account, messages)
      + (if w.fails(AfterMessages(w, s, account, messages).calls) then 1 else 0)
  }

  /** The errors of the folders one after the other, and of marking the mailbox. */
  function FoldersErrors(
    w: World, mail: Mail, s: Synced, account: Account, cursors: map<(Id, string), int>, folders: seq<string>): nat
    decreases |folders|
  {
    if folders == [] then (if w.fails(s.db.calls) then 1 else 0)
    else
      FolderErrors(w, mail, s, account, cursors, folders[0])
      + FoldersErrors(w, mail, SyncFolder(w, mail, s, account, cursors, folders[0]), account, cursors, folders[1..])
  }

  /** An unresolved secret is one error; else there is one for a failed listing, one for unread cursors, or those of the folders. */
  function MailboxErrors(w: World, mail: Mail, s: Synced, account: Account): nat {
    if !mail.secret(account) then 1
    else
      var listed := ErrorIf(s.report, mail.folders(account).None?);
      (if mail.folders(account).None? then 1 else 0)
      + (if w.fails(s.db.calls) then 1
         else FoldersErrors(w, mail, Synced(s.db.(calls := s.db.calls + 1), listed), account, s.db.durable.cursors,
                            Chosen(mail, account)))
  }

  lemma {:induction false} MessagesErrors(w: World, s: Synced, account: Account, messages: seq<Message>)
    ensures SyncMessages(w, s, account, messages).report.errors == s.report.errors + FailedMessages(w, s, account, messages)
    decreases |messages|
  {
    if messages != [] {
      var r := Process(w, s.db, account, messages[0]);
      MessagesErrors(w, Synced(r.db, Counted(s.report, r)), account, messages[1..]);
    }
  }

  lemma FolderErrorsAre(
    w: World, mail: Mail, s: Synced, account: Account, cursors: map<(Id, string), int>, folder: string)
    requires ValidWorld(w) && Sound(w, s.db)
    ensures SyncFolder(w, mail, s, account, cursors, folder).report.errors ==
            s.report.errors + FolderErrors(w, mail, s, account, cursors, folder)
  {
    var answer := Answer(mail, account, cursors, folder);
    if answer.Some? {
      MessagesErrors(w, s, account, answer.value);
      MessagesKeepCursors(w, s, account, answer.value);
      FolderSteps(w, mail, s, account, cursors, folder, answer.value);
    } else {
      FolderNotAnswered(w, mail, s, account, cursors, folder);
    }
  }

  lemma {:induction false} FoldersErrorsAre(
    w: World, mail: Mail, s: Synced, account: Account, cursors: map<(Id, string), int>, folders: seq<string>)
    requires ValidWorld(w) && Sound(w, s.db)
    ensures var read := SyncFolders(w, mail, s, account, cursors, folders);
            var marked := Query(w, read.db, ());
            ErrorIf(read.report, marked.Err?).errors == s.report.errors + FoldersErrors(w, mail, s, account, cursors, folders)
    decreases |folders|
  {
    if folders != [] {
      FolderErrorsAre(w, mail, s, account, cursors, folders[0]);
      FolderBalanced(w, mail, s, account, cursors, folders[0]);
      FoldersErrorsAre(w, mail, SyncFolder(w, mail, s, account, cursors, folders[0]), account, cursors, folders[1..]);
    }
  }

  lemma ListedErrors(w: World, mail: Mail, s: Synced, account: Account, folders: seq<string>)
    requires ValidWorld(w) && Sound(w, s.db)
    ensures SyncListed(w, mail, s, account, folders).report.errors ==
            s.report.errors
            + if w.fails(s.db.calls) then 1
              else FoldersErrors(w, mail, s.(db := s.db.(calls := s.db.calls + 1)), account, s.db.durable.cursors, folders)
  {
    var read := s.(db := s.db.(calls := s.db.calls + 1));
    FoldersErrorsAre(w, mail, read, account, s.db.durable.cursors, folders);
  }

  lemma MailboxErrorsAre(w: World, mail: Mail, s: Synced, account: Account)
    requires ValidWorld(w) && Sound(w, s.db)
    ensures SyncAccount(w, mail, s, account).report.errors == s.report.errors + MailboxErrors(w, mail, s, account)
  {
    if mail.secret(account) {
      ListedErrors(w, mail, s.(report := ErrorIf(s.report, mail.folders(account).None?)), account, Chosen(mail, account));
    }
  }

  /** The errors of the mailboxes one after the other. */
  function AllErrors(w: World, mail: Mail, s: SiteSynced, boxes: seq<Mailbox>): nat
    decreases |boxes|
  {
    if boxes == [] then 0
    else
      MailboxErrors(w, mail, View(s, boxes[0].organization), boxes[0].account)
      + AllErrors(w, mail, SyncMailbox(w, mail, s, boxes[0]), boxes[1..])
  }

  lemma {:induction false} MailboxesErrors(w: World, mail: Mail, s: SiteSynced, boxes: seq<Mailbox>)
    requires ValidWorld(w) && SiteSound(w, s.site)
    ensures SyncMailboxes(w, mail, s, boxes).report.errors == s.report.errors + AllErrors(w, mail, s, boxes)
    decreases |boxes|
  {
    if boxes != [] {
      MailboxErrorsAre(w, mail, View(s, boxes[0].organization), boxes[0].account);
      MailboxBalanced(w, mail, s, boxes[0]);
      MailboxesErrors(w, mail, SyncMailbox(w, mail, s, boxes[0]), boxes[1..]);
    }
  }

  /**
   Whichever calls fail, a sync reports, if the mailboxes can be listed, one error for each secret that does not resolve, each listing
   and each reading of cursors that fails, each folder that is not answered, each message whose
   processing fails, and each marking of a folder or a mailbox that fails: no more and no less.
   */
  lemma ErrorsExactly(w: World, mail: Mail, site: Site, boxes: seq<Mailbox>)
    requires ValidWorld(w) && SiteSound(w, site)
    ensures var report := SyncAccounts(w, mail, site, boxes).0;
            && (report.Some? <==> !w.fails(site.calls))
            && (report.Some? ==> report.value.errors == AllErrors(w, mail, Started(site, |boxes|), boxes))
  {
    StartedIsSound(w, site, boxes);
    MailboxesErrors(w, mail, Started(site, |boxes|), boxes);
  }
}
