/**
 When a folder's cursor moves, and what that means for mail that failed: the cursor moves past it,
 and the mail server is asked for the day before the cursor and what came later.
 */
module MailCursors {
  import opened Wrappers
  import opened CrmTables
  import opened EmailSync
  import opened EmailSyncProofs
  import opened SyncAccounting
  import opened OrganizationSyncs

  lemma ProcessKeepsCursors(w: World, db: Db, account: Account, m: Message)
    requires ValidWorld(w) && Sound(w, db)
    ensures Process(w, db, account, m).db.durable.cursors == db.durable.cursors && Sound(w, Process(w, db, account, m).db)
  {
    ProcessEffect(w, db, account, m);
    MessageBalanced(w, db, account, m, Report(0, 0, 0, 0, 0));
  }

  lemma {:induction false} MessagesKeepCursors(w: World, s: Synced, account: Account, messages: seq<Message>)
    requires ValidWorld(w) && Sound(w, s.db)
    ensures var after := SyncMessages(w, s, account, messages);
            after.db.durable.cursors == s.db.durable.cursors && Sound(w, after.db)
    decreases |messages|
  {
    if messages != [] {
      ProcessKeepsCursors(w, s.db, account, messages[0]);
      var r := Process(w, s.db, account, messages[0]);
      MessagesKeepCursors(w, Synced(r.db, Counted(s.report, r)), account, messages[1..]);
    }
  }

  function AfterMessages(w: World, s: Synced, account: Account, messages: seq<Message>): Db {
    SyncMessages(w, s, account, messages).db
  }

  /**
   A folder's cursor moves exactly when its mail was fetched and the statement that marks it goes
   well, to the time of that statement, whatever became of the messages; no other cursor moves.
   */
  lemma CursorOfFolder(
    w: World, mail: Mail, s: Synced, account: Account, cursors: map<(Id, string), int>, folder: string)
    requires ValidWorld(w) && Sound(w, s.db)
    ensures var fetched := mail.fetch(account, folder, Since(cursors, account.id, folder));
            var before, after := s.db.durable.cursors, SyncFolder(w, mail, s, account, cursors, folder).db.durable.cursors;
            after == if fetched.Some? && !w.fails(AfterMessages(w, s, account, fetched.value).calls)
                     then before[(account.id, folder) := mail.now(AfterMessages(w, s, account, fetched.value).calls)]
                     else before
  {
    var fetched := mail.fetch(account, folder, Since(cursors, account.id, folder));
    if fetched.Some? {
      MessagesKeepCursors(w, s, account, fetched.value);
      var read := SyncMessages(w, s, account, fetched.value).db;
      MarkOnce(w, read, account.id, folder, mail.now(read.calls));
    }
  }

  lemma MarkOnce(w: World, db: Db, account: Id, folder: string, at: int)
    requires Idle(db)
    ensures MarkEmailFolderSynced(w, db, account, folder, at).db.durable.cursors ==
            if w.fails(db.calls) then db.durable.cursors else db.durable.cursors[(account, folder) := at]
  {
  }

  // ----- what is asked for -----

  const DAY := 24 * 60 * 60

  function DayOf(at: int): int {
    at / DAY
  }

  /** The server compares days: it is asked for mail from the day before the cursor on, and for all mail without one. */
  predicate AskedFor(cursors: map<(Id, string), int>, key: (Id, string), arrived: int) {
    key in cursors ==> DayOf(arrived) >= DayOf(cursors[key] - DAY)
  }

  /** The folder's cursor is not before `at`. */
  ghost predicate Ahead(w: World, db: Db, key: (Id, string), at: int) {
    Sound(w, db) && key in db.durable.cursors && db.durable.cursors[key] >= at
  }

  /** Marking a folder, this one or another, at a later time. */
  lemma MarkedAhead(before: map<(Id, string), int>, marked: (Id, string), now: int, key: (Id, string), at: int)
    requires key in before && before[key] >= at && now >= at
    ensures key in before[marked := now] && before[marked := now][key] >= at
  {
  }

  lemma FolderStaysAhead(
    w: World, mail: Mail, s: Synced, account: Account, cursors: map<(Id, string), int>, folder: string,
    key: (Id, string), at: int)
    requires ValidWorld(w) && Ahead(w, s.db, key, at) && forall n :: mail.now(n) >= at
    ensures Ahead(w, SyncFolder(w, mail, s, account, cursors, folder).db, key, at)
  {
    CursorOfFolder(w, mail, s, account, cursors, folder);
    FolderBalanced(w, mail, s, account, cursors, folder);
    var fetched := mail.fetch(account, folder, Since(cursors, account.id, folder));
    if fetched.Some? {
      var now := mail.now(AfterMessages(w, s, account, fetched.value).calls);
      MarkedAhead(s.db.durable.cursors, (account.id, folder), now, key, at);
    }
  }

  lemma {:induction false} FoldersStayAhead(
    w: World, mail: Mail, s: Synced, account: Account, cursors: map<(Id, string), int>, folders: seq<string>,
    key: (Id, string), at: int)
    requires ValidWorld(w) && Ahead(w, s.db, key, at) && forall n :: mail.now(n) >= at
    ensures Ahead(w, SyncFolders(w, mail, s, account, cursors, folders).db, key, at)
    decreases |folders|
  {
    if folders != [] {
      FolderStaysAhead(w, mail, s, account, cursors, folders[0], key, at);
      FoldersStayAhead(w, mail, SyncFolder(w, mail, s, account, cursors, folders[0]), account, cursors, folders[1..], key, at);
    }
  }

  lemma ListedStayAhead(w: World, mail: Mail, s: Synced, account: Account, folders: seq<string>, key: (Id, string), at: int)
    requires ValidWorld(w) && Ahead(w, s.db, key, at) && forall n :: mail.now(n) >= at
    ensures Ahead(w, SyncListed(w, mail, s, account, folders).db, key, at)
  {
    var q := Query(w, s.db, s.db.view.cursors);
    if q.Ok? {
      FoldersStayAhead(w, mail, s.(db := q.db), account, q.value, folders, key, at);
    }
  }

  lemma AccountStaysAhead(w: World, mail: Mail, s: Synced, account: Account, key: (Id, string), at: int)
    requires ValidWorld(w) && Ahead(w, s.db, key, at) && forall n :: mail.now(n) >= at
    ensures Ahead(w, SyncAccount(w, mail, s, account).db, key, at)
  {
    if mail.secret(account) {
      var listed := mail.folders(account);
      ListedStayAhead(w, mail, s.(report := ErrorIf(s.report, listed.None?)), account,
                      if listed.Some? then SelectFolders(listed.value) else ["INBOX"], key, at);
    }
  }

  /** In the tables of the organization. */
  ghost predicate AheadIn(w: World, site: Site, o: Id, key: (Id, string), at: int) {
    SiteSound(w, site) && Ahead(w, Seen(site, o), key, at)
  }

  lemma MailboxStaysAhead(w: World, mail: Mail, s: SiteSynced, box: Mailbox, o: Id, key: (Id, string), at: int)
    requires ValidWorld(w) && AheadIn(w, s.site, o, key, at) && forall n :: mail.now(n) >= at
    ensures AheadIn(w, SyncMailbox(w, mail, s, box).site, o, key, at)
  {
    MailboxBalanced(w, mail, s, box);
    if box.organization == o {
      AccountStaysAhead(w, mail, Synced(Seen(s.site, o), s.report), box.account, key, at);
    }
  }

  lemma {:induction false} MailboxesStayAhead(
    w: World, mail: Mail, s: SiteSynced, boxes: seq<Mailbox>, o: Id, key: (Id, string), at: int)
    requires ValidWorld(w) && AheadIn(w, s.site, o, key, at) && forall n :: mail.now(n) >= at
    ensures AheadIn(w, SyncMailboxes(w, mail, s, boxes).site, o, key, at)
    decreases |boxes|
  {
    if boxes != [] {
      MailboxStaysAhead(w, mail, s, boxes[0], o, key, at);
      MailboxesStayAhead(w, mail, SyncMailbox(w, mail, s, boxes[0]), boxes[1..], o, key, at);
    }
  }

  /** One later sync: what the outside answers, and the mailboxes it goes through. */
  datatype Round = Round(mail: Mail, boxes: seq<Mailbox>)

  function NextSync(w: World, site: Site, r: Round): Site {
    SyncAccounts(w, r.mail, site, r.boxes).1
  }

  lemma RoundStaysAhead(w: World, site: Site, r: Round, o: Id, key: (Id, string), at: int)
    requires ValidWorld(w) && AheadIn(w, site, o, key, at) && forall n :: r.mail.now(n) >= at
    ensures AheadIn(w, NextSync(w, site, r), o, key, at)
  {
    if !w.fails(site.calls) {
      StartedIsSound(w, site, r.boxes);
      MailboxesStayAhead(w, r.mail, Started(site, |r.boxes|), r.boxes, o, key, at);
    }
  }

  function CursorsOf(site: Site, o: Id): map<(Id, string), int> {
    TablesOf(site.tables, o).cursors
  }

  /** None of the syncs finds a cursor that lets the folder's mail of that time in. */
  ghost predicate NeverAskedFor(w: World, site: Site, rounds: seq<Round>, o: Id, key: (Id, string), arrived: int)
    decreases |rounds|
  {
    !AskedFor(CursorsOf(site, o), key, arrived)
    && (rounds != [] ==> NeverAskedFor(w, NextSync(w, site, rounds[0]), rounds[1..], o, key, arrived))
  }

  /** The clock does not run backwards. */
  ghost predicate NotBefore(rounds: seq<Round>, at: int) {
    forall i, n :: 0 <= i < |rounds| ==> rounds[i].mail.now(n) >= at
  }

  lemma {:induction false} NeverAskedAgain(
    w: World, site: Site, rounds: seq<Round>, o: Id, key: (Id, string), at: int, arrived: int)
    requires ValidWorld(w) && AheadIn(w, site, o, key, at) && DayOf(arrived) < DayOf(at - DAY) && NotBefore(rounds, at)
    ensures NeverAskedFor(w, site, rounds, o, key, arrived)
    decreases |rounds|
  {
    LaterDay(at, CursorsOf(site, o)[key]);
    if rounds != [] {
      RoundStaysAhead(w, site, rounds[0], o, key, at);
      NeverAskedAgain(w, NextSync(w, site, rounds[0]), rounds[1..], o, key, at, arrived);
    }
  }

  lemma LaterDay(a: int, b: int)
    requires a <= b
    ensures DayOf(a - DAY) <= DayOf(b - DAY) && DayOf(a - DAY) == DayOf(a) - 1
  {
  }

  /** The folder's mail was fetched, and its cursor moved to `at`, whatever became of the messages. */
  predicate Moves(
    w: World, mail: Mail, s: Synced, account: Account, cursors: map<(Id, string), int>, folder: string, at: int)
  {
    var fetched := mail.fetch(account, folder, Since(cursors, account.id, folder));
    && fetched.Some? && !w.fails(AfterMessages(w, s, account, fetched.value).calls)
    && at == mail.now(AfterMessages(w, s, account, fetched.value).calls)
  }

  lemma MovedAhead(
    w: World, mail: Mail, s: Synced, account: Account, cursors: map<(Id, string), int>, folder: string, at: int)
    requires ValidWorld(w) && Sound(w, s.db) && Moves(w, mail, s, account, cursors, folder, at)
    ensures var db := SyncFolder(w, mail, s, account, cursors, folder).db;
            Ahead(w, db, (account.id, folder), at) && db.durable.cursors[(account.id, folder)] == at
  {
    CursorOfFolder(w, mail, s, account, cursors, folder);
    FolderBalanced(w, mail, s, account, cursors, folder);
  }

  /** The site after this folder. */
  function FolderSynced(
    w: World, mail: Mail, site: Site, o: Id, s: Synced, account: Account, cursors: map<(Id, string), int>, folder: string): Site
  {
    With(site, o, SyncFolder(w, mail, s, account, cursors, folder).db)
  }

  lemma SyncedAhead(
    w: World, mail: Mail, site: Site, o: Id, s: Synced, account: Account, cursors: map<(Id, string), int>, folder: string,
    at: int)
    requires ValidWorld(w) && SiteSound(w, site) && s.db == Seen(site, o)
    requires Moves(w, mail, s, account, cursors, folder, at)
    ensures var after := FolderSynced(w, mail, site, o, s, account, cursors, folder);
            AheadIn(w, after, o, (account.id, folder), at) && CursorsOf(after, o)[(account.id, folder)] == at
  {
    MovedAhead(w, mail, s, account, cursors, folder, at);
    FolderBalanced(w, mail, s, account, cursors, folder);
    WithIsSound(w, site, o, SyncFolder(w, mail, s, account, cursors, folder).db);
  }

  /** The next sync asks for the mail if and only if it arrived on the day before the cursor or later; else no sync does. */
  ghost predicate AskedAgainIff(
    w: World, site: Site, rounds: seq<Round>, o: Id, key: (Id, string), at: int, arrived: int)
  {
    && (AskedFor(CursorsOf(site, o), key, arrived) <==> DayOf(arrived) >= DayOf(at) - 1)
    && (AskedFor(CursorsOf(site, o), key, arrived) || NeverAskedFor(w, site, rounds, o, key, arrived))
  }

  lemma AskedFromCursor(w: World, site: Site, rounds: seq<Round>, o: Id, key: (Id, string), at: int, arrived: int)
    requires ValidWorld(w) && AheadIn(w, site, o, key, at) && CursorsOf(site, o)[key] == at && NotBefore(rounds, at)
    ensures AskedAgainIff(w, site, rounds, o, key, at, arrived)
  {
    LaterDay(at, at);
    if DayOf(arrived) < DayOf(at - DAY) {
      NeverAskedAgain(w, site, rounds, o, key, at, arrived);
    }
  }

  /**
   Mail of a folder whose cursor was moved to `at`, stored or not: the next sync asks for it if and
   only if it arrived no earlier than the day before, and mail that the next sync does not ask for
   is never asked for again, as long as the clock does not run backwards.
   */
  lemma MarkedMailAskedAgainIff(
    w: World, mail: Mail, site: Site, o: Id, s: Synced, account: Account, cursors: map<(Id, string), int>, folder: string,
    at: int, arrived: int, rounds: seq<Round>)
    requires ValidWorld(w) && SiteSound(w, site) && s.db == Seen(site, o)
    requires Moves(w, mail, s, account, cursors, folder, at) && NotBefore(rounds, at)
    ensures AskedAgainIff(w, FolderSynced(w, mail, site, o, s, account, cursors, folder), rounds, o, (account.id, folder),
                          at, arrived)
  {
    SyncedAhead(w, mail, site, o, s, account, cursors, folder, at);
    AskedFromCursor(w, FolderSynced(w, mail, site, o, s, account, cursors, folder), rounds, o, (account.id, folder), at, arrived);
  }
}
