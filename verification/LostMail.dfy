/**
 Mail that is lost: its processing failed, and no later sync asks for it.
 */
module LostMail {
  import opened Wrappers
  import opened CrmTables
  import opened EmailSync
  import opened EmailSyncProofs
  import opened SyncAccounting
  import opened OrganizationSyncs
  import opened MailCursors
  import opened ConcreteWorlds

  /** Processing fails for every message of the batch with this id. */
  predicate AllFail(w: World, s: Synced, account: Account, messages: seq<Message>, id: string)
    decreases |messages|
  {
    messages == []
    || var r := Process(w, s.db, account, messages[0]);
       && (messages[0].id == id ==> r.Err?)
       && AllFail(w, Synced(r.db, Counted(s.report, r)), account, messages[1..], id)
  }

  lemma ProcessStores(w: World, db: Db, account: Account, m: Message)
    requires ValidWorld(w) && Sound(w, db)
    ensures var r := Process(w, db, account, m);
            r.db.durable.messages.Keys == db.durable.messages.Keys + (if r.Ok? then {m.id} else {})
  {
    ProcessEffect(w, db, account, m);
  }

  /** After a batch an id is stored if and only if it was before, or processing succeeded for a message with it. */
  lemma {:induction false} StoredIff(w: World, s: Synced, account: Account, messages: seq<Message>, id: string)
    requires ValidWorld(w) && Sound(w, s.db)
    ensures id !in SyncMessages(w, s, account, messages).db.durable.messages <==>
            id !in s.db.durable.messages && AllFail(w, s, account, messages, id)
    decreases |messages|
  {
    if messages != [] {
      ProcessStores(w, s.db, account, messages[0]);
      ProcessKeepsCursors(w, s.db, account, messages[0]);
      var r := Process(w, s.db, account, messages[0]);
      StoredIff(w, Synced(r.db, Counted(s.report, r)), account, messages[1..], id);
    }
  }

  lemma FolderStores(
    w: World, mail: Mail, s: Synced, account: Account, cursors: map<(Id, string), int>, folder: string, messages: seq<Message>)
    requires ValidWorld(w) && Sound(w, s.db)
    requires mail.fetch(account, folder, Since(cursors, account.id, folder)) == Some(messages)
    ensures SyncFolder(w, mail, s, account, cursors, folder).db.durable.messages ==
            SyncMessages(w, s, account, messages).db.durable.messages
  {
    MessagesKeepCursors(w, s, account, messages);
  }

  /** The organization does not have the mail, and no sync to come asks its folder for it. */
  ghost predicate Lost(w: World, site: Site, rounds: seq<Round>, o: Id, key: (Id, string), id: string, arrived: int) {
    id !in TablesOf(site.tables, o).messages && NeverAskedFor(w, site, rounds, o, key, arrived)
  }

  /**
   A message of a folder that was fetched, and whose cursor moved to `at`, is lost if and only if
   its processing failed and it arrived earlier than the day before: otherwise it is stored, or the
   next sync asks for it again.
   */
  lemma MailIsLostIff(
    w: World, mail: Mail, site: Site, o: Id, s: Synced, account: Account, cursors: map<(Id, string), int>, folder: string,
    messages: seq<Message>, id: string, at: int, arrived: int, rounds: seq<Round>)
    requires ValidWorld(w) && SiteSound(w, site) && s.db == Seen(site, o)
    requires Moves(w, mail, s, account, cursors, folder, at) && NotBefore(rounds, at)
    requires mail.fetch(account, folder, Since(cursors, account.id, folder)) == Some(messages)
    ensures Lost(w, FolderSynced(w, mail, site, o, s, account, cursors, folder), rounds, o, (account.id, folder), id, arrived)
            <==>
            && id !in s.db.durable.messages && AllFail(w, s, account, messages, id)
            && DayOf(arrived) < DayOf(at) - 1
  {
    MarkedMailAskedAgainIff(w, mail, site, o, s, account, cursors, folder, at, arrived, rounds);
    FolderStores(w, mail, s, account, cursors, folder, messages);
    StoredIff(w, s, account, messages, id);
  }

  // ----- an input -----

  const MAILBOX := Account("box", "me@b.co", "owner")
  const MAIL := Message("m1", "inbound", "a@b.co", "", [], "", "", DAY)

  /** One waiting mail, whenever the mailbox is asked. */
  function OneMail(): Mail {
    Mail(_ => true, _ => None, (_: Account, _: string, _: int) => Some([MAIL]), _ => 3 * DAY)
  }

  /** The first store call fails, and no other. */
  ghost function FirstFails(): World {
    PlainWorld(n => n == 0)
  }

  /**
   Processing the folder's only mail fails, its cursor moves to `at`, the mail arrived two days
   before, and however the syncs go on it is lost.
   */
  ghost predicate Loses(
    w: World, mail: Mail, site: Site, o: Id, s: Synced, account: Account, folder: string, m: Message, at: int)
  {
    var cursors := s.db.durable.cursors;
    var after := FolderSynced(w, mail, site, o, s, account, cursors, folder);
    && ValidWorld(w) && SiteSound(w, site) && s.db == Seen(site, o) && account.owner != ""
    && mail.fetch(account, folder, Since(cursors, account.id, folder)) == Some([m])
    && Process(w, s.db, account, m).Err?
    && AheadIn(w, after, o, (account.id, folder), at) && m.sentAt == at - 2 * DAY
    && forall rounds :: NotBefore(rounds, at) ==> Lost(w, after, rounds, o, (account.id, folder), m.id, m.sentAt)
  }

  lemma TwoDaysBefore(at: int)
    ensures DayOf(at - 2 * DAY) < DayOf(at) - 1
  {
  }

  /** Without a transaction nothing happens to the message. */
  lemma NotBegun(w: World, s: Synced, account: Account, m: Message)
    requires w.fails(s.db.calls)
    ensures Process(w, s.db, account, m) == Err(s.db.(calls := s.db.calls + 1))
    ensures SyncMessages(w, s, account, [m]).db == s.db.(calls := s.db.calls + 1) && AllFail(w, s, account, [m], m.id)
  {
    assert Process(w, s.db, account, m) == Err(s.db.(calls := s.db.calls + 1));
    assert [m][1..] == [];
  }

  lemma FirstCallLost(w: World, mail: Mail, site: Site, o: Id, s: Synced, account: Account, folder: string, m: Message, at: int)
    requires ValidWorld(w) && SiteSound(w, site) && s.db == Seen(site, o) && w.fails(s.db.calls) && !w.fails(s.db.calls + 1)
    requires mail.fetch(account, folder, Since(s.db.durable.cursors, account.id, folder)) == Some([m])
    requires mail.now(s.db.calls + 1) == at && m.id !in s.db.durable.messages
    requires account.owner != "" && m.sentAt == at - 2 * DAY
    ensures Loses(w, mail, site, o, s, account, folder, m, at)
  {
    var cursors := s.db.durable.cursors;
    var after := FolderSynced(w, mail, site, o, s, account, cursors, folder);
    NotBegun(w, s, account, m);
    SyncedAhead(w, mail, site, o, s, account, cursors, folder, at);
    TwoDaysBefore(at);
    forall rounds | NotBefore(rounds, at)
      ensures Lost(w, after, rounds, o, (account.id, folder), m.id, m.sentAt)
    {
      MailIsLostIff(w, mail, site, o, s, account, cursors, folder, [m], m.id, at, m.sentAt, rounds);
    }
  }

  const EMPTY_SITE := Site(map[], 0, 0)

  lemma NothingStored(w: World, site: Site)
    requires w == FirstFails() && site == EMPTY_SITE
    ensures ValidWorld(w) && SiteSound(w, site) && w.fails(0) && !w.fails(1)
  {
    PlainWorldIsValid(n => n == 0);
    NamedAreFresh(n => n == 0, NoTables(), {});
  }

  /** A mail that had been waiting for two days, and one failing store call. */
  lemma LostMailExists()
    ensures exists w, mail, site, o, s, account, folder, m, at :: Loses(w, mail, site, o, s, account, folder, m, at)
  {
    var s := Synced(Seen(EMPTY_SITE, "org"), Report(1, 0, 0, 0, 0));
    NothingStored(FirstFails(), EMPTY_SITE);
    FirstCallLost(FirstFails(), OneMail(), EMPTY_SITE, "org", s, MAILBOX, "INBOX", MAIL, 3 * DAY);
  }
}
