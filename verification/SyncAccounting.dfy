/**
 Whole syncs: all accounts, folders and messages, any store call failing at any
 point. The report is compared with the tables.
 */
module SyncAccounting {
  import opened Wrappers
  import opened CrmTables
  import opened EmailSync
  import opened EmailSyncProofs

  /** The stored messages that point at an activity. */
  function LinkedMessages(t: Tables): set<string> {
    set m | m in t.messages && t.messages[m].activity.Some?
  }

  function Pointed(t: Tables): set<Id> {
    set m | m in LinkedMessages(t) :: t.messages[m].activity.value
  }

  /** Activities no stored message points at. */
  function Orphans(t: Tables): set<Id> {
    t.activities.Keys - Pointed(t)
  }

  /** An image under a map that is injective on the set has as many elements. */
  lemma {:induction false} InjectiveImage(t: Tables, ms: set<string>, image: set<Id>)
    requires Consistent(t) && ms <= LinkedMessages(t)
    requires image == set m | m in ms :: t.messages[m].activity.value
    ensures |image| == |ms|
    decreases |ms|
  {
    if ms != {} {
      var m :| m in ms;
      var a := t.messages[m].activity.value;
      var rest := set n | n in ms - {m} :: t.messages[n].activity.value;
      assert image == rest + {a};
      assert a !in rest by {
        if n :| n in ms - {m} && t.messages[n].activity.value == a {
          assert SharePointer(t, m, n);
        }
      }
      InjectiveImage(t, ms - {m}, rest);
    } else {
      assert image == {};
    }
  }

  /** Activities are pointed at by one message each, or by none. */
  lemma ActivitiesSplit(t: Tables)
    requires Consistent(t)
    ensures |t.activities| == |LinkedMessages(t)| + |Orphans(t)|
  {
    InjectiveImage(t, LinkedMessages(t), Pointed(t));
    assert Pointed(t) <= t.activities.Keys;
    assert t.activities.Keys == Pointed(t) + Orphans(t);
    assert |t.activities| == |t.activities.Keys|;
  }

  /** The change of the report is the change of the tables. */
  ghost predicate Balanced(t: Tables, after: Tables, report: Report, report': Report) {
    && report'.newMessages - report.newMessages == |after.messages| - |t.messages|
    && report'.suggestions - report.suggestions == |after.prompts| - |t.prompts|
    && report'.linkedMessages - report.linkedMessages == |LinkedMessages(after)| - |LinkedMessages(t)|
    && 0 <= |Orphans(after)| - |Orphans(t)| <= report'.errors - report.errors
    && report'.accounts == report.accounts
  }

  /** A linked message adds one pointer and the activity it leads to; an unlinked one adds neither. */
  lemma IngestedCounts(t: Tables, after: Tables, m: Message, linked: bool, id: Id, people: set<Id>)
    requires Consistent(t) && IngestedRows(t, after, m, linked, id, people)
    requires id !in t.activities
    ensures Consistent(after)
    ensures |after.messages| == |t.messages| + 1
    ensures |LinkedMessages(after)| == |LinkedMessages(t)| + (if linked then 1 else 0)
    ensures Orphans(after) == Orphans(t)
  {
    IngestedLinked(t, after, m, linked, id, people);
    IngestedPointed(t, after, m, linked, id, people);
    IngestedConsistent(t, after, m, linked, id, people);
    IngestedOrphans(t, after, m, linked, id, people);
  }

  lemma IngestedOrphans(t: Tables, after: Tables, m: Message, linked: bool, id: Id, people: set<Id>)
    requires Consistent(t) && IngestedRows(t, after, m, linked, id, people)
    requires id !in t.activities
    requires Pointed(after) == Pointed(t) + (if linked then {id} else {})
    ensures Orphans(after) == Orphans(t)
  {
    if linked {
      assert id !in Pointed(t);
      assert after.activities.Keys == t.activities.Keys + {id};
    }
  }

  lemma IngestedLinked(t: Tables, after: Tables, m: Message, linked: bool, id: Id, people: set<Id>)
    requires IngestedRows(t, after, m, linked, id, people)
    ensures LinkedMessages(after) == LinkedMessages(t) + (if linked then {m.id} else {})
    ensures forall n :: n in t.messages ==> after.messages[n] == t.messages[n]
  {
  }

  lemma IngestedPointed(t: Tables, after: Tables, m: Message, linked: bool, id: Id, people: set<Id>)
    requires IngestedRows(t, after, m, linked, id, people)
    ensures Pointed(after) == Pointed(t) + (if linked then {id} else {})
  {
    IngestedLinked(t, after, m, linked, id, people);
    forall a | a in Pointed(t)
      ensures a in Pointed(after)
    {
      var n :| n in LinkedMessages(t) && t.messages[n].activity.value == a;
      assert n in LinkedMessages(after) && after.messages[n] == t.messages[n];
    }
    if linked {
      assert m.id in LinkedMessages(after) && after.messages[m.id].activity.value == id;
    }
  }

  lemma IngestedConsistent(t: Tables, after: Tables, m: Message, linked: bool, id: Id, people: set<Id>)
    requires Consistent(t) && IngestedRows(t, after, m, linked, id, people)
    requires id !in t.activities
    ensures Consistent(after)
  {
    forall x, y | x in after.messages && y in after.messages && SharePointer(after, x, y)
      ensures x == y
    {
      if x != m.id && y != m.id {
        assert SharePointer(t, x, y);
      }
    }
  }

  lemma LeftoverCounts(t: Tables, id: Id, a: Activity, people: set<Id>)
    requires Consistent(t) && id !in t.activities
    ensures var after := WithNewActivity(t, id, a, people);
            && Consistent(after) && LinkedMessages(after) == LinkedMessages(t)
            && Orphans(after) == Orphans(t) + {id} && id !in Orphans(t)
  {
    var after := WithNewActivity(t, id, a, people);
    assert LinkedMessages(after) == LinkedMessages(t) && Pointed(after) == Pointed(t);
    assert id !in Pointed(t);
    forall x, y | x in after.messages && y in after.messages && SharePointer(after, x, y)
      ensures x == y
    {
      assert SharePointer(t, x, y);
    }
  }

  ghost predicate Sound(w: World, db: Db) {
    Idle(db) && FreshIds(w, db.durable, db.next) && Consistent(db.durable)
  }

  lemma MessageBalanced(w: World, db: Db, account: Account, m: Message, report: Report)
    requires ValidWorld(w) && Sound(w, db)
    ensures var r := Process(w, db, account, m);
            Sound(w, r.db) && db.next <= r.db.next && Balanced(db.durable, r.db.durable, report, Counted(report, r))
  {
    ProcessEffect(w, db, account, m);
    var r := Process(w, db, account, m);
    var id, people := w.uuid(db.next), RecordedFor(w, db, account, m);
    if r.Err? {
      if RecordsActivity(w, db, account, m) {
        LeftoverCounts(db.durable, id, Recorded(m), people);
      }
    } else if r.value.created {
      IngestedCounts(db.durable, r.db.durable, m, r.value.linked, id, people);
    }
  }

  lemma {:induction false} MessagesBalanced(w: World, s: Synced, account: Account, messages: seq<Message>)
    requires ValidWorld(w) && Sound(w, s.db)
    ensures var s' := SyncMessages(w, s, account, messages);
            Sound(w, s'.db) && s.db.next <= s'.db.next && Balanced(s.db.durable, s'.db.durable, s.report, s'.report)
    decreases |messages|
  {
    if messages != [] {
      MessageBalanced(w, s.db, account, messages[0], s.report);
      var r := Process(w, s.db, account, messages[0]);
      MessagesBalanced(w, Synced(r.db, Counted(s.report, r)), account, messages[1..]);
    }
  }

  /** Marking a folder touches no counted table. */
  lemma MarkBalanced(w: World, db: Db, account: Id, folder: string, at: int, report: Report)
    requires Sound(w, db)
    ensures var r := MarkEmailFolderSynced(w, db, account, folder, at);
            Sound(w, r.db) && db.next <= r.db.next && Balanced(db.durable, r.db.durable, report, ErrorIf(report, r.Err?))
  {
    var r := MarkEmailFolderSynced(w, db, account, folder, at);
    if r.Ok? {
      SamePointers(db.durable, r.db.durable);
    }
  }

  lemma SamePointers(t: Tables, u: Tables)
    requires t.messages == u.messages && t.activities == u.activities
    ensures LinkedMessages(t) == LinkedMessages(u) && Orphans(t) == Orphans(u)
    ensures Consistent(t) ==> Consistent(u)
  {
    if Consistent(t) {
      forall x, y | x in u.messages && y in u.messages && SharePointer(u, x, y)
        ensures x == y
      {
        assert SharePointer(t, x, y);
      }
    }
  }

  lemma FolderBalanced(
    w: World, mail: Mail, s: Synced, account: Account, cursors: map<(Id, string), int>, folder: string)
    requires ValidWorld(w) && Sound(w, s.db)
    ensures var s' := SyncFolder(w, mail, s, account, cursors, folder);
            Sound(w, s'.db) && s.db.next <= s'.db.next && Balanced(s.db.durable, s'.db.durable, s.report, s'.report)
  {
    var fetched := mail.fetch(account, folder, Since(cursors, account.id, folder));
    if fetched.Some? {
      MessagesBalanced(w, s, account, fetched.value);
      var s1 := SyncMessages(w, s, account, fetched.value);
      MarkBalanced(w, s1.db, account.id, folder, mail.now(s1.db.calls), s1.report);
    }
  }

  lemma {:induction false} FoldersBalanced(
    w: World, mail: Mail, s: Synced, account: Account, cursors: map<(Id, string), int>, folders: seq<string>)
    requires ValidWorld(w) && Sound(w, s.db)
    ensures var s' := SyncFolders(w, mail, s, account, cursors, folders);
            Sound(w, s'.db) && s.db.next <= s'.db.next && Balanced(s.db.durable, s'.db.durable, s.report, s'.report)
    decreases |folders|
  {
    if folders != [] {
      FolderBalanced(w, mail, s, account, cursors, folders[0]);
      FoldersBalanced(w, mail, SyncFolder(w, mail, s, account, cursors, folders[0]), account, cursors, folders[1..]);
    }
  }

  lemma ListedBalanced(w: World, mail: Mail, s: Synced, account: Account, folders: seq<string>)
    requires ValidWorld(w) && Sound(w, s.db)
    ensures var s' := SyncListed(w, mail, s, account, folders);
            Sound(w, s'.db) && s.db.next <= s'.db.next && Balanced(s.db.durable, s'.db.durable, s.report, s'.report)
  {
    var q := Query(w, s.db, s.db.view.cursors);
    if q.Ok? {
      FoldersBalanced(w, mail, s.(db := q.db), account, q.value, folders);
    }
  }

  lemma AccountBalanced(w: World, mail: Mail, s: Synced, account: Account)
    requires ValidWorld(w) && Sound(w, s.db)
    ensures var s' := SyncAccount(w, mail, s, account);
            Sound(w, s'.db) && s.db.next <= s'.db.next && Balanced(s.db.durable, s'.db.durable, s.report, s'.report)
  {
    if mail.secret(account) {
      var listed := mail.folders(account);
      ListedBalanced(w, mail, s.(report := ErrorIf(s.report, listed.None?)), account,
                     if listed.Some? then SelectFolders(listed.value) else ["INBOX"]);
    }
  }
}
