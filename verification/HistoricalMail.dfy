/**
 Linking the stored mail of an address to a person: what a successful run leaves,
 and what stays behind when it fails.
 */
module HistoricalMail {
  import opened Wrappers
  import opened Text
  import opened CrmTables
  import opened CrmQueries
  import opened Suggestions
  import opened EmailSyncProofs
  import opened SyncAccounting

  /** Rows are stored under their message id, which is trimmed and not empty. */
  ghost predicate WellKeyed(t: Tables) {
    forall k :: k in t.messages ==> t.messages[k].message.id == k && k != "" && Trimmed(k)
  }

  /** Activities, with their links, are all that was added; new ids come from the range. */
  ghost predicate ActivitiesAdded(w: World, t: Tables, after: Tables, from: nat, to: nat) {
    && from <= to
    && after == t.(activities := after.activities, links := after.links)
    && t.links <= after.links
    && (forall a :: a in t.activities ==> a in after.activities && after.activities[a] == t.activities[a])
    && (forall a :: a in after.activities && a !in t.activities ==> Issued(w, a, from, to))
    && (forall l :: l in after.links && l !in t.links ==> Issued(w, l.activity, from, to))
  }

  ghost predicate Issued(w: World, id: Id, from: nat, to: nat) {
    exists i: nat :: from <= i < to && w.uuid(i) == id
  }

  lemma IssuedInPart(w: World, id: Id, a: nat, b: nat, c: nat, d: nat)
    requires a <= b <= c <= d && Issued(w, id, b, c)
    ensures Issued(w, id, a, d)
  {
    var i: nat :| b <= i < c && w.uuid(i) == id;
  }

  lemma ActivitiesAddedTwice(w: World, t: Tables, u: Tables, v: Tables, a: nat, b: nat, c: nat)
    requires ActivitiesAdded(w, t, u, a, b) && ActivitiesAdded(w, u, v, b, c)
    ensures ActivitiesAdded(w, t, v, a, c)
  {
    forall x | x in v.activities && x !in t.activities
      ensures Issued(w, x, a, c)
    {
      if x in u.activities { IssuedInPart(w, x, a, a, b, c); } else { IssuedInPart(w, x, a, b, c, c); }
    }
    forall l | l in v.links && l !in t.links
      ensures Issued(w, l.activity, a, c)
    {
      if l in u.links { IssuedInPart(w, l.activity, a, a, b, c); } else { IssuedInPart(w, l.activity, a, b, c, c); }
    }
  }

  lemma ActivityAdded(w: World, t: Tables, a: Activity, people: set<Id>, next: nat)
    ensures ActivitiesAdded(w, t, WithNewActivity(t, w.uuid(next), a, people), next, next + 1)
    requires w.uuid(next) !in t.activities
  {
    assert Issued(w, w.uuid(next), next, next + 1);
  }

  lemma AddedKeepsFresh(w: World, t: Tables, after: Tables, from: nat, to: nat)
    requires ValidWorld(w) && FreshIds(w, t, from) && ActivitiesAdded(w, t, after, from, to)
    ensures FreshIds(w, after, to)
  {
    forall i: nat | i >= to
      ensures w.uuid(i) !in after.activities && (forall l :: l in after.links ==> l.activity != w.uuid(i))
    {
      assert !Issued(w, w.uuid(i), from, to);
    }
  }

  // ----- one row -----

  predicate IsLinked(t: Tables, id: string, person: Id) {
    id in t.messages && t.messages[id].activity.Some?
    && Link(t.messages[id].activity.value, PersonEntity(person)) in t.links
  }

  /** The message points at an activity that tells it. */
  ghost predicate TellsRow(t: Tables, m: Message) {
    && m.id in t.messages && t.messages[m.id].activity.Some? && t.messages[m.id].activity.value in t.activities
    && t.activities[t.messages[m.id].activity.value] == HistoricalActivity(m)
  }

  /** After a row was linked, its message has an activity that is linked to the person. */
  ghost predicate RowLinked(t: Tables, after: Tables, person: Id, row: Row) {
    && after == t.(messages := after.messages, activities := after.activities, links := after.links)
    && IsLinked(after, row.message.id, person)
    && after.messages.Keys == t.messages.Keys
    && after.messages[row.message.id].message == row.message
    && (row.activity.Some? ==> after.messages[row.message.id] == row)
    && (row.activity.None? ==> after.messages[row.message.id].activity.value !in t.activities && TellsRow(after, row.message))
    && (forall k :: k in t.messages && k != row.message.id ==> after.messages[k] == t.messages[k])
    && after.activities.Keys == t.activities.Keys + NewOf(after, row)
    && (forall a :: a in t.activities ==> after.activities[a] == t.activities[a])
    && t.links <= after.links
  }

  ghost function NewOf(after: Tables, row: Row): set<Id>
    requires row.message.id in after.messages
  {
    if row.activity.None? && after.messages[row.message.id].activity.Some?
    then {after.messages[row.message.id].activity.value} else {}
  }

  /** The row as it is once its message points at a new activity of its own. */
  function PointedRow(t: Tables, row: Row, id: Id, a: Activity, person: Id): Tables {
    WithActivity(WithNewActivity(t, id, a, {person}), row.message.id, id)
  }

  lemma PointedRowLinked(t: Tables, row: Row, id: Id, a: Activity, person: Id)
    requires row.message.id in t.messages && t.messages[row.message.id] == row && row.activity.None?
    requires id !in t.activities && a == HistoricalActivity(row.message)
    ensures RowLinked(t, PointedRow(t, row, id, a, person), person, row)
    ensures PointedRow(t, row, id, a, person).messages[row.message.id].activity == Some(id)
  {
    var after := PointedRow(t, row, id, a, person);
    assert Link(id, PersonEntity(person)) in after.links;
    assert after.activities == t.activities[id := a];
    assert after.messages == t.messages[row.message.id := row.(activity := Some(id))];
    assert NewOf(after, row) == {id};
  }

  lemma PointedRowFresh(w: World, t: Tables, row: Row, a: Activity, person: Id, next: nat)
    requires ValidWorld(w) && FreshIds(w, t, next)
    ensures FreshIds(w, PointedRow(t, row, w.uuid(next), a, person), next + 1)
  {
    var after := PointedRow(t, row, w.uuid(next), a, person);
    forall i: nat | i >= next + 1
      ensures w.uuid(i) !in after.activities && (forall l :: l in after.links ==> l.activity != w.uuid(i))
      ensures forall m :: m in after.messages ==> after.messages[m].activity != Some(w.uuid(i))
    {
      assert w.uuid(i) != w.uuid(next);
    }
  }

  /** A trimmed message id is passed on as it is. */
  lemma TrimmedIdIsKept(w: World, db: Db, id: string, activity: Id)
    requires id != "" && Trimmed(id) && activity != ""
    ensures SetMessageActivity(w, db, id, activity) == SetEmailMessageActivity(w, db, id, activity)
  {
    assert Trim(id) == id;
  }

  /** Creating the activity, then pointing the message at it. */
  function CreateThenPoint(w: World, db: Db, person: Id, row: Row, a: Activity): Result<()> {
    var created := CreateActivity(w, db, a, {person});
    if created.Err? then Err(created.db) else SetEmailMessageActivity(w, created.db, row.message.id, created.value)
  }

  lemma CreateForRowIs(w: World, db: Db, person: Id, row: Row, a: Activity)
    requires ValidWorld(w) && row.message.id != "" && Trimmed(row.message.id)
    ensures CreateForRow(w, db, person, row, a) == CreateThenPoint(w, db, person, row, a)
  {
    var created := CreateActivity(w, db, a, {person});
    if created.Ok? {
      TrimmedIdIsKept(w, created.db, row.message.id, created.value);
    }
  }

  ghost predicate CreatedForRow(w: World, db: Db, person: Id, row: Row, a: Activity, r: Result<()>) {
    && r.db.inTx
    && ActivitiesAdded(w, db.durable, r.db.durable, db.next, r.db.next)
    && (r.Ok? ==>
        && r.db.aborted == db.aborted && r.db.next == db.next + 1
        && r.db.view == PointedRow(db.view, row, w.uuid(db.next), a, person))
  }

  lemma CreateThenPointEffect(w: World, db: Db, person: Id, row: Row, a: Activity)
    requires ValidWorld(w) && db.inTx && FreshIds(w, db.durable, db.next)
    ensures CreatedForRow(w, db, person, row, a, CreateThenPoint(w, db, person, row, a))
  {
    ActivityAdded(w, db.durable, a, {person}, db.next);
  }

  lemma CreateForRowEffect(w: World, db: Db, person: Id, row: Row, a: Activity)
    requires ValidWorld(w) && db.inTx && FreshIds(w, db.durable, db.next)
    requires row.message.id != "" && Trimmed(row.message.id)
    ensures CreatedForRow(w, db, person, row, a, CreateForRow(w, db, person, row, a))
  {
    CreateForRowIs(w, db, person, row, a);
    CreateThenPointEffect(w, db, person, row, a);
  }

  lemma LinkRowOld(w: World, db: Db, person: Id, row: Row)
    requires db.inTx
    requires row.message.id in db.view.messages && db.view.messages[row.message.id] == row
    requires row.activity.Some?
    ensures var r := LinkRow(w, db, person, row);
            && r.db.inTx && r.db.next == db.next && r.db.durable == db.durable
            && (r.Ok? ==>
                && r.db.aborted == db.aborted && RowLinked(db.view, r.db.view, person, row)
                && (FreshIds(w, db.view, db.next) ==> FreshIds(w, r.db.view, r.db.next)))
  {
    var r := LinkRow(w, db, person, row);
    if r.Ok? && FreshIds(w, db.view, db.next) {
      forall i: nat | i >= db.next
        ensures forall l :: l in r.db.view.links ==> l.activity != w.uuid(i)
      {
        assert db.view.messages[row.message.id].activity != Some(w.uuid(i));
      }
    }
  }

  lemma LinkRowNew(w: World, db: Db, person: Id, row: Row, a: Activity)
    requires ValidWorld(w) && db.inTx && FreshIds(w, db.view, db.next) && FreshIds(w, db.durable, db.next)
    requires row.message.id != "" && Trimmed(row.message.id)
    requires row.message.id in db.view.messages && db.view.messages[row.message.id] == row && row.activity.None?
    requires a == HistoricalActivity(row.message)
    ensures var r := CreateForRow(w, db, person, row, a);
            LinkedOrFailed(w, db, person, row, r)
  {
    CreateForRowEffect(w, db, person, row, a);
    PointedRowLinked(db.view, row, w.uuid(db.next), a, person);
    PointedRowFresh(w, db.view, row, a, person, db.next);
  }

  /** The outcome of linking one row: durable activities at most, and on success the row is linked. */
  ghost predicate LinkedOrFailed(w: World, db: Db, person: Id, row: Row, r: Result<()>) {
    && r.db.inTx
    && ActivitiesAdded(w, db.durable, r.db.durable, db.next, r.db.next)
    && (r.Ok? ==>
        && r.db.aborted == db.aborted && FreshIds(w, r.db.view, r.db.next)
        && RowLinked(db.view, r.db.view, person, row))
  }

  lemma LinkRowEffect(w: World, db: Db, person: Id, row: Row)
    requires ValidWorld(w) && db.inTx && FreshIds(w, db.view, db.next) && FreshIds(w, db.durable, db.next)
    requires row.message.id != "" && Trimmed(row.message.id)
    requires row.message.id in db.view.messages && db.view.messages[row.message.id] == row
    ensures LinkedOrFailed(w, db, person, row, LinkRow(w, db, person, row))
  {
    if row.activity.Some? {
      LinkRowOld(w, db, person, row);
    } else {
      LinkRowNew(w, db, person, row, HistoricalActivity(row.message));
    }
  }

  // ----- a listing of rows -----

  function Ids(rows: seq<Row>): set<string> {
    if rows == [] then {} else {rows[0].message.id} + Ids(rows[1..])
  }

  /** The listing shows stored rows, each of them once. */
  predicate Listing(t: Tables, rows: seq<Row>) {
    rows != [] ==>
      var id := rows[0].message.id;
      && id in t.messages && t.messages[id] == rows[0] && id != "" && Trimmed(id)
      && id !in Ids(rows[1..])
      && Listing(t, rows[1..])
  }

  lemma {:induction false} ListingFrame(t: Tables, u: Tables, rows: seq<Row>)
    requires Listing(t, rows)
    requires forall k :: k in Ids(rows) && k in t.messages ==> k in u.messages && u.messages[k] == t.messages[k]
    ensures Listing(u, rows)
  {
    if rows != [] {
      ListingFrame(t, u, rows[1..]);
    }
  }

  function Unlinked(rows: seq<Row>): nat {
    if rows == [] then 0 else (if rows[0].activity.None? then 1 else 0) + Unlinked(rows[1..])
  }

  function TouchRows(people: map<Id, Person>, person: Id, rows: seq<Row>): map<Id, Person>
    decreases |rows|
  {
    if rows == [] then people
    else TouchRows(Touched(people, person, rows[0].message.sentAt), person, rows[1..])
  }

  /** Every listed message is linked to the person; only the missing activities were created. */
  ghost predicate RowsLinked(t: Tables, after: Tables, person: Id, rows: seq<Row>) {
    && after == t.(messages := after.messages, activities := after.activities, links := after.links, people := after.people)
    && History(t, after, person, rows)
  }

  ghost predicate History(t: Tables, after: Tables, person: Id, rows: seq<Row>) {
    && MessagesLinked(t, after, person, rows)
    && ActivitiesGrown(t, after)
    && |after.activities| == |t.activities| + Unlinked(rows)
    && t.links <= after.links
    && after.people == TouchRows(t.people, person, rows)
    && (Consistent(t) ==> Consistent(after))
  }

  ghost predicate MessagesLinked(t: Tables, after: Tables, person: Id, rows: seq<Row>) {
    && after.messages.Keys == t.messages.Keys
    && (forall k :: k in Ids(rows) ==> IsLinked(after, k, person))
    && (forall k :: k in t.messages ==> KeptRow(t, after, k))
    && (forall k :: k in t.messages && k !in Ids(rows) ==> after.messages[k] == t.messages[k])
  }

  ghost predicate ActivitiesGrown(t: Tables, after: Tables) {
    && (forall a :: a in t.activities ==> a in after.activities && after.activities[a] == t.activities[a])
    && (forall a :: a in after.activities && a !in t.activities ==> PointedByListed(t, after, a))
  }

  /** The message is as before, and so is its pointer once it is set. */
  ghost predicate KeptRow(t: Tables, after: Tables, k: string)
    requires k in t.messages
  {
    && k in after.messages && after.messages[k].message == t.messages[k].message
    && (t.messages[k].activity.Some? ==> after.messages[k].activity == t.messages[k].activity)
    && (t.messages[k].activity.None? && after.messages[k].activity.Some? ==>
          after.messages[k].activity.value !in t.activities && after.messages[k].activity.value in after.activities)
  }

  /** The activity belongs to a message that had none, and tells it. */
  ghost predicate PointedByListed(t: Tables, after: Tables, a: Id) {
    exists k :: NewlyTold(t, after, k, a)
  }

  ghost predicate NewlyTold(t: Tables, after: Tables, k: string, a: Id) {
    && k in t.messages && k in after.messages && t.messages[k].activity.None? && after.messages[k].activity == Some(a)
    && a in after.activities && after.activities[a] == HistoricalActivity(after.messages[k].message)
  }

  ghost predicate RowsOutcome(w: World, db: Db, person: Id, rows: seq<Row>, r: Result<()>) {
    && r.db.inTx
    && ActivitiesAdded(w, db.durable, r.db.durable, db.next, r.db.next)
    && (r.Ok? ==>
        && r.db.aborted == db.aborted && FreshIds(w, r.db.view, r.db.next)
        && RowsLinked(db.view, r.db.view, person, rows))
  }

  lemma MessagesLinkedCons(t: Tables, u: Tables, v: Tables, after: Tables, person: Id, rows: seq<Row>)
    requires rows != [] && Listing(t, rows)
    requires RowLinked(t, u, person, rows[0])
    requires v == u.(people := v.people)
    requires MessagesLinked(v, after, person, rows[1..]) && ActivitiesGrown(v, after) && v.links <= after.links
    ensures MessagesLinked(t, after, person, rows)
  {
    var id := rows[0].message.id;
    assert after.messages[id] == u.messages[id];
    assert IsLinked(after, id, person);
    forall k | k in t.messages
      ensures KeptRow(t, after, k)
    {
      KeptRowCons(t, u, v, after, person, rows, k);
    }
  }

  lemma KeptRowCons(t: Tables, u: Tables, v: Tables, after: Tables, person: Id, rows: seq<Row>, k: string)
    requires rows != [] && Listing(t, rows)
    requires RowLinked(t, u, person, rows[0])
    requires v == u.(people := v.people)
    requires MessagesLinked(v, after, person, rows[1..]) && ActivitiesGrown(v, after)
    requires k in t.messages
    ensures KeptRow(t, after, k)
  {
    assert KeptRow(v, after, k);
    var id := rows[0].message.id;
    if k == id {
      assert after.messages[id] == u.messages[id];
      if rows[0].activity.None? {
        assert u.messages[id].activity.value in NewOf(u, rows[0]);
      }
    }
  }

  lemma ActivitiesGrownCons(t: Tables, u: Tables, v: Tables, after: Tables, person: Id, rows: seq<Row>)
    requires rows != [] && Listing(t, rows)
    requires RowLinked(t, u, person, rows[0])
    requires v == u.(people := v.people)
    requires RowsLinked(v, after, person, rows[1..])
    ensures ActivitiesGrown(t, after)
  {
    forall a | a in after.activities && a !in t.activities
      ensures PointedByListed(t, after, a)
    {
      if a in u.activities {
        FirstIsTold(t, u, v, after, person, rows, a);
      } else {
        assert PointedByListed(v, after, a);
        var k :| NewlyTold(v, after, k, a);
        LaterIsTold(t, u, v, after, person, rows, k, a);
      }
    }
  }

  lemma FirstIsTold(t: Tables, u: Tables, v: Tables, after: Tables, person: Id, rows: seq<Row>, a: Id)
    requires rows != [] && Listing(t, rows) && RowLinked(t, u, person, rows[0])
    requires v == u.(people := v.people)
    requires MessagesLinked(v, after, person, rows[1..]) && ActivitiesGrown(v, after)
    requires a in u.activities && a !in t.activities
    ensures NewlyTold(t, after, rows[0].message.id, a)
  {
    var id := rows[0].message.id;
    assert a in NewOf(u, rows[0]) && after.messages[id] == u.messages[id] && after.activities[a] == u.activities[a];
  }

  lemma LaterIsTold(t: Tables, u: Tables, v: Tables, after: Tables, person: Id, rows: seq<Row>, k: string, a: Id)
    requires rows != [] && Listing(t, rows) && RowLinked(t, u, person, rows[0])
    requires v == u.(people := v.people) && NewlyTold(v, after, k, a)
    ensures NewlyTold(t, after, k, a)
  {
    assert k != rows[0].message.id;
  }

  lemma RowsLinkedCons(t: Tables, u: Tables, v: Tables, after: Tables, person: Id, rows: seq<Row>)
    requires rows != [] && Listing(t, rows)
    requires RowLinked(t, u, person, rows[0])
    requires v == u.(people := Touched(t.people, person, rows[0].message.sentAt))
    requires RowsLinked(v, after, person, rows[1..])
    ensures RowsLinked(t, after, person, rows)
  {
    MessagesLinkedCons(t, u, v, after, person, rows);
    ActivitiesGrownCons(t, u, v, after, person, rows);
    RowAddsOne(t, u, person, rows[0]);
    ConsistentCons(t, u, v, after, person, rows);
    FrameCons(t, u, v, after, person, rows);
  }

  lemma ConsistentCons(t: Tables, u: Tables, v: Tables, after: Tables, person: Id, rows: seq<Row>)
    requires rows != [] && Listing(t, rows)
    requires RowLinked(t, u, person, rows[0])
    requires v == u.(people := v.people) && (Consistent(v) ==> Consistent(after))
    ensures Consistent(t) ==> Consistent(after)
  {
    if Consistent(t) {
      RowKeepsConsistent(t, u, person, rows[0]);
      SamePointers(u, v);
    }
  }

  lemma FrameCons(t: Tables, u: Tables, v: Tables, after: Tables, person: Id, rows: seq<Row>)
    requires rows != []
    requires u == t.(messages := u.messages, activities := u.activities, links := u.links)
    requires v == u.(people := Touched(t.people, person, rows[0].message.sentAt))
    requires after == v.(messages := after.messages, activities := after.activities, links := after.links, people := after.people)
    requires after.people == TouchRows(v.people, person, rows[1..])
    ensures after == t.(messages := after.messages, activities := after.activities, links := after.links, people := after.people)
    ensures after.people == TouchRows(t.people, person, rows)
  {
  }

  lemma RowAddsOne(t: Tables, u: Tables, person: Id, row: Row)
    requires RowLinked(t, u, person, row)
    ensures |u.activities| == |t.activities| + (if row.activity.None? then 1 else 0)
  {
    assert |u.activities.Keys| == |t.activities.Keys| + (if row.activity.None? then 1 else 0);
    assert |u.activities| == |u.activities.Keys| && |t.activities| == |t.activities.Keys|;
  }

  lemma RowKeepsConsistent(t: Tables, u: Tables, person: Id, row: Row)
    requires Consistent(t) && RowLinked(t, u, person, row)
    requires row.message.id in t.messages && t.messages[row.message.id] == row
    ensures Consistent(u)
  {
    forall x, y | x in u.messages && y in u.messages && SharePointer(u, x, y)
      ensures x == y
    {
      assert x != row.message.id && y != row.message.id ==> SharePointer(t, x, y);
    }
    forall x | x in u.messages && u.messages[x].activity.Some?
      ensures u.messages[x].activity.value in u.activities
    {
      if x == row.message.id && row.activity.None? {
        assert u.messages[x].activity.value in NewOf(u, row);
      }
    }
  }

  lemma RowsLinkedNone(t: Tables, person: Id)
    ensures RowsLinked(t, t, person, [])
  {
  }

  lemma RowsOutcomeCons(w: World, db: Db, linked: Db, touched: Db, person: Id, rows: seq<Row>, r: Result<()>)
    requires ValidWorld(w) && rows != [] && Listing(db.view, rows)
    requires LinkedOrFailed(w, db, person, rows[0], Ok((), linked))
    requires touched == linked.(calls := touched.calls,
                                view := linked.view.(people := Touched(db.view.people, person, rows[0].message.sentAt)))
    requires RowsOutcome(w, touched, person, rows[1..], r)
    ensures RowsOutcome(w, db, person, rows, r)
  {
    ActivitiesAddedTwice(w, db.durable, touched.durable, r.db.durable, db.next, touched.next, r.db.next);
    if r.Ok? {
      RowsLinkedCons(db.view, linked.view, touched.view, r.db.view, person, rows);
    }
  }

  lemma LinkRowsStep(w: World, db: Db, person: Id, rows: seq<Row>)
    requires rows != []
    ensures var first := LinkAndTouch(w, db, person, rows[0]);
            LinkRows(w, db, person, rows) == if first.Err? then first else LinkRows(w, first.db, person, rows[1..])
  {
  }

  lemma {:induction false} LinkRowsEffect(w: World, db: Db, person: Id, rows: seq<Row>)
    requires ValidWorld(w) && db.inTx && FreshIds(w, db.view, db.next) && FreshIds(w, db.durable, db.next)
    requires Listing(db.view, rows)
    ensures RowsOutcome(w, db, person, rows, LinkRows(w, db, person, rows))
    decreases |rows|
  {
    if rows == [] {
      RowsLinkedNone(db.view, person);
    } else {
      LinkRowsStep(w, db, person, rows);
      LinkAndTouchEffect(w, db, person, rows);
      var first := LinkAndTouch(w, db, person, rows[0]);
      if first.Ok? {
        LinkRowsEffect(w, first.db, person, rows[1..]);
        RowsOutcomeCons(w, db, LinkRow(w, db, person, rows[0]).db, first.db, person, rows,
                        LinkRows(w, first.db, person, rows[1..]));
      }
    }
  }

  /** Touching after linking: only the person's last touch changes. */
  lemma TouchAfterLink(w: World, linked: Db, person: Id, at: int)
    requires linked.inTx && FreshIds(w, linked.view, linked.next)
    ensures var first := TouchPerson(w, linked, person, at);
            && first.db.inTx && first.db.durable == linked.durable && first.db.next == linked.next
            && (first.Ok? ==>
                && first.db == linked.(calls := first.db.calls, view := linked.view.(people := Touched(linked.view.people, person, at)))
                && FreshIds(w, first.db.view, first.db.next))
  {
  }

  lemma LinkAndTouchEffect(w: World, db: Db, person: Id, rows: seq<Row>)
    requires ValidWorld(w) && db.inTx && FreshIds(w, db.view, db.next) && FreshIds(w, db.durable, db.next)
    requires rows != [] && Listing(db.view, rows)
    ensures var first := LinkAndTouch(w, db, person, rows[0]);
            var linked := LinkRow(w, db, person, rows[0]);
            && first.db.inTx
            && ActivitiesAdded(w, db.durable, first.db.durable, db.next, first.db.next)
            && (first.Ok? ==>
                && linked.Ok? && LinkedOrFailed(w, db, person, rows[0], Ok((), linked.db))
                && first.db == linked.db.(calls := first.db.calls,
                     view := linked.db.view.(people := Touched(db.view.people, person, rows[0].message.sentAt)))
                && FreshIds(w, first.db.view, first.db.next) && FreshIds(w, first.db.durable, first.db.next)
                && Listing(first.db.view, rows[1..]))
  {
    LinkRowEffect(w, db, person, rows[0]);
    var linked := LinkRow(w, db, person, rows[0]);
    AddedKeepsFresh(w, db.durable, linked.db.durable, db.next, linked.db.next);
    if linked.Ok? {
      TouchAfterLink(w, linked.db, person, rows[0].message.sentAt);
      ListingFrame(db.view, linked.db.view.(people := Touched(db.view.people, person, rows[0].message.sentAt)), rows[1..]);
    }
  }

  // ----- the whole listing of an address -----

  /** The sent times a touch has to cover. */
  function SentTimes(rows: seq<Row>): set<int> {
    set i | 0 <= i < |rows| :: rows[i].message.sentAt
  }

  /** `m` is the latest of the old touch and the given times. */
  ghost predicate IsLatest(m: Option<int>, old_: Option<int>, times: set<int>) {
    && (m.None? <==> old_.None? && times == {})
    && (m.Some? ==>
        && (m == old_ || m.value in times)
        && (old_.Some? ==> old_.value <= m.value)
        && forall t :: t in times ==> t <= m.value)
  }

  /** Touching row by row, in whatever order they come, leaves the latest time. */
  lemma {:induction false} TouchRowsLatest(people: map<Id, Person>, person: Id, rows: seq<Row>)
    ensures var after := TouchRows(people, person, rows);
            && after.Keys == people.Keys
            && (forall p :: p in people && p != person ==> after[p] == people[p])
            && (person in people ==>
                && after[person] == people[person].(lastTouch := after[person].lastTouch)
                && IsLatest(after[person].lastTouch, people[person].lastTouch, SentTimes(rows)))
    decreases |rows|
  {
    if rows != [] {
      var at := rows[0].message.sentAt;
      var first := Touched(people, person, at);
      TouchRowsLatest(first, person, rows[1..]);
      SentTimesCons(rows);
      if person in people {
        var m := TouchRows(first, person, rows[1..])[person].lastTouch;
        assert IsLatest(m, Some(Later(people[person].lastTouch, at)), SentTimes(rows[1..]));
      }
    }
  }

  lemma SentTimesCons(rows: seq<Row>)
    requires rows != []
    ensures SentTimes(rows) == {rows[0].message.sentAt} + SentTimes(rows[1..])
  {
    forall i | 0 < i < |rows|
      ensures rows[i].message.sentAt in SentTimes(rows[1..])
    {
      assert rows[1..][i - 1] == rows[i];
    }
  }

  /** A duplicate-free list of stored ids reads as a listing of their rows. */
  lemma {:induction false} RowsOfIsListing(t: Tables, ids: seq<string>)
    requires WellKeyed(t) && NoRepeats(ids)
    requires forall k :: k in ids ==> k in t.messages
    ensures Listing(t, RowsOf(t, ids))
    ensures forall k :: k in Ids(RowsOf(t, ids)) <==> k in ids
  {
    if ids != [] {
      var rest := ids[1..];
      assert ids[0] !in rest && NoRepeats(rest) && forall k :: k in ids <==> k == ids[0] || k in rest;
      RowsOfIsListing(t, rest);
      var rows := RowsOf(t, ids);
      assert rows == [t.messages[ids[0]]] + RowsOf(t, rest);
      assert rows[1..] == RowsOf(t, rest);
    }
  }

  /** The rows one listing call answers. */
  function ListedRows(w: World, db: Db, email: string): seq<Row> {
    RowsOf(db.view, ListedMessages(w, db.view, db.calls, email, HISTORY_LIMIT))
  }

  /** The list names the newest messages of the address, and reads as their rows. */
  ghost predicate NewestHistory(t: Tables, email: string, ids: seq<string>) {
    && NewestOf(t, ids, Mentioning(t, email), HISTORY_LIMIT)
    && Listing(t, RowsOf(t, ids)) && forall k :: k in Ids(RowsOf(t, ids)) <==> k in ids
  }

  lemma ListedIsListing(w: World, db: Db, email: string)
    requires ValidWorld(w) && WellKeyed(db.view)
    ensures NewestHistory(db.view, email, ListedMessages(w, db.view, db.calls, email, HISTORY_LIMIT))
  {
    ListedAreNewest(w, db.view, db.calls, email, HISTORY_LIMIT);
    RowsOfIsListing(db.view, ListedMessages(w, db.view, db.calls, email, HISTORY_LIMIT));
  }

  // ----- what taking over a history means for the whole address -----

  /** The newest messages of the address, up to the limit, were linked to the person one by one. */
  ghost predicate TakesHistory(t: Tables, after: Tables, person: Id, email: string) {
    exists ids :: NewestHistory(t, email, ids) && History(t, after, person, RowsOf(t, ids))
  }

  /** When all the messages of the address were sent. */
  function MentionTimes(t: Tables, email: string): set<int> {
    set k | k in Mentioning(t, email) :: SentAt(t, k)
  }

  /** The messages of the address that had no activity. */
  function Unrecorded(t: Tables, email: string): set<string> {
    set k | k in Mentioning(t, email) && t.messages[k].activity.None?
  }

  lemma ListedTimes(t: Tables, ids: seq<string>)
    requires forall k :: k in ids ==> k in t.messages
    ensures SentTimes(RowsOf(t, ids)) == set k | k in ids :: SentAt(t, k)
  {
    var rows := RowsOf(t, ids);
    assert |rows| == |ids| && forall i :: 0 <= i < |ids| ==> rows[i] == t.messages[ids[i]];
    forall k | k in ids
      ensures SentAt(t, k) in SentTimes(rows)
    {
      var i :| 0 <= i < |ids| && ids[i] == k;
      assert rows[i].message.sentAt == SentAt(t, k);
    }
    forall i | 0 <= i < |rows|
      ensures rows[i].message.sentAt in set k | k in ids :: SentAt(t, k)
    {
      assert ids[i] in ids && rows[i].message.sentAt == SentAt(t, ids[i]);
    }
  }

  /** The latest of the listed times is the latest of all, because the newest are listed. */
  lemma NewestTimes(t: Tables, email: string, ids: seq<string>, m: Option<int>, before: Option<int>)
    requires NewestOf(t, ids, Mentioning(t, email), HISTORY_LIMIT)
    requires IsLatest(m, before, SentTimes(RowsOf(t, ids)))
    ensures IsLatest(m, before, MentionTimes(t, email))
  {
    ListedTimes(t, ids);
    var times := SentTimes(RowsOf(t, ids));
    assert times <= MentionTimes(t, email);
    forall k | k in Mentioning(t, email)
      ensures m.Some? && SentAt(t, k) <= m.value
    {
      if k in ids {
        assert SentAt(t, k) in times;
      } else {
        assert SentAt(t, k) <= SentAt(t, ids[0]) && SentAt(t, ids[0]) in times;
      }
    }
  }

  /** Those of the messages that have no activity. */
  function UnlinkedAmong(t: Tables, ids: set<string>): set<string>
    requires ids <= t.messages.Keys
  {
    set k | k in ids && t.messages[k].activity.None?
  }

  lemma UnlinkedMore(t: Tables, ids: set<string>, id: string)
    requires ids <= t.messages.Keys && id in t.messages && id !in ids
    ensures UnlinkedAmong(t, {id} + ids) ==
            if t.messages[id].activity.None? then UnlinkedAmong(t, ids) + {id} else UnlinkedAmong(t, ids)
    ensures id !in UnlinkedAmong(t, ids)
  {
  }

  lemma {:induction false} UnlinkedCounts(t: Tables, rows: seq<Row>)
    requires Listing(t, rows)
    ensures Ids(rows) <= t.messages.Keys
    ensures Unlinked(rows) == |UnlinkedAmong(t, Ids(rows))|
  {
    if rows != [] {
      UnlinkedCounts(t, rows[1..]);
      UnlinkedMore(t, Ids(rows[1..]), rows[0].message.id);
    }
  }

  /**
   The whole history of an address: the last touch is the latest of the old one and of all the
   messages that mention the address, however many they are. With at most 200 of them each is
   linked, and as many activities were created as messages had none.
   */
  ghost predicate HistoryCovered(t: Tables, after: Tables, person: Id, before: Option<int>, email: string) {
    && person in after.people
    && IsLatest(after.people[person].lastTouch, before, MentionTimes(t, email))
    && (|Mentioning(t, email)| <= HISTORY_LIMIT ==>
        && (forall k :: k in Mentioning(t, email) ==> IsLinked(after, k, person))
        && |after.activities| == |t.activities| + |Unrecorded(t, email)|)
  }

  lemma {:induction false} SameRows(t: Tables, u: Tables, ids: seq<string>)
    requires t.messages == u.messages
    ensures RowsOf(t, ids) == RowsOf(u, ids)
  {
    if ids != [] {
      SameRows(t, u, ids[1..]);
    }
  }

  /** The newest history depends on the stored mail only. */
  lemma SameNewestHistory(t: Tables, u: Tables, email: string, ids: seq<string>)
    requires t.messages == u.messages && NewestHistory(t, email, ids)
    ensures NewestHistory(u, email, ids) && RowsOf(u, ids) == RowsOf(t, ids)
  {
    SameRows(t, u, ids);
    ListingFrame(t, u, RowsOf(t, ids));
    assert Mentioning(u, email) == Mentioning(t, email);
    assert forall k :: SentAt(u, k) == SentAt(t, k);
  }

  lemma ShortHistoryIsAll(t: Tables, email: string, ids: seq<string>)
    requires NewestHistory(t, email, ids) && |Mentioning(t, email)| <= HISTORY_LIMIT
    ensures Ids(RowsOf(t, ids)) == Mentioning(t, email)
  {
  }

  lemma HistoryIsTaken(t: Tables, after: Tables, person: Id, email: string, ids: seq<string>)
    requires person in t.people && NewestHistory(t, email, ids) && History(t, after, person, RowsOf(t, ids))
    ensures HistoryCovered(t, after, person, t.people[person].lastTouch, email)
  {
    LatestTaken(t, after, person, email, ids);
    if |Mentioning(t, email)| <= HISTORY_LIMIT {
      ShortHistoryIsAll(t, email, ids);
      AllTaken(t, after, person, email, RowsOf(t, ids));
    }
  }

  lemma HistoryTaken(t: Tables, after: Tables, person: Id, email: string)
    requires person in t.people && TakesHistory(t, after, person, email)
    ensures HistoryCovered(t, after, person, t.people[person].lastTouch, email)
  {
    var ids :| NewestHistory(t, email, ids) && History(t, after, person, RowsOf(t, ids));
    HistoryIsTaken(t, after, person, email, ids);
  }

  lemma LatestTaken(t: Tables, after: Tables, person: Id, email: string, ids: seq<string>)
    requires person in t.people && NewestOf(t, ids, Mentioning(t, email), HISTORY_LIMIT)
    requires after.people == TouchRows(t.people, person, RowsOf(t, ids))
    ensures person in after.people
    ensures IsLatest(after.people[person].lastTouch, t.people[person].lastTouch, MentionTimes(t, email))
  {
    TouchRowsLatest(t.people, person, RowsOf(t, ids));
    NewestTimes(t, email, ids, after.people[person].lastTouch, t.people[person].lastTouch);
  }

  lemma AllTaken(t: Tables, after: Tables, person: Id, email: string, rows: seq<Row>)
    requires Listing(t, rows) && Ids(rows) == Mentioning(t, email)
    requires MessagesLinked(t, after, person, rows) && |after.activities| == |t.activities| + Unlinked(rows)
    ensures forall k :: k in Mentioning(t, email) ==> IsLinked(after, k, person)
    ensures |after.activities| == |t.activities| + |Unrecorded(t, email)|
  {
    UnlinkedCounts(t, rows);
    assert Unrecorded(t, email) == UnlinkedAmong(t, Ids(rows));
  }

  /** Taking over a history touches the person and changes nothing else about anybody. */
  lemma TakenKeepsPeople(t: Tables, after: Tables, person: Id, email: string)
    requires person in t.people && TakesHistory(t, after, person, email)
    ensures after.people.Keys == t.people.Keys
    ensures forall p :: p in t.people && p != person ==> after.people[p] == t.people[p]
    ensures after.people[person] == t.people[person].(lastTouch := after.people[person].lastTouch)
  {
    var ids :| NewestHistory(t, email, ids) && History(t, after, person, RowsOf(t, ids));
    TouchRowsLatest(t.people, person, RowsOf(t, ids));
  }

  /** Success takes the history over; a failure leaves at most activities behind. */
  lemma LinkHistoricalEmailsEffect(w: World, db: Db, person: Id, email: string)
    requires ValidWorld(w) && db.inTx && FreshIds(w, db.view, db.next) && FreshIds(w, db.durable, db.next)
    requires WellKeyed(db.view)
    ensures var r := LinkHistoricalEmails(w, db, person, email);
            && RowsOutcome(w, db, person, ListedRows(w, db, email), r)
            && (r.Ok? ==>
                && TakesHistory(db.view, r.db.view, person, email)
                && (person in db.view.people ==>
                    HistoryCovered(db.view, r.db.view, person, db.view.people[person].lastTouch, email)))
  {
    ListedIsListing(w, db, email);
    var listed := ListEmailMessagesForAddress(w, db, email, HISTORY_LIMIT);
    if listed.Ok? {
      LinkRowsEffect(w, listed.db, person, ListedRows(w, db, email));
      if LinkHistoricalEmails(w, db, person, email).Ok? && person in db.view.people {
        HistoryTaken(db.view, LinkHistoricalEmails(w, db, person, email).db.view, person, email);
      }
    } else {
      assert ActivitiesAdded(w, db.durable, db.durable, db.next, db.next);
    }
  }
}
