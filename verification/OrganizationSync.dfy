/**
 A sync over the mailboxes of all organizations: each mailbox sees the tables of its own, and the
 report adds them all up.
 */
module OrganizationSyncs {
  import opened Wrappers
  import opened CrmTables
  import opened EmailSync
  import opened EmailSyncProofs
  import opened SyncAccounting

  datatype Mailbox = Mailbox(organization: Id, account: Account)

  /** Every organization's tables, and what they share: the calls made and the ids handed out. */
  datatype Site = Site(tables: map<Id, Tables>, calls: nat, next: nat)

  datatype SiteSynced = SiteSynced(site: Site, report: Report)

  /** An organization without rows has empty tables. */
  function TablesOf(tables: map<Id, Tables>, organization: Id): Tables {
    if organization in tables then tables[organization] else NoTables()
  }

  /** The database as one organization sees it. */
  function Seen(site: Site, organization: Id): Db {
    Db(TablesOf(site.tables, organization), TablesOf(site.tables, organization), false, false, site.calls, site.next)
  }

  function With(site: Site, organization: Id, db: Db): Site {
    Site(site.tables[organization := db.durable], db.calls, db.next)
  }

  function SyncMailbox(w: World, mail: Mail, s: SiteSynced, box: Mailbox): SiteSynced {
    var r := SyncAccount(w, mail, Synced(Seen(s.site, box.organization), s.report), box.account);
    SiteSynced(With(s.site, box.organization, r.db), r.report)
  }

  function SyncMailboxes(w: World, mail: Mail, s: SiteSynced, boxes: seq<Mailbox>): SiteSynced
    decreases |boxes|
  {
    if boxes == [] then s else SyncMailboxes(w, mail, SyncMailbox(w, mail, s, boxes[0]), boxes[1..])
  }

  /** `boxes` is what the table of sync-enabled accounts answers, to a reader with access to all of it. */
  function SyncAccounts(w: World, mail: Mail, site: Site, boxes: seq<Mailbox>): (Option<Report>, Site) {
    if w.fails(site.calls) then (None, site.(calls := site.calls + 1))
    else
      var s := SyncMailboxes(w, mail, Started(site, |boxes|), boxes);
      (Some(s.report), s.site)
  }

  /** The mailboxes are listed, and the report starts. */
  function Started(site: Site, accounts: nat): SiteSynced {
    SiteSynced(Site(site.tables, site.calls + 1, site.next), Report(accounts, 0, 0, 0, 0))
  }

  /** One iteration of the loop over the mailboxes. */
  lemma MailboxesFrom(w: World, mail: Mail, s: SiteSynced, boxes: seq<Mailbox>, i: nat)
    requires i < |boxes|
    ensures SyncMailboxes(w, mail, s, boxes[i..]) == SyncMailboxes(w, mail, SyncMailbox(w, mail, s, boxes[i]), boxes[i + 1..])
  {
    assert boxes[i..][1..] == boxes[i + 1..];
  }

  // ----- sums over the organizations -----

  ghost function Sum(organizations: set<Id>, tables: map<Id, Tables>, size: Tables -> int): int
    requires organizations <= tables.Keys
  {
    if organizations == {} then 0
    else
      var o :| o in organizations;
      size(tables[o]) + Sum(organizations - {o}, tables, size)
  }

  ghost function Total(tables: map<Id, Tables>, size: Tables -> int): int {
    Sum(tables.Keys, tables, size)
  }

  lemma {:induction false} SumWithout(organizations: set<Id>, tables: map<Id, Tables>, size: Tables -> int, o: Id)
    requires o in organizations && organizations <= tables.Keys
    ensures Sum(organizations, tables, size) == size(tables[o]) + Sum(organizations - {o}, tables, size)
    decreases organizations
  {
    var p :| p in organizations
      && Sum(organizations, tables, size) == size(tables[p]) + Sum(organizations - {p}, tables, size);
    if p != o {
      SumWithout(organizations - {p}, tables, size, o);
      SumWithout(organizations - {o}, tables, size, p);
      assert organizations - {p} - {o} == organizations - {o} - {p};
    }
  }

  lemma {:induction false} SameSum(organizations: set<Id>, tables: map<Id, Tables>, after: map<Id, Tables>, size: Tables -> int)
    requires organizations <= tables.Keys && organizations <= after.Keys
    requires forall o :: o in organizations ==> after[o] == tables[o]
    ensures Sum(organizations, after, size) == Sum(organizations, tables, size)
    decreases organizations
  {
    if organizations != {} {
      var o :| o in organizations;
      SumWithout(organizations, tables, size, o);
      SumWithout(organizations, after, size, o);
      SameSum(organizations - {o}, tables, after, size);
    }
  }

  /** One organization's tables change the total by as much as they change. */
  lemma TotalWith(tables: map<Id, Tables>, o: Id, t: Tables, size: Tables -> int)
    requires size(NoTables()) == 0
    ensures Total(tables[o := t], size) - Total(tables, size) == size(t) - size(TablesOf(tables, o))
  {
    var after := tables[o := t];
    SumWithout(after.Keys, after, size, o);
    SameSum(tables.Keys - {o}, tables, after, size);
    assert after.Keys - {o} == tables.Keys - {o};
    if o in tables {
      SumWithout(tables.Keys, tables, size, o);
    } else {
      assert tables.Keys - {o} == tables.Keys;
    }
  }

  function Messages(t: Tables): int { |t.messages| }

  function Prompts(t: Tables): int { |t.prompts| }

  function Linked(t: Tables): int { |LinkedMessages(t)| }

  function Activities(t: Tables): int { |t.activities| }

  function Orphaned(t: Tables): int { |Orphans(t)| }

  /** Between the two states, the report grew as the tables of all organizations together did. */
  ghost predicate SiteBalanced(tables: map<Id, Tables>, after: map<Id, Tables>, report: Report, report': Report) {
    && report'.newMessages - report.newMessages == Total(after, Messages) - Total(tables, Messages)
    && report'.suggestions - report.suggestions == Total(after, Prompts) - Total(tables, Prompts)
    && report'.linkedMessages - report.linkedMessages == Total(after, Linked) - Total(tables, Linked)
    && 0 <= Total(after, Orphaned) - Total(tables, Orphaned) <= report'.errors - report.errors
    && report'.accounts == report.accounts
  }

  ghost predicate SiteSound(w: World, site: Site) {
    forall o :: FreshIds(w, TablesOf(site.tables, o), site.next) && Consistent(TablesOf(site.tables, o))
  }

  /** Ids handed out for one organization are used up for all. */
  lemma StillFresh(w: World, t: Tables, next: nat, later: nat)
    requires FreshIds(w, t, next) && next <= later
    ensures FreshIds(w, t, later)
  {
  }

  lemma WithIsSound(w: World, site: Site, o: Id, db: Db)
    requires SiteSound(w, site) && Sound(w, db) && site.next <= db.next
    ensures SiteSound(w, With(site, o, db))
  {
    var after := With(site, o, db);
    forall p
      ensures FreshIds(w, TablesOf(after.tables, p), after.next) && Consistent(TablesOf(after.tables, p))
    {
      if p != o {
        assert TablesOf(after.tables, p) == TablesOf(site.tables, p);
        StillFresh(w, TablesOf(site.tables, p), site.next, db.next);
      }
    }
  }

  lemma NothingIsNone()
    ensures Messages(NoTables()) == Prompts(NoTables()) == Linked(NoTables()) == 0
    ensures Orphaned(NoTables()) == Activities(NoTables()) == 0
  {
    assert LinkedMessages(NoTables()) == {} && Orphans(NoTables()) == {};
  }

  lemma BalancedTotal(tables: map<Id, Tables>, o: Id, t: Tables, report: Report, report': Report)
    requires Balanced(TablesOf(tables, o), t, report, report')
    ensures SiteBalanced(tables, tables[o := t], report, report')
  {
    NothingIsNone();
    TotalWith(tables, o, t, Messages);
    TotalWith(tables, o, t, Prompts);
    TotalWith(tables, o, t, Linked);
    TotalWith(tables, o, t, Orphaned);
  }

  // ----- the whole sync -----

  function Organizations(boxes: seq<Mailbox>): set<Id> {
    set i | 0 <= i < |boxes| :: boxes[i].organization
  }

  lemma OrganizationsCons(boxes: seq<Mailbox>)
    requires boxes != []
    ensures Organizations(boxes) == {boxes[0].organization} + Organizations(boxes[1..])
  {
    assert forall i :: 0 <= i < |boxes[1..]| ==> boxes[1..][i] == boxes[i + 1];
    forall o | o in Organizations(boxes)
      ensures o in {boxes[0].organization} + Organizations(boxes[1..])
    {
      var i :| 0 <= i < |boxes| && boxes[i].organization == o;
      assert i > 0 ==> boxes[1..][i - 1] == boxes[i];
    }
  }

  /** Only these organizations' tables may have changed. */
  ghost predicate OthersKept(tables: map<Id, Tables>, after: map<Id, Tables>, touched: set<Id>) {
    forall o :: o !in touched ==> TablesOf(after, o) == TablesOf(tables, o)
  }

  /** What a sync of some mailboxes leaves. */
  ghost predicate SiteOutcome(w: World, s: SiteSynced, s': SiteSynced, touched: set<Id>) {
    && SiteSound(w, s'.site) && OthersKept(s.site.tables, s'.site.tables, touched)
    && SiteBalanced(s.site.tables, s'.site.tables, s.report, s'.report)
  }

  lemma OneTouched(tables: map<Id, Tables>, o: Id, t: Tables)
    ensures OthersKept(tables, tables[o := t], {o})
  {
  }

  lemma OutcomeOf(w: World, s: SiteSynced, o: Id, db: Db, report: Report, after: SiteSynced)
    requires SiteSound(w, s.site) && Sound(w, db) && s.site.next <= db.next
    requires Balanced(TablesOf(s.site.tables, o), db.durable, s.report, report)
    requires after.site == With(s.site, o, db) && after.report == report
    ensures SiteOutcome(w, s, after, {o})
  {
    WithIsSound(w, s.site, o, db);
    OneTouched(s.site.tables, o, db.durable);
    BalancedTotal(s.site.tables, o, db.durable, s.report, report);
  }

  /** One mailbox: its organization's tables change, and no other's. */
  lemma MailboxBalanced(w: World, mail: Mail, s: SiteSynced, box: Mailbox)
    requires ValidWorld(w) && SiteSound(w, s.site)
    ensures SiteOutcome(w, s, SyncMailbox(w, mail, s, box), {box.organization})
  {
    var seen := Synced(Seen(s.site, box.organization), s.report);
    AccountBalanced(w, mail, seen, box.account);
    var r := SyncAccount(w, mail, seen, box.account);
    OutcomeOf(w, s, box.organization, r.db, r.report, SyncMailbox(w, mail, s, box));
  }

  lemma OutcomeNone(w: World, s: SiteSynced)
    requires SiteSound(w, s.site)
    ensures SiteOutcome(w, s, s, {})
  {
  }

  lemma OutcomeTwice(w: World, a: SiteSynced, b: SiteSynced, c: SiteSynced, first: set<Id>, second: set<Id>)
    requires SiteOutcome(w, a, b, first) && SiteOutcome(w, b, c, second)
    ensures SiteOutcome(w, a, c, first + second)
  {
  }

  lemma {:induction false} MailboxesBalanced(w: World, mail: Mail, s: SiteSynced, boxes: seq<Mailbox>)
    requires ValidWorld(w) && SiteSound(w, s.site)
    ensures SiteOutcome(w, s, SyncMailboxes(w, mail, s, boxes), Organizations(boxes))
    decreases |boxes|
  {
    if boxes == [] {
      OutcomeNone(w, s);
    } else {
      var next := SyncMailbox(w, mail, s, boxes[0]);
      MailboxBalanced(w, mail, s, boxes[0]);
      MailboxesBalanced(w, mail, next, boxes[1..]);
      OrganizationsCons(boxes);
      OutcomeTwice(w, s, next, SyncMailboxes(w, mail, next, boxes[1..]), {boxes[0].organization}, Organizations(boxes[1..]));
    }
  }

  lemma {:induction false} TotalSplit(organizations: set<Id>, tables: map<Id, Tables>)
    requires organizations <= tables.Keys && forall o :: o in organizations ==> Consistent(TablesOf(tables, o))
    ensures Sum(organizations, tables, Activities) ==
            Sum(organizations, tables, Linked) + Sum(organizations, tables, Orphaned)
    decreases organizations
  {
    if organizations != {} {
      var o :| o in organizations;
      SumWithout(organizations, tables, Activities, o);
      SumWithout(organizations, tables, Linked, o);
      SumWithout(organizations, tables, Orphaned, o);
      ActivitiesSplit(tables[o]);
      TotalSplit(organizations - {o}, tables);
    }
  }

  /** The report of a whole sync is the growth of the tables of all organizations together. */
  ghost predicate SiteReportMatches(tables: map<Id, Tables>, after: map<Id, Tables>, report: Report) {
    && report.newMessages == Total(after, Messages) - Total(tables, Messages)
    && report.suggestions == Total(after, Prompts) - Total(tables, Prompts)
    && report.linkedMessages == Total(after, Linked) - Total(tables, Linked)
    && Total(after, Activities) - Total(tables, Activities) ==
       report.linkedMessages + Total(after, Orphaned) - Total(tables, Orphaned)
    && 0 <= Total(after, Orphaned) - Total(tables, Orphaned) <= report.errors
  }

  lemma SiteSplit(w: World, site: Site)
    requires SiteSound(w, site)
    ensures Total(site.tables, Activities) == Total(site.tables, Linked) + Total(site.tables, Orphaned)
  {
    TotalSplit(site.tables.Keys, site.tables);
  }

  lemma BalancedMatches(tables: map<Id, Tables>, after: map<Id, Tables>, accounts: nat, report: Report)
    requires SiteBalanced(tables, after, Report(accounts, 0, 0, 0, 0), report)
    requires Total(tables, Activities) == Total(tables, Linked) + Total(tables, Orphaned)
    requires Total(after, Activities) == Total(after, Linked) + Total(after, Orphaned)
    ensures SiteReportMatches(tables, after, report) && report.accounts == accounts
  {
  }

  /** What a whole sync leaves, and reports. */
  ghost predicate SiteReported(w: World, site: Site, boxes: seq<Mailbox>, report: Option<Report>, after: Site) {
    && SiteSound(w, after) && OthersKept(site.tables, after.tables, Organizations(boxes))
    && (report.None? ==> after.tables == site.tables)
    && (report.Some? ==> report.value.accounts == |boxes| && SiteReportMatches(site.tables, after.tables, report.value))
  }

  lemma StartedIsSound(w: World, site: Site, boxes: seq<Mailbox>)
    requires SiteSound(w, site)
    ensures SiteSound(w, Started(site, |boxes|).site)
  {
  }

  lemma OutcomeReported(w: World, site: Site, boxes: seq<Mailbox>, s': SiteSynced)
    requires SiteSound(w, Started(site, |boxes|).site)
    requires SiteOutcome(w, Started(site, |boxes|), s', Organizations(boxes))
    ensures SiteReported(w, site, boxes, Some(s'.report), s'.site)
  {
    SiteSplit(w, Started(site, |boxes|).site);
    SiteSplit(w, s'.site);
    BalancedMatches(site.tables, s'.site.tables, |boxes|, s'.report);
  }

  lemma SyncNotListed(w: World, site: Site, boxes: seq<Mailbox>)
    requires SiteSound(w, site)
    ensures SiteReported(w, site, boxes, None, site.(calls := site.calls + 1))
  {
  }

  /**
   Over all organizations, any call failing anywhere: new messages, suggestions and linked messages
   of the report are the growth of the tables; activities grow by the linked messages plus the
   orphans, and orphans are at most the errors. An organization without a mailbox keeps its tables.
   */
  lemma SyncReportMatchesTables(w: World, mail: Mail, site: Site, boxes: seq<Mailbox>)
    requires ValidWorld(w) && SiteSound(w, site)
    ensures var (report, after) := SyncAccounts(w, mail, site, boxes);
            SiteReported(w, site, boxes, report, after)
  {
    if w.fails(site.calls) {
      SyncNotListed(w, site, boxes);
    } else {
      StartedIsSound(w, site, boxes);
      MailboxesBalanced(w, mail, Started(site, |boxes|), boxes);
      OutcomeReported(w, site, boxes, SyncMailboxes(w, mail, Started(site, |boxes|), boxes));
    }
  }
}
