/**
 The sync as the loop it is: one mailbox after the other, each with the access of its organization.
 */
module SyncServices {
  import opened Wrappers
  import opened CrmTables
  import opened EmailSync
  import opened SyncAccounting
  import opened CrmStore
  import opened EmailIngestion
  import opened OrganizationSyncs

  /** The sync of all organizations, one mailbox after the other, each with its own organization's access. */
  class SyncService {
    const service: EmailService
    var tables: map<Id, Tables>

    constructor (service: EmailService, tables: map<Id, Tables>)
      ensures this.service == service && this.tables == tables
    {
      this.service := service;
      this.tables := tables;
    }

    function State(): Site
      reads this, service.store
    {
      Site(tables, service.store.calls, service.store.next)
    }

    /** The store answers with what this organization sees. */
    method Enter(organization: Id)
      modifies service.store
      ensures service.store.State() == Seen(old(State()), organization)
    {
      var store := service.store;
      store.view, store.durable, store.inTx, store.aborted := TablesOf(tables, organization), TablesOf(tables, organization), false, false;
    }

    method SyncMailboxOf(mail: Mail, box: Mailbox, before: Report) returns (report: Report)
      modifies this`tables, service.store
      ensures SiteSynced(State(), report) == SyncMailbox(service.store.w, mail, SiteSynced(old(State()), before), box)
    {
      Enter(box.organization);
      report := service.SyncAccount(mail, box.account, before);
      tables := tables[box.organization := service.store.durable];
    }

    method SyncAccounts(mail: Mail, boxes: seq<Mailbox>) returns (report: Option<Report>)
      modifies this`tables, service.store
      ensures (report, State()) == OrganizationSyncs.SyncAccounts(service.store.w, mail, old(State()), boxes)
      ensures ValidWorld(service.store.w) && SiteSound(service.store.w, old(State())) ==>
                SiteReported(service.store.w, old(State()), boxes, report, State())
    {
      report := EachMailbox(mail, boxes);
      if ValidWorld(service.store.w) && SiteSound(service.store.w, old(State())) {
        SyncReportMatchesTables(service.store.w, mail, old(State()), boxes);
      }
    }

    method EachMailbox(mail: Mail, boxes: seq<Mailbox>) returns (r: Option<Report>)
      modifies this`tables, service.store
      ensures (r, State()) == OrganizationSyncs.SyncAccounts(service.store.w, mail, old(State()), boxes)
    {
      var listed := !service.store.w.fails(service.store.calls);
      service.store.calls := service.store.calls + 1;
      if !listed {
        return None;
      }
      var report := Report(|boxes|, 0, 0, 0, 0);
      ghost var start := SiteSynced(State(), report);
      assert boxes[0..] == boxes;
      var i := 0;
      while i < |boxes|
        invariant 0 <= i <= |boxes|
        invariant SyncMailboxes(service.store.w, mail, start, boxes) ==
                  SyncMailboxes(service.store.w, mail, SiteSynced(State(), report), boxes[i..])
      {
        MailboxesFrom(service.store.w, mail, SiteSynced(State(), report), boxes, i);
        report := SyncMailboxOf(mail, boxes[i], report);
        i := i + 1;
      }
      return Some(report);
    }
  }
}
