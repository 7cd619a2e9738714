/**
 The store as the services use it: an object whose tables are updated in place,
 statement by statement. Every method is tied to the function of CrmTables that says
 what the statement does.
 */
module CrmStore {
  import opened Wrappers
  import opened Text
  import opened CrmTables
  import opened CrmQueries

  /** What a call returns: Go's `(value, err)`. */
  datatype Outcome<+T> = Success(value: T) | Failure {
    predicate IsFailure() {
      Failure?
    }

    function PropagateFailure<U>(): Outcome<U>
      requires Failure?
    {
      Failure
    }

    function Extract(): T
      requires Success?
    {
      value
    }
  }

  /** The call did what the specification says: same answer, same state, failures included. */
  ghost predicate Meets<T(!new)>(r: Outcome<T>, state: Db, spec: Result<T>) {
    && state == spec.db
    && (r.Success? <==> spec.Ok?)
    && (r.Success? ==> r.value == spec.value)
  }

  class Store {
    const w: World
    var view: Tables
    var durable: Tables
    var inTx: bool
    var aborted: bool
    var calls: nat
    var next: nat

    function State(): Db
      reads this
    {
      Db(view, durable, inTx, aborted, calls, next)
    }

    constructor (w: World, t: Tables)
      ensures this.w == w && State() == Db(t, t, false, false, 0, 0)
    {
      this.w := w;
      view, durable, inTx, aborted, calls, next := t, t, false, false, 0, 0;
    }

    // ----- statements and transactions -----

    /** Sends one statement; a failure aborts the running transaction. */
    method Send() returns (ok: bool)
      modifies this`aborted, this`calls
      ensures ok <==> !old(aborted) && !w.fails(old(calls))
      ensures calls == old(calls) + 1 && aborted == if ok then old(aborted) else inTx
    {
      ok := !aborted && !w.fails(calls);
      calls := calls + 1;
      if !ok {
        aborted := inTx;
      }
    }

    /** Outside a transaction a statement commits by itself. */
    method Settle()
      modifies this`durable
      ensures durable == if inTx then old(durable) else view
    {
      if !inTx {
        durable := view;
      }
    }

    method Query<T(!new)>(answer: T) returns (r: Outcome<T>)
      modifies this`aborted, this`calls
      ensures Meets(r, State(), CrmTables.Query(w, old(State()), answer))
    {
      var ok := Send();
      r := if ok then Success(answer) else Failure;
    }

    method Begin() returns (r: Outcome<()>)
      modifies this`inTx, this`calls
      ensures Meets(r, State(), CrmTables.Begin(w, old(State())))
    {
      if w.fails(calls) {
        calls := calls + 1;
        return Failure;
      }
      calls := calls + 1;
      inTx := true;
      return Success(());
    }

    method Rollback()
      modifies this
      ensures State() == CrmTables.Rollback(old(State()))
    {
      view, inTx, aborted := durable, false, false;
    }

    /** The end of `WithinTx`: the callback's error rolls back, otherwise the commit decides. */
    method Finish<T(!new)>(body: Outcome<T>, ghost spec: Result<T>) returns (r: Outcome<T>)
      requires Meets(body, State(), spec)
      modifies this
      ensures Meets(r, State(), CrmTables.Finish(w, spec))
    {
      if body.Failure? {
        Rollback();
        return Failure;
      }
      var committed := !aborted && !w.fails(calls);
      calls := calls + 1;
      if !committed {
        Rollback();
        return Failure;
      }
      durable := view;
      inTx := false;
      return body;
    }

    // ----- email messages -----

    method UpsertEmailMessage(m: Message) returns (r: Outcome<bool>)
      modifies this
      ensures Meets(r, State(), CrmTables.UpsertEmailMessage(w, old(State()), m))
    {
      var ok := Send();
      if !ok {
        return Failure;
      }
      if m.id in view.messages {
        return Success(false);
      }
      view := view.(messages := view.messages[m.id := Row(m, None)]);
      Settle();
      return Success(true);
    }

    method SetEmailMessageActivity(id: string, activity: Id) returns (r: Outcome<()>)
      modifies this
      ensures Meets(r, State(), CrmTables.SetEmailMessageActivity(w, old(State()), id, activity))
    {
      var ok := Send();
      if !ok {
        return Failure;
      }
      if id in view.messages && view.messages[id].activity.None? {
        view := view.(messages := view.messages[id := view.messages[id].(activity := Some(activity))]);
      }
      Settle();
      return Success(());
    }

    method ListEmailMessagesForAddress(email: string, limit: nat) returns (r: Outcome<seq<string>>)
      modifies this`aborted, this`calls
      ensures Meets(r, State(), CrmTables.ListEmailMessagesForAddress(w, old(State()), email, limit))
      ensures ValidWorld(w) && r.Success? ==> NewestOf(view, r.value, Mentioning(view, email), limit)
    {
      r := Query(ListedMessages(w, view, calls, email, limit));
      if ValidWorld(w) {
        ListedAreNewest(w, view, old(calls), email, limit);
      }
    }

    // ----- people -----

    method FindPersonByEmail(email: string) returns (r: Outcome<Option<Id>>)
      modifies this`aborted, this`calls
      ensures Meets(r, State(), CrmTables.FindPersonByEmail(w, old(State()), email))
      ensures ValidWorld(w) && r.Success? ==> Finds(r.value, Answering(view, email))
    {
      r := Query(FirstOf(w.order(calls, Answering(view, email))));
      if ValidWorld(w) {
        PersonFound(w, old(State()), email);
      }
    }

    method GetPerson(id: Id) returns (r: Outcome<()>)
      modifies this`aborted, this`calls
      ensures Meets(r, State(), CrmTables.GetPerson(w, old(State()), id))
    {
      var found :- Query(id in view.people);
      return if found then Success(()) else Failure;
    }

    method CreatePerson(p: Person) returns (r: Outcome<Id>)
      modifies this
      ensures Meets(r, State(), CrmTables.CreatePerson(w, old(State()), p))
    {
      var id := w.uuid(next);
      next := next + 1;
      var ok := Send();
      if !ok {
        return Failure;
      }
      view := view.(people := view.people[id := p]);
      Settle();
      return Success(id);
    }

    method TouchPerson(id: Id, at: int) returns (r: Outcome<()>)
      modifies this
      ensures Meets(r, State(), CrmTables.TouchPerson(w, old(State()), id, at))
    {
      var ok := Send();
      if !ok {
        return Failure;
      }
      if id in view.people {
        view := view.(people := view.people[id := view.people[id].(lastTouch := Some(Later(view.people[id].lastTouch, at)))]);
      }
      Settle();
      return Success(());
    }

    /** Commits on its own, also inside a transaction. */
    method AddPersonEmail(id: Id, email: string) returns (r: Outcome<()>)
      modifies this
      ensures Meets(r, State(), CrmTables.AddPersonEmail(w, old(State()), id, email))
    {
      var ok := !w.fails(calls) && id in durable.people && !AddressTaken(durable, id, email);
      calls := calls + 1;
      if !ok {
        return Failure;
      }
      view := view.(addresses := view.addresses + {(id, Lower(email))});
      if id in view.people && view.people[id].email == "" {
        view := view.(people := view.people[id := view.people[id].(email := Lower(email))]);
      }
      durable := WithAddress(durable, id, email);
      return Success(());
    }

    method DeletePerson(id: Id) returns (r: Outcome<()>)
      modifies this
      ensures Meets(r, State(), CrmTables.DeletePerson(w, old(State()), id))
    {
      var ok := Send();
      if !ok {
        return Failure;
      }
      view := view.(people := view.people - {id});
      view := view.(links := (set l | l in view.links && l.entity != PersonEntity(id)));
      view := view.(addresses := (set a | a in view.addresses && a.0 != id));
      view := view.(employments := (set e | e in view.employments && e.0 != id));
      Settle();
      return Success(());
    }

    // ----- companies -----

    method FindCompanyByDomain(domainName: string) returns (r: Outcome<Option<Id>>)
      modifies this`aborted, this`calls
      ensures Meets(r, State(), CrmTables.FindCompanyByDomain(w, old(State()), domainName))
      ensures ValidWorld(w) && r.Success? ==> Finds(r.value, CompaniesOf(view, domainName))
    {
      r := Query(FirstOf(w.order(calls, CompaniesOf(view, domainName))));
      if ValidWorld(w) {
        CompanyFound(w, old(State()), domainName);
      }
    }

    method GetCompany(id: Id) returns (r: Outcome<()>)
      modifies this`aborted, this`calls
      ensures Meets(r, State(), CrmTables.GetCompany(w, old(State()), id))
    {
      var found :- Query(id in view.companies);
      return if found then Success(()) else Failure;
    }

    method CreateCompany(c: Company) returns (r: Outcome<Id>)
      modifies this
      ensures Meets(r, State(), CrmTables.CreateCompany(w, old(State()), c))
    {
      var id := w.uuid(next);
      next := next + 1;
      var ok := Send();
      if !ok {
        return Failure;
      }
      view := view.(companies := view.companies[id := c]);
      Settle();
      return Success(id);
    }

    method AddCompanyDomain(id: Id, domainName: string) returns (r: Outcome<()>)
      modifies this
      ensures Meets(r, State(), CrmTables.AddCompanyDomain(w, old(State()), id, domainName))
    {
      var ok := Send();
      if !ok {
        return Failure;
      }
      view := view.(domains := view.domains + {(id, Lower(domainName))});
      Settle();
      return Success(());
    }

    method LinkPersonCompany(person: Id, company: Id) returns (r: Outcome<()>)
      modifies this
      ensures Meets(r, State(), CrmTables.LinkPersonCompany(w, old(State()), person, company))
    {
      var ok := Send();
      if !ok {
        return Failure;
      }
      view := view.(employments := view.employments + {(person, company)});
      Settle();
      return Success(());
    }

    // ----- activities -----

    /** Commits on its own, also inside a transaction, and is checked against committed people. */
    method CreateActivity(a: Activity, linked: set<Id>) returns (r: Outcome<Id>)
      modifies this
      ensures Meets(r, State(), CrmTables.CreateActivity(w, old(State()), a, linked))
    {
      var ok := !w.fails(calls) && (!w.policies || linked <= durable.people.Keys);
      calls := calls + 1;
      if !ok {
        return Failure;
      }
      var id := w.uuid(next);
      next := next + 1;
      view := view.(activities := view.activities[id := a]);
      view := view.(links := view.links + (set p | p in linked :: Link(id, PersonEntity(p))));
      durable := WithNewActivity(durable, id, a, linked);
      return Success(id);
    }

    method CreateActivityDetail(activity: Id, body: string) returns (r: Outcome<()>)
      modifies this
      ensures Meets(r, State(), CrmTables.CreateActivityDetail(w, old(State()), activity, body))
    {
      var ok := Send();
      if !ok {
        return Failure;
      }
      view := view.(details := view.details[activity := body]);
      Settle();
      return Success(());
    }

    method LinkActivity(activity: Id, entity: Entity) returns (r: Outcome<()>)
      modifies this
      ensures Meets(r, State(), CrmTables.LinkActivity(w, old(State()), activity, entity))
    {
      if activity !in view.activities {
        calls := calls + 1;
        aborted := inTx;
        return Failure;
      }
      var ok := Send();
      if !ok {
        return Failure;
      }
      view := view.(links := view.links + {Link(activity, entity)});
      Settle();
      return Success(());
    }

    // ----- prompts and suppressions -----

    method CreateAIPrompt(p: Prompt) returns (r: Outcome<Id>)
      modifies this
      ensures Meets(r, State(), CrmTables.CreateAIPrompt(w, old(State()), p))
    {
      var id := w.uuid(next);
      next := next + 1;
      var ok := Send();
      if !ok {
        return Failure;
      }
      view := view.(prompts := view.prompts[id := p.(targetIdentifier := Lower(p.targetIdentifier))]);
      Settle();
      return Success(id);
    }

    method GetAIPrompt(id: Id) returns (r: Outcome<Prompt>)
      modifies this`aborted, this`calls
      ensures Meets(r, State(), CrmTables.GetAIPrompt(w, old(State()), id))
    {
      var found :- Query(if id in view.prompts then Some(view.prompts[id]) else None);
      return if found.Some? then Success(found.value) else Failure;
    }

    method AIPromptExists(kind: Kind, title: string) returns (r: Outcome<bool>)
      modifies this`aborted, this`calls
      ensures Meets(r, State(), CrmTables.AIPromptExists(w, old(State()), kind, title))
    {
      r := Query(HasOpenPrompt(view, kind, title));
    }

    method ResolveAIPrompt(id: Id, status: Status) returns (r: Outcome<()>)
      modifies this
      ensures Meets(r, State(), CrmTables.ResolveAIPrompt(w, old(State()), id, status))
    {
      var ok := Send();
      if !ok || id !in view.prompts {
        return Failure;
      }
      view := view.(prompts := view.prompts[id := view.prompts[id].(status := status)]);
      Settle();
      return Success(());
    }

    method IsSuggestionSuppressed(kind: Kind, targetType: string, target: string) returns (r: Outcome<bool>)
      modifies this`aborted, this`calls
      ensures Meets(r, State(), CrmTables.IsSuggestionSuppressed(w, old(State()), kind, targetType, target))
    {
      r := Query(Suppression(kind, targetType, Lower(target)) in view.suppressions);
    }

    method SuppressSuggestion(kind: Kind, targetType: string, target: string) returns (r: Outcome<()>)
      modifies this
      ensures Meets(r, State(), CrmTables.SuppressSuggestion(w, old(State()), kind, targetType, target))
    {
      var ok := Send();
      if !ok {
        return Failure;
      }
      view := view.(suppressions := view.suppressions + {Suppression(kind, targetType, Lower(target))});
      Settle();
      return Success(());
    }

    method UnsuppressSuggestion(kind: Kind, targetType: string, target: string) returns (r: Outcome<()>)
      modifies this
      ensures Meets(r, State(), CrmTables.UnsuppressSuggestion(w, old(State()), kind, targetType, target))
    {
      var ok := Send();
      if !ok {
        return Failure;
      }
      view := view.(suppressions := view.suppressions - {Suppression(kind, targetType, Lower(target))});
      Settle();
      return Success(());
    }

    method MarkEmailFolderSynced(account: Id, folder: string, at: int) returns (r: Outcome<()>)
      modifies this
      ensures Meets(r, State(), CrmTables.MarkEmailFolderSynced(w, old(State()), account, folder, at))
    {
      var ok := Send();
      if !ok {
        return Failure;
      }
      view := view.(cursors := view.cursors[(account, folder) := at]);
      Settle();
      return Success(());
    }
  }
}
