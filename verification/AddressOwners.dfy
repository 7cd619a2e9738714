/**
 To whom an address leads: at most one person, over every run, exactly as long as no suggestion
 is linked to a person while somebody else answers to its address.
 */
module AddressOwners {
  import opened Wrappers
  import opened Text
  import opened CrmTables
  import opened EmailSyncProofs
  import opened Suggestions
  import opened HistoricalMail
  import opened Acceptance
  import opened Runs
  import opened SuggestionRuns
  import opened ConcreteWorlds
  import EmailSync

  /** An address leads to at most one person. */
  ghost predicate OnePerson(t: Tables) {
    forall e, p, q :: e != "" && p in Answering(t, e) && q in Answering(t, e) ==> p == q
  }

  /** Nobody answers to an address who did not before. */
  ghost predicate NobodyNew(t: Tables, after: Tables) {
    forall e, p :: p in Answering(after, e) ==> p in Answering(t, e)
  }

  lemma NobodyNewKeeps(t: Tables, after: Tables)
    requires NobodyNew(t, after) && OnePerson(t)
    ensures OnePerson(after)
  {
  }

  lemma SameAddressesKeep(t: Tables, after: Tables)
    requires after.people.Keys <= t.people.Keys && after.addresses <= t.addresses
    requires forall p :: p in after.people ==> after.people[p].email == t.people[p].email
    ensures NobodyNew(t, after)
  {
    forall e, p | p in Answering(after, e)
      ensures p in Answering(t, e)
    {
      assert HasAddress(after, p, e) ==> HasAddress(t, p, e);
    }
  }

  /** Answering depends on the address up to case only. */
  lemma AnsweringFolds(t: Tables, e: string, f: string)
    requires Lower(e) == Lower(f)
    ensures Answering(t, e) == Answering(t, f)
  {
    forall p | p in t.people
      ensures HasAddress(t, p, e) <==> HasAddress(t, p, f)
    {
    }
  }

  lemma NewPersonAnswers(t: Tables, after: Tables, person: Id, email: string, e: string)
    requires person !in t.people && after.addresses == t.addresses
    requires forall a :: a in t.addresses ==> a.0 != person
    requires after.people.Keys == t.people.Keys + {person} && after.people[person].email == email
    requires forall p :: p in t.people ==> after.people[p].email == t.people[p].email
    ensures Answering(after, e) == Answering(t, e) + (if Lower(email) == Lower(e) then {person} else {})
  {
    assert !HasAddress(after, person, e);
    forall p | p in t.people
      ensures HasAddress(after, p, e) <==> HasAddress(t, p, e)
    {
    }
  }

  /** Adding somebody with an address nobody answered to. */
  lemma NewPersonKeeps(t: Tables, after: Tables, person: Id, email: string)
    requires OnePerson(t) && Answering(t, email) == {}
    requires person !in t.people && after.addresses == t.addresses
    requires forall a :: a in t.addresses ==> a.0 != person
    requires after.people.Keys == t.people.Keys + {person} && after.people[person].email == email
    requires forall p :: p in t.people ==> after.people[p].email == t.people[p].email
    ensures OnePerson(after)
  {
    forall e, p, q | e != "" && p in Answering(after, e) && q in Answering(after, e)
      ensures p == q
    {
      NewPersonAnswers(t, after, person, email, e);
      if Lower(email) == Lower(e) {
        AnsweringFolds(t, e, email);
      }
    }
  }

  /** Accepting keeps the rule: a new person gets an address nobody answered to. */
  lemma AcceptedKeepsOnePerson(w: World, t: Tables, after: Tables, id: Id, p: Prompt, n: nat, answer: AcceptResult)
    requires ValidWorld(w) && FreshIds(w, t, n) && OnePerson(t)
    requires AcceptedView(w, t, after, id, p, n, answer)
    ensures OnePerson(after)
  {
    if p.kind.NewContact? && answer.created {
      SuggestionValueIsNormal(w, p);
      ContactKeepsOnePerson(w, t, after, id, SuggestionValue(w, p), SuggestedPerson(SuggestionValue(w, p), p.body), n);
    } else {
      SameAddressesKeep(t, after);
      NobodyNewKeeps(t, after);
    }
  }

  lemma SuggestionValueIsNormal(w: World, p: Prompt)
    requires p.kind.NewContact?
    ensures Normal(SuggestionValue(w, p)) == SuggestionValue(w, p)
  {
    var kind, identifier := Normal(p.targetType), Normal(p.targetIdentifier);
    if kind != "" && identifier != "" {
      NormalTwice(p.targetIdentifier);
    } else {
      NormalTwice(w.findEmail(TrimPrefix(p.title, "New contact:") + "\n" + p.body));
    }
  }

  lemma NormalTwice(s: string)
    ensures Normal(Normal(s)) == Normal(s)
  {
    NormalIsStable(s);
  }

  lemma ContactKeepsOnePerson(w: World, t: Tables, after: Tables, id: Id, email: string, person: Person, n: nat)
    requires ValidWorld(w) && FreshIds(w, t, n) && OnePerson(t)
    requires Answering(t, email) == {} && person.email == email
    requires ContactAccepted(t, after, id, w.uuid(n), person, email)
    ensures OnePerson(after)
  {
    ContactFrame(t, after, id, w.uuid(n), person, email);
    TakenKeepsPeople(WithPerson(t, w.uuid(n), person), after, w.uuid(n), email);
    NewPersonAddresses(t.people, after.people, w.uuid(n), person);
    NewPersonKeeps(t, after, w.uuid(n), email);
  }

  /** The people after accepting a new contact: the new one, and those there were. */
  lemma NewPersonAddresses(people: map<Id, Person>, after: map<Id, Person>, added: Id, person: Person)
    requires added !in people && after.Keys == people[added := person].Keys
    requires forall p :: p in people[added := person] && p != added ==> after[p] == people[added := person][p]
    requires after[added].email == person.email
    ensures after.Keys == people.Keys + {added}
    ensures forall p :: p in people ==> after[p].email == people[p].email
  {
    assert forall p :: p in people ==> people[added := person][p] == people[p];
  }

  lemma AddedAddress(t: Tables, person: Id, email: string, e: string)
    ensures forall p :: HasAddress(WithAddress(t, person, email), p, e) <==>
                        HasAddress(t, p, e) || (p == person && Lower(Lower(email)) == Lower(e))
  {
    var after := WithAddress(t, person, email);
    assert after.addresses == t.addresses + {(person, Lower(email))};
    forall p | HasAddress(t, p, e)
      ensures HasAddress(after, p, e)
    {
      var a :| a in t.addresses && a.0 == p && Lower(a.1) == Lower(e);
      assert a in after.addresses;
    }
    assert (person, Lower(email)) in after.addresses;
  }

  lemma AddedColumn(t: Tables, person: Id, email: string, e: string, p: Id)
    requires person in t.people && e != "" && p in t.people
    ensures var after := WithAddress(t, person, email);
            Lower(after.people[p].email) == Lower(e) ==>
              Lower(t.people[p].email) == Lower(e) || (p == person && Lower(e) == Lower(email))
    ensures Lower(t.people[p].email) == Lower(e) ==>
              Lower(WithAddress(t, person, email).people[p].email) == Lower(e)
  {
    LowerIsStable(email);
  }

  lemma AddressAnswers(t: Tables, person: Id, email: string, e: string)
    requires person in t.people && e != ""
    ensures Answering(WithAddress(t, person, email), e) ==
            Answering(t, e) + (if Lower(e) == Lower(email) then {person} else {})
  {
    var after := WithAddress(t, person, email);
    LowerIsStable(email);
    AddedAddress(t, person, email, e);
    forall p | p in t.people
      ensures p in Answering(after, e) <==> p in Answering(t, e) || (p == person && Lower(e) == Lower(email))
    {
      AddedColumn(t, person, email, e, p);
    }
  }

  /** Adding an address to a person keeps the rule exactly when nobody else answers to it. */
  lemma AddingAddressIff(t: Tables, person: Id, email: string)
    requires OnePerson(t) && person in t.people && email != ""
    ensures OnePerson(WithAddress(t, person, email)) <==> Answering(t, email) <= {person}
  {
    var after := WithAddress(t, person, email);
    AddressAnswers(t, person, email, email);
    if Answering(t, email) <= {person} {
      forall e, p, q | e != "" && p in Answering(after, e) && q in Answering(after, e)
        ensures p == q
      {
        AddressAnswers(t, person, email, e);
        if Lower(e) == Lower(email) {
          AnsweringFolds(t, e, email);
        }
      }
    } else {
      var other :| other in Answering(t, email) && other != person;
      assert other in Answering(after, email) && person in Answering(after, email);
    }
  }
  // ----- linking a suggestion to a person -----

  /**
   The address of the suggestion is added to the person. That write commits on its own, so it
   stays whatever becomes of the request after its first four calls.
   */
  predicate AddsAddress(w: World, db: Db, id: Id, person: Id) {
    !w.fails(db.calls) && AddsInside(w, db.durable, db.calls + 1, id, person)
  }

  predicate AddsInside(w: World, t: Tables, call: nat, id: Id, person: Id) {
    && !w.fails(call) && id in t.prompts
    && Adds(w, t, call + 1, person, t.prompts[id].kind, SuggestionValue(w, t.prompts[id]))
  }

  /** The suggestion names an address, and finding the person and adding the address go well. */
  predicate Adds(w: World, t: Tables, call: nat, person: Id, kind: Kind, email: string) {
    Linkable(kind, email) && AddsHere(w, t, call, person, email)
  }

  predicate AddsHere(w: World, t: Tables, call: nat, person: Id, email: string) {
    !w.fails(call) && !w.fails(call + 1) && person in t.people && !AddressTaken(t, person, email)
  }

  /** The tables as far as addresses are concerned. */
  ghost predicate SameAddresses(t: Tables, after: Tables) {
    && after.addresses == t.addresses && after.people.Keys == t.people.Keys
    && forall p :: p in t.people ==> after.people[p].email == t.people[p].email
  }

  lemma SameAddressesIff(t: Tables, after: Tables)
    requires SameAddresses(t, after)
    ensures OnePerson(after) <==> OnePerson(t)
  {
    SameAddressesKeep(t, after);
    SameAddressesKeep(after, t);
    if OnePerson(t) { NobodyNewKeeps(t, after); }
    if OnePerson(after) { NobodyNewKeeps(after, t); }
  }

  lemma AfterPersonAddresses(w: World, db: Db, id: Id, person: Id, email: string)
    requires ValidWorld(w) && InsideTx(w, db) && person in db.view.people
    ensures var r := AfterPerson(w, db, id, person, email);
            && r.db.inTx && SameAddresses(db.durable, r.db.durable)
            && (r.Ok? ==> SameAddresses(db.view, r.db.view))
  {
    AfterPersonEffect(w, db, id, person, email);
    var r := AfterPerson(w, db, id, person, email);
    if r.Ok? {
      TakenKeepsPeople(db.view, r.db.view, person, email);
    }
  }

  function Addressed(w: World, db: Db, id: Id, person: Id): Tables {
    if w.fails(db.calls) then db.durable else AddressedInside(w, db.durable, db.calls + 1, id, person)
  }

  function AddressedInside(w: World, t: Tables, call: nat, id: Id, person: Id): Tables {
    if AddsInside(w, t, call, id, person) then WithAddress(t, person, SuggestionValue(w, t.prompts[id])) else t
  }

  /** What a part of the transaction leaves to either outcome. */
  ghost predicate AddressesAre(t: Tables, r: Result<()>) {
    r.db.inTx && SameAddresses(t, r.db.durable) && (r.Ok? ==> SameAddresses(t, r.db.view))
  }

  function WithAddressAdded(db: Db, person: Id, email: string): Db {
    db.(calls := db.calls + 2, view := WithAddress(db.view, person, email), durable := WithAddress(db.durable, person, email))
  }

  lemma AddAddressIs(w: World, db: Db, person: Id, email: string)
    requires db.inTx && !db.aborted && db.view == db.durable
    ensures var r := AddAddress(w, db, person, email);
            if AddsHere(w, db.durable, db.calls, person, email) then r == Ok((), WithAddressAdded(db, person, email))
            else r.Err? && r.db.inTx && r.db.durable == db.durable
  {
  }

  lemma LinkAddressStages(w: World, db: Db, id: Id, person: Id, email: string)
    requires db.inTx && !db.aborted && db.view == db.durable
    ensures var r := LinkAddress(w, db, id, person, email);
            if AddsHere(w, db.durable, db.calls, person, email)
            then r == AfterPerson(w, WithAddressAdded(db, person, email), id, person, email)
            else r.Err? && r.db.inTx && r.db.durable == db.durable
  {
    AddAddressIs(w, db, person, email);
  }

  lemma AddedAddresses(w: World, db: Db, id: Id, person: Id, email: string)
    requires ValidWorld(w) && InsideTx(w, db) && db.view == db.durable && AddsHere(w, db.durable, db.calls, person, email)
    ensures AddressesAre(WithAddress(db.durable, person, email),
                         AfterPerson(w, WithAddressAdded(db, person, email), id, person, email))
  {
    WithAddressFresh(w, db.durable, person, email, db.next);
    AddressKeepsMail(db.durable, person, email);
    AfterPersonAddresses(w, WithAddressAdded(db, person, email), id, person, email);
  }

  lemma AddressKeepsMail(t: Tables, person: Id, email: string)
    ensures WithAddress(t, person, email).messages == t.messages
    ensures WellKeyed(t) ==> WellKeyed(WithAddress(t, person, email))
    ensures WithAddress(t, person, email).people.Keys == t.people.Keys
  {
  }

  lemma LinkAddressAddresses(w: World, db: Db, id: Id, person: Id, email: string)
    requires ValidWorld(w) && InsideTx(w, db) && db.view == db.durable && !db.aborted
    ensures var r := LinkAddress(w, db, id, person, email);
            && AddressesAre(if AddsHere(w, db.durable, db.calls, person, email)
                            then WithAddress(db.durable, person, email) else db.durable, r)
            && (r.Ok? ==> AddsHere(w, db.durable, db.calls, person, email))
  {
    LinkAddressStages(w, db, id, person, email);
    if AddsHere(w, db.durable, db.calls, person, email) {
      AddedAddresses(w, db, id, person, email);
    }
  }

  /** The address is added or not, whatever else happens, and it is if the request succeeds. */
  ghost predicate LinkAdds(w: World, t: Tables, call: nat, person: Id, kind: Kind, email: string, r: Result<()>) {
    && AddressesAre(if Adds(w, t, call, person, kind, email) then WithAddress(t, person, email) else t, r)
    && (r.Ok? ==> Adds(w, t, call, person, kind, email))
  }

  predicate PromptRead(w: World, db: Db, id: Id) {
    !w.fails(db.calls) && id in db.durable.prompts
  }

  lemma PromptGot(w: World, db: Db, id: Id)
    requires db.inTx && db.view == db.durable && !db.aborted
    ensures GetAIPrompt(w, db, id).Ok? <==> PromptRead(w, db, id)
    ensures PromptRead(w, db, id) ==> GetAIPrompt(w, db, id) == Ok(db.durable.prompts[id], db.(calls := db.calls + 1))
    ensures GetAIPrompt(w, db, id).db.inTx && GetAIPrompt(w, db, id).db.durable == db.durable
  {
  }

  lemma LinkNoTxAddresses(w: World, db: Db, id: Id, person: Id)
    requires ValidWorld(w) && InsideTx(w, db) && db.view == db.durable && !db.aborted
    ensures LinkAddsInside(w, db.durable, db.calls, id, person, LinkToPersonNoTx(w, db, id, person))
  {
    PromptGot(w, db, id);
    if PromptRead(w, db, id) {
      LinkNamedAddresses(w, db.(calls := db.calls + 1), id, person, db.durable.prompts[id].kind,
                         SuggestionValue(w, db.durable.prompts[id]));
    }
  }

  ghost predicate LinkAddsInside(w: World, t: Tables, call: nat, id: Id, person: Id, r: Result<()>) {
    AddressesAre(AddressedInside(w, t, call, id, person), r) && (r.Ok? ==> AddsInside(w, t, call, id, person))
  }

  lemma LinkNamedAddresses(w: World, db: Db, id: Id, person: Id, kind: Kind, email: string)
    requires ValidWorld(w) && InsideTx(w, db) && db.view == db.durable && !db.aborted
    ensures LinkAdds(w, db.durable, db.calls, person, kind, email, LinkNamed(w, db, id, person, kind, email))
  {
    if Linkable(kind, email) {
      LinkAddressAddresses(w, db, id, person, email);
    }
  }

  lemma FinishAddresses(w: World, t: Tables, r: Result<()>)
    requires AddressesAre(t, r)
    ensures SameAddresses(t, Finish(w, r).db.durable) && (Finish(w, r).Ok? ==> r.Ok?)
  {
    FinishOutcome(w, r);
  }

  lemma LinkedInside(w: World, db: Db, id: Id, person: Id) returns (inside: Result<()>)
    requires ValidWorld(w) && Healthy(w, db) && !w.fails(db.calls)
    ensures LinkToPerson(w, db, id, person) == Finish(w, inside)
    ensures LinkAddsInside(w, db.durable, db.calls + 1, id, person, inside)
  {
    var begun := Begin(w, db);
    LinkNoTxAddresses(w, begun.db, id, person);
    inside := LinkToPersonNoTx(w, begun.db, id, person);
  }

  /** What a link request leaves of the addresses, failed or not. */
  ghost predicate LinkAddressed(w: World, db: Db, id: Id, person: Id, r: Result<()>) {
    SameAddresses(Addressed(w, db, id, person), r.db.durable) && (r.Ok? ==> AddsAddress(w, db, id, person))
  }

  lemma AddressedBegun(w: World, db: Db, id: Id, person: Id)
    requires !w.fails(db.calls)
    ensures Addressed(w, db, id, person) == AddressedInside(w, db.durable, db.calls + 1, id, person)
    ensures AddsAddress(w, db, id, person) <==> AddsInside(w, db.durable, db.calls + 1, id, person)
  {
  }

  lemma FinishedLink(w: World, db: Db, id: Id, person: Id, inside: Result<()>)
    requires !w.fails(db.calls) && LinkAddsInside(w, db.durable, db.calls + 1, id, person, inside)
    ensures LinkAddressed(w, db, id, person, Finish(w, inside))
  {
    AddressedBegun(w, db, id, person);
    FinishAddresses(w, AddressedInside(w, db.durable, db.calls + 1, id, person), inside);
  }

  lemma LinkNotBegun(w: World, db: Db, id: Id, person: Id)
    requires w.fails(db.calls)
    ensures LinkToPerson(w, db, id, person) == Err(db.(calls := db.calls + 1))
    ensures LinkAddressed(w, db, id, person, Err(db.(calls := db.calls + 1)))
  {
  }

  lemma LinkToPersonAddresses(w: World, db: Db, id: Id, person: Id)
    requires ValidWorld(w) && Healthy(w, db)
    ensures LinkAddressed(w, db, id, person, LinkToPerson(w, db, id, person))
  {
    if w.fails(db.calls) {
      LinkNotBegun(w, db, id, person);
    } else {
      var inside := LinkedInside(w, db, id, person);
      FinishedLink(w, db, id, person, inside);
    }
  }

  /** Somebody else answers to the address that is added. */
  predicate SharesAddress(w: World, db: Db, id: Id, person: Id) {
    AddsAddress(w, db, id, person) && !(Answering(db.durable, SuggestionValue(w, db.durable.prompts[id])) <= {person})
  }

  /**
   What the unique indexes leave of that case: the other person's own column is the address, and
   the person linked to has another address in his.
   */
  lemma SharedByColumn(w: World, db: Db, id: Id, person: Id, other: Id)
    requires AddsAddress(w, db, id, person)
    requires other in Answering(db.durable, SuggestionValue(w, db.durable.prompts[id])) && other != person
    ensures Lower(db.durable.people[other].email) == Lower(SuggestionValue(w, db.durable.prompts[id]))
    ensures db.durable.people[person].email != ""
  {
    var t, email := db.durable, SuggestionValue(w, db.durable.prompts[id]);
    assert !HasAddress(t, other, email);
    assert |Lower(t.people[other].email)| == |Lower(email)|;
    assert t.people[person].email == "" ==> ColumnTaken(t, person, email);
  }

  lemma AddressedWhen(w: World, db: Db, id: Id, person: Id)
    ensures Addressed(w, db, id, person) ==
            if AddsAddress(w, db, id, person)
            then WithAddress(db.durable, person, SuggestionValue(w, db.durable.prompts[id])) else db.durable
    ensures AddsAddress(w, db, id, person) ==>
              var email := SuggestionValue(w, db.durable.prompts[id]);
              person in db.durable.people && email != "" && !AddressTaken(db.durable, person, email)
  {
  }

  lemma OneAddressMoreIff(t: Tables, after: Tables, person: Id, email: string)
    requires OnePerson(t) && person in t.people && email != "" && !AddressTaken(t, person, email)
    requires SameAddresses(WithAddress(t, person, email), after)
    ensures OnePerson(after) <==> Answering(t, email) <= {person}
  {
    SameAddressesIff(WithAddress(t, person, email), after);
    AddingAddressIff(t, person, email);
  }

  lemma AddressedIff(w: World, db: Db, id: Id, person: Id, after: Tables)
    requires OnePerson(db.durable) && SameAddresses(Addressed(w, db, id, person), after)
    ensures OnePerson(after) <==> !SharesAddress(w, db, id, person)
  {
    AddressedWhen(w, db, id, person);
    if AddsAddress(w, db, id, person) {
      OneAddressMoreIff(db.durable, after, person, SuggestionValue(w, db.durable.prompts[id]));
    } else {
      SameAddressesIff(db.durable, after);
    }
  }

  /** Linking a suggestion keeps the rule, failed or not, if and only if it adds no address somebody else answers to. */
  lemma LinkKeepsOnePersonIff(w: World, db: Db, id: Id, person: Id)
    requires ValidWorld(w) && Healthy(w, db) && OnePerson(db.durable)
    ensures OnePerson(LinkToPerson(w, db, id, person).db.durable) <==> !SharesAddress(w, db, id, person)
  {
    LinkToPersonAddresses(w, db, id, person);
    AddressedIff(w, db, id, person, LinkToPerson(w, db, id, person).db.durable);
  }

  /** In particular a request that succeeds. */
  lemma LinkedKeepsOnePersonIff(w: World, db: Db, id: Id, person: Id)
    requires ValidWorld(w) && Healthy(w, db) && OnePerson(db.durable)
    requires LinkToPerson(w, db, id, person).Ok?
    ensures id in db.durable.prompts
    ensures OnePerson(LinkToPerson(w, db, id, person).db.durable) <==>
            Answering(db.durable, SuggestionValue(w, db.durable.prompts[id])) <= {person}
  {
    LinkToPersonAddresses(w, db, id, person);
    LinkKeepsOnePersonIff(w, db, id, person);
  }

  // ----- every step, every run -----

  predicate Shares(w: World, db: Db, step: Step) {
    step.LinkPersonStep? && SharesAddress(w, db, step.prompt, step.person)
  }

  /** Every other step keeps the rule. */
  lemma OtherStepsKeepOnePerson(w: World, db: Db, step: Step)
    requires ValidWorld(w) && Healthy(w, db) && !step.LinkPersonStep? && OnePerson(db.durable)
    ensures OnePerson(Apply(w, db, step).db.durable)
  {
    var t, after := db.durable, Apply(w, db, step).db.durable;
    match step
    case Fetched(account, message) =>
      ProcessEffect(w, db, account, message);
      SameAddressesKeep(t, after);
      NobodyNewKeeps(t, after);
    case AcceptStep(prompt) =>
      AcceptEffect(w, db, prompt);
      if step.AcceptStep? && Accept(w, db, prompt).Ok? {
        AcceptedKeepsOnePerson(w, t, after, prompt, t.prompts[prompt], db.next, Accept(w, db, prompt).value);
      } else {
        SameAddressesKeep(t, after);
        NobodyNewKeeps(t, after);
      }
    case _ =>
      OtherStepFrame(w, db, step);
      SameAddressesKeep(t, after);
      NobodyNewKeeps(t, after);
  }

  /** One step, failed or not, keeps the rule if and only if it does not share an address. */
  lemma StepKeepsOnePersonIff(w: World, db: Db, step: Step)
    requires ValidWorld(w) && Healthy(w, db) && OnePerson(db.durable)
    ensures OnePerson(Apply(w, db, step).db.durable) <==> !Shares(w, db, step)
  {
    if step.LinkPersonStep? {
      LinkKeepsOnePersonIff(w, db, step.prompt, step.person);
    } else {
      OtherStepsKeepOnePerson(w, db, step);
    }
  }

  /** The rule holds in every state of the run. */
  ghost predicate AlwaysOnePerson(w: World, db: Db, steps: seq<Step>)
    decreases |steps|
  {
    OnePerson(db.durable) && (steps != [] ==> AlwaysOnePerson(w, Apply(w, db, steps[0]).db, steps[1..]))
  }

  predicate NeverShares(w: World, db: Db, steps: seq<Step>)
    decreases |steps|
  {
    steps != [] ==> !Shares(w, db, steps[0]) && NeverShares(w, Apply(w, db, steps[0]).db, steps[1..])
  }

  /**
   Over every run, with store calls failing anywhere: at most one person answers to an address
   throughout, if and only if no suggestion is ever linked to a person while somebody else
   answers to its address. Suggestions may be reopened and accepted again.
   */
  lemma {:induction false} OnePersonOverRuns(w: World, db: Db, steps: seq<Step>)
    requires ValidWorld(w) && Healthy(w, db) && GoodSteps(steps) && OnePerson(db.durable)
    ensures AlwaysOnePerson(w, db, steps) <==> NeverShares(w, db, steps)
    decreases |steps|
  {
    if steps != [] {
      var next := Apply(w, db, steps[0]).db;
      StepEvolves(w, db, steps[0]);
      StepKeepsOnePersonIff(w, db, steps[0]);
      if OnePerson(next.durable) {
        OnePersonOverRuns(w, next, steps[1..]);
      }
    }
  }

  // ----- an input -----

  const ADA := "a@b.co"
  const BOB := "b@b.co"

  function Named(name: string, email: string): Person {
    Person(name, "", email, "", "", "", None)
  }

  /** Ada and Bob, each with an address in his own column, and an open suggestion about Ada's. */
  function AdaAndBob(): Tables {
    Tables(map[], map[], map[], {}, map["ada" := Named("Ada", ADA), "bob" := Named("Bob", BOB)], {}, map[], {}, {},
           map["prompt" := Prompt(NewContact, None, "email", ADA, "", "", Open, 0)], {}, map[])
  }

  /** The rule holds, and linking the suggestion to the person breaks it. */
  ghost predicate Breaks(w: World, db: Db, id: Id, person: Id) {
    && ValidWorld(w) && Healthy(w, db) && OnePerson(db.durable)
    && !OnePerson(LinkToPerson(w, db, id, person).db.durable)
  }

  lemma AdaAndBobDiffer(t: Tables)
    requires t == AdaAndBob()
    ensures OnePerson(t)
  {
    assert Lower(ADA)[0] == 'a' && Lower(BOB)[0] == 'b';
    forall e, p, q | e != "" && p in Answering(t, e) && q in Answering(t, e)
      ensures p == q
    {
      assert !HasAddress(t, p, e) && !HasAddress(t, q, e);
    }
  }

  lemma AdaIsNamed(w: World, p: Prompt)
    requires p.kind.NewContact? && p.targetType == "email" && p.targetIdentifier == ADA
    ensures SuggestionValue(w, p) == ADA && Linkable(p.kind, ADA)
  {
    assert Trimmed("email") && Lower("email") == "email";
    assert Trimmed(ADA) && Lower(ADA) == ADA;
    assert OccursAt(ADA, "@", 1);
  }

  lemma AdaAndBobAreHealthy(w: World, db: Db)
    requires w == PlainWorld(_ => false) && db == Db(AdaAndBob(), AdaAndBob(), false, false, 0, 0)
    ensures ValidWorld(w) && Healthy(w, db)
  {
    PlainWorldIsValid(_ => false);
    NamedAreFresh(_ => false, AdaAndBob(), {"ada", "bob", "prompt"});
  }

  lemma ColumnIsNotTaken(t: Tables, person: Id, email: string)
    requires t.addresses == {} && person in t.people && t.people[person].email != ""
    ensures !AddressTaken(t, person, email)
  {
  }

  lemma BobGetsAdasAddress(w: World, db: Db, p: Prompt, email: string)
    requires w == PlainWorld(_ => false) && db == Db(AdaAndBob(), AdaAndBob(), false, false, 0, 0)
    requires p == db.durable.prompts["prompt"] && email == ADA
    requires email == SuggestionValue(w, p) && Linkable(p.kind, email) && "ada" in Answering(db.durable, email)
    ensures SharesAddress(w, db, "prompt", "bob")
  {
    ColumnIsNotTaken(db.durable, "bob", email);
    assert AddsHere(w, db.durable, db.calls + 2, "bob", email);
  }

  lemma AdaAnswers(t: Tables)
    requires t == AdaAndBob()
    ensures "ada" in Answering(t, ADA)
  {
  }

  lemma SharingBreaks(w: World, db: Db, id: Id, person: Id)
    requires ValidWorld(w) && Healthy(w, db) && OnePerson(db.durable) && SharesAddress(w, db, id, person)
    ensures Breaks(w, db, id, person)
  {
    LinkKeepsOnePersonIff(w, db, id, person);
  }

  lemma AdaAndBobBreak(w: World, db: Db, p: Prompt)
    requires w == PlainWorld(_ => false) && db == Db(AdaAndBob(), AdaAndBob(), false, false, 0, 0)
    requires p == db.durable.prompts["prompt"]
    ensures Breaks(w, db, "prompt", "bob")
  {
    AdaAndBobAreHealthy(w, db);
    AdaAndBobDiffer(db.durable);
    AdaIsNamed(w, p);
    AdaAnswers(db.durable);
    BobGetsAdasAddress(w, db, p, ADA);
    SharingBreaks(w, db, "prompt", "bob");
  }

  /** So two people can come to answer to one address. */
  lemma SharedAddressExists()
    ensures exists w, db, id, person :: Breaks(w, db, id, person)
  {
    AdaAndBobBreak(PlainWorld(_ => false), Db(AdaAndBob(), AdaAndBob(), false, false, 0, 0), AdaAndBob().prompts["prompt"]);
  }

  // ----- deleting a person -----

  /** Nothing leads to the person any more, and all else is as before. */
  ghost predicate Forgotten(t: Tables, after: Tables, person: Id) {
    && after == t.(people := after.people, links := after.links, addresses := after.addresses, employments := after.employments)
    && person !in after.people && (forall e :: Answering(after, e) == Answering(t, e) - {person})
    && (forall p :: p in t.people && p != person ==> p in after.people && after.people[p] == t.people[p])
    && (forall l :: l in after.links <==> l in t.links && l.entity != PersonEntity(person))
    && (forall e :: e in after.employments <==> e in t.employments && e.0 != person)
  }

  /** A deleted person answers nowhere and is linked and employed nowhere; a deletion that fails changes nothing. */
  lemma DeletedIsForgotten(w: World, db: Db, person: Id)
    requires Idle(db)
    ensures var r := DeletePerson(w, db, person);
            && (r.Ok? <==> !w.fails(db.calls))
            && (r.Ok? ==> Forgotten(db.durable, r.db.durable, person))
            && (r.Err? ==> r.db.durable == db.durable)
  {
    WithoutAnswers(db.durable, person);
  }

  lemma WithoutAnswers(t: Tables, person: Id)
    ensures Forgotten(t, WithoutPerson(t, person), person)
  {
    var after := WithoutPerson(t, person);
    forall e
      ensures Answering(after, e) == Answering(t, e) - {person}
    {
      forall p | p in t.people && p != person
        ensures p in Answering(after, e) <==> p in Answering(t, e)
      {
        assert after.people[p] == t.people[p];
        assert HasAddress(after, p, e) <==> HasAddress(t, p, e);
      }
    }
  }
}
