/**
 The shell loader of the frontend: a load of two phases, "who am I" and then the workspaces,
 in which any number of requests may be under way and only the newest may touch the state.
 What runs between two awaits is one step.
 */
module CrmShells {
  import opened Wrappers

  datatype Me = Me(user: nat, organizations: seq<nat>)

  datatype Phase = Loading | Ready | Failed | Unauthorized | NeedsOrganization

  /** What a request waits for: who the user is, or the workspaces of the organization it asked for. */
  datatype Wait = ForMe(override: Option<nat>) | ForWorkspaces(organization: nat)

  /** The state cells, the request counter, the stored organization, and the requests under way. */
  datatype Shell = Shell(
    me: Option<Me>, organizations: seq<nat>, selected: Option<nat>, workspaces: seq<nat>, phase: Phase,
    newest: nat, stored: Option<nat>, pending: map<nat, Wait>)

  const INITIAL := Shell(None, [], None, [], Loading, 0, None, map[])

  /** The wanted organization if the user belongs to it, else his only one. */
  function Choose(organizations: seq<nat>, wanted: Option<nat>): (r: Option<nat>)
    ensures wanted.Some? && wanted.value in organizations ==> r == wanted
    ensures r.Some? ==> r.value in organizations && (r == wanted || |organizations| == 1)
    ensures r.None? ==> |organizations| != 1 && (wanted.Some? ==> wanted.value !in organizations)
  {
    if wanted.Some? && wanted.value in organizations then wanted
    else if |organizations| == 1 then Some(organizations[0])
    else None
  }

  datatype Event =
    | Load(override: Option<nat>)
    | MeArrives(request: nat, data: Me)
    | WorkspacesArrive(request: nat, rows: seq<nat>)
    | Fails(request: nat, sessionError: bool)
    | StoredElsewhere(organization: Option<nat>)
    | Select(organization: Option<nat>)

  /** Promises settle once: an answer is received while its request waits for it. */
  predicate Received(s: Shell, e: Event) {
    match e
    case Load(_) => true
    case MeArrives(request, _) => request in s.pending && s.pending[request].ForMe?
    case WorkspacesArrive(request, _) => request in s.pending && s.pending[request].ForWorkspaces?
    case Fails(request, _) => request in s.pending
    case StoredElsewhere(_) => true
    case Select(_) => true
  }

  function Settled(s: Shell, request: nat): Shell {
    s.(pending := s.pending - {request})
  }

  function OnMe(s: Shell, request: nat, data: Me): Shell
    requires request in s.pending && s.pending[request].ForMe?
  {
    var override := s.pending[request].override;
    if request != s.newest then Settled(s, request)
    else
      var selected := Choose(data.organizations, if override.Some? then override else s.stored);
      var told := s.(me := Some(data), organizations := data.organizations, selected := selected);
      if selected.None? then Settled(told, request).(workspaces := [], phase := NeedsOrganization)
      else told.(stored := selected, pending := s.pending[request := ForWorkspaces(selected.value)])
  }

  function Step(s: Shell, e: Event): Shell {
    if !Received(s, e) then s
    else
      match e
      case Load(override) =>
        s.(newest := s.newest + 1, phase := Loading, pending := s.pending[s.newest + 1 := ForMe(override)])
      case MeArrives(request, data) => OnMe(s, request, data)
      case WorkspacesArrive(request, rows) =>
        if request != s.newest then Settled(s, request)
        else Settled(s, request).(workspaces := rows, phase := Ready)
      case Fails(request, sessionError) =>
        if request != s.newest then Settled(s, request)
        else Settled(s, request).(phase := if sessionError then Unauthorized else Failed)
      case StoredElsewhere(organization) => s.(stored := organization)
      case Select(organization) => s.(selected := organization)
  }

  // ----- the hook as an object -----

  class CrmShell {
    var me: Option<Me>
    var organizations: seq<nat>
    var selected: Option<nat>
    var workspaces: seq<nat>
    var phase: Phase
    var requestIdRef: nat
    var stored: Option<nat>
    var pending: map<nat, Wait>

    function State(): Shell
      reads this
    {
      Shell(me, organizations, selected, workspaces, phase, requestIdRef, stored, pending)
    }

    constructor ()
      ensures State() == INITIAL
    {
      me, organizations, selected, workspaces, phase := None, [], None, [], Loading;
      requestIdRef, stored, pending := 0, None, map[];
    }

    /** The setter that the hook hands out: no load follows. */
    method SetSelectedOrganizationId(organization: Option<nat>)
      modifies this`selected
      ensures State() == Step(old(State()), Select(organization))
    {
      selected := organization;
    }

    /** Up to the first await. */
    method LoadShell(override: Option<nat>)
      modifies this
      ensures State() == Step(old(State()), Load(override))
    {
      var requestId := requestIdRef + 1;
      requestIdRef := requestId;
      phase := Loading;
      pending := pending[requestId := ForMe(override)];
    }

    /** From the first answer to the second await, or to the end. */
    method ResumeWithMe(requestId: nat, meData: Me)
      requires Received(State(), MeArrives(requestId, meData))
      modifies this
      ensures State() == Step(old(State()), MeArrives(requestId, meData))
    {
      var override := pending[requestId].override;
      pending := pending - {requestId};
      if requestId != requestIdRef {
        return;
      }
      var orgs := meData.organizations;
      var selectedOrg := Choose(orgs, if override.Some? then override else stored);
      me := Some(meData);
      organizations := orgs;
      selected := selectedOrg;
      if selectedOrg.None? {
        workspaces := [];
        phase := NeedsOrganization;
        return;
      }
      stored := selectedOrg;
      pending := pending[requestId := ForWorkspaces(selectedOrg.value)];
    }

    method ResumeWithWorkspaces(requestId: nat, workspaceData: seq<nat>)
      requires Received(State(), WorkspacesArrive(requestId, workspaceData))
      modifies this
      ensures State() == Step(old(State()), WorkspacesArrive(requestId, workspaceData))
    {
      pending := pending - {requestId};
      if requestId != requestIdRef {
        return;
      }
      workspaces := workspaceData;
      phase := Ready;
    }

    method ResumeWithError(requestId: nat, sessionError: bool)
      requires Received(State(), Fails(requestId, sessionError))
      modifies this
      ensures State() == Step(old(State()), Fails(requestId, sessionError))
    {
      pending := pending - {requestId};
      if requestId == requestIdRef {
        phase := if sessionError then Unauthorized else Failed;
      }
    }
  }

  // ----- every interleaving -----

  /** What has happened, the latest event outermost. */
  datatype Log = Start | Then(earlier: Log, event: Event)

  function After(log: Log): Shell {
    match log
    case Start => INITIAL
    case Then(earlier, event) => Step(After(earlier), event)
  }

  /** The answer was given while its request was waiting for it. */
  ghost predicate Happened(log: Log, e: Event) {
    match log
    case Start => false
    case Then(earlier, event) => Happened(earlier, e) || (event == e && Received(After(earlier), e))
  }

  ghost predicate PendingSane(s: Shell) {
    forall r :: r in s.pending ==> 0 < r <= s.newest
  }

  /** The user's cells come from this answer. */
  predicate ShowsUser(s: Shell, data: Me) {
    s.me == Some(data) && s.organizations == data.organizations
  }

  /** Somebody used the setter since an organization was last chosen from an answer. */
  predicate Replaced(log: Log) {
    match log
    case Start => false
    case Then(earlier, event) =>
      event.Select? || (Replaced(earlier) && !Chooses(After(earlier), event))
  }

  predicate Chooses(s: Shell, e: Event) {
    e.MeArrives? && Received(s, e) && e.request == s.newest
  }

  /** As long as nobody replaced it, the choice is one of the user's organizations. */
  ghost predicate ChoiceIsOwn(log: Log) {
    var s := After(log);
    !Replaced(log) && s.selected.Some? ==> s.selected.value in s.organizations
  }

  /** Why the newest request may be past its first answer. */
  ghost predicate UserFromNewest(log: Log) {
    var s := After(log);
    exists data :: Happened(log, MeArrives(s.newest, data)) && ShowsUser(s, data)
  }

  ghost predicate WorkspacesFromNewest(log: Log) {
    Happened(log, WorkspacesArrive(After(log).newest, After(log).workspaces))
  }

  ghost predicate NewestFailed(log: Log, sessionError: bool) {
    Happened(log, Fails(After(log).newest, sessionError))
  }

  /** What each phase says about the newest request. */
  ghost predicate Explained(log: Log) {
    var s := After(log);
    && PendingSane(s)
    && (s.phase.Loading? <==> s.newest == 0 || s.newest in s.pending)
    && ChoiceIsOwn(log)
    && (s.newest in s.pending && s.pending[s.newest].ForWorkspaces? ==>
          UserFromNewest(log) && (!Replaced(log) ==> s.selected == Some(s.pending[s.newest].organization)))
    && (s.phase.Ready? ==> UserFromNewest(log) && WorkspacesFromNewest(log) && (!Replaced(log) ==> s.selected.Some?))
    && (s.phase.NeedsOrganization? ==> UserFromNewest(log) && s.workspaces == [] && (!Replaced(log) ==> s.selected.None?))
    && (s.phase.Failed? ==> NewestFailed(log, false))
    && (s.phase.Unauthorized? ==> NewestFailed(log, true))
  }

  lemma UserStays(log: Log, event: Event)
    requires UserFromNewest(log)
    requires var s, t := After(log), Step(After(log), event);
             t.newest == s.newest && t.me == s.me && t.organizations == s.organizations
    ensures UserFromNewest(Then(log, event))
  {
    var data :| Happened(log, MeArrives(After(log).newest, data)) && ShowsUser(After(log), data);
    var t := After(Then(log, event));
    assert Happened(Then(log, event), MeArrives(t.newest, data)) && ShowsUser(t, data);
  }

  lemma OthersExplained(log: Log, event: Event)
    requires Explained(log)
    requires !event.Load?
    requires event.StoredElsewhere? || event.Select? || !Received(After(log), event) || event.request != After(log).newest
    ensures Explained(Then(log, event))
  {
    if UserFromNewest(log) {
      UserStays(log, event);
    }
  }

  lemma NewestExplained(log: Log, event: Event)
    requires Explained(log) && Received(After(log), event)
    requires !event.Load? && !event.StoredElsewhere? && !event.Select? && event.request == After(log).newest
    ensures Explained(Then(log, event))
  {
    match event
    case MeArrives(request, data) =>
      assert Happened(Then(log, event), event);
      assert ShowsUser(Step(After(log), event), data);
    case _ =>
      if UserFromNewest(log) {
        UserStays(log, event);
      }
  }

  /** Every phase is explained by the newest request, whatever was issued, answered or failed, and in whatever order. */
  lemma {:induction false} AlwaysExplained(log: Log)
    ensures Explained(log)
  {
    match log
    case Start =>
    case Then(earlier, event) =>
      AlwaysExplained(earlier);
      if event.Load? {
      } else if event.StoredElsewhere? || event.Select? || !Received(After(earlier), event) || event.request != After(earlier).newest {
        OthersExplained(earlier, event);
      } else {
        NewestExplained(earlier, event);
      }
  }

  /**
   When the shell is ready, the user, his organizations and the workspaces all come from the newest request,
   and so does the choice, unless the setter has replaced it since.
   */
  lemma ReadyShowsNewest(log: Log)
    requires After(log).phase.Ready?
    ensures var s := After(log);
            && Happened(log, WorkspacesArrive(s.newest, s.workspaces))
            && (exists data :: Happened(log, MeArrives(s.newest, data)) && ShowsUser(s, data))
            && (!Replaced(log) ==> s.selected.Some? && s.selected.value in s.organizations)
  {
    AlwaysExplained(log);
  }

  /** The shell is loading exactly while the newest request, or the first one to come, is not settled. */
  lemma LoadingIffUnsettled(log: Log)
    ensures After(log).phase.Loading? <==> After(log).newest == 0 || After(log).newest in After(log).pending
  {
    AlwaysExplained(log);
  }

  // ----- every answer counts -----

  /** How many loads were asked for. */
  function Loads(log: Log): nat {
    match log
    case Start => 0
    case Then(earlier, event) => Loads(earlier) + if event.Load? then 1 else 0
  }

  /** The organization that a load was asked for with, if it was. */
  function LoadedWith(log: Log, request: nat): Option<nat> {
    match log
    case Start => None
    case Then(earlier, event) => if event.Load? && request == Loads(log) then event.override else LoadedWith(earlier, request)
  }

  predicate IsAnswer(e: Event) {
    e.MeArrives? || e.WorkspacesArrive? || e.Fails?
  }

  /** What an answer of the newest request leaves. */
  predicate Answered(s: Shell, e: Event)
    requires IsAnswer(e)
  {
    match e
    case MeArrives(request, data) => ShowsUser(s, data) && (request in s.pending ==> s.pending[request].ForWorkspaces?)
    case WorkspacesArrive(request, rows) => request !in s.pending && s.phase.Ready? && s.workspaces == rows
    case Fails(request, sessionError) =>
      request !in s.pending && s.phase == if sessionError then Unauthorized else Failed
  }

  /** Requests are numbered by their loads, wait with what they were asked for, and are answered by what arrives. */
  ghost predicate Followed(log: Log) {
    var s := After(log);
    && s.newest == Loads(log) && PendingSane(s)
    && (forall r :: r in s.pending && s.pending[r].ForMe? ==> s.pending[r].override == LoadedWith(log, r))
    && (forall e :: IsAnswer(e) && Happened(log, e) ==> e.request <= s.newest && (e.request == s.newest ==> Answered(s, e)))
  }

  lemma FollowedAfter(log: Log, event: Event)
    requires Followed(log)
    ensures Followed(Then(log, event))
  {
    var s, t, now := After(log), After(Then(log, event)), Then(log, event);
    forall e | IsAnswer(e) && Happened(now, e)
      ensures e.request <= t.newest && (e.request == t.newest ==> Answered(t, e))
    {
      if Happened(log, e) {
        assert e.request <= s.newest;
      }
    }
  }

  lemma {:induction false} AlwaysFollowed(log: Log)
    ensures Followed(log)
  {
    match log
    case Start =>
    case Then(earlier, event) =>
      AlwaysFollowed(earlier);
      FollowedAfter(earlier, event);
  }

  /**
   Whatever the newest request was answered is what the shell shows: its user, its workspaces, or its
   failure; and the newest request is the load asked for last.
   */
  lemma AnswersCount(log: Log, e: Event)
    requires IsAnswer(e) && Happened(log, e) && e.request == Loads(log)
    ensures After(log).newest == Loads(log) && Answered(After(log), e)
  {
    AlwaysFollowed(log);
  }

  /** An answer to a request that was overtaken changes nothing. */
  lemma OvertakenIsIgnored(log: Log, e: Event)
    requires IsAnswer(e) && e.request != Loads(log)
    ensures After(Then(log, e)) == After(log).(pending := After(log).pending - {e.request})
            || After(Then(log, e)) == After(log)
  {
    AlwaysFollowed(log);
  }

  /** The organization that the newest request wants: the one it was asked for with, or the stored one. */
  function Wanted(log: Log): Option<nat> {
    if LoadedWith(log, Loads(log)).Some? then LoadedWith(log, Loads(log)) else After(log).stored
  }

  /**
   The answer to the newest request selects the wanted organization if the user belongs to it, otherwise
   his only one, remembers it and asks for its workspaces; without either it asks the user to choose.
   */
  lemma WantedIsSelected(log: Log, data: Me)
    requires Received(After(log), MeArrives(Loads(log), data))
    ensures var s, request := After(Then(log, MeArrives(Loads(log), data))), Loads(log);
            var wanted := Wanted(log);
            if wanted.Some? && wanted.value in data.organizations then
              s.selected == wanted == s.stored && request in s.pending && s.pending[request] == ForWorkspaces(wanted.value)
            else if |data.organizations| == 1 then
              var only := data.organizations[0];
              s.selected == Some(only) == s.stored && request in s.pending && s.pending[request] == ForWorkspaces(only)
            else
              && s.selected.None? && s.stored == After(log).stored && request !in s.pending
              && s.workspaces == [] && s.phase.NeedsOrganization?
  {
    AlwaysFollowed(log);
  }

  /** A load is under way at once, with what it was asked for. */
  lemma LoadIsUnderWay(log: Log, override: Option<nat>)
    ensures var now := Then(log, Load(override));
            && After(now).newest == Loads(log) + 1 && After(now).phase.Loading?
            && Received(After(now), MeArrives(Loads(log) + 1, Me(0, [])))
            && LoadedWith(now, Loads(log) + 1) == override
  {
    AlwaysFollowed(log);
  }
}
