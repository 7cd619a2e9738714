/**
 The paged list of the frontend: loads may overlap, and only the newest may change what is shown.
 What runs between the call and its await, and after the await, is one step each.
 */
module PagedLists {
  import opened Wrappers

  const PAGE_SIZE := 50

  /** The state cells, the request counter, and the pages that requests under way were made for. */
  datatype Paged<T> = Paged(
    items: seq<T>, page: nat, hasNext: bool, loading: bool, loadError: string, newest: nat, pending: map<nat, nat>)

  function Initial<T>(): Paged<T> {
    Paged([], 0, true, false, "", 0, map[])
  }

  /** An answer carries what the caller's own onLoaded throws, if it throws. */
  datatype Event<T> =
    | Load(enabled: bool, page: nat)
    | Arrives(request: nat, rows: seq<T>, thrown: Option<string>)
    | Fails(request: nat, message: string)
    | SetItems(rows: seq<T>)

  predicate Settles<T>(e: Event<T>) {
    e.Arrives? || e.Fails?
  }

  /** Promises settle once. */
  predicate Received<T>(s: Paged<T>, e: Event<T>) {
    Settles(e) ==> e.request in s.pending
  }

  function Step<T>(s: Paged<T>, e: Event<T>): Paged<T> {
    if !Received(s, e) then s
    else
      match e
      case Load(enabled, page) =>
        if !enabled then s
        else s.(newest := s.newest + 1, loading := true, loadError := "", pending := s.pending[s.newest + 1 := page])
      case Arrives(request, rows, thrown) =>
        var settled := s.(pending := s.pending - {request});
        if request != s.newest then settled
        else settled.(items := rows, page := s.pending[request], hasNext := |rows| == PAGE_SIZE,
                      loadError := thrown.GetOr(s.loadError), loading := false)
      case Fails(request, message) =>
        var settled := s.(pending := s.pending - {request});
        if request != s.newest then settled else settled.(loadError := message, loading := false)
      case SetItems(rows) => s.(items := rows)
  }

  class PagedResource<T> {
    var items: seq<T>
    var page: nat
    var hasNext: bool
    var loading: bool
    var loadError: string
    var requestIdRef: nat
    var pending: map<nat, nat>

    function State(): Paged<T>
      reads this
    {
      Paged(items, page, hasNext, loading, loadError, requestIdRef, pending)
    }

    constructor ()
      ensures State() == Initial()
    {
      items, page, hasNext, loading, loadError, requestIdRef, pending := [], 0, true, false, "", 0, map[];
    }

    /** Up to the await. */
    method Load(enabled: bool, nextPage: nat)
      modifies this
      ensures State() == Step(old(State()), Event.Load(enabled, nextPage))
    {
      if !enabled {
        return;
      }
      var requestId := requestIdRef + 1;
      requestIdRef := requestId;
      pending := pending[requestId := nextPage];
      loading := true;
      loadError := "";
    }

    /** After the await: the try block, the catch block when onLoaded throws, and the finally block. */
    method ResumeWithPage(requestId: nat, rows: seq<T>, thrown: Option<string>)
      requires requestId in pending
      modifies this
      ensures State() == Step(old(State()), Arrives(requestId, rows, thrown))
    {
      var nextPage := pending[requestId];
      pending := pending - {requestId};
      if requestId == requestIdRef {
        items := rows;
        page := nextPage;
        hasNext := |rows| == PAGE_SIZE;
        if thrown.Some? {
          loadError := thrown.value;
        }
      }
      if requestId == requestIdRef {
        loading := false;
      }
    }

    method ResumeWithError(requestId: nat, message: string)
      requires requestId in pending
      modifies this
      ensures State() == Step(old(State()), Fails(requestId, message))
    {
      pending := pending - {requestId};
      if requestId == requestIdRef {
        loadError := message;
      }
      if requestId == requestIdRef {
        loading := false;
      }
    }
  }

  // ----- every interleaving -----

  /** What has happened, the latest event outermost. */
  datatype Log<T> = Start | Then(earlier: Log<T>, event: Event<T>)

  function After<T>(log: Log<T>): Paged<T> {
    match log
    case Start => Initial()
    case Then(earlier, event) => Step(After(earlier), event)
  }

  /** The page a request was made for. */
  function PageOf<T>(log: Log<T>, request: nat): nat {
    match log
    case Start => 0
    case Then(earlier, event) =>
      if event.Load? && event.enabled && request == After(earlier).newest + 1 then event.page else PageOf(earlier, request)
  }

  /** A result that reached the list: the request and its rows. */
  datatype Shown<T> = Shown(request: nat, rows: seq<T>)

  predicate Applies<T>(s: Paged<T>, e: Event<T>) {
    e.Arrives? && Received(s, e) && e.request == s.newest
  }

  /** The results that reached the list, in order. */
  function Applied<T>(log: Log<T>): seq<Shown<T>> {
    match log
    case Start => []
    case Then(earlier, event) =>
      if Applies(After(earlier), event) then Applied(earlier) + [Shown(event.request, event.rows)] else Applied(earlier)
  }

  predicate Increasing<T>(shown: seq<Shown<T>>) {
    forall i, j :: 0 <= i < j < |shown| ==> shown[i].request < shown[j].request
  }

  ghost predicate PendingSane<T>(log: Log<T>) {
    var s := After(log);
    && (forall r :: r in s.pending ==> 0 < r <= s.newest && s.pending[r] == PageOf(log, r))
    && (forall i :: 0 <= i < |Applied(log)| ==> 0 < Applied(log)[i].request <= s.newest && Applied(log)[i].request !in s.pending)
  }

  /** The page and the presence of a next page belong to the result shown last. */
  ghost predicate PageMatches<T>(log: Log<T>) {
    var s, shown := After(log), Applied(log);
    if shown == [] then s.page == 0 && s.hasNext
    else
      var last := shown[|shown| - 1];
      s.page == PageOf(log, last.request) && (s.hasNext <==> |last.rows| == PAGE_SIZE)
  }

  /** The rows are those of the result shown last, unless the owner of the list has replaced them since. */
  function RowsOf<T>(log: Log<T>): seq<T> {
    match log
    case Start => []
    case Then(earlier, event) =>
      if event.SetItems? || Applies(After(earlier), event) then event.rows else RowsOf(earlier)
  }

  lemma SaneAfterLoad<T>(log: Log<T>, event: Event<T>)
    requires PendingSane(log) && event.Load?
    ensures PendingSane(Then(log, event))
  {
  }

  lemma SaneAfterAnswer<T>(log: Log<T>, event: Event<T>)
    requires PendingSane(log) && !event.Load?
    ensures PendingSane(Then(log, event))
  {
  }

  lemma {:induction false} AlwaysSane<T>(log: Log<T>)
    ensures PendingSane(log)
  {
    match log
    case Start =>
    case Then(earlier, event) =>
      AlwaysSane(earlier);
      if event.Load? {
        SaneAfterLoad(earlier, event);
      } else {
        SaneAfterAnswer(earlier, event);
      }
  }

  /** Results reach the list in the order of their requests, each at most once. */
  lemma {:induction false} AppliedIncrease<T>(log: Log<T>)
    ensures Increasing(Applied(log))
  {
    match log
    case Start =>
    case Then(earlier, event) =>
      AppliedIncrease(earlier);
      AlwaysSane(earlier);
  }

  /** The list is loading exactly while the newest request is not settled. */
  lemma {:induction false} LoadingIffUnsettled<T>(log: Log<T>)
    ensures After(log).loading <==> After(log).newest in After(log).pending
  {
    match log
    case Start =>
    case Then(earlier, event) =>
      LoadingIffUnsettled(earlier);
      AlwaysSane(earlier);
  }

  /** The result shown last is the event's. */
  lemma MatchesWhenApplied<T>(log: Log<T>, event: Event<T>)
    requires PendingSane(log) && Applies(After(log), event)
    ensures PageMatches(Then(log, event))
  {
    var shown := Applied(Then(log, event));
    assert shown[|shown| - 1] == Shown(event.request, event.rows);
  }

  /** Nothing is shown. */
  lemma CellsOtherwise<T>(log: Log<T>, event: Event<T>)
    requires !Applies(After(log), event)
    ensures After(Then(log, event)).page == After(log).page && After(Then(log, event)).hasNext == After(log).hasNext
    ensures Applied(Then(log, event)) == Applied(log)
  {
  }

  /** A request that was made keeps its page. */
  lemma PageKept<T>(log: Log<T>, event: Event<T>, request: nat)
    requires request <= After(log).newest
    ensures PageOf(Then(log, event), request) == PageOf(log, request)
  {
  }

  lemma MatchesOtherwise<T>(log: Log<T>, event: Event<T>)
    requires PendingSane(log) && PageMatches(log) && !Applies(After(log), event)
    ensures PageMatches(Then(log, event))
  {
    CellsOtherwise(log, event);
    var shown := Applied(log);
    if shown != [] {
      PageKept(log, event, shown[|shown| - 1].request);
    }
  }

  /** Rows, page and next-page flag never mix two requests. */
  lemma {:induction false} NeverMixed<T>(log: Log<T>)
    ensures PageMatches(log) && After(log).items == RowsOf(log)
  {
    match log
    case Start =>
    case Then(earlier, event) =>
      NeverMixed(earlier);
      AlwaysSane(earlier);
      if Applies(After(earlier), event) {
        MatchesWhenApplied(earlier, event);
      } else {
        MatchesOtherwise(earlier, event);
      }
  }

  /** The answer was given while its request was waiting for it. */
  ghost predicate Happened<T>(log: Log<T>, e: Event<T>) {
    match log
    case Start => false
    case Then(earlier, event) => Happened(earlier, e) || (event == e && Received(After(earlier), e))
  }

  /** A request whose result is the one shown last. */
  predicate ShownLast<T>(log: Log<T>, request: nat) {
    Applied(log) != [] && Applied(log)[|Applied(log)| - 1].request == request
  }

  ghost predicate NewestFailed<T>(log: Log<T>) {
    Happened(log, Fails(After(log).newest, After(log).loadError))
  }

  /** Once nothing is loading, the newest request is what the list shows, or its failure is what the list reports. */
  lemma {:induction false} SettledShowsNewest<T>(log: Log<T>)
    ensures !After(log).loading && After(log).newest > 0 ==> ShownLast(log, After(log).newest) || NewestFailed(log)
  {
    match log
    case Start =>
    case Then(earlier, event) =>
      SettledShowsNewest(earlier);
      LoadingIffUnsettled(earlier);
      AlwaysSane(earlier);
  }

  /** The result of a request arrived, and the caller's onLoaded threw the message. */
  ghost predicate Threw<T>(log: Log<T>, request: nat, message: string) {
    match log
    case Start => false
    case Then(earlier, event) =>
      || Threw(earlier, request, message)
      || (event.Arrives? && event.request == request && event.thrown == Some(message) && Received(After(earlier), event))
  }

  /** An error on display is the newest request's own, and none is on display while loading. */
  lemma {:induction false} ErrorIsNewest<T>(log: Log<T>)
    ensures var s := After(log);
            s.loadError != "" ==> !s.loading && (NewestFailed(log) || Threw(log, s.newest, s.loadError))
  {
    match log
    case Start =>
    case Then(earlier, event) =>
      ErrorIsNewest(earlier);
      LoadingIffUnsettled(earlier);
  }

  // ----- every answer counts -----

  /** How many loads were asked for while the list was enabled. */
  function Loads<T>(log: Log<T>): nat {
    match log
    case Start => 0
    case Then(earlier, event) => Loads(earlier) + if event.Load? && event.enabled then 1 else 0
  }

  /** What an answer of the newest request leaves; rows that are shown may be replaced by the owner of the list only. */
  ghost predicate Answered<T>(log: Log<T>, e: Event<T>)
    requires Settles(e)
  {
    var s := After(log);
    && !s.loading
    && match e
       case Fails(_, message) => s.loadError == message
       case Arrives(request, rows, thrown) =>
         && ShownLast(log, request) && Applied(log)[|Applied(log)| - 1].rows == rows
         && s.loadError == thrown.GetOr("")
       case _ => false
  }

  /** Requests are numbered by their loads, and the newest is answered by what arrives for it. */
  ghost predicate Followed<T(!new)>(log: Log<T>) {
    var s := After(log);
    && s.newest == Loads(log) && (s.newest in s.pending ==> s.loadError == "")
    && (forall e :: Settles(e) && Happened(log, e) ==>
          e.request <= s.newest && e.request !in s.pending && (e.request == s.newest ==> Answered(log, e)))
  }

  lemma AnsweredStays<T>(log: Log<T>, event: Event<T>, e: Event<T>)
    requires Settles(e) && Answered(log, e) && e.request == After(log).newest && e.request !in After(log).pending
    requires After(Then(log, event)).newest == After(log).newest
    ensures Answered(Then(log, event), e)
  {
    CellsOtherwise(log, event);
  }

  lemma AnsweredNow<T>(log: Log<T>, event: Event<T>)
    requires Settles(event) && Received(After(log), event) && event.request == After(log).newest
    requires After(log).loadError == ""
    ensures Answered(Then(log, event), event)
  {
  }

  lemma FollowedAfter<T(!new)>(log: Log<T>, event: Event<T>)
    requires Followed(log) && PendingSane(log)
    ensures Followed(Then(log, event))
  {
    var s, now := After(log), Then(log, event);
    var t := After(now);
    forall e | Settles(e) && Happened(now, e)
      ensures e.request <= t.newest && e.request !in t.pending && (e.request == t.newest ==> Answered(now, e))
    {
      if Happened(log, e) {
        if e.request == t.newest {
          AnsweredStays(log, event, e);
        }
      } else if e.request == t.newest {
        AnsweredNow(log, event);
      }
    }
  }

  lemma {:induction false} AlwaysFollowed<T(!new)>(log: Log<T>)
    ensures Followed(log)
  {
    match log
    case Start =>
    case Then(earlier, event) =>
      AlwaysFollowed(earlier);
      AlwaysSane(earlier);
      FollowedAfter(earlier, event);
  }

  /**
   Whatever the newest request was answered is what the list shows, its rows or its failure, and
   nothing is loading then; and the newest request is the load asked for last.
   */
  lemma AnswersCount<T(!new)>(log: Log<T>, e: Event<T>)
    requires Settles(e) && Happened(log, e) && e.request == Loads(log)
    ensures After(log).newest == Loads(log) && Answered(log, e)
  {
    AlwaysFollowed(log);
  }

  /** An answer to a request that was overtaken changes nothing that is shown. */
  lemma OvertakenIsIgnored<T(!new)>(log: Log<T>, e: Event<T>)
    requires Settles(e) && e.request != Loads(log)
    ensures After(Then(log, e)) == After(log).(pending := After(log).pending - {e.request})
            || After(Then(log, e)) == After(log)
  {
    AlwaysFollowed(log);
  }

  /** A load is under way at once, for its page, and takes an earlier error away; a disabled list loads nothing. */
  lemma LoadIsUnderWay<T(!new)>(log: Log<T>, enabled: bool, page: nat)
    ensures var now := Then(log, Load(enabled, page));
            if enabled then
              && After(now).newest == Loads(log) + 1 && Loads(log) + 1 in After(now).pending
              && PageOf(now, Loads(log) + 1) == page && After(now).loading && After(now).loadError == ""
            else After(now) == After(log)
  {
    AlwaysFollowed(log);
  }
}
