/**
 The dashboard's task list: a comparator, a partition into what is due now and what comes later,
 and a pager over the later tasks.
 */
module Dashboard {
  import opened Wrappers

  datatype Priority = Urgent | High | Normal | Low

  /** Times in milliseconds. */
  datatype Task = Task(id: nat, isOpen: bool, priority: Priority, due: Option<int>, created: int)

  /** The clock: today, and the local calendar day that a time falls on. */
  datatype Clock = Clock(today: int, day: int -> int)

  const MAX_SAFE_INTEGER := 9007199254740991

  /** The latest time a valid date can have. */
  const MAX_DATE := 8640000000000000

  predicate ValidDates(t: Task) {
    t.due.Some? ==> t.due.value <= MAX_DATE
  }

  function PriorityRank(p: Priority): nat {
    match p
    case Urgent => 0
    case High => 1
    case Normal => 2
    case Low => 3
  }

  /** Overdue, due today, urgent or high, and the rest. */
  function Rank(c: Clock, t: Task): nat {
    if t.due.Some? && c.day(t.due.value) < c.today then 0
    else if t.due.Some? && c.day(t.due.value) == c.today then 1
    else if t.priority.Urgent? || t.priority.High? then 2
    else 3
  }

  predicate IsNow(c: Clock, t: Task) {
    Rank(c, t) < 3
  }

  function DueTime(t: Task): int {
    t.due.GetOr(MAX_SAFE_INTEGER)
  }

  /** The comparator: negative when `a` comes first. */
  function Compare(c: Clock, a: Task, b: Task): int {
    if Rank(c, a) != Rank(c, b) then Rank(c, a) - Rank(c, b)
    else if PriorityRank(a.priority) != PriorityRank(b.priority) then PriorityRank(a.priority) - PriorityRank(b.priority)
    else if DueTime(a) != DueTime(b) then DueTime(a) - DueTime(b)
    else b.created - a.created
  }

  predicate Before(c: Clock, a: Task, b: Task) {
    Compare(c, a, b) < 0
  }

  /** Neither comes first. */
  predicate Tied(c: Clock, a: Task, b: Task) {
    Compare(c, a, b) == 0
  }

  /** The comparator is a strict weak order: what a sort needs to be well defined. */
  lemma StrictWeakOrder(c: Clock, x: Task, y: Task, z: Task)
    ensures !Before(c, x, x)
    ensures Before(c, x, y) ==> !Before(c, y, x)
    ensures Before(c, x, y) && Before(c, y, z) ==> Before(c, x, z)
    ensures Tied(c, x, y) <==> !Before(c, x, y) && !Before(c, y, x)
    ensures Tied(c, x, y) && Tied(c, y, z) ==> Tied(c, x, z)
  {
  }

  // ----- what the order means -----

  predicate Overdue(c: Clock, t: Task) {
    t.due.Some? && c.day(t.due.value) < c.today
  }

  predicate DueToday(c: Clock, t: Task) {
    t.due.Some? && c.day(t.due.value) == c.today
  }

  predicate Pressing(t: Task) {
    t.priority in {Urgent, High}
  }

  /** Overdue tasks come before those due today, these before the other urgent and high ones, and the rest last. */
  predicate GroupedBefore(c: Clock, a: Task, b: Task) {
    || (Overdue(c, a) && !Overdue(c, b))
    || (!Overdue(c, b) && DueToday(c, a) && !DueToday(c, b))
    || (!Overdue(c, b) && !DueToday(c, b) && Pressing(a) && !Pressing(b))
  }

  predicate MoreUrgent(p: Priority, q: Priority) {
    match p
    case Urgent => q != Urgent
    case High => q in {Normal, Low}
    case Normal => q == Low
    case Low => false
  }

  predicate DueEarlier(a: Option<int>, b: Option<int>) {
    a.Some? && (b.Some? ==> a.value < b.value)
  }

  predicate FirstInGroup(a: Task, b: Task) {
    MoreUrgent(a.priority, b.priority)
    || (a.priority == b.priority && (DueEarlier(a.due, b.due) || (a.due == b.due && a.created > b.created)))
  }

  /**
   What the order means: the better group first, then the better priority, then the earlier date
   with undated tasks last, then the newer task.
   */
  lemma OrderMeans(c: Clock, a: Task, b: Task)
    requires ValidDates(a) && ValidDates(b)
    ensures Before(c, a, b) <==> GroupedBefore(c, a, b) || (!GroupedBefore(c, b, a) && FirstInGroup(a, b))
  {
    RankIsGroup(c, a, b);
    RankIsGroup(c, b, a);
    assert MoreUrgent(a.priority, b.priority) <==> PriorityRank(a.priority) < PriorityRank(b.priority);
  }

  lemma RankIsGroup(c: Clock, a: Task, b: Task)
    ensures GroupedBefore(c, a, b) <==> Rank(c, a) < Rank(c, b)
  {
  }

  // ----- sorting -----

  predicate Sorted(c: Clock, s: seq<Task>) {
    forall i, j :: 0 <= i < j < |s| ==> Compare(c, s[i], s[j]) <= 0
  }

  /** After the tasks that come before it, ahead of those it ties with. */
  function Insert(c: Clock, t: Task, s: seq<Task>): seq<Task> {
    if s == [] || !Before(c, s[0], t) then [t] + s else [s[0]] + Insert(c, t, s[1..])
  }

  /** The stable sort. */
  function Sort(c: Clock, s: seq<Task>): seq<Task> {
    if s == [] then [] else Insert(c, s[0], Sort(c, s[1..]))
  }

  /** Nothing in the list comes before `t`. */
  predicate Heads(c: Clock, t: Task, s: seq<Task>) {
    forall j :: 0 <= j < |s| ==> Compare(c, t, s[j]) <= 0
  }

  lemma SortedCons(c: Clock, t: Task, s: seq<Task>)
    ensures Sorted(c, [t] + s) <==> Heads(c, t, s) && Sorted(c, s)
  {
    if Sorted(c, [t] + s) {
      forall j | 0 <= j < |s| ensures Compare(c, t, s[j]) <= 0 {
        assert Compare(c, ([t] + s)[0], ([t] + s)[j + 1]) <= 0;
      }
      forall i, j | 0 <= i < j < |s| ensures Compare(c, s[i], s[j]) <= 0 {
        assert Compare(c, ([t] + s)[i + 1], ([t] + s)[j + 1]) <= 0;
      }
    }
  }

  lemma HeadsFromHead(c: Clock, t: Task, s: seq<Task>)
    requires s != [] && !Before(c, s[0], t) && Sorted(c, s)
    ensures Heads(c, t, s)
  {
    forall j | 0 <= j < |s| ensures Compare(c, t, s[j]) <= 0 {
      StrictWeakOrder(c, t, s[0], s[j]);
      StrictWeakOrder(c, s[j], t, s[0]);
    }
  }

  lemma {:induction false} HeadsOfInsert(c: Clock, first: Task, t: Task, s: seq<Task>)
    requires Heads(c, first, s) && Compare(c, first, t) <= 0
    ensures Heads(c, first, Insert(c, t, s))
  {
    if s != [] && Before(c, s[0], t) {
      HeadsOfInsert(c, first, t, s[1..]);
    }
  }

  lemma {:induction false} InsertSorts(c: Clock, t: Task, s: seq<Task>)
    requires Sorted(c, s)
    ensures Sorted(c, Insert(c, t, s)) && multiset(Insert(c, t, s)) == multiset(s) + multiset{t}
  {
    if s == [] {
    } else if !Before(c, s[0], t) {
      HeadsFromHead(c, t, s);
      SortedCons(c, t, s);
    } else {
      assert s == [s[0]] + s[1..];
      SortedCons(c, s[0], s[1..]);
      InsertSorts(c, t, s[1..]);
      HeadsOfInsert(c, s[0], t, s[1..]);
      SortedCons(c, s[0], Insert(c, t, s[1..]));
    }
  }

  lemma {:induction false} SortSorts(c: Clock, s: seq<Task>)
    ensures Sorted(c, Sort(c, s)) && multiset(Sort(c, s)) == multiset(s)
  {
    if s != [] {
      SortSorts(c, s[1..]);
      InsertSorts(c, s[0], Sort(c, s[1..]));
      assert s == [s[0]] + s[1..];
    }
  }

  // ----- now and later -----

  function WithKept(t: Task, rest: seq<Task>, keep: Task -> bool): seq<Task> {
    if keep(t) then [t] + rest else rest
  }

  function Filter(s: seq<Task>, keep: Task -> bool): seq<Task> {
    if s == [] then [] else WithKept(s[0], Filter(s[1..], keep), keep)
  }

  function Open(): Task -> bool {
    (t: Task) => t.isOpen
  }

  function Now(c: Clock): Task -> bool {
    (t: Task) => IsNow(c, t)
  }

  function Outside(ids: set<nat>): Task -> bool {
    (t: Task) => t.id !in ids
  }

  function OpenTasks(tasks: seq<Task>): seq<Task> {
    Filter(tasks, Open())
  }

  function NowTasks(c: Clock, sorted: seq<Task>): seq<Task> {
    Filter(sorted, Now(c))
  }

  function Ids(s: seq<Task>): set<nat> {
    set t | t in s :: t.id
  }

  /** The later tasks are those whose id is not among the now tasks. */
  function LaterTasks(c: Clock, sorted: seq<Task>): seq<Task> {
    var nowIds := Ids(NowTasks(c, sorted));
    Filter(sorted, Outside(nowIds))
  }

  lemma {:induction false} FilterAll(s: seq<Task>, keep: Task -> bool)
    requires forall i :: 0 <= i < |s| ==> keep(s[i])
    ensures Filter(s, keep) == s
  {
    if s != [] {
      FilterAll(s[1..], keep);
      assert [s[0]] + s[1..] == s;
    }
  }

  lemma {:induction false} FilterNone(s: seq<Task>, keep: Task -> bool)
    requires forall i :: 0 <= i < |s| ==> !keep(s[i])
    ensures Filter(s, keep) == []
  {
    if s != [] {
      FilterNone(s[1..], keep);
    }
  }

  lemma WithKeptOfConcat(t: Task, a: seq<Task>, b: seq<Task>, keep: Task -> bool)
    ensures WithKept(t, a + b, keep) == WithKept(t, a, keep) + b
  {
    assert [t] + (a + b) == [t] + a + b;
  }

  lemma {:induction false} FilterOfConcat(a: seq<Task>, b: seq<Task>, keep: Task -> bool)
    ensures Filter(a + b, keep) == Filter(a, keep) + Filter(b, keep)
  {
    if a == [] {
      assert a + b == b;
    } else {
      assert (a + b)[0] == a[0] && (a + b)[1..] == a[1..] + b;
      FilterOfConcat(a[1..], b, keep);
      WithKeptOfConcat(a[0], Filter(a[1..], keep), Filter(b, keep), keep);
    }
  }

  lemma {:induction false} FilterMembers(s: seq<Task>, keep: Task -> bool)
    ensures forall t :: t in Filter(s, keep) <==> t in s && keep(t)
  {
    if s != [] {
      FilterMembers(s[1..], keep);
      assert s == [s[0]] + s[1..];
    }
  }

  /** How many tasks of a sorted list are due now. */
  function NowCount(c: Clock, s: seq<Task>): (k: nat)
    ensures k <= |s|
    ensures forall i :: 0 <= i < k ==> IsNow(c, s[i])
    ensures k < |s| ==> !IsNow(c, s[k])
  {
    if s == [] || !IsNow(c, s[0]) then 0 else 1 + NowCount(c, s[1..])
  }

  /** In a sorted list the now tasks come first. */
  lemma NowComesFirst(c: Clock, sorted: seq<Task>)
    requires Sorted(c, sorted)
    ensures forall i :: 0 <= i < |sorted| ==> (IsNow(c, sorted[i]) <==> i < NowCount(c, sorted))
  {
    var k := NowCount(c, sorted);
    forall i | k < i < |sorted| ensures !IsNow(c, sorted[i]) {
      assert Compare(c, sorted[k], sorted[i]) <= 0;
    }
  }

  /** The now tasks are a prefix of the sorted open tasks. */
  lemma NowIsPrefix(c: Clock, sorted: seq<Task>)
    requires Sorted(c, sorted)
    ensures NowTasks(c, sorted) == sorted[..NowCount(c, sorted)]
  {
    var k := NowCount(c, sorted);
    NowComesFirst(c, sorted);
    assert sorted == sorted[..k] + sorted[k..];
    FilterOfConcat(sorted[..k], sorted[k..], Now(c));
    FilterAll(sorted[..k], Now(c));
    FilterNone(sorted[k..], Now(c));
  }

  /** No later task has the id of a task that is due now. */
  predicate NoSharedIds(c: Clock, tasks: seq<Task>) {
    forall i, j :: 0 <= i < |tasks| && 0 <= j < |tasks| && IsNow(c, tasks[i]) && !IsNow(c, tasks[j]) ==>
      tasks[i].id != tasks[j].id
  }

  lemma LaterIsFilteredRest(c: Clock, sorted: seq<Task>)
    requires Sorted(c, sorted)
    ensures var k := NowCount(c, sorted); var nowIds := Ids(sorted[..k]);
            LaterTasks(c, sorted) == Filter(sorted[k..], Outside(nowIds))
  {
    NowIsPrefix(c, sorted);
    var k := NowCount(c, sorted);
    var nowIds := Ids(sorted[..k]);
    var keep := Outside(nowIds);
    assert sorted == sorted[..k] + sorted[k..];
    FilterOfConcat(sorted[..k], sorted[k..], keep);
    forall i | 0 <= i < k ensures !keep(sorted[..k][i]) {
      assert sorted[..k][i] in sorted[..k];
    }
    FilterNone(sorted[..k], keep);
  }

  lemma {:induction false} ShorterFilter(s: seq<Task>, keep: Task -> bool, i: nat)
    requires i < |s| && !keep(s[i])
    ensures |Filter(s, keep)| < |s|
  {
    if i > 0 {
      ShorterFilter(s[1..], keep, i - 1);
    } else {
      FilterLength(s[1..], keep);
    }
  }

  lemma {:induction false} FilterLength(s: seq<Task>, keep: Task -> bool)
    ensures |Filter(s, keep)| <= |s|
  {
    if s != [] {
      FilterLength(s[1..], keep);
    }
  }

  predicate Disjoint(now: seq<Task>, rest: seq<Task>) {
    forall i, j :: 0 <= i < |now| && 0 <= j < |rest| ==> now[i].id != rest[j].id
  }

  lemma RestKeptIff(now: seq<Task>, rest: seq<Task>)
    ensures Disjoint(now, rest) ==> Filter(rest, Outside(Ids(now))) == rest
    ensures !Disjoint(now, rest) ==> |Filter(rest, Outside(Ids(now)))| < |rest|
  {
    var keep := Outside(Ids(now));
    if Disjoint(now, rest) {
      FilterAll(rest, keep);
    } else {
      var i, j :| 0 <= i < |now| && 0 <= j < |rest| && now[i].id == rest[j].id;
      assert now[i] in now;
      ShorterFilter(rest, keep, j);
    }
  }

  lemma DisjointIff(c: Clock, sorted: seq<Task>, k: nat)
    requires k <= |sorted|
    requires forall i :: 0 <= i < |sorted| ==> (IsNow(c, sorted[i]) <==> i < k)
    ensures Disjoint(sorted[..k], sorted[k..]) <==> NoSharedIds(c, sorted)
  {
    if Disjoint(sorted[..k], sorted[k..]) {
      forall i, j | 0 <= i < k <= j < |sorted| ensures sorted[i].id != sorted[j].id {
        assert sorted[..k][i].id != sorted[k..][j - k].id;
      }
    }
    if NoSharedIds(c, sorted) {
      forall i, j | 0 <= i < k && 0 <= j < |sorted[k..]| ensures sorted[..k][i].id != sorted[k..][j].id {
        assert IsNow(c, sorted[i]) && !IsNow(c, sorted[k + j]);
      }
    }
  }

  /** Nothing is lost, and the two groups together are the sorted list, exactly when no id is shared between them. */
  lemma PartitionIff(c: Clock, sorted: seq<Task>)
    requires Sorted(c, sorted)
    ensures NowTasks(c, sorted) + LaterTasks(c, sorted) == sorted <==> NoSharedIds(c, sorted)
    ensures !NoSharedIds(c, sorted) ==> |NowTasks(c, sorted)| + |LaterTasks(c, sorted)| < |sorted|
  {
    var k := NowCount(c, sorted);
    NowComesFirst(c, sorted);
    NowIsPrefix(c, sorted);
    LaterIsFilteredRest(c, sorted);
    DisjointIff(c, sorted, k);
    RestKeptIff(sorted[..k], sorted[k..]);
    SplitIff(sorted, k, LaterTasks(c, sorted));
  }

  lemma SplitIff(s: seq<Task>, k: nat, rest: seq<Task>)
    requires k <= |s| && (rest == s[k..] || |rest| < |s[k..]|)
    ensures s[..k] + rest == s <==> rest == s[k..]
    ensures rest != s[k..] ==> |s[..k]| + |rest| < |s|
  {
    assert s == s[..k] + s[k..];
  }

  /** With unique ids, the two groups are a permutation of the open tasks. */
  lemma NothingIsLost(c: Clock, tasks: seq<Task>)
    requires forall i, j :: 0 <= i < j < |tasks| ==> tasks[i].id != tasks[j].id
    ensures var sorted := Sort(c, OpenTasks(tasks));
            && multiset(NowTasks(c, sorted) + LaterTasks(c, sorted)) == multiset(OpenTasks(tasks))
            && NowTasks(c, sorted) <= sorted
  {
    var sorted := Sort(c, OpenTasks(tasks));
    SortSorts(c, OpenTasks(tasks));
    FilterMembers(tasks, Open());
    forall i, j | 0 <= i < |sorted| && 0 <= j < |sorted| && IsNow(c, sorted[i]) && !IsNow(c, sorted[j])
      ensures sorted[i].id != sorted[j].id
    {
      assert sorted[i] in multiset(sorted) && sorted[j] in multiset(sorted);
      assert sorted[i] in tasks && sorted[j] in tasks && sorted[i] != sorted[j];
    }
    PartitionIff(c, sorted);
    NowIsPrefix(c, sorted);
  }

  /**
   A task is among the now tasks exactly if it is open and due today or earlier, or urgent or high;
   with unique ids, it is among the later ones exactly if it is open and not among the now tasks.
   */
  lemma GroupsMean(c: Clock, tasks: seq<Task>, t: Task)
    ensures var sorted := Sort(c, OpenTasks(tasks));
            && (t in NowTasks(c, sorted) <==>
                  t in tasks && t.isOpen && ((t.due.Some? && c.day(t.due.value) <= c.today) || t.priority in {Urgent, High}))
            && ((forall i, j :: 0 <= i < j < |tasks| ==> tasks[i].id != tasks[j].id) ==>
                  (t in LaterTasks(c, sorted) <==> t in tasks && t.isOpen && t !in NowTasks(c, sorted)))
  {
    var sorted := Sort(c, OpenTasks(tasks));
    SortSorts(c, OpenTasks(tasks));
    FilterMembers(tasks, Open());
    FilterMembers(sorted, Now(c));
    FilterMembers(sorted, Outside(Ids(NowTasks(c, sorted))));
    assert t in sorted <==> t in multiset(sorted);
    assert t in OpenTasks(tasks) <==> t in multiset(OpenTasks(tasks));
    if (forall i, j :: 0 <= i < j < |tasks| ==> tasks[i].id != tasks[j].id) && t in tasks && t.isOpen {
      OthersHaveOtherIds(tasks, NowTasks(c, sorted), sorted, t);
    }
  }

  lemma OthersHaveOtherIds(tasks: seq<Task>, now: seq<Task>, sorted: seq<Task>, t: Task)
    requires forall i, j :: 0 <= i < j < |tasks| ==> tasks[i].id != tasks[j].id
    requires t in tasks && multiset(sorted) == multiset(OpenTasks(tasks)) && forall u :: u in now ==> u in sorted
    ensures t.id in Ids(now) <==> t in now
  {
    FilterMembers(tasks, Open());
    forall u | u in now && u.id == t.id
      ensures u == t
    {
      assert u in multiset(sorted) && u in OpenTasks(tasks) && u in tasks;
    }
  }

  // ----- pages -----

  const TASK_PAGE_SIZE := 7

  /** At least one page, the last one possibly short. */
  function PageCount(later: nat): (n: nat)
    ensures n >= 1 && later <= n * TASK_PAGE_SIZE
    ensures later > 0 ==> (n - 1) * TASK_PAGE_SIZE < later
  {
    if later == 0 then 1 else (later + TASK_PAGE_SIZE - 1) / TASK_PAGE_SIZE
  }

  function Min(a: int, b: int): int {
    if a < b then a else b
  }

  /** The page on display for the page number kept by the component. */
  function CurrentPage(taskPage: nat, later: nat): (r: nat)
    ensures r < PageCount(later)
  {
    Min(taskPage, PageCount(later) - 1)
  }

  /** JavaScript's slice from a page's first task. */
  function Page(later: seq<Task>, page: nat): seq<Task> {
    var from := Min(page * TASK_PAGE_SIZE, |later|);
    later[from..Min(from + TASK_PAGE_SIZE, |later|)]
  }

  function PagesUpTo(later: seq<Task>, n: nat): seq<Task> {
    if n == 0 then [] else PagesUpTo(later, n - 1) + Page(later, n - 1)
  }

  lemma {:induction false} PagesArePrefix(later: seq<Task>, n: nat)
    ensures PagesUpTo(later, n) == later[..Min(n * TASK_PAGE_SIZE, |later|)]
  {
    if n > 0 {
      PagesArePrefix(later, n - 1);
    }
  }

  /** The pages, one after the other, are the later tasks; none is empty unless there is nothing to show. */
  lemma PagesCoverLater(later: seq<Task>, page: nat)
    ensures PagesUpTo(later, PageCount(|later|)) == later
    ensures page < PageCount(|later|) && later != [] ==> 0 < |Page(later, page)| <= TASK_PAGE_SIZE
  {
    PagesArePrefix(later, PageCount(|later|));
    assert later[..|later|] == later;
  }

  // ----- the pager -----

  /** A click on Next: disabled on the last page, otherwise one page on. */
  function Next(taskPage: nat, later: nat): nat {
    Min(PageCount(later) - 1, taskPage + 1)
  }

  function Previous(taskPage: nat): nat {
    if taskPage == 0 then 0 else taskPage - 1
  }

  /** Next always moves the display by one page. */
  lemma NextMoves(taskPage: nat, later: nat)
    requires CurrentPage(taskPage, later) < PageCount(later) - 1
    ensures CurrentPage(Next(taskPage, later), later) == CurrentPage(taskPage, later) + 1
  {
  }

  /** Previous does so exactly when the kept page number has not been left behind by a shrinking list. */
  lemma PreviousMovesIff(taskPage: nat, later: nat)
    requires CurrentPage(taskPage, later) > 0
    ensures CurrentPage(Previous(taskPage), later) == CurrentPage(taskPage, later) - 1 <==> taskPage < PageCount(later)
    ensures taskPage >= PageCount(later) ==> CurrentPage(Previous(taskPage), later) == CurrentPage(taskPage, later)
  {
  }
}
