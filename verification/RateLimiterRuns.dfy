/**
 What the rate limiter promises over every sequence of calls: it implements the rule
 "accept while fewer than maxHits accepted hits of the key lie in the window".
 */
module RateLimiterRuns {
  import opened RateLimiter

  /** A sequence of calls with the answers they were given, the newest outermost. */
  datatype Log = Empty | Entry(earlier: Log, key: string, at: int, allowed: bool)

  // ----- what the code does -----

  /** The hits stored for a key after the calls. */
  function Stored(window: int, maxHits: int, log: Log, key: string): seq<int> {
    match log
    case Empty => []
    case Entry(earlier, k, at, _) =>
      var before := Stored(window, maxHits, earlier, key);
      if k == key then Decide(window, maxHits, before, at).1 else before
  }

  /** Every answer is the one the limiter gives in the state it is in. */
  predicate Served(window: int, maxHits: int, log: Log) {
    match log
    case Empty => true
    case Entry(earlier, key, at, allowed) =>
      && Served(window, maxHits, earlier)
      && allowed == Decide(window, maxHits, Stored(window, maxHits, earlier, key), at).0
  }

  // ----- what it should do -----

  /** How many accepted hits of the key lie in the window (from, to]. */
  function InWindow(log: Log, key: string, from: int, to: int): nat {
    match log
    case Empty => 0
    case Entry(earlier, k, at, allowed) =>
      InWindow(earlier, key, from, to) + (if allowed && k == key && from < at <= to then 1 else 0)
  }

  /** The rule, by counting. */
  predicate FollowsRule(window: int, maxHits: int, log: Log) {
    match log
    case Empty => true
    case Entry(earlier, key, at, allowed) =>
      && FollowsRule(window, maxHits, earlier)
      && allowed == (InWindow(earlier, key, at - window, at) < maxHits)
  }

  // ----- the code follows the rule -----

  /** The clock does not run backwards, and has not passed `now`. */
  predicate Chronological(log: Log, now: int) {
    match log
    case Empty => true
    case Entry(earlier, _, at, _) => at <= now && Chronological(earlier, at)
  }

  function AcceptedHits(log: Log, key: string): seq<int> {
    match log
    case Empty => []
    case Entry(earlier, k, at, allowed) =>
      if allowed && k == key then AcceptedHits(earlier, key) + [at] else AcceptedHits(earlier, key)
  }

  lemma KeptOfAppend(hits: seq<int>, x: int, cutoff: int)
    ensures Kept(hits + [x], cutoff) == if x > cutoff then Kept(hits, cutoff) + [x] else Kept(hits, cutoff)
  {
    assert (hits + [x])[..|hits|] == hits;
  }

  /** Forgetting early loses nothing a later cutoff would keep. */
  lemma {:induction false} KeptOfKept(hits: seq<int>, early: int, late: int)
    requires early <= late
    ensures Kept(Kept(hits, early), late) == Kept(hits, late)
    decreases |hits|
  {
    if hits != [] {
      var n := |hits| - 1;
      KeptOfKept(hits[..n], early, late);
      KeptOfAppend(Kept(hits[..n], early), hits[n], late);
    }
  }

  lemma AppendKeepsAgreement(hits: seq<int>, history: seq<int>, x: int, cutoff: int)
    requires Kept(hits, cutoff) == Kept(history, cutoff)
    ensures Kept(hits + [x], cutoff) == Kept(history + [x], cutoff)
  {
    KeptOfAppend(hits, x, cutoff);
    KeptOfAppend(history, x, cutoff);
  }

  /** One decision keeps stored hits and accepted history in agreement. */
  lemma DecideTellsHistory(window: int, maxHits: int, hits: seq<int>, history: seq<int>, now: int, cutoff: int)
    requires now - window <= cutoff && Kept(hits, cutoff) == Kept(history, cutoff)
    ensures var (allowed, next) := Decide(window, maxHits, hits, now);
            Kept(next, cutoff) == Kept(if allowed then history + [now] else history, cutoff)
  {
    KeptOfKept(hits, now - window, cutoff);
    AppendKeepsAgreement(Kept(hits, now - window), history, now, cutoff);
  }

  /** The stored hits of a key tell its recent accepted hits exactly. */
  lemma {:induction false} StoredTellsHistory(window: int, maxHits: int, log: Log, key: string, now: int)
    requires window > 0 && Chronological(log, now) && Served(window, maxHits, log)
    ensures Kept(Stored(window, maxHits, log, key), now - window) == Kept(AcceptedHits(log, key), now - window)
  {
    match log
    case Empty =>
    case Entry(earlier, k, at, allowed) =>
      ChronologicalLater(earlier, at, now);
      StoredTellsHistory(window, maxHits, earlier, key, now);
      if k == key {
        DecideTellsHistory(window, maxHits, Stored(window, maxHits, earlier, key), AcceptedHits(earlier, key),
                           at, now - window);
      }
  }

  lemma ChronologicalLater(log: Log, now: int, later: int)
    requires Chronological(log, now) && now <= later
    ensures Chronological(log, later)
  {
  }

  /** Counting the kept hits is counting the window, as long as nothing lies in the future. */
  lemma {:induction false} KeptCountsWindow(log: Log, key: string, from: int, now: int)
    requires Chronological(log, now)
    ensures |Kept(AcceptedHits(log, key), from)| == InWindow(log, key, from, now)
  {
    match log
    case Empty =>
    case Entry(earlier, k, at, allowed) =>
      ChronologicalLater(earlier, at, now);
      KeptCountsWindow(earlier, key, from, now);
      KeptOfAppend(AcceptedHits(earlier, key), at, from);
  }

  /** For a clock that does not run backwards, the answers are those of the counting rule and no others. */
  lemma {:induction false} LimiterFollowsRule(window: int, maxHits: int, log: Log, now: int)
    requires window > 0 && Chronological(log, now)
    ensures Served(window, maxHits, log) <==> FollowsRule(window, maxHits, log)
  {
    match log
    case Empty =>
    case Entry(earlier, key, at, allowed) =>
      LimiterFollowsRule(window, maxHits, earlier, at);
      if Served(window, maxHits, earlier) {
        StoredTellsHistory(window, maxHits, earlier, key, at);
        KeptCountsWindow(earlier, key, at - window, at);
      }
  }

  // ----- what the rule gives -----

  /** Hits accepted up to now that lie in a window lie in the window that ends now, if that one starts no later. */
  lemma {:induction false} WiderWindow(log: Log, key: string, now: int, from: int, to: int, from': int)
    requires Chronological(log, now) && from' <= from
    ensures InWindow(log, key, from, to) <= InWindow(log, key, from', now)
  {
    match log
    case Empty =>
    case Entry(earlier, _, at, _) =>
      ChronologicalLater(earlier, at, now);
      WiderWindow(earlier, key, now, from, to, from');
  }

  /** No window of this length, wherever it lies, ever holds more than maxHits accepted hits of a key. */
  lemma {:induction false} WindowsNeverOverflow(window: int, maxHits: int, log: Log, now: int, key: string, to: int)
    requires window > 0 && maxHits > 0 && Chronological(log, now) && Served(window, maxHits, log)
    ensures InWindow(log, key, to - window, to) <= maxHits
  {
    match log
    case Empty =>
    case Entry(earlier, k, at, _) =>
      LimiterFollowsRule(window, maxHits, log, now);
      WindowsNeverOverflow(window, maxHits, earlier, at, key, to);
      if to - window < at <= to {
        WiderWindow(earlier, key, at, to - window, to, at - window);
      }
  }

  /** A call is refused exactly when its window is full. */
  lemma RefusedIffFull(window: int, maxHits: int, log: Log)
    requires window > 0 && maxHits > 0 && log.Entry? && Chronological(log, log.at) && Served(window, maxHits, log)
    ensures !log.allowed <==> InWindow(log.earlier, log.key, log.at - window, log.at) == maxHits
  {
    LimiterFollowsRule(window, maxHits, log, log.at);
    WindowsNeverOverflow(window, maxHits, log.earlier, log.at, log.key, log.at);
  }

  // ----- keys do not influence each other -----

  /** The calls with one key, with their answers. */
  function OfKey(log: Log, key: string): Log {
    match log
    case Empty => Empty
    case Entry(earlier, k, at, allowed) =>
      if k == key then Entry(OfKey(earlier, key), k, at, allowed) else OfKey(earlier, key)
  }

  lemma {:induction false} StoredOfOwnCalls(window: int, maxHits: int, log: Log, key: string)
    ensures Stored(window, maxHits, log, key) == Stored(window, maxHits, OfKey(log, key), key)
  {
    match log
    case Empty =>
    case Entry(earlier, _, _, _) => StoredOfOwnCalls(window, maxHits, earlier, key);
  }

  lemma ServedOfKeyStep(window: int, maxHits: int, log: Log, key: string)
    requires log.Entry?
    ensures Served(window, maxHits, OfKey(log, key)) <==>
            && Served(window, maxHits, OfKey(log.earlier, key))
            && (log.key == key ==>
                  log.allowed == Decide(window, maxHits, Stored(window, maxHits, log.earlier, key), log.at).0)
  {
    StoredOfOwnCalls(window, maxHits, log.earlier, key);
  }

  ghost predicate EachKeyServed(window: int, maxHits: int, log: Log) {
    forall key :: Served(window, maxHits, OfKey(log, key))
  }

  lemma {:induction false} KeysAloneServed(window: int, maxHits: int, log: Log, key: string)
    requires Served(window, maxHits, log)
    ensures Served(window, maxHits, OfKey(log, key))
  {
    if log.Entry? {
      KeysAloneServed(window, maxHits, log.earlier, key);
      ServedOfKeyStep(window, maxHits, log, key);
    }
  }

  lemma {:induction false} KeysTogetherServed(window: int, maxHits: int, log: Log)
    requires EachKeyServed(window, maxHits, log)
    ensures Served(window, maxHits, log)
  {
    if log.Entry? {
      forall key ensures Served(window, maxHits, OfKey(log.earlier, key)) {
        ServedOfKeyStep(window, maxHits, log, key);
      }
      KeysTogetherServed(window, maxHits, log.earlier);
      ServedOfKeyStep(window, maxHits, log, log.key);
    }
  }

  /** What a key is told depends on the calls with that key only, for any clock. */
  lemma KeysAreIndependent(window: int, maxHits: int, log: Log)
    ensures Served(window, maxHits, log) <==> EachKeyServed(window, maxHits, log)
  {
    if Served(window, maxHits, log) {
      forall key ensures Served(window, maxHits, OfKey(log, key)) {
        KeysAloneServed(window, maxHits, log, key);
      }
    }
    if EachKeyServed(window, maxHits, log) {
      KeysTogetherServed(window, maxHits, log);
    }
  }
}
