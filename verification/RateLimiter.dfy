/**
 The in-memory rate limiter: hits of each key in a growing slice, compacted in place
 on every call.
 */
module RateLimiter {

  /** The hits later than the cutoff, in order: what the compaction has to leave. */
  function Kept(hits: seq<int>, cutoff: int): seq<int>
    decreases |hits|
  {
    if hits == [] then []
    else if hits[|hits| - 1] > cutoff then Kept(hits[..|hits| - 1], cutoff) + [hits[|hits| - 1]]
    else Kept(hits[..|hits| - 1], cutoff)
  }

  /** The answer and the new hits of one call of an enabled limiter. */
  function Decide(window: int, maxHits: int, hits: seq<int>, now: int): (bool, seq<int>) {
    var kept := Kept(hits, now - window);
    if |kept| >= maxHits then (false, kept) else (true, kept + [now])
  }

  /** A Go slice that starts at the beginning of its backing array. */
  datatype Slice = Slice(backing: array<int>, len: nat)

  /** The range loop over the hits: survivors are moved forward over the slice being read. */
  method Compact(a: array<int>, len: nat, cutoff: int) returns (n: nat)
    requires len <= a.Length
    modifies a
    ensures n <= len && a[..n] == Kept(old(a[..len]), cutoff)
  {
    ghost var hits := a[..len];
    n := 0;
    var i := 0;
    while i < len
      invariant 0 <= n <= i <= len
      invariant a[..n] == Kept(hits[..i], cutoff)
      invariant forall j :: i <= j < len ==> a[j] == hits[j]
    {
      assert hits[..i + 1][..i] == hits[..i];
      if a[i] > cutoff {
        a[n] := a[i];
        n := n + 1;
      }
      i := i + 1;
    }
    assert hits[..len] == hits;
  }

  /** Go's append to the prefix of length `n`: in place while there is capacity, else into a larger copy. */
  method Append(a: array<int>, n: nat, x: int) returns (b: array<int>)
    requires n <= a.Length
    modifies a
    ensures n < b.Length && b[..n + 1] == old(a[..n]) + [x]
    ensures b == a || fresh(b)
  {
    b := a;
    if n == a.Length {
      b := new int[2 * n + 1];
      var i := 0;
      while i < n
        invariant 0 <= i <= n
        invariant b[..i] == a[..i] && a[..] == old(a[..])
      {
        b[i] := a[i];
        i := i + 1;
      }
    }
    b[n] := x;
  }

  /** One decision on a slice: compact, then append if there is room. */
  method Admit(a: array<int>, len: nat, window: int, maxHits: int, now: int)
    returns (allowed: bool, b: array<int>, n: nat)
    requires len <= a.Length
    modifies a
    ensures n <= b.Length && (b == a || fresh(b))
    ensures (allowed, b[..n]) == Decide(window, maxHits, old(a[..len]), now)
  {
    b := a;
    n := Compact(a, len, now - window);
    allowed := n < maxHits;
    if allowed {
      b := Append(a, n, now);
      n := n + 1;
    }
  }

  class MemoryRateLimiter {
    const window: int
    const maxHits: int
    var slices: map<string, Slice>

    /** Slices lie inside their arrays, and no two keys share an array. */
    ghost predicate Valid()
      reads this
    {
      && (forall k :: k in slices ==> slices[k].len <= slices[k].backing.Length)
      && (forall k, l :: k in slices && l in slices && k != l ==> slices[k].backing != slices[l].backing)
    }

    ghost function Arrays(): set<object>
      reads this
    {
      set k | k in slices :: slices[k].backing
    }

    ghost function Hits(key: string): seq<int>
      reads this, Arrays()
      requires Valid()
    {
      if key in slices then slices[key].backing[..slices[key].len] else []
    }

    constructor (window: int, maxHits: int)
      ensures Valid() && this.window == window && this.maxHits == maxHits
      ensures slices == map[]
    {
      this.window, this.maxHits, slices := window, maxHits, map[];
    }

    /**
     Records a hit of the key if the window has room. The kept hits are moved to the front
     of the slice's own array; the new hit is appended in place while the array has room.
     */
    method Allow(key: string, now: int) returns (allowed: bool)
      requires Valid()
      modifies this, Arrays()
      ensures Valid() && fresh(Arrays() - old(Arrays()))
      ensures maxHits <= 0 || window <= 0 ==> allowed && Hits(key) == old(Hits(key))
      ensures maxHits > 0 && window > 0 ==>
                (allowed, Hits(key)) == Decide(window, maxHits, old(Hits(key)), now)
      ensures forall k :: k != key ==> Hits(k) == old(Hits(k))
    {
      if maxHits <= 0 || window <= 0 {
        return true;
      }
      var backing, len;
      if key in slices {
        backing, len := slices[key].backing, slices[key].len;
      } else {
        backing, len := new int[0], 0;
      }
      allowed, backing, len := Admit(backing, len, window, maxHits, now);
      slices := slices[key := Slice(backing, len)];
    }
  }
}
