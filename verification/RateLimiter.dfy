/**
 The gateway's rate limiter for one client key: INCR, EXPIRE on the first hit, refuse above the
 limit. INCR and EXPIRE are separate commands, so other requests run between them, and EXPIRE may
 be lost. Time is a non-decreasing integer. `hits` records the counter values INCR returned.
 */
module RateLimits {
  import opened Common
  import opened Decimal

  datatype Hit = Hit(time: nat, val: nat)

  ghost predicate NoneAfter(hits: seq<Hit>, t: nat) {
    forall i :: 0 <= i < |hits| ==> hits[i].time <= t
  }

  /** Every counter in `hits` began at least a window before `t`. */
  ghost predicate AllExpiredBy(hits: seq<Hit>, window: nat, t: nat) {
    forall i :: 0 <= i < |hits| && hits[i].val == 1 ==> hits[i].time + window <= t
  }

  /** A window that is not empty has passed since every hit. */
  ghost predicate AllBefore(hits: seq<Hit>, window: nat, t: nat) {
    window >= 1 ==> forall i :: 0 <= i < |hits| ==> hits[i].time < t
  }

  ghost predicate Follows(hits: seq<Hit>, h: Hit, window: nat) {
    && NoneAfter(hits, h.time)
    && (h.val == 1 || (hits != [] && h.val == hits[|hits| - 1].val + 1))
    && (h.val == 1 ==> AllExpiredBy(hits, window, h.time) && AllBefore(hits, window, h.time))
  }

  /**
   Counter values count up from 1; a counter starts over no sooner than a window after it began, and
   not at an instant at which the old one was still hit.
   */
  ghost predicate Consistent(hits: seq<Hit>, window: nat) {
    hits == [] || (Consistent(hits[..|hits| - 1], window) && Follows(hits[..|hits| - 1], hits[|hits| - 1], window))
  }

  lemma ConsistentStep(hits: seq<Hit>, h: Hit, window: nat)
    requires Consistent(hits, window) && Follows(hits, h, window)
    ensures Consistent(hits + [h], window)
  {
    assert (hits + [h])[..|hits|] == hits;
  }

  lemma {:induction false} ValuesArePositive(hits: seq<Hit>, window: nat)
    requires Consistent(hits, window)
    ensures forall i :: 0 <= i < |hits| ==> hits[i].val >= 1
  {
    if hits != [] {
      var front := hits[..|hits| - 1];
      ValuesArePositive(front, window);
      assert forall i :: 0 <= i < |front| ==> hits[i] == front[i];
      if front != [] { assert front[|front| - 1].val >= 1; }
    }
  }

  /** Requests let through with time in [from, to). */
  function Admitted(hits: seq<Hit>, from: nat, to: nat, limit: int): nat {
    if hits == [] then 0
    else
      var last := hits[|hits| - 1];
      Admitted(hits[..|hits| - 1], from, to, limit) + (if from <= last.time < to && last.val <= limit then 1 else 0)
  }

  lemma AdmittedStep(hits: seq<Hit>, h: Hit, from: nat, to: nat, limit: int)
    ensures Admitted(hits + [h], from, to, limit)
         == Admitted(hits, from, to, limit) + (if from <= h.time < to && h.val <= limit then 1 else 0)
  {
    assert (hits + [h])[..|hits|] == hits;
  }

  lemma {:induction false} NoneBefore(hits: seq<Hit>, from: nat, to: nat, limit: int)
    requires forall i :: 0 <= i < |hits| ==> hits[i].time < from
    ensures Admitted(hits, from, to, limit) == 0
  {
    if hits != [] { NoneBefore(hits[..|hits| - 1], from, to, limit); }
  }

  ghost predicate StartedSince(hits: seq<Hit>, from: nat) {
    exists i :: 0 <= i < |hits| && hits[i].time >= from && hits[i].val == 1
  }

  ghost function Min(a: int, b: int): int {
    if a < b then a else b
  }

  /** The last hit of `front + [last]`, inside the window. */
  lemma Continues(front: seq<Hit>, last: Hit, window: nat, from: nat)
    requires Follows(front, last, window) && from <= last.time < from + window
    ensures StartedSince(front + [last], from) <==> StartedSince(front, from) || last.val == 1
    ensures last.val == 1 ==> !StartedSince(front, from)
  {
    var hits := front + [last];
    if StartedSince(front, from) {
      var i :| 0 <= i < |front| && front[i].time >= from && front[i].val == 1;
      assert hits[i] == front[i];
    }
    if last.val == 1 { assert hits[|front|].val == 1; }
  }

  /**
   Within a window, the counter that was already running adds at most limit - 1 (its first hit came
   before the window), and one counter that starts inside adds at most limit.
   */
  lemma {:induction false} BoundUpTo(hits: seq<Hit>, window: nat, from: nat, limit: int)
    requires Consistent(hits, window) && limit >= 1 && hits != [] && hits[|hits| - 1].time < from + window
    ensures var n := Admitted(hits, from, from + window, limit);
      var val := hits[|hits| - 1].val;
      val >= 1 && if StartedSince(hits, from) then n <= limit - 1 + Min(limit, val) else n <= Min(limit, val) - 1
  {
    var front, last := hits[..|hits| - 1], hits[|hits| - 1];
    ValuesArePositive(hits, window);
    if last.time < from {
      NoneBefore(hits, from, from + window, limit);
    } else {
      assert hits == front + [last];
      Continues(front, last, window, from);
      if front != [] { BoundUpTo(front, window, from, limit); }
    }
  }

  lemma {:induction false} LaterHitsDoNotCount(hits: seq<Hit>, window: nat, from: nat, limit: int)
    returns (front: seq<Hit>)
    requires Consistent(hits, window)
    ensures Consistent(front, window) && (front != [] ==> front[|front| - 1].time < from + window)
    ensures Admitted(front, from, from + window, limit) == Admitted(hits, from, from + window, limit)
  {
    front := hits;
    if hits != [] && hits[|hits| - 1].time >= from + window {
      front := LaterHitsDoNotCount(hits[..|hits| - 1], window, from, limit);
    }
  }

  /** At one instant either a running counter goes on or a new one starts, so at most limit get through. */
  lemma {:induction false} BoundAtOneInstant(hits: seq<Hit>, from: nat, limit: int)
    requires Consistent(hits, 1) && limit >= 1 && hits != [] && hits[|hits| - 1].time < from + 1
    ensures hits[|hits| - 1].val >= 1 && Admitted(hits, from, from + 1, limit) <= Min(limit, hits[|hits| - 1].val)
  {
    var front, last := hits[..|hits| - 1], hits[|hits| - 1];
    ValuesArePositive(hits, 1);
    if last.time < from {
      NoneBefore(hits, from, from + 1, limit);
    } else if front != [] {
      BoundAtOneInstant(front, from, limit);
      if last.val == 1 {
        assert forall i :: 0 <= i < |front| ==> front[i].time < from;
        NoneBefore(front, from, from + 1, limit);
      }
    }
  }

  lemma {:induction false} NoneInEmptyWindow(hits: seq<Hit>, from: nat, limit: int)
    ensures Admitted(hits, from, from, limit) == 0
  {
    if hits != [] { NoneInEmptyWindow(hits[..|hits| - 1], from, limit); }
  }

  /** The most requests let through within one window. */
  function Most(window: nat, limit: int): int {
    if limit < 1 || window == 0 then 0 else if window == 1 then limit else 2 * limit - 1
  }

  /** In any half-open interval of one window a client is let through at most so often. */
  lemma SlidingWindowBound(hits: seq<Hit>, window: nat, from: nat, limit: int)
    requires Consistent(hits, window)
    ensures Admitted(hits, from, from + window, limit) <= Most(window, limit)
  {
    if limit < 1 {
      ValuesArePositive(hits, window);
      NothingUnderZero(hits, from, from + window, limit);
    } else if window == 0 {
      NoneInEmptyWindow(hits, from, limit);
    } else {
      var front := LaterHitsDoNotCount(hits, window, from, limit);
      if front != [] && window == 1 {
        BoundAtOneInstant(front, from, limit);
      } else if front != [] {
        BoundUpTo(front, window, from, limit);
      }
    }
  }

  lemma {:induction false} NothingUnderZero(hits: seq<Hit>, from: nat, to: nat, limit: int)
    requires limit < 1 && forall i :: 0 <= i < |hits| ==> hits[i].val >= 1
    ensures Admitted(hits, from, to, limit) == 0
  {
    if hits != [] { NothingUnderZero(hits[..|hits| - 1], from, to, limit); }
  }

  /** Hits `i` to `j` are the whole of one counter, or its beginning: only the first drew 1. */
  ghost predicate OneCounter(hits: seq<Hit>, i: nat, j: nat) {
    i < j <= |hits| && hits[i].val == 1 && forall k :: i < k < j ==> hits[k].val != 1
  }

  lemma {:induction false} FollowsAt(hits: seq<Hit>, window: nat, k: nat)
    requires Consistent(hits, window) && k < |hits|
    ensures Follows(hits[..k], hits[k], window)
  {
    if k < |hits| - 1 {
      var front := hits[..|hits| - 1];
      FollowsAt(front, window, k);
      assert front[..k] == hits[..k];
    }
  }

  lemma {:induction false} CounterCountsUp(hits: seq<Hit>, window: nat, i: nat, j: nat, k: nat)
    requires Consistent(hits, window) && OneCounter(hits, i, j) && i <= k < j
    ensures hits[k].val == k - i + 1
  {
    if k > i {
      CounterCountsUp(hits, window, i, j, k - 1);
      FollowsAt(hits, window, k);
    }
  }

  /** A counter lets through exactly the smaller of the limit and the requests it saw. */
  lemma {:induction false} EpochAdmits(hits: seq<Hit>, window: nat, i: nat, j: nat, from: nat, to: nat, limit: nat)
    requires Consistent(hits, window) && OneCounter(hits, i, j)
    requires forall k :: i <= k < j ==> from <= hits[k].time < to
    ensures Admitted(hits[i..j], from, to, limit) == Min(limit, j - i)
  {
    CounterCountsUp(hits, window, i, j, j - 1);
    assert hits[i..j] == hits[i..j - 1] + [hits[j - 1]];
    AdmittedStep(hits[i..j - 1], hits[j - 1], from, to, limit);
    if i < j - 1 {
      EpochAdmits(hits, window, i, j - 1, from, to, limit);
    }
  }

  lemma DrawnStays(before: seq<Hit>, h: Hit, hits: seq<Hit>)
    requires before + [h] <= hits
    ensures before <= hits && |hits| > |before| && hits[|before|] == h
  {
    assert hits[|before|] == (before + [h])[|before|];
  }

  class RateLimiter {
    const limit: int
    const window: nat
    /** No other request of the client is running. */
    const alone: bool
    /** No Redis call fails. */
    const reliable: bool
    var count: nat
    var expiry: Option<nat>
    var clock: nat
    ghost var hits: seq<Hit>

    ghost predicate Valid()
      reads this
    {
      && Consistent(hits, window) && NoneAfter(hits, clock)
      && (count == 0 <==> hits == [])
      && (hits != [] ==> hits[|hits| - 1].val == count)
      && (count == 0 ==> expiry.None?)
      && (expiry.Some? ==> AllExpiredBy(hits, window, expiry.value) && AllBefore(hits, window, expiry.value))
    }

    constructor (limit: int, window: nat, alone: bool, reliable: bool)
      ensures Valid() && hits == [] && this.limit == limit && this.window == window && clock == 0
      ensures this.alone == alone && this.reliable == reliable
    {
      this.limit, this.window, this.alone, this.reliable := limit, window, alone, reliable;
      count, expiry, clock, hits := 0, None, 0, [];
    }

    /** INCR: an expired key counts from 1 again. */
    method Incr(now: nat) returns (val: nat)
      requires Valid() && now >= clock
      modifies this
      ensures Valid() && clock == now && hits == old(hits) + [Hit(now, val)] && val == count
      ensures val == (if old(expiry).Some? && old(expiry).value <= now then 1 else old(count) + 1)
      ensures val > 1 ==> expiry == old(expiry)
      ensures val == 1 ==> expiry.None?
    {
      if expiry.Some? && expiry.value <= now {
        count, expiry := 0, None;
      }
      count := count + 1;
      clock, val := now, count;
      ConsistentStep(hits, Hit(now, val), window);
      hits := hits + [Hit(now, val)];
    }

    /** EXPIRE, on a key that has none yet. */
    method Expire(now: nat)
      requires Valid() && now >= clock && count > 0 && expiry.None?
      modifies this
      ensures Valid() && clock == now && hits == old(hits) && count == old(count) && expiry == Some(now + window)
    {
      expiry, clock := Some(now + window), now;
      assert NoneAfter(hits, now);
    }

    /** Other requests of the client; `mine` says that the pending EXPIRE, if any, is the caller's. */
    method Others(mine: bool)
      requires Valid()
      modifies this
      ensures Valid() && old(hits) <= hits && clock >= old(clock)
      ensures mine && old(count) > 0 && old(expiry).None? ==> count > 0 && expiry.None?
      ensures alone ==> hits == old(hits) && count == old(count) && expiry == old(expiry) && clock == old(clock)
    {
      var n: nat := *;
      if alone { n := 0; }
      while n > 0
        invariant alone ==>
          n == 0 && hits == old(hits) && count == old(count) && expiry == old(expiry) && clock == old(clock)
        invariant Valid() && old(hits) <= hits && clock >= old(clock)
        invariant mine && old(count) > 0 && old(expiry).None? ==> count > 0 && expiry.None?
      {
        var now: nat := *;
        var arm: bool := *;
        if now >= clock {
          if arm && !mine && count > 0 && expiry.None? {
            Expire(now);
          } else {
            var val := Incr(now);
          }
        }
        n := n - 1;
      }
    }

    /**
     The middleware for one request: it is served exactly when the counter value it drew is within the
     limit, or, after a Redis fault, whatever the limit; the INCR may then have taken effect all the
     same. A first hit sets the expiry whoever comes between, unless a call fails. Undisturbed, the
     value counts on from the last request, or from 1 on a new or expired key, and only then the expiry
     is set anew.
     */
    method Handle(now: nat) returns (served: bool, counted: bool)
      requires Valid() && now >= clock
      modifies this
      ensures Valid() && old(hits) <= hits
      ensures !counted ==> served && !reliable && (hits == old(hits) || hits == old(hits) + [Hit(now, count)])
      ensures counted ==> |hits| > |old(hits)| && hits[|old(hits)|].time == now
      ensures counted ==> (served <==> hits[|old(hits)|].val <= limit)
      ensures reliable && hits[|old(hits)|].val == 1 ==> expiry == Some(clock + window)
      ensures alone && reliable ==>
        && hits == old(hits) + [Hit(now, count)] && clock == now
        && count == (if old(expiry).Some? && old(expiry).value <= now then 1 else old(count) + 1)
        && expiry == (if count == 1 then Some(now + window) else old(expiry))
    {
      var fault: bool := *;
      if fault && !reliable {
        var lost: bool := *;
        if lost { var ignored := Incr(now); }
        return true, false;
      }
      var val := Incr(now);
      Others(val == 1);
      if val == 1 {
        var lost: bool := *;
        if reliable || !lost { Expire(clock); }
      }
      DrawnStays(old(hits), Hit(now, val), hits);
      served, counted := val <= limit, true;
    }
  }

  /** `n` more requests on a running counter, all within the limit. */
  method Burst(r: RateLimiter, now: nat, n: nat, ghost from: nat, ghost to: nat)
    requires r.Valid() && r.alone && r.reliable && r.clock <= now && from <= now < to
    requires r.count > 0 && r.count + n <= r.limit && r.expiry.Some? && r.expiry.value > now
    modifies r
    ensures r.Valid() && r.clock <= now && r.count == old(r.count) + n && r.expiry == old(r.expiry)
    ensures Admitted(r.hits, from, to, r.limit) == old(Admitted(r.hits, from, to, r.limit)) + n
  {
    var i := 0;
    while i < n
      invariant 0 <= i <= n && r.Valid() && r.clock <= now && r.count == old(r.count) + i && r.expiry == old(r.expiry)
      invariant Admitted(r.hits, from, to, r.limit) == old(Admitted(r.hits, from, to, r.limit)) + i
    {
      AdmittedStep(r.hits, Hit(now, r.count + 1), from, to, r.limit);
      var served, counted := r.Handle(now);
      i := i + 1;
    }
  }

  /** A counter that starts at 0 and fills up just before it expires. */
  method Fill(limit: nat, window: nat, ghost from: nat, ghost to: nat) returns (r: RateLimiter)
    requires limit >= 1 && window >= 1 && from <= window - 1 < to
    ensures fresh(r) && r.Valid() && r.alone && r.reliable && r.limit == limit && r.window == window
    ensures r.count == limit && r.expiry == Some(window) && r.clock <= window - 1
    ensures Admitted(r.hits, from, to, limit) == if from == 0 then limit else limit - 1
  {
    r := new RateLimiter(limit, window, true, true);
    AdmittedStep([], Hit(0, 1), from, to, limit);
    var served, counted := r.Handle(0);
    assert r.hits == [] + [Hit(0, 1)];
    Burst(r, window - 1, limit - 1, from, to);
  }

  /** The next counter starts as soon as the full one has expired, and fills up at once. */
  method Refill(r: RateLimiter, ghost from: nat, ghost to: nat)
    requires r.Valid() && r.alone && r.reliable && r.limit >= 1 && r.window >= 1
    requires r.expiry == Some(r.window) && r.clock <= r.window && from <= r.window < to
    modifies r
    ensures r.Valid()
    ensures Admitted(r.hits, from, to, r.limit) == old(Admitted(r.hits, from, to, r.limit)) + r.limit
  {
    AdmittedStep(r.hits, Hit(r.window, 1), from, to, r.limit);
    var served, counted := r.Handle(r.window);
    Burst(r, r.window, r.limit - 1, from, to);
  }

  /**
   The bound is sharp: limit - 1 requests just before a counter expires and limit just after, or limit
   at once when a window is a single instant.
   */
  method Saturate(limit: nat, window: nat) returns (r: RateLimiter, ghost from: nat)
    requires limit >= 1
    ensures fresh(r) && r.Valid() && r.limit == limit && r.window == window
    ensures Admitted(r.hits, from, from + window, limit) == Most(window, limit)
  {
    if window == 0 {
      from := 0;
      r := new RateLimiter(limit, window, true, true);
    } else {
      from := window - 1;
      r := Fill(limit, window, from, from + window);
      if window >= 2 {
        Refill(r, from, from + window);
      }
    }
  }
}
