/**
 The transactional outbox: workers lock up to 100 PENDING rows in id order, skipping rows locked by
 others, publish each, mark those whose publish succeeded and commit.

 Only the status column changes: `processed` holds the ids whose committed status is PROCESSED.
 `published` counts successful publishes and `wasted` those whose batch did not commit (history).
 */
module Outbox {
  import opened Common
  import opened Ledger

  type WorkerId = nat

  const BATCH_SIZE := 100

  // ----- ids in ascending order

  predicate Least(ids: set<EventId>, m: EventId) {
    m in ids && forall x :: x in ids ==> m <= x
  }

  lemma {:induction false} LeastExists(ids: set<EventId>) returns (m: EventId)
    requires ids != {}
    ensures Least(ids, m)
  {
    m :| m in ids;
    if ids != {m} {
      var n := LeastExists(ids - {m});
      assert forall x :: x in ids ==> x == m || x in ids - {m};
      m := if m < n then m else n;
    }
  }

  function Min(ids: set<EventId>): (m: EventId)
    requires ids != {}
    ensures Least(ids, m)
  {
    assert exists m :: Least(ids, m) by { var m := LeastExists(ids); }
    var m :| m in ids && Least(ids, m);
    m
  }

  /** ORDER BY id ASC */
  function Sorted(ids: set<EventId>): seq<EventId> {
    if ids == {} then [] else [Min(ids)] + Sorted(ids - {Min(ids)})
  }

  predicate Ascending(s: seq<EventId>) {
    forall i, j :: 0 <= i < j < |s| ==> s[i] < s[j]
  }

  function Elements(s: seq<EventId>): set<EventId> {
    set x | x in s
  }

  ghost predicate Enumerates(s: seq<EventId>, ids: set<EventId>) {
    Ascending(s) && Elements(s) == ids && |s| == |ids|
  }

  lemma PrependLeast(ids: set<EventId>, m: EventId, s: seq<EventId>)
    requires Least(ids, m) && Enumerates(s, ids - {m})
    ensures Enumerates([m] + s, ids)
  {
    forall i | 0 <= i < |s|
      ensures m < s[i]
    {
      assert s[i] in Elements(s);
    }
    assert Elements([m] + s) == {m} + Elements(s);
    assert {m} + (ids - {m}) == ids;
  }

  lemma {:induction false} SortedEnumerates(ids: set<EventId>)
    ensures Enumerates(Sorted(ids), ids)
  {
    if ids != {} {
      var m := Min(ids);
      SortedEnumerates(ids - {m});
      PrependLeast(ids, m, Sorted(ids - {m}));
    }
  }

  lemma {:induction false} AscendingIsUnique(s: seq<EventId>, t: seq<EventId>)
    requires Ascending(s) && Ascending(t) && Elements(s) == Elements(t)
    ensures s == t
  {
    assert forall i :: 0 <= i < |s| ==> s[i] in Elements(t);
    assert forall i :: 0 <= i < |t| ==> t[i] in Elements(s);
    if s != [] && t != [] {
      assert s[0] == t[0];
      assert Elements(s[1..]) == Elements(s) - {s[0]};
      assert Elements(t[1..]) == Elements(t) - {t[0]};
      AscendingIsUnique(s[1..], t[1..]);
    }
  }

  function Take(s: seq<EventId>): seq<EventId> {
    if |s| <= BATCH_SIZE then s else s[..BATCH_SIZE]
  }

  /** SELECT ... WHERE status = 'PENDING' ORDER BY id ASC LIMIT 100 FOR UPDATE SKIP LOCKED */
  function Selection(pending: set<EventId>, locked: set<EventId>): seq<EventId> {
    Take(Sorted(pending - locked))
  }

  lemma SelectionIsAscending(pending: set<EventId>, locked: set<EventId>)
    ensures Ascending(Selection(pending, locked)) && |Selection(pending, locked)| <= BATCH_SIZE
    ensures forall x :: x in Selection(pending, locked) ==> x in pending && x !in locked
  {
    SortedEnumerates(pending - locked);
    forall x | x in Selection(pending, locked)
      ensures x in Elements(Sorted(pending - locked))
    {}
  }

  lemma TakeIsTheFront(all: seq<EventId>, ids: set<EventId>)
    requires Enumerates(all, ids)
    ensures |Take(all)| == if |ids| <= BATCH_SIZE then |ids| else BATCH_SIZE
    ensures forall x, y :: x in ids && x !in Take(all) && y in Take(all) ==> y < x
  {
    forall x, y | x in ids && x !in Take(all) && y in Take(all)
      ensures y < x
    {
      var k := |Take(all)|;
      assert x in Elements(all) && all == Take(all) + all[k..];
      var i :| 0 <= i < |all[k..]| && all[k..][i] == x;
      var j :| 0 <= j < k && Take(all)[j] == y;
      assert all[k + i] == x && all[j] == y;
    }
  }

  /** The limit counts the rows that are not skipped: as many as there are, up to 100, and the oldest. */
  lemma SelectionIsTheOldest(pending: set<EventId>, locked: set<EventId>)
    ensures |Selection(pending, locked)| == if |pending - locked| <= BATCH_SIZE then |pending - locked| else BATCH_SIZE
    ensures forall x, y ::
      x in pending - locked && x !in Selection(pending, locked) && y in Selection(pending, locked) ==> y < x
  {
    SortedEnumerates(pending - locked);
    TakeIsTheFront(Sorted(pending - locked), pending - locked);
  }

  // ----- steps

  datatype Batch = Batch(rows: seq<EventId>, next: nat, sent: seq<EventId>, marked: bool)

  datatype Relay = Relay(
    processed: set<EventId>,
    batches: map<WorkerId, Batch>,
    published: multiset<EventId>,
    wasted: multiset<EventId>)

  const Idle := Relay({}, map[], multiset{}, multiset{})

  datatype Action =
    | Query(w: WorkerId)
    | PublishRow(w: WorkerId, ok: bool, enqueued: bool)
    | Mark(w: WorkerId)
    | CommitBatch(w: WorkerId)
    | Abandon(w: WorkerId)

  function LockedRows(r: Relay): set<EventId> {
    set w, i | w in r.batches && 0 <= i < |r.batches[w].rows| :: r.batches[w].rows[i]
  }

  predicate Enabled(events: set<EventId>, r: Relay, a: Action) {
    match a
    case Query(w) => w !in r.batches && Selection(events - r.processed, LockedRows(r)) != []
    case PublishRow(w, ok, enqueued) =>
      w in r.batches && r.batches[w].next < |r.batches[w].rows| && !r.batches[w].marked && (ok ==> enqueued)
    case Mark(w) =>
      w in r.batches && r.batches[w].next == |r.batches[w].rows| && r.batches[w].sent != [] && !r.batches[w].marked
    case CommitBatch(w) =>
      w in r.batches && r.batches[w].next == |r.batches[w].rows| && (r.batches[w].marked || r.batches[w].sent == [])
    case Abandon(w) => w in r.batches
  }

  function Exec(events: set<EventId>, r: Relay, a: Action): Relay
    requires Enabled(events, r, a)
  {
    match a
    case Query(w) =>
      r.(batches := r.batches[w := Batch(Selection(events - r.processed, LockedRows(r)), 0, [], false)])
    case PublishRow(w, ok, _) =>
      var b := r.batches[w];
      var id := b.rows[b.next];
      if ok then
        r.(batches := r.batches[w := b.(next := b.next + 1, sent := b.sent + [id])],
           published := r.published + multiset{id})
      else r.(batches := r.batches[w := b.(next := b.next + 1)])
    case Mark(w) => r.(batches := r.batches[w := r.batches[w].(marked := true)])
    case CommitBatch(w) =>
      r.(processed := r.processed + Elements(r.batches[w].sent), batches := r.batches - {w})
    case Abandon(w) =>
      r.(wasted := r.wasted + multiset(r.batches[w].sent), batches := r.batches - {w})
  }

  // ----- the invariant

  ghost predicate BatchOk(events: set<EventId>, processed: set<EventId>, b: Batch) {
    && |b.rows| <= BATCH_SIZE && b.next <= |b.rows|
    && Ascending(b.rows) && Ascending(b.sent)
    && (forall x :: x in b.rows ==> x in events && x !in processed)
    && (forall x :: x in b.sent ==> x in b.rows[..b.next])
    && (b.marked ==> b.next == |b.rows|)
  }

  ghost predicate Disjoint(b: Batch, c: Batch) {
    forall x :: x in b.rows ==> x !in c.rows
  }

  ghost predicate InFlight(r: Relay, e: EventId) {
    exists w :: w in r.batches && e in r.batches[w].sent
  }

  ghost predicate BatchesOk(events: set<EventId>, r: Relay) {
    && r.processed <= events
    && (forall w :: w in r.batches ==> BatchOk(events, r.processed, r.batches[w]))
    && (forall v, w :: v in r.batches && w in r.batches && v != w ==> Disjoint(r.batches[v], r.batches[w]))
  }

  /** Every successful publish is accounted for. */
  ghost predicate Accounted(r: Relay, e: EventId) {
    r.published[e] == One(e in r.processed) + One(InFlight(r, e)) + r.wasted[e]
  }

  ghost predicate Inv(events: set<EventId>, r: Relay) {
    BatchesOk(events, r) && forall e: EventId :: Accounted(r, e)
  }

  lemma InvGrows(events: set<EventId>, more: set<EventId>, r: Relay)
    requires Inv(events, r) && events <= more
    ensures Inv(more, r)
  {}

  lemma PublishKeepsBatchOk(events: set<EventId>, processed: set<EventId>, b: Batch, ok: bool)
    requires BatchOk(events, processed, b) && b.next < |b.rows|
    ensures BatchOk(events, processed,
              b.(next := b.next + 1, sent := if ok then b.sent + [b.rows[b.next]] else b.sent, marked := false))
    ensures b.rows[b.next] !in b.sent
  {
    var id := b.rows[b.next];
    assert b.rows[..b.next + 1] == b.rows[..b.next] + [id];
    forall i | 0 <= i < |b.sent|
      ensures b.sent[i] < id
    {
      assert b.sent[i] in b.rows[..b.next];
    }
  }

  lemma BatchesOkStep(events: set<EventId>, r: Relay, a: Action)
    requires BatchesOk(events, r) && Enabled(events, r, a)
    ensures BatchesOk(events, Exec(events, r, a))
  {
    match a
    case Query(w) =>
      SelectionIsAscending(events - r.processed, LockedRows(r));
      forall v, x | v in r.batches && x in r.batches[v].rows
        ensures x in LockedRows(r)
      {}
    case PublishRow(w, ok, _) => PublishKeepsBatchOk(events, r.processed, r.batches[w], ok);
    case Mark(w) =>
    case CommitBatch(w) =>
      var b := r.batches[w];
      forall v, x | v in r.batches && v != w && x in r.batches[v].rows
        ensures x !in b.sent
      {
        assert Disjoint(r.batches[v], b);
      }
    case Abandon(w) =>
  }

  lemma SentOnlyByItsBatch(events: set<EventId>, r: Relay, w: WorkerId, e: EventId)
    requires BatchesOk(events, r) && w in r.batches && e in r.batches[w].rows
    ensures InFlight(r, e) <==> e in r.batches[w].sent
    ensures forall v :: v in r.batches && v != w ==> e !in r.batches[v].sent
  {
    forall v | v in r.batches && v != w
      ensures e !in r.batches[v].sent
    {
      assert Disjoint(r.batches[w], r.batches[v]);
    }
  }

  lemma {:induction false} AscendingCount(s: seq<EventId>, e: EventId)
    requires Ascending(s)
    ensures multiset(s)[e] == One(e in s)
  {
    if s != [] {
      var front, last := s[..|s| - 1], s[|s| - 1];
      AscendingCount(front, e);
      assert s == front + [last];
    }
  }

  lemma FlightsElsewhere(r: Relay, r': Relay, w: WorkerId, e: EventId)
    requires forall v :: v != w ==>
      (v in r.batches <==> v in r'.batches) && (v in r.batches ==> r.batches[v] == r'.batches[v])
    requires (w in r.batches && e in r.batches[w].sent) <==> (w in r'.batches && e in r'.batches[w].sent)
    ensures InFlight(r, e) <==> InFlight(r', e)
  {}

  lemma AccountedStep(events: set<EventId>, r: Relay, a: Action, e: EventId)
    requires Inv(events, r) && Enabled(events, r, a)
    ensures Accounted(Exec(events, r, a), e)
  {
    var r', w := Exec(events, r, a), a.w;
    assert Accounted(r, e);
    if a.Query? || a.Mark? {
      FlightsElsewhere(r, r', w, e);
    } else {
      var b := r.batches[w];
      AscendingCount(b.sent, e);
      if e in b.rows { SentOnlyByItsBatch(events, r, w, e); }
      if a.PublishRow? {
        PublishKeepsBatchOk(events, r.processed, b, a.ok);
        if a.ok && e == b.rows[b.next] {
          assert e in r'.batches[w].sent;
        } else {
          FlightsElsewhere(r, r', w, e);
        }
      } else if e !in b.sent {
        FlightsElsewhere(r, r', w, e);
      }
    }
  }

  lemma InvStep(events: set<EventId>, r: Relay, a: Action)
    requires Inv(events, r) && Enabled(events, r, a)
    ensures Inv(events, Exec(events, r, a))
  {
    BatchesOkStep(events, r, a);
    forall e: EventId
      ensures Accounted(Exec(events, r, a), e)
    {
      AccountedStep(events, r, a, e);
    }
  }

  // ----- what follows

  /**
   A PROCESSED event was published, and its successful publishes number at most one plus those of
   batches that did not commit.
   */
  lemma PublishBound(events: set<EventId>, r: Relay, e: EventId)
    requires Inv(events, r)
    ensures e in r.processed ==> r.published[e] >= 1
    ensures r.published[e] <= 1 + r.wasted[e]
    ensures forall v, w :: v in r.batches && w in r.batches && e in r.batches[v].rows && e in r.batches[w].rows ==>
      v == w
  {
    assert Accounted(r, e);
    if InFlight(r, e) {
      var w :| w in r.batches && e in r.batches[w].sent;
      assert BatchOk(events, r.processed, r.batches[w]);
    }
    forall v, w | v in r.batches && w in r.batches && e in r.batches[v].rows && e in r.batches[w].rows
      ensures v == w
    {
      assert v != w ==> Disjoint(r.batches[v], r.batches[w]);
    }
  }

  // ----- draining without faults

  /** The ids left PENDING after one batch without competitors in which every publish succeeds. */
  function AfterBatch(pending: set<EventId>): set<EventId> {
    pending - Elements(Selection(pending, {}))
  }

  function AfterBatches(pending: set<EventId>, n: nat): set<EventId> {
    if n == 0 then pending else AfterBatches(AfterBatch(pending), n - 1)
  }

  /** What `n` such batches publish, in order. */
  function PublishedBy(pending: set<EventId>, n: nat): seq<EventId> {
    if n == 0 then [] else Selection(pending, {}) + PublishedBy(AfterBatch(pending), n - 1)
  }

  lemma AscendingSplits(s: seq<EventId>, k: nat)
    requires Ascending(s) && k <= |s|
    ensures Ascending(s[k..]) && Elements(s[k..]) == Elements(s) - Elements(s[..k])
  {
    var front, back := s[..k], s[k..];
    assert s == front + back;
    forall i, j | 0 <= i < |front| && 0 <= j < |back|
      ensures front[i] < back[j]
    {
      assert s[i] < s[k + j];
    }
    assert forall x :: x in front ==> x !in back;
  }

  lemma TakeSplits(all: seq<EventId>, ids: set<EventId>, rest: seq<EventId>)
    requires Enumerates(all, ids) && Enumerates(rest, ids - Elements(Take(all)))
    ensures Take(all) + rest == all
  {
    var k := |Take(all)|;
    AscendingSplits(all, k);
    assert Take(all) == all[..k];
    AscendingIsUnique(all[k..], rest);
  }

  lemma BatchSplitsSorted(pending: set<EventId>)
    ensures Selection(pending, {}) + Sorted(AfterBatch(pending)) == Sorted(pending)
    ensures |AfterBatch(pending)| == if |pending| <= BATCH_SIZE then 0 else |pending| - BATCH_SIZE
  {
    assert pending - {} == pending;
    SortedEnumerates(pending);
    SortedEnumerates(AfterBatch(pending));
    TakeSplits(Sorted(pending), pending, Sorted(AfterBatch(pending)));
  }

  lemma {:induction false} DrainCounts(pending: set<EventId>, n: nat)
    ensures |AfterBatches(pending, n)| == if |pending| <= BATCH_SIZE * n then 0 else |pending| - BATCH_SIZE * n
    ensures PublishedBy(pending, n) + Sorted(AfterBatches(pending, n)) == Sorted(pending)
  {
    if n > 0 {
      BatchSplitsSorted(pending);
      var next := AfterBatch(pending);
      DrainCounts(next, n - 1);
      assert PublishedBy(pending, n) + Sorted(AfterBatches(pending, n))
          == Selection(pending, {}) + (PublishedBy(next, n - 1) + Sorted(AfterBatches(next, n - 1)));
    }
  }

  /**
   ceil(n/100) batches, and no fewer, empty a backlog of n; until then each batch shrinks it, and
   every row is published once, in ascending id order.
   */
  lemma Drain(pending: set<EventId>, n: nat)
    ensures AfterBatches(pending, n) == {} <==> n >= (|pending| + BATCH_SIZE - 1) / BATCH_SIZE
    ensures pending != {} ==> |AfterBatch(pending)| < |pending|
    ensures PublishedBy(pending, n) <= Sorted(pending)
    ensures AfterBatches(pending, n) == {} ==> PublishedBy(pending, n) == Sorted(pending)
  {
    DrainCounts(pending, n);
    BatchSplitsSorted(pending);
    assert |AfterBatches(pending, n)| == 0 <==> AfterBatches(pending, n) == {};
  }
}
