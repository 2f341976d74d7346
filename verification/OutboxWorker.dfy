/** The outbox worker: one batch per tick, while other actors run between any two calls. */
module OutboxWorkers {
  import opened Common
  import opened Decimal
  import opened Ledger
  import opened MoneyPath
  import opened Servers
  import Outbox
  import Inbox

  predicate Known(events: map<EventId, Event>, ids: seq<EventId>) {
    forall i :: 0 <= i < |ids| ==> ids[i] in events
  }

  ghost function MessageFor(events: map<EventId, Event>, id: EventId): Inbox.Message {
    if id in events then MessageOf(id, events[id]) else Inbox.Message(Print(id), "", Inbox.Malformed)
  }

  /** The messages of these rows, in order. */
  ghost function Messages(events: map<EventId, Event>, ids: seq<EventId>): seq<Inbox.Message> {
    seq(|ids|, i requires 0 <= i < |ids| => MessageFor(events, ids[i]))
  }

  lemma MessagesConcat(events: map<EventId, Event>, first: seq<EventId>, second: seq<EventId>)
    ensures Messages(events, first + second) == Messages(events, first) + Messages(events, second)
  {}

  lemma Regroup(a: seq<Inbox.Message>, b: seq<Inbox.Message>, c: seq<Inbox.Message>)
    ensures a + (b + c) == (a + b) + c
  {}

  /** What the SELECT returns: the first unlocked PENDING rows. */
  function Selected(s: System): seq<EventId> {
    Outbox.Selection(s.bank.db.events.Keys - s.relay.processed, Outbox.LockedRows(s.relay))
  }

  lemma SelectedIsKnown(s: System)
    ensures Known(s.bank.db.events, Selected(s))
    ensures s.relay.batches == map[] ==> Selected(s) == Outbox.Selection(s.bank.db.events.Keys - s.relay.processed, {})
  {
    Outbox.SelectionIsAscending(s.bank.db.events.Keys - s.relay.processed, Outbox.LockedRows(s.relay));
    forall i | 0 <= i < |Selected(s)|
      ensures Selected(s)[i] in s.bank.db.events
    {
      assert Selected(s)[i] in Selected(s);
    }
    if s.relay.batches == map[] { assert Outbox.LockedRows(s.relay) == {}; }
  }

  /** A committed PENDING row that no worker holds. */
  ghost predicate Free(s: System, x: EventId) {
    && x in s.bank.db.events && x !in s.relay.processed
    && forall v :: v in s.relay.batches ==> x !in s.relay.batches[v].rows
  }

  /** The oldest free rows in id order: all of them, or 100 of them and none of the rest is older. */
  ghost predicate OldestFree(s: System, ids: seq<EventId>) {
    && Outbox.Ascending(ids) && |ids| <= Outbox.BATCH_SIZE
    && (forall x :: x in ids ==> Free(s, x))
    && (forall x :: Free(s, x) && x !in ids ==> |ids| == Outbox.BATCH_SIZE && forall y :: y in ids ==> y < x)
  }

  lemma FreeIsNotLocked(s: System, x: EventId)
    ensures Free(s, x) <==> x in s.bank.db.events.Keys - s.relay.processed - Outbox.LockedRows(s.relay)
  {
    forall v | v in s.relay.batches && x in s.relay.batches[v].rows
      ensures x in Outbox.LockedRows(s.relay)
    {}
  }

  lemma SelectedIsOldestFree(s: System)
    ensures OldestFree(s, Selected(s))
  {
    var pending, locked := s.bank.db.events.Keys - s.relay.processed, Outbox.LockedRows(s.relay);
    Outbox.SelectionIsAscending(pending, locked);
    Outbox.SelectionIsTheOldest(pending, locked);
    Outbox.SortedEnumerates(pending - locked);
    forall x
      ensures Free(s, x) <==> x in pending - locked
      ensures x in pending - locked && x !in Selected(s) ==> |Selected(s)| == Outbox.BATCH_SIZE
    {
      FreeIsNotLocked(s, x);
      if |pending - locked| <= Outbox.BATCH_SIZE {
        assert x in Outbox.Elements(Selected(s)) <==> x in pending - locked;
      }
    }
  }

  lemma QueryEffect(s: System, w: Outbox.WorkerId)
    requires Inv(s) && w !in s.relay.batches
    requires Selected(s) != []
    ensures Enabled(s, Relay(Outbox.Query(w)))
    ensures Exec(s, Relay(Outbox.Query(w))) ==
      s.(relay := s.relay.(batches := s.relay.batches[w := Outbox.Batch(Selected(s), 0, [], false)]))
  {}

  /** The batch has a next row to publish, and it is `row`. */
  ghost predicate Current(s: System, w: Outbox.WorkerId, row: OutboxRow) {
    && Inv(s) && w in s.relay.batches && !s.relay.batches[w].marked
    && s.relay.batches[w].next < |s.relay.batches[w].rows| && row.id == RowAt(s, w)
    && row.id in s.bank.db.events && s.bank.db.events[row.id] == row.event
  }

  function Counted(r: Outbox.Relay, w: Outbox.WorkerId, id: EventId, ok: bool): Outbox.Relay
    requires w in r.batches
  {
    r.(batches := r.batches[w := Advanced(r.batches[w], id, ok)],
       published := if ok then r.published + multiset{id} else r.published)
  }

  lemma CountEffect(events: set<EventId>, r: Outbox.Relay, w: Outbox.WorkerId, ok: bool, enqueued: bool)
    requires w in r.batches && !r.batches[w].marked && r.batches[w].next < |r.batches[w].rows| && (ok ==> enqueued)
    ensures Outbox.Enabled(events, r, Outbox.PublishRow(w, ok, enqueued))
    ensures Outbox.Exec(events, r, Outbox.PublishRow(w, ok, enqueued)) ==
      Counted(r, w, r.batches[w].rows[r.batches[w].next], ok)
  {}

  lemma EnqueueEffect(p: Inbox.Post, m: Inbox.Message)
    ensures Inbox.Exec(p, Inbox.Enqueue(m)) == Enqueued(p, m)
  {}

  lemma PublishEffect(s: System, w: Outbox.WorkerId, row: OutboxRow, m: Inbox.Message, ok: bool, enqueued: bool)
    requires Current(s, w, row) && m == MessageOf(row.id, row.event) && (ok ==> enqueued)
    ensures Enabled(s, Relay(Outbox.PublishRow(w, ok, enqueued)))
    ensures Exec(s, Relay(Outbox.PublishRow(w, ok, enqueued))) ==
      System(s.bank, Counted(s.relay, w, row.id, ok), if enqueued then Enqueued(s.post, m) else s.post)
  {
    assert RowAt(s, w) == row.id && s.bank.db.events[RowAt(s, w)] == row.event;
    CountEffect(s.bank.db.events.Keys, s.relay, w, ok, enqueued);
    EnqueueEffect(s.post, m);
  }

  lemma PublishStep(start: System, s: System, w: Outbox.WorkerId, row: OutboxRow, m: Inbox.Message, ok: bool,
    enqueued: bool)
    requires RanOn(start, s) && Current(s, w, row) && m == MessageOf(row.id, row.event) && (ok ==> enqueued)
    ensures RanOn(start,
      System(s.bank, Counted(s.relay, w, row.id, ok), if enqueued then Enqueued(s.post, m) else s.post))
  {
    PublishEffect(s, w, row, m, ok, enqueued);
    OwnStep(start, s, Relay(Outbox.PublishRow(w, ok, enqueued)));
  }

  function Enqueued(p: Inbox.Post, m: Inbox.Message): Inbox.Post {
    p.(copies := p.copies + [m], queued := p.queued + {|p.copies|})
  }

  lemma FinishEffect(s: System, w: Outbox.WorkerId)
    requires Inv(s) && w in s.relay.batches && s.relay.batches[w].next == |s.relay.batches[w].rows|
    ensures var b := s.relay.batches[w];
      && (!b.marked && b.sent != [] ==>
            && Enabled(s, Relay(Outbox.Mark(w)))
            && Exec(s, Relay(Outbox.Mark(w))) ==
              s.(relay := s.relay.(batches := s.relay.batches[w := b.(marked := true)])))
      && (b.marked || b.sent == [] ==>
            && Enabled(s, Relay(Outbox.CommitBatch(w)))
            && Exec(s, Relay(Outbox.CommitBatch(w))) == s.(relay := s.relay.(
                 processed := s.relay.processed + Outbox.Elements(b.sent), batches := s.relay.batches - {w})))
  {}

  lemma AbandonEffect(s: System, w: Outbox.WorkerId)
    requires Inv(s) && w in s.relay.batches
    ensures Enabled(s, Relay(Outbox.Abandon(w)))
    ensures Exec(s, Relay(Outbox.Abandon(w))) == s.(relay := s.relay.(
      wasted := s.relay.wasted + multiset(s.relay.batches[w].sent), batches := s.relay.batches - {w}))
  {}

  /** A row as the worker reads it. */
  datatype OutboxRow = OutboxRow(id: EventId, event: Event)

  /** What a batch did. */
  datatype BatchLog = BatchLog(asked: System, rows: seq<OutboxRow>, ids: seq<EventId>, committed: bool)

  ghost function Ids(rows: seq<OutboxRow>): seq<EventId> {
    seq(|rows|, i requires 0 <= i < |rows| => rows[i].id)
  }

  lemma IdsMore(rows: seq<OutboxRow>, i: nat)
    requires i < |rows|
    ensures Ids(rows[..i]) + [rows[i].id] == Ids(rows[..i + 1])
  {}

  ghost predicate Faithful(events: map<EventId, Event>, rows: seq<OutboxRow>) {
    forall i :: 0 <= i < |rows| ==> rows[i].id in events && events[rows[i].id] == rows[i].event
  }

  /** One publish alone changes only the worker's batch, the publish count and the queue. */
  ghost predicate Published(s: System, t: System, w: Outbox.WorkerId, id: EventId, ok: bool) {
    && t.bank == s.bank && t.relay.processed == s.relay.processed && t.relay.wasted == s.relay.wasted
    && w in t.relay.batches && t.relay.batches == s.relay.batches[w := t.relay.batches[w]]
    && t.relay.published == (if ok then s.relay.published + multiset{id} else s.relay.published)
  }

  /** Each of these was published successfully since `s`. */
  ghost predicate PublishedSince(s: System, t: System, sent: seq<EventId>) {
    forall x :: x in sent ==> t.relay.published[x] > s.relay.published[x]
  }

  lemma SelectedIsUnpublished(s: System, x: EventId)
    requires Inv(s) && x in Selected(s)
    ensures s.relay.published[x] == s.relay.wasted[x]
  {
    Outbox.SelectionIsAscending(s.bank.db.events.Keys - s.relay.processed, Outbox.LockedRows(s.relay));
    assert Outbox.Accounted(s.relay, x);
    forall w | w in s.relay.batches
      ensures x !in s.relay.batches[w].sent
    {
      assert Outbox.BatchOk(s.bank.db.events.Keys, s.relay.processed, s.relay.batches[w]);
      assert x in s.relay.batches[w].rows ==> x in Outbox.LockedRows(s.relay);
    }
  }

  /** Nobody else is running, no call fails and no row is locked. */
  ghost predicate Undisturbed(db: Platform, s: System) {
    db.alone && db.reliable && s.relay.batches == map[]
  }

  ghost predicate EventsKept(s: System, t: System) {
    forall e :: e in s.bank.db.events ==> e in t.bank.db.events && t.bank.db.events[e] == s.bank.db.events[e]
  }

  function Advanced(b: Outbox.Batch, id: EventId, ok: bool): Outbox.Batch {
    b.(next := b.next + 1, sent := if ok then b.sent + [id] else b.sent)
  }

  class OutboxWorker {
    const db: Platform
    const w: Outbox.WorkerId

    constructor (db: Platform, w: Outbox.WorkerId)
      ensures this.db == db && this.w == w
    {
      this.db, this.w := db, w;
    }

    ghost predicate Valid()
      reads db
    {
      Inv(db.View())
    }

    method Become(ghost start: System, relay: Outbox.Relay, post: Inbox.Post, ghost a: Outbox.Action)
      requires RanOn(start, db.View()) && Enabled(db.View(), Relay(a))
      requires Exec(db.View(), Relay(a)) == db.View().(relay := relay, post := post)
      modifies db
      ensures RanOn(start, db.View()) && db.View() == Exec(old(db.View()), Relay(a))
    {
      OwnStep(start, db.View(), Relay(a));
      db.relay, db.post := relay, post;
    }

    /** The locking SELECT takes effect. */
    method LockRows(ghost start: System, ids: seq<EventId>)
      requires RanOn(start, db.View()) && w !in db.relay.batches && ids != [] && ids == Selected(db.View())
      modifies db
      ensures RanOn(start, db.View()) && db.View() == Exec(old(db.View()), Relay(Outbox.Query(w)))
    {
      QueryEffect(db.View(), w);
      Become(start, db.relay.(batches := db.relay.batches[w := Outbox.Batch(ids, 0, [], false)]), db.post,
        Outbox.Query(w));
    }

    /** The batch is locked, or there is nothing to do. */
    ghost predicate Opened(s: System, t: System, rows: seq<OutboxRow>) {
      if rows == [] then t == s
      else
        && Ids(rows) == Selected(s) && Faithful(s.bank.db.events, rows)
        && t == s.(relay := s.relay.(batches := s.relay.batches[w := Outbox.Batch(Ids(rows), 0, [], false)]))
    }

    /** BEGIN and the locking SELECT; the rows are copied out one by one. */
    method QueryOutboxEventsTx() returns (rows: Option<seq<OutboxRow>>, ghost asked: System)
      requires Valid() && w !in db.relay.batches
      modifies db
      ensures RanOn(old(db.View()), asked) && RanOn(asked, db.View()) && w !in asked.relay.batches
      ensures rows.None? ==> db.View() == asked
      ensures rows.Some? ==> Opened(asked, db.View(), rows.value) && OldestFree(asked, Ids(rows.value))
      ensures rows.Some? && rows.value == [] ==> Selected(asked) == []
      ensures db.alone ==> asked == old(db.View())
      ensures db.reliable ==> rows.Some?
    {
      db.Interfere(Worker(w));
      asked := db.View();
      ReachesSelf(asked);
      var fault := db.Fails();
      if fault {
        return None, asked;
      }
      var ids := Outbox.Selection(db.bank.db.events.Keys - db.relay.processed, Outbox.LockedRows(db.relay));
      SelectedIsKnown(asked);
      SelectedIsOldestFree(asked);
      if ids != [] {
        LockRows(asked, ids);
        QueryEffect(asked, w);
      }
      var res := CopyRows(ids);
      rows := Some(res);
    }

    /** rows.Next and rows.Scan until the end. */
    method CopyRows(ids: seq<EventId>) returns (res: seq<OutboxRow>)
      requires Known(db.bank.db.events, ids)
      ensures Ids(res) == ids && Faithful(db.bank.db.events, res)
    {
      res := [];
      var i := 0;
      while i < |ids|
        invariant 0 <= i <= |ids| && |res| == i && Faithful(db.bank.db.events, res)
        invariant forall j :: 0 <= j < i ==> res[j].id == ids[j]
      {
        res := res + [OutboxRow(ids[i], db.bank.db.events[ids[i]])];
        i := i + 1;
      }
    }

    /** The broker call: the message may reach the queue, and success is remembered. */
    method Enqueue(id: EventId, m: Inbox.Message, ok: bool, enqueued: bool)
      requires w in db.relay.batches
      modifies db
      ensures db.bank == old(db.bank) && db.relay == Counted(old(db.relay), w, id, ok)
      ensures db.post == if enqueued then Enqueued(old(db.post), m) else old(db.post)
    {
      var b, p := db.relay.batches[w], db.post;
      db.relay := db.relay.(batches := db.relay.batches[w := b.(next := b.next + 1)]);
      if ok {
        b := db.relay.batches[w];
        db.relay := db.relay.(batches := db.relay.batches[w := b.(sent := b.sent + [id])],
                              published := db.relay.published + multiset{id});
      }
      if enqueued {
        db.post := p.(copies := p.copies + [m], queued := p.queued + {|p.copies|});
      }
    }

    /** An error may come back although the message was enqueued, but success means it was. */
    method Publish(row: OutboxRow) returns (ok: bool)
      requires Current(db.View(), w, row)
      modifies db
      ensures RanOn(old(db.View()), db.View()) && EventsKept(old(db.View()), db.View())
      ensures w in db.relay.batches && db.relay.batches[w] == Advanced(old(db.relay.batches[w]), row.id, ok)
      ensures db.alone ==> Published(old(db.View()), db.View(), w, row.id, ok)
      ensures db.reliable ==> ok
      ensures db.alone && db.reliable ==> db.post.copies == old(db.post.copies) + [MessageOf(row.id, row.event)]
    {
      ghost var start := db.View();
      db.Interfere(Worker(w));
      var fault := db.Fails();
      var enqueued: bool := *;
      if !fault { enqueued := true; }
      ok := !fault;
      var m := MessageOf(row.id, row.event);
      PublishStep(start, db.View(), w, row, m, ok, enqueued);
      Enqueue(row.id, m, ok, enqueued);
    }

    /** What a publishing loop alone has done so far. */
    ghost predicate Sent(s: System, t: System, sent: seq<EventId>) {
      && t.bank == s.bank && t.relay.processed == s.relay.processed && t.relay.wasted == s.relay.wasted
      && w in t.relay.batches && t.relay.batches == s.relay.batches[w := t.relay.batches[w]]
      && t.relay.published == s.relay.published + multiset(sent)
    }

    lemma SentMore(s: System, t: System, u: System, sent: seq<EventId>, id: EventId, ok: bool)
      requires Sent(s, t, sent) && Published(t, u, w, id, ok)
      ensures Sent(s, u, if ok then sent + [id] else sent)
    {}

    /** After `i` rows of the publishing loop. */
    ghost predicate Progress(s: System, t: System, rows: seq<OutboxRow>, i: nat, sent: seq<EventId>) {
      && RanOn(s, t) && i <= |rows| && Faithful(t.bank.db.events, rows)
      && w in t.relay.batches && t.relay.batches[w] == Outbox.Batch(Ids(rows), i, sent, false)
      && (db.alone ==> Sent(s, t, sent))
      && (db.reliable ==> sent == Ids(rows[..i]))
      && (db.alone && db.reliable ==> t.post.copies == s.post.copies + Messages(s.bank.db.events, sent))
    }

    lemma ProgressStep(s: System, t: System, u: System, rows: seq<OutboxRow>, i: nat, sent: seq<EventId>, ok: bool)
      requires Progress(s, t, rows, i, sent) && i < |rows| && RanOn(t, u) && EventsKept(t, u)
      requires w in u.relay.batches && u.relay.batches[w] == Advanced(t.relay.batches[w], rows[i].id, ok)
      requires db.alone ==> Published(t, u, w, rows[i].id, ok)
      requires db.reliable ==> ok
      requires db.alone && db.reliable ==> u.post.copies == t.post.copies + [MessageOf(rows[i].id, rows[i].event)]
      ensures Progress(s, u, rows, i + 1, if ok then sent + [rows[i].id] else sent)
    {
      RanOnTo(s, t, u);
      if db.reliable { IdsMore(rows, i); }
      if db.alone { SentMore(s, t, u, sent, rows[i].id, ok); }
      if db.alone && db.reliable { EnqueuedMore(s, t, u, rows, i, sent); }
    }

    lemma EnqueuedMore(s: System, t: System, u: System, rows: seq<OutboxRow>, i: nat, sent: seq<EventId>)
      requires i < |rows| && t.bank == s.bank && Faithful(t.bank.db.events, rows) && sent == Ids(rows[..i])
      requires t.post.copies == s.post.copies + Messages(s.bank.db.events, sent)
      requires u.post.copies == t.post.copies + [MessageOf(rows[i].id, rows[i].event)]
      ensures u.post.copies == s.post.copies + Messages(s.bank.db.events, sent + [rows[i].id])
    {
      var id := rows[i].id;
      MessagesConcat(s.bank.db.events, sent, [id]);
      assert Messages(s.bank.db.events, [id]) == [MessageFor(s.bank.db.events, id)];
      assert u.post.copies == s.post.copies + (Messages(s.bank.db.events, sent) + [MessageFor(s.bank.db.events, id)]);
    }

    lemma NextIsCurrent(s: System, t: System, rows: seq<OutboxRow>, i: nat, sent: seq<EventId>)
      requires Progress(s, t, rows, i, sent) && i < |rows|
      ensures Current(t, w, rows[i])
    {}

    lemma LoopStarts(s: System, rows: seq<OutboxRow>)
      requires Inv(s) && w in s.relay.batches && s.relay.batches[w] == Outbox.Batch(Ids(rows), 0, [], false)
      requires Faithful(s.bank.db.events, rows)
      ensures Progress(s, s, rows, 0, [])
    {
      ReachesSelf(s);
    }

    /** The publishing loop: a failure skips the row and goes on. */
    method PublishAll(rows: seq<OutboxRow>) returns (processedIds: seq<EventId>)
      requires Valid() && w in db.relay.batches && db.relay.batches[w] == Outbox.Batch(Ids(rows), 0, [], false)
      requires Faithful(db.bank.db.events, rows)
      modifies db
      ensures Progress(old(db.View()), db.View(), rows, |rows|, processedIds)
    {
      ghost var start := db.View();
      processedIds := [];
      var i := 0;
      LoopStarts(start, rows);
      while i < |rows|
        invariant 0 <= i <= |rows| && Progress(start, db.View(), rows, i, processedIds)
      {
        ghost var before := db.View();
        NextIsCurrent(start, before, rows, i, processedIds);
        var ok := Publish(rows[i]);
        ProgressStep(start, before, db.View(), rows, i, processedIds, ok);
        if ok {
          processedIds := processedIds + [rows[i].id];
        }
        i := i + 1;
      }
    }

    method Abandon(ghost start: System)
      requires RanOn(start, db.View()) && w in db.relay.batches
      modifies db
      ensures RanOn(start, db.View())
      ensures db.View() == old(db.View()).(relay := old(db.relay).(
        wasted := old(db.relay.wasted) + multiset(old(db.relay.batches[w].sent)),
        batches := old(db.relay.batches) - {w}))
    {
      AbandonEffect(db.View(), w);
      Become(start,
        db.relay.(wasted := db.relay.wasted + multiset(db.relay.batches[w].sent), batches := db.relay.batches - {w}),
             db.post, Outbox.Abandon(w));
    }

    method Mark(ghost start: System)
      requires RanOn(start, db.View()) && w in db.relay.batches
      requires db.relay.batches[w].next == |db.relay.batches[w].rows|
      requires !db.relay.batches[w].marked && db.relay.batches[w].sent != []
      modifies db
      ensures RanOn(start, db.View())
      ensures db.View() == old(db.View()).(relay := old(db.relay).(
        batches := old(db.relay.batches)[w := old(db.relay.batches[w]).(marked := true)]))
    {
      FinishEffect(db.View(), w);
      Become(start, db.relay.(batches := db.relay.batches[w := db.relay.batches[w].(marked := true)]), db.post,
        Outbox.Mark(w));
    }

    method Commit(ghost start: System)
      requires RanOn(start, db.View()) && w in db.relay.batches
        && db.relay.batches[w].next == |db.relay.batches[w].rows|
      requires db.relay.batches[w].marked || db.relay.batches[w].sent == []
      modifies db
      ensures RanOn(start, db.View())
      ensures db.View() == old(db.View()).(relay := old(db.relay).(
        processed := old(db.relay.processed) + Outbox.Elements(old(db.relay.batches[w].sent)),
        batches := old(db.relay.batches) - {w}))
    {
      FinishEffect(db.View(), w);
      var b := db.relay.batches[w];
      Become(start,
        db.relay.(processed := db.relay.processed + Outbox.Elements(b.sent), batches := db.relay.batches - {w}),
             db.post, Outbox.CommitBatch(w));
    }

    /** What ending the batch alone does. */
    ghost predicate Ended(s: System, t: System, sent: seq<EventId>, committed: bool) {
      && t.bank == s.bank && t.post == s.post && t.relay.published == s.relay.published
      && t.relay.batches == s.relay.batches - {w}
      && t.relay.processed == s.relay.processed + (if committed then Outbox.Elements(sent) else {})
    }

    /** A complete batch with these rows, of which these were published. */
    ghost predicate Complete(s: System, ids: seq<EventId>, sent: seq<EventId>, marked: bool) {
      && Inv(s) && w in s.relay.batches && s.relay.batches[w] == Outbox.Batch(ids, |ids|, sent, marked)
    }

    /**
     Of the rows it had locked the batch published those in `sent`, in id order, and turned exactly
     these PROCESSED, or none.
     */
    ghost predicate Exactly(s: System, ids: seq<EventId>, sent: seq<EventId>, committed: bool) {
      && Outbox.Ascending(sent) && (forall x :: x in sent ==> x in ids && s.relay.published[x] > 0)
      && forall i :: 0 <= i < |ids| ==> (ids[i] in s.relay.processed <==> committed && ids[i] in sent)
    }

    lemma LockedRowsArePending(s: System, ids: seq<EventId>, sent: seq<EventId>, marked: bool)
      requires Complete(s, ids, sent, marked)
      ensures Exactly(s, ids, sent, false)
    {
      assert Outbox.BatchOk(s.bank.db.events.Keys, s.relay.processed, s.relay.batches[w]);
      assert ids[..|ids|] == ids;
      forall i | 0 <= i < |ids| ensures ids[i] !in s.relay.processed { assert ids[i] in ids; }
      forall x | x in sent ensures s.relay.published[x] > 0 {
        assert Outbox.InFlight(s.relay, x) && Outbox.Accounted(s.relay, x);
      }
    }

    lemma AbandonIsExact(s: System, t: System, ids: seq<EventId>, sent: seq<EventId>, marked: bool)
      requires Complete(s, ids, sent, marked)
      requires t.relay.processed == s.relay.processed && t.relay.published == s.relay.published
      ensures Exactly(t, ids, sent, false)
    {
      LockedRowsArePending(s, ids, sent, marked);
    }

    lemma ReportedArePublished(s: System, t: System, u: System, ids: seq<EventId>, sent: seq<EventId>)
      requires Inv(s) && ids == Selected(s) && RanOn(s, t) && Complete(t, ids, sent, false) && RanOn(t, u)
      ensures PublishedSince(s, u, sent)
    {
      TalliesGrowOn(s, t);
      TalliesGrowOn(t, u);
      LockedRowsArePending(t, ids, sent, false);
      forall x | x in sent
        ensures u.relay.published[x] > s.relay.published[x]
      {
        SelectedIsUnpublished(s, x);
        assert Outbox.InFlight(t.relay, x) && Outbox.Accounted(t.relay, x);
      }
    }

    /** UPDATE ... WHERE id = ANY(processedIds); false means the call failed and the batch is over. */
    method MarkEventsAsProcessedTx(ghost ids: seq<EventId>, processedIds: seq<EventId>) returns (ok: bool)
      requires Complete(db.View(), ids, processedIds, false) && processedIds != []
      modifies db
      ensures RanOn(old(db.View()), db.View())
      ensures ok ==> Complete(db.View(), ids, processedIds, true)
      ensures !ok ==> w !in db.relay.batches && Exactly(db.View(), ids, processedIds, false)
      ensures db.alone && ok ==> db.View() == old(db.View()).(relay :=
        old(db.relay).(batches := old(db.relay.batches)[w := Outbox.Batch(ids, |ids|, processedIds, true)]))
      ensures db.alone && !ok ==> Ended(old(db.View()), db.View(), processedIds, false)
      ensures db.reliable ==> ok
    {
      ghost var start := db.View();
      db.Interfere(Worker(w));
      var fault := db.Fails();
      ghost var before := db.View();
      if fault {
        Abandon(start);
        AbandonIsExact(before, db.View(), ids, processedIds, false);
        return false;
      }
      Mark(start);
      ok := true;
    }

    lemma CommitIsExact(s: System, t: System, ids: seq<EventId>, sent: seq<EventId>, marked: bool)
      requires Complete(s, ids, sent, marked) && t.relay.published == s.relay.published
      requires t.relay.processed == s.relay.processed + Outbox.Elements(sent)
      ensures Exactly(t, ids, sent, true)
    {
      LockedRowsArePending(s, ids, sent, marked);
    }

    /** An error may come back although the commit took effect; `committed` says whether it did. */
    method CommitTx(ghost ids: seq<EventId>, processedIds: seq<EventId>, ghost marked: bool) returns (committed: bool)
      requires Complete(db.View(), ids, processedIds, marked) && (marked || processedIds == [])
      modifies db
      ensures RanOn(old(db.View()), db.View()) && w !in db.relay.batches
      ensures Exactly(db.View(), ids, processedIds, committed)
      ensures db.alone ==> Ended(old(db.View()), db.View(), processedIds, committed)
      ensures db.reliable ==> committed
    {
      ghost var start := db.View();
      db.Interfere(Worker(w));
      var fault := db.Fails();
      ghost var before := db.View();
      if fault {
        var lost: bool := *;
        if lost {
          Abandon(start);
          AbandonIsExact(before, db.View(), ids, processedIds, marked);
          return false;
        }
      }
      Commit(start);
      CommitIsExact(before, db.View(), ids, processedIds, marked);
      committed := true;
    }

    lemma EndedAfterMarking(s: System, m: System, t: System, ids: seq<EventId>, sent: seq<EventId>, committed: bool)
      requires w in s.relay.batches && Ended(m, t, sent, committed)
      requires m == s.(relay := s.relay.(batches := s.relay.batches[w := Outbox.Batch(ids, |ids|, sent, true)]))
      ensures Ended(s, t, sent, committed)
    {
      assert m.relay.batches - {w} == s.relay.batches - {w};
    }

    /** The end of the batch: mark what was published, then commit. */
    method Finish(ghost ids: seq<EventId>, processedIds: seq<EventId>) returns (committed: bool)
      requires Complete(db.View(), ids, processedIds, false)
      modifies db
      ensures RanOn(old(db.View()), db.View()) && w !in db.relay.batches
      ensures Exactly(db.View(), ids, processedIds, committed)
      ensures db.alone ==> Ended(old(db.View()), db.View(), processedIds, committed)
      ensures db.reliable ==> committed
    {
      ghost var start := db.View();
      if processedIds == [] {
        committed := CommitTx(ids, processedIds, false);
        return;
      }
      var ok := MarkEventsAsProcessedTx(ids, processedIds);
      if !ok {
        return false;
      }
      ghost var marked := db.View();
      committed := CommitTx(ids, processedIds, true);
      RanOnTo(start, marked, db.View());
      if db.alone { EndedAfterMarking(start, marked, db.View(), ids, processedIds, committed); }
    }

    /** What one batch without competitors and without failures does. */
    ghost predicate Drained(s: System, t: System) {
      var pending := s.bank.db.events.Keys - s.relay.processed;
      var ids := Outbox.Selection(pending, {});
      && t.bank == s.bank && t.relay.batches == map[]
      && t.bank.db.events.Keys - t.relay.processed == Outbox.AfterBatch(pending)
      && t.post.copies == s.post.copies + Messages(s.bank.db.events, ids)
    }

    lemma DrainedIfAlone(s: System, m: System, n: System, t: System, rows: seq<OutboxRow>, sent: seq<EventId>)
      requires Undisturbed(db, s) && Opened(s, m, rows) && rows != []
      requires Progress(m, n, rows, |rows|, sent) && Ended(n, t, sent, true)
      ensures Drained(s, t)
    {
      SelectedIsKnown(s);
      assert rows[..|rows|] == rows;
      var pending := s.bank.db.events.Keys - s.relay.processed;
      assert pending - Outbox.Elements(sent) == s.bank.db.events.Keys - t.relay.processed;
      assert t.relay.batches == map[];
    }

    lemma OnlyPublishedIfAlone(s: System, m: System, n: System, t: System,
                               rows: seq<OutboxRow>, sent: seq<EventId>, committed: bool)
      requires Opened(s, m, rows) && rows != [] && w !in s.relay.batches
      requires Sent(m, n, sent) && Ended(n, t, sent, committed)
      ensures OnlyPublished(s, t, sent, committed)
    {}

    lemma LoopEndsComplete(m: System, n: System, rows: seq<OutboxRow>, sent: seq<EventId>)
      requires Progress(m, n, rows, |rows|, sent)
      ensures RanOn(m, n) && Complete(n, Ids(rows), sent, false)
      ensures db.reliable ==> sent == Ids(rows)
    {
      assert rows[..|rows|] == rows;
    }

    lemma DrainedIfEmpty(s: System)
      requires Undisturbed(db, s) && Selected(s) == []
      ensures Drained(s, s)
    {
      SelectedIsKnown(s);
      var pending := s.bank.db.events.Keys - s.relay.processed;
      assert Outbox.AfterBatch(pending) == pending;
    }

    /**
     A batch from `s` to `t`: the rows it locked are the oldest free ones at the moment `asked` of the
     query, with their committed contents, and it turned PROCESSED exactly those whose publish succeeded,
     or none at all. When no call fails these are all of them, and only an empty selection makes an empty
     batch. Alone it changes nothing else of the outbox.
     */
    ghost predicate Batched(s: System, asked: System, t: System,
                            rows: seq<OutboxRow>, processedIds: seq<EventId>, committed: bool) {
      && RanOn(s, asked) && RanOn(asked, t)
      && (rows == [] ==> processedIds == [] && !committed && t == asked)
      && (rows != [] ==> Ids(rows) == Selected(asked) && Faithful(asked.bank.db.events, rows))
      && (rows != [] || db.reliable ==> OldestFree(asked, Ids(rows)))
      && Exactly(t, Ids(rows), processedIds, committed) && PublishedSince(asked, t, processedIds)
      && (db.reliable ==> (rows == [] <==> Selected(asked) == []))
      && (db.reliable && rows != [] ==> committed && processedIds == Ids(rows))
      && (db.alone ==> asked == s && OnlyPublished(s, t, processedIds, committed))
      && (Undisturbed(db, s) ==> Drained(s, t))
    }

    ghost predicate Did(turn: Turn<BatchLog>) {
      Batched(turn.before, turn.what.asked, turn.after, turn.what.rows, turn.what.ids, turn.what.committed)
    }

    /** One batch, whatever fails and whoever interferes. */
    method ProcessOutboxBatch()
      returns (rows: seq<OutboxRow>, processedIds: seq<EventId>, committed: bool, ghost asked: System)
      requires Valid() && w !in db.relay.batches
      modifies db
      ensures Batched(old(db.View()), asked, db.View(), rows, processedIds, committed) && w !in db.relay.batches
    {
      ghost var start := db.View();
      processedIds, committed := [], false;
      var found;
      found, asked := QueryOutboxEventsTx();
      rows := if found.Some? then found.value else [];
      if rows == [] {
        if Undisturbed(db, start) { DrainedIfEmpty(start); }
        return;
      }
      ghost var locked := db.View();
      processedIds := PublishAll(rows);
      ghost var sent := db.View();
      LoopEndsComplete(locked, sent, rows, processedIds);
      RanOnTo(asked, locked, sent);
      committed := Finish(Ids(rows), processedIds);
      ReportedArePublished(asked, sent, db.View(), Ids(rows), processedIds);
      RanOnTo(asked, sent, db.View());
      if db.alone { OnlyPublishedIfAlone(start, locked, sent, db.View(), rows, processedIds, committed); }
      if Undisturbed(db, start) { DrainedIfAlone(start, locked, sent, db.View(), rows, processedIds); }
    }

    /** Alone, the batch changes the status of what it published and committed, and nothing else of the outbox. */
    ghost predicate OnlyPublished(s: System, t: System, sent: seq<EventId>, committed: bool) {
      && t.bank == s.bank
      && t.relay.processed == s.relay.processed + (if committed then Outbox.Elements(sent) else {})
      && t.relay.published == s.relay.published + multiset(sent)
      && t.relay.batches == s.relay.batches
    }

    /** One batch per tick, until the context ends after some number of ticks. */
    method StartOutboxWorker(ticks: nat) returns (ghost trace: seq<Turn<BatchLog>>)
      requires Valid() && w !in db.relay.batches
      modifies db
      ensures RanOn(old(db.View()), db.View()) && w !in db.relay.batches
      ensures |trace| == ticks && Turns(old(db.View()), trace, db.View(), Did)
      ensures Undisturbed(db, old(db.View())) ==> DrainedAfter(old(db.View()), db.View(), ticks)
    {
      ghost var start := db.View();
      trace := RunTicks(ticks);
      if Undisturbed(db, start) {
        TurnsDrain(start, trace, db.View(), ticks);
        DrainingEnds(start, db.View(), ticks);
      }
    }

    method RunTicks(ticks: nat) returns (ghost trace: seq<Turn<BatchLog>>)
      requires Valid() && w !in db.relay.batches
      modifies db
      ensures RanOn(old(db.View()), db.View()) && w !in db.relay.batches
      ensures |trace| == ticks && Turns(old(db.View()), trace, db.View(), Did)
    {
      ghost var start := db.View();
      ReachesSelf(start);
      trace := [];
      var tick := 0;
      while tick < ticks
        invariant 0 <= tick <= ticks && RanOn(start, db.View()) && w !in db.relay.batches
        invariant |trace| == tick && Turns(start, trace, db.View(), Did)
      {
        ghost var s := db.View();
        var rows, ids, committed, asked := ProcessOutboxBatch();
        RanOnTo(start, s, asked);
        RanOnTo(start, asked, db.View());
        ghost var turn := Turn(s, db.View(), BatchLog(asked, rows, ids, committed));
        TurnsOn(start, trace, s, turn, Did);
        trace := trace + [turn];
        tick := tick + 1;
      }
    }

    /** Batches without competitors or failures drain the backlog one after the other. */
    lemma {:induction false} TurnsDrain(s: System, trace: seq<Turn<BatchLog>>, t: System, all: nat)
      requires Undisturbed(db, s) && Turns(s, trace, t, Did) && |trace| <= all
      ensures Draining(s, t, all, all - |trace|)
    {
      if trace != [] {
        var front, last := trace[..|trace| - 1], trace[|trace| - 1];
        TurnsBefore(s, trace, t, Did);
        TurnsDrain(s, front, last.before, all);
        DidDrain(s, last, all, all - |front|);
      } else {
        DrainingStarts(s, all);
      }
    }

    lemma DrainingStarts(s: System, all: nat)
      requires s.relay.batches == map[]
      ensures Draining(s, s, all, all)
    {}

    lemma DidDrain(s: System, turn: Turn<BatchLog>, all: nat, left: nat)
      requires Undisturbed(db, s) && Did(turn) && left > 0 && Draining(s, turn.before, all, left)
      ensures Draining(s, turn.after, all, left - 1)
    {
      assert Drained(turn.before, turn.after);
      DrainingStep(s, turn.before, turn.after, all, left);
    }

    /**
     After so many batches without competitors or failures: what is left PENDING, and every row that
     was PENDING is enqueued once, in ascending id order; ceil(n/100) batches leave none of n.
     */
    ghost predicate DrainedAfter(s: System, t: System, ticks: nat) {
      var pending := s.bank.db.events.Keys - s.relay.processed;
      && t.bank == s.bank
      && t.bank.db.events.Keys - t.relay.processed == Outbox.AfterBatches(pending, ticks)
      && t.post.copies == s.post.copies + Messages(s.bank.db.events, Outbox.PublishedBy(pending, ticks))
      && (ticks >= (|pending| + Outbox.BATCH_SIZE - 1) / Outbox.BATCH_SIZE ==>
            && t.relay.processed >= t.bank.db.events.Keys
            && t.post.copies == s.post.copies + Messages(s.bank.db.events, Outbox.Sorted(pending)))
    }

    lemma DrainingEnds(s: System, t: System, all: nat)
      requires Draining(s, t, all, 0)
      ensures DrainedAfter(s, t, all)
    {
      var pending := s.bank.db.events.Keys - s.relay.processed;
      Outbox.Drain(pending, all);
      assert Outbox.PublishedBy(pending, 0) == [];
      assert t.post.copies + Messages(s.bank.db.events, []) == t.post.copies;
      if Outbox.AfterBatches(pending, all) == {} {
        forall e | e in t.bank.db.events ensures e in t.relay.processed {
          assert e !in t.bank.db.events.Keys - t.relay.processed;
        }
      }
    }

    /** With `left` of `all` batches to go: what remains to be done completes what was to be done. */
    ghost predicate Draining(s: System, t: System, all: nat, left: nat) {
      var pending := s.bank.db.events.Keys - s.relay.processed;
      var now := t.bank.db.events.Keys - t.relay.processed;
      && t.bank == s.bank && t.relay.batches == map[]
      && Outbox.AfterBatches(now, left) == Outbox.AfterBatches(pending, all)
      && t.post.copies + Messages(s.bank.db.events, Outbox.PublishedBy(now, left))
         == s.post.copies + Messages(s.bank.db.events, Outbox.PublishedBy(pending, all))
    }

    lemma DrainingStep(s: System, t: System, u: System, all: nat, left: nat)
      requires left > 0 && Draining(s, t, all, left) && Drained(t, u)
      ensures Draining(s, u, all, left - 1)
    {
      var now := t.bank.db.events.Keys - t.relay.processed;
      var first, rest := Outbox.Selection(now, {}), Outbox.PublishedBy(Outbox.AfterBatch(now), left - 1);
      MessagesConcat(s.bank.db.events, first, rest);
      Regroup(t.post.copies, Messages(s.bank.db.events, first), Messages(s.bank.db.events, rest));
      assert Outbox.PublishedBy(now, left) == first + rest;
    }
  }
}
