/**
 What can still happen: from every reachable state, whatever has failed so far, some continuation
 without failures finishes every request, empties the outbox and the queue and announces every
 deposit. A consumer whose ack was lost is restarted on the way.
 */
module Recovery {
  import opened Common
  import opened Decimal
  import opened Ledger
  import opened MoneyPath
  import opened MoneyPathTheorems
  import Billing
  import BillingTheorems
  import Outbox
  import Inbox
  import Wire

  // ----- continuations

  /** No call fails, and auth is silent; a consumer may stop. */
  predicate Calm(a: Action) {
    !Failure(a) && !a.AuthPublishes?
  }

  ghost predicate AllCalm(acts: seq<Action>) {
    forall i :: 0 <= i < |acts| ==> Calm(acts[i])
  }

  ghost predicate Leads(s: System, t: System) {
    exists acts :: Feasible(s, acts) && Run(s, acts) == t && AllCalm(acts)
  }

  lemma LeadsToItself(s: System)
    ensures Leads(s, s)
  {
    assert Feasible(s, []) && Run(s, []) == s && AllCalm([]);
  }

  lemma LeadsByOneStep(s: System, a: Action)
    requires Inv(s) && Enabled(s, a) && Calm(a)
    ensures Leads(s, Exec(s, a)) && Inv(Exec(s, a))
  {
    InvStep(s, a);
    assert Feasible(s, []) && Run(s, []) == s;
    RunStep(s, [], a);
    assert AllCalm([] + [a]);
  }

  lemma LeadsOn(s: System, t: System, u: System)
    requires Leads(s, t) && Leads(t, u)
    ensures Leads(s, u)
  {
    var first :| Feasible(s, first) && Run(s, first) == t && AllCalm(first);
    var second :| Feasible(t, second) && Run(t, second) == u && AllCalm(second);
    RunConcat(s, first, second);
    assert AllCalm(first + second);
  }

  // ----- requests

  lemma {:induction false} RequestsAlone(s: System, acts: seq<Billing.Action>)
    requires Inv(s) && Billing.Feasible(s.bank, acts)
    requires forall i :: 0 <= i < |acts| ==> BillingTheorems.Unfailing(acts[i])
    ensures var t := s.(bank := Billing.Run(s.bank, acts)); Inv(t) && Leads(s, t)
  {
    if acts == [] {
      LeadsToItself(s);
    } else {
      var front, a := acts[..|acts| - 1], acts[|acts| - 1];
      RequestsAlone(s, front);
      var m := s.(bank := Billing.Run(s.bank, front));
      LeadsByOneStep(m, Bill(a));
      LeadsOn(s, m, Exec(m, Bill(a)));
    }
  }

  ghost predicate AllAnswered(b: Billing.Bank) {
    forall t :: t in b.txs ==> b.txs[t].pc.Done?
  }

  lemma RequestsCanFinish(s: System) returns (t: System)
    requires Inv(s)
    ensures Leads(s, t) && Inv(t) && AllAnswered(t.bank) && t.relay == s.relay && t.post == s.post
  {
    var acts := BillingTheorems.EveryoneCanFinish(s.bank);
    RequestsAlone(s, acts);
    t := s.(bank := Billing.Run(s.bank, acts));
  }

  // ----- the outbox

  function BatchLeft(b: Outbox.Batch): nat {
    (if b.next < |b.rows| then |b.rows| - b.next else 0) + (if b.marked then 1 else 2)
  }

  ghost function BatchWork(r: Outbox.Relay): set<(Outbox.WorkerId, nat)> {
    set w, k | w in r.batches && 0 <= k < BatchLeft(r.batches[w]) :: (w, k)
  }

  /** What a worker does next when nothing fails. */
  function NextOf(w: Outbox.WorkerId, b: Outbox.Batch): Outbox.Action {
    if b.next < |b.rows| then Outbox.PublishRow(w, true, true)
    else if !b.marked && b.sent != [] then Outbox.Mark(w)
    else Outbox.CommitBatch(w)
  }

  lemma WorkerCanStep(s: System, w: Outbox.WorkerId)
    requires Inv(s) && w in s.relay.batches
    ensures Enabled(s, Relay(NextOf(w, s.relay.batches[w]))) && Calm(Relay(NextOf(w, s.relay.batches[w])))
  {
    assert Outbox.BatchOk(s.bank.db.events.Keys, s.relay.processed, s.relay.batches[w]);
    if s.relay.batches[w].next < |s.relay.batches[w].rows| { assert RowAt(s, w) in s.relay.batches[w].rows; }
  }

  /** Nothing of the batch has failed so far. */
  ghost predicate Unbroken(b: Outbox.Batch) {
    b.next <= |b.rows| && b.sent == b.rows[..b.next]
  }

  /** Whatever a worker holds in an unbroken batch is still so, or PROCESSED. */
  ghost predicate Advances(r: Outbox.Relay, q: Outbox.Relay) {
    && r.processed <= q.processed
    && forall w :: w in r.batches && Unbroken(r.batches[w]) ==>
         || (w in q.batches && Unbroken(q.batches[w]) && q.batches[w].rows == r.batches[w].rows)
         || (forall x :: x in r.batches[w].rows ==> x in q.processed)
  }

  lemma AdvancesByOneStep(events: set<EventId>, r: Outbox.Relay, w: Outbox.WorkerId)
    requires Outbox.BatchesOk(events, r) && w in r.batches && Outbox.Enabled(events, r, NextOf(w, r.batches[w]))
    ensures Advances(r, Outbox.Exec(events, r, NextOf(w, r.batches[w])))
  {
    var b := r.batches[w];
    if b.next < |b.rows| {
      assert b.rows[..b.next + 1] == b.rows[..b.next] + [b.rows[b.next]];
    } else {
      assert Outbox.BatchOk(events, r.processed, b);
      assert b.rows[..b.next] == b.rows;
    }
  }

  lemma WorkingShrinksWork(events: set<EventId>, r: Outbox.Relay, w: Outbox.WorkerId)
    requires w in r.batches && Outbox.Enabled(events, r, NextOf(w, r.batches[w]))
    ensures BatchWork(Outbox.Exec(events, r, NextOf(w, r.batches[w]))) < BatchWork(r)
  {
    var q := Outbox.Exec(events, r, NextOf(w, r.batches[w]));
    var k: nat := if w in q.batches then BatchLeft(q.batches[w]) else 0;
    assert forall v :: v != w ==>
      (v in q.batches <==> v in r.batches) && (v in r.batches ==> q.batches[v] == r.batches[v]);
    assert (w, k) in BatchWork(r) && (w, k) !in BatchWork(q);
    assert forall v, j :: (v, j) in BatchWork(q) ==> (v, j) in BatchWork(r);
  }

  lemma {:induction false} BatchesCanFinish(s: System) returns (t: System)
    requires Inv(s)
    ensures Leads(s, t) && Inv(t) && t.bank == s.bank && t.relay.batches == map[] && Advances(s.relay, t.relay)
    decreases BatchWork(s.relay)
  {
    if w :| w in s.relay.batches {
      var a := NextOf(w, s.relay.batches[w]);
      WorkerCanStep(s, w);
      AdvancesByOneStep(s.bank.db.events.Keys, s.relay, w);
      WorkingShrinksWork(s.bank.db.events.Keys, s.relay, w);
      LeadsByOneStep(s, Relay(a));
      var m := Exec(s, Relay(a));
      t := BatchesCanFinish(m);
      LeadsOn(s, m, t);
    } else {
      LeadsToItself(s);
      t := s;
    }
  }

  ghost function Backlog(s: System): set<EventId> {
    s.bank.db.events.Keys - s.relay.processed
  }

  lemma BacklogIsSelected(s: System, w: Outbox.WorkerId)
    requires Inv(s) && s.relay.batches == map[] && Backlog(s) != {}
    ensures Enabled(s, Relay(Outbox.Query(w)))
    ensures var rows := Outbox.Selection(Backlog(s), Outbox.LockedRows(s.relay));
      rows != [] && rows[0] in Backlog(s)
  {
    var free := Backlog(s) - Outbox.LockedRows(s.relay);
    assert free == Backlog(s);
    Outbox.SortedEnumerates(free);
    var rows := Outbox.Selection(Backlog(s), Outbox.LockedRows(s.relay));
    assert |rows| > 0;
    Outbox.SelectionIsAscending(Backlog(s), Outbox.LockedRows(s.relay));
    assert rows[0] in rows;
  }

  /** One undisturbed batch takes something off the backlog. */
  lemma OneBatch(s: System) returns (t: System)
    requires Inv(s) && s.relay.batches == map[] && Backlog(s) != {}
    ensures Leads(s, t) && Inv(t) && t.bank == s.bank && t.relay.batches == map[] && Backlog(t) < Backlog(s)
  {
    BacklogIsSelected(s, 0);
    LeadsByOneStep(s, Relay(Outbox.Query(0)));
    var m := Exec(s, Relay(Outbox.Query(0)));
    var rows := m.relay.batches[0].rows;
    assert Unbroken(m.relay.batches[0]);
    t := BatchesCanFinish(m);
    LeadsOn(s, m, t);
    assert rows[0] in rows && rows[0] in t.relay.processed;
    assert rows[0] in Backlog(s) && rows[0] !in Backlog(t);
  }

  lemma {:induction false} OutboxCanEmpty(s: System) returns (t: System)
    requires Inv(s) && s.relay.batches == map[]
    ensures Leads(s, t) && Inv(t) && t.bank == s.bank && t.relay.batches == map[] && Backlog(t) == {}
    decreases Backlog(s)
  {
    if Backlog(s) == {} {
      LeadsToItself(s);
      t := s;
    } else {
      var m := OneBatch(s);
      t := OutboxCanEmpty(m);
      LeadsOn(s, m, t);
    }
  }

  // ----- the queue

  function HandlerLeft(pc: Inbox.Pc): nat {
    match pc
    case Received => 4
    case Saved => 3
    case Mailed => 2
    case Decided(_) => 1
  }

  ghost function HandlerWork(p: Inbox.Post): set<(Inbox.ConsumerId, nat)> {
    set c, k | c in p.handlers && 0 <= k < HandlerLeft(p.handlers[c].pc) :: (c, k)
  }

  /** What a handler does next when nothing fails. */
  predicate Handles(i: Inbox.Action) {
    || i.Ignore? || i.GiveUp? || i.Skip? || i.Save? || i.Send?
    || (i.CommitInbox? && i.acked) || (i.Settle? && i.ok)
  }

  /** A handler that does not wait for the inbox row of another can go on. */
  lemma UnblockedHandlerCanStep(p: Inbox.Post, c: Inbox.ConsumerId) returns (i: Inbox.Action)
    requires Inbox.Inv(p) && c in p.handlers && p.handlers[c].copy < |p.copies|
    requires !p.handlers[c].pc.Received? || Inbox.IdFree(p, Inbox.MessageAt(p, c).id)
    ensures Inbox.Enabled(p, i) && Handles(i)
  {
    assert Inbox.HandlerOk(p, c);
    var m := Inbox.MessageAt(p, c);
    match p.handlers[c].pc
    case Received =>
      i := if Inbox.Decode(m).Unknown? then Inbox.Ignore(c)
           else if Inbox.Decode(m).Fatal? then Inbox.GiveUp(c)
           else if m.id in p.inbox then Inbox.Skip(c)
           else Inbox.Save(c);
    case Saved => i := Inbox.Send(c);
    case Mailed => i := Inbox.CommitInbox(c, true);
    case Decided(_) => i := Inbox.Settle(c, true);
  }

  lemma SomeHandlerCanStep(p: Inbox.Post) returns (i: Inbox.Action)
    requires Inbox.Inv(p) && p.handlers != map[]
    ensures Inbox.Enabled(p, i) && Handles(i)
  {
    var c :| c in p.handlers;
    assert Inbox.HandlerOk(p, c);
    if p.handlers[c].pc.Received? && !Inbox.IdFree(p, Inbox.MessageAt(p, c).id) {
      var d :| d in p.handlers && Inbox.HoldsId(p, d, Inbox.MessageAt(p, c).id);
      i := UnblockedHandlerCanStep(p, d);
    } else {
      i := UnblockedHandlerCanStep(p, c);
    }
  }

  lemma HandlingShrinksWork(p: Inbox.Post, i: Inbox.Action)
    requires Inbox.Enabled(p, i) && Handles(i)
    ensures HandlerWork(Inbox.Exec(p, i)) < HandlerWork(p)
  {
    var q := Inbox.Exec(p, i);
    var k: nat := if i.c in q.handlers then HandlerLeft(q.handlers[i.c].pc) else 0;
    forall c | c != i.c
      ensures (c in q.handlers <==> c in p.handlers) && (c in p.handlers ==> q.handlers[c] == p.handlers[c])
    {
      Inbox.OthersStay(p, i, c);
    }
    assert (i.c, k) in HandlerWork(p) && (i.c, k) !in HandlerWork(q);
    assert forall c, j :: (c, j) in HandlerWork(q) ==> (c, j) in HandlerWork(p);
  }

  ghost predicate Done(p: Inbox.Post, k: Inbox.CopyId) {
    k in p.acked || k in p.rejected
  }

  /** The handler works on this copy, which is still its own, and has not failed. */
  ghost predicate OnCourse(p: Inbox.Post, c: Inbox.ConsumerId, k: Inbox.CopyId) {
    && c in p.handlers && p.handlers[c].copy == k && p.handlers[c].pc != Inbox.Decided(Inbox.RequeueIt)
    && k in p.unacked && p.unacked[k] == Inbox.Lease(c, true)
  }

  /** Copies stay, what is done stays done, and what is on course stays so or is done. */
  ghost predicate Proceeds(p: Inbox.Post, q: Inbox.Post) {
    && q.copies == p.copies
    && (forall k :: Done(p, k) ==> Done(q, k))
    && (forall c, k :: OnCourse(p, c, k) ==> OnCourse(q, c, k) || Done(q, k))
  }

  lemma CopyProceeds(p: Inbox.Post, i: Inbox.Action, c: Inbox.ConsumerId, k: Inbox.CopyId)
    requires Inbox.Enabled(p, i) && Handles(i)
    ensures Inbox.Exec(p, i).copies == p.copies
    ensures Done(p, k) ==> Done(Inbox.Exec(p, i), k)
    ensures OnCourse(p, c, k) ==> OnCourse(Inbox.Exec(p, i), c, k) || Done(Inbox.Exec(p, i), k)
  {
    if i.c != c { Inbox.OthersStay(p, i, c); }
  }

  lemma ProceedsByOneStep(p: Inbox.Post, i: Inbox.Action)
    requires Inbox.Enabled(p, i) && Handles(i)
    ensures Proceeds(p, Inbox.Exec(p, i))
  {
    var q := Inbox.Exec(p, i);
    forall c, k
      ensures q.copies == p.copies && (Done(p, k) ==> Done(q, k))
      ensures OnCourse(p, c, k) ==> OnCourse(q, c, k) || Done(q, k)
    {
      CopyProceeds(p, i, c, k);
    }
  }

  lemma ProceedsOn(p: Inbox.Post, q: Inbox.Post, r: Inbox.Post)
    requires Proceeds(p, q) && Proceeds(q, r)
    ensures Proceeds(p, r)
  {}

  lemma LeadsByHandling(s: System, i: Inbox.Action)
    requires Inv(s) && Handles(i) && Inbox.Enabled(s.post, i)
    ensures var t := System(s.bank, s.relay, Inbox.Exec(s.post, i)); Leads(s, t) && Inv(t)
  {
    LeadsByOneStep(s, Consume(i));
  }

  lemma OneHandlerStep(s: System) returns (t: System)
    requires Inv(s) && s.post.handlers != map[]
    ensures Leads(s, t) && Inv(t) && t.bank == s.bank && t.relay == s.relay
    ensures Proceeds(s.post, t.post) && HandlerWork(t.post) < HandlerWork(s.post)
  {
    var i := SomeHandlerCanStep(s.post);
    HandlingShrinksWork(s.post, i);
    ProceedsByOneStep(s.post, i);
    LeadsByHandling(s, i);
    t := System(s.bank, s.relay, Inbox.Exec(s.post, i));
  }

  lemma {:induction false} HandlersCanFinish(s: System) returns (t: System)
    requires Inv(s)
    ensures Leads(s, t) && Inv(t) && t.bank == s.bank && t.relay == s.relay
    ensures t.post.handlers == map[] && Proceeds(s.post, t.post)
    decreases HandlerWork(s.post)
  {
    if s.post.handlers == map[] {
      LeadsToItself(s);
      t := s;
    } else {
      var m := OneHandlerStep(s);
      t := HandlersCanFinish(m);
      LeadsOn(s, m, t);
      ProceedsOn(s.post, m.post, t.post);
    }
  }

  ghost function OpenCopies(p: Inbox.Post): set<Inbox.CopyId> {
    set k: Inbox.CopyId | 0 <= k < |p.copies| && !Done(p, k)
  }

  /** No handler is running, and only the queue and its consumers have moved on. */
  ghost predicate Consumed(s: System, t: System) {
    && Leads(s, t) && Inv(t) && t.bank == s.bank && t.relay == s.relay
    && t.post.handlers == map[] && t.post.copies == s.post.copies
    && forall k :: Done(s.post, k) ==> Done(t.post, k)
  }

  lemma WaitingCanSettle(s: System, c: Inbox.ConsumerId, k: Inbox.CopyId) returns (t: System)
    requires Inv(s) && s.post.handlers == map[] && Inbox.Waiting(s.post, c, k)
    ensures Consumed(s, t) && Done(t.post, k)
  {
    LeadsByOneStep(s, Consume(Inbox.Take(c, k)));
    var m := Exec(s, Consume(Inbox.Take(c, k)));
    assert OnCourse(m.post, c, k);
    t := HandlersCanFinish(m);
    LeadsOn(s, m, t);
    assert !OnCourse(t.post, c, k);
  }

  lemma QueuedCanSettle(s: System, k: Inbox.CopyId) returns (t: System)
    requires Inv(s) && s.post.handlers == map[] && k in s.post.queued && k < |s.post.copies|
    ensures Consumed(s, t) && Done(t.post, k)
  {
    var c := BillingTheorems.UpperBound(s.post.closed);
    LeadsByOneStep(s, Consume(Inbox.Deliver(c, k)));
    var m := Exec(s, Consume(Inbox.Deliver(c, k)));
    t := WaitingCanSettle(m, c, k);
    LeadsOn(s, m, t);
  }

  /** A consumer that took the copy and whose ack was lost stops, and the copy is delivered again. */
  lemma LeasedCanSettle(s: System, c: Inbox.ConsumerId, k: Inbox.CopyId) returns (t: System)
    requires Inv(s) && s.post.handlers == map[] && k < |s.post.copies|
    requires k in s.post.unacked && s.post.unacked[k].consumer == c
    ensures Consumed(s, t) && Done(t.post, k)
  {
    LeadsByOneStep(s, Consume(Inbox.Close(c)));
    var m := Exec(s, Consume(Inbox.Close(c)));
    t := QueuedCanSettle(m, k);
    LeadsOn(s, m, t);
  }

  lemma CopyCanSettle(s: System, k: Inbox.CopyId) returns (t: System)
    requires Inv(s) && s.post.handlers == map[] && k in OpenCopies(s.post)
    ensures Consumed(s, t) && Done(t.post, k)
  {
    assert Inbox.Places(s.post, k) == 1;
    if k in s.post.queued {
      t := QueuedCanSettle(s, k);
    } else if s.post.unacked[k].taken {
      t := LeasedCanSettle(s, s.post.unacked[k].consumer, k);
    } else {
      t := WaitingCanSettle(s, s.post.unacked[k].consumer, k);
    }
  }

  lemma {:induction false} QueueCanEmpty(s: System) returns (t: System)
    requires Inv(s) && s.post.handlers == map[]
    ensures Consumed(s, t) && OpenCopies(t.post) == {}
    decreases OpenCopies(s.post)
  {
    if k :| k in OpenCopies(s.post) {
      var m := CopyCanSettle(s, k);
      assert k !in OpenCopies(m.post);
      t := QueueCanEmpty(m);
      LeadsOn(s, m, t);
    } else {
      LeadsToItself(s);
      t := s;
    }
  }

  // ----- everything

  /** Every request is answered, every event PROCESSED, and every copy acked or rejected. */
  ghost predicate Settled(s: System) {
    && AllAnswered(s.bank)
    && Backlog(s) == {} && s.relay.batches == map[]
    && s.post.handlers == map[] && s.post.queued == {} && s.post.unacked == map[]
  }

  lemma NoOpenCopies(p: Inbox.Post)
    requires Inbox.Placed(p) && OpenCopies(p) == {}
    ensures p.queued == {} && p.unacked == map[]
  {
    forall k: Inbox.CopyId
      ensures k !in p.queued && k !in p.unacked
    {
      assert Inbox.Places(p, k) == One(k < |p.copies|);
      assert k < |p.copies| ==> k !in OpenCopies(p);
    }
  }

  lemma CanSettle(s: System) returns (t: System)
    requires Inv(s)
    ensures Leads(s, t) && Inv(t) && Settled(t)
  {
    var a := RequestsCanFinish(s);
    var b := BatchesCanFinish(a);
    LeadsOn(s, a, b);
    var c := OutboxCanEmpty(b);
    LeadsOn(s, b, c);
    var d := HandlersCanFinish(c);
    LeadsOn(s, c, d);
    t := QueueCanEmpty(d);
    LeadsOn(s, d, t);
    NoOpenCopies(t.post);
  }

  lemma SettledMeansMailed(acts: seq<Action>, e: EventId)
    requires Feasible(Init, acts) && Settled(Run(Init, acts)) && NoClash(acts, e) && e in Run(Init, acts).bank.db.events
    ensures Mailed(Run(Init, acts), e) <==> Run(Init, acts).bank.db.events[e].amount < Wire.TOO_BIG
  {
    var s := Run(Init, acts);
    NoLostEvent(acts, e);
    DepositsAreNotified(acts, e);
    assert e !in Backlog(s);
  }

  lemma EverythingMailed(acts: seq<Action>, more: seq<Action>, e: EventId)
    requires Feasible(Init, acts) && Feasible(Run(Init, acts), more) && AllCalm(more) && NoClash(acts, e)
    requires Settled(Run(Run(Init, acts), more)) && e in Run(Run(Init, acts), more).bank.db.events
    ensures var t := Run(Run(Init, acts), more); Mailed(t, e) <==> t.bank.db.events[e].amount < Wire.TOO_BIG
  {
    RunConcat(Init, acts, more);
    assert NoClash(acts + more, e);
    SettledMeansMailed(acts + more, e);
  }

  /**
   From every reachable state some continuation without failures answers every request, empties
   outbox and queue, and has sent the e-mail of every committed deposit of less than 2^63-512 under
   whose id auth has published nothing readable.
   */
  lemma EverythingCanSettle(acts: seq<Action>) returns (more: seq<Action>)
    requires Feasible(Init, acts)
    ensures Feasible(Run(Init, acts), more) && AllCalm(more) && Settled(Run(Run(Init, acts), more))
    ensures var t := Run(Run(Init, acts), more);
      forall e :: e in t.bank.db.events && NoClash(acts, e) ==>
        (Mailed(t, e) <==> t.bank.db.events[e].amount < Wire.TOO_BIG)
  {
    InitInv();
    InvRun(Init, acts);
    var s := Run(Init, acts);
    var t := CanSettle(s);
    more :| Feasible(s, more) && Run(s, more) == t && AllCalm(more);
    forall e | e in t.bank.db.events && NoClash(acts, e)
      ensures Mailed(t, e) <==> t.bank.db.events[e].amount < Wire.TOO_BIG
    {
      EverythingMailed(acts, more, e);
    }
  }
}
