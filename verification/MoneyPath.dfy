/**
 The whole path of a deposit: billing transactions, outbox workers, the broker queue and its
 consumers as one transition system in which everything interleaves. The auth service publishes to
 the same queue with outbox ids of its own.
 */
module MoneyPath {
  import opened Decimal
  import opened Ledger
  import Billing
  import BillingTheorems
  import Outbox
  import Inbox
  import Wire

  datatype System = System(bank: Billing.Bank, relay: Outbox.Relay, post: Inbox.Post)

  const Init := System(Billing.Init, Outbox.Idle, Inbox.Quiet)

  datatype Action =
    | Bill(billing: Billing.Action)
    | Relay(outbox: Outbox.Action)
    | Consume(inbox: Inbox.Action)
    | AuthPublishes(id: nat, key: string, body: Inbox.Body)

  /** The JSON number the publisher writes for an amount read from the outbox. */
  function AmountText(amount: int): string {
    if amount < 0 then "-" + Print(Wire.Printed(Wire.Round(-amount))) else Print(Wire.Printed(Wire.Round(amount)))
  }

  /** The AMQP message of an outbox row: event type as routing key, decimal id as message id. */
  function MessageOf(id: EventId, e: Event): Inbox.Message {
    Inbox.Message(Print(id), Inbox.TOPPED_UP, Inbox.DepositBody(e.user, AmountText(e.amount)))
  }

  function RowAt(s: System, w: Outbox.WorkerId): EventId
    requires w in s.relay.batches && s.relay.batches[w].next < |s.relay.batches[w].rows|
  {
    s.relay.batches[w].rows[s.relay.batches[w].next]
  }

  predicate Enabled(s: System, a: Action) {
    match a
    case Bill(b) => Billing.Enabled(s.bank, b)
    case Relay(r) =>
      && Outbox.Enabled(s.bank.db.events.Keys, s.relay, r)
      && (r.PublishRow? ==> RowAt(s, r.w) in s.bank.db.events)
    case Consume(i) => !i.Enqueue? && Inbox.Enabled(s.post, i)
    case AuthPublishes(_, key, _) => key != Inbox.TOPPED_UP
  }

  function Exec(s: System, a: Action): System
    requires Enabled(s, a)
  {
    match a
    case Bill(b) => s.(bank := Billing.Exec(s.bank, b))
    case Relay(r) =>
      s.(relay := Outbox.Exec(s.bank.db.events.Keys, s.relay, r),
         post := if r.PublishRow? && r.enqueued
                 then Inbox.Exec(s.post, Inbox.Enqueue(MessageOf(RowAt(s, r.w), s.bank.db.events[RowAt(s, r.w)])))
                 else s.post)
    case Consume(i) => s.(post := Inbox.Exec(s.post, i))
    case AuthPublishes(id, key, body) =>
      s.(post := Inbox.Exec(s.post, Inbox.Enqueue(Inbox.Message(Print(id), key, body))))
  }

  ghost predicate Feasible(s: System, acts: seq<Action>)
    decreases |acts|, 0
  {
    acts == [] ||
    (Feasible(s, acts[..|acts| - 1]) && Enabled(Run(s, acts[..|acts| - 1]), acts[|acts| - 1]))
  }

  ghost function Run(s: System, acts: seq<Action>): System
    requires Feasible(s, acts)
    decreases |acts|, 1
  {
    if acts == [] then s else Exec(Run(s, acts[..|acts| - 1]), acts[|acts| - 1])
  }

  // ----- the invariant

  ghost predicate CopyOf(s: System, k: Inbox.CopyId, e: EventId) {
    k < |s.post.copies| && e in s.bank.db.events && s.post.copies[k] == MessageOf(e, s.bank.db.events[e])
  }

  /** Deposit messages come from committed events, and every published event has a copy. */
  ghost predicate Linked(s: System) {
    && (forall k: Inbox.CopyId :: k < |s.post.copies| ==> s.post.copies[k].id != "")
    && (forall k: Inbox.CopyId :: k < |s.post.copies| && s.post.copies[k].key == Inbox.TOPPED_UP ==>
          exists e :: CopyOf(s, k, e))
    && (forall e :: s.relay.published[e] > 0 ==> exists k :: CopyOf(s, k, e))
  }

  ghost predicate Inv(s: System) {
    && Billing.Inv(s.bank)
    && Outbox.Inv(s.bank.db.events.Keys, s.relay)
    && Inbox.Inv(s.post)
    && Linked(s)
  }

  lemma EventsGrow(b: Billing.Bank, a: Billing.Action)
    requires Billing.Inv(b) && Billing.Enabled(b, a)
    ensures forall e :: e in b.db.events ==>
      e in Billing.Exec(b, a).db.events && Billing.Exec(b, a).db.events[e] == b.db.events[e]
  {
    if a.Commit? { assert Billing.PrivateOk(b.db, b.nextEvent, b.txs[a.t]); }
  }

  lemma LinkedStays(s: System, t: System)
    requires Linked(s) && s.post.copies <= t.post.copies
    requires forall e :: e in s.bank.db.events ==> e in t.bank.db.events && t.bank.db.events[e] == s.bank.db.events[e]
    requires forall k: Inbox.CopyId :: |s.post.copies| <= k < |t.post.copies| ==>
      t.post.copies[k].id != "" && (t.post.copies[k].key == Inbox.TOPPED_UP ==> exists e :: CopyOf(t, k, e))
    requires forall e :: t.relay.published[e] > 0 ==> s.relay.published[e] > 0 || exists k :: CopyOf(t, k, e)
    ensures Linked(t)
  {
    forall k: Inbox.CopyId | k < |t.post.copies| && t.post.copies[k].key == Inbox.TOPPED_UP
      ensures exists e :: CopyOf(t, k, e)
    {
      if k < |s.post.copies| {
        var e :| CopyOf(s, k, e);
        assert CopyOf(t, k, e);
      }
    }
    forall e | t.relay.published[e] > 0
      ensures exists k :: CopyOf(t, k, e)
    {
      if s.relay.published[e] > 0 {
        var k :| CopyOf(s, k, e);
        assert CopyOf(t, k, e);
      }
    }
  }

  lemma OnlyPublishingPublishes(events: set<EventId>, r: Outbox.Relay, a: Outbox.Action, e: EventId)
    requires Outbox.Enabled(events, r, a) && Outbox.Exec(events, r, a).published[e] > 0 && r.published[e] == 0
    ensures a.PublishRow? && a.ok && e == r.batches[a.w].rows[r.batches[a.w].next]
  {}

  lemma NewCopy(s: System, t: System, m: Inbox.Message, e: EventId)
    requires t.post.copies == s.post.copies + [m] && m.id != ""
      && (m.key == Inbox.TOPPED_UP ==> CopyOf(t, |s.post.copies|, e))
    requires forall d :: t.relay.published[d] > 0 ==> s.relay.published[d] > 0 || (d == e && m.key == Inbox.TOPPED_UP)
    ensures forall k: Inbox.CopyId :: |s.post.copies| <= k < |t.post.copies| ==>
      t.post.copies[k].id != "" && (t.post.copies[k].key == Inbox.TOPPED_UP ==> exists d :: CopyOf(t, k, d))
    ensures forall d :: t.relay.published[d] > 0 ==> s.relay.published[d] > 0 || exists k :: CopyOf(t, k, d)
  {}

  lemma LinkedEnqueue(s: System, t: System, m: Inbox.Message, e: EventId)
    requires Linked(s) && t.bank == s.bank && t.post.copies == s.post.copies + [m] && m.id != ""
    requires m.key == Inbox.TOPPED_UP ==> CopyOf(t, |s.post.copies|, e)
    requires forall d :: t.relay.published[d] > 0 ==> s.relay.published[d] > 0 || (d == e && m.key == Inbox.TOPPED_UP)
    ensures Linked(t)
  {
    NewCopy(s, t, m, e);
    LinkedStays(s, t);
  }

  lemma LinkedPublish(s: System, r: Outbox.Action)
    requires Inv(s) && Enabled(s, Relay(r)) && r.PublishRow? && r.enqueued
    ensures Linked(Exec(s, Relay(r)))
  {
    var t, e := Exec(s, Relay(r)), RowAt(s, r.w);
    PrintInjective(e, 0);
    LinkedEnqueue(s, t, MessageOf(e, s.bank.db.events[e]), e);
  }

  lemma LinkedRelayStep(s: System, r: Outbox.Action)
    requires Inv(s) && Enabled(s, Relay(r))
    ensures Linked(Exec(s, Relay(r)))
  {
    if r.PublishRow? && r.enqueued {
      LinkedPublish(s, r);
    } else {
      var t := Exec(s, Relay(r));
      forall e ensures t.relay.published[e] > 0 ==> s.relay.published[e] > 0 {
        if t.relay.published[e] > 0 && s.relay.published[e] == 0 {
          OnlyPublishingPublishes(s.bank.db.events.Keys, s.relay, r, e);
        }
      }
      LinkedStays(s, t);
    }
  }

  lemma LinkedBillStep(s: System, b: Billing.Action)
    requires Inv(s) && Enabled(s, Bill(b))
    ensures Linked(Exec(s, Bill(b)))
  {
    EventsGrow(s.bank, b);
    LinkedStays(s, Exec(s, Bill(b)));
  }

  lemma LinkedAuthStep(s: System, id: nat, key: string, body: Inbox.Body)
    requires Inv(s) && Enabled(s, AuthPublishes(id, key, body))
    ensures Linked(Exec(s, AuthPublishes(id, key, body)))
  {
    PrintInjective(id, 0);
    LinkedEnqueue(s, Exec(s, AuthPublishes(id, key, body)), Inbox.Message(Print(id), key, body), 0);
  }

  lemma ConsumingEnqueuesNothing(p: Inbox.Post, i: Inbox.Action)
    requires Inbox.Enabled(p, i) && !i.Enqueue?
    ensures Inbox.Exec(p, i).copies == p.copies
  {}

  lemma LinkedConsumeStep(s: System, i: Inbox.Action)
    requires Linked(s) && Enabled(s, Consume(i))
    ensures Linked(Exec(s, Consume(i)))
  {
    ConsumingEnqueuesNothing(s.post, i);
    LinkedStays(s, Exec(s, Consume(i)));
  }

  lemma LinkedStep(s: System, a: Action)
    requires Inv(s) && Enabled(s, a)
    ensures Linked(Exec(s, a))
  {
    match a
    case Bill(b) => LinkedBillStep(s, b);
    case Relay(r) => LinkedRelayStep(s, r);
    case Consume(i) => LinkedConsumeStep(s, i);
    case AuthPublishes(id, key, body) => LinkedAuthStep(s, id, key, body);
  }

  lemma InvStep(s: System, a: Action)
    requires Inv(s) && Enabled(s, a)
    ensures Inv(Exec(s, a))
  {
    LinkedStep(s, a);
    match a
    case Bill(b) =>
      Billing.InvStep(s.bank, b);
      EventsGrow(s.bank, b);
      Outbox.InvGrows(s.bank.db.events.Keys, Exec(s, a).bank.db.events.Keys, s.relay);
    case Relay(r) =>
      Outbox.InvStep(s.bank.db.events.Keys, s.relay, r);
      if r.PublishRow? && r.enqueued {
        Inbox.InvStep(s.post, Inbox.Enqueue(MessageOf(RowAt(s, r.w), s.bank.db.events[RowAt(s, r.w)])));
      }
    case Consume(i) => Inbox.InvStep(s.post, i);
    case AuthPublishes(id, key, body) => Inbox.InvStep(s.post, Inbox.Enqueue(Inbox.Message(Print(id), key, body)));
  }

  lemma InitInv()
    ensures Inv(Init)
  {
    BillingTheorems.InitInv();
  }

  lemma {:induction false} InvRun(s: System, acts: seq<Action>)
    requires Inv(s) && Feasible(s, acts)
    ensures Inv(Run(s, acts))
  {
    if acts != [] {
      InvRun(s, acts[..|acts| - 1]);
      InvStep(Run(s, acts[..|acts| - 1]), acts[|acts| - 1]);
    }
  }

  lemma RunStep(s: System, acts: seq<Action>, a: Action)
    requires Feasible(s, acts) && Enabled(Run(s, acts), a)
    ensures Feasible(s, acts + [a]) && Run(s, acts + [a]) == Exec(Run(s, acts), a)
  {
    assert (acts + [a])[..|acts|] == acts;
  }

  lemma {:induction false} RunConcat(s: System, first: seq<Action>, second: seq<Action>)
    requires Feasible(s, first) && Feasible(Run(s, first), second)
    ensures Feasible(s, first + second) && Run(s, first + second) == Run(Run(s, first), second)
  {
    if second == [] {
      assert first + second == first;
    } else {
      var front, a := second[..|second| - 1], second[|second| - 1];
      assert first + second == (first + front) + [a];
      RunConcat(s, first, front);
      RunStep(s, first + front, a);
    }
  }

  /** The billing part of a run. */
  ghost function BillingSteps(acts: seq<Action>): seq<Billing.Action> {
    if acts == [] then [] else
    BillingSteps(acts[..|acts| - 1]) + (if acts[|acts| - 1].Bill? then [acts[|acts| - 1].billing] else [])
  }

  /** No step of a worker, a consumer or auth touches what billing's transactions see. */
  lemma {:induction false} BankRunsAlone(acts: seq<Action>)
    requires Feasible(Init, acts)
    ensures Billing.Feasible(Billing.Init, BillingSteps(acts))
    ensures Run(Init, acts).bank == Billing.Run(Billing.Init, BillingSteps(acts))
  {
    if acts != [] {
      var front, a := acts[..|acts| - 1], acts[|acts| - 1];
      BankRunsAlone(front);
      if a.Bill? {
        Billing.RunStep(Billing.Init, BillingSteps(front), a.billing);
      } else {
        assert BillingSteps(acts) == BillingSteps(front);
      }
    }
  }

  /** A call failed, or its reply was lost, or a message had no id. */
  predicate Failure(a: Action) {
    match a
    case Bill(b) => b.Fail? || (b.Commit? && !b.acked)
    case Relay(r) => r.Abandon? || (r.PublishRow? && !r.ok)
    case Consume(i) =>
      i.EmptyId? || i.Break? || i.SendLost? || (i.CommitInbox? && !i.acked) || (i.Settle? && !i.ok)
    case AuthPublishes(_, _, _) => false
  }

  /** The system can get from `s` to `t`. */
  ghost predicate Reaches(s: System, t: System) {
    exists acts :: Feasible(s, acts) && Run(s, acts) == t
  }

  lemma ReachesSelf(s: System)
    ensures Reaches(s, s)
  {
    assert Feasible(s, []) && Run(s, []) == s;
  }

  lemma ReachesStep(s: System, t: System, a: Action)
    requires Reaches(s, t) && Enabled(t, a)
    ensures Reaches(s, Exec(t, a))
  {
    var acts :| Feasible(s, acts) && Run(s, acts) == t;
    RunStep(s, acts, a);
  }

  lemma ReachesTransitive(s: System, t: System, u: System)
    requires Reaches(s, t) && Reaches(t, u)
    ensures Reaches(s, u)
  {
    var first :| Feasible(s, first) && Run(s, first) == t;
    var second :| Feasible(t, second) && Run(t, second) == u;
    RunConcat(s, first, second);
  }

  /** Committed events, enqueued copies, decisions and inbox rows stay. */
  lemma {:induction false} HistoryStays(s: System, acts: seq<Action>)
    requires Inv(s) && Feasible(s, acts)
    ensures var t := Run(s, acts);
      && (forall e :: e in s.bank.db.events ==> e in t.bank.db.events && t.bank.db.events[e] == s.bank.db.events[e])
      && s.post.copies <= t.post.copies && s.bank.log <= t.bank.log
      && (forall id :: id in s.post.inbox ==> id in t.post.inbox && t.post.inbox[id] == s.post.inbox[id])
  {
    if acts != [] {
      var front, a := acts[..|acts| - 1], acts[|acts| - 1];
      HistoryStays(s, front);
      InvRun(s, front);
      HistoryStep(Run(s, front), a);
    }
  }

  /** Publishes and wasted publishes are only ever added. */
  lemma {:induction false} TalliesGrow(s: System, acts: seq<Action>)
    requires Feasible(s, acts)
    ensures forall e :: s.relay.published[e] <= Run(s, acts).relay.published[e]
    ensures forall e :: s.relay.wasted[e] <= Run(s, acts).relay.wasted[e]
  {
    if acts != [] {
      TalliesGrow(s, acts[..|acts| - 1]);
      TalliesStep(Run(s, acts[..|acts| - 1]), acts[|acts| - 1]);
    }
  }

  lemma TalliesStep(s: System, a: Action)
    requires Enabled(s, a)
    ensures forall e :: s.relay.published[e] <= Exec(s, a).relay.published[e]
    ensures forall e :: s.relay.wasted[e] <= Exec(s, a).relay.wasted[e]
  {}

  lemma HistoryStep(s: System, a: Action)
    requires Inv(s) && Enabled(s, a)
    ensures forall e :: e in s.bank.db.events ==>
      e in Exec(s, a).bank.db.events && Exec(s, a).bank.db.events[e] == s.bank.db.events[e]
    ensures s.post.copies <= Exec(s, a).post.copies && s.bank.log <= Exec(s, a).bank.log
    ensures forall id :: id in s.post.inbox ==>
      id in Exec(s, a).post.inbox && Exec(s, a).post.inbox[id] == s.post.inbox[id]
  {
    if a.Bill? {
      EventsGrow(s.bank, a.billing);
      Billing.HistoryStep(s.bank, a.billing);
    } else if a.Consume? {
      Inbox.NothingIsForgotten(s.post, a.inbox);
      Inbox.EntriesStay(s.post, a.inbox);
    }
  }
}
