/**
 Auth and billing number their outbox rows independently but share one queue and one inbox, where
 the raw row id is the message id. An id that both use is processed only once: the e-mail of a
 deposit is guaranteed exactly when auth never publishes its event's id.
 */
module Collision {
  import opened Common
  import opened Decimal
  import opened Ledger
  import opened MoneyPath
  import opened MoneyPathTheorems
  import Billing
  import Outbox
  import Inbox
  import Wire

  /**
   Once the inbox row of an event's id belongs to the other producer, the e-mail for the event is
   sent in no continuation unless an earlier attempt already sent it.
   */
  lemma EnteredForAuthIsForGood(s: System, more: seq<Action>, e: EventId)
    requires Inv(s) && Feasible(s, more) && e in s.bank.db.events && EnteredForAuth(s, e) && !Mailed(s, e)
    ensures EnteredForAuth(Run(s, more), e) && !Mailed(Run(s, more), e)
  {
    NoMailOnceEnteredRun(s, more, Print(e));
    HistoryStays(s, more);
  }

  /** A committed deposit of at most 2^53 that has left outbox and queue, and no e-mail went out. */
  ghost predicate Lost(s: System, e: EventId) {
    && e in s.bank.db.events && s.bank.db.events[e].amount <= Wire.EXACT
    && !Pending(s, e) && !InTransit(s, e) && !Mailed(s, e)
  }

  /** The ids under which auth publishes messages the consumer can read are among these. */
  ghost predicate AuthUses(acts: seq<Action>, ids: iset<EventId>) {
    forall i :: 0 <= i < |acts| && acts[i].AuthPublishes? && Clashes(acts[i], acts[i].id) ==> acts[i].id in ids
  }

  lemma ApartIsSafe(acts: seq<Action>, ids: iset<EventId>, e: EventId)
    requires Feasible(Init, acts) && AuthUses(acts, ids) && e !in ids
    ensures !Lost(Run(Init, acts), e)
  {
    assert NoClash(acts, e);
    if e in Run(Init, acts).bank.db.events { DepositsAreNotified(acts, e); }
  }

  /**
   The e-mail of the deposit with outbox id `e` can be lost exactly when `e` is among the ids auth
   may use, whatever else happens.
   */
  lemma GuaranteedExactlyWhenIdsAreApart(ids: iset<EventId>, e: EventId)
    requires e >= 1
    ensures (forall acts :: Feasible(Init, acts) && AuthUses(acts, ids) ==> !Lost(Run(Init, acts), e)) <==> e !in ids
  {
    if e in ids {
      var acts := CollidingIdLosesTheEmail(e);
      assert AuthUses(acts, ids);
    } else {
      forall acts | Feasible(Init, acts) && AuthUses(acts, ids)
        ensures !Lost(Run(Init, acts), e)
      {
        ApartIsSafe(acts, ids, e);
      }
    }
  }

  // ----- for every id a run in which the deposit is never announced

  const REQUEST := Deposit("u", 5, "k")
  const PAID := Event(0, "u", 5)

  function Clash(e: EventId): Inbox.Message {
    Inbox.Message(Print(e), Inbox.REGISTERED, Inbox.RegistrationBody("a@b", "u"))
  }

  /** No call fails, no consumer stops, and auth publishes under the id `e` only. */
  predicate Smooth(a: Action, e: EventId) {
    !Failure(a) && !(a.Consume? && a.inbox.Close?) && (a.AuthPublishes? ==> a.id == e)
  }

  ghost predicate AllSmooth(acts: seq<Action>, e: EventId) {
    forall i :: 0 <= i < |acts| ==> Smooth(acts[i], e)
  }

  ghost predicate Leads(s: System, e: EventId) {
    exists acts :: Feasible(Init, acts) && Run(Init, acts) == s && AllSmooth(acts, e)
  }

  lemma Follow(s: System, a: Action, e: EventId) returns (t: System)
    requires Leads(s, e) && Enabled(s, a) && Smooth(a, e)
    ensures t == Exec(s, a) && Leads(t, e)
  {
    var acts :| Feasible(Init, acts) && Run(Init, acts) == s && AllSmooth(acts, e);
    RunStep(Init, acts, a);
    assert AllSmooth(acts + [a], e);
    t := Exec(s, a);
  }

  lemma FollowInbox(s: System, i: Inbox.Action, e: EventId) returns (t: System)
    requires Leads(s, e) && !i.Enqueue? && Inbox.Enabled(s.post, i) && Smooth(Consume(i), e)
    ensures t == System(s.bank, s.relay, Inbox.Exec(s.post, i)) && Leads(t, e)
  {
    t := Follow(s, Consume(i), e);
  }

  lemma FollowBilling(s: System, b: Billing.Action, e: EventId) returns (t: System)
    requires Leads(s, e) && Billing.Enabled(s.bank, b) && Smooth(Bill(b), e)
    ensures t == System(Billing.Exec(s.bank, b), s.relay, s.post) && Leads(t, e)
  {
    t := Follow(s, Bill(b), e);
  }

  lemma FollowPublish(s: System, w: Outbox.WorkerId, m: Inbox.Message, e: EventId) returns (t: System)
    requires Leads(s, e) && Enabled(s, Relay(Outbox.PublishRow(w, true, true)))
    requires m == MessageOf(RowAt(s, w), s.bank.db.events[RowAt(s, w)])
    ensures Leads(t, e) && t.bank == s.bank
    ensures t.relay == Outbox.Exec(s.bank.db.events.Keys, s.relay, Outbox.PublishRow(w, true, true))
    ensures t.post == s.post.(copies := s.post.copies + [m], queued := s.post.queued + {|s.post.copies|})
  {
    t := Follow(s, Relay(Outbox.PublishRow(w, true, true)), e);
  }

  lemma Start(e: EventId)
    ensures Leads(Init, e)
  {
    assert Feasible(Init, []) && Run(Init, []) == Init && AllSmooth([], e);
  }

  lemma RegistrationTaken(e: EventId) returns (s: System)
    ensures Leads(s, e)
    ensures s == System(Billing.Init, Outbox.Idle,
      Inbox.Post([Clash(e)], {}, map[0 := Inbox.Lease(0, true)], {}, {}, {}, map[0 := Inbox.Handler(0, Inbox.Received)],
                 map[], [], multiset{}))
  {
    Start(e);
    PrintInjective(e, 0);
    s := Follow(Init, AuthPublishes(e, Inbox.REGISTERED, Clash(e).body), e);
    assert s.post == Inbox.Post([Clash(e)], {0}, map[], {}, {}, {}, map[], map[], [], multiset{});
    s := FollowInbox(s, Inbox.Deliver(0, 0), e);
    assert s.post ==
      Inbox.Post([Clash(e)], {}, map[0 := Inbox.Lease(0, false)], {}, {}, {}, map[], map[], [], multiset{});
    s := FollowInbox(s, Inbox.Take(0, 0), e);
  }

  lemma RegistrationSaved(e: EventId) returns (s: System)
    ensures Leads(s, e)
    ensures s == System(Billing.Init, Outbox.Idle,
      Inbox.Post([Clash(e)], {}, map[0 := Inbox.Lease(0, true)], {}, {}, {}, map[0 := Inbox.Handler(0, Inbox.Saved)],
                 map[], [], multiset{}))
  {
    s := RegistrationTaken(e);
    s := FollowInbox(s, Inbox.Save(0), e);
  }

  lemma RegistrationMailed(e: EventId) returns (s: System)
    ensures Leads(s, e)
    ensures s == System(Billing.Init, Outbox.Idle,
      Inbox.Post([Clash(e)], {}, map[0 := Inbox.Lease(0, true)], {}, {}, {}, map[0 := Inbox.Handler(0, Inbox.Mailed)],
                 map[], [Inbox.MailFor(Clash(e))], multiset{}))
  {
    s := RegistrationSaved(e);
    s := FollowInbox(s, Inbox.Send(0), e);
  }

  function AfterRegistration(e: EventId): Inbox.Post {
    var m := Clash(e);
    Inbox.Post([m], {}, map[], {0}, {}, {}, map[], map[m.id := Inbox.RowFor(m)], [Inbox.MailFor(m)], multiset{})
  }

  /** A registration with this outbox id is consumed first. */
  lemma RegistrationConsumed(e: EventId) returns (s: System)
    ensures Leads(s, e) && s == System(Billing.Init, Outbox.Idle, AfterRegistration(e))
  {
    s := RegistrationMailed(e);
    s := FollowInbox(s, Inbox.CommitInbox(0, true), e);
    assert s.post.handlers[0] == Inbox.Handler(0, Inbox.Decided(Inbox.AckIt));
    s := FollowInbox(s, Inbox.Settle(0, true), e);
    assert s.post.unacked == map[] && s.post.handlers == map[];
  }

  lemma DepositToppedUp(e: EventId) returns (s: System)
    ensures Leads(s, e) && s.relay == Outbox.Idle && s.post == AfterRegistration(e)
    ensures s.bank.db == Empty && s.bank.nextEvent == 1
    ensures s.bank.txs == map[0 := Billing.Tx(REQUEST, Billing.Updated(Account(0, 5)), None)]
  {
    s := RegistrationConsumed(e);
    s := FollowBilling(s, Billing.Begin(0, REQUEST), e);
    s := FollowBilling(s, Billing.TopUp(0, 0), e);
  }

  lemma DepositEmitted(e: EventId) returns (s: System)
    requires e >= 1
    ensures Leads(s, e) && s.relay == Outbox.Idle && s.post == AfterRegistration(e)
    ensures s.bank.db == Empty && 0 in s.bank.txs
    ensures s.bank.txs[0].pc == Billing.Emitted(Account(0, 5), Row(0, 5, DepositRow, "k"), e, PAID)
    ensures s.bank.txs[0].req == REQUEST
  {
    s := DepositToppedUp(e);
    s := FollowBilling(s, Billing.InsertRow(0), e);
    s := FollowBilling(s, Billing.Emit(0, e), e);
  }

  /** Billing's outbox row gets the same id. */
  lemma DepositCommitted(e: EventId) returns (s: System)
    requires e >= 1
    ensures Leads(s, e) && s.relay == Outbox.Idle && s.post == AfterRegistration(e)
    ensures s.bank.db.events == map[e := PAID]
  {
    s := DepositEmitted(e);
    s := FollowBilling(s, Billing.Commit(0, true), e);
  }

  lemma OneRowIsSelected(e: EventId)
    ensures Outbox.Selection({e} - {}, {}) == [e]
  {
    Outbox.SortedEnumerates({e} - {} - {});
    assert {e} - {} - {} == {e};
    assert Outbox.Enumerates([e], {e});
    Outbox.AscendingIsUnique(Outbox.Sorted({e} - {} - {}), [e]);
  }

  lemma DepositQueried(e: EventId) returns (s: System)
    requires e >= 1
    ensures Leads(s, e) && s.post == AfterRegistration(e) && s.bank.db.events == map[e := PAID]
    ensures s.relay == Outbox.Relay({}, map[0 := Outbox.Batch([e], 0, [], false)], multiset{}, multiset{})
  {
    s := DepositCommitted(e);
    OneRowIsSelected(e);
    assert s.bank.db.events.Keys == {e} && Outbox.LockedRows(s.relay) == {};
    s := Follow(s, Relay(Outbox.Query(0)), e);
  }

  lemma PaidIsReadable(e: EventId)
    ensures Inbox.Readable(MessageOf(e, PAID)) && MessageOf(e, PAID).id == Clash(e).id && Clash(e).id != ""
  {
    DecodeMessage(e, PAID);
    PrintInjective(e, 0);
  }

  lemma DepositEnqueued(e: EventId) returns (s: System, m: Inbox.Message)
    requires e >= 1
    ensures Leads(s, e) && s.bank.db.events == map[e := PAID]
    ensures s.relay.processed == {} && s.relay.batches == map[0 := Outbox.Batch([e], 1, [e], false)]
    ensures m.id == Clash(e).id && m.id != "" && Inbox.Readable(m)
    ensures s.post == AfterRegistration(e).(copies := [Clash(e), m], queued := {1})
  {
    s := DepositQueried(e);
    m := MessageOf(e, PAID);
    PaidIsReadable(e);
    s := FollowPublish(s, 0, m, e);
    assert s.relay.batches[0] == Outbox.Batch([e], 1, [e], false);
  }

  lemma DepositPublished(e: EventId) returns (s: System, m: Inbox.Message)
    requires e >= 1
    ensures Leads(s, e) && s.bank.db.events == map[e := PAID] && s.relay.processed == {e}
    ensures m.id == Clash(e).id && m.id != "" && Inbox.Readable(m)
    ensures s.post == AfterRegistration(e).(copies := [Clash(e), m], queued := {1})
  {
    s, m := DepositEnqueued(e);
    s := Follow(s, Relay(Outbox.Mark(0)), e);
    s := Follow(s, Relay(Outbox.CommitBatch(0)), e);
    assert Outbox.Elements([e]) == {e};
  }

  lemma DepositTaken(e: EventId) returns (s: System, m: Inbox.Message)
    requires e >= 1
    ensures Leads(s, e) && s.bank.db.events == map[e := PAID] && s.relay.processed == {e}
    ensures m.id == Clash(e).id && Inbox.Readable(m)
    ensures s.post == AfterRegistration(e).(copies := [Clash(e), m],
      unacked := map[1 := Inbox.Lease(0, true)], handlers := map[0 := Inbox.Handler(1, Inbox.Received)])
  {
    s, m := DepositPublished(e);
    s := FollowInbox(s, Inbox.Deliver(0, 1), e);
    assert s.post.unacked == map[1 := Inbox.Lease(0, false)];
    s := FollowInbox(s, Inbox.Take(0, 1), e);
  }

  lemma DepositAcked(e: EventId) returns (s: System)
    requires e >= 1
    ensures Leads(s, e) && s.bank.db.events == map[e := PAID] && s.relay.processed == {e}
    ensures s.post.queued == {} && s.post.unacked == map[]
    ensures s.post.mails == AfterRegistration(e).mails && s.post.inbox == AfterRegistration(e).inbox
  {
    var m;
    s, m := DepositTaken(e);
    s := FollowInbox(s, Inbox.Skip(0), e);
    assert s.post.handlers[0] == Inbox.Handler(1, Inbox.Decided(Inbox.AckIt));
    s := FollowInbox(s, Inbox.Settle(0, true), e);
  }

  /**
   For every outbox id there is a run in which no call fails and no consumer stops, a deposit with
   that id commits, its row is PROCESSED, its only message is acked as a duplicate of a registration
   with the same id, and no e-mail goes out.
   */
  lemma CollidingIdLosesTheEmail(e: EventId) returns (acts: seq<Action>)
    requires e >= 1
    ensures Feasible(Init, acts) && AllSmooth(acts, e)
    ensures Lost(Run(Init, acts), e) && EnteredForAuth(Run(Init, acts), e)
  {
    var s := DepositAcked(e);
    assert s.post.mails == [Inbox.MailFor(Clash(e))];
    acts :| Feasible(Init, acts) && Run(Init, acts) == s && AllSmooth(acts, e);
  }
}
