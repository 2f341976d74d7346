/**
 The shared servers behind the services: the billing database with its outbox, the broker and the
 notification database. Service code runs between arbitrary steps of everybody else.
 */
module Servers {
  import opened Decimal
  import opened Ledger
  import opened MoneyPath
  import Billing
  import Outbox
  import Inbox

  /** Whoever is running the code at hand. */
  datatype Actor = Requester(t: TxId) | Worker(w: Outbox.WorkerId) | Consumer(c: Inbox.ConsumerId)

  /** The steps that only this actor's code takes. */
  predicate By(a: Action, me: Actor) {
    match me
    case Requester(t) => a.Bill? && a.billing.t == t
    case Worker(w) => a.Relay? && a.outbox.w == w
    case Consumer(c) =>
      a.Consume? && !a.inbox.Enqueue? && !a.inbox.Deliver? && !a.inbox.Close? && a.inbox.c == c
  }

  ghost predicate ByOthers(acts: seq<Action>, me: Actor) {
    forall i :: 0 <= i < |acts| ==> !By(acts[i], me)
  }

  /** What is this actor's own: its transaction, batch or handler. */
  ghost predicate MineStays(s: System, t: System, me: Actor) {
    match me
    case Requester(x) => (x in t.bank.txs <==> x in s.bank.txs) && (x in s.bank.txs ==> t.bank.txs[x] == s.bank.txs[x])
    case Worker(w) =>
      (w in t.relay.batches <==> w in s.relay.batches)
        && (w in s.relay.batches ==> t.relay.batches[w] == s.relay.batches[w])
    case Consumer(c) =>
      (c in t.post.handlers <==> c in s.post.handlers)
        && (c in s.post.handlers ==> t.post.handlers[c] == s.post.handlers[c])
  }

  lemma MineStaysStep(s: System, a: Action, me: Actor)
    requires Enabled(s, a) && !By(a, me)
    ensures MineStays(s, Exec(s, a), me)
  {
    match me
    case Requester(x) =>
      if a.Bill? { Billing.OthersStay(s.bank, a.billing); }
    case Worker(_) =>
    case Consumer(c) =>
      if a.Consume? && (a.inbox.Enqueue? || a.inbox.c != c) { Inbox.OthersStay(s.post, a.inbox, c); }
  }

  lemma {:induction false} MineStaysRun(s: System, acts: seq<Action>, me: Actor)
    requires Feasible(s, acts) && ByOthers(acts, me)
    ensures MineStays(s, Run(s, acts), me)
  {
    if acts != [] {
      var front, a := acts[..|acts| - 1], acts[|acts| - 1];
      assert !By(acts[|acts| - 1], me);
      MineStaysRun(s, front, me);
      MineStaysStep(Run(s, front), a, me);
    }
  }

  /** Others took some steps while this actor took none. */
  ghost predicate Meanwhile(s: System, t: System, me: Actor) {
    exists acts :: Feasible(s, acts) && Run(s, acts) == t && ByOthers(acts, me)
  }

  lemma MeanwhileStep(s: System, t: System, a: Action, me: Actor)
    requires Meanwhile(s, t, me) && Enabled(t, a) && !By(a, me)
    ensures Meanwhile(s, Exec(t, a), me)
  {
    var acts :| Feasible(s, acts) && Run(s, acts) == t && ByOthers(acts, me);
    RunStep(s, acts, a);
    assert ByOthers(acts + [a], me);
  }

  lemma MeanwhileKeeps(s: System, t: System, me: Actor)
    requires Inv(s) && Meanwhile(s, t, me)
    ensures Inv(t) && Reaches(s, t) && MineStays(s, t, me) && s.bank.log <= t.bank.log && s.post.copies <= t.post.copies
    ensures forall e :: e in s.bank.db.events ==> e in t.bank.db.events && t.bank.db.events[e] == s.bank.db.events[e]
  {
    var acts :| Feasible(s, acts) && Run(s, acts) == t && ByOthers(acts, me);
    InvRun(s, acts);
    MineStaysRun(s, acts, me);
    HistoryStays(s, acts);
  }

  /** From `s` the system ran on to `t`. */
  ghost predicate RanOn(s: System, t: System) {
    Inv(t) && Reaches(s, t)
  }

  lemma RanOnTo(s: System, t: System, u: System)
    requires RanOn(s, t) && RanOn(t, u)
    ensures RanOn(s, u)
  {
    ReachesTransitive(s, t, u);
  }

  lemma OwnStep(s: System, t: System, a: Action)
    requires RanOn(s, t) && Enabled(t, a)
    ensures RanOn(s, Exec(t, a))
  {
    InvStep(t, a);
    ReachesStep(s, t, a);
  }

  /** One turn of a service's loop. */
  datatype Turn<T> = Turn(before: System, after: System, what: T)

  /** From `s` to `t` by these turns, one after the other, each of which did what it should. */
  ghost predicate Turns<T>(s: System, trace: seq<Turn<T>>, t: System, did: Turn<T> -> bool) {
    && (forall i :: 0 <= i < |trace| ==> did(trace[i]))
    && (forall i :: 0 < i < |trace| ==> trace[i].before == trace[i - 1].after)
    && if trace == [] then s == t else trace[0].before == s && trace[|trace| - 1].after == t
  }

  lemma TurnsOn<T>(s: System, trace: seq<Turn<T>>, t: System, turn: Turn<T>, did: Turn<T> -> bool)
    requires Turns(s, trace, t, did) && did(turn) && turn.before == t
    ensures Turns(s, trace + [turn], turn.after, did)
  {}

  lemma TurnsBefore<T>(s: System, trace: seq<Turn<T>>, t: System, did: Turn<T> -> bool)
    requires Turns(s, trace, t, did) && trace != []
    ensures var front, last := trace[..|trace| - 1], trace[|trace| - 1];
      Turns(s, front, last.before, did) && did(last) && last.after == t
  {}

  lemma EntriesStayOn(s: System, t: System)
    requires Inv(s) && RanOn(s, t)
    ensures s.post.copies <= t.post.copies && forall id :: id in s.post.inbox ==> id in t.post.inbox
  {
    var acts :| Feasible(s, acts) && Run(s, acts) == t;
    HistoryStays(s, acts);
  }

  lemma TalliesGrowOn(s: System, t: System)
    requires RanOn(s, t)
    ensures forall e :: s.relay.published[e] <= t.relay.published[e] && s.relay.wasted[e] <= t.relay.wasted[e]
  {
    var acts :| Feasible(s, acts) && Run(s, acts) == t;
    TalliesGrow(s, acts);
  }

  class Platform {
    var bank: Billing.Bank
    var relay: Outbox.Relay
    var post: Inbox.Post

    /** Nobody else is running. */
    const alone: bool
    /** No call fails. */
    const reliable: bool

    constructor (alone: bool, reliable: bool)
      ensures View() == Init && Inv(View())
      ensures this.alone == alone && this.reliable == reliable
    {
      bank, relay, post := Billing.Init, Outbox.Idle, Inbox.Quiet;
      this.alone, this.reliable := alone, reliable;
      new;
      InitInv();
    }

    ghost function View(): System
      reads this
    {
      System(bank, relay, post)
    }

    /** Any number of steps of other actors, in any order. */
    method Interfere(me: Actor)
      requires Inv(View())
      modifies this
      ensures Inv(View()) && Meanwhile(old(View()), View(), me) && Reaches(old(View()), View())
      ensures MineStays(old(View()), View(), me)
      ensures old(bank.log) <= bank.log && old(post.copies) <= post.copies
      ensures forall e :: e in old(bank.db.events) ==>
        e in bank.db.events && bank.db.events[e] == old(bank.db.events)[e]
      ensures alone ==> View() == old(View())
    {
      ghost var start := View();
      assert Feasible(start, []) && Run(start, []) == start && ByOthers([], me);
      var acts: seq<Action> := *;
      var i := 0;
      while i < |acts| && !alone
        invariant 0 <= i <= |acts|
        invariant Meanwhile(start, View(), me)
        invariant alone ==> View() == start
      {
        var s := System(bank, relay, post);
        if Enabled(s, acts[i]) && !By(acts[i], me) {
          MeanwhileStep(start, s, acts[i], me);
          var t := Exec(s, acts[i]);
          bank, relay, post := t.bank, t.relay, t.post;
        }
        i := i + 1;
      }
      MeanwhileKeeps(start, View(), me);
    }

    /** A call to a server may fail. */
    method Fails() returns (fault: bool)
      ensures reliable ==> !fault
    {
      fault := *;
      if reliable { fault := false; }
    }
  }
}
