/** What holds of every run of interleaved billing requests. */
module BillingTheorems {
  import opened Common
  import opened Decimal
  import opened Ledger
  import opened Billing

  // ----- linearizability

  lemma InitInv()
    ensures Inv(Init)
  {}

  /**
   In every interleaving the committed database is the sequential specification run over the
   decisions in their order, and every reply other than a fault is what the specification answers
   at the request's place in that order.
   */
  lemma Linearizable(acts: seq<Action>)
    requires Feasible(Init, acts)
    ensures var b := Run(Init, acts);
      && Legal(b.log) && b.db == Replay(b.log)
      && forall t :: t in b.txs && b.txs[t].pc.Done? && b.txs[t].pc.result != Fault ==>
           && b.txs[t].pc.result.Returned?
           && b.txs[t].decided.Some? && b.txs[t].decided.value < |b.log|
           && b.log[b.txs[t].decided.value].tx == t
           && b.txs[t].pc.result.outcome == Verdict(Replay(b.log[..b.txs[t].decided.value]), b.txs[t].req)
  {
    InvRun(Init, acts);
    var b := Run(Init, acts);
    forall t | t in b.txs && b.txs[t].pc.Done? && b.txs[t].pc.result != Fault
      ensures b.txs[t].pc.result.Returned? && b.txs[t].decided.Some? && b.txs[t].decided.value < |b.log|
      ensures b.log[b.txs[t].decided.value].tx == t
      ensures b.txs[t].pc.result.outcome == Verdict(Replay(b.log[..b.txs[t].decided.value]), b.txs[t].req)
    {
      assert DecidedOk(b.log, t, b.txs[t]);
      LegalPrefix(b.log, b.txs[t].decided.value);
    }
  }

  lemma {:induction false} HistoryGrows(b: Bank, acts: seq<Action>)
    requires Inv(b) && Feasible(b, acts)
    ensures b.log <= Run(b, acts).log
    ensures forall t :: t in b.txs ==> t in Run(b, acts).txs && Run(b, acts).txs[t].req == b.txs[t].req
    ensures forall t :: t in b.txs && b.txs[t].decided.Some? ==> Run(b, acts).txs[t].decided == b.txs[t].decided
  {
    if acts != [] {
      var front := acts[..|acts| - 1];
      HistoryGrows(b, front);
      InvRun(b, front);
      HistoryStep(Run(b, front), acts[|acts| - 1]);
    }
  }

  lemma NewcomersDecideLater(mid: Bank, end: Bank, u: TxId)
    requires Inv(mid) && Inv(end) && mid.log <= end.log
    requires u !in mid.txs && u in end.txs && end.txs[u].decided.Some?
    ensures end.txs[u].decided.value >= |mid.log|
  {
    var j := end.txs[u].decided.value;
    assert DecidedOk(end.log, u, end.txs[u]);
    assert forall i :: 0 <= i < |mid.log| ==> mid.log[i].tx in mid.txs && mid.log[i] == end.log[i];
  }

  /**
   The order respects real time: whatever had been decided when the request `u` had not yet begun
   comes before `u`, however the run continues.
   */
  lemma RealTimeOrder(mid: Bank, acts: seq<Action>, t: TxId, u: TxId)
    requires Inv(mid) && Feasible(mid, acts)
    requires t in mid.txs && mid.txs[t].decided.Some? && u !in mid.txs
    requires u in Run(mid, acts).txs && Run(mid, acts).txs[u].decided.Some?
    ensures t in Run(mid, acts).txs && Run(mid, acts).txs[t].decided.Some?
    ensures Run(mid, acts).txs[t].decided.value < Run(mid, acts).txs[u].decided.value
  {
    InvRun(mid, acts);
    HistoryGrows(mid, acts);
    NewcomersDecideLater(mid, Run(mid, acts), u);
    assert DecidedOk(mid.log, t, mid.txs[t]);
  }

  // ----- money

  /** In every reachable committed state each balance is the sum of its rows, within 0..2^63-1. */
  lemma MoneyIsConserved(acts: seq<Action>)
    requires Feasible(Init, acts)
    ensures Sound(Run(Init, acts).db)
  {
    InvRun(Init, acts);
    LegalImpliesSound(Run(Init, acts).log);
  }

  /** In every reachable committed state events and deposit rows match one to one. */
  lemma OutboxMatchesLedger(acts: seq<Action>)
    requires Feasible(Init, acts)
    ensures exists rows :: Bijection(Run(Init, acts).db, rows)
  {
    InvRun(Init, acts);
    EventsMatchDeposits(Run(Init, acts).log);
  }

  // ----- idempotency

  /** Once a key is committed, no step of any request with that key changes the committed state. */
  lemma CommittedKeyIsInert(b: Bank, a: Action)
    requires Inv(b) && Enabled(b, a)
    requires a.Begin? || HasKey(b.db.ledger, b.txs[a.t].req.key)
    ensures Exec(b, a).db == b.db
  {
    assert !a.Begin? ==> PrivateOk(b.db, b.nextEvent, b.txs[a.t]);
  }

  /** `u` has been answered and was decided after the request `t` with the same key had committed. */
  ghost predicate Retries(b: Bank, t: TxId, u: TxId) {
    && t in b.txs && u in b.txs && b.txs[t].req.key == b.txs[u].req.key
    && b.txs[t].decided.Some? && b.txs[u].decided.Some?
    && b.txs[t].decided.value < b.txs[u].decided.value < |b.log|
    && b.log[b.txs[t].decided.value].outcome == Applied
    && b.txs[u].pc.Done? && b.txs[u].pc.result != Fault
  }

  lemma RetriesAreAnswered(acts: seq<Action>, t: TxId, u: TxId)
    requires Feasible(Init, acts) && Retries(Run(Init, acts), t, u)
    ensures var b := Run(Init, acts);
      b.txs[u].pc.result == Returned(Replayed) <==> PassesChecks(Replay(b.log[..b.txs[u].decided.value]), b.txs[u].req)
  {
    Linearizable(acts);
    InvRun(Init, acts);
    var b := Run(Init, acts);
    assert DecidedOk(b.log, t, b.txs[t]) && DecidedOk(b.log, u, b.txs[u]);
    RetryIsAnsweredExactlyWhenChecksPass(b.log, b.txs[t].decided.value, b.txs[u].decided.value);
    LegalPrefix(b.log, b.txs[u].decided.value);
  }

  /** The lookup after a key conflict always finds the row. */
  lemma ConflictLookupSucceeds(acts: seq<Action>, t: TxId)
    requires Feasible(Init, acts) && t in Run(Init, acts).txs
    ensures Run(Init, acts).txs[t].pc.RolledBack? ==>
      && Enabled(Run(Init, acts), Lookup(t))
      && Exec(Run(Init, acts), Lookup(t)).txs[t].pc == Done(Returned(Replayed))
    ensures Run(Init, acts).txs[t].pc != Done(LookupMissed)
  {
    InvRun(Init, acts);
  }

  /** The steps of the transactions in `keep`. */
  ghost function Erase(acts: seq<Action>, keep: set<TxId>): seq<Action> {
    if acts == [] then [] else
    Erase(acts[..|acts| - 1], keep) + (if acts[|acts| - 1].t in keep then [acts[|acts| - 1]] else [])
  }

  ghost predicate Mimics(b: Bank, c: Bank, keep: set<TxId>) {
    && c.db == b.db && c.nextEvent <= b.nextEvent
    && c.txs.Keys == b.txs.Keys * keep
    && forall t :: t in c.txs ==> c.txs[t].req == b.txs[t].req && c.txs[t].pc == b.txs[t].pc
  }

  lemma MimicEnabled(b: Bank, c: Bank, keep: set<TxId>, a: Action)
    requires Mimics(b, c, keep) && Enabled(b, a) && a.t in keep
    ensures Enabled(c, a)
  {
    if a.LockAccount? || a.TopUp? || a.Overflowed? {
      forall u | u in c.txs ensures !BlocksAccount(c, a.t, u) { assert !BlocksAccount(b, a.t, u); }
    } else if a.InsertRow? {
      forall u | u in c.txs ensures !BlocksKey(c, a.t, u) { assert !BlocksKey(b, a.t, u); }
    }
  }

  lemma MimicPc(b: Bank, c: Bank, keep: set<TxId>, a: Action)
    requires Mimics(b, c, keep) && Enabled(b, a) && Enabled(c, a) && a.t in keep
    ensures Exec(b, a).txs[a.t].req == Exec(c, a).txs[a.t].req && Exec(b, a).txs[a.t].pc == Exec(c, a).txs[a.t].pc
    ensures Exec(b, a).db == Exec(c, a).db && Exec(c, a).nextEvent <= Exec(b, a).nextEvent
  {}

  lemma MimicStep(b: Bank, c: Bank, keep: set<TxId>, a: Action)
    requires Mimics(b, c, keep) && Enabled(b, a) && (a.Commit? ==> a.t in keep)
    ensures a.t in keep ==> Enabled(c, a) && Mimics(Exec(b, a), Exec(c, a), keep)
    ensures a.t !in keep ==> Mimics(Exec(b, a), c, keep)
  {
    OthersStay(b, a);
    OnlyCommitsPublish(b, a);
    if a.t in keep {
      MimicEnabled(b, c, keep, a);
      MimicPc(b, c, keep, a);
      OthersStay(c, a);
    }
  }

  /**
   Deleting from any interleaved run every request that does not commit (replays, refusals, faults)
   leaves a run that is still possible and ends in the same committed state.
   */
  lemma {:induction false} ErasingTheUncommitted(acts: seq<Action>, keep: set<TxId>)
    requires Feasible(Init, acts)
    requires forall i :: 0 <= i < |acts| && acts[i].Commit? ==> acts[i].t in keep
    ensures Feasible(Init, Erase(acts, keep))
    ensures Mimics(Run(Init, acts), Run(Init, Erase(acts, keep)), keep)
  {
    if acts != [] {
      var front, a := acts[..|acts| - 1], acts[|acts| - 1];
      ErasingTheUncommitted(front, keep);
      MimicStep(Run(Init, front), Run(Init, Erase(front, keep)), keep, a);
      if a.t in keep {
        assert Erase(acts, keep)[..|Erase(front, keep)|] == Erase(front, keep);
      } else {
        assert Erase(acts, keep) == Erase(front, keep);
      }
    }
  }

  // ----- deadlock freedom

  /** `t`'s next statement waits for a lock of `u`. */
  ghost predicate WaitsFor(b: Bank, t: TxId, u: TxId) {
    && t in b.txs
    && ( || (b.txs[t].pc.Begun? && BlocksAccount(b, t, u)
             && (b.txs[t].req.Withdraw? ==> b.txs[t].req.user in b.db.accounts))
         || (b.txs[t].pc.Updated? && BlocksKey(b, t, u) && !HasKey(b.db.ledger, b.txs[t].req.key)))
  }

  ghost function Rank(x: Tx): nat {
    if HoldsKey(x) then 2 else if x.pc.Begun? then 0 else 1
  }

  /**
   Who waits for an account holds nothing and waits for the holder of its own user's row, who waits
   for a key holds only its account and waits for the holder of its own key, and who holds a key waits
   for nobody.
   */
  lemma WaitingRaisesRank(b: Bank, t: TxId, u: TxId)
    requires WaitsFor(b, t, u)
    ensures u in b.txs && Rank(b.txs[t]) < Rank(b.txs[u])
    ensures !HoldsKey(b.txs[t]) && (HoldsAccount(b.txs[t]) ==> BlocksKey(b, t, u))
    ensures t != u && (b.txs[t].req.user == b.txs[u].req.user || b.txs[t].req.key == b.txs[u].req.key)
    ensures !HoldsAccount(b.txs[t]) ==> HoldsAccount(b.txs[u]) && b.txs[t].req.user == b.txs[u].req.user
    ensures HoldsAccount(b.txs[t]) ==> HoldsKey(b.txs[u]) && b.txs[t].req.key == b.txs[u].req.key
    ensures HoldsKey(b.txs[u]) ==> forall v :: !WaitsFor(b, u, v)
  {}

  /** The wait-for graph has no cycle, and no chain of more than two waits. */
  lemma {:induction false} WaitsAreAcyclic(b: Bank, path: seq<TxId>)
    requires |path| >= 2
    requires forall i :: 0 <= i < |path| - 1 ==> WaitsFor(b, path[i], path[i + 1])
    ensures path[0] in b.txs && path[|path| - 1] in b.txs
    ensures Rank(b.txs[path[0]]) + |path| - 1 <= Rank(b.txs[path[|path| - 1]])
    ensures path[0] != path[|path| - 1] && |path| <= 3
  {
    var n := |path|;
    WaitingRaisesRank(b, path[n - 2], path[n - 1]);
    if n > 2 { WaitsAreAcyclic(b, path[..n - 1]); }
  }

  lemma {:induction false} UpperBound(ids: set<nat>) returns (m: nat)
    ensures forall i :: i in ids ==> i < m
  {
    m := 0;
    if ids != {} {
      var i :| i in ids;
      var n := UpperBound(ids - {i});
      m := if i < n then n else i + 1;
      assert forall k :: k in ids ==> k == i || k in ids - {i};
    }
  }

  lemma SomeIdIsUnused(b: Bank) returns (id: AccountId)
    ensures UnusedId(b, id)
  {
    var committed := set u | u in b.db.accounts :: b.db.accounts[u].id;
    var pending := set u | u in b.txs && WroteAccount(b.txs[u]) :: b.txs[u].pc.acct.id;
    id := UpperBound(committed + pending);
    forall u | u in b.db.accounts ensures b.db.accounts[u].id != id { assert b.db.accounts[u].id in committed; }
    forall u | u in b.txs && WroteAccount(b.txs[u])
      ensures b.txs[u].pc.acct.id != id
    {
      assert b.txs[u].pc.acct.id in pending;
    }
  }

  /** A step of a request in flight in which no call fails and no reply is lost. */
  predicate Unfailing(a: Action) {
    !a.Begin? && !a.Fail? && (a.Commit? ==> a.acked)
  }

  /** A transaction that waits for nobody has a step of its own, without any failure. */
  lemma UnblockedCanStep(b: Bank, t: TxId) returns (a: Action)
    requires Inv(b) && t in b.txs && !b.txs[t].pc.Done? && forall u :: !WaitsFor(b, t, u)
    ensures Enabled(b, a) && a.t == t && Unfailing(a)
  {
    var x := b.txs[t];
    assert PrivateOk(b.db, b.nextEvent, x);
    var id := SomeIdIsUnused(b);
    forall u | u in b.txs
      ensures x.pc.Begun? && (x.req.Withdraw? ==> x.req.user in b.db.accounts) ==> !BlocksAccount(b, t, u)
      ensures x.pc.Updated? && !HasKey(b.db.ledger, x.req.key) ==> !BlocksKey(b, t, u)
    {
      assert !WaitsFor(b, t, u);
    }
    match x.pc
    case Begun =>
      if x.req.Deposit? {
        a := if Fits(b.db, x.req) then TopUp(t, id) else Overflowed(t);
      } else {
        a := if x.req.user in b.db.accounts then LockAccount(t) else MissAccount(t);
      }
    case Locked(found) => a := if found.balance < x.req.amount then Refuse(t) else Debit(t);
    case Updated(_) => a := if HasKey(b.db.ledger, x.req.key) then ConflictRow(t) else InsertRow(t);
    case Inserted(_, _) => a := if x.req.Deposit? then Emit(t, b.nextEvent) else Commit(t, true);
    case Emitted(_, _, _, _) => a := Commit(t, true);
    case Conflicted => a := Rollback(t);
    case RolledBack => a := Lookup(t);
  }

  /** Another request in flight uses the same account row or the same key. */
  ghost predicate Rivals(b: Bank, t: TxId, u: TxId) {
    && t in b.txs && u in b.txs && t != u && !b.txs[u].pc.Done?
    && (b.txs[u].req.user == b.txs[t].req.user || b.txs[u].req.key == b.txs[t].req.key)
  }

  /** Requests of other users with other keys never hold a request up. */
  lemma StrangersDoNotBlock(b: Bank, t: TxId) returns (a: Action)
    requires Inv(b) && t in b.txs && !b.txs[t].pc.Done? && forall u :: !Rivals(b, t, u)
    ensures Enabled(b, a) && a.t == t && Unfailing(a)
  {
    forall u
      ensures !WaitsFor(b, t, u)
    {
      if WaitsFor(b, t, u) {
        WaitingRaisesRank(b, t, u);
        assert Rivals(b, t, u);
        assert false;
      }
    }
    a := UnblockedCanStep(b, t);
  }

  lemma SomeoneCanStep(b: Bank, t: TxId) returns (a: Action)
    requires Inv(b) && t in b.txs && !b.txs[t].pc.Done?
    ensures Enabled(b, a) && Unfailing(a)
    decreases 2 - Rank(b.txs[t])
  {
    if exists u :: WaitsFor(b, t, u) {
      var u :| WaitsFor(b, t, u);
      WaitingRaisesRank(b, t, u);
      a := SomeoneCanStep(b, u);
    } else {
      a := UnblockedCanStep(b, t);
    }
  }

  function Left(x: Tx): nat {
    match x.pc
    case Begun => 6
    case Locked(_) => 5
    case Updated(_) => 4
    case Inserted(_, _) => 3
    case Emitted(_, _, _, _) => 2
    case Conflicted => 2
    case RolledBack => 1
    case Done(_) => 0
  }

  ghost function Work(b: Bank): set<(TxId, nat)> {
    set t, k | t in b.txs && 0 <= k < Left(b.txs[t]) :: (t, k)
  }

  lemma StepsShrinkWork(b: Bank, a: Action)
    requires Enabled(b, a) && !a.Begin?
    ensures Work(Exec(b, a)) < Work(b)
  {
    var b' := Exec(b, a);
    assert b'.txs == b.txs[a.t := b'.txs[a.t]] && Left(b'.txs[a.t]) < Left(b.txs[a.t]);
    var k := Left(b'.txs[a.t]);
    assert (a.t, k) in Work(b) && (a.t, k) !in Work(b');
  }

  lemma RunOne(b: Bank, a: Action)
    requires Enabled(b, a)
    ensures Feasible(b, [a]) && Run(b, [a]) == Exec(b, a)
  {
    assert [a][..0] == [];
  }

  /** From every reachable state some schedule without failures finishes every request in flight. */
  lemma {:induction false} EveryoneCanFinish(b: Bank) returns (acts: seq<Action>)
    requires Inv(b)
    ensures Feasible(b, acts) && forall i :: 0 <= i < |acts| ==> Unfailing(acts[i])
    ensures forall t :: t in Run(b, acts).txs ==> Run(b, acts).txs[t].pc.Done?
    decreases Work(b)
  {
    acts := [];
    if t :| t in b.txs && !b.txs[t].pc.Done? {
      var a := SomeoneCanStep(b, t);
      InvStep(b, a);
      StepsShrinkWork(b, a);
      var rest := EveryoneCanFinish(Exec(b, a));
      RunOne(b, a);
      RunConcat(b, [a], rest);
      acts := [a] + rest;
    }
  }
}
