/**
 The balance is checked before the idempotency key, so the retry of a request that took effect need
 not get its reply. A run without failures in which it does not.
 */
module Retry {
  import opened Common
  import opened Ledger
  import opened Billing
  import opened BillingTheorems
  import MoneyPath

  ghost predicate WithoutFailure(acts: seq<Action>) {
    forall i :: 0 <= i < |acts| ==> !MoneyPath.Failure(MoneyPath.Bill(acts[i]))
  }

  /** The run gets to `b` without a failure. */
  ghost predicate Leads(acts: seq<Action>, b: Bank) {
    Feasible(Init, acts) && Run(Init, acts) == b && WithoutFailure(acts)
  }

  lemma Follow(acts: seq<Action>, b: Bank, a: Action) returns (more: seq<Action>, c: Bank)
    requires Leads(acts, b) && Enabled(b, a) && !MoneyPath.Failure(MoneyPath.Bill(a))
    ensures Leads(more, c) && c == Exec(b, a)
  {
    RunStep(Init, acts, a);
    more, c := acts + [a], Exec(b, a);
  }

  function Answered(req: Request, outcome: Outcome, place: nat): Tx {
    Tx(req, Done(Returned(outcome)), Some(place))
  }

  lemma DepositRecorded() returns (acts: seq<Action>, b: Bank)
    ensures Leads(acts, b) && b.db == Empty && b.log == [] && b.nextEvent == 1
    ensures b.txs == map[0 := Tx(PAY_IN.ticket.req, Inserted(Account(0, 5), Row(0, 5, DepositRow, "a")), None)]
  {
    acts, b := [], Init;
    acts, b := Follow(acts, b, Begin(0, PAY_IN.ticket.req));
    acts, b := Follow(acts, b, TopUp(0, 0));
    acts, b := Follow(acts, b, InsertRow(0));
  }

  lemma PaidIn() returns (acts: seq<Action>, b: Bank)
    ensures Leads(acts, b) && b.log == [PAY_IN]
    ensures b.db.accounts == map["u" := Account(0, 5)] && b.db.ledger == [Row(0, 5, DepositRow, "a")]
    ensures b.txs == map[0 := Answered(PAY_IN.ticket.req, Applied, 0)]
  {
    acts, b := DepositRecorded();
    acts, b := Follow(acts, b, Emit(0, 1));
    acts, b := Follow(acts, b, Commit(0, true));
  }

  lemma WithdrawalDebited() returns (acts: seq<Action>, b: Bank)
    ensures Leads(acts, b) && b.log == [PAY_IN]
    ensures b.db.accounts == map["u" := Account(0, 5)] && b.db.ledger == [Row(0, 5, DepositRow, "a")]
    ensures b.txs == map[0 := Answered(PAY_IN.ticket.req, Applied, 0),
                         1 := Tx(PAY_OUT.ticket.req, Updated(Account(0, 0)), None)]
  {
    acts, b := PaidIn();
    acts, b := Follow(acts, b, Begin(1, PAY_OUT.ticket.req));
    acts, b := Follow(acts, b, LockAccount(1));
    acts, b := Follow(acts, b, Debit(1));
  }

  lemma PaidOut() returns (acts: seq<Action>, b: Bank)
    ensures Leads(acts, b) && b.log == [PAY_IN, PAY_OUT] && b.db.accounts == map["u" := Account(0, 0)]
    ensures b.txs == map[0 := Answered(PAY_IN.ticket.req, Applied, 0), 1 := Answered(PAY_OUT.ticket.req, Applied, 1)]
  {
    acts, b := WithdrawalDebited();
    acts, b := Follow(acts, b, InsertRow(1));
    acts, b := Follow(acts, b, Commit(1, true));
  }

  /**
   Equal replies to retries fail: 5 is paid in, a withdrawal of 5 is applied, and the same withdrawal
   sent again gets InsufficientFunds, although no step failed.
   */
  lemma RetryOfAWithdrawalIsRefused() returns (acts: seq<Action>)
    ensures Feasible(Init, acts) && WithoutFailure(acts)
    ensures var b := Run(Init, acts);
      && Retries(b, 1, 2) && b.txs[1].req == b.txs[2].req
      && b.txs[1].pc == Done(Returned(Applied)) && b.txs[2].pc == Done(Returned(InsufficientFunds))
  {
    var b;
    acts, b := PaidOut();
    acts, b := Follow(acts, b, Begin(2, PAY_OUT.ticket.req));
    acts, b := Follow(acts, b, LockAccount(2));
    acts, b := Follow(acts, b, Refuse(2));
  }
}
