/**
 The billing service over its repository, statement by statement, while other actors run between
 any two statements. A wait for a lock that outlives the request's context is a failed call.
 */
module BillingServices {
  import opened Common
  import opened Decimal
  import opened Ledger
  import opened MoneyPath
  import opened Servers
  import Billing
  import BillingTheorems

  datatype RepoError = CallFailed | OutOfRange | AccountMissing | KeyConflict | RowMissing
  datatype RepoResult<+T> = Ok(value: T) | Err(error: RepoError)

  /** From `s` the system ran on to `t`; the request of transaction `x` is unchanged. */
  ghost predicate Moved(s: System, t: System, x: TxId) {
    && Inv(t) && Reaches(s, t) && s.bank.log <= t.bank.log
    && x in t.bank.txs && (x in s.bank.txs ==> t.bank.txs[x].req == s.bank.txs[x].req)
  }

  /** Nobody else is running, no call fails and every other request has finished. */
  ghost predicate Quiet(db: Platform, s: System, x: TxId) {
    db.alone && db.reliable && forall u :: u in s.bank.txs && u != x ==> s.bank.txs[u].pc.Done?
  }

  ghost predicate Solo(s: System, t: System, x: TxId) {
    x in t.bank.txs && t.bank.txs == s.bank.txs[x := t.bank.txs[x]]
  }

  /** The system moved on, and when all was quiet only this transaction changed. */
  ghost predicate Path(db: Platform, s: System, t: System, x: TxId) {
    Moved(s, t, x) && (Quiet(db, s, x) ==> Solo(s, t, x))
  }

  lemma SoloOn(db: Platform, s: System, t: System, x: TxId)
    requires Quiet(db, s, x) && Solo(s, t, x)
    ensures Quiet(db, t, x)
  {
    forall v | v in t.bank.txs && v != x ensures t.bank.txs[v].pc.Done? { assert v in s.bank.txs; }
  }

  lemma SoloTwice(s: System, t: System, u: System, x: TxId)
    requires Solo(s, t, x) && Solo(t, u, x)
    ensures Solo(s, u, x)
  {}

  lemma MovedOn(s: System, t: System, u: System, x: TxId)
    requires Moved(s, t, x) && Moved(t, u, x)
    ensures Moved(s, u, x)
  {
    ReachesTransitive(s, t, u);
  }

  lemma PathOn(db: Platform, s: System, t: System, u: System, x: TxId)
    requires Path(db, s, t, x) && Path(db, t, u, x)
    ensures Path(db, s, u, x)
    ensures Quiet(db, s, x) ==> Quiet(db, t, x) && Quiet(db, u, x)
  {
    MovedOn(s, t, u, x);
    if Quiet(db, s, x) {
      SoloOn(db, s, t, x);
      SoloOn(db, t, u, x);
      SoloTwice(s, t, u, x);
    }
  }

  lemma MovedByOwnStep(s: System, t: System, a: Billing.Action)
    requires Inv(t) && Reaches(s, t) && s.bank.log <= t.bank.log && Enabled(t, Bill(a))
    requires a.Begin? ==> a.t !in s.bank.txs
    requires a.t in s.bank.txs ==> a.t in t.bank.txs && t.bank.txs[a.t].req == s.bank.txs[a.t].req
    ensures Moved(s, Exec(t, Bill(a)), a.t)
  {
    InvStep(t, Bill(a));
    ReachesStep(s, t, Bill(a));
    HistoryStep(t, Bill(a));
  }

  lemma TopUpEffect(b: Billing.Bank, t: TxId, drawn: AccountId, row: Account)
    requires t in b.txs && b.txs[t].pc.Begun? && b.txs[t].req.Deposit?
    requires Billing.AccountFree(b, t) && Billing.UnusedId(b, drawn)
    requires var req := b.txs[t].req;
      row == (if req.user in b.db.accounts
              then Account(b.db.accounts[req.user].id, b.db.accounts[req.user].balance + req.amount)
              else Account(drawn, req.amount))
    ensures Billing.Fits(b.db, b.txs[t].req) ==>
      && Billing.Enabled(b, Billing.TopUp(t, drawn))
      && Billing.Exec(b, Billing.TopUp(t, drawn)) == Billing.Goto(b, t, Billing.Updated(row))
    ensures !Billing.Fits(b.db, b.txs[t].req) ==> Billing.Enabled(b, Billing.Overflowed(t))
  {}

  lemma LockEffect(b: Billing.Bank, t: TxId)
    requires t in b.txs && b.txs[t].pc.Begun? && b.txs[t].req.Withdraw?
    ensures b.txs[t].req.user !in b.db.accounts ==>
      && Billing.Enabled(b, Billing.MissAccount(t))
      && Billing.Exec(b, Billing.MissAccount(t)) ==
           Billing.Decide(b, t, Billing.Done(Billing.Returned(AccountNotFound)), 0, 0, AccountNotFound)
    ensures b.txs[t].req.user in b.db.accounts && Billing.AccountFree(b, t) ==>
      && Billing.Enabled(b, Billing.LockAccount(t))
      && Billing.Exec(b, Billing.LockAccount(t)) == Billing.Goto(b, t, Billing.Locked(b.db.accounts[b.txs[t].req.user]))
  {}

  lemma DebitEffect(b: Billing.Bank, t: TxId)
    requires Billing.Inv(b) && t in b.txs && b.txs[t].pc.Locked? && b.txs[t].pc.found.balance >= b.txs[t].req.amount
    ensures b.txs[t].req.user in b.db.accounts && Billing.Enabled(b, Billing.Debit(t))
    ensures Billing.Exec(b, Billing.Debit(t)) == Billing.Goto(b, t,
      Billing.Updated(Account(b.txs[t].pc.found.id, b.db.accounts[b.txs[t].req.user].balance - b.txs[t].req.amount)))
  {
    assert Billing.PrivateOk(b.db, b.nextEvent, b.txs[t]);
  }

  lemma EmitEffect(b: Billing.Bank, t: TxId)
    requires t in b.txs && b.txs[t].pc.Inserted? && b.txs[t].req.Deposit?
    ensures Billing.Enabled(b, Billing.Emit(t, b.nextEvent))
    ensures var x := b.txs[t];
      Billing.Exec(b, Billing.Emit(t, b.nextEvent)) == Billing.Goto(b.(nextEvent := b.nextEvent + 1), t,
        Billing.Emitted(x.pc.acct, x.pc.row, b.nextEvent, Event(x.pc.acct.id, x.req.user, x.req.amount)))
  {}

  lemma CommitEffect(b: Billing.Bank, t: TxId, acked: bool)
    requires t in b.txs && (b.txs[t].pc.Emitted? || (b.txs[t].pc.Inserted? && b.txs[t].req.Withdraw?))
    ensures Billing.Enabled(b, Billing.Commit(t, acked))
    ensures var x := b.txs[t];
      Billing.Exec(b, Billing.Commit(t, acked)) == Billing.Decide(b.(db := Billing.Publish(b.db, x)), t,
        Billing.Done(if acked then Billing.Returned(Applied) else Billing.Fault),
        x.pc.acct.id, if x.pc.Emitted? then x.pc.id else 0, Applied)
  {}

  lemma LookupEffect(b: Billing.Bank, t: TxId)
    requires Billing.Inv(b) && t in b.txs && b.txs[t].pc.RolledBack?
    ensures Billing.Enabled(b, Billing.Lookup(t)) && HasKey(b.db.ledger, b.txs[t].req.key)
    ensures Billing.Exec(b, Billing.Lookup(t)) == Billing.Goto(b, t, Billing.Done(Billing.Returned(Replayed)))
  {
    assert Billing.PrivateOk(b.db, b.nextEvent, b.txs[t]);
  }

  /** What a finished call guarantees. */
  ghost predicate Served(s: System, t: System, x: TxId, req: Request, res: Billing.Result) {
    && Moved(s, t, x) && t.bank.txs[x].req == req && t.bank.txs[x].pc == Billing.Done(res)
    && (res != Billing.Fault ==> res.Returned? && exists i :: Answered(s, t, x, req, res.outcome, i))
  }

  /** The specification gives this answer at place `i`, decided between the call and its return. */
  ghost predicate Answered(s: System, t: System, x: TxId, req: Request, outcome: Outcome, i: nat) {
    && |s.bank.log| <= i < |t.bank.log|
    && t.bank.log[i].tx == x && t.bank.log[i].ticket.req == req
    && outcome == Verdict(Replay(t.bank.log[..i]), req)
  }

  lemma Finished(s: System, t: System, x: TxId, req: Request, res: Billing.Result)
    requires Inv(s) && x !in s.bank.txs && Moved(s, t, x)
    requires t.bank.txs[x].req == req && t.bank.txs[x].pc == Billing.Done(res)
    ensures Served(s, t, x, req, res)
  {
    assert Billing.DecidedOk(t.bank.log, x, t.bank.txs[x]);
    if res != Billing.Fault {
      BillingTheorems.NewcomersDecideLater(s.bank, t.bank, x);
      var i := t.bank.txs[x].decided.value;
      LegalPrefix(t.bank.log, i);
      assert Answered(s, t, x, req, res.outcome, i);
    }
  }

  /** The reply and the new database are those of the sequential specification. */
  ghost predicate AsSpecified(db: Db, db': Db, req: Request, res: Billing.Result) {
    && res == Billing.Returned(Verdict(db, req))
    && exists ticket: Ticket :: ticket.req == req && db' == Apply(db, ticket)
  }

  lemma SoloDecidesOnce(s: System, t: System, x: TxId)
    requires Inv(s) && x !in s.bank.txs && Moved(s, t, x) && Solo(s, t, x) && t.bank.txs[x].decided.Some?
    ensures t.bank.txs[x].decided == Some(|s.bank.log|) && |t.bank.log| == |s.bank.log| + 1
  {
    BillingTheorems.NewcomersDecideLater(s.bank, t.bank, x);
    assert Billing.DecidedOk(t.bank.log, x, t.bank.txs[x]);
    var n := |s.bank.log|;
    forall j | n <= j < |t.bank.log|
      ensures t.bank.log[j].tx == x
    {
      NoOldNews(s, t, x, j);
    }
    assert forall j :: n <= j < |t.bank.log| ==> t.bank.txs[x].decided == Some(j);
    assert t.bank.log[n].tx == x && t.bank.log[|t.bank.log| - 1].tx == x;
  }

  lemma NoOldNews(s: System, t: System, x: TxId, j: nat)
    requires Inv(s) && Moved(s, t, x) && Solo(s, t, x) && |s.bank.log| <= j < |t.bank.log|
    ensures t.bank.log[j].tx == x
  {
    var u := t.bank.log[j].tx;
    assert u in t.bank.txs && t.bank.txs[u].decided == Some(j);
    assert u in s.bank.txs ==> Billing.DecidedOk(s.bank.log, u, s.bank.txs[u]);
  }

  lemma SoloIsSequential(s: System, t: System, x: TxId, req: Request, res: Billing.Result)
    requires Inv(s) && x !in s.bank.txs && Moved(s, t, x) && Solo(s, t, x)
    requires t.bank.txs[x].req == req && t.bank.txs[x].pc == Billing.Done(res) && res != Billing.Fault
    ensures AsSpecified(s.bank.db, t.bank.db, req, res)
  {
    var n := |s.bank.log|;
    assert Billing.DecidedOk(t.bank.log, x, t.bank.txs[x]);
    SoloDecidesOnce(s, t, x);
    assert t.bank.log[..n] == s.bank.log && t.bank.log[..|t.bank.log| - 1] == s.bank.log;
    LegalPrefix(t.bank.log, n);
    var ticket := t.bank.log[n].ticket;
    assert ticket.req == req && t.bank.db == Apply(s.bank.db, ticket);
  }

  /** Another request in flight is for the same user's account. */
  ghost predicate AccountContended(b: Billing.Bank, t: TxId) {
    exists u :: BillingTheorems.Rivals(b, t, u) && b.txs[u].req.user == b.txs[t].req.user
  }

  /** Another request in flight has the same key. */
  ghost predicate KeyContended(b: Billing.Bank, t: TxId) {
    exists u :: BillingTheorems.Rivals(b, t, u) && b.txs[u].req.key == b.txs[t].req.key
  }

  ghost predicate Contended(b: Billing.Bank, t: TxId) {
    exists u :: BillingTheorems.Rivals(b, t, u)
  }

  lemma LockedByARival(b: Billing.Bank, t: TxId)
    requires t in b.txs
    ensures !Billing.AccountFree(b, t) ==> AccountContended(b, t)
    ensures !Billing.KeyFree(b, t) ==> KeyContended(b, t)
  {
    if !Billing.AccountFree(b, t) {
      var u :| u in b.txs && Billing.BlocksAccount(b, t, u);
      assert BillingTheorems.Rivals(b, t, u);
    }
    if !Billing.KeyFree(b, t) {
      var u :| u in b.txs && Billing.BlocksKey(b, t, u);
      assert BillingTheorems.Rivals(b, t, u);
    }
  }

  /** Giving up oneself leaves the rivals where they are. */
  lemma RivalsStay(s: System, t: System, x: TxId)
    requires Contended(s.bank, x) && Solo(s, t, x) && t.bank.txs[x].req == s.bank.txs[x].req
    ensures Contended(t.bank, x)
  {
    var u :| BillingTheorems.Rivals(s.bank, x, u);
    assert BillingTheorems.Rivals(t.bank, x, u);
  }

  class BillingRepo {
    const db: Platform

    constructor (db: Platform)
      ensures this.db == db
    {
      this.db := db;
    }

    ghost predicate At(t: TxId)
      reads db
    {
      Inv(db.View()) && t in db.bank.txs
    }

    /** Others go on while a statement is on its way; it may fail. */
    method Call(t: TxId) returns (fault: bool)
      requires At(t)
      modifies db
      ensures Moved(old(db.View()), db.View(), t) && db.bank.txs[t] == old(db.bank.txs[t])
      ensures db.reliable ==> !fault
      ensures Quiet(db, old(db.View()), t) ==> db.View() == old(db.View())
    {
      db.Interfere(Requester(t));
      fault := db.Fails();
    }

    /** One statement of transaction `t` took effect. */
    method Become(ghost start: System, t: TxId, bank: Billing.Bank, ghost a: Billing.Action)
      requires At(t) && a.t == t && Billing.Enabled(db.bank, a) && Billing.Exec(db.bank, a) == bank
      requires Moved(start, db.View(), t)
      modifies db
      ensures Moved(start, db.View(), t) && db.bank == bank && Solo(old(db.View()), db.View(), t)
    {
      MovedByOwnStep(start, db.View(), a);
      Billing.OthersStay(db.bank, a);
      db.bank := bank;
    }

    /** The BIGINT addition fails, and with it the transaction. */
    method Overflows(ghost start: System, t: TxId)
      requires At(t) && Moved(start, db.View(), t) && Billing.Enabled(db.bank, Billing.Overflowed(t))
      modifies db
      ensures Moved(start, db.View(), t) && Solo(old(db.View()), db.View(), t)
      ensures db.bank.txs[t].pc == Billing.Done(Billing.Returned(Overflow))
    {
      Become(start, t, Billing.Decide(db.bank, t, Billing.Done(Billing.Returned(Overflow)), 0, 0, Overflow),
             Billing.Overflowed(t));
    }

    method TopUpAccountTx(t: TxId, userId: UserId, amount: int) returns (r: RepoResult<AccountId>)
      requires At(t) && db.bank.txs[t].pc.Begun? && db.bank.txs[t].req.Deposit?
      requires db.bank.txs[t].req.user == userId && db.bank.txs[t].req.amount == amount
      modifies db
      ensures Path(db, old(db.View()), db.View(), t)
      ensures Quiet(db, old(db.View()), t) ==> r != Err(CallFailed)
      ensures db.reliable && r == Err(CallFailed) ==> AccountContended(db.bank, t)
      ensures r.Ok? ==> db.bank.txs[t].pc.Updated? && db.bank.txs[t].pc.acct.id == r.value
      ensures r.Err? ==>
        || (r.error == OutOfRange && db.bank.txs[t].pc == Billing.Done(Billing.Returned(Overflow)))
        || (r.error == CallFailed && db.bank.txs[t].pc.Begun?)
    {
      ghost var start := db.View();
      var fault := Call(t);
      LockedByARival(db.bank, t);
      if fault || !Billing.AccountFree(db.bank, t) {
        return Err(CallFailed);
      }
      var drawn: AccountId;
      ghost var unused := BillingTheorems.SomeIdIsUnused(db.bank);
      drawn :| Billing.UnusedId(db.bank, drawn);
      if userId in db.bank.db.accounts {
        r := TopUpExisting(start, t, userId, amount, drawn);
      } else {
        r := CreateAccount(start, t, amount, drawn);
      }
    }

    /** The upsert found a row: its balance grows, unless the BIGINT addition fails. */
    method TopUpExisting(ghost start: System, t: TxId, userId: UserId, amount: int, ghost drawn: AccountId)
      returns (r: RepoResult<AccountId>)
      requires ToppingUp(t, amount, drawn) && Moved(start, db.View(), t)
      requires db.bank.txs[t].req.user == userId && userId in db.bank.db.accounts
      modifies db
      ensures Moved(start, db.View(), t) && Solo(old(db.View()), db.View(), t)
      ensures r.Ok? ==> db.bank.txs[t].pc.Updated? && db.bank.txs[t].pc.acct.id == r.value
      ensures r.Err? ==> r.error == OutOfRange && db.bank.txs[t].pc == Billing.Done(Billing.Returned(Overflow))
    {
      var existing := db.bank.db.accounts[userId];
      if existing.balance + amount > MAX_INT64 {
        Overflows(start, t);
        return Err(OutOfRange);
      }
      var row := Account(existing.id, existing.balance + amount);
      TopUpEffect(db.bank, t, drawn, row);
      Become(start, t, Billing.Goto(db.bank, t, Billing.Updated(row)), Billing.TopUp(t, drawn));
      r := Ok(row.id);
    }

    /** The upsert found no row: it inserts one with a fresh id. */
    method CreateAccount(ghost start: System, t: TxId, amount: int, drawn: AccountId) returns (r: RepoResult<AccountId>)
      requires ToppingUp(t, amount, drawn) && Moved(start, db.View(), t)
      requires db.bank.txs[t].req.user !in db.bank.db.accounts
      modifies db
      ensures Moved(start, db.View(), t) && Solo(old(db.View()), db.View(), t)
      ensures r == Ok(drawn) && db.bank.txs[t].pc.Updated? && db.bank.txs[t].pc.acct.id == drawn
    {
      var row := Account(drawn, amount);
      TopUpEffect(db.bank, t, drawn, row);
      Become(start, t, Billing.Goto(db.bank, t, Billing.Updated(row)), Billing.TopUp(t, drawn));
      r := Ok(drawn);
    }

    /** The account row is the transaction's to write, with this id if it is new. */
    ghost predicate ToppingUp(t: TxId, amount: int, drawn: AccountId)
      reads db
    {
      && At(t) && db.bank.txs[t].pc.Begun? && db.bank.txs[t].req.Deposit? && db.bank.txs[t].req.amount == amount
      && Billing.AccountFree(db.bank, t) && Billing.UnusedId(db.bank, drawn)
    }

    /** SELECT ... FOR UPDATE */
    method GetAccountByUserIdTx(t: TxId, userId: UserId) returns (r: RepoResult<Account>)
      requires At(t) && db.bank.txs[t].pc.Begun? && db.bank.txs[t].req.Withdraw? && db.bank.txs[t].req.user == userId
      modifies db
      ensures Path(db, old(db.View()), db.View(), t)
      ensures Quiet(db, old(db.View()), t) ==> r != Err(CallFailed)
      ensures db.reliable && r == Err(CallFailed) ==> AccountContended(db.bank, t)
      ensures r.Ok? ==> db.bank.txs[t].pc == Billing.Locked(r.value)
      ensures r.Err? ==>
        || (r.error == AccountMissing && db.bank.txs[t].pc == Billing.Done(Billing.Returned(AccountNotFound)))
        || (r.error == CallFailed && db.bank.txs[t].pc.Begun?)
    {
      ghost var start := db.View();
      var fault := Call(t);
      if fault {
        return Err(CallFailed);
      }
      if userId !in db.bank.db.accounts {
        Misses(start, t);
        return Err(AccountMissing);
      }
      if !Billing.AccountFree(db.bank, t) {
        LockedByARival(db.bank, t);
        return Err(CallFailed);
      }
      var row := Locks(start, t, userId);
      r := Ok(row);
    }

    /** No such row: nothing is locked, and the request is decided. */
    method Misses(ghost start: System, t: TxId)
      requires At(t) && Moved(start, db.View(), t) && db.bank.txs[t].pc.Begun? && db.bank.txs[t].req.Withdraw?
      requires db.bank.txs[t].req.user !in db.bank.db.accounts
      modifies db
      ensures Moved(start, db.View(), t) && Solo(old(db.View()), db.View(), t)
      ensures db.bank.txs[t].pc == Billing.Done(Billing.Returned(AccountNotFound))
    {
      LockEffect(db.bank, t);
      Become(start, t,
        Billing.Decide(db.bank, t, Billing.Done(Billing.Returned(AccountNotFound)), 0, 0, AccountNotFound),
        Billing.MissAccount(t));
    }

    method Locks(ghost start: System, t: TxId, userId: UserId) returns (row: Account)
      requires At(t) && Moved(start, db.View(), t) && db.bank.txs[t].pc.Begun? && db.bank.txs[t].req.Withdraw?
      requires db.bank.txs[t].req.user == userId && userId in db.bank.db.accounts && Billing.AccountFree(db.bank, t)
      modifies db
      ensures Moved(start, db.View(), t) && Solo(old(db.View()), db.View(), t)
      ensures row == old(db.bank.db.accounts[userId]) && db.bank.txs[t].pc == Billing.Locked(row)
    {
      LockEffect(db.bank, t);
      row := db.bank.db.accounts[userId];
      Become(start, t, Billing.Goto(db.bank, t, Billing.Locked(row)), Billing.LockAccount(t));
    }

    /** UPDATE accounts SET balance = balance - amount: the balance is the row's, not the caller's. */
    method WithdrawAccountTx(t: TxId, amount: int, id: AccountId) returns (ok: bool)
      requires At(t) && db.bank.txs[t].pc.Locked? && db.bank.txs[t].req.amount == amount
      requires db.bank.txs[t].pc.found.id == id && db.bank.txs[t].pc.found.balance >= amount
      modifies db
      ensures Path(db, old(db.View()), db.View(), t)
      ensures db.reliable ==> ok
      ensures ok ==> db.bank.txs[t].pc.Updated? && db.bank.txs[t].pc.acct.id == id
      ensures !ok ==> !db.bank.txs[t].pc.Done?
    {
      ghost var start := db.View();
      var fault := Call(t);
      if fault {
        return false;
      }
      Debits(start, t, amount, id);
      ok := true;
    }

    method Debits(ghost start: System, t: TxId, amount: int, id: AccountId)
      requires At(t) && Moved(start, db.View(), t) && db.bank.txs[t].pc.Locked? && db.bank.txs[t].req.amount == amount
      requires db.bank.txs[t].pc.found.id == id && db.bank.txs[t].pc.found.balance >= amount
      modifies db
      ensures Moved(start, db.View(), t) && Solo(old(db.View()), db.View(), t)
      ensures db.bank.txs[t].pc.Updated? && db.bank.txs[t].pc.acct.id == id
    {
      DebitEffect(db.bank, t);
      var row := db.bank.db.accounts[db.bank.txs[t].req.user];
      Become(start, t, Billing.Goto(db.bank, t, Billing.Updated(Account(id, row.balance - amount))), Billing.Debit(t));
    }

    method InsertTransactionTx(t: TxId, accountId: AccountId, amount: int, kind: Kind, key: Key)
      returns (r: RepoResult<()>)
      requires At(t) && db.bank.txs[t].pc.Updated?
      requires Row(accountId, amount, kind, key) == Billing.NewRow(db.bank.txs[t])
      modifies db
      ensures Path(db, old(db.View()), db.View(), t)
      ensures Quiet(db, old(db.View()), t) ==> r != Err(CallFailed)
      ensures db.reliable && r == Err(CallFailed) ==> KeyContended(db.bank, t)
      ensures r.Ok? ==> db.bank.txs[t].pc.Inserted? && db.bank.txs[t].pc.acct.id == accountId
      ensures r.Err? ==>
        || (r.error == KeyConflict && db.bank.txs[t].pc.Conflicted?)
        || (r.error == CallFailed && !db.bank.txs[t].pc.Done?)
    {
      ghost var start := db.View();
      var fault := Call(t);
      if fault {
        return Err(CallFailed);
      }
      if HasKey(db.bank.db.ledger, key) {
        Become(start, t, Billing.Decide(db.bank, t, Billing.Conflicted, 0, 0, Replayed), Billing.ConflictRow(t));
        return Err(KeyConflict);
      }
      if !Billing.KeyFree(db.bank, t) {
        LockedByARival(db.bank, t);
        return Err(CallFailed);
      }
      Become(start, t,
        Billing.Goto(db.bank, t, Billing.Inserted(db.bank.txs[t].pc.acct, Row(accountId, amount, kind, key))),
        Billing.InsertRow(t));
      r := Ok(());
    }

    /** A read outside the transaction, after it was rolled back. */
    method FindByIdempotencyKey(t: TxId, key: Key) returns (r: RepoResult<Row>)
      requires At(t) && db.bank.txs[t].pc.RolledBack? && db.bank.txs[t].req.key == key
      modifies db
      ensures Path(db, old(db.View()), db.View(), t)
      ensures db.reliable ==> r.Ok?
      ensures r.Ok? ==> r.value.key == key && db.bank.txs[t].pc == Billing.Done(Billing.Returned(Replayed))
      ensures r.Err? ==> r.error == CallFailed && !db.bank.txs[t].pc.Done?
    {
      ghost var start := db.View();
      var fault := Call(t);
      if fault {
        return Err(CallFailed);
      }
      var row := SelectByKey(key);
      LookupEffect(db.bank, t);
      if row.None? {
        assert false;
        return Err(RowMissing);
      }
      Become(start, t, Billing.Goto(db.bank, t, Billing.Done(Billing.Returned(Replayed))), Billing.Lookup(t));
      r := Ok(row.value);
    }

    method SelectByKey(key: Key) returns (row: Option<Row>)
      ensures row.Some? <==> HasKey(db.bank.db.ledger, key)
      ensures row.Some? ==> row.value in db.bank.db.ledger && row.value.key == key
    {
      var i := 0;
      while i < |db.bank.db.ledger|
        invariant 0 <= i <= |db.bank.db.ledger|
        invariant forall j :: 0 <= j < i ==> db.bank.db.ledger[j].key != key
      {
        if db.bank.db.ledger[i].key == key {
          return Some(db.bank.db.ledger[i]);
        }
        i := i + 1;
      }
      row := None;
    }
  }

  class BillingService {
    const db: Platform
    const repo: BillingRepo

    constructor (db: Platform)
      ensures this.db == db && repo.db == db
    {
      this.db := db;
      repo := new BillingRepo(db);
    }

    ghost predicate Valid()
      reads db
    {
      repo.db == db && Inv(db.View())
    }

    method Begin(t: TxId, req: Request) returns (ok: bool)
      requires Valid() && t !in db.bank.txs && ValidRequest(req)
      modifies db
      ensures Valid() && Path(db, old(db.View()), db.View(), t) && db.bank.txs[t].req == req
      ensures db.reliable ==> ok
      ensures db.bank.txs[t].pc == if ok then Billing.Begun else Billing.Done(Billing.Fault)
    {
      ghost var start := db.View();
      db.Interfere(Requester(t));
      ghost var before := db.View();
      db.bank := db.bank.(txs := db.bank.txs[t := Billing.Tx(req, Billing.Begun, None)]);
      MovedByOwnStep(start, before, Billing.Begin(t, req));
      var fault := db.Fails();
      ghost var begun := db.View();
      if fault {
        GiveUp(t);
        PathOn(db, start, begun, db.View(), t);
      }
      ok := !fault;
    }

    /** The balance check failed under the row lock. */
    method Refuse(t: TxId)
      requires Valid() && t in db.bank.txs && db.bank.txs[t].pc.Locked?
      requires db.bank.txs[t].pc.found.balance < db.bank.txs[t].req.amount
      modifies db
      ensures Valid() && Path(db, old(db.View()), db.View(), t)
      ensures db.bank.txs[t].pc == Billing.Done(Billing.Returned(InsufficientFunds))
    {
      ReachesSelf(db.View());
      repo.Become(db.View(), t,
        Billing.Decide(db.bank, t, Billing.Done(Billing.Returned(InsufficientFunds)), 0, 0, InsufficientFunds),
        Billing.Refuse(t));
    }

    /** The deferred rollback after a failed call. */
    method GiveUp(t: TxId)
      requires Valid() && t in db.bank.txs && !db.bank.txs[t].pc.Done?
      modifies db
      ensures old(Contended(db.bank, t)) ==> Contended(db.bank, t)
      ensures Valid() && Path(db, old(db.View()), db.View(), t) && db.bank.txs[t].pc == Billing.Done(Billing.Fault)
    {
      ghost var start := db.View();
      ReachesSelf(start);
      db.bank := Billing.Goto(db.bank, t, Billing.Done(Billing.Fault));
      MovedByOwnStep(start, start, Billing.Fail(t));
      if Contended(start.bank, t) { RivalsStay(start, db.View(), t); }
    }

    /** tx.Commit: an error may come back although the commit took effect. */
    method Commit(t: TxId) returns (res: Billing.Result)
      requires Valid() && t in db.bank.txs
      requires db.bank.txs[t].pc.Emitted? || (db.bank.txs[t].pc.Inserted? && db.bank.txs[t].req.Withdraw?)
      modifies db
      ensures Valid() && Path(db, old(db.View()), db.View(), t) && db.bank.txs[t].pc == Billing.Done(res)
      ensures db.reliable ==> res != Billing.Fault
      ensures res == Billing.Returned(Applied) || res == Billing.Fault
    {
      ghost var start := db.View();
      var fault := repo.Call(t);
      ghost var before := db.View();
      if fault {
        var lost: bool := *;
        if lost {
          GiveUp(t);
          PathOn(db, start, before, db.View(), t);
          return Billing.Fault;
        }
      }
      var x := db.bank.txs[t];
      var event := if x.pc.Emitted? then x.pc.id else 0;
      res := if fault then Billing.Fault else Billing.Returned(Applied);
      CommitEffect(db.bank, t, !fault);
      repo.Become(start, t,
        Billing.Decide(db.bank.(db := Billing.Publish(db.bank.db, x)), t,
                       Billing.Done(res), x.pc.acct.id, event, Applied),
        Billing.Commit(t, !fault));
    }

    method HandleIdempotencyError(t: TxId, key: Key) returns (ok: bool)
      requires Valid() && t in db.bank.txs && db.bank.txs[t].pc.Conflicted? && db.bank.txs[t].req.key == key
      modifies db
      ensures Valid() && Path(db, old(db.View()), db.View(), t)
      ensures db.reliable ==> ok
      ensures db.bank.txs[t].pc == Billing.Done(if ok then Billing.Returned(Replayed) else Billing.Fault)
    {
      ghost var start := db.View();
      var fault := repo.Call(t);
      ghost var s := db.View();
      if fault {
        GiveUp(t);
        PathOn(db, start, s, db.View(), t);
        return false;
      }
      repo.Become(start, t, Billing.Goto(db.bank, t, Billing.RolledBack), Billing.Rollback(t));
      s := db.View();
      var found := repo.FindByIdempotencyKey(t, key);
      PathOn(db, start, s, db.View(), t);
      s := db.View();
      if found.Err? {
        GiveUp(t);
        PathOn(db, start, s, db.View(), t);
      }
      ok := found.Ok?;
    }

    /** INSERT INTO outbox_events */
    method InsertOutboxEventTx(t: TxId, aggregateId: AccountId, user: UserId, amount: int) returns (ok: bool)
      requires Valid() && t in db.bank.txs && db.bank.txs[t].pc.Inserted? && db.bank.txs[t].req.Deposit?
      requires aggregateId == db.bank.txs[t].pc.acct.id && user == db.bank.txs[t].req.user
        && amount == db.bank.txs[t].req.amount
      modifies db
      ensures Valid() && Path(db, old(db.View()), db.View(), t)
      ensures db.reliable ==> ok
      ensures if ok then db.bank.txs[t].pc.Emitted? else !db.bank.txs[t].pc.Done?
    {
      ghost var start := db.View();
      var fault := repo.Call(t);
      if fault {
        return false;
      }
      Emits(start, t, Event(aggregateId, user, amount));
      ok := true;
    }

    /** The row gets the next id of the sequence, committed or not. */
    method Emits(ghost start: System, t: TxId, event: Event)
      requires Valid() && t in db.bank.txs && Moved(start, db.View(), t)
      requires db.bank.txs[t].pc.Inserted? && db.bank.txs[t].req.Deposit?
      requires event == Event(db.bank.txs[t].pc.acct.id, db.bank.txs[t].req.user, db.bank.txs[t].req.amount)
      modifies db
      ensures Valid() && Moved(start, db.View(), t) && Solo(old(db.View()), db.View(), t)
      ensures db.bank.txs[t].pc.Emitted?
    {
      var id, x := db.bank.nextEvent, db.bank.txs[t];
      EmitEffect(db.bank, t);
      repo.Become(start, t,
        Billing.Goto(db.bank.(nextEvent := id + 1), t, Billing.Emitted(x.pc.acct, x.pc.row, id, event)),
        Billing.Emit(t, id));
    }

    /** The ledger insert with its error handling; `reply` is the call's reply when the call ends here. */
    method Record(t: TxId, accountId: AccountId, amount: int, kind: Kind, key: Key)
      returns (reply: Option<Billing.Result>)
      requires Valid() && t in db.bank.txs && db.bank.txs[t].pc.Updated?
      requires Row(accountId, amount, kind, key) == Billing.NewRow(db.bank.txs[t])
      modifies db
      ensures Valid() && Path(db, old(db.View()), db.View(), t)
      ensures reply.None? ==> db.bank.txs[t].pc.Inserted? && db.bank.txs[t].pc.acct.id == accountId
      ensures reply.Some? ==> db.bank.txs[t].pc == Billing.Done(reply.value)
      ensures Quiet(db, old(db.View()), t) ==> reply != Some(Billing.Fault)
      ensures db.reliable && reply == Some(Billing.Fault) ==> Contended(db.bank, t)
    {
      ghost var start := db.View();
      var inserted := repo.InsertTransactionTx(t, accountId, amount, kind, key);
      if inserted.Ok? {
        return None;
      }
      ghost var s := db.View();
      if inserted.error == KeyConflict {
        var ok := HandleIdempotencyError(t, key);
        PathOn(db, start, s, db.View(), t);
        return Some(if ok then Billing.Returned(Replayed) else Billing.Fault);
      }
      GiveUp(t);
      PathOn(db, start, s, db.View(), t);
      reply := Some(Billing.Fault);
    }

    /**
     However others interleave and whatever fails, a deposit is a run of the transition system, and a
     reply other than a fault is the specification's answer at a point during the call. When no call
     fails, a fault means that another request for the same account or with the same key is in flight.
     */
    method Deposit(t: TxId, req: Request) returns (res: Billing.Result)
      requires Valid() && t !in db.bank.txs && ValidRequest(req) && req.Deposit?
      modifies db
      ensures Valid() && Served(old(db.View()), db.View(), t, req, res)
      ensures db.reliable && res == Billing.Fault ==> Contended(db.bank, t)
      ensures Quiet(db, old(db.View()), t) ==> AsSpecified(old(db.bank.db), db.bank.db, req, res)
    {
      ghost var start := db.View();
      res := DepositTx(t, req);
      Finished(start, db.View(), t, req, res);
      if Quiet(db, start, t) { SoloIsSequential(start, db.View(), t, req, res); }
    }

    method DepositTx(t: TxId, req: Request) returns (res: Billing.Result)
      requires Valid() && t !in db.bank.txs && ValidRequest(req) && req.Deposit?
      modifies db
      ensures Valid() && Path(db, old(db.View()), db.View(), t)
      ensures Quiet(db, old(db.View()), t) ==> res != Billing.Fault
      ensures db.reliable && res == Billing.Fault ==> Contended(db.bank, t)
      ensures db.bank.txs[t].req == req && db.bank.txs[t].pc == Billing.Done(res)
    {
      ghost var start := db.View();
      var ok := Begin(t, req);
      if !ok {
        return Billing.Fault;
      }
      ghost var s := db.View();
      var account := repo.TopUpAccountTx(t, req.user, req.amount);
      PathOn(db, start, s, db.View(), t);
      s := db.View();
      if account.Err? {
        if account.error == OutOfRange {
          return Billing.Returned(Overflow);
        }
        GiveUp(t);
        PathOn(db, start, s, db.View(), t);
        return Billing.Fault;
      }
      var reply := Record(t, account.value, req.amount, DepositRow, req.key);
      PathOn(db, start, s, db.View(), t);
      s := db.View();
      if reply.Some? {
        return reply.value;
      }
      ok := InsertOutboxEventTx(t, account.value, req.user, req.amount);
      PathOn(db, start, s, db.View(), t);
      s := db.View();
      if !ok {
        GiveUp(t);
        PathOn(db, start, s, db.View(), t);
        return Billing.Fault;
      }
      res := Commit(t);
      PathOn(db, start, s, db.View(), t);
    }

    /** The same for a withdrawal. */
    method Withdraw(t: TxId, req: Request) returns (res: Billing.Result)
      requires Valid() && t !in db.bank.txs && ValidRequest(req) && req.Withdraw?
      modifies db
      ensures Valid() && Served(old(db.View()), db.View(), t, req, res)
      ensures db.reliable && res == Billing.Fault ==> Contended(db.bank, t)
      ensures Quiet(db, old(db.View()), t) ==> AsSpecified(old(db.bank.db), db.bank.db, req, res)
    {
      ghost var start := db.View();
      res := WithdrawTx(t, req);
      Finished(start, db.View(), t, req, res);
      if Quiet(db, start, t) { SoloIsSequential(start, db.View(), t, req, res); }
    }

    method WithdrawTx(t: TxId, req: Request) returns (res: Billing.Result)
      requires Valid() && t !in db.bank.txs && ValidRequest(req) && req.Withdraw?
      modifies db
      ensures Valid() && Path(db, old(db.View()), db.View(), t)
      ensures Quiet(db, old(db.View()), t) ==> res != Billing.Fault
      ensures db.reliable && res == Billing.Fault ==> Contended(db.bank, t)
      ensures db.bank.txs[t].req == req && db.bank.txs[t].pc == Billing.Done(res)
    {
      ghost var start := db.View();
      var ok := Begin(t, req);
      if !ok {
        return Billing.Fault;
      }
      ghost var s := db.View();
      var account := repo.GetAccountByUserIdTx(t, req.user);
      PathOn(db, start, s, db.View(), t);
      s := db.View();
      if account.Err? {
        if account.error == AccountMissing {
          return Billing.Returned(AccountNotFound);
        }
        GiveUp(t);
        PathOn(db, start, s, db.View(), t);
        return Billing.Fault;
      }
      if account.value.balance < req.amount {
        Refuse(t);
        PathOn(db, start, s, db.View(), t);
        return Billing.Returned(InsufficientFunds);
      }
      ok := repo.WithdrawAccountTx(t, req.amount, account.value.id);
      PathOn(db, start, s, db.View(), t);
      s := db.View();
      if !ok {
        GiveUp(t);
        PathOn(db, start, s, db.View(), t);
        return Billing.Fault;
      }
      var reply := Record(t, account.value.id, req.amount, WithdrawalRow, req.key);
      PathOn(db, start, s, db.View(), t);
      s := db.View();
      if reply.Some? {
        return reply.value;
      }
      res := Commit(t);
      PathOn(db, start, s, db.View(), t);
    }
  }
}
