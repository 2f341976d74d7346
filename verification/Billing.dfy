/**
 Billing requests as interleaved database transactions.

 The committed database is shared; each transaction keeps its writes private until it commits.
 A transaction locks at most one account row (by user) and one idempotency key. Reads under a
 lock see the newest committed row. A locked row or key makes others wait: their step is disabled.
 A failure, a lost connection or a crash may end a transaction at any point before it commits.

 `log` and `decided` are history: they record the order of the decision points.
 */
module Billing {
  import opened Common
  import opened Decimal
  import opened Ledger

  datatype Result = Returned(outcome: Outcome) | Fault | LookupMissed

  datatype Pc =
    | Begun
    | Locked(found: Account)
    | Updated(acct: Account)
    | Inserted(acct: Account, row: Row)
    | Emitted(acct: Account, row: Row, id: EventId, event: Event)
    | Conflicted
    | RolledBack
    | Done(result: Result)

  datatype Tx = Tx(req: Request, pc: Pc, decided: Option<nat>)

  datatype Bank = Bank(db: Db, txs: map<TxId, Tx>, nextEvent: EventId, log: seq<Decision>)

  const Init := Bank(Empty, map[], 1, [])

  datatype Action =
    | Begin(t: TxId, req: Request)
    | LockAccount(t: TxId)
    | MissAccount(t: TxId)
    | Refuse(t: TxId)
    | Debit(t: TxId)
    | TopUp(t: TxId, drawn: AccountId)
    | Overflowed(t: TxId)
    | InsertRow(t: TxId)
    | ConflictRow(t: TxId)
    | Emit(t: TxId, id: EventId)
    | Commit(t: TxId, acked: bool)
    | Rollback(t: TxId)
    | Lookup(t: TxId)
    | Fail(t: TxId)

  // ----- locks

  predicate WroteAccount(x: Tx) {
    x.pc.Updated? || x.pc.Inserted? || x.pc.Emitted?
  }

  /** An aborted transaction keeps its row lock until it is rolled back. */
  predicate HoldsAccount(x: Tx) {
    x.pc.Locked? || WroteAccount(x) || x.pc.Conflicted?
  }

  predicate HoldsKey(x: Tx) {
    x.pc.Inserted? || x.pc.Emitted?
  }

  predicate BlocksAccount(b: Bank, t: TxId, u: TxId) {
    t in b.txs && u in b.txs && t != u && HoldsAccount(b.txs[u]) && b.txs[u].req.user == b.txs[t].req.user
  }

  predicate BlocksKey(b: Bank, t: TxId, u: TxId) {
    t in b.txs && u in b.txs && t != u && HoldsKey(b.txs[u]) && b.txs[u].req.key == b.txs[t].req.key
  }

  predicate AccountFree(b: Bank, t: TxId) {
    forall u :: u in b.txs ==> !BlocksAccount(b, t, u)
  }

  predicate KeyFree(b: Bank, t: TxId) {
    forall u :: u in b.txs ==> !BlocksKey(b, t, u)
  }

  /** gen_random_uuid never returns an id in use. */
  predicate UnusedId(b: Bank, id: AccountId) {
    && (forall u :: u in b.db.accounts ==> b.db.accounts[u].id != id)
    && (forall u :: u in b.txs && WroteAccount(b.txs[u]) ==> b.txs[u].pc.acct.id != id)
  }

  // ----- steps

  predicate Enabled(b: Bank, a: Action) {
    if a.Begin? then a.t !in b.txs && ValidRequest(a.req) else
    a.t in b.txs &&
    var x := b.txs[a.t];
    match a
    case LockAccount(t) => x.pc.Begun? && x.req.Withdraw? && x.req.user in b.db.accounts && AccountFree(b, t)
    case MissAccount(t) => x.pc.Begun? && x.req.Withdraw? && x.req.user !in b.db.accounts
    case Refuse(t) => x.pc.Locked? && x.pc.found.balance < x.req.amount
    case Debit(t) => x.pc.Locked? && x.pc.found.balance >= x.req.amount && x.req.user in b.db.accounts
    case TopUp(t, drawn) =>
      x.pc.Begun? && x.req.Deposit? && AccountFree(b, t) && Fits(b.db, x.req) && UnusedId(b, drawn)
    case Overflowed(t) => x.pc.Begun? && x.req.Deposit? && AccountFree(b, t) && !Fits(b.db, x.req)
    case InsertRow(t) => x.pc.Updated? && !HasKey(b.db.ledger, x.req.key) && KeyFree(b, t)
    case ConflictRow(t) => x.pc.Updated? && HasKey(b.db.ledger, x.req.key)
    case Emit(t, id) => x.pc.Inserted? && x.req.Deposit? && id >= b.nextEvent
    case Commit(t, acked) => x.pc.Emitted? || (x.pc.Inserted? && x.req.Withdraw?)
    case Rollback(t) => x.pc.Conflicted?
    case Lookup(t) => x.pc.RolledBack?
    case Fail(t) => !x.pc.Done?
  }

  /** The BIGINT addition of the upsert. */
  predicate Fits(db: Db, req: Request) {
    req.user in db.accounts ==> db.accounts[req.user].balance + req.amount <= MAX_INT64
  }

  function Goto(b: Bank, t: TxId, pc: Pc): Bank
    requires t in b.txs
  {
    b.(txs := b.txs[t := b.txs[t].(pc := pc)])
  }

  /** Like `Goto`, at a decision point. */
  function Decide(b: Bank, t: TxId, pc: Pc, account: AccountId, event: EventId, outcome: Outcome): Bank
    requires t in b.txs
  {
    b.(txs := b.txs[t := b.txs[t].(pc := pc, decided := Some(|b.log|))],
       log := b.log + [Decision(t, Ticket(b.txs[t].req, account, event), outcome)])
  }

  function NewRow(x: Tx): Row
    requires WroteAccount(x)
  {
    Row(x.pc.acct.id, x.req.amount, if x.req.Deposit? then DepositRow else WithdrawalRow, x.req.key)
  }

  /** Commit publishes the private account row, ledger row and outbox row. */
  function Publish(db: Db, x: Tx): Db
    requires HoldsKey(x)
  {
    Db(db.accounts[x.req.user := x.pc.acct],
       db.ledger + [x.pc.row],
       if x.pc.Emitted? then db.events[x.pc.id := x.pc.event] else db.events)
  }

  function Exec(b: Bank, a: Action): Bank
    requires Enabled(b, a)
  {
    match a
    case Begin(t, req) => b.(txs := b.txs[t := Tx(req, Begun, None)])
    case LockAccount(t) => Goto(b, t, Locked(b.db.accounts[b.txs[t].req.user]))
    case MissAccount(t) => Decide(b, t, Done(Returned(AccountNotFound)), 0, 0, AccountNotFound)
    case Refuse(t) => Decide(b, t, Done(Returned(InsufficientFunds)), 0, 0, InsufficientFunds)
    case Debit(t) =>
      var x := b.txs[t];
      Goto(b, t, Updated(Account(x.pc.found.id, b.db.accounts[x.req.user].balance - x.req.amount)))
    case TopUp(t, drawn) =>
      var x := b.txs[t];
      Goto(b, t, Updated(if x.req.user in b.db.accounts
                         then Account(b.db.accounts[x.req.user].id, b.db.accounts[x.req.user].balance + x.req.amount)
                         else Account(drawn, x.req.amount)))
    case Overflowed(t) => Decide(b, t, Done(Returned(Overflow)), 0, 0, Overflow)
    case InsertRow(t) => Goto(b, t, Inserted(b.txs[t].pc.acct, NewRow(b.txs[t])))
    case ConflictRow(t) => Decide(b, t, Conflicted, 0, 0, Replayed)
    case Emit(t, id) =>
      var x := b.txs[t];
      Goto(b.(nextEvent := id + 1), t, Emitted(x.pc.acct, x.pc.row, id, Event(x.pc.acct.id, x.req.user, x.req.amount)))
    case Commit(t, acked) =>
      var x := b.txs[t];
      Decide(b.(db := Publish(b.db, x)), t, Done(if acked then Returned(Applied) else Fault),
             x.pc.acct.id, if x.pc.Emitted? then x.pc.id else 0, Applied)
    case Rollback(t) => Goto(b, t, RolledBack)
    case Lookup(t) =>
      Goto(b, t, Done(if HasKey(b.db.ledger, b.txs[t].req.key) then Returned(Replayed) else LookupMissed))
    case Fail(t) => Goto(b, t, Done(Fault))
  }

  ghost predicate Feasible(b: Bank, acts: seq<Action>)
    decreases |acts|, 0
  {
    acts == [] ||
    (Feasible(b, acts[..|acts| - 1]) && Enabled(Run(b, acts[..|acts| - 1]), acts[|acts| - 1]))
  }

  ghost function Run(b: Bank, acts: seq<Action>): Bank
    requires Feasible(b, acts)
    decreases |acts|, 1
  {
    if acts == [] then b else Exec(Run(b, acts[..|acts| - 1]), acts[|acts| - 1])
  }

  // ----- the invariant

  ghost predicate WroteOk(db: Db, req: Request, a: Account) {
    match req
    case Deposit(user, amount, _) =>
      && a.balance <= MAX_INT64
      && if user in db.accounts then a == Account(db.accounts[user].id, db.accounts[user].balance + amount)
         else a.balance == amount && forall u :: u in db.accounts ==> db.accounts[u].id != a.id
    case Withdraw(user, amount, _) =>
      && a.balance >= 0
      && user in db.accounts && a == Account(db.accounts[user].id, db.accounts[user].balance - amount)
  }

  ghost predicate PrivateOk(db: Db, nextEvent: EventId, x: Tx) {
    && (WroteAccount(x) ==> WroteOk(db, x.req, x.pc.acct))
    && (HoldsKey(x) ==> x.pc.row == NewRow(x) && !HasKey(db.ledger, x.req.key))
    && (x.pc.Locked? ==> x.req.Withdraw? && x.req.user in db.accounts && db.accounts[x.req.user] == x.pc.found)
    && (x.pc.Emitted? ==> x.req.Deposit? && x.pc.event == Event(x.pc.acct.id, x.req.user, x.req.amount)
                          && x.pc.id < nextEvent && x.pc.id !in db.events)
    && (x.pc.Conflicted? || x.pc.RolledBack? ==> HasKey(db.ledger, x.req.key))
  }

  predicate Undecided(x: Tx) {
    x.pc.Begun? || x.pc.Locked? || WroteAccount(x)
  }

  ghost predicate DecidedOk(log: seq<Decision>, t: TxId, x: Tx) {
    && ValidRequest(x.req)
    && (Undecided(x) ==> x.decided.None?)
    && (x.decided.Some? ==>
          && x.decided.value < |log|
          && log[x.decided.value].tx == t && log[x.decided.value].ticket.req == x.req)
    && (x.pc.Conflicted? || x.pc.RolledBack? ==> x.decided.Some? && log[x.decided.value].outcome == Replayed)
    && (x.pc.Done? && x.pc.result.Returned? ==> x.decided.Some? && log[x.decided.value].outcome == x.pc.result.outcome)
    && x.pc != Done(LookupMissed)
  }

  /** Two transactions never hold the same row or key, nor the same freshly drawn id. */
  ghost predicate Apart(x: Tx, y: Tx) {
    && !(HoldsAccount(x) && HoldsAccount(y) && x.req.user == y.req.user)
    && !(HoldsKey(x) && HoldsKey(y) && x.req.key == y.req.key)
    && !(WroteAccount(x) && WroteAccount(y) && x.pc.acct.id == y.pc.acct.id)
    && !(x.pc.Emitted? && y.pc.Emitted? && x.pc.id == y.pc.id)
  }

  ghost predicate AllApart(txs: map<TxId, Tx>) {
    forall t, u :: t in txs && u in txs && t != u ==> Apart(txs[t], txs[u])
  }

  ghost predicate LogOk(b: Bank) {
    && Legal(b.log)
    && b.db == Replay(b.log)
    && (forall i :: 0 <= i < |b.log| ==> b.log[i].tx in b.txs && b.txs[b.log[i].tx].decided == Some(i))
    && (forall e :: e in b.db.events ==> e < b.nextEvent)
  }

  ghost predicate TxsOk(b: Bank) {
    forall t :: t in b.txs ==> PrivateOk(b.db, b.nextEvent, b.txs[t]) && DecidedOk(b.log, t, b.txs[t])
  }

  ghost predicate Inv(b: Bank) {
    LogOk(b) && TxsOk(b) && AllApart(b.txs)
  }

  // ----- preservation

  /** The ids a committing transaction used. */
  function TicketOf(x: Tx): Ticket
    requires HoldsKey(x)
  {
    Ticket(x.req, x.pc.acct.id, if x.pc.Emitted? then x.pc.id else 0)
  }

  /** Publishing the private writes is what the specification does in one step. */
  lemma PublishIsApply(db: Db, nextEvent: EventId, x: Tx)
    requires PrivateOk(db, nextEvent, x) && HoldsKey(x) && (x.pc.Emitted? || x.req.Withdraw?)
    ensures Verdict(db, x.req) == Applied && FreshTicket(db, TicketOf(x))
    ensures Apply(db, TicketOf(x)) == Publish(db, x)
  {
    if x.req.Deposit? {
      assert Publish(db, x).ledger == Apply(db, TicketOf(x)).ledger;
    }
  }

  lemma VerdictAtDecision(b: Bank, a: Action)
    requires Inv(b) && Enabled(b, a)
    ensures a.MissAccount? ==> Verdict(b.db, b.txs[a.t].req) == AccountNotFound
    ensures a.Refuse? ==> Verdict(b.db, b.txs[a.t].req) == InsufficientFunds
    ensures a.Overflowed? ==> Verdict(b.db, b.txs[a.t].req) == Overflow
    ensures a.ConflictRow? ==> Verdict(b.db, b.txs[a.t].req) == Replayed
  {}

  predicate Decides(a: Action) {
    a.MissAccount? || a.Refuse? || a.Overflowed? || a.ConflictRow? || a.Commit?
  }

  lemma QuietStep(b: Bank, a: Action)
    requires Enabled(b, a) && !Decides(a)
    ensures Exec(b, a).db == b.db && Exec(b, a).log == b.log && b.nextEvent <= Exec(b, a).nextEvent
    ensures forall t :: t in b.txs ==> t in Exec(b, a).txs && Exec(b, a).txs[t].decided == b.txs[t].decided
  {}

  /** A decision adds one entry about its request; the reply, if there is one yet, is its outcome. */
  lemma DecisionRecorded(b: Bank, a: Action)
    requires Enabled(b, a) && Decides(a)
    ensures var b', n := Exec(b, a), |b.log|;
      && |b'.log| == n + 1 && b'.log == b.log + [b'.log[n]] && b'.log[n].tx == a.t
      && b'.txs == b.txs[a.t := b'.txs[a.t]] && b'.txs[a.t].decided == Some(n)
      && b'.log[n].ticket.req == b'.txs[a.t].req == b.txs[a.t].req
      && ( || (b'.txs[a.t].pc.Conflicted? && b'.log[n].outcome == Replayed)
           || b'.txs[a.t].pc == Done(Returned(b'.log[n].outcome))
           || b'.txs[a.t].pc == Done(Fault))
  {}

  lemma DecisionIsLawful(b: Bank, a: Action)
    requires Inv(b) && Enabled(b, a) && Decides(a)
    ensures var b', n := Exec(b, a), |b.log|;
      && |b'.log| == n + 1 && Lawful(b.db, b'.log[n]) && b'.db == Apply(b.db, b'.log[n].ticket)
      && b.txs[a.t].decided.None?
  {
    assert PrivateOk(b.db, b.nextEvent, b.txs[a.t]) && DecidedOk(b.log, a.t, b.txs[a.t]);
    if a.Commit? { PublishIsApply(b.db, b.nextEvent, b.txs[a.t]); } else { VerdictAtDecision(b, a); }
  }

  lemma DecidingStep(b: Bank, a: Action)
    requires Inv(b) && Enabled(b, a) && Decides(a)
    ensures var b' := Exec(b, a);
      && |b'.log| == |b.log| + 1 && b'.log == b.log + [b'.log[|b.log|]]
      && Lawful(b.db, b'.log[|b.log|]) && b'.db == Apply(b.db, b'.log[|b.log|].ticket)
      && b'.log[|b.log|].tx == a.t && b.txs[a.t].decided.None?
      && b'.txs == b.txs[a.t := b'.txs[a.t]] && b'.txs[a.t].decided == Some(|b.log|)
  {
    DecisionRecorded(b, a);
    DecisionIsLawful(b, a);
  }

  /** Decisions made stay made, and requests stay what they are. */
  lemma HistoryStep(b: Bank, a: Action)
    requires Inv(b) && Enabled(b, a)
    ensures b.log <= Exec(b, a).log
    ensures forall t :: t in b.txs ==> t in Exec(b, a).txs && Exec(b, a).txs[t].req == b.txs[t].req
    ensures forall t :: t in b.txs && b.txs[t].decided.Some? ==> Exec(b, a).txs[t].decided == b.txs[t].decided
  {
    if Decides(a) { DecidingStep(b, a); } else { QuietStep(b, a); }
  }

  lemma EventsStayOld(b: Bank, a: Action)
    requires Inv(b) && Enabled(b, a)
    ensures forall e :: e in Exec(b, a).db.events ==> e < Exec(b, a).nextEvent
  {
    assert a.Commit? ==> PrivateOk(b.db, b.nextEvent, b.txs[a.t]);
  }

  lemma LogOkStep(b: Bank, a: Action)
    requires Inv(b) && Enabled(b, a)
    ensures LogOk(Exec(b, a))
  {
    EventsStayOld(b, a);
    if Decides(a) {
      DecidingStep(b, a);
      LegalStep(b.log, Exec(b, a).log[|b.log|]);
    } else {
      QuietStep(b, a);
    }
  }

  /** An account lock is kept, or acquired while nobody holds it. */
  lemma AccountLockAcquired(b: Bank, a: Action)
    requires Enabled(b, a) && a.t in Exec(b, a).txs && HoldsAccount(Exec(b, a).txs[a.t])
    ensures a.t in b.txs && Exec(b, a).txs[a.t].req == b.txs[a.t].req
    ensures HoldsAccount(b.txs[a.t]) || AccountFree(b, a.t)
  {}

  lemma KeyLockAcquired(b: Bank, a: Action)
    requires Enabled(b, a) && a.t in Exec(b, a).txs && HoldsKey(Exec(b, a).txs[a.t])
    ensures a.t in b.txs && Exec(b, a).txs[a.t].req == b.txs[a.t].req
    ensures HoldsKey(b.txs[a.t]) || KeyFree(b, a.t)
  {}

  lemma LocksApartStep(b: Bank, a: Action, u: TxId)
    requires Enabled(b, a) && AllApart(b.txs) && u in b.txs && u != a.t && a.t in Exec(b, a).txs
    ensures var x, y := Exec(b, a).txs[a.t], b.txs[u];
      && !(HoldsAccount(x) && HoldsAccount(y) && x.req.user == y.req.user)
      && !(HoldsKey(x) && HoldsKey(y) && x.req.key == y.req.key)
  {
    if a.t in b.txs { assert Apart(b.txs[a.t], b.txs[u]); }
    if HoldsAccount(Exec(b, a).txs[a.t]) {
      AccountLockAcquired(b, a);
      assert AccountFree(b, a.t) ==> !BlocksAccount(b, a.t, u);
    }
    if HoldsKey(Exec(b, a).txs[a.t]) {
      KeyLockAcquired(b, a);
      assert KeyFree(b, a.t) ==> !BlocksKey(b, a.t, u);
    }
  }

  /** The account row written by a debit or a top-up is nobody else's. */
  lemma WriterApart(b: Bank, a: Action, u: TxId)
    requires Inv(b) && Enabled(b, a) && (a.TopUp? || a.Debit?) && u in b.txs && u != a.t && WroteAccount(b.txs[u])
    ensures Exec(b, a).txs[a.t].pc.acct.id != b.txs[u].pc.acct.id
  {
    LocksApartStep(b, a, u);
    LegalImpliesSound(b.log);
    assert PrivateOk(b.db, b.nextEvent, b.txs[u]) && PrivateOk(b.db, b.nextEvent, b.txs[a.t]);
  }

  /** Account rows are written by debits and top-ups, events by emits. */
  lemma DrawsKept(b: Bank, a: Action)
    requires Enabled(b, a) && a.t in Exec(b, a).txs
    ensures var x := Exec(b, a).txs[a.t];
      && (WroteAccount(x) && !a.TopUp? && !a.Debit? ==>
            a.t in b.txs && WroteAccount(b.txs[a.t]) && x.pc.acct == b.txs[a.t].pc.acct)
      && (x.pc.Emitted? ==> a.Emit? && x.pc.id >= b.nextEvent)
  {}

  lemma DrawsApartStep(b: Bank, a: Action, u: TxId)
    requires Inv(b) && Enabled(b, a) && u in b.txs && u != a.t && a.t in Exec(b, a).txs
    ensures var x, y := Exec(b, a).txs[a.t], b.txs[u];
      && !(WroteAccount(x) && WroteAccount(y) && x.pc.acct.id == y.pc.acct.id)
      && !(x.pc.Emitted? && y.pc.Emitted? && x.pc.id == y.pc.id)
  {
    assert PrivateOk(b.db, b.nextEvent, b.txs[u]);
    DrawsKept(b, a);
    if (a.TopUp? || a.Debit?) && WroteAccount(b.txs[u]) {
      WriterApart(b, a, u);
    } else if a.t in b.txs {
      assert Apart(b.txs[a.t], b.txs[u]);
    }
  }

  lemma OthersStay(b: Bank, a: Action)
    requires Enabled(b, a)
    ensures a.t in Exec(b, a).txs && Exec(b, a).txs == b.txs[a.t := Exec(b, a).txs[a.t]]
  {}

  lemma AllApartStep(b: Bank, a: Action)
    requires Inv(b) && Enabled(b, a)
    ensures AllApart(Exec(b, a).txs)
  {
    OthersStay(b, a);
    var x := Exec(b, a).txs[a.t];
    forall u | u in b.txs && u != a.t
      ensures Apart(x, b.txs[u]) && Apart(b.txs[u], x)
    {
      LocksApartStep(b, a, u);
      DrawsApartStep(b, a, u);
    }
  }

  lemma DecidedOkOther(b: Bank, a: Action, t: TxId)
    requires Inv(b) && Enabled(b, a) && t in b.txs && t != a.t
    ensures DecidedOk(Exec(b, a).log, t, b.txs[t])
  {
    assert DecidedOk(b.log, t, b.txs[t]);
    if Decides(a) { DecidingStep(b, a); } else { QuietStep(b, a); }
  }

  lemma DecidedOkDeciding(b: Bank, a: Action)
    requires Inv(b) && Enabled(b, a) && Decides(a)
    ensures DecidedOk(Exec(b, a).log, a.t, Exec(b, a).txs[a.t])
  {
    DecisionRecorded(b, a);
    DecidingStep(b, a);
    assert ValidRequest(b.txs[a.t].req);
  }

  /** The steps on the way to a decision. */
  lemma DecidedOkBefore(b: Bank, a: Action)
    requires Inv(b) && Enabled(b, a) && (a.LockAccount? || a.Debit? || a.TopUp? || a.InsertRow? || a.Emit?)
    ensures DecidedOk(Exec(b, a).log, a.t, Exec(b, a).txs[a.t])
  {
    assert DecidedOk(b.log, a.t, b.txs[a.t]);
  }

  lemma DecidedOkAfter(b: Bank, a: Action)
    requires Inv(b) && Enabled(b, a) && (a.Rollback? || a.Lookup? || a.Fail?)
    ensures DecidedOk(Exec(b, a).log, a.t, Exec(b, a).txs[a.t])
  {
    assert PrivateOk(b.db, b.nextEvent, b.txs[a.t]) && DecidedOk(b.log, a.t, b.txs[a.t]);
  }

  lemma DecidedOkSelf(b: Bank, a: Action)
    requires Inv(b) && Enabled(b, a)
    ensures DecidedOk(Exec(b, a).log, a.t, Exec(b, a).txs[a.t])
  {
    if Decides(a) {
      DecidedOkDeciding(b, a);
    } else if a.Rollback? || a.Lookup? || a.Fail? {
      DecidedOkAfter(b, a);
    } else if !a.Begin? {
      DecidedOkBefore(b, a);
    }
  }

  /** A commit changes nothing that another transaction has computed its private rows from. */
  lemma PrivateOkPublished(db: Db, nextEvent: EventId, x: Tx, y: Tx)
    requires PrivateOk(db, nextEvent, x) && PrivateOk(db, nextEvent, y) && HoldsKey(y) && Apart(x, y)
    ensures PrivateOk(Publish(db, y), nextEvent, x)
  {
    if HasKey(db.ledger, x.req.key) {
      var i :| 0 <= i < |db.ledger| && db.ledger[i].key == x.req.key;
      assert Publish(db, y).ledger[i].key == x.req.key;
    }
  }

  lemma OnlyCommitsPublish(b: Bank, a: Action)
    requires Enabled(b, a)
    ensures Exec(b, a).db == (if a.Commit? then Publish(b.db, b.txs[a.t]) else b.db)
    ensures b.nextEvent <= Exec(b, a).nextEvent && (a.Commit? ==> b.nextEvent == Exec(b, a).nextEvent)
  {}

  lemma PrivateOkOther(b: Bank, a: Action, t: TxId)
    requires Inv(b) && Enabled(b, a) && t in b.txs && t != a.t
    ensures PrivateOk(Exec(b, a).db, Exec(b, a).nextEvent, b.txs[t])
  {
    OnlyCommitsPublish(b, a);
    if a.Commit? {
      assert Apart(b.txs[t], b.txs[a.t]);
      PrivateOkPublished(b.db, b.nextEvent, b.txs[t], b.txs[a.t]);
    }
  }

  /** The steps that compute the private rows. */
  lemma PrivateOkWriting(b: Bank, a: Action)
    requires Inv(b) && Enabled(b, a) && (a.TopUp? || a.Debit? || a.InsertRow?)
    ensures PrivateOk(Exec(b, a).db, Exec(b, a).nextEvent, Exec(b, a).txs[a.t])
  {
    assert PrivateOk(b.db, b.nextEvent, b.txs[a.t]);
    if a.TopUp? { LegalImpliesSound(b.log); }
  }

  lemma PrivateOkEmitting(b: Bank, a: Action)
    requires Inv(b) && Enabled(b, a) && a.Emit?
    ensures PrivateOk(Exec(b, a).db, Exec(b, a).nextEvent, Exec(b, a).txs[a.t])
  {
    assert PrivateOk(b.db, b.nextEvent, b.txs[a.t]);
    assert a.id !in b.db.events;
  }

  lemma PrivateOkEnding(b: Bank, a: Action)
    requires Inv(b) && Enabled(b, a) && !a.Begin? && !(a.TopUp? || a.Debit? || a.InsertRow? || a.Emit?)
    ensures PrivateOk(Exec(b, a).db, Exec(b, a).nextEvent, Exec(b, a).txs[a.t])
  {
    assert PrivateOk(b.db, b.nextEvent, b.txs[a.t]);
  }

  lemma PrivateOkSelf(b: Bank, a: Action)
    requires Inv(b) && Enabled(b, a)
    ensures PrivateOk(Exec(b, a).db, Exec(b, a).nextEvent, Exec(b, a).txs[a.t])
  {
    if a.TopUp? || a.Debit? || a.InsertRow? {
      PrivateOkWriting(b, a);
    } else if a.Emit? {
      PrivateOkEmitting(b, a);
    } else if !a.Begin? {
      PrivateOkEnding(b, a);
    }
  }

  lemma InvStep(b: Bank, a: Action)
    requires Inv(b) && Enabled(b, a)
    ensures Inv(Exec(b, a))
  {
    LogOkStep(b, a);
    AllApartStep(b, a);
    OthersStay(b, a);
    forall t | t in Exec(b, a).txs
      ensures PrivateOk(Exec(b, a).db, Exec(b, a).nextEvent, Exec(b, a).txs[t])
      ensures DecidedOk(Exec(b, a).log, t, Exec(b, a).txs[t])
    {
      if t == a.t {
        PrivateOkSelf(b, a);
        DecidedOkSelf(b, a);
      } else {
        PrivateOkOther(b, a, t);
        DecidedOkOther(b, a, t);
      }
    }
  }

  lemma {:induction false} InvRun(b: Bank, acts: seq<Action>)
    requires Inv(b) && Feasible(b, acts)
    ensures Inv(Run(b, acts))
  {
    if acts != [] {
      InvRun(b, acts[..|acts| - 1]);
      InvStep(Run(b, acts[..|acts| - 1]), acts[|acts| - 1]);
    }
  }

  lemma RunStep(b: Bank, acts: seq<Action>, a: Action)
    requires Feasible(b, acts) && Enabled(Run(b, acts), a)
    ensures Feasible(b, acts + [a]) && Run(b, acts + [a]) == Exec(Run(b, acts), a)
  {
    assert (acts + [a])[..|acts|] == acts;
  }

  lemma {:induction false} RunConcat(b: Bank, first: seq<Action>, second: seq<Action>)
    requires Feasible(b, first) && Feasible(Run(b, first), second)
    ensures Feasible(b, first + second) && Run(b, first + second) == Run(Run(b, first), second)
  {
    if second != [] {
      var front, a := second[..|second| - 1], second[|second| - 1];
      RunConcat(b, first, front);
      RunStep(b, first + front, a);
      assert first + front + [a] == first + second;
    } else {
      assert first + second == first;
    }
  }
}
