/**
 The committed contents of the billing database, the sequential meaning of a deposit and of a
 withdrawal, and what holds of any sequence of them.
 */
module Ledger {
  import opened Common
  import opened Decimal

  type UserId = string
  type AccountId = nat
  type Key = string
  type EventId = nat
  type TxId = nat

  datatype Request =
    | Deposit(user: UserId, amount: int, key: Key)
    | Withdraw(user: UserId, amount: int, key: Key)

  /** What the gRPC handler lets through: a positive int64 amount and a user id from the token. */
  predicate ValidRequest(r: Request) {
    r.user != "" && 1 <= r.amount <= MAX_INT64
  }

  datatype Kind = DepositRow | WithdrawalRow
  datatype Account = Account(id: AccountId, balance: int)
  datatype Row = Row(account: AccountId, amount: int, kind: Kind, key: Key)

  /** The columns of an AccountToppedUp outbox row that are never updated. */
  datatype Event = Event(account: AccountId, user: UserId, amount: int)

  datatype Db = Db(accounts: map<UserId, Account>, ledger: seq<Row>, events: map<EventId, Event>)

  const Empty := Db(map[], [], map[])

  datatype Outcome = Applied | Replayed | InsufficientFunds | AccountNotFound | Overflow

  /** A request with the ids the database would draw for it. */
  datatype Ticket = Ticket(req: Request, account: AccountId, event: EventId)

  predicate HasKey(ledger: seq<Row>, key: Key) {
    exists i :: 0 <= i < |ledger| && ledger[i].key == key
  }

  // ----- the sequential specification

  function Verdict(db: Db, req: Request): Outcome {
    match req
    case Deposit(user, amount, key) =>
      if user in db.accounts && db.accounts[user].balance + amount > MAX_INT64 then Overflow
      else if HasKey(db.ledger, key) then Replayed
      else Applied
    case Withdraw(user, amount, key) =>
      if user !in db.accounts then AccountNotFound
      else if db.accounts[user].balance < amount then InsufficientFunds
      else if HasKey(db.ledger, key) then Replayed
      else Applied
  }

  /** What the statements write when nothing stops them. */
  function Effect(db: Db, t: Ticket): Db
    requires t.req.Withdraw? ==> t.req.user in db.accounts
  {
    match t.req
    case Deposit(user, amount, key) =>
      var a := if user in db.accounts then db.accounts[user] else Account(t.account, 0);
      Db(db.accounts[user := Account(a.id, a.balance + amount)],
         db.ledger + [Row(a.id, amount, DepositRow, key)],
         db.events[t.event := Event(a.id, user, amount)])
    case Withdraw(user, amount, key) =>
      var a := db.accounts[user];
      Db(db.accounts[user := Account(a.id, a.balance - amount)],
         db.ledger + [Row(a.id, amount, WithdrawalRow, key)],
         db.events)
  }

  function Apply(db: Db, t: Ticket): Db {
    if Verdict(db, t.req) == Applied then Effect(db, t) else db
  }

  // ----- histories of decisions

  datatype Decision = Decision(tx: TxId, ticket: Ticket, outcome: Outcome)

  function Replay(log: seq<Decision>): Db {
    if log == [] then Empty else Apply(Replay(log[..|log| - 1]), log[|log| - 1].ticket)
  }

  predicate FreshTicket(db: Db, t: Ticket) {
    t.req.Deposit? ==>
      && t.event !in db.events
      && (t.req.user !in db.accounts ==> forall u :: u in db.accounts ==> db.accounts[u].id != t.account)
  }

  predicate Lawful(db: Db, d: Decision) {
    && ValidRequest(d.ticket.req)
    && d.outcome == Verdict(db, d.ticket.req)
    && (d.outcome == Applied ==> FreshTicket(db, d.ticket))
  }

  /** Every entry records what the specification says after the entries before it. */
  predicate Legal(log: seq<Decision>) {
    log == [] || (Legal(log[..|log| - 1]) && Lawful(Replay(log[..|log| - 1]), log[|log| - 1]))
  }

  lemma LegalStep(log: seq<Decision>, d: Decision)
    requires Legal(log) && Lawful(Replay(log), d)
    ensures Legal(log + [d]) && Replay(log + [d]) == Apply(Replay(log), d.ticket)
  {
    assert (log + [d])[..|log|] == log;
  }

  lemma {:induction false} LegalPrefix(log: seq<Decision>, i: nat)
    requires Legal(log) && i < |log|
    ensures Legal(log[..i]) && Lawful(Replay(log[..i]), log[i])
  {
    if i < |log| - 1 {
      var front := log[..|log| - 1];
      LegalPrefix(front, i);
      assert front[..i] == log[..i];
    }
  }

  // ----- conservation

  function Signed(r: Row, account: AccountId): int {
    if r.account != account then 0 else if r.kind == DepositRow then r.amount else -r.amount
  }

  /** Deposit rows minus withdrawal rows of an account. */
  function Net(ledger: seq<Row>, account: AccountId): int {
    if ledger == [] then 0 else Net(ledger[..|ledger| - 1], account) + Signed(ledger[|ledger| - 1], account)
  }

  lemma NetStep(ledger: seq<Row>, r: Row, account: AccountId)
    ensures Net(ledger + [r], account) == Net(ledger, account) + Signed(r, account)
  {
    assert (ledger + [r])[..|ledger|] == ledger;
  }

  lemma {:induction false} NetOfStranger(ledger: seq<Row>, account: AccountId)
    requires forall i :: 0 <= i < |ledger| ==> ledger[i].account != account
    ensures Net(ledger, account) == 0
  {
    if ledger != [] { NetOfStranger(ledger[..|ledger| - 1], account); }
  }

  ghost predicate OwnedBySomeone(db: Db, account: AccountId) {
    exists u :: u in db.accounts && db.accounts[u].id == account
  }

  ghost predicate Balanced(db: Db) {
    forall u :: u in db.accounts ==>
      0 <= db.accounts[u].balance <= MAX_INT64 && db.accounts[u].balance == Net(db.ledger, db.accounts[u].id)
  }

  ghost predicate DistinctIds(accounts: map<UserId, Account>) {
    forall u, v :: u in accounts && v in accounts && accounts[u].id == accounts[v].id ==> u == v
  }

  ghost predicate RowsOwned(db: Db) {
    forall i :: 0 <= i < |db.ledger| ==> db.ledger[i].amount >= 1 && OwnedBySomeone(db, db.ledger[i].account)
  }

  ghost predicate DistinctKeys(ledger: seq<Row>) {
    forall i, j :: 0 <= i < j < |ledger| ==> ledger[i].key != ledger[j].key
  }

  ghost predicate Sound(db: Db) {
    Balanced(db) && DistinctIds(db.accounts) && RowsOwned(db) && DistinctKeys(db.ledger)
  }

  /** `db'` is `db` with one account row written and one ledger row of that account appended. */
  ghost predicate Booked(db: Db, db': Db, user: UserId, r: Row) {
    && db'.ledger == db.ledger + [r]
    && user in db'.accounts
    && db'.accounts == db.accounts[user := db'.accounts[user]]
    && db'.accounts[user].id == r.account
    && (if user in db.accounts then db.accounts[user].id == r.account
        else forall u :: u in db.accounts ==> db.accounts[u].id != r.account)
    && db'.accounts[user].balance == (if user in db.accounts then db.accounts[user].balance else 0)
      + Signed(r, r.account)
    && 0 <= db'.accounts[user].balance <= MAX_INT64
  }

  lemma BookedIsBalanced(db: Db, db': Db, user: UserId, r: Row)
    requires Sound(db) && Booked(db, db', user, r)
    ensures Balanced(db')
  {
    if user !in db.accounts {
      assert forall i :: 0 <= i < |db.ledger| ==> OwnedBySomeone(db, db.ledger[i].account);
      NetOfStranger(db.ledger, r.account);
    }
    forall u | u in db'.accounts
      ensures db'.accounts[u].balance == Net(db'.ledger, db'.accounts[u].id)
    {
      NetStep(db.ledger, r, db'.accounts[u].id);
    }
  }

  lemma BookedIsOwned(db: Db, db': Db, user: UserId, r: Row)
    requires RowsOwned(db) && Booked(db, db', user, r) && r.amount >= 1
    ensures RowsOwned(db')
  {
    forall i | 0 <= i < |db'.ledger|
      ensures db'.ledger[i].amount >= 1 && OwnedBySomeone(db', db'.ledger[i].account)
    {
      if i < |db.ledger| {
        assert db'.ledger[i] == db.ledger[i];
        var u :| u in db.accounts && db.accounts[u].id == db.ledger[i].account;
        assert db'.accounts[u].id == db.accounts[u].id;
      } else {
        assert db'.accounts[user].id == r.account;
      }
    }
  }

  lemma ApplyKeepsSound(db: Db, t: Ticket)
    requires Sound(db) && ValidRequest(t.req) && (Verdict(db, t.req) == Applied ==> FreshTicket(db, t))
    ensures Sound(Apply(db, t))
  {
    if Verdict(db, t.req) == Applied {
      var db' := Apply(db, t);
      var r := db'.ledger[|db.ledger|];
      BookedIsBalanced(db, db', t.req.user, r);
      BookedIsOwned(db, db', t.req.user, r);
    }
  }

  /**
   A request is applied exactly when its effect would leave the database sound: nothing is refused that
   could be booked, and nothing is booked that breaks a balance or repeats a key.
   */
  lemma AppliedExactlyWhenSound(db: Db, t: Ticket)
    requires Sound(db) && ValidRequest(t.req) && FreshTicket(db, t) && (t.req.Withdraw? ==> t.req.user in db.accounts)
    ensures Verdict(db, t.req) == Applied <==> Sound(Effect(db, t))
  {
    ApplyKeepsSound(db, t);
    var db' := Effect(db, t);
    if Sound(db') {
      assert 0 <= db'.accounts[t.req.user].balance <= MAX_INT64;
      assert db'.ledger[|db.ledger|].key == t.req.key;
      forall i | 0 <= i < |db.ledger|
        ensures db.ledger[i].key != t.req.key
      {
        assert db'.ledger[i] == db.ledger[i];
      }
    }
  }

  /** Conservation: balances are the sums of their rows, within BIGINT, and keys are unique. */
  lemma {:induction false} LegalImpliesSound(log: seq<Decision>)
    requires Legal(log)
    ensures Sound(Replay(log))
  {
    if log != [] {
      LegalImpliesSound(log[..|log| - 1]);
      ApplyKeepsSound(Replay(log[..|log| - 1]), log[|log| - 1].ticket);
    }
  }

  // ----- idempotency

  lemma {:induction false} AppliedKeyStays(log: seq<Decision>, i: nat)
    requires Legal(log) && i < |log| && log[i].outcome == Applied
    ensures HasKey(Replay(log).ledger, log[i].ticket.req.key)
  {
    var front := log[..|log| - 1];
    if i < |log| - 1 {
      AppliedKeyStays(front, i);
      var k :| 0 <= k < |Replay(front).ledger| && Replay(front).ledger[k].key == log[i].ticket.req.key;
      assert Replay(log).ledger[k] == Replay(front).ledger[k];
    } else {
      assert Replay(log).ledger[|Replay(front).ledger|].key == log[i].ticket.req.key;
    }
  }

  /** A key takes effect at most once, whoever uses it and for whatever operation. */
  lemma KeyAppliesOnce(log: seq<Decision>, i: nat, j: nat)
    requires Legal(log) && i < j < |log|
    requires log[i].outcome == Applied && log[i].ticket.req.key == log[j].ticket.req.key
    ensures log[j].outcome != Applied && Apply(Replay(log[..j]), log[j].ticket) == Replay(log[..j])
  {
    LegalPrefix(log, j);
    AppliedKeyStays(log[..j], i);
  }

  /** The checks that come before the key: the top-up fits BIGINT, the balance covers the withdrawal. */
  predicate PassesChecks(db: Db, req: Request) {
    match req
    case Deposit(user, amount, _) => user in db.accounts ==> db.accounts[user].balance + amount <= MAX_INT64
    case Withdraw(user, amount, _) => user in db.accounts && db.accounts[user].balance >= amount
  }

  /**
   A request with a used key is answered like the first one exactly when it would pass the checks
   again; otherwise it is refused although its effect is there.
   */
  lemma RetryIsAnsweredExactlyWhenChecksPass(log: seq<Decision>, i: nat, j: nat)
    requires Legal(log) && i < j < |log|
    requires log[i].outcome == Applied && log[i].ticket.req.key == log[j].ticket.req.key
    ensures log[j].outcome == Replayed <==> PassesChecks(Replay(log[..j]), log[j].ticket.req)
  {
    LegalPrefix(log, j);
    AppliedKeyStays(log[..j], i);
  }

  const PAY_IN := Decision(0, Ticket(Deposit("u", 5, "a"), 0, 1), Applied)
  const PAY_OUT := Decision(1, Ticket(Withdraw("u", 5, "b"), 0, 0), Applied)
  const PAY_OUT_AGAIN := Decision(2, Ticket(Withdraw("u", 5, "b"), 0, 0), InsufficientFunds)

  /** The retry of a withdrawal that emptied the account is refused. */
  lemma RetryRefused()
    ensures Legal([PAY_IN, PAY_OUT, PAY_OUT_AGAIN])
    ensures PAY_OUT.ticket.req == PAY_OUT_AGAIN.ticket.req && PAY_OUT_AGAIN.outcome == InsufficientFunds
  {
    assert Legal([]) && Replay([]) == Empty;
    LegalStep([], PAY_IN);
    assert [] + [PAY_IN] == [PAY_IN];
    var paidIn := Replay([PAY_IN]);
    assert paidIn.accounts == map["u" := Account(0, 5)] && paidIn.ledger == [Row(0, 5, DepositRow, "a")];
    LegalStep([PAY_IN], PAY_OUT);
    assert [PAY_IN] + [PAY_OUT] == [PAY_IN, PAY_OUT];
    assert Replay([PAY_IN, PAY_OUT]).accounts["u"].balance == 0;
    LegalStep([PAY_IN, PAY_OUT], PAY_OUT_AGAIN);
    assert [PAY_IN, PAY_OUT] + [PAY_OUT_AGAIN] == [PAY_IN, PAY_OUT, PAY_OUT_AGAIN];
  }

  /** The history without the requests that were refused or replayed. */
  function OnlyApplied(log: seq<Decision>): seq<Decision> {
    if log == [] then []
    else OnlyApplied(log[..|log| - 1]) + (if log[|log| - 1].outcome == Applied then [log[|log| - 1]] else [])
  }

  lemma {:induction false} RefusalsLeaveNoTrace(log: seq<Decision>)
    requires Legal(log)
    ensures Legal(OnlyApplied(log)) && Replay(OnlyApplied(log)) == Replay(log)
  {
    if log != [] {
      var front, last := log[..|log| - 1], log[|log| - 1];
      RefusalsLeaveNoTrace(front);
      if last.outcome == Applied {
        LegalStep(OnlyApplied(front), last);
      } else {
        assert OnlyApplied(log) == OnlyApplied(front);
      }
    }
  }

  // ----- outbox events and deposit rows

  /** For each event the index of the ledger row written with it. */
  ghost function RowOf(log: seq<Decision>): map<EventId, nat> {
    if log == [] then map[] else
    var front, last := log[..|log| - 1], log[|log| - 1];
    if last.outcome == Applied && last.ticket.req.Deposit?
    then RowOf(front)[last.ticket.event := |Replay(front).ledger|]
    else RowOf(front)
  }

  ghost predicate Announces(db: Db, e: EventId, i: nat) {
    && e in db.events && i < |db.ledger|
    && db.ledger[i].kind == DepositRow
    && db.ledger[i].account == db.events[e].account
    && db.ledger[i].amount == db.events[e].amount
    && db.events[e].user in db.accounts
    && db.accounts[db.events[e].user].id == db.events[e].account
  }

  ghost predicate Linked(db: Db, rows: map<EventId, nat>) {
    rows.Keys == db.events.Keys && forall e :: e in rows ==> Announces(db, e, rows[e])
  }

  ghost predicate Injective(rows: map<EventId, nat>) {
    forall d, e :: d in rows && e in rows && rows[d] == rows[e] ==> d == e
  }

  ghost predicate CoversDeposits(db: Db, rows: map<EventId, nat>) {
    forall i :: 0 <= i < |db.ledger| && db.ledger[i].kind == DepositRow ==> i in rows.Values
  }

  /** Events and deposit rows match one to one; withdrawals and refused deposits have no event. */
  ghost predicate Bijection(db: Db, rows: map<EventId, nat>) {
    Linked(db, rows) && Injective(rows) && CoversDeposits(db, rows)
  }

  lemma ApplyKeepsAnnouncements(db: Db, t: Ticket, e: EventId, i: nat)
    requires Announces(db, e, i) && (Verdict(db, t.req) == Applied ==> FreshTicket(db, t))
    ensures Announces(Apply(db, t), e, i)
  {}

  lemma ApplyKeepsCover(db: Db, t: Ticket, rows: map<EventId, nat>)
    requires Bijection(db, rows) && Verdict(db, t.req) == Applied && FreshTicket(db, t)
    ensures t.req.Withdraw? ==> CoversDeposits(Apply(db, t), rows)
    ensures t.req.Deposit? ==> CoversDeposits(Apply(db, t), rows[t.event := |db.ledger|])
  {
    var rows' := rows[t.event := |db.ledger|];
    assert t.event in rows' && rows'[t.event] == |db.ledger|;
    if t.req.Deposit? {
      forall i | i in rows.Values
        ensures i in rows'.Values
      {
        var e :| e in rows && rows[e] == i;
        assert e in rows' && rows'[e] == i;
      }
    }
  }

  lemma ApplyKeepsLinks(db: Db, t: Ticket, rows: map<EventId, nat>)
    requires Linked(db, rows) && Verdict(db, t.req) == Applied && FreshTicket(db, t)
    ensures t.req.Withdraw? ==> Linked(Apply(db, t), rows)
    ensures t.req.Deposit? ==> Linked(Apply(db, t), rows[t.event := |db.ledger|])
  {
    forall e | e in rows
      ensures Announces(Apply(db, t), e, rows[e])
    {
      ApplyKeepsAnnouncements(db, t, e, rows[e]);
    }
  }

  lemma {:induction false} EventsMatchDeposits(log: seq<Decision>)
    requires Legal(log)
    ensures Bijection(Replay(log), RowOf(log))
  {
    if log != [] {
      var front, last := log[..|log| - 1], log[|log| - 1];
      EventsMatchDeposits(front);
      if last.outcome == Applied {
        ApplyKeepsCover(Replay(front), last.ticket, RowOf(front));
        ApplyKeepsLinks(Replay(front), last.ticket, RowOf(front));
      }
    }
  }

  /** Committed rows and events are never changed or removed. */
  lemma {:induction false} AppendOnly(log: seq<Decision>, i: nat)
    requires Legal(log) && i <= |log|
    ensures Replay(log[..i]).ledger <= Replay(log).ledger
    ensures forall e :: e in Replay(log[..i]).events ==>
      e in Replay(log).events && Replay(log).events[e] == Replay(log[..i]).events[e]
  {
    if i < |log| {
      var front := log[..|log| - 1];
      AppendOnly(front, i);
      assert front[..i] == log[..i];
    } else {
      assert log[..i] == log;
    }
  }

  /** Every event announces what a valid request asked for. */
  lemma {:induction false} LegalEvents(log: seq<Decision>)
    requires Legal(log)
    ensures forall e :: e in Replay(log).events ==>
      Replay(log).events[e].user != "" && 1 <= Replay(log).events[e].amount <= MAX_INT64
  {
    if log != [] { LegalEvents(log[..|log| - 1]); }
  }
}
