/** What holds end to end of every run: from a deposit to its e-mail. */
module MoneyPathTheorems {
  import opened Common
  import opened Decimal
  import opened Ledger
  import opened MoneyPath
  import Billing
  import BillingTheorems
  import Outbox
  import Inbox
  import Wire

  ghost predicate Pending(s: System, e: EventId) {
    e in s.bank.db.events && e !in s.relay.processed
  }

  /** A copy of the event's message is in the queue or with a consumer. */
  ghost predicate InTransit(s: System, e: EventId) {
    exists k :: CopyOf(s, k, e) && (k in s.post.queued || k in s.post.unacked)
  }

  ghost predicate Rejected(s: System, e: EventId) {
    exists k :: CopyOf(s, k, e) && k in s.post.rejected
  }

  /** The e-mail for the event went out, with its user and the amount as it arrives. */
  ghost predicate Mailed(s: System, e: EventId) {
    && e in s.bank.db.events
    && var a := s.bank.db.events[e].amount;
       && a >= 1 && Wire.WireAmount(a).Some?
       && Inbox.DepositMail(Print(e), s.bank.db.events[e].user, Wire.WireAmount(a).value) in s.post.mails
  }

  /** The inbox row of the event's message id, written for a deposit. */
  ghost predicate EnteredAsDeposit(s: System, e: EventId) {
    Print(e) in s.post.inbox && s.post.inbox[Print(e)].eventType == Inbox.TOPPED_UP
  }

  ghost predicate EnteredForAuth(s: System, e: EventId) {
    Print(e) in s.post.inbox && s.post.inbox[Print(e)].eventType != Inbox.TOPPED_UP
  }

  // ----- billing amid everybody else

  /**
   With workers, consumers and auth interleaving too, the committed database is the sequential
   specification run over the decisions, and each reply other than a fault is its answer at the
   request's place.
   */
  lemma Linearizable(acts: seq<Action>)
    requires Feasible(Init, acts)
    ensures var b := Run(Init, acts).bank;
      && Legal(b.log) && b.db == Replay(b.log)
      && forall t :: t in b.txs && b.txs[t].pc.Done? && b.txs[t].pc.result != Billing.Fault ==>
           && b.txs[t].pc.result.Returned?
           && b.txs[t].decided.Some? && b.txs[t].decided.value < |b.log|
           && b.log[b.txs[t].decided.value].tx == t
           && b.txs[t].pc.result.outcome == Verdict(Replay(b.log[..b.txs[t].decided.value]), b.txs[t].req)
  {
    BankRunsAlone(acts);
    BillingTheorems.Linearizable(BillingSteps(acts));
  }

  /** No step of anybody makes a balance differ from its rows or leave 0..2^63-1. */
  lemma MoneyIsConserved(acts: seq<Action>)
    requires Feasible(Init, acts)
    ensures Sound(Run(Init, acts).bank.db)
  {
    BankRunsAlone(acts);
    BillingTheorems.MoneyIsConserved(BillingSteps(acts));
  }

  /** No step of a worker or a consumer breaks the match of events and deposit rows. */
  lemma OutboxMatchesLedger(acts: seq<Action>)
    requires Feasible(Init, acts)
    ensures exists rows :: Bijection(Run(Init, acts).bank.db, rows)
  {
    BankRunsAlone(acts);
    BillingTheorems.OutboxMatchesLedger(BillingSteps(acts));
  }

  /**
   A later request with the key of a committed one is told so exactly when it passes the checks that
   come before the key; otherwise it is refused, although its effect is there.
   */
  lemma RetriesAreAnswered(acts: seq<Action>, t: TxId, u: TxId)
    requires Feasible(Init, acts) && BillingTheorems.Retries(Run(Init, acts).bank, t, u)
    ensures var b := Run(Init, acts).bank;
      b.txs[u].pc.result == Billing.Returned(Replayed) <==>
        PassesChecks(Replay(b.log[..b.txs[u].decided.value]), b.txs[u].req)
  {
    BankRunsAlone(acts);
    BillingTheorems.RetriesAreAnswered(BillingSteps(acts), t, u);
  }

  // ----- messages

  lemma EventsAreValid(s: System, e: EventId)
    requires Inv(s) && e in s.bank.db.events
    ensures s.bank.db.events[e].user != "" && 1 <= s.bank.db.events[e].amount <= MAX_INT64
  {
    LegalEvents(s.bank.log);
  }

  lemma TextIsTheWire(a: int)
    requires a >= 1
    ensures ParseInt64(AmountText(a)) == Wire.WireAmount(a)
  {}

  /** What the consumer makes of a deposit message. */
  lemma DecodeMessage(id: EventId, ev: Event)
    requires ev.user != "" && 1 <= ev.amount <= MAX_INT64
    ensures Wire.WireAmount(ev.amount).Some? <==> ev.amount < Wire.TOO_BIG
    ensures ev.amount < Wire.TOO_BIG ==>
      Inbox.Decode(MessageOf(id, ev)) == Inbox.Deposit(ev.user, Wire.WireAmount(ev.amount).value)
    ensures ev.amount >= Wire.TOO_BIG ==> Inbox.Decode(MessageOf(id, ev)) == Inbox.Fatal
  {
    TextIsTheWire(ev.amount);
    Wire.DecodingFailsExactlyAtTheTop(ev.amount);
  }

  lemma SameIdSameEvent(s: System, k: Inbox.CopyId, e: EventId)
    requires Inv(s) && k < |s.post.copies| && e in s.bank.db.events
    requires s.post.copies[k].id == Print(e) && s.post.copies[k].key == Inbox.TOPPED_UP
    ensures CopyOf(s, k, e)
  {
    var d :| CopyOf(s, k, d);
    PrintInjective(d, e);
  }

  // ----- provenance

  lemma MailComesFromEvent(s: System, mail: Inbox.Mail) returns (e: EventId)
    requires Inv(s) && mail in s.post.mails && mail.DepositMail?
    ensures Mailed(s, e) && mail == Inbox.DepositMail(Print(e), s.bank.db.events[e].user, mail.amount)
    ensures Wire.WireAmount(s.bank.db.events[e].amount) == Some(mail.amount)
  {
    var k :| Inbox.Caused(s.post, mail, k);
    e :| CopyOf(s, k, e);
    EventsAreValid(s, e);
    DecodeMessage(e, s.bank.db.events[e]);
  }

  /**
   Every deposit e-mail announces a committed deposit: it carries the user whose account the deposit
   row credits and the row's amount as it arrives, which is the amount itself up to 2^53.
   */
  lemma EmailProvenance(acts: seq<Action>, mail: Inbox.Mail) returns (e: EventId, i: nat)
    requires Feasible(Init, acts) && mail in Run(Init, acts).post.mails && mail.DepositMail?
    ensures var db := Run(Init, acts).bank.db;
      && Announces(db, e, i)
      && mail.id == Print(e) && mail.user == db.events[e].user
      && db.ledger[i].amount >= 1 && Wire.WireAmount(db.ledger[i].amount) == Some(mail.amount)
      && (db.ledger[i].amount <= Wire.EXACT ==> mail.amount == db.ledger[i].amount)
  {
    InitInv();
    InvRun(Init, acts);
    var s := Run(Init, acts);
    e := MailComesFromEvent(s, mail);
    EventsMatchDeposits(s.bank.log);
    i := RowOf(s.bank.log)[e];
    assert Announces(s.bank.db, e, i);
    if s.bank.db.events[e].amount <= Wire.EXACT { Wire.AmountsUpTo2To53AreExact(s.bank.db.events[e].amount); }
  }

  /** The message auth publishes in this step. */
  ghost predicate SentByAuth(a: Action, m: Inbox.Message) {
    a.AuthPublishes? && m == Inbox.Message(Print(a.id), a.key, a.body)
  }

  lemma {:induction false} OtherCopiesAreAuths(acts: seq<Action>, k: Inbox.CopyId) returns (i: nat)
    requires Feasible(Init, acts) && k < |Run(Init, acts).post.copies|
    requires Run(Init, acts).post.copies[k].key != Inbox.TOPPED_UP
    ensures i < |acts| && SentByAuth(acts[i], Run(Init, acts).post.copies[k])
  {
    var front, a := acts[..|acts| - 1], acts[|acts| - 1];
    if k < |Run(Init, front).post.copies| {
      InitInv();
      InvRun(Init, front);
      HistoryStep(Run(Init, front), a);
      i := OtherCopiesAreAuths(front, k);
      assert acts[i] == front[i];
    } else {
      i := |acts| - 1;
      if a.Consume? { ConsumingEnqueuesNothing(Run(Init, front).post, a.inbox); }
    }
  }

  /** Every welcome e-mail goes to the address in a registration auth published under its id. */
  lemma WelcomeProvenance(acts: seq<Action>, mail: Inbox.Mail) returns (i: nat)
    requires Feasible(Init, acts) && mail in Run(Init, acts).post.mails && mail.WelcomeMail?
    ensures i < |acts| && acts[i].AuthPublishes? && acts[i].key == Inbox.REGISTERED
    ensures mail.id == Print(acts[i].id) && mail.email == Inbox.EmailIn(acts[i].body)
  {
    InitInv();
    InvRun(Init, acts);
    var p := Run(Init, acts).post;
    var k := Inbox.WelcomeNamesAMessage(p, mail);
    i := OtherCopiesAreAuths(acts, k);
  }

  /** An inbox row that is not a deposit's names the user of a message auth published under its id. */
  lemma AuthEntriesNameTheUser(acts: seq<Action>, id: string) returns (i: nat)
    requires Feasible(Init, acts) && id in Run(Init, acts).post.inbox
    requires Run(Init, acts).post.inbox[id].eventType != Inbox.TOPPED_UP
    ensures i < |acts| && acts[i].AuthPublishes? && id == Print(acts[i].id) && acts[i].key == Inbox.REGISTERED
    ensures Run(Init, acts).post.inbox[id] == Inbox.InboxRow(Inbox.UserIn(acts[i].body), Inbox.REGISTERED)
    ensures Inbox.WelcomeMail(id, Inbox.EmailIn(acts[i].body)) in Run(Init, acts).post.mails
  {
    InitInv();
    InvRun(Init, acts);
    var p := Run(Init, acts).post;
    var k := Inbox.RowNamesAMessage(p, id);
    Inbox.DecodesByKey(p.copies[k]);
    i := OtherCopiesAreAuths(acts, k);
  }

  /** The inbox row of a deposit names the user whose account it credited. */
  lemma DepositEntriesNameTheUser(acts: seq<Action>, e: EventId)
    requires Feasible(Init, acts) && e in Run(Init, acts).bank.db.events && EnteredAsDeposit(Run(Init, acts), e)
    ensures var s := Run(Init, acts);
      s.post.inbox[Print(e)] == Inbox.InboxRow(s.bank.db.events[e].user, Inbox.TOPPED_UP)
  {
    InitInv();
    InvRun(Init, acts);
    var s := Run(Init, acts);
    var k := Inbox.RowNamesAMessage(s.post, Print(e));
    SameIdSameEvent(s, k, e);
  }

  // ----- no lost event

  lemma EntryWasMailed(s: System, e: EventId)
    requires Inv(s) && e in s.bank.db.events && EnteredAsDeposit(s, e)
    ensures Mailed(s, e)
  {
    var k :| Inbox.Entered(s.post, Print(e), k);
    SameIdSameEvent(s, k, e);
    EventsAreValid(s, e);
    DecodeMessage(e, s.bank.db.events[e]);
  }

  lemma WhereACopyIs(s: System, e: EventId, k: Inbox.CopyId)
    requires Inv(s) && CopyOf(s, k, e)
    ensures k in s.post.queued || k in s.post.unacked || k in s.post.acked || k in s.post.rejected
    ensures k in s.post.acked ==> Print(e) in s.post.inbox && s.bank.db.events[e].amount < Wire.TOO_BIG
    ensures k in s.post.rejected ==> s.bank.db.events[e].amount >= Wire.TOO_BIG
  {
    assert Inbox.Places(s.post, k) == 1;
    EventsAreValid(s, e);
    DecodeMessage(e, s.bank.db.events[e]);
  }

  /**
   No event is lost. In every reachable state a committed deposit event is still PENDING, or in the
   queue or with a consumer, or entered in the inbox; or its amount is 2^63-512 or more and its
   message is rejected. An inbox row written for a deposit means the e-mail for this event went out.
   */
  lemma NoLostEvent(acts: seq<Action>, e: EventId)
    requires Feasible(Init, acts) && e in Run(Init, acts).bank.db.events
    ensures var s := Run(Init, acts);
      && (Pending(s, e) || InTransit(s, e) || EnteredAsDeposit(s, e) || EnteredForAuth(s, e) || Rejected(s, e))
      && (EnteredAsDeposit(s, e) ==> Mailed(s, e))
      && (Rejected(s, e) ==> s.bank.db.events[e].amount >= Wire.TOO_BIG)
      && (Mailed(s, e) ==> s.bank.db.events[e].amount < Wire.TOO_BIG)
  {
    InitInv();
    InvRun(Init, acts);
    var s := Run(Init, acts);
    if EnteredAsDeposit(s, e) { EntryWasMailed(s, e); }
    EventsAreValid(s, e);
    DecodeMessage(e, s.bank.db.events[e]);
    if Rejected(s, e) {
      var k :| CopyOf(s, k, e) && k in s.post.rejected;
      WhereACopyIs(s, e, k);
    }
    if e in s.relay.processed {
      Outbox.PublishBound(s.bank.db.events.Keys, s.relay, e);
      var k :| CopyOf(s, k, e);
      WhereACopyIs(s, e, k);
      if k in s.post.acked && Print(e) in s.post.inbox {
        assert EnteredAsDeposit(s, e) || EnteredForAuth(s, e);
      }
    }
  }

  // ----- which deposits are announced

  /** Auth publishes a message the consumer can read under the id of billing's event. */
  predicate Clashes(a: Action, e: EventId) {
    a.AuthPublishes? && a.id == e && Inbox.Readable(Inbox.Message(Print(a.id), a.key, a.body))
  }

  ghost predicate NoClash(acts: seq<Action>, e: EventId) {
    forall i :: 0 <= i < |acts| ==> !Clashes(acts[i], e)
  }

  ghost predicate OnlyDepositsUnder(s: System, e: EventId) {
    forall k: Inbox.CopyId ::
      k < |s.post.copies| && s.post.copies[k].id == Print(e) && Inbox.Readable(s.post.copies[k]) ==>
      s.post.copies[k].key == Inbox.TOPPED_UP
  }

  lemma OnlyDepositsUnderStep(s: System, a: Action, e: EventId)
    requires Enabled(s, a) && !Clashes(a, e) && OnlyDepositsUnder(s, e)
    ensures OnlyDepositsUnder(Exec(s, a), e)
  {
    match a
    case AuthPublishes(id, _, _) => PrintInjective(id, e);
    case Consume(i) => ConsumingEnqueuesNothing(s.post, i);
    case _ =>
  }

  lemma {:induction false} NoClashMeansOnlyDeposits(acts: seq<Action>, e: EventId)
    requires Feasible(Init, acts) && NoClash(acts, e)
    ensures OnlyDepositsUnder(Run(Init, acts), e)
  {
    if acts != [] {
      var front, a := acts[..|acts| - 1], acts[|acts| - 1];
      assert NoClash(front, e) && !Clashes(a, e);
      NoClashMeansOnlyDeposits(front, e);
      OnlyDepositsUnderStep(Run(Init, front), a, e);
    }
  }

  /** The exact e-mail for the event went out. */
  ghost predicate ExactlyMailed(s: System, e: EventId) {
    e in s.bank.db.events &&
    Inbox.DepositMail(Print(e), s.bank.db.events[e].user, s.bank.db.events[e].amount) in s.post.mails
  }

  /**
   As long as auth publishes nothing readable under its id, a committed deposit is PENDING, in
   transit, rejected for its amount, or entered with its e-mail sent, which is exact up to 2^53;
   whatever crashed on the way.
   */
  lemma DepositsAreNotified(acts: seq<Action>, e: EventId)
    requires Feasible(Init, acts) && NoClash(acts, e) && e in Run(Init, acts).bank.db.events
    ensures var s := Run(Init, acts);
      && (Pending(s, e) || InTransit(s, e) || Rejected(s, e) || (EnteredAsDeposit(s, e) && Mailed(s, e)))
      && (Rejected(s, e) ==> s.bank.db.events[e].amount >= Wire.TOO_BIG)
      && (Mailed(s, e) && s.bank.db.events[e].amount <= Wire.EXACT ==> ExactlyMailed(s, e))
  {
    var s := Run(Init, acts);
    NoLostEvent(acts, e);
    NoClashMeansOnlyDeposits(acts, e);
    InitInv();
    InvRun(Init, acts);
    EventsAreValid(s, e);
    if s.bank.db.events[e].amount <= Wire.EXACT { Wire.AmountsUpTo2To53AreExact(s.bank.db.events[e].amount); }
    if Print(e) in s.post.inbox { var k :| Inbox.Entered(s.post, Print(e), k); }
  }

  ghost predicate BillingOnly(acts: seq<Action>) {
    forall i :: 0 <= i < |acts| ==> !acts[i].AuthPublishes?
  }

  /** In particular when billing is the only producer. */
  lemma OneProducer(acts: seq<Action>, e: EventId)
    requires Feasible(Init, acts) && BillingOnly(acts)
    requires e in Run(Init, acts).bank.db.events && Run(Init, acts).bank.db.events[e].amount <= Wire.EXACT
    ensures var s := Run(Init, acts); Pending(s, e) || InTransit(s, e) || ExactlyMailed(s, e)
  {
    DepositsAreNotified(acts, e);
  }

  // ----- duplication

  lemma NoMailOnceEnteredStep(s: System, a: Action, id: string)
    requires Inv(s) && Enabled(s, a) && id in s.post.inbox
    ensures id in Exec(s, a).post.inbox && Exec(s, a).post.inbox[id] == s.post.inbox[id]
    ensures Inbox.MailsFor(Exec(s, a).post.mails, id) == Inbox.MailsFor(s.post.mails, id)
    ensures forall mail :: mail in Exec(s, a).post.mails && mail.id == id ==> mail in s.post.mails
  {
    if a.Consume? {
      Inbox.NoMailOnceEntered(s.post, a.inbox, id);
      Inbox.EntriesStay(s.post, a.inbox);
    }
  }

  lemma {:induction false} NoMailOnceEnteredRun(s: System, acts: seq<Action>, id: string)
    requires Inv(s) && Feasible(s, acts) && id in s.post.inbox
    ensures id in Run(s, acts).post.inbox && Run(s, acts).post.inbox[id] == s.post.inbox[id]
    ensures Inbox.MailsFor(Run(s, acts).post.mails, id) == Inbox.MailsFor(s.post.mails, id)
    ensures forall mail :: mail in Run(s, acts).post.mails && mail.id == id ==> mail in s.post.mails
  {
    if acts != [] {
      var front, a := acts[..|acts| - 1], acts[|acts| - 1];
      NoMailOnceEnteredRun(s, front, id);
      InvRun(s, front);
      NoMailOnceEnteredStep(Run(s, front), a, id);
    }
  }

  /**
   Over any run the e-mails for an id number at most one plus the attempts that sent one and did not
   commit, and none is added once the inbox row is committed, however the run goes on.
   */
  lemma BoundedDuplication(acts: seq<Action>, more: seq<Action>, id: string)
    requires Feasible(Init, acts) && Feasible(Run(Init, acts), more)
    ensures var s := Run(Init, acts);
      && Inbox.MailsFor(s.post.mails, id) <= 1 + s.post.failed[id]
      && (id in s.post.inbox ==> Inbox.MailsFor(Run(s, more).post.mails, id) == 1 + s.post.failed[id])
  {
    InitInv();
    InvRun(Init, acts);
    var s := Run(Init, acts);
    Inbox.DuplicationBound(s.post, id);
    if id in s.post.inbox { NoMailOnceEnteredRun(s, more, id); }
  }

  /** Successful publishes of an event number at most one plus the batches that did not commit. */
  lemma BoundedPublishing(acts: seq<Action>, e: EventId)
    requires Feasible(Init, acts)
    ensures var r := Run(Init, acts).relay;
      && r.published[e] <= 1 + r.wasted[e]
      && (e in r.processed ==> r.published[e] >= 1)
      && (forall v, w :: v in r.batches && w in r.batches && e in r.batches[v].rows && e in r.batches[w].rows ==>
        v == w)
  {
    InitInv();
    InvRun(Init, acts);
    var s := Run(Init, acts);
    Outbox.PublishBound(s.bank.db.events.Keys, s.relay, e);
  }

  /** Each enqueued copy is in exactly one place; an acked one was entered or had an unknown key. */
  lemma DeliveryConservation(acts: seq<Action>, k: Inbox.CopyId)
    requires Feasible(Init, acts)
    ensures var p := Run(Init, acts).post;
      && Inbox.Places(p, k) == (if k < |p.copies| then 1 else 0)
      && (k in p.acked ==> Inbox.Decode(p.copies[k]).Unknown? || p.copies[k].id in p.inbox)
      && (k in p.rejected ==> Inbox.Decode(p.copies[k]).Fatal?)
  {
    InitInv();
    InvRun(Init, acts);
  }

  /** The consumer's exit on an empty message id is never taken. */
  lemma EmptyIdIsUnreachable(acts: seq<Action>, c: Inbox.ConsumerId, k: Inbox.CopyId)
    requires Feasible(Init, acts)
    ensures !Enabled(Run(Init, acts), Consume(Inbox.EmptyId(c, k)))
  {
    InitInv();
    InvRun(Init, acts);
  }
}
