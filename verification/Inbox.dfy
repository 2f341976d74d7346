/**
 The broker queue and its consumers: each delivery is deduplicated by message id in the inbox
 table, mailed, committed, and then acked, rejected or requeued.

 A consumer is one channel. When it closes, its unacked copies go back to the queue, but a handler
 already running may still commit; its ack is then lost. `mails` are the e-mails that went out and
 `failed` counts attempts that sent one and did not commit (history).
 */
module Inbox {
  import opened Common
  import opened Decimal

  type ConsumerId = nat
  type CopyId = nat

  const TOPPED_UP := "AccountToppedUp"
  const REGISTERED := "AccountRegistered"

  /** JSON bodies; an amount is the text of a number. */
  datatype Body =
    | DepositBody(user: string, amount: string)
    | RegistrationBody(email: string, user: string)
    | Malformed

  datatype Message = Message(id: string, key: string, body: Body)

  datatype Decoded = Unknown | Fatal | Deposit(user: string, amount: int) | Registration(email: string, user: string)

  /** A field the JSON object lacks keeps its Go zero value. */
  function Decode(m: Message): Decoded {
    if m.key == TOPPED_UP then
      match m.body
      case DepositBody(user, text) =>
        var amount := ParseInt64(text);
        if amount.None? || user == "" then Fatal else Deposit(user, amount.value)
      case RegistrationBody(_, user) => if user == "" then Fatal else Deposit(user, 0)
      case Malformed => Fatal
    else if m.key == REGISTERED then
      match m.body
      case DepositBody(user, _) => Registration("", user)
      case RegistrationBody(email, user) => Registration(email, user)
      case Malformed => Fatal
    else Unknown
  }

  predicate Readable(m: Message) {
    Decode(m).Deposit? || Decode(m).Registration?
  }

  /** The user a body names, whichever event it is read as. */
  function UserIn(b: Body): string {
    match b
    case DepositBody(user, _) => user
    case RegistrationBody(_, user) => user
    case Malformed => ""
  }

  /** The address a registration is read to have: empty if the body has none. */
  function EmailIn(b: Body): string {
    if b.RegistrationBody? then b.email else ""
  }

  /** A processed_events row. */
  datatype InboxRow = InboxRow(aggregateId: string, eventType: string)

  function RowFor(m: Message): InboxRow
    requires Readable(m)
  {
    InboxRow(Decode(m).user, m.key)
  }

  /** An e-mail that went out, with the id of the message that caused it. */
  datatype Mail = DepositMail(id: string, user: string, amount: int) | WelcomeMail(id: string, email: string)

  function MailFor(m: Message): Mail
    requires Readable(m)
  {
    match Decode(m)
    case Deposit(user, amount) => DepositMail(m.id, user, amount)
    case Registration(email, _) => WelcomeMail(m.id, email)
  }

  function MailsFor(mails: seq<Mail>, id: string): nat {
    if mails == [] then 0
    else MailsFor(mails[..|mails| - 1], id) + (if mails[|mails| - 1].id == id then 1 else 0)
  }

  datatype Verdict = AckIt | RejectIt | RequeueIt
  datatype Pc = Received | Saved | Mailed | Decided(verdict: Verdict)
  datatype Handler = Handler(copy: CopyId, pc: Pc)
  datatype Lease = Lease(consumer: ConsumerId, taken: bool)

  datatype Post = Post(
    copies: seq<Message>,
    queued: set<CopyId>,
    unacked: map<CopyId, Lease>,
    acked: set<CopyId>,
    rejected: set<CopyId>,
    closed: set<ConsumerId>,
    handlers: map<ConsumerId, Handler>,
    inbox: map<string, InboxRow>,
    mails: seq<Mail>,
    failed: multiset<string>)

  const Quiet := Post([], {}, map[], {}, {}, {}, map[], map[], [], multiset{})

  datatype Action =
    | Enqueue(m: Message)
    | Deliver(c: ConsumerId, copy: CopyId)
    | Take(c: ConsumerId, copy: CopyId)
    | EmptyId(c: ConsumerId, copy: CopyId)
    | Ignore(c: ConsumerId)
    | GiveUp(c: ConsumerId)
    | Save(c: ConsumerId)
    | Skip(c: ConsumerId)
    | Break(c: ConsumerId)
    | Send(c: ConsumerId)
    | SendLost(c: ConsumerId)
    | CommitInbox(c: ConsumerId, acked: bool)
    | Settle(c: ConsumerId, ok: bool)
    | Close(c: ConsumerId)

  function MessageAt(p: Post, c: ConsumerId): Message
    requires c in p.handlers && p.handlers[c].copy < |p.copies|
  {
    p.copies[p.handlers[c].copy]
  }

  /** The handler has an uncommitted inbox row. */
  predicate HoldsId(p: Post, c: ConsumerId, id: string) {
    && c in p.handlers && p.handlers[c].copy < |p.copies| && MessageAt(p, c).id == id
    && (p.handlers[c].pc.Saved? || p.handlers[c].pc.Mailed?)
  }

  predicate IdFree(p: Post, id: string) {
    forall c :: c in p.handlers ==> !HoldsId(p, c, id)
  }

  predicate Waiting(p: Post, c: ConsumerId, copy: CopyId) {
    c !in p.handlers && copy < |p.copies| && copy in p.unacked && p.unacked[copy] == Lease(c, false)
  }

  predicate Enabled(p: Post, a: Action) {
    match a
    case Enqueue(m) => true
    case Deliver(c, copy) => copy in p.queued && c !in p.closed
    case Take(c, copy) => Waiting(p, c, copy) && p.copies[copy].id != ""
    case EmptyId(c, copy) => Waiting(p, c, copy) && p.copies[copy].id == ""
    case Close(c) => true
    case _ =>
      a.c in p.handlers && p.handlers[a.c].copy < |p.copies| &&
      var pc, m := p.handlers[a.c].pc, MessageAt(p, a.c);
      match a
      case Ignore(_) => pc.Received? && Decode(m).Unknown?
      case GiveUp(_) => pc.Received? && Decode(m).Fatal?
      case Save(_) => pc.Received? && Readable(m) && m.id !in p.inbox && IdFree(p, m.id)
      case Skip(_) => pc.Received? && Readable(m) && m.id in p.inbox
      case Break(_) => (pc.Received? && Readable(m)) || pc.Saved? || pc.Mailed?
      case Send(_) => pc.Saved? && Readable(m)
      case SendLost(_) => pc.Saved? && Readable(m)
      case CommitInbox(_, _) => pc.Mailed? && Readable(m)
      case Settle(_, _) => pc.Decided?
      case _ => false
  }

  function Goto(p: Post, c: ConsumerId, pc: Pc): Post
    requires c in p.handlers
  {
    p.(handlers := p.handlers[c := p.handlers[c].(pc := pc)])
  }

  function CopiesOf(p: Post, c: ConsumerId): set<CopyId> {
    set k | k in p.unacked && p.unacked[k].consumer == c
  }

  /** The channel is gone: its unacked copies return to the queue. */
  function Closed(p: Post, c: ConsumerId): Post {
    p.(closed := p.closed + {c}, queued := p.queued + CopiesOf(p, c), unacked := p.unacked - CopiesOf(p, c))
  }

  /** The broker's reaction to an ack, a reject or a requeue that reaches it. */
  function Settled(p: Post, k: CopyId, v: Verdict): Post {
    var q := p.(unacked := p.unacked - {k});
    match v
    case AckIt => q.(acked := p.acked + {k})
    case RejectIt => q.(rejected := p.rejected + {k})
    case RequeueIt => q.(queued := p.queued + {k})
  }

  function Exec(p: Post, a: Action): Post
    requires Enabled(p, a)
  {
    match a
    case Enqueue(m) => p.(copies := p.copies + [m], queued := p.queued + {|p.copies|})
    case Deliver(c, copy) => p.(queued := p.queued - {copy}, unacked := p.unacked[copy := Lease(c, false)])
    case Take(c, copy) =>
      p.(unacked := p.unacked[copy := Lease(c, true)], handlers := p.handlers[c := Handler(copy, Received)])
    case EmptyId(c, _) => Closed(p, c)
    case Ignore(c) => Goto(p, c, Decided(AckIt))
    case GiveUp(c) => Goto(p, c, Decided(RejectIt))
    case Save(c) => Goto(p, c, Saved)
    case Skip(c) => Goto(p, c, Decided(AckIt))
    case Break(c) =>
      var id := MessageAt(p, c).id;
      Goto(if p.handlers[c].pc.Mailed? then p.(failed := p.failed + multiset{id}) else p, c, Decided(RequeueIt))
    case Send(c) => Goto(p.(mails := p.mails + [MailFor(MessageAt(p, c))]), c, Mailed)
    case SendLost(c) =>
      var m := MessageAt(p, c);
      Goto(p.(mails := p.mails + [MailFor(m)], failed := p.failed + multiset{m.id}), c, Decided(RequeueIt))
    case CommitInbox(c, acked) =>
      var m := MessageAt(p, c);
      Goto(p.(inbox := p.inbox[m.id := RowFor(m)]), c, Decided(if acked then AckIt else RequeueIt))
    case Settle(c, ok) =>
      var k, v := p.handlers[c].copy, p.handlers[c].pc.verdict;
      var q := if ok && k in p.unacked && p.unacked[k] == Lease(c, true) then Settled(p, k, v) else p;
      q.(handlers := p.handlers - {c})
    case Close(c) => Closed(p, c)
  }

  // ----- the invariant

  ghost function Places(p: Post, k: CopyId): nat {
    One(k in p.queued) + One(k in p.unacked) + One(k in p.acked) + One(k in p.rejected)
  }

  /** Every enqueued copy is in exactly one place, and nothing else is anywhere. */
  ghost predicate Placed(p: Post) {
    forall k: CopyId :: Places(p, k) == One(k < |p.copies|)
  }

  /** Nothing more is owed for a message. */
  ghost predicate Concluded(p: Post, m: Message) {
    Decode(m).Unknown? || (Readable(m) && m.id in p.inbox)
  }

  ghost predicate Sent(p: Post, m: Message) {
    Readable(m) && MailFor(m) in p.mails
  }

  /** The copy was taken by this consumer and is not settled. */
  predicate Leased(p: Post, c: ConsumerId, k: CopyId) {
    k in p.unacked && p.unacked[k] == Lease(c, true)
  }

  ghost predicate HandlerOk(p: Post, c: ConsumerId) {
    && c in p.handlers && p.handlers[c].copy < |p.copies|
    && var pc, m := p.handlers[c].pc, MessageAt(p, c);
       && (pc.Saved? || pc.Mailed? ==> Readable(m) && m.id !in p.inbox)
       && (pc.Mailed? ==> Sent(p, m))
       && (pc == Decided(AckIt) ==> Concluded(p, m))
       && (pc == Decided(RejectIt) ==> Decode(m).Fatal?)
       && (c !in p.closed ==> Leased(p, c, p.handlers[c].copy))
  }

  ghost predicate HandlersOk(p: Post) {
    && (forall c :: c in p.handlers ==> HandlerOk(p, c))
    && (forall c, d, id :: HoldsId(p, c, id) && HoldsId(p, d, id) ==> c == d)
  }

  ghost predicate OutcomesOk(p: Post) {
    && (forall k :: k in p.acked ==> k < |p.copies| && Concluded(p, p.copies[k]))
    && (forall k :: k in p.rejected ==> k < |p.copies| && Decode(p.copies[k]).Fatal?)
  }

  ghost predicate Caused(p: Post, mail: Mail, k: CopyId) {
    k < |p.copies| && Readable(p.copies[k]) && MailFor(p.copies[k]) == mail
  }

  ghost predicate Entered(p: Post, id: string, k: CopyId) {
    k < |p.copies| && id in p.inbox && p.copies[k].id == id && Sent(p, p.copies[k])
      && p.inbox[id] == RowFor(p.copies[k])
  }

  /** Every e-mail and every inbox row comes from a copy, and an inbox row was mailed. */
  ghost predicate OriginsOk(p: Post) {
    && (forall mail :: mail in p.mails ==> exists k :: Caused(p, mail, k))
    && (forall id :: id in p.inbox ==> exists k :: Entered(p, id, k))
  }

  ghost predicate BeingMailed(p: Post, id: string) {
    exists c :: HoldsId(p, c, id) && p.handlers[c].pc.Mailed?
  }

  /** Every e-mail is accounted for. */
  ghost predicate Accounted(p: Post, id: string) {
    MailsFor(p.mails, id) == One(id in p.inbox) + One(BeingMailed(p, id)) + p.failed[id]
  }

  ghost predicate Inv(p: Post) {
    Placed(p) && HandlersOk(p) && OutcomesOk(p) && OriginsOk(p) && forall id :: Accounted(p, id)
  }

  // ----- preservation

  lemma ClosedKeepsPlaces(p: Post, c: ConsumerId, k: CopyId)
    ensures Places(Closed(p, c), k) == Places(p, k) + One(k in p.queued && k in CopiesOf(p, c)) * -1
  {}

  lemma SettledKeepsPlaces(p: Post, j: CopyId, v: Verdict, k: CopyId)
    requires Places(p, j) == 1 && j in p.unacked
    ensures Places(Settled(p, j, v), k) == Places(p, k)
  {}

  lemma PlacedStep(p: Post, a: Action, k: CopyId)
    requires Inv(p) && Enabled(p, a)
    ensures Places(Exec(p, a), k) == One(k < |Exec(p, a).copies|)
  {
    assert Places(p, k) == One(k < |p.copies|);
    match a
    case Enqueue(_) => assert Places(p, |p.copies|) == 0;
    case Close(c) => ClosedKeepsPlaces(p, c, k);
    case EmptyId(c, _) => ClosedKeepsPlaces(p, c, k);
    case Settle(c, ok) =>
      var j := p.handlers[c].copy;
      assert Places(p, j) == One(j < |p.copies|);
      if j in p.unacked { SettledKeepsPlaces(p, j, p.handlers[c].pc.verdict, k); }
    case _ =>
  }

  lemma NothingIsForgotten(p: Post, a: Action)
    requires Enabled(p, a)
    ensures p.copies <= Exec(p, a).copies && p.mails <= Exec(p, a).mails
    ensures forall m :: Concluded(p, m) ==> Concluded(Exec(p, a), m)
    ensures forall m :: Sent(p, m) ==> Sent(Exec(p, a), m)
  {
    var q := Exec(p, a);
    assert forall mail :: mail in p.mails ==> mail in q.mails;
  }

  lemma EntriesStay(p: Post, a: Action)
    requires Inv(p) && Enabled(p, a)
    ensures forall id :: id in p.inbox ==> id in Exec(p, a).inbox && Exec(p, a).inbox[id] == p.inbox[id]
  {
    if a.CommitInbox? { assert HandlerOk(p, a.c); }
  }

  lemma OthersStay(p: Post, a: Action, c: ConsumerId)
    requires Enabled(p, a) && (a.Enqueue? || a.c != c)
    ensures c in Exec(p, a).handlers <==> c in p.handlers
    ensures c in p.handlers ==> Exec(p, a).handlers[c] == p.handlers[c]
  {}

  /** A lease ends with its own consumer's settlement or channel. */
  lemma LeaseStays(p: Post, a: Action, c: ConsumerId, k: CopyId)
    requires Inv(p) && Enabled(p, a) && Leased(p, c, k) && !(a.Settle? && a.c == c)
    ensures c in Exec(p, a).closed || Leased(Exec(p, a), c, k)
  {
    if a.Deliver? { assert Places(p, a.copy) == One(a.copy < |p.copies|); }
  }

  lemma ClosedStays(p: Post, a: Action)
    requires Enabled(p, a)
    ensures p.closed <= Exec(p, a).closed
  {}

  lemma HandlerOkOther(p: Post, a: Action, c: ConsumerId)
    requires Inv(p) && Enabled(p, a) && c in p.handlers && (a.Enqueue? || a.c != c)
    ensures HandlerOk(Exec(p, a), c)
  {
    OthersStay(p, a, c);
    NothingIsForgotten(p, a);
    ClosedStays(p, a);
    assert HandlerOk(p, c);
    if c !in p.closed { LeaseStays(p, a, c, p.handlers[c].copy); }
    if a.CommitInbox? {
      assert HoldsId(p, a.c, MessageAt(p, a.c).id);
      assert !HoldsId(p, c, MessageAt(p, a.c).id);
    }
  }

  lemma HandlerOkSelf(p: Post, a: Action)
    requires Inv(p) && Enabled(p, a) && !a.Enqueue? && a.c in Exec(p, a).handlers
    ensures HandlerOk(Exec(p, a), a.c)
  {
    NothingIsForgotten(p, a);
    ClosedStays(p, a);
    if a.c in p.handlers {
      assert HandlerOk(p, a.c);
      if a.c !in p.closed && !a.Settle? { LeaseStays(p, a, a.c, p.handlers[a.c].copy); }
    }
  }

  lemma HoldersStep(p: Post, a: Action, c: ConsumerId, id: string)
    requires Inv(p) && Enabled(p, a) && HoldsId(Exec(p, a), c, id)
    ensures HoldsId(p, c, id) || (a == Save(c) && IdFree(p, id))
  {
    if a.Enqueue? || a.c != c { OthersStay(p, a, c); }
    if c in p.handlers { assert HandlerOk(p, c); }
  }

  lemma HandlersOkStep(p: Post, a: Action)
    requires Inv(p) && Enabled(p, a)
    ensures HandlersOk(Exec(p, a))
  {
    var q := Exec(p, a);
    forall c | c in q.handlers
      ensures HandlerOk(q, c)
    {
      if a.Enqueue? || a.c != c {
        OthersStay(p, a, c);
        HandlerOkOther(p, a, c);
      } else {
        HandlerOkSelf(p, a);
      }
    }
    forall c, d, id | HoldsId(q, c, id) && HoldsId(q, d, id)
      ensures c == d
    {
      HoldersStep(p, a, c, id);
      HoldersStep(p, a, d, id);
    }
  }

  /** A copy is acked or rejected by the handler that decided so. */
  lemma NewOutcome(p: Post, a: Action, k: CopyId)
    requires Enabled(p, a)
    ensures k in Exec(p, a).acked && k !in p.acked ==>
      a.Settle? && p.handlers[a.c].copy == k && p.handlers[a.c].pc == Decided(AckIt)
    ensures k in Exec(p, a).rejected && k !in p.rejected ==>
      a.Settle? && p.handlers[a.c].copy == k && p.handlers[a.c].pc == Decided(RejectIt)
  {}

  lemma AckedStep(p: Post, a: Action, k: CopyId)
    requires Inv(p) && Enabled(p, a) && k in Exec(p, a).acked
    ensures k < |Exec(p, a).copies| && Concluded(Exec(p, a), Exec(p, a).copies[k])
  {
    NewOutcome(p, a, k);
    NothingIsForgotten(p, a);
    if k !in p.acked { assert HandlerOk(p, a.c); }
    assert Concluded(p, p.copies[k]);
  }

  lemma RejectedStep(p: Post, a: Action, k: CopyId)
    requires Inv(p) && Enabled(p, a) && k in Exec(p, a).rejected
    ensures k < |Exec(p, a).copies| && Decode(Exec(p, a).copies[k]).Fatal?
  {
    NewOutcome(p, a, k);
    NothingIsForgotten(p, a);
    if k !in p.rejected { assert HandlerOk(p, a.c); }
    assert Decode(p.copies[k]).Fatal?;
  }

  lemma OutcomesOkStep(p: Post, a: Action)
    requires Inv(p) && Enabled(p, a)
    ensures OutcomesOk(Exec(p, a))
  {
    var q := Exec(p, a);
    forall k | k in q.acked
      ensures k < |q.copies| && Concluded(q, q.copies[k])
    {
      AckedStep(p, a, k);
    }
    forall k | k in q.rejected
      ensures k < |q.copies| && Decode(q.copies[k]).Fatal?
    {
      RejectedStep(p, a, k);
    }
  }

  lemma MailOriginStep(p: Post, a: Action, mail: Mail)
    requires Inv(p) && Enabled(p, a) && mail in Exec(p, a).mails
    ensures exists k :: Caused(Exec(p, a), mail, k)
  {
    var q := Exec(p, a);
    NothingIsForgotten(p, a);
    if mail in p.mails {
      var k :| Caused(p, mail, k);
      assert Caused(q, mail, k);
    } else {
      assert Caused(q, mail, p.handlers[a.c].copy);
    }
  }

  lemma StillEntered(p: Post, q: Post, id: string, k: CopyId)
    requires Entered(p, id, k) && p.copies <= q.copies && id in q.inbox && q.inbox[id] == p.inbox[id]
    requires Sent(p, p.copies[k]) ==> Sent(q, p.copies[k])
    ensures Entered(q, id, k)
  {}

  lemma EntryOriginStep(p: Post, a: Action, id: string)
    requires Inv(p) && Enabled(p, a) && id in p.inbox
    ensures exists k :: Entered(Exec(p, a), id, k)
  {
    NothingIsForgotten(p, a);
    EntriesStay(p, a);
    var k :| Entered(p, id, k);
    StillEntered(p, Exec(p, a), id, k);
  }

  lemma NewEntryOrigin(p: Post, a: Action, id: string)
    requires Inv(p) && Enabled(p, a) && id in Exec(p, a).inbox && id !in p.inbox
    ensures exists k :: Entered(Exec(p, a), id, k)
  {
    assert a.CommitInbox? && id == MessageAt(p, a.c).id;
    assert HandlerOk(p, a.c);
    assert Entered(Exec(p, a), id, p.handlers[a.c].copy);
  }

  lemma OriginsOkStep(p: Post, a: Action)
    requires Inv(p) && Enabled(p, a)
    ensures OriginsOk(Exec(p, a))
  {
    forall mail | mail in Exec(p, a).mails
      ensures exists k :: Caused(Exec(p, a), mail, k)
    {
      MailOriginStep(p, a, mail);
    }
    forall id | id in Exec(p, a).inbox
      ensures exists k :: Entered(Exec(p, a), id, k)
    {
      if id in p.inbox { EntryOriginStep(p, a, id); } else { NewEntryOrigin(p, a, id); }
    }
  }

  lemma MailsForStep(mails: seq<Mail>, mail: Mail, id: string)
    ensures MailsFor(mails + [mail], id) == MailsFor(mails, id) + One(mail.id == id)
  {
    assert (mails + [mail])[..|mails|] == mails;
  }

  predicate Accounts(p: Post, a: Action, id: string)
    requires Enabled(p, a)
  {
    (a.Send? || a.SendLost? || a.Break? || a.CommitInbox?) && MessageAt(p, a.c).id == id
  }

  lemma MailedHolderStays(p: Post, a: Action, c: ConsumerId, id: string)
    requires Enabled(p, a) && !Accounts(p, a, id) && HoldsId(p, c, id) && p.handlers[c].pc.Mailed?
    ensures c in Exec(p, a).handlers && Exec(p, a).handlers[c] == p.handlers[c]
  {
    if a.Enqueue? || a.c != c { OthersStay(p, a, c); }
  }

  lemma StillBeingMailed(p: Post, a: Action, id: string)
    requires Enabled(p, a) && !Accounts(p, a, id) && BeingMailed(p, id)
    ensures BeingMailed(Exec(p, a), id)
  {
    var c :| HoldsId(p, c, id) && p.handlers[c].pc.Mailed?;
    MailedHolderStays(p, a, c, id);
    NothingIsForgotten(p, a);
    assert HoldsId(Exec(p, a), c, id);
  }

  lemma WasBeingMailed(p: Post, a: Action, id: string)
    requires Inv(p) && Enabled(p, a) && !Accounts(p, a, id) && BeingMailed(Exec(p, a), id)
    ensures BeingMailed(p, id)
  {
    var q := Exec(p, a);
    var c :| HoldsId(q, c, id) && q.handlers[c].pc.Mailed?;
    if a.Enqueue? || a.c != c { OthersStay(p, a, c); }
    HoldersStep(p, a, c, id);
    assert HoldsId(p, c, id) && p.handlers[c].pc.Mailed?;
  }

  /** The step of the only handler that holds `id` decides whether `id` is being mailed. */
  lemma OnlyHolderMoves(p: Post, a: Action, id: string)
    requires Inv(p) && Enabled(p, a) && Accounts(p, a, id) && HoldsId(p, a.c, id)
    ensures BeingMailed(p, id) <==> p.handlers[a.c].pc.Mailed?
    ensures BeingMailed(Exec(p, a), id) <==> a.Send?
  {
    var q := Exec(p, a);
    if a.Send? { assert HoldsId(q, a.c, id); }
    forall d | HoldsId(q, d, id) ensures d == a.c { HoldersStep(p, a, d, id); }
  }

  lemma UnsavedBreakChangesNothing(p: Post, a: Action, id: string)
    requires Inv(p) && Enabled(p, a) && a.Break? && p.handlers[a.c].pc.Received?
    ensures BeingMailed(Exec(p, a), id) == BeingMailed(p, id)
  {
    var q := Exec(p, a);
    if BeingMailed(p, id) {
      var d :| HoldsId(p, d, id) && p.handlers[d].pc.Mailed?;
      assert HoldsId(q, d, id) && q.handlers[d].pc.Mailed?;
    }
    if BeingMailed(q, id) {
      var d :| HoldsId(q, d, id) && q.handlers[d].pc.Mailed?;
      assert HoldsId(p, d, id) && p.handlers[d].pc.Mailed?;
    }
  }

  lemma MailTallyStays(p: Post, a: Action, id: string)
    requires Enabled(p, a) && !Accounts(p, a, id)
    ensures MailsFor(Exec(p, a).mails, id) == MailsFor(p.mails, id)
  {
    if a.Send? || a.SendLost? {
      MailsForStep(p.mails, MailFor(MessageAt(p, a.c)), id);
    } else {
      assert Exec(p, a).mails == p.mails;
    }
  }

  lemma FailuresStay(p: Post, a: Action, id: string)
    requires Enabled(p, a) && !Accounts(p, a, id)
    ensures Exec(p, a).failed[id] == p.failed[id]
  {}

  lemma EntryStays(p: Post, a: Action, id: string)
    requires Enabled(p, a) && !Accounts(p, a, id)
    ensures id in Exec(p, a).inbox <==> id in p.inbox
  {}

  lemma TalliesStay(p: Post, a: Action, id: string)
    requires Inv(p) && Enabled(p, a) && !Accounts(p, a, id)
    ensures MailsFor(Exec(p, a).mails, id) == MailsFor(p.mails, id)
    ensures id in Exec(p, a).inbox <==> id in p.inbox
    ensures Exec(p, a).failed[id] == p.failed[id]
  {
    MailTallyStays(p, a, id);
    FailuresStay(p, a, id);
    EntryStays(p, a, id);
  }

  lemma TalliesMove(p: Post, a: Action, id: string)
    requires Inv(p) && Enabled(p, a) && Accounts(p, a, id)
    ensures MailsFor(Exec(p, a).mails, id) == MailsFor(p.mails, id) + One(a.Send? || a.SendLost?)
    ensures id in Exec(p, a).inbox <==> id in p.inbox || a.CommitInbox?
    ensures Exec(p, a).failed[id] == p.failed[id] + One(a.SendLost? || (a.Break? && p.handlers[a.c].pc.Mailed?))
  {
    if a.Send? || a.SendLost? { MailsForStep(p.mails, MailFor(MessageAt(p, a.c)), id); }
  }

  lemma HoldsOwnId(p: Post, a: Action, id: string)
    requires Inv(p) && Enabled(p, a) && Accounts(p, a, id) && !(a.Break? && p.handlers[a.c].pc.Received?)
    ensures HoldsId(p, a.c, id) && id !in p.inbox
    ensures a.Send? || a.SendLost? ==> p.handlers[a.c].pc.Saved?
    ensures a.CommitInbox? ==> p.handlers[a.c].pc.Mailed?
  {
    assert HandlerOk(p, a.c);
  }

  lemma AccountedStep(p: Post, a: Action, id: string)
    requires Inv(p) && Enabled(p, a)
    ensures Accounted(Exec(p, a), id)
  {
    assert Accounted(p, id);
    if !Accounts(p, a, id) {
      TalliesStay(p, a, id);
      if BeingMailed(p, id) {
        StillBeingMailed(p, a, id);
      } else if BeingMailed(Exec(p, a), id) {
        WasBeingMailed(p, a, id);
      }
    } else {
      TalliesMove(p, a, id);
      if a.Break? && p.handlers[a.c].pc.Received? {
        UnsavedBreakChangesNothing(p, a, id);
      } else {
        HoldsOwnId(p, a, id);
        OnlyHolderMoves(p, a, id);
      }
    }
  }

  lemma InvStep(p: Post, a: Action)
    requires Inv(p) && Enabled(p, a)
    ensures Inv(Exec(p, a))
  {
    forall k: CopyId ensures Places(Exec(p, a), k) == One(k < |Exec(p, a).copies|) { PlacedStep(p, a, k); }
    HandlersOkStep(p, a);
    OutcomesOkStep(p, a);
    OriginsOkStep(p, a);
    forall id
      ensures Accounted(Exec(p, a), id)
    {
      AccountedStep(p, a, id);
    }
  }

  // ----- single steps

  ghost predicate SamePlaces(p: Post, q: Post, k: CopyId) {
    && (k in p.queued <==> k in q.queued) && (k in p.acked <==> k in q.acked) && (k in p.rejected <==> k in q.rejected)
    && (k in p.unacked <==> k in q.unacked) && (k in p.unacked ==> p.unacked[k] == q.unacked[k])
  }

  /** Where the broker puts a copy after an ack, a reject or a requeue. */
  ghost predicate PutBy(q: Post, k: CopyId, v: Verdict) {
    && k !in q.unacked
    && (k in q.acked <==> v == AckIt) && (k in q.rejected <==> v == RejectIt) && (k in q.queued <==> v == RequeueIt)
  }

  /**
   An ack, a reject or a requeue that reaches the broker moves the one copy it is about, a requeued
   one to where every open channel can get it; one that does not reach it moves nothing.
   */
  lemma SettleMovesTheCopy(p: Post, c: ConsumerId, ok: bool)
    requires Inv(p) && Enabled(p, Settle(c, ok))
    ensures var q, k, v := Exec(p, Settle(c, ok)), p.handlers[c].copy, p.handlers[c].pc.verdict;
      && (ok && Leased(p, c, k) ==> PutBy(q, k, v))
      && (ok && Leased(p, c, k) && v == RequeueIt ==> forall d :: d !in q.closed ==> Enabled(q, Deliver(d, k)))
      && (!(ok && Leased(p, c, k)) ==> SamePlaces(p, q, k))
      && (forall j: CopyId :: j != k ==> SamePlaces(p, q, j))
      && q.closed == p.closed
  {
    assert Places(p, p.handlers[c].copy) <= 1;
  }

  /** A closing channel gives back its own unsettled copies, taken or not, and nobody else's. */
  lemma CloseReturnsItsOwn(p: Post, c: ConsumerId, k: CopyId)
    ensures var q := Exec(p, Close(c));
      if k in p.unacked && p.unacked[k].consumer == c then k in q.queued && k !in q.unacked else SamePlaces(p, q, k)
  {}

  /** What each kind of message comes to, by its routing key and its body. */
  lemma DecodesByKey(m: Message)
    ensures m.key != TOPPED_UP && m.key != REGISTERED ==> Decode(m).Unknown?
    ensures m.key == TOPPED_UP || m.key == REGISTERED ==>
      (m.body.Malformed? ==> Decode(m).Fatal?) && (Readable(m) ==> RowFor(m) == InboxRow(UserIn(m.body), m.key))
    ensures m.key == REGISTERED && !m.body.Malformed? ==>
      Readable(m) && MailFor(m) == WelcomeMail(m.id, EmailIn(m.body))
    ensures m.key == TOPPED_UP && UserIn(m.body) == "" ==> Decode(m).Fatal?
  {}

  /** Each inbox row names the user and the event type of an enqueued message with its id. */
  lemma RowNamesAMessage(p: Post, id: string) returns (k: CopyId)
    requires Inv(p) && id in p.inbox
    ensures k < |p.copies| && p.copies[k].id == id && Sent(p, p.copies[k])
    ensures p.inbox[id] == InboxRow(UserIn(p.copies[k].body), p.copies[k].key)
  {
    k :| Entered(p, id, k);
    DecodesByKey(p.copies[k]);
  }

  /** Each welcome e-mail goes to the address in an enqueued registration with its id. */
  lemma WelcomeNamesAMessage(p: Post, mail: Mail) returns (k: CopyId)
    requires Inv(p) && mail in p.mails && mail.WelcomeMail?
    ensures k < |p.copies| && p.copies[k].key == REGISTERED && p.copies[k].id == mail.id
    ensures EmailIn(p.copies[k].body) == mail.email
  {
    k :| Caused(p, mail, k);
    DecodesByKey(p.copies[k]);
  }

  // ----- what follows

  /** E-mails for an id number at most one plus the attempts that sent one and did not commit. */
  lemma DuplicationBound(p: Post, id: string)
    requires Inv(p)
    ensures MailsFor(p.mails, id) <= 1 + p.failed[id]
    ensures id in p.inbox ==> MailsFor(p.mails, id) == 1 + p.failed[id]
  {
    assert Accounted(p, id);
    if BeingMailed(p, id) {
      var c :| HoldsId(p, c, id) && p.handlers[c].pc.Mailed?;
      assert HandlerOk(p, c);
    }
  }

  /** Once the inbox row of an id is committed no step sends another e-mail for it. */
  lemma NoMailOnceEntered(p: Post, a: Action, id: string)
    requires Inv(p) && Enabled(p, a) && id in p.inbox
    ensures id in Exec(p, a).inbox && MailsFor(Exec(p, a).mails, id) == MailsFor(p.mails, id)
    ensures forall mail :: mail in Exec(p, a).mails && mail.id == id ==> mail in p.mails
  {
    if a.Send? || a.SendLost? {
      assert HandlerOk(p, a.c);
      MailsForStep(p.mails, MailFor(MessageAt(p, a.c)), id);
    }
  }
}
