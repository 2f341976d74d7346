/** The notification consumer: the delivery loop and the message handler, amid other actors. */
module ConsumerWorkers {
  import opened Common
  import opened Decimal
  import opened MoneyPath
  import opened Servers
  import opened Inbox

  /** A handler's error: none, one wrapping ErrFatal, or another. */
  datatype Error = Nil | FatalError | OtherError

  /** What a round of the delivery loop did. */
  datatype RoundLog = RoundLog(seen: System, taken: Option<CopyId>, err: Error, reached: bool)

  /** The handler of `c` works on this copy of this message and has got to `pc`. */
  ghost predicate Handling(p: Post, c: ConsumerId, k: CopyId, m: Message, pc: Pc) {
    c in p.handlers && p.handlers[c] == Handler(k, pc) && k < |p.copies| && p.copies[k] == m
  }

  /** What handling a message comes to when nothing fails and nobody interferes. */
  function Handled(p: Post, m: Message): Post {
    if Readable(m) && m.id !in p.inbox
    then WithEntry(WithMail(p, m), m)
    else p
  }

  function WithMail(p: Post, m: Message): Post
    requires Readable(m)
  {
    p.(mails := p.mails + [MailFor(m)])
  }

  function WithEntry(p: Post, m: Message): Post
    requires Readable(m)
  {
    p.(inbox := p.inbox[m.id := RowFor(m)])
  }

  /** The copies that have been delivered to `c` and not yet been taken. */
  function Arrived(p: Post, c: ConsumerId): set<CopyId> {
    set k | k in p.unacked && Waiting(p, c, k)
  }

  /** A delivery dealt with from end to end. */
  function Consumed(p: Post, k: CopyId): Post
    requires k < |p.copies|
  {
    var m := p.copies[k];
    Settled(Handled(p, m), k, if Decode(m).Fatal? then RejectIt else AckIt)
  }

  function Taken(p: Post, c: ConsumerId, k: CopyId): Post {
    p.(unacked := p.unacked[k := Lease(c, true)], handlers := p.handlers[c := Handler(k, Received)])
  }

  lemma TakenHandledSettled(p: Post, c: ConsumerId, k: CopyId, v: Verdict)
    requires Waiting(p, c, k) && p.handlers == map[]
    requires v == if Decode(p.copies[k]).Fatal? then RejectIt else AckIt
    ensures var q := Goto(Handled(Taken(p, c, k), p.copies[k]), c, Decided(v));
      && k in q.unacked && q.unacked[k] == Lease(c, true)
      && Settled(q, k, v).(handlers := q.handlers - {c}) == Consumed(p, k)
  {
    var q := Goto(Handled(Taken(p, c, k), p.copies[k]), c, Decided(v));
    assert q.unacked - {k} == p.unacked - {k};
    assert q.handlers - {c} == map[];
  }

  lemma ConsumedArrives(p: Post, c: ConsumerId, k: CopyId)
    requires Waiting(p, c, k) && p.handlers == map[]
    ensures Arrived(Consumed(p, k), c) == Arrived(p, c) - {k} && k in Arrived(p, c)
    ensures Consumed(p, k).handlers == map[] && Consumed(p, k).closed == p.closed
  {
    assert Consumed(p, k).unacked == p.unacked - {k};
  }

  /** Only the last position of the handler matters. */
  lemma LastPosition(p: Post, c: ConsumerId, first: Pc, last: Pc)
    requires c in p.handlers
    ensures p.handlers[c := p.handlers[c].(pc := first)][c := p.handlers[c].(pc := last)] ==
      p.handlers[c := p.handlers[c].(pc := last)]
  {}

  lemma SavedSentAndCommitted(p: Post, q: Post, r: Post, t: Post, c: ConsumerId, m: Message)
    requires c in p.handlers && Readable(m) && m.id !in p.inbox
    requires q == Goto(p, c, Saved) && r == Goto(WithMail(q, m), c, Mailed)
    requires t == Goto(WithEntry(r, m), c, Decided(AckIt))
    ensures t == Goto(Handled(p, m), c, Decided(AckIt))
  {
    LastPosition(p, c, Saved, Mailed);
    LastPosition(p, c, Mailed, Decided(AckIt));
  }

  /** Nil: entered in the inbox or of an unknown kind; fatal: cannot be decoded. */
  ghost predicate Means(err: Error, p: Post, m: Message) {
    (err == Nil ==> Concluded(p, m)) && (err == FatalError <==> Decode(m).Fatal?)
  }

  /** The inbox row of the message's id names its own user and event type. */
  ghost predicate Names(p: Post, m: Message) {
    m.id in p.inbox && p.inbox[m.id] == InboxRow(UserIn(m.body), m.key)
  }

  lemma MeaningStays(s: System, t: System, err: Error, m: Message)
    requires MoneyPath.Inv(s) && RanOn(s, t) && Means(err, s.post, m)
    ensures Means(err, t.post, m)
  {
    EntriesStayOn(s, t);
  }

  lemma SavedIsReadable(s: System, c: ConsumerId, k: CopyId, m: Message, pc: Pc)
    requires MoneyPath.Inv(s) && Handling(s.post, c, k, m, pc) && (pc.Saved? || pc.Mailed?)
    ensures Readable(m)
  {
    assert HandlerOk(s.post, c);
  }

  ghost predicate Undisturbed(db: Platform, s: System, m: Message) {
    db.alone && db.reliable && IdFree(s.post, m.id)
  }

  class ConsumerWorker {
    const db: Platform
    const c: ConsumerId

    constructor (db: Platform, c: ConsumerId)
      ensures this.db == db && this.c == c
    {
      this.db, this.c := db, c;
    }

    /** One statement took effect. */
    method Become(ghost start: System, post: Post, ghost a: Inbox.Action)
      requires RanOn(start, db.View()) && !a.Enqueue? && Inbox.Enabled(db.post, a) && post == Inbox.Exec(db.post, a)
      modifies db
      ensures RanOn(start, db.View()) && db.View() == old(db.View()).(post := post)
    {
      OwnStep(start, db.View(), Consume(a));
      db.post := post;
    }

    method Decide(ghost start: System, v: Verdict, ghost a: Inbox.Action)
      requires RanOn(start, db.View()) && c in db.post.handlers && !a.Enqueue? && Inbox.Enabled(db.post, a)
      requires Inbox.Exec(db.post, a) == Goto(db.post, c, Decided(v))
      modifies db
      ensures RanOn(start, db.View()) && db.View() == old(db.View()).(post := Goto(old(db.post), c, Decided(v)))
    {
      Become(start, Goto(db.post, c, Decided(v)), a);
    }

    /** A non-fatal failure: the transaction is rolled back and the message will be requeued. */
    method BreakOff(ghost start: System, ghost k: CopyId, ghost m: Message, ghost pc: Pc)
      requires RanOn(start, db.View()) && Handling(db.post, c, k, m, pc)
      requires (pc.Received? && Readable(m)) || pc.Saved? || pc.Mailed?
      modifies db
      ensures RanOn(start, db.View()) && Handling(db.post, c, k, m, Decided(RequeueIt))
    {
      var id := MessageAt(db.post, c).id;
      var p := if db.post.handlers[c].pc.Mailed? then db.post.(failed := db.post.failed + multiset{id}) else db.post;
      Become(start, Goto(p, c, Decided(RequeueIt)), Break(c));
    }

    /** INSERT INTO processed_events; a wait for the key that outlives the context is a failure. */
    method SaveProcessedMessageTx(ghost k: CopyId, m: Message) returns (duplicate: bool, ok: bool, ghost tried: System)
      requires MoneyPath.Inv(db.View()) && Handling(db.post, c, k, m, Received) && Readable(m)
      modifies db
      ensures RanOn(old(db.View()), tried) && RanOn(tried, db.View())
      ensures duplicate ==> m.id in tried.post.inbox && Handling(db.post, c, k, m, Decided(AckIt))
      ensures !duplicate && ok ==> m.id !in tried.post.inbox && Handling(db.post, c, k, m, Saved)
      ensures !duplicate && !ok ==> Handling(db.post, c, k, m, Received)
      ensures db.reliable && !duplicate && !ok ==> HeldElsewhere(tried.post, m.id)
      ensures db.alone ==> tried == old(db.View())
      ensures Undisturbed(db, old(db.View()), m) ==>
        && duplicate == (m.id in old(db.post.inbox)) && (duplicate || ok)
        && db.post == Goto(old(db.post), c, if duplicate then Decided(AckIt) else Saved)
    {
      db.Interfere(Consumer(c));
      tried := db.View();
      ReachesSelf(tried);
      var fault := db.Fails();
      duplicate, ok := false, false;
      if fault {
        return;
      }
      if m.id in db.post.inbox {
        Decide(tried, AckIt, Skip(c));
        duplicate := true;
        return;
      }
      if !IdFree(db.post, m.id) {
        return;
      }
      Become(tried, Goto(db.post, c, Saved), Save(c));
      ok := true;
    }

    /** Another handler has inserted this id and not committed. */
    ghost predicate HeldElsewhere(p: Post, id: string) {
      exists d :: d != c && HoldsId(p, d, id)
    }

    /** Look up the address, then SMTP: an error may come back although the e-mail went out. */
    method SendEmail(ghost k: CopyId, m: Message) returns (ok: bool)
      requires MoneyPath.Inv(db.View()) && Handling(db.post, c, k, m, Saved)
      modifies db
      ensures RanOn(old(db.View()), db.View())
      ensures Handling(db.post, c, k, m, if ok then Mailed else Decided(RequeueIt))
      ensures db.reliable ==> ok
      ensures db.alone && db.reliable ==> Readable(m) && db.post == Goto(WithMail(old(db.post), m), c, Mailed)
    {
      ghost var start := db.View();
      db.Interfere(Consumer(c));
      var fault := db.Fails();
      SavedIsReadable(db.View(), c, k, m, Saved);
      if fault {
        var lost: bool := *;
        if lost {
          var p := db.post.(mails := db.post.mails + [MailFor(m)], failed := db.post.failed + multiset{m.id});
          Become(start, Goto(p, c, Decided(RequeueIt)), SendLost(c));
        } else {
          BreakOff(start, k, m, Saved);
        }
        return false;
      }
      Become(start, Goto(db.post.(mails := db.post.mails + [MailFor(m)]), c, Mailed), Send(c));
      ok := true;
    }

    /** tx.Commit: an error may come back although the commit took effect. */
    method CommitTx(ghost k: CopyId, m: Message) returns (err: Error)
      requires MoneyPath.Inv(db.View()) && Handling(db.post, c, k, m, Mailed)
      modifies db
      ensures RanOn(old(db.View()), db.View())
      ensures Handling(db.post, c, k, m, Decided(if err == Nil then AckIt else RequeueIt)) && err != FatalError
      ensures err == Nil ==> Names(db.post, m)
      ensures db.reliable ==> err == Nil
      ensures db.alone && db.reliable ==> Readable(m) && db.post == Goto(WithEntry(old(db.post), m), c, Decided(AckIt))
    {
      ghost var start := db.View();
      db.Interfere(Consumer(c));
      var fault := db.Fails();
      SavedIsReadable(db.View(), c, k, m, Mailed);
      if fault {
        var lost: bool := *;
        if lost { BreakOff(start, k, m, Mailed); } else { Enter(start, k, m, false); }
        return OtherError;
      }
      Enter(start, k, m, true);
      err := Nil;
    }

    /** The commit takes effect, and its caller learns so or not. */
    method Enter(ghost start: System, ghost k: CopyId, m: Message, acked: bool)
      requires RanOn(start, db.View()) && Handling(db.post, c, k, m, Mailed) && Readable(m)
      modifies db
      ensures RanOn(start, db.View()) && Names(db.post, m)
      ensures Handling(db.post, c, k, m, Decided(if acked then AckIt else RequeueIt))
      ensures db.post == Goto(WithEntry(old(db.post), m), c, Decided(if acked then AckIt else RequeueIt))
    {
      DecodesByKey(m);
      var p := db.post.(inbox := db.post.inbox[m.id := RowFor(m)]);
      Become(start, Goto(p, c, Decided(if acked then AckIt else RequeueIt)), CommitInbox(c, acked));
    }

    /**
     Handling one delivery. An error-free return means the message is entered in the inbox or of an
     unknown kind, a fatal one that it cannot be decoded; and when no call fails any other error means
     that another handler was entering the same id. If its id was not entered at the moment `tried` of
     the insert, the row it commits names the message's own user and event type. Undisturbed, a new
     message is mailed and entered and nothing else happens.
     */
    method HandleMessage(ghost k: CopyId, m: Message) returns (err: Error, ghost tried: System)
      requires MoneyPath.Inv(db.View()) && Handling(db.post, c, k, m, Received)
      modifies db
      ensures RanOn(old(db.View()), tried) && RanOn(tried, db.View())
      ensures Handling(db.post, c, k, m, Decided(VerdictOn(err)))
      ensures Means(err, db.post, m)
      ensures err == Nil && Readable(m) && m.id !in tried.post.inbox ==> Names(db.post, m)
      ensures db.reliable && err == OtherError ==> HeldElsewhere(tried.post, m.id)
      ensures db.alone ==> tried == old(db.View())
      ensures Undisturbed(db, old(db.View()), m) ==>
        err != OtherError && db.post == Goto(Handled(old(db.post), m), c, Decided(VerdictOn(err)))
    {
      err, tried := HandleTx(k, m);
      assert HandlerOk(db.post, c);
    }

    method HandleTx(ghost k: CopyId, m: Message) returns (err: Error, ghost tried: System)
      requires MoneyPath.Inv(db.View()) && Handling(db.post, c, k, m, Received)
      modifies db
      ensures RanOn(old(db.View()), tried) && RanOn(tried, db.View())
      ensures Handling(db.post, c, k, m, Decided(VerdictOn(err)))
      ensures err == FatalError <==> Decode(m).Fatal?
      ensures err == Nil && Readable(m) && m.id !in tried.post.inbox ==> Names(db.post, m)
      ensures db.reliable && err == OtherError ==> HeldElsewhere(tried.post, m.id)
      ensures db.alone ==> tried == old(db.View())
      ensures Undisturbed(db, old(db.View()), m) ==>
        err != OtherError && db.post == Goto(Handled(old(db.post), m), c, Decided(VerdictOn(err)))
    {
      tried := db.View();
      ReachesSelf(tried);
      match Decode(m)
      case Fatal =>
        Decide(tried, RejectIt, GiveUp(c));
        err := FatalError;
      case Unknown =>
        Decide(tried, AckIt, Ignore(c));
        err := Nil;
      case _ =>
        err, tried := SaveAndSend(k, m);
    }

    /** The handler from BEGIN on, for a message that was decoded. */
    method SaveAndSend(ghost k: CopyId, m: Message) returns (err: Error, ghost tried: System)
      requires MoneyPath.Inv(db.View()) && Handling(db.post, c, k, m, Received) && Readable(m)
      modifies db
      ensures RanOn(old(db.View()), tried) && RanOn(tried, db.View())
      ensures Handling(db.post, c, k, m, Decided(if err == Nil then AckIt else RequeueIt)) && err != FatalError
      ensures err == Nil && m.id !in tried.post.inbox ==> Names(db.post, m)
      ensures db.reliable && err == OtherError ==> HeldElsewhere(tried.post, m.id)
      ensures db.alone ==> tried == old(db.View())
      ensures Undisturbed(db, old(db.View()), m) ==>
        err == Nil && db.post == Goto(Handled(old(db.post), m), c, Decided(AckIt))
    {
      ghost var start := db.View();
      var duplicate, ok;
      duplicate, ok, tried := SaveOrBreakOff(k, m);
      if duplicate || !ok {
        err := if duplicate then Nil else OtherError;
        return;
      }
      ghost var s := db.View();
      ghost var sent;
      err, sent := SendAndCommit(k, m);
      RanOnTo(tried, s, db.View());
      if Undisturbed(db, start, m) { SavedSentAndCommitted(start.post, s.post, sent, db.post, c, m); }
    }

    method SaveOrBreakOff(ghost k: CopyId, m: Message) returns (duplicate: bool, ok: bool, ghost tried: System)
      requires MoneyPath.Inv(db.View()) && Handling(db.post, c, k, m, Received) && Readable(m)
      modifies db
      ensures RanOn(old(db.View()), tried) && RanOn(tried, db.View())
      ensures Handling(db.post, c, k, m, if duplicate then Decided(AckIt) else if ok then Saved else Decided(RequeueIt))
      ensures duplicate ==> m.id in tried.post.inbox
      ensures db.reliable && !duplicate && !ok ==> HeldElsewhere(tried.post, m.id)
      ensures db.alone ==> tried == old(db.View())
      ensures Undisturbed(db, old(db.View()), m) ==>
        && duplicate == (m.id in old(db.post.inbox)) && (duplicate || ok)
        && db.post == Goto(old(db.post), c, if duplicate then Decided(AckIt) else Saved)
    {
      duplicate, ok, tried := SaveProcessedMessageTx(k, m);
      if !duplicate && !ok {
        BreakOff(tried, k, m, Received);
      }
    }

    method SendAndCommit(ghost k: CopyId, m: Message) returns (err: Error, ghost sent: Post)
      requires MoneyPath.Inv(db.View()) && Handling(db.post, c, k, m, Saved)
      modifies db
      ensures RanOn(old(db.View()), db.View())
      ensures Handling(db.post, c, k, m, Decided(if err == Nil then AckIt else RequeueIt)) && err != FatalError
      ensures err == Nil ==> Names(db.post, m)
      ensures db.reliable ==> err == Nil
      ensures db.alone && db.reliable ==>
        && Readable(m) && c in sent.handlers
        && sent == Goto(WithMail(old(db.post), m), c, Mailed)
        && db.post == Goto(WithEntry(sent, m), c, Decided(AckIt))
    {
      ghost var start := db.View();
      SavedIsReadable(start, c, k, m, Saved);
      var ok := SendEmail(k, m);
      sent := db.post;
      if !ok {
        err := OtherError;
        return;
      }
      ghost var s := db.View();
      err := CommitTx(k, m);
      RanOnTo(start, s, db.View());
    }

    /**
     Ack, reject or requeue at the moment `at`: a call that reaches the broker while the copy is leased
     moves it, and only it; one on a closed channel has no effect.
     */
    method Settle(ghost k: CopyId, ghost m: Message, v: Verdict) returns (ghost reached: bool, ghost at: System)
      requires MoneyPath.Inv(db.View()) && Handling(db.post, c, k, m, Decided(v))
      modifies db
      ensures RanOn(old(db.View()), at) && RanOn(at, db.View()) && c !in db.post.handlers
      ensures if reached then PutBy(db.post, k, v) else SamePlaces(at.post, db.post, k)
      ensures forall j: CopyId :: j != k ==> SamePlaces(at.post, db.post, j)
      ensures db.reliable ==> reached || c in db.post.closed
      ensures reached || c in db.post.closed || Leased(db.post, c, k)
      ensures db.alone ==> at == old(db.View())
      ensures db.alone && db.reliable && Leased(old(db.post), c, k) ==>
        reached && db.post == Settled(old(db.post), k, v).(handlers := old(db.post.handlers) - {c})
    {
      db.Interfere(Consumer(c));
      at := db.View();
      ReachesSelf(at);
      var fault := db.Fails();
      var copy := db.post.handlers[c].copy;
      assert HandlerOk(db.post, c);
      reached := !fault && Leased(db.post, c, copy);
      var p := db.post;
      if !fault && copy in p.unacked && p.unacked[copy] == Lease(c, true) {
        match v
        case AckIt => p := p.(unacked := p.unacked - {copy}, acked := p.acked + {copy});
        case RejectIt => p := p.(unacked := p.unacked - {copy}, rejected := p.rejected + {copy});
        case RequeueIt => p := p.(unacked := p.unacked - {copy}, queued := p.queued + {copy});
      }
      SettleMovesTheCopy(at.post, c, !fault);
      Become(at, p.(handlers := p.handlers - {c}), Inbox.Settle(c, !fault));
    }

    /**
     A round of the delivery loop from `s` to `t`: the message it took, if one had arrived at the moment
     `seen`. A nil error means that it is entered or of an unknown kind, a fatal one that it cannot be
     decoded, and the copy is acked, rejected or requeued accordingly, unless the call fails or the
     channel closes.
     */
    ghost predicate Round(s: System, seen: System, t: System, taken: Option<CopyId>, err: Error, reached: bool) {
      && RanOn(s, seen) && RanOn(seen, t)
      && (taken.None? ==> Arrived(seen.post, c) == {} && t == seen)
      && (taken.Some? ==>
            && Waiting(seen.post, c, taken.value) && Means(err, t.post, seen.post.copies[taken.value])
            && (reached ==> PutBy(t.post, taken.value, VerdictOn(err)))
            && (reached || c in t.post.closed || (!db.reliable && Leased(t.post, c, taken.value))))
      && (db.alone ==> seen == s)
      && (db.alone && db.reliable && s.post.handlers == map[] && taken.Some? ==>
            t.post == Consumed(s.post, taken.value))
    }

    ghost predicate Did(turn: Turn<RoundLog>) {
      Round(turn.before, turn.what.seen, turn.after, turn.what.taken, turn.what.err, turn.what.reached)
    }

    /** One message of the delivery loop, whoever interferes. */
    method ConsumeOne()
      returns (emptyId: bool, taken: Option<CopyId>, err: Error, ghost reached: bool, ghost seen: System)
      requires MoneyPath.Inv(db.View()) && c !in db.post.handlers
      modifies db
      ensures Round(old(db.View()), seen, db.View(), taken, err, reached) && c !in db.post.handlers && !emptyId
    {
      db.Interfere(Consumer(c));
      seen := db.View();
      ReachesSelf(seen);
      emptyId, taken, err, reached := false, None, Nil, false;
      var arrived := Arrived(db.post, c);
      if arrived == {} {
        return;
      }
      var k :| k in arrived;
      var m := db.post.copies[k];
      if m.id == "" {
        emptyId := true;
        return;
      }
      err, reached := TakeAndHandle(k, m);
      taken := Some(k);
    }

    /** msg := <-msgs */
    method TakeDelivery(k: CopyId, ghost m: Message)
      requires MoneyPath.Inv(db.View()) && Waiting(db.post, c, k) && m == db.post.copies[k] && m.id != ""
      modifies db
      ensures RanOn(old(db.View()), db.View()) && Handling(db.post, c, k, m, Received)
      ensures db.post == Taken(old(db.post), c, k) && (old(db.post.handlers) == map[] ==> IdFree(db.post, m.id))
    {
      ReachesSelf(db.View());
      Become(db.View(),
        db.post.(unacked := db.post.unacked[k := Lease(c, true)],
                 handlers := db.post.handlers[c := Handler(k, Received)]),
        Take(c, k));
    }

    method TakeAndHandle(k: CopyId, m: Message) returns (err: Error, ghost reached: bool)
      requires MoneyPath.Inv(db.View()) && Waiting(db.post, c, k) && m == db.post.copies[k] && m.id != ""
      modifies db
      ensures RanOn(old(db.View()), db.View()) && c !in db.post.handlers && Means(err, db.post, m)
      ensures reached ==> PutBy(db.post, k, VerdictOn(err))
      ensures db.reliable ==> reached || c in db.post.closed
      ensures reached || c in db.post.closed || Leased(db.post, c, k)
      ensures db.alone && db.reliable && old(db.post.handlers) == map[] ==> db.post == Consumed(old(db.post), k)
    {
      ghost var start := db.View();
      TakeDelivery(k, m);
      ghost var s := db.View();
      ghost var tried, at;
      err, tried := HandleMessage(k, m);
      RanOnTo(start, s, tried);
      RanOnTo(start, tried, db.View());
      if db.alone && db.reliable && start.post.handlers == map[] {
        TakenHandledSettled(start.post, c, k, VerdictOn(err));
      }
      s := db.View();
      reached, at := Settle(k, m, VerdictOn(err));
      RanOnTo(s, at, db.View());
      RanOnTo(start, s, db.View());
      MeaningStays(s, db.View(), err, m);
    }

    /** The loop, until the context ends after some number of rounds or the channel closes. */
    method StartConsume(rounds: nat) returns (emptyId: bool, ghost trace: seq<Turn<RoundLog>>)
      requires MoneyPath.Inv(db.View()) && c !in db.post.handlers
      modifies db
      ensures RanOn(old(db.View()), db.View()) && c !in db.post.handlers && !emptyId
      ensures Turns(old(db.View()), trace, db.View(), Did)
      ensures |trace| == rounds || (|trace| < rounds && c in db.post.closed)
      ensures db.alone && db.reliable && old(db.post.handlers) == map[] && c !in old(db.post.closed) ==>
        Shrunk(old(db.post), db.post, rounds)
    {
      ghost var start := db.View();
      emptyId, trace := RunRounds(rounds);
      if db.alone && db.reliable && start.post.handlers == map[] && c !in start.post.closed {
        TurnsShrink(start, trace, db.View());
      }
    }

    method RunRounds(rounds: nat) returns (emptyId: bool, ghost trace: seq<Turn<RoundLog>>)
      requires MoneyPath.Inv(db.View()) && c !in db.post.handlers
      modifies db
      ensures RanOn(old(db.View()), db.View()) && c !in db.post.handlers && !emptyId
      ensures Turns(old(db.View()), trace, db.View(), Did)
      ensures |trace| == rounds || (|trace| < rounds && c in db.post.closed)
    {
      ghost var start := db.View();
      ReachesSelf(start);
      emptyId, trace := false, [];
      var round := 0;
      while round < rounds && c !in db.post.closed && !emptyId
        invariant round <= rounds && |trace| == round && Turns(start, trace, db.View(), Did)
        invariant RanOn(start, db.View()) && c !in db.post.handlers && !emptyId
      {
        ghost var s := db.View();
        var taken, err;
        ghost var reached, seen;
        emptyId, taken, err, reached, seen := ConsumeOne();
        RanOnTo(start, s, seen);
        RanOnTo(start, seen, db.View());
        ghost var turn := Turn(s, db.View(), RoundLog(seen, taken, err, reached));
        TurnsOn(start, trace, s, turn, Did);
        trace := trace + [turn];
        round := round + 1;
      }
    }

    lemma {:induction false} TurnsShrink(s: System, trace: seq<Turn<RoundLog>>, t: System)
      requires Turns(s, trace, t, Did)
      requires db.alone && db.reliable && s.post.handlers == map[] && c !in s.post.closed
      ensures Shrunk(s.post, t.post, |trace|)
    {
      if trace != [] {
        var front, last := trace[..|trace| - 1], trace[|trace| - 1];
        TurnsBefore(s, trace, t, Did);
        TurnsShrink(s, front, last.before);
        ShrinksOn(s.post, last.before.post, t.post, last.what.taken, |front|);
      }
    }

    /** Undisturbed, so many rounds settle as many of the arrived deliveries, each for good. */
    ghost predicate Shrunk(p: Post, q: Post, rounds: nat) {
      && q.handlers == map[] && c !in q.closed && q.copies == p.copies && Arrived(q, c) <= Arrived(p, c)
      && |Arrived(q, c)| == (if |Arrived(p, c)| <= rounds then 0 else |Arrived(p, c)| - rounds)
      && forall k :: k in Arrived(p, c) && k !in Arrived(q, c) ==> SettledForGood(q, k)
    }

    ghost predicate SettledForGood(q: Post, k: CopyId) {
      k < |q.copies| && k in (if Decode(q.copies[k]).Fatal? then q.rejected else q.acked)
    }

    lemma ConsumedIsSettled(q: Post, k: CopyId)
      requires Waiting(q, c, k)
      ensures SettledForGood(Consumed(q, k), k) && Consumed(q, k).copies == q.copies
      ensures forall j :: SettledForGood(q, j) ==> SettledForGood(Consumed(q, k), j)
    {}

    lemma ShrinksOn(p: Post, q: Post, r: Post, taken: Option<CopyId>, rounds: nat)
      requires Shrunk(p, q, rounds)
      requires taken.None? ==> Arrived(q, c) == {} && r == q
      requires taken.Some? ==> Waiting(q, c, taken.value) && r == Consumed(q, taken.value)
      ensures Shrunk(p, r, rounds + 1)
    {
      if taken.Some? {
        ConsumedArrives(q, c, taken.value);
        ConsumedIsSettled(q, taken.value);
      }
    }
  }

  function VerdictOn(err: Error): Verdict {
    match err
    case Nil => AckIt
    case FatalError => RejectIt
    case OtherError => RequeueIt
  }
}
