# The money path, verified

A Dafny model of how money moves through the billing platform: a deposit or withdrawal over gRPC, the
billing ledger, the transactional outbox, the broker queue, the notification inbox and the e-mail;
plus the gateway's rate limiter. Any number of requests, outbox workers and consumers interleave, a
fault or a crash may come at any step, and the theorems hold of every run.

`dafny verify dfyconfig.toml` checks everything.

| File | What is in it |
|---|---|
| `Common.dfy`, `Decimal.dfy`, `Wire.dfy` | Options and counts; decimal text of ids and amounts; the trip of an amount through JSON and binary64 |
| `Ledger.dfy` | The committed billing database and the sequential meaning of a deposit and a withdrawal |
| `Billing.dfy`, `BillingTheorems.dfy` | Requests as interleaved transactions with private writes, one row lock and one key lock each; what holds of every run |
| `Retry.dfy` | A run in which a retry does not get the first reply |
| `Outbox.dfy` | Batches of up to 100 PENDING rows, locked with SKIP LOCKED, published, marked, committed |
| `Inbox.dfy` | The queue, deliveries, the deduplicating handler, ack, reject and requeue |
| `MoneyPath.dfy`, `MoneyPathTheorems.dfy` | All of it as one transition system; the end-to-end theorems |
| `Collision.dfy` | What the two producers' clashing message ids do, and exactly when |
| `Recovery.dfy` | From every reachable state a continuation without failures that finishes everything |
| `Servers.dfy` | The shared servers as an object; everybody else's steps between two statements |
| `BillingService.dfy`, `OutboxWorker.dfy`, `ConsumerWorker.dfy` | The services' code, statement by statement, proved to be runs of the transition system |
| `RateLimiter.dfy` | The fixed-window counter and its sliding-window bound |

## How to read it

Each part is a state, an `Action` datatype, `Enabled`, and a function `Exec`; a run is a sequence of
actions that is `Feasible`. `log`, `decided`, `published`, `wasted`, `mails` and `failed` are history:
no guard reads them. The service classes hold a `Platform`; `Interfere` lets everybody else take any
number of enabled steps, and `Fails` lets any call fail. A service method ensures that what happened
is a run of the transition system, so every theorem about runs applies to it, and that alone and
without failures it does exactly what the specification function says (`AsSpecified`, `Drained`,
`Handled`, `Consumed`).

## Assumptions about the parts the repository does not show

- PostgreSQL runs at READ COMMITTED: a locked read sees the newest committed row, an insert of a key
  held by an uncommitted transaction waits, and conflicts only when the holder commits. A waiting
  statement is a disabled step, or a failed call if the caller's context ends first.
- The unique constraint on `transactions.idempotency_key` is named in `billing/repository/billing.go:139`;
  the migration that creates it is not part of this model. It is taken to be unique over all users and
  operations. The `processed_events` migration is not part of this model either; `event_id` is taken
  as its unique key.
- The publisher uses no broker confirms. A nil error from `Publish` is taken to mean that the message
  is enqueued; after an error it may or may not be. The broker keeps what it has enqueued.
- JSONB keeps numbers exactly as decimals, and JSON carries strings unchanged.
- A `Commit` error, an SMTP error and an ack error may each hide an effect that took place.
- Only billing uses the routing key `AccountToppedUp`.

## Where the code does less than it seems to

- A replay is harmless, but its reply need not be the first one's: `Withdraw` checks the balance before
  the key (`billing/services/billing.go:102` before `:114`) and a deposit's top-up may overflow before
  the key is tried. `RetryOfAWithdrawalIsRefused` is a run without failures in which the retry of an
  applied withdrawal gets `ErrInsufficientFunds`. `RetriesAreAnswered` is the exact condition: a request
  with a used key is answered as applied if and only if it passes those checks again.
- Message ids are raw outbox ids, auth and billing number theirs independently, and both feed one
  inbox. When both use an id, one of the two e-mails may never be sent. `GuaranteedExactlyWhenIdsAreApart`
  is the exact condition: the e-mail of the deposit with id `e` is guaranteed if and only if auth never
  publishes a message under `e` that the consumer can read. `CollidingIdLosesTheEmail` gives for every
  id a run without failures in which it is lost.
- An amount is changed on its way to the e-mail unless it is the roundest decimal of its binary64 cell
  (`FaithfulExactlyWhenRoundest`); every amount up to 2^53 is, 2^53 + 1 is the first that is not
  (`FirstUnfaithfulAmount`), and from 2^63 - 512 up the message is rejected.
- The limiter lets a client through up to 2*limit - 1 times within one window (limit times when a window
  is one instant), and that bound is reached (`Saturate`).
- The queue dead-letters to `notification.dlx` while the code declares `dlx.events`
  (`notification/internal/worker/broker.go:58`, `:90`). A rejected copy is therefore modelled as
  rejected, not as having arrived in the dead-letter queue.
- The gRPC handler tests `services.ErrAccountNotFound` while the service wraps the repository's error
  of that name (`billing/services/billing.go:99`, `billing/grpc_handler.go:68`). Outcomes are modelled
  at service level.

## Model

| member | source | states |
|---|---|---|
| Decimal.PrintThenValue | pkg/broker/broker.go:39 | The decimal text of an id is a non-empty string of digits that reads back as the id |
| Decimal.PrintHasNoLeadingZero | pkg/broker/broker.go:39 | The text of an id is a single digit, or longer without a leading zero |
| Decimal.PrintInjective | pkg/broker/broker.go:39 | No outbox id gives an empty message id, and two ids never give the same one |
| Decimal.ParsePrinted | notification/internal/worker/payloads.go:7 | A JSON integer decodes into the int64 field exactly up to 2^63-1, unchanged; above it decoding fails |
| Wire.RoundIsNearest | pkg/outbox/worker.go:24 | Reading an amount into `map[string]any` gives a binary64 value such that no other is closer |
| Wire.DoublesAreScaled | pkg/outbox/worker.go:24 | The values to choose from are exactly the integers of the form m * 2^k with m below 2^53 |
| Wire.TiesGoToEven | pkg/outbox/worker.go:24 | An amount halfway between two of them is read as the one with the even significand |
| Wire.PrintedIsRoundest | pkg/broker/broker.go:25 | The number marshalled again reads back as the same binary64; none that does has more trailing zeros, and of those with as many none is closer |
| Wire.AmountsUpTo2To53AreExact | pkg/outbox/worker.go:24 | The whole trip int64, JSON, binary64, JSON, int64 is the identity on every amount from 1 to 2^53 |
| Wire.DecodingFailsExactlyAtTheTop | notification/internal/worker/broker.go:180-183 | The consumer fails to decode an amount if and only if it is 2^63-512 or more |
| Wire.FaithfulExactlyWhenRoundest | pkg/outbox/worker.go:24 | An amount arrives unchanged if and only if it is below 2^63-512 and the roundest decimal among the integers that binary64 cannot tell from it |
| Wire.FirstUnfaithfulAmount | pkg/outbox/worker.go:24 | 2^53 + 1 arrives as 2^53 |
| Ledger.ApplyKeepsSound | billing/services/billing.go:40-133 | One deposit or withdrawal keeps every balance equal to its deposit rows minus its withdrawal rows and within 0..2^63-1, account ids and keys distinct, and every row with an owner |
| Ledger.AppliedExactlyWhenSound | billing/services/billing.go:40-133 | A request for an existing account, or a deposit, is applied if and only if what its statements write would keep every balance right and within 0..2^63-1 and repeat no key: nothing is refused without need |
| Ledger.LegalImpliesSound | billing/migrations/20260507010613_init_billing.sql:5 | The same after any history, although the schema has no check on the balance |
| Ledger.KeyAppliesOnce | billing/services/billing.go:61-68 | A later request with a key that took effect does not take effect and changes nothing, whoever sends it and whichever operation it is |
| Ledger.RetryIsAnsweredExactlyWhenChecksPass | billing/services/billing.go:99-131 | A request with a used key is answered as a replay if and only if, at its place in the history, a deposit still fits BIGINT or the withdrawer's account covers the amount |
| Ledger.RetryRefused | billing/services/billing.go:102-104 | The history deposit 5, withdraw 5, the same withdrawal again, is lawful with the retry refused for insufficient funds |
| Ledger.RefusalsLeaveNoTrace | billing/services/billing.go:102-104 | A history without its refused and replayed requests is still lawful and ends in the same database |
| Ledger.EventsMatchDeposits | billing/services/billing.go:73-85 | Committed events and deposit rows match one to one, with the same account and amount and that account's user; withdrawals and refused deposits have none |
| Ledger.AppendOnly | billing/repository/billing.go:130-149 | Committed ledger rows and event contents are never changed or removed |
| Ledger.LegalEvents | billing/grpc_handler.go:32 | Every event has a user and an amount in 1..2^63-1 |
| Billing.PublishIsApply | billing/services/billing.go:85 | Committing the private account row, ledger row and outbox row is one step of the sequential specification, which would have answered "applied" |
| Billing.VerdictAtDecision | billing/services/billing.go:95-104 | A missing account, a failed balance check, an overflow or a key conflict is what the specification answers on the committed state of that very moment |
| Billing.DecidingStep | billing/services/billing.go:40-133 | A decision point adds one lawful entry to the history and changes the database as the specification does; a transaction decides once |
| Billing.LocksApartStep | billing/repository/billing.go:79-86 | No step makes two transactions hold the same account row or the same key |
| Billing.DrawsApartStep | billing/migrations/20260507010613_init_billing.sql:3 | No step makes two transactions write the same account id or outbox id |
| Billing.PrivateOkOther | billing/repository/billing.go:64-77 | Under its lock a transaction's private rows stay those computed from the newest committed row, whatever others commit: no lost update |
| Billing.InvStep | billing/services/billing.go:40-148 | Every step keeps the whole invariant of the interleaved transactions |
| Billing.InvRun | billing/services/billing.go:40-148 | So does every run |
| BillingTheorems.Linearizable | billing/services/billing.go:40-133 | In every interleaving, with faults and crashes, the committed database is the sequential specification run in the order of the decision points, and each reply other than a fault is the specification's answer at the request's place |
| BillingTheorems.HistoryGrows | billing/services/billing.go:40-133 | Decisions are never changed or reordered later |
| BillingTheorems.RealTimeOrder | billing/services/billing.go:41 | What was decided before a request began comes before it in that order, however the run continues |
| BillingTheorems.MoneyIsConserved | billing/repository/billing.go:64-77 | In every reachable committed state each balance is the sum of its rows and lies in 0..2^63-1 |
| BillingTheorems.CommittedKeyIsInert | billing/services/billing.go:61-68 | Once a key is committed no step of a request with it changes the committed state, not even by an account from its rolled-back upsert |
| BillingTheorems.RetriesAreAnswered | billing/services/billing.go:99-131 | In every interleaving, a reply to a request decided after another with its key had committed is "replayed" if and only if the request passes the checks that come before the key |
| Retry.RetryOfAWithdrawalIsRefused | billing/services/billing.go:102-114 | A run without failures in which a withdrawal is applied and the same request sent again gets insufficient funds |
| BillingTheorems.ConflictLookupSucceeds | billing/services/billing.go:135-147 | In every run the lookup after a key conflict finds the row, and no request ends with the row missing |
| BillingTheorems.ErasingTheUncommitted | billing/services/billing.go:61-68 | Deleting all requests that do not commit from any interleaved run leaves a possible run with the same final committed state and the same replies for the others |
| BillingTheorems.WaitingRaisesRank | billing/repository/billing.go:79-86 | Who waits for an account holds nothing and waits for the holder of its own user's row; who waits for a key holds only its account and waits for the holder of its own key; who holds a key waits for nobody |
| BillingTheorems.WaitsAreAcyclic | billing/repository/billing.go:79-86 | The wait-for graph has no cycle and no chain of more than two waits |
| BillingTheorems.UnblockedCanStep | billing/services/billing.go:40-148 | A request in flight that waits for nobody has a step of its own that is not a failure |
| BillingTheorems.StrangersDoNotBlock | billing/repository/billing.go:81-86 | A request that no other request in flight shares its user or its key with can step without failing: row locks, not table locks |
| BillingTheorems.SomeoneCanStep | billing/repository/billing.go:79-86 | While a request is in flight some request can step without failing: no deadlock |
| BillingTheorems.StepsShrinkWork | billing/services/billing.go:40-148 | Every step of a request brings it closer to its reply |
| BillingTheorems.EveryoneCanFinish | billing/services/billing.go:40-148 | From every reachable state some schedule without failures finishes every request in flight |
| Outbox.SortedEnumerates | pkg/outbox/pg_repo.go:34 | `ORDER BY id ASC` lists each id once, in ascending order |
| Outbox.SelectionIsAscending | pkg/outbox/pg_repo.go:29-37 | The query returns at most 100 rows in ascending order, all PENDING and none locked by another worker |
| Outbox.SelectionIsTheOldest | pkg/outbox/pg_repo.go:29-37 | Whatever others hold, the query returns as many unlocked PENDING rows as there are, up to 100, and none left out is older: the limit counts rows that were not skipped |
| Outbox.PublishKeepsBatchOk | pkg/outbox/worker.go:84-92 | After each publish, failed or not, the published ids are distinct, ascending and among the rows tried so far |
| Outbox.BatchesOkStep | pkg/outbox/pg_repo.go:36 | No step makes two workers hold the same row or a worker hold a PROCESSED one |
| Outbox.AccountedStep | pkg/outbox/worker.go:84-106 | Every successful publish of an event is accounted for: its one committed batch, the one batch in flight, or a batch that did not commit |
| Outbox.InvStep | pkg/outbox/worker.go:62-107 | Every step of any worker keeps the outbox invariant |
| Outbox.PublishBound | pkg/outbox/worker.go:62-107 | A PROCESSED event was published; successful publishes number at most one plus the batches that published it and did not commit; at most one worker holds it |
| Outbox.BatchSplitsSorted | pkg/outbox/pg_repo.go:29-37 | A batch takes the first 100 of the backlog in id order and leaves exactly the rest |
| Outbox.DrainCounts | pkg/outbox/worker.go:47-60 | n undisturbed batches leave the backlog minus 100n, and have published exactly its front in id order |
| Outbox.Drain | pkg/outbox/worker.go:47-60 | A backlog of n is empty after k batches if and only if k is at least ceil(n/100); it shrinks strictly until then, and each row is published once in ascending order |
| Inbox.PlacedStep | notification/internal/worker/broker.go:142-162 | Every step keeps each enqueued copy in exactly one of queued, unacked, acked and rejected |
| Inbox.EntriesStay | notification/internal/repository/notification.go:31-54 | A committed inbox row is never overwritten |
| Inbox.HandlersOkStep | notification/internal/worker/broker.go:167-260 | No two handlers hold an uncommitted row of the same id; a handler that will ack has concluded its message, and one that will reject could not decode it |
| Inbox.OutcomesOkStep | notification/internal/worker/broker.go:142-162 | An acked copy is entered in the inbox or of an unknown key, a rejected one undecodable, after every step |
| Inbox.OriginsOkStep | notification/internal/worker/broker.go:229-257 | Every e-mail and every inbox row comes from an enqueued copy, and a message with an inbox row was mailed |
| Inbox.AccountedStep | notification/internal/worker/broker.go:215-257 | Every e-mail for an id is accounted for: the committed entry, the one handler about to commit, or an attempt that did not commit |
| Inbox.InvStep | notification/internal/worker/broker.go:127-260 | Every step of any consumer keeps the inbox invariant |
| Inbox.DuplicationBound | notification/internal/worker/broker.go:215-257 | E-mails for an id number at most one plus the attempts that sent one and did not commit, and exactly that once the row is committed |
| Inbox.NoMailOnceEntered | notification/internal/worker/broker.go:221-225 | Once the inbox row is committed no step sends an e-mail for its id |
| Inbox.SettleMovesTheCopy | notification/internal/worker/broker.go:142-162 | An ack, reject or requeue that reaches the broker moves the one leased copy to acked, to rejected, or back to the queue where every open channel can get it; nothing else moves |
| Inbox.CloseReturnsItsOwn | notification/internal/worker/broker.go:50-55 | A closing channel gives back its own unsettled copies and nobody else's |
| Inbox.DecodesByKey | notification/internal/worker/broker.go:178-202 | By key and body: an unknown key is ignored, a malformed body or a deposit without a user is fatal, a registration is mailed to its body's address, and what is entered names the body's user and the key |
| Inbox.RowNamesAMessage | notification/internal/worker/broker.go:215-220 | In every reachable state each inbox row names the user and event type of an enqueued message with its id, whose e-mail went out |
| MoneyPath.LinkedStep | pkg/broker/broker.go:24-47 | Every step keeps: each deposit message is that of a committed event, no id is empty, and each published event has an enqueued copy |
| MoneyPath.InvStep | pkg/outbox/worker.go:62-107 | Every step of the composed system keeps the invariants of billing, outbox and inbox and the link between them |
| MoneyPath.InvRun | pkg/outbox/worker.go:62-107 | So does every run |
| MoneyPath.HistoryStays | pkg/outbox/pg_repo.go:81-94 | Committed events, enqueued copies, decisions and inbox rows stay as they are: marking rows changes nothing of an event |
| MoneyPath.BankRunsAlone | billing/services/billing.go:40-148 | The billing part of any run of the whole system is a run of the billing requests alone: no step of a worker, a consumer or auth touches it |
| MoneyPathTheorems.Linearizable | billing/services/billing.go:40-133 | With workers, consumers and auth interleaving too, the committed database is the sequential specification run in the order of the decision points, and each reply other than a fault is its answer at the request's place |
| MoneyPathTheorems.MoneyIsConserved | billing/repository/billing.go:64-77 | No step of anybody makes a balance differ from the sum of its rows or leave 0..2^63-1 |
| MoneyPathTheorems.OutboxMatchesLedger | billing/services/billing.go:73-85 | In every reachable state of the whole system committed events and deposit rows match one to one; no worker step breaks this |
| MoneyPathTheorems.RetriesAreAnswered | billing/services/billing.go:99-131 | The exact condition for the reply to a retry, over all runs of the whole system |
| MoneyPathTheorems.DecodeMessage | notification/internal/worker/broker.go:178-189 | What the consumer makes of a deposit message: the event's user and the amount as it arrives, or a fatal error exactly from 2^63-512 up |
| MoneyPathTheorems.SameIdSameEvent | pkg/broker/broker.go:39 | Two deposit messages with one id are copies of one event, so deduplication merges nothing else |
| MoneyPathTheorems.MailComesFromEvent | notification/internal/worker/broker.go:229-244 | Every deposit e-mail belongs to a committed event |
| MoneyPathTheorems.EmailProvenance | notification/internal/worker/broker.go:229-244 | In every run each deposit e-mail carries the user whose account a committed deposit row credits and that row's amount as it arrives, which is the amount itself up to 2^53 |
| MoneyPathTheorems.WelcomeProvenance | notification/internal/worker/broker.go:245-252 | In every run each welcome e-mail goes to the address in a registration that auth published under its id |
| MoneyPathTheorems.DepositEntriesNameTheUser | notification/internal/worker/broker.go:189-220 | In every run the inbox row of a deposit names the user whose account it credited |
| MoneyPathTheorems.AuthEntriesNameTheUser | notification/internal/worker/broker.go:197-220 | In every run any other inbox row names the user of a registration auth published under its id, and its welcome e-mail went out |
| MoneyPathTheorems.NoLostEvent | notification/internal/worker/broker.go:204-259 | In every reachable state a committed event is PENDING, in the queue or with a consumer, entered in the inbox, or rejected; rejection means an amount of 2^63-512 or more, and an entry written for a deposit means its e-mail went out |
| MoneyPathTheorems.NoClashMeansOnlyDeposits | pkg/broker/broker.go:39 | As long as auth publishes nothing readable under an id, every readable message with that id is a deposit's |
| MoneyPathTheorems.DepositsAreNotified | notification/internal/worker/broker.go:204-259 | Whatever crashed and whatever auth publishes under other ids, a committed deposit is PENDING, in transit, rejected for an amount of 2^63-512 or more, or entered with its e-mail sent, which is exact up to 2^53 |
| MoneyPathTheorems.OneProducer | notification/internal/worker/broker.go:204-259 | With billing as the only producer, a committed deposit of at most 2^53 is PENDING, in transit, or its exact e-mail was sent |
| MoneyPathTheorems.NoMailOnceEnteredRun | notification/internal/worker/broker.go:221-225 | Once an id is entered, no continuation of any run sends another e-mail for it or changes its row |
| MoneyPathTheorems.BoundedDuplication | notification/internal/worker/broker.go:215-257 | Over any run the e-mails for an id number at most one plus the attempts that sent one and did not commit, and the number is final once the row is committed |
| MoneyPathTheorems.BoundedPublishing | pkg/outbox/worker.go:62-107 | Over any run the successful publishes of an event number at most one plus the batches that did not commit, and no two workers hold it |
| MoneyPathTheorems.DeliveryConservation | notification/internal/worker/broker.go:142-162 | In every reachable state each enqueued copy is in exactly one place; an acked one is entered or of an unknown key, a rejected one undecodable |
| MoneyPathTheorems.EmptyIdIsUnreachable | notification/internal/worker/broker.go:137-140 | The consumer's exit on an empty message id is never taken |
| Collision.EnteredForAuthIsForGood | pkg/broker/broker.go:39 | If the inbox row of an event's id belongs to the other producer and its e-mail did not go out, it goes out in no continuation |
| Collision.GuaranteedExactlyWhenIdsAreApart | notification/cmd/main.go:85-91 | For every set of ids auth may use for readable messages: no run leaves the deposit with outbox id e committed, out of outbox and queue and without its e-mail, if and only if e is not in the set |
| Collision.CollidingIdLosesTheEmail | deploy/init.sql:1-2 | For every id a run in which no call fails and no consumer stops, auth publishes under that id only, and the committed deposit with that id is PROCESSED, its message gone from the queue and no e-mail sent |
| Recovery.BatchesCanFinish | pkg/outbox/worker.go:84-106 | From every reachable state the batches in flight can end without a failure, and the rows of a batch in which nothing has failed are then PROCESSED |
| Recovery.OutboxCanEmpty | pkg/outbox/worker.go:47-60 | Further batches without failures then leave no row PENDING |
| Recovery.HandlersCanFinish | notification/internal/worker/broker.go:167-260 | Handlers in flight can end without a failure, although one may wait for another's inbox row, and settle the copies that are still theirs |
| Recovery.QueueCanEmpty | notification/internal/worker/broker.go:127-164 | Every copy left, including one whose ack was lost, can then be delivered and acked or rejected |
| Recovery.EverythingCanSettle | notification/internal/worker/broker.go:127-260 | From every reachable state, whatever has failed so far, some continuation without failures answers every request, empties outbox and queue, and has sent the e-mail of every committed deposit under whose id auth published nothing readable if and only if its amount is below 2^63-512 |
| BillingServices.SoloIsSequential | billing/services/billing.go:40-133 | A request alone ends in the reply and the database of the sequential specification |
| BillingServices.BillingRepo.TopUpAccountTx | billing/repository/billing.go:151-165 | The upsert reads the newest committed balance under the row lock and adds to it, creates the account, or fails on overflow; when no call fails it gives up waiting only if another request for the same user is in flight |
| BillingServices.BillingRepo.GetAccountByUserIdTx | billing/repository/billing.go:79-98 | The locking read returns the newest committed row and holds its lock, or finds no account; when no call fails it gives up waiting only if another request for the same user is in flight |
| BillingServices.BillingRepo.WithdrawAccountTx | billing/repository/billing.go:64-77 | The debit subtracts from the locked row as it is in the database |
| BillingServices.BillingRepo.InsertTransactionTx | billing/repository/billing.go:130-149 | The insert takes the key, or conflicts exactly when the key is committed; when no call fails it gives up waiting only if another request with the same key is in flight |
| BillingServices.BillingRepo.FindByIdempotencyKey | billing/repository/billing.go:100-128 | After a conflict the lookup returns a row with the key unless the call fails; "not found" does not occur |
| BillingServices.BillingRepo.SelectByKey | billing/repository/billing.go:102-106 | A row is found if and only if the ledger has one with the key |
| BillingServices.BillingService.Commit | billing/services/billing.go:85 | Success means committed; an error means rolled back or committed without knowing |
| BillingServices.BillingService.HandleIdempotencyError | billing/services/billing.go:135-148 | Rolls back and answers "replayed" unless a call fails |
| BillingServices.BillingService.InsertOutboxEventTx | pkg/outbox/pg_repo.go:67-79 | The event row is written in the deposit's own transaction |
| BillingServices.BillingService.Deposit | billing/services/billing.go:40-86 | However others interleave and whatever fails, the call is a run of the transition system and a reply other than a fault is the specification's answer at a point during the call; when no call fails, a fault means that another request for the same account or key is in flight; alone and without failures, reply and database are the specification's |
| BillingServices.BillingService.Withdraw | billing/services/billing.go:88-133 | The same for a withdrawal |
| OutboxWorkers.OutboxWorker.QueryOutboxEventsTx | pkg/outbox/pg_repo.go:28-65 | Locks and returns the oldest PENDING rows that no worker holds, all of them or 100, with their committed contents, or fails and locks none |
| OutboxWorkers.OutboxWorker.CopyRows | pkg/outbox/pg_repo.go:45-62 | The loop copies out every selected row, in order and unchanged |
| OutboxWorkers.OutboxWorker.Publish | pkg/broker/broker.go:24-47 | Success means the event's message was enqueued; an error leaves it open; alone, only the worker's own batch, the publish count and the queue change |
| OutboxWorkers.OutboxWorker.PublishAll | pkg/outbox/worker.go:84-92 | The loop tries every row once in order, skips failures and returns exactly the ids published; without failures it enqueues exactly the rows' messages in order |
| OutboxWorkers.OutboxWorker.MarkEventsAsProcessedTx | pkg/outbox/pg_repo.go:81-94 | Marks the published ids within the transaction, or the batch ends and none of its rows is PROCESSED |
| OutboxWorkers.OutboxWorker.CommitTx | pkg/outbox/worker.go:104-106 | If the commit took effect exactly the published rows of the batch are PROCESSED, otherwise none |
| OutboxWorkers.OutboxWorker.Finish | pkg/outbox/worker.go:94-106 | The same for marking and committing together, with nothing to mark when nothing was published |
| OutboxWorkers.OutboxWorker.ProcessOutboxBatch | pkg/outbox/worker.go:62-107 | Whatever fails and whoever interferes, one batch is a run of the transition system: the rows are the oldest PENDING ones held by nobody at the moment of the query, all of them or 100, with their committed contents; the reported ids are among them, ascending, each published once more since then; exactly these turn PROCESSED, or none; when no call fails they are all rows and the batch commits; alone it changes no other row and enqueues exactly their messages in order |
| OutboxWorkers.OutboxWorker.StartOutboxWorker | pkg/outbox/worker.go:47-60 | Each tick is one such batch, one after the other, whoever interferes; alone and without failures, ceil(n/100) ticks leave none of n rows PENDING and enqueue each once in ascending id order |
| OutboxWorkers.OutboxWorker.DrainedIfAlone | pkg/outbox/worker.go:62-107 | An undisturbed batch does exactly what the batch specification says |
| ConsumerWorkers.ConsumerWorker.SaveProcessedMessageTx | notification/internal/repository/notification.go:31-54 | Reports a duplicate only for a committed id; otherwise the row is held uncommitted, or the call failed, or another handler holds the id |
| ConsumerWorkers.ConsumerWorker.SendEmail | notification/internal/worker/broker.go:234-244 | Success means that the one e-mail for this message's user and amount went out; an error may hide one that did |
| ConsumerWorkers.ConsumerWorker.CommitTx | notification/internal/worker/broker.go:255-257 | Success means the inbox row is committed and names the message's own user and event type; an error may hide a commit |
| ConsumerWorkers.ConsumerWorker.HandleMessage | notification/internal/worker/broker.go:167-260 | A nil error means the message is entered or of an unknown key, a fatal one if and only if it cannot be decoded, and when no call fails any other error means that another handler was entering the id; a message not entered before is entered under its own user and event type; undisturbed, it is mailed and entered, and anything else changes nothing |
| ConsumerWorkers.ConsumerWorker.Settle | notification/internal/worker/broker.go:142-162 | A call that reaches the broker puts the one leased delivery among the acked, the rejected or the queued and moves no other; when no call fails it does reach it unless the channel is closed, where it is without effect |
| ConsumerWorkers.ConsumerWorker.ConsumeOne | notification/internal/worker/broker.go:132-162 | One round takes a delivery that has arrived, if there is one; whoever interferes, a nil error means its message is entered or of an unknown key, a fatal one if and only if it cannot be decoded, and the copy is acked, rejected or requeued accordingly unless that call fails or the channel closes; undisturbed the delivery is dealt with from end to end; the empty-id exit is never taken |
| ConsumerWorkers.ConsumerWorker.StartConsume | notification/internal/worker/broker.go:127-164 | Whoever interferes, the loop is one such round after the other until its context ends or its channel closes; undisturbed, each settles one more delivery for good until none is left: rejected if it cannot be decoded, otherwise acked |
| ConsumerWorkers.TakenHandledSettled | notification/internal/worker/broker.go:127-164 | Taking, handling and settling a delivery amounts to the one-step specification |
| RateLimits.BoundUpTo | gateway/middleware/limiter.go:18-32 | Within a window, a counter already running adds at most limit-1 and one that starts inside at most limit |
| RateLimits.BoundAtOneInstant | gateway/middleware/limiter.go:18-32 | When a window is one instant, at most limit get through at it |
| RateLimits.SlidingWindowBound | gateway/middleware/limiter.go:18-34 | In any half-open interval of one window a client is let through at most 2*limit-1 times, limit times when the window is one instant, and never when it is empty or the limit is below 1 |
| RateLimits.CounterCountsUp | gateway/middleware/limiter.go:18 | The k-th request of a counter draws the value k |
| RateLimits.EpochAdmits | gateway/middleware/limiter.go:29-34 | Each counter lets through exactly the smaller of the limit and its number of requests |
| RateLimits.RateLimiter.Incr | gateway/middleware/limiter.go:18 | Counts on, or from 1 on a new or expired key; the history of values stays consistent |
| RateLimits.RateLimiter.Expire | gateway/middleware/limiter.go:25-27 | The key expires one window after the call |
| RateLimits.RateLimiter.Handle | gateway/middleware/limiter.go:13-35 | Served if and only if the drawn value is within the limit, or whatever the limit after a Redis fault, when the INCR may still have taken effect; a first hit sets the expiry whoever comes between the two commands, unless a Redis call fails; undisturbed, only a first hit does |
| RateLimits.Saturate | gateway/middleware/limiter.go:25-32 | The bound is reached for every limit of at least 1 and every window |

## Left out

- EveryoneCanFinish: a possibility, not liveness; a fault or an unfair schedule can hold a request up forever.
- EverythingCanSettle: likewise a possibility; a consumer whose ack was lost is stopped in it, as on shutdown.
- Drain: needs no competitor and no fault, because 100 rows that never publish block all later ones.
- SendEmail: the e-mail is identified by message id, user and amount; the address, which auth looks up by user id, and the e-mail's text are not modelled.
- Handle: nothing is claimed about when a client is let through again if its EXPIRE was lost and the key never expires.
- QueryOutboxEventsTx: the SKIP LOCKED snapshot is one step, and a row stream that ends early without an error (`rows.Err` is not checked) is not modelled.
- Wire.Printed: candidates are integers, since a decimal with a fraction never has fewer digits than the integer it denotes.
- Event columns that no decision reads: aggregate type, status text, error text, timestamps, `tx_type`.
- JSON other than the fields the consumer reads; a body is a deposit, a registration or malformed.
- Global event order: ids may commit out of order and a failed publish is skipped, so order is claimed within a batch only.
- The prefetch limit of 10, exchanges, bindings, connection loss other than a closed channel, and pool limits.
- Auth flows and refresh tokens, JWT, password hashing, the circuit breaker, gateway handlers, gRPC error mapping, role checks and configuration: single-branch or library behaviour.
