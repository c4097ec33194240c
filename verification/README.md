# Trial booking, modelled and proved

A parent holds a place in a trial class, pays, and is either seated or owed a refund. Four state
machines (seats, money, background jobs, sessions) run under concurrency and meet in one checkout;
a token bucket and a conditional cache stand in front of them. This project models those parts and
proves what they keep.

How it is laid out:

| part | files |
|---|---|
| seats | `BookingStatus` the transition table; `BookingStore` the atomic repository; `BookingRuns` what every run of it keeps; `HolderBound` when capacity and allowance are exceeded; `SeatTransactions` the same operations as lock, read, write and commit steps; `Serializability` every interleaving of those steps against the atomic repository; `SerialCaps` the same with the cap on a parent's holds; `CapRaces` when that cap is passed; `SeatRaces` runs that show what the serial order is not |
| money | `Payments` ledger, provider and pay service; `Money` every call of every checkout and refund job as one step, with crashes; `MoneyRuns` what every such run keeps; `PayKeys` how often one booking can be charged; `PaidAnswers` which charges are answered and which debts paid back |
| checkout | `Checkout` the order of a checkout and the two job handlers; `HoldExpiry` the release of an abandoned hold under one clock |
| jobs | `JobQueue` leases, attempts, parking; `QueueRuns` whole runs and the runner |
| sessions | `RefreshTokens` the token store; `RefreshRuns` chains, reuse; `RefreshTransactions` rotation as row locks and commits; `RefreshSweeps` when ending a family ends it; `RefreshClient` one page, its coordinator and the server |
| limits | `TokenBucket`, `RedisScript`, `MemoryLimiter` |
| conditional reads | `ETag`, `CacheStore`, `Conditional` (whole calls), `ConditionalSteps` (overlapping calls), `ConditionalAges` (how old a body can be) |
| stored passwords | `PasswordHash`, `Base64`, `Text` |
| shared | `Collections` |

What the source does step by step on fields is a class here, with loops where it has loops; each
method is proved equal to a function of the old state, and the run theorems are about those
functions. Protocols (SQL transactions, overlapping calls, network) are transition systems: one
step per statement or call, any number of actors, death allowed between any two steps.

Assumed throughout: minted ids, hashes and families are fresh; a class's capacity and a child's
parent do not change; instants are whole nanoseconds after the zero instant, and a clock never
reads the zero instant. Where a property needs a clock that never steps back it says so; the others
hold for any clock.

What is not true of the code, and what is proved instead:

- One booking can be charged more than once, although the comment at
  `backend/internal/payment/refund.go:120-124` takes one settled charge for granted. The model follows the
  code: over any run a booking has at most one settled charge for each key its calls use
  (`PayKeys.SettledAtMostOnceForEachKey`), and two keys do charge twice, from nothing
  (`PayKeys.TwoKeysFromNothing`).
- Not every settled charge ends in a seat or a debt. From nothing, a withdrawal between charge and
  confirm leaves the money taken for good (`PaidAnswers.UnansweredForGood`); a confirm that breaks
  answers nothing either (`PaidAnswers.BrokenConfirmAnswersNothing`). Over any run a booking is
  answered exactly when an unbroken confirm came for it while it still waited for payment
  (`PaidAnswers.AnsweredExactly`), and only once (`PaidAnswers.AnsweredOnlyOnce`).
- Not every debt is paid back: whoever else may cancel can close a booking that is owed its refund
  (`PaidAnswers.DebtDropped`). A debt ends closed and unpaid exactly when somebody withdraws it and
  no refund of it reaches the provider (`PaidAnswers.DebtDroppedExactly`).
- Holders can exceed capacity and allowance (`HolderBound.TwoHoldersForOnePlace`). Over any run the
  bound is passed exactly when a confirm comes for a booking whose hold has lapsed while a seat is
  free and every place is taken (`HolderBound.BoundKeptExactly`).
- Two Holds of one parent can pass the cap together (`SeatRaces.TwoHoldsPassTheCap`), where no serial
  order of them does (`SeatRaces.CapRaceIsNotSerial`). Without such an overlap the serial order
  agrees on the cap too (`SerialCaps.SerialInFull`); with one, the cap is passed exactly when the
  count, the Holds committed since and the holds ended since add up past it (`CapRaces.CapPassedExactly`).
- Commit order is not a serial order (`SeatRaces.CommitOrderIsNotSerial`).
- A refused rotation can leave a stamp (`RefreshTokens.DuplicateLeavesAStamp`) or end a family
  (`RefreshTokens.RefusedRotateChangesNothingExactly`).
- Ending a family in the database can leave a successor alive (`RefreshTransactions.SuccessorSlipsPast`).
  It leaves nothing alive exactly when no token of the family was born between the update's
  beginning and its commit, or another update of it began and committed after the last one was
  (`RefreshSweeps.SweepEndsFamilyExactly`); what is dead stays dead (`RefreshSweeps.DeadStaysDead`).
- An invalidation can be followed by an old body, in two windows (`ConditionalSteps.OldBodyOutlivesInvalidation`,
  `ConditionalAges.SavingOutlivesInvalidation`), and in no other (`ConditionalAges.StoredIsOldExactly`,
  `ConditionalAges.ServedIsOldExactly`).
- A tag comes back after a full turn of the version counter (`Conditional.WrappedTagRepeats`), and
  only then (`Conditional.ChangeMovesTheTagExactly`).
- Attempts count hand-outs exactly when the cap fits an int16 (`QueueRuns.AttemptsCountExactly`);
  past it a job is handed out without end (`QueueRuns.HandedOutWithoutEnd`).
- A sweep under one rule frees a caller of a slower one; forgetting is invisible under two rules
  exactly when they refill in the same time (`MemoryLimiter.InvisibleExactly`).
- The shared key expires on the Redis server's clock while its stamp is the caller's. The script and
  the bucket agree while no caller's clock falls more than one interval behind the server's between
  two requests, and that slack is exact (`RedisScript.OneIntervalIsTheSlack`).

## Model

| member | source | states |
|---|---|---|
| `BookingStatus.PathsAreShort` | backend/internal/booking/status.go:37-54 | any walk along the transition table has at most three statuses and repeats none |
| `BookingStore.LowestFreeSeat` | backend/internal/booking/seat.go:22-42 | the two loops find a seat in 1..capacity nobody holds with every lower one held, and find none exactly when all are held |
| `BookingStore.LowestFreeFrom` | backend/internal/booking/seat.go:22-42 | the least free seat from a starting number, or proof that none is free |
| `BookingStore.MemoryRepository.Hold` | backend/internal/booking/repository_memory.go:144-187 | writes exactly the granted row and its trail line, or refuses for the first reason in the source's order and changes nothing |
| `BookingStore.MemoryRepository.Confirm` | backend/internal/booking/repository_memory.go:196-258 | takes the lowest free seat, or records the lost seat, or breaks at an armed fault point and changes nothing |
| `BookingStore.MemoryRepository.Cancel` | backend/internal/booking/repository_memory.go:262-288 | frees the seat when the table allows the move, by any actor, and otherwise changes nothing |
| `BookingStore.MemoryRepository.Fail` | backend/internal/booking/repository_memory.go:295-320 | ends a booking that still waits for payment, and no other |
| `BookingStore.MemoryRepository.Expire` | backend/internal/booking/repository_memory.go:401-430 | ends a lapsed hold; a live one and one that moved on are refused with the row as it stands |
| `BookingStore.MemoryRepository.HasLiveBookingLocked` | backend/internal/booking/repository_memory.go:436-448 | the search loop finds a live booking of the child in the class exactly when there is one |
| `BookingStore.MemoryRepository.LiveHoldsForParentLocked` | backend/internal/booking/repository_memory.go:452-470 | the counting loop gives the size of the set of the parent's standing holds |
| `BookingStore.MemoryRepository.HoldersLocked` | backend/internal/booking/repository_memory.go:479-498 | the counting loop gives the number of confirmed bookings and live holds of the class |
| `BookingStore.MemoryRepository.SeatsTakenLocked` | backend/internal/booking/repository_memory.go:502-516 | the loop lists the held seats, one entry to a seated booking |
| `BookingRuns.RunKeeps` | backend/internal/booking/repository_memory.go:144-430 | every run keeps: a seat exactly when confirmed and inside the class, no shared seat, one live booking per child and class, trails that are walks from the grant to the shown status |
| `BookingRuns.TrailsAreShort` | backend/internal/booking/repository_memory.go:520-537 | a trail has one to three lines and no status twice |
| `BookingRuns.SeatsNeverOversold` | backend/internal/booking/repository_memory.go:502-516 | seated bookings and taken seats correspond one to one and never outnumber the class |
| `BookingRuns.ConfirmLosesExactlyWhenFull` | backend/internal/booking/repository_memory.go:219-234 | a confirm loses its seat exactly when as many distinct seats are held as the class has |
| `BookingRuns.LastSeatRace` | backend/internal/booking/repository_memory.go:196-258 | two confirms for the last seat: the first is seated, the second owed a refund, nobody else moves |
| `BookingRuns.CapOverRuns` | backend/internal/booking/repository_memory.go:162-164 | from the last operation of any run on, no parent has more holds standing at any instant than the cap |
| `BookingRuns.GrantStaysWithinAllowance` | backend/internal/booking/hold.go:15-17 | the instant a hold is granted, holders are within capacity and allowance |
| `BookingRuns.ConfirmAddsAHolderExactly` | backend/internal/booking/hold.go:35-41 | a confirm adds a holder exactly when its hold had lapsed and a seat was free |
| `HolderBound.BoundPassedExactly` | backend/internal/booking/repository_memory.go:196-258 | from within capacity and allowance, any operation passes them exactly if it is an unbroken confirm of a pending booking of the class whose hold lapsed, with a seat free and holders at the maximum |
| `HolderBound.BoundKeptExactly` | backend/internal/booking/repository_memory.go:144-430 | over any run under a clock that never steps back, the bound is passed somewhere exactly when such a confirm is in it |
| `HolderBound.TwoHoldersForOnePlace` | backend/internal/booking/repository_memory.go:144-258 | a run of hold, hold and confirm that ends with two holders for one place |
| `SeatTransactions.EveryInterleavingKeeps` | backend/internal/booking/repository_postgres.go:186-652 | over every interleaving of lock, read, write, commit and rollback steps the committed rows keep every rule above |
| `SeatTransactions.IndexesNeverRefuse` | backend/internal/booking/repository_postgres.go:186-435 | no pending write would meet either unique index, against committed rows or other writes in flight |
| `SeatTransactions.NoDeadlock` | backend/internal/booking/repository_postgres.go:298-435 | a chain of waiting transactions has at most two links and never closes, because classes are locked before bookings |
| `SeatTransactions.SomeoneCanMove` | backend/internal/booking/repository_postgres.go:298-435 | a transaction that waits for nobody has a step other than rolling back |
| `SeatTransactions.NeverAllWaiting` | backend/internal/booking/repository_postgres.go:298-435 | while any transaction is under way, one of them has a statement it can run now |
| `Serializability.EveryInterleavingIsSerial` | backend/internal/booking/repository_postgres.go:186-652 | the committed operations have a serial order whose atomic run, the cap on a parent's holds left out, ends in the very same rows and trails |
| `SerialCaps.SerialInFull` | backend/internal/booking/repository_postgres.go:186-652 | with the cap as well, whenever no two Holds of one parent that both commit overlap between counting and committing |
| `CapRaces.StandingAlong` | backend/internal/booking/repository_postgres.go:186-652 | over any interleaving, the holds a parent has standing at an instant are those it had, with what joined and less what left |
| `CapRaces.CapPassedExactly` | backend/internal/booking/repository_postgres.go:225-284 | a Hold leaves its parent above the cap exactly when what it counted, plus the parent's Holds committed since, less the holds ended since, had reached it |
| `CapRaces.AloneStaysUnderCap` | backend/internal/booking/repository_postgres.go:225-284 | a Hold across which no other of its parent commits keeps the cap |
| `SeatRaces.TwoHoldsPassTheCap` | backend/internal/booking/repository_postgres.go:186-284 | from any store, two Holds of one parent in two classes, with room for one under the cap, both commit and leave one hold too many |
| `SeatRaces.CapRaceIsNotSerial` | backend/internal/booking/repository_postgres.go:186-284 | and no serial order whatever, with the cap asked for, ends where that run does |
| `SeatRaces.CommitOrderIsNotSerial` | backend/internal/booking/repository_postgres.go:298-435 | a cancel commits while a confirm holds its answer: the commit order is not serial, the other order is |
| `Serializability.MovePast` | backend/internal/booking/repository_postgres.go:395-435 | a change moves past any run of operations that ignore its row and class, leaving the same end |
| `Payments.MemoryRepository.BeginAttempt` | backend/internal/payment/repository_memory.go:99-143 | opens a row, or answers with the row under the key, or refuses; nothing else changes |
| `Payments.MemoryRepository.SettleAttempt` | backend/internal/payment/repository_memory.go:147-173 | settles an open row once; a settled row is refused with itself |
| `Payments.MemoryRepository.AttemptByKeyLocked` | backend/internal/payment/repository_memory.go:177-187 | the search loop finds the first row under the booking and key |
| `Payments.MemoryRepository.AttemptsFor` | backend/internal/payment/repository_memory.go:78-93 | the loop lists a booking's attempts in the order they were written |
| `Payments.MockProvider.ChargeOnce` | backend/internal/payment/provider_mock.go:138-176 | the outcome is the fault's, the pinned one's, or the amount's, in that order; a call that left is counted |
| `Payments.MockProvider.RefundOnce` | backend/internal/payment/provider_mock.go:189-217 | money moves once per key; a repeat gets the stored reference |
| `Payments.PaymentService.Pay` | backend/internal/payment/service.go:107-170 | begin, charge and settle in order, with every early return |
| `Payments.PaymentService.Refund` | backend/internal/payment/refund.go:69-96 | asks the provider for the first settled attempt under that attempt's own key |
| `Payments.PaymentService.SettledAttempt` | backend/internal/payment/refund.go:126-139 | the search loop finds the first attempt that moved money |
| `Payments.FirstRefundable` | backend/internal/payment/refund.go:126-139 | an attempt that moved money when there is one, and none only when none did |
| `Payments.RefundKeysDiffer` | backend/internal/payment/refund.go:100-118 | different attempts never share a refund key |
| `Payments.OpenedIsFound` | backend/internal/payment/service.go:107-170 | a call that opens an attempt leaves it under its key, settled as the answer says unless the provider went unanswered |
| `Payments.SecondCallRepeatsTheFirst` | backend/internal/payment/service.go:107-207 | the same call again charges nothing, writes nothing and repeats the first answer exactly when the provider had answered |
| `Money.FireKeeps` | backend/internal/checkout/pay.go:80-153 | every step of every call keeps: one row to a booking and key, charges and refunds once each, seats and debts backed by a settled charge |
| `MoneyRuns.RunKeeps` | backend/internal/checkout/pay.go:80-153 | so does every run, and rows, settled answers, charges and refunds only accumulate |
| `MoneyRuns.OneRowOneCharge` | backend/internal/payment/repository_postgres.go:105-152 | over any overlap and crash, one booking and key have at most one row and at most one charge call |
| `MoneyRuns.SettledRowsNeverChange` | backend/internal/payment/repository_postgres.go:156-186 | a settled row is the same at every later point |
| `MoneyRuns.ReplayNeverCharges` | backend/internal/payment/service.go:198-207 | a row found under the key charges nothing and goes on only with that row's own settled answer, and only for the same amount |
| `MoneyRuns.RereadFinds` | backend/internal/payment/repository_postgres.go:128-150 | an insert that lost the race always finds the row that beat it |
| `MoneyRuns.OwedMeansPaid` | backend/internal/checkout/pay.go:106-120 | in every reachable state a confirmed or refund_required booking has a succeeded attempt with a provider reference |
| `MoneyRuns.NeverNothingToRefund` | backend/internal/worker/reconcile_refund.go:92-101 | a refund job past its first read always finds an attempt to refund, in whatever order attempts are listed |
| `MoneyRuns.ClosedDebtsWereRefunded` | backend/internal/worker/reconcile_refund.go:78-114 | a refund_required booking closed by the payment actor was refunded before |
| `MoneyRuns.ReturnedNeverExceedsSettled` | backend/internal/payment/provider_mock.go:189-217 | over every run each succeeded attempt is sent back at most once, and what a booking got back never exceeds what its settled charges took |
| `MoneyRuns.BrokenConfirmCanBeRetried` | backend/internal/checkout/pay.go:106-123 | a confirm that broke leaves every booking as it was, and a retry under the same key decides the seat with no further charge |
| `MoneyRuns.ChargeIsAnsweredExactlyWhenPending` | backend/internal/checkout/pay.go:104-118 | whatever breaks, the confirm after a settled charge moves its booking, to a seat or a debt, exactly when it was still pending and the confirm unbroken |
| `MoneyRuns.ChargesExactlyWhenTheKeyIsNew` | backend/internal/payment/repository_postgres.go:105-152 | an insert goes on to charge exactly when the booking exists and its key is new to it |
| `MoneyRuns.TwoKeysChargeTwice` | backend/internal/payment/refund.go:120-139 | from any settled charge, a call under another key ends in a second settled charge on the same booking |
| `PayKeys.SettledAtMostOnceForEachKey` | backend/internal/payment/service.go:107-170 | over any run a booking has at most as many settled charges as its pay calls use keys, so at most one under one key |
| `PayKeys.TwoKeysFromNothing` | backend/internal/payment/refund.go:120-139 | from an empty ledger, one hold and two payments under two keys end in two settled charges |
| `PaidAnswers.AnsweredExactly` | backend/internal/checkout/pay.go:80-153 | over any run a booking is at some point seated or owed exactly when an unbroken confirm came for it while pending |
| `PaidAnswers.AnsweredOnlyOnce` | backend/internal/booking/status.go:37-54 | an answered booking is answered by no later confirm of any run |
| `PaidAnswers.ChargeLeftUnanswered` | backend/internal/checkout/pay.go:104-116 | from any world with a call about to confirm, a withdrawal first leaves the charge settled, the booking cancelled, and no refund begun or asked for |
| `PaidAnswers.BrokenConfirmAnswersNothing` | backend/internal/booking/repository_postgres.go:320-324 | a confirm that gives up on the class row changes nothing but ends its call, the charge settled |
| `PaidAnswers.UnansweredForGood` | backend/internal/checkout/pay.go:58-64 | from nothing, a hold, a payment and a withdrawal end with the charge settled, and over every continuation nothing is seated, owed or sent back |
| `PaidAnswers.PastIsNeverPaidBack` | backend/internal/worker/reconcile_refund.go:89-91 | a booking neither waiting nor owed, with no refund job past its read, gets no money back in any run |
| `PaidAnswers.DebtDroppedExactly` | backend/internal/booking/status.go:48-50 | over any run a debt ends closed and unpaid exactly when somebody withdraws it and no refund of it reaches the provider |
| `PaidAnswers.DebtDropped` | backend/internal/httpx/handler_bookings.go:224-238 | a parent withdrawing a booking owed its refund closes it, and the refund job then finds nothing to do |
| `Checkout.Service.Hold` | backend/internal/checkout/hold.go:43-56 | grants first and schedules the release second, reporting whether the job was written |
| `Checkout.Service.Pay` | backend/internal/checkout/pay.go:80-153 | price check, charge, then seat, with the decline and lost-seat endings |
| `Checkout.Service.Schedule` | backend/internal/checkout/service.go:121-141 | writes one job unless it is refused, and never undoes anything |
| `Checkout.ExpireHoldHandler.Handle` | backend/internal/worker/expire_hold.go:60-73 | finished when the hold was released or the booking moved on, handed back otherwise |
| `Checkout.ReconcileRefundHandler.Handle` | backend/internal/worker/reconcile_refund.go:78-114 | reads, refunds, and only then closes |
| `Checkout.HoldThenRelease` | backend/internal/checkout/hold.go:43-56 | a refused hold changes nothing; a scheduled release names the granted booking and is due only once its deadline has passed |
| `Checkout.ReleaseWaitsForTheDeadline` | backend/internal/checkout/service.go:57-71 | a grace is safe exactly when it is not negative, which is what the defaults enforce |
| `Checkout.SeatOnlyForMoney` | backend/internal/checkout/pay.go:80-119 | a call moves at most its own booking, and leaves it seated or owed only with a settled charge under its key |
| `Checkout.LostSeatIsQueued` | backend/internal/checkout/pay.go:145-153 | a lost seat, and nothing else, writes a refund job for that booking |
| `Checkout.SecondPayChangesNothing` | backend/internal/checkout/pay.go:80-134 | pressing pay again, after any call but one whose confirm broke, changes nothing anywhere and shows the same booking and attempt |
| `Checkout.RefundTwiceMovesOnce` | backend/internal/worker/reconcile_refund.go:64-114 | handling a refund again moves no more money, and a closed booking had its refund made |
| `HoldExpiry.ReleaseFinishesFirstTime` | backend/internal/worker/expire_hold.go:60-73 | after any run of checkouts, booking changes, polls, hand-backs and crashes under one clock, the handler of a release always finishes and leaves its booking no longer pending |
| `HoldExpiry.RunKeeps` | backend/internal/queue/job.go:92-94 | every pending release names a stored booking and is due no earlier than that booking's deadline |
| `JobQueue.ClaimIsDetermined` | backend/internal/queue/queue_memory.go:58-91 | the description of a poll's answer leaves exactly one answer |
| `JobQueue.MemoryQueue.Enqueue` | backend/internal/queue/queue_memory.go:32-55 | writes one fresh job, or refuses for the first reason and writes nothing |
| `JobQueue.MemoryQueue.Claim` | backend/internal/queue/queue_memory.go:58-91 | hands out the earliest claimable jobs up to the limit, each leased and counted once |
| `JobQueue.MemoryQueue.ClaimableLocked` | backend/internal/queue/queue_memory.go:179-199 | the filter loop keeps exactly the due, unclaimed, unparked jobs |
| `JobQueue.MemoryQueue.Complete` | backend/internal/queue/queue_memory.go:94-109 | removes the named job and no other |
| `JobQueue.MemoryQueue.Release` | backend/internal/queue/queue_memory.go:112-131 | clears the lease and sets the schedule of the named job and no other |
| `JobQueue.MemoryQueue.CountDepth` | backend/internal/queue/queue_memory.go:151-173 | ready is exactly what a poll could take; claimed and parked count the rest of what is held or spent |
| `JobQueue.SortSorts` | backend/internal/queue/queue_memory.go:68-74 | the order by schedule and id is a sort that loses and invents nothing |
| `QueueRuns.AttemptsCountHandouts` | backend/internal/queue/queue_memory.go:58-91 | attempts equals the hand-outs of a job over any run, and no job is handed out more often than a cap within int16 |
| `QueueRuns.HandedOutWithoutEnd` | backend/internal/queue/job.go:96-103 | past int16, for any number there is a run that hands one job out that often, showing only what sixteen bits keep of it |
| `QueueRuns.AttemptsCountExactly` | backend/internal/queue/queue_memory.go:58-91 | over all runs and jobs, attempts equal hand-outs exactly when the cap fits an int16 |
| `QueueRuns.ParkedStaysParked` | backend/internal/queue/job.go:101-103 | a parked job is never handed out again |
| `QueueRuns.LeaseIsKept` | backend/internal/queue/job.go:87-89 | no poll judged inside a standing lease hands the job out unless it was released |
| `QueueRuns.CallSpends` | backend/internal/queue/queue_memory.go:58-131 | every job a poll hands out uses up one remaining hand-out and no call but Enqueue adds any |
| `QueueRuns.PollsAreFinite` | backend/internal/worker/runner.go:225-246 | without new work, polls that find something are at most as many as the hand-outs left |
| `QueueRuns.Runner.RunOnce` | backend/internal/worker/runner.go:165-180 | one poll, answered as the queue must, and its whole batch worked through |
| `QueueRuns.Runner.DispatchBatch` | backend/internal/worker/runner.go:188-195 | the batch loop settles every job of the batch by its handler's outcome |
| `QueueRuns.Runner.Dispatch` | backend/internal/worker/runner.go:254-320 | a finished job is completed, a broken one released after the backoff, one already gone left gone |
| `QueueRuns.SettledEach` | backend/internal/worker/runner.go:248-320 | a worked batch leaves nothing of a finished job, an unleased and rescheduled job of a broken one, and every other job as it was |
| `QueueRuns.AnyOrderSettlesAlike` | backend/internal/worker/runner.go:188-215 | a batch settled in any order, as more than one slot may, ends the same |
| `RefreshTokens.MemoryRefreshStore.Issue` | backend/internal/auth/store_memory.go:28-44 | writes a first token, or refuses a malformed or duplicate one |
| `RefreshTokens.MemoryRefreshStore.Rotate` | backend/internal/auth/store_memory.go:51-88 | spends the presented token and writes its successor, or refuses; a reuse ends the family, a duplicate leaves the stamp |
| `RefreshTokens.MemoryRefreshStore.RevokeFamilyLocked` | backend/internal/auth/store_memory.go:138-151 | the loop stamps exactly the family's live tokens and counts them |
| `RefreshTokens.RefusedRotateChangesNothingExactly` | backend/internal/auth/store_memory.go:51-88 | a refused rotation leaves the table alone exactly for a malformed, unknown or expired request, or a reuse in a family already over |
| `RefreshTokens.DuplicateLeavesAStamp` | backend/internal/auth/store_memory.go:78-88 | after two sign ins, a successor minted under the second's hash is refused and yet ends the first token |
| `RefreshRuns.FamiliesAreChains` | backend/internal/auth/store_memory.go:28-151 | over every run a family is one chain under one parent with at most one live token, its newest |
| `RefreshRuns.OnlyTheNewestRotates` | backend/internal/auth/store_memory.go:51-88 | a rotation succeeds only for the newest link |
| `RefreshRuns.SpentOnce` | backend/internal/auth/store_memory.go:51-88 | a token is rotated successfully at most once in any run |
| `RefreshRuns.StampsStayOver` | backend/internal/auth/store_memory.go:138-151 | a revocation stamp never changes |
| `RefreshRuns.ReuseEndsFamily` | backend/internal/auth/store_memory.go:63-72 | after a reuse nothing in the family is live and nothing in it rotates again |
| `RefreshTransactions.EveryInterleavingKeeps` | backend/internal/auth/store_postgres.go:71-185 | over every interleaving of row locks, stamps, inserts, family updates and commits, rows and stamps stay and a family has one parent and one live token at most |
| `RefreshTransactions.OneLiveAndSpentOnce` | backend/internal/auth/store_postgres.go:71-134 | however rotations race, no token is spent by two committed ones |
| `RefreshTransactions.RotationIsAtomic` | backend/internal/auth/store_postgres.go:71-134 | a committing rotation does at that instant exactly what the atomic one does |
| `RefreshTransactions.SweepIsAtomicExactly` | backend/internal/auth/store_postgres.go:171-184 | what a committing family update leaves alive is exactly what was not among the rows it chose |
| `RefreshSweeps.SweepEndsFamilyExactly` | backend/internal/auth/store_postgres.go:71-184 | followed from its beginning to its commit over any interleaving, an update leaves its family dead exactly when no token of it was born meanwhile, or another update of it began and committed after the last birth |
| `RefreshSweeps.LoneSweepEndsFamilyExactly` | backend/internal/auth/store_postgres.go:71-184 | the only update of the family to commit leaves it dead exactly when no token of it was born since it began |
| `RefreshSweeps.DeadStaysDead` | backend/internal/auth/store_postgres.go:71-184 | once dead, a family stays dead over every later interleaving and no rotation in it commits |
| `RefreshTransactions.SuccessorSlipsPast` | backend/internal/auth/store_postgres.go:87-107 | the run in which a reuse leaves the family one live token |
| `RefreshClient.RefreshCoordinator.Run` | frontend/src/lib/api/refresh.ts:42-67 | callers until the promise settles share one refresh |
| `RefreshClient.OneRefreshNoReuse` | frontend/src/lib/api/client.ts:133-159 | over every interleaving on one page at most one refresh is in flight, no request is sent more than twice, and the server is never shown a spent token |
| `RefreshClient.ServeKeeps` | backend/internal/auth/refresh.go:37-88 | serving a refresh, account found or not, leaves the cookie coming back unspent |
| `TokenBucket.TakesAgree` | backend/internal/ratelimit/bucket.go:90-126 | the bucket of fractions and a bucket of whole nanoseconds answer alike and stay matched |
| `TokenBucket.AllowedExactlyWithinBudget` | backend/internal/ratelimit/bucket.go:90-126 | whatever the clock does, a request is allowed exactly when for every earlier request those allowed since fit the burst plus what forward movement gave back |
| `TokenBucket.AllowedExactlyAtRate` | backend/internal/ratelimit/bucket.go:90-126 | under a clock that never steps back, allowed exactly when the rate since each earlier request permits it |
| `TokenBucket.RetryAfterIsExact` | backend/internal/ratelimit/bucket.go:110-144 | what a refused caller is told is the least whole number of seconds after which a request is allowed, and refused requests in between do not put it off |
| `RedisScript.SharedStepAgreesExactly` | backend/internal/ratelimit/limiter_redis.go:21-134 | from matching state one request gets the same answer exactly when the server still has the key or the bucket is full anyway, and then states stay matched |
| `RedisScript.SharedRunAgreesExactly` | backend/internal/ratelimit/limiter_redis.go:21-134 | over any run on the millisecond, with callers' and server's clocks apart, all answers are equal exactly when no key is let go that the bucket would not find full |
| `RedisScript.OneIntervalIsTheSlack` | backend/internal/ratelimit/limiter_redis.go:21-59 | every run in which no caller falls further behind the server than a given lag agrees, exactly when that lag is at most one interval |
| `RedisScript.LagBeyondOneInterval` | backend/internal/ratelimit/limiter_redis.go:21-59 | the run that tells them apart for any larger lag |
| `RedisScript.OneClockAgrees` | backend/internal/ratelimit/limiter_redis.go:21-134 | on one clock that never steps back the answers are always equal and an expiring key changes none |
| `MemoryLimiter.Limiter.Allow` | backend/internal/ratelimit/limiter_memory.go:40-56 | serves the request and never forgets the caller just served |
| `MemoryLimiter.Limiter.ForgetIdleLocked` | backend/internal/ratelimit/limiter_memory.go:72-78 | the sweep drops exactly the callers idle for a whole refill |
| `MemoryLimiter.ForgettingIsInvisible` | backend/internal/ratelimit/limiter_memory.go:40-78 | for rules sharing one refill and times that never step back, every answer equals that of a limiter that never forgets |
| `MemoryLimiter.ShippedRulesShare` | backend/internal/ratelimit/limiter.go:15-21 | the two shipped rules share one refill |
| `MemoryLimiter.UnequalRulesCanTell` | backend/internal/ratelimit/limiter_memory.go:40-78 | for any two rules that refill in different times, a run of requests on which forgetting changes an answer |
| `MemoryLimiter.InvisibleExactly` | backend/internal/ratelimit/limiter_memory.go:40-78 | forgetting is invisible under two rules exactly when they refill in the same time |
| `ETag.TagsDiffer` | backend/internal/cache/etag.go:48-52 | two tags are equal exactly when version and digest both are |
| `ETag.MatchIsWeakComparison` | backend/internal/cache/etag.go:68-94 | for any well-formed list, commas inside tags included, a header covers a tag exactly when a member has its opaque part: weak comparison, section 13.1.2 of RFC 9110 |
| `CacheStore.MemoryStore.ReadEntry` | backend/internal/cache/store_memory.go:60-80 | finds a body strictly before it expires and drops it otherwise |
| `CacheStore.MemoryStore.Save` | backend/internal/cache/store_memory.go:83-97 | keeps a usable entry for its lifetime, or refuses |
| `CacheStore.MemoryStore.Invalidate` | backend/internal/cache/store_memory.go:112-124 | raises the version, wrapping at the top, and drops the body |
| `Conditional.ConditionalServer.Serve` | backend/internal/httpx/conditional.go:74-105 | stored body, or rebuilt one, answered 304 exactly when the header covers its tag |
| `Conditional.ConditionalServer.Rebuild` | backend/internal/httpx/conditional.go:108-146 | builds, tags at the version read, stores, answers; a failed build is denied and stores nothing |
| `Conditional.ConditionalServer.Invalidate` | backend/internal/httpx/conditional.go:164-172 | the loop invalidates each named document in order and skips empty names |
| `Conditional.WholeCallsAreFresh` | backend/internal/httpx/conditional.go:74-172 | when calls do not overlap, every answer is the document as it is under its current version |
| `Conditional.ChangeMovesTheTagExactly` | backend/internal/httpx/conditional.go:66-68 | two answers for a document, any run between them, carry one tag exactly when the digests agree and it changed a whole number of turns of the counter |
| `Conditional.WrappedTagRepeats` | backend/internal/cache/store_memory.go:112-124 | from any site, rewriting a document once for every version there is ends with the answer given at first |
| `ConditionalSteps.NotModifiedMeansSameBody` | backend/internal/httpx/conditional.go:74-146 | over every interleaving a 304 goes only to a client whose header covers the tag, and every copy ever sent under that tag is the body a 200 would carry |
| `ConditionalSteps.StoredTagsAreTheirOwn` | backend/internal/httpx/conditional.go:108-146 | a stored body is tagged as itself, and at a version not above the current one unless the run started its counter over |
| `ConditionalSteps.TagAfterInvalidateIsNew` | backend/internal/cache/store_memory.go:112-124 | a tag whose version was read after an invalidation was never sent or stored for that document before it, as long as the counter has not started over since |
| `ConditionalSteps.OldBodyOutlivesInvalidation` | backend/internal/httpx/conditional.go:109-127 | the first window: built, version not yet read; the old body ends up stored under the new version |
| `ConditionalAges.SavingOutlivesInvalidation` | backend/internal/httpx/conditional.go:127-133 | the second window: tagged, not yet saved; the old body ends up stored under the old tag |
| `ConditionalAges.StoredIsOldExactly` | backend/internal/httpx/conditional.go:74-172 | over every run after an invalidation, a stored body was built before it exactly when the call that stored it was between building and saving then |
| `ConditionalAges.ServedIsOldExactly` | backend/internal/httpx/conditional.go:74-172 | an answer carries a body built before it exactly when its own call had that body then, or it read the store while an old body stood there |
| `ConditionalAges.QuietInvalidationIsFinal` | backend/internal/httpx/conditional.go:164-172 | with nobody carrying a body for it then, everything stored or served for a document afterwards was built afterwards |
| `PasswordHash.ParsePrint` | backend/internal/auth/password.go:177-249 | every usable hash reads back as the five values it was printed from |
| `PasswordHash.ParsedIsUsable` | backend/internal/auth/password.go:216-249 | whatever is read has no zero, no number beyond its width and no empty salt or key |
| `PasswordHash.PrintingIsCanonical` | backend/internal/auth/password.go:90-99 | read, printed and read again, a hash stays what it was |
| `PasswordHash.OldRowsStillVerify` | backend/internal/auth/password.go:120-140 | a row verifies by its own work numbers, accepting exactly the passwords that derive its key |
| `PasswordHash.HashedVerifies` | backend/internal/auth/password.go:76-140 | a password just hashed verifies, another exactly when it derives the same key, and an empty one is refused |
| `Base64.DecodeEncode` | backend/internal/auth/password.go:97-98 | unpadded base64, section 4 of RFC 4648, gives any bytes back |
| `Text.ValueOfDecimal` | backend/internal/auth/password.go:90-99 | a printed number reads back as itself |

## Left out

- Serializability.EveryInterleavingIsSerial: leaves the cap on a parent's holds out, because with it the statement is false (`SeatRaces.CapRaceIsNotSerial`); `SerialCaps.SerialInFull` has it under the condition that no two such Holds overlap.
- RefreshClient.OneRefreshNoReuse: one page, no sign out, an answered refresh delivered before its promise settles; `LostAnswerReadsAsReuse` shows delivery is needed.
- QueueRuns.Runner.DispatchBatch: works one job at a time; that more slots end the same is `QueueRuns.AnyOrderSettlesAlike`.
- RedisScript.SharedRunAgreesExactly: a key is gone from the very millisecond its expiry falls on the server.
- TokenBucket.TakesAgree: fractions are exact reals, so the rounding of 64-bit floats is not modelled; the same goes for `RedisScript` and `MemoryLimiter`.
- SeatTransactions.EveryInterleavingKeeps: a Hold reads whose child it is and the child's live bookings in one step; a child's parent never changes, so only the second read can race.
- QueueRuns.Runner.RunOnce: what a handler does is a given outcome for each job; `Checkout` models the two handlers.
- ETag.MatchIsWeakComparison: says nothing of malformed headers beyond what `Matches` computes.
- Real parallelism inside one process: a mutex-guarded method is one atomic step.
- SQL text, drivers, row scanning and error translation; Redis commands and their transport; HTTP routing, handlers, cookies, cross-origin rules, bot checks.
- JSON: a payload is an object naming a booking, another object, or not an object.
- argon2, SHA-256 and HMAC are functions given from outside; randomness and id minting give fresh values and do not fail.
- Reads that only list and sort (worklists, a parent's bookings, one booking, one class), and statuses outside the six.
- Event ids in the audit trail.
- Metrics, logging, redaction, telemetry and the fault registry; faults are a choice at the two confirm points and at the provider.
- Cancellation, timeouts, the endless poll loop, configuration, start-up and wiring.
- Log in, log out and the denylist; a sign in is a fresh family issued to the page at once.
- A deadlock analysis of the token rows; the one of the seat rows is `SeatTransactions.NoDeadlock`.
- Screens, countdowns and the frontend's own types.
