# Verified model of the order pipeline

This project models an order and inventory service: an API that accepts orders, workers that
reserve stock for them, a message broker with a retry queue and a dead-letter queue, a read store
fed by snapshots, a token-bucket rate limiter and rotating refresh tokens. It proves what every
run of that system keeps, and it shows by explicit runs what it does not keep.

`dafny verify dfyconfig.toml` verifies everything.

## How the model is built

The service code has two kinds of behaviour, and the model has both.

* **Sequential code, in its own form.** `Orders.Order`, `Repositories.Database`,
  `Messaging.Broker`, `TokenBucket.Redis` and `RefreshTokens.AuthService` are classes whose
  methods update their fields. The loops of `processOrder`, `save`, `findById` and the create
  command are loops. Each method states its whole effect, outright or by a function
  (`Processing.Process`, `TokenBucket.Touch`, `RefreshTokens.Refresh`) whose meaning is then proved
  in other terms.
* **Interleaved code, as a transition system.** In `Protocol`, each SQL statement, publish,
  acknowledgement, exception and crash is one step. There are any number of workers, API calls
  and sync workers. A run is a sequence of steps. A theorem about runs starts at an `Init` state
  and holds after any `Legal` sequence of steps.

`ProtocolRefinement` joins the two: every uninterrupted call of the sequential code is a run of
the transition system with the same tables, messages and outcome.

| files | content |
|---|---|
| `Sums`, `Listing`, `Wrappers` | sums over sequences, lists as text, `Option`, `Result` |
| `Money`, `Orders`, `Tables` | money, the order aggregate, the tables and the effect of each statement |
| `Repositories`, `Messaging`, `CreateOrder` | the repositories, publishers and handlers as methods |
| `Processing`, `SerialWorker` | what one attempt does, and what a serial worker does |
| `RetryPolicy` | backoff decisions and the head-expiring retry queue |
| `Protocol` | the transition system |
| `ProtocolState`, `ProtocolStock`, `ProtocolConservation`, `ProtocolAttempts`, `ProtocolDelivery`, `ProtocolTermination`, `ProtocolReadModel`, `ProtocolOutOfTurn` | properties of all its runs |
| `ProtocolLosses`, `ProtocolRetries` | runs that lose stock; a run that uses up every retry |
| `ProtocolTally`, `ProtocolRefinement` | weighing message copies; the link to the sequential code |
| `TokenBucket` | the rate limiter |
| `RefreshTokens` | refresh-token rotation |

Modelling choices:

* An order's number is its place in the table. It stands for a fresh UUID. A negative number in an
  event is an id that no order ever has.
* Line rows come back in any order: every statement about an attempt holds for every arrangement.
* A publish and the acknowledgement after it use one channel, so the broker sees them in that
  order (section 4.7 of AMQP 0-9-1), possibly with a crash in between.
* The broker may deliver any queued message and expire any retry copy. That covers every real
  order of delivery. `DelayQueue` adds the timing of the real queue, which expires at its head.
* `Inject` puts a further copy of any event, or a malformed message, into the main queue at any time.
  `Throw` is any exception between two statements, `Crash` the death of a worker process.
* Time (`at`, `now`), password checks and reachability of a store or of the broker are parameters. Floating-point
  rounding is any rounding within the bound of section 4.3 of IEEE 754-2019.
* `entered`, `requeued`, `delivered`, `leaks`, `commits` and `announced` in `Protocol.State` record
  history. No step reads them.

## What does not hold

The code and its documentation promise some things that are false. For each, the model keeps the
code as it is, shows a run, and states when the promise does hold.

* *A rejection leaves inventory untouched* (`tests/orderEvents.test.js:145-161`). It does within
  one attempt. But an order that repeats a SKU can take part of its stock, throw, and be rejected
  on the retry because of what it took itself: `RejectedOrderCanKeepStock`. One attempt conserves
  stock iff every SKU's sum fits or a single line is short: `AttemptConservesIff`. Some stock level
  makes an order fail halfway iff it repeats a SKU: `DistinctSkusNeverThrow`,
  `RepeatedSkuCanThrow`. Over whole runs, with any number of workers, no unit goes missing iff no
  attempt that has taken stock crashes, throws, is refused a further line or loses the race for its
  order: `StockKeptIff`. A crash before the commit, for instance, makes the repeated attempt take
  the stock again: `InterruptionTakesTwice`. A single worker that is not interrupted while it reserves loses nothing iff
  every order it goes on to reserve fits as a whole, `OneWorkerStockIff`, which orders without a
  repeated SKU always do: `DistinctOrdersLoseNothing`.
* *A second delivery is a no-op* (`services/OrderProcessingService.js:8-14`). For a worker that
  nothing runs beside, a delivery changes nothing iff its order is unknown or no longer pending
  (`NoOpIff`), and repeating a delivery changes nothing iff at the first one every SKU's sum fitted
  or a single line was short (`RepeatIsNoOpIff`): an order that failed halfway is attempted anew.
  A duplicate taken up while the first copy is being processed decrements all the stock once more:
  `ConcurrentDuplicateTakesTwice`.
* *Out-of-order snapshots are harmless* (`README.md:203`). The last snapshot applied wins: in every
  run the document of a finished order agrees iff the snapshot applied last was not a pending one,
  `AgreesIffLastApplied`. Two things let a pending one come last. The API publishes its pending
  snapshot after the event, so the final one can be published first: `ReadStoreCanStayBehind` is a
  run without any failure, its snapshots applied in turn, after which the document says pending for
  ever. And the sync worker puts back what it cannot write: in `PutBackSnapshotWins` the pending
  snapshot is published first, put back once, and overtaken. If snapshots are applied in turn, one
  at a time and with none put back, only the first can happen: `DrainedAgreesIff`,
  `ReadStoreCatchesUp`. In whatever order they are applied, the store catches up with an order that
  is announced only after its API call has ended and its pending snapshot is out of the way:
  `CatchesUpOutOfTurn`.
* *A retry comes back when its delay is over* (`README.md:163`). A copy waits for longer delays
  queued ahead of it: `ShortDelayCanBeHeldUp`, `OnTimeIff`.
* *An error from order creation means nothing was created.* Once the items are known and countable
  the order is stored, and the call still fails iff the broker cannot be reached for the event or
  for the snapshot, or the lines are in several currencies: `CreateOrder.Handle`. An order whose
  event found no broker (scenario 2 of `RESILIENCE.md`) stays pending, and is never
  attempted, for as long as nobody publishes one for it: `UnpublishedStaysPending`.
* *Reusing a rotated refresh token revokes the token entirely* (`services/AuthService.js:37-44`).
  Reuse changes nothing (`ReuseChangesNothing`), and the token it was exchanged for stays live
  however often it happens: `DescendantSurvivesReuse`.

## Model

| member | source | states |
|---|---|---|
| `ProtocolStock.StockAccounting` | services/OrderProcessingService.js:46-51 | In every reachable state, with any workers, exceptions, crashes and redeliveries: initial stock = available + demand of confirmed orders + held by attempts under way + taken by attempts that ended without a commit. Available is never negative and nothing is oversold |
| `ProtocolStock.CommitConserves` | services/OrderProcessingService.js:50-51 | A commit takes exactly its order's demand out of held: into sold while the order is pending, into lost when another attempt has ended it; stock on the shelf stays |
| `ProtocolConservation.StepLoses` | services/OrderProcessingService.js:46-51 | A step loses stock only if it is a crash, an exception, a refused decrement or a refused commit of an attempt that has taken some, and then exactly what that attempt has taken |
| `ProtocolConservation.StockKeptIff` | services/OrderProcessingService.js:46-51 | Over every run with any number of workers: initial = available + sold + held for every SKU iff no step of the run abandons an attempt that has taken stock |
| `ProtocolConservation.OneWorkerStockIff` | services/OrderProcessingService.js:28-51 | With one worker, not interrupted while it reserves, any API calls, duplicates, retries and sync steps in between: no unit is missing if every order it goes on to reserve fits as a whole, and, whenever it is not reserving, only then |
| `ProtocolConservation.DistinctOrdersLoseNothing` | worker.js:126-131 | For such a worker and orders that name each SKU once, initial = available + sold + held in every reachable state |
| `ProtocolAttempts.LeakBounds` | services/OrderProcessingService.js:46-51 | Per SKU the stock taken lies between the demand of confirmed orders and the sum over orders of attempts times demand |
| `ProtocolAttempts.LeakBoundWithoutCrashes` | worker.js:75-123 | Without crashes and with one event per order, stock taken is at most (maxAttempts + 1) times the demand of all orders |
| `ProtocolAttempts.AttemptBound` | worker/retryPolicy.js:8-14 | Over any run, an order is attempted at most (maxAttempts + 1) times per event published and per crash that put one back |
| `ProtocolRetries.AttemptBoundIsReached` | worker.js:75-123 | The bound is exact: an event whose order does not exist is delivered maxAttempts + 1 times and then dead-lettered with retry count maxAttempts |
| `ProtocolRetries.FailsToTheEnd` | worker.js:82-123 | From retry count r it is delivered maxAttempts - r times more, and nothing else of it is left in any queue |
| `ProtocolDelivery.AtMostOneCommit` | repositories/OrderRepository.js:86-98 | Over any interleaving at most one status update of an order succeeds, version 1 is exactly pending, version 2 exactly confirmed or rejected, and at most one final snapshot is ever published |
| `ProtocolDelivery.NoOrderLost` | worker.js:82-123 | In every reachable state a published order is settled, or a copy of its event is in the main, retry or dead-letter queue or being worked on |
| `ProtocolDelivery.UnpublishedStaysPending` | commands/CreateOrderCommandHandler.js:40-43 | In every reachable state a stored order whose event never entered the queue is pending and has never been delivered to a worker |
| `ProtocolState.FinalStatusIsFinal` | domain/Order.js:72-86 | A confirmed or rejected order keeps its status, reason and version for the rest of any run |
| `ProtocolState.ReadStoreAgrees` | readmodel/OrderReadModelRepository.js:14-21 | Every document in the read store has the stored order's customer; the SKUs, quantities and amounts it shows are those of the stored lines, its total their sum in their currency; and it is pending or has the stored final status and reason |
| `ProtocolState.MixedOrderHasNoDocument` | events/ReadModelSyncPublisher.js:16-20 | An order whose lines are in several currencies never gets a document, in any run |
| `ProtocolState.DocumentAddsUp` | events/ReadModelSyncPublisher.js:20-26 | The total a document shows, read back from its text, is the sum of the line totals it shows |
| `ProtocolState.SnapshotAgrees` | events/ReadModelSyncPublisher.js:16-28 | A snapshot taken from an order in memory agrees with the stored row whatever order its lines were read in, and exists iff the lines share one currency |
| `ProtocolState.RunOk` | services/OrderProcessingService.js:15-55 | All runs keep the system well formed, and a stored order keeps its customer and lines and changes status at most once |
| `ProtocolTermination.ProcessingTerminates` | worker/retryPolicy.js:8-14 | A run of worker and broker steps is never longer than a measure of the state it starts in |
| `ProtocolTermination.NoDeadlock` | worker.js:126-131 | Unless all queues are empty and all workers idle, some worker or broker step is possible |
| `ProtocolTermination.WindsDown` | config/rabbitmq.js:63-80 | From every reachable state processing reaches the state with nothing left to do |
| `ProtocolTermination.QuietOutcome` | worker.js:82-98 | When processing has stopped, each published order is confirmed, rejected or dead-lettered, and initial stock = available + sold + lost |
| `ProtocolOutOfTurn.AgreesIffLastApplied` | readmodel/OrderReadModelRepository.js:14-21 | In every run, snapshots applied in any order and put back at will, an order has a document iff one was applied, and a finished order's document agrees with the write store iff the one applied last was not pending |
| `ProtocolOutOfTurn.PutBackSnapshotWins` | syncWorker.js:37-52 | For every order that fits there is a run in which the final snapshot is published last, the pending one is put back once, and everything drains with the order confirmed and its document pending |
| `ProtocolOutOfTurn.CatchesUpOutOfTurn` | syncWorker.js:37-60 | With any number of sync workers and snapshots put back at will: if an order is announced only when its API call has ended and no snapshot of it is queued or being applied, the drained read store shows its final status and reason |
| `ProtocolReadModel.DrainedAgreesIff` | syncWorker.js:36-53 | Assuming snapshots are applied in turn, one at a time and none put back: once drained, a finished order's document agrees with the write store iff the last snapshot published for it is not the pending one |
| `ProtocolReadModel.ReadStoreCanStayBehind` | commands/CreateOrderCommandHandler.js:42-43 | For every order that fits there is a run without failures, its snapshots applied in turn, that ends with nothing left to do, the order confirmed, and its document pending |
| `ProtocolReadModel.ReadStoreCatchesUp` | services/OrderProcessingService.js:52 | Assuming snapshots are applied in turn: if this order's API call ended before its worker's announcement, and the final snapshot was published, the drained read store shows the final status and reason |
| `ProtocolLosses.RejectedOrderCanKeepStock` | services/OrderProcessingService.js:28-48 | An order of two equal lines, when only one fits, is rejected on its retry and keeps one line's stock, with one worker and no crash |
| `ProtocolLosses.ConcurrentDuplicateTakesTwice` | services/OrderProcessingService.js:36-51 | A duplicate processed at the same time takes the order's stock a second time, though the order is confirmed once |
| `ProtocolLosses.InterruptionTakesTwice` | services/OrderProcessingService.js:46-51 | A crash or an exception between the last decrement and the status update makes the repeated attempt take the order's stock again, with one worker, no duplicate and any order that fits twice |
| `ProtocolRefinement.UninterruptedAttempt` | services/OrderProcessingService.js:15-55 | Every uninterrupted processOrder, whatever its outcome, is a run of one worker of the transition system with the same tables, snapshot and result |
| `ProtocolRefinement.UninterruptedDelivery` | worker.js:50-123 | The same for a whole delivery, with the retry or dead copy and the acknowledgement |
| `ProtocolRefinement.UninterruptedCreation` | commands/CreateOrderCommandHandler.js:39-43 | The same for an API call, up to the first publish that finds no broker: stored row, event with retry count 0, snapshot |
| `Processing.ExactOutcome` | services/OrderProcessingService.js:28-55 | An attempt at a pending order confirms it if every SKU's summed demand fits, rejects it touching no stock if a single line is short, and otherwise throws having taken the longest prefix that fits; these cases exclude each other, no other order changes, and the outcome and snapshot of the ended order are reported unless its lines are in several currencies |
| `Processing.RejectionReason` | services/OrderProcessingService.js:28-43 | The reason in the row, the snapshot and the result of a rejection is "Insufficient stock for: " and then, in line order with ", " between them, the SKU of each line that asks for more than there is, and of no other; SKUs without that separator can be read back from it |
| `Processing.ShortagesInOrder` | services/OrderProcessingService.js:28-34 | The check loop's list has one entry per short line, in line order |
| `Listing.PiecesOfJoin` | services/OrderProcessingService.js:39-39 | Splitting the joined text at ", " gives back the words, if none contains it |
| `Processing.SkippedIff` | services/OrderProcessingService.js:23-26 | An attempt answers skipped, with a status, iff the order is stored with that status and it is not pending |
| `Processing.WhenItFits` | services/OrderProcessingService.js:46-51 | An order that fits is confirmed, at one version more, takes exactly its demand of every SKU, and is reported |
| `Processing.WhenItJustFails` | services/OrderProcessingService.js:46-48 | An order whose lines fit one by one but not together throws, stays pending, publishes nothing, and has taken the longest prefix that fits |
| `Processing.TakeMeaning` | services/OrderProcessingService.js:46-48 | The decrement loop takes exactly the longest prefix of the lines that fits, leaves prices alone and counts its updates in the version |
| `Processing.AttemptConservesIff` | services/OrderProcessingService.js:46-51 | An attempt conserves stock iff every SKU's sum fits or some single line is short |
| `Processing.ReturnsIff` | events/ReadModelSyncPublisher.js:16-20 | An attempt returns normally iff it ends the order and the order's lines are in one currency; a mixed order is committed and then throws |
| `Processing.DistinctSkusNeverThrow` | services/OrderProcessingService.js:29-34 | For an order without a repeated SKU, either all fits or the per-line check finds a short line |
| `Processing.RepeatedSkuCanThrow` | services/OrderProcessingService.js:29-34 | For every order with a repeated SKU some stock passes the per-line check and fails halfway |
| `SerialWorker.NoOpIff` | services/OrderProcessingService.js:23-26 | A delivery leaves both tables as they are iff its order is unknown or not pending |
| `SerialWorker.RepeatIsNoOpIff` | services/OrderProcessingService.js:8-14 | Delivering an order a second time, its rows in any two arrangements, leaves the tables of the first delivery iff the order was not pending, fitted as a whole, or had a line short on its own |
| `SerialWorker.DuplicatesCollapse` | services/OrderProcessingService.js:23-26 | For a serial worker and any events, unknown orders included, if the stock level decides each order that comes again (not pending, all fits, or a line is short), the deliveries leave the tables of the sequence without later duplicates |
| `SerialWorker.FirstOnlyKeeps` | services/OrderProcessingService.js:8-14 | That sequence consists of exactly the first delivery of each order, in their order |
| `SerialWorker.SerialStockIff` | services/OrderProcessingService.js:46-51 | Over any serial delivery sequence available plus sold never grows; it never changes iff the stock level decides every order when delivered, iff no attempt fails for want of stock |
| `SerialWorker.SerialRun` | worker.js:126-131 | In such a sequence every delivered order that is stored is confirmed or rejected at the end |
| `SerialWorker.ServedResult` | services/OrderProcessingService.js:15-21 | A serial delivery throws for want of stock iff the stock level does not decide its order, as not found iff it is unknown, for its currencies only once ended, and never for a lock conflict |
| `SerialWorker.DistinctSkusSettle` | services/OrderProcessingService.js:29-34 | Orders without a repeated SKU meet the condition of both theorems for every stock level and delivery sequence |
| `Messaging.ProcessOrder` | services/OrderProcessingService.js:15-55 | The method with its two loops has exactly the effect of `Process` on tables, snapshots and result |
| `Messaging.StoreAndPublish` | repositories/OrderRepository.js:86-98 | Storing an ended order fails with a lock conflict, changing nothing, iff the order is gone or its version is not the expected one |
| `Messaging.CheckLines` | services/OrderProcessingService.js:28-34 | Collects the SKUs of the short lines in line order |
| `Messaging.ReserveLines` | services/OrderProcessingService.js:46-48 | Decrements until the first failure and keeps what it took |
| `Messaging.HandleMessage` | worker.js:19-73 | One acknowledgement in every case; when processing threw, one retry copy counting one more and delayed by base * 2^count, or, with the attempts used up, one dead copy; nothing else for a malformed message |
| `Messaging.HandleFailure` | worker.js:75-124 | Below maxAttempts appends the event with its count plus one and the delay base * 2^count to the retry queue, otherwise the event with its count to the dead-letter queue; acknowledges the original |
| `Messaging.HandleSnapshot` | syncWorker.js:36-53 | Writes the document and acknowledges, or puts the snapshot back |
| `Messaging.Broker.PublishOrderCreated` | events/OrderEventPublisher.js:7-28 | Appends the order's event with retry count 0 to the main queue iff the broker can be reached |
| `Messaging.Broker.PublishOrderSnapshot` | events/ReadModelSyncPublisher.js:13-35 | Appends the order's snapshot to the sync queue, or nothing when the broker cannot be reached or its total throws |
| `Tables.SnapshotShows` | events/ReadModelSyncPublisher.js:16-28 | A snapshot has the order's id, customer, status and reason, one line per line with its SKU, quantity and price times quantity in its currency, and a total that reads as the sum of price times quantity in the lines' currency |
| `CreateOrder.Handle` | commands/CreateOrderCommandHandler.js:24-46 | Nothing is stored or published iff there are no items or some item is unknown or of no positive quantity, and the error is that of the first such item; otherwise the order is stored with one line per item, its SKU and quantity as requested and its price exactly the inventory's, whatever follows; its event is published iff the broker can be reached, and the call succeeds, with the snapshot published, iff both publishes reach the broker and the lines share one currency |
| `CreateOrder.AssembleOrder` | commands/CreateOrderCommandHandler.js:25-37 | A draft with one line per item as requested, or the error of the first item that cannot be ordered |
| `Repositories.Database.FindById` | repositories/OrderRepository.js:11-40 | Rebuilds the stored order with its lines in some order, or null |
| `Repositories.Database.Save` | repositories/OrderRepository.js:48-77 | Appends the order with the lines that INSERT IGNORE accepts |
| `Repositories.FreshLinesAreInserted` | repositories/OrderRepository.js:60-67 | With unused line ids, INSERT IGNORE skips nothing |
| `Repositories.InsertIgnoreKeeps` | repositories/OrderRepository.js:60-67 | INSERT IGNORE keeps exactly the lines whose id is neither in use nor that of an earlier line, in their order |
| `Repositories.SavedLines` | repositories/OrderRepository.js:60-67 | Of a saved order's lines exactly those are stored whose id no stored line and no earlier line of the order has |
| `Repositories.Database.UpdateStatus` | repositories/OrderRepository.js:86-98 | Changes status, reason and version, the version by one, iff the order exists with the expected version |
| `Repositories.Database.FindBySku` | repositories/InventoryRepository.js:8-19 | The stored item with its price in rounded dollars, or nothing |
| `Repositories.Database.DecrementStock` | repositories/InventoryRepository.js:27-37 | Takes the quantity, and counts the item's version, iff that much is available; touches no price and no other item |
| `Repositories.ReadStore.Upsert` | readmodel/OrderReadModelRepository.js:14-21 | Replaces the order's whole document and no other |
| `MoneyValues.PriceSurvivesDollars` | domain/valueObjects/Money.js:15-17 | Cents divided by 100, multiplied by 100 and rounded are the same cents, for any rounding within the binary64 bound and all prices of up to 2^50 cents |
| `MoneyValues.ToStringInjective` | domain/valueObjects/Money.js:32-34 | Two amounts rendered alike are the same amount in the same currency |
| `MoneyValues.AmountRoundTrip` | domain/valueObjects/Money.js:32-34 | Reading a rendered amount back gives its cents, sign included |
| `MoneyValues.RenderedForm` | domain/valueObjects/Money.js:32-34 | The text is a sign below zero, whole units without leading zeros, a point, two digits of cents, a space and the currency |
| `MoneyValues.RoundIsNearest` | domain/valueObjects/Money.js:15-17 | Rounding gives the nearest integer, ties going up |
| `Orders.TotalMeaning` | domain/Order.js:95-100 | The total exists iff all lines share one non-empty currency, and is then the sum of price times quantity in that currency, in USD without lines |
| `Orders.MixedTotal` | domain/Order.js:95-100 | Otherwise it fails at the first line not in the first line's currency (USD for an empty one) and names the two |
| `Orders.TotalIgnoresRowOrder` | repositories/OrderRepository.js:15-39 | Lines read back in any order give the same total, or fail alike |
| `Orders.Order.AddLineItem` | domain/Order.js:53-58 | Adds a line of positive quantity, to a draft only |
| `Orders.Order.Submit` | domain/Order.js:61-69 | A non-empty draft becomes pending |
| `Orders.Order.Confirm` | domain/Order.js:72-77 | Only a pending order is confirmed |
| `Orders.Order.Reject` | domain/Order.js:80-86 | Only a pending order is rejected, with its reason |
| `Orders.Order.Cancel` | domain/Order.js:88-93 | Any order but a confirmed one is cancelled |
| `RetryPolicy.AlwaysFailing` | worker/retryPolicy.js:8-14 | A message that always fails is retried exactly maxAttempts times, first after the base delay and then each time after twice the delay before, base * (2^maxAttempts - 1) in all |
| `DelayQueue.ReleaseIsLatestDue` | config/rabbitmq.js:10-16 | A copy leaves the retry queue exactly when the last of the copies up to itself falls due |
| `DelayQueue.WaitBound` | worker.js:105-115 | No copy returns before its own delay or waits longer than base * 2^(maxAttempts - 1) |
| `DelayQueue.OnTimeIff` | config/rabbitmq.js:10-16 | A copy returns on time iff nothing queued before it falls due later |
| `DelayQueue.ShortDelayCanBeHeldUp` | config/rabbitmq.js:10-16 | A queue in which a copy returns after its delay is over |
| `TokenBucket.LevelIsLeastAllowance` | middleware/rateLimiter.js:25-42 | Before a request the bucket's level is the least, over all windows ending there, of capacity plus gain minus requests admitted |
| `TokenBucket.AdmitsIff` | middleware/rateLimiter.js:38-42 | A request is refused exactly when admitting it would break the bound of some window |
| `TokenBucket.AdmitsIffWithin` | middleware/rateLimiter.js:34-42 | A request is admitted iff in every window it ends the requests admitted, itself included, are at most capacity + rate * ms / 1000, with ms the time the clock stepped forward and steps back counting for nothing |
| `TokenBucket.AdmitsIffSteadyClock` | middleware/rateLimiter.js:34-42 | For a clock that never goes back ms is the difference of the two readings |
| `TokenBucket.BucketRefinesFullHistory` | middleware/rateLimiter.js:25-44 | The two stored numbers make the same decisions as a limiter that remembers every request |
| `TokenBucket.WindowBound` | middleware/rateLimiter.js:34-42 | For any clock, requests admitted in a window are at most capacity + rate * ms / 1000 with ms the time the clock stepped forward in it |
| `TokenBucket.WindowBoundSteadyClock` | middleware/rateLimiter.js:34-42 | For a clock that never goes back this is capacity + rate * (t_j - t_i) / 1000 |
| `TokenBucket.LevelBounds` | middleware/rateLimiter.js:36-41 | The level always lies between 0 and the capacity |
| `TokenBucket.GreedyIsOptimal` | middleware/rateLimiter.js:34-42 | At every prefix no other way of spending the same bucket has admitted more requests |
| `TokenBucket.GreedyIsAffordable` | middleware/rateLimiter.js:38-42 | The limiter's own decisions are one way of spending the bucket: it never spends a token that is not there |
| `TokenBucket.ExpiryIsInvisible` | middleware/rateLimiter.js:45-47 | Keys dropped after their time to live change no decision, level or stored hash, even if the Redis and app clocks drift apart by 60 seconds between two requests |
| `TokenBucket.TimeToLiveBounds` | middleware/rateLimiter.js:45-47 | The time to live is between 60 and 61 seconds more than what fills an empty bucket |
| `TokenBucket.CallersAreIndependent` | middleware/rateLimiter.js:63-65 | However requests interleave, each caller's bucket is that of its own requests alone |
| `TokenBucket.Redis.Eval` | middleware/rateLimiter.js:18-50 | The script computes the decision and the hash of `Touch` and changes no other key |
| `TokenBucket.Limit` | middleware/rateLimiter.js:63-101 | Passes or refuses as the script decides when its answer arrives, passes everything otherwise, and charges the caller's bucket, and no other, whenever the script ran |
| `RefreshTokens.RefreshLineages` | services/AuthService.js:45-70 | Over every serial run a token is exchanged at most once, each login has at most one unrevoked descendant, unrevoked tokens never outnumber logins, and revocation is never undone |
| `RefreshTokens.ReuseChangesNothing` | services/AuthService.js:52-52 | Any number of refreshes with a revoked token leaves the service as it was |
| `RefreshTokens.DescendantSurvivesReuse` | services/AuthService.js:37-61 | After a token is exchanged, presenting it again any number of times revokes nothing: the new token is still stored, live, of the same user and login |
| `RefreshTokens.AuthService.RefreshToken` | services/AuthService.js:45-61 | No token, an unknown, a revoked and an expired one are refused in that order with the table unchanged; otherwise the token is revoked and, if the user still exists, one new live token of the same user and login is stored |
| `RefreshTokens.AuthService.Issue` | services/AuthService.js:72-83 | Stores one new unrevoked token |
| `RefreshTokens.AuthService.Login` | services/AuthService.js:26-35 | A valid password stores one new token, an invalid one changes nothing |
| `RefreshTokens.AuthService.LogoutToken` | services/AuthService.js:63-70 | Revokes a known live token and changes nothing else |
| `RefreshTokens.LogoutIsFinal` | services/AuthService.js:63-70 | A token logged out is revoked, and no later call revives it or exchanges it |

## Left out

- HTTP wiring, controllers, OpenAPI and health checks: plumbing around the handlers.
- Query handlers: they read documents by id or the newest of them, and change nothing.
- Tracing and logging: they do not change state; of the message headers only the retry count is kept.
- Connections and reconnects: a broker or store that fails shows as an exception or a crash.
- lastError in dead-lettered events: text for operators that nothing reads.
- JWT signing, bcrypt, SHA-256: tokens are distinct values and the hash is injective on them.
- Concurrent refresh calls: each call is one step; two at once could both pass the revoked check.
- register and revokeAllForUser: the first is one-branch checks, the second is never called.
- Non-integer quantities, column lengths and amounts beyond 2^53: quantities and cents are integers without bound.
- INSERT IGNORE downgrading other errors to warnings: only duplicate keys are modelled.
- seed.js and CANCELLED orders: nothing in the pipeline resets stock or cancels.
- Redis number formatting: the stored token count is a real number.
- `Messaging.ProcessOrder`: covers a call that nothing interrupts and no store fails; exceptions and crashes between statements are in the transition system.
- `Messaging.HandleMessage`: covers a delivery that no crash and no exception between statements cuts short; those are in the transition system.
- `DelayQueue.WaitBound`: assumes a broker that removes a due head at once; later removal only adds to the wait.
