/** The broker's queues as one process sees them, the publishers, and the handlers of the two
    worker processes. */
module Messaging {
  import opened Wrappers
  import opened Orders
  import opened Tables
  import opened Processing
  import opened Repositories
  import opened Protocol
  import RetryPolicy

  /** A retry copy with its per-message time to live. */
  datatype Delayed = Delayed(event: Event, expirationMs: int)

  class Broker {
    var main: seq<Msg>
    var retry: seq<Delayed>
    var dead: seq<Dead>
    var sync: seq<Snapshot>
    var unacked: multiset<Msg>              // delivered to the order worker
    var unackedSync: multiset<Snapshot>     // delivered to the sync worker

    method Ack(msg: Msg)
      requires msg in unacked
      modifies this`unacked
      ensures unacked == old(unacked) - multiset{msg}
    {
      unacked := unacked - multiset{msg};
    }

    /** Throws, with nothing published, while no channel to the broker can be opened. */
    method PublishOrderCreated(order: nat, reachable: bool) returns (ok: bool)
      modifies this`main
      ensures ok == reachable
      ensures main == if reachable then old(main) + [Created(Event(order, 0))] else old(main)
    {
      ok := reachable;
      if reachable {
        main := main + [Created(Event(order, 0))];
      }
    }

    /** Throws, with nothing published, while there is no channel or when the order's total does. */
    method PublishOrderSnapshot(order: Order, at: int, reachable: bool) returns (published: Option<Snapshot>)
      modifies this`sync
      ensures published == if reachable then TakeSnapshot(order.id, order.Data(), at) else None
      ensures sync == if published.Some? then old(sync) + [published.value] else old(sync)
    {
      if !reachable {
        return None;
      }
      published := TakeSnapshot(order.id, OrderData(order.customer, order.lineItems, order.status, order.version,
                                                    order.rejectionReason), at);
      if published.Some? {
        sync := sync + [published.value];
      }
    }
  }

  function Published(snapshot: Option<Snapshot>): seq<Snapshot> {
    if snapshot.Some? then [snapshot.value] else []
  }

  // ---------- OrderProcessingService ----------

  /** The first loop: which lines are short. */
  method CheckLines(db: Database, lines: seq<Line>) returns (shortages: seq<Sku>)
    ensures shortages == Shortages(db.inventory, lines, |lines|)
  {
    shortages := [];
    for i := 0 to |lines|
      invariant shortages == Shortages(db.inventory, lines, i)
    {
      var item := db.FindBySku(lines[i].sku);
      if item.None? || item.value.quantity < lines[i].quantity {
        shortages := shortages + [lines[i].sku];
      }
    }
  }

  /** The second loop: stops at the first line that cannot be decremented, and leaves what it
      has taken. */
  method ReserveLines(db: Database, lines: seq<Line>) returns (taken: nat)
    modifies db`inventory
    ensures (db.inventory, taken) == Take(old(db.inventory), lines, |lines|)
  {
    taken := 0;
    while taken < |lines|
      invariant taken <= |lines|
      invariant (db.inventory, taken) == Take(old(db.inventory), lines, taken)
    {
      var ok := db.DecrementStock(lines[taken].sku, lines[taken].quantity);
      if !ok {
        TakeStaysPut(old(db.inventory), lines, taken, |lines|);
        return;
      }
      taken := taken + 1;
    }
  }

  /** After a failed decrement no later line is tried. */
  lemma {:induction false} TakeStaysPut(inventory: Inventory, lines: seq<Line>, k: nat, n: nat)
    requires k < n <= |lines| && Take(inventory, lines, k).1 == k
    requires Decrement(Take(inventory, lines, k).0, lines[k].sku, lines[k].quantity) == None
    ensures Take(inventory, lines, n) == Take(inventory, lines, k)
    decreases n - k
  {
    if k + 1 < n { TakeStaysPut(inventory, lines, k, n - 1); }
  }

  /** Stores the status of an order just confirmed or rejected, then publishes its snapshot. */
  method StoreAndPublish(db: Database, broker: Broker, order: Order, expectedVersion: int, outcome: Outcome, at: int)
    returns (result: Result<Outcome, Error>)
    requires expectedVersion == order.version
    modifies db`rows, broker`sync
    ensures var p := Finish(old(db.rows), db.inventory, order.id, order.Data(), outcome, at);
            db.rows == p.rows && result == p.result && broker.sync == old(broker.sync) + Published(p.published)
    ensures result == Failure(LockConflict) <==>
              !Stored(old(db.rows), order.id) || old(db.rows)[order.id].version != expectedVersion
    ensures result == Failure(LockConflict) ==> db.rows == old(db.rows) && broker.sync == old(broker.sync)
    ensures result.Success? ==> result.value == outcome && |broker.sync| == |old(broker.sync)| + 1
  {
    var reason := if order.status == Rejected then order.rejectionReason else None;
    var ok := db.UpdateStatus(order.id, order.status, expectedVersion, reason);
    if !ok {
      return Failure(LockConflict);
    }
    var published := broker.PublishOrderSnapshot(order, at, true);
    result := if published.Some? then Success(outcome) else Failure(CurrencyMismatch);
  }

  /** processOrder, with nothing else touching the tables meanwhile: its effect is that of
      Process on the order in which the line rows came back. */
  method ProcessOrder(db: Database, broker: Broker, orderId: int, at: int)
    returns (result: Result<Outcome, Error>, ghost lines: seq<Line>)
    modifies db, broker`sync
    ensures Stored(old(db.rows), orderId) ==> multiset(lines) == multiset(old(db.rows)[orderId].lines)
    ensures var p := Process(old(db.rows), old(db.inventory), orderId, lines, at);
            && db.rows == p.rows && db.inventory == p.inventory && result == p.result
            && broker.sync == old(broker.sync) + Published(p.published)
  {
    var order := db.FindById(orderId);
    if order == null {
      return Failure(NotFound), [];
    }
    lines := order.lineItems;
    if order.status != Pending {
      return Success(SkippedAs(order.status)), lines;
    }
    var shortages := CheckLines(db, order.lineItems);
    var expectedVersion := order.version;
    if |shortages| > 0 {
      var reason := ShortageReason(shortages);
      var rejected := order.Reject(reason);
      result := StoreAndPublish(db, broker, order, expectedVersion, RejectedFor(reason), at);
      return result, lines;
    }
    var taken := ReserveLines(db, order.lineItems);
    if taken < |order.lineItems| {
      return Failure(CouldNotReserve(order.lineItems[taken].sku)), lines;
    }
    var confirmed := order.Confirm();
    result := StoreAndPublish(db, broker, order, expectedVersion, ConfirmedNow, at);
  }

  // ---------- worker.js ----------

  datatype RetrySettings = RetrySettings(maxAttempts: nat, baseDelayMs: int)

  /** The copy is published before the original is acknowledged: a retry copy that counts one
      more and waits twice as long each time, until the attempts are used up. */
  method HandleFailure(broker: Broker, c: RetrySettings, e: Event)
    requires Created(e) in broker.unacked
    modifies broker`retry, broker`dead, broker`unacked
    ensures broker.unacked == old(broker.unacked) - multiset{Created(e)}
    ensures if e.retries < c.maxAttempts then
              && broker.retry == old(broker.retry) +
                   [Delayed(Event(e.order, e.retries + 1), c.baseDelayMs * RetryPolicy.Pow2(e.retries))]
              && broker.dead == old(broker.dead)
            else
              && broker.retry == old(broker.retry)
              && broker.dead == old(broker.dead) + [Dead(e.order, e.retries)]
  {
    match RetryPolicy.DecideRetry(e.retries, c.maxAttempts, c.baseDelayMs) {
      case DeadLetter =>
        broker.dead := broker.dead + [Dead(e.order, e.retries)];
        broker.Ack(Created(e));
      case Retry(next, delay) =>
        broker.retry := broker.retry + [Delayed(Event(e.order, next), delay)];
        broker.Ack(Created(e));
    }
  }

  /** One delivery, uninterrupted: the tables and the snapshot of processOrder, a retry or dead
      copy exactly when it threw, and one acknowledgement in every case. */
  method HandleMessage(db: Database, broker: Broker, c: RetrySettings, msg: Msg, at: int)
    returns (ghost lines: seq<Line>)
    requires msg in broker.unacked
    modifies db, broker`sync, broker`retry, broker`dead, broker`unacked
    ensures broker.unacked == old(broker.unacked) - multiset{msg}
    ensures msg.Malformed? ==>
              && db.rows == old(db.rows) && db.inventory == old(db.inventory) && broker.sync == old(broker.sync)
              && broker.retry == old(broker.retry) && broker.dead == old(broker.dead)
    ensures msg.Created? && Stored(old(db.rows), msg.event.order) ==>
              multiset(lines) == multiset(old(db.rows)[msg.event.order].lines)
    ensures msg.Created? ==>
              var p := Process(old(db.rows), old(db.inventory), msg.event.order, lines, at);
              && db.rows == p.rows && db.inventory == p.inventory
              && broker.sync == old(broker.sync) + Published(p.published)
              && (p.result.Success? ==> broker.retry == old(broker.retry) && broker.dead == old(broker.dead))
              && (p.result.Failure? && msg.event.retries < c.maxAttempts ==>
                    && broker.retry == old(broker.retry) +
                         [Delayed(Event(msg.event.order, msg.event.retries + 1),
                                  c.baseDelayMs * RetryPolicy.Pow2(msg.event.retries))]
                    && broker.dead == old(broker.dead))
              && (p.result.Failure? && msg.event.retries >= c.maxAttempts ==>
                    && broker.retry == old(broker.retry)
                    && broker.dead == old(broker.dead) + [Dead(msg.event.order, msg.event.retries)])
  {
    lines := [];
    if msg.Malformed? {
      broker.Ack(msg);
      return;
    }
    var result;
    result, lines := ProcessOrder(db, broker, msg.event.order, at);
    if result.Success? {
      broker.Ack(msg);
    } else {
      HandleFailure(broker, c, msg.event);
    }
  }

  // ---------- syncWorker.js ----------

  /** A snapshot is acknowledged once it is in the read store, and put back when the read store
      cannot be written. */
  method HandleSnapshot(store: ReadStore, broker: Broker, snapshot: Snapshot, writable: bool)
    requires snapshot in broker.unackedSync
    modifies store, broker`sync, broker`unackedSync
    ensures broker.unackedSync == old(broker.unackedSync) - multiset{snapshot}
    ensures if writable
            then store.docs == old(store.docs)[snapshot.order := snapshot] && broker.sync == old(broker.sync)
            else store.docs == old(store.docs) && broker.sync == old(broker.sync) + [snapshot]
  {
    if writable {
      store.Upsert(snapshot);
    } else {
      broker.sync := broker.sync + [snapshot];
    }
    broker.unackedSync := broker.unackedSync - multiset{snapshot};
  }
}
