/** The order pipeline as a transition system: API calls, any number of workers, the broker's
    queues and the sync workers, interleaved one statement, publish or acknowledgement at a
    time, with exceptions and crashes between any two of them. */
module Protocol {
  import opened Wrappers
  import opened Orders
  import opened Tables
  import opened Sums
  import RetryPolicy

  /** The event in a message and its x-retry-count header. A negative order number is an id
      that belongs to no order, now or later. */
  datatype Event = Event(order: int, retries: nat)

  datatype Msg = Malformed | Created(event: Event)

  datatype Dead = Dead(order: int, failedAttempts: nat)

  /** Where one worker stands with the message it holds unacknowledged. */
  datatype Worker =
    | Idle
    | Delivered(msg: Msg)                                                          // nothing read yet
    | RowRead(event: Event, order: OrderData)                                      // pending, lines not read
    | Checking(event: Event, order: OrderData, next: nat, shortages: seq<Sku>)     // lines before next checked
    | Reserving(event: Event, order: OrderData, next: nat)                         // lines before next taken
    | Announcing(event: Event, order: OrderData)                                   // status stored
    | Done(msg: Msg)                                                               // ready to acknowledge
    | Failed(event: Event)                                                         // exception caught
    | Handed(event: Event)                                                         // retry or dead copy published

  /** Where the API call that saved an order stands. */
  datatype Api = NeedsEvent | NeedsSnapshot | Finished

  datatype Upsert = Taken(snapshot: Snapshot) | Applied(snapshot: Snapshot)

  /** An attempt that ended without a commit after taking stock for its first lines. */
  datatype Leak = Leak(order: int, lines: seq<Line>, taken: nat)

  datatype Config = Config(maxAttempts: nat, baseDelayMs: int, initial: Inventory)

  datatype State = State(
    config: Config,
    rows: Rows,
    inventory: Inventory,
    apis: seq<Api>,               // one per stored order
    main: seq<Msg>,
    retry: seq<Event>,
    dead: seq<Dead>,
    workers: seq<Worker>,
    sync: seq<Snapshot>,
    syncing: seq<Upsert>,         // snapshots delivered to sync workers, unacknowledged
    docs: map<int, Snapshot>,     // the read store
    // what has happened so far
    entered: seq<int>,            // order of every event put into the main queue by a publisher
    requeued: seq<int>,           // order of every event put back after a worker crash
    delivered: seq<int>,          // order of every event delivered to a worker
    leaks: seq<Leak>,
    commits: seq<int>,            // order of every successful status update
    announced: seq<Snapshot>)     // every snapshot ever published

  datatype Action =
    | Read | ReadLines(lines: seq<Line>) | Check | Decide | Reserve | Commit | Announce(at: int) | Ack
    | Throw | HandOver

  datatype Step =
    | Save(customer: string, lines: seq<Line>)
    | PublishEvent(order: nat)
    | PublishPending(order: nat, at: int)
    | ApiDies(order: nat)
    | Inject(msg: Msg)
    | Expire(i: nat)
    | Deliver(w: nat, i: nat)
    | Act(w: nat, action: Action)
    | Crash(w: nat)
    | SyncDeliver(i: nat)
    | SyncUpsert(j: nat)
    | SyncAck(j: nat)
    | SyncRequeue(j: nat)

  predicate Init(s: State) {
    && s.rows == [] && s.apis == []
    && s.inventory == s.config.initial
    && (forall sku :: sku in s.inventory ==> s.inventory[sku].quantity >= 0)
    && s.main == [] && s.retry == [] && s.dead == []
    && (forall w :: w in s.workers ==> w.Idle?)
    && s.sync == [] && s.syncing == [] && s.docs == map[]
    && s.entered == [] && s.requeued == [] && s.delivered == []
    && s.leaks == [] && s.commits == [] && s.announced == []
  }

  function Held(w: Worker): Msg
    requires !w.Idle?
  {
    if w.Delivered? || w.Done? then w.msg else Created(w.event)
  }

  function OrderOf(m: Msg): seq<int> {
    if m.Malformed? then [] else [m.event.order]
  }

  // ---------- one worker ----------

  predicate CanAct(s: State, w: nat, a: Action) {
    w < |s.workers| &&
    var p := s.workers[w];
    match a
    case Read => p.Delivered?
    case ReadLines(lines) =>
      p.RowRead? && Stored(s.rows, p.event.order) && multiset(lines) == multiset(s.rows[p.event.order].lines)
    case Check => p.Checking? && p.next < |p.order.lines|
    case Decide => p.Checking? && p.next == |p.order.lines|
    case Reserve => p.Reserving? && p.next < |p.order.lines|
    case Commit => p.Reserving? && p.next == |p.order.lines|
    case Announce(_) => p.Announcing?
    case Ack => p.Done? || p.Handed?
    case Throw =>
      (p.Delivered? && p.msg.Created?) || p.RowRead? || p.Checking? || p.Reserving? || p.Announcing?
    case HandOver => p.Failed?
  }

  function Goto(s: State, w: nat, p: Worker): State
    requires w < |s.workers|
  {
    s.(workers := s.workers[w := p])
  }

  /** The stock an attempt has taken is left taken when the attempt ends without a commit. */
  function LeaksAfter(s: State, w: nat): seq<Leak>
    requires w < |s.workers|
  {
    var p := s.workers[w];
    if p.Reserving? then s.leaks + [Leak(p.event.order, p.order.lines, p.next)] else s.leaks
  }

  /** An exception: handleMessage's catch block takes over. */
  function Fail(s: State, w: nat): State
    requires w < |s.workers| && !s.workers[w].Idle? && Held(s.workers[w]).Created?
  {
    Goto(s, w, Failed(Held(s.workers[w]).event)).(leaks := LeaksAfter(s, w))
  }

  /** updateStatus, then on to the snapshot; or the optimistic-lock exception. */
  function Store(s: State, w: nat, order: OrderData): State
    requires w < |s.workers| && (s.workers[w].Checking? || s.workers[w].Reserving?)
  {
    var e := s.workers[w].event;
    match UpdateStatus(s.rows, e.order, order.status, order.version, ReasonToStore(order))
    case Some(rows) => Goto(s, w, Announcing(e, order)).(rows := rows, commits := s.commits + [e.order])
    case None => Fail(s, w)
  }

  function DoRead(s: State, w: nat): State
    requires CanAct(s, w, Read)
  {
    var msg := s.workers[w].msg;
    if msg.Malformed? then Goto(s, w, Done(msg))
    else if !Stored(s.rows, msg.event.order) then Fail(s, w)
    else if s.rows[msg.event.order].status != Pending then Goto(s, w, Done(msg))
    else Goto(s, w, RowRead(msg.event, s.rows[msg.event.order].(lines := [])))
  }

  function DoCheck(s: State, w: nat): State
    requires CanAct(s, w, Check)
  {
    var p := s.workers[w];
    var line := p.order.lines[p.next];
    var shortages := if Short(s.inventory, line) then p.shortages + [line.sku] else p.shortages;
    Goto(s, w, Checking(p.event, p.order, p.next + 1, shortages))
  }

  function DoDecide(s: State, w: nat): State
    requires CanAct(s, w, Decide)
  {
    var p := s.workers[w];
    if p.shortages == [] then Goto(s, w, Reserving(p.event, p.order, 0))
    else Store(s, w, Reject(p.order, p.shortages))
  }

  function DoReserve(s: State, w: nat): State
    requires CanAct(s, w, Reserve)
  {
    var p := s.workers[w];
    var line := p.order.lines[p.next];
    match Decrement(s.inventory, line.sku, line.quantity)
    case Some(inventory) => Goto(s, w, Reserving(p.event, p.order, p.next + 1)).(inventory := inventory)
    case None => Fail(s, w)
  }

  function DoAnnounce(s: State, w: nat, at: int): State
    requires CanAct(s, w, Announce(at))
  {
    var p := s.workers[w];
    match TakeSnapshot(p.event.order, p.order, at)
    case Some(snapshot) =>
      Goto(s, w, Done(Created(p.event))).(sync := s.sync + [snapshot], announced := s.announced + [snapshot])
    case None => Fail(s, w)
  }

  function DoHandOver(s: State, w: nat): State
    requires CanAct(s, w, HandOver)
  {
    var e := s.workers[w].event;
    match RetryPolicy.DecideRetry(e.retries, s.config.maxAttempts, s.config.baseDelayMs)
    case DeadLetter => Goto(s, w, Handed(e)).(dead := s.dead + [Dead(e.order, e.retries)])
    case Retry(next, _) => Goto(s, w, Handed(e)).(retry := s.retry + [Event(e.order, next)])
  }

  function DoAct(s: State, w: nat, a: Action): State
    requires CanAct(s, w, a)
  {
    match a
    case Read => DoRead(s, w)
    case ReadLines(lines) =>
      Goto(s, w, Checking(s.workers[w].event, s.workers[w].order.(lines := lines), 0, []))
    case Check => DoCheck(s, w)
    case Decide => DoDecide(s, w)
    case Reserve => DoReserve(s, w)
    case Commit => Store(s, w, Confirm(s.workers[w].order))
    case Announce(at) => DoAnnounce(s, w, at)
    case Ack => Goto(s, w, Idle)
    case Throw => Fail(s, w)
    case HandOver => DoHandOver(s, w)
  }

  // ---------- the whole system ----------

  predicate Enabled(s: State, step: Step) {
    match step
    case Save(_, lines) => ValidLines(lines)
    case PublishEvent(o) => o < |s.apis| && s.apis[o] == NeedsEvent
    case PublishPending(o, _) => o < |s.apis| && o < |s.rows| && s.apis[o] == NeedsSnapshot
    case ApiDies(o) => o < |s.apis| && s.apis[o] != Finished
    case Inject(msg) => msg.Created? ==> msg.event.order < |s.rows|
    case Expire(i) => i < |s.retry|
    case Deliver(w, i) => w < |s.workers| && s.workers[w] == Idle && i < |s.main|
    case Act(w, a) => CanAct(s, w, a)
    case Crash(w) => w < |s.workers| && s.workers[w] != Idle
    case SyncDeliver(i) => i < |s.sync|
    case SyncUpsert(j) => j < |s.syncing| && s.syncing[j].Taken?
    case SyncAck(j) => j < |s.syncing| && s.syncing[j].Applied?
    case SyncRequeue(j) => j < |s.syncing|
  }

  /** save() in one transaction: the order is PENDING at version 1. */
  function DoSave(s: State, customer: string, lines: seq<Line>): State {
    s.(rows := s.rows + [OrderData(customer, lines, Pending, 1, None)], apis := s.apis + [NeedsEvent])
  }

  /** The API's snapshot shows the order as it was saved, whatever has happened to it since. */
  function DoPublishPending(s: State, o: nat, at: int): State
    requires Enabled(s, PublishPending(o, at))
  {
    var t := s.(apis := s.apis[o := Finished]);
    match TakeSnapshot(o, s.rows[o].(status := Pending, version := 1, reason := None), at)
    case Some(snapshot) => t.(sync := s.sync + [snapshot], announced := s.announced + [snapshot])
    case None => t
  }

  /** The worker's memory is lost, and the broker puts its message back. */
  function DoCrash(s: State, w: nat): State
    requires Enabled(s, Crash(w))
  {
    var msg := Held(s.workers[w]);
    Goto(s, w, Idle).(main := s.main + [msg], leaks := LeaksAfter(s, w),
                      requeued := s.requeued + OrderOf(msg))
  }

  function DoPublishEvent(s: State, o: nat): State
    requires Enabled(s, PublishEvent(o))
  {
    s.(apis := s.apis[o := NeedsSnapshot], main := s.main + [Created(Event(o, 0))], entered := s.entered + [o])
  }

  function DoInject(s: State, msg: Msg): State {
    s.(main := s.main + [msg], entered := s.entered + OrderOf(msg))
  }

  /** The retry queue dead-letters an expired copy back into the main queue. */
  function DoExpire(s: State, i: nat): State
    requires i < |s.retry|
  {
    s.(retry := Without(s.retry, i), main := s.main + [Created(s.retry[i])])
  }

  function DoDeliver(s: State, w: nat, i: nat): State
    requires w < |s.workers| && i < |s.main|
  {
    Goto(s, w, Delivered(s.main[i])).(main := Without(s.main, i), delivered := s.delivered + OrderOf(s.main[i]))
  }

  function DoSyncUpsert(s: State, j: nat): State
    requires j < |s.syncing|
  {
    var snapshot := s.syncing[j].snapshot;
    s.(docs := s.docs[snapshot.order := snapshot], syncing := s.syncing[j := Applied(snapshot)])
  }

  function DoSync(s: State, step: Step): State
    requires step.SyncDeliver? || step.SyncUpsert? || step.SyncAck? || step.SyncRequeue?
    requires Enabled(s, step)
  {
    match step
    case SyncDeliver(i) => s.(sync := Without(s.sync, i), syncing := s.syncing + [Taken(s.sync[i])])
    case SyncUpsert(j) => DoSyncUpsert(s, j)
    case SyncAck(j) => s.(syncing := Without(s.syncing, j))
    case SyncRequeue(j) => s.(syncing := Without(s.syncing, j), sync := s.sync + [s.syncing[j].snapshot])
  }

  function Apply(s: State, step: Step): State
    requires Enabled(s, step)
  {
    match step
    case Save(customer, lines) => DoSave(s, customer, lines)
    case PublishEvent(o) => DoPublishEvent(s, o)
    case PublishPending(o, at) => DoPublishPending(s, o, at)
    case ApiDies(o) => s.(apis := s.apis[o := Finished])
    case Inject(msg) => DoInject(s, msg)
    case Expire(i) => DoExpire(s, i)
    case Deliver(w, i) => DoDeliver(s, w, i)
    case Act(w, a) => DoAct(s, w, a)
    case Crash(w) => DoCrash(s, w)
    case _ => DoSync(s, step)
  }

  predicate Legal(s: State, steps: seq<Step>)
    decreases |steps|
  {
    steps == [] || (Enabled(s, steps[0]) && Legal(Apply(s, steps[0]), steps[1..]))
  }

  function Exec(s: State, steps: seq<Step>): State
    requires Legal(s, steps)
    decreases |steps|
  {
    if steps == [] then s else Exec(Apply(s, steps[0]), steps[1..])
  }

  lemma ExecOne(s: State, step: Step)
    requires Enabled(s, step)
    ensures Legal(s, [step]) && Exec(s, [step]) == Apply(s, step)
  {
  }

  lemma {:induction false} ExecConcat(s: State, a: seq<Step>, b: seq<Step>)
    requires Legal(s, a) && Legal(Exec(s, a), b)
    ensures Legal(s, a + b) && Exec(s, a + b) == Exec(Exec(s, a), b)
    decreases |a|
  {
    if a == [] {
      assert a + b == b;
    } else {
      assert (a + b)[1..] == a[1..] + b;
      ExecConcat(Apply(s, a[0]), a[1..], b);
    }
  }

  /** The steps are legal and lead from s to t. */
  predicate Runs(s: State, steps: seq<Step>, t: State) {
    Legal(s, steps) && Exec(s, steps) == t
  }

  lemma RunsThen(s: State, a: seq<Step>, t: State, b: seq<Step>, u: State)
    requires Runs(s, a, t) && Runs(t, b, u)
    ensures Runs(s, a + b, u)
  {
    ExecConcat(s, a, b);
  }

  lemma RunsStep(s: State, steps: seq<Step>, t: State, step: Step)
    requires Runs(s, steps, t) && Enabled(t, step)
    ensures Runs(s, steps + [step], Apply(t, step))
  {
    ExecOne(t, step);
    RunsThen(s, steps, t, [step], Apply(t, step));
  }
}
