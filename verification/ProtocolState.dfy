/** What every reachable state of the pipeline looks like, and how a stored order can change:
    once, from pending to a final status, keeping its customer and lines. */
module ProtocolState {
  import opened Wrappers
  import opened MoneyValues
  import opened Orders
  import opened Tables
  import opened Sums
  import opened Protocol

  /** Version 1 exactly while pending, version 2 exactly once confirmed or rejected. */
  predicate RowOk(r: OrderData) {
    && ValidLines(r.lines)
    && match r.status
       case Pending => r.version == 1 && r.reason == None
       case Confirmed => r.version == 2 && r.reason == None
       case Rejected => r.version == 2 && r.reason.Some?
       case _ => false
  }

  predicate Evolves(before: OrderData, after: OrderData) {
    && before.customer == after.customer && before.lines == after.lines
    && (after == before || (before.status == Pending && Terminal(after)))
  }

  predicate Extends(before: Rows, after: Rows) {
    && |before| <= |after|
    && forall o :: 0 <= o < |before| ==> Evolves(before[o], after[o])
  }

  predicate SameOrder(rows: Rows, o: int, d: OrderData) {
    Stored(rows, o) && d.customer == rows[o].customer && multiset(d.lines) == multiset(rows[o].lines)
  }

  predicate ReadWhilePending(d: OrderData) {
    d.status == Pending && d.version == 1 && d.reason == None
  }

  predicate MsgOk(rows: Rows, m: Msg) {
    m.Created? ==> m.event.order < |rows|
  }

  predicate WorkerOk(rows: Rows, w: Worker) {
    match w
    case Idle => true
    case Delivered(msg) => MsgOk(rows, msg)
    case RowRead(e, d) => Stored(rows, e.order) && d.customer == rows[e.order].customer && ReadWhilePending(d)
    case Checking(e, d, next, _) => SameOrder(rows, e.order, d) && ReadWhilePending(d) && next <= |d.lines|
    case Reserving(e, d, next) => SameOrder(rows, e.order, d) && ReadWhilePending(d) && next <= |d.lines|
    case Announcing(e, d) =>
      && SameOrder(rows, e.order, d) && Terminal(rows[e.order])
      && d.status == rows[e.order].status && d.reason == rows[e.order].reason
    case Done(msg) => msg.Created? ==> Stored(rows, msg.event.order) && Terminal(rows[msg.event.order])
    case Failed(e) => e.order < |rows|
    case Handed(e) => e.order < |rows|
  }

  predicate LeakOk(rows: Rows, l: Leak) {
    Stored(rows, l.order) && multiset(l.lines) == multiset(rows[l.order].lines) && l.taken <= |l.lines|
  }

  /** A snapshot agrees with the stored order: the same customer, total and lines, and either
      the pending status or the stored final status with its reason. */
  predicate Agrees(rows: Rows, v: Snapshot) {
    && Stored(rows, v.order)
    && var row := rows[v.order];
    && v.customer == row.customer
    && Total(row.lines).Success? && v.total == ToString(Total(row.lines).value)
    && multiset(v.lines) == multiset(RenderLines(row.lines))
    && (|| (v.status == Pending && v.reason == None)
        || (Terminal(row) && v.status == row.status && v.reason == row.reason))
  }

  predicate RowsOk(rows: Rows) {
    forall r :: r in rows ==> RowOk(r)
  }

  predicate StockOk(inventory: Inventory) {
    forall sku :: sku in inventory ==> inventory[sku].quantity >= 0
  }

  predicate MsgsOk(rows: Rows, main: seq<Msg>) {
    forall m :: m in main ==> MsgOk(rows, m)
  }

  predicate EventsOk(rows: Rows, events: seq<Event>) {
    forall e :: e in events ==> e.order < |rows|
  }

  predicate WorkersOk(rows: Rows, workers: seq<Worker>) {
    forall w :: w in workers ==> WorkerOk(rows, w)
  }

  predicate LeaksOk(rows: Rows, leaks: seq<Leak>) {
    forall l :: l in leaks ==> LeakOk(rows, l)
  }

  predicate IdsOk(rows: Rows, ids: seq<int>) {
    forall o :: o in ids ==> o < |rows|
  }

  predicate AllAgree(rows: Rows, announced: seq<Snapshot>) {
    forall v :: v in announced ==> Agrees(rows, v)
  }

  predicate SyncOk(announced: seq<Snapshot>, sync: seq<Snapshot>) {
    forall v :: v in sync ==> v in announced
  }

  predicate SyncingOk(announced: seq<Snapshot>, syncing: seq<Upsert>) {
    forall u :: u in syncing ==> u.snapshot in announced
  }

  predicate DocsOk(announced: seq<Snapshot>, docs: map<int, Snapshot>) {
    forall o :: o in docs ==> docs[o] in announced && docs[o].order == o
  }

  predicate TablesOk(s: State) {
    |s.apis| == |s.rows| && RowsOk(s.rows) && StockOk(s.inventory)
  }

  predicate QueuesOk(s: State) {
    && MsgsOk(s.rows, s.main) && EventsOk(s.rows, s.retry) && WorkersOk(s.rows, s.workers)
    && LeaksOk(s.rows, s.leaks) && IdsOk(s.rows, s.delivered) && IdsOk(s.rows, s.entered)
  }

  predicate SnapshotsOk(s: State) {
    && AllAgree(s.rows, s.announced) && SyncOk(s.announced, s.sync)
    && SyncingOk(s.announced, s.syncing) && DocsOk(s.announced, s.docs)
  }

  predicate Ok(s: State) {
    TablesOk(s) && QueuesOk(s) && SnapshotsOk(s)
  }

  // ---------- what one worker does to the tables ----------

  /** The order objects a worker tries to store. */
  ghost predicate Finishes(p: Worker, order: OrderData) {
    && (p.Checking? || p.Reserving?)
    && (order == Confirm(p.order) || exists shortages :: order == Reject(p.order, shortages))
  }

  /** A status update goes through exactly when the order is still pending. */
  lemma StoreOutcome(s: State, w: nat, order: OrderData)
    requires TablesOk(s) && w < |s.workers| && WorkerOk(s.rows, s.workers[w]) && Finishes(s.workers[w], order)
    ensures var t := Store(s, w, order);
            var e := s.workers[w].event;
            Stored(s.rows, e.order) &&
            if s.rows[e.order].status == Pending
            then t == Goto(s, w, Announcing(e, order)).(rows := t.rows, commits := s.commits + [e.order])
                 && t.rows == s.rows[e.order := s.rows[e.order].(status := order.status, reason := order.reason, version := 2)]
                 && Terminal(order)
            else t == Fail(s, w)
  {
    var e := s.workers[w].event;
    assert RowOk(s.rows[e.order]);
  }

  lemma StoreExtends(s: State, w: nat, order: OrderData)
    requires TablesOk(s) && w < |s.workers| && WorkerOk(s.rows, s.workers[w]) && Finishes(s.workers[w], order)
    ensures Extends(s.rows, Store(s, w, order).rows) && TablesOk(Store(s, w, order))
    ensures var t := Store(s, w, order); WorkerOk(t.rows, t.workers[w])
  {
    StoreOutcome(s, w, order);
    var e := s.workers[w].event;
    var t := Store(s, w, order);
    if s.rows[e.order].status == Pending {
      assert RowOk(s.rows[e.order]);
      assert RowOk(t.rows[e.order]);
      forall r | r in t.rows ensures RowOk(r) {
        if r !in s.rows { assert r == t.rows[e.order]; }
      }
    }
  }

  lemma ReserveKeepsStock(s: State, w: nat)
    requires TablesOk(s) && CanAct(s, w, Reserve)
    ensures TablesOk(DoReserve(s, w)) && DoReserve(s, w).rows == s.rows
  {
  }

  lemma ActExtends(s: State, w: nat, a: Action)
    requires TablesOk(s) && CanAct(s, w, a) && WorkerOk(s.rows, s.workers[w])
    ensures Extends(s.rows, DoAct(s, w, a).rows) && TablesOk(DoAct(s, w, a))
  {
    var p := s.workers[w];
    match a
    case Decide =>
      if p.shortages != [] { StoreExtends(s, w, Reject(p.order, p.shortages)); }
    case Commit => StoreExtends(s, w, Confirm(p.order));
    case Reserve => ReserveKeepsStock(s, w);
    case _ =>
  }

  lemma ApplyExtends(s: State, step: Step)
    requires TablesOk(s) && WorkersOk(s.rows, s.workers) && Enabled(s, step)
    ensures Extends(s.rows, Apply(s, step).rows) && TablesOk(Apply(s, step))
  {
    match step
    case Act(w, a) => ActExtends(s, w, a);
    case Save(customer, lines) =>
      assert RowOk(OrderData(customer, lines, Pending, 1, None));
    case _ =>
  }

  // ---------- everything else only relies on that ----------

  lemma WorkerOkExtends(before: Rows, after: Rows, w: Worker)
    requires WorkerOk(before, w) && Extends(before, after)
    ensures WorkerOk(after, w)
  {
  }

  lemma AgreesExtends(before: Rows, after: Rows, v: Snapshot)
    requires Agrees(before, v) && Extends(before, after)
    ensures Agrees(after, v)
  {
  }

  /** The invariant carried over to the new rows, for everything the step leaves alone. */
  lemma CarryOver(s: State, rows: Rows)
    requires QueuesOk(s) && SnapshotsOk(s) && Extends(s.rows, rows)
    ensures QueuesOk(s.(rows := rows)) && SnapshotsOk(s.(rows := rows))
  {
    forall w | w in s.workers ensures WorkerOk(rows, w) { WorkerOkExtends(s.rows, rows, w); }
    forall v | v in s.announced ensures Agrees(rows, v) { AgreesExtends(s.rows, rows, v); }
    forall l | l in s.leaks ensures LeakOk(rows, l) {
      assert Evolves(s.rows[l.order], rows[l.order]);
    }
  }

  lemma WorkersOkUpdate(rows: Rows, workers: seq<Worker>, w: nat, p: Worker)
    requires WorkersOk(rows, workers) && w < |workers| && WorkerOk(rows, p)
    ensures WorkersOk(rows, workers[w := p])
  {
  }

  /** A snapshot of an order in memory agrees with the stored row it was read from. */
  lemma SnapshotAgrees(rows: Rows, o: int, d: OrderData, at: int)
    requires SameOrder(rows, o, d)
    requires (d.status == Pending && d.reason == None)
             || (Terminal(rows[o]) && d.status == rows[o].status && d.reason == rows[o].reason)
    ensures TakeSnapshot(o, d, at).Some? <==> OneCurrency(rows[o].lines)
    ensures TakeSnapshot(o, d, at).Some? ==> Agrees(rows, TakeSnapshot(o, d, at).value)
  {
    TotalIgnoresRowOrder(d.lines, rows[o].lines);
    TotalMeaning(rows[o].lines);
    MapPermutation(RenderLine, d.lines, rows[o].lines);
  }

  lemma HeldOk(s: State, w: nat)
    requires LeaksOk(s.rows, s.leaks) && w < |s.workers| && WorkerOk(s.rows, s.workers[w]) && !s.workers[w].Idle?
    ensures MsgOk(s.rows, Held(s.workers[w]))
    ensures LeaksOk(s.rows, LeaksAfter(s, w))
  {
  }

  lemma FailOk(s: State, w: nat)
    requires Ok(s) && w < |s.workers| && !s.workers[w].Idle? && Held(s.workers[w]).Created?
    ensures Ok(Fail(s, w))
  {
    HeldOk(s, w);
    WorkersOkUpdate(s.rows, s.workers, w, Failed(Held(s.workers[w]).event));
  }

  lemma StoreOk(s: State, w: nat, order: OrderData)
    requires Ok(s) && w < |s.workers| && Finishes(s.workers[w], order)
    ensures Ok(Store(s, w, order))
  {
    StoreExtends(s, w, order);
    StoreOutcome(s, w, order);
    var t := Store(s, w, order);
    if t != Fail(s, w) {
      CarryOver(s, t.rows);
      WorkersOkUpdate(t.rows, s.workers, w, t.workers[w]);
    } else {
      FailOk(s, w);
    }
  }

  lemma ReadOk(s: State, w: nat)
    requires Ok(s) && CanAct(s, w, Read)
    ensures Ok(DoRead(s, w))
  {
    var msg := s.workers[w].msg;
    assert WorkerOk(s.rows, s.workers[w]);
    if msg.Created? && !Stored(s.rows, msg.event.order) {
      FailOk(s, w);
    } else {
      if msg.Created? { assert RowOk(s.rows[msg.event.order]); }
      WorkersOkUpdate(s.rows, s.workers, w, DoRead(s, w).workers[w]);
    }
  }

  lemma DecideOk(s: State, w: nat)
    requires Ok(s) && CanAct(s, w, Decide)
    ensures Ok(DoDecide(s, w))
  {
    var p := s.workers[w];
    assert WorkerOk(s.rows, p);
    if p.shortages == [] {
      WorkersOkUpdate(s.rows, s.workers, w, Reserving(p.event, p.order, 0));
    } else {
      StoreOk(s, w, Reject(p.order, p.shortages));
    }
  }

  lemma ReserveOk(s: State, w: nat)
    requires Ok(s) && CanAct(s, w, Reserve)
    ensures Ok(DoReserve(s, w))
  {
    var p := s.workers[w];
    assert WorkerOk(s.rows, p);
    ReserveKeepsStock(s, w);
    var line := p.order.lines[p.next];
    if Decrement(s.inventory, line.sku, line.quantity).Some? {
      WorkersOkUpdate(s.rows, s.workers, w, Reserving(p.event, p.order, p.next + 1));
    } else {
      FailOk(s, w);
    }
  }

  lemma AnnounceOk(s: State, w: nat, at: int)
    requires Ok(s) && CanAct(s, w, Announce(at))
    ensures Ok(DoAnnounce(s, w, at))
  {
    var p := s.workers[w];
    assert WorkerOk(s.rows, p);
    SnapshotAgrees(s.rows, p.event.order, p.order, at);
    if TakeSnapshot(p.event.order, p.order, at).Some? {
      WorkersOkUpdate(s.rows, s.workers, w, Done(Created(p.event)));
    } else {
      FailOk(s, w);
    }
  }

  lemma MoveOk(s: State, w: nat, a: Action)
    requires Ok(s) && CanAct(s, w, a) && (a.ReadLines? || a.Check? || a.Ack? || a.HandOver?)
    ensures Ok(DoAct(s, w, a))
  {
    assert WorkerOk(s.rows, s.workers[w]);
    WorkersOkUpdate(s.rows, s.workers, w, DoAct(s, w, a).workers[w]);
  }

  lemma ActOk(s: State, w: nat, a: Action)
    requires Ok(s) && CanAct(s, w, a)
    ensures Ok(DoAct(s, w, a))
  {
    match a
    case Read => ReadOk(s, w);
    case Decide => DecideOk(s, w);
    case Reserve => ReserveOk(s, w);
    case Commit =>
      assert Finishes(s.workers[w], Confirm(s.workers[w].order));
      StoreOk(s, w, Confirm(s.workers[w].order));
    case Announce(at) => AnnounceOk(s, w, at);
    case Throw => FailOk(s, w);
    case _ => MoveOk(s, w, a);
  }

  lemma SaveOk(s: State, customer: string, lines: seq<Line>)
    requires Ok(s) && ValidLines(lines)
    ensures Ok(DoSave(s, customer, lines))
  {
  }

  lemma PublishPendingOk(s: State, o: nat, at: int)
    requires Ok(s) && Enabled(s, PublishPending(o, at))
    ensures Ok(DoPublishPending(s, o, at))
  {
  }

  lemma DeliverOk(s: State, w: nat, i: nat)
    requires Ok(s) && Enabled(s, Deliver(w, i))
    ensures Ok(DoDeliver(s, w, i))
  {
    assert MsgOk(s.rows, s.main[i]);
    WorkersOkUpdate(s.rows, s.workers, w, Delivered(s.main[i]));
  }

  lemma CrashOk(s: State, w: nat)
    requires Ok(s) && Enabled(s, Crash(w))
    ensures Ok(DoCrash(s, w))
  {
    HeldOk(s, w);
    WorkersOkUpdate(s.rows, s.workers, w, Idle);
  }

  lemma QueueStepOk(s: State, step: Step)
    requires Ok(s) && Enabled(s, step) && (step.PublishEvent? || step.ApiDies? || step.Inject? || step.Expire?)
    ensures Ok(Apply(s, step))
  {
  }

  lemma SyncUpsertOk(s: State, j: nat)
    requires Ok(s) && Enabled(s, SyncUpsert(j))
    ensures Ok(DoSyncUpsert(s, j))
  {
    var snapshot := s.syncing[j].snapshot;
    assert DocsOk(s.announced, s.docs[snapshot.order := snapshot]);
  }

  lemma SyncStepOk(s: State, step: Step)
    requires Ok(s) && Enabled(s, step)
    requires step.SyncDeliver? || step.SyncUpsert? || step.SyncAck? || step.SyncRequeue?
    ensures Ok(DoSync(s, step))
  {
    if step.SyncUpsert? {
      SyncUpsertOk(s, step.j);
    }
  }

  lemma ApplyOk(s: State, step: Step)
    requires Ok(s) && Enabled(s, step)
    ensures Ok(Apply(s, step))
  {
    match step
    case Save(customer, lines) => SaveOk(s, customer, lines);
    case PublishPending(o, at) => PublishPendingOk(s, o, at);
    case Deliver(w, i) => DeliverOk(s, w, i);
    case Act(w, a) => ActOk(s, w, a);
    case Crash(w) => CrashOk(s, w);
    case PublishEvent(_) => QueueStepOk(s, step);
    case ApiDies(_) => QueueStepOk(s, step);
    case Inject(_) => QueueStepOk(s, step);
    case Expire(_) => QueueStepOk(s, step);
    case _ => SyncStepOk(s, step);
  }

  // ---------- over whole runs ----------

  lemma ExtendsTransitive(a: Rows, b: Rows, c: Rows)
    requires Extends(a, b) && Extends(b, c)
    ensures Extends(a, c)
  {
  }

  /** Every state of a run is well formed, and along it a stored order keeps its customer and
      lines; a final status and its reason never change again. */
  lemma {:induction false} RunOk(s: State, steps: seq<Step>)
    requires Ok(s) && Legal(s, steps)
    ensures Ok(Exec(s, steps))
    ensures Extends(s.rows, Exec(s, steps).rows)
    decreases |steps|
  {
    if steps != [] {
      var t := Apply(s, steps[0]);
      ApplyOk(s, steps[0]);
      ApplyExtends(s, steps[0]);
      RunOk(t, steps[1..]);
      ExtendsTransitive(s.rows, t.rows, Exec(s, steps).rows);
    }
  }

  lemma InitOk(s: State)
    requires Init(s)
    ensures Ok(s)
  {
  }

  /** A final order is never touched again: same status, same reason, same version. */
  lemma FinalStatusIsFinal(start: State, before: seq<Step>, after: seq<Step>, o: nat)
    requires Init(start) && Legal(start, before) && Legal(Exec(start, before), after)
    requires o < |Exec(start, before).rows| && Terminal(Exec(start, before).rows[o])
    ensures o < |Exec(Exec(start, before), after).rows|
    ensures Exec(Exec(start, before), after).rows[o] == Exec(start, before).rows[o]
  {
    InitOk(start);
    RunOk(start, before);
    RunOk(Exec(start, before), after);
    assert Evolves(Exec(start, before).rows[o], Exec(Exec(start, before), after).rows[o]);
  }

  /** The read store is never ahead of the write store and never contradicts it, whatever
      snapshots were delayed, reordered, duplicated or put back. */
  lemma ReadStoreAgrees(start: State, steps: seq<Step>, o: int)
    requires Init(start) && Legal(start, steps) && o in Exec(start, steps).docs
    ensures Exec(start, steps).docs[o].order == o
    ensures var s := Exec(start, steps);
            && Agrees(s.rows, s.docs[o])
            && multiset(Map(Shown, s.docs[o].lines)) == multiset(Map(Ordered, s.rows[o].lines))
            && AmountShown(s.docs[o].total) == Sum(CentsOf(), s.rows[o].lines)
            && forall l :: l in s.rows[o].lines ==> CurrencyShown(s.docs[o].total) == l.unitPrice.currency
  {
    InitOk(start);
    RunOk(start, steps);
    var s := Exec(start, steps);
    DocumentShows(s.rows, s.docs[o]);
  }

  /** A snapshot that agrees shows the SKU, quantity and amount of each stored line. */
  lemma DocumentShows(rows: Rows, v: Snapshot)
    requires Agrees(rows, v)
    ensures var lines := rows[v.order].lines;
            && multiset(Map(Shown, v.lines)) == multiset(Map(Ordered, lines))
            && AmountShown(v.total) == Sum(CentsOf(), lines)
            && forall l :: l in lines ==> CurrencyShown(v.total) == l.unitPrice.currency
  {
    var lines := rows[v.order].lines;
    MapPermutation(Shown, v.lines, RenderLines(lines));
    RenderedShown(lines);
    TotalMeaning(lines);
    AmountRoundTrip(Total(lines).value);
  }

  /** An order whose total cannot be computed never gets a document. */
  lemma MixedOrderHasNoDocument(start: State, steps: seq<Step>, o: int)
    requires Init(start) && Legal(start, steps) && Stored(Exec(start, steps).rows, o)
    requires !OneCurrency(Exec(start, steps).rows[o].lines)
    ensures o !in Exec(start, steps).docs
  {
    TotalMeaning(Exec(start, steps).rows[o].lines);
    if o in Exec(start, steps).docs {
      ReadStoreAgrees(start, steps, o);
    }
  }

  /** The total that a document shows is the sum of the line totals it shows. */
  lemma DocumentAddsUp(start: State, steps: seq<Step>, o: int)
    requires Init(start) && Legal(start, steps) && o in Exec(start, steps).docs
    ensures var doc := Exec(start, steps).docs[o];
            AmountShown(doc.total) == Sum(LineAmount(), doc.lines)
  {
    ReadStoreAgrees(start, steps, o);
    var row, doc := Exec(start, steps).rows[o], Exec(start, steps).docs[o];
    TotalMeaning(row.lines);
    AmountRoundTrip(Total(row.lines).value);
    RenderedAmounts(row.lines);
    SumPermutation(LineAmount(), doc.lines, RenderLines(row.lines));
  }
}
