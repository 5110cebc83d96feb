/** How often an order can be attempted, and so how much stock can be lost to failed attempts. */
module ProtocolAttempts {
  import opened Orders
  import opened Tables
  import opened Sums
  import opened Protocol
  import opened ProtocolState
  import opened ProtocolTally
  import opened ProtocolStock
  import RetryPolicy

  // ---------- deliveries are bounded by the retry limit ----------

  function Remaining(maxAttempts: nat, retries: nat): nat {
    if retries < maxAttempts then maxAttempts - retries else 0
  }

  function CopyTickets(o: int, max: nat, e: Event): nat {
    if e.order == o then 1 + Remaining(max, e.retries) else 0
  }

  function EventTickets(o: int, max: nat): Event -> int {
    (e: Event) => CopyTickets(o, max, e)
  }

  function MsgTickets(o: int, max: nat): Msg -> int {
    (m: Msg) => if m.Created? then CopyTickets(o, max, m.event) else 0
  }

  /** A message in processing can still come back as a retry, until it is handed over. */
  function WorkerTickets(o: int, max: nat): Worker -> int {
    (w: Worker) =>
      if w.Idle? || w.Done? || w.Handed? || Held(w).Malformed? || Held(w).event.order != o then 0
      else Remaining(max, Held(w).event.retries)
  }

  /** The further deliveries of an order that the copies in the system can lead to. */
  function Tickets(o: int, max: nat): Weights {
    Weights(MsgTickets(o, max), EventTickets(o, max), Zero(), WorkerTickets(o, max))
  }

  predicate Budgeted(s: State, o: int) {
    Count(s.delivered, o) + Tally(s, Tickets(o, s.config.maxAttempts))
    <= (s.config.maxAttempts + 1) * (Count(s.entered, o) + Count(s.requeued, o))
  }

  predicate SameMessage(p: Worker, q: Worker) {
    !p.Idle? && !q.Idle? && Held(q) == Held(p) && !p.Done? && !p.Handed? && !q.Handed?
  }

  lemma ReadSameMessage(s: State, w: nat)
    requires CanAct(s, w, Read)
    ensures SameMessage(s.workers[w], DoRead(s, w).workers[w])
  {
  }

  lemma StoreSameMessage(s: State, w: nat, order: OrderData)
    requires w < |s.workers| && (s.workers[w].Checking? || s.workers[w].Reserving?)
    ensures SameMessage(s.workers[w], Store(s, w, order).workers[w])
  {
  }

  lemma StatementSameMessage(s: State, w: nat, a: Action)
    requires CanAct(s, w, a) && (a.Reserve? || a.Announce?)
    ensures SameMessage(s.workers[w], DoAct(s, w, a).workers[w])
  {
  }

  /** A worker keeps the message it holds until it acknowledges it. */
  lemma ActSameMessage(s: State, w: nat, a: Action)
    requires CanAct(s, w, a) && !a.HandOver? && !a.Ack?
    ensures SameMessage(s.workers[w], DoAct(s, w, a).workers[w])
  {
    match a
    case Read => ReadSameMessage(s, w);
    case ReadLines(_) =>
    case Check =>
    case Throw =>
    case Decide =>
      if s.workers[w].shortages != [] {
        StoreSameMessage(s, w, Reject(s.workers[w].order, s.workers[w].shortages));
      }
    case Commit => StoreSameMessage(s, w, Confirm(s.workers[w].order));
    case _ => StatementSameMessage(s, w, a);
  }

  lemma ActTickets(s: State, w: nat, a: Action, o: int)
    requires CanAct(s, w, a)
    ensures Change(s, Act(w, a), Tickets(o, s.config.maxAttempts)) <= 0
  {
    if !a.HandOver? && !a.Ack? {
      ActSameMessage(s, w, a);
    }
  }

  function NewFor(m: Msg, o: int): nat {
    if m.Created? && m.event.order == o then 1 else 0
  }

  lemma CountMore(ids: seq<int>, m: Msg, o: int)
    ensures Count(ids + OrderOf(m), o) == Count(ids, o) + NewFor(m, o)
  {
  }

  /** A step that puts a message into the main queue is paid for by one more entry. */
  lemma EntryPays(max: nat, entries: nat, m: Msg, o: int)
    ensures (max + 1) * entries + MsgTickets(o, max)(m)
            <= (max + 1) * (entries + NewFor(m, o))
  {
  }

  lemma EntryBudgeted(s: State, t: State, m: Msg, o: int)
    requires Budgeted(s, o) && t.config == s.config && t.delivered == s.delivered
    requires Tally(t, Tickets(o, s.config.maxAttempts)) <=
             Tally(s, Tickets(o, s.config.maxAttempts)) + MsgTickets(o, s.config.maxAttempts)(m)
    requires Count(t.entered, o) + Count(t.requeued, o) == Count(s.entered, o) + Count(s.requeued, o) + NewFor(m, o)
    ensures Budgeted(t, o)
  {
    EntryPays(s.config.maxAttempts, Count(s.entered, o) + Count(s.requeued, o), m, o);
  }

  lemma ActBudgeted(s: State, w: nat, a: Action, o: int)
    requires Budgeted(s, o) && CanAct(s, w, a)
    ensures Budgeted(DoAct(s, w, a), o)
  {
    TallyStep(s, Act(w, a), Tickets(o, s.config.maxAttempts));
    ActFrame(s, w, a);
    ActTickets(s, w, a, o);
  }

  lemma DeliverTickets(s: State, w: nat, i: nat, o: int)
    requires Enabled(s, Deliver(w, i))
    ensures Change(s, Deliver(w, i), Tickets(o, s.config.maxAttempts)) == 0 - NewFor(s.main[i], o)
  {
  }

  lemma DeliverBudgeted(s: State, w: nat, i: nat, o: int)
    requires Budgeted(s, o) && Enabled(s, Deliver(w, i))
    ensures Budgeted(DoDeliver(s, w, i), o)
  {
    TallyStep(s, Deliver(w, i), Tickets(o, s.config.maxAttempts));
    DeliverTickets(s, w, i, o);
    CountMore(s.delivered, s.main[i], o);
    TicketBecomesDelivery(s, DoDeliver(s, w, i), s.main[i], o);
  }

  lemma TicketBecomesDelivery(s: State, t: State, m: Msg, o: int)
    requires Budgeted(s, o) && t.config == s.config && t.entered == s.entered && t.requeued == s.requeued
    requires Tally(t, Tickets(o, s.config.maxAttempts)) == Tally(s, Tickets(o, s.config.maxAttempts)) - NewFor(m, o)
    requires Count(t.delivered, o) == Count(s.delivered, o) + NewFor(m, o)
    ensures Budgeted(t, o)
  {
  }

  lemma CrashBudgeted(s: State, w: nat, o: int)
    requires Budgeted(s, o) && Enabled(s, Crash(w))
    ensures Budgeted(DoCrash(s, w), o)
  {
    TallyStep(s, Crash(w), Tickets(o, s.config.maxAttempts));
    CountMore(s.requeued, Held(s.workers[w]), o);
    EntryBudgeted(s, DoCrash(s, w), Held(s.workers[w]), o);
  }

  lemma PublishBudgeted(s: State, p: nat, o: int)
    requires Budgeted(s, o) && Enabled(s, PublishEvent(p))
    ensures Budgeted(DoPublishEvent(s, p), o)
  {
    TallyStep(s, PublishEvent(p), Tickets(o, s.config.maxAttempts));
    CountMore(s.entered, Created(Event(p, 0)), o);
    EntryBudgeted(s, DoPublishEvent(s, p), Created(Event(p, 0)), o);
  }

  lemma InjectBudgeted(s: State, msg: Msg, o: int)
    requires Budgeted(s, o) && Enabled(s, Inject(msg))
    ensures Budgeted(DoInject(s, msg), o)
  {
    TallyStep(s, Inject(msg), Tickets(o, s.config.maxAttempts));
    CountMore(s.entered, msg, o);
    EntryBudgeted(s, DoInject(s, msg), msg, o);
  }

  lemma ExpireBudgeted(s: State, i: nat, o: int)
    requires Budgeted(s, o) && Enabled(s, Expire(i))
    ensures Budgeted(DoExpire(s, i), o)
  {
    TallyStep(s, Expire(i), Tickets(o, s.config.maxAttempts));
  }

  lemma OtherBudgeted(s: State, t: State, o: int)
    requires Budgeted(s, o) && t.config == s.config
    requires t.main == s.main && t.retry == s.retry && t.dead == s.dead && t.workers == s.workers
    requires t.entered == s.entered && t.requeued == s.requeued && t.delivered == s.delivered
    ensures Budgeted(t, o)
  {
  }

  lemma ApplyBudgeted(s: State, step: Step, o: int)
    requires Budgeted(s, o) && Enabled(s, step)
    ensures Budgeted(Apply(s, step), o)
  {
    match step
    case Act(w, a) => ActBudgeted(s, w, a, o);
    case PublishEvent(p) => PublishBudgeted(s, p, o);
    case Inject(msg) => InjectBudgeted(s, msg, o);
    case Expire(i) => ExpireBudgeted(s, i, o);
    case Deliver(w, i) => DeliverBudgeted(s, w, i, o);
    case Crash(w) => CrashBudgeted(s, w, o);
    case _ => OtherBudgeted(s, Apply(s, step), o);
  }

  lemma {:induction false} RunBudgeted(s: State, steps: seq<Step>, o: int)
    requires Budgeted(s, o) && Legal(s, steps)
    ensures Budgeted(Exec(s, steps), o) && Exec(s, steps).config == s.config
    decreases |steps|
  {
    if steps != [] {
      ApplyBudgeted(s, steps[0], o);
      ApplyFrame(s, steps[0]);
      RunBudgeted(Apply(s, steps[0]), steps[1..], o);
    }
  }

  lemma TicketsNonNegative(s: State, o: int, max: nat)
    ensures Tally(s, Tickets(o, max)) >= 0
  {
    SumNonNegative(MsgTickets(o, max), s.main);
    SumNonNegative(EventTickets(o, max), s.retry);
    SumAllZero(Zero(), s.dead);
    SumNonNegative(WorkerTickets(o, max), s.workers);
  }

  lemma InitBudgeted(s: State, o: int)
    requires Init(s)
    ensures Budgeted(s, o)
  {
    SumAllZero(WorkerTickets(o, s.config.maxAttempts), s.workers);
  }

  /** In every run an order is attempted at most maxAttempts + 1 times for each event that a
      publisher put into the queue and each crash that put one back. */
  lemma AttemptBound(start: State, steps: seq<Step>, o: int)
    requires Init(start) && Legal(start, steps)
    ensures var s := Exec(start, steps);
            Count(s.delivered, o) <= (start.config.maxAttempts + 1) * (Count(s.entered, o) + Count(s.requeued, o))
  {
    var max := start.config.maxAttempts;
    InitBudgeted(start, o);
    RunBudgeted(start, steps, o);
    TicketsNonNegative(Exec(start, steps), o, max);
  }

  // ---------- and every unit taken belongs to a delivery ----------

  function DemandIn(rows: Rows, sku: Sku): int -> int {
    (o: int) => DemandOfOrder(rows, sku, o)
  }

  function DemandOfOrder(rows: Rows, sku: Sku, o: int): int {
    if Stored(rows, o) then Demand(rows[o].lines, sku) else 0
  }

  /** The most an attempt under way can still take or sell. */
  function LiveDemand(rows: Rows, sku: Sku): Worker -> int {
    (w: Worker) =>
      if (w.Delivered? && w.msg.Created?) || w.RowRead? || w.Checking? || w.Reserving?
      then DemandOfOrder(rows, sku, Held(w).event.order) else 0
  }

  function LeakDemand(rows: Rows, sku: Sku): Leak -> int {
    (l: Leak) => DemandOfOrder(rows, sku, l.order)
  }

  predicate Paid(s: State, sku: Sku) {
    Sold(s, sku) + Sum(LiveDemand(s.rows, sku), s.workers) + Sum(LeakDemand(s.rows, sku), s.leaks)
    <= Sum(DemandIn(s.rows, sku), s.delivered)
  }

  lemma DemandInNonNegative(rows: Rows, sku: Sku, o: int)
    requires RowsOk(rows)
    ensures DemandOfOrder(rows, sku, o) >= 0
  {
    if Stored(rows, o) {
      assert RowOk(rows[o]);
      DemandNonNegative(rows[o].lines, sku);
    }
  }

  /** Rows move on, but the demand of a stored order stays. */
  lemma DemandInExtends(before: Rows, after: Rows, sku: Sku, o: int)
    requires Extends(before, after) && o < |before|
    ensures DemandOfOrder(before, sku, o) == DemandOfOrder(after, sku, o)
  {
  }

  lemma PaidExtends(s: State, rows: Rows, sku: Sku)
    requires QueuesOk(s) && Extends(s.rows, rows)
    ensures Sum(LiveDemand(s.rows, sku), s.workers) == Sum(LiveDemand(rows, sku), s.workers)
    ensures Sum(LeakDemand(s.rows, sku), s.leaks) == Sum(LeakDemand(rows, sku), s.leaks)
    ensures Sum(DemandIn(s.rows, sku), s.delivered) == Sum(DemandIn(rows, sku), s.delivered)
  {
    forall w | w in s.workers ensures LiveDemand(s.rows, sku)(w) == LiveDemand(rows, sku)(w) {
      assert WorkerOk(s.rows, w);
      if !w.Idle? && Held(w).Created? && Held(w).event.order < |s.rows| {
        DemandInExtends(s.rows, rows, sku, Held(w).event.order);
      }
    }
    forall l | l in s.leaks ensures LeakDemand(s.rows, sku)(l) == LeakDemand(rows, sku)(l) {
      assert LeakOk(s.rows, l);
      DemandInExtends(s.rows, rows, sku, l.order);
    }
    forall o | o in s.delivered ensures DemandOfOrder(s.rows, sku, o) == DemandOfOrder(rows, sku, o) {
      DemandInExtends(s.rows, rows, sku, o);
    }
    SumCongruent(LiveDemand(s.rows, sku), LiveDemand(rows, sku), s.workers);
    SumCongruent(LeakDemand(s.rows, sku), LeakDemand(rows, sku), s.leaks);
    SumCongruent(DemandIn(s.rows, sku), DemandIn(rows, sku), s.delivered);
  }

  lemma FailPaid(s: State, w: nat, sku: Sku)
    requires Paid(s, sku) && RowsOk(s.rows) && w < |s.workers| && !s.workers[w].Idle? && Held(s.workers[w]).Created?
    requires WorkerOk(s.rows, s.workers[w])
    ensures Paid(Fail(s, w), sku)
  {
    var p := s.workers[w];
    var o := Held(p).event.order;
    DemandInNonNegative(s.rows, sku, o);
    SumUpdate(LiveDemand(s.rows, sku), s.workers, w, Failed(Held(p).event));
    if p.Reserving? {
      SumAppend(LeakDemand(s.rows, sku), s.leaks, Leak(o, p.order.lines, p.next));
    }
  }

  lemma StorePaid(s: State, w: nat, order: OrderData, sku: Sku)
    requires Paid(s, sku) && Ok(s) && w < |s.workers| && Finishes(s.workers[w], order)
    ensures Paid(Store(s, w, order), sku)
  {
    var p := s.workers[w];
    var o := p.event.order;
    assert WorkerOk(s.rows, p);
    StoreOutcome(s, w, order);
    if s.rows[o].status == Pending {
      var t := Store(s, w, order);
      StoreExtends(s, w, order);
      PaidExtends(s, t.rows, sku);
      DemandInNonNegative(s.rows, sku, o);
      DemandInExtends(s.rows, t.rows, sku, o);
      SumUpdate(ConfirmedUnits(sku), s.rows, o, t.rows[o]);
      SumUpdate(LiveDemand(t.rows, sku), s.workers, w, t.workers[w]);
      assert t.rows == s.rows[o := t.rows[o]];
      assert ConfirmedUnits(sku)(s.rows[o]) == 0;
      assert ConfirmedUnits(sku)(t.rows[o]) <= DemandOfOrder(s.rows, sku, o) == DemandOfOrder(t.rows, sku, o);
      assert LiveDemand(t.rows, sku)(p) == DemandOfOrder(t.rows, sku, o);
      assert LiveDemand(t.rows, sku)(t.workers[w]) == 0;
    } else {
      FailPaid(s, w, sku);
    }
  }

  lemma MovePaid(s: State, w: nat, p: Worker, sku: Sku)
    requires Paid(s, sku) && w < |s.workers| && LiveDemand(s.rows, sku)(p) <= LiveDemand(s.rows, sku)(s.workers[w])
    ensures Paid(Goto(s, w, p), sku)
  {
    SumUpdate(LiveDemand(s.rows, sku), s.workers, w, p);
  }

  /** Read, Reserve and Announce either fail or move on without a status update. */
  lemma StatementPaid(s: State, w: nat, a: Action, sku: Sku)
    requires Paid(s, sku) && Ok(s) && CanAct(s, w, a) && (a.Read? || a.Reserve? || a.Announce?)
    ensures Paid(DoAct(s, w, a), sku)
  {
    var p := s.workers[w];
    assert WorkerOk(s.rows, p);
    var t := DoAct(s, w, a);
    DemandInNonNegative(s.rows, sku, if Held(p).Created? then Held(p).event.order else 0);
    if Held(p).Created? && t == Fail(s, w) {
      FailPaid(s, w, sku);
    } else {
      StatementMoves(s, w, a, sku);
      MovePaid(s, w, t.workers[w], sku);
      assert t.rows == s.rows && t.delivered == s.delivered && t.leaks == s.leaks;
    }
  }

  lemma StatementMoves(s: State, w: nat, a: Action, sku: Sku)
    requires RowsOk(s.rows) && CanAct(s, w, a) && (a.Read? || a.Reserve? || a.Announce?)
    requires Held(s.workers[w]).Created? ==> DoAct(s, w, a) != Fail(s, w)
    ensures var t := DoAct(s, w, a);
            && t.rows == s.rows && t.delivered == s.delivered && t.leaks == s.leaks
            && w < |t.workers| && t.workers == s.workers[w := t.workers[w]]
            && LiveDemand(s.rows, sku)(t.workers[w]) <= LiveDemand(s.rows, sku)(s.workers[w])
  {
    if Held(s.workers[w]).Created? {
      DemandInNonNegative(s.rows, sku, Held(s.workers[w]).event.order);
    }
  }

  lemma PlainPaid(s: State, w: nat, a: Action, sku: Sku)
    requires Paid(s, sku) && CanAct(s, w, a) && (a.ReadLines? || a.Check? || a.Ack? || a.HandOver?)
    ensures Paid(DoAct(s, w, a), sku)
  {
    match a
    case ReadLines(lines) =>
      MovePaid(s, w, Checking(s.workers[w].event, s.workers[w].order.(lines := lines), 0, []), sku);
    case Check => MovePaid(s, w, DoCheck(s, w).workers[w], sku);
    case Ack => MovePaid(s, w, Idle, sku);
    case HandOver => MovePaid(s, w, Handed(s.workers[w].event), sku);
  }

  lemma ActPaid(s: State, w: nat, a: Action, sku: Sku)
    requires Paid(s, sku) && Ok(s) && CanAct(s, w, a)
    ensures Paid(DoAct(s, w, a), sku)
  {
    var p := s.workers[w];
    match a
    case Decide =>
      if p.shortages == [] {
        MovePaid(s, w, Reserving(p.event, p.order, 0), sku);
      } else {
        assert Finishes(p, Reject(p.order, p.shortages));
        StorePaid(s, w, Reject(p.order, p.shortages), sku);
      }
    case Commit =>
      assert Finishes(p, Confirm(p.order));
      StorePaid(s, w, Confirm(p.order), sku);
    case Throw => assert WorkerOk(s.rows, p); FailPaid(s, w, sku);
    case Read => StatementPaid(s, w, a, sku);
    case Reserve => StatementPaid(s, w, a, sku);
    case Announce(_) => StatementPaid(s, w, a, sku);
    case _ => PlainPaid(s, w, a, sku);
  }

  lemma SavePaid(s: State, customer: string, lines: seq<Line>, sku: Sku)
    requires Paid(s, sku) && Ok(s) && ValidLines(lines)
    ensures Paid(DoSave(s, customer, lines), sku)
  {
    var t := DoSave(s, customer, lines);
    PaidExtends(s, t.rows, sku);
    SumAppend(ConfirmedUnits(sku), s.rows, t.rows[|s.rows|]);
  }

  lemma DeliverPaid(s: State, w: nat, i: nat, sku: Sku)
    requires Paid(s, sku) && Enabled(s, Deliver(w, i))
    ensures Paid(DoDeliver(s, w, i), sku)
  {
    var msg := s.main[i];
    SumUpdate(LiveDemand(s.rows, sku), s.workers, w, Delivered(msg));
    if msg.Created? {
      SumAppend(DemandIn(s.rows, sku), s.delivered, msg.event.order);
    } else {
      assert s.delivered + OrderOf(msg) == s.delivered;
    }
  }

  lemma CrashPaid(s: State, w: nat, sku: Sku)
    requires Paid(s, sku) && Ok(s) && Enabled(s, Crash(w))
    ensures Paid(DoCrash(s, w), sku)
  {
    var p := s.workers[w];
    assert WorkerOk(s.rows, p);
    if Held(p).Created? {
      DemandInNonNegative(s.rows, sku, Held(p).event.order);
    }
    SumUpdate(LiveDemand(s.rows, sku), s.workers, w, Idle);
    if p.Reserving? {
      SumAppend(LeakDemand(s.rows, sku), s.leaks, Leak(p.event.order, p.order.lines, p.next));
    }
  }

  lemma ApplyPaid(s: State, step: Step, sku: Sku)
    requires Paid(s, sku) && Ok(s) && Enabled(s, step)
    ensures Paid(Apply(s, step), sku)
  {
    ApplyFrame(s, step);
    match step
    case Save(customer, lines) => SavePaid(s, customer, lines, sku);
    case Act(w, a) => ActPaid(s, w, a, sku);
    case Deliver(w, i) => DeliverPaid(s, w, i, sku);
    case Crash(w) => CrashPaid(s, w, sku);
    case _ =>
  }

  lemma {:induction false} RunPaid(s: State, steps: seq<Step>, sku: Sku)
    requires Paid(s, sku) && Ok(s) && Legal(s, steps)
    ensures Paid(Exec(s, steps), sku)
    decreases |steps|
  {
    if steps != [] {
      ApplyPaid(s, steps[0], sku);
      ApplyOk(s, steps[0]);
      RunPaid(Apply(s, steps[0]), steps[1..], sku);
    }
  }

  /** What attempts hold and have lost is covered by the full demand of those attempts. */
  lemma PartsBelowDemand(s: State, sku: Sku)
    requires Ok(s)
    ensures HeldBack(s, sku) <= Sum(LiveDemand(s.rows, sku), s.workers)
    ensures Lost(s, sku) <= Sum(LeakDemand(s.rows, sku), s.leaks)
  {
    forall w | w in s.workers ensures HeldUnits(sku)(w) <= LiveDemand(s.rows, sku)(w) {
      assert WorkerOk(s.rows, w);
      if w.Reserving? {
        PartBelowDemand(s, w.event.order, w.order.lines, w.next, sku);
      } else if !w.Idle? && Held(w).Created? {
        DemandInNonNegative(s.rows, sku, Held(w).event.order);
      }
    }
    forall l | l in s.leaks ensures LeakedUnits(sku)(l) <= LeakDemand(s.rows, sku)(l) {
      assert LeakOk(s.rows, l);
      PartBelowDemand(s, l.order, l.lines, l.taken, sku);
    }
    SumMonotone(HeldUnits(sku), LiveDemand(s.rows, sku), s.workers);
    SumMonotone(LeakedUnits(sku), LeakDemand(s.rows, sku), s.leaks);
  }

  lemma PartBelowDemand(s: State, o: int, lines: seq<Line>, k: nat, sku: Sku)
    requires RowsOk(s.rows) && Stored(s.rows, o) && multiset(lines) == multiset(s.rows[o].lines) && k <= |lines|
    ensures Demand(lines[..k], sku) <= DemandOfOrder(s.rows, sku, o)
  {
    assert RowOk(s.rows[o]);
    SameElements(lines, s.rows[o].lines);
    DemandPrefix(lines, k, sku);
    SameDemand(lines, s.rows[o].lines, sku);
  }

  // ---------- counting the deliveries order by order ----------

  /** The sum over the first n orders of attempts times demand. */
  function AttemptedDemand(rows: Rows, delivered: seq<int>, sku: Sku, n: nat): int
    requires n <= |rows|
  {
    if n == 0 then 0
    else AttemptedDemand(rows, delivered, sku, n - 1) + Count(delivered, n - 1) * Demand(rows[n - 1].lines, sku)
  }

  lemma {:induction false} OneMoreAttempt(rows: Rows, delivered: seq<int>, o: int, sku: Sku, n: nat)
    requires n <= |rows|
    ensures AttemptedDemand(rows, delivered + [o], sku, n) ==
            AttemptedDemand(rows, delivered, sku, n) + if 0 <= o < n then Demand(rows[o].lines, sku) else 0
  {
    if n > 0 {
      OneMoreAttempt(rows, delivered, o, sku, n - 1);
      CountAppend(delivered, o, n - 1);
      if n - 1 == o {
        assert (Count(delivered, o) + 1) * Demand(rows[o].lines, sku)
               == Count(delivered, o) * Demand(rows[o].lines, sku) + Demand(rows[o].lines, sku);
      }
    }
  }

  lemma {:induction false} NoAttempts(rows: Rows, sku: Sku, n: nat)
    requires n <= |rows|
    ensures AttemptedDemand(rows, [], sku, n) == 0
  {
    if n > 0 { NoAttempts(rows, sku, n - 1); }
  }

  lemma {:induction false} DeliveriesByOrder(rows: Rows, delivered: seq<int>, sku: Sku)
    ensures Sum(DemandIn(rows, sku), delivered) == AttemptedDemand(rows, delivered, sku, |rows|)
    decreases |delivered|
  {
    if delivered == [] {
      NoAttempts(rows, sku, |rows|);
    } else {
      var k := |delivered| - 1;
      assert delivered == delivered[..k] + [delivered[k]];
      DeliveriesByOrder(rows, delivered[..k], sku);
      SumAppend(DemandIn(rows, sku), delivered[..k], delivered[k]);
      OneMoreAttempt(rows, delivered[..k], delivered[k], sku, |rows|);
    }
  }

  function OrderDemand(sku: Sku): OrderData -> int {
    (r: OrderData) => Demand(r.lines, sku)
  }

  lemma {:induction false} BoundedAttempts(rows: Rows, delivered: seq<int>, sku: Sku, limit: nat, n: nat)
    requires RowsOk(rows) && n <= |rows|
    requires forall o :: 0 <= o < n ==> Count(delivered, o) <= limit
    ensures AttemptedDemand(rows, delivered, sku, n) <= limit * Sum(OrderDemand(sku), rows[..n])
  {
    if n > 0 {
      var last := rows[n - 1];
      assert rows[..n] == rows[..n - 1] + [last];
      SumAppend(OrderDemand(sku), rows[..n - 1], last);
      BoundedAttempts(rows, delivered, sku, limit, n - 1);
      assert RowOk(last);
      DemandNonNegative(last.lines, sku);
      RetryPolicy.MultiplyMonotone(Demand(last.lines, sku), Count(delivered, n - 1), limit);
      Distribute(limit, Sum(OrderDemand(sku), rows[..n - 1]), Demand(last.lines, sku));
    }
  }

  lemma Distribute(k: int, a: int, b: int)
    ensures k * (a + b) == k * a + k * b
  {
  }

  // ---------- the leak bounds ----------

  /** Per SKU, the stock taken lies between the demand of the confirmed orders and the sum over
      all orders of attempts times demand, in every run. */
  lemma LeakBounds(start: State, steps: seq<Step>, sku: Sku)
    requires Init(start) && Legal(start, steps)
    ensures var s := Exec(start, steps);
            var taken := Available(start.inventory, sku) - Available(s.inventory, sku);
            Sold(s, sku) <= taken <= AttemptedDemand(s.rows, s.delivered, sku, |s.rows|)
  {
    var s := Exec(start, steps);
    StockAccounting(start, steps, sku);
    InitOk(start);
    RunOk(start, steps);
    SharesNonNegative(s, sku);
    SumAllZero(LiveDemand(start.rows, sku), start.workers);
    RunPaid(start, steps, sku);
    PartsBelowDemand(s, sku);
    DeliveriesByOrder(s.rows, s.delivered, sku);
  }

  lemma AttemptsOfOneEvent(start: State, steps: seq<Step>, o: int)
    requires Init(start) && Legal(start, steps)
    requires Exec(start, steps).requeued == [] && Count(Exec(start, steps).entered, o) <= 1
    ensures Count(Exec(start, steps).delivered, o) <= start.config.maxAttempts + 1
  {
    AttemptBound(start, steps, o);
    RetryPolicy.MultiplyMonotone(start.config.maxAttempts + 1, Count(Exec(start, steps).entered, o), 1);
  }

  /** Without crashes, and with one event per order, no SKU loses more than maxAttempts + 1
      times the demand of all orders together. */
  lemma LeakBoundWithoutCrashes(start: State, steps: seq<Step>, sku: Sku)
    requires Init(start) && Legal(start, steps)
    requires Exec(start, steps).requeued == []
    requires forall o :: Count(Exec(start, steps).entered, o) <= 1
    ensures var s := Exec(start, steps);
            Available(start.inventory, sku) - Available(s.inventory, sku)
            <= (start.config.maxAttempts + 1) * Sum(OrderDemand(sku), s.rows)
  {
    var s := Exec(start, steps);
    var limit := start.config.maxAttempts + 1;
    LeakBounds(start, steps, sku);
    InitOk(start);
    RunOk(start, steps);
    forall o | 0 <= o < |s.rows| ensures Count(s.delivered, o) <= limit {
      AttemptsOfOneEvent(start, steps, o);
    }
    BoundedAttempts(s.rows, s.delivered, sku, limit, |s.rows|);
    assert s.rows[..|s.rows|] == s.rows;
  }
}
