/** Processing winds down: without new messages or crashes every run of the workers and the
    broker ends, and it ends with every published order settled or dead-lettered. */
module ProtocolTermination {
  import opened Orders
  import opened Tables
  import opened Sums
  import opened Protocol
  import opened ProtocolState
  import opened ProtocolTally
  import opened ProtocolStock
  import opened ProtocolAttempts
  import opened ProtocolDelivery

  predicate Processing(step: Step) {
    step.Expire? || step.Deliver? || step.Act?
  }

  /** The number of lines of each order. */
  function Lengths(rows: Rows): (r: seq<nat>)
    ensures |r| == |rows|
  {
    seq(|rows|, i requires 0 <= i < |rows| => |rows[i].lines|)
  }

  function LengthOf(lengths: seq<nat>, o: int): nat {
    if 0 <= o < |lengths| then lengths[o] else 0
  }

  /** More than the steps of one attempt at an order. */
  function AttemptCost(lengths: seq<nat>, o: int): nat {
    2 * LengthOf(lengths, o) + 9
  }

  function RetryCost(lengths: seq<nat>, max: nat, e: Event): nat {
    AttemptCost(lengths, e.order) * Remaining(max, e.retries)
  }

  function QueuedCost(lengths: seq<nat>, max: nat, e: Event): nat {
    AttemptCost(lengths, e.order) + RetryCost(lengths, max, e)
  }

  /** The steps a worker still needs, the retries its message may lead to included. */
  function WorkerSteps(lengths: seq<nat>, max: nat, w: Worker): int {
    match w
    case Idle => 0
    case Done(_) => 1
    case Handed(_) => 1
    case Delivered(msg) =>
      if msg.Malformed? then 2
      else 2 * LengthOf(lengths, msg.event.order) + 8 + RetryCost(lengths, max, msg.event)
    case RowRead(e, _) => 2 * LengthOf(lengths, e.order) + 7 + RetryCost(lengths, max, e)
    case Checking(e, order, next, _) => 2 * |order.lines| - next + 6 + RetryCost(lengths, max, e)
    case Reserving(e, order, next) => |order.lines| - next + 5 + RetryCost(lengths, max, e)
    case Announcing(e, _) => 4 + RetryCost(lengths, max, e)
    case Failed(e) => 3 + RetryCost(lengths, max, e)
  }

  function MsgSteps(lengths: seq<nat>, max: nat): Msg -> int {
    (m: Msg) => if m.Malformed? then 3 else QueuedCost(lengths, max, m.event)
  }

  function EventSteps(lengths: seq<nat>, max: nat): Event -> int {
    (e: Event) => 1 + QueuedCost(lengths, max, e)
  }

  function StepsLeft(lengths: seq<nat>, max: nat): Weights {
    Weights(MsgSteps(lengths, max), EventSteps(lengths, max), Zero(), (w: Worker) => WorkerSteps(lengths, max, w))
  }

  function Measure(s: State): int {
    Tally(s, StepsLeft(Lengths(s.rows), s.config.maxAttempts))
  }

  // ---------- every processing step makes progress ----------

  lemma LengthsExtend(s: State, step: Step)
    requires Ok(s) && Enabled(s, step) && Processing(step)
    ensures Lengths(Apply(s, step).rows) == Lengths(s.rows)
  {
    var t := Apply(s, step);
    ApplyExtends(s, step);
    ApplyFrame(s, step);
    ProcessingKeepsCount(s, step);
    forall i | 0 <= i < |s.rows| ensures Lengths(t.rows)[i] == Lengths(s.rows)[i] {
      assert Evolves(s.rows[i], t.rows[i]);
    }
  }

  lemma StoreKeepsCount(s: State, w: nat, order: OrderData)
    requires w < |s.workers| && (s.workers[w].Checking? || s.workers[w].Reserving?)
    ensures |Store(s, w, order).rows| == |s.rows|
  {
  }

  lemma ProcessingKeepsCount(s: State, step: Step)
    requires Enabled(s, step) && Processing(step)
    ensures |Apply(s, step).rows| == |s.rows|
  {
    if step.Act? {
      var p := s.workers[step.w];
      if step.action.Decide? && p.shortages != [] {
        StoreKeepsCount(s, step.w, Reject(p.order, p.shortages));
      }
      if step.action.Commit? {
        StoreKeepsCount(s, step.w, Confirm(p.order));
      }
    }
  }

  predicate Lowers(s: State, w: nat, q: Worker) {
    w < |s.workers| &&
    WorkerSteps(Lengths(s.rows), s.config.maxAttempts, q)
    < WorkerSteps(Lengths(s.rows), s.config.maxAttempts, s.workers[w])
  }

  lemma ReadProgress(s: State, w: nat)
    requires Ok(s) && CanAct(s, w, Read)
    ensures Lowers(s, w, DoRead(s, w).workers[w])
  {
  }

  lemma ReadLinesProgress(s: State, w: nat, lines: seq<Line>)
    requires Ok(s) && CanAct(s, w, ReadLines(lines))
    ensures Lowers(s, w, DoAct(s, w, ReadLines(lines)).workers[w])
  {
    SameElements(lines, s.rows[s.workers[w].event.order].lines);
  }

  lemma StoreProgress(s: State, w: nat, order: OrderData)
    requires w < |s.workers| && (s.workers[w].Checking? || s.workers[w].Reserving?)
    requires s.workers[w].next <= |s.workers[w].order.lines|
    ensures Lowers(s, w, Store(s, w, order).workers[w])
  {
  }

  lemma ReserveProgress(s: State, w: nat)
    requires CanAct(s, w, Reserve)
    ensures Lowers(s, w, DoReserve(s, w).workers[w])
  {
  }

  lemma AnnounceProgress(s: State, w: nat, at: int)
    requires CanAct(s, w, Announce(at))
    ensures Lowers(s, w, DoAnnounce(s, w, at).workers[w])
  {
  }

  lemma ThrowProgress(s: State, w: nat)
    requires CanAct(s, w, Throw) && WorkerOk(s.rows, s.workers[w])
    ensures Lowers(s, w, Fail(s, w).workers[w])
  {
  }

  lemma ActProgress(s: State, w: nat, a: Action)
    requires Ok(s) && CanAct(s, w, a) && !a.HandOver?
    ensures Lowers(s, w, DoAct(s, w, a).workers[w])
  {
    var p := s.workers[w];
    assert WorkerOk(s.rows, p);
    match a
    case Read => ReadProgress(s, w);
    case ReadLines(lines) => ReadLinesProgress(s, w, lines);
    case Decide =>
      if p.shortages != [] { StoreProgress(s, w, Reject(p.order, p.shortages)); }
    case Reserve => ReserveProgress(s, w);
    case Commit => StoreProgress(s, w, Confirm(p.order));
    case Announce(at) => AnnounceProgress(s, w, at);
    case Throw => ThrowProgress(s, w);
    case Check =>
    case Ack =>
  }

  lemma HandOverProgress(s: State, w: nat)
    requires CanAct(s, w, HandOver)
    ensures Change(s, Act(w, HandOver), StepsLeft(Lengths(s.rows), s.config.maxAttempts)) < 0
  {
  }

  lemma Progress(s: State, step: Step)
    requires Ok(s) && Enabled(s, step) && Processing(step)
    ensures Measure(Apply(s, step)) < Measure(s)
  {
    TallyStep(s, step, StepsLeft(Lengths(s.rows), s.config.maxAttempts));
    LengthsExtend(s, step);
    ApplyFrame(s, step);
    if step.Act? {
      if step.action.HandOver? {
        HandOverProgress(s, step.w);
      } else {
        ActProgress(s, step.w, step.action);
      }
    }
  }

  lemma MeasureNonNegative(s: State)
    requires Ok(s)
    ensures Measure(s) >= 0
  {
    var lengths, max := Lengths(s.rows), s.config.maxAttempts;
    var g := StepsLeft(lengths, max);
    forall w | w in s.workers ensures g.worker(w) >= 0 {
      assert WorkerOk(s.rows, w);
    }
    SumNonNegative(g.msg, s.main);
    SumNonNegative(g.event, s.retry);
    SumAllZero(g.dead, s.dead);
    SumNonNegative(g.worker, s.workers);
  }

  predicate AllProcessing(steps: seq<Step>) {
    forall i :: 0 <= i < |steps| ==> Processing(steps[i])
  }

  /** No run of processing steps is longer than the measure of the state it starts in. */
  lemma {:induction false} ProcessingTerminates(s: State, steps: seq<Step>)
    requires Ok(s) && Legal(s, steps) && AllProcessing(steps)
    ensures |steps| <= Measure(s)
    decreases |steps|
  {
    MeasureNonNegative(s);
    if steps != [] {
      assert Processing(steps[0]);
      Progress(s, steps[0]);
      ApplyOk(s, steps[0]);
      ProcessingTerminates(Apply(s, steps[0]), steps[1..]);
    }
  }

  // ---------- and only stops when nothing is left ----------

  predicate Quiet(s: State) {
    s.main == [] && s.retry == [] && forall w :: w in s.workers ==> w.Idle?
  }

  /** The statement a busy worker is at can always be carried out. */
  function NextAction(s: State, w: nat): Action
    requires w < |s.workers| && !s.workers[w].Idle?
  {
    var p := s.workers[w];
    match p
    case Delivered(_) => Read
    case RowRead(e, _) => if Stored(s.rows, e.order) then ReadLines(s.rows[e.order].lines) else Throw
    case Checking(_, order, next, _) => if next == |order.lines| then Decide else Check
    case Reserving(_, order, next) => if next == |order.lines| then Commit else Reserve
    case Announcing(_, _) => Announce(0)
    case Failed(_) => HandOver
    case _ => Ack
  }

  lemma NoDeadlock(s: State)
    requires Ok(s) && s.workers != [] && !Quiet(s)
    ensures exists step :: Processing(step) && Enabled(s, step)
  {
    if s.retry != [] {
      assert Processing(Expire(0)) && Enabled(s, Expire(0));
    } else if w :| 0 <= w < |s.workers| && !s.workers[w].Idle? {
      assert WorkerOk(s.rows, s.workers[w]);
      assert Processing(Act(w, NextAction(s, w))) && Enabled(s, Act(w, NextAction(s, w)));
    } else {
      assert s.workers[0].Idle?;
      assert Processing(Deliver(0, 0)) && Enabled(s, Deliver(0, 0));
    }
  }

  /** From every well-formed state some run of processing steps reaches quiet. */
  lemma {:induction false} WindsDown(s: State) returns (steps: seq<Step>)
    requires Ok(s) && s.workers != []
    ensures Legal(s, steps) && AllProcessing(steps) && Quiet(Exec(s, steps))
    decreases Measure(s)
  {
    steps := [];
    if !Quiet(s) {
      NoDeadlock(s);
      var step :| Processing(step) && Enabled(s, step);
      StepDown(s, step);
      var rest := WindsDown(Apply(s, step));
      steps := [step] + rest;
      assert steps[1..] == rest;
    }
  }

  lemma StepDown(s: State, step: Step)
    requires Ok(s) && s.workers != [] && Processing(step) && Enabled(s, step)
    ensures Ok(Apply(s, step)) && Apply(s, step).workers != []
    ensures 0 <= Measure(Apply(s, step)) < Measure(s)
  {
    Progress(s, step);
    ApplyOk(s, step);
    ApplyFrame(s, step);
    MeasureNonNegative(Apply(s, step));
  }

  /** Once processing has stopped, every published order is confirmed, rejected or in the
      dead-letter queue, and the stock is what is available, sold, or lost to failed attempts. */
  lemma QuietOutcome(start: State, steps: seq<Step>, sku: Sku)
    requires Init(start) && Legal(start, steps) && start.workers != []
    requires forall step :: Processing(step) ==> !Enabled(Exec(start, steps), step)
    ensures var s := Exec(start, steps);
            && Quiet(s)
            && (forall o :: o in s.entered ==> Settled(s, o) || exists d :: d in s.dead && d.order == o)
            && Available(start.inventory, sku) == Available(s.inventory, sku) + Sold(s, sku) + Lost(s, sku)
  {
    var s := Exec(start, steps);
    InitOk(start);
    RunOk(start, steps);
    WorkersStay(start, steps);
    if !Quiet(s) { NoDeadlock(s); }
    forall o | o in s.entered ensures Settled(s, o) || exists d :: d in s.dead && d.order == o {
      NoOrderLost(start, steps, o);
    }
    StockAccounting(start, steps, sku);
    SumAllZero(HeldUnits(sku), s.workers);
  }

  lemma {:induction false} WorkersStay(s: State, steps: seq<Step>)
    requires Legal(s, steps)
    ensures |Exec(s, steps).workers| == |s.workers|
    decreases |steps|
  {
    if steps != [] {
      ApplyFrame(s, steps[0]);
      WorkersStay(Apply(s, steps[0]), steps[1..]);
    }
  }
}
