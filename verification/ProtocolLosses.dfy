/** Stock does get lost: runs of the pipeline, without any crash, that end with nothing left to
    do and fewer units on the shelf than were not sold. */
module ProtocolLosses {
  import opened Wrappers
  import opened Orders
  import opened Tables
  import opened Processing
  import opened Protocol
  import opened ProtocolTermination
  import opened ProtocolRefinement
  import ProtocolTally

  /** An API call that nothing interrupts, and its event delivered to an idle worker. */
  lemma CreatedAndDelivered(start: State, customer: string, lines: seq<Line>, at: int)
    returns (steps: seq<Step>, t: State)
    requires Init(start) && start.workers != [] && ValidLines(lines)
    ensures Runs(start, steps, t)
    ensures t.rows == [OrderData(customer, lines, Pending, 1, None)] && t.inventory == start.inventory
    ensures t.workers == start.workers[0 := Delivered(Created(Event(0, 0)))]
    ensures t.main == [] && t.retry == [] && t.dead == [] && t.config == start.config
  {
    var s;
    steps, s := UninterruptedCreation(start, customer, lines, at, true, true);
    SameConfig(start, steps);
    assert start.workers[0].Idle?;
    RunsStep(start, steps, s, Deliver(0, 0));
    t := DoDeliver(s, 0, 0);
    steps := steps + [Deliver(0, 0)];
  }

  lemma {:induction false} SameConfig(s: State, steps: seq<Step>)
    requires Legal(s, steps)
    ensures Exec(s, steps).config == s.config
    decreases |steps|
  {
    if steps != [] {
      ProtocolTally.ApplyFrame(s, steps[0]);
      SameConfig(Apply(s, steps[0]), steps[1..]);
    }
  }

  /** The only copy of the event has come back from the retry queue to worker w. */
  lemma Redelivered(s: State, w: nat) returns (steps: seq<Step>, t: State)
    requires |s.retry| == 1 && s.main == [] && w < |s.workers| && s.workers[w].Idle?
    ensures Runs(s, steps, t)
    ensures t.rows == s.rows && t.inventory == s.inventory && t.config == s.config && t.dead == s.dead
    ensures t.workers == s.workers[w := Delivered(Created(s.retry[0]))] && t.main == [] && t.retry == []
  {
    var a := DoExpire(s, 0);
    t := DoDeliver(a, w, 0);
    ExecOne(s, Expire(0));
    RunsStep(s, [Expire(0)], a, Deliver(w, 0));
    steps := [Expire(0)] + [Deliver(w, 0)];
  }

  // ---------- a rejected order can keep stock ----------

  /** Two lines of q units each, when there is enough for one of them only. */
  predicate OneOfTwo(inventory: Inventory, lines: seq<Line>) {
    && |lines| == 2 && lines[0].sku == lines[1].sku && lines[0].quantity == lines[1].quantity > 0
    && lines[0].quantity <= Available(inventory, lines[0].sku) < 2 * lines[0].quantity
  }

  lemma FirstAttemptTakesOne(rows: Rows, inventory: Inventory, o: int, lines: seq<Line>, at: int)
    requires OneOfTwo(inventory, lines)
    requires Stored(rows, o) && rows[o].status == Pending && rows[o].lines == lines
    ensures var p := Process(rows, inventory, o, lines, at);
            && p.rows == rows && p.published == None && p.result.Failure?
            && Available(p.inventory, lines[0].sku) == Available(inventory, lines[0].sku) - lines[0].quantity
            && SomeShort(p.inventory, lines)
  {
    var after := Decrement(inventory, lines[0].sku, lines[0].quantity).value;
    assert Shortages(inventory, lines, 0) == [] && Shortages(inventory, lines, 1) == [];
    assert Shortages(inventory, lines, 2) == [];
    assert Take(inventory, lines, 0) == (inventory, 0);
    assert Take(inventory, lines, 1) == (after, 1);
    assert Take(inventory, lines, 2) == (after, 1);
    assert lines[0] in lines && Short(after, lines[0]);
  }

  lemma ProcessRejects(rows: Rows, inventory: Inventory, o: int, lines: seq<Line>, at: int)
    requires Stored(rows, o) && rows[o].status == Pending && rows[o].lines == lines
    requires OneCurrency(lines) && SomeShort(inventory, lines)
    ensures var p := Process(rows, inventory, o, lines, at);
            && p.result.Success? && p.inventory == inventory
            && |p.rows| == |rows| && p.rows[o].status == Rejected
  {
    WhenALineIsShort(rows, inventory, o, lines, at);
  }

  /** A delivery of an order with a short line rejects it and takes nothing. */
  lemma DeliveryRejects(s: State, e: Event, lines: seq<Line>, at: int) returns (steps: seq<Step>, t: State)
    requires s.workers == [Delivered(Created(e))]
    requires Stored(s.rows, e.order) && s.rows[e.order].status == Pending && s.rows[e.order].lines == lines
    requires Positive(lines) && OneCurrency(lines) && SomeShort(s.inventory, lines)
    ensures Runs(s, steps, t)
    ensures t.workers == [Idle] && t.main == s.main && t.retry == s.retry && t.dead == s.dead
    ensures t.inventory == s.inventory && |t.rows| == |s.rows| && t.rows[e.order].status == Rejected
  {
    steps, t := UninterruptedDelivery(s, 0, e, lines, at);
    ProcessRejects(s.rows, s.inventory, e.order, lines, at);
  }

  /** A retry of an order with a line that has become short ends it and takes nothing more. */
  lemma RetryRejects(s: State, e: Event, lines: seq<Line>, at: int) returns (steps: seq<Step>, t: State)
    requires s.retry == [e] && s.main == [] && s.workers == [Idle] && s.dead == []
    requires Stored(s.rows, e.order) && s.rows[e.order].status == Pending && s.rows[e.order].lines == lines
    requires Positive(lines) && OneCurrency(lines) && SomeShort(s.inventory, lines)
    ensures Runs(s, steps, t) && Quiet(t) && t.dead == [] && t.inventory == s.inventory
    ensures |t.rows| == |s.rows| && t.rows[e.order].status == Rejected
  {
    var c, last;
    steps, c := Redelivered(s, 0);
    last, t := DeliveryRejects(c, e, lines, at);
    RunsThen(s, steps, c, last, t);
    steps := steps + last;
  }

  /** The retry then finds the stock short that the first attempt took itself, and rejects the
      order; the units stay taken. So a rejection does not always leave the inventory
      untouched, with a single worker, no crash and no error of any store or queue. */
  lemma RejectedOrderCanKeepStock(start: State, customer: string, lines: seq<Line>, at: int)
    returns (steps: seq<Step>, t: State)
    requires Init(start) && start.workers == [Idle] && start.config.maxAttempts > 0
    requires OneOfTwo(start.inventory, lines) && OneCurrency(lines)
    ensures Runs(start, steps, t) && Quiet(t) && t.dead == []
    ensures |t.rows| == 1 && t.rows[0].status == Rejected
    ensures Available(t.inventory, lines[0].sku) == Available(start.inventory, lines[0].sku) - lines[0].quantity
  {
    var a, b, first, rest;
    steps, a := CreatedAndDelivered(start, customer, lines, at);
    first, b := UninterruptedDelivery(a, 0, Event(0, 0), lines, at);
    FirstAttemptTakesOne(a.rows, a.inventory, 0, lines, at);
    SameConfig(a, first);
    RunsThen(start, steps, a, first, b);
    rest, t := RetryRejects(b, Event(0, 1), lines, at);
    RunsThen(start, steps + first, b, rest, t);
    steps := steps + first + rest;
  }

  // ---------- a duplicate under way at the same time takes the stock again ----------

  predicate FitsTwice(inventory: Inventory, lines: seq<Line>) {
    forall l :: l in lines ==> 2 * Demand(lines, l.sku) <= Available(inventory, l.sku)
  }

  /** Worker 1 has read the pending order when worker 0 starts on its own copy. */
  lemma BothHaveIt(start: State, customer: string, lines: seq<Line>, at: int)
    returns (steps: seq<Step>, t: State)
    requires Init(start) && start.workers == [Idle, Idle] && ValidLines(lines)
    ensures Runs(start, steps, t)
    ensures var stored := OrderData(customer, lines, Pending, 1, None);
            && t.rows == [stored] && t.inventory == start.inventory
            && t.workers == [Delivered(Created(Event(0, 0))), Checking(Event(0, 0), stored, 0, [])]
            && t.main == [] && t.retry == [] && t.dead == [] && t.config == start.config
  {
    var a;
    steps, a := CreatedAndDelivered(start, customer, lines, at);
    var dup := Created(Event(0, 0));
    RunsStep(start, steps, a, Inject(dup));
    var b := DoInject(a, dup);
    steps := steps + [Inject(dup)];
    RunsStep(start, steps, b, Deliver(1, 0));
    var c := DoDeliver(b, 1, 0);
    steps := steps + [Deliver(1, 0)];
    RunsStep(start, steps, c, Act(1, Read));
    var d := DoRead(c, 1);
    steps := steps + [Act(1, Read)];
    RunsStep(start, steps, d, Act(1, ReadLines(lines)));
    t := DoAct(d, 1, ReadLines(lines));
    steps := steps + [Act(1, ReadLines(lines))];
  }

  /** An attempt at an order that fits finds no line short. */
  lemma FindsNothingShort(s: State, w: nat, e: Event, order: OrderData) returns (steps: seq<Step>)
    requires w < |s.workers| && s.workers[w] == Checking(e, order, 0, [])
    requires Positive(order.lines) && Fits(s.inventory, order.lines)
    ensures Runs(s, steps, Goto(s, w, Reserving(e, order, 0)))
  {
    FittingLinesAreNotShort(s.inventory, order.lines);
    ShortagesMeaning(s.inventory, order.lines, |order.lines|);
    steps := CheckAll(s, w, e, order, 0);
    var a := Goto(s, w, Checking(e, order, |order.lines|, []));
    RunsStep(s, steps, a, Act(w, Decide));
    assert DoDecide(a, w) == Goto(s, w, Reserving(e, order, 0));
    steps := steps + [Act(w, Decide)];
  }

  /** And takes every line. */
  lemma TakesEverything(s: State, w: nat, e: Event, order: OrderData) returns (steps: seq<Step>, t: State)
    requires w < |s.workers| && s.workers[w] == Checking(e, order, 0, [])
    requires Positive(order.lines) && Fits(s.inventory, order.lines)
    ensures Runs(s, steps, t)
    ensures t == Goto(s, w, Reserving(e, order, |order.lines|)).(inventory := t.inventory)
    ensures forall sku :: Available(t.inventory, sku) == Available(s.inventory, sku) - Demand(order.lines, sku)
  {
    var n := |order.lines|;
    steps := FindsNothingShort(s, w, e, order);
    var b := Goto(s, w, Reserving(e, order, 0));
    var reserve := ReserveAll(b, w, e, order, s.inventory, 0);
    TakesAllIffFits(s.inventory, order.lines);
    TakeMeaning(s.inventory, order.lines, n);
    assert order.lines[..n] == order.lines;
    t := AfterReserving(b, w, e, order, s.inventory);
    RunsThen(s, steps, b, reserve, t);
    steps := steps + reserve;
  }

  /** An attempt that read the order while pending goes on to take every line, finds the
      version moved on, and leaves its stock taken. */
  lemma LateAttempt(s: State, w: nat, e: Event, order: OrderData) returns (steps: seq<Step>, t: State)
    requires w < |s.workers| && s.workers[w] == Checking(e, order, 0, [])
    requires Positive(order.lines) && Fits(s.inventory, order.lines)
    requires Stored(s.rows, e.order) && s.rows[e.order].version != order.version
    requires e.retries < s.config.maxAttempts
    ensures Runs(s, steps, t)
    ensures t.rows == s.rows && t.main == s.main && t.dead == s.dead && t.config == s.config
    ensures t.workers == s.workers[w := Idle] && t.retry == s.retry + [Event(e.order, e.retries + 1)]
    ensures forall sku :: Available(t.inventory, sku) == Available(s.inventory, sku) - Demand(order.lines, sku)
  {
    var c, last;
    steps, c := TakesEverything(s, w, e, order);
    last, t := LockConflict(c, w, e, order);
    RunsThen(s, steps, c, last, t);
    steps := steps + last;
  }

  lemma LockConflict(s: State, w: nat, e: Event, order: OrderData) returns (steps: seq<Step>, t: State)
    requires w < |s.workers| && s.workers[w] == Reserving(e, order, |order.lines|)
    requires Stored(s.rows, e.order) && s.rows[e.order].version != order.version
    requires e.retries < s.config.maxAttempts
    ensures Runs(s, steps, t)
    ensures t.rows == s.rows && t.inventory == s.inventory && t.main == s.main && t.dead == s.dead
    ensures t.config == s.config
    ensures t.workers == s.workers[w := Idle] && t.retry == s.retry + [Event(e.order, e.retries + 1)]
  {
    var a := DoAct(s, w, Commit);
    assert a == Fail(s, w);
    ExecOne(s, Act(w, Commit));
    var b := DoHandOver(a, w);
    RunsStep(s, [Act(w, Commit)], a, Act(w, HandOver));
    steps := [Act(w, Commit)] + [Act(w, HandOver)];
    RunsStep(s, steps, b, Act(w, Ack));
    t := Goto(b, w, Idle);
    steps := steps + [Act(w, Ack)];
  }

  /** Worker 0 confirms the order while worker 1 still has it as pending. */
  lemma FirstConfirms(start: State, customer: string, lines: seq<Line>, at: int)
    returns (steps: seq<Step>, t: State)
    requires Init(start) && start.workers == [Idle, Idle]
    requires ValidLines(lines) && Fits(start.inventory, lines) && OneCurrency(lines)
    ensures Runs(start, steps, t)
    ensures t.rows == [OrderData(customer, lines, Confirmed, 2, None)]
    ensures t.workers == [Idle, Checking(Event(0, 0), OrderData(customer, lines, Pending, 1, None), 0, [])]
    ensures t.main == [] && t.retry == [] && t.dead == [] && t.config == start.config
    ensures forall sku :: Available(t.inventory, sku) == Available(start.inventory, sku) - Demand(lines, sku)
  {
    var a, first;
    steps, a := BothHaveIt(start, customer, lines, at);
    first, t := UninterruptedDelivery(a, 0, Event(0, 0), lines, at);
    ExactOutcome(a.rows, a.inventory, 0, lines, at);
    ReturnsIff(a.rows, a.inventory, 0, lines, at);
    SameConfig(a, first);
    RunsThen(start, steps, a, first, t);
    steps := steps + first;
  }

  /** The last copy comes back, finds the order confirmed, and is acknowledged. */
  lemma LastCopySkipped(s: State, at: int) returns (steps: seq<Step>, t: State)
    requires |s.rows| == 1 && s.rows[0].status == Confirmed && s.workers == [Idle, Idle]
    requires s.main == [] && s.retry == [Event(0, 1)] && s.dead == []
    ensures Runs(s, steps, t) && Quiet(t) && t.dead == [] && t.rows == s.rows && t.inventory == s.inventory
  {
    var d, last;
    steps, d := Redelivered(s, 0);
    last, t := UninterruptedDelivery(d, 0, Event(0, 1), s.rows[0].lines, at);
    RunsThen(s, steps, d, last, t);
    steps := steps + last;
  }

  lemma TwiceLeavesOnce(inventory: Inventory, after: Inventory, lines: seq<Line>)
    requires ValidLines(lines) && FitsTwice(inventory, lines)
    requires forall sku :: Available(after, sku) == Available(inventory, sku) - Demand(lines, sku)
    ensures Fits(after, lines)
  {
  }

  /** The second copy of an event is not always a no-op: taken up while the first is being
      processed, it decrements the whole order's stock once more. The order is confirmed once,
      and its demand has left the shelf twice, with no crash and no repeated SKU needed. */
  lemma ConcurrentDuplicateTakesTwice(start: State, customer: string, lines: seq<Line>, at: int)
    returns (steps: seq<Step>, t: State)
    requires Init(start) && start.workers == [Idle, Idle] && start.config.maxAttempts > 0
    requires ValidLines(lines) && FitsTwice(start.inventory, lines) && OneCurrency(lines)
    ensures Runs(start, steps, t) && Quiet(t) && t.dead == []
    ensures t.rows == [OrderData(customer, lines, Confirmed, 2, None)]
    ensures forall sku :: Available(t.inventory, sku) == Available(start.inventory, sku) - 2 * Demand(lines, sku)
  {
    forall l | l in lines ensures Demand(lines, l.sku) <= Available(start.inventory, l.sku) {
      DemandNonNegative(lines, l.sku);
    }
    var b, c, second, third;
    steps, b := FirstConfirms(start, customer, lines, at);
    TwiceLeavesOnce(start.inventory, b.inventory, lines);
    second, c := LateAttempt(b, 1, Event(0, 0), OrderData(customer, lines, Pending, 1, None));
    RunsThen(start, steps, b, second, c);
    third, t := LastCopySkipped(c, at);
    RunsThen(start, steps + second, c, third, t);
    steps := steps + second + third;
  }

  // ---------- so does an attempt that is interrupted before its commit ----------

  /** The only worker has taken every line of the first order and not yet stored its status. */
  lemma EverythingTaken(start: State, customer: string, lines: seq<Line>, at: int)
    returns (steps: seq<Step>, t: State)
    requires Init(start) && start.workers == [Idle] && ValidLines(lines) && Fits(start.inventory, lines)
    ensures Runs(start, steps, t)
    ensures var stored := OrderData(customer, lines, Pending, 1, None);
            t.rows == [stored] && t.workers == [Reserving(Event(0, 0), stored, |lines|)]
    ensures t.main == [] && t.retry == [] && t.dead == [] && t.config == start.config
    ensures forall sku :: Available(t.inventory, sku) == Available(start.inventory, sku) - Demand(lines, sku)
  {
    var a, rest;
    steps, a := CreatedAndDelivered(start, customer, lines, at);
    RunsStep(start, steps, a, Act(0, Read));
    var b := DoRead(a, 0);
    steps := steps + [Act(0, Read)];
    RunsStep(start, steps, b, Act(0, ReadLines(lines)));
    var c := DoAct(b, 0, ReadLines(lines));
    steps := steps + [Act(0, ReadLines(lines))];
    rest, t := TakesEverything(c, 0, Event(0, 0), OrderData(customer, lines, Pending, 1, None));
    RunsThen(start, steps, c, rest, t);
    steps := steps + rest;
  }

  /** Its message comes back to it, by the broker or by the retry queue. */
  lemma Interrupted(s: State, e: Event, order: OrderData, crash: bool) returns (steps: seq<Step>, t: State)
    requires s.workers == [Reserving(e, order, |order.lines|)] && s.main == [] && s.retry == []
    requires e.retries < s.config.maxAttempts
    ensures Runs(s, steps, t)
    ensures t.workers == [Delivered(Created(Event(e.order, if crash then e.retries else e.retries + 1)))]
    ensures t.main == [] && t.retry == [] && t.dead == s.dead && t.rows == s.rows && t.inventory == s.inventory
  {
    if crash {
      var a := DoCrash(s, 0);
      ExecOne(s, Crash(0));
      assert a.workers == [Idle] && a.main == [Created(e)];
      RunsStep(s, [Crash(0)], a, Deliver(0, 0));
      steps, t := [Crash(0)] + [Deliver(0, 0)], DoDeliver(a, 0, 0);
    } else {
      var a := Fail(s, 0);
      ExecOne(s, Act(0, Throw));
      RunsStep(s, [Act(0, Throw)], a, Act(0, HandOver));
      var b := DoHandOver(a, 0);
      steps := [Act(0, Throw)] + [Act(0, HandOver)];
      RunsStep(s, steps, b, Act(0, Ack));
      var c := Goto(b, 0, Idle);
      steps := steps + [Act(0, Ack)];
      var back;
      back, t := Redelivered(c, 0);
      RunsThen(s, steps, c, back, t);
      steps := steps + back;
    }
  }

  /** With a single worker, orders of any kind and no duplicate: a crash, or an exception such as a
      lost connection, between the last decrement and the status update makes the repeated attempt
      take the whole order's stock again. */
  lemma InterruptionTakesTwice(start: State, customer: string, lines: seq<Line>, at: int, crash: bool)
    returns (steps: seq<Step>, t: State)
    requires Init(start) && start.workers == [Idle] && start.config.maxAttempts > 0
    requires ValidLines(lines) && FitsTwice(start.inventory, lines) && OneCurrency(lines)
    ensures Runs(start, steps, t) && Quiet(t) && t.dead == []
    ensures t.rows == [OrderData(customer, lines, Confirmed, 2, None)]
    ensures forall sku :: Available(t.inventory, sku) == Available(start.inventory, sku) - 2 * Demand(lines, sku)
  {
    forall l | l in lines ensures Demand(lines, l.sku) <= Available(start.inventory, l.sku) {
      DemandNonNegative(lines, l.sku);
    }
    var b, c, second, third;
    steps, b := EverythingTaken(start, customer, lines, at);
    TwiceLeavesOnce(start.inventory, b.inventory, lines);
    second, c := Interrupted(b, Event(0, 0), OrderData(customer, lines, Pending, 1, None), crash);
    RunsThen(start, steps, b, second, c);
    third, t := UninterruptedDelivery(c, 0, Event(0, if crash then 0 else 1), lines, at);
    WhenItFits(c.rows, c.inventory, 0, lines, at);
    RunsThen(start, steps + second, c, third, t);
    steps := steps + second + third;
  }
}
