/** Which steps lose stock, and which orders a single worker loses none for. */
module ProtocolConservation {
  import opened Orders
  import opened Tables
  import opened Sums
  import opened Processing
  import opened Protocol
  import opened ProtocolState
  import opened ProtocolTally
  import opened ProtocolStock

  // ---------- the steps that lose stock ----------

  predicate ReservingAt(s: State, w: nat) {
    w < |s.workers| && s.workers[w].Reserving?
  }

  /** A crash or an exception between two statements. */
  predicate Interrupts(s: State, step: Step) {
    (step.Crash? || (step.Act? && step.action.Throw?)) && ReservingAt(s, step.w)
  }

  /** A statement that affects no row: a decrement for want of stock, or the commit of an order
      whose version has moved on. */
  predicate Refused(s: State, w: nat, a: Action) {
    ReservingAt(s, w) &&
    var p := s.workers[w];
    || (a.Reserve? && p.next < |p.order.lines|
        && Decrement(s.inventory, p.order.lines[p.next].sku, p.order.lines[p.next].quantity).None?)
    || (a.Commit? && (!Stored(s.rows, p.event.order) || s.rows[p.event.order].version != p.order.version))
  }

  /** The step ends an attempt that has already taken stock, and not by a commit. */
  predicate Abandons(s: State, step: Step) {
    && (Interrupts(s, step) || (step.Act? && Refused(s, step.w, step.action)))
    && s.workers[step.w].next > 0
  }

  predicate SomeAbandoned(s: State, steps: seq<Step>)
    requires Legal(s, steps)
    decreases |steps|
  {
    steps != [] && (Abandons(s, steps[0]) || SomeAbandoned(Apply(s, steps[0]), steps[1..]))
  }

  lemma StoreLeaks(s: State, w: nat, order: OrderData)
    requires w < |s.workers| && (s.workers[w].Checking? || s.workers[w].Reserving?)
    ensures Store(s, w, order).leaks ==
            if UpdateStatus(s.rows, s.workers[w].event.order, order.status, order.version, ReasonToStore(order)).None?
            then LeaksAfter(s, w) else s.leaks
  {
  }

  lemma ReserveLeaks(s: State, w: nat)
    requires CanAct(s, w, Reserve)
    ensures DoReserve(s, w).leaks == if Refused(s, w, Reserve) then LeaksAfter(s, w) else s.leaks
  {
  }

  lemma ReadLeaks(s: State, w: nat)
    requires CanAct(s, w, Read)
    ensures DoRead(s, w).leaks == s.leaks
  {
  }

  lemma AnnounceLeaks(s: State, w: nat, at: int)
    requires CanAct(s, w, Announce(at))
    ensures DoAnnounce(s, w, at).leaks == s.leaks
  {
  }

  lemma ActLeaks(s: State, w: nat, a: Action)
    requires CanAct(s, w, a)
    ensures DoAct(s, w, a).leaks == if Interrupts(s, Act(w, a)) || Refused(s, w, a) then LeaksAfter(s, w) else s.leaks
  {
    var p := s.workers[w];
    match a
    case Decide =>
      if p.shortages != [] { StoreLeaks(s, w, Reject(p.order, p.shortages)); }
    case Commit => StoreLeaks(s, w, Confirm(p.order));
    case Reserve => ReserveLeaks(s, w);
    case Read => ReadLeaks(s, w);
    case Announce(at) => AnnounceLeaks(s, w, at);
    case _ =>
  }

  lemma StepLeaks(s: State, step: Step)
    requires Enabled(s, step)
    ensures Apply(s, step).leaks ==
            if Interrupts(s, step) || (step.Act? && Refused(s, step.w, step.action))
            then LeaksAfter(s, step.w) else s.leaks
  {
    match step
    case Act(w, a) => ActLeaks(s, w, a);
    case Crash(w) =>
    case _ => ApplyFrame(s, step);
  }

  /** A step loses exactly what the attempt it abandons has taken. */
  lemma StepLoses(s: State, step: Step, sku: Sku)
    requires Ok(s) && Enabled(s, step)
    ensures Lost(Apply(s, step), sku) ==
            Lost(s, sku) + if Abandons(s, step) then HeldUnits(sku)(s.workers[step.w]) else 0
  {
    StepLeaks(s, step);
    if Interrupts(s, step) || (step.Act? && Refused(s, step.w, step.action)) {
      var p := s.workers[step.w];
      assert WorkerOk(s.rows, p);
      SumAppend(LeakedUnits(sku), s.leaks, Leak(p.event.order, p.order.lines, p.next));
      assert p.order.lines[..0] == [];
    }
  }

  /** An attempt that has taken a line holds some of that line's SKU. */
  lemma HoldsFirst(s: State, w: nat)
    requires Ok(s) && ReservingAt(s, w)
    ensures forall sku :: HeldUnits(sku)(s.workers[w]) >= 0
    ensures s.workers[w].next > 0 ==>
              s.workers[w].order.lines != [] && HeldUnits(s.workers[w].order.lines[0].sku)(s.workers[w]) > 0
  {
    var p := s.workers[w];
    assert WorkerOk(s.rows, p) && RowOk(s.rows[p.event.order]);
    SameElements(p.order.lines, s.rows[p.event.order].lines);
    forall sku ensures HeldUnits(sku)(p) >= 0 {
      DemandPrefix(p.order.lines, p.next, sku);
    }
    if p.next > 0 {
      var taken := p.order.lines[..p.next];
      assert taken[0] in taken && taken[0] in p.order.lines;
      DemandNonNegative(taken, taken[0].sku);
    }
  }

  lemma StepLosesIff(s: State, step: Step)
    requires Ok(s) && Enabled(s, step)
    ensures forall sku :: Lost(s, sku) <= Lost(Apply(s, step), sku)
    ensures (forall sku :: Lost(Apply(s, step), sku) == Lost(s, sku)) <==> !Abandons(s, step)
  {
    if Abandons(s, step) { HoldsFirst(s, step.w); }
    forall sku
      ensures Lost(Apply(s, step), sku) ==
              Lost(s, sku) + if Abandons(s, step) then HeldUnits(sku)(s.workers[step.w]) else 0
    {
      StepLoses(s, step, sku);
    }
  }

  lemma {:induction false} RunLosesIff(s: State, steps: seq<Step>)
    requires Ok(s) && Legal(s, steps)
    ensures forall sku :: Lost(s, sku) <= Lost(Exec(s, steps), sku)
    ensures (forall sku :: Lost(Exec(s, steps), sku) == Lost(s, sku)) <==> !SomeAbandoned(s, steps)
    decreases |steps|
  {
    if steps != [] {
      var t, u := Apply(s, steps[0]), Exec(s, steps);
      StepLosesIff(s, steps[0]);
      ApplyOk(s, steps[0]);
      RunLosesIff(t, steps[1..]);
      forall sku ensures Lost(s, sku) <= Lost(t, sku) <= Lost(u, sku) { }
      if forall sku :: Lost(u, sku) == Lost(s, sku) {
        forall sku ensures Lost(t, sku) == Lost(s, sku) { assert Lost(u, sku) == Lost(s, sku); }
        forall sku ensures Lost(u, sku) == Lost(t, sku) { assert Lost(u, sku) == Lost(s, sku); }
      }
    }
  }

  /** What the shelf has lost since the start is sold or held by an attempt under way. */
  ghost predicate NothingMissing(start: State, s: State) {
    forall sku :: Available(start.inventory, sku) == Available(s.inventory, sku) + Sold(s, sku) + HeldBack(s, sku)
  }

  /** Over every run with any number of workers: no unit is missing iff no attempt that had
      taken stock crashed, threw, was refused a further line, or lost the race for its order. */
  lemma StockKeptIff(start: State, steps: seq<Step>)
    requires Init(start) && Legal(start, steps)
    ensures NothingMissing(start, Exec(start, steps)) <==> !SomeAbandoned(start, steps)
  {
    var s := Exec(start, steps);
    InitOk(start);
    RunLosesIff(start, steps);
    forall sku
      ensures Available(start.inventory, sku) ==
              Available(s.inventory, sku) + Sold(s, sku) + HeldBack(s, sku) + Lost(s, sku)
      ensures Lost(start, sku) == 0
    {
      StockAccounting(start, steps, sku);
    }
    if NothingMissing(start, s) {
      forall sku ensures Lost(s, sku) == Lost(start, sku) {
        assert Available(start.inventory, sku) == Available(s.inventory, sku) + Sold(s, sku) + HeldBack(s, sku);
      }
    }
  }

  // ---------- one worker ----------

  predicate Uninterrupted(s: State, steps: seq<Step>)
    requires Legal(s, steps)
    decreases |steps|
  {
    steps == [] || (!Interrupts(s, steps[0]) && Uninterrupted(Apply(s, steps[0]), steps[1..]))
  }

  /** When the worker goes on to reserve, the stock covers the order as a whole. */
  predicate FitsIfReserved(s: State, step: Step) {
    step.Act? && step.action.Decide? && CanAct(s, step.w, Decide) && s.workers[step.w].shortages == [] ==>
      Fits(s.inventory, s.workers[step.w].order.lines)
  }

  predicate AllFit(s: State, steps: seq<Step>)
    requires Legal(s, steps)
    decreases |steps|
  {
    steps == [] || (FitsIfReserved(s, steps[0]) && AllFit(Apply(s, steps[0]), steps[1..]))
  }

  predicate NoneShort(inventory: Inventory, lines: seq<Line>, n: nat) {
    forall i :: 0 <= i < n && i < |lines| ==> !Short(inventory, lines[i])
  }

  /** With one worker nothing moves under it: its order is still pending, and the lines it has
      checked are still there. */
  predicate Steady(s: State) {
    && |s.workers| == 1
    && match s.workers[0]
       case RowRead(e, _) => Open(s.rows, e.order)
       case Checking(e, order, next, shortages) =>
         Open(s.rows, e.order) && (shortages == [] ==> NoneShort(s.inventory, order.lines, next))
       case Reserving(e, order, next) =>
         Open(s.rows, e.order) && (next == 0 ==> NoneShort(s.inventory, order.lines, |order.lines|))
       case _ => true
  }

  /** The worker is reserving, and what is left does not cover the lines left. */
  predicate Doomed(s: State) {
    && ReservingAt(s, 0) && s.workers[0].next <= |s.workers[0].order.lines|
    && !Fits(s.inventory, s.workers[0].order.lines[s.workers[0].next..])
  }

  /** Lines fit iff the first can be taken and the others fit what it leaves. */
  lemma FitsFirst(inventory: Inventory, lines: seq<Line>)
    requires lines != [] && Positive(lines)
    ensures var after := Decrement(inventory, lines[0].sku, lines[0].quantity);
            Fits(inventory, lines) <==> after.Some? && Fits(after.value, lines[1..])
  {
    var first, rest := lines[0], lines[1..];
    assert forall l :: l in lines <==> l == first || l in rest;
    assert first in lines;
    forall sku ensures Demand(lines, sku) == UnitsOf(sku)(first) + Demand(rest, sku) && Demand(rest, sku) >= 0 {
      DemandNonNegative(rest, sku);
    }
    var after := Decrement(inventory, first.sku, first.quantity);
    if after.Some? && Fits(after.value, rest) {
      forall l | l in lines ensures Demand(lines, l.sku) <= Available(inventory, l.sku) {
        if forall m :: m in rest ==> m.sku != l.sku { DemandOfAbsent(rest, l.sku); }
      }
    }
    if Fits(inventory, lines) {
      assert Demand(lines, first.sku) <= Available(inventory, first.sku);
      forall l | l in rest ensures Demand(rest, l.sku) <= Available(after.value, l.sku) {
        assert l in lines;
      }
    }
  }

  lemma RestFits(inventory: Inventory, lines: seq<Line>, k: nat)
    requires k < |lines| && Positive(lines)
    ensures var after := Decrement(inventory, lines[k].sku, lines[k].quantity);
            Fits(inventory, lines[k..]) <==> after.Some? && Fits(after.value, lines[k + 1..])
  {
    assert forall l :: l in lines[k..] ==> l in lines;
    FitsFirst(inventory, lines[k..]);
    assert lines[k..][1..] == lines[k + 1..];
  }

  lemma StoreSteady(s: State, w: nat, order: OrderData)
    requires Steady(s) && w < |s.workers| && (s.workers[w].Checking? || s.workers[w].Reserving?)
    ensures var t := Store(s, w, order); Steady(t) && (t.workers[0].Announcing? || t.workers[0].Failed?)
  {
  }

  lemma CommitsOpen(s: State)
    requires Ok(s) && Steady(s) && CanAct(s, 0, Commit)
    ensures !Refused(s, 0, Commit) && !Doomed(s)
  {
    var p := s.workers[0];
    assert WorkerOk(s.rows, p) && RowOk(s.rows[p.event.order]);
  }

  lemma CheckSteady(s: State)
    requires Ok(s) && Steady(s) && CanAct(s, 0, Check)
    ensures Steady(DoCheck(s, 0)) && !Doomed(DoCheck(s, 0))
  {
  }

  lemma DecideSteady(s: State)
    requires Ok(s) && Steady(s) && CanAct(s, 0, Decide)
    ensures Steady(DoDecide(s, 0))
    ensures Doomed(DoDecide(s, 0)) <==> !FitsIfReserved(s, Act(0, Decide))
  {
    var p := s.workers[0];
    if p.shortages != [] {
      StoreSteady(s, 0, Reject(p.order, p.shortages));
    } else {
      assert p.order.lines[0..] == p.order.lines;
    }
  }

  lemma ReserveSteady(s: State)
    requires Ok(s) && Steady(s) && CanAct(s, 0, Reserve)
    ensures Steady(DoReserve(s, 0))
    ensures Abandons(s, Act(0, Reserve)) || Doomed(DoReserve(s, 0)) <==> Doomed(s)
  {
    var p := s.workers[0];
    assert WorkerOk(s.rows, p) && RowOk(s.rows[p.event.order]);
    SameElements(p.order.lines, s.rows[p.event.order].lines);
    RestFits(s.inventory, p.order.lines, p.next);
  }

  lemma ReadSteady(s: State)
    requires Ok(s) && Steady(s) && CanAct(s, 0, Read)
    ensures Steady(DoRead(s, 0)) && !Doomed(DoRead(s, 0))
  {
  }

  lemma AnnounceSteady(s: State, at: int)
    requires Steady(s) && CanAct(s, 0, Announce(at))
    ensures Steady(DoAnnounce(s, 0, at)) && !Doomed(DoAnnounce(s, 0, at))
  {
  }

  /** A single worker abandons an attempt only after it decided to reserve what did not fit. */
  lemma ActSteady(s: State, a: Action)
    requires Ok(s) && Steady(s) && CanAct(s, 0, a) && !Interrupts(s, Act(0, a))
    ensures Steady(DoAct(s, 0, a))
    ensures Abandons(s, Act(0, a)) || Doomed(DoAct(s, 0, a)) <==> Doomed(s) || !FitsIfReserved(s, Act(0, a))
  {
    var p := s.workers[0];
    match a
    case Read => ReadSteady(s);
    case Check => CheckSteady(s);
    case Decide => DecideSteady(s);
    case Reserve => ReserveSteady(s);
    case Commit =>
      CommitsOpen(s);
      StoreSteady(s, 0, Confirm(p.order));
    case Announce(at) => AnnounceSteady(s, at);
    case _ =>
  }

  lemma StepSteady(s: State, step: Step)
    requires Ok(s) && Steady(s) && Enabled(s, step) && !Interrupts(s, step)
    ensures Steady(Apply(s, step))
    ensures Abandons(s, step) || Doomed(Apply(s, step)) <==> Doomed(s) || !FitsIfReserved(s, step)
  {
    ApplyFrame(s, step);
    match step
    case Act(w, a) => ActSteady(s, a);
    case Deliver(w, i) =>
    case Crash(w) =>
    case _ =>
  }

  lemma {:induction false} RunSteady(s: State, steps: seq<Step>)
    requires Ok(s) && Steady(s) && Legal(s, steps) && Uninterrupted(s, steps)
    ensures Steady(Exec(s, steps))
    ensures SomeAbandoned(s, steps) || Doomed(Exec(s, steps)) <==> Doomed(s) || !AllFit(s, steps)
    decreases |steps|
  {
    if steps != [] {
      StepSteady(s, steps[0]);
      ApplyOk(s, steps[0]);
      RunSteady(Apply(s, steps[0]), steps[1..]);
    }
  }

  /** One worker that is never interrupted while it reserves, whatever API calls, duplicates,
      retries, sync steps and other interruptions come in between: if every order it goes on to
      reserve fits as a whole, no unit is ever missing; and whenever it is not reserving, no
      unit is missing only then. */
  lemma OneWorkerStockIff(start: State, steps: seq<Step>)
    requires Init(start) && |start.workers| == 1 && Legal(start, steps) && Uninterrupted(start, steps)
    ensures AllFit(start, steps) ==> NothingMissing(start, Exec(start, steps))
    ensures NothingMissing(start, Exec(start, steps)) && !ReservingAt(Exec(start, steps), 0) ==> AllFit(start, steps)
  {
    InitOk(start);
    assert start.workers[0].Idle?;
    RunSteady(start, steps);
    StockKeptIff(start, steps);
  }

  // ---------- one worker, and orders that name each SKU once ----------

  predicate SavesDistinct(steps: seq<Step>) {
    forall i :: 0 <= i < |steps| && steps[i].Save? ==> DistinctSkus(steps[i].lines)
  }

  predicate RowsDistinct(rows: Rows) {
    forall r :: r in rows ==> DistinctSkus(r.lines)
  }

  lemma DecisionFits(s: State, step: Step)
    requires Ok(s) && Steady(s) && RowsDistinct(s.rows) && Enabled(s, step)
    ensures FitsIfReserved(s, step)
  {
    if step.Act? && step.action.Decide? && s.workers[step.w].shortages == [] {
      var p := s.workers[0];
      assert WorkerOk(s.rows, p);
      DistinctPermutation(s.rows[p.event.order].lines, p.order.lines);
      DistinctSkusNeverThrow(s.inventory, p.order.lines);
    }
  }

  lemma StepDistinct(s: State, step: Step)
    requires Ok(s) && Enabled(s, step) && RowsDistinct(s.rows) && (step.Save? ==> DistinctSkus(step.lines))
    ensures RowsDistinct(Apply(s, step).rows)
  {
    var t := Apply(s, step);
    ApplyExtends(s, step);
    ApplyFrame(s, step);
    if step.Act? {
      RowCountStays(s, step.w, step.action);
      forall r | r in t.rows ensures DistinctSkus(r.lines) {
        var o :| 0 <= o < |t.rows| && t.rows[o] == r;
        assert Evolves(s.rows[o], t.rows[o]);
      }
    }
  }

  lemma RowCountStays(s: State, w: nat, a: Action)
    requires CanAct(s, w, a)
    ensures |DoAct(s, w, a).rows| == |s.rows|
  {
  }

  lemma {:induction false} RunFits(s: State, steps: seq<Step>)
    requires Ok(s) && Steady(s) && RowsDistinct(s.rows)
    requires Legal(s, steps) && Uninterrupted(s, steps) && SavesDistinct(steps)
    ensures AllFit(s, steps)
    decreases |steps|
  {
    if steps != [] {
      DecisionFits(s, steps[0]);
      StepSteady(s, steps[0]);
      StepDistinct(s, steps[0]);
      ApplyOk(s, steps[0]);
      RunFits(Apply(s, steps[0]), steps[1..]);
    }
  }

  /** With such a worker and orders that name each SKU once, every reachable state accounts for
      every unit: initial = available + sold + held, and no attempt leaves anything taken. */
  lemma DistinctOrdersLoseNothing(start: State, steps: seq<Step>)
    requires Init(start) && |start.workers| == 1 && Legal(start, steps)
    requires Uninterrupted(start, steps) && SavesDistinct(steps)
    ensures NothingMissing(start, Exec(start, steps))
    ensures !SomeAbandoned(start, steps)
  {
    InitOk(start);
    assert start.workers[0].Idle?;
    RunFits(start, steps);
    OneWorkerStockIff(start, steps);
    StockKeptIff(start, steps);
  }
}
