/** Where the stock went: over every run, what is missing from the shelf is the demand of the
    confirmed orders plus what unfinished and failed attempts took. */
module ProtocolStock {
  import opened Wrappers
  import opened Orders
  import opened Tables
  import opened Sums
  import opened Protocol
  import opened ProtocolState
  import opened ProtocolTally

  function ConfirmedUnits(sku: Sku): OrderData -> int {
    (r: OrderData) => if r.status == Confirmed then Demand(r.lines, sku) else 0
  }

  /** What an attempt under way has taken so far. */
  function HeldUnits(sku: Sku): Worker -> int {
    (w: Worker) =>
      if w.Reserving? && w.next <= |w.order.lines| then Demand(w.order.lines[..w.next], sku) else 0
  }

  function LeakedUnits(sku: Sku): Leak -> int {
    (l: Leak) => if l.taken <= |l.lines| then Demand(l.lines[..l.taken], sku) else 0
  }

  /** Units of a SKU sold, held by attempts under way, and left taken by failed attempts. */
  function Sold(s: State, sku: Sku): int { Sum(ConfirmedUnits(sku), s.rows) }
  function HeldBack(s: State, sku: Sku): int { Sum(HeldUnits(sku), s.workers) }
  function Lost(s: State, sku: Sku): int { Sum(LeakedUnits(sku), s.leaks) }

  predicate Conserved(s: State, sku: Sku) {
    Available(s.config.initial, sku) == Available(s.inventory, sku) + Sold(s, sku) + HeldBack(s, sku) + Lost(s, sku)
  }

  // ---------- conservation, step by step ----------

  lemma FailConserves(s: State, w: nat, sku: Sku)
    requires Conserved(s, sku) && w < |s.workers| && !s.workers[w].Idle? && Held(s.workers[w]).Created?
    requires WorkerOk(s.rows, s.workers[w])
    ensures Conserved(Fail(s, w), sku)
  {
    var p := s.workers[w];
    SumUpdate(HeldUnits(sku), s.workers, w, Failed(Held(p).event));
    if p.Reserving? {
      SumAppend(LeakedUnits(sku), s.leaks, Leak(p.event.order, p.order.lines, p.next));
    }
  }

  lemma SameDemand(a: seq<Line>, b: seq<Line>, sku: Sku)
    requires multiset(a) == multiset(b)
    ensures Demand(a, sku) == Demand(b, sku)
  {
    SumPermutation(UnitsOf(sku), a, b);
  }

  lemma RejectConserves(s: State, w: nat, sku: Sku)
    requires Conserved(s, sku) && TablesOk(s) && CanAct(s, w, Decide) && WorkerOk(s.rows, s.workers[w])
    requires s.workers[w].shortages != []
    ensures Conserved(DoDecide(s, w), sku)
  {
    var p := s.workers[w];
    var order := Reject(p.order, p.shortages);
    assert Finishes(p, order);
    StoreOutcome(s, w, order);
    if s.rows[p.event.order].status == Pending {
      var t := Store(s, w, order);
      SumUpdate(ConfirmedUnits(sku), s.rows, p.event.order, t.rows[p.event.order]);
      SumUpdate(HeldUnits(sku), s.workers, w, t.workers[w]);
    } else {
      FailConserves(s, w, sku);
    }
  }

  /** Committing moves one whole order's demand out of held: to sold while the order is still
      pending, to lost when another attempt has ended it. */
  lemma CommitConserves(s: State, w: nat, sku: Sku)
    requires TablesOk(s) && CanAct(s, w, Commit) && WorkerOk(s.rows, s.workers[w])
    ensures var t := DoAct(s, w, Commit);
            var row := s.rows[s.workers[w].event.order];
            var demand := Demand(row.lines, sku);
            && t.inventory == s.inventory && HeldBack(t, sku) == HeldBack(s, sku) - demand
            && (if row.status == Pending
                then Sold(t, sku) == Sold(s, sku) + demand && Lost(t, sku) == Lost(s, sku)
                else Sold(t, sku) == Sold(s, sku) && Lost(t, sku) == Lost(s, sku) + demand)
            && (Conserved(s, sku) ==> Conserved(t, sku))
  {
    var p := s.workers[w];
    var order := Confirm(p.order);
    assert Finishes(p, order);
    StoreOutcome(s, w, order);
    assert p.order.lines[..p.next] == p.order.lines;
    SameDemand(p.order.lines, s.rows[p.event.order].lines, sku);
    var t := Store(s, w, order);
    SumUpdate(HeldUnits(sku), s.workers, w, t.workers[w]);
    if s.rows[p.event.order].status == Pending {
      SumUpdate(ConfirmedUnits(sku), s.rows, p.event.order, t.rows[p.event.order]);
    } else {
      SumAppend(LeakedUnits(sku), s.leaks, Leak(p.event.order, p.order.lines, p.next));
    }
  }

  lemma ReserveConserves(s: State, w: nat, sku: Sku)
    requires Conserved(s, sku) && CanAct(s, w, Reserve) && WorkerOk(s.rows, s.workers[w])
    ensures Conserved(DoReserve(s, w), sku)
  {
    var p := s.workers[w];
    var line := p.order.lines[p.next];
    if Decrement(s.inventory, line.sku, line.quantity).Some? {
      SumUpdate(HeldUnits(sku), s.workers, w, Reserving(p.event, p.order, p.next + 1));
      assert p.order.lines[..p.next + 1] == p.order.lines[..p.next] + [line];
      SumAppend(UnitsOf(sku), p.order.lines[..p.next], line);
    } else {
      FailConserves(s, w, sku);
    }
  }

  lemma GotoConserves(s: State, w: nat, q: Worker, sku: Sku)
    requires Conserved(s, sku) && w < |s.workers| && HeldUnits(sku)(q) == HeldUnits(sku)(s.workers[w])
    ensures Conserved(Goto(s, w, q), sku)
  {
    SumUpdate(HeldUnits(sku), s.workers, w, q);
  }

  lemma ReadConserves(s: State, w: nat, sku: Sku)
    requires Conserved(s, sku) && CanAct(s, w, Read) && WorkerOk(s.rows, s.workers[w])
    ensures Conserved(DoRead(s, w), sku)
  {
    var msg := s.workers[w].msg;
    if msg.Created? && !Stored(s.rows, msg.event.order) {
      FailConserves(s, w, sku);
    } else {
      GotoConserves(s, w, DoRead(s, w).workers[w], sku);
    }
  }

  lemma AnnounceConserves(s: State, w: nat, at: int, sku: Sku)
    requires Conserved(s, sku) && CanAct(s, w, Announce(at)) && WorkerOk(s.rows, s.workers[w])
    ensures Conserved(DoAnnounce(s, w, at), sku)
  {
    var p := s.workers[w];
    if TakeSnapshot(p.event.order, p.order, at).Some? {
      SumUpdate(HeldUnits(sku), s.workers, w, Done(Created(p.event)));
    } else {
      FailConserves(s, w, sku);
    }
  }

  lemma MoveConserves(s: State, w: nat, a: Action, sku: Sku)
    requires Conserved(s, sku) && CanAct(s, w, a) && (a.ReadLines? || a.Check? || a.Ack? || a.HandOver?)
    ensures Conserved(DoAct(s, w, a), sku)
  {
    var p := s.workers[w];
    match a
    case ReadLines(lines) => GotoConserves(s, w, Checking(p.event, p.order.(lines := lines), 0, []), sku);
    case Check => GotoConserves(s, w, DoCheck(s, w).workers[w], sku);
    case Ack => GotoConserves(s, w, Idle, sku);
    case HandOver => GotoConserves(s, w, Handed(p.event), sku);
  }

  lemma ActConserves(s: State, w: nat, a: Action, sku: Sku)
    requires Conserved(s, sku) && TablesOk(s) && CanAct(s, w, a) && WorkerOk(s.rows, s.workers[w])
    ensures Conserved(DoAct(s, w, a), sku)
  {
    match a
    case Read => ReadConserves(s, w, sku);
    case Decide =>
      if s.workers[w].shortages != [] {
        RejectConserves(s, w, sku);
      } else {
        SumUpdate(HeldUnits(sku), s.workers, w, DoDecide(s, w).workers[w]);
        assert s.workers[w].order.lines[..0] == [];
      }
    case Reserve => ReserveConserves(s, w, sku);
    case Commit => CommitConserves(s, w, sku);
    case Announce(at) => AnnounceConserves(s, w, at, sku);
    case Throw => FailConserves(s, w, sku);
    case _ => MoveConserves(s, w, a, sku);
  }

  lemma CrashConserves(s: State, w: nat, sku: Sku)
    requires Conserved(s, sku) && Enabled(s, Crash(w)) && WorkerOk(s.rows, s.workers[w])
    ensures Conserved(DoCrash(s, w), sku)
  {
    var p := s.workers[w];
    SumUpdate(HeldUnits(sku), s.workers, w, Idle);
    if p.Reserving? {
      SumAppend(LeakedUnits(sku), s.leaks, Leak(p.event.order, p.order.lines, p.next));
    }
  }

  lemma ApplyConserves(s: State, step: Step, sku: Sku)
    requires Conserved(s, sku) && Ok(s) && Enabled(s, step)
    ensures Conserved(Apply(s, step), sku)
  {
    ApplyFrame(s, step);
    match step
    case Save(customer, lines) =>
      SumAppend(ConfirmedUnits(sku), s.rows, OrderData(customer, lines, Pending, 1, None));
    case Act(w, a) => ActConserves(s, w, a, sku);
    case Deliver(w, i) => SumUpdate(HeldUnits(sku), s.workers, w, Delivered(s.main[i]));
    case Crash(w) => CrashConserves(s, w, sku);
    case _ =>
  }

  lemma {:induction false} RunConserves(s: State, steps: seq<Step>, sku: Sku)
    requires Conserved(s, sku) && Ok(s) && Legal(s, steps)
    ensures Conserved(Exec(s, steps), sku) && Ok(Exec(s, steps))
    ensures Exec(s, steps).config == s.config
    decreases |steps|
  {
    if steps != [] {
      ApplyConserves(s, steps[0], sku);
      ApplyOk(s, steps[0]);
      ApplyFrame(s, steps[0]);
      RunConserves(Apply(s, steps[0]), steps[1..], sku);
    }
  }

  lemma InitConserved(s: State, sku: Sku)
    requires Init(s)
    ensures Conserved(s, sku)
  {
    SumAllZero(HeldUnits(sku), s.workers);
  }

  // ---------- over whole runs ----------

  lemma LeaksNonNegative(s: State, sku: Sku)
    requires Ok(s)
    ensures Lost(s, sku) >= 0
    ensures forall l :: l in s.leaks ==> 0 <= LeakedUnits(sku)(l) <= Lost(s, sku)
  {
    forall l | l in s.leaks ensures LeakedUnits(sku)(l) >= 0 {
      assert LeakOk(s.rows, l) && RowOk(s.rows[l.order]);
      SameElements(l.lines, s.rows[l.order].lines);
      DemandPrefix(l.lines, l.taken, sku);
    }
    SumNonNegative(LeakedUnits(sku), s.leaks);
  }

  lemma SharesNonNegative(s: State, sku: Sku)
    requires Ok(s)
    ensures Sold(s, sku) >= 0 && HeldBack(s, sku) >= 0 && Lost(s, sku) >= 0 && Available(s.inventory, sku) >= 0
  {
    forall r | r in s.rows ensures ConfirmedUnits(sku)(r) >= 0 {
      assert RowOk(r);
      DemandNonNegative(r.lines, sku);
    }
    forall w | w in s.workers ensures HeldUnits(sku)(w) >= 0 {
      assert WorkerOk(s.rows, w);
      if w.Reserving? {
        assert RowOk(s.rows[w.event.order]);
        SameElements(w.order.lines, s.rows[w.event.order].lines);
        DemandPrefix(w.order.lines, w.next, sku);
      }
    }
    SumNonNegative(ConfirmedUnits(sku), s.rows);
    SumNonNegative(HeldUnits(sku), s.workers);
    LeaksNonNegative(s, sku);
  }

  /** Stock accounting, in every reachable state, with any number of workers, exceptions,
      crashes and redeliveries: the initial stock is what is available, plus the demand of all
      confirmed orders, plus what attempts under way hold, plus what attempts that ended
      without a commit left taken. Nothing is ever oversold. */
  lemma StockAccounting(start: State, steps: seq<Step>, sku: Sku)
    requires Init(start) && Legal(start, steps)
    ensures var s := Exec(start, steps);
            && Available(start.inventory, sku) ==
                 Available(s.inventory, sku) + Sold(s, sku) + HeldBack(s, sku) + Lost(s, sku)
            && Available(s.inventory, sku) >= 0
            && 0 <= Sold(s, sku) <= Available(start.inventory, sku)
            && LeaksOk(s.rows, s.leaks)
  {
    InitConserved(start, sku);
    InitOk(start);
    RunConserves(start, steps, sku);
    SharesNonNegative(Exec(start, steps), sku);
  }
}
