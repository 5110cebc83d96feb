/** At-least-once delivery: every order commits at most once, no published order is lost, and
    only published orders are touched. */
module ProtocolDelivery {
  import opened Wrappers
  import opened Orders
  import opened Tables
  import opened Sums
  import opened Protocol
  import opened ProtocolState
  import opened ProtocolTally
  import opened ProtocolAttempts

  // ---------- at most one commit ----------

  function FinalFor(o: int): Snapshot -> int {
    (v: Snapshot) => if v.order == o && v.status != Pending then 1 else 0
  }

  function Pronouncing(o: int): Worker -> int {
    (w: Worker) => if w.Announcing? && w.event.order == o then 1 else 0
  }

  /** Every successful status update shows in the version, and every final snapshot that was or
      still can be published belongs to one. */
  predicate CommittedOnce(s: State, o: int) {
    && Count(s.commits, o) == (if Stored(s.rows, o) && s.rows[o].version == 2 then 1 else 0)
    && Sum(FinalFor(o), s.announced) + Sum(Pronouncing(o), s.workers) <= Count(s.commits, o)
  }

  lemma MoveCommits(s: State, w: nat, p: Worker, o: int)
    requires CommittedOnce(s, o) && w < |s.workers| && Pronouncing(o)(p) == 0
    ensures CommittedOnce(Goto(s, w, p), o)
  {
    SumUpdate(Pronouncing(o), s.workers, w, p);
  }

  lemma FailCommits(s: State, w: nat, o: int)
    requires CommittedOnce(s, o) && w < |s.workers| && !s.workers[w].Idle? && Held(s.workers[w]).Created?
    ensures CommittedOnce(Fail(s, w), o)
  {
    MoveCommits(s, w, Failed(Held(s.workers[w]).event), o);
  }

  lemma StoreCommits(s: State, w: nat, order: OrderData, o: int)
    requires CommittedOnce(s, o) && Ok(s) && w < |s.workers| && Finishes(s.workers[w], order)
    ensures CommittedOnce(Store(s, w, order), o)
  {
    var e := s.workers[w].event;
    assert WorkerOk(s.rows, s.workers[w]);
    StoreOutcome(s, w, order);
    if s.rows[e.order].status == Pending {
      assert RowOk(s.rows[e.order]);
      CountAppend(s.commits, e.order, o);
      SumUpdate(Pronouncing(o), s.workers, w, Announcing(e, order));
    } else {
      FailCommits(s, w, o);
    }
  }

  lemma AnnounceCommits(s: State, w: nat, at: int, o: int)
    requires CommittedOnce(s, o) && CanAct(s, w, Announce(at))
    ensures CommittedOnce(DoAnnounce(s, w, at), o)
  {
    var p := s.workers[w];
    match TakeSnapshot(p.event.order, p.order, at)
    case Some(snapshot) =>
      SumUpdate(Pronouncing(o), s.workers, w, Done(Created(p.event)));
      SumAppend(FinalFor(o), s.announced, snapshot);
    case None => FailCommits(s, w, o);
  }

  lemma ReadCommits(s: State, w: nat, o: int)
    requires CommittedOnce(s, o) && CanAct(s, w, Read)
    ensures CommittedOnce(DoRead(s, w), o)
  {
    MoveCommits(s, w, DoRead(s, w).workers[w], o);
  }

  lemma ReserveCommits(s: State, w: nat, o: int)
    requires CommittedOnce(s, o) && CanAct(s, w, Reserve)
    ensures CommittedOnce(DoReserve(s, w), o)
  {
    MoveCommits(s, w, DoReserve(s, w).workers[w], o);
  }

  lemma ActCommits(s: State, w: nat, a: Action, o: int)
    requires CommittedOnce(s, o) && Ok(s) && CanAct(s, w, a)
    ensures CommittedOnce(DoAct(s, w, a), o)
  {
    var p := s.workers[w];
    match a
    case Read => ReadCommits(s, w, o);
    case ReadLines(lines) => MoveCommits(s, w, Checking(p.event, p.order.(lines := lines), 0, []), o);
    case Check => MoveCommits(s, w, DoCheck(s, w).workers[w], o);
    case Decide =>
      if p.shortages == [] {
        MoveCommits(s, w, Reserving(p.event, p.order, 0), o);
      } else {
        assert Finishes(p, Reject(p.order, p.shortages));
        StoreCommits(s, w, Reject(p.order, p.shortages), o);
      }
    case Reserve => ReserveCommits(s, w, o);
    case Commit =>
      assert Finishes(p, Confirm(p.order));
      StoreCommits(s, w, Confirm(p.order), o);
    case Announce(at) => AnnounceCommits(s, w, at, o);
    case Ack => MoveCommits(s, w, Idle, o);
    case Throw => FailCommits(s, w, o);
    case HandOver => MoveCommits(s, w, Handed(p.event), o);
  }

  lemma ApplyCommits(s: State, step: Step, o: int)
    requires CommittedOnce(s, o) && Ok(s) && Enabled(s, step)
    ensures CommittedOnce(Apply(s, step), o)
  {
    match step
    case Act(w, a) => ActCommits(s, w, a, o);
    case PublishPending(p, at) =>
      match TakeSnapshot(p, s.rows[p].(status := Pending, version := 1, reason := None), at) {
        case Some(snapshot) => SumAppend(FinalFor(o), s.announced, snapshot);
        case None =>
      }
    case Deliver(w, i) => MoveCommits(s, w, Delivered(s.main[i]), o);
    case Crash(w) => MoveCommits(s, w, Idle, o);
    case _ =>
  }

  lemma {:induction false} RunCommits(s: State, steps: seq<Step>, o: int)
    requires CommittedOnce(s, o) && Ok(s) && Legal(s, steps)
    ensures CommittedOnce(Exec(s, steps), o)
    decreases |steps|
  {
    if steps != [] {
      ApplyCommits(s, steps[0], o);
      ApplyOk(s, steps[0]);
      RunCommits(Apply(s, steps[0]), steps[1..], o);
    }
  }

  /** Over any interleaved run at most one status update per order ever succeeds. The stored
      version is 1 exactly while the order is pending and 2 exactly once it is confirmed or
      rejected, and at most one final snapshot of it is ever published. */
  lemma AtMostOneCommit(start: State, steps: seq<Step>, o: int)
    requires Init(start) && Legal(start, steps)
    ensures var s := Exec(start, steps);
            && Count(s.commits, o) <= 1
            && (Stored(s.rows, o) ==>
                  && (s.rows[o].version == 1 <==> s.rows[o].status == Pending)
                  && (s.rows[o].version == 2 <==> Terminal(s.rows[o]))
                  && s.rows[o].version == 1 + Count(s.commits, o))
            && (forall i, j :: 0 <= i < j < |s.announced| && s.announced[i].order == o && s.announced[j].order == o ==>
                  s.announced[i].status == Pending || s.announced[j].status == Pending)
  {
    InitOk(start);
    RunOk(start, steps);
    SumAllZero(Pronouncing(o), start.workers);
    RunCommits(start, steps, o);
    var s := Exec(start, steps);
    if Stored(s.rows, o) { assert RowOk(s.rows[o]); }
    SumNonNegative(Pronouncing(o), s.workers);
    forall i, j | 0 <= i < j < |s.announced| && s.announced[i].order == o && s.announced[j].order == o
      ensures s.announced[i].status == Pending || s.announced[j].status == Pending
    {
      SumOfTwo(FinalFor(o), s.announced, i, j);
    }
  }

  // ---------- no published order is lost ----------

  function EventCopy(o: int): Event -> int {
    (e: Event) => if e.order == o then 1 else 0
  }

  function MsgCopy(o: int): Msg -> int {
    (m: Msg) => if m.Created? && m.event.order == o then 1 else 0
  }

  function DeadCopy(o: int): Dead -> int {
    (d: Dead) => if d.order == o then 1 else 0
  }

  /** A delivery that still has work to do: not yet published on, and not merely to be acknowledged. */
  predicate Working(w: Worker, o: int) {
    !w.Idle? && !w.Done? && !w.Handed? && Held(w).Created? && Held(w).event.order == o
  }

  function WorkerCopy(o: int): Worker -> int {
    (w: Worker) => if Working(w, o) then 1 else 0
  }

  function Copies(o: int): Weights {
    Weights(MsgCopy(o), EventCopy(o), DeadCopy(o), WorkerCopy(o))
  }

  predicate Settled(s: State, o: int) {
    Stored(s.rows, o) && Terminal(s.rows[o])
  }

  predicate Covered(s: State, o: int) {
    o in s.entered ==> Settled(s, o) || Tally(s, Copies(o)) >= 1
  }

  lemma ReadKeepsCopies(s: State, w: nat, o: int)
    requires CanAct(s, w, Read) && RowsOk(s.rows)
    ensures var p, q := s.workers[w], DoRead(s, w).workers[w];
            Settled(s, o) || WorkerCopy(o)(q) >= WorkerCopy(o)(p)
  {
    var msg := s.workers[w].msg;
    if msg.Created? && Stored(s.rows, msg.event.order) {
      assert RowOk(s.rows[msg.event.order]);
    }
  }

  lemma AnnounceKeepsCopies(s: State, w: nat, at: int, o: int)
    requires CanAct(s, w, Announce(at)) && WorkerOk(s.rows, s.workers[w])
    ensures var p, q := s.workers[w], DoAnnounce(s, w, at).workers[w];
            Settled(s, o) || WorkerCopy(o)(q) >= WorkerCopy(o)(p)
  {
  }

  lemma ReserveKeepsCopies(s: State, w: nat, o: int)
    requires CanAct(s, w, Reserve)
    ensures WorkerCopy(o)(DoReserve(s, w).workers[w]) == WorkerCopy(o)(s.workers[w])
  {
  }

  lemma StoreKeepsCopies(s: State, w: nat, order: OrderData, o: int)
    requires w < |s.workers| && (s.workers[w].Checking? || s.workers[w].Reserving?)
    ensures WorkerCopy(o)(Store(s, w, order).workers[w]) == WorkerCopy(o)(s.workers[w])
  {
  }

  lemma ActKeepsCopies(s: State, w: nat, a: Action, o: int)
    requires Ok(s) && CanAct(s, w, a)
    ensures Settled(s, o) || Change(s, Act(w, a), Copies(o)) >= 0
  {
    var p := s.workers[w];
    assert WorkerOk(s.rows, p);
    match a
    case Read => ReadKeepsCopies(s, w, o);
    case Decide =>
      if p.shortages != [] { StoreKeepsCopies(s, w, Reject(p.order, p.shortages), o); }
    case Commit => StoreKeepsCopies(s, w, Confirm(p.order), o);
    case Reserve => ReserveKeepsCopies(s, w, o);
    case Announce(at) => AnnounceKeepsCopies(s, w, at, o);
    case ReadLines(_) =>
    case Check =>
    case Ack =>
    case Throw =>
    case HandOver =>
      assert CopyWeight(s, p.event, Copies(o)) == if p.event.order == o then 1 else 0;
  }

  lemma StaysSettled(s: State, step: Step, o: int)
    requires Ok(s) && Enabled(s, step) && Settled(s, o)
    ensures Settled(Apply(s, step), o)
  {
    ApplyExtends(s, step);
    assert Evolves(s.rows[o], Apply(s, step).rows[o]);
  }

  lemma EnteredGrows(s: State, step: Step, o: int)
    requires Enabled(s, step) && o in Apply(s, step).entered
    ensures o in s.entered || Change(s, step, Copies(o)) == 1
  {
    if step.Act? { ActFrame(s, step.w, step.action); }
  }

  lemma CopiesNonNegative(s: State, o: int)
    ensures Tally(s, Copies(o)) >= 0
  {
    SumNonNegative(MsgCopy(o), s.main);
    SumNonNegative(EventCopy(o), s.retry);
    SumNonNegative(DeadCopy(o), s.dead);
    SumNonNegative(WorkerCopy(o), s.workers);
  }

  lemma ApplyCovered(s: State, step: Step, o: int)
    requires Ok(s) && Enabled(s, step) && Covered(s, o)
    ensures Covered(Apply(s, step), o)
  {
    var t := Apply(s, step);
    if o in t.entered {
      if Settled(s, o) {
        StaysSettled(s, step, o);
      } else {
        TallyStep(s, step, Copies(o));
        CopiesNonNegative(s, o);
        EnteredGrows(s, step, o);
        if step.Act? { ActKeepsCopies(s, step.w, step.action, o); }
      }
    }
  }

  lemma {:induction false} RunCovered(s: State, steps: seq<Step>, o: int)
    requires Ok(s) && Covered(s, o) && Legal(s, steps)
    ensures Covered(Exec(s, steps), o)
    decreases |steps|
  {
    if steps != [] {
      ApplyCovered(s, steps[0], o);
      ApplyOk(s, steps[0]);
      RunCovered(Apply(s, steps[0]), steps[1..], o);
    }
  }

  /** In every reachable state, crashes between any publish and its acknowledgement included,
      an order whose event was published is confirmed or rejected, or a copy of its event is in
      the main queue, in the retry queue, being worked on, or in the dead-letter queue. */
  lemma NoOrderLost(start: State, steps: seq<Step>, o: int)
    requires Init(start) && Legal(start, steps) && o in Exec(start, steps).entered
    ensures var s := Exec(start, steps);
            || Settled(s, o)
            || (exists m :: m in s.main && m.Created? && m.event.order == o)
            || (exists e :: e in s.retry && e.order == o)
            || (exists w :: w in s.workers && Working(w, o))
            || (exists d :: d in s.dead && d.order == o)
  {
    InitOk(start);
    RunCovered(start, steps, o);
    var s := Exec(start, steps);
    if !Settled(s, o) {
      if Sum(MsgCopy(o), s.main) > 0 {
        SumPositive(MsgCopy(o), s.main);
      } else if Sum(EventCopy(o), s.retry) > 0 {
        SumPositive(EventCopy(o), s.retry);
      } else if Sum(WorkerCopy(o), s.workers) > 0 {
        SumPositive(WorkerCopy(o), s.workers);
      } else {
        SumPositive(DeadCopy(o), s.dead);
      }
    }
  }

  // ---------- an order whose event was never published ----------

  predicate HoldsOther(w: Worker, o: int) {
    w.Idle? || NewFor(Held(w), o) == 0
  }

  predicate NoCopies(s: State, o: int) {
    && (forall m :: m in s.main ==> NewFor(m, o) == 0)
    && (forall e :: e in s.retry ==> e.order != o)
    && (forall w :: w in s.workers ==> HoldsOther(w, o))
  }

  predicate Untouched(s: State, o: int) {
    o !in s.entered ==> (Stored(s.rows, o) ==> Open(s.rows, o)) && o !in s.delivered && NoCopies(s, o)
  }

  lemma OthersRowsStay(s: State, w: nat, a: Action, o: int)
    requires Ok(s) && CanAct(s, w, a) && HoldsOther(s.workers[w], o)
    ensures var t := DoAct(s, w, a); Stored(t.rows, o) ==> Stored(s.rows, o) && t.rows[o] == s.rows[o]
  {
    var p := s.workers[w];
    assert WorkerOk(s.rows, p);
    match a
    case Decide =>
      if p.shortages != [] {
        assert Finishes(p, Reject(p.order, p.shortages));
        StoreOutcome(s, w, Reject(p.order, p.shortages));
      }
    case Commit =>
      assert Finishes(p, Confirm(p.order));
      StoreOutcome(s, w, Confirm(p.order));
    case _ =>
  }

  lemma HandOverUntouched(s: State, w: nat, o: int)
    requires NoCopies(s, o) && CanAct(s, w, HandOver)
    ensures NoCopies(DoHandOver(s, w), o)
  {
    assert HoldsOther(s.workers[w], o);
  }

  lemma ActUntouched(s: State, w: nat, a: Action, o: int)
    requires Untouched(s, o) && Ok(s) && CanAct(s, w, a)
    ensures Untouched(DoAct(s, w, a), o)
  {
    ActFrame(s, w, a);
    if o !in s.entered {
      assert HoldsOther(s.workers[w], o);
      OthersRowsStay(s, w, a, o);
      if a.HandOver? {
        HandOverUntouched(s, w, o);
      } else if !a.Ack? {
        ActSameMessage(s, w, a);
      }
    }
  }

  lemma DeliverUntouched(s: State, w: nat, i: nat, o: int)
    requires Untouched(s, o) && Enabled(s, Deliver(w, i))
    ensures Untouched(DoDeliver(s, w, i), o)
  {
    InWithout(s.main, i);
    NewForIff(s.main[i], o);
  }

  lemma NewForIff(m: Msg, o: int)
    ensures o in OrderOf(m) <==> NewFor(m, o) == 1
  {
  }

  lemma EnterUntouched(s: State, step: Step, o: int)
    requires Untouched(s, o) && Enabled(s, step) && (step.PublishEvent? || step.Inject?)
    ensures Untouched(Apply(s, step), o)
  {
    if step.Inject? { NewForIff(step.msg, o); }
  }

  lemma CrashUntouched(s: State, w: nat, o: int)
    requires Untouched(s, o) && Enabled(s, Crash(w))
    ensures Untouched(DoCrash(s, w), o)
  {
    assert o in s.entered || HoldsOther(s.workers[w], o);
  }

  lemma ExpireUntouched(s: State, i: nat, o: int)
    requires Untouched(s, o) && Enabled(s, Expire(i))
    ensures Untouched(DoExpire(s, i), o)
  {
    InWithout(s.retry, i);
  }

  lemma StepUntouched(s: State, step: Step, o: int)
    requires Untouched(s, o) && Ok(s) && Enabled(s, step)
    ensures Untouched(Apply(s, step), o)
  {
    match step
    case Act(w, a) => ActUntouched(s, w, a, o);
    case Deliver(w, i) => DeliverUntouched(s, w, i, o);
    case Expire(i) => ExpireUntouched(s, i, o);
    case Crash(w) => CrashUntouched(s, w, o);
    case PublishEvent(_) => EnterUntouched(s, step, o);
    case Inject(_) => EnterUntouched(s, step, o);
    case _ =>
  }

  lemma {:induction false} RunUntouched(s: State, steps: seq<Step>, o: int)
    requires Untouched(s, o) && Ok(s) && Legal(s, steps)
    ensures Untouched(Exec(s, steps), o)
    decreases |steps|
  {
    if steps != [] {
      StepUntouched(s, steps[0], o);
      ApplyOk(s, steps[0]);
      RunUntouched(Apply(s, steps[0]), steps[1..], o);
    }
  }

  /** An order whose event never got into the queue, because the broker was away or the API
      process died after saving it, stays pending in every run and is never attempted. */
  lemma UnpublishedStaysPending(start: State, steps: seq<Step>, o: int)
    requires Init(start) && Legal(start, steps)
    requires Stored(Exec(start, steps).rows, o) && o !in Exec(start, steps).entered
    ensures Exec(start, steps).rows[o].status == Pending && o !in Exec(start, steps).delivered
  {
    InitOk(start);
    RunUntouched(start, steps, o);
  }
}
