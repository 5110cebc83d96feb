/** When the read store catches up if snapshots are applied in the order they were published: it
    need not, even if nothing fails; and what makes it. */
module ProtocolReadModel {
  import opened Wrappers
  import opened Orders
  import opened Tables
  import opened Sums
  import opened Processing
  import opened Protocol
  import opened ProtocolState
  import opened ProtocolTally
  import opened ProtocolTermination
  import opened ProtocolRefinement

  /** The read store after these snapshots have been upserted in turn. */
  function Replay(vs: seq<Snapshot>): map<int, Snapshot> {
    if vs == [] then map[]
    else
      var v := vs[|vs| - 1];
      Replay(vs[..|vs| - 1])[v.order := v]
  }

  function LastFor(vs: seq<Snapshot>, o: int): Option<Snapshot> {
    if vs == [] then None
    else if vs[|vs| - 1].order == o then Some(vs[|vs| - 1])
    else LastFor(vs[..|vs| - 1], o)
  }

  lemma {:induction false} ReplayIsLast(vs: seq<Snapshot>, o: int)
    ensures (if o in Replay(vs) then Some(Replay(vs)[o]) else None) == LastFor(vs, o)
    ensures LastFor(vs, o).None? <==> forall v :: v in vs ==> v.order != o
    decreases |vs|
  {
    if vs != [] {
      var front, v := vs[..|vs| - 1], vs[|vs| - 1];
      assert vs == front + [v];
      ReplayIsLast(front, o);
    }
  }

  lemma ReplayMore(vs: seq<Snapshot>, v: Snapshot, o: int)
    ensures Replay(vs + [v]) == Replay(vs)[v.order := v]
    ensures LastFor(vs + [v], o) == if v.order == o then Some(v) else LastFor(vs, o)
  {
  }

  // ---------- one sync worker, one snapshot at a time, none put back ----------

  predicate InTurn(s: State, step: Step) {
    match step
    case SyncDeliver(i) => i == 0 && s.syncing == []
    case SyncRequeue(_) => false
    case _ => true
  }

  predicate LegalInTurn(s: State, steps: seq<Step>)
    decreases |steps|
  {
    steps == [] || (Enabled(s, steps[0]) && InTurn(s, steps[0]) && LegalInTurn(Apply(s, steps[0]), steps[1..]))
  }

  function Waiting(s: State): seq<Snapshot> {
    (if |s.syncing| > 0 && s.syncing[0].Taken? then [s.syncing[0].snapshot] else []) + s.sync
  }

  /** The first k published snapshots have been applied, in that order, and the others wait. */
  predicate AppliedUpTo(s: State, k: nat) {
    k <= |s.announced| && s.announced[k..] == Waiting(s) && s.docs == Replay(s.announced[..k])
  }

  predicate AppliedInTurn(s: State) {
    |s.syncing| <= 1 && |Waiting(s)| <= |s.announced| && AppliedUpTo(s, |s.announced| - |Waiting(s)|)
  }

  ghost predicate OnlyPublishes(s: State, t: State) {
    && t.docs == s.docs && t.syncing == s.syncing
    && ((t.announced == s.announced && t.sync == s.sync)
        || exists v :: t.announced == s.announced + [v] && t.sync == s.sync + [v])
  }

  lemma StorePublishesNothing(s: State, w: nat, order: OrderData)
    requires w < |s.workers| && (s.workers[w].Checking? || s.workers[w].Reserving?)
    ensures OnlyPublishes(s, Store(s, w, order))
  {
  }

  lemma ActPublishes(s: State, w: nat, a: Action)
    requires CanAct(s, w, a)
    ensures OnlyPublishes(s, DoAct(s, w, a))
  {
    match a
    case Decide =>
      if s.workers[w].shortages != [] {
        StorePublishesNothing(s, w, Reject(s.workers[w].order, s.workers[w].shortages));
      }
    case Commit => StorePublishesNothing(s, w, Confirm(s.workers[w].order));
    case _ =>
  }

  lemma SplitGrows<T>(a: seq<T>, k: nat, v: T)
    requires k <= |a|
    ensures (a + [v])[..k] == a[..k] && (a + [v])[k..] == a[k..] + [v]
  {
  }

  lemma MoreWaits(s: State, t: State, k: nat, v: Snapshot)
    requires AppliedUpTo(s, k) && t.docs == s.docs && t.syncing == s.syncing
    requires t.announced == s.announced + [v] && t.sync == s.sync + [v]
    ensures AppliedUpTo(t, k) && |Waiting(t)| == |Waiting(s)| + 1
  {
    SplitGrows(s.announced, k, v);
    assert Waiting(t) == Waiting(s) + [v];
  }

  lemma PublishingKeepsTurns(s: State, t: State)
    requires AppliedInTurn(s) && OnlyPublishes(s, t)
    ensures AppliedInTurn(t)
  {
    if t.announced != s.announced {
      var k := |s.announced| - |Waiting(s)|;
      var v :| t.announced == s.announced + [v] && t.sync == s.sync + [v];
      MoreWaits(s, t, k, v);
      assert |t.announced| - |Waiting(t)| == k;
    } else {
      SameWaiting(s, t);
    }
  }

  lemma SplitShifts<T>(a: seq<T>, k: nat, v: T, rest: seq<T>)
    requires k <= |a| && a[k..] == [v] + rest
    ensures k < |a| && a[..k + 1] == a[..k] + [v] && a[k + 1..] == rest
  {
  }

  lemma UpsertKeepsTurns(s: State)
    requires AppliedInTurn(s) && Enabled(s, SyncUpsert(0))
    ensures AppliedInTurn(DoSyncUpsert(s, 0))
  {
    var t := DoSyncUpsert(s, 0);
    var k := |s.announced| - |Waiting(s)|;
    WaitingMoves(s);
    assert AppliedUpTo(s, k);
    SplitShifts(s.announced, k, s.syncing[0].snapshot, s.sync);
    ReplayMore(s.announced[..k], s.syncing[0].snapshot, 0);
    assert AppliedUpTo(t, k + 1);
  }

  lemma WaitingMoves(s: State)
    requires Enabled(s, SyncUpsert(0))
    ensures Waiting(s) == [s.syncing[0].snapshot] + s.sync && Waiting(DoSyncUpsert(s, 0)) == s.sync
  {
  }

  lemma SameWaiting(s: State, t: State)
    requires AppliedInTurn(s) && t.announced == s.announced && t.docs == s.docs
    requires |t.syncing| <= 1 && Waiting(t) == Waiting(s)
    ensures AppliedInTurn(t)
  {
  }

  lemma WaitingDelivered(s: State, t: State)
    requires s.sync != [] && s.syncing == [] && s.sync == [s.sync[0]] + s.sync[1..]
    requires t.sync == s.sync[1..] && t.syncing == [Taken(s.sync[0])]
    ensures Waiting(t) == Waiting(s)
  {
    assert Waiting(s) == s.sync;
  }

  lemma DeliverKeepsTurns(s: State)
    requires AppliedInTurn(s) && s.sync != [] && s.syncing == []
    ensures AppliedInTurn(DoSync(s, SyncDeliver(0)))
  {
    var t := DoSync(s, SyncDeliver(0));
    FirstAndRest(s.sync);
    assert t.syncing == [Taken(s.sync[0])];
    WaitingDelivered(s, t);
    SameWaiting(s, t);
  }

  lemma AckKeepsTurns(s: State)
    requires AppliedInTurn(s) && Enabled(s, SyncAck(0))
    ensures AppliedInTurn(DoSync(s, SyncAck(0)))
  {
    var t := DoSync(s, SyncAck(0));
    assert t.syncing == [];
    assert Waiting(s) == s.sync == Waiting(t);
    SameWaiting(s, t);
  }

  lemma StepKeepsTurns(s: State, step: Step)
    requires AppliedInTurn(s) && Enabled(s, step) && InTurn(s, step)
    ensures AppliedInTurn(Apply(s, step))
  {
    if step.SyncUpsert? {
      UpsertKeepsTurns(s);
    } else if step.SyncDeliver? {
      DeliverKeepsTurns(s);
    } else if step.SyncAck? {
      AckKeepsTurns(s);
    } else {
      if step.Act? { ActPublishes(s, step.w, step.action); }
      PublishingKeepsTurns(s, Apply(s, step));
    }
  }

  lemma {:induction false} RunKeepsTurns(s: State, steps: seq<Step>)
    requires AppliedInTurn(s) && LegalInTurn(s, steps)
    ensures Legal(s, steps) && AppliedInTurn(Exec(s, steps))
    decreases |steps|
  {
    if steps != [] {
      StepKeepsTurns(s, steps[0]);
      RunKeepsTurns(Apply(s, steps[0]), steps[1..]);
    }
  }

  predicate Drained(s: State) {
    s.sync == [] && s.syncing == []
  }

  lemma InitInTurn(s: State)
    requires Init(s)
    ensures AppliedInTurn(s)
  {
  }

  lemma DrainedInTurn(s: State)
    requires AppliedInTurn(s) && Drained(s)
    ensures s.docs == Replay(s.announced)
  {
    assert Waiting(s) == [];
    assert s.announced[..|s.announced|] == s.announced;
  }

  lemma DrainedStore(start: State, steps: seq<Step>)
    requires Init(start) && LegalInTurn(start, steps)
    ensures Legal(start, steps)
    ensures Drained(Exec(start, steps)) ==> Exec(start, steps).docs == Replay(Exec(start, steps).announced)
  {
    InitInTurn(start);
    RunKeepsTurns(start, steps);
    if Drained(Exec(start, steps)) {
      DrainedInTurn(Exec(start, steps));
    }
  }

  /** Once the snapshots are drained in turn, a finished order's document agrees with the write
      store iff the last snapshot published for it was not the API's pending one. */
  lemma DrainedAgreesIff(start: State, steps: seq<Step>, o: int)
    requires Init(start) && LegalInTurn(start, steps) && Legal(start, steps)
    requires Drained(Exec(start, steps)) && o in Exec(start, steps).docs
    requires Stored(Exec(start, steps).rows, o) && Terminal(Exec(start, steps).rows[o])
    ensures var s := Exec(start, steps);
            && LastFor(s.announced, o).Some?
            && (s.docs[o].status == s.rows[o].status && s.docs[o].reason == s.rows[o].reason
                <==> LastFor(s.announced, o).value.status != Pending)
  {
    var s := Exec(start, steps);
    DrainedStore(start, steps);
    ReplayIsLast(s.announced, o);
    ReadStoreAgrees(start, steps, o);
  }

  // ---------- it can stay behind for good ----------

  lemma {:induction false} TurnsConcat(s: State, a: seq<Step>, b: seq<Step>)
    requires LegalInTurn(s, a) && Legal(s, a) && LegalInTurn(Exec(s, a), b)
    ensures LegalInTurn(s, a + b)
    decreases |a|
  {
    if a == [] {
      assert a + b == b;
    } else {
      assert (a + b)[1..] == a[1..] + b;
      TurnsConcat(Apply(s, a[0]), a[1..], b);
    }
  }

  lemma {:induction false} ActsAreInTurn(s: State, steps: seq<Step>, w: nat)
    requires Legal(s, steps) && ActsOf(steps, w)
    ensures LegalInTurn(s, steps)
    decreases |steps|
  {
    if steps != [] {
      assert steps[0].Act?;
      ActsAreInTurn(Apply(s, steps[0]), steps[1..], w);
    }
  }

  /** From s to t by legal steps that take the snapshots in turn. */
  predicate Goes(s: State, steps: seq<Step>, t: State) {
    Legal(s, steps) && LegalInTurn(s, steps) && Exec(s, steps) == t
  }

  lemma GoesOn(s: State, a: seq<Step>, t: State, b: seq<Step>, u: State)
    requires Goes(s, a, t) && Goes(t, b, u)
    ensures Goes(s, a + b, u)
  {
    ExecConcat(s, a, b);
    TurnsConcat(s, a, b);
  }

  lemma GoesOne(s: State, step: Step)
    requires Enabled(s, step) && InTurn(s, step)
    ensures Goes(s, [step], Apply(s, step))
  {
  }

  lemma GoesStep(s: State, steps: seq<Step>, t: State, step: Step)
    requires Goes(s, steps, t) && Enabled(t, step) && InTurn(t, step)
    ensures Goes(s, steps + [step], Apply(t, step))
  {
    GoesOne(t, step);
    GoesOn(s, steps, t, [step], Apply(t, step));
  }

  lemma ApplyFirstSnapshot(s: State) returns (steps: seq<Step>, t: State)
    requires s.sync != [] && s.syncing == []
    ensures Goes(s, steps, t)
    ensures t == s.(sync := s.sync[1..], docs := s.docs[s.sync[0].order := s.sync[0]])
  {
    var a := Apply(s, SyncDeliver(0));
    GoesOne(s, SyncDeliver(0));
    assert a == s.(sync := s.sync[1..], syncing := [Taken(s.sync[0])]);
    GoesStep(s, [SyncDeliver(0)], a, SyncUpsert(0));
    var b := Apply(a, SyncUpsert(0));
    steps := [SyncDeliver(0)] + [SyncUpsert(0)];
    GoesStep(s, steps, b, SyncAck(0));
    t := Apply(b, SyncAck(0));
    steps := steps + [SyncAck(0)];
  }

  /** An order is saved, its event published and delivered before the API goes on. */
  lemma EventDelivered(start: State, customer: string, lines: seq<Line>) returns (steps: seq<Step>, t: State)
    requires Init(start) && start.workers == [Idle] && ValidLines(lines)
    ensures Goes(start, steps, t)
    ensures t == start.(rows := [OrderData(customer, lines, Pending, 1, None)], apis := [NeedsSnapshot],
                        workers := [Delivered(Created(Event(0, 0)))], entered := [0], delivered := [0])
  {
    var a := DoSave(start, customer, lines);
    var b := DoPublishEvent(a, 0);
    t := DoDeliver(b, 0, 0);
    GoesOne(start, Save(customer, lines));
    GoesStep(start, [Save(customer, lines)], a, PublishEvent(0));
    steps := [Save(customer, lines)] + [PublishEvent(0)];
    GoesStep(start, steps, b, Deliver(0, 0));
    steps := steps + [Deliver(0, 0)];
  }

  /** The worker confirms and announces the first order, whatever the API has done meanwhile. */
  lemma WorkerConfirms(c: State, customer: string, lines: seq<Line>, at: int) returns (steps: seq<Step>, t: State)
    requires c.rows == [OrderData(customer, lines, Pending, 1, None)]
    requires c.workers == [Delivered(Created(Event(0, 0)))] && c.main == [] && c.retry == [] && c.dead == []
    requires ValidLines(lines) && Fits(c.inventory, lines) && OneCurrency(lines)
    ensures Goes(c, steps, t)
    ensures t.rows == [OrderData(customer, lines, Confirmed, 2, None)] && t.apis == c.apis
    ensures t.workers == [Idle] && t.main == [] && t.retry == [] && t.dead == []
    ensures t.syncing == c.syncing && t.docs == c.docs
    ensures |t.sync| == |c.sync| + 1 && t.sync[..|c.sync|] == c.sync
    ensures t.sync[|c.sync|].order == 0 && t.sync[|c.sync|].status == Confirmed
  {
    steps, t := UninterruptedDelivery(c, 0, Event(0, 0), lines, at);
    ActsAreInTurn(c, steps, 0);
    ExactOutcome(c.rows, c.inventory, 0, lines, at);
    DeliveryFrame(c, steps, 0);
  }

  /** The worker is quicker than the API: it confirms and announces the order first. */
  lemma WorkerOvertakes(start: State, customer: string, lines: seq<Line>, at: int)
    returns (steps: seq<Step>, t: State)
    requires Init(start) && start.workers == [Idle]
    requires ValidLines(lines) && Fits(start.inventory, lines) && OneCurrency(lines)
    ensures Goes(start, steps, t)
    ensures t.rows == [OrderData(customer, lines, Confirmed, 2, None)] && t.apis == [NeedsSnapshot]
    ensures t.workers == [Idle] && t.main == [] && t.retry == [] && t.dead == []
    ensures t.syncing == [] && t.docs == map[] && |t.sync| == 1 && t.sync[0].order == 0
  {
    var c, acts;
    steps, c := EventDelivered(start, customer, lines);
    acts, t := WorkerConfirms(c, customer, lines, at);
    GoesOn(start, steps, c, acts, t);
    steps := steps + acts;
  }

  lemma {:induction false} DeliveryFrame(s: State, steps: seq<Step>, w: nat)
    requires Legal(s, steps) && ActsOf(steps, w)
    ensures var t := Exec(s, steps); t.apis == s.apis && t.docs == s.docs && t.syncing == s.syncing
    decreases |steps|
  {
    if steps != [] {
      assert steps[0].Act?;
      ActPublishes(s, steps[0].w, steps[0].action);
      ActFrame(s, steps[0].w, steps[0].action);
      DeliveryFrame(Apply(s, steps[0]), steps[1..], w);
    }
  }

  /** Convergence fails without any failure: for every order that can be confirmed and rendered
      there is a run with no exception and no crash, its snapshots applied one by one in the
      order of their publication, after which nothing is left to do anywhere, the order is
      confirmed, and its document says pending. */
  lemma ReadStoreCanStayBehind(start: State, customer: string, lines: seq<Line>, at: int)
    returns (steps: seq<Step>, t: State)
    requires Init(start) && start.workers == [Idle]
    requires ValidLines(lines) && Fits(start.inventory, lines) && OneCurrency(lines)
    ensures Goes(start, steps, t) && Quiet(t) && Drained(t) && t.apis == [Finished]
    ensures |t.rows| == 1 && t.rows[0].status == Confirmed
    ensures 0 in t.docs && t.docs[0].status == Pending
  {
    var s;
    steps, s := WorkerOvertakes(start, customer, lines, at);
    TotalMeaning(lines);
    var a := DoPublishPending(s, 0, at);
    GoesStep(start, steps, s, PublishPending(0, at));
    steps := steps + [PublishPending(0, at)];
    var more1, b := ApplyFirstSnapshot(a);
    GoesOn(start, steps, a, more1, b);
    steps := steps + more1;
    var more2, c := ApplyFirstSnapshot(b);
    GoesOn(start, steps, b, more2, c);
    steps, t := steps + more2, c;
  }

  // ---------- and what makes it catch up ----------

  predicate ApiDone(s: State, o: int) {
    0 <= o < |s.apis| && s.apis[o] == Finished
  }

  /** The step is a worker's publication of a snapshot of order o. */
  predicate Announces(s: State, step: Step, o: int) {
    step.Act? && step.action.Announce? && CanAct(s, step.w, step.action) && s.workers[step.w].event.order == o
  }

  /** Order o is announced only after the API call that saved it has finished. */
  predicate ApiFirst(s: State, steps: seq<Step>, o: int)
    requires Legal(s, steps)
    decreases |steps|
  {
    steps == [] || ((Announces(s, steps[0], o) ==> ApiDone(s, o)) && ApiFirst(Apply(s, steps[0]), steps[1..], o))
  }

  predicate SomeFinal(vs: seq<Snapshot>, o: int) {
    exists v :: v in vs && v.order == o && v.status != Pending
  }

  /** A final snapshot comes last. */
  predicate FinalIsLast(s: State, o: int) {
    SomeFinal(s.announced, o) ==>
      && ApiDone(s, o)
      && LastFor(s.announced, o).Some? && LastFor(s.announced, o).value.status != Pending
  }

  /** One more snapshot: a final one after the API has finished, or no pending one after a final. */
  lemma FinalStaysLast(s: State, t: State, v: Snapshot, o: int)
    requires FinalIsLast(s, o) && t.announced == s.announced + [v] && (ApiDone(s, o) ==> ApiDone(t, o))
    requires v.order == o ==> if v.status == Pending then !SomeFinal(s.announced, o) else ApiDone(t, o)
    ensures FinalIsLast(t, o)
  {
    ReplayMore(s.announced, v, o);
    SomeFinalMore(s.announced, v, o);
  }

  lemma AnnounceFinalLast(s: State, w: nat, at: int, o: int)
    requires FinalIsLast(s, o) && Ok(s) && CanAct(s, w, Announce(at))
    requires Announces(s, Act(w, Announce(at)), o) ==> ApiDone(s, o)
    ensures FinalIsLast(DoAnnounce(s, w, at), o)
  {
    var p := s.workers[w];
    assert WorkerOk(s.rows, p);
    match TakeSnapshot(p.event.order, p.order, at)
    case Some(v) => FinalStaysLast(s, DoAnnounce(s, w, at), v, o);
    case None =>
  }

  lemma SomeFinalMore(vs: seq<Snapshot>, v: Snapshot, o: int)
    ensures SomeFinal(vs + [v], o) <==> SomeFinal(vs, o) || (v.order == o && v.status != Pending)
  {
  }

  lemma PendingFinalLast(s: State, p: nat, at: int, o: int)
    requires FinalIsLast(s, o) && Enabled(s, PublishPending(p, at))
    ensures FinalIsLast(DoPublishPending(s, p, at), o)
  {
    match TakeSnapshot(p, s.rows[p].(status := Pending, version := 1, reason := None), at)
    case Some(v) => FinalStaysLast(s, DoPublishPending(s, p, at), v, o);
    case None =>
  }

  lemma OtherActsPublishNothing(s: State, w: nat, a: Action)
    requires CanAct(s, w, a) && !a.Announce?
    ensures DoAct(s, w, a).sync == s.sync && DoAct(s, w, a).announced == s.announced
  {
  }

  lemma ActFinalLast(s: State, w: nat, a: Action, o: int)
    requires FinalIsLast(s, o) && Ok(s) && CanAct(s, w, a) && (Announces(s, Act(w, a), o) ==> ApiDone(s, o))
    ensures FinalIsLast(DoAct(s, w, a), o)
  {
    if a.Announce? {
      AnnounceFinalLast(s, w, a.at, o);
    } else {
      ActFrame(s, w, a);
      OtherActsPublishNothing(s, w, a);
    }
  }

  lemma StepFinalLast(s: State, step: Step, o: int)
    requires FinalIsLast(s, o) && Ok(s) && Enabled(s, step) && (Announces(s, step, o) ==> ApiDone(s, o))
    ensures FinalIsLast(Apply(s, step), o)
  {
    if step.Act? {
      ActFinalLast(s, step.w, step.action, o);
    } else if step.PublishPending? {
      PendingFinalLast(s, step.order, step.at, o);
    }
  }

  lemma {:induction false} RunFinalLast(s: State, steps: seq<Step>, o: int)
    requires FinalIsLast(s, o) && Ok(s) && Legal(s, steps) && ApiFirst(s, steps, o)
    ensures FinalIsLast(Exec(s, steps), o)
    decreases |steps|
  {
    if steps != [] {
      StepFinalLast(s, steps[0], o);
      ApplyOk(s, steps[0]);
      RunFinalLast(Apply(s, steps[0]), steps[1..], o);
    }
  }

  /** The read store has caught up with an order once the snapshots are drained in turn, if that
      order's pending snapshot does not come after its final one, and the final one was published. */
  lemma ReadStoreCatchesUp(start: State, steps: seq<Step>, o: int)
    requires Init(start) && LegalInTurn(start, steps) && Legal(start, steps) && ApiFirst(start, steps, o)
    requires Drained(Exec(start, steps))
    requires SomeFinal(Exec(start, steps).announced, o)
    ensures var s := Exec(start, steps);
            && o in s.docs && Stored(s.rows, o) && Terminal(s.rows[o])
            && s.docs[o].status == s.rows[o].status && s.docs[o].reason == s.rows[o].reason
            && Agrees(s.rows, s.docs[o])
  {
    var s := Exec(start, steps);
    InitOk(start);
    RunOk(start, steps);
    RunFinalLast(start, steps, o);
    DrainedStore(start, steps);
    ReplayIsLast(s.announced, o);
    ReadStoreAgrees(start, steps, o);
  }
}
