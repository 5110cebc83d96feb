/** When the read store agrees with the write store if snapshots are delivered, put back and
    applied in any order, by any number of sync workers. */
module ProtocolOutOfTurn {
  import opened Wrappers
  import opened Orders
  import opened Tables
  import opened Sums
  import opened Processing
  import opened Protocol
  import opened ProtocolState
  import opened ProtocolTally
  import opened ProtocolTermination
  import opened ProtocolReadModel

  // ---------- the last snapshot applied decides ----------

  /** The snapshots upserted along a run, in that order. */
  function Upserts(s: State, steps: seq<Step>): seq<Snapshot>
    requires Legal(s, steps)
    decreases |steps|
  {
    if steps == [] then []
    else
      (if steps[0].SyncUpsert? then [s.syncing[steps[0].j].snapshot] else [])
      + Upserts(Apply(s, steps[0]), steps[1..])
  }

  lemma {:induction false} LastForMore(v: Snapshot, vs: seq<Snapshot>, o: int)
    ensures LastFor([v] + vs, o) ==
            if LastFor(vs, o).Some? then LastFor(vs, o) else if v.order == o then Some(v) else None
    decreases |vs|
  {
    if vs == [] {
      assert LastFor([], o) == None;
    } else {
      var front := vs[..|vs| - 1];
      assert ([v] + vs)[..|vs|] == [v] + front;
      LastForMore(v, front, o);
    }
  }

  lemma ActKeepsDocs(s: State, step: Step)
    requires Enabled(s, step) && !step.SyncUpsert?
    ensures Apply(s, step).docs == s.docs
  {
    if step.Act? { ActFrame(s, step.w, step.action); }
  }

  lemma {:induction false} DocsAreLastApplied(s: State, steps: seq<Step>, o: int)
    requires Legal(s, steps)
    ensures var last := LastFor(Upserts(s, steps), o);
            var docs := Exec(s, steps).docs;
            if last.Some? then o in docs && docs[o] == last.value
            else (o in docs <==> o in s.docs) && (o in docs ==> docs[o] == s.docs[o])
    decreases |steps|
  {
    if steps != [] {
      var t := Apply(s, steps[0]);
      DocsAreLastApplied(t, steps[1..], o);
      if steps[0].SyncUpsert? {
        LastForMore(s.syncing[steps[0].j].snapshot, Upserts(t, steps[1..]), o);
      } else {
        ActKeepsDocs(s, steps[0]);
        assert Upserts(s, steps) == Upserts(t, steps[1..]);
      }
    }
  }

  /** In every run, in whatever order snapshots are applied, a finished order's document agrees
      with the write store iff the snapshot applied last was not a pending one. */
  lemma AgreesIffLastApplied(start: State, steps: seq<Step>, o: int)
    requires Init(start) && Legal(start, steps)
    requires Stored(Exec(start, steps).rows, o) && Terminal(Exec(start, steps).rows[o])
    ensures var s := Exec(start, steps);
            var last := LastFor(Upserts(start, steps), o);
            && (o in s.docs <==> last.Some?)
            && (last.Some? ==>
                  (s.docs[o].status == s.rows[o].status && s.docs[o].reason == s.rows[o].reason
                   <==> last.value.status != Pending))
  {
    DocsAreLastApplied(start, steps, o);
    if o in Exec(start, steps).docs {
      ReadStoreAgrees(start, steps, o);
    }
  }

  // ---------- one snapshot put back is enough to stay behind ----------

  lemma UnappliedAnnounced(s: State)
    requires AppliedInTurn(s) && s.docs == map[] && s.syncing == []
    ensures s.announced == s.sync
  {
    var k := |s.announced| - |s.sync|;
    assert Waiting(s) == s.sync && AppliedUpTo(s, k);
    if k > 0 {
      assert s.announced[..k][k - 1].order in Replay(s.announced[..k]);
    }
    assert s.announced[0..] == s.announced;
  }

  /** The order is confirmed after the API has finished: its pending snapshot was published
      first, and both wait. */
  lemma BothSnapshotsWait(start: State, customer: string, lines: seq<Line>, at: int)
    returns (steps: seq<Step>, t: State)
    requires Init(start) && start.workers == [Idle]
    requires ValidLines(lines) && Fits(start.inventory, lines) && OneCurrency(lines)
    ensures Goes(start, steps, t) && Quiet(t)
    ensures t.rows == [OrderData(customer, lines, Confirmed, 2, None)] && t.apis == [Finished]
    ensures t.syncing == [] && t.announced == t.sync && |t.sync| == 2
    ensures t.sync[0].order == t.sync[1].order == 0
    ensures t.sync[0].status == Pending && t.sync[1].status == Confirmed
  {
    var c, acts;
    steps, c := EventDelivered(start, customer, lines);
    TotalMeaning(lines);
    GoesStep(start, steps, c, PublishPending(0, at));
    var d := DoPublishPending(c, 0, at);
    steps := steps + [PublishPending(0, at)];
    acts, t := WorkerConfirms(d, customer, lines, at);
    GoesOn(start, steps, d, acts, t);
    steps := steps + acts;
    InitInTurn(start);
    RunKeepsTurns(start, steps);
    UnappliedAnnounced(t);
    assert t.sync[0] == t.sync[..1][0];
  }

  /** The publication order does not protect the read store either: when the sync worker puts
      the pending snapshot back once, the final one overtakes it. Afterwards nothing is left to
      do anywhere, the order is confirmed, the last snapshot published for it says so, and its
      document says pending. */
  lemma PutBackSnapshotWins(start: State, customer: string, lines: seq<Line>, at: int)
    returns (steps: seq<Step>, t: State)
    requires Init(start) && start.workers == [Idle]
    requires ValidLines(lines) && Fits(start.inventory, lines) && OneCurrency(lines)
    ensures Runs(start, steps, t) && Quiet(t) && Drained(t) && t.apis == [Finished]
    ensures |t.rows| == 1 && t.rows[0].status == Confirmed
    ensures LastFor(t.announced, 0).Some? && LastFor(t.announced, 0).value.status == Confirmed
    ensures 0 in t.docs && t.docs[0].status == Pending
  {
    var s;
    steps, s := BothSnapshotsWait(start, customer, lines, at);
    var a := Apply(s, SyncDeliver(0));
    RunsStep(start, steps, s, SyncDeliver(0));
    steps := steps + [SyncDeliver(0)];
    var b := Apply(a, SyncRequeue(0));
    RunsStep(start, steps, a, SyncRequeue(0));
    steps := steps + [SyncRequeue(0)];
    assert b == s.(sync := [s.sync[1], s.sync[0]]);
    var more1, c := ApplyFirstSnapshot(b);
    RunsThen(start, steps, b, more1, c);
    steps := steps + more1;
    var more2, d := ApplyFirstSnapshot(c);
    RunsThen(start, steps, c, more2, d);
    steps, t := steps + more2, d;
  }

  // ---------- what makes it catch up in any order ----------

  predicate NoneUnderWay(s: State, o: int) {
    && (forall v :: v in s.sync ==> v.order != o)
    && (forall u :: u in s.syncing ==> u.snapshot.order != o)
  }

  /** Order o is announced only when its API call has finished and no snapshot of it is queued
      or with a sync worker. */
  predicate AnnouncedAlone(s: State, steps: seq<Step>, o: int)
    requires Legal(s, steps)
    decreases |steps|
  {
    steps == []
    || (&& (Announces(s, steps[0], o) ==> ApiDone(s, o) && NoneUnderWay(s, o))
        && AnnouncedAlone(Apply(s, steps[0]), steps[1..], o))
  }

  predicate FinalSnapshot(v: Snapshot, o: int) {
    v.order == o && v.status != Pending
  }

  predicate OnlyFinalUnderWay(s: State, o: int) {
    && (forall v :: v in s.sync && v.order == o ==> FinalSnapshot(v, o))
    && (forall u :: u in s.syncing && u.snapshot.order == o ==> FinalSnapshot(u.snapshot, o))
  }

  /** The read store shows order o as final, or a snapshot that will is on its way. */
  predicate FinalArrives(s: State, o: int) {
    || (o in s.docs && s.docs[o].status != Pending)
    || (exists v :: v in s.sync && v.order == o)
    || (exists u :: u in s.syncing && u.Taken? && u.snapshot.order == o)
  }

  predicate FinalPrevails(s: State, o: int) {
    SomeFinal(s.announced, o) ==> ApiDone(s, o) && OnlyFinalUnderWay(s, o) && FinalArrives(s, o)
  }

  lemma OneMoreWaits(s: State, t: State, v: Snapshot, o: int)
    requires FinalPrevails(s, o) && (ApiDone(s, o) ==> ApiDone(t, o))
    requires t.announced == s.announced + [v] && t.sync == s.sync + [v]
    requires t.syncing == s.syncing && t.docs == s.docs
    requires v.order == o ==>
               if v.status == Pending then !SomeFinal(s.announced, o) else ApiDone(s, o) && NoneUnderWay(s, o)
    ensures FinalPrevails(t, o)
  {
    SomeFinalMore(s.announced, v, o);
    if SomeFinal(s.announced, o) && v.order != o {
      if x :| x in s.sync && x.order == o { assert x in t.sync; }
    }
    if v.order == o { assert v in t.sync; }
  }

  lemma NothingNewWaits(s: State, t: State, o: int)
    requires FinalPrevails(s, o) && (ApiDone(s, o) ==> ApiDone(t, o))
    requires t.announced == s.announced && t.sync == s.sync && t.syncing == s.syncing && t.docs == s.docs
    ensures FinalPrevails(t, o)
  {
  }

  lemma AnnouncePrevails(s: State, w: nat, at: int, o: int)
    requires FinalPrevails(s, o) && Ok(s) && CanAct(s, w, Announce(at))
    requires Announces(s, Act(w, Announce(at)), o) ==> ApiDone(s, o) && NoneUnderWay(s, o)
    ensures FinalPrevails(DoAnnounce(s, w, at), o)
  {
    var p := s.workers[w];
    assert WorkerOk(s.rows, p);
    match TakeSnapshot(p.event.order, p.order, at)
    case Some(v) => OneMoreWaits(s, DoAnnounce(s, w, at), v, o);
    case None => NothingNewWaits(s, DoAnnounce(s, w, at), o);
  }

  lemma PendingPrevails(s: State, p: nat, at: int, o: int)
    requires FinalPrevails(s, o) && Enabled(s, PublishPending(p, at))
    ensures FinalPrevails(DoPublishPending(s, p, at), o)
  {
    match TakeSnapshot(p, s.rows[p].(status := Pending, version := 1, reason := None), at)
    case Some(v) => OneMoreWaits(s, DoPublishPending(s, p, at), v, o);
    case None => NothingNewWaits(s, DoPublishPending(s, p, at), o);
  }

  lemma SyncDeliverPrevails(s: State, i: nat, o: int)
    requires FinalPrevails(s, o) && Enabled(s, SyncDeliver(i))
    ensures FinalPrevails(DoSync(s, SyncDeliver(i)), o)
  {
    var t := DoSync(s, SyncDeliver(i));
    InWithout(s.sync, i);
    assert Taken(s.sync[i]) in t.syncing;
    assert forall u :: u in t.syncing <==> u in s.syncing || u == Taken(s.sync[i]);
  }

  lemma SyncUpsertPrevails(s: State, j: nat, o: int)
    requires FinalPrevails(s, o) && Enabled(s, SyncUpsert(j))
    ensures FinalPrevails(DoSyncUpsert(s, j), o)
  {
    var t := DoSyncUpsert(s, j);
    var v := s.syncing[j].snapshot;
    assert s.syncing[j] in s.syncing;
    forall u | u in t.syncing ensures u in s.syncing || u == Applied(v) { }
    forall u | u in s.syncing ensures u in t.syncing || u == Taken(v) {
      var k :| 0 <= k < |s.syncing| && s.syncing[k] == u;
      if k != j { assert t.syncing[k] == u; }
    }
  }

  lemma SyncAckPrevails(s: State, j: nat, o: int)
    requires FinalPrevails(s, o) && Enabled(s, SyncAck(j))
    ensures FinalPrevails(DoSync(s, SyncAck(j)), o)
  {
    InWithout(s.syncing, j);
  }

  lemma SyncRequeuePrevails(s: State, j: nat, o: int)
    requires FinalPrevails(s, o) && Enabled(s, SyncRequeue(j))
    ensures FinalPrevails(DoSync(s, SyncRequeue(j)), o)
  {
    var t := DoSync(s, SyncRequeue(j));
    InWithout(s.syncing, j);
    assert s.syncing[j].snapshot in t.sync;
    assert forall v :: v in t.sync <==> v in s.sync || v == s.syncing[j].snapshot;
  }

  lemma StepPrevails(s: State, step: Step, o: int)
    requires FinalPrevails(s, o) && Ok(s) && Enabled(s, step)
    requires Announces(s, step, o) ==> ApiDone(s, o) && NoneUnderWay(s, o)
    ensures FinalPrevails(Apply(s, step), o)
  {
    match step
    case SyncDeliver(i) => SyncDeliverPrevails(s, i, o);
    case SyncUpsert(j) => SyncUpsertPrevails(s, j, o);
    case SyncAck(j) => SyncAckPrevails(s, j, o);
    case SyncRequeue(j) => SyncRequeuePrevails(s, j, o);
    case PublishPending(p, at) => PendingPrevails(s, p, at, o);
    case Act(w, a) =>
      if a.Announce? {
        AnnouncePrevails(s, w, a.at, o);
      } else {
        ActFrame(s, w, a);
        OtherActsPublishNothing(s, w, a);
        NothingNewWaits(s, DoAct(s, w, a), o);
      }
    case _ => NothingNewWaits(s, Apply(s, step), o);
  }

  lemma {:induction false} RunPrevails(s: State, steps: seq<Step>, o: int)
    requires FinalPrevails(s, o) && Ok(s) && Legal(s, steps) && AnnouncedAlone(s, steps, o)
    ensures FinalPrevails(Exec(s, steps), o)
    decreases |steps|
  {
    if steps != [] {
      StepPrevails(s, steps[0], o);
      ApplyOk(s, steps[0]);
      RunPrevails(Apply(s, steps[0]), steps[1..], o);
    }
  }

  /** With any number of sync workers, in any order and with any snapshots put back: if an order
      is announced only once its API call has finished and its pending snapshot is out of the
      way, the drained read store shows its final status. */
  lemma CatchesUpOutOfTurn(start: State, steps: seq<Step>, o: int)
    requires Init(start) && Legal(start, steps) && AnnouncedAlone(start, steps, o)
    requires Drained(Exec(start, steps)) && SomeFinal(Exec(start, steps).announced, o)
    ensures var s := Exec(start, steps);
            && o in s.docs && Stored(s.rows, o) && Terminal(s.rows[o])
            && s.docs[o].status == s.rows[o].status && s.docs[o].reason == s.rows[o].reason
            && Agrees(s.rows, s.docs[o])
  {
    InitOk(start);
    RunPrevails(start, steps, o);
    ReadStoreAgrees(start, steps, o);
  }
}
