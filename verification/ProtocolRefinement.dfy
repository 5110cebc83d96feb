/** An attempt of one worker that nothing interrupts is a run of the transition system, and it
    ends in exactly the tables that processOrder computes: what is proved of every run holds
    for the sequential code, and what is proved of the sequential code happens in runs. */
module ProtocolRefinement {
  import opened Wrappers
  import opened Orders
  import opened Tables
  import opened Processing
  import opened Protocol
  import RetryPolicy

  predicate ActsOf(steps: seq<Step>, w: nat) {
    forall i :: 0 <= i < |steps| ==> steps[i].Act? && steps[i].w == w
  }

  /** The steps lead from s to t by actions of worker w alone. */
  predicate Leads(s: State, steps: seq<Step>, w: nat, t: State) {
    ActsOf(steps, w) && Runs(s, steps, t)
  }

  lemma OneAct(s: State, w: nat, a: Action)
    requires CanAct(s, w, a)
    ensures Leads(s, [Act(w, a)], w, DoAct(s, w, a))
  {
    ExecOne(s, Act(w, a));
  }

  lemma Then(s: State, a: seq<Step>, w: nat, t: State, b: seq<Step>, u: State)
    requires Leads(s, a, w, t) && Leads(t, b, w, u)
    ensures Leads(s, a + b, w, u)
  {
    ExecConcat(s, a, b);
  }

  lemma {:induction false} CheckAll(s: State, w: nat, e: Event, order: OrderData, i: nat) returns (steps: seq<Step>)
    requires w < |s.workers| && i <= |order.lines|
    requires s.workers[w] == Checking(e, order, i, Shortages(s.inventory, order.lines, i))
    ensures Leads(s, steps, w, Goto(s, w, Checking(e, order, |order.lines|,
                                               Shortages(s.inventory, order.lines, |order.lines|))))
    decreases |order.lines| - i
  {
    if i == |order.lines| {
      steps := [];
      assert s.workers[w := s.workers[w]] == s.workers;
    } else {
      OneAct(s, w, Check);
      var t := DoCheck(s, w);
      assert t.workers[w] == Checking(e, order, i + 1, Shortages(s.inventory, order.lines, i + 1));
      var rest := CheckAll(t, w, e, order, i + 1);
      var done := Checking(e, order, |order.lines|, Shortages(s.inventory, order.lines, |order.lines|));
      assert Goto(t, w, done) == Goto(s, w, done);
      Then(s, [Act(w, Check)], w, t, rest, Goto(s, w, done));
      steps := [Act(w, Check)] + rest;
    }
  }

  lemma {:induction false} TakeStops(inventory: Inventory, lines: seq<Line>, i: nat, n: nat)
    requires i <= n <= |lines| && Take(inventory, lines, i).1 < i
    ensures Take(inventory, lines, n) == Take(inventory, lines, i)
    decreases n - i
  {
    if i < n { TakeStops(inventory, lines, i, n - 1); }
  }

  /** Where the decrement loop ends: with all lines taken, or caught after the first failure. */
  function AfterReserving(s: State, w: nat, e: Event, order: OrderData, inventory: Inventory): State
    requires w < |s.workers|
  {
    var (after, k) := Take(inventory, order.lines, |order.lines|);
    if k == |order.lines|
    then Goto(s, w, Reserving(e, order, k)).(inventory := after)
    else Goto(s, w, Failed(e)).(inventory := after, leaks := s.leaks + [Leak(e.order, order.lines, k)])
  }

  lemma ReserveStep(s: State, w: nat, e: Event, order: OrderData, inventory: Inventory, i: nat)
    requires w < |s.workers| && i < |order.lines| && s.workers[w] == Reserving(e, order, i)
    requires Take(inventory, order.lines, i) == (s.inventory, i)
    ensures var (after, k) := Take(inventory, order.lines, i + 1);
            DoReserve(s, w) ==
            if k == i + 1 then Goto(s, w, Reserving(e, order, k)).(inventory := after)
            else Goto(s, w, Failed(e)).(leaks := s.leaks + [Leak(e.order, order.lines, i)])
    ensures Take(inventory, order.lines, i + 1).1 != i + 1 ==>
              Take(inventory, order.lines, i + 1) == (s.inventory, i)
  {
  }

  lemma {:induction false} ReserveAll(s: State, w: nat, e: Event, order: OrderData, inventory: Inventory, i: nat)
    returns (steps: seq<Step>)
    requires w < |s.workers| && i <= |order.lines| && s.workers[w] == Reserving(e, order, i)
    requires Take(inventory, order.lines, i) == (s.inventory, i)
    ensures Leads(s, steps, w, AfterReserving(s, w, e, order, inventory))
    decreases |order.lines| - i
  {
    if i == |order.lines| {
      steps := [];
      assert s.workers[w := s.workers[w]] == s.workers;
    } else {
      OneAct(s, w, Reserve);
      var t := DoReserve(s, w);
      ReserveStep(s, w, e, order, inventory, i);
      if Take(inventory, order.lines, i + 1).1 == i + 1 {
        var rest := ReserveAll(t, w, e, order, inventory, i + 1);
        assert AfterReserving(t, w, e, order, inventory) == AfterReserving(s, w, e, order, inventory);
        Then(s, [Act(w, Reserve)], w, t, rest, AfterReserving(s, w, e, order, inventory));
        steps := [Act(w, Reserve)] + rest;
      } else {
        TakeStops(inventory, order.lines, i + 1, |order.lines|);
        steps := [Act(w, Reserve)];
      }
    }
  }

  /** The tables, the messages published and the way the attempt ended match processOrder. */
  predicate Matches(s: State, t: State, w: nat, e: Event, p: Processed) {
    && t.rows == p.rows && t.inventory == p.inventory
    && t.sync == s.sync + (if p.published.Some? then [p.published.value] else [])
    && t.main == s.main && t.retry == s.retry && t.dead == s.dead
    && w < |s.workers|
    && t.workers == s.workers[w := if p.result.Success? then Done(Created(e)) else Failed(e)]
  }

  /** Committing and publishing, from either place a worker commits at. */
  lemma FinishRun(s: State, t0: State, w: nat, order: OrderData, outcome: Outcome, at: int, commit: Action)
    returns (steps: seq<Step>, t: State)
    requires w < |s.workers| && (s.workers[w].Checking? || s.workers[w].Reserving?)
    requires CanAct(s, w, commit) && DoAct(s, w, commit) == Store(s, w, order)
    requires t0.sync == s.sync && t0.main == s.main && t0.retry == s.retry && t0.dead == s.dead
    requires w < |t0.workers| && s.workers == t0.workers[w := s.workers[w]]
    ensures Leads(s, steps, w, t)
    ensures Matches(t0, t, w, s.workers[w].event,
                    Finish(s.rows, s.inventory, s.workers[w].event.order, order, outcome, at))
  {
    var e := s.workers[w].event;
    OneAct(s, w, commit);
    t := Store(s, w, order);
    steps := [Act(w, commit)];
    if UpdateStatus(s.rows, e.order, order.status, order.version, ReasonToStore(order)).Some? {
      OneAct(t, w, Announce(at));
      var u := DoAnnounce(t, w, at);
      Then(s, steps, w, t, [Act(w, Announce(at))], u);
      steps, t := steps + [Act(w, Announce(at))], u;
    }
  }

  lemma ReadRun(s: State, w: nat, e: Event, lines: seq<Line>) returns (steps: seq<Step>, t: State)
    requires w < |s.workers| && s.workers[w] == Delivered(Created(e))
    requires Stored(s.rows, e.order) && s.rows[e.order].status == Pending
    requires multiset(lines) == multiset(s.rows[e.order].lines)
    ensures Leads(s, steps, w, t)
    ensures var order := s.rows[e.order].(lines := lines);
            t == Goto(s, w, Checking(e, order, |lines|, Shortages(s.inventory, lines, |lines|)))
  {
    var order := s.rows[e.order].(lines := lines);
    OneAct(s, w, Read);
    var t1 := DoRead(s, w);
    OneAct(t1, w, ReadLines(lines));
    var t2 := DoAct(t1, w, ReadLines(lines));
    Then(s, [Act(w, Read)], w, t1, [Act(w, ReadLines(lines))], t2);
    assert t2 == Goto(s, w, Checking(e, order, 0, []));
    var rest := CheckAll(t2, w, e, order, 0);
    t := Goto(s, w, Checking(e, order, |lines|, Shortages(s.inventory, lines, |lines|)));
    assert t == Goto(t2, w, t.workers[w]);
    steps := [Act(w, Read)] + [Act(w, ReadLines(lines))];
    Then(s, steps, w, t2, rest, t);
    steps := steps + rest;
  }

  lemma DecidedRun(s: State, t0: State, w: nat, e: Event, order: OrderData, at: int)
    returns (steps: seq<Step>, t: State)
    requires w < |t0.workers|
    requires s == Goto(t0, w, Checking(e, order, |order.lines|, Shortages(s.inventory, order.lines, |order.lines|)))
    requires Stored(s.rows, e.order) && s.rows[e.order].status == Pending
    requires order == s.rows[e.order].(lines := order.lines)
    ensures Leads(s, steps, w, t)
    ensures Matches(t0, t, w, e, Process(s.rows, s.inventory, e.order, order.lines, at))
  {
    var shortages := Shortages(s.inventory, order.lines, |order.lines|);
    if shortages != [] {
      steps, t := FinishRun(s, t0, w, Reject(order, shortages), RejectedFor(ShortageReason(shortages)), at, Decide);
    } else {
      OneAct(s, w, Decide);
      var t1 := DoDecide(s, w);
      var rest := ReserveAll(t1, w, e, order, s.inventory, 0);
      t := AfterReserving(t1, w, e, order, s.inventory);
      Then(s, [Act(w, Decide)], w, t1, rest, t);
      steps := [Act(w, Decide)] + rest;
      if Take(s.inventory, order.lines, |order.lines|).1 == |order.lines| {
        var last, u := FinishRun(t, t0, w, Confirm(order), ConfirmedNow, at, Commit);
        Then(s, steps, w, t, last, u);
        steps, t := steps + last, u;
      }
    }
  }

  /** Every uninterrupted processOrder, whatever its outcome, is a run of one protocol worker. */
  lemma UninterruptedAttempt(s: State, w: nat, e: Event, lines: seq<Line>, at: int)
    returns (steps: seq<Step>, t: State)
    requires w < |s.workers| && s.workers[w] == Delivered(Created(e))
    requires Stored(s.rows, e.order) ==> multiset(lines) == multiset(s.rows[e.order].lines)
    ensures Leads(s, steps, w, t)
    ensures Matches(s, t, w, e, Process(s.rows, s.inventory, e.order, lines, at))
  {
    if Stored(s.rows, e.order) && s.rows[e.order].status == Pending {
      var order := s.rows[e.order].(lines := lines);
      var first, t1 := ReadRun(s, w, e, lines);
      var second, t2 := DecidedRun(t1, s, w, e, order, at);
      Then(s, first, w, t1, second, t2);
      steps, t := first + second, t2;
    } else {
      OneAct(s, w, Read);
      steps, t := [Act(w, Read)], DoRead(s, w);
    }
  }

  /** A whole uninterrupted delivery, retry or dead-letter copy and acknowledgement included. */
  lemma UninterruptedDelivery(s: State, w: nat, e: Event, lines: seq<Line>, at: int)
    returns (steps: seq<Step>, t: State)
    requires w < |s.workers| && s.workers[w] == Delivered(Created(e))
    requires Stored(s.rows, e.order) ==> multiset(lines) == multiset(s.rows[e.order].lines)
    ensures Leads(s, steps, w, t)
    ensures var p := Process(s.rows, s.inventory, e.order, lines, at);
            && t.rows == p.rows && t.inventory == p.inventory
            && t.sync == s.sync + (if p.published.Some? then [p.published.value] else [])
            && t.main == s.main && t.workers == s.workers[w := Idle]
            && (p.result.Success? ==> t.retry == s.retry && t.dead == s.dead)
            && (p.result.Failure? ==>
                  match RetryPolicy.DecideRetry(e.retries, t.config.maxAttempts, t.config.baseDelayMs)
                  case DeadLetter => t.retry == s.retry && t.dead == s.dead + [Dead(e.order, e.retries)]
                  case Retry(next, _) => t.retry == s.retry + [Event(e.order, next)] && t.dead == s.dead)
  {
    var p := Process(s.rows, s.inventory, e.order, lines, at);
    steps, t := UninterruptedAttempt(s, w, e, lines, at);
    if p.result.Failure? {
      OneAct(t, w, HandOver);
      var u := DoHandOver(t, w);
      Then(s, steps, w, t, [Act(w, HandOver)], u);
      steps, t := steps + [Act(w, HandOver)], u;
    }
    OneAct(t, w, Ack);
    var u := Goto(t, w, Idle);
    Then(s, steps, w, t, [Act(w, Ack)], u);
    steps, t := steps + [Act(w, Ack)], u;
  }

  /** An API call that nothing but the broker's absence interrupts: its effects one after the
      other, up to the first publish that finds no broker. */
  lemma UninterruptedCreation(s: State, customer: string, lines: seq<Line>, at: int,
                              eventReachable: bool, snapshotReachable: bool)
    returns (steps: seq<Step>, t: State)
    requires ValidLines(lines) && |s.apis| == |s.rows|
    ensures Legal(s, steps) && t == Exec(s, steps)
    ensures var stored := OrderData(customer, lines, Pending, 1, None);
            var o := |s.rows|;
            var snapshot := TakeSnapshot(o, stored, at);
            && t.rows == s.rows + [stored] && t.apis == s.apis + [Finished]
            && t.main == s.main + (if eventReachable then [Created(Event(o, 0))] else [])
            && t.sync == s.sync +
                 (if eventReachable && snapshotReachable && snapshot.Some? then [snapshot.value] else [])
            && t.inventory == s.inventory && t.workers == s.workers && t.retry == s.retry && t.dead == s.dead
  {
    var o := |s.rows|;
    var a := DoSave(s, customer, lines);
    ExecOne(s, Save(customer, lines));
    steps := [Save(customer, lines)];
    if !eventReachable {
      RunsStep(s, steps, a, ApiDies(o));
      return steps + [ApiDies(o)], Apply(a, ApiDies(o));
    }
    RunsStep(s, steps, a, PublishEvent(o));
    var b := DoPublishEvent(a, o);
    steps := steps + [PublishEvent(o)];
    var last := if snapshotReachable then PublishPending(o, at) else ApiDies(o);
    RunsStep(s, steps, b, last);
    steps, t := steps + [last], Apply(b, last);
  }
}
