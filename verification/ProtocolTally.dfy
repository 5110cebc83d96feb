/** Weighing every message copy in the system, wherever it is, and what one step does to the
    total weight. */
module ProtocolTally {
  import opened Orders
  import opened Tables
  import opened Sums
  import opened Protocol
  import RetryPolicy

  /** A weight for each place a message can be in. */
  datatype Weights = Weights(msg: Msg -> int, event: Event -> int, dead: Dead -> int, worker: Worker -> int)

  function Tally(s: State, g: Weights): int {
    Sum(g.msg, s.main) + Sum(g.event, s.retry) + Sum(g.dead, s.dead) + Sum(g.worker, s.workers)
  }

  function Zero<T>(): T -> int {
    (x: T) => 0
  }

  /** The weight of the copy that handleFailure publishes. */
  function CopyWeight(s: State, e: Event, g: Weights): int {
    match RetryPolicy.DecideRetry(e.retries, s.config.maxAttempts, s.config.baseDelayMs)
    case DeadLetter => g.dead(Dead(e.order, e.retries))
    case Retry(next, _) => g.event(Event(e.order, next))
  }

  /** The change of weight, read off the one message the step moves. */
  function Change(s: State, step: Step, g: Weights): int
    requires Enabled(s, step)
  {
    match step
    case PublishEvent(o) => g.msg(Created(Event(o, 0)))
    case Inject(msg) => g.msg(msg)
    case Expire(i) => g.msg(Created(s.retry[i])) - g.event(s.retry[i])
    case Deliver(w, i) => g.worker(Delivered(s.main[i])) - g.worker(Idle) - g.msg(s.main[i])
    case Act(w, a) =>
      g.worker(DoAct(s, w, a).workers[w]) - g.worker(s.workers[w])
      + (if a.HandOver? then CopyWeight(s, s.workers[w].event, g) else 0)
    case Crash(w) => g.msg(Held(s.workers[w])) + g.worker(Idle) - g.worker(s.workers[w])
    case _ => 0
  }

  /** A worker's action changes that worker, the tables and the queues it publishes to only. */
  predicate OnlyWorker(s: State, t: State, w: nat)
    requires w < |s.workers|
  {
    && w < |t.workers| && t.workers == s.workers[w := t.workers[w]] && t.config == s.config
    && t.main == s.main && t.apis == s.apis && t.docs == s.docs && t.syncing == s.syncing
    && t.entered == s.entered && t.requeued == s.requeued && t.delivered == s.delivered
  }

  predicate NoHandOver(s: State, t: State) {
    t.retry == s.retry && t.dead == s.dead
  }

  lemma StoreFrame(s: State, w: nat, order: OrderData)
    requires w < |s.workers| && (s.workers[w].Checking? || s.workers[w].Reserving?)
    ensures OnlyWorker(s, Store(s, w, order), w) && NoHandOver(s, Store(s, w, order))
    ensures Store(s, w, order).inventory == s.inventory
  {
  }

  lemma ReadFrame(s: State, w: nat)
    requires CanAct(s, w, Read)
    ensures OnlyWorker(s, DoRead(s, w), w) && NoHandOver(s, DoRead(s, w))
  {
  }

  lemma StatementFrame(s: State, w: nat, a: Action)
    requires CanAct(s, w, a) && (a.Reserve? || a.Announce?)
    ensures OnlyWorker(s, DoAct(s, w, a), w) && NoHandOver(s, DoAct(s, w, a))
  {
  }

  lemma ActFrame(s: State, w: nat, a: Action)
    requires CanAct(s, w, a)
    ensures OnlyWorker(s, DoAct(s, w, a), w)
    ensures !a.HandOver? ==> NoHandOver(s, DoAct(s, w, a))
  {
    match a
    case Decide =>
      if s.workers[w].shortages != [] { StoreFrame(s, w, Reject(s.workers[w].order, s.workers[w].shortages)); }
    case Commit => StoreFrame(s, w, Confirm(s.workers[w].order));
    case Read => ReadFrame(s, w);
    case Reserve => StatementFrame(s, w, a);
    case Announce(_) => StatementFrame(s, w, a);
    case _ =>
  }

  lemma ApplyFrame(s: State, step: Step)
    requires Enabled(s, step)
    ensures var t := Apply(s, step);
            && t.config == s.config && |t.workers| == |s.workers|
            && (!step.Act? && !step.Deliver? && !step.Crash? ==> t.workers == s.workers && t.leaks == s.leaks)
            && (!step.Act? ==> t.inventory == s.inventory && t.commits == s.commits)
            && (!step.Act? && !step.Save? ==> t.rows == s.rows)
  {
    if step.Act? { ActFrame(s, step.w, step.action); }
  }

  lemma HandOverTally(s: State, w: nat, g: Weights)
    requires CanAct(s, w, HandOver)
    ensures Tally(DoHandOver(s, w), g) ==
            Tally(s, g) + g.worker(Handed(s.workers[w].event)) - g.worker(s.workers[w])
            + CopyWeight(s, s.workers[w].event, g)
  {
    var e := s.workers[w].event;
    SumUpdate(g.worker, s.workers, w, Handed(e));
    match RetryPolicy.DecideRetry(e.retries, s.config.maxAttempts, s.config.baseDelayMs)
    case DeadLetter => SumAppend(g.dead, s.dead, Dead(e.order, e.retries));
    case Retry(next, _) => SumAppend(g.event, s.retry, Event(e.order, next));
  }

  lemma TallyStep(s: State, step: Step, g: Weights)
    requires Enabled(s, step)
    ensures Tally(Apply(s, step), g) == Tally(s, g) + Change(s, step, g)
  {
    match step
    case PublishEvent(o) => SumAppend(g.msg, s.main, Created(Event(o, 0)));
    case Inject(msg) => SumAppend(g.msg, s.main, msg);
    case Expire(i) =>
      SumAppend(g.msg, s.main, Created(s.retry[i]));
      SumWithout(g.event, s.retry, i);
    case Deliver(w, i) =>
      SumWithout(g.msg, s.main, i);
      SumUpdate(g.worker, s.workers, w, Delivered(s.main[i]));
    case Act(w, a) =>
      if a.HandOver? {
        HandOverTally(s, w, g);
      } else {
        ActFrame(s, w, a);
        SumUpdate(g.worker, s.workers, w, DoAct(s, w, a).workers[w]);
      }
    case Crash(w) =>
      SumAppend(g.msg, s.main, Held(s.workers[w]));
      SumUpdate(g.worker, s.workers, w, Idle);
    case _ =>
  }
}
