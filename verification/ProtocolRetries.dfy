/** A message that fails every time: how a run carries it from its first delivery to the
    dead-letter queue. */
module ProtocolRetries {
  import opened Tables
  import opened Sums
  import opened Protocol
  import opened ProtocolAttempts
  import RetryPolicy

  /** An event of an order that is not stored fails at its first statement, and its copy is handed
      over and acknowledged. */
  lemma OneFailure(s: State, w: nat, e: Event) returns (steps: seq<Step>)
    requires w < |s.workers| && s.workers[w] == Delivered(Created(e)) && !Stored(s.rows, e.order)
    ensures Runs(s, steps,
                 if e.retries < s.config.maxAttempts
                 then Goto(s, w, Idle).(retry := s.retry + [Event(e.order, e.retries + 1)])
                 else Goto(s, w, Idle).(dead := s.dead + [Dead(e.order, e.retries)]))
  {
    var a := DoRead(s, w);
    assert a == Goto(s, w, Failed(e));
    ExecOne(s, Act(w, Read));
    RunsStep(s, [Act(w, Read)], a, Act(w, HandOver));
    var b := DoHandOver(a, w);
    steps := [Act(w, Read)] + [Act(w, HandOver)];
    RunsStep(s, steps, b, Act(w, Ack));
    steps := steps + [Act(w, Ack)];
  }

  /** The retry copy comes back to the worker. */
  lemma OneReturn(s: State, w: nat, e: Event) returns (steps: seq<Step>)
    requires w < |s.workers| && s.workers[w] == Idle && s.main == [] && s.retry == [e]
    ensures Runs(s, steps, Goto(s, w, Delivered(Created(e))).(retry := [], delivered := s.delivered + [e.order]))
  {
    var a := DoExpire(s, 0);
    assert a == s.(retry := [], main := [Created(e)]);
    ExecOne(s, Expire(0));
    RunsStep(s, [Expire(0)], a, Deliver(w, 0));
    assert DoDeliver(a, w, 0)
        == Goto(s, w, Delivered(Created(e))).(retry := [], delivered := s.delivered + [e.order]);
    steps := [Expire(0)] + [Deliver(w, 0)];
  }

  /** From retry count r such an event is delivered max - r times more, and then dead-lettered with
      the retry count max. */
  lemma {:induction false} FailsToTheEnd(s: State, w: nat, o: int, r: nat) returns (steps: seq<Step>, t: State)
    requires w < |s.workers| && s.workers[w] == Delivered(Created(Event(o, r))) && !Stored(s.rows, o)
    requires s.main == [] && s.retry == [] && r <= s.config.maxAttempts
    ensures Runs(s, steps, t)
    ensures t == Goto(s, w, Idle).(dead := s.dead + [Dead(o, s.config.maxAttempts)], delivered := t.delivered)
    ensures Count(t.delivered, o) == Count(s.delivered, o) + s.config.maxAttempts - r
    decreases s.config.maxAttempts - r
  {
    steps := OneFailure(s, w, Event(o, r));
    if r == s.config.maxAttempts {
      t := Goto(s, w, Idle).(dead := s.dead + [Dead(o, r)]);
    } else {
      var next := Event(o, r + 1);
      var a := Goto(s, w, Idle).(retry := [next]);
      var back := OneReturn(a, w, next);
      var b := Goto(a, w, Delivered(Created(next))).(retry := [], delivered := s.delivered + [o]);
      RunsThen(s, steps, a, back, b);
      var rest;
      rest, t := FailsToTheEnd(b, w, o, r + 1);
      RunsThen(s, steps + back, b, rest, t);
      steps := steps + back + rest;
      CountAppend(s.delivered, o, o);
    }
  }

  /** The bound on attempts is reached: an event of an order that does not exist is delivered
      exactly maxAttempts + 1 times and ends in the dead-letter queue. */
  lemma AttemptBoundIsReached(start: State, o: int) returns (steps: seq<Step>, t: State)
    requires Init(start) && start.workers != [] && o < 0
    ensures Runs(start, steps, t)
    ensures t.main == [] && t.retry == [] && t.dead == [Dead(o, start.config.maxAttempts)]
    ensures t.entered == [o] && t.requeued == []
    ensures Count(t.delivered, o) == start.config.maxAttempts + 1
  {
    var msg := Created(Event(o, 0));
    var a := DoInject(start, msg);
    var b := DoDeliver(a, 0, 0);
    ExecOne(start, Inject(msg));
    assert start.workers[0].Idle?;
    RunsStep(start, [Inject(msg)], a, Deliver(0, 0));
    steps := [Inject(msg)] + [Deliver(0, 0)];
    var rest;
    rest, t := FailsToTheEnd(b, 0, o, 0);
    RunsThen(start, steps, b, rest, t);
    steps := steps + rest;
  }
}
