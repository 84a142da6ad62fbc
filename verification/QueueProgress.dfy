/**
 Before its sweep is over, no message in a staffed queue is lost: workers, or the cleanup
 that waits for them, can still take every buffered message out.
 */
module QueueProgress {
  import opened ProviderQueues
  import opened QueueInvariants
  import opened QueueSafety
  import opened QueueTheorems
  import opened QueueSweep

  // ---- a closing queue without a sweep is about to get one ----

  /** An update has signalled `q` and not yet spawned its cleanup. */
  ghost predicate AwaitsCleanup(s: State, q: QueueId)
    requires q in s.queues
  {
    var p := s.queues[q].prov;
    p in s.admin && s.admin[p].Updating? && s.admin[p].prev == q && s.admin[p].phase == Signalled
  }

  ghost predicate ClosingOk(s: State, q: QueueId) {
    q in s.queues && s.queues[q].closing && s.queues[q].sweep == NotStarted ==> AwaitsCleanup(s, q)
  }

  /** A queue on which a worker was started keeps one until it is closing. */
  ghost predicate Staffed(s: State, q: QueueId) {
    q in s.queues && (s.queues[q].closing || LiveOn(s.live, q) != {})
  }

  lemma StepKeepsClosing(s: State, e: Step, q: QueueId)
    requires Inv(s) && Enabled(s, e) && ClosingOk(s, q)
    ensures ClosingOk(Apply(s, e), q)
  {
    match e
    case ByProducer(pe) => ProducerKeepsClosing(s, pe, q);
    case ByTaker(te) => TakerKeepsClosing(s, te, q);
    case ByLifecycle(le) => LifecycleKeepsClosing(s, le, q);
  }

  lemma ProducerKeepsClosing(s: State, e: ProducerStep, q: QueueId)
    requires ProducerEnabled(s, e) && ClosingOk(s, q)
    ensures ClosingOk(ApplyProducer(s, e), q)
  {
  }

  lemma TakerKeepsClosing(s: State, e: TakerStep, q: QueueId)
    requires TakerEnabled(s, e) && ClosingOk(s, q)
    ensures ClosingOk(ApplyTaker(s, e), q)
  {
    if e.Answer? { AnswerKeepsClosing(s, e.t, e.ch, q); }
    if e.Abandon? { AbandonKeepsClosing(s, e.t, e.billed, q); }
  }

  lemma AnswerKeepsClosing(s: State, t: Taker, ch: Chan, q: QueueId)
    requires TakerEnabled(s, Answer(t, ch)) && ClosingOk(s, q)
    ensures ClosingOk(DoAnswer(s, t, ch), q)
  {
  }

  lemma AbandonKeepsClosing(s: State, t: Taker, billed: bool, q: QueueId)
    requires TakerEnabled(s, Abandon(t, billed)) && ClosingOk(s, q)
    ensures ClosingOk(ApplyTaker(s, Abandon(t, billed)), q)
  {
  }

  lemma LifecycleKeepsClosing(s: State, e: LifecycleStep, q: QueueId)
    requires Inv(s) && LifecycleEnabled(s, e) && ClosingOk(s, q)
    ensures ClosingOk(ApplyLifecycle(s, e), q)
  {
    if e.SignalOld? { assert AdminOk(s, e.p); }
    if FlagsQueue(e) {
      FlagsKeepClosing(s, e, q);
    } else if Receives(e) || AddsQueue(e) {
      QueuesKeepClosing(s, e, q);
    } else {
      LocksKeepClosing(s, e, q);
    }
  }

  lemma FlagsKeepClosing(s: State, e: LifecycleStep, q: QueueId)
    requires LifecycleEnabled(s, e) && ClosingOk(s, q) && FlagsQueue(e) && (e.SignalOld? ==> AdminOk(s, e.p))
    ensures ClosingOk(ApplyLifecycle(s, e), q)
  {
    if e.StartWorker? || e.SweepStart? || e.SweepEnd? { CountersKeepClosing(s, e, q); }
  }

  lemma CountersKeepClosing(s: State, e: LifecycleStep, q: QueueId)
    requires LifecycleEnabled(s, e) && ClosingOk(s, q) && (e.StartWorker? || e.SweepStart? || e.SweepEnd?)
    ensures ClosingOk(ApplyLifecycle(s, e), q)
  {
  }

  lemma QueuesKeepClosing(s: State, e: LifecycleStep, q: QueueId)
    requires LifecycleEnabled(s, e) && ClosingOk(s, q) && (Receives(e) || AddsQueue(e))
    ensures ClosingOk(ApplyLifecycle(s, e), q)
  {
    if AddsQueue(e) { AddsKeepsClosing(s, e, q); }
  }

  lemma AddsKeepsClosing(s: State, e: LifecycleStep, q: QueueId)
    requires LifecycleEnabled(s, e) && ClosingOk(s, q) && AddsQueue(e)
    ensures ClosingOk(ApplyLifecycle(s, e), q)
  {
  }

  lemma LocksKeepClosing(s: State, e: LifecycleStep, q: QueueId)
    requires LifecycleEnabled(s, e) && ClosingOk(s, q) && !FlagsQueue(e) && !Receives(e) && !AddsQueue(e)
    ensures ClosingOk(ApplyLifecycle(s, e), q)
  {
  }

  // ---- a staffed queue stays staffed ----

  lemma StepKeepsStaffed(s: State, e: Step, q: QueueId)
    requires Inv(s) && Enabled(s, e) && Staffed(s, q)
    ensures Staffed(Apply(s, e), q)
  {
    var s' := Apply(s, e);
    if s.queues[q].closing {
      WindowShrinks(s, e, q);
    } else {
      var w :| w in LiveOn(s.live, q);
      assert WorkerOk(s, w);
      if e.ByProducer? {
        ProducerKeepsWorkers(s, e.pe, q);
      } else {
        OthersWindow(s, e, q);
        OthersKeepWorker(s, e, w);
      }
      assert w in LiveOn(s'.live, q);
    }
  }

  lemma ProducerKeepsWorkers(s: State, e: ProducerStep, q: QueueId)
    requires ProducerEnabled(s, e) && q in s.queues
    ensures ApplyProducer(s, e).live == s.live && q in ApplyProducer(s, e).queues
  {
  }

  lemma OthersKeepWorker(s: State, e: Step, w: WorkerId)
    requires Enabled(s, e) && !e.ByProducer? && w in s.live && !s.live[w].draining
    ensures w in Apply(s, e).live && Apply(s, e).live[w].q == s.live[w].q
  {
    if e.ByTaker? {
      TakerKeepsWorker(s, e.te, w);
    } else {
      LifecycleKeepsWorker(s, e.le, w);
    }
  }

  lemma TakerKeepsWorker(s: State, e: TakerStep, w: WorkerId)
    requires TakerEnabled(s, e) && w in s.live && !s.live[w].draining
    ensures w in ApplyTaker(s, e).live && ApplyTaker(s, e).live[w].q == s.live[w].q
  {
    if e.Abandon? {
      var r := s.msgs[s.hold[e.t].msg].req;
      assert DoAbandon(s, e.t).live == s.live;
    }
  }

  lemma LifecycleKeepsWorker(s: State, e: LifecycleStep, w: WorkerId)
    requires LifecycleEnabled(s, e) && w in s.live
    ensures w in ApplyLifecycle(s, e).live && ApplyLifecycle(s, e).live[w] == s.live[w]
  {
    if !FlagsQueue(e) && !Receives(e) && !AddsQueue(e) { LocksShape(s, e); }
  }

  // ---- over runs ----

  lemma {:induction false} RunKeepsClosing(run: seq<State>, steps: seq<Step>, j: nat, q: QueueId)
    requires IsRun(run, steps) && run[0] == EmptyState && j < |run|
    ensures Inv(run[j]) && ClosingOk(run[j], q)
  {
    StartsWell();
    RunKeeps(run, steps, j);
    if j > 0 {
      RunKeepsClosing(run, steps, j - 1, q);
      StepKeepsClosing(run[j - 1], steps[j - 1], q);
    }
  }

  lemma {:induction false} RunKeepsStaffed(run: seq<State>, steps: seq<Step>, i: nat, j: nat, q: QueueId)
    requires IsRun(run, steps) && Inv(run[0]) && i <= j < |run| && Staffed(run[i], q)
    ensures Staffed(run[j], q)
  {
    if i < j {
      RunKeepsStaffed(run, steps, i, j - 1, q);
      RunKeeps(run, steps, j - 1);
      StepKeepsStaffed(run[j - 1], steps[j - 1], q);
    }
  }

  // ---- taking the next message ----

  /** The state is one in which a message of `q` can be taken: staffed, or its cleanup is on the way. */
  ghost predicate Attended(s: State, q: QueueId) {
    Inv(s) && ClosingOk(s, q) && Staffed(s, q) && s.queues[q].sweep != Swept
  }

  /** From `s` to `s'` the head of `q` was taken, and `q` is still attended. */
  ghost predicate TookHead(s: State, s': State, q: QueueId)
    requires q in s.queues && s.queues[q].items != []
  {
    && Leads(s, s') && Attended(s', q)
    && s'.queues[q].items == s.queues[q].items[1..] && |s'.queues[q].out| == |s.queues[q].out| + 1
  }

  /** A step to an attended state in which the queue and its sweep are ready for the same messages. */
  ghost predicate SameItems(s: State, s': State, q: QueueId)
    requires q in s.queues
  {
    q in s'.queues && s'.queues[q].items == s.queues[q].items && s'.queues[q].out == s.queues[q].out
  }

  lemma StaysAttended(s: State, e: Step, q: QueueId)
    requires Attended(s, q) && Enabled(s, e) && q in Apply(s, e).queues && Apply(s, e).queues[q].sweep != Swept
    ensures Attended(Apply(s, e), q) && Leads(s, Apply(s, e))
  {
    StepKeeps(s, e);
    StepKeepsClosing(s, e, q);
    StepKeepsStaffed(s, e, q);
    OneStep(s, e);
  }

  /** Whoever holds a message can answer it and let go, leaving `q` as it is. */
  lemma LetsGo(s: State, t: Taker, q: QueueId) returns (s': State)
    requires Attended(s, q) && t in s.hold && !t.Handoff?
    ensures Leads(s, s') && Attended(s', q) && SameItems(s, s', q) && t !in s'.hold
    ensures s'.live == s.live && s'.queues == s.queues
  {
    var m := s.hold[t].msg;
    assert HoldOk(s, t) && MsgOk(s, m);
    var ch := s.msgs[m].err;
    assert ch in Chans(s.msgs[m]);
    var e := ByTaker(Answer(t, ch));
    s' := DoAnswer(s, t, ch);
    assert s' == Apply(s, e);
    StaysAttended(s, e, q);
  }

  lemma WorkerTakesHead(s: State, w: WorkerId, q: QueueId) returns (s': State)
    requires Attended(s, q) && w in s.live && s.live[w].q == q && Worker(w) !in s.hold && s.queues[q].items != []
    ensures TookHead(s, s', q)
  {
    assert QueueOk(s, q);
    s' := Take(s, q, Worker(w));
    StaysAttended(s, ByTaker(WorkerTake(w)), q);
  }

  lemma SweepTakesHead(s: State, q: QueueId) returns (s': State)
    requires Attended(s, q) && s.queues[q].sweep == Sweeping && Sweeper(q) !in s.hold && s.queues[q].items != []
    ensures TookHead(s, s', q)
  {
    assert QueueOk(s, q);
    s' := Take(s, q, Sweeper(q));
    StaysAttended(s, ByLifecycle(SweepTake(q)), q);
  }

  lemma LeadsThrough(a: State, b: State, c: State)
    requires Leads(a, b) && Leads(b, c)
    ensures Leads(a, c)
  {
    var run: seq<State>, steps: seq<Step> :| IsRun(run, steps) && run[0] == b && run[|run| - 1] == c;
    LeadsAlong(a, run, steps, |run| - 1);
  }

  lemma {:induction false} LeadsAlong(a: State, run: seq<State>, steps: seq<Step>, j: nat)
    requires IsRun(run, steps) && Leads(a, run[0]) && j < |run|
    ensures Leads(a, run[j])
  {
    if j > 0 {
      LeadsAlong(a, run, steps, j - 1);
      LeadsOn(a, run[j - 1], steps[j - 1], run[j]);
    }
  }

  /** The sweep is running, or can be started because no worker is left. */
  lemma SweepReady(s: State, q: QueueId) returns (s': State)
    requires Attended(s, q) && LiveOn(s.live, q) == {}
    ensures Leads(s, s') && Attended(s', q) && SameItems(s, s', q) && s'.queues[q].sweep == Sweeping
  {
    assert WaitGroupOk(s, q);
    s' := s;
    LeadsToItself(s);
    if s.queues[q].sweep == NotStarted {
      s' := SpawnsCleanup(s, q);
    }
    if s'.queues[q].sweep == AwaitWorkers {
      var t := s';
      assert WaitGroupOk(t, q);
      s' := SetSweep(t, q, Sweeping);
      StaysAttended(t, ByLifecycle(SweepStart(q)), q);
      LeadsThrough(s, t, s');
    }
  }

  lemma SpawnsCleanup(s: State, q: QueueId) returns (s': State)
    requires Attended(s, q) && LiveOn(s.live, q) == {} && s.queues[q].sweep == NotStarted
    ensures Leads(s, s') && Attended(s', q) && SameItems(s, s', q) && s'.queues[q].sweep == AwaitWorkers && s'.live == s.live
  {
    var p := s.queues[q].prov;
    s' := Unlock(SetSweep(s, q, AwaitWorkers), p);
    StaysAttended(s, ByLifecycle(SpawnCleanup(p)), q);
  }

  /** The head of a nonempty attended queue can be taken. */
  lemma HeadCanBeTaken(s: State, q: QueueId) returns (s': State)
    requires Attended(s, q) && s.queues[q].items != []
    ensures TookHead(s, s', q)
  {
    if LiveOn(s.live, q) != {} {
      var w :| w in LiveOn(s.live, q);
      var t := s;
      LeadsToItself(s);
      if Worker(w) in s.hold {
        t := LetsGo(s, Worker(w), q);
      }
      s' := WorkerTakesHead(t, w, q);
      LeadsThrough(s, t, s');
    } else {
      var t := SweepReady(s, q);
      var u := t;
      LeadsToItself(t);
      if Sweeper(q) in t.hold {
        u := LetsGo(t, Sweeper(q), q);
      }
      s' := SweepTakesHead(u, q);
      LeadsThrough(t, u, s');
      LeadsThrough(s, t, s');
    }
  }

  /** Everything buffered in an attended queue can be taken out. */
  lemma {:induction false} QueueCanBeEmptied(s: State, q: QueueId) returns (s': State)
    requires Attended(s, q)
    ensures Leads(s, s') && Attended(s', q) && s'.queues[q].items == []
    ensures |s'.queues[q].out| == |s.queues[q].out| + |s.queues[q].items|
    decreases |s.queues[q].items|
  {
    LeadsToItself(s);
    s' := s;
    if s.queues[q].items != [] {
      var t := HeadCanBeTaken(s, q);
      s' := QueueCanBeEmptied(t, q);
      LeadsThrough(s, t, s');
    }
  }

  /**
   Once a worker was started on `q`, and until the sweep of `q` is over, workers and the
   cleanup can always still take out every message buffered in it.
   */
  lemma NothingLostBeforeSweep(run: seq<State>, steps: seq<Step>, i: nat, j: nat, p: Provider, w: WorkerId, q: QueueId) returns (s': State)
    requires IsRun(run, steps) && run[0] == EmptyState && i < |steps| && i < j < |run|
    requires steps[i] == ByLifecycle(StartWorker(p, w)) && q == Recruiting(run[i].admin[p])
    requires q in run[j].queues && run[j].queues[q].sweep != Swept
    ensures Leads(run[j], s') && q in s'.queues && s'.queues[q].items == []
    ensures |s'.queues[q].out| == |run[j].queues[q].out| + |run[j].queues[q].items|
  {
    StartsWell();
    RunKeepsClosing(run, steps, j, q);
    WorkerStarts(run[i], p, w);
    RunKeepsStaffed(run, steps, i + 1, j, q);
    s' := QueueCanBeEmptied(run[j], q);
  }

  lemma WorkerStarts(s: State, p: Provider, w: WorkerId)
    requires LifecycleEnabled(s, StartWorker(p, w))
    ensures Staffed(ApplyLifecycle(s, StartWorker(p, w)), Recruiting(s.admin[p]))
  {
    var q := Recruiting(s.admin[p]);
    assert w in LiveOn(DoStartWorker(s, q, w).live, q);
  }
}
