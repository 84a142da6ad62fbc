/** The invariants hold in every state of every run. */
module QueueSafety {
  import opened ProviderQueues
  import opened QueueInvariants
  import opened QueueMessages
  import opened QueueHistory
  import QueueLifecycle

  // ---- producers ----

  lemma ProducerMessages(s: State, e: ProducerStep)
    requires MessageInv(s) && ProducerEnabled(s, e)
    ensures MessageInv(ApplyProducer(s, e))
  {
    match e
    case Start(r, p, stream) => StartKeeps(s, r, s.route[p], stream);
    case Acquire(r, m, resp, err, strm) => AcquireKeeps(s, r, s.reqs[r].pc.q, m, Message(r, resp, err, strm));
    case SeeOpen(r) => UnsentMoveKeeps(s, r, Committed(s.reqs[r].pc.q));
    case SeeClosing(r) => UnsentMoveKeeps(s, r, Rerouting(s.reqs[r].pc.q));
    case LoadCandidate(r, p) => UnsentMoveKeeps(s, r, Candidate(s.reqs[r].pc.q, s.route[p]));
    case SeeCandidateOpen(r) => UnsentMoveKeeps(s, r, Committed(s.reqs[r].pc.c));
    case Send(r) => SendKeeps(s, r, s.reqs[r].pc.q);
    case FindFull(r) => UnsentMoveKeeps(s, r, Full(s.reqs[r].pc.q));
    case Block(r) => UnsentMoveKeeps(s, r, Blocked(s.reqs[r].pc.q));
    case GiveUp(r, _) => ReleaseKeeps(s, r);
    case Receive(r, ch) => ReceiveKeeps(s, r, ch);
    case Complete(r) => CompleteKeeps(s, r);
    case Leave(r) => LeaveKeeps(s, r);
    case CancelContext(r) => SameMessagesKeeps(s, ApplyProducer(s, e));
  }

  lemma CompleteKeeps(s: State, r: ReqId)
    requires MessageInv(s) && ProducerEnabled(s, Complete(r))
    ensures MessageInv(ApplyProducer(s, Complete(r)))
  {
    assert ReqOk(s, r) && MsgOk(s, s.reqs[r].msg);
    var s1 := Release(s, r);
    ReleaseKeeps(s, r);
    forall m | m in s1.msgs ensures s1.msgs[m].req != r { assert MsgOk(s, m); }
    HookKeeps(s1, r, !s.reqs[r].stream || s.reqs[r].pc.ch.ErrorChan?);
  }

  lemma QuietProducer(s: State, e: ProducerStep)
    requires ProducerEnabled(s, e) && !e.Send? && !e.GiveUp? && !e.Complete?
    ensures var s' := ApplyProducer(s, e);
            s'.queues == s.queues && forall m :: m in s.msgs ==> m in s'.msgs && s'.msgs[m] == s.msgs[m]
  {
  }

  lemma ProducerFifo(s: State, e: ProducerStep)
    requires MessageInv(s) && FifoInv(s) && ProducerEnabled(s, e)
    ensures FifoInv(ApplyProducer(s, e))
  {
    if e.Send? {
      SendFifo(s, e.r, s.reqs[e.r].pc.q);
    } else if e.GiveUp? || e.Complete? {
      ReleaseFifo(s, ApplyProducer(s, e), e.r);
    } else {
      QuietProducer(s, e);
      FifoFrame(s, ApplyProducer(s, e));
    }
  }

  lemma ProducerKeeps(s: State, e: ProducerStep)
    requires Inv(s) && ProducerEnabled(s, e)
    ensures Inv(ApplyProducer(s, e))
  {
    ProducerMessages(s, e);
    ProducerFifo(s, e);
    ProducerHandoff(s, e);
    QueueLifecycle.ProducerKeeps(s, e);
  }

  lemma ProducerHandoff(s: State, e: ProducerStep)
    requires HandoffInv(s) && LockInv(s) && ProducerEnabled(s, e)
    ensures HandoffInv(ApplyProducer(s, e))
  {
    ProducerTraffic(s, e);
    TrafficHandoff(s, ApplyProducer(s, e));
  }

  lemma ProducerTraffic(s: State, e: ProducerStep)
    requires ProducerEnabled(s, e)
    ensures var s' := ApplyProducer(s, e);
            && s'.admin == s.admin && s'.route == s.route && s'.hold == s.hold && s'.queues.Keys == s.queues.Keys
            && forall q :: q in s.queues ==> SameHandoff(s.queues[q], s'.queues[q])
  {
    if !e.Send? { assert ApplyProducer(s, e).queues == s.queues; }
  }

  // ---- takers ----

  lemma BilledKeeps(s: State, t: Taker)
    requires MessageInv(s) && TakerEnabled(s, Abandon(t, true))
    ensures MessageInv(ApplyTaker(s, Abandon(t, true)))
  {
    var r := s.msgs[s.hold[t].msg].req;
    assert HoldOk(s, t) && MsgOk(s, s.hold[t].msg);
    AbandonKeeps(s, t);
    forall m | m in s.msgs && s.msgs[m].req == r ensures m == s.hold[t].msg { assert MsgOk(s, m); }
    HookKeeps(DoAbandon(s, t), r, true);
  }

  lemma TakerMessages(s: State, e: TakerStep)
    requires MessageInv(s) && TakerEnabled(s, e)
    ensures MessageInv(ApplyTaker(s, e))
  {
    match e
    case WorkerTake(w) => TakeKeeps(s, s.live[w].q, Worker(w));
    case WorkerSeeDone(w) => SameMessagesKeeps(s, ApplyTaker(s, e));
    case WorkerExit(w) => SameMessagesKeeps(s, ApplyTaker(s, e));
    case Answer(t, ch) => AnswerKeeps(s, t, ch);
    case Abandon(t, billed) => assert HoldOk(s, t); if billed { BilledKeeps(s, t); } else { AbandonKeeps(s, t); }
  }

  lemma TakerHistory(s: State, e: TakerStep)
    requires Inv(s) && TakerEnabled(s, e)
    ensures FifoInv(ApplyTaker(s, e)) && HandoffInv(ApplyTaker(s, e))
  {
    if e.Answer? {
      AnswerHistory(s, e.t, e.ch);
    } else if e.Abandon? {
      AbandonHistory(s, e.t, e.billed);
    } else if e.WorkerTake? {
      TakeHistory(s, e.w);
    } else {
      WorkerFlagsHistory(s, e);
    }
  }

  lemma TakeHistory(s: State, w: WorkerId)
    requires Inv(s) && TakerEnabled(s, WorkerTake(w))
    ensures FifoInv(Take(s, s.live[w].q, Worker(w))) && HandoffInv(Take(s, s.live[w].q, Worker(w)))
  {
    TakeFifo(s, s.live[w].q, Worker(w));
    TrafficHandoff(s, Take(s, s.live[w].q, Worker(w)));
  }

  lemma WorkerFlagsHistory(s: State, e: TakerStep)
    requires Inv(s) && TakerEnabled(s, e) && (e.WorkerSeeDone? || e.WorkerExit?)
    ensures FifoInv(ApplyTaker(s, e)) && HandoffInv(ApplyTaker(s, e))
  {
    FifoFrame(s, ApplyTaker(s, e));
    TrafficHandoff(s, ApplyTaker(s, e));
  }

  lemma AnswerHistory(s: State, t: Taker, ch: Chan)
    requires Inv(s) && TakerEnabled(s, Answer(t, ch))
    ensures FifoInv(DoAnswer(s, t, ch)) && HandoffInv(DoAnswer(s, t, ch))
  {
    DisposeHistory(s, t, DoAnswer(s, t, ch));
  }

  lemma AbandonHistory(s: State, t: Taker, billed: bool)
    requires Inv(s) && TakerEnabled(s, Abandon(t, billed))
    ensures FifoInv(ApplyTaker(s, Abandon(t, billed))) && HandoffInv(ApplyTaker(s, Abandon(t, billed)))
  {
    DisposeHistory(s, t, ApplyTaker(s, Abandon(t, billed)));
  }

  lemma DisposeHistory(s: State, t: Taker, s': State)
    requires FifoInv(s) && HandoffInv(s) && LockInv(s) && MayDispose(s, t)
    requires s'.queues == LogCancelled(s, t, s.hold[t].req) && s'.hold == s.hold - {t}
    requires s'.admin == s.admin && s'.route == s.route && s'.msgs == s.msgs
    ensures FifoInv(s') && HandoffInv(s')
  {
    FifoFrame(s, s');
    if t.Handoff? { CancelHandoff(s, t.p, s'); } else { TrafficHandoff(s, s'); }
  }

  lemma TakerKeeps(s: State, e: TakerStep)
    requires Inv(s) && TakerEnabled(s, e)
    ensures Inv(ApplyTaker(s, e))
  {
    TakerMessages(s, e);
    TakerHistory(s, e);
    QueueLifecycle.TakerKeeps(s, e);
  }

  // ---- provider lifecycle ----

  predicate Receives(e: LifecycleStep) {
    e.HandoffTake? || e.HandoffMove? || e.SweepTake?
  }

  predicate AddsQueue(e: LifecycleStep) {
    e.Publish? || e.UpdateBegin?
  }

  /** Steps that rewrite one queue's flags, counters or sweep. */
  predicate FlagsQueue(e: LifecycleStep) {
    e.StartWorker? || e.SignalOld? || e.SpawnCleanup? || e.RemoveBegin? || e.SweepStart? || e.SweepEnd?
  }

  lemma AddsQuietly(s: State, e: LifecycleStep)
    requires LifecycleEnabled(s, e) && AddsQueue(e)
    ensures SameMessages(s, ApplyLifecycle(s, e)) && SameTraffic(s, ApplyLifecycle(s, e))
  {
    if e.Publish? { PublishQuietly(s, e.p, e.q, e.cap); } else { UpdateQuietly(s, e.p, s.route[e.p], e.q, e.cap); }
  }

  lemma PublishQuietly(s: State, p: Provider, q: QueueId, cap: nat)
    requires LifecycleEnabled(s, Publish(p, q, cap))
    ensures SameMessages(s, DoPublish(s, p, q, cap)) && SameTraffic(s, DoPublish(s, p, q, cap))
  {
  }

  lemma UpdateQuietly(s: State, p: Provider, prev: QueueId, q: QueueId, cap: nat)
    requires LifecycleEnabled(s, UpdateBegin(p, q, cap)) && prev == s.route[p]
    ensures SameMessages(s, DoUpdateBegin(s, p, prev, q, cap)) && SameTraffic(s, DoUpdateBegin(s, p, prev, q, cap))
  {
  }

  /** Only the flags, counter and sweep of `q` differ between the two states' queues and messages. */
  ghost predicate FlagsOnly(s: State, s': State, q: QueueId) {
    && q in s.queues && q in s'.queues && s'.queues == s.queues[q := s'.queues[q]]
    && s'.queues[q] == s.queues[q].(closing := s'.queues[q].closing, wg := s'.queues[q].wg, sweep := s'.queues[q].sweep)
    && s'.reqs == s.reqs && s'.msgs == s.msgs && s'.msgPool == s.msgPool && s'.place == s.place
    && s'.chans == s.chans && s'.chanPool == s.chanPool && s'.buf == s.buf && s'.hold == s.hold
    && s'.answers == s.answers && s'.hooks == s.hooks && s'.done == s.done
  }

  lemma SweepFlags(s: State, q: QueueId, sweep: Sweep)
    requires q in s.queues
    ensures FlagsOnly(s, SetSweep(s, q, sweep), q)
  {
  }

  lemma AdminFlags(s: State, e: LifecycleStep) returns (q: QueueId)
    requires LifecycleEnabled(s, e) && (e.SignalOld? || e.RemoveBegin?)
    ensures FlagsOnly(s, ApplyLifecycle(s, e), q)
  {
    q := if e.SignalOld? then s.admin[e.p].prev else s.route[e.p];
  }

  lemma FlagsShape(s: State, e: LifecycleStep) returns (q: QueueId)
    requires LifecycleEnabled(s, e) && FlagsQueue(e)
    ensures FlagsOnly(s, ApplyLifecycle(s, e), q)
  {
    if e.StartWorker? {
      q := Recruiting(s.admin[e.p]);
    } else if e.SpawnCleanup? {
      q := s.admin[e.p].prev;
      SweepFlags(s, q, AwaitWorkers);
    } else if e.SweepStart? || e.SweepEnd? {
      q := e.q;
      SweepFlags(s, q, if e.SweepStart? then Sweeping else Swept);
    } else {
      q := AdminFlags(s, e);
    }
  }

  lemma FlagsQuietly(s: State, e: LifecycleStep)
    requires LifecycleEnabled(s, e) && FlagsQueue(e)
    ensures SameMessages(s, ApplyLifecycle(s, e)) && SameTraffic(s, ApplyLifecycle(s, e))
  {
    var q := FlagsShape(s, e);
  }

  lemma LocksQuietly(s: State, e: LifecycleStep)
    requires LifecycleEnabled(s, e) && !Receives(e) && !AddsQueue(e) && !FlagsQueue(e)
    ensures SameMessages(s, ApplyLifecycle(s, e)) && SameTraffic(s, ApplyLifecycle(s, e))
    ensures ApplyLifecycle(s, e).queues == s.queues
  {
    LocksShape(s, e);
  }

  /** Only locks, routes and counters outside the queues differ. */
  lemma LocksShape(s: State, e: LifecycleStep)
    requires LifecycleEnabled(s, e) && !Receives(e) && !AddsQueue(e) && !FlagsQueue(e)
    ensures var s' := ApplyLifecycle(s, e); s' == s.(admin := s'.admin, route := s'.route, retired := s'.retired, cleaning := s'.cleaning)
  {
  }

  lemma QuietLifecycle(s: State, e: LifecycleStep)
    requires LifecycleEnabled(s, e) && !Receives(e)
    ensures SameMessages(s, ApplyLifecycle(s, e)) && SameTraffic(s, ApplyLifecycle(s, e))
  {
    if AddsQueue(e) { AddsQuietly(s, e); } else if FlagsQueue(e) { FlagsQuietly(s, e); } else { LocksQuietly(s, e); }
  }

  lemma LifecycleMessages(s: State, e: LifecycleStep)
    requires MessageInv(s) && LifecycleEnabled(s, e)
    ensures MessageInv(ApplyLifecycle(s, e))
  {
    if e.HandoffTake? {
      TakeKeeps(s, s.admin[e.p].prev, Handoff(e.p));
    } else if e.HandoffMove? {
      MoveKeeps(s, e.p, s.admin[e.p].prev, s.admin[e.p].next);
    } else if e.SweepTake? {
      TakeKeeps(s, e.q, Sweeper(e.q));
    } else {
      QuietLifecycle(s, e);
      SameMessagesKeeps(s, ApplyLifecycle(s, e));
    }
  }

  lemma LifecycleFifo(s: State, e: LifecycleStep)
    requires MessageInv(s) && FifoInv(s) && LifecycleEnabled(s, e)
    ensures FifoInv(ApplyLifecycle(s, e))
  {
    if e.HandoffTake? {
      TakeFifo(s, s.admin[e.p].prev, Handoff(e.p));
    } else if e.HandoffMove? {
      MoveFifo(s, e.p, s.admin[e.p].prev, s.admin[e.p].next);
    } else if e.SweepTake? {
      TakeFifo(s, e.q, Sweeper(e.q));
    } else {
      QuietLifecycle(s, e);
      FifoFrame(s, ApplyLifecycle(s, e));
    }
  }

  ghost predicate IsUpdating(s: State, p: Provider) {
    p in s.admin && s.admin[p].Updating?
  }

  /** Updates under way go on or end; none begins, and none ends with a message in hand. */
  ghost predicate AdminMoved(s: State, s': State) {
    && s'.hold == s.hold && (forall p :: p in s'.route ==> p in s.route && s'.route[p] == s.route[p])
    && (forall p {:trigger IsUpdating(s', p)} :: IsUpdating(s', p) ==>
          && IsUpdating(s, p) && s'.admin[p].prev == s.admin[p].prev && s'.admin[p].next == s.admin[p].next
          && (s'.admin[p].phase == Starting || s'.admin[p].phase == Transferring ==>
                s.admin[p].phase == Starting || s.admin[p].phase == Transferring))
    && (forall p {:trigger IsUpdating(s, p)} :: IsUpdating(s, p) && Handoff(p) in s.hold ==> IsUpdating(s', p))
  }

  lemma AdminMoves(s: State, e: LifecycleStep)
    requires TakerInv(s) && LifecycleEnabled(s, e) && !Receives(e) && !AddsQueue(e)
    ensures AdminMoved(s, ApplyLifecycle(s, e))
  {
    forall p | Handoff(p) in s.hold ensures InHandoff(s, p) { assert TakerOk(s, Handoff(p)); }
    if FlagsQueue(e) { FlagsAdmin(s, e); } else { LocksAdmin(s, e); }
  }

  lemma FlagsAdmin(s: State, e: LifecycleStep)
    requires LifecycleEnabled(s, e) && FlagsQueue(e) && forall p :: Handoff(p) in s.hold ==> InHandoff(s, p)
    ensures AdminMoved(s, ApplyLifecycle(s, e))
  {
    if e.StartWorker? || e.SweepStart? || e.SweepEnd? {
      var s' := ApplyLifecycle(s, e);
      assert s'.admin == s.admin && s'.route == s.route && s'.hold == s.hold;
    } else {
      UnlockingAdmin(s, e);
    }
  }

  lemma UnlockingAdmin(s: State, e: LifecycleStep)
    requires LifecycleEnabled(s, e) && forall p :: Handoff(p) in s.hold ==> InHandoff(s, p)
    requires e.SignalOld? || e.SpawnCleanup? || e.RemoveBegin?
    ensures AdminMoved(s, ApplyLifecycle(s, e))
  {
  }

  lemma LocksAdmin(s: State, e: LifecycleStep)
    requires LifecycleEnabled(s, e) && !Receives(e) && !AddsQueue(e) && !FlagsQueue(e) && forall p :: Handoff(p) in s.hold ==> InHandoff(s, p)
    ensures AdminMoved(s, ApplyLifecycle(s, e))
  {
  }

  lemma MovedLocksOnly(s: State, s': State)
    requires AdminMoved(s, s') && s'.queues.Keys == s.queues.Keys
    requires forall q :: q in s.queues ==> SameHandoff(s.queues[q], s'.queues[q])
    ensures LocksOnly(s, s')
  {
    forall p, q | Leaving(s', p, q)
      ensures && Leaving(s, p, q) && s'.admin[p].next == s.admin[p].next
              && (s'.admin[p].phase == Starting || s'.admin[p].phase == Transferring ==>
                    s.admin[p].phase == Starting || s.admin[p].phase == Transferring)
    {
      assert IsUpdating(s', p);
    }
    forall q | q in s.queues ensures InHand(s', q) == InHand(s, q) {
      var p := s.queues[q].prov;
      assert IsUpdating(s, p) || !IsUpdating(s, p);
      assert IsUpdating(s', p) || !IsUpdating(s', p);
    }
  }

  lemma HandoffFieldsKept(s: State, e: LifecycleStep)
    requires LifecycleEnabled(s, e) && !Receives(e) && !AddsQueue(e)
    ensures var s' := ApplyLifecycle(s, e);
            s'.queues.Keys == s.queues.Keys && forall q :: q in s.queues ==> SameHandoff(s.queues[q], s'.queues[q])
  {
    if FlagsQueue(e) { var q := FlagsShape(s, e); } else { LocksQuietly(s, e); }
  }

  lemma LocksOnlyStep(s: State, e: LifecycleStep)
    requires TakerInv(s) && LifecycleEnabled(s, e) && !Receives(e) && !AddsQueue(e)
    ensures LocksOnly(s, ApplyLifecycle(s, e))
  {
    AdminMoves(s, e);
    HandoffFieldsKept(s, e);
    MovedLocksOnly(s, ApplyLifecycle(s, e));
  }

  lemma LifecycleHandoff(s: State, e: LifecycleStep)
    requires HandoffInv(s) && LockInv(s) && TakerInv(s) && LifecycleEnabled(s, e)
    ensures HandoffInv(ApplyLifecycle(s, e))
  {
    if e.Publish? {
      PublishHandoff(s, e.p, e.q, e.cap);
    } else if e.UpdateBegin? {
      UpdateHandoff(s, e.p, s.route[e.p], e.q, e.cap);
    } else if e.HandoffTake? {
      TakeHandoff(s, e.p);
    } else if e.HandoffMove? {
      MoveHandoff(s, e.p);
    } else if e.SweepTake? {
      TrafficHandoff(s, Take(s, e.q, Sweeper(e.q)));
    } else {
      LocksOnlyStep(s, e);
      LocksHandoff(s, ApplyLifecycle(s, e));
    }
  }

  lemma LifecycleKeeps(s: State, e: LifecycleStep)
    requires Inv(s) && LifecycleEnabled(s, e)
    ensures Inv(ApplyLifecycle(s, e))
  {
    LifecycleMessages(s, e);
    LifecycleFifo(s, e);
    LifecycleHandoff(s, e);
    QueueLifecycle.LifecycleKeeps(s, e);
  }

  // ---- runs ----

  lemma StepKeeps(s: State, e: Step)
    requires Inv(s) && Enabled(s, e)
    ensures Inv(Apply(s, e))
  {
    match e
    case ByProducer(pe) => ProducerKeeps(s, pe);
    case ByTaker(te) => TakerKeeps(s, te);
    case ByLifecycle(le) => LifecycleKeeps(s, le);
  }

  lemma {:induction false} RunKeeps(run: seq<State>, steps: seq<Step>, i: nat)
    requires IsRun(run, steps) && Inv(run[0]) && i < |run|
    ensures Inv(run[i])
  {
    if i > 0 {
      RunKeeps(run, steps, i - 1);
      StepKeeps(run[i - 1], steps[i - 1]);
    }
  }

  lemma StartsWell()
    ensures Inv(EmptyState)
  {
    forall p ensures RetiredOk(EmptyState, p) { assert CleaningOf(EmptyState, p) == {}; }
  }

  /** Every reachable state satisfies the invariant. */
  lemma ReachableInv(s: State)
    requires Reachable(s)
    ensures Inv(s)
  {
    var run: seq<State>, steps: seq<Step> :| IsRun(run, steps) && run[0] == EmptyState && run[|run| - 1] == s;
    StartsWell();
    RunKeeps(run, steps, |run| - 1);
  }
}
