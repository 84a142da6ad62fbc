/** Every step keeps the invariants of locks, workers, retirement and takers. */
module QueueLifecycle {
  import opened ProviderQueues
  import opened QueueInvariants

  /** Nothing the lifecycle invariants look at has changed; takers may have let go. */
  ghost predicate SameLifecycle(s: State, s': State) {
    && s'.route == s.route && s'.live == s.live && s'.admin == s.admin && s'.retired == s.retired
    && s'.cleaning == s.cleaning && s'.queues.Keys == s.queues.Keys
    && (forall q :: q in s.queues ==>
          && s'.queues[q].prov == s.queues[q].prov && s'.queues[q].closing == s.queues[q].closing
          && s'.queues[q].wg == s.queues[q].wg && s'.queues[q].sweep == s.queues[q].sweep)
  }

  lemma SameLifecycleKeeps(s: State, s': State)
    requires LockInv(s) && WorkerInv(s) && RetiredInv(s) && SameLifecycle(s, s')
    ensures LockInv(s') && WorkerInv(s') && RetiredInv(s')
  {
    forall p | p in s'.route ensures RouteOk(s', p) { assert RouteOk(s, p); }
    forall p | p in s'.admin ensures AdminOk(s', p) { assert AdminOk(s, p); }
    forall w | w in s'.live ensures WorkerOk(s', w) { assert WorkerOk(s, w); }
    forall q | q in s'.queues ensures WaitGroupOk(s', q) { assert WaitGroupOk(s, q); }
    forall p ensures RetiredOk(s', p) {
      assert RetiredOk(s, p);
      assert CleaningOf(s', p) == CleaningOf(s, p);
    }
  }

  lemma RetiredSame(s: State, s': State)
    requires RetiredInv(s) && s'.cleaning == s.cleaning && s'.retired == s.retired && s.queues.Keys <= s'.queues.Keys
    requires s.route.Keys <= s'.route.Keys
    requires forall q :: q in s.queues ==> s'.queues[q].prov == s.queues[q].prov
    ensures RetiredInv(s')
  {
    forall p ensures RetiredOk(s', p) { assert RetiredOk(s, p); assert CleaningOf(s', p) == CleaningOf(s, p); }
  }

  /** Taking, answering, abandoning and moving messages. */
  lemma HoldingKeeps(s: State, s': State)
    requires LifecycleInv(s) && SameLifecycle(s, s')
    requires forall t :: t in s'.hold && t !in s.hold ==> TakerOk(s', t)
    ensures LifecycleInv(s')
  {
    SameLifecycleKeeps(s, s');
    forall t | t in s'.hold ensures TakerOk(s', t) { assert t in s.hold ==> TakerOk(s, t); }
  }

  lemma ProducerKeeps(s: State, e: ProducerStep)
    requires LifecycleInv(s) && ProducerEnabled(s, e)
    ensures LifecycleInv(ApplyProducer(s, e))
  {
    ProducerQuiet(s, e);
    HoldingKeeps(s, ApplyProducer(s, e));
  }

  lemma ProducerQuiet(s: State, e: ProducerStep)
    requires ProducerEnabled(s, e)
    ensures SameLifecycle(s, ApplyProducer(s, e)) && ApplyProducer(s, e).hold == s.hold
  {
    if e.Send? {
      var q := s.reqs[e.r].pc.q;
      assert DoSend(s, e.r, q).queues.Keys == s.queues.Keys;
    } else {
      assert ApplyProducer(s, e).queues == s.queues;
    }
  }

  // ---- workers ----

  lemma LiveGrows(live: map<WorkerId, WorkerRec>, w: WorkerId, rec: WorkerRec, q: QueueId)
    requires w !in live
    ensures |LiveOn(live[w := rec], q)| == |LiveOn(live, q)| + if q == rec.q then 1 else 0
  {
    assert LiveOn(live[w := rec], q) == LiveOn(live, q) + if q == rec.q then {w} else {};
  }

  lemma LiveShrinks(live: map<WorkerId, WorkerRec>, w: WorkerId, q: QueueId)
    requires w in live
    ensures |LiveOn(live - {w}, q)| == |LiveOn(live, q)| - if q == live[w].q then 1 else 0
  {
    assert LiveOn(live - {w}, q) == LiveOn(live, q) - if q == live[w].q then {w} else {};
  }

  lemma SeeDoneKeeps(s: State, w: WorkerId)
    requires LifecycleInv(s) && TakerEnabled(s, WorkerSeeDone(w))
    ensures LifecycleInv(ApplyTaker(s, WorkerSeeDone(w)))
  {
    var s' := ApplyTaker(s, WorkerSeeDone(w));
    forall p | p in s'.route ensures RouteOk(s', p) { assert RouteOk(s, p); }
    forall p | p in s'.admin ensures AdminOk(s', p) { assert AdminOk(s, p); }
    forall x | x in s'.live ensures WorkerOk(s', x) { assert WorkerOk(s, x); }
    forall q | q in s'.queues ensures WaitGroupOk(s', q) {
      assert WaitGroupOk(s, q);
      assert LiveOn(s'.live, q) == LiveOn(s.live, q);
    }
    RetiredSame(s, s');
    forall t | t in s'.hold ensures TakerOk(s', t) { assert TakerOk(s, t); }
  }

  lemma ExitKeeps(s: State, w: WorkerId)
    requires LifecycleInv(s) && TakerEnabled(s, WorkerExit(w))
    ensures LifecycleInv(ApplyTaker(s, WorkerExit(w)))
  {
    var s' := ApplyTaker(s, WorkerExit(w));
    forall p | p in s'.route ensures RouteOk(s', p) { assert RouteOk(s, p); }
    forall p | p in s'.admin ensures AdminOk(s', p) { assert AdminOk(s, p); }
    forall x | x in s'.live ensures WorkerOk(s', x) { assert WorkerOk(s, x); }
    forall q | q in s'.queues ensures WaitGroupOk(s', q) {
      assert WaitGroupOk(s, q);
      LiveShrinks(s.live, w, q);
    }
    RetiredSame(s, s');
    forall t | t in s'.hold ensures TakerOk(s', t) { assert TakerOk(s, t); }
  }

  lemma LogKeepsLifecycle(s: State, t: Taker, r: ReqId, s': State)
    requires s'.queues == LogCancelled(s, t, r)
    requires s'.route == s.route && s'.live == s.live && s'.admin == s.admin && s'.retired == s.retired && s'.cleaning == s.cleaning
    ensures SameLifecycle(s, s')
  {
  }

  lemma DisposeKeeps(s: State, e: TakerStep)
    requires LifecycleInv(s) && TakerEnabled(s, e) && (e.Answer? || e.Abandon?)
    ensures LifecycleInv(ApplyTaker(s, e))
  {
    if e.Answer? { AnswerDisposes(s, e.t, e.ch); } else { AbandonDisposes(s, e.t, e.billed); }
  }

  lemma AnswerDisposes(s: State, t: Taker, ch: Chan)
    requires LifecycleInv(s) && TakerEnabled(s, Answer(t, ch))
    ensures LifecycleInv(DoAnswer(s, t, ch))
  {
    var s' := DoAnswer(s, t, ch);
    LogKeepsLifecycle(s, t, s.hold[t].req, s');
    HoldingKeeps(s, s');
  }

  lemma AbandonDisposes(s: State, t: Taker, billed: bool)
    requires LifecycleInv(s) && TakerEnabled(s, Abandon(t, billed))
    ensures LifecycleInv(ApplyTaker(s, Abandon(t, billed)))
  {
    var s' := ApplyTaker(s, Abandon(t, billed));
    LogKeepsLifecycle(s, t, s.hold[t].req, s');
    HoldingKeeps(s, s');
  }

  lemma TakeKeeps(s: State, q: QueueId, t: Taker)
    requires LifecycleInv(s) && CanTake(s, q, t) && TakerOk(Take(s, q, t), t)
    ensures LifecycleInv(Take(s, q, t))
  {
    HoldingKeeps(s, Take(s, q, t));
  }

  lemma TakerKeeps(s: State, e: TakerStep)
    requires LifecycleInv(s) && TakerEnabled(s, e)
    ensures LifecycleInv(ApplyTaker(s, e))
  {
    if e.WorkerTake? {
      TakeKeeps(s, s.live[e.w].q, Worker(e.w));
    } else if e.WorkerSeeDone? {
      SeeDoneKeeps(s, e.w);
    } else if e.WorkerExit? {
      ExitKeeps(s, e.w);
    } else {
      DisposeKeeps(s, e);
    }
  }

  // ---- provider lifecycle ----

  lemma PublishWorkers(s: State, p0: Provider, q0: QueueId, cap: nat)
    requires LifecycleInv(s) && p0 !in s.route && p0 !in s.admin && q0 !in s.queues
    ensures WorkerInv(DoPublish(s, p0, q0, cap))
  {
    var s' := DoPublish(s, p0, q0, cap);
    forall w | w in s.live ensures s.live[w].q != q0 { assert WorkerOk(s, w); }
    assert LiveOn(s.live, q0) == {};
    forall w | w in s'.live ensures WorkerOk(s', w) { assert WorkerOk(s, w); }
    forall q | q in s'.queues ensures WaitGroupOk(s', q) { assert q in s.queues ==> WaitGroupOk(s, q); }
  }

  lemma PublishKeeps(s: State, p0: Provider, q0: QueueId, cap: nat)
    requires LifecycleInv(s) && p0 !in s.route && p0 !in s.admin && q0 !in s.queues
    ensures LifecycleInv(DoPublish(s, p0, q0, cap))
  {
    var s' := DoPublish(s, p0, q0, cap);
    PublishWorkers(s, p0, q0, cap);
    RetiredSame(s, s');
    forall p | p in s'.route ensures RouteOk(s', p) { assert p in s.route ==> RouteOk(s, p); }
    forall p | p in s'.admin ensures AdminOk(s', p) { assert p in s.admin ==> AdminOk(s, p); }
    forall t | t in s'.hold ensures TakerOk(s', t) { assert TakerOk(s, t); }
  }

  lemma StartWorkerKeeps(s: State, p0: Provider, q0: QueueId, w0: WorkerId)
    requires LifecycleInv(s) && p0 in s.route && s.route[p0] == q0 && q0 in s.queues && !s.queues[q0].closing && w0 !in s.live
    ensures LifecycleInv(DoStartWorker(s, q0, w0))
  {
    var s' := DoStartWorker(s, q0, w0);
    assert RouteOk(s, p0) && WaitGroupOk(s, q0);
    RetiredSame(s, s');
    forall p | p in s'.route ensures RouteOk(s', p) { assert RouteOk(s, p); }
    forall p | p in s'.admin ensures AdminOk(s', p) { assert AdminOk(s, p); }
    forall w | w in s'.live ensures WorkerOk(s', w) { assert w in s.live ==> WorkerOk(s, w); }
    forall q | q in s'.queues ensures WaitGroupOk(s', q) { 
      assert WaitGroupOk(s, q);
      LiveGrows(s.live, w0, WorkerRec(q0, false), q);
     }
    forall t | t in s'.hold ensures TakerOk(s', t) { assert TakerOk(s, t); }
  }

  lemma PrepareDoneKeeps(s: State, p0: Provider)
    requires LifecycleInv(s) && p0 in s.admin && s.admin[p0].Preparing?
    ensures LifecycleInv(Unlock(s, p0))
  {
    var s' := Unlock(s, p0);
    RetiredSame(s, s');
    forall p | p in s'.route ensures RouteOk(s', p) { assert RouteOk(s, p); }
    forall p | p in s'.admin ensures AdminOk(s', p) { assert AdminOk(s, p); }
    forall w | w in s'.live ensures WorkerOk(s', w) { assert WorkerOk(s, w); }
    forall q | q in s'.queues ensures WaitGroupOk(s', q) { assert WaitGroupOk(s, q); }
    forall t | t in s'.hold ensures TakerOk(s', t) { assert TakerOk(s, t); }
  }

  lemma UpdateBeginWorkers(s: State, p0: Provider, prev: QueueId, q0: QueueId, cap: nat)
    requires LifecycleInv(s) && p0 in s.route && p0 !in s.admin && s.route[p0] == prev && prev in s.queues && q0 !in s.queues
    ensures WorkerInv(DoUpdateBegin(s, p0, prev, q0, cap))
  {
    var s' := DoUpdateBegin(s, p0, prev, q0, cap);
    assert RouteOk(s, p0) && WaitGroupOk(s, prev);
    forall w | w in s.live ensures s.live[w].q != q0 { assert WorkerOk(s, w); }
    assert LiveOn(s.live, q0) == {};
    forall w | w in s'.live ensures WorkerOk(s', w) { assert WorkerOk(s, w); }
    forall q | q in s'.queues ensures WaitGroupOk(s', q) { assert q in s.queues ==> WaitGroupOk(s, q); }
  }

  lemma UpdateBeginKeeps(s: State, p0: Provider, prev: QueueId, q0: QueueId, cap: nat)
    requires LifecycleInv(s) && p0 in s.route && p0 !in s.admin && s.route[p0] == prev && prev in s.queues && q0 !in s.queues
    ensures LifecycleInv(DoUpdateBegin(s, p0, prev, q0, cap))
  {
    var s' := DoUpdateBegin(s, p0, prev, q0, cap);
    assert RouteOk(s, p0) && WaitGroupOk(s, prev);
    UpdateBeginWorkers(s, p0, prev, q0, cap);
    RetiredSame(s, s');
    forall p | p in s'.route ensures RouteOk(s', p) { assert RouteOk(s, p); }
    forall p | p in s'.admin ensures AdminOk(s', p) { assert p in s.admin ==> AdminOk(s, p); }
    forall t | t in s'.hold ensures TakerOk(s', t) { assert TakerOk(s, t); }
  }

  ghost predicate EarlyPhase(phase: Phase) {
    phase != Registered && phase != Signalled
  }

  /** Moving through the update before the old generation is registered. */
  lemma PhaseKeeps(s: State, p0: Provider, phase: Phase)
    requires LifecycleInv(s) && p0 in s.admin && s.admin[p0].Updating? && EarlyPhase(s.admin[p0].phase) && EarlyPhase(phase) &&
             (Handoff(p0) in s.hold ==> phase == Transferring || phase == Cancelling)
    ensures LifecycleInv(SetPhase(s, p0, phase))
  {
    var s' := SetPhase(s, p0, phase);
    RetiredSame(s, s');
    forall p | p in s'.route ensures RouteOk(s', p) { assert RouteOk(s, p); }
    forall p | p in s'.admin ensures AdminOk(s', p) { assert AdminOk(s, p); }
    forall w | w in s'.live ensures WorkerOk(s', w) { assert WorkerOk(s, w); }
    forall q | q in s'.queues ensures WaitGroupOk(s', q) { assert WaitGroupOk(s, q); }
    forall t | t in s'.hold ensures TakerOk(s', t) { assert TakerOk(s, t); }
  }

  lemma RegisterCounts(s: State, p0: Provider)
    requires LockInv(s) && RetiredInv(s) && p0 in s.admin && s.admin[p0].Updating? && s.admin[p0].phase == TransferDone
    ensures RetiredInv(DoRegister(s, p0))
  {
    var s' := DoRegister(s, p0);
    assert AdminOk(s, p0);
    forall p ensures RetiredOk(s', p) {
      assert RetiredOk(s, p);
      RegisterCleans(s, p0, p);
    }
  }

  lemma RegisterCleans(s: State, p0: Provider, p: Provider)
    requires p0 in s.admin && s.admin[p0].Updating? && AdminOk(s, p0) && s.admin[p0].phase == TransferDone
    ensures CleaningOf(DoRegister(s, p0), p) == CleaningOf(s, p) + if p == p0 then {s.admin[p0].prev} else {}
  {
  }

  lemma RegisterLocks(s: State, p0: Provider)
    requires LockInv(s) && p0 in s.admin && s.admin[p0].Updating? && s.admin[p0].phase == TransferDone
    ensures LockInv(DoRegister(s, p0))
  {
    var s' := DoRegister(s, p0);
    assert AdminOk(s, p0);
    forall p | p in s'.route ensures RouteOk(s', p) { assert RouteOk(s, p); }
    forall p | p in s'.admin ensures AdminOk(s', p) { assert AdminOk(s, p); }
  }

  lemma RegisterKeeps(s: State, p0: Provider)
    requires LifecycleInv(s) && p0 in s.admin && s.admin[p0].Updating? && s.admin[p0].phase == TransferDone && Handoff(p0) !in s.hold
    ensures LifecycleInv(DoRegister(s, p0))
  {
    var s' := DoRegister(s, p0);
    RegisterCounts(s, p0);
    RegisterLocks(s, p0);
    forall w | w in s'.live ensures WorkerOk(s', w) { assert WorkerOk(s, w); }
    forall q | q in s'.queues ensures WaitGroupOk(s', q) { assert WaitGroupOk(s, q); }
    forall t | t in s'.hold ensures TakerOk(s', t) { assert TakerOk(s, t); }
  }

  lemma SignalOldKeeps(s: State, p0: Provider)
    requires LifecycleInv(s) && p0 in s.admin && s.admin[p0].Updating? && s.admin[p0].phase == Registered && s.admin[p0].prev in s.queues
    ensures LifecycleInv(DoSignalOld(s, p0))
  {
    var s' := DoSignalOld(s, p0);
    assert AdminOk(s, p0);
    RetiredSame(s, s');
    forall p | p in s'.route ensures RouteOk(s', p) { assert RouteOk(s, p); }
    forall p | p in s'.admin ensures AdminOk(s', p) { assert AdminOk(s, p); }
    forall w | w in s'.live ensures WorkerOk(s', w) { assert WorkerOk(s, w); }
    forall q | q in s'.queues ensures WaitGroupOk(s', q) { assert WaitGroupOk(s, q); }
    forall t | t in s'.hold ensures TakerOk(s', t) { assert TakerOk(s, t); }
  }

  lemma SpawnCleanupKeeps(s: State, p0: Provider)
    requires LifecycleInv(s) && p0 in s.admin && s.admin[p0].Updating? && s.admin[p0].phase == Signalled && s.admin[p0].prev in s.queues
    ensures LifecycleInv(Unlock(SetSweep(s, s.admin[p0].prev, AwaitWorkers), p0))
  {
    var s' := Unlock(SetSweep(s, s.admin[p0].prev, AwaitWorkers), p0);
    assert AdminOk(s, p0);
    RetiredSame(s, s');
    forall p | p in s'.route ensures RouteOk(s', p) { assert RouteOk(s, p); }
    forall p | p in s'.admin ensures AdminOk(s', p) { assert AdminOk(s, p); }
    forall w | w in s'.live ensures WorkerOk(s', w) { assert WorkerOk(s, w); }
    forall q | q in s'.queues ensures WaitGroupOk(s', q) { assert WaitGroupOk(s, q); }
    forall t | t in s'.hold ensures TakerOk(s', t) { assert TakerOk(s, t); }
  }

  lemma RemoveBeginLocks(s: State, p0: Provider, q0: QueueId)
    requires LockInv(s) && p0 in s.route && p0 !in s.admin && s.route[p0] == q0 && q0 in s.queues
    ensures LockInv(DoRemoveBegin(s, p0, q0))
  {
    var s' := DoRemoveBegin(s, p0, q0);
    assert RouteOk(s, p0);
    forall p | p in s'.route ensures RouteOk(s', p) { assert RouteOk(s, p); }
    forall p | p in s'.admin ensures AdminOk(s', p) { assert p in s.admin ==> AdminOk(s, p); }
  }

  lemma RemoveBeginKeeps(s: State, p0: Provider, q0: QueueId)
    requires LifecycleInv(s) && p0 in s.route && p0 !in s.admin && s.route[p0] == q0 && q0 in s.queues
    ensures LifecycleInv(DoRemoveBegin(s, p0, q0))
  {
    var s' := DoRemoveBegin(s, p0, q0);
    assert RouteOk(s, p0) && WaitGroupOk(s, q0);
    RetiredSame(s, s');
    RemoveBeginLocks(s, p0, q0);
    forall w | w in s'.live ensures WorkerOk(s', w) { assert WorkerOk(s, w); }
    forall q | q in s'.queues ensures WaitGroupOk(s', q) { assert WaitGroupOk(s, q); }
    forall t | t in s'.hold ensures TakerOk(s', t) { assert TakerOk(s, t); }
  }

  lemma SweepStartKeeps(s: State, q0: QueueId)
    requires LifecycleInv(s) && q0 in s.queues && s.queues[q0].sweep == AwaitWorkers && s.queues[q0].wg == 0
    ensures LifecycleInv(SetSweep(s, q0, Sweeping))
  {
    var s' := SetSweep(s, q0, Sweeping);
    assert WaitGroupOk(s, q0);
    assert LiveOn(s.live, q0) == {};
    RetiredSame(s, s');
    forall p | p in s'.route ensures RouteOk(s', p) { assert RouteOk(s, p); }
    forall p | p in s'.admin ensures AdminOk(s', p) { assert AdminOk(s, p); }
    forall w | w in s'.live ensures WorkerOk(s', w) { assert WorkerOk(s, w) && w !in LiveOn(s.live, q0); }
    forall q | q in s'.queues ensures WaitGroupOk(s', q) { assert WaitGroupOk(s, q); }
    forall t | t in s'.hold ensures TakerOk(s', t) { assert TakerOk(s, t); }
  }

  lemma SweepEndKeeps(s: State, q0: QueueId)
    requires LifecycleInv(s) && q0 in s.queues && s.queues[q0].sweep == Sweeping && Sweeper(q0) !in s.hold
    ensures LifecycleInv(SetSweep(s, q0, Swept))
  {
    var s' := SetSweep(s, q0, Swept);
    assert WaitGroupOk(s, q0);
    RetiredSame(s, s');
    forall p | p in s'.route ensures RouteOk(s', p) { assert RouteOk(s, p); }
    forall p | p in s'.admin ensures AdminOk(s', p) { assert AdminOk(s, p); }
    forall w | w in s'.live ensures WorkerOk(s', w) { assert WorkerOk(s, w); }
    forall q | q in s'.queues ensures WaitGroupOk(s', q) { assert WaitGroupOk(s, q); }
    forall t | t in s'.hold ensures TakerOk(s', t) { assert TakerOk(s, t); }
  }

  lemma CleanupDoneKeeps(s: State, q0: QueueId, p0: Provider)
    requires LifecycleInv(s) && q0 in s.cleaning && q0 in s.queues && s.queues[q0].sweep == Swept && s.queues[q0].prov == p0 && p0 in s.retired && s.retired[p0] > 0
    ensures LifecycleInv(DoCleanupDone(s, q0, p0))
  {
    var s' := DoCleanupDone(s, q0, p0);
    forall p ensures RetiredOk(s', p) {
      assert RetiredOk(s, p);
      assert CleaningOf(s', p) == if p == p0 then CleaningOf(s, p) - {q0} else CleaningOf(s, p);
    }
    forall p | p in s'.route ensures RouteOk(s', p) { assert RouteOk(s, p); }
    forall p | p in s'.admin ensures AdminOk(s', p) { assert AdminOk(s, p); }
    forall w | w in s'.live ensures WorkerOk(s', w) { assert WorkerOk(s, w); }
    forall q | q in s'.queues ensures WaitGroupOk(s', q) { assert WaitGroupOk(s, q); }
    forall t | t in s'.hold ensures TakerOk(s', t) { assert TakerOk(s, t); }
  }

  lemma RemoveLastWaitKeeps(s: State, p0: Provider, q0: QueueId)
    requires LifecycleInv(s) && p0 in s.admin && s.admin[p0] == Removing(q0, false) && q0 in s.queues && s.queues[q0].sweep == Swept && RetiredCount(s, p0) == 0
    ensures LifecycleInv(DoRemoveLastWait(s, p0, q0))
  {
    var s' := DoRemoveLastWait(s, p0, q0);
    forall p ensures RetiredOk(s', p) {
      assert RetiredOk(s, p);
      assert CleaningOf(s', p) == CleaningOf(s, p);
    }
    forall p | p in s'.route ensures RouteOk(s', p) { assert RouteOk(s, p); }
    forall p | p in s'.admin ensures AdminOk(s', p) { assert AdminOk(s, p); }
    forall w | w in s'.live ensures WorkerOk(s', w) { assert WorkerOk(s, w); }
    forall q | q in s'.queues ensures WaitGroupOk(s', q) { assert WaitGroupOk(s, q); }
    forall t | t in s'.hold ensures TakerOk(s', t) { assert TakerOk(s, t); }
  }

  lemma RemoveFinishKeeps(s: State, p0: Provider)
    requires LifecycleInv(s) && p0 in s.admin && s.admin[p0].Removing? && s.admin[p0].waited
    ensures LifecycleInv(Unlock(s, p0).(route := s.route - {p0}))
  {
    var s' := Unlock(s, p0).(route := s.route - {p0});
    assert AdminOk(s, p0);
    forall p ensures RetiredOk(s', p) {
      assert RetiredOk(s, p);
      assert CleaningOf(s', p) == CleaningOf(s, p);
    }
    forall p | p in s'.route ensures RouteOk(s', p) { assert RouteOk(s, p); }
    forall p | p in s'.admin ensures AdminOk(s', p) { assert AdminOk(s, p); }
    forall w | w in s'.live ensures WorkerOk(s', w) { assert WorkerOk(s, w); }
    forall q | q in s'.queues ensures WaitGroupOk(s', q) { assert WaitGroupOk(s, q); }
    forall t | t in s'.hold ensures TakerOk(s', t) { assert TakerOk(s, t); }
  }

  lemma MoveKeeps(s: State, p: Provider, prev: QueueId, next: QueueId)
    requires LifecycleInv(s) && Handoff(p) in s.hold && prev in s.queues && next in s.queues && prev != next
    ensures LifecycleInv(DoMove(s, p, prev, next))
  {
    HoldingKeeps(s, DoMove(s, p, prev, next));
  }

  lemma LifecycleKeeps(s: State, e: LifecycleStep)
    requires LifecycleInv(s) && LifecycleEnabled(s, e)
    ensures LifecycleInv(ApplyLifecycle(s, e))
  {
    match e
    case Publish(p, q, cap) => PublishKeeps(s, p, q, cap);
    case StartWorker(p, w) => assert AdminOk(s, p); StartWorkerKeeps(s, p, Recruiting(s.admin[p]), w);
    case PrepareDone(p) => PrepareDoneKeeps(s, p);
    case UpdateBegin(p, q, cap) => UpdateBeginKeeps(s, p, s.route[p], q, cap);
    case BeginTransfer(p) => PhaseKeeps(s, p, Transferring);
    case HandoffTake(p) => TakeKeeps(s, s.admin[p].prev, Handoff(p));
    case HandoffMove(p) => MoveKeeps(s, p, s.admin[p].prev, s.admin[p].next);
    case HandoffFull(p) => PhaseKeeps(s, p, Cancelling);
    case HandoffDone(p) => PhaseKeeps(s, p, TransferDone);
    case Register(p) => assert Handoff(p) in s.hold ==> TakerOk(s, Handoff(p)); RegisterKeeps(s, p);
    case SignalOld(p) => SignalOldKeeps(s, p);
    case SpawnCleanup(p) => SpawnCleanupKeeps(s, p);
    case RemoveBegin(p) => RemoveBeginKeeps(s, p, s.route[p]);
    case SweepStart(q) => SweepStartKeeps(s, q);
    case SweepTake(q) => TakeKeeps(s, q, Sweeper(q));
    case SweepEnd(q) => SweepEndKeeps(s, q);
    case CleanupDone(q) => CleanupDoneKeeps(s, q, s.queues[q].prov);
    case RemoveLastWait(p) => RemoveLastWaitKeeps(s, p, s.admin[p].q);
    case RemoveFinish(p) => RemoveFinishKeeps(s, p);
  }
}
