/**
 What everyone may do next. For each place a caller, a worker or a handoff can be in, these
 are exactly the steps open to it, and what they lead to; so a caller waits only for room
 in a full open queue or for its answer.
 */
module QueueMoves {
  import opened Wrappers
  import opened ProviderQueues
  import opened QueueInvariants
  import opened QueueSafety
  import opened QueueTheorems
  import opened QueueSweep

  /** The step is possible and takes the caller `r` to `pc`. */
  predicate Goes(s: State, e: ProducerStep, r: ReqId, pc: Pc) {
    ProducerEnabled(s, e) && var t := ApplyProducer(s, e); r in t.reqs && t.reqs[r].pc == pc
  }

  // ---- callers ----

  /** The queues a caller refers to exist, and belong to one provider. */
  ghost predicate RefersOk(s: State, r: ReqId) {
    r in s.reqs ==>
      var pc := s.reqs[r].pc;
      && (pc.Routed? || pc.Checking? || pc.Rerouting? || pc.Candidate? || pc.Committed? || pc.Full? || pc.Blocked? ==> pc.q in s.queues)
      && (pc.Candidate? ==> pc.c in s.queues && s.queues[pc.c].prov == s.queues[pc.q].prov)
  }

  lemma ProducerRefers(s: State, e: ProducerStep, r: ReqId)
    requires LockInv(s) && ProducerEnabled(s, e) && RefersOk(s, r) && (e.SeeCandidateOpen? ==> RefersOk(s, e.r))
    ensures RefersOk(ApplyProducer(s, e), r)
  {
    if e.Start? { assert RouteOk(s, e.p); }
    if e.LoadCandidate? { assert RouteOk(s, e.p); }
  }

  lemma OthersRefer(s: State, e: Step, r: ReqId)
    requires Enabled(s, e) && !e.ByProducer? && RefersOk(s, r)
    ensures RefersOk(Apply(s, e), r)
  {
    if r in s.reqs {
      var pc := s.reqs[r].pc;
      if pc.Routed? || pc.Checking? || pc.Rerouting? || pc.Candidate? || pc.Committed? || pc.Full? || pc.Blocked? {
        ProviderKept(s, e, pc.q);
        if pc.Candidate? { ProviderKept(s, e, pc.c); }
      }
    }
    RequestsKept(s, e);
  }

  lemma RequestsKept(s: State, e: Step)
    requires Enabled(s, e) && !e.ByProducer?
    ensures Apply(s, e).reqs == s.reqs
  {
    if e.ByTaker? { TakerRequests(s, e.te); } else { LifecycleRequests(s, e.le); }
  }

  lemma AbandonRequests(s: State, t: Taker, billed: bool)
    requires TakerEnabled(s, Abandon(t, billed))
    ensures var s' := ApplyTaker(s, Abandon(t, billed)); s'.reqs == s.reqs && s'.admin == s.admin
  {
    assert DoAbandon(s, t).reqs == s.reqs && DoAbandon(s, t).admin == s.admin;
  }

  lemma TakerRequests(s: State, e: TakerStep)
    requires TakerEnabled(s, e)
    ensures ApplyTaker(s, e).reqs == s.reqs && ApplyTaker(s, e).admin == s.admin
  {
    if e.Abandon? {
      AbandonRequests(s, e.t, e.billed);
    } else if e.Answer? {
      assert DoAnswer(s, e.t, e.ch).reqs == s.reqs && DoAnswer(s, e.t, e.ch).admin == s.admin;
    }
  }

  lemma LifecycleRequests(s: State, e: LifecycleStep)
    requires LifecycleEnabled(s, e)
    ensures ApplyLifecycle(s, e).reqs == s.reqs
  {
    if FlagsQueue(e) {
      var changed := FlagsShape(s, e);
    } else if Receives(e) || AddsQueue(e) {
      QueueChangesRequests(s, e);
    } else {
      LocksShape(s, e);
    }
  }

  lemma QueueChangesRequests(s: State, e: LifecycleStep)
    requires LifecycleEnabled(s, e) && (Receives(e) || AddsQueue(e))
    ensures ApplyLifecycle(s, e).reqs == s.reqs
  {
  }

  lemma ProviderKept(s: State, e: Step, q: QueueId)
    requires Enabled(s, e) && !e.ByProducer? && q in s.queues
    ensures q in Apply(s, e).queues && Apply(s, e).queues[q].prov == s.queues[q].prov
  {
    if e.ByTaker? { TakerProvider(s, e.te, q); } else { LifecycleProvider(s, e.le, q); }
  }

  lemma TakerProvider(s: State, e: TakerStep, q: QueueId)
    requires TakerEnabled(s, e) && q in s.queues
    ensures q in ApplyTaker(s, e).queues && ApplyTaker(s, e).queues[q].prov == s.queues[q].prov
  {
    if e.Abandon? { assert q in DoAbandon(s, e.t).queues && DoAbandon(s, e.t).queues[q].prov == s.queues[q].prov; }
  }

  lemma LifecycleProvider(s: State, e: LifecycleStep, q: QueueId)
    requires LifecycleEnabled(s, e) && q in s.queues
    ensures q in ApplyLifecycle(s, e).queues && ApplyLifecycle(s, e).queues[q].prov == s.queues[q].prov
  {
    if FlagsQueue(e) {
      FlagsProvider(s, e, q);
    } else if AddsQueue(e) {
      AddsProvider(s, e, q);
    } else if Receives(e) {
      ReceivesProvider(s, e, q);
    } else {
      LocksShape(s, e);
    }
  }

  lemma AddsProvider(s: State, e: LifecycleStep, q: QueueId)
    requires LifecycleEnabled(s, e) && q in s.queues && AddsQueue(e)
    ensures q in ApplyLifecycle(s, e).queues && ApplyLifecycle(s, e).queues[q].prov == s.queues[q].prov
  {
  }

  lemma ReceivesProvider(s: State, e: LifecycleStep, q: QueueId)
    requires LifecycleEnabled(s, e) && q in s.queues && Receives(e)
    ensures q in ApplyLifecycle(s, e).queues && ApplyLifecycle(s, e).queues[q].prov == s.queues[q].prov
  {
  }

  lemma FlagsProvider(s: State, e: LifecycleStep, q: QueueId)
    requires LifecycleEnabled(s, e) && q in s.queues && FlagsQueue(e)
    ensures q in ApplyLifecycle(s, e).queues && ApplyLifecycle(s, e).queues[q].prov == s.queues[q].prov
  {
    var changed := FlagsShape(s, e);
  }

  lemma {:induction false} RunRefers(run: seq<State>, steps: seq<Step>, j: nat, r: ReqId)
    requires IsRun(run, steps) && run[0] == EmptyState && j < |run|
    ensures Inv(run[j]) && RefersOk(run[j], r)
  {
    StartsWell();
    RunKeeps(run, steps, j);
    if j > 0 {
      RunRefers(run, steps, j - 1, r);
      var e := steps[j - 1];
      if e.ByProducer? {
        if e.pe.SeeCandidateOpen? { RunRefers(run, steps, j - 1, e.pe.r); }
        ProducerRefers(run[j - 1], e.pe, r);
      } else {
        OthersRefer(run[j - 1], e, r);
      }
    }
  }

  lemma ReachableRefers(s: State, r: ReqId)
    requires Reachable(s)
    ensures Inv(s) && RefersOk(s, r)
  {
    var run: seq<State>, steps: seq<Step> :| IsRun(run, steps) && run[0] == EmptyState && run[|run| - 1] == s;
    RunRefers(run, steps, |run| - 1, r);
  }

  /** A call begins at the provider's current queue, unless the provider is locked by an update or a removal. */
  lemma StartMoves(s: State, r: ReqId, p: Provider, stream: bool)
    ensures Enabled(s, ByProducer(Start(r, p, stream))) <==> r !in s.reqs && p in s.route && p !in s.admin
    ensures p in s.route && Enabled(s, ByProducer(Start(r, p, stream))) ==>
              Goes(s, Start(r, p, stream), r, Routed(s.route[p])) && ApplyProducer(s, Start(r, p, stream)).reqs[r].stream == stream
  {
  }

  /** It then gets a message with emptied channels, each pooled or new, and a stream channel exactly when it streams. */
  lemma AcquireMoves(s: State, r: ReqId, m: MsgId, resp: Chan, err: Chan, strm: Option<Chan>)
    requires Reachable(s) && r in s.reqs && s.reqs[r].pc.Routed?
    ensures Enabled(s, ByProducer(Acquire(r, m, resp, err, strm))) <==>
            && m !in s.msgs && resp.ResponseChan? && err.ErrorChan? && (strm.Some? <==> s.reqs[r].stream)
            && (resp in s.chanPool || resp !in s.chans) && (err in s.chanPool || err !in s.chans)
            && (strm.Some? ==> strm.value.StreamChan? && (strm.value in s.chanPool || strm.value !in s.chans))
    ensures Enabled(s, ByProducer(Acquire(r, m, resp, err, strm))) ==>
              var t := ApplyProducer(s, Acquire(r, m, resp, err, strm));
              && Goes(s, Acquire(r, m, resp, err, strm), r, Checking(s.reqs[r].pc.q))
              && m in t.msgs && t.msgs[m] == Message(r, resp, err, strm) && r in t.reqs && t.reqs[r].msg == m
              && Chans(t.msgs[m]) !! t.buf.Keys && Chans(t.msgs[m]) !! t.chanPool
  {
  }

  /** The caller has its message and looks at the closing flag. */
  lemma CheckingMoves(s: State, r: ReqId)
    requires Reachable(s) && r in s.reqs && s.reqs[r].pc.Checking?
    ensures s.reqs[r].pc.q in s.queues && s.reqs[r].msg in s.msgs
    ensures Enabled(s, ByProducer(SeeOpen(r))) <==> !s.queues[s.reqs[r].pc.q].closing
    ensures Enabled(s, ByProducer(SeeClosing(r))) <==> s.queues[s.reqs[r].pc.q].closing
    ensures Enabled(s, ByProducer(SeeOpen(r))) ==> Goes(s, SeeOpen(r), r, Committed(s.reqs[r].pc.q))
    ensures Enabled(s, ByProducer(SeeClosing(r))) ==> Goes(s, SeeClosing(r), r, Rerouting(s.reqs[r].pc.q))
  {
    ReachableRefers(s, r);
    assert ReqOk(s, r);
  }

  /** The caller was rerouted and looks at the other queue's closing flag: a queue of the same provider. */
  lemma CandidateMoves(s: State, r: ReqId, p: Provider)
    requires Reachable(s) && r in s.reqs && s.reqs[r].pc.Candidate?
    ensures s.reqs[r].pc.q in s.queues && s.reqs[r].pc.c in s.queues
    ensures s.queues[s.reqs[r].pc.c].prov == s.queues[s.reqs[r].pc.q].prov
    ensures Enabled(s, ByProducer(SeeCandidateOpen(r))) <==> !s.queues[s.reqs[r].pc.c].closing
    ensures Enabled(s, ByProducer(GiveUp(r, p))) <==> s.queues[s.reqs[r].pc.c].closing
    ensures Enabled(s, ByProducer(SeeCandidateOpen(r))) ==> Goes(s, SeeCandidateOpen(r), r, Committed(s.reqs[r].pc.c))
  {
    ReachableRefers(s, r);
    assert ReqOk(s, r);
  }

  /** The caller saw its queue closing: it goes on to its provider's current queue if that is another one, and gives up otherwise. */
  lemma RerouteMoves(s: State, r: ReqId, p: Provider)
    requires Reachable(s) && r in s.reqs && s.reqs[r].pc.Rerouting?
    ensures var q := s.reqs[r].pc.q;
            && q in s.queues
            && (Enabled(s, ByProducer(LoadCandidate(r, p))) <==> p == s.queues[q].prov && p in s.route && s.route[p] != q)
            && (Enabled(s, ByProducer(GiveUp(r, p))) <==> p == s.queues[q].prov && (p !in s.route || s.route[p] == q))
            && (p in s.route && Enabled(s, ByProducer(LoadCandidate(r, p))) ==> Goes(s, LoadCandidate(r, p), r, Candidate(q, s.route[p])))
  {
    ReachableRefers(s, r);
    assert ReqOk(s, r);
  }

  /** The caller is sending: in the first select, after its default branch, or in the blocking one. */
  lemma SendMoves(s: State, r: ReqId, p: Provider)
    requires Reachable(s) && r in s.reqs && (s.reqs[r].pc.Committed? || s.reqs[r].pc.Full? || s.reqs[r].pc.Blocked?)
    ensures s.reqs[r].pc.q in s.queues
    ensures var pc, q := s.reqs[r].pc, s.queues[s.reqs[r].pc.q];
            && (Enabled(s, ByProducer(Send(r))) <==> !pc.Full? && |q.items| < q.cap)
            && (Enabled(s, ByProducer(FindFull(r))) <==> pc.Committed? && |q.items| >= q.cap && r !in s.done)
            && (Enabled(s, ByProducer(Block(r))) <==> pc.Full? && !q.closing)
            && (Enabled(s, ByProducer(GiveUp(r, p))) <==> pc.Full? || q.closing || r in s.done)
            && (Enabled(s, ByProducer(FindFull(r))) ==> Goes(s, FindFull(r), r, Full(pc.q)))
            && (Enabled(s, ByProducer(Block(r))) ==> Goes(s, Block(r), r, Blocked(pc.q)))
  {
    ReachableRefers(s, r);
    assert ReqOk(s, r);
  }

  /** A send puts the caller's own message at the tail of the queue, and the caller waits. */
  lemma SendDelivers(s: State, r: ReqId)
    requires Reachable(s) && Enabled(s, ByProducer(Send(r)))
    ensures var q, t := s.reqs[r].pc.q, ApplyProducer(s, Send(r));
            && r in t.reqs && t.reqs[r].pc == Waiting && t.reqs[r].msg == s.reqs[r].msg
            && q in t.queues && t.queues[q].items == s.queues[q].items + [s.reqs[r].msg]
            && s.reqs[r].msg in s.msgs && s.msgs[s.reqs[r].msg].req == r
            && forall other :: other in s.queues && other != q ==> other in t.queues && t.queues[other] == s.queues[other]
  {
    ReachableRefers(s, r);
    assert ReqOk(s, r);
  }

  /** The caller waits for its answer: it can take whatever lies in its channels, and leaves only when its context is done. */
  lemma WaitMoves(s: State, r: ReqId, c: Chan)
    requires Reachable(s) && r in s.reqs && s.reqs[r].pc.Waiting?
    ensures s.reqs[r].msg in s.msgs && s.msgs[s.reqs[r].msg].req == r
    ensures s.msgs[s.reqs[r].msg].strm.Some? <==> s.reqs[r].stream
    ensures var m := s.msgs[s.reqs[r].msg];
            Enabled(s, ByProducer(Receive(r, c))) <==> c in s.buf && (c == m.err || c == if s.reqs[r].stream then m.strm.value else m.resp)
    ensures Enabled(s, ByProducer(Leave(r))) <==> r in s.done
  {
    ReachableInv(s);
    assert ReqOk(s, r) && MsgOk(s, s.reqs[r].msg);
  }

  /** A caller that leaves with its answer outstanding gives nothing back: a taker may still use the channels. */
  lemma LeavingKeepsChannels(s: State, r: ReqId)
    requires Enabled(s, ByProducer(Leave(r)))
    ensures var t := ApplyProducer(s, Leave(r));
            && Goes(s, Leave(r), r, Finished)
            && t.msgs == s.msgs && t.chanPool == s.chanPool && t.buf == s.buf && t.hold == s.hold && t.queues == s.queues && t.hooks == s.hooks
  {
  }

  /** A caller that gives up has released its message and channels. */
  lemma GivingUpReleases(s: State, r: ReqId, p: Provider)
    requires Reachable(s) && Enabled(s, ByProducer(GiveUp(r, p)))
    ensures var t, m := ApplyProducer(s, GiveUp(r, p)), s.msgs[s.reqs[r].msg];
            && r in t.reqs && t.reqs[r].pc == Finished && s.reqs[r].msg !in t.msgs
            && Chans(m) <= t.chanPool && Chans(m) !! t.buf.Keys && t.queues == s.queues && t.hooks == s.hooks
  {
  }

  /** Before its message is sent, a caller waits only at a full, open queue. */
  lemma CallerWaitsOnlyWhenBlocked(s: State, r: ReqId) returns (e: ProducerStep)
    requires Reachable(s) && r in s.reqs && Unsent(s.reqs[r].pc)
    requires s.reqs[r].pc.Blocked? ==>
               s.reqs[r].pc.q in s.queues &&
               var q := s.queues[s.reqs[r].pc.q]; q.closing || r in s.done || |q.items| < q.cap
    ensures Enabled(s, ByProducer(e)) && !e.Start? && !e.CancelContext? && e.r == r
  {
    ReachableRefers(s, r);
    assert ReqOk(s, r);
    var q := s.queues[s.reqs[r].pc.q];
    var p := q.prov;
    e := match s.reqs[r].pc
      case Checking(_) => if q.closing then SeeClosing(r) else SeeOpen(r)
      case Rerouting(i) => if p in s.route && s.route[p] != i then LoadCandidate(r, p) else GiveUp(r, p)
      case Candidate(_, c) => if s.queues[c].closing then GiveUp(r, p) else SeeCandidateOpen(r)
      case Committed(_) => if |q.items| < q.cap then Send(r) else if r in s.done then GiveUp(r, p) else FindFull(r)
      case Full(_) => GiveUp(r, p)
      case Blocked(_) => if |q.items| < q.cap then Send(r) else GiveUp(r, p)
      case _ => GiveUp(r, p);
  }

  // ---- workers and handoffs ----

  /** A worker between messages: it can take when there is one, notice the signal once it is given, and leave only from an empty queue. */
  lemma WorkerMoves(s: State, w: WorkerId)
    requires Reachable(s) && w in s.live && Worker(w) !in s.hold
    ensures s.live[w].q in s.queues
    ensures var q, draining := s.queues[s.live[w].q], s.live[w].draining;
            && (Enabled(s, ByTaker(WorkerTake(w))) <==> q.items != [])
            && (Enabled(s, ByTaker(WorkerSeeDone(w))) <==> !draining && q.closing)
            && (Enabled(s, ByTaker(WorkerExit(w))) <==> draining && q.items == [])
  {
    ReachableInv(s);
    assert WorkerOk(s, w) && QueueOk(s, s.live[w].q) && WaitGroupOk(s, s.live[w].q);
    assert w in LiveOn(s.live, s.live[w].q);
  }

  /** The handoff with a message in hand: it moves it exactly when the new queue has room, and starts cancelling exactly when not. */
  lemma HandoffMoves(s: State, p: Provider)
    requires Reachable(s) && Handoff(p) in s.hold
    ensures p in s.admin && s.admin[p].Updating? && s.admin[p].next in s.queues
    ensures var a, next := s.admin[p], s.queues[s.admin[p].next];
            && (a.phase == Transferring || a.phase == Cancelling)
            && (Enabled(s, ByLifecycle(HandoffMove(p))) <==> a.phase == Transferring && |next.items| < next.cap)
            && (Enabled(s, ByLifecycle(HandoffFull(p))) <==> a.phase == Transferring && |next.items| >= next.cap)
  {
    ReachableInv(s);
    assert TakerOk(s, Handoff(p)) && AdminOk(s, p);
  }

  /** A moved message is the one in hand, at the tail of the new queue. */
  lemma HandoffDelivers(s: State, p: Provider)
    requires Reachable(s) && Enabled(s, ByLifecycle(HandoffMove(p)))
    ensures var next, h, t := s.admin[p].next, s.hold[Handoff(p)], ApplyLifecycle(s, HandoffMove(p));
            && next in t.queues && t.queues[next].items == s.queues[next].items + [h.msg]
            && Handoff(p) !in t.hold && s.admin[p].prev in t.queues && t.queues[s.admin[p].prev].items == s.queues[s.admin[p].prev].items
  {
  }

  ghost predicate IsCancelling(s: State, p: Provider, q: QueueId) {
    Leaving(s, p, q) && s.admin[p].phase == Cancelling
  }

  lemma CancellingOnlyByFull(s: State, e: Step, p: Provider, q: QueueId)
    requires Inv(s) && Enabled(s, e) && !IsCancelling(s, p, q) && IsCancelling(Apply(s, e), p, q)
    ensures e == ByLifecycle(HandoffFull(p)) && Leaving(s, p, q)
  {
    if e.ByProducer? { ProducerAdmin(s, e.pe); } else if e.ByTaker? { TakerRequests(s, e.te); } else { LifecycleCancelling(s, e.le, p, q); }
  }

  lemma ProducerAdmin(s: State, e: ProducerStep)
    requires ProducerEnabled(s, e)
    ensures ApplyProducer(s, e).admin == s.admin
  {
  }

  lemma LifecycleCancelling(s: State, e: LifecycleStep, p: Provider, q: QueueId)
    requires LifecycleEnabled(s, e) && !IsCancelling(s, p, q) && IsCancelling(ApplyLifecycle(s, e), p, q)
    ensures e == HandoffFull(p) && Leaving(s, p, q)
  {
    if FlagsQueue(e) || Receives(e) || AddsQueue(e) { QueueStepsDontCancel(s, e, p, q); }
  }

  lemma QueueStepsDontCancel(s: State, e: LifecycleStep, p: Provider, q: QueueId)
    requires LifecycleEnabled(s, e) && !IsCancelling(s, p, q) && (FlagsQueue(e) || Receives(e) || AddsQueue(e))
    ensures !IsCancelling(ApplyLifecycle(s, e), p, q)
  {
  }

  /** A handoff cancels only after it found the new queue full with a message in its hands. */
  lemma {:induction false} CancelsOnlyWhenFull(run: seq<State>, steps: seq<Step>, j: nat, p: Provider, q: QueueId) returns (i: nat)
    requires IsRun(run, steps) && run[0] == EmptyState && j < |run| && IsCancelling(run[j], p, q)
    ensures i < j && steps[i] == ByLifecycle(HandoffFull(p)) && Leaving(run[i], p, q) && Handoff(p) in run[i].hold
    ensures var next := run[i].admin[p].next;
            next in run[i].queues && |run[i].queues[next].items| >= run[i].queues[next].cap
  {
    StartsWell();
    RunKeeps(run, steps, j - 1);
    if IsCancelling(run[j - 1], p, q) {
      i := CancelsOnlyWhenFull(run, steps, j - 1, p, q);
    } else {
      i := j - 1;
      CancellingOnlyByFull(run[i], steps[i], p, q);
    }
  }

  // ---- updates and removals ----

  /** An update begins at an unlocked provider: a new empty queue takes over the route, and the old one stays open. */
  lemma UpdateBegins(s: State, p: Provider, q: QueueId, cap: nat)
    requires Reachable(s)
    ensures Enabled(s, ByLifecycle(UpdateBegin(p, q, cap))) <==> p in s.route && p !in s.admin && q !in s.queues
    ensures p in s.route && Enabled(s, ByLifecycle(UpdateBegin(p, q, cap))) ==>
              var t := ApplyLifecycle(s, UpdateBegin(p, q, cap));
              && p in t.route && t.route[p] == q && p in t.admin && t.admin[p] == Updating(s.route[p], q, Starting)
              && q in t.queues && t.queues[q].prov == p && t.queues[q].cap == cap && t.queues[q].items == [] && !t.queues[q].closing
              && s.route[p] in t.queues && !t.queues[s.route[p]].closing && t.queues[s.route[p]].items == s.queues[s.route[p]].items
  {
    ReachableInv(s);
    if p in s.route { assert RouteOk(s, p); }
  }

  /** A removal begins at an unlocked provider and signals its queue; new calls are refused from then on. */
  lemma RemovalBegins(s: State, p: Provider, r: ReqId, stream: bool)
    requires Reachable(s)
    ensures Enabled(s, ByLifecycle(RemoveBegin(p))) <==> p in s.route && p !in s.admin
    ensures p in s.route && Enabled(s, ByLifecycle(RemoveBegin(p))) ==>
              var t, q := ApplyLifecycle(s, RemoveBegin(p)), s.route[p];
              && q in t.queues && t.queues[q].closing && t.queues[q].sweep == AwaitWorkers && t.queues[q].items == s.queues[q].items
              && !Enabled(t, ByProducer(Start(r, p, stream)))
  {
    ReachableInv(s);
    if p in s.route { assert RouteOk(s, p); }
  }

  /** A retirement is counted before the old queue is signalled, and the count falls only when that queue was swept. */
  lemma RetirementMoves(s: State, p: Provider, q: QueueId)
    requires Reachable(s)
    ensures Enabled(s, ByLifecycle(SignalOld(p))) ==>
              p in s.admin && s.admin[p].Updating? && s.admin[p].prev in s.cleaning && RetiredCount(s, p) > 0
    ensures Enabled(s, ByLifecycle(CleanupDone(q))) ==> q in s.queues && s.queues[q].sweep == Swept && LiveOn(s.live, q) == {}
    ensures p in s.admin && s.admin[p].Removing? && !s.admin[p].waited ==>
              (Enabled(s, ByLifecycle(RemoveLastWait(p))) <==>
                 s.admin[p].q in s.queues && s.queues[s.admin[p].q].sweep == Swept && RetiredCount(s, p) == 0)
  {
    ReachableInv(s);
    assert RetiredOk(s, p);
    if p in s.admin {
      assert AdminOk(s, p);
      if s.admin[p].Updating? && s.admin[p].phase == Registered { assert s.admin[p].prev in CleaningOf(s, p); }
    }
    if q in s.queues {
      forall w | w in LiveOn(s.live, q) ensures s.queues[q].sweep != Swept { assert WorkerOk(s, w); }
    }
  }

  /** A provider is prepared when it has no queue yet: its new queue is published empty and open, under its lock. */
  lemma PublishMoves(s: State, p: Provider, q: QueueId, cap: nat)
    ensures Enabled(s, ByLifecycle(Publish(p, q, cap))) <==> p !in s.route && p !in s.admin && q !in s.queues
    ensures Enabled(s, ByLifecycle(Publish(p, q, cap))) ==>
              var t := ApplyLifecycle(s, Publish(p, q, cap));
              && p in t.route && t.route[p] == q && p in t.admin && t.admin[p] == Preparing(q)
              && q in t.queues && t.queues[q].prov == p && t.queues[q].cap == cap && t.queues[q].items == [] && !t.queues[q].closing
  {
  }

  /** Workers start on the queue being prepared, or on the replacement before its transfer begins. */
  lemma StartWorkerMoves(s: State, p: Provider, w: WorkerId)
    requires Reachable(s) && p in s.admin && !s.admin[p].Removing?
    ensures Enabled(s, ByLifecycle(StartWorker(p, w))) <==> w !in s.live && (s.admin[p].Preparing? || s.admin[p].phase == Starting)
    ensures var q := if s.admin[p].Preparing? then s.admin[p].q else s.admin[p].next;
            Enabled(s, ByLifecycle(StartWorker(p, w))) ==>
              var t := ApplyLifecycle(s, StartWorker(p, w));
              && w in t.live && t.live[w] == WorkerRec(q, false) && q in t.queues
              && q in s.queues && t.queues[q].items == s.queues[q].items && !t.queues[q].closing
  {
    ReachableInv(s);
    assert AdminOk(s, p);
  }

  /** A caller's context may be done at any time; that alone changes nothing else. */
  lemma ContextMayEnd(s: State, r: ReqId)
    requires r in s.reqs
    ensures Enabled(s, ByProducer(CancelContext(r))) && ApplyProducer(s, CancelContext(r)) == s.(done := s.done + {r})
  {
  }
}
