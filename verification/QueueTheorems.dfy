/** What the provider queue lifecycle guarantees, over every reachable state and every run. */
module QueueTheorems {
  import opened ProviderQueues
  import opened QueueInvariants
  import opened QueueSafety

  // ---- one place, one answer ----

  /** Where a message can be observed, without the auxiliary `place`. */
  datatype Location = WithProducer(r: ReqId) | AtIndex(q: QueueId, i: nat) | WithTaker(t: Taker) | HasAnswer

  ghost predicate IsAt(s: State, m: MsgId, l: Location)
    requires m in s.msgs
  {
    match l
    case WithProducer(r) => r in s.reqs && s.reqs[r].msg == m && Unsent(s.reqs[r].pc)
    case AtIndex(q, i) => q in s.queues && i < |s.queues[q].items| && s.queues[q].items[i] == m
    case WithTaker(t) => t in s.hold && s.hold[t].msg == m
    case HasAnswer => s.msgs[m].req in s.answers && s.answers[s.msgs[m].req] >= 1
  }

  lemma PlaceDecides(s: State, m: MsgId, l: Location)
    requires Inv(s) && m in s.msgs && IsAt(s, m, l)
    ensures m in s.place
    ensures match l {
              case WithProducer(r) => s.place[m] == AtProducer && r == s.msgs[m].req
              case AtIndex(q, i) => s.place[m] == InQueue(q)
              case WithTaker(t) => s.place[m] == Held(t)
              case HasAnswer => s.place[m].Answered?
            }
  {
    assert MsgOk(s, m);
    match l
    case WithProducer(r) => assert ReqOk(s, r);
    case AtIndex(q, i) => assert QueueOk(s, q);
    case WithTaker(t) => assert HoldOk(s, t);
    case HasAnswer =>
  }

  /**
   In every reachable state an unreleased message is in at most one place, and in exactly
   one unless a taker dropped it because its caller's context was done.
   */
  lemma MessageInOnePlace(s: State, m: MsgId)
    requires Reachable(s) && m in s.msgs
    ensures forall l, l' :: IsAt(s, m, l) && IsAt(s, m, l') ==> l == l'
    ensures (exists l :: IsAt(s, m, l)) || s.msgs[m].req in s.done
  {
    ReachableInv(s);
    forall l, l' | IsAt(s, m, l) && IsAt(s, m, l') ensures l == l' {
      PlaceDecides(s, m, l);
      PlaceDecides(s, m, l');
      if l.AtIndex? { assert QueueOk(s, l.q); }
    }
    assert MsgOk(s, m);
    var r := s.msgs[m].req;
    match s.place[m]
    case AtProducer => assert IsAt(s, m, WithProducer(r));
    case InQueue(q) =>
      var i :| 0 <= i < |s.queues[q].items| && s.queues[q].items[i] == m;
      assert IsAt(s, m, AtIndex(q, i));
    case Held(t) => assert IsAt(s, m, WithTaker(t));
    case Answered(_) => assert IsAt(s, m, HasAnswer);
    case Dropped =>
  }

  /** A request is answered at most once, its post-hooks run at most once, and what it receives is its own. */
  lemma AnsweredAtMostOnce(s: State, r: ReqId)
    requires Reachable(s) && r in s.reqs
    ensures r in s.answers && s.answers[r] <= 1
    ensures r in s.hooks && s.hooks[r] <= 1
    ensures s.reqs[r].pc.Received? ==> s.reqs[r].pc.answerFor == r
  {
    ReachableInv(s);
    assert ReqOk(s, r);
  }

  // ---- answer channels ----

  /** A taker's answer always finds an empty channel that is nobody else's and in no pool. */
  lemma AnswerNeverBlocks(s: State, t: Taker)
    requires Reachable(s) && t in s.hold
    ensures s.hold[t].msg in s.msgs
    ensures forall c :: c in Chans(s.msgs[s.hold[t].msg]) ==> c !in s.buf && c !in s.chanPool
  {
    ReachableInv(s);
    assert HoldOk(s, t) && MsgOk(s, s.hold[t].msg);
  }

  /** No two unreleased messages share a channel, and a pooled channel is empty. */
  lemma ChannelsNeverShared(s: State, m: MsgId, n: MsgId)
    requires Reachable(s) && m in s.msgs && n in s.msgs && m != n
    ensures Chans(s.msgs[m]) !! Chans(s.msgs[n])
    ensures s.chanPool !! s.buf.Keys
  {
    ReachableInv(s);
    assert Apart(s.msgs[m], s.msgs[n]);
  }

  // ---- the window and the sweep ----

  lemma ProducerWindow(s: State, e: ProducerStep, q: QueueId)
    requires ProducerEnabled(s, e) && q in s.queues && s.queues[q].closing
    ensures q in ApplyProducer(s, e).queues && ApplyProducer(s, e).queues[q].closing
    ensures Window(ApplyProducer(s, e), q) <= Window(s, q) && Senders(ApplyProducer(s, e), q) <= Senders(s, q)
  {
    var s' := ApplyProducer(s, e);
    forall r | r in Window(s', q) ensures r in Window(s, q) {}
    forall r | r in Senders(s', q) ensures r in Senders(s, q) {}
  }

  /** Requests and the capacity stay as they are, and a closing queue stays closing. */
  ghost predicate KeepsClosing(s: State, s': State, q: QueueId)
    requires q in s.queues
  {
    && s'.reqs == s.reqs && q in s'.queues && s'.queues[q].cap == s.queues[q].cap
    && (s.queues[q].closing ==> s'.queues[q].closing)
  }

  lemma AnswerWindow(s: State, t: Taker, ch: Chan, q: QueueId)
    requires TakerEnabled(s, Answer(t, ch)) && q in s.queues
    ensures KeepsClosing(s, DoAnswer(s, t, ch), q)
  {
  }

  lemma AbandonWindow(s: State, t: Taker, billed: bool, q: QueueId)
    requires TakerEnabled(s, Abandon(t, billed)) && q in s.queues
    ensures KeepsClosing(s, ApplyTaker(s, Abandon(t, billed)), q)
  {
  }

  lemma TakerWindow(s: State, e: TakerStep, q: QueueId)
    requires TakerEnabled(s, e) && q in s.queues
    ensures KeepsClosing(s, ApplyTaker(s, e), q)
  {
    if e.Answer? { AnswerWindow(s, e.t, e.ch, q); } else if e.Abandon? { AbandonWindow(s, e.t, e.billed, q); }
  }

  lemma AddsWindow(s: State, e: LifecycleStep, q: QueueId)
    requires LifecycleEnabled(s, e) && q in s.queues && AddsQueue(e)
    ensures KeepsClosing(s, ApplyLifecycle(s, e), q)
  {
  }

  lemma FlagsWindow(s: State, e: LifecycleStep, q: QueueId)
    requires LifecycleEnabled(s, e) && q in s.queues && FlagsQueue(e)
    ensures KeepsClosing(s, ApplyLifecycle(s, e), q)
  {
  }

  lemma ReceivesWindow(s: State, e: LifecycleStep, q: QueueId)
    requires LifecycleEnabled(s, e) && q in s.queues && Receives(e)
    ensures KeepsClosing(s, ApplyLifecycle(s, e), q)
  {
  }

  lemma LifecycleWindow(s: State, e: LifecycleStep, q: QueueId)
    requires LifecycleEnabled(s, e) && q in s.queues
    ensures KeepsClosing(s, ApplyLifecycle(s, e), q)
  {
    if AddsQueue(e) {
      AddsWindow(s, e, q);
    } else if FlagsQueue(e) {
      FlagsWindow(s, e, q);
    } else if Receives(e) {
      ReceivesWindow(s, e, q);
    } else {
      LocksShape(s, e);
    }
  }

  lemma OthersWindow(s: State, e: Step, q: QueueId)
    requires Enabled(s, e) && !e.ByProducer? && q in s.queues
    ensures KeepsClosing(s, Apply(s, e), q)
  {
    if e.ByTaker? { TakerWindow(s, e.te, q); } else { LifecycleWindow(s, e.le, q); }
  }

  /** Once a queue is closing, no producer enters its window, and none becomes able to send to it. */
  lemma WindowShrinks(s: State, e: Step, q: QueueId)
    requires Enabled(s, e) && q in s.queues && s.queues[q].closing
    ensures q in Apply(s, e).queues && Apply(s, e).queues[q].closing
    ensures Window(Apply(s, e), q) <= Window(s, q) && Senders(Apply(s, e), q) <= Senders(s, q)
  {
    if e.ByProducer? { ProducerWindow(s, e.pe, q); } else { OthersWindow(s, e, q); }
  }

  lemma WindowInRun(run: seq<State>, steps: seq<Step>, j: nat, q: QueueId)
    requires IsRun(run, steps) && j < |steps| && q in run[j].queues && run[j].queues[q].closing
    ensures q in run[j + 1].queues && run[j + 1].queues[q].closing
    ensures Window(run[j + 1], q) <= Window(run[j], q) && Senders(run[j + 1], q) <= Senders(run[j], q)
  {
    WindowShrinks(run[j], steps[j], q);
  }

  /**
   Over any run: from the moment `q` is signalled closing, its window never grows, and
   neither does the set of producers that can still send to it.
   */
  lemma {:induction false} WindowNeverGrows(run: seq<State>, steps: seq<Step>, i: nat, j: nat, q: QueueId)
    requires IsRun(run, steps) && i <= j < |run| && q in run[i].queues && run[i].queues[q].closing
    ensures q in run[j].queues && run[j].queues[q].closing
    ensures Window(run[j], q) <= Window(run[i], q) && Senders(run[j], q) <= Senders(run[i], q)
  {
    if i < j {
      WindowNeverGrows(run, steps, i, j - 1, q);
      WindowInRun(run, steps, j - 1, q);
    }
  }

  /** What can still happen to a queue whose sweep is over. */
  ghost predicate OnlyLateSends(s: State, s': State, q: QueueId)
    requires q in s.queues
  {
    && q in s'.queues && s'.queues[q].sweep == Swept && s'.queues[q].out == s.queues[q].out
    && (|| (s'.queues[q].items == s.queues[q].items && s'.queues[q].sent == s.queues[q].sent)
        || (exists r, m ::
              && r in Senders(s, q) && r !in Senders(s', q)
              && s'.queues[q].items == s.queues[q].items + [m] && s'.queues[q].sent == s.queues[q].sent + [r]))
  }

  lemma SweptProducer(s: State, e: ProducerStep, q: QueueId)
    requires ProducerEnabled(s, e) && q in s.queues && s.queues[q].sweep == Swept
    ensures OnlyLateSends(s, ApplyProducer(s, e), q)
  {
    var s' := ApplyProducer(s, e);
    if e.Send? {
      SweptSend(s, e.r, q);
    } else {
      assert s'.queues == s.queues;
    }
  }

  lemma SweptSend(s: State, r: ReqId, q: QueueId)
    requires ProducerEnabled(s, Send(r)) && q in s.queues && s.queues[q].sweep == Swept
    ensures OnlyLateSends(s, ApplyProducer(s, Send(r)), q)
  {
    var s' := ApplyProducer(s, Send(r));
    if s.reqs[r].pc.q == q {
      assert r in Senders(s, q) && r !in Senders(s', q);
      assert s'.queues[q].items == s.queues[q].items + [s.reqs[r].msg] && s'.queues[q].sent == s.queues[q].sent + [r];
    }
  }

  lemma SweptTaker(s: State, e: TakerStep, q: QueueId)
    requires WorkerInv(s) && TakerEnabled(s, e) && q in s.queues && s.queues[q].sweep == Swept
    ensures OnlyLateSends(s, ApplyTaker(s, e), q)
  {
    if e.WorkerTake? || e.WorkerExit? { assert WorkerOk(s, e.w); }
  }

  lemma SweptLifecycle(s: State, e: LifecycleStep, q: QueueId)
    requires LockInv(s) && WorkerInv(s) && LifecycleEnabled(s, e) && q in s.queues && s.queues[q].sweep == Swept
    ensures OnlyLateSends(s, ApplyLifecycle(s, e), q)
  {
    assert WaitGroupOk(s, q);
    if Receives(e) {
      SweptReceives(s, e, q);
    } else if AddsQueue(e) {
      SweptAdds(s, e, q);
    } else if FlagsQueue(e) {
      SweptFlags(s, e, q);
    } else {
      LocksShape(s, e);
    }
  }

  lemma SweptReceives(s: State, e: LifecycleStep, q: QueueId)
    requires LockInv(s) && WorkerInv(s) && LifecycleEnabled(s, e) && q in s.queues && s.queues[q].sweep == Swept && Receives(e)
    ensures OnlyLateSends(s, ApplyLifecycle(s, e), q)
  {
    assert WaitGroupOk(s, q);
    if e.HandoffTake? || e.HandoffMove? { assert AdminOk(s, e.p); }
  }

  lemma SweptAdds(s: State, e: LifecycleStep, q: QueueId)
    requires LifecycleEnabled(s, e) && q in s.queues && s.queues[q].sweep == Swept && AddsQueue(e)
    ensures OnlyLateSends(s, ApplyLifecycle(s, e), q)
  {
  }

  lemma SweptFlags(s: State, e: LifecycleStep, q: QueueId)
    requires LockInv(s) && WorkerInv(s) && LifecycleEnabled(s, e) && q in s.queues && s.queues[q].sweep == Swept && FlagsQueue(e)
    ensures OnlyLateSends(s, ApplyLifecycle(s, e), q)
  {
    if e.SpawnCleanup? || e.StartWorker? || e.SignalOld? { assert AdminOk(s, e.p); }
    if e.RemoveBegin? { assert RouteOk(s, e.p); }
    assert WaitGroupOk(s, q);
  }

  lemma SweptStep(s: State, e: Step, q: QueueId)
    requires Inv(s) && Enabled(s, e) && q in s.queues && s.queues[q].sweep == Swept
    ensures OnlyLateSends(s, Apply(s, e), q)
  {
    match e
    case ByProducer(pe) => SweptProducer(s, pe, q);
    case ByTaker(te) => SweptTaker(s, te, q);
    case ByLifecycle(le) => SweptLifecycle(s, le, q);
  }

  ghost predicate SweptSince(a: State, b: State, q: QueueId)
    requires q in a.queues
  {
    && q in b.queues && b.queues[q].sweep == Swept && b.queues[q].out == a.queues[q].out
    && a.queues[q].items <= b.queues[q].items && a.queues[q].sent <= b.queues[q].sent
    && (forall k :: |a.queues[q].sent| <= k < |b.queues[q].sent| ==> b.queues[q].sent[k] in Senders(a, q))
    && Senders(b, q) <= Senders(a, q)
    && |b.queues[q].items| + |Senders(b, q)| <= |a.queues[q].items| + |Senders(a, q)|
  }

  /**
   After the sweep of `q`, over any run: nothing is ever taken out again, what was there
   stays, and only producers that could still send when the sweep ended can add to it,
   each at most once.
   */
  lemma {:induction false} AfterSweep(run: seq<State>, steps: seq<Step>, i: nat, j: nat, q: QueueId)
    requires IsRun(run, steps) && Inv(run[0]) && i <= j < |run| && q in run[i].queues && run[i].queues[q].sweep == Swept
    ensures SweptSince(run[i], run[j], q)
  {
    RunKeeps(run, steps, i);
    if i < j {
      AfterSweep(run, steps, i, j - 1, q);
      RunKeeps(run, steps, j - 1);
      SweptMove(run[i], run[j - 1], steps[j - 1], q);
    }
  }

  lemma SweptMove(a: State, s: State, e: Step, q: QueueId)
    requires q in a.queues && SweptSince(a, s, q) && Inv(s) && Enabled(s, e)
    ensures SweptSince(a, Apply(s, e), q)
  {
    assert WaitGroupOk(s, q);
    SweptStep(s, e, q);
    WindowShrinks(s, e, q);
    AfterSweepStep(a, s, Apply(s, e), q);
  }

  lemma AfterSweepStep(a: State, s: State, s': State, q: QueueId)
    requires q in a.queues && SweptSince(a, s, q) && OnlyLateSends(s, s', q) && Senders(s', q) <= Senders(s, q)
    ensures SweptSince(a, s', q)
  {
    FewerSenders(s, s', q);
  }

  lemma FewerSenders(s: State, s': State, q: QueueId)
    requires q in s.queues && OnlyLateSends(s, s', q) && Senders(s', q) <= Senders(s, q)
    ensures |s'.queues[q].items| + |Senders(s', q)| <= |s.queues[q].items| + |Senders(s, q)|
  {
    if s'.queues[q].items == s.queues[q].items {
      Fewer(Senders(s', q), Senders(s, q));
    } else {
      var r, m :| r in Senders(s, q) && r !in Senders(s', q) && s'.queues[q].items == s.queues[q].items + [m];
      Fewer(Senders(s', q), Senders(s, q) - {r});
    }
  }

  lemma Fewer(a: set<ReqId>, b: set<ReqId>)
    requires a <= b
    ensures |a| <= |b|
  {
    assert b == a + (b - a);
  }

  /**
   If no producer can still send when the sweep of `q` ends, `q` is empty ever after and every
   message that ever entered it was taken out, in the order it entered.
   */
  lemma SweptQueueStaysEmpty(run: seq<State>, steps: seq<Step>, i: nat, j: nat, q: QueueId)
    requires IsRun(run, steps) && Inv(run[0]) && i < j < |run|
    requires steps[i] == ByLifecycle(SweepEnd(q)) && Senders(run[i], q) == {}
    ensures q in run[j].queues && run[j].queues[q].items == []
    ensures run[j].queues[q].out == run[j].queues[q].sent == run[i].queues[q].sent
  {
    OthersWindow(run[i], steps[i], q);
    assert Senders(run[i + 1], q) == Senders(run[i], q);
    AfterSweep(run, steps, i + 1, j, q);
    RunKeeps(run, steps, j);
    assert FifoOk(run[j], q);
    RunKeeps(run, steps, i + 1);
    assert FifoOk(run[i + 1], q);
  }

  /**
   A message sent to a swept queue is never taken by anyone.
   */
  lemma LateSendIsStranded(run: seq<State>, steps: seq<Step>, i: nat, j: nat, q: QueueId, r: ReqId)
    requires IsRun(run, steps) && Inv(run[0]) && i < j < |run| && q in run[i].queues && run[i].queues[q].sweep == Swept
    requires r in Senders(run[i], q) && steps[i] == ByProducer(Send(r))
    ensures q in run[j].queues && run[i].reqs[r].msg in run[j].queues[q].items
    ensures run[j].queues[q].out == run[i].queues[q].out
  {
    SweptProducer(run[i], Send(r), q);
    AfterSweep(run, steps, i + 1, j, q);
    var a, b := run[i + 1].queues[q], run[j].queues[q];
    assert a.items[|a.items| - 1] == run[i].reqs[r].msg && b.items[|a.items| - 1] == a.items[|a.items| - 1];
  }

  // ---- handoff ----

  /**
   Every message the handoff took from `q` was moved or cancelled, never both or neither
   (the last may still be in its hands). They are taken in queue order, the moved ones
   enter the new queue in that order, and all moved ones precede all cancelled ones.
   */
  lemma HandoffPartitions(s: State, q: QueueId)
    requires Reachable(s) && q in s.queues
    ensures s.queues[q].taken == s.queues[q].moved + s.queues[q].cancelled + InHand(s, q)
    ensures Subseq(s.queues[q].taken, s.queues[q].out) && s.queues[q].out <= s.queues[q].sent
    ensures !Leaving(s, s.queues[q].prov, q) ==> s.queues[q].taken == s.queues[q].moved + s.queues[q].cancelled
    ensures s.queues[q].moved != [] ==>
              && s.queues[q].heir.Some? && s.queues[q].heir.value in s.queues
              && Subseq(s.queues[q].moved, s.queues[s.queues[q].heir.value].sent)
  {
    ReachableInv(s);
    assert HandoffOk(s, q) && FifoOk(s, q);
  }

  // ---- removal ----

  /**
   When RemoveProvider has passed its last wait, and for as long as the provider stays
   removed, no worker of any generation ever started for it is running.
   */
  lemma RemovalWaitsForEveryGeneration(s: State, p: Provider, w: WorkerId)
    requires Reachable(s) && w in s.live
    requires p !in s.route || (p in s.admin && s.admin[p].Removing? && s.admin[p].waited)
    ensures s.live[w].q in s.queues && s.queues[s.live[w].q].prov != p
  {
    ReachableInv(s);
    assert WorkerOk(s, w) && RetiredOk(s, p);
    if p in s.admin { assert AdminOk(s, p); }
    assert CleaningOf(s, p) == {};
    assert s.live[w].q !in CleaningOf(s, p);
  }
}
