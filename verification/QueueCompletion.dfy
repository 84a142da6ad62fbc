/**
 No lifecycle operation can deadlock: from every reachable state in which a provider is being
 updated or removed, some run ends the operation and gives its lock back.
 */
module QueueCompletion {
  import opened ProviderQueues
  import opened QueueInvariants
  import opened QueueLifecycle
  import opened QueueSafety
  import opened QueueTheorems
  import opened QueueSweep
  import opened QueueProgress

  lemma Next(s: State, t: State, e: Step, u: State)
    requires Inv(t) && Leads(s, t) && Enabled(t, e) && u == Apply(t, e)
    ensures Inv(u) && Leads(s, u)
  {
    QueueSafety.StepKeeps(t, e);
    LeadsOn(s, t, e, u);
  }

  /** Whoever holds a message, except a handoff that is still moving, can answer it. */
  lemma CanAnswer(s: State, t: Taker) returns (ch: Chan)
    requires Inv(s) && t in s.hold
    requires t.Handoff? ==> t.p in s.admin && s.admin[t.p].Updating? && s.admin[t.p].phase == Cancelling
    ensures Enabled(s, ByTaker(Answer(t, ch)))
  {
    assert HoldOk(s, t) && MsgOk(s, s.hold[t].msg);
    ch := s.msgs[s.hold[t].msg].err;
    assert ch in Chans(s.msgs[s.hold[t].msg]);
  }

  // ---- updates ----

  predicate InUpdate(s: State, p: Provider, prev: QueueId, next: QueueId, phase: Phase) {
    p in s.admin && s.admin[p] == Updating(prev, next, phase)
  }

  predicate Handing(s: State, p: Provider, prev: QueueId, next: QueueId) {
    InUpdate(s, p, prev, next, Transferring) || InUpdate(s, p, prev, next, Cancelling)
  }

  /** The handoff gets rid of the message in its hands, by moving or by cancelling it. */
  lemma EmptyHands(s: State, p: Provider, prev: QueueId, next: QueueId) returns (u: State)
    requires Inv(s) && Handing(s, p, prev, next) && Handoff(p) in s.hold
    ensures Leads(s, u) && Inv(u) && Handing(u, p, prev, next) && Handoff(p) !in u.hold
    ensures prev in s.queues && prev in u.queues && u.queues[prev].items == s.queues[prev].items
  {
    assert AdminOk(s, p);
    LeadsToItself(s);
    if s.admin[p].phase == Cancelling {
      u := CancelOne(s, s, p, prev, next);
    } else if |s.queues[next].items| < s.queues[next].cap {
      u := MoveOne(s, p, prev, next);
    } else {
      var t := StartsCancelling(s, p, prev, next);
      u := CancelOne(s, t, p, prev, next);
    }
  }

  lemma MoveOne(s: State, p: Provider, prev: QueueId, next: QueueId) returns (u: State)
    requires Inv(s) && InUpdate(s, p, prev, next, Transferring) && Handoff(p) in s.hold
    requires AdminOk(s, p) && |s.queues[next].items| < s.queues[next].cap
    ensures Leads(s, u) && Inv(u) && Handing(u, p, prev, next) && Handoff(p) !in u.hold
    ensures prev in u.queues && u.queues[prev].items == s.queues[prev].items
  {
    LeadsToItself(s);
    u := DoMove(s, p, prev, next);
    Next(s, s, ByLifecycle(HandoffMove(p)), u);
  }

  lemma StartsCancelling(s: State, p: Provider, prev: QueueId, next: QueueId) returns (u: State)
    requires Inv(s) && InUpdate(s, p, prev, next, Transferring) && Handoff(p) in s.hold
    requires AdminOk(s, p) && |s.queues[next].items| >= s.queues[next].cap
    ensures Leads(s, u) && Inv(u) && InUpdate(u, p, prev, next, Cancelling) && Handoff(p) in u.hold && u.queues == s.queues
  {
    LeadsToItself(s);
    u := SetPhase(s, p, Cancelling);
    Next(s, s, ByLifecycle(HandoffFull(p)), u);
  }

  lemma CancelOne(s: State, t: State, p: Provider, prev: QueueId, next: QueueId) returns (u: State)
    requires Leads(s, t) && Inv(t) && InUpdate(t, p, prev, next, Cancelling) && Handoff(p) in t.hold && prev in t.queues
    ensures Leads(s, u) && Inv(u) && Handing(u, p, prev, next) && Handoff(p) !in u.hold
    ensures prev in u.queues && u.queues[prev].items == t.queues[prev].items
  {
    var ch := CanAnswer(t, Handoff(p));
    u := DoAnswer(t, Handoff(p), ch);
    Next(s, t, ByTaker(Answer(Handoff(p), ch)), u);
  }

  lemma TakesNext(s: State, t: State, p: Provider, prev: QueueId, next: QueueId) returns (u: State)
    requires Leads(s, t) && Inv(t) && Handing(t, p, prev, next) && Handoff(p) !in t.hold && prev in t.queues && t.queues[prev].items != []
    ensures Leads(s, u) && Inv(u) && Handing(u, p, prev, next) && prev in u.queues && u.queues[prev].items == t.queues[prev].items[1..]
  {
    assert QueueOk(t, prev);
    u := Take(t, prev, Handoff(p));
    Next(s, t, ByLifecycle(HandoffTake(p)), u);
  }

  lemma FindsNothing(s: State, t: State, p: Provider, prev: QueueId, next: QueueId) returns (u: State)
    requires Leads(s, t) && Inv(t) && Handing(t, p, prev, next) && Handoff(p) !in t.hold && prev in t.queues && t.queues[prev].items == []
    ensures Leads(s, u) && Inv(u) && InUpdate(u, p, prev, next, TransferDone)
  {
    u := DoneStep(t, p, prev, next);
    Next(s, t, ByLifecycle(HandoffDone(p)), u);
  }

  lemma DoneEnabled(t: State, p: Provider, prev: QueueId, next: QueueId)
    requires Handing(t, p, prev, next) && Handoff(p) !in t.hold && prev in t.queues && t.queues[prev].items == []
    ensures LifecycleEnabled(t, HandoffDone(p))
  {
  }

  lemma DoneEffect(t: State, p: Provider)
    requires LifecycleEnabled(t, HandoffDone(p))
    ensures ApplyLifecycle(t, HandoffDone(p)) == t.(admin := t.admin[p := t.admin[p].(phase := TransferDone)])
  {
  }

  lemma DoneStep(t: State, p: Provider, prev: QueueId, next: QueueId) returns (u: State)
    requires Handing(t, p, prev, next) && Handoff(p) !in t.hold && prev in t.queues && t.queues[prev].items == []
    ensures Enabled(t, ByLifecycle(HandoffDone(p))) && u == Apply(t, ByLifecycle(HandoffDone(p)))
    ensures InUpdate(u, p, prev, next, TransferDone)
  {
    DoneEnabled(t, p, prev, next);
    DoneEffect(t, p);
    u := ApplyLifecycle(t, HandoffDone(p));
  }

  /** The handoff empties the old queue. */
  lemma {:induction false} HandOver(s: State, p: Provider, prev: QueueId, next: QueueId) returns (u: State)
    requires Inv(s) && Handing(s, p, prev, next) && prev in s.queues
    ensures Leads(s, u) && Inv(u) && InUpdate(u, p, prev, next, TransferDone)
    decreases |s.queues[prev].items|
  {
    LeadsToItself(s);
    var t := s;
    if Handoff(p) in s.hold {
      t := EmptyHands(s, p, prev, next);
    }
    if t.queues[prev].items == [] {
      u := FindsNothing(s, t, p, prev, next);
    } else {
      var t1 := TakesNext(s, t, p, prev, next);
      u := HandOver(t1, p, prev, next);
      LeadsThrough(s, t1, u);
    }
  }

  lemma Registers(s: State, t: State, p: Provider, prev: QueueId, next: QueueId) returns (u: State)
    requires Leads(s, t) && Inv(t) && InUpdate(t, p, prev, next, TransferDone)
    ensures Leads(s, u) && Inv(u) && InUpdate(u, p, prev, next, Registered)
  {
    u := DoRegister(t, p);
    Next(s, t, ByLifecycle(Register(p)), u);
  }

  lemma Signals(s: State, t: State, p: Provider, prev: QueueId, next: QueueId) returns (u: State)
    requires Leads(s, t) && Inv(t) && InUpdate(t, p, prev, next, Registered)
    ensures Leads(s, u) && Inv(u) && InUpdate(u, p, prev, next, Signalled)
  {
    assert AdminOk(t, p);
    u := DoSignalOld(t, p);
    Next(s, t, ByLifecycle(SignalOld(p)), u);
  }

  lemma Spawns(s: State, t: State, p: Provider, prev: QueueId, next: QueueId) returns (u: State)
    requires Leads(s, t) && Inv(t) && InUpdate(t, p, prev, next, Signalled)
    ensures Leads(s, u) && Inv(u) && p !in u.admin && p in u.route && u.route[p] == next
    ensures prev in u.queues && u.queues[prev].closing && u.queues[prev].sweep == AwaitWorkers
  {
    assert AdminOk(t, p);
    u := Unlock(SetSweep(t, prev, AwaitWorkers), p);
    Next(s, t, ByLifecycle(SpawnCleanup(p)), u);
  }

  lemma AfterTransfer(s: State, t: State, p: Provider, prev: QueueId, next: QueueId) returns (u: State)
    requires Leads(s, t) && Inv(t)
    requires InUpdate(t, p, prev, next, TransferDone) || InUpdate(t, p, prev, next, Registered) || InUpdate(t, p, prev, next, Signalled)
    ensures Leads(s, u) && Inv(u) && p !in u.admin && p in u.route && u.route[p] == next
    ensures prev in u.queues && u.queues[prev].closing && u.queues[prev].sweep == AwaitWorkers
  {
    u := t;
    if InUpdate(u, p, prev, next, TransferDone) {
      u := Registers(s, u, p, prev, next);
    }
    if InUpdate(u, p, prev, next, Registered) {
      u := Signals(s, u, p, prev, next);
    }
    u := Spawns(s, u, p, prev, next);
  }

  /** An update can always finish: the new queue stays in place, and the old one is closing with its cleanup on the way. */
  lemma UpdateCanFinish(s: State, p: Provider) returns (u: State)
    requires Reachable(s) && p in s.admin && s.admin[p].Updating?
    ensures Leads(s, u) && p !in u.admin && p in u.route && u.route[p] == s.admin[p].next
    ensures s.admin[p].prev in u.queues && u.queues[s.admin[p].prev].closing && u.queues[s.admin[p].prev].sweep == AwaitWorkers
  {
    ReachableInv(s);
    LeadsToItself(s);
    assert AdminOk(s, p);
    var prev, next := s.admin[p].prev, s.admin[p].next;
    var t := s;
    if t.admin[p].phase == Starting {
      t := SetPhase(s, p, Transferring);
      Next(s, s, ByLifecycle(BeginTransfer(p)), t);
    }
    if t.admin[p].phase == Transferring || t.admin[p].phase == Cancelling {
      var v := HandOver(t, p, prev, next);
      LeadsThrough(s, t, v);
      t := v;
    }
    u := AfterTransfer(s, t, p, prev, next);
  }
}
