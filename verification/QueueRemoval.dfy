/**
 Removing a provider can always finish: its workers can leave, its queue and every queue it
 replaced can be swept, and then nothing keeps RemoveProvider waiting.
 */
module QueueRemoval {
  import opened ProviderQueues
  import opened QueueInvariants
  import opened QueueLifecycle
  import opened QueueSafety
  import opened QueueTheorems
  import opened QueueSweep
  import opened QueueProgress
  import opened QueueCompletion

  /** Locks, routes and counts are the same, and so are all queues' flags, except the sweep of `q`. */
  ghost predicate Quiet(s: State, t: State, q: QueueId) {
    && t.admin == s.admin && t.route == s.route && t.retired == s.retired && t.cleaning == s.cleaning
    && t.queues.Keys == s.queues.Keys
    && forall o :: o in s.queues ==>
         && t.queues[o].prov == s.queues[o].prov && t.queues[o].closing == s.queues[o].closing
         && (o != q ==> t.queues[o].sweep == s.queues[o].sweep)
  }

  /** A run leads quietly from `s` to `t`, where `q` is closing and at the given stage of its sweep. */
  ghost predicate Gets(s: State, t: State, q: QueueId, sweep: Sweep) {
    Leads(s, t) && Inv(t) && Quiet(s, t, q) && q in t.queues && t.queues[q].closing && t.queues[q].sweep == sweep
  }

  lemma GetsNext(s: State, t: State, q: QueueId, sweep: Sweep, e: Step, u: State, sweep': Sweep)
    requires Gets(s, t, q, sweep) && Enabled(t, e) && u == Apply(t, e)
    requires Quiet(t, u, q) && u.queues[q].sweep == sweep'
    ensures Gets(s, u, q, sweep')
  {
    Next(s, t, e, u);
  }

  lemma LetsGo(s: State, t: State, q: QueueId, sweep: Sweep, k: Taker) returns (u: State)
    requires Gets(s, t, q, sweep) && k in t.hold && !k.Handoff?
    ensures Gets(s, u, q, sweep) && u.hold == t.hold - {k} && u.live == t.live && u.queues == t.queues
  {
    var ch := CanAnswer(t, k);
    u := DoAnswer(t, k, ch);
    GetsNext(s, t, q, sweep, ByTaker(Answer(k, ch)), u, sweep);
  }

  // ---- workers leave ----

  lemma WorkerTakesOne(s: State, t: State, q: QueueId, sweep: Sweep, w: WorkerId) returns (u: State)
    requires Gets(s, t, q, sweep) && w in t.live && t.live[w].q == q && Worker(w) !in t.hold && t.queues[q].items != []
    ensures Gets(s, u, q, sweep) && u.live == t.live && u.queues[q].items == t.queues[q].items[1..] && Worker(w) in u.hold
  {
    assert QueueOk(t, q);
    u := Take(t, q, Worker(w));
    GetsNext(s, t, q, sweep, ByTaker(WorkerTake(w)), u, sweep);
  }

  /** A worker takes and answers everything in its queue. */
  lemma {:induction false} WorkerDrains(s: State, t: State, q: QueueId, sweep: Sweep, w: WorkerId) returns (u: State)
    requires Gets(s, t, q, sweep) && w in t.live && t.live[w].q == q
    ensures Gets(s, u, q, sweep) && u.live == t.live && u.queues[q].items == [] && Worker(w) !in u.hold
    decreases |t.queues[q].items|
  {
    u := t;
    if Worker(w) in u.hold {
      u := LetsGo(s, u, q, sweep, Worker(w));
    }
    if u.queues[q].items != [] {
      var v := WorkerTakesOne(s, u, q, sweep, w);
      u := WorkerDrains(s, v, q, sweep, w);
    }
  }

  lemma WorkerSees(s: State, t: State, q: QueueId, sweep: Sweep, w: WorkerId) returns (u: State)
    requires Gets(s, t, q, sweep) && w in t.live && t.live[w].q == q && Worker(w) !in t.hold && !t.live[w].draining
    ensures Gets(s, u, q, sweep) && u.live == t.live[w := WorkerRec(q, true)] && u.queues == t.queues && u.hold == t.hold
    ensures LiveOn(u.live, q) == LiveOn(t.live, q)
  {
    u := t.(live := t.live[w := t.live[w].(draining := true)]);
    GetsNext(s, t, q, sweep, ByTaker(WorkerSeeDone(w)), u, sweep);
  }

  lemma WorkerGoes(s: State, t: State, q: QueueId, sweep: Sweep, w: WorkerId) returns (u: State)
    requires Gets(s, t, q, sweep) && w in t.live && t.live[w] == WorkerRec(q, true) && Worker(w) !in t.hold && t.queues[q].items == []
    ensures Gets(s, u, q, sweep) && u.live == t.live - {w} && LiveOn(u.live, q) == LiveOn(t.live, q) - {w}
  {
    assert WaitGroupOk(t, q) && w in LiveOn(t.live, q);
    u := SetQueue(t, q, t.queues[q].(wg := t.queues[q].wg - 1)).(live := t.live - {w});
    GetsNext(s, t, q, sweep, ByTaker(WorkerExit(w)), u, sweep);
  }

  /** A worker of a closing queue can leave. */
  lemma WorkerCanLeave(s: State, t: State, q: QueueId, sweep: Sweep, w: WorkerId) returns (u: State)
    requires Gets(s, t, q, sweep) && w in t.live && t.live[w].q == q
    ensures Gets(s, u, q, sweep)
    ensures LiveOn(u.live, q) == LiveOn(t.live, q) - {w}
  {
    u := WorkerDrains(s, t, q, sweep, w);
    if !u.live[w].draining {
      u := WorkerSees(s, u, q, sweep, w);
    }
    u := WorkerGoes(s, u, q, sweep, w);
  }

  lemma {:induction false} WorkersLeave(s: State, t: State, q: QueueId, sweep: Sweep) returns (u: State)
    requires Gets(s, t, q, sweep)
    ensures Gets(s, u, q, sweep) && LiveOn(u.live, q) == {}
    decreases |LiveOn(t.live, q)|
  {
    u := t;
    if LiveOn(t.live, q) != {} {
      var w :| w in LiveOn(t.live, q);
      var v := WorkerCanLeave(s, t, q, sweep, w);
      assert LiveOn(v.live, q) < LiveOn(t.live, q);
      u := WorkersLeave(s, v, q, sweep);
    }
  }

  // ---- the sweep ----

  lemma SweepTakesOne(s: State, t: State, q: QueueId) returns (u: State)
    requires Gets(s, t, q, Sweeping) && Sweeper(q) !in t.hold && t.queues[q].items != []
    ensures Gets(s, u, q, Sweeping) && u.queues[q].items == t.queues[q].items[1..]
  {
    assert QueueOk(t, q);
    u := Take(t, q, Sweeper(q));
    GetsNext(s, t, q, Sweeping, ByLifecycle(SweepTake(q)), u, Sweeping);
  }

  lemma {:induction false} SweepDrains(s: State, t: State, q: QueueId) returns (u: State)
    requires Gets(s, t, q, Sweeping)
    ensures Gets(s, u, q, Sweeping) && u.queues[q].items == [] && Sweeper(q) !in u.hold
    decreases |t.queues[q].items|
  {
    u := t;
    if Sweeper(q) in u.hold {
      u := LetsGo(s, u, q, Sweeping, Sweeper(q));
    }
    if u.queues[q].items != [] {
      var v := SweepTakesOne(s, u, q);
      u := SweepDrains(s, v, q);
    }
  }

  lemma SweepStarts(s: State, t: State, q: QueueId) returns (u: State)
    requires Gets(s, t, q, AwaitWorkers) && LiveOn(t.live, q) == {}
    ensures Gets(s, u, q, Sweeping)
  {
    assert WaitGroupOk(t, q);
    u := SetSweep(t, q, Sweeping);
    GetsNext(s, t, q, AwaitWorkers, ByLifecycle(SweepStart(q)), u, Sweeping);
  }

  lemma SweepEnds(s: State, t: State, q: QueueId) returns (u: State)
    requires Gets(s, t, q, Sweeping) && t.queues[q].items == [] && Sweeper(q) !in t.hold
    ensures Gets(s, u, q, Swept)
  {
    u := SetSweep(t, q, Swept);
    GetsNext(s, t, q, Sweeping, ByLifecycle(SweepEnd(q)), u, Swept);
  }

  /** A closing queue whose sweep was set up can be swept. */
  lemma SweepCanFinish(s: State, q: QueueId) returns (u: State)
    requires Inv(s) && q in s.queues && s.queues[q].closing && s.queues[q].sweep != NotStarted
    ensures Gets(s, u, q, Swept)
  {
    LeadsToItself(s);
    u := s;
    if u.queues[q].sweep == AwaitWorkers {
      u := WorkersLeave(s, u, q, AwaitWorkers);
      u := SweepStarts(s, u, q);
    }
    if u.queues[q].sweep == Sweeping {
      u := SweepDrains(s, u, q);
      u := SweepEnds(s, u, q);
    }
  }

  // ---- replaced queues ----

  /** A queue counted as retired is being left by its update, or closing with its sweep set up. */
  ghost predicate RetiringOk(s: State, q: QueueId) {
    q in s.cleaning && q in s.queues ==>
      Leaving(s, s.queues[q].prov, q) || (s.queues[q].closing && s.queues[q].sweep != NotStarted)
  }

  lemma ProducerRetiring(s: State, e: ProducerStep, q: QueueId)
    requires ProducerEnabled(s, e) && RetiringOk(s, q)
    ensures RetiringOk(ApplyProducer(s, e), q)
  {
  }

  lemma TakerRetiring(s: State, e: TakerStep, q: QueueId)
    requires TakerEnabled(s, e) && RetiringOk(s, q)
    ensures RetiringOk(ApplyTaker(s, e), q)
  {
    if e.Answer? {
      AnswerRetiring(s, e.t, e.ch, q);
    } else if e.Abandon? {
      AbandonRetiring(s, e.t, e.billed, q);
    }
  }

  lemma AnswerRetiring(s: State, t: Taker, ch: Chan, q: QueueId)
    requires TakerEnabled(s, Answer(t, ch)) && RetiringOk(s, q)
    ensures RetiringOk(DoAnswer(s, t, ch), q)
  {
  }

  lemma AbandonRetiring(s: State, t: Taker, billed: bool, q: QueueId)
    requires TakerEnabled(s, Abandon(t, billed)) && RetiringOk(s, q)
    ensures RetiringOk(ApplyTaker(s, Abandon(t, billed)), q)
  {
  }

  lemma FlagsRetiring(s: State, e: LifecycleStep, q: QueueId)
    requires LifecycleEnabled(s, e) && RetiringOk(s, q) && FlagsQueue(e) && (e.SpawnCleanup? ==> AdminOk(s, e.p))
    ensures RetiringOk(ApplyLifecycle(s, e), q)
  {
    if e.StartWorker? || e.SweepStart? || e.SweepEnd? { SweepRetiring(s, e, q); }
  }

  lemma SweepRetiring(s: State, e: LifecycleStep, q: QueueId)
    requires LifecycleEnabled(s, e) && RetiringOk(s, q) && (e.StartWorker? || e.SweepStart? || e.SweepEnd?)
    ensures RetiringOk(ApplyLifecycle(s, e), q)
  {
  }

  lemma QueuesRetiring(s: State, e: LifecycleStep, q: QueueId)
    requires LifecycleEnabled(s, e) && RetiringOk(s, q) && s.cleaning <= s.queues.Keys && (Receives(e) || AddsQueue(e))
    ensures RetiringOk(ApplyLifecycle(s, e), q)
  {
    if AddsQueue(e) { AddsRetiring(s, e, q); }
  }

  lemma AddsRetiring(s: State, e: LifecycleStep, q: QueueId)
    requires LifecycleEnabled(s, e) && RetiringOk(s, q) && s.cleaning <= s.queues.Keys && AddsQueue(e)
    ensures RetiringOk(ApplyLifecycle(s, e), q)
  {
  }

  lemma LocksRetiring(s: State, e: LifecycleStep, q: QueueId)
    requires LifecycleEnabled(s, e) && RetiringOk(s, q) && !Receives(e) && !AddsQueue(e) && !FlagsQueue(e)
    requires (e.Register? || e.RemoveFinish? || e.PrepareDone? || e.RemoveLastWait?) ==> AdminOk(s, e.p)
    ensures RetiringOk(ApplyLifecycle(s, e), q)
  {
  }

  lemma LifecycleRetiring(s: State, e: LifecycleStep, q: QueueId)
    requires Inv(s) && LifecycleEnabled(s, e) && RetiringOk(s, q)
    ensures RetiringOk(ApplyLifecycle(s, e), q)
  {
    if FlagsQueue(e) {
      if e.SpawnCleanup? { assert AdminOk(s, e.p); }
      FlagsRetiring(s, e, q);
    } else if Receives(e) || AddsQueue(e) {
      QueuesRetiring(s, e, q);
    } else {
      if e.Register? || e.RemoveFinish? || e.PrepareDone? || e.RemoveLastWait? { assert AdminOk(s, e.p); }
      LocksRetiring(s, e, q);
    }
  }

  lemma {:induction false} RunRetiring(run: seq<State>, steps: seq<Step>, j: nat, q: QueueId)
    requires IsRun(run, steps) && run[0] == EmptyState && j < |run|
    ensures Inv(run[j]) && RetiringOk(run[j], q)
  {
    StartsWell();
    RunKeeps(run, steps, j);
    if j > 0 {
      RunRetiring(run, steps, j - 1, q);
      match steps[j - 1]
      case ByProducer(pe) => ProducerRetiring(run[j - 1], pe, q);
      case ByTaker(te) => TakerRetiring(run[j - 1], te, q);
      case ByLifecycle(le) => LifecycleRetiring(run[j - 1], le, q);
    }
  }

  lemma ReachableRetiring(s: State, q: QueueId)
    requires Reachable(s)
    ensures Inv(s) && RetiringOk(s, q)
  {
    var run: seq<State>, steps: seq<Step> :| IsRun(run, steps) && run[0] == EmptyState && run[|run| - 1] == s;
    RunRetiring(run, steps, |run| - 1, q);
  }

  // ---- removal ----

  predicate IsRemoving(s: State, p: Provider, q: QueueId, waited: bool) {
    p in s.admin && s.admin[p] == Removing(q, waited)
  }

  /** Every retired queue of `p` can be swept and counted off. */
  ghost predicate Removable(s: State, p: Provider, q: QueueId) {
    && Inv(s) && IsRemoving(s, p, q, false)
    && forall o :: o in CleaningOf(s, p) ==> s.queues[o].closing && s.queues[o].sweep != NotStarted
  }

  lemma CountsOff(s: State, t: State, p: Provider, q: QueueId, o: QueueId) returns (u: State)
    requires Leads(s, t) && Removable(t, p, q) && o in CleaningOf(t, p) && t.queues[o].sweep == Swept
    ensures Leads(s, u) && Removable(u, p, q) && CleaningOf(u, p) == CleaningOf(t, p) - {o}
    ensures u.queues == t.queues
  {
    assert RetiredOk(t, p);
    u := DoCleanupDone(t, o, p);
    Next(s, t, ByLifecycle(CleanupDone(o)), u);
  }

  lemma SweepsRetired(s: State, t: State, p: Provider, q: QueueId, o: QueueId) returns (u: State)
    requires Leads(s, t) && Removable(t, p, q) && o in CleaningOf(t, p)
    ensures Leads(s, u) && Removable(u, p, q) && CleaningOf(u, p) == CleaningOf(t, p) && o in u.queues && u.queues[o].sweep == Swept
    ensures q in t.queues && t.queues[q].sweep == Swept ==> q in u.queues && u.queues[q].sweep == Swept
  {
    u := SweepCanFinish(t, o);
    LeadsThrough(s, t, u);
    assert CleaningOf(u, p) == CleaningOf(t, p);
  }

  lemma {:induction false} CleanupsFinish(s: State, t: State, p: Provider, q: QueueId) returns (u: State)
    requires Leads(s, t) && Removable(t, p, q) && q in t.queues && t.queues[q].sweep == Swept
    ensures Leads(s, u) && Removable(u, p, q) && CleaningOf(u, p) == {} && q in u.queues && u.queues[q].sweep == Swept
    decreases |CleaningOf(t, p)|
  {
    u := t;
    if CleaningOf(t, p) != {} {
      var o :| o in CleaningOf(t, p);
      var v := SweepsRetired(s, t, p, q, o);
      var w := CountsOff(s, v, p, q, o);
      assert CleaningOf(w, p) < CleaningOf(t, p);
      u := CleanupsFinish(s, w, p, q);
    }
  }

  lemma PassesLastWait(s: State, t: State, p: Provider, q: QueueId) returns (u: State)
    requires Leads(s, t) && Inv(t) && IsRemoving(t, p, q, false) && q in t.queues && t.queues[q].sweep == Swept && CleaningOf(t, p) == {}
    ensures Leads(s, u) && Inv(u) && IsRemoving(u, p, q, true)
  {
    assert RetiredOk(t, p);
    u := DoRemoveLastWait(t, p, q);
    Next(s, t, ByLifecycle(RemoveLastWait(p)), u);
  }

  lemma OwnSweep(s: State, p: Provider, q: QueueId) returns (u: State)
    requires Removable(s, p, q)
    ensures Leads(s, u) && Removable(u, p, q) && q in u.queues && u.queues[q].sweep == Swept
  {
    assert AdminOk(s, p);
    u := SweepCanFinish(s, q);
    assert CleaningOf(u, p) == CleaningOf(s, p);
  }

  /** A removal can always finish: some run ends it, with the provider gone and none of its workers running. */
  lemma RemovalCanFinish(s: State, p: Provider) returns (u: State)
    requires Reachable(s) && p in s.admin && s.admin[p].Removing?
    ensures Leads(s, u) && p !in u.admin && p !in u.route
    ensures forall w :: w in u.live ==> u.live[w].q in u.queues && u.queues[u.live[w].q].prov != p
  {
    ReachableInv(s);
    LeadsToItself(s);
    var q := s.admin[p].q;
    var t := s;
    if !s.admin[p].waited {
      forall o | o in CleaningOf(s, p) ensures s.queues[o].closing && s.queues[o].sweep != NotStarted { ReachableRetiring(s, o); }
      t := OwnSweep(s, p, q);
      t := CleanupsFinish(s, t, p, q);
      t := PassesLastWait(s, t, p, q);
    }
    u := Unlock(t, p).(route := t.route - {p});
    Next(s, t, ByLifecycle(RemoveFinish(p)), u);
    LeadsThrough(EmptyState, s, u);
    forall w | w in u.live ensures u.live[w].q in u.queues && u.queues[u.live[w].q].prov != p {
      RemovalWaitsForEveryGeneration(u, p, w);
    }
  }
}
