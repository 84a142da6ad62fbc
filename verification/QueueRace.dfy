/**
 The race between a late producer and the last sweep, as one run: the worker of a provider
 sees the closing signal and exits, the sweep finds the queue empty, and only then does a
 producer that had passed its closing check send.
 */
module QueueRace {
  import opened Wrappers
  import opened ProviderQueues
  import opened QueueInvariants
  import opened QueueSafety
  import opened QueueSweep

  function TheQueue(wg: nat, closing: bool, sweep: Sweep): Queue {
    NewQueue(0, 1).(wg := wg, closing := closing, sweep := sweep)
  }

  // The states of the run, each named after the step that leads to it.
  ghost const Published := EmptyState.(queues := map[0 := TheQueue(0, false, NotStarted)], route := map[0 := 0], admin := map[0 := Preparing(0)])
  ghost const Staffed := Published.(queues := map[0 := TheQueue(1, false, NotStarted)], live := map[0 := WorkerRec(0, false)])
  ghost const Prepared := Staffed.(admin := map[])
  ghost const Started := Prepared.(reqs := map[0 := Request(false, Routed(0), 0)], answers := map[0 := 0], hooks := map[0 := 0])
  ghost const Acquired := Started.(
    reqs := map[0 := Request(false, Checking(0), 0)], msgs := map[0 := Message(0, ResponseChan(0), ErrorChan(0), None)],
    place := map[0 := AtProducer], chans := {ResponseChan(0), ErrorChan(0)})
  ghost const SawOpen := Acquired.(reqs := map[0 := Request(false, Committed(0), 0)])
  ghost const RemovalBegun := SawOpen.(queues := map[0 := TheQueue(1, true, AwaitWorkers)], admin := map[0 := Removing(0, false)])
  ghost const Draining := RemovalBegun.(live := map[0 := WorkerRec(0, true)])
  ghost const Exited := RemovalBegun.(queues := map[0 := TheQueue(0, true, AwaitWorkers)], live := map[])
  ghost const SweepStarted := Exited.(queues := map[0 := TheQueue(0, true, Sweeping)])
  ghost const SweepEnded := Exited.(queues := map[0 := TheQueue(0, true, Swept)])

  lemma PreparedReachable()
    ensures Leads(EmptyState, Prepared)
  {
    OneStep(EmptyState, ByLifecycle(Publish(0, 0, 1)));
    LeadsOn(EmptyState, Published, ByLifecycle(StartWorker(0, 0)), Staffed);
    LeadsOn(EmptyState, Staffed, ByLifecycle(PrepareDone(0)), Prepared);
  }

  lemma ProducerCommits()
    ensures Leads(Prepared, SawOpen)
  {
    OneStep(Prepared, ByProducer(Start(0, 0, false)));
    LeadsOn(Prepared, Started, ByProducer(Acquire(0, 0, ResponseChan(0), ErrorChan(0), None)), Acquired);
    LeadsOn(Prepared, Acquired, ByProducer(SeeOpen(0)), SawOpen);
  }

  lemma RemovalBegins()
    ensures Leads(Prepared, RemovalBegun)
  {
    ProducerCommits();
    LeadsOn(Prepared, SawOpen, ByLifecycle(RemoveBegin(0)), RemovalBegun);
  }

  lemma WorkerLeaves()
    ensures Leads(Prepared, Exited)
  {
    RemovalBegins();
    LeadsOn(Prepared, RemovalBegun, ByTaker(WorkerSeeDone(0)), Draining);
    LeadsOn(Prepared, Draining, ByTaker(WorkerExit(0)), Exited);
  }

  lemma SweepFindsNothing()
    ensures Leads(Prepared, SweepEnded)
  {
    WorkerLeaves();
    LeadsOn(Prepared, Exited, ByLifecycle(SweepStart(0)), SweepStarted);
    LeadsOn(Prepared, SweepStarted, ByLifecycle(SweepEnd(0)), SweepEnded);
  }

  lemma SweepEndedInv()
    ensures Leads(EmptyState, Prepared) && Leads(Prepared, SweepEnded) && Inv(SweepEnded)
  {
    PreparedReachable();
    SweepFindsNothing();
    StartsWell();
    InvAlong(EmptyState, Prepared);
    InvAlong(Prepared, SweepEnded);
  }

  /** From a provider with a running worker, a run that strands a waiting caller for good. */
  lemma StrandedMessageReachable() returns (s: State)
    ensures Leads(EmptyState, Prepared) && LiveOn(Prepared.live, 0) == {0}
    ensures Leads(Prepared, s) && Stranded(s, 0, 0) && LiveOn(s.live, 0) == {}
  {
    SweepEndedInv();
    s := DoSend(SweepEnded, 0, 0);
    assert 0 in Senders(SweepEnded, 0);
    SendStrands(SweepEnded, 0, 0);
    LeadsOn(Prepared, SweepEnded, ByProducer(Send(0)), s);
  }
}
