/**
 The sweep, both ways: as long as a queue is not swept, everything buffered in it can still
 be taken out; once it is swept, a message can be stranded in it exactly when a producer
 can still send.
 */
module QueueSweep {
  import opened ProviderQueues
  import opened QueueInvariants
  import opened QueueSafety
  import opened QueueTheorems

  /** Some run leads from `s` to `s'`. */
  ghost predicate Leads(s: State, s': State) {
    exists run: seq<State>, steps: seq<Step> :: IsRun(run, steps) && run[0] == s && run[|run| - 1] == s'
  }

  lemma LeadsToItself(s: State)
    ensures Leads(s, s)
  {
    assert IsRun([s], []) && [s][0] == s;
  }

  lemma RunGrows(run: seq<State>, steps: seq<Step>, e: Step, s': State)
    requires IsRun(run, steps) && Enabled(run[|steps|], e) && s' == Apply(run[|steps|], e)
    ensures IsRun(run + [s'], steps + [e])
  {
    var run', steps' := run + [s'], steps + [e];
    forall i | 0 <= i < |steps'| ensures Enabled(run'[i], steps'[i]) && run'[i + 1] == Apply(run'[i], steps'[i]) {
      assert run'[i] == run[i];
      if i < |steps| { assert steps'[i] == steps[i] && run'[i + 1] == run[i + 1]; }
    }
  }

  lemma LeadsOn(s: State, t: State, e: Step, s': State)
    requires Leads(s, t) && Enabled(t, e) && s' == Apply(t, e)
    ensures Leads(s, s')
  {
    var run: seq<State>, steps: seq<Step> :| IsRun(run, steps) && run[0] == s && run[|run| - 1] == t;
    RunGrows(run, steps, e, s');
    assert (run + [s'])[0] == s && (run + [s'])[|run|] == s';
  }

  lemma OneStep(s: State, e: Step)
    requires Enabled(s, e)
    ensures Leads(s, Apply(s, e))
  {
    LeadsToItself(s);
    LeadsOn(s, s, e, Apply(s, e));
  }

  lemma InvAlong(s: State, s': State)
    requires Inv(s) && Leads(s, s')
    ensures Inv(s')
  {
    var run: seq<State>, steps: seq<Step> :| IsRun(run, steps) && run[0] == s && run[|run| - 1] == s';
    RunKeeps(run, steps, |run| - 1);
  }

  // ---- after the sweep ----

  lemma SweptSinceAlong(s: State, s': State, q: QueueId)
    requires Inv(s) && Leads(s, s') && q in s.queues && s.queues[q].sweep == Swept
    ensures SweptSince(s, s', q)
  {
    var run: seq<State>, steps: seq<Step> :| IsRun(run, steps) && run[0] == s && run[|run| - 1] == s';
    AfterSweep(run, steps, 0, |run| - 1, q);
  }

  /** A producer that can still send, with room in the queue, does so in one step. */
  lemma SenderSends(s: State, q: QueueId, r: ReqId)
    requires q in s.queues && r in Senders(s, q) && |s.queues[q].items| < s.queues[q].cap
    ensures Enabled(s, ByProducer(Send(r)))
    ensures q in DoSend(s, r, q).queues && DoSend(s, r, q).queues[q].items == s.queues[q].items + [s.reqs[r].msg]
    ensures Leads(s, DoSend(s, r, q))
  {
    OneStep(s, ByProducer(Send(r)));
  }

  /** Some run from `s` puts one more message into `q`. */
  ghost predicate CanGain(s: State, q: QueueId)
    requires q in s.queues
  {
    exists s' :: Leads(s, s') && q in s'.queues && |s'.queues[q].items| > |s.queues[q].items|
  }

  /** A swept queue can gain a message exactly when it has room and a producer can still send to it. */
  lemma GainsIffSenders(s: State, q: QueueId)
    requires Inv(s) && q in s.queues && s.queues[q].sweep == Swept
    ensures CanGain(s, q) <==> Senders(s, q) != {} && |s.queues[q].items| < s.queues[q].cap
  {
    if Senders(s, q) != {} && |s.queues[q].items| < s.queues[q].cap {
      var r :| r in Senders(s, q);
      SenderSends(s, q, r);
    }
    forall s' | Leads(s, s') && q in s'.queues && |s'.queues[q].items| > |s.queues[q].items|
      ensures Senders(s, q) != {} && |s.queues[q].items| < s.queues[q].cap
    {
      SweptSinceAlong(s, s', q);
      InvAlong(s, s');
      assert FifoOk(s', q);
      CapKept(s, s', q);
    }
  }

  lemma {:induction false} CapInRun(run: seq<State>, steps: seq<Step>, j: nat, q: QueueId)
    requires IsRun(run, steps) && j < |run| && q in run[0].queues
    ensures q in run[j].queues && run[j].queues[q].cap == run[0].queues[q].cap
  {
    if j > 0 {
      CapInRun(run, steps, j - 1, q);
      CapStep(run[j - 1], steps[j - 1], q);
    }
  }

  lemma CapKept(s: State, s': State, q: QueueId)
    requires Leads(s, s') && q in s.queues
    ensures q in s'.queues && s'.queues[q].cap == s.queues[q].cap
  {
    var run: seq<State>, steps: seq<Step> :| IsRun(run, steps) && run[0] == s && run[|run| - 1] == s';
    CapInRun(run, steps, |run| - 1, q);
  }

  lemma CapStep(s: State, e: Step, q: QueueId)
    requires Enabled(s, e) && q in s.queues
    ensures q in Apply(s, e).queues && Apply(s, e).queues[q].cap == s.queues[q].cap
  {
    if e.ByProducer? { ProducerCap(s, e.pe, q); } else { OthersWindow(s, e, q); }
  }

  lemma ProducerCap(s: State, e: ProducerStep, q: QueueId)
    requires ProducerEnabled(s, e) && q in s.queues
    ensures q in ApplyProducer(s, e).queues && ApplyProducer(s, e).queues[q].cap == s.queues[q].cap
  {
  }

  /** The message of request `r` lies in `q` at the end of every run from `s`, and nothing is taken from `q`. */
  ghost predicate Stranded(s: State, q: QueueId, r: ReqId) {
    && r in s.reqs && s.reqs[r].pc.Waiting?
    && forall s' :: Leads(s, s') ==>
         q in s'.queues && q in s.queues && s.reqs[r].msg in s'.queues[q].items && s'.queues[q].out == s.queues[q].out
  }

  /**
   The sweep leaves no caller behind exactly when no producer can still send: from a swept,
   empty queue with room for a message, some run strands a waiting caller if and only if
   there is a producer past its last closing check.
   */
  lemma StrandsIffSenders(s: State, q: QueueId)
    requires Inv(s) && q in s.queues && s.queues[q].sweep == Swept && s.queues[q].items == [] && s.queues[q].cap > 0
    ensures (exists s', r :: Leads(s, s') && Stranded(s', q, r)) <==> Senders(s, q) != {}
  {
    if Senders(s, q) != {} {
      var r :| r in Senders(s, q);
      SendStrands(s, q, r);
    }
    forall s', r | Leads(s, s') && Stranded(s', q, r) ensures Senders(s, q) != {} {
      LeadsToItself(s');
      GainsIffSenders(s, q);
    }
  }

  /** Every such producer can be the one whose message is stranded. */
  lemma SendStrands(s: State, q: QueueId, r: ReqId)
    requires Inv(s) && q in s.queues && s.queues[q].sweep == Swept && |s.queues[q].items| < s.queues[q].cap && r in Senders(s, q)
    ensures Leads(s, DoSend(s, r, q)) && Stranded(DoSend(s, r, q), q, r)
  {
    var t := DoSend(s, r, q);
    SenderSends(s, q, r);
    InvAlong(s, t);
    forall s' | Leads(t, s')
      ensures q in s'.queues && t.reqs[r].msg in s'.queues[q].items && s'.queues[q].out == t.queues[q].out
    {
      SweptSinceAlong(t, s', q);
      var k := |s.queues[q].items|;
      assert t.queues[q].items[k] == t.reqs[r].msg && s'.queues[q].items[k] == t.queues[q].items[k];
    }
  }
}
