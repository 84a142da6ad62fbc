/**
 What callers get: which channels a taker can answer on, and how an answer reaches the
 caller, runs the post-hooks and gives the channels back.
 */
module QueueAnswers {
  import opened Wrappers
  import opened ProviderQueues
  import opened QueueInvariants
  import opened QueueSafety
  import opened QueueSweep

  /** A held message belongs to its request, which streams exactly when it has a stream channel. */
  lemma HeldMessage(s: State, t: Taker)
    requires Reachable(s) && t in s.hold
    ensures var h := s.hold[t];
            && h.msg in s.msgs && h.req in s.reqs && s.msgs[h.msg].req == h.req && s.reqs[h.req].msg == h.msg
            && (s.msgs[h.msg].strm.Some? <==> s.reqs[h.req].stream)
  {
    ReachableInv(s);
    assert HoldOk(s, t) && MsgOk(s, s.hold[t].msg);
  }

  /** A worker serving a request can answer on the error channel and on the result channel, and on no other. */
  lemma WorkerAnswers(s: State, w: WorkerId, c: Chan)
    requires Reachable(s) && Worker(w) in s.hold
    ensures w in s.live && s.hold[Worker(w)].msg in s.msgs
    ensures var m := s.msgs[s.hold[Worker(w)].msg];
            Enabled(s, ByTaker(Answer(Worker(w), c))) <==>
            c == m.err || (!s.live[w].draining && c == if m.strm.Some? then m.strm.value else m.resp)
  {
    ReachableInv(s);
    assert HoldOk(s, Worker(w)) && TakerOk(s, Worker(w)) && MsgOk(s, s.hold[Worker(w)].msg);
    assert ReqOk(s, s.hold[Worker(w)].req);
  }

  /** A sweeper answers only with errors, and so does a handoff, once it is cancelling. */
  lemma OthersAnswerErrors(s: State, t: Taker, c: Chan)
    requires Reachable(s) && t in s.hold && !t.Worker?
    ensures s.hold[t].msg in s.msgs
    ensures Enabled(s, ByTaker(Answer(t, c))) <==>
            && c == s.msgs[s.hold[t].msg].err
            && (t.Handoff? ==> t.p in s.admin && s.admin[t.p].Updating? && s.admin[t.p].phase == Cancelling)
  {
    ReachableInv(s);
    assert HoldOk(s, t) && MsgOk(s, s.hold[t].msg);
    assert ReqOk(s, s.hold[t].req);
  }

  /** A taker may let go without an answer exactly when the caller's context is done. */
  lemma AbandonsOnlyDone(s: State, t: Taker)
    requires Reachable(s) && t in s.hold && (t.Handoff? ==> t.p in s.admin && s.admin[t.p].Updating? && s.admin[t.p].phase == Cancelling)
    ensures Enabled(s, ByTaker(Abandon(t, false))) <==> s.hold[t].req in s.done
    ensures Enabled(s, ByTaker(Abandon(t, true))) <==>
            && s.hold[t].req in s.done && t.Worker? && t.w in s.live && !s.live[t.w].draining
            && s.hold[t].req in s.reqs && !s.reqs[s.hold[t].req].stream
    ensures Enabled(s, ByTaker(Abandon(t, true))) ==>
              var t' := ApplyTaker(s, Abandon(t, true));
              s.hold[t].req in t'.hooks && t'.hooks[s.hold[t].req] == 1 && t !in t'.hold
    ensures Enabled(s, ByTaker(Abandon(t, false))) ==>
              var t' := ApplyTaker(s, Abandon(t, false)); t'.hooks == s.hooks && t'.buf == s.buf && t !in t'.hold
  {
    HeldMessage(s, t);
    ReachableInv(s);
    assert HoldOk(s, t) && MsgOk(s, s.hold[t].msg);
  }

  lemma ReachableNext(s: State, e: Step)
    requires Reachable(s) && Enabled(s, e)
    ensures Reachable(Apply(s, e))
  {
    LeadsOn(EmptyState, s, e, Apply(s, e));
  }

  /** An answer to a waiting caller can be received, and is the answer to that caller's own request. */
  lemma AnswerIsReceived(s: State, t: Taker, c: Chan)
    requires Reachable(s) && t in s.hold && Enabled(s, ByTaker(Answer(t, c)))
    requires s.hold[t].req in s.reqs && s.reqs[s.hold[t].req].pc.Waiting?
    ensures var r, s1 := s.hold[t].req, DoAnswer(s, t, c);
            && t !in s1.hold && r in s1.answers && s1.answers[r] == 1
            && Enabled(s1, ByProducer(Receive(r, c)))
            && var s2 := DoReceive(s1, r, c);
               s2.reqs[r].pc == Received(c, r) && Reachable(s2)
  {
    HeldMessage(s, t);
    ReachableInv(s);
    var r, s1 := s.hold[t].req, DoAnswer(s, t, c);
    assert HoldOk(s, t) && MsgOk(s, s.hold[t].msg) && ReqOk(s, r);
    ReachableNext(s, ByTaker(Answer(t, c)));
    ReachableNext(s1, ByProducer(Receive(r, c)));
  }

  /**
   A caller that has received its answer can finish: its post-hooks have then run exactly once
   unless it got a stream, and its channels are back in their pools, empty.
   */
  lemma CallerFinishes(s: State, r: ReqId)
    requires Reachable(s) && r in s.reqs && s.reqs[r].pc.Received?
    ensures Enabled(s, ByProducer(Complete(r))) && s.reqs[r].msg in s.msgs
    ensures var t, m := ApplyProducer(s, Complete(r)), s.msgs[s.reqs[r].msg];
            && t.reqs[r].pc == Finished && s.reqs[r].msg !in t.msgs
            && r in t.hooks && t.hooks[r] == (if s.reqs[r].stream && s.reqs[r].pc.ch != m.err then 0 else 1)
            && {m.resp, m.err} <= t.chanPool && (m.strm.Some? ==> m.strm.value in t.chanPool)
            && Chans(m) !! t.buf.Keys
  {
    ReachableInv(s);
    assert ReqOk(s, r) && MsgOk(s, s.reqs[r].msg);
  }
}
