/** Every step keeps the message and channel invariants. */
module QueueMessages {
  import opened ProviderQueues
  import opened QueueInvariants

  // ---- steps that leave messages where they are ----

  ghost predicate SameMessages(s: State, s': State) {
    && s'.reqs == s.reqs && s'.msgs == s.msgs && s'.msgPool == s.msgPool && s'.place == s.place
    && s'.chans == s.chans && s'.chanPool == s.chanPool && s'.buf == s.buf && s'.hold == s.hold
    && s'.answers == s.answers && s'.hooks == s.hooks && s.done <= s'.done
    && s.queues.Keys <= s'.queues.Keys
    && (forall q :: q in s'.queues ==> s'.queues[q].items == if q in s.queues then s.queues[q].items else [])
  }

  lemma SameMessagesKeeps(s: State, s': State)
    requires MessageInv(s) && SameMessages(s, s')
    ensures MessageInv(s')
  {
    forall r | r in s'.reqs ensures ReqOk(s', r) { assert ReqOk(s, r); }
    forall m | m in s'.msgs ensures MsgOk(s', m) { assert MsgOk(s, m); }
    forall q | q in s'.queues ensures QueueOk(s', q) { assert q in s.queues ==> QueueOk(s, q); }
    forall t | t in s'.hold ensures HoldOk(s', t) { assert HoldOk(s, t); }
  }

  /** Post-hooks run for a request with no live message, or whose message was abandoned. */
  lemma HookKeeps(s: State, r: ReqId, runs: bool)
    requires MessageInv(s) && r in s.reqs && r in s.hooks && s.hooks[r] == 0 && !s.reqs[r].pc.Routed?
    requires forall m :: m in s.msgs && s.msgs[m].req == r ==> m in s.place && s.place[m].Dropped?
    ensures MessageInv(AddHook(s, r, runs))
  {
    var s' := AddHook(s, r, runs);
    forall x | x in s'.reqs ensures ReqOk(s', x) { assert ReqOk(s, x); }
    forall x | x in s'.msgs ensures MsgOk(s', x) { assert MsgOk(s, x); }
    forall x | x in s'.queues ensures QueueOk(s', x) { assert QueueOk(s, x); }
    forall x | x in s'.hold ensures HoldOk(s', x) { assert HoldOk(s, x); }
  }

  // ---- producers ----

  lemma StartReqs(s: State, r: ReqId, q: QueueId, stream: bool)
    requires MessageInv(s) && r !in s.reqs
    ensures ReqsOk(DoStart(s, r, q, stream))
  {
    var s' := DoStart(s, r, q, stream);
    forall x | x in s'.reqs ensures ReqOk(s', x) { assert x in s.reqs ==> ReqOk(s, x); }
  }

  lemma StartMsgs(s: State, r: ReqId, q: QueueId, stream: bool)
    requires MessageInv(s) && r !in s.reqs
    ensures MsgsOk(DoStart(s, r, q, stream))
  {
    var s' := DoStart(s, r, q, stream);
    forall x | x in s'.msgs ensures MsgOk(s', x) { assert MsgOk(s, x); }
  }

  lemma StartRest(s: State, r: ReqId, q: QueueId, stream: bool)
    requires MessageInv(s) && r !in s.reqs
    ensures QueuesOk(DoStart(s, r, q, stream)) && HoldsOk(DoStart(s, r, q, stream))
  {
    var s' := DoStart(s, r, q, stream);
    forall x | x in s'.queues ensures QueueOk(s', x) { assert QueueOk(s, x); }
    forall x | x in s'.hold ensures HoldOk(s', x) { assert HoldOk(s, x); }
  }

  lemma StartKeeps(s: State, r: ReqId, q: QueueId, stream: bool)
    requires MessageInv(s) && r !in s.reqs
    ensures MessageInv(DoStart(s, r, q, stream))
  {
    StartReqs(s, r, q, stream);
    StartMsgs(s, r, q, stream);
    StartRest(s, r, q, stream);
  }

  lemma UnsentMoveReqs(s: State, r: ReqId, pc: Pc)
    requires MessageInv(s) && r in s.reqs && Unsent(s.reqs[r].pc) && Unsent(pc)
    ensures ReqsOk(SetPc(s, r, pc))
  {
    var s' := SetPc(s, r, pc);
    forall x | x in s'.reqs ensures ReqOk(s', x) { assert ReqOk(s, x); }
  }

  lemma UnsentMoveMsgs(s: State, r: ReqId, pc: Pc)
    requires MessageInv(s) && r in s.reqs && Unsent(s.reqs[r].pc) && Unsent(pc)
    ensures MsgsOk(SetPc(s, r, pc))
  {
    var s' := SetPc(s, r, pc);
    forall x | x in s'.msgs ensures MsgOk(s', x) { assert MsgOk(s, x); }
  }

  lemma UnsentMoveRest(s: State, r: ReqId, pc: Pc)
    requires MessageInv(s) && r in s.reqs && Unsent(s.reqs[r].pc) && Unsent(pc)
    ensures QueuesOk(SetPc(s, r, pc)) && HoldsOk(SetPc(s, r, pc))
  {
    var s' := SetPc(s, r, pc);
    forall x | x in s'.queues ensures QueueOk(s', x) { assert QueueOk(s, x); }
    forall x | x in s'.hold ensures HoldOk(s', x) { assert HoldOk(s, x); }
  }

  /** Moving between two program points of an unsent message. */
  lemma UnsentMoveKeeps(s: State, r: ReqId, pc: Pc)
    requires MessageInv(s) && r in s.reqs && Unsent(s.reqs[r].pc) && Unsent(pc)
    ensures MessageInv(SetPc(s, r, pc))
  {
    UnsentMoveReqs(s, r, pc);
    UnsentMoveMsgs(s, r, pc);
    UnsentMoveRest(s, r, pc);
  }

  ghost predicate FreshMessage(s: State, r: ReqId, m: MsgId, msg: Message) {
    && r in s.reqs && s.reqs[r].pc.Routed? && m !in s.msgs && msg.req == r
    && msg.resp.ResponseChan? && msg.err.ErrorChan? && (msg.strm.Some? ==> msg.strm.value.StreamChan?)
    && msg.strm.Some? == s.reqs[r].stream
    && (forall c :: c in Chans(msg) ==> Available(s, c))
  }

  lemma AcquireReqs(s: State, r: ReqId, q: QueueId, m: MsgId, msg: Message)
    requires MessageInv(s) && FreshMessage(s, r, m, msg)
    ensures ReqsOk(DoAcquire(s, r, q, m, msg))
  {
    var s' := DoAcquire(s, r, q, m, msg);
    forall x | x in s'.reqs ensures ReqOk(s', x) {
      assert ReqOk(s, x);
      if s.reqs[x].pc.Received? { assert MsgOk(s, s.reqs[x].msg); }
    }
  }

  lemma AcquireMsgs(s: State, r: ReqId, q: QueueId, m: MsgId, msg: Message)
    requires MessageInv(s) && FreshMessage(s, r, m, msg)
    ensures MsgsOk(DoAcquire(s, r, q, m, msg))
  {
    var s' := DoAcquire(s, r, q, m, msg);
    assert ReqOk(s, r);
    forall x | x in s'.msgs ensures MsgOk(s', x) { assert x in s.msgs ==> MsgOk(s, x); }
  }

  lemma AcquireRest(s: State, r: ReqId, q: QueueId, m: MsgId, msg: Message)
    requires MessageInv(s) && FreshMessage(s, r, m, msg)
    ensures QueuesOk(DoAcquire(s, r, q, m, msg)) && HoldsOk(DoAcquire(s, r, q, m, msg))
  {
    var s' := DoAcquire(s, r, q, m, msg);
    forall x | x in s'.queues ensures QueueOk(s', x) { assert QueueOk(s, x); }
    forall x | x in s'.hold ensures HoldOk(s', x) { assert HoldOk(s, x); }
  }

  lemma AcquireApart(s: State, r: ReqId, q: QueueId, m: MsgId, msg: Message)
    requires MessageInv(s) && FreshMessage(s, r, m, msg)
    ensures AllApart(DoAcquire(s, r, q, m, msg))
  {
    var s' := DoAcquire(s, r, q, m, msg);
    forall x | x in s.msgs ensures Apart(s.msgs[x], msg) { assert MsgOk(s, x); }
    assert forall x, y :: x in s.msgs && y in s.msgs && x != y ==> Apart(s.msgs[x], s.msgs[y]);
  }

  lemma AcquireKeeps(s: State, r: ReqId, q: QueueId, m: MsgId, msg: Message)
    requires MessageInv(s) && FreshMessage(s, r, m, msg)
    ensures MessageInv(DoAcquire(s, r, q, m, msg))
  {
    AcquireReqs(s, r, q, m, msg);
    AcquireMsgs(s, r, q, m, msg);
    AcquireRest(s, r, q, m, msg);
    AcquireApart(s, r, q, m, msg);
  }

  lemma SendReqs(s: State, r: ReqId, q: QueueId)
    requires MessageInv(s) && r in s.reqs && Unsent(s.reqs[r].pc) && q in s.queues
    ensures ReqsOk(DoSend(s, r, q))
  {
    var s' := DoSend(s, r, q);
    assert ReqOk(s, r) && MsgOk(s, s.reqs[r].msg);
    forall x | x in s'.reqs ensures ReqOk(s', x) { assert ReqOk(s, x); }
  }

  lemma SendMsgs(s: State, r: ReqId, q: QueueId)
    requires MessageInv(s) && r in s.reqs && Unsent(s.reqs[r].pc) && q in s.queues
    ensures MsgsOk(DoSend(s, r, q))
  {
    var s' := DoSend(s, r, q);
    assert ReqOk(s, r) && MsgOk(s, s.reqs[r].msg);
    forall x | x in s'.msgs ensures MsgOk(s', x) { assert MsgOk(s, x); }
  }

  lemma SendRest(s: State, r: ReqId, q: QueueId)
    requires MessageInv(s) && r in s.reqs && Unsent(s.reqs[r].pc) && q in s.queues
    ensures QueuesOk(DoSend(s, r, q)) && HoldsOk(DoSend(s, r, q))
  {
    var s' := DoSend(s, r, q);
    assert ReqOk(s, r) && MsgOk(s, s.reqs[r].msg);
    forall x | x in s'.queues ensures QueueOk(s', x) { assert QueueOk(s, x); }
    forall x | x in s'.hold ensures HoldOk(s', x) { assert HoldOk(s, x); }
  }

  lemma SendKeeps(s: State, r: ReqId, q: QueueId)
    requires MessageInv(s) && r in s.reqs && Unsent(s.reqs[r].pc) && q in s.queues
    ensures MessageInv(DoSend(s, r, q))
  {
    assert ReqOk(s, r) && MsgOk(s, s.reqs[r].msg);
    SendReqs(s, r, q);
    SendMsgs(s, r, q);
    SendRest(s, r, q);
  }

  lemma ReleaseReqs(s: State, r: ReqId)
    requires MessageInv(s) && r in s.reqs && (Unsent(s.reqs[r].pc) || s.reqs[r].pc.Received?) && s.reqs[r].msg in s.msgs
    ensures ReqsOk(Release(s, r))
  {
    var s' := Release(s, r);
    assert ReqOk(s, r) && MsgOk(s, s.reqs[r].msg);
    forall x | x in s'.reqs ensures ReqOk(s', x) { assert ReqOk(s, x); }
  }

  lemma ReleaseMsgs(s: State, r: ReqId)
    requires MessageInv(s) && r in s.reqs && (Unsent(s.reqs[r].pc) || s.reqs[r].pc.Received?) && s.reqs[r].msg in s.msgs
    ensures MsgsOk(Release(s, r))
  {
    var s' := Release(s, r);
    assert ReqOk(s, r) && MsgOk(s, s.reqs[r].msg);
    assert forall x :: x in s.msgs && x != s.reqs[r].msg ==> Apart(s.msgs[x], s.msgs[s.reqs[r].msg]);
    forall x | x in s'.msgs ensures MsgOk(s', x) { assert MsgOk(s, x); }
  }

  lemma ReleaseRest(s: State, r: ReqId)
    requires MessageInv(s) && r in s.reqs && (Unsent(s.reqs[r].pc) || s.reqs[r].pc.Received?) && s.reqs[r].msg in s.msgs
    ensures QueuesOk(Release(s, r)) && HoldsOk(Release(s, r))
  {
    var s' := Release(s, r);
    assert ReqOk(s, r) && MsgOk(s, s.reqs[r].msg);
    forall x | x in s'.queues ensures QueueOk(s', x) { assert QueueOk(s, x); }
    forall x | x in s'.hold ensures HoldOk(s', x) { assert HoldOk(s, x); }
  }

  /** Releasing a message that is unsent, or whose answer has been received. */
  lemma ReleaseKeeps(s: State, r: ReqId)
    requires MessageInv(s) && r in s.reqs && (Unsent(s.reqs[r].pc) || s.reqs[r].pc.Received?) && s.reqs[r].msg in s.msgs
    ensures MessageInv(Release(s, r))
  {
    assert ReqOk(s, r) && MsgOk(s, s.reqs[r].msg);
    ReleaseReqs(s, r);
    ReleaseMsgs(s, r);
    ReleaseRest(s, r);
  }

  lemma ReceiveReqs(s: State, r: ReqId, ch: Chan)
    requires MessageInv(s) && r in s.reqs && s.reqs[r].pc.Waiting? && s.reqs[r].msg in s.msgs && ch in s.buf && ch in Chans(s.msgs[s.reqs[r].msg])
    ensures ReqsOk(DoReceive(s, r, ch))
  {
    var s' := DoReceive(s, r, ch);
    assert ReqOk(s, r) && MsgOk(s, s.reqs[r].msg);
    forall x | x in s'.reqs ensures ReqOk(s', x) { assert ReqOk(s, x); }
  }

  lemma ReceiveMsgs(s: State, r: ReqId, ch: Chan)
    requires MessageInv(s) && r in s.reqs && s.reqs[r].pc.Waiting? && s.reqs[r].msg in s.msgs && ch in s.buf && ch in Chans(s.msgs[s.reqs[r].msg])
    ensures MsgsOk(DoReceive(s, r, ch))
  {
    var s' := DoReceive(s, r, ch);
    assert ReqOk(s, r) && MsgOk(s, s.reqs[r].msg);
    assert forall x :: x in s.msgs && x != s.reqs[r].msg ==> Apart(s.msgs[x], s.msgs[s.reqs[r].msg]);
    forall x | x in s'.msgs ensures MsgOk(s', x) { assert MsgOk(s, x); }
  }

  lemma ReceiveRest(s: State, r: ReqId, ch: Chan)
    requires MessageInv(s) && r in s.reqs && s.reqs[r].pc.Waiting? && s.reqs[r].msg in s.msgs && ch in s.buf && ch in Chans(s.msgs[s.reqs[r].msg])
    ensures QueuesOk(DoReceive(s, r, ch)) && HoldsOk(DoReceive(s, r, ch))
  {
    var s' := DoReceive(s, r, ch);
    forall x | x in s'.queues ensures QueueOk(s', x) { assert QueueOk(s, x); }
    forall x | x in s'.hold ensures HoldOk(s', x) { assert HoldOk(s, x); }
  }

  lemma ReceiveKeeps(s: State, r: ReqId, ch: Chan)
    requires MessageInv(s) && r in s.reqs && s.reqs[r].pc.Waiting? && s.reqs[r].msg in s.msgs && ch in s.buf && ch in Chans(s.msgs[s.reqs[r].msg])
    ensures MessageInv(DoReceive(s, r, ch))
  {
    ReceiveReqs(s, r, ch);
    ReceiveMsgs(s, r, ch);
    ReceiveRest(s, r, ch);
  }

  lemma LeaveReqs(s: State, r: ReqId)
    requires MessageInv(s) && r in s.reqs && s.reqs[r].pc.Waiting?
    ensures ReqsOk(SetPc(s, r, Finished))
  {
    var s' := SetPc(s, r, Finished);
    forall x | x in s'.reqs ensures ReqOk(s', x) { assert ReqOk(s, x); }
  }

  lemma LeaveMsgs(s: State, r: ReqId)
    requires MessageInv(s) && r in s.reqs && s.reqs[r].pc.Waiting?
    ensures MsgsOk(SetPc(s, r, Finished))
  {
    var s' := SetPc(s, r, Finished);
    forall x | x in s'.msgs ensures MsgOk(s', x) { assert MsgOk(s, x); }
  }

  lemma LeaveRest(s: State, r: ReqId)
    requires MessageInv(s) && r in s.reqs && s.reqs[r].pc.Waiting?
    ensures QueuesOk(SetPc(s, r, Finished)) && HoldsOk(SetPc(s, r, Finished))
  {
    var s' := SetPc(s, r, Finished);
    forall x | x in s'.queues ensures QueueOk(s', x) { assert QueueOk(s, x); }
    forall x | x in s'.hold ensures HoldOk(s', x) { assert HoldOk(s, x); }
  }

  lemma LeaveKeeps(s: State, r: ReqId)
    requires MessageInv(s) && r in s.reqs && s.reqs[r].pc.Waiting?
    ensures MessageInv(SetPc(s, r, Finished))
  {
    LeaveReqs(s, r);
    LeaveMsgs(s, r);
    LeaveRest(s, r);
  }

  // ---- takers ----

  lemma TakeReqs(s: State, q: QueueId, t: Taker)
    requires MessageInv(s) && CanTake(s, q, t)
    ensures ReqsOk(Take(s, q, t))
  {
    var s' := Take(s, q, t);
    assert QueueOk(s, q);
    forall x | x in s'.reqs ensures ReqOk(s', x) { assert ReqOk(s, x); }
  }

  lemma TakeMsgs(s: State, q: QueueId, t: Taker)
    requires MessageInv(s) && CanTake(s, q, t)
    ensures MsgsOk(Take(s, q, t))
  {
    var s' := Take(s, q, t);
    assert QueueOk(s, q);
    forall x | x in s'.msgs ensures MsgOk(s', x) { assert MsgOk(s, x); }
  }

  lemma TakeRest(s: State, q: QueueId, t: Taker)
    requires MessageInv(s) && CanTake(s, q, t)
    ensures QueuesOk(Take(s, q, t)) && HoldsOk(Take(s, q, t))
  {
    var s' := Take(s, q, t);
    assert QueueOk(s, q) && MsgOk(s, s.queues[q].items[0]);
    forall x | x in s'.queues ensures QueueOk(s', x) { assert QueueOk(s, x); }
    forall x | x in s'.hold ensures HoldOk(s', x) { assert x in s.hold ==> HoldOk(s, x); }
  }

  lemma TakeKeeps(s: State, q: QueueId, t: Taker)
    requires MessageInv(s) && CanTake(s, q, t)
    ensures MessageInv(Take(s, q, t))
  {
    TakeReqs(s, q, t);
    TakeMsgs(s, q, t);
    TakeRest(s, q, t);
  }

  lemma AnswerReqs(s: State, t: Taker, ch: Chan)
    requires MessageInv(s) && t in s.hold && s.hold[t].req in s.answers && s.hold[t].msg in s.msgs && ch in Chans(s.msgs[s.hold[t].msg])
    ensures ReqsOk(DoAnswer(s, t, ch))
  {
    var s' := DoAnswer(s, t, ch);
    assert HoldOk(s, t) && MsgOk(s, s.hold[t].msg);
    assert forall x :: x in s.msgs && x != s.hold[t].msg ==> Apart(s.msgs[x], s.msgs[s.hold[t].msg]);
    forall x | x in s'.reqs ensures ReqOk(s', x) {
      assert ReqOk(s, x);
      if s.reqs[x].pc.Received? { assert MsgOk(s, s.reqs[x].msg); }
    }
  }

  lemma AnswerMsgs(s: State, t: Taker, ch: Chan)
    requires MessageInv(s) && t in s.hold && s.hold[t].req in s.answers && s.hold[t].msg in s.msgs && ch in Chans(s.msgs[s.hold[t].msg])
    ensures MsgsOk(DoAnswer(s, t, ch))
  {
    var s' := DoAnswer(s, t, ch);
    assert HoldOk(s, t) && MsgOk(s, s.hold[t].msg);
    forall x | x in s'.msgs ensures MsgOk(s', x) {
      assert MsgOk(s, x);
      if x != s.hold[t].msg {
        assert Apart(s.msgs[x], s.msgs[s.hold[t].msg]);
        AnswerOther(s, t, ch, x);
      }
    }
  }

  lemma AnswerOther(s: State, t: Taker, ch: Chan, x: MsgId)
    requires t in s.hold && s.hold[t].req in s.answers && s.hold[t].msg in s.msgs && ch in Chans(s.msgs[s.hold[t].msg])
    requires MsgOk(s, s.hold[t].msg) && HoldOk(s, t) && x in s.msgs && MsgOk(s, x) && x != s.hold[t].msg && Apart(s.msgs[x], s.msgs[s.hold[t].msg])
    ensures MsgOk(DoAnswer(s, t, ch), x)
  {
  }

  lemma AnswerRest(s: State, t: Taker, ch: Chan)
    requires MessageInv(s) && t in s.hold && s.hold[t].req in s.answers && s.hold[t].msg in s.msgs && ch in Chans(s.msgs[s.hold[t].msg])
    ensures QueuesOk(DoAnswer(s, t, ch)) && HoldsOk(DoAnswer(s, t, ch))
  {
    var s' := DoAnswer(s, t, ch);
    assert HoldOk(s, t) && MsgOk(s, s.hold[t].msg);
    forall x | x in s'.queues ensures QueueOk(s', x) { assert QueueOk(s, x); }
    forall x | x in s'.hold ensures HoldOk(s', x) { assert HoldOk(s, x); }
  }

  lemma AnswerKeeps(s: State, t: Taker, ch: Chan)
    requires MessageInv(s) && t in s.hold && s.hold[t].req in s.answers && s.hold[t].msg in s.msgs && ch in Chans(s.msgs[s.hold[t].msg])
    ensures MessageInv(DoAnswer(s, t, ch))
  {
    assert HoldOk(s, t) && MsgOk(s, s.hold[t].msg);
    AnswerReqs(s, t, ch);
    AnswerMsgs(s, t, ch);
    AnswerRest(s, t, ch);
  }

  lemma AbandonReqs(s: State, t: Taker)
    requires MessageInv(s) && t in s.hold && s.hold[t].req in s.done
    ensures ReqsOk(DoAbandon(s, t))
  {
    var s' := DoAbandon(s, t);
    assert HoldOk(s, t) && MsgOk(s, s.hold[t].msg);
    forall x | x in s'.reqs ensures ReqOk(s', x) { assert ReqOk(s, x); }
  }

  lemma AbandonMsgs(s: State, t: Taker)
    requires MessageInv(s) && t in s.hold && s.hold[t].req in s.done
    ensures MsgsOk(DoAbandon(s, t))
  {
    var s' := DoAbandon(s, t);
    assert HoldOk(s, t) && MsgOk(s, s.hold[t].msg);
    forall x | x in s'.msgs ensures MsgOk(s', x) { assert MsgOk(s, x); }
  }

  lemma AbandonRest(s: State, t: Taker)
    requires MessageInv(s) && t in s.hold && s.hold[t].req in s.done
    ensures QueuesOk(DoAbandon(s, t)) && HoldsOk(DoAbandon(s, t))
  {
    var s' := DoAbandon(s, t);
    assert HoldOk(s, t) && MsgOk(s, s.hold[t].msg);
    forall x | x in s'.queues ensures QueueOk(s', x) { assert QueueOk(s, x); }
    forall x | x in s'.hold ensures HoldOk(s', x) { assert HoldOk(s, x); }
  }

  lemma AbandonKeeps(s: State, t: Taker)
    requires MessageInv(s) && t in s.hold && s.hold[t].req in s.done
    ensures MessageInv(DoAbandon(s, t))
  {
    assert HoldOk(s, t) && MsgOk(s, s.hold[t].msg);
    AbandonReqs(s, t);
    AbandonMsgs(s, t);
    AbandonRest(s, t);
  }

  lemma MoveReqs(s: State, p: Provider, prev: QueueId, next: QueueId)
    requires MessageInv(s) && Handoff(p) in s.hold && prev in s.queues && next in s.queues && prev != next
    ensures ReqsOk(DoMove(s, p, prev, next))
  {
    var s' := DoMove(s, p, prev, next);
    assert HoldOk(s, Handoff(p)) && MsgOk(s, s.hold[Handoff(p)].msg);
    forall x | x in s'.reqs ensures ReqOk(s', x) { assert ReqOk(s, x); }
  }

  lemma MoveMsgs(s: State, p: Provider, prev: QueueId, next: QueueId)
    requires MessageInv(s) && Handoff(p) in s.hold && prev in s.queues && next in s.queues && prev != next
    ensures MsgsOk(DoMove(s, p, prev, next))
  {
    var s' := DoMove(s, p, prev, next);
    assert HoldOk(s, Handoff(p)) && MsgOk(s, s.hold[Handoff(p)].msg);
    forall x | x in s'.msgs ensures MsgOk(s', x) { assert MsgOk(s, x); }
  }

  lemma MoveRest(s: State, p: Provider, prev: QueueId, next: QueueId)
    requires MessageInv(s) && Handoff(p) in s.hold && prev in s.queues && next in s.queues && prev != next
    ensures QueuesOk(DoMove(s, p, prev, next)) && HoldsOk(DoMove(s, p, prev, next))
  {
    var s' := DoMove(s, p, prev, next);
    assert HoldOk(s, Handoff(p)) && MsgOk(s, s.hold[Handoff(p)].msg);
    forall x | x in s'.queues ensures QueueOk(s', x) { assert QueueOk(s, x); }
    forall x | x in s'.hold ensures HoldOk(s', x) { assert HoldOk(s, x); }
  }

  lemma MoveKeeps(s: State, p: Provider, prev: QueueId, next: QueueId)
    requires MessageInv(s) && Handoff(p) in s.hold && prev in s.queues && next in s.queues && prev != next
    ensures MessageInv(DoMove(s, p, prev, next))
  {
    assert HoldOk(s, Handoff(p)) && MsgOk(s, s.hold[Handoff(p)].msg);
    MoveReqs(s, p, prev, next);
    MoveMsgs(s, p, prev, next);
    MoveRest(s, p, prev, next);
  }
}
