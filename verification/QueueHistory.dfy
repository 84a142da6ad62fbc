/** Every step keeps the queues first-in-first-out and the handoff histories in order. */
module QueueHistory {
  import opened Wrappers
  import opened ProviderQueues
  import opened QueueInvariants

  // ---- first in, first out ----

  /** Queues keep their contents; new ones are empty. */
  ghost predicate SameTraffic(s: State, s': State) {
    && (forall q :: q in s'.queues && q !in s.queues ==> s'.queues[q].items == s'.queues[q].sent == s'.queues[q].out == [])
    && (forall q :: q in s'.queues && q in s.queues ==>
          && s'.queues[q].cap == s.queues[q].cap && s'.queues[q].items == s.queues[q].items
          && s'.queues[q].sent == s.queues[q].sent && s'.queues[q].out == s.queues[q].out)
  }

  lemma FifoFrame(s: State, s': State)
    requires FifoInv(s) && SameTraffic(s, s')
    requires forall q, m :: q in s.queues && m in s.queues[q].items && m in s.msgs ==> m in s'.msgs && s'.msgs[m] == s.msgs[m]
    ensures FifoInv(s')
  {
    forall q | q in s'.queues ensures FifoOk(s', q) { assert q in s.queues ==> FifoOk(s, q); }
  }

  lemma SendFifo(s: State, r: ReqId, q0: QueueId)
    requires MessageInv(s) && FifoInv(s) && r in s.reqs && Unsent(s.reqs[r].pc) && q0 in s.queues
    requires |s.queues[q0].items| < s.queues[q0].cap
    ensures FifoInv(DoSend(s, r, q0))
  {
    var s' := DoSend(s, r, q0);
    assert ReqOk(s, r);
    forall q | q in s'.queues ensures FifoOk(s', q) { assert FifoOk(s, q); }
  }

  lemma TakeFifo(s: State, q0: QueueId, t: Taker)
    requires FifoInv(s) && CanTake(s, q0, t)
    ensures FifoInv(Take(s, q0, t))
  {
    var s' := Take(s, q0, t);
    forall q | q in s'.queues ensures FifoOk(s', q) { assert FifoOk(s, q); }
  }

  lemma MoveFifo(s: State, p: Provider, prev: QueueId, next: QueueId)
    requires HoldsOk(s) && FifoInv(s) && Handoff(p) in s.hold && prev in s.queues && next in s.queues && prev != next
    requires |s.queues[next].items| < s.queues[next].cap
    ensures FifoInv(DoMove(s, p, prev, next))
  {
    var s' := DoMove(s, p, prev, next);
    assert HoldOk(s, Handoff(p));
    forall q | q in s'.queues ensures FifoOk(s', q) { assert FifoOk(s, q); }
  }

  lemma ReleaseFifo(s: State, s': State, r: ReqId)
    requires MessageInv(s) && FifoInv(s) && r in s.reqs && s.reqs[r].msg in s.msgs
    requires Unsent(s.reqs[r].pc) || s.reqs[r].pc.Received?
    requires s'.queues == s.queues && s'.msgs == s.msgs - {s.reqs[r].msg}
    ensures FifoInv(s')
  {
    assert ReqOk(s, r) && MsgOk(s, s.reqs[r].msg);
    forall q, m | q in s.queues && m in s.queues[q].items && m in s.msgs ensures m in s'.msgs && s'.msgs[m] == s.msgs[m] {
      assert QueueOk(s, q);
    }
    FifoFrame(s, s');
  }

  // ---- subsequences ----

  lemma SubseqGrows(a: seq<ReqId>, b: seq<ReqId>, x: ReqId)
    requires Subseq(a, b)
    ensures Subseq(a, b + [x])
  {
    assert (b + [x])[..|b|] == b;
  }

  lemma SubseqBoth(a: seq<ReqId>, b: seq<ReqId>, x: ReqId)
    requires Subseq(a, b)
    ensures Subseq(a + [x], b + [x])
  {
    assert (b + [x])[..|b|] == b && (a + [x])[..|a|] == a;
  }

  // ---- handoff histories ----

  /** `b` is `a`, or `a` with one more element. */
  ghost predicate GrownByOne(a: seq<ReqId>, b: seq<ReqId>) {
    b == a || (|b| == |a| + 1 && b[..|a|] == a)
  }

  lemma GrownSubseq(a: seq<ReqId>, b: seq<ReqId>, b': seq<ReqId>)
    requires Subseq(a, b) && GrownByOne(b, b')
    ensures Subseq(a, b')
  {
    if b' != b {
      assert b' == b + [b'[|b|]];
      SubseqGrows(a, b, b'[|b|]);
    }
  }

  ghost predicate SameHandoff(a: Queue, b: Queue) {
    && b.prov == a.prov && b.taken == a.taken && b.moved == a.moved && b.cancelled == a.cancelled && b.heir == a.heir
    && GrownByOne(a.out, b.out) && GrownByOne(a.sent, b.sent)
  }

  /** Sends and receives by anyone but a handoff. */
  lemma TrafficHandoff(s: State, s': State)
    requires HandoffInv(s) && s'.admin == s.admin && s'.route == s.route && s'.queues.Keys == s.queues.Keys
    requires forall p :: (Handoff(p) in s'.hold <==> Handoff(p) in s.hold) &&
                         (Handoff(p) in s.hold ==> s'.hold[Handoff(p)] == s.hold[Handoff(p)])
    requires forall q :: q in s.queues ==> SameHandoff(s.queues[q], s'.queues[q])
    ensures HandoffInv(s')
  {
    forall q | q in s'.queues ensures HandoffOk(s', q) {
      assert HandoffOk(s, q);
      GrownSubseq(s.queues[q].taken, s.queues[q].out, s'.queues[q].out);
      if s.queues[q].heir.Some? {
        var h := s.queues[q].heir.value;
        GrownSubseq(s.queues[q].moved, s.queues[h].sent, s'.queues[h].sent);
      }
    }
  }

  lemma TakeHandoff(s: State, p0: Provider)
    requires HandoffInv(s) && LockInv(s) && InHandoff(s, p0) && CanTake(s, s.admin[p0].prev, Handoff(p0))
    ensures HandoffInv(Take(s, s.admin[p0].prev, Handoff(p0)))
  {
    var s' := Take(s, s.admin[p0].prev, Handoff(p0));
    assert AdminOk(s, p0);
    forall q | q in s'.queues ensures HandoffOk(s', q) {
      assert HandoffOk(s, q);
      if q == s.admin[p0].prev { TakePrevAt(s, p0); } else { TakeOtherAt(s, p0, q); }
    }
  }

  lemma TakePrevAt(s: State, p0: Provider)
    requires InHandoff(s, p0) && CanTake(s, s.admin[p0].prev, Handoff(p0)) && AdminOk(s, p0) && HandoffOk(s, s.admin[p0].prev)
    ensures HandoffOk(Take(s, s.admin[p0].prev, Handoff(p0)), s.admin[p0].prev)
  {
    var q := s.admin[p0].prev;
    var s', r := Take(s, q, Handoff(p0)), s.msgs[s.queues[q].items[0]].req;
    SubseqBoth(s.queues[q].taken, s.queues[q].out, r);
    assert InHand(s, q) == [] && InHand(s', q) == [r];
    assert s'.queues[q].taken == s.queues[q].taken + [r];
  }

  lemma TakeOtherAt(s: State, p0: Provider, q: QueueId)
    requires InHandoff(s, p0) && CanTake(s, s.admin[p0].prev, Handoff(p0)) && AdminOk(s, p0)
    requires q in s.queues && q != s.admin[p0].prev && HandoffOk(s, q)
    ensures HandoffOk(Take(s, s.admin[p0].prev, Handoff(p0)), q)
  {
    assert InHand(Take(s, s.admin[p0].prev, Handoff(p0)), q) == InHand(s, q);
  }

  lemma MoveHandoff(s: State, p0: Provider)
    requires HandoffInv(s) && LockInv(s) && LifecycleEnabled(s, HandoffMove(p0))
    ensures HandoffInv(DoMove(s, p0, s.admin[p0].prev, s.admin[p0].next))
  {
    var s' := DoMove(s, p0, s.admin[p0].prev, s.admin[p0].next);
    assert AdminOk(s, p0) && HandoffOk(s, s.admin[p0].prev);
    forall q | q in s'.queues ensures HandoffOk(s', q) {
      assert HandoffOk(s, q);
      if q == s.admin[p0].prev { MovePrevAt(s, p0); } else { MoveOtherAt(s, p0, q); }
    }
  }

  lemma MovePrevAt(s: State, p0: Provider)
    requires LifecycleEnabled(s, HandoffMove(p0)) && AdminOk(s, p0) && HandoffOk(s, s.admin[p0].prev)
    ensures HandoffOk(DoMove(s, p0, s.admin[p0].prev, s.admin[p0].next), s.admin[p0].prev)
  {
    var prev, next := s.admin[p0].prev, s.admin[p0].next;
    SubseqBoth(s.queues[prev].moved, s.queues[next].sent, s.hold[Handoff(p0)].req);
  }

  lemma MoveOtherAt(s: State, p0: Provider, q: QueueId)
    requires LifecycleEnabled(s, HandoffMove(p0)) && AdminOk(s, p0) && q in s.queues && q != s.admin[p0].prev && HandoffOk(s, q)
    ensures HandoffOk(DoMove(s, p0, s.admin[p0].prev, s.admin[p0].next), q)
  {
    var prev, next, r := s.admin[p0].prev, s.admin[p0].next, s.hold[Handoff(p0)].req;
    var s' := DoMove(s, p0, prev, next);
    assert InHand(s', q) == InHand(s, q);
    assert s'.queues[q] == s.queues[q].(items := s'.queues[q].items, sent := s'.queues[q].sent);
    assert forall h :: h in s.queues && h != next ==> s'.queues[h].sent == s.queues[h].sent;
    if s.queues[q].heir == Some(next) {
      SubseqGrows(s.queues[q].moved, s.queues[next].sent, r);
    }
  }

  /** The handoff answers or abandons what it is cancelling. */
  lemma CancelHandoff(s: State, p0: Provider, s': State)
    requires HandoffInv(s) && LockInv(s) && InHandoff(s, p0) && s.admin[p0].phase == Cancelling && Handoff(p0) in s.hold
    requires s'.queues == LogCancelled(s, Handoff(p0), s.hold[Handoff(p0)].req) && s'.hold == s.hold - {Handoff(p0)}
    requires s'.admin == s.admin && s'.route == s.route
    ensures HandoffInv(s')
  {
    assert AdminOk(s, p0);
    forall q | q in s'.queues ensures HandoffOk(s', q) {
      assert HandoffOk(s, q);
    }
  }

  /** Changes of locks, flags and routes that add no queue and move no message. */
  ghost predicate LocksOnly(s: State, s': State) {
    && s'.queues.Keys == s.queues.Keys && s'.hold == s.hold
    && (forall p :: p in s'.route ==> p in s.route && s'.route[p] == s.route[p])
    && (forall q :: q in s.queues ==> SameHandoff(s.queues[q], s'.queues[q]) && InHand(s', q) == InHand(s, q))
    && (forall p, q :: Leaving(s', p, q) ==>
          && Leaving(s, p, q) && s'.admin[p].next == s.admin[p].next
          && (s'.admin[p].phase == Starting || s'.admin[p].phase == Transferring ==>
                s.admin[p].phase == Starting || s.admin[p].phase == Transferring))
  }

  lemma LocksHandoff(s: State, s': State)
    requires HandoffInv(s) && LocksOnly(s, s')
    ensures HandoffInv(s')
  {
    forall q | q in s'.queues ensures HandoffOk(s', q) {
      assert HandoffOk(s, q);
      GrownSubseq(s.queues[q].taken, s.queues[q].out, s'.queues[q].out);
      if s.queues[q].heir.Some? {
        var h := s.queues[q].heir.value;
        GrownSubseq(s.queues[q].moved, s.queues[h].sent, s'.queues[h].sent);
      }
    }
  }

  lemma PublishHandoff(s: State, p0: Provider, q0: QueueId, cap: nat)
    requires HandoffInv(s) && LockInv(s) && TakerInv(s) && p0 !in s.route && p0 !in s.admin && q0 !in s.queues
    ensures HandoffInv(DoPublish(s, p0, q0, cap))
  {
    var s' := DoPublish(s, p0, q0, cap);
    forall q | q in s'.queues ensures HandoffOk(s', q) { assert q in s.queues ==> HandoffOk(s, q); }
  }

  lemma UpdateHandoff(s: State, p0: Provider, prev: QueueId, q0: QueueId, cap: nat)
    requires HandoffInv(s) && LockInv(s) && TakerInv(s)
    requires p0 in s.route && p0 !in s.admin && s.route[p0] == prev && prev in s.queues && q0 !in s.queues
    ensures HandoffInv(DoUpdateBegin(s, p0, prev, q0, cap))
  {
    var s' := DoUpdateBegin(s, p0, prev, q0, cap);
    assert RouteOk(s, p0) && HandoffOk(s, prev);
    assert Handoff(p0) in s.hold ==> TakerOk(s, Handoff(p0));
    forall q | q in s'.queues ensures HandoffOk(s', q) { assert q in s.queues ==> HandoffOk(s, q); }
  }
}
