/** What every step of the provider queue lifecycle keeps. */
module QueueInvariants {
  import opened Wrappers
  import opened ProviderQueues

  // ---- messages and answer channels ----

  /** A producer that has a message owns it; a value it received was the answer to its own request. */
  ghost predicate ReqOk(s: State, r: ReqId)
    requires r in s.reqs
  {
    var rec := s.reqs[r];
    && r in s.answers && r in s.hooks && s.answers[r] <= 1 && s.hooks[r] <= 1
    && (rec.pc.Routed? ==> s.answers[r] == 0 && s.hooks[r] == 0)
    && (HasMessage(rec.pc) ==> rec.msg in s.msgs && s.msgs[rec.msg].req == r)
    && (rec.pc.Received? ==>
          rec.msg in s.place && s.place[rec.msg] == Answered(rec.pc.ch) && rec.pc.ch !in s.buf && rec.pc.answerFor == r)
  }

  /** The message is where `place` says, and nothing but its own answer is in its channels. */
  ghost predicate MsgOk(s: State, m: MsgId)
    requires m in s.msgs
  {
    var msg := s.msgs[m];
    && msg.req in s.reqs && s.reqs[msg.req].msg == m && msg.req in s.answers && msg.req in s.hooks && m in s.place
    && PlaceOk(s, m, msg, s.reqs[msg.req].pc, s.place[m])
    && s.answers[msg.req] == (if s.place[m].Answered? then 1 else 0)
    && (!s.place[m].Dropped? ==> s.hooks[msg.req] == 0)
    && msg.resp.ResponseChan? && msg.err.ErrorChan? && (msg.strm.Some? ==> msg.strm.value.StreamChan?)
    && msg.strm.Some? == s.reqs[msg.req].stream
    && (forall c :: c in Chans(msg) ==>
          && c in s.chans && c !in s.chanPool
          && (c in s.buf ==> s.place[m] == Answered(c) && s.buf[c] == msg.req))
  }

  ghost predicate PlaceOk(s: State, m: MsgId, msg: Message, pc: Pc, place: Place) {
    && !pc.Routed?
    && (place.AtProducer? <==> Unsent(pc))
    && match place {
         case AtProducer => true
         case InQueue(q) => q in s.queues && m in s.queues[q].items
         case Held(t) => t in s.hold && s.hold[t] == Hold(m, msg.req)
         case Answered(c) => c in Chans(msg) && (pc.Waiting? ==> c in s.buf)
         case Dropped => msg.req in s.done
       }
  }

  /** A queue holds only messages placed in it, each once. */
  ghost predicate QueueOk(s: State, q: QueueId)
    requires q in s.queues
  {
    var items := s.queues[q].items;
    && (forall i :: 0 <= i < |items| ==> items[i] in s.msgs && items[i] in s.place && s.place[items[i]] == InQueue(q))
    && (forall i, j :: 0 <= i < j < |items| ==> items[i] != items[j])
  }

  ghost predicate HoldOk(s: State, t: Taker)
    requires t in s.hold
  {
    var h := s.hold[t];
    h.msg in s.msgs && s.msgs[h.msg].req == h.req && h.msg in s.place && s.place[h.msg] == Held(t)
  }

  ghost predicate Apart(a: Message, b: Message) {
    Chans(a) !! Chans(b)
  }

  ghost predicate PoolsOk(s: State) {
    && s.place.Keys == s.msgs.Keys && s.msgPool !! s.msgs.Keys
    && s.chanPool <= s.chans && s.buf.Keys <= s.chans && s.chanPool !! s.buf.Keys
    && s.answers.Keys == s.reqs.Keys && s.hooks.Keys == s.reqs.Keys
  }

  ghost predicate ReqsOk(s: State) {
    forall r {:trigger ReqOk(s, r)} :: r in s.reqs ==> ReqOk(s, r)
  }

  ghost predicate MsgsOk(s: State) {
    forall m {:trigger MsgOk(s, m)} :: m in s.msgs ==> MsgOk(s, m)
  }

  ghost predicate QueuesOk(s: State) {
    forall q {:trigger QueueOk(s, q)} :: q in s.queues ==> QueueOk(s, q)
  }

  ghost predicate HoldsOk(s: State) {
    forall t {:trigger HoldOk(s, t)} :: t in s.hold ==> HoldOk(s, t)
  }

  /** No two unreleased messages share a channel. */
  ghost predicate AllApart(s: State) {
    forall m, n {:trigger Apart(s.msgs[m], s.msgs[n])} ::
      m in s.msgs && n in s.msgs && m != n ==> Apart(s.msgs[m], s.msgs[n])
  }

  ghost predicate MessageInv(s: State) {
    PoolsOk(s) && ReqsOk(s) && MsgsOk(s) && QueuesOk(s) && HoldsOk(s) && AllApart(s)
  }

  // ---- histories ----

  /** `a` is obtained from `b` by leaving elements out. */
  ghost predicate Subseq(a: seq<ReqId>, b: seq<ReqId>) {
    || a == []
    || (b != [] && (Subseq(a, b[..|b| - 1]) ||
                    (a[|a| - 1] == b[|b| - 1] && Subseq(a[..|a| - 1], b[..|b| - 1]))))
  }

  /** First in, first out: what was sent is what came out, then what is still there. */
  ghost predicate FifoOk(s: State, q: QueueId)
    requires q in s.queues
  {
    var rec := s.queues[q];
    && |rec.items| <= rec.cap
    && |rec.sent| == |rec.out| + |rec.items|
    && rec.out == rec.sent[..|rec.out|]
    && (forall i :: 0 <= i < |rec.items| ==>
          rec.items[i] in s.msgs && s.msgs[rec.items[i]].req == rec.sent[|rec.out| + i])
  }

  /** Provider `p` is being updated away from `q`. */
  ghost predicate Leaving(s: State, p: Provider, q: QueueId) {
    p in s.admin && s.admin[p].Updating? && s.admin[p].prev == q
  }

  /** What the handoff of `q` has in hand. */
  ghost function InHand(s: State, q: QueueId): seq<ReqId>
    requires q in s.queues
  {
    var p := s.queues[q].prov;
    if Leaving(s, p, q) && Handoff(p) in s.hold then [s.hold[Handoff(p)].req] else []
  }

  /** What the handoff took is what it moved, then what it cancelled, then what it holds. */
  ghost predicate HandoffOk(s: State, q: QueueId)
    requires q in s.queues
  {
    var rec := s.queues[q];
    && rec.taken == rec.moved + rec.cancelled + InHand(s, q)
    && Subseq(rec.taken, rec.out)
    && (rec.heir.None? ==> rec.taken == [])
    && (rec.prov in s.route && s.route[rec.prov] == q ==> rec.heir.None?)
    && (rec.heir.Some? ==> rec.heir.value in s.queues && rec.heir.value != q &&
                           Subseq(rec.moved, s.queues[rec.heir.value].sent))
    && (Leaving(s, rec.prov, q) ==>
          && rec.heir == Some(s.admin[rec.prov].next)
          && (s.admin[rec.prov].phase == Starting || s.admin[rec.prov].phase == Transferring ==> rec.cancelled == []))
  }

  ghost predicate FifoInv(s: State) {
    forall q {:trigger FifoOk(s, q)} :: q in s.queues ==> FifoOk(s, q)
  }

  ghost predicate HandoffInv(s: State) {
    forall q {:trigger HandoffOk(s, q)} :: q in s.queues ==> HandoffOk(s, q)
  }

  // ---- lifecycle ----

  ghost predicate RouteOk(s: State, p: Provider)
    requires p in s.route
  {
    var q := s.route[p];
    && q in s.queues && s.queues[q].prov == p && q !in s.cleaning
    && (s.queues[q].closing ==> p in s.admin && s.admin[p].Removing?)
  }

  ghost predicate AdminOk(s: State, p: Provider)
    requires p in s.admin
  {
    && p in s.route && s.route[p] in s.queues && s.queues[s.route[p]].prov == p
    && match s.admin[p] {
         case Preparing(q) => s.route[p] == q && !s.queues[q].closing
         case Updating(prev, next, phase) =>
           && s.route[p] == next && !s.queues[next].closing && prev != next
           && prev in s.queues && s.queues[prev].prov == p && s.queues[prev].sweep == NotStarted
           && (s.queues[prev].closing <==> phase == Signalled)
           && (prev in s.cleaning <==> phase == Registered || phase == Signalled)
         case Removing(q, waited) =>
           s.route[p] == q && s.queues[q].closing && s.queues[q].sweep != NotStarted &&
           (waited ==> s.queues[q].sweep == Swept && RetiredCount(s, p) == 0)
       }
  }

  /** A queue with a running worker is current, being retired, or counted as retired. */
  ghost predicate WorkerOk(s: State, w: WorkerId)
    requires w in s.live
  {
    var q := s.live[w].q;
    && q in s.queues && (s.live[w].draining ==> s.queues[q].closing)
    && (s.queues[q].sweep == NotStarted || s.queues[q].sweep == AwaitWorkers)
    && var p := s.queues[q].prov;
       (p in s.route && s.route[p] == q) || q in s.cleaning || Leaving(s, p, q)
  }

  ghost predicate WaitGroupOk(s: State, q: QueueId)
    requires q in s.queues
  {
    && s.queues[q].wg == |LiveOn(s.live, q)|
    && (s.queues[q].sweep != NotStarted ==> s.queues[q].closing)
  }

  ghost predicate RetiredOk(s: State, p: Provider) {
    RetiredCount(s, p) == |CleaningOf(s, p)| && (p !in s.route ==> RetiredCount(s, p) == 0)
  }

  ghost predicate TakerOk(s: State, t: Taker)
    requires t in s.hold
  {
    match t
    case Worker(w) => w in s.live
    case Handoff(p) => InHandoff(s, p)
    case Sweeper(q) => q in s.queues && s.queues[q].sweep == Sweeping
  }

  ghost predicate LockInv(s: State) {
    && (forall p {:trigger RouteOk(s, p)} :: p in s.route ==> RouteOk(s, p))
    && (forall p {:trigger AdminOk(s, p)} :: p in s.admin ==> AdminOk(s, p))
  }

  ghost predicate WorkerInv(s: State) {
    && (forall w {:trigger WorkerOk(s, w)} :: w in s.live ==> WorkerOk(s, w))
    && (forall q {:trigger WaitGroupOk(s, q)} :: q in s.queues ==> WaitGroupOk(s, q))
  }

  ghost predicate RetiredInv(s: State) {
    && s.cleaning <= s.queues.Keys
    && (forall p {:trigger RetiredOk(s, p)} :: RetiredOk(s, p))
  }

  ghost predicate TakerInv(s: State) {
    forall t {:trigger TakerOk(s, t)} :: t in s.hold ==> TakerOk(s, t)
  }

  ghost predicate LifecycleInv(s: State) {
    LockInv(s) && WorkerInv(s) && RetiredInv(s) && TakerInv(s)
  }

  ghost predicate Inv(s: State) {
    MessageInv(s) && FifoInv(s) && HandoffInv(s) && LifecycleInv(s)
  }
}
