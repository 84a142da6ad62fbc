/**
 The provider queue lifecycle as a transition system.

 Producers (tryRequest), workers (requestWorker), the live replacement of a queue
 (UpdateProvider), its removal (RemoveProvider), the sweeps (drainQueueWithErrors) and
 the pooled one-slot answer channels interleave step by step. Requests, messages,
 channels, queues, workers and providers are unbounded; every queue is a bounded FIFO.
 A Go `select` becomes one step per case, each enabled when that case is ready.

 Steps are deterministic: all nondeterminism is in which step is chosen.
 */
module ProviderQueues {
  import opened Wrappers

  type ReqId = nat
  type MsgId = nat
  type QueueId = nat
  type WorkerId = nat
  type Provider = nat

  /** A pooled answer channel with room for one value; the constructor says which pool it belongs to. */
  datatype Chan = ResponseChan(id: nat) | ErrorChan(id: nat) | StreamChan(id: nat)

  /** Whoever may receive from a queue. */
  datatype Taker = Worker(w: WorkerId) | Handoff(p: Provider) | Sweeper(q: QueueId)

  /** Where a producer stands in tryRequest / tryStreamRequest. */
  datatype Pc =
    | Routed(q: QueueId)                   // has a queue, no message yet
    | Checking(q: QueueId)                 // has a message, about to read the closing flag
    | Rerouting(q: QueueId)                // saw the flag set, about to look up the current queue
    | Candidate(q: QueueId, c: QueueId)    // found another queue, about to read its flag
    | Committed(q: QueueId)                // passed the check, in the first select
    | Full(q: QueueId)                     // took the default branch of the first select
    | Blocked(q: QueueId)                  // in the second, blocking select
    | Waiting                              // message sent, waiting for the answer
    | Received(ch: Chan, answerFor: ReqId) // got a value; post-hooks and release are next
    | Finished

  datatype Request = Request(stream: bool, pc: Pc, msg: MsgId)

  datatype Message = Message(req: ReqId, resp: Chan, err: Chan, strm: Option<Chan>)

  /** What a taker has in hand: the message and the request whose payload it read from it. */
  datatype Hold = Hold(msg: MsgId, req: ReqId)

  /** Auxiliary: where an unreleased message is. Read by no step. */
  datatype Place = AtProducer | InQueue(q: QueueId) | Held(t: Taker) | Answered(ch: Chan) | Dropped

  datatype WorkerRec = WorkerRec(q: QueueId, draining: bool)

  /** The final drain of a queue: waits for the workers, then receives until empty. */
  datatype Sweep = NotStarted | AwaitWorkers | Sweeping | Swept

  /** The last six fields are histories, read by no step. */
  datatype Queue = Queue(
    prov: Provider, cap: nat, items: seq<MsgId>, closing: bool, wg: nat, sweep: Sweep,
    sent: seq<ReqId>, out: seq<ReqId>,
    taken: seq<ReqId>, moved: seq<ReqId>, cancelled: seq<ReqId>, heir: Option<QueueId>)

  datatype Phase = Starting | Transferring | Cancelling | TransferDone | Registered | Signalled

  /** The holder of a provider's write lock. */
  datatype Admin =
    | Preparing(q: QueueId)
    | Updating(prev: QueueId, next: QueueId, phase: Phase)
    | Removing(q: QueueId, waited: bool)

  /** `place`, `msgPool`, `answers` and `hooks` are auxiliary: no guard depends on their values. */
  datatype State = State(
    reqs: map<ReqId, Request>, done: set<ReqId>,
    msgs: map<MsgId, Message>, msgPool: set<MsgId>, place: map<MsgId, Place>,
    chans: set<Chan>, chanPool: set<Chan>, buf: map<Chan, ReqId>,
    hold: map<Taker, Hold>,
    queues: map<QueueId, Queue>, route: map<Provider, QueueId>, live: map<WorkerId, WorkerRec>,
    admin: map<Provider, Admin>, retired: map<Provider, nat>, cleaning: set<QueueId>,
    answers: map<ReqId, nat>, hooks: map<ReqId, nat>)

  datatype ProducerStep =
    | Start(r: ReqId, p: Provider, stream: bool)
    | Acquire(r: ReqId, m: MsgId, resp: Chan, err: Chan, strm: Option<Chan>)
    | SeeOpen(r: ReqId)
    | SeeClosing(r: ReqId)
    | LoadCandidate(r: ReqId, p: Provider)
    | SeeCandidateOpen(r: ReqId)
    | Send(r: ReqId)
    | FindFull(r: ReqId)
    | Block(r: ReqId)
    | GiveUp(r: ReqId, p: Provider)
    | Receive(r: ReqId, ch: Chan)
    | Complete(r: ReqId)
    | Leave(r: ReqId)
    | CancelContext(r: ReqId)

  datatype TakerStep =
    | WorkerTake(w: WorkerId)
    | WorkerSeeDone(w: WorkerId)
    | WorkerExit(w: WorkerId)
    | Answer(t: Taker, ch: Chan)
    | Abandon(t: Taker, billed: bool)

  datatype LifecycleStep =
    | Publish(p: Provider, q: QueueId, cap: nat)
    | StartWorker(p: Provider, w: WorkerId)
    | PrepareDone(p: Provider)
    | UpdateBegin(p: Provider, q: QueueId, cap: nat)
    | BeginTransfer(p: Provider)
    | HandoffTake(p: Provider)
    | HandoffMove(p: Provider)
    | HandoffFull(p: Provider)
    | HandoffDone(p: Provider)
    | Register(p: Provider)
    | SignalOld(p: Provider)
    | SpawnCleanup(p: Provider)
    | RemoveBegin(p: Provider)
    | SweepStart(q: QueueId)
    | SweepTake(q: QueueId)
    | SweepEnd(q: QueueId)
    | CleanupDone(q: QueueId)
    | RemoveLastWait(p: Provider)
    | RemoveFinish(p: Provider)

  datatype Step = ByProducer(pe: ProducerStep) | ByTaker(te: TakerStep) | ByLifecycle(le: LifecycleStep)

  // ---- shared vocabulary ----

  function Chans(m: Message): set<Chan> {
    {m.resp, m.err} + (if m.strm.Some? then {m.strm.value} else {})
  }

  /** The producer still has its message and has not sent it. */
  predicate Unsent(pc: Pc) {
    pc.Checking? || pc.Rerouting? || pc.Candidate? || pc.Committed? || pc.Full? || pc.Blocked?
  }

  predicate HasMessage(pc: Pc) {
    Unsent(pc) || pc.Waiting? || pc.Received?
  }

  /** Past the closing check of `q` and not yet sent: the window the sweep cannot see. */
  predicate InWindow(pc: Pc, q: QueueId) {
    (pc.Committed? || pc.Full? || pc.Blocked?) && pc.q == q
  }

  function Window(s: State, q: QueueId): set<ReqId> {
    set r | r in s.reqs && InWindow(s.reqs[r].pc, q)
  }

  /** The producers that can still send to `q` once it is closing: a full queue's default branch checks the flag again. */
  function Senders(s: State, q: QueueId): set<ReqId> {
    set r | r in s.reqs && (s.reqs[r].pc.Committed? || s.reqs[r].pc.Blocked?) && s.reqs[r].pc.q == q
  }

  function LiveOn(live: map<WorkerId, WorkerRec>, q: QueueId): set<WorkerId> {
    set w | w in live && live[w].q == q
  }

  function RetiredCount(s: State, p: Provider): nat {
    if p in s.retired then s.retired[p] else 0
  }

  function CleaningOf(s: State, p: Provider): set<QueueId> {
    set q | q in s.cleaning && q in s.queues && s.queues[q].prov == p
  }

  const EmptyState := State(map[], {}, map[], {}, map[], {}, {}, map[], map[], map[], map[], map[], map[], map[], {}, map[], map[])

  function NewQueue(p: Provider, cap: nat): Queue {
    Queue(p, cap, [], false, 0, NotStarted, [], [], [], [], [], None)
  }

  predicate Available(s: State, c: Chan) {
    c in s.chanPool || c !in s.chans
  }

  // ---- building blocks shared by several steps ----

  function SetPc(s: State, r: ReqId, pc: Pc): State
    requires r in s.reqs
  {
    s.(reqs := s.reqs[r := s.reqs[r].(pc := pc)])
  }

  function SetQueue(s: State, q: QueueId, rec: Queue): State {
    s.(queues := s.queues[q := rec])
  }

  /** releaseChannelMessage: drain the channels, return them and the message to their pools. */
  function Release(s: State, r: ReqId): State
    requires r in s.reqs && s.reqs[r].msg in s.msgs
  {
    var m := s.reqs[r].msg;
    var cs := Chans(s.msgs[m]);
    s.(reqs := s.reqs[r := s.reqs[r].(pc := Finished)],
       msgs := s.msgs - {m}, place := s.place - {m}, msgPool := s.msgPool + {m},
       chanPool := s.chanPool + cs, buf := s.buf - cs)
  }

  /** Put message `m`, carrying request `r`, at the tail of `q`. */
  function Deposit(s: State, q: QueueId, m: MsgId, r: ReqId): State
    requires q in s.queues
  {
    var rec := s.queues[q];
    s.(queues := s.queues[q := rec.(items := rec.items + [m], sent := rec.sent + [r])],
       place := s.place[m := InQueue(q)])
  }

  /** Receive the head of `q` into the hands of `t`. */
  function Take(s: State, q: QueueId, t: Taker): State
    requires q in s.queues && s.queues[q].items != [] && s.queues[q].items[0] in s.msgs
  {
    var rec := s.queues[q];
    var m := rec.items[0];
    var r := s.msgs[m].req;
    s.(queues := s.queues[q := rec.(items := rec.items[1..], out := rec.out + [r],
                                    taken := if t.Handoff? then rec.taken + [r] else rec.taken)],
       place := s.place[m := Held(t)],
       hold := s.hold[t := Hold(m, r)])
  }

  predicate CanTake(s: State, q: QueueId, t: Taker) {
    && q in s.queues && s.queues[q].items != [] && s.queues[q].items[0] in s.msgs
    && t !in s.hold
  }

  /** The cancellation history of the update that `t` runs, if it runs one. */
  function LogCancelled(s: State, t: Taker, r: ReqId): map<QueueId, Queue> {
    if t.Handoff? && t.p in s.admin && s.admin[t.p].Updating? && s.admin[t.p].prev in s.queues then
      var q := s.admin[t.p].prev;
      s.queues[q := s.queues[q].(cancelled := s.queues[q].cancelled + [r])]
    else
      s.queues
  }

  /** May `t` answer message `m` on `ch`? Drainers and the handoff only send errors. */
  predicate AnswersOn(s: State, t: Taker, m: Message, ch: Chan) {
    || ch == m.err
    || (t.Worker? && t.w in s.live && !s.live[t.w].draining &&
        (if m.strm.Some? then ch == m.strm.value else ch == m.resp))
  }

  /** The handoff answers only what it is cancelling. */
  predicate MayDispose(s: State, t: Taker) {
    && t in s.hold && s.hold[t].msg in s.msgs
    && (t.Handoff? ==> t.p in s.admin && s.admin[t.p].Updating? && s.admin[t.p].phase == Cancelling)
  }

  /** `q` is a queue of provider `p`. */
  predicate Serves(s: State, q: QueueId, p: Provider) {
    q in s.queues && s.queues[q].prov == p
  }

  // ---- guards ----

  predicate ProducerEnabled(s: State, e: ProducerStep) {
    match e
    case Start(r, p, _) => r !in s.reqs && p in s.route && p !in s.admin
    case Acquire(r, m, resp, err, strm) =>
      && r in s.reqs && s.reqs[r].pc.Routed? && m !in s.msgs
      && resp.ResponseChan? && Available(s, resp) && err.ErrorChan? && Available(s, err)
      && strm.Some? == s.reqs[r].stream
      && (strm.Some? ==> strm.value.StreamChan? && Available(s, strm.value))
    case SeeOpen(r) =>
      r in s.reqs && s.reqs[r].pc.Checking? && s.reqs[r].pc.q in s.queues && !s.queues[s.reqs[r].pc.q].closing
    case SeeClosing(r) =>
      r in s.reqs && s.reqs[r].pc.Checking? && s.reqs[r].pc.q in s.queues && s.queues[s.reqs[r].pc.q].closing
    case LoadCandidate(r, p) =>
      && r in s.reqs && s.reqs[r].pc.Rerouting? && Serves(s, s.reqs[r].pc.q, p)
      && p in s.route && s.route[p] != s.reqs[r].pc.q
    case SeeCandidateOpen(r) =>
      r in s.reqs && s.reqs[r].pc.Candidate? && s.reqs[r].pc.c in s.queues && !s.queues[s.reqs[r].pc.c].closing
    case Send(r) =>
      && r in s.reqs && (s.reqs[r].pc.Committed? || s.reqs[r].pc.Blocked?) && s.reqs[r].pc.q in s.queues
      && |s.queues[s.reqs[r].pc.q].items| < s.queues[s.reqs[r].pc.q].cap
    case FindFull(r) =>
      // the closing flag is set just before the done signal that would exclude this branch
      && r in s.reqs && s.reqs[r].pc.Committed? && s.reqs[r].pc.q in s.queues && r !in s.done
      && |s.queues[s.reqs[r].pc.q].items| >= s.queues[s.reqs[r].pc.q].cap
    case Block(r) =>
      && r in s.reqs && s.reqs[r].pc.Full? && s.reqs[r].pc.q in s.queues
      && !s.queues[s.reqs[r].pc.q].closing
    case GiveUp(r, p) =>
      && r in s.reqs && s.reqs[r].msg in s.msgs
      && match s.reqs[r].pc {
           case Rerouting(q) => Serves(s, q, p) && (p !in s.route || s.route[p] == q)
           case Candidate(q, c) => c in s.queues && s.queues[c].closing
           case Committed(q) => q in s.queues && (s.queues[q].closing || r in s.done)
           case Blocked(q) => q in s.queues && (s.queues[q].closing || r in s.done)
           case Full(q) => true
           case _ => false
         }
    case Receive(r, ch) =>
      && r in s.reqs && s.reqs[r].pc.Waiting? && s.reqs[r].msg in s.msgs && ch in s.buf
      && var m := s.msgs[s.reqs[r].msg];
         ch == m.err || (if m.strm.Some? then ch == m.strm.value else ch == m.resp)
    case Complete(r) => r in s.reqs && s.reqs[r].pc.Received? && s.reqs[r].msg in s.msgs && r in s.hooks
    case Leave(r) => r in s.reqs && s.reqs[r].pc.Waiting? && r in s.done
    case CancelContext(r) => r in s.reqs
  }

  predicate TakerEnabled(s: State, e: TakerStep) {
    match e
    case WorkerTake(w) => w in s.live && CanTake(s, s.live[w].q, Worker(w))
    case WorkerSeeDone(w) =>
      && w in s.live && !s.live[w].draining && Worker(w) !in s.hold
      && s.live[w].q in s.queues && s.queues[s.live[w].q].closing
    case WorkerExit(w) =>
      && w in s.live && s.live[w].draining && Worker(w) !in s.hold
      && s.live[w].q in s.queues && s.queues[s.live[w].q].items == [] && s.queues[s.live[w].q].wg > 0
    case Answer(t, ch) =>
      MayDispose(s, t) && AnswersOn(s, t, s.msgs[s.hold[t].msg], ch) && ch !in s.buf && s.hold[t].req in s.answers
    case Abandon(t, billed) =>
      && MayDispose(s, t) && s.msgs[s.hold[t].msg].req in s.done
      && (billed ==>
            && t.Worker? && t.w in s.live && !s.live[t.w].draining
            && s.msgs[s.hold[t].msg].strm.None? && s.msgs[s.hold[t].msg].req in s.hooks)
  }

  predicate LifecycleEnabled(s: State, e: LifecycleStep) {
    match e
    case Publish(p, q, _) => p !in s.route && p !in s.admin && q !in s.queues
    case StartWorker(p, w) =>
      && p in s.admin && w !in s.live
      && (s.admin[p].Preparing? || (s.admin[p].Updating? && s.admin[p].phase == Starting))
      && Recruiting(s.admin[p]) in s.queues
    case PrepareDone(p) => p in s.admin && s.admin[p].Preparing?
    case UpdateBegin(p, q, _) => p in s.route && p !in s.admin && q !in s.queues && s.route[p] in s.queues
    case BeginTransfer(p) => p in s.admin && s.admin[p].Updating? && s.admin[p].phase == Starting
    case HandoffTake(p) => InHandoff(s, p) && CanTake(s, s.admin[p].prev, Handoff(p))
    case HandoffMove(p) =>
      && InHandoff(s, p) && s.admin[p].phase == Transferring && Handoff(p) in s.hold
      && s.admin[p].prev in s.queues && s.admin[p].next in s.queues && s.admin[p].prev != s.admin[p].next
      && |s.queues[s.admin[p].next].items| < s.queues[s.admin[p].next].cap
    case HandoffFull(p) =>
      && InHandoff(s, p) && s.admin[p].phase == Transferring && Handoff(p) in s.hold
      && s.admin[p].next in s.queues
      && |s.queues[s.admin[p].next].items| >= s.queues[s.admin[p].next].cap
    case HandoffDone(p) =>
      && InHandoff(s, p) && Handoff(p) !in s.hold
      && s.admin[p].prev in s.queues && s.queues[s.admin[p].prev].items == []
    case Register(p) => p in s.admin && s.admin[p].Updating? && s.admin[p].phase == TransferDone
    case SignalOld(p) =>
      p in s.admin && s.admin[p].Updating? && s.admin[p].phase == Registered && s.admin[p].prev in s.queues
    case SpawnCleanup(p) =>
      p in s.admin && s.admin[p].Updating? && s.admin[p].phase == Signalled && s.admin[p].prev in s.queues
    case RemoveBegin(p) => p in s.route && p !in s.admin && s.route[p] in s.queues
    case SweepStart(q) => q in s.queues && s.queues[q].sweep == AwaitWorkers && s.queues[q].wg == 0
    case SweepTake(q) => q in s.queues && s.queues[q].sweep == Sweeping && CanTake(s, q, Sweeper(q))
    case SweepEnd(q) =>
      q in s.queues && s.queues[q].sweep == Sweeping && Sweeper(q) !in s.hold && s.queues[q].items == []
    case CleanupDone(q) =>
      && q in s.cleaning && q in s.queues && s.queues[q].sweep == Swept
      && s.queues[q].prov in s.retired && s.retired[s.queues[q].prov] > 0
    case RemoveLastWait(p) =>
      && p in s.admin && s.admin[p].Removing? && !s.admin[p].waited
      && s.admin[p].q in s.queues && s.queues[s.admin[p].q].sweep == Swept
      && RetiredCount(s, p) == 0
    case RemoveFinish(p) => p in s.admin && s.admin[p].Removing? && s.admin[p].waited
  }

  predicate InHandoff(s: State, p: Provider) {
    p in s.admin && s.admin[p].Updating? && (s.admin[p].phase == Transferring || s.admin[p].phase == Cancelling)
  }

  /** The queue a lock holder is starting workers on. */
  function Recruiting(a: Admin): QueueId
    requires a.Preparing? || a.Updating?
  {
    if a.Preparing? then a.q else a.next
  }

  predicate Enabled(s: State, e: Step) {
    match e
    case ByProducer(pe) => ProducerEnabled(s, pe)
    case ByTaker(te) => TakerEnabled(s, te)
    case ByLifecycle(le) => LifecycleEnabled(s, le)
  }

  // ---- effects ----

  function DoStart(s: State, r: ReqId, q: QueueId, stream: bool): State {
    s.(reqs := s.reqs[r := Request(stream, Routed(q), 0)], answers := s.answers[r := 0], hooks := s.hooks[r := 0])
  }

  /** getChannelMessage: channels from their pools (or new), emptied, bound to a message. */
  function DoAcquire(s: State, r: ReqId, q: QueueId, m: MsgId, msg: Message): State
    requires r in s.reqs
  {
    s.(reqs := s.reqs[r := s.reqs[r].(pc := Checking(q), msg := m)],
       msgs := s.msgs[m := msg], place := s.place[m := AtProducer], msgPool := s.msgPool - {m},
       chans := s.chans + Chans(msg), chanPool := s.chanPool - Chans(msg), buf := s.buf - Chans(msg))
  }

  function DoSend(s: State, r: ReqId, q: QueueId): State
    requires r in s.reqs && q in s.queues
  {
    SetPc(Deposit(s, q, s.reqs[r].msg, r), r, Waiting)
  }

  function DoReceive(s: State, r: ReqId, ch: Chan): State
    requires r in s.reqs && ch in s.buf
  {
    SetPc(s, r, Received(ch, s.buf[ch])).(buf := s.buf - {ch})
  }

  function AddHook(s: State, r: ReqId, runs: bool): State
    requires r in s.hooks
  {
    s.(hooks := if runs then s.hooks[r := s.hooks[r] + 1] else s.hooks)
  }

  function ApplyProducer(s: State, e: ProducerStep): State
    requires ProducerEnabled(s, e)
  {
    match e
    case Start(r, p, stream) => DoStart(s, r, s.route[p], stream)
    case Acquire(r, m, resp, err, strm) => DoAcquire(s, r, s.reqs[r].pc.q, m, Message(r, resp, err, strm))
    case SeeOpen(r) => SetPc(s, r, Committed(s.reqs[r].pc.q))
    case SeeClosing(r) => SetPc(s, r, Rerouting(s.reqs[r].pc.q))
    case LoadCandidate(r, p) => SetPc(s, r, Candidate(s.reqs[r].pc.q, s.route[p]))
    case SeeCandidateOpen(r) => SetPc(s, r, Committed(s.reqs[r].pc.c))
    case Send(r) => DoSend(s, r, s.reqs[r].pc.q)
    case FindFull(r) => SetPc(s, r, Full(s.reqs[r].pc.q))
    case Block(r) => SetPc(s, r, Blocked(s.reqs[r].pc.q))
    case GiveUp(r, _) => Release(s, r)
    case Receive(r, ch) => DoReceive(s, r, ch)
    case Complete(r) =>
      // tryRequest always runs the post-hooks; tryStreamRequest only on an error.
      AddHook(Release(s, r), r, !s.reqs[r].stream || s.reqs[r].pc.ch.ErrorChan?)
    case Leave(r) => SetPc(s, r, Finished)
    case CancelContext(r) => s.(done := s.done + {r})
  }

  function DoAnswer(s: State, t: Taker, ch: Chan): State
    requires t in s.hold && s.hold[t].req in s.answers
  {
    var h := s.hold[t];
    s.(buf := s.buf[ch := h.req], place := s.place[h.msg := Answered(ch)], hold := s.hold - {t},
       answers := s.answers[h.req := s.answers[h.req] + 1], queues := LogCancelled(s, t, h.req))
  }

  function DoAbandon(s: State, t: Taker): State
    requires t in s.hold
  {
    var h := s.hold[t];
    s.(place := s.place[h.msg := Dropped], hold := s.hold - {t}, queues := LogCancelled(s, t, h.req))
  }

  function ApplyTaker(s: State, e: TakerStep): State
    requires TakerEnabled(s, e)
  {
    match e
    case WorkerTake(w) => Take(s, s.live[w].q, Worker(w))
    case WorkerSeeDone(w) => s.(live := s.live[w := s.live[w].(draining := true)])
    case WorkerExit(w) =>
      var q := s.live[w].q;
      SetQueue(s, q, s.queues[q].(wg := s.queues[q].wg - 1)).(live := s.live - {w})
    case Answer(t, ch) => DoAnswer(s, t, ch)
    case Abandon(t, billed) =>
      var r := s.msgs[s.hold[t].msg].req;
      if billed then AddHook(DoAbandon(s, t), r, true) else DoAbandon(s, t)
  }

  /** The handoff sends what it holds to the new queue. */
  function DoMove(s: State, p: Provider, prev: QueueId, next: QueueId): State
    requires Handoff(p) in s.hold && prev in s.queues && next in s.queues && prev != next
  {
    var h := s.hold[Handoff(p)];
    var s1 := Deposit(s, next, h.msg, h.req);
    SetQueue(s1, prev, s1.queues[prev].(moved := s1.queues[prev].moved + [h.req])).(hold := s.hold - {Handoff(p)})
  }

  function SetPhase(s: State, p: Provider, phase: Phase): State
    requires p in s.admin && s.admin[p].Updating?
  {
    s.(admin := s.admin[p := s.admin[p].(phase := phase)])
  }

  /** prepareProvider: publish the queue before any worker runs. */
  function DoPublish(s: State, p: Provider, q: QueueId, cap: nat): State {
    SetQueue(s, q, NewQueue(p, cap)).(route := s.route[p := q], admin := s.admin[p := Preparing(q)])
  }

  function DoStartWorker(s: State, q: QueueId, w: WorkerId): State
    requires q in s.queues
  {
    SetQueue(s, q, s.queues[q].(wg := s.queues[q].wg + 1)).(live := s.live[w := WorkerRec(q, false)])
  }

  /** UpdateProvider: publish the replacement while the old queue is still open. */
  function DoUpdateBegin(s: State, p: Provider, prev: QueueId, q: QueueId, cap: nat): State
    requires prev in s.queues
  {
    s.(queues := s.queues[prev := s.queues[prev].(heir := Some(q))][q := NewQueue(p, cap)],
       route := s.route[p := q], admin := s.admin[p := Updating(prev, q, Starting)])
  }

  /** Count the old generation as retired before its queue is signalled. */
  function DoRegister(s: State, p: Provider): State
    requires p in s.admin && s.admin[p].Updating?
  {
    SetPhase(s, p, Registered).(retired := s.retired[p := RetiredCount(s, p) + 1],
                                cleaning := s.cleaning + {s.admin[p].prev})
  }

  function DoSignalOld(s: State, p: Provider): State
    requires p in s.admin && s.admin[p].Updating? && s.admin[p].prev in s.queues
  {
    var prev := s.admin[p].prev;
    SetPhase(SetQueue(s, prev, s.queues[prev].(closing := true)), p, Signalled)
  }

  function SetSweep(s: State, q: QueueId, sweep: Sweep): State
    requires q in s.queues
  {
    SetQueue(s, q, s.queues[q].(sweep := sweep))
  }

  function Unlock(s: State, p: Provider): State {
    s.(admin := s.admin - {p})
  }

  function DoRemoveBegin(s: State, p: Provider, q: QueueId): State
    requires q in s.queues
  {
    SetQueue(s, q, s.queues[q].(closing := true, sweep := AwaitWorkers)).(admin := s.admin[p := Removing(q, false)])
  }

  function DoCleanupDone(s: State, q: QueueId, p: Provider): State
    requires p in s.retired && s.retired[p] > 0
  {
    s.(retired := s.retired[p := s.retired[p] - 1], cleaning := s.cleaning - {q})
  }

  function DoRemoveLastWait(s: State, p: Provider, q: QueueId): State {
    s.(admin := s.admin[p := Removing(q, true)], retired := s.retired - {p})
  }

  function ApplyLifecycle(s: State, e: LifecycleStep): State
    requires LifecycleEnabled(s, e)
  {
    match e
    case Publish(p, q, cap) => DoPublish(s, p, q, cap)
    case StartWorker(p, w) => DoStartWorker(s, Recruiting(s.admin[p]), w)
    case PrepareDone(p) => Unlock(s, p)
    case UpdateBegin(p, q, cap) => DoUpdateBegin(s, p, s.route[p], q, cap)
    case BeginTransfer(p) => SetPhase(s, p, Transferring)
    case HandoffTake(p) => Take(s, s.admin[p].prev, Handoff(p))
    case HandoffMove(p) => DoMove(s, p, s.admin[p].prev, s.admin[p].next)
    case HandoffFull(p) => SetPhase(s, p, Cancelling)
    case HandoffDone(p) => SetPhase(s, p, TransferDone)
    case Register(p) => DoRegister(s, p)
    case SignalOld(p) => DoSignalOld(s, p)
    case SpawnCleanup(p) => Unlock(SetSweep(s, s.admin[p].prev, AwaitWorkers), p)
    case RemoveBegin(p) => DoRemoveBegin(s, p, s.route[p])
    case SweepStart(q) => SetSweep(s, q, Sweeping)
    case SweepTake(q) => Take(s, q, Sweeper(q))
    case SweepEnd(q) => SetSweep(s, q, Swept)
    case CleanupDone(q) => DoCleanupDone(s, q, s.queues[q].prov)
    case RemoveLastWait(p) => DoRemoveLastWait(s, p, s.admin[p].q)
    case RemoveFinish(p) => Unlock(s, p).(route := s.route - {p})
  }

  function Apply(s: State, e: Step): State
    requires Enabled(s, e)
  {
    match e
    case ByProducer(pe) => ApplyProducer(s, pe)
    case ByTaker(te) => ApplyTaker(s, te)
    case ByLifecycle(le) => ApplyLifecycle(s, le)
  }

  // ---- runs ----

  /** `run` holds the states reached by taking `steps` one after the other. */
  ghost predicate IsRun(run: seq<State>, steps: seq<Step>) {
    && |run| == |steps| + 1
    && forall i {:trigger steps[i]} :: 0 <= i < |steps| ==> Enabled(run[i], steps[i]) && run[i + 1] == Apply(run[i], steps[i])
  }

  ghost predicate Reachable(s: State) {
    exists run: seq<State>, steps: seq<Step> :: IsRun(run, steps) && run[0] == EmptyState && run[|run| - 1] == s
  }
}
