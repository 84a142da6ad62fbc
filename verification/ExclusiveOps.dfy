/**
 The exclusive-operation slot of an MCP client: a lock-free registration with one
 in-flight operation per client ID, and waiters that join it.

 Any number of callers and waiters interleave at the granularity of the atomic map
 operations, the write of the outcome and the closing of the done signal.
 */
module ExclusiveOps {

  type ClientId = string
  type OpId = nat
  type CallerId = nat
  type WaiterId = nat

  datatype Error = NoError | Error(message: string)

  /** One registered operation; `err` may be read once `done` is closed. */
  datatype Op = Op(client: ClientId, done: bool, err: Error)

  /** Where a caller stands. `op` is its own operation, allocated before the loop. */
  datatype Caller =
    | Trying(id: ClientId, op: OpId)                    // about to load-or-store
    | Loaded(id: ClientId, op: OpId, existing: OpId)    // found another operation, about to look at its done signal
    | SawDone(id: ClientId, op: OpId, existing: OpId)   // that operation was done, about to compare-and-swap
    | Running(id: ClientId, op: OpId)                   // won the slot
    | Reporting(id: ClientId, op: OpId)                 // wrote the outcome, about to close done
    | Refused(id: ClientId)
    | Ended

  datatype Waiter =
    | Waiting(op: OpId)
    | Joined(op: OpId, err: Error)
    | NotJoined

  /** `final` records the error each operation was finished with. */
  datatype State = State(
    slot: map<ClientId, OpId>,
    ops: map<OpId, Op>,
    callers: map<CallerId, Caller>,
    waiters: map<WaiterId, Waiter>,
    final: map<OpId, Error>)

  const EmptyState := State(map[], map[], map[], map[], map[])

  datatype Step =
    | Begin(c: CallerId, id: ClientId, op: OpId)
    | LoadOrStore(c: CallerId)
    | LookAtDone(c: CallerId)
    | CompareAndSwap(c: CallerId)
    | WriteOutcome(c: CallerId, err: Error)
    | CloseDone(c: CallerId)
    | Await(w: WaiterId, id: ClientId)
    | Wake(w: WaiterId)
    | TimeOut(w: WaiterId)

  predicate Enabled(s: State, e: Step) {
    match e
    case Begin(c, _, op) => c !in s.callers && op !in s.ops
    case LoadOrStore(c) => c in s.callers && s.callers[c].Trying?
    case LookAtDone(c) => c in s.callers && s.callers[c].Loaded? && s.callers[c].existing in s.ops
    case CompareAndSwap(c) => c in s.callers && s.callers[c].SawDone?
    case WriteOutcome(c, _) => c in s.callers && s.callers[c].Running? && s.callers[c].op in s.ops
    case CloseDone(c) => c in s.callers && s.callers[c].Reporting? && s.callers[c].op in s.ops
    case Await(w, _) => w !in s.waiters
    case Wake(w) => w in s.waiters && s.waiters[w].Waiting? && s.waiters[w].op in s.ops && s.ops[s.waiters[w].op].done
    case TimeOut(w) => w in s.waiters && s.waiters[w].Waiting?
  }

  function Apply(s: State, e: Step): State
    requires Enabled(s, e)
  {
    match e
    case Begin(c, id, op) =>
      s.(ops := s.ops[op := Op(id, false, NoError)], callers := s.callers[c := Trying(id, op)])
    case LoadOrStore(c) =>
      var p := s.callers[c];
      if p.id in s.slot then s.(callers := s.callers[c := Loaded(p.id, p.op, s.slot[p.id])])
      else s.(slot := s.slot[p.id := p.op], callers := s.callers[c := Running(p.id, p.op)])
    case LookAtDone(c) =>
      var p := s.callers[c];
      s.(callers := s.callers[c := if s.ops[p.existing].done then SawDone(p.id, p.op, p.existing) else Refused(p.id)])
    case CompareAndSwap(c) =>
      var p := s.callers[c];
      if p.id in s.slot && s.slot[p.id] == p.existing
      then s.(slot := s.slot[p.id := p.op], callers := s.callers[c := Running(p.id, p.op)])
      else s.(callers := s.callers[c := Trying(p.id, p.op)])
    case WriteOutcome(c, err) =>
      var p := s.callers[c];
      s.(ops := s.ops[p.op := s.ops[p.op].(err := err)], final := s.final[p.op := err],
         callers := s.callers[c := Reporting(p.id, p.op)])
    case CloseDone(c) =>
      var p := s.callers[c];
      s.(ops := s.ops[p.op := s.ops[p.op].(done := true)], callers := s.callers[c := Ended])
    case Await(w, id) =>
      s.(waiters := s.waiters[w := if id in s.slot then Waiting(s.slot[id]) else NotJoined])
    case Wake(w) =>
      var op := s.waiters[w].op;
      s.(waiters := s.waiters[w := Joined(op, s.ops[op].err)])
    case TimeOut(w) =>
      s.(waiters := s.waiters[w := NotJoined])
  }

  ghost predicate IsRun(run: seq<State>, steps: seq<Step>) {
    && |run| == |steps| + 1
    && forall i {:trigger steps[i]} :: 0 <= i < |steps| ==> Enabled(run[i], steps[i]) && run[i + 1] == Apply(run[i], steps[i])
  }

  ghost predicate Reachable(s: State) {
    exists run: seq<State>, steps: seq<Step> :: IsRun(run, steps) && run[0] == EmptyState && run[|run| - 1] == s
  }

  // ---- the invariant ----

  /** The caller owns an operation that is not done yet. */
  predicate Owns(p: Caller) {
    p.Trying? || p.Loaded? || p.SawDone? || p.Running? || p.Reporting?
  }

  predicate Winner(p: Caller) {
    p.Running? || p.Reporting?
  }

  ghost predicate CallerOk(s: State, c: CallerId) {
    c in s.callers && Owns(s.callers[c]) ==>
      var p := s.callers[c];
      && p.op in s.ops && s.ops[p.op].client == p.id && !s.ops[p.op].done
      && (p.Loaded? || p.SawDone? ==>
            && p.existing in s.ops && s.ops[p.existing].client == p.id && p.existing != p.op
            && (!s.ops[p.existing].done ==> p.id in s.slot && s.slot[p.id] == p.existing))
      && (p.SawDone? ==> s.ops[p.existing].done)
      && (Winner(p) ==> p.id in s.slot && s.slot[p.id] == p.op)
      && (!Winner(p) ==> !(p.id in s.slot && s.slot[p.id] == p.op))
      && (p.op in s.final <==> p.Reporting?)
      && (p.Reporting? ==> s.ops[p.op].err == s.final[p.op])
  }

  ghost predicate OwnersDiffer(s: State, c: CallerId, d: CallerId) {
    c in s.callers && d in s.callers && c != d && Owns(s.callers[c]) && Owns(s.callers[d]) ==> s.callers[c].op != s.callers[d].op
  }

  /** Every registered operation is done or has its winner. */
  ghost predicate SlotOk(s: State, id: ClientId) {
    id in s.slot ==>
      && s.slot[id] in s.ops && s.ops[s.slot[id]].client == id
      && (s.ops[s.slot[id]].done || exists c :: c in s.callers && Winner(s.callers[c]) && s.callers[c].op == s.slot[id])
  }

  ghost predicate OpOk(s: State, op: OpId) {
    && (op in s.final ==> op in s.ops)
    && (op in s.ops && s.ops[op].done ==> op in s.final && s.ops[op].err == s.final[op])
  }

  ghost predicate WaiterOk(s: State, w: WaiterId) {
    w in s.waiters ==>
      var p := s.waiters[w];
      && (p.Waiting? ==> p.op in s.ops)
      && (p.Joined? ==> p.op in s.ops && s.ops[p.op].done && p.op in s.final && p.err == s.final[p.op])
  }

  ghost predicate Inv(s: State) {
    && (forall c {:trigger CallerOk(s, c)} :: CallerOk(s, c))
    && (forall c, d {:trigger OwnersDiffer(s, c, d)} :: OwnersDiffer(s, c, d))
    && (forall id {:trigger SlotOk(s, id)} :: SlotOk(s, id))
    && (forall op {:trigger OpOk(s, op)} :: OpOk(s, op))
    && (forall w {:trigger WaiterOk(s, w)} :: WaiterOk(s, w))
  }

  // ---- preservation ----


  predicate ByWaiter(e: Step) {
    e.Await? || e.Wake? || e.TimeOut?
  }

  /** A caller's own step. */
  lemma OwnStepKeeps(s: State, e: Step)
    requires Inv(s) && Enabled(s, e) && !ByWaiter(e)
    ensures CallerOk(Apply(s, e), e.c)
  {
    assert CallerOk(s, e.c);
    if e.Begin? {
      assert OpOk(s, e.op) && SlotOk(s, e.id);
    } else {
      assert SlotOk(s, s.callers[e.c].id) && OpOk(s, s.callers[e.c].op);
    }
  }

  /** Another caller's step. */
  lemma OtherStepKeeps(s: State, e: Step, c: CallerId)
    requires Inv(s) && Enabled(s, e) && !ByWaiter(e) && c != e.c
    ensures CallerOk(Apply(s, e), c)
  {
    assert CallerOk(s, c) && CallerOk(s, e.c) && OwnersDiffer(s, c, e.c);
  }

  lemma StepKeepsCaller(s: State, e: Step, c: CallerId)
    requires Inv(s) && Enabled(s, e)
    ensures CallerOk(Apply(s, e), c)
  {
    assert CallerOk(s, c);
    if !ByWaiter(e) {
      if c == e.c { OwnStepKeeps(s, e); } else { OtherStepKeeps(s, e, c); }
    }
  }

  lemma StepKeepsOwners(s: State, e: Step, c: CallerId, d: CallerId)
    requires Inv(s) && Enabled(s, e)
    ensures OwnersDiffer(Apply(s, e), c, d)
  {
    assert CallerOk(s, c) && CallerOk(s, d) && OwnersDiffer(s, c, d);
  }

  lemma StepKeepsSlot(s: State, e: Step, id: ClientId)
    requires Inv(s) && Enabled(s, e)
    ensures SlotOk(Apply(s, e), id)
  {
    var t := Apply(s, e);
    assert SlotOk(s, id);
    if !ByWaiter(e) {
      assert CallerOk(s, e.c);
      if id in s.slot && !s.ops[s.slot[id]].done {
        var c :| c in s.callers && Winner(s.callers[c]) && s.callers[c].op == s.slot[id];
        assert OwnersDiffer(s, c, e.c) && CallerOk(s, c);
        assert c in t.callers;
      }
      if id in t.slot && (id !in s.slot || t.slot[id] != s.slot[id]) { assert e.c in t.callers && Winner(t.callers[e.c]); }
    }
  }

  lemma StepKeepsOp(s: State, e: Step, op: OpId)
    requires Inv(s) && Enabled(s, e)
    ensures OpOk(Apply(s, e), op)
  {
    assert OpOk(s, op);
    if !ByWaiter(e) { assert CallerOk(s, e.c); }
  }

  lemma StepKeepsWaiter(s: State, e: Step, w: WaiterId)
    requires Inv(s) && Enabled(s, e)
    ensures WaiterOk(Apply(s, e), w)
  {
    assert WaiterOk(s, w);
    if e.Await? { assert SlotOk(s, e.id); }
    else if e.Wake? { assert OpOk(s, s.waiters[e.w].op) && WaiterOk(s, e.w); }
    else if !e.TimeOut? { assert CallerOk(s, e.c); }
  }

  lemma StepKeeps(s: State, e: Step)
    requires Inv(s) && Enabled(s, e)
    ensures Inv(Apply(s, e))
  {
    var t := Apply(s, e);
    forall c ensures CallerOk(t, c) { StepKeepsCaller(s, e, c); }
    forall c, d ensures OwnersDiffer(t, c, d) { StepKeepsOwners(s, e, c, d); }
    forall id ensures SlotOk(t, id) { StepKeepsSlot(s, e, id); }
    forall op ensures OpOk(t, op) { StepKeepsOp(s, e, op); }
    forall w ensures WaiterOk(t, w) { StepKeepsWaiter(s, e, w); }
  }

  lemma {:induction false} RunKeeps(run: seq<State>, steps: seq<Step>, i: nat)
    requires IsRun(run, steps) && Inv(run[0]) && i < |run|
    ensures Inv(run[i])
  {
    if i > 0 {
      RunKeeps(run, steps, i - 1);
      StepKeeps(run[i - 1], steps[i - 1]);
    }
  }

  lemma ReachableInv(s: State)
    requires Reachable(s)
    ensures Inv(s)
  {
    var run: seq<State>, steps: seq<Step> :| IsRun(run, steps) && run[0] == EmptyState && run[|run| - 1] == s;
    RunKeeps(run, steps, |run| - 1);
  }

  // ---- what the slot gives ----

  /** At most one unfinished winner per client, and the slot names its operation. */
  lemma MutualExclusion(s: State, c: CallerId, d: CallerId)
    requires Reachable(s)
    requires c in s.callers && Winner(s.callers[c]) && d in s.callers && Winner(s.callers[d])
    requires s.callers[c].id == s.callers[d].id
    ensures c == d
    ensures s.callers[c].id in s.slot && s.slot[s.callers[c].id] == s.callers[c].op
    ensures s.callers[c].op in s.ops && !s.ops[s.callers[c].op].done
  {
    ReachableInv(s);
    assert CallerOk(s, c) && CallerOk(s, d) && OwnersDiffer(s, c, d);
  }

  /** Registrations are never deleted, and only a done operation is replaced, by compare-and-swap against it. */
  lemma ReplacedOnlyWhenDone(s: State, e: Step, id: ClientId)
    requires Reachable(s) && Enabled(s, e) && id in s.slot
    ensures var t := Apply(s, e);
            && id in t.slot
            && (t.slot[id] != s.slot[id] ==>
                  && e.CompareAndSwap? && s.callers[e.c].existing == s.slot[id]
                  && s.slot[id] in s.ops && s.ops[s.slot[id]].done)
  {
    ReachableInv(s);
    if e.CompareAndSwap? { assert CallerOk(s, e.c); }
  }

  /** A caller is refused only while another caller is between winning and closing its done signal. */
  lemma RefusedOnlyWhileBusy(s: State, e: Step) returns (winner: CallerId)
    requires Reachable(s) && Enabled(s, e) && e.LookAtDone? && Apply(s, e).callers[e.c].Refused?
    ensures winner in s.callers && Winner(s.callers[winner]) && winner != e.c
    ensures s.callers[winner].id == s.callers[e.c].id
  {
    ReachableInv(s);
    assert CallerOk(s, e.c);
    var id := s.callers[e.c].id;
    assert SlotOk(s, id);
    winner :| winner in s.callers && Winner(s.callers[winner]) && s.callers[winner].op == s.slot[id];
    assert CallerOk(s, winner);
  }

  /** The error of a finished operation is never written again. */
  lemma FinalIsFinal(s: State, e: Step, op: OpId)
    requires Reachable(s) && Enabled(s, e) && op in s.final
    ensures op in Apply(s, e).final && Apply(s, e).final[op] == s.final[op]
  {
    ReachableInv(s);
    if e.WriteOutcome? { assert CallerOk(s, e.c); }
  }

  lemma {:induction false} FinalOverRun(run: seq<State>, steps: seq<Step>, i: nat, j: nat, op: OpId)
    requires IsRun(run, steps) && run[0] == EmptyState && i <= j < |run| && op in run[i].final
    ensures op in run[j].final && run[j].final[op] == run[i].final[op]
  {
    if i < j {
      FinalOverRun(run, steps, i, j - 1, op);
      assert IsRun(run[..j], steps[..j - 1]) && run[..j][0] == EmptyState && run[..j][j - 1] == run[j - 1];
      FinalIsFinal(run[j - 1], steps[j - 1], op);
    }
  }

  /**
   A waiter that joined loaded its operation from the slot, and at the end of the run holds
   the error that operation was finished with.
   */
  lemma JoinedReportsFinalError(run: seq<State>, steps: seq<Step>, i: nat, j: nat, w: WaiterId)
    requires IsRun(run, steps) && run[0] == EmptyState && i < |steps| && i < j < |run|
    requires steps[i].Await? && steps[i].w == w && w in run[j].waiters && run[j].waiters[w].Joined?
    ensures var op := run[j].waiters[w].op;
            && steps[i].id in run[i].slot && run[i].slot[steps[i].id] == op
            && op in run[j].final && run[j].waiters[w].err == run[j].final[op]
            && op in run[j].ops && run[j].ops[op].done
  {
    RunKeeps(run, steps, j);
    assert WaiterOk(run[j], w);
    WaiterKeepsOp(run, steps, i, j, w);
  }

  lemma {:induction false} WaiterKeepsOp(run: seq<State>, steps: seq<Step>, i: nat, j: nat, w: WaiterId)
    requires IsRun(run, steps) && i < |steps| && i < j < |run|
    requires steps[i].Await? && steps[i].w == w
    ensures w in run[j].waiters
    ensures !run[j].waiters[w].NotJoined? ==> steps[i].id in run[i].slot && run[i].slot[steps[i].id] == run[j].waiters[w].op
  {
    if j == i + 1 {
      assert run[j] == Apply(run[i], steps[i]);
    } else {
      WaiterKeepsOp(run, steps, i, j - 1, w);
      WaiterStep(run[j - 1], steps[j - 1], w);
    }
  }

  lemma WaiterStep(s: State, e: Step, w: WaiterId)
    requires Enabled(s, e) && w in s.waiters
    ensures w in Apply(s, e).waiters
    ensures !Apply(s, e).waiters[w].NotJoined? ==> !s.waiters[w].NotJoined? && s.waiters[w].op == Apply(s, e).waiters[w].op
  {
  }

  /** No caller is ever stuck: until it is refused or has finished, its next step is possible. */
  lemma CallersNeverStuck(s: State, c: CallerId) returns (e: Step)
    requires Reachable(s) && c in s.callers && Owns(s.callers[c])
    ensures Enabled(s, e) && !e.Begin? && !ByWaiter(e) && e.c == c
  {
    ReachableInv(s);
    assert CallerOk(s, c);
    e := match s.callers[c]
      case Trying(_, _) => LoadOrStore(c)
      case Loaded(_, _, _) => LookAtDone(c)
      case SawDone(_, _, _) => CompareAndSwap(c)
      case Running(_, _) => WriteOutcome(c, NoError)
      case Reporting(_, _) => CloseDone(c);
  }

  // ---- who wins, who is refused, who joins ----

  /** With nothing registered, load-or-store wins the slot. */
  lemma FirstCallerWins(s: State, c: CallerId)
    requires c in s.callers && s.callers[c].Trying? && s.callers[c].id !in s.slot
    ensures Enabled(s, LoadOrStore(c))
    ensures var p, t := s.callers[c], Apply(s, LoadOrStore(c));
            c in t.callers && t.callers[c] == Running(p.id, p.op) && t.slot == s.slot[p.id := p.op]
  {
  }

  /** With a finished operation registered, three steps of the caller alone replace it and win. */
  lemma LaterCallerWins(s: State, c: CallerId)
    requires c in s.callers && s.callers[c].Trying? && s.callers[c].id in s.slot
    requires s.slot[s.callers[c].id] in s.ops && s.ops[s.slot[s.callers[c].id]].done
    ensures Enabled(s, LoadOrStore(c)) &&
            var s1 := Apply(s, LoadOrStore(c));
            Enabled(s1, LookAtDone(c)) &&
            var s2 := Apply(s1, LookAtDone(c));
            Enabled(s2, CompareAndSwap(c)) &&
            var p, s3 := s.callers[c], Apply(s2, CompareAndSwap(c));
            c in s3.callers && s3.callers[c] == Running(p.id, p.op) && s3.slot == s.slot[p.id := p.op]
  {
  }

  /** A caller that looks at the loaded operation is refused exactly when that one is not done. */
  lemma RefusedIff(s: State, c: CallerId)
    requires Enabled(s, LookAtDone(c))
    ensures var p, t := s.callers[c], Apply(s, LookAtDone(c));
            && c in t.callers
            && (s.ops[p.existing].done ==> t.callers[c] == SawDone(p.id, p.op, p.existing))
            && (!s.ops[p.existing].done ==> t.callers[c] == Refused(p.id))
  {
  }

  /** A winner reports its error, and whoever waits for its operation then joins with exactly that error. */
  lemma ReportReachesWaiter(s: State, c: CallerId, w: WaiterId, err: Error)
    requires Reachable(s) && c in s.callers && s.callers[c].Running? && w in s.waiters && s.waiters[w] == Waiting(s.callers[c].op)
    ensures Enabled(s, WriteOutcome(c, err)) &&
            var s1 := Apply(s, WriteOutcome(c, err));
            Enabled(s1, CloseDone(c)) && !Enabled(s1, Wake(w)) &&
            var s2 := Apply(s1, CloseDone(c));
            Enabled(s2, Wake(w)) &&
            var s3 := Apply(s2, Wake(w));
            c in s2.callers && s2.callers[c].Ended? && w in s3.waiters && s3.waiters[w] == Joined(s.callers[c].op, err)
  {
    ReachableInv(s);
    assert CallerOk(s, c);
  }

  /** A waiter waits for the registered operation, and gets nothing when none was ever registered. */
  lemma AwaitLoads(s: State, w: WaiterId, id: ClientId)
    requires w !in s.waiters
    ensures Enabled(s, Await(w, id))
    ensures var t := Apply(s, Await(w, id));
            w in t.waiters && t.waiters[w] == if id in s.slot then Waiting(s.slot[id]) else NotJoined
  {
  }
}
