/**
 The lock-free slot is what the connection model takes it for: seen as the set of clients
 with an unfinished winner, every step of ExclusiveOps leaves the slots alone, acquires one
 that was free, or releases one that was held.
 */
module SlotRefinement {
  import opened ExclusiveOps
  import M = McpConnections

  /** The clients whose slot is held. */
  function Taken(s: State): set<ClientId> {
    set c | c in s.callers && Winner(s.callers[c]) :: s.callers[c].id
  }

  predicate Wins(s: State, e: Step) {
    && (e.LoadOrStore? || e.CompareAndSwap?) && e.c in s.callers && Enabled(s, e)
    && e.c in Apply(s, e).callers && Winner(Apply(s, e).callers[e.c])
  }

  /** Winning adds a client whose slot was free. */
  lemma WinTakes(s: State, e: Step)
    requires Inv(s) && Wins(s, e)
    ensures s.callers[e.c].id !in Taken(s)
    ensures Taken(Apply(s, e)) == Taken(s) + {s.callers[e.c].id}
  {
    var t, id := Apply(s, e), s.callers[e.c].id;
    assert CallerOk(s, e.c);
    forall d | d in s.callers && Winner(s.callers[d]) ensures s.callers[d].id != id { assert CallerOk(s, d); }
    forall x ensures x in Taken(t) <==> x in Taken(s) || x == id {
      if x in Taken(s) {
        var d :| d in s.callers && Winner(s.callers[d]) && s.callers[d].id == x;
        assert d != e.c && d in t.callers && t.callers[d] == s.callers[d];
      }
      if x == id { assert e.c in t.callers && t.callers[e.c].id == id; }
    }
  }

  /** Closing the done signal frees the slot: nobody else holds it. */
  lemma CloseFrees(s: State, e: Step)
    requires Inv(s) && Enabled(s, e) && e.CloseDone?
    ensures s.callers[e.c].id in Taken(s)
    ensures Taken(Apply(s, e)) == Taken(s) - {s.callers[e.c].id}
  {
    var t, id := Apply(s, e), s.callers[e.c].id;
    assert CallerOk(s, e.c);
    forall x ensures x in Taken(t) <==> x in Taken(s) && x != id {
      if x in Taken(s) && x != id {
        var d :| d in s.callers && Winner(s.callers[d]) && s.callers[d].id == x;
        assert d != e.c && d in t.callers && t.callers[d] == s.callers[d];
      }
      if x in Taken(t) {
        var d :| d in t.callers && Winner(t.callers[d]) && t.callers[d].id == x;
        assert CallerOk(s, d) && OwnersDiffer(s, d, e.c);
      }
    }
  }

  /** Every other step leaves the held slots as they are. */
  lemma OthersLeave(s: State, e: Step)
    requires Inv(s) && Enabled(s, e) && !Wins(s, e) && !e.CloseDone?
    ensures Taken(Apply(s, e)) == Taken(s)
  {
    var t := Apply(s, e);
    if !ByWaiter(e) {
      assert CallerOk(s, e.c);
      forall x ensures x in Taken(t) <==> x in Taken(s) {
        if x in Taken(s) {
          var d :| d in s.callers && Winner(s.callers[d]) && s.callers[d].id == x;
          assert d in t.callers && Winner(t.callers[d]) && t.callers[d].id == x;
        }
        if x in Taken(t) {
          var d :| d in t.callers && Winner(t.callers[d]) && t.callers[d].id == x;
          assert d in s.callers && Winner(s.callers[d]) && s.callers[d].id == x;
        }
      }
    } else {
      assert t.callers == s.callers;
    }
  }

  /** The step of the connection model that a step of the slot is, if it is one. */
  function Seen(s: State, e: Step): seq<M.Step>
    requires Enabled(s, e)
  {
    if Wins(s, e) then [M.Acquire(s.callers[e.c].id)]
    else if e.CloseDone? then [M.Release(s.callers[e.c].id)]
    else []
  }

  /** What the first `j` steps of a run are in the connection model. */
  function SeenRun(run: seq<State>, steps: seq<Step>, j: nat): seq<M.Step>
    requires IsRun(run, steps) && j <= |steps|
  {
    if j == 0 then [] else SeenRun(run, steps, j - 1) + Seen(run[j - 1], steps[j - 1])
  }

  /** Held slots, as the connection model has them when all holders are between dials. */
  ghost predicate SameSlots(s: State, m: M.State) {
    && m.slots.Keys == Taken(s)
    && forall id :: id in m.slots ==> m.slots[id] == M.Held(false, false)
  }

  lemma SeenStep(s: State, e: Step, m: M.State)
    requires Inv(s) && Enabled(s, e) && SameSlots(s, m)
    ensures forall a :: a in Seen(s, e) ==> M.Enabled(m, a) && SameSlots(Apply(s, e), M.Apply(m, a))
    ensures Seen(s, e) == [] ==> SameSlots(Apply(s, e), m)
  {
    if Wins(s, e) {
      WinTakes(s, e);
    } else if e.CloseDone? {
      CloseFrees(s, e);
    } else {
      OthersLeave(s, e);
    }
  }

  /** Every run of the slot is a run of Acquire and Release steps of the connection model, with the same slots held at every point. */
  lemma {:induction false} SlotRunRefines(run: seq<State>, steps: seq<Step>, j: nat) returns (mrun: seq<M.State>)
    requires IsRun(run, steps) && run[0] == EmptyState && j < |run|
    ensures M.IsRun(mrun, SeenRun(run, steps, j)) && mrun[0] == M.EmptyState
    ensures SameSlots(run[j], mrun[|mrun| - 1])
  {
    if j == 0 {
      mrun := [M.EmptyState];
    } else {
      var before := SlotRunRefines(run, steps, j - 1);
      RunKeeps(run, steps, j - 1);
      mrun := SeenExtends(run[j - 1], steps[j - 1], before, SeenRun(run, steps, j - 1));
    }
  }

  lemma SeenExtends(s: State, e: Step, before: seq<M.State>, msteps: seq<M.Step>) returns (mrun: seq<M.State>)
    requires Inv(s) && Enabled(s, e) && M.IsRun(before, msteps) && SameSlots(s, before[|before| - 1])
    ensures M.IsRun(mrun, msteps + Seen(s, e)) && mrun[0] == before[0]
    ensures SameSlots(Apply(s, e), mrun[|mrun| - 1])
  {
    var m := before[|before| - 1];
    SeenStep(s, e, m);
    if Seen(s, e) == [] {
      mrun := before;
      assert msteps + Seen(s, e) == msteps;
    } else {
      var a := Seen(s, e)[0];
      assert a in Seen(s, e) && Seen(s, e) == [a];
      mrun := before + [M.Apply(m, a)];
      RunExtends(before, msteps, a, M.Apply(m, a));
    }
  }

  lemma RunExtends(before: seq<M.State>, steps: seq<M.Step>, a: M.Step, m: M.State)
    requires M.IsRun(before, steps) && M.Enabled(before[|before| - 1], a) && m == M.Apply(before[|before| - 1], a)
    ensures M.IsRun(before + [m], steps + [a])
  {
  }
}
