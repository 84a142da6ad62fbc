/**
 When a removed client comes back without being added again: exactly when the holder of its
 slot had read its configuration while it was still there.
 */
module McpReturn {
  import opened Wrappers
  import opened McpConnections
  import opened McpSafety
  import opened McpTheorems
  import opened McpStaleWrites

  predicate Adds(a: Step, id: ClientId) {
    (a.AddPlaceholder? || a.AddDisabled? || a.BootFallback?) && a.id == id
  }

  /** A run from `s` to `t` in which nobody adds `id`. */
  ghost predicate LeadsWithoutAdding(s: State, t: State, id: ClientId) {
    exists run: seq<State>, steps: seq<Step> ::
      IsRun(run, steps) && run[0] == s && run[|run| - 1] == t && forall a :: a in steps ==> !Adds(a, id)
  }

  lemma StartsAt(s: State, id: ClientId)
    ensures LeadsWithoutAdding(s, s, id)
  {
    var steps: seq<Step> := [];
    assert IsRun([s], steps) && [s][0] == s;
  }

  lemma OnWithoutAdding(s: State, t: State, a: Step, u: State, id: ClientId)
    requires LeadsWithoutAdding(s, t, id) && Enabled(t, a) && u == Apply(t, a) && !Adds(a, id)
    ensures LeadsWithoutAdding(s, u, id)
  {
    var run: seq<State>, steps: seq<Step> :|
      IsRun(run, steps) && run[0] == s && run[|run| - 1] == t && forall a :: a in steps ==> !Adds(a, id);
    var more := run + [u];
    assert IsRun(more, steps + [a]) && more[0] == s && more[|more| - 1] == u;
  }

  /** Not in the map, and nobody is about to dial it. */
  ghost predicate Absent(s: State, id: ClientId) {
    id !in s.clients && !HasRead(s, id)
  }

  lemma DialStepReadsNothing(s: State, a: Step, id: ClientId)
    requires Enabled(s, a) && DialStep(a) && !HasRead(s, id)
    ensures !HasRead(Apply(s, a), id)
  {
    if a.BeginDial? {
      BeginReadsNothing(s, a, id);
    } else if a.Commit? || a.FailDial? {
      EndReadsNothing(s, a, id);
    }
  }

  lemma BeginReadsNothing(s: State, a: Step, id: ClientId)
    requires Enabled(s, a) && a.BeginDial? && !HasRead(s, id)
    ensures !HasRead(DoBeginDial(s, a.id, a.e, a.transport, a.disabled), id)
  {
  }

  lemma EndReadsNothing(s: State, a: Step, id: ClientId)
    requires Enabled(s, a) && (a.Commit? || a.FailDial?) && !HasRead(s, id)
    ensures !HasRead(if a.Commit? then DoCommit(s, a.id, a.tools) else DoFailDial(s, a.id, a.reauth), id)
  {
  }

  lemma EntryStepReadsNothing(s: State, a: Step, id: ClientId)
    requires Enabled(s, a) && EntryStep(a) && !HasRead(s, id) && !(a.AddPlaceholder? && a.id == id)
    ensures !HasRead(Apply(s, a), id)
  {
  }

  lemma OtherStepReads(s: State, a: Step, id: ClientId)
    requires Enabled(s, a) && !DialStep(a) && !EntryStep(a) && !HasRead(s, id) && HasRead(Apply(s, a), id)
    ensures (a.ReadConfig? || a.UpdateClient?) && a.id == id && Known(s, id)
  {
  }

  /** A slot holder gets to read the configuration only of a client in the map, or of one it just put there. */
  lemma ReadsOnlyBy(s: State, a: Step, id: ClientId)
    requires Enabled(s, a) && !HasRead(s, id) && HasRead(Apply(s, a), id)
    ensures (a.ReadConfig? || a.UpdateClient? || a.AddPlaceholder?) && a.id == id
    ensures !a.AddPlaceholder? ==> Known(s, id)
  {
    if DialStep(a) {
      DialStepReadsNothing(s, a, id);
    } else if EntryStep(a) {
      if !(a.AddPlaceholder? && a.id == id) { EntryStepReadsNothing(s, a, id); }
    } else {
      OtherStepReads(s, a, id);
    }
  }

  lemma StaysAbsent(s: State, a: Step, id: ClientId)
    requires Inv(s) && Enabled(s, a) && Absent(s, id) && !Adds(a, id)
    ensures Absent(Apply(s, a), id)
  {
    var t := Apply(s, a);
    if HasRead(t, id) {
      ReadsOnlyBy(s, a, id);
    }
    if id in t.clients {
      StepKeeps(s, a);
      assert ClientOk(t, id);
      if DialStep(a) { DialAppears(s, a, id); } else { OtherAppears(s, a, id); }
    }
  }

  lemma {:induction false} RunStaysAbsent(run: seq<State>, steps: seq<Step>, j: nat, id: ClientId)
    requires IsRun(run, steps) && Inv(run[0]) && j < |run| && Absent(run[0], id)
    requires forall a :: a in steps ==> !Adds(a, id)
    ensures Absent(run[j], id)
  {
    if j > 0 {
      RunStaysAbsent(run, steps, j - 1, id);
      RunKeeps(run, steps, j - 1);
      StaysAbsent(run[j - 1], steps[j - 1], id);
    }
  }

  lemma {:induction false} UnusedEntry(used: set<EntryId>) returns (e: EntryId)
    ensures forall k :: k in used ==> k < e
  {
    e := 0;
    if used != {} {
      var k :| k in used;
      var rest := UnusedEntry(used - {k});
      e := if k < rest then rest else k + 1;
      forall j | j in used ensures j < e { assert j == k || j in used - {k}; }
    }
  }

  /**
   A client that is not in the map can come back without being added exactly when the holder
   of its slot has read its configuration.
   */
  lemma ComesBackIffRead(s: State, id: ClientId)
    requires Inv(s) && id !in s.clients
    ensures (exists t :: LeadsWithoutAdding(s, t, id) && id in t.clients) <==> HasRead(s, id)
  {
    if HasRead(s, id) {
      var e := UnusedEntry(s.entries.Keys);
      var a := BeginDial(id, e, Http, false);
      var t := Apply(s, a);
      assert IsRun([s, t], [a]) && [s, t][0] == s && [s, t][1] == t;
      assert LeadsWithoutAdding(s, t, id) && id in t.clients;
    }
    forall t | LeadsWithoutAdding(s, t, id) && id in t.clients ensures HasRead(s, id) {
      var run: seq<State>, steps: seq<Step> :|
        IsRun(run, steps) && run[0] == s && run[|run| - 1] == t && forall a :: a in steps ==> !Adds(a, id);
      if !HasRead(s, id) {
        RunStaysAbsent(run, steps, |run| - 1, id);
      }
    }
  }

  /**
   And it read that configuration while the client was in the map: there is a step at which
   it did, and from then on the configuration was held without a break.
   */
  lemma {:induction false} ReadWhileInMap(run: seq<State>, steps: seq<Step>, j: nat, id: ClientId) returns (i: nat)
    requires IsRun(run, steps) && run[0] == EmptyState && j < |run| && HasRead(run[j], id)
    ensures i < j && (steps[i].ReadConfig? || steps[i].UpdateClient? || steps[i].AddPlaceholder?) && steps[i].id == id
    ensures id in run[i + 1].clients
    ensures forall m :: i < m <= j ==> HasRead(run[m], id)
  {
    if HasRead(run[j - 1], id) {
      i := ReadWhileInMap(run, steps, j - 1, id);
    } else {
      i := j - 1;
      ReadsOnlyBy(run[i], steps[i], id);
      ReaderInMap(run[i], steps[i], id);
    }
  }

  lemma ReaderInMap(s: State, a: Step, id: ClientId)
    requires Enabled(s, a) && !HasRead(s, id) && (a.AddPlaceholder? || ((a.ReadConfig? || a.UpdateClient?) && Known(s, id))) && a.id == id
    requires HasRead(Apply(s, a), id)
    ensures id in Apply(s, a).clients
  {
  }

  // ---- a run ----

  /** The state after removal, with the slot held by a reconnect that had read the client's configuration. */
  function Gone(id: ClientId): State {
    State(map[0 := StickyEntry(id, None, Healthy, 2, {})], map[], map[id := Held(false, true)], {}, map[0 := id], map[], map[])
  }

  /** A connected client whose reconnect holds the slot and has read the configuration. */
  function Reconnecting(id: ClientId): State {
    One(id, StickyEntry(id, Some(0), Healthy, 2, {}), Held(false, true), {0}, map[0 := id], map[])
  }

  lemma ReconnectReads(id: ClientId)
    ensures Reachable(Reconnecting(id))
  {
    var s0 := ConnectedClient(id, {});
    var free := s0.(slots := map[]);
    assert map[id := Held(false, false)] - {id} == map[];
    ReachableStep(s0, Release(id), free);
    ReachableStep(free, Acquire(id), s0);
    Overwrite(id, Held(false, false), Held(false, true));
    ReachableStep(s0, ReadConfig(id), Reconnecting(id));
  }

  lemma RemovalGives(id: ClientId)
    ensures Enabled(Reconnecting(id), Remove(id)) && Apply(Reconnecting(id), Remove(id)) == Gone(id)
  {
    PutOne(Reconnecting(id), id, StickyEntry(id, Some(0), Healthy, 2, {}), StickyEntry(id, None, Healthy, 2, {}));
    assert map[id := 0] - {id} == map[];
  }

  /** The client as the dial of the removed client recreates it: entry 1, next to the removed entry 0. */
  function Back(id: ClientId, x: Entry, next: Option<ConnId>, phase: Phase, open: set<ConnId>, owner: map<ConnId, ClientId>): State {
    State(map[0 := StickyEntry(id, None, Healthy, 2, {}), 1 := x], map[id := 1],
          map[id := InDial(Dial(1, Http, false, None, next, phase, false))], open, owner, map[], map[])
  }

  lemma DialRecreates(id: ClientId)
    ensures LeadsWithoutAdding(Gone(id), Back(id, StickyEntry(id, None, Unstable, 0, {}), None, Dialing, {}, map[0 := id]), id)
  {
    StartsAt(Gone(id), id);
    var x := StickyEntry(id, None, Unstable, 0, {});
    var s1 := Back(id, x, None, Detaching, {}, map[0 := id]);
    assert Gone(id).entries[1 := x] == s1.entries;
    Overwrite(id, Held(false, true), s1.slots[id]);
    OnWithoutAdding(Gone(id), Gone(id), BeginDial(id, 1, Http, false), s1, id);
    var s2 := Back(id, x, None, Dialing, {}, map[0 := id]);
    Overwrite(id, s1.slots[id], s2.slots[id]);
    OnWithoutAdding(Gone(id), s1, CloseDetached(id), s2, id);
  }

  lemma DialOpens(id: ClientId)
    ensures LeadsWithoutAdding(Gone(id), Back(id, StickyEntry(id, None, Unstable, 0, {}), Some(1), Dialing, {1}, map[0 := id, 1 := id]), id)
  {
    DialRecreates(id);
    var x := StickyEntry(id, None, Unstable, 0, {});
    var s1, s2 := Back(id, x, None, Dialing, {}, map[0 := id]), Back(id, x, Some(1), Dialing, {1}, map[0 := id, 1 := id]);
    Overwrite(id, s1.slots[id], s2.slots[id]);
    assert s1.owner[1 := id] == s2.owner;
    OnWithoutAdding(Gone(id), s1, OpenConn(id, 1), s2, id);
  }

  /** A reconnect that read its configuration before the removal ends with the removed client in the map, connected. */
  lemma RemovedClientComesBack(id: ClientId, tools: Tools) returns (s: State)
    ensures Reachable(Reconnecting(id)) && Enabled(Reconnecting(id), Remove(id)) && Apply(Reconnecting(id), Remove(id)) == Gone(id)
    ensures id !in Gone(id).clients
    ensures LeadsWithoutAdding(Gone(id), s, id) && Known(s, id) && EntryOf(s, id) == StickyEntry(id, Some(1), Healthy, 1, tools) && 1 in s.open
  {
    ReconnectReads(id);
    RemovalGives(id);
    DialOpens(id);
    var x, y := StickyEntry(id, None, Unstable, 0, {}), StickyEntry(id, Some(1), Healthy, 1, tools);
    var s1 := Back(id, x, Some(1), Dialing, {1}, map[0 := id, 1 := id]);
    s := Back(id, y, None, LastClose(false), {1}, map[0 := id, 1 := id]);
    assert s1.entries[1 := y] == s.entries;
    Overwrite(id, s1.slots[id], s.slots[id]);
    OnWithoutAdding(Gone(id), s1, Commit(id, tools), s, id);
  }
}
