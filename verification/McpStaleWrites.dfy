/**
 Runs, possible for every client ID, in which the write of a periodic check outlives what it
 was meant for: removal and re-adding restarts the generation counter, and neither disabling
 a client nor rotating its credential raises it.
 */
module McpStaleWrites {
  import opened Wrappers
  import opened McpConnections

  lemma ReachableStart()
    ensures Reachable(EmptyState)
  {
    assert IsRun([EmptyState], []);
  }

  lemma ReachableStep(s: State, a: Step, t: State)
    requires Reachable(s) && Enabled(s, a) && t == Apply(s, a)
    ensures Reachable(t)
  {
    var run: seq<State>, steps: seq<Step> :| IsRun(run, steps) && run[0] == EmptyState && run[|run| - 1] == s;
    var more := run + [t];
    assert IsRun(more, steps + [a]) && more[0] == EmptyState && more[|more| - 1] == t;
  }

  lemma Overwrite<K, V>(k: K, v: V, w: V)
    ensures map[k := v][k := w] == map[k := w]
  {
  }

  /** A manager with the single client `id`. */
  function One(id: ClientId, x: Entry, slot: Slot, open: set<ConnId>, owner: map<ConnId, ClientId>, checks: map<CheckId, Late>): State {
    State(map[0 := x], map[id := 0], map[id := slot], open, owner, checks, map[])
  }

  lemma PutOne(s: State, id: ClientId, x: Entry, y: Entry)
    requires id in s.slots && s == One(id, x, s.slots[id], s.open, s.owner, s.checks)
    ensures Known(s, id) && Put(s, id, y) == One(id, y, s.slots[id], s.open, s.owner, s.checks)
  {
    Overwrite(0, x, y);
  }

  lemma SetDialOne(s: State, id: ClientId, x: Entry, d: Dial)
    requires id in s.slots && s == One(id, x, s.slots[id], s.open, s.owner, s.checks)
    ensures SetDial(s, id, d) == One(id, x, InDial(d), s.open, s.owner, s.checks)
  {
    Overwrite(id, s.slots[id], InDial(d));
  }

  lemma WriteLands(s: State, k: CheckId, tools: Tools, id: ClientId)
    requires k in s.checks && s.checks[k].id == id && Lands(s, s.checks[k])
    ensures s.clients[id] in Apply(s, WriteTools(k, tools)).entries
    ensures Apply(s, WriteTools(k, tools)).entries[s.clients[id]] == EntryOf(s, id).(tools := tools)
  {
  }

  function PerCallEntry(id: ClientId, st: ConnState): Entry {
    Entry(id, None, st, 0, {}, true)
  }

  /** A per-call client is registered, and a check on it starts. */
  lemma CheckedClient(id: ClientId) returns (s: State)
    ensures s == One(id, PerCallEntry(id, Healthy), Held(true, false), {}, map[], map[0 := Late(id, 0, 0)])
    ensures Reachable(s)
  {
    ReachableStart();
    var s1 := One(id, PerCallEntry(id, NoState), Held(true, false), {}, map[], map[]);
    ReachableStep(EmptyState, AddPlaceholder(id, 0, true), s1);
    var s2 := One(id, PerCallEntry(id, Healthy), Held(true, false), {}, map[], map[]);
    PutOne(s1, id, PerCallEntry(id, NoState), PerCallEntry(id, Healthy));
    assert PerCallEntry(id, NoState).tools + {} == {};
    ReachableStep(s1, RegisterWithoutDial(id, false, {}), s2);
    s := One(id, PerCallEntry(id, Healthy), Held(true, false), {}, map[], map[0 := Late(id, 0, 0)]);
    ReachableStep(s2, StartCheck(0, id), s);
  }

  /** The client is removed and added again; the check's write then reaches the new entry. */
  lemma StaleWriteLandsAfterReAdding(id: ClientId, tools: Tools) returns (before: State)
    ensures Reachable(before) && 0 in before.checks && before.checks[0] == Late(id, 0, 0)
    ensures Known(before, id) && before.clients[id] == 1 && EntryOf(before, id).tools == {}
    ensures var t := Apply(before, WriteTools(0, tools)); 1 in t.entries && t.entries[1].tools == tools
  {
    var s0 := CheckedClient(id);
    var checks := map[0 := Late(id, 0, 0)];
    var old0 := map[0 := PerCallEntry(id, Healthy)];
    PutOne(s0, id, PerCallEntry(id, Healthy), PerCallEntry(id, Healthy));
    var s1 := State(old0, map[], map[id := Held(true, false)], {}, map[], checks, map[]);
    assert map[id := 0] - {id} == map[];
    ReachableStep(s0, Remove(id), s1);
    var s2 := State(old0, map[], map[], {}, map[], checks, map[]);
    assert map[id := Held(true, false)] - {id} == map[];
    ReachableStep(s1, Release(id), s2);
    before := Apply(s2, AddPlaceholder(id, 1, true));
    ReachableStep(s2, AddPlaceholder(id, 1, true), before);
    WriteLands(before, 0, tools, id);
  }

  function StickyEntry(id: ClientId, conn: Option<ConnId>, st: ConnState, gen: nat, tools: Tools): Entry {
    Entry(id, conn, st, gen, tools, false)
  }

  function FirstDial(next: Option<ConnId>, phase: Phase): Dial {
    Dial(0, Http, false, None, next, phase, true)
  }

  lemma DialStarts(id: ClientId) returns (s: State)
    ensures Reachable(s) && s == One(id, StickyEntry(id, None, Unstable, 1, {}), InDial(FirstDial(None, Dialing)), {}, map[], map[])
  {
    ReachableStart();
    var x0, x1 := StickyEntry(id, None, NoState, 0, {}), StickyEntry(id, None, Unstable, 1, {});
    var s1 := One(id, x0, Held(true, true), {}, map[], map[]);
    ReachableStep(EmptyState, AddPlaceholder(id, 0, false), s1);
    var s2 := One(id, x1, InDial(FirstDial(None, Detaching)), {}, map[], map[]);
    PutOne(s1, id, x0, x1);
    SetDialOne(One(id, x1, Held(true, true), {}, map[], map[]), id, x1, FirstDial(None, Detaching));
    ReachableStep(s1, BeginDial(id, 1, Http, false), s2);
    SetDialOne(s2, id, x1, FirstDial(None, Dialing));
    s := One(id, x1, InDial(FirstDial(None, Dialing)), {}, map[], map[]);
    ReachableStep(s2, CloseDetached(id), s);
  }

  /** A client with a persistent connection, its first dial finished. */
  lemma ConnectedClient(id: ClientId, tools: Tools) returns (s: State)
    ensures Reachable(s) && s == One(id, StickyEntry(id, Some(0), Healthy, 2, tools), Held(false, false), {0}, map[0 := id], map[])
  {
    var s3 := DialStarts(id);
    var x1, x2 := StickyEntry(id, None, Unstable, 1, {}), StickyEntry(id, Some(0), Healthy, 2, tools);
    var s4 := One(id, x1, InDial(FirstDial(Some(0), Dialing)), {0}, map[0 := id], map[]);
    SetDialOne(s3, id, x1, FirstDial(Some(0), Dialing));
    ReachableStep(s3, OpenConn(id, 0), s4);
    var done := FirstDial(None, LastClose(false));
    var s5 := One(id, x2, InDial(done), {0}, map[0 := id], map[]);
    PutOne(s4, id, x1, x2);
    SetDialOne(One(id, x2, s4.slots[id], {0}, map[0 := id], map[]), id, x2, done);
    ReachableStep(s4, Commit(id, tools), s5);
    s := One(id, x2, Held(false, false), {0}, map[0 := id], map[]);
    Overwrite(id, InDial(done), Held(false, false));
    ReachableStep(s5, ClosePrev(id), s);
  }

  /** Disabling clears the tools, and a check already in flight then writes them back. */
  lemma DisableDoesNotStopToolWrite(id: ClientId, tools: Tools) returns (before: State)
    ensures Reachable(before) && 0 in before.checks && Known(before, id)
    ensures EntryOf(before, id).state.Disabled? && EntryOf(before, id).tools == {}
    ensures var t := Apply(before, WriteTools(0, tools)); 0 in t.entries && t.entries[0].state.Disabled? && t.entries[0].tools == tools
  {
    var s0 := ConnectedClient(id, tools);
    var x, y := StickyEntry(id, Some(0), Healthy, 2, tools), StickyEntry(id, None, Disabled, 2, {});
    var checks := map[0 := Late(id, 2, 0)];
    var s1 := One(id, x, Held(false, false), {0}, map[0 := id], checks);
    ReachableStep(s0, StartCheck(0, id), s1);
    before := One(id, y, Held(false, false), {}, map[0 := id], checks);
    PutOne(s1, id, x, y);
    ReachableStep(s1, Disable(id), before);
    WriteLands(before, 0, tools, id);
  }

  /** Rotating the credential does not raise the generation either: the tools of a check in flight are written. */
  lemma RotationDoesNotStopToolWrite(id: ClientId, tools: Tools, newer: Tools) returns (before: State)
    ensures Reachable(before) && 0 in before.checks && Known(before, id)
    ensures EntryOf(before, id).state.NeedsReauth? && EntryOf(before, id).conn.None? && EntryOf(before, id).tools == tools
    ensures var t := Apply(before, WriteTools(0, newer)); 0 in t.entries && t.entries[0].state.NeedsReauth? && t.entries[0].tools == newer
  {
    var s0 := ConnectedClient(id, tools);
    var x, y := StickyEntry(id, Some(0), Healthy, 2, tools), StickyEntry(id, None, NeedsReauth, 2, tools);
    var checks := map[0 := Late(id, 2, 0)];
    var s1 := One(id, x, Held(false, false), {0}, map[0 := id], checks);
    ReachableStep(s0, StartCheck(0, id), s1);
    before := One(id, y, Held(false, false), {}, map[0 := id], checks);
    PutOne(s1, id, x, y);
    ReachableStep(s1, RotateCredential(id), before);
    WriteLands(before, 0, newer, id);
  }
}
