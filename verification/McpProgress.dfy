/**
 No dial gets stuck: whoever holds a client's slot can always come to release it, and a dial
 whose entry is still in place can succeed.
 */
module McpProgress {
  import opened Wrappers
  import opened McpConnections
  import opened McpSafety
  import opened McpTheorems
  import opened McpReturn

  predicate IsFailed(s: State, id: ClientId) {
    id in s.slots && s.slots[id].AddFailed?
  }

  /** The last close gives the slot back to its holder, or to the cleanup of a failed add. */
  lemma LastCloseEnds(s: State, t: State, id: ClientId) returns (u: State)
    requires LeadsWithoutAdding(s, t, id) && DialIn(t, id, {LastClose(true), LastClose(false)})
    ensures LeadsWithoutAdding(s, u, id) && (Holds(u, id) || IsFailed(u, id))
  {
    u := DoClosePrev(t, id);
    OnWithoutAdding(s, t, ClosePrev(id), u, id);
  }

  lemma FailureEnds(s: State, t: State, id: ClientId) returns (u: State)
    requires LeadsWithoutAdding(s, t, id) && DialIn(t, id, {Dialing, Failing})
    ensures LeadsWithoutAdding(s, u, id) && (Holds(u, id) || IsFailed(u, id))
  {
    var t1 := DoFailDial(t, id, false);
    OnWithoutAdding(s, t, FailDial(id, false), t1, id);
    u := UndoneEnds(s, t1, id);
  }

  lemma UndoneEnds(s: State, t: State, id: ClientId) returns (u: State)
    requires LeadsWithoutAdding(s, t, id) && DialIn(t, id, {Undone})
    ensures LeadsWithoutAdding(s, u, id) && (Holds(u, id) || IsFailed(u, id))
  {
    var t1 := DoCloseNext(t, id);
    OnWithoutAdding(s, t, CloseNext(id), t1, id);
    u := LastCloseEnds(s, t1, id);
  }

  lemma DialEnds(s: State, id: ClientId) returns (u: State)
    requires id in s.slots && s.slots[id].InDial?
    ensures LeadsWithoutAdding(s, u, id) && (Holds(u, id) || IsFailed(u, id))
  {
    StartsAt(s, id);
    match s.slots[id].d.phase
    case Detaching =>
      var t := Apply(s, CloseDetached(id));
      OnWithoutAdding(s, s, CloseDetached(id), t, id);
      u := FailureEnds(s, t, id);
    case Dialing => u := FailureEnds(s, s, id);
    case Failing => u := FailureEnds(s, s, id);
    case Undone => u := UndoneEnds(s, s, id);
    case LastClose(_) => u := LastCloseEnds(s, s, id);
  }

  /** Whatever its holder is doing, the slot of a client can be released. */
  lemma SlotCanBeReleased(s: State, id: ClientId) returns (u: State)
    requires id in s.slots
    ensures LeadsWithoutAdding(s, u, id) && id !in u.slots
  {
    StartsAt(s, id);
    var t := s;
    if s.slots[id].InDial? {
      t := DialEnds(s, id);
    }
    if IsFailed(t, id) {
      var t1 := Apply(t, DropFailedAdd(id));
      OnWithoutAdding(s, t, DropFailedAdd(id), t1, id);
      t := t1;
    }
    u := Apply(t, Release(id));
    OnWithoutAdding(s, t, Release(id), u, id);
  }

  /** A dial in progress whose entry is still in place can end with a fresh connection shown, its tools, and a healthy state. */
  lemma DialCanSucceed(s: State, id: ClientId, tools: Tools) returns (u: State, c: ConnId)
    requires Inv(s) && DialIn(s, id, {Dialing}) && StillOurs(s, id)
    ensures LeadsWithoutAdding(s, u, id) && c !in s.owner && c in u.open && Known(u, id) && u.clients[id] == s.clients[id]
    ensures EntryOf(u, id) == EntryOf(s, id).(conn := Some(c), state := Healthy, gen := EntryOf(s, id).gen + 1, tools := tools)
  {
    c := UnusedEntry(s.owner.Keys);
    StartsAt(s, id);
    var t := DoOpenConn(s, id, c);
    OnWithoutAdding(s, s, OpenConn(id, c), t, id);
    assert StillOurs(t, id) && EntryOf(t, id) == EntryOf(s, id);
    u := DoCommit(t, id, tools);
    OnWithoutAdding(s, t, Commit(id, tools), u, id);
  }
}
