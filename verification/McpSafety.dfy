/**
 Invariants of the MCP client connections and what follows from them: no persistent
 connection leaks, and no entry in the client map references a closed one.
 */
module McpSafety {
  import opened Wrappers
  import opened McpConnections

  // ---- the invariant ----

  ghost predicate OwnedBy(s: State, c: Option<ConnId>, id: ClientId) {
    c.Some? ==> c.value in s.owner && s.owner[c.value] == id
  }

  /** The connection shown by the entry under `id`, if there is one. */
  function Shown(s: State, id: ClientId): Option<ConnId> {
    if Known(s, id) then EntryOf(s, id).conn else None
  }

  ghost predicate EntryOk(s: State, id: ClientId) {
    id in s.clients ==>
      && s.clients[id] in s.entries
      && var x := EntryOf(s, id);
         && x.client == id && OwnedBy(s, x.conn, id)
         && (x.conn.Some? ==> x.conn.value in s.open)
         && (x.state.Disabled? ==> x.conn.None?)
  }

  /** During a dial the entry under `id` shows the previous connection if it swaps, and nothing otherwise. */
  ghost predicate DialOk(s: State, id: ClientId) {
    id in s.slots && s.slots[id].InDial? ==>
      var d := DialOf(s, id);
      && d.entry in s.entries && s.entries[d.entry].client == id
      && OwnedBy(s, d.prev, id) && OwnedBy(s, d.next, id)
      && (d.next.Some? ==> d.next.value in s.open && d.next != d.prev)
      && (d.swaps ==> d.prev.Some? && !d.phase.Detaching?)
      && (d.phase.Detaching? ==> d.next.None? && Shown(s, id).None?)
      && (d.phase.Dialing? || d.phase.Failing? ==>
            && (!d.swaps ==> d.prev.None?)
            && (Shown(s, id) == if d.swaps && id in s.clients && s.clients[id] == d.entry then d.prev else None))
      && (d.phase.Undone? ==> Shown(s, id).None?)
      && (d.phase.LastClose? ==>
            && d.next.None? && (d.phase.failed ==> Shown(s, id).None?)
            && (Shown(s, id).Some? ==> Shown(s, id) != d.prev))
  }

  ghost predicate SlotOk(s: State, id: ClientId) {
    id in s.slots && s.slots[id].AddFailed? ==> Shown(s, id).None?
  }

  ghost predicate ClientOk(s: State, id: ClientId) {
    EntryOk(s, id) && DialOk(s, id) && SlotOk(s, id)
  }

  /** `c` is shown by an entry in the map, or a dial in progress still has to close or commit it. */
  ghost predicate Accounted(s: State, id: ClientId, c: ConnId) {
    || Shown(s, id) == Some(c)
    || (id in s.slots && s.slots[id].InDial? && (DialOf(s, id).prev == Some(c) || DialOf(s, id).next == Some(c)))
  }

  ghost predicate ConnOk(s: State, c: ConnId) {
    c in s.open ==> c in s.owner && Accounted(s, s.owner[c], c)
  }

  ghost predicate Inv(s: State) {
    && (forall id {:trigger ClientOk(s, id)} :: ClientOk(s, id))
    && (forall c {:trigger ConnOk(s, c)} :: ConnOk(s, c))
  }

  // ---- locality: a step of one client leaves the others alone ----

  ghost predicate SameClient(s: State, t: State, id: ClientId) {
    && (id in t.clients <==> id in s.clients) && (id in s.clients ==> t.clients[id] == s.clients[id])
    && (id in t.slots <==> id in s.slots) && (id in s.slots ==> t.slots[id] == s.slots[id])
  }

  ghost predicate SameEntry(s: State, t: State, id: ClientId, e: EntryId) {
    e in s.entries ==>
      && e in t.entries && t.entries[e].client == s.entries[e].client
      && (s.entries[e].client != id ==> t.entries[e] == s.entries[e])
  }

  ghost predicate SameConn(s: State, t: State, id: ClientId, c: ConnId) {
    && (c in s.owner ==> c in t.owner && t.owner[c] == s.owner[c])
    && (c in t.owner && t.owner[c] != id ==> c in s.owner && (c in t.open <==> c in s.open))
    && (c in t.open && c !in s.open ==> c in t.owner && t.owner[c] == id)
  }

  ghost predicate Local(s: State, t: State, id: ClientId) {
    && (forall other {:trigger SameClient(s, t, other)} :: other != id ==> SameClient(s, t, other))
    && (forall e {:trigger SameEntry(s, t, id, e)} :: SameEntry(s, t, id, e))
    && (forall c {:trigger SameConn(s, t, id, c)} :: SameConn(s, t, id, c))
  }

  lemma OtherClientKept(s: State, t: State, id: ClientId, other: ClientId)
    requires Inv(s) && Local(s, t, id) && other != id
    ensures ClientOk(t, other)
  {
    assert ClientOk(s, other) && SameClient(s, t, other);
    if other in s.clients {
      assert SameEntry(s, t, id, s.clients[other]);
      var conn := EntryOf(s, other).conn;
      if conn.Some? { assert SameConn(s, t, id, conn.value); }
    }
    if other in s.slots && s.slots[other].InDial? {
      var d := DialOf(s, other);
      assert SameEntry(s, t, id, d.entry);
      if d.prev.Some? { assert SameConn(s, t, id, d.prev.value); }
      if d.next.Some? { assert SameConn(s, t, id, d.next.value); }
    }
  }

  lemma OtherConnKept(s: State, t: State, id: ClientId, c: ConnId)
    requires Inv(s) && Local(s, t, id) && c in t.open
    requires c in t.owner ==> t.owner[c] != id
    ensures ConnOk(t, c)
  {
    assert SameConn(s, t, id, c) && ConnOk(s, c);
    var other := s.owner[c];
    assert ClientOk(s, other) && SameClient(s, t, other);
    if other in s.clients { assert SameEntry(s, t, id, s.clients[other]); }
  }

  /** The invariant is kept by a local change that keeps it for the client it belongs to. */
  lemma LocalKeeps(s: State, t: State, id: ClientId)
    requires Inv(s) && Local(s, t, id) && ClientOk(t, id)
    requires forall c :: c in t.open && c in t.owner && t.owner[c] == id ==> Accounted(t, id, c)
    ensures Inv(t)
  {
    forall other ensures ClientOk(t, other) {
      if other != id { OtherClientKept(s, t, id, other); }
    }
    forall c ensures ConnOk(t, c) {
      if c in t.open && !(c in t.owner && t.owner[c] == id) { OtherConnKept(s, t, id, c); }
    }
  }

  // ---- one lemma per kind of step ----

  /** Remembering a generation for later. */
  lemma CaptureKeeps(s: State, t: State)
    requires Inv(s) && t == s.(checks := t.checks, onLost := t.onLost)
    ensures Inv(t)
  {
    forall id ensures ClientOk(t, id) { assert ClientOk(s, id); }
    forall c ensures ConnOk(t, c) { assert ConnOk(s, c); }
  }

  /** Writing state, tools or generation, with the connection left in place. */
  lemma TouchKeeps(s: State, id: ClientId, x: Entry)
    requires Inv(s) && Known(s, id) && x.client == id && x.conn == EntryOf(s, id).conn
    requires x.state.Disabled? ==> x.conn.None?
    ensures Inv(Put(s, id, x))
  {
    var t := Put(s, id, x);
    assert ClientOk(s, id);
    forall c | c in t.open && c in t.owner && t.owner[c] == id ensures Accounted(t, id, c) { assert ConnOk(s, c); }
    LocalKeeps(s, t, id);
  }

  /** A fresh entry without a connection under an ID not in use. */
  lemma AddEntryKeeps(s: State, id: ClientId, e: EntryId, x: Entry)
    requires Inv(s) && id !in s.clients && e !in s.entries && x.client == id && x.conn.None?
    ensures Inv(AddEntry(s, id, e, x))
  {
    var t := AddEntry(s, id, e, x);
    assert ClientOk(s, id);
    forall c | c in t.open && c in t.owner && t.owner[c] == id ensures Accounted(t, id, c) { assert ConnOk(s, c); }
    LocalKeeps(s, t, id);
  }

  /** Slot changes outside a dial. */
  lemma SlotKeeps(s: State, t: State, id: ClientId)
    requires Inv(s) && (id in s.slots ==> !s.slots[id].InDial?) && (id in t.slots ==> !t.slots[id].InDial?)
    requires id in t.slots && t.slots[id].AddFailed? ==> Shown(s, id).None?
    requires t == s.(slots := t.slots) && forall other :: other != id ==> SameClient(s, t, other)
    ensures Inv(t)
  {
    assert ClientOk(s, id);
    forall c | c in t.open && c in t.owner && t.owner[c] == id ensures Accounted(t, id, c) { assert ConnOk(s, c); }
    LocalKeeps(s, t, id);
  }

  /** Closing what the entry shows, with no dial in progress for it or with the entry leaving the map. */
  lemma CloseAndPutKeeps(s: State, id: ClientId, x: Entry)
    requires Inv(s) && Known(s, id) && x.client == id
    requires id in s.slots ==> s.slots[id].Held?
    ensures Inv(CloseAndPut(s, id, x))
  {
    var t := CloseAndPut(s, id, x);
    assert ClientOk(s, id);
    forall c | c in t.open && c in t.owner && t.owner[c] == id ensures Accounted(t, id, c) { assert ConnOk(s, c); }
    LocalKeeps(s, t, id);
  }

  lemma RemoveKeeps(s: State, id: ClientId)
    requires Inv(s) && Known(s, id)
    ensures Inv(DoRemove(s, id))
  {
    var t := DoRemove(s, id);
    assert ClientOk(s, id);
    forall c | c in t.open && c in t.owner && t.owner[c] == id ensures Accounted(t, id, c) { assert ConnOk(s, c); }
    LocalKeeps(s, t, id);
  }

  lemma DropKeeps(s: State, id: ClientId)
    requires Inv(s) && Enabled(s, DropFailedAdd(id))
    ensures Inv(Apply(s, DropFailedAdd(id)))
  {
    var t := Apply(s, DropFailedAdd(id));
    assert ClientOk(s, id);
    forall c | c in t.open && c in t.owner && t.owner[c] == id ensures Accounted(t, id, c) { assert ConnOk(s, c); }
    LocalKeeps(s, t, id);
  }

  lemma BeginSwapKeeps(s: State, id: ClientId, transport: Transport, adding: bool)
    requires Inv(s) && Holds(s, id) && Swaps(s, id, transport)
    ensures Inv(BeginSwap(s, id, transport, adding))
  {
    var t := BeginSwap(s, id, transport, adding);
    assert ClientOk(s, id);
    forall c | c in t.open && c in t.owner && t.owner[c] == id ensures Accounted(t, id, c) { assert ConnOk(s, c); }
    LocalKeeps(s, t, id);
  }

  lemma BeginResetKeeps(s: State, id: ClientId, transport: Transport, adding: bool)
    requires Inv(s) && Holds(s, id) && Known(s, id)
    ensures Inv(BeginReset(s, id, transport, adding))
  {
    var t := BeginReset(s, id, transport, adding);
    assert ClientOk(s, id);
    forall c | c in t.open && c in t.owner && t.owner[c] == id ensures Accounted(t, id, c) { assert ConnOk(s, c); }
    LocalKeeps(s, t, id);
  }

  lemma BeginAnewKeeps(s: State, id: ClientId, e: EntryId, transport: Transport, adding: bool)
    requires Inv(s) && Holds(s, id) && id !in s.clients && e !in s.entries
    ensures Inv(BeginAnew(s, id, e, transport, adding))
  {
    var t := BeginAnew(s, id, e, transport, adding);
    assert ClientOk(s, id);
    forall c | c in t.open && c in t.owner && t.owner[c] == id ensures Accounted(t, id, c) { assert ConnOk(s, c); }
    LocalKeeps(s, t, id);
  }

  lemma BeginDialKeeps(s: State, id: ClientId, e: EntryId, transport: Transport, disabled: bool)
    requires Inv(s) && Holds(s, id) && e !in s.entries
    ensures Inv(DoBeginDial(s, id, e, transport, disabled))
  {
    assert ClientOk(s, id);
    var adding := s.slots[id].adding;
    if Known(s, id) && EntryOf(s, id).state.Disabled? && disabled {
      SlotKeeps(s, DoBeginDial(s, id, e, transport, disabled), id);
    } else if Swaps(s, id, transport) {
      BeginSwapKeeps(s, id, transport, adding);
    } else if Known(s, id) {
      BeginResetKeeps(s, id, transport, adding);
    } else {
      BeginAnewKeeps(s, id, e, transport, adding);
    }
  }

  lemma CloseDetachedKeeps(s: State, id: ClientId)
    requires Inv(s) && DialIn(s, id, {Detaching})
    ensures Inv(Apply(s, CloseDetached(id)))
  {
    var t := Apply(s, CloseDetached(id));
    assert ClientOk(s, id);
    forall c | c in t.open && c in t.owner && t.owner[c] == id ensures Accounted(t, id, c) { assert ConnOk(s, c); }
    LocalKeeps(s, t, id);
  }

  lemma OpenConnKeeps(s: State, id: ClientId, c: ConnId)
    requires Inv(s) && DialIn(s, id, {Dialing}) && c !in s.owner
    ensures Inv(DoOpenConn(s, id, c))
  {
    var t := DoOpenConn(s, id, c);
    assert ClientOk(s, id) && ConnOk(s, c);
    forall b | b in t.open && b in t.owner && t.owner[b] == id ensures Accounted(t, id, b) { assert ConnOk(s, b); }
    LocalKeeps(s, t, id);
  }

  lemma OpenFailsKeeps(s: State, id: ClientId)
    requires Inv(s) && DialIn(s, id, {Dialing})
    ensures Inv(DoOpenFails(s, id))
  {
    var t := DoOpenFails(s, id);
    assert ClientOk(s, id);
    forall c | c in t.open && c in t.owner && t.owner[c] == id ensures Accounted(t, id, c) { assert ConnOk(s, c); }
    LocalKeeps(s, t, id);
  }

  lemma SwapInKeeps(s: State, id: ClientId, tools: Tools)
    requires Inv(s) && DialIn(s, id, {Dialing}) && StillOurs(s, id)
    ensures Inv(SwapIn(s, id, tools))
  {
    var t := SwapIn(s, id, tools);
    assert ClientOk(s, id);
    forall c | c in t.open && c in t.owner && t.owner[c] == id ensures Accounted(t, id, c) { assert ConnOk(s, c); }
    LocalKeeps(s, t, id);
  }

  lemma NotOursKeeps(s: State, id: ClientId)
    requires Inv(s) && DialIn(s, id, {Dialing})
    ensures Inv(SetDial(s, id, DialOf(s, id).(phase := Failing)))
  {
    var t := SetDial(s, id, DialOf(s, id).(phase := Failing));
    assert ClientOk(s, id);
    forall c | c in t.open && c in t.owner && t.owner[c] == id ensures Accounted(t, id, c) { assert ConnOk(s, c); }
    LocalKeeps(s, t, id);
  }

  lemma CommitKeeps(s: State, id: ClientId, tools: Tools)
    requires Inv(s) && DialIn(s, id, {Dialing})
    ensures Inv(DoCommit(s, id, tools))
  {
    if StillOurs(s, id) {
      SwapInKeeps(s, id, tools);
      CaptureKeeps(SwapIn(s, id, tools), DoCommit(s, id, tools));
    } else {
      NotOursKeeps(s, id);
    }
  }

  lemma FailDialKeeps(s: State, id: ClientId, reauth: bool)
    requires Inv(s) && DialIn(s, id, {Dialing, Failing})
    ensures Inv(DoFailDial(s, id, reauth))
  {
    var t := DoFailDial(s, id, reauth);
    assert ClientOk(s, id);
    forall c | c in t.open && c in t.owner && t.owner[c] == id ensures Accounted(t, id, c) { assert ConnOk(s, c); }
    LocalKeeps(s, t, id);
  }

  lemma CloseNextKeeps(s: State, id: ClientId)
    requires Inv(s) && DialIn(s, id, {Undone})
    ensures Inv(DoCloseNext(s, id))
  {
    var t := DoCloseNext(s, id);
    assert ClientOk(s, id);
    forall c | c in t.open && c in t.owner && t.owner[c] == id ensures Accounted(t, id, c) { assert ConnOk(s, c); }
    LocalKeeps(s, t, id);
  }

  lemma ClosePrevKeeps(s: State, id: ClientId)
    requires Inv(s) && DialIn(s, id, {LastClose(true), LastClose(false)})
    ensures Inv(DoClosePrev(s, id))
  {
    var t := DoClosePrev(s, id);
    assert ClientOk(s, id);
    forall c | c in t.open && c in t.owner && t.owner[c] == id ensures Accounted(t, id, c) { assert ConnOk(s, c); }
    LocalKeeps(s, t, id);
  }

  // ---- every step and every run ----

  lemma LateWriteKeeps(s: State, l: Late, tools: Tools, st: ConnState)
    requires Inv(s) && !st.Disabled?
    ensures Inv(DoWriteTools(s, l, tools)) && Inv(DoWriteState(s, l, st))
  {
    if Lands(s, l) {
      assert ClientOk(s, l.id);
      TouchKeeps(s, l.id, EntryOf(s, l.id).(tools := tools));
      TouchKeeps(s, l.id, EntryOf(s, l.id).(state := st));
    }
  }

  predicate DialStep(a: Step) {
    || a.BeginDial? || a.CloseDetached? || a.OpenConn? || a.OpenFails? || a.Commit? || a.FailDial? || a.CloseNext? || a.ClosePrev?
  }

  predicate EntryStep(a: Step) {
    || a.AddPlaceholder? || a.AddDisabled? || a.BootFallback? || a.RegisterWithoutDial? || a.CompleteVerification?
    || a.MarkUnstable? || a.SetClientTools?
  }

  lemma DialStepKeeps(s: State, a: Step)
    requires Inv(s) && Enabled(s, a) && DialStep(a)
    ensures Inv(Apply(s, a))
  {
    match a {
      case BeginDial(id, e, transport, disabled) => BeginDialKeeps(s, id, e, transport, disabled);
      case CloseDetached(id) => CloseDetachedKeeps(s, id);
      case OpenConn(id, c) => OpenConnKeeps(s, id, c);
      case OpenFails(id) => OpenFailsKeeps(s, id);
      case Commit(id, tools) => CommitKeeps(s, id, tools);
      case FailDial(id, reauth) => FailDialKeeps(s, id, reauth);
      case CloseNext(id) => CloseNextKeeps(s, id);
      case ClosePrev(id) => ClosePrevKeeps(s, id);
    }
  }

  lemma RegisterKeeps(s: State, id: ClientId, pending: bool, tools: Tools)
    requires Inv(s) && Holds(s, id) && Known(s, id)
    ensures Inv(DoRegister(s, id, pending, tools))
  {
    assert ClientOk(s, id);
    var x := EntryOf(s, id);
    var y := x.(state := if pending then PendingVerification else Healthy, tools := if pending then x.tools else x.tools + tools);
    TouchKeeps(s, id, y);
    SlotKeeps(Put(s, id, y), DoRegister(s, id, pending, tools), id);
  }

  lemma PlaceholderKeeps(s: State, id: ClientId, e: EntryId, perCall: bool)
    requires Inv(s) && id !in s.clients && e !in s.entries
    ensures Inv(DoAddPlaceholder(s, id, e, perCall))
  {
    if id !in s.slots {
      var x := Entry(id, None, NoState, 0, {}, perCall);
      AddEntryKeeps(s, id, e, x);
      SlotKeeps(AddEntry(s, id, e, x), DoAddPlaceholder(s, id, e, perCall), id);
    }
  }

  lemma EntryStepKeeps(s: State, a: Step)
    requires Inv(s) && Enabled(s, a) && EntryStep(a)
    ensures Inv(Apply(s, a))
  {
    assert ClientOk(s, a.id);
    match a {
      case AddPlaceholder(id, e, perCall) => PlaceholderKeeps(s, id, e, perCall);
      case AddDisabled(id, e, perCall, tools) =>
        AddEntryKeeps(s, id, e, Entry(id, None, Disabled, 0, if perCall then tools else {}, perCall));
      case BootFallback(id, e) =>
        if Known(s, id) { TouchKeeps(s, id, EntryOf(s, id).(state := Unstable)); }
        else { AddEntryKeeps(s, id, e, Entry(id, None, Unstable, 0, {}, false)); }
      case RegisterWithoutDial(id, pending, tools) => RegisterKeeps(s, id, pending, tools);
      case CompleteVerification(id, tools) => TouchKeeps(s, id, EntryOf(s, id).(state := Healthy, tools := EntryOf(s, id).tools + tools));
      case MarkUnstable(id) => TouchKeeps(s, id, EntryOf(s, id).(state := Unstable));
      case SetClientTools(id, tools) => TouchKeeps(s, id, EntryOf(s, id).(state := Healthy, tools := EntryOf(s, id).tools + tools));
    }
  }

  lemma UpdateKeeps(s: State, id: ClientId, perCall: bool, tools: Tools)
    requires Inv(s) && Enabled(s, UpdateClient(id, perCall, tools))
    ensures Inv(DoUpdateClient(s, id, perCall, tools))
  {
    assert ClientOk(s, id);
    var x := EntryOf(s, id);
    if !x.perCall && perCall {
      CloseAndPutKeeps(s, id, x.(gen := x.gen + 1, perCall := true, tools := tools,
                                 state := if Authoritative(x.state) then x.state else Healthy));
    } else {
      var y := x.(perCall := perCall, tools := tools);
      TouchKeeps(s, id, y);
      if x.perCall && !perCall { SlotKeeps(Put(s, id, y), DoUpdateClient(s, id, perCall, tools), id); }
    }
  }

  lemma OtherStepKeeps(s: State, a: Step)
    requires Inv(s) && Enabled(s, a) && !DialStep(a) && !EntryStep(a)
    ensures Inv(Apply(s, a))
  {
    match a {
      case Acquire(id) => SlotKeeps(s, Apply(s, a), id);
      case Release(id) => SlotKeeps(s, Apply(s, a), id);
      case ReadConfig(id) => SlotKeeps(s, Apply(s, a), id);
      case DropFailedAdd(id) => DropKeeps(s, id);
      case RotateCredential(id) =>
        assert ClientOk(s, id);
        CloseAndPutKeeps(s, id, EntryOf(s, id).(state := NeedsReauth));
      case Disable(id) =>
        assert ClientOk(s, id);
        var x := EntryOf(s, id);
        CloseAndPutKeeps(s, id, x.(state := Disabled, tools := if x.perCall then x.tools else {}));
      case UpdateClient(id, perCall, tools) => UpdateKeeps(s, id, perCall, tools);
      case Remove(id) => RemoveKeeps(s, id);
      case StartCheck(k, id) => CaptureKeeps(s, Apply(s, a));
      case WriteTools(k, tools) => LateWriteKeeps(s, s.checks[k], tools, Healthy);
      case WriteState(k, healthy) => LateWriteKeeps(s, s.checks[k], {}, if healthy then Healthy else Unstable);
      case ConnectionLost(c) => LateWriteKeeps(s, s.onLost[c], {}, Unstable);
    }
  }

  lemma StepKeeps(s: State, a: Step)
    requires Inv(s) && Enabled(s, a)
    ensures Inv(Apply(s, a))
  {
    if DialStep(a) { DialStepKeeps(s, a); }
    else if EntryStep(a) { EntryStepKeeps(s, a); }
    else { OtherStepKeeps(s, a); }
  }

  lemma {:induction false} RunKeeps(run: seq<State>, steps: seq<Step>, i: nat)
    requires IsRun(run, steps) && Inv(run[0]) && i < |run|
    ensures Inv(run[i])
  {
    if i > 0 {
      RunKeeps(run, steps, i - 1);
      StepKeeps(run[i - 1], steps[i - 1]);
    }
  }

  lemma ReachableInv(s: State)
    requires Reachable(s)
    ensures Inv(s)
  {
    var run: seq<State>, steps: seq<Step> :| IsRun(run, steps) && run[0] == EmptyState && run[|run| - 1] == s;
    RunKeeps(run, steps, |run| - 1);
  }
}
