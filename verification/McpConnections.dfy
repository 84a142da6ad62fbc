/**
 MCP client connections as a transition system.

 Every region the manager runs under its lock is one atomic step; a dial is a long phase
 of several steps without the lock. Entries are heap objects with an identity, so an entry
 that was removed and re-added under the same client ID is a different entry. The
 exclusive-operation slot of a client is held (see ExclusiveOps) around every operation
 that dials or tears down, except removal, the disabled placeholder, the boot fallback,
 tool registration and the late writers.
 */
module McpConnections {
  import opened Wrappers

  type ClientId = string
  type EntryId = nat
  type ConnId = nat
  type CheckId = nat
  type Tools = set<string>

  datatype Transport = Http | Sse | Stdio | InProcess

  datatype ConnState = NoState | Healthy | Unstable | NeedsReauth | Disabled | PendingVerification

  datatype Entry = Entry(client: ClientId, conn: Option<ConnId>, state: ConnState, gen: nat, tools: Tools, perCall: bool)

  datatype Phase =
    | Detaching                // the previous connection is out of the entry and about to be closed
    | Dialing                  // connecting and listing tools, without the lock
    | Failing                  // the commit found the entry gone or disabled
    | Undone                   // failure recorded; the new connection is about to be closed
    | LastClose(failed: bool)  // only the previous connection is left to close

  datatype Dial = Dial(entry: EntryId, transport: Transport, swaps: bool, prev: Option<ConnId>, next: Option<ConnId>,
                       phase: Phase, adding: bool)

  /**
   What the holder of a client's exclusive slot is doing. `read` says that it has taken the
   client's configuration while the client was in the map, and is about to dial with it.
   */
  datatype Slot = Held(adding: bool, read: bool) | InDial(d: Dial) | AddFailed

  /** What a periodic check or a connection-lost callback remembers. */
  datatype Late = Late(id: ClientId, gen: nat, entry: EntryId)

  /** `owner` records for which client each connection was ever opened. */
  datatype State = State(
    entries: map<EntryId, Entry>,
    clients: map<ClientId, EntryId>,
    slots: map<ClientId, Slot>,
    open: set<ConnId>,
    owner: map<ConnId, ClientId>,
    checks: map<CheckId, Late>,
    onLost: map<ConnId, Late>)

  const EmptyState := State(map[], map[], map[], {}, map[], map[], map[])

  datatype Step =
    // the slot
    | Acquire(id: ClientId)
    | Release(id: ClientId)
    | ReadConfig(id: ClientId)
    // registration and by-ID writes
    | AddPlaceholder(id: ClientId, e: EntryId, perCall: bool)
    | AddDisabled(id: ClientId, e: EntryId, perCall: bool, tools: Tools)
    | BootFallback(id: ClientId, e: EntryId)
    | DropFailedAdd(id: ClientId)
    | RegisterWithoutDial(id: ClientId, pending: bool, tools: Tools)
    | CompleteVerification(id: ClientId, tools: Tools)
    | MarkUnstable(id: ClientId)
    | SetClientTools(id: ClientId, tools: Tools)
    // the dial
    | BeginDial(id: ClientId, e: EntryId, transport: Transport, disabled: bool)
    | CloseDetached(id: ClientId)
    | OpenConn(id: ClientId, c: ConnId)
    | OpenFails(id: ClientId)
    | Commit(id: ClientId, tools: Tools)
    | FailDial(id: ClientId, reauth: bool)
    | CloseNext(id: ClientId)
    | ClosePrev(id: ClientId)
    // teardown
    | RotateCredential(id: ClientId)
    | Disable(id: ClientId)
    | UpdateClient(id: ClientId, perCall: bool, tools: Tools)
    | Remove(id: ClientId)
    // late writers
    | StartCheck(k: CheckId, id: ClientId)
    | WriteTools(k: CheckId, tools: Tools)
    | WriteState(k: CheckId, healthy: bool)
    | ConnectionLost(c: ConnId)

  // ---- views ----

  predicate Known(s: State, id: ClientId) {
    id in s.clients && s.clients[id] in s.entries
  }

  function EntryOf(s: State, id: ClientId): Entry
    requires Known(s, id)
  {
    s.entries[s.clients[id]]
  }

  predicate Holds(s: State, id: ClientId) {
    id in s.slots && s.slots[id].Held?
  }

  /** The holder of the slot has read the client's configuration. */
  predicate HasRead(s: State, id: ClientId) {
    Holds(s, id) && s.slots[id].read
  }

  function SetRead(s: State, id: ClientId, read: bool): State
    requires Holds(s, id)
  {
    s.(slots := s.slots[id := s.slots[id].(read := read)])
  }

  predicate DialIn(s: State, id: ClientId, phases: set<Phase>) {
    id in s.slots && s.slots[id].InDial? && s.slots[id].d.phase in phases
  }

  function DialOf(s: State, id: ClientId): Dial
    requires id in s.slots && s.slots[id].InDial?
  {
    s.slots[id].d
  }

  /** The dial's entry is still the one under its ID, and it is not disabled. */
  predicate StillOurs(s: State, id: ClientId) {
    && id in s.slots && s.slots[id].InDial?
    && Known(s, id) && s.clients[id] == DialOf(s, id).entry && !EntryOf(s, id).state.Disabled?
  }

  function Closed(open: set<ConnId>, c: Option<ConnId>): set<ConnId> {
    if c.Some? then open - {c.value} else open
  }

  /** A write to the entry under `id`. */
  function Put(s: State, id: ClientId, x: Entry): State
    requires Known(s, id)
  {
    s.(entries := s.entries[s.clients[id] := x])
  }

  predicate Authoritative(st: ConnState) {
    st.Disabled? || st.NeedsReauth?
  }

  // ---- effects ----

  function AddEntry(s: State, id: ClientId, e: EntryId, x: Entry): State {
    s.(entries := s.entries[e := x], clients := s.clients[id := e])
  }

  /** The lock region of AddClient: when the slot is taken the placeholder is deleted again. */
  function DoAddPlaceholder(s: State, id: ClientId, e: EntryId, perCall: bool): State {
    if id in s.slots then s
    else
      AddEntry(s, id, e, Entry(id, None, NoState, 0, {}, perCall)).(slots := s.slots[id := Held(true, !perCall)])
  }

  /** Registered without a dial: parked, or left to connect per call. */
  function DoRegister(s: State, id: ClientId, pending: bool, tools: Tools): State
    requires Holds(s, id) && Known(s, id)
  {
    var x := EntryOf(s, id);
    SetRead(Put(s, id, x.(state := if pending then PendingVerification else Healthy,
                          tools := if pending then x.tools else x.tools + tools)), id, false)
  }

  function DoBootFallback(s: State, id: ClientId, e: EntryId): State {
    if Known(s, id) then Put(s, id, EntryOf(s, id).(state := Unstable))
    else AddEntry(s, id, e, Entry(id, None, Unstable, 0, {}, false))
  }

  predicate Swaps(s: State, id: ClientId, transport: Transport) {
    Known(s, id) && EntryOf(s, id).conn.Some? && (transport.Http? || transport.Sse?)
  }

  /** A live HTTP or SSE connection stays in the entry during the dial. */
  function BeginSwap(s: State, id: ClientId, transport: Transport, adding: bool): State
    requires Known(s, id)
  {
    SetDial(s, id, Dial(s.clients[id], transport, true, EntryOf(s, id).conn, None, Dialing, adding))
  }

  /** Any other entry is reset, and its connection is closed before the dial. */
  function BeginReset(s: State, id: ClientId, transport: Transport, adding: bool): State
    requires Known(s, id)
  {
    var x := EntryOf(s, id);
    SetDial(Put(s, id, x.(conn := None, state := Unstable, gen := x.gen + 1, perCall := false)), id,
            Dial(s.clients[id], transport, false, x.conn, None, Detaching, adding))
  }

  /** The entry is gone: the dial makes a new one. */
  function BeginAnew(s: State, id: ClientId, e: EntryId, transport: Transport, adding: bool): State {
    SetDial(AddEntry(s, id, e, Entry(id, None, Unstable, 0, {}, false)), id, Dial(e, transport, false, None, None, Detaching, adding))
  }

  function DoBeginDial(s: State, id: ClientId, e: EntryId, transport: Transport, disabled: bool): State
    requires Holds(s, id)
  {
    var adding := s.slots[id].adding;
    if Known(s, id) && EntryOf(s, id).state.Disabled? && disabled then
      s.(slots := s.slots[id := if adding then AddFailed else Held(false, false)])
    else if Swaps(s, id, transport) then BeginSwap(s, id, transport, adding)
    else if Known(s, id) then BeginReset(s, id, transport, adding)
    else BeginAnew(s, id, e, transport, adding)
  }

  function SetDial(s: State, id: ClientId, d: Dial): State {
    s.(slots := s.slots[id := InDial(d)])
  }

  function DoOpenConn(s: State, id: ClientId, c: ConnId): State
    requires DialIn(s, id, {Dialing})
  {
    var d := DialOf(s, id);
    SetDial(s, id, d.(next := Some(c))).(open := Closed(s.open, d.next) + {c}, owner := s.owner[c := id])
  }

  function DoOpenFails(s: State, id: ClientId): State
    requires DialIn(s, id, {Dialing})
  {
    var d := DialOf(s, id);
    SetDial(s, id, d.(next := None)).(open := Closed(s.open, d.next))
  }

  /** The swap: new connection, tools and generation enter the entry at once. */
  function SwapIn(s: State, id: ClientId, tools: Tools): State
    requires DialIn(s, id, {Dialing}) && StillOurs(s, id)
  {
    var d, x := DialOf(s, id), EntryOf(s, id);
    SetDial(Put(s, id, x.(conn := d.next, state := Healthy, gen := x.gen + 1, tools := tools)), id,
            d.(next := None, phase := LastClose(false)))
  }

  function DoCommit(s: State, id: ClientId, tools: Tools): State
    requires DialIn(s, id, {Dialing})
  {
    var d := DialOf(s, id);
    if !StillOurs(s, id) then SetDial(s, id, d.(phase := Failing))
    else if d.transport.Sse? && d.next.Some? then
      SwapIn(s, id, tools).(onLost := s.onLost[d.next.value := Late(id, EntryOf(s, id).gen + 1, d.entry)])
    else SwapIn(s, id, tools)
  }

  function DoFailDial(s: State, id: ClientId, reauth: bool): State
    requires DialIn(s, id, {Dialing, Failing})
  {
    var d := DialOf(s, id);
    var t := if StillOurs(s, id) then
        var x := EntryOf(s, id);
        Put(s, id, x.(conn := None, state := if reauth then NeedsReauth else Unstable, gen := x.gen + 1))
      else s;
    SetDial(t, id, d.(phase := Undone))
  }

  function DoCloseNext(s: State, id: ClientId): State
    requires DialIn(s, id, {Undone})
  {
    var d := DialOf(s, id);
    SetDial(s, id, d.(next := None, phase := LastClose(true))).(open := Closed(s.open, d.next))
  }

  function DoClosePrev(s: State, id: ClientId): State
    requires DialIn(s, id, {LastClose(true), LastClose(false)})
  {
    var d := DialOf(s, id);
    s.(slots := s.slots[id := if d.adding && d.phase.failed then AddFailed else Held(false, false)], open := Closed(s.open, d.prev))
  }

  /** Closes and detaches the connection of the entry under `id`, then writes the other fields. */
  function CloseAndPut(s: State, id: ClientId, x: Entry): State
    requires Known(s, id)
  {
    Put(s, id, x.(conn := None)).(open := Closed(s.open, EntryOf(s, id).conn))
  }

  /** A switch to a shared connection leaves the new configuration to be dialled. */
  function DoUpdateClient(s: State, id: ClientId, perCall: bool, tools: Tools): State
    requires Holds(s, id) && Known(s, id)
  {
    var x := EntryOf(s, id);
    if !x.perCall && perCall then
      CloseAndPut(s, id, x.(gen := x.gen + 1, perCall := true, tools := tools,
                            state := if Authoritative(x.state) then x.state else Healthy))
    else if x.perCall && !perCall then
      SetRead(Put(s, id, x.(perCall := false, tools := tools)), id, true)
    else Put(s, id, x.(tools := tools))
  }

  function DoRemove(s: State, id: ClientId): State
    requires Known(s, id)
  {
    CloseAndPut(s, id, EntryOf(s, id).(tools := {})).(clients := s.clients - {id})
  }

  /** A late write finds the entry by ID and lands when its generation is the remembered one. */
  predicate Lands(s: State, l: Late) {
    Known(s, l.id) && EntryOf(s, l.id).gen == l.gen
  }

  function DoWriteTools(s: State, l: Late, tools: Tools): State {
    if Lands(s, l) then Put(s, l.id, EntryOf(s, l.id).(tools := tools)) else s
  }

  function DoWriteState(s: State, l: Late, st: ConnState): State {
    if Lands(s, l) && !Authoritative(EntryOf(s, l.id).state) then Put(s, l.id, EntryOf(s, l.id).(state := st)) else s
  }

  // ---- steps ----

  predicate Enabled(s: State, a: Step) {
    match a
    case Acquire(id) => id !in s.slots
    case Release(id) => Holds(s, id)
    case ReadConfig(id) => Holds(s, id) && Known(s, id) && !EntryOf(s, id).perCall
    case AddPlaceholder(id, e, _) => id !in s.clients && e !in s.entries
    case AddDisabled(id, e, _, _) => id !in s.clients && e !in s.entries
    case BootFallback(id, e) => e !in s.entries
    case DropFailedAdd(id) => id in s.slots && s.slots[id].AddFailed?
    case RegisterWithoutDial(id, _, _) => Holds(s, id) && Known(s, id)
    case CompleteVerification(id, _) => Holds(s, id) && Known(s, id) && EntryOf(s, id).state.PendingVerification?
    case MarkUnstable(id) => Holds(s, id) && Known(s, id) && !Authoritative(EntryOf(s, id).state)
    case SetClientTools(id, _) => Known(s, id)
    case BeginDial(id, e, _, _) => HasRead(s, id) && e !in s.entries
    case CloseDetached(id) => DialIn(s, id, {Detaching})
    case OpenConn(id, c) => DialIn(s, id, {Dialing}) && c !in s.owner
    case OpenFails(id) => DialIn(s, id, {Dialing})
    case Commit(id, _) => DialIn(s, id, {Dialing})
    case FailDial(id, _) => DialIn(s, id, {Dialing, Failing})
    case CloseNext(id) => DialIn(s, id, {Undone})
    case ClosePrev(id) => DialIn(s, id, {LastClose(true), LastClose(false)})
    case RotateCredential(id) =>
      Holds(s, id) && Known(s, id) && !EntryOf(s, id).perCall && !EntryOf(s, id).state.Disabled?
    case Disable(id) => Holds(s, id) && Known(s, id) && !EntryOf(s, id).state.Disabled?
    case UpdateClient(id, _, _) => Holds(s, id) && Known(s, id)
    case Remove(id) => Known(s, id)
    case StartCheck(k, id) => k !in s.checks && Known(s, id) && !Authoritative(EntryOf(s, id).state)
    case WriteTools(k, _) => k in s.checks
    case WriteState(k, _) => k in s.checks
    case ConnectionLost(c) => c in s.onLost
  }

  function Apply(s: State, a: Step): State
    requires Enabled(s, a)
  {
    match a
    case Acquire(id) => s.(slots := s.slots[id := Held(false, false)])
    case ReadConfig(id) => SetRead(s, id, true)
    case Release(id) => s.(slots := s.slots - {id})
    case AddPlaceholder(id, e, perCall) => DoAddPlaceholder(s, id, e, perCall)
    case AddDisabled(id, e, perCall, tools) => AddEntry(s, id, e, Entry(id, None, Disabled, 0, if perCall then tools else {}, perCall))
    case BootFallback(id, e) => DoBootFallback(s, id, e)
    case DropFailedAdd(id) => s.(clients := s.clients - {id}, slots := s.slots[id := Held(false, false)])
    case RegisterWithoutDial(id, pending, tools) => DoRegister(s, id, pending, tools)
    case CompleteVerification(id, tools) => Put(s, id, EntryOf(s, id).(state := Healthy, tools := EntryOf(s, id).tools + tools))
    case MarkUnstable(id) => Put(s, id, EntryOf(s, id).(state := Unstable))
    case SetClientTools(id, tools) => Put(s, id, EntryOf(s, id).(state := Healthy, tools := EntryOf(s, id).tools + tools))
    case BeginDial(id, e, transport, disabled) => DoBeginDial(s, id, e, transport, disabled)
    case CloseDetached(id) =>
      var d := DialOf(s, id);
      SetDial(s, id, d.(prev := None, phase := Dialing)).(open := Closed(s.open, d.prev))
    case OpenConn(id, c) => DoOpenConn(s, id, c)
    case OpenFails(id) => DoOpenFails(s, id)
    case Commit(id, tools) => DoCommit(s, id, tools)
    case FailDial(id, reauth) => DoFailDial(s, id, reauth)
    case CloseNext(id) => DoCloseNext(s, id)
    case ClosePrev(id) => DoClosePrev(s, id)
    case RotateCredential(id) => CloseAndPut(s, id, EntryOf(s, id).(state := NeedsReauth))
    case Disable(id) =>
      var x := EntryOf(s, id);
      CloseAndPut(s, id, x.(state := Disabled, tools := if x.perCall then x.tools else {}))
    case UpdateClient(id, perCall, tools) => DoUpdateClient(s, id, perCall, tools)
    case Remove(id) => DoRemove(s, id)
    case StartCheck(k, id) => s.(checks := s.checks[k := Late(id, EntryOf(s, id).gen, s.clients[id])])
    case WriteTools(k, tools) => DoWriteTools(s, s.checks[k], tools)
    case WriteState(k, healthy) => DoWriteState(s, s.checks[k], if healthy then Healthy else Unstable)
    case ConnectionLost(c) => DoWriteState(s, s.onLost[c], Unstable)
  }

  ghost predicate IsRun(run: seq<State>, steps: seq<Step>) {
    && |run| == |steps| + 1
    && forall i {:trigger steps[i]} :: 0 <= i < |steps| ==> Enabled(run[i], steps[i]) && run[i + 1] == Apply(run[i], steps[i])
  }

  ghost predicate Reachable(s: State) {
    exists run: seq<State>, steps: seq<Step> :: IsRun(run, steps) && run[0] == EmptyState && run[|run| - 1] == s
  }
}
