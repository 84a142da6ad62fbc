/**
 The manager's locked regions as methods on shared client entries.

 Each method is one region run under the manager lock, with the source's own branches; its
 contract says which atomic step of McpConnections it is. Closing a connection, which the
 dial does outside the lock, is a step of its own there.
 */
module McpManager {
  import opened Wrappers
  import opened McpConnections

  /** An entry of the client map, mutated in place and compared by identity. */
  class ClientState {
    const key: EntryId
    const client: ClientId
    var conn: Option<ConnId>
    var state: ConnState
    var gen: nat
    var tools: Tools
    var perCall: bool

    constructor (key: EntryId, client: ClientId, state: ConnState, perCall: bool)
      ensures this.key == key && Value() == Entry(client, None, state, 0, {}, perCall)
    {
      this.key, this.client, conn, this.state, gen, tools, this.perCall := key, client, None, state, 0, {}, perCall;
    }

    function Value(): Entry
      reads this
    {
      Entry(client, conn, state, gen, tools, perCall)
    }
  }

  class ClientManager {
    var clients: map<ClientId, ClientState>
    var open: set<ConnId>
    var slots: map<ClientId, Slot>
    ghost var heap: map<EntryId, ClientState>
    ghost var owner: map<ConnId, ClientId>
    ghost var checks: map<CheckId, Late>
    ghost var onLost: map<ConnId, Late>

    ghost function Objects(): set<object>
      reads this
    {
      set e | e in heap :: heap[e]
    }

    ghost predicate Valid()
      reads this, Objects()
    {
      && (forall e :: e in heap ==> heap[e].key == e)
      && (forall id :: id in clients ==> clients[id].key in heap && heap[clients[id].key] == clients[id])
    }

    /** The manager as a state of the transition system. */
    ghost function Abstract(): State
      reads this, Objects()
    {
      State(map e | e in heap :: heap[e].Value(), map id | id in clients :: clients[id].key, slots, open, owner, checks, onLost)
    }

    constructor ()
      ensures Valid() && Abstract() == EmptyState
    {
      clients, open, slots, heap, owner, checks, onLost := map[], {}, map[], map[], map[], map[], map[];
    }

    method Close(conn: Option<ConnId>)
      requires Valid()
      modifies this`open
      ensures Valid() && Abstract() == old(Abstract()).(open := Closed(old(open), conn))
    {
      if conn.Some? {
        open := open - {conn.value};
      }
    }

    /** Assigns the fields of the entry under `id`. */
    method Write(id: ClientId, x: Entry)
      requires Valid() && id in clients && x.client == clients[id].client
      modifies clients[id]
      ensures Valid() && Abstract() == Put(old(Abstract()), id, x) && clients[id].Value() == x
    {
      var c := clients[id];
      c.conn, c.state, c.gen, c.tools, c.perCall := x.conn, x.state, x.gen, x.tools, x.perCall;
      assert c.Value() == x;
      assert Abstract().entries == old(Abstract()).entries[c.key := x];
      assert Abstract().clients == old(Abstract()).clients;
    }

    /** Closes and detaches the connection of the entry under `id`, and assigns its other fields. */
    method CloseAndWrite(id: ClientId, x: Entry)
      requires Valid() && id in clients && x.client == clients[id].client
      modifies this`open, clients[id]
      ensures Valid() && Abstract() == CloseAndPut(old(Abstract()), id, x)
    {
      Close(clients[id].conn);
      Write(id, x.(conn := None));
    }

    /** removeClientUnsafe: closes what the entry shows and deletes it. */
    method RemoveClient(id: ClientId) returns (found: bool)
      requires Valid()
      modifies this, Objects()
      ensures Valid() && found == Known(old(Abstract()), id)
      ensures Abstract() == if found then DoRemove(old(Abstract()), id) else old(Abstract())
    {
      if id !in clients {
        return false;
      }
      found := true;
      CloseAndWrite(id, clients[id].Value().(tools := {}));
      Delete(id);
    }

    method Delete(id: ClientId)
      requires Valid()
      modifies this`clients
      ensures Valid() && Abstract() == old(Abstract()).(clients := old(Abstract()).clients - {id})
    {
      clients := clients - {id};
      assert Abstract().clients == old(Abstract()).clients - {id};
    }

    /** The region of DisableClient, with the client's slot held. */
    method DisableClient(id: ClientId) returns (ok: bool)
      requires Valid() && Holds(Abstract(), id)
      modifies this, Objects()
      ensures Valid() && ok == Enabled(old(Abstract()), Disable(id))
      ensures Abstract() == if ok then Apply(old(Abstract()), Disable(id)) else old(Abstract())
    {
      if id !in clients || clients[id].state == Disabled {
        return false;
      }
      ok := true;
      var x := clients[id].Value();
      CloseAndWrite(id, x.(state := Disabled, tools := if x.perCall then x.tools else {}));
    }

    /** The region of CloseAndMarkNeedsReauth, with the client's slot held; a disabled client is left as it is. */
    method CloseAndMarkNeedsReauth(id: ClientId) returns (changed: bool)
      requires Valid() && Holds(Abstract(), id)
      modifies this, Objects()
      ensures Valid() && changed == Enabled(old(Abstract()), RotateCredential(id))
      ensures Abstract() == if changed then Apply(old(Abstract()), RotateCredential(id)) else old(Abstract())
    {
      if id !in clients || clients[id].perCall || clients[id].state == Disabled {
        return false;
      }
      changed := true;
      var x := clients[id].Value();
      CloseAndWrite(id, x.(state := NeedsReauth));
    }

    method MarkRead(id: ClientId)
      requires Valid() && Holds(Abstract(), id)
      modifies this`slots
      ensures Valid() && Abstract() == SetRead(old(Abstract()), id, true)
    {
      slots := slots[id := slots[id].(read := true)];
    }

    /**
     The region in which a slot holder (ReconnectClient, EnableClient, UpdateClientCredentials)
     looks the client up and takes its configuration; refused for missing and per-call clients.
     */
    method TakeConfig(id: ClientId) returns (ok: bool)
      requires Valid() && Holds(Abstract(), id)
      modifies this`slots
      ensures Valid() && ok == Enabled(old(Abstract()), ReadConfig(id))
      ensures Abstract() == if ok then Apply(old(Abstract()), ReadConfig(id)) else old(Abstract())
    {
      ok := id in clients && !clients[id].perCall;
      if ok {
        MarkRead(id);
      }
    }

    /** The locked region of UpdateClient, with the client's slot held; `tools` are the renamed ones. */
    method UpdateClient(id: ClientId, perCall: bool, tools: Tools) returns (found: bool)
      requires Valid() && Holds(Abstract(), id)
      modifies this, Objects()
      ensures Valid() && found == Known(old(Abstract()), id)
      ensures Abstract() == if found then DoUpdateClient(old(Abstract()), id, perCall, tools) else old(Abstract())
    {
      if id !in clients {
        return false;
      }
      found := true;
      var x := clients[id].Value();
      if !x.perCall && perCall {
        var st := if x.state != Disabled && x.state != NeedsReauth then Healthy else x.state;
        CloseAndWrite(id, x.(gen := x.gen + 1, perCall := true, tools := tools, state := st));
      } else {
        Write(id, x.(perCall := perCall, tools := tools));
        if x.perCall && !perCall {
          MarkRead(id);
        }
      }
    }

    // ---- late writers ----

    /** writeBackTools. */
    method WriteBackTools(l: Late, tools: Tools)
      requires Valid()
      modifies Objects()
      ensures Valid() && Abstract() == DoWriteTools(old(Abstract()), l, tools)
      ensures l.id in clients ==>
                var c := clients[l.id];
                && c.gen == old(c.gen) && c.conn == old(c.conn) && c.state == old(c.state)
                && c.tools == if old(c.gen) == l.gen then tools else old(c.tools)
    {
      if l.id !in clients {
        return;
      }
      var c := clients[l.id];
      if c.gen != l.gen {
        return;
      }
      Write(l.id, c.Value().(tools := tools));
    }

    /** setState of the checker, and the connection-lost callback with the state Unstable. */
    method SetState(l: Late, st: ConnState)
      requires Valid()
      modifies Objects()
      ensures Valid() && Abstract() == DoWriteState(old(Abstract()), l, st)
      ensures l.id in clients ==>
                var c := clients[l.id];
                && c.gen == old(c.gen) && c.conn == old(c.conn) && c.tools == old(c.tools)
                && c.state == if old(c.gen) == l.gen && old(c.state) != Disabled && old(c.state) != NeedsReauth then st else old(c.state)
    {
      if l.id !in clients {
        return;
      }
      var c := clients[l.id];
      if c.gen != l.gen || c.state == Disabled || c.state == NeedsReauth {
        return;
      }
      if c.state != st {
        Write(l.id, c.Value().(state := st));
      } else {
        assert Abstract() == Put(Abstract(), l.id, c.Value().(state := st));
      }
    }

    // ---- the dial's locked regions ----

    method SetSlot(id: ClientId, d: Dial)
      requires Valid()
      modifies this`slots
      ensures Valid() && slots == old(slots)[id := InDial(d)] && Abstract() == SetDial(old(Abstract()), id, d)
    {
      slots := slots[id := InDial(d)];
    }

    method RegisterLoss(c: ConnId, l: Late)
      requires Valid()
      modifies this`onLost
      ensures Valid() && Abstract() == old(Abstract()).(onLost := old(onLost)[c := l])
    {
      onLost := onLost[c := l];
    }

    /** Puts a new entry without a connection under an unused ID. */
    method AddEntry(id: ClientId, key: EntryId, state: ConnState, perCall: bool) returns (c: ClientState)
      requires Valid() && key !in heap && id !in clients
      modifies this
      ensures Valid() && fresh(c) && id in clients && clients[id] == c && c.Value() == Entry(id, None, state, 0, {}, perCall)
      ensures Abstract() == McpConnections.AddEntry(old(Abstract()), id, key, Entry(id, None, state, 0, {}, perCall))
    {
      c := new ClientState(key, id, state, perCall);
      Own(c);
      Register(id, c);
    }

    method Register(id: ClientId, c: ClientState)
      requires Valid() && c.key in heap && heap[c.key] == c
      modifies this`clients
      ensures Valid() && clients == old(clients)[id := c]
      ensures Abstract() == old(Abstract()).(clients := old(Abstract()).clients[id := c.key])
    {
      clients := clients[id := c];
      assert Abstract().clients == old(Abstract()).clients[id := c.key];
    }

    /** Makes a new object one of the manager's entries. */
    ghost method Own(c: ClientState)
      requires Valid() && c.key !in heap
      modifies this`heap
      ensures Valid() && heap == old(heap)[c.key := c]
      ensures Abstract() == old(Abstract()).(entries := old(Abstract()).entries[c.key := c.Value()])
    {
      heap := heap[c.key := c];
      assert Abstract().entries == old(Abstract()).entries[c.key := c.Value()];
    }

    /**
     The first locked region of connectToMCPClient, with the client's slot held. A live HTTP or
     SSE connection stays in the entry; anything else is detached to be closed before the dial.
     */
    method BeginDial(id: ClientId, key: EntryId, transport: Transport, disabled: bool) returns (ok: bool)
      requires Valid() && HasRead(Abstract(), id) && key !in heap
      modifies this, Objects()
      ensures Valid() && Abstract() == DoBeginDial(old(Abstract()), id, key, transport, disabled)
      ensures ok == (id in slots && slots[id].InDial?)
    {
      var adding := slots[id].adding;
      ok := true;
      if id !in clients {
        CreateForDial(id, key, transport, adding);
        return;
      }
      var c := clients[id];
      if c.state == Disabled && disabled {
        RefuseDial(id, adding);
        ok := false;
      } else if c.conn.Some? && (transport.Http? || transport.Sse?) {
        KeepServing(id, transport, adding);
      } else {
        Detach(id, transport, adding);
      }
    }

    method RefuseDial(id: ClientId, adding: bool)
      requires Valid()
      modifies this`slots
      ensures Valid() && slots == old(slots)[id := if adding then AddFailed else Held(false, false)]
      ensures Abstract() == old(Abstract()).(slots := slots)
    {
      slots := slots[id := if adding then AddFailed else Held(false, false)];
    }

    method KeepServing(id: ClientId, transport: Transport, adding: bool)
      requires Valid() && id in clients
      modifies this`slots
      ensures Valid() && id in slots && slots[id].InDial? && Abstract() == BeginSwap(old(Abstract()), id, transport, adding)
    {
      var c := clients[id];
      SetSlot(id, Dial(c.key, transport, true, c.conn, None, Dialing, adding));
    }

    method CreateForDial(id: ClientId, key: EntryId, transport: Transport, adding: bool)
      requires Valid() && id !in clients && key !in heap
      modifies this
      ensures Valid() && id in slots && slots[id].InDial? && Abstract() == BeginAnew(old(Abstract()), id, key, transport, adding)
    {
      var c := AddEntry(id, key, Unstable, false);
      SetSlot(id, Dial(key, transport, false, None, None, Detaching, adding));
    }

    method Detach(id: ClientId, transport: Transport, adding: bool)
      requires Valid() && id in clients
      modifies this`slots, clients[id]
      ensures Valid() && id in slots && slots[id].InDial? && Abstract() == BeginReset(old(Abstract()), id, transport, adding)
    {
      var c := clients[id];
      var prev := c.conn;
      Write(id, c.Value().(conn := None, state := Unstable, gen := c.gen + 1, perCall := false));
      SetSlot(id, Dial(c.key, transport, false, prev, None, Detaching, adding));
    }

    /** Comparing entries by identity is comparing their keys. */
    lemma SameEntryIffStillOurs(id: ClientId, entry: ClientState)
      requires Valid() && id in slots && slots[id].InDial? && entry.key == slots[id].d.entry
      requires entry.key in heap && heap[entry.key] == entry
      ensures id in clients && clients[id] == entry && entry.state != Disabled <==> StillOurs(Abstract(), id)
      ensures StillOurs(Abstract(), id) ==> EntryOf(Abstract(), id) == entry.Value()
    {
    }

    /** The second locked region of connectToMCPClient; false means the dial has to be undone. */
    method CommitDial(id: ClientId, entry: ClientState, tools: Tools) returns (committed: bool)
      requires Valid() && DialIn(Abstract(), id, {Dialing}) && entry.key == DialOf(Abstract(), id).entry
      requires entry.key in heap && heap[entry.key] == entry
      modifies this, Objects()
      ensures Valid() && committed == StillOurs(old(Abstract()), id)
      ensures Abstract() == DoCommit(old(Abstract()), id, tools)
    {
      SameEntryIffStillOurs(id, entry);
      var d := slots[id].d;
      if id !in clients || clients[id] != entry || entry.state == Disabled {
        SetSlot(id, d.(phase := Failing));
        return false;
      }
      SwapIn(id, entry, tools);
      committed := true;
      if d.transport.Sse? && d.next.Some? {
        RegisterLoss(d.next.value, Late(id, entry.gen, entry.key));
      }
    }

    /** Connection, state, generation and tools change together. */
    method SwapIn(id: ClientId, entry: ClientState, tools: Tools)
      requires Valid() && DialIn(Abstract(), id, {Dialing}) && StillOurs(Abstract(), id) && clients[id] == entry
      modifies this, entry
      ensures Valid() && Abstract() == McpConnections.SwapIn(old(Abstract()), id, tools)
      ensures entry.gen == old(entry.gen) + 1 && onLost == old(onLost)
    {
      var d, x := slots[id].d, entry.Value();
      Write(id, x.(conn := d.next, state := Healthy, gen := x.gen + 1, tools := tools));
      SetSlot(id, d.(next := None, phase := LastClose(false)));
    }

    method DetachFailed(id: ClientId, needsReauth: bool)
      requires Valid() && id in clients
      modifies clients[id]
      ensures Valid()
      ensures var x := EntryOf(old(Abstract()), id);
              Abstract() == Put(old(Abstract()), id, x.(conn := None, state := if needsReauth then NeedsReauth else Unstable, gen := x.gen + 1))
    {
      var x := clients[id].Value();
      Write(id, x.(conn := None, state := if needsReauth then NeedsReauth else Unstable, gen := x.gen + 1));
    }

    /** The locked region of failConnectAttempt. */
    method FailConnectAttempt(id: ClientId, entry: ClientState, needsReauth: bool)
      requires Valid() && DialIn(Abstract(), id, {Dialing, Failing}) && entry.key == DialOf(Abstract(), id).entry
      requires entry.key in heap && heap[entry.key] == entry
      modifies this, Objects()
      ensures Valid() && Abstract() == DoFailDial(old(Abstract()), id, needsReauth)
    {
      SameEntryIffStillOurs(id, entry);
      var d := slots[id].d;
      if id in clients && clients[id] == entry && entry.state != Disabled {
        DetachFailed(id, needsReauth);
      }
      SetSlot(id, d.(phase := Undone));
    }

    // ---- late writers by name ----

    /** handleSSEConnectionLost, bound to the client and generation of its connection. */
    method HandleConnectionLost(l: Late)
      requires Valid()
      modifies Objects()
      ensures Valid() && Abstract() == DoWriteState(old(Abstract()), l, Unstable)
      ensures l.id in clients ==>
                var c := clients[l.id];
                && c.gen == old(c.gen) && c.conn == old(c.conn) && c.tools == old(c.tools)
                && c.state == if old(c.gen) == l.gen && old(c.state) != Disabled && old(c.state) != NeedsReauth then Unstable else old(c.state)
    {
      SetState(l, Unstable);
    }

    /** recordFailure of the checker. */
    method RecordFailure(l: Late)
      requires Valid()
      modifies Objects()
      ensures Valid() && Abstract() == DoWriteState(old(Abstract()), l, Unstable)
      ensures l.id in clients ==>
                var c := clients[l.id];
                && c.gen == old(c.gen) && c.conn == old(c.conn) && c.tools == old(c.tools)
                && c.state == if old(c.gen) == l.gen && old(c.state) != Disabled && old(c.state) != NeedsReauth then Unstable else old(c.state)
    {
      SetState(l, Unstable);
    }

    /** recordSuccess of the checker. */
    method RecordSuccess(l: Late)
      requires Valid()
      modifies Objects()
      ensures Valid() && Abstract() == DoWriteState(old(Abstract()), l, Healthy)
      ensures l.id in clients ==>
                var c := clients[l.id];
                && c.gen == old(c.gen) && c.conn == old(c.conn) && c.tools == old(c.tools)
                && c.state == if old(c.gen) == l.gen && old(c.state) != Disabled && old(c.state) != NeedsReauth then Healthy else old(c.state)
    {
      SetState(l, Healthy);
    }

    // ---- registration ----

    /** AddClient's locked region: a placeholder and the slot, or neither; a client that connects per call is not dialled. */
    method AddPlaceholder(id: ClientId, key: EntryId, perCall: bool) returns (placed: bool)
      requires Valid() && key !in heap && id !in clients
      modifies this
      ensures Valid() && Abstract() == Apply(old(Abstract()), McpConnections.Step.AddPlaceholder(id, key, perCall))
      ensures placed == (id !in old(slots))
      ensures placed ==> id in clients && fresh(clients[id]) && clients[id].state == NoState && clients[id].conn.None?
    {
      placed := id !in slots;
      if placed {
        var c := AddEntry(id, key, NoState, perCall);
        TakeSlot(id, perCall);
      }
    }

    method TakeSlot(id: ClientId, perCall: bool)
      requires Valid()
      modifies this`slots
      ensures Valid() && Abstract() == old(Abstract()).(slots := old(slots)[id := Held(true, !perCall)])
    {
      slots := slots[id := Held(true, !perCall)];
    }

    /** AddClient's dormant placeholder for a disabled client; per-call clients keep their persisted tools. */
    method AddDisabledClient(id: ClientId, key: EntryId, perCall: bool, persisted: Tools)
      requires Valid() && key !in heap && id !in clients
      modifies this
      ensures Valid() && Abstract() == Apply(old(Abstract()), AddDisabled(id, key, perCall, persisted))
      ensures id in clients && clients[id].state == Disabled && clients[id].tools == if perCall then persisted else {}
    {
      var c := AddEntry(id, key, Disabled, perCall);
      if perCall {
        SetTools(id, persisted);
      }
    }

    method SetTools(id: ClientId, tools: Tools)
      requires Valid() && id in clients
      modifies clients[id]
      ensures Valid() && Abstract() == Put(old(Abstract()), id, EntryOf(old(Abstract()), id).(tools := tools))
      ensures clients[id].tools == tools && clients[id].state == old(clients[id].state)
    {
      Write(id, clients[id].Value().(tools := tools));
    }

    method PutState(id: ClientId, st: ConnState, tools: Tools)
      requires Valid() && id in clients
      modifies clients[id]
      ensures Valid() && Abstract() == Put(old(Abstract()), id, EntryOf(old(Abstract()), id).(state := st, tools := tools))
      ensures clients[id].state == st && clients[id].tools == tools && clients[id].conn == old(clients[id].conn) && clients[id].gen == old(clients[id].gen)
    {
      Write(id, clients[id].Value().(state := st, tools := tools));
    }

    /** The boot fallback after a failed AddClient. */
    method RetainAfterBoot(id: ClientId, key: EntryId)
      requires Valid() && key !in heap
      modifies this, Objects()
      ensures Valid() && Abstract() == Apply(old(Abstract()), BootFallback(id, key))
      ensures id in clients && clients[id].state == Unstable
    {
      if id in clients {
        PutState(id, Unstable, clients[id].tools);
      } else {
        var c := AddEntry(id, key, Unstable, false);
      }
    }

    /** AddClient's registration without a dial: parked for verification, or healthy and connecting per call. */
    method RegisterClient(id: ClientId, pending: bool, discovered: Tools)
      requires Valid() && Holds(Abstract(), id) && id in clients
      modifies this, Objects()
      ensures Valid() && Abstract() == Apply(old(Abstract()), RegisterWithoutDial(id, pending, discovered))
      ensures id in clients && clients[id].state == if pending then PendingVerification else Healthy
    {
      var tools := clients[id].tools;
      PutState(id, if pending then PendingVerification else Healthy, if pending then tools else tools + discovered);
      ClearRead(id);
    }

    method ClearRead(id: ClientId)
      requires Valid() && Holds(Abstract(), id)
      modifies this`slots
      ensures Valid() && Abstract() == SetRead(old(Abstract()), id, false)
    {
      slots := slots[id := slots[id].(read := false)];
    }

    /** UpdateClientCredentials completing the first verification of a per-call client. */
    method FinishVerification(id: ClientId, discovered: Tools) returns (done: bool)
      requires Valid() && Holds(Abstract(), id)
      modifies this, Objects()
      ensures Valid() && done == Enabled(old(Abstract()), CompleteVerification(id, discovered))
      ensures Abstract() == if done then Apply(old(Abstract()), CompleteVerification(id, discovered)) else old(Abstract())
    {
      done := id in clients && clients[id].state == PendingVerification;
      if done {
        PutState(id, Healthy, clients[id].tools + discovered);
      }
    }

    /** After a failed enabling or stickiness dial: disabled and needs-reauth are kept. */
    method MarkAfterFailedDial(id: ClientId) returns (marked: bool)
      requires Valid() && Holds(Abstract(), id)
      modifies this, Objects()
      ensures Valid() && marked == Enabled(old(Abstract()), MarkUnstable(id))
      ensures Abstract() == if marked then Apply(old(Abstract()), MarkUnstable(id)) else old(Abstract())
    {
      marked := id in clients && clients[id].state != Disabled && clients[id].state != NeedsReauth;
      if marked {
        PutState(id, Unstable, clients[id].tools);
      }
    }

    /** SetClientTools, which asks for neither generation nor state. */
    method SetClientTools(id: ClientId, tools: Tools) returns (found: bool)
      requires Valid()
      modifies this, Objects()
      ensures Valid() && found == Enabled(old(Abstract()), McpConnections.Step.SetClientTools(id, tools))
      ensures Abstract() == if found then Apply(old(Abstract()), McpConnections.Step.SetClientTools(id, tools)) else old(Abstract())
      ensures found ==> id in clients && clients[id].state == Healthy && clients[id].tools == old(clients[id].tools) + tools
    {
      found := id in clients;
      if found {
        PutState(id, Healthy, clients[id].tools + tools);
      }
    }

    /** AddClient's cleanup after a failed dial: whatever entry is under the ID is deleted. */
    method DropAfterFailedAdd(id: ClientId)
      requires Valid() && Enabled(Abstract(), DropFailedAdd(id))
      modifies this
      ensures Valid() && id !in clients && Abstract() == Apply(old(Abstract()), DropFailedAdd(id))
    {
      Delete(id);
      slots := slots[id := Held(false, false)];
    }

    // ---- the dial outside the lock ----

    /** Close-first: the detached connection is closed before dialling. */
    method CloseBeforeDial(id: ClientId)
      requires Valid() && DialIn(Abstract(), id, {Detaching})
      modifies this
      ensures Valid() && Abstract() == Apply(old(Abstract()), CloseDetached(id))
    {
      var d := slots[id].d;
      Close(d.prev);
      SetSlot(id, d.(prev := None, phase := Dialing));
    }

    /** One attempt: the previous attempt's connection is closed, and a new one opened unless creating it fails. */
    method TryConnect(id: ClientId, c: Option<ConnId>)
      requires Valid() && DialIn(Abstract(), id, {Dialing}) && (c.Some? ==> c.value !in owner)
      modifies this
      ensures Valid()
      ensures Abstract() == Apply(old(Abstract()), if c.Some? then OpenConn(id, c.value) else OpenFails(id))
    {
      var d := slots[id].d;
      Close(d.next);
      if c.Some? {
        Open(id, c.value);
      }
      SetSlot(id, d.(next := c));
    }

    method Open(id: ClientId, c: ConnId)
      requires Valid()
      modifies this`open, this`owner
      ensures Valid() && Abstract() == old(Abstract()).(open := old(open) + {c}, owner := old(owner)[c := id])
    {
      open := open + {c};
      owner := owner[c := id];
    }

    /** The end of a failed dial: the half-built connection is closed. */
    method CloseHalfBuilt(id: ClientId)
      requires Valid() && DialIn(Abstract(), id, {Undone})
      modifies this
      ensures Valid() && Abstract() == Apply(old(Abstract()), CloseNext(id))
    {
      var d := slots[id].d;
      Close(d.next);
      SetSlot(id, d.(next := None, phase := LastClose(true)));
    }

    /** The end of every dial: the replaced connection is closed. */
    method CloseReplaced(id: ClientId)
      requires Valid() && DialIn(Abstract(), id, {LastClose(true), LastClose(false)})
      modifies this
      ensures Valid() && Abstract() == Apply(old(Abstract()), ClosePrev(id))
    {
      var d := slots[id].d;
      Close(d.prev);
      EndDial(id, d.adding && d.phase.failed);
    }

    method EndDial(id: ClientId, addFailed: bool)
      requires Valid()
      modifies this`slots
      ensures Valid() && Abstract() == old(Abstract()).(slots := old(slots)[id := if addFailed then AddFailed else Held(false, false)])
    {
      slots := slots[id := if addFailed then AddFailed else Held(false, false)];
    }
  }
}
