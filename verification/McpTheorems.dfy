/** What the MCP client manager promises about connections, generations, replacement and late writes. */
module McpTheorems {
  import opened Wrappers
  import opened McpConnections
  import opened McpSafety

  // ---- no leak ----

  /** The connections referenced by entries in the client map. */
  function Referenced(s: State): set<ConnId> {
    set id | id in s.clients && Shown(s, id).Some? :: Shown(s, id).value
  }

  predicate NoDial(s: State, id: ClientId) {
    id in s.slots ==> !s.slots[id].InDial?
  }

  /** With no dial in progress the open connections are exactly the referenced ones. */
  lemma NoConnectionLeaks(s: State)
    requires Reachable(s) && forall id :: id in s.slots ==> NoDial(s, id)
    ensures s.open == Referenced(s)
  {
    ReachableInv(s);
    forall c | c in s.open ensures c in Referenced(s) {
      assert ConnOk(s, c);
      assert ClientOk(s, s.owner[c]) && NoDial(s, s.owner[c]);
    }
    forall c | c in Referenced(s) ensures c in s.open {
      var id :| id in s.clients && Shown(s, id) == Some(c);
      assert ClientOk(s, id);
    }
  }

  /** Client by client, whatever the other clients do: open for a client without a dial means shown by its entry. */
  lemma NoLeakForClient(s: State, id: ClientId, c: ConnId)
    requires Reachable(s) && NoDial(s, id)
    ensures c in s.open && c in s.owner && s.owner[c] == id <==> Shown(s, id) == Some(c)
  {
    ReachableInv(s);
    assert ClientOk(s, id) && ConnOk(s, c);
  }

  /** At every moment, an entry in the map references only an open connection, and no two entries share one. */
  lemma NeverShowsClosed(s: State, id: ClientId, other: ClientId)
    requires Reachable(s) && Shown(s, id).Some?
    ensures Shown(s, id).value in s.open
    ensures Shown(s, other) == Shown(s, id) ==> other == id
  {
    ReachableInv(s);
    assert ClientOk(s, id) && ClientOk(s, other);
  }

  /** During a dial, every open connection of the client is shown, or is the dial's previous or next one. */
  lemma DialAccountsForRest(s: State, c: ConnId)
    requires Reachable(s) && c in s.open
    ensures c in s.owner && Accounted(s, s.owner[c], c)
  {
    ReachableInv(s);
    assert ConnOk(s, c);
  }

  // ---- make before break ----

  ghost predicate SwapInProgress(s: State, id: ClientId) {
    && DialIn(s, id, {Dialing, Failing}) && DialOf(s, id).swaps
    && id in s.clients && s.clients[id] == DialOf(s, id).entry
  }

  /** While a replacement is dialled, the entry that was not removed shows the previous connection, still open. */
  lemma SwapShowsPrevious(s: State, id: ClientId)
    requires Reachable(s) && SwapInProgress(s, id)
    ensures Shown(s, id).Some? && Shown(s, id) == DialOf(s, id).prev && Shown(s, id).value in s.open
  {
    ReachableInv(s);
    assert ClientOk(s, id);
  }

  /** Leaving that phase: the new connection is in place, or the dial failed, or the client was removed. */
  lemma SwapEndsByCommitOrFailure(s: State, a: Step, id: ClientId)
    requires Reachable(s) && Enabled(s, a) && SwapInProgress(s, id) && !SwapInProgress(Apply(s, a), id)
    ensures || (a.Commit? && a.id == id && Shown(Apply(s, a), id) == DialOf(s, id).next)
            || (a.FailDial? && a.id == id && Shown(Apply(s, a), id).None?)
            || a == Remove(id)
  {
    ReachableInv(s);
    assert ClientOk(s, id);
    if DialStep(a) {
      DialStepAndSwap(s, a, id);
    } else {
      OtherStepAndSwap(s, a, id);
    }
  }

  lemma DialStepAndSwap(s: State, a: Step, id: ClientId)
    requires ClientOk(s, id) && Enabled(s, a) && DialStep(a) && SwapInProgress(s, id) && !SwapInProgress(Apply(s, a), id)
    ensures (a.Commit? || a.FailDial?) && a.id == id
    ensures Shown(Apply(s, a), id) == if a.Commit? then DialOf(s, id).next else None
  {
    if a.id != id {
      ElsewhereKeepsSwap(s, a, id);
    } else if a.Commit? || a.FailDial? {
      EndShows(s, a);
    }
  }

  lemma ElsewhereKeepsSwap(s: State, a: Step, id: ClientId)
    requires Enabled(s, a) && DialStep(a) && SwapInProgress(s, id) && a.id != id
    ensures SwapInProgress(Apply(s, a), id)
  {
    if a.BeginDial? {
      assert SameClient(s, DoBeginDial(s, a.id, a.e, a.transport, a.disabled), id);
    } else if a.Commit? {
      assert SameClient(s, DoCommit(s, a.id, a.tools), id);
    } else if a.FailDial? {
      assert SameClient(s, DoFailDial(s, a.id, a.reauth), id);
    } else {
      InDialElsewhere(s, a, id);
    }
  }

  lemma InDialElsewhere(s: State, a: Step, id: ClientId)
    requires Enabled(s, a) && DialStep(a) && !a.BeginDial? && !a.Commit? && !a.FailDial? && a.id != id
    ensures SameClient(s, Apply(s, a), id)
  {
  }

  lemma EndShows(s: State, a: Step)
    requires (a.Commit? || a.FailDial?) && Enabled(s, a) && SwapInProgress(s, a.id) && EntryOk(s, a.id) && DialOk(s, a.id)
    ensures StillOurs(s, a.id)
    ensures Shown(Apply(s, a), a.id) == if a.Commit? then DialOf(s, a.id).next else None
  {
  }

  lemma OtherStepAndSwap(s: State, a: Step, id: ClientId)
    requires EntryOk(s, id) && Enabled(s, a) && !DialStep(a) && SwapInProgress(s, id) && !SwapInProgress(Apply(s, a), id)
    ensures a == Remove(id)
  {
    if EntryStep(a) { EntryStepKeepsSwap(s, a, id); }
  }

  lemma EntryStepKeepsSwap(s: State, a: Step, id: ClientId)
    requires EntryOk(s, id) && Enabled(s, a) && EntryStep(a) && SwapInProgress(s, id)
    ensures SwapInProgress(Apply(s, a), id)
  {
  }

  // ---- generations ----

  /** A swap, a detach, a failed dial or a switch to per-call connections takes effect on entry `e`. */
  ghost predicate Bumps(s: State, a: Step, e: EntryId) {
    || (a.BeginDial? && Known(s, a.id) && s.clients[a.id] == e && !Swaps(s, a.id, a.transport)
        && !(EntryOf(s, a.id).state.Disabled? && a.disabled))
    || ((a.Commit? || a.FailDial?) && StillOurs(s, a.id) && s.clients[a.id] == e)
    || (a.UpdateClient? && Known(s, a.id) && s.clients[a.id] == e && !EntryOf(s, a.id).perCall && a.perCall)
  }

  /** Exactly those four raise an entry's generation, by one; nothing else changes it. */
  lemma GenerationCountsBumps(s: State, a: Step, e: EntryId)
    requires Enabled(s, a) && e in s.entries
    ensures e in Apply(s, a).entries
    ensures Apply(s, a).entries[e].gen == s.entries[e].gen + if Bumps(s, a, e) then 1 else 0
  {
    if DialStep(a) {
      DialGeneration(s, a, e);
    } else if EntryStep(a) {
      EntryGeneration(s, a, e);
    } else {
      OtherGeneration(s, a, e);
    }
  }

  lemma DialGeneration(s: State, a: Step, e: EntryId)
    requires Enabled(s, a) && e in s.entries && DialStep(a)
    ensures e in Apply(s, a).entries
    ensures Apply(s, a).entries[e].gen == s.entries[e].gen + if Bumps(s, a, e) then 1 else 0
  {
    if a.BeginDial? {
      BeginGeneration(s, a, e);
    } else if a.Commit? || a.FailDial? {
      EndGeneration(s, a, e);
    }
  }

  lemma BeginGeneration(s: State, a: Step, e: EntryId)
    requires Enabled(s, a) && e in s.entries && a.BeginDial?
    ensures var t := DoBeginDial(s, a.id, a.e, a.transport, a.disabled);
            e in t.entries && t.entries[e].gen == s.entries[e].gen + if Bumps(s, a, e) then 1 else 0
  {
  }

  lemma EndGeneration(s: State, a: Step, e: EntryId)
    requires Enabled(s, a) && e in s.entries && (a.Commit? || a.FailDial?)
    ensures var t := if a.Commit? then DoCommit(s, a.id, a.tools) else DoFailDial(s, a.id, a.reauth);
            e in t.entries && t.entries[e].gen == s.entries[e].gen + if Bumps(s, a, e) then 1 else 0
  {
  }

  lemma EntryGeneration(s: State, a: Step, e: EntryId)
    requires Enabled(s, a) && e in s.entries && EntryStep(a)
    ensures e in Apply(s, a).entries
    ensures Apply(s, a).entries[e].gen == s.entries[e].gen
  {
  }

  lemma OtherGeneration(s: State, a: Step, e: EntryId)
    requires Enabled(s, a) && e in s.entries && !DialStep(a) && !EntryStep(a)
    ensures e in Apply(s, a).entries
    ensures Apply(s, a).entries[e].gen == s.entries[e].gen + if Bumps(s, a, e) then 1 else 0
  {
  }

  ghost predicate Unbumped(run: seq<State>, steps: seq<Step>, i: nat, j: nat, e: EntryId)
    requires i <= j <= |steps| <= |run|
  {
    forall m {:trigger Bumps(run[m], steps[m], e)} :: i <= m < j ==> !Bumps(run[m], steps[m], e)
  }

  lemma UnbumpedGrows(run: seq<State>, steps: seq<Step>, i: nat, j: nat, e: EntryId)
    requires i < j <= |steps| <= |run|
    ensures Unbumped(run, steps, i, j, e) <==> Unbumped(run, steps, i, j - 1, e) && !Bumps(run[j - 1], steps[j - 1], e)
  {
  }

  lemma BumpInRun(run: seq<State>, steps: seq<Step>, j: nat, e: EntryId)
    requires IsRun(run, steps) && j < |steps| && e in run[j].entries
    ensures e in run[j + 1].entries && run[j + 1].entries[e].gen == run[j].entries[e].gen + if Bumps(run[j], steps[j], e) then 1 else 0
  {
    GenerationCountsBumps(run[j], steps[j], e);
  }

  /** Over a run, an entry's generation is unchanged exactly when nothing bumped it. */
  lemma {:induction false} SameGenerationIffUnbumped(run: seq<State>, steps: seq<Step>, i: nat, j: nat, e: EntryId)
    requires IsRun(run, steps) && i <= j < |run| && e in run[i].entries
    ensures e in run[j].entries && run[j].entries[e].gen >= run[i].entries[e].gen
    ensures run[j].entries[e].gen == run[i].entries[e].gen <==> Unbumped(run, steps, i, j, e)
  {
    if i < j {
      SameGenerationIffUnbumped(run, steps, i, j - 1, e);
      BumpInRun(run, steps, j - 1, e);
      UnbumpedGrows(run, steps, i, j, e);
    }
  }

  /**
   A periodic check started at step i and still bound to the same entry at step j: its write
   lands exactly when no swap, detach, failed dial or switch took effect on that entry since.
   */
  lemma CheckLandsIffUnbumped(run: seq<State>, steps: seq<Step>, i: nat, j: nat, k: CheckId)
    requires IsRun(run, steps) && i < j < |run| && steps[i].StartCheck? && steps[i].k == k
    requires steps[i].id in run[j].clients && run[j].clients[steps[i].id] == run[i].clients[steps[i].id]
    ensures k in run[j].checks && run[j].checks[k] == run[i + 1].checks[k]
    ensures Lands(run[j], run[j].checks[k]) <==> Unbumped(run, steps, i, j, run[i].clients[steps[i].id])
  {
    var id := steps[i].id;
    CheckRemembered(run, steps, i + 1, j, k);
    SameGenerationIffUnbumped(run, steps, i, j, run[i].clients[id]);
  }

  lemma {:induction false} CheckRemembered(run: seq<State>, steps: seq<Step>, i: nat, j: nat, k: CheckId)
    requires IsRun(run, steps) && i <= j < |run| && k in run[i].checks
    ensures k in run[j].checks && run[j].checks[k] == run[i].checks[k]
  {
    if i < j {
      CheckRemembered(run, steps, i, j - 1, k);
      ChecksOnlyGrow(run[j - 1], steps[j - 1], k);
    }
  }

  lemma ChecksOnlyGrow(s: State, a: Step, k: CheckId)
    requires Enabled(s, a) && k in s.checks
    ensures k in Apply(s, a).checks && Apply(s, a).checks[k] == s.checks[k]
  {
    CapturesKept(s, a);
  }

  /** Only a starting check and a commit remember anything. */
  lemma CapturesKept(s: State, a: Step)
    requires Enabled(s, a)
    ensures !a.StartCheck? ==> Apply(s, a).checks == s.checks
    ensures !a.Commit? ==> Apply(s, a).onLost == s.onLost
  {
    if DialStep(a) {
      DialCaptures(s, a);
    } else if EntryStep(a) {
      EntryCaptures(s, a);
    } else {
      OtherCaptures(s, a);
    }
  }

  lemma DialCaptures(s: State, a: Step)
    requires Enabled(s, a) && DialStep(a)
    ensures Apply(s, a).checks == s.checks && (!a.Commit? ==> Apply(s, a).onLost == s.onLost)
  {
    if a.BeginDial? {
      var t := DoBeginDial(s, a.id, a.e, a.transport, a.disabled);
      assert t.checks == s.checks && t.onLost == s.onLost;
    } else if a.FailDial? {
      var t := DoFailDial(s, a.id, a.reauth);
      assert t.checks == s.checks && t.onLost == s.onLost;
    }
  }

  lemma EntryCaptures(s: State, a: Step)
    requires Enabled(s, a) && EntryStep(a)
    ensures Apply(s, a).checks == s.checks && Apply(s, a).onLost == s.onLost
  {
  }

  lemma OtherCaptures(s: State, a: Step)
    requires Enabled(s, a) && !DialStep(a) && !EntryStep(a)
    ensures (!a.StartCheck? ==> Apply(s, a).checks == s.checks) && Apply(s, a).onLost == s.onLost
  {
  }

  ghost predicate NextIsNot(s: State, id: ClientId, c: ConnId) {
    c in s.owner && (id in s.slots && s.slots[id].InDial? ==> DialOf(s, id).next != Some(c))
  }

  /** A dial gets its next connection only by opening a fresh one. */
  lemma NextOnlyByOpening(s: State, a: Step, id: ClientId, c: ConnId)
    requires Enabled(s, a) && NextIsNot(s, id, c)
    ensures NextIsNot(Apply(s, a), id, c)
  {
    if a.BeginDial? {
      BeginNext(s, a, id, c);
    } else if a.Commit? || a.FailDial? {
      EndNext(s, a, id, c);
    } else if DialStep(a) {
      InDialNext(s, a, id, c);
    } else if !EntryStep(a) {
      OtherNext(s, a, id, c);
    }
  }

  lemma BeginNext(s: State, a: Step, id: ClientId, c: ConnId)
    requires Enabled(s, a) && NextIsNot(s, id, c) && a.BeginDial?
    ensures NextIsNot(DoBeginDial(s, a.id, a.e, a.transport, a.disabled), id, c)
  {
  }

  lemma EndNext(s: State, a: Step, id: ClientId, c: ConnId)
    requires Enabled(s, a) && NextIsNot(s, id, c) && (a.Commit? || a.FailDial?)
    ensures NextIsNot(if a.Commit? then DoCommit(s, a.id, a.tools) else DoFailDial(s, a.id, a.reauth), id, c)
  {
  }

  lemma InDialNext(s: State, a: Step, id: ClientId, c: ConnId)
    requires Enabled(s, a) && NextIsNot(s, id, c) && DialStep(a) && !a.BeginDial? && !a.Commit? && !a.FailDial?
    ensures NextIsNot(Apply(s, a), id, c)
  {
  }

  lemma OtherNext(s: State, a: Step, id: ClientId, c: ConnId)
    requires Enabled(s, a) && NextIsNot(s, id, c) && !DialStep(a) && !EntryStep(a)
    ensures NextIsNot(Apply(s, a), id, c)
  {
  }

  // ---- an entry's lifetime ----

  predicate Unmaps(a: Step, id: ClientId) {
    (a.Remove? || a.DropFailedAdd?) && a.id == id
  }

  predicate Maps(s: State, id: ClientId, e: EntryId) {
    id in s.clients && s.clients[id] == e
  }

  ghost predicate NotRemoved(steps: seq<Step>, i: nat, j: nat, id: ClientId)
    requires i <= j <= |steps|
  {
    forall m :: i <= m < j ==> !Unmaps(steps[m], id)
  }

  lemma DialStepMaps(s: State, a: Step, id: ClientId, e: EntryId)
    requires EntryOk(s, id) && Enabled(s, a) && e in s.entries && DialStep(a)
    ensures Maps(Apply(s, a), id, e) <==> Maps(s, id, e)
  {
  }

  lemma OtherStepMaps(s: State, a: Step, id: ClientId, e: EntryId)
    requires EntryOk(s, id) && Enabled(s, a) && e in s.entries && !DialStep(a)
    ensures Maps(Apply(s, a), id, e) <==> Maps(s, id, e) && !Unmaps(a, id)
  {
  }

  /** An entry stays under its ID exactly until the client is removed or a failed add drops it; it never comes back. */
  lemma {:induction false} MappedIffNotRemoved(run: seq<State>, steps: seq<Step>, i: nat, j: nat, id: ClientId)
    requires IsRun(run, steps) && run[0] == EmptyState && i <= j < |run| && Known(run[i], id)
    ensures run[i].clients[id] in run[j].entries
    ensures Maps(run[j], id, run[i].clients[id]) <==> NotRemoved(steps, i, j, id)
  {
    if i < j {
      var e := run[i].clients[id];
      MappedIffNotRemoved(run, steps, i, j - 1, id);
      RunKeeps(run, steps, j - 1);
      assert ClientOk(run[j - 1], id);
      GenerationCountsBumps(run[j - 1], steps[j - 1], e);
      if DialStep(steps[j - 1]) {
        DialStepMaps(run[j - 1], steps[j - 1], id, e);
      } else {
        OtherStepMaps(run[j - 1], steps[j - 1], id, e);
      }
    }
  }

  /**
   The write of a check started at step i reaches the entry it was started for exactly when
   since then the client was not removed and nothing bumped the entry.
   */
  lemma CheckReachesItsEntryIff(run: seq<State>, steps: seq<Step>, i: nat, j: nat, k: CheckId)
    requires IsRun(run, steps) && run[0] == EmptyState && i < j < |run| && steps[i].StartCheck? && steps[i].k == k
    ensures k in run[j].checks
    ensures var id, e := steps[i].id, run[i].clients[steps[i].id];
            Lands(run[j], run[j].checks[k]) && Maps(run[j], id, e) <==>
            NotRemoved(steps, i, j, id) && Unbumped(run, steps, i, j, e)
  {
    CheckRemembered(run, steps, i + 1, j, k);
    MappedIffNotRemoved(run, steps, i, j, steps[i].id);
    if Maps(run[j], steps[i].id, run[i].clients[steps[i].id]) {
      CheckLandsIffUnbumped(run, steps, i, j, k);
    }
  }

  // ---- how often an entry was bumped ----

  /** How many steps from i up to j bump entry `e`. */
  ghost function BumpCount(run: seq<State>, steps: seq<Step>, i: nat, j: nat, e: EntryId): nat
    requires i <= j <= |steps| <= |run|
  {
    if i == j then 0 else BumpCount(run, steps, i, j - 1, e) + if Bumps(run[j - 1], steps[j - 1], e) then 1 else 0
  }

  lemma {:induction false} GenerationIsBumpCount(run: seq<State>, steps: seq<Step>, i: nat, j: nat, e: EntryId)
    requires IsRun(run, steps) && i <= j < |run| && e in run[i].entries
    ensures e in run[j].entries && run[j].entries[e].gen == run[i].entries[e].gen + BumpCount(run, steps, i, j, e)
  {
    if i < j {
      GenerationIsBumpCount(run, steps, i, j - 1, e);
      BumpInRun(run, steps, j - 1, e);
    }
  }

  lemma BeginStartsAtZero(s: State, a: Step, e: EntryId)
    requires Enabled(s, a) && a.BeginDial? && e !in s.entries
    ensures var t := DoBeginDial(s, a.id, a.e, a.transport, a.disabled); e in t.entries ==> t.entries[e].gen == 0
  {
  }

  lemma EndAddsNothing(s: State, a: Step)
    requires Enabled(s, a) && (a.Commit? || a.FailDial?)
    ensures (if a.Commit? then DoCommit(s, a.id, a.tools) else DoFailDial(s, a.id, a.reauth)).entries.Keys == s.entries.Keys
  {
  }

  lemma DialEntryStartsAtZero(s: State, a: Step, e: EntryId)
    requires Enabled(s, a) && DialStep(a) && e !in s.entries && e in Apply(s, a).entries
    ensures Apply(s, a).entries[e].gen == 0
  {
    if a.BeginDial? {
      BeginStartsAtZero(s, a, e);
    } else if a.Commit? || a.FailDial? {
      EndAddsNothing(s, a);
    }
  }

  lemma OtherEntryStartsAtZero(s: State, a: Step, e: EntryId)
    requires Enabled(s, a) && !DialStep(a) && e !in s.entries && e in Apply(s, a).entries
    ensures Apply(s, a).entries[e].gen == 0
  {
    if !EntryStep(a) { NothingAdded(s, a); }
  }

  lemma NothingAdded(s: State, a: Step)
    requires Enabled(s, a) && !DialStep(a) && !EntryStep(a)
    ensures Apply(s, a).entries.Keys == s.entries.Keys
  {
  }

  lemma EntryStartsAtZero(s: State, a: Step, e: EntryId)
    requires Enabled(s, a) && e !in s.entries && e in Apply(s, a).entries
    ensures Apply(s, a).entries[e].gen == 0
  {
    if DialStep(a) { DialEntryStartsAtZero(s, a, e); } else { OtherEntryStartsAtZero(s, a, e); }
  }

  /** The step that created an entry; its generation starts at zero. */
  lemma {:induction false} CreatedAt(run: seq<State>, steps: seq<Step>, j: nat, e: EntryId) returns (c: nat)
    requires IsRun(run, steps) && run[0] == EmptyState && j < |run| && e in run[j].entries
    ensures c < j && e !in run[c].entries && e in run[c + 1].entries && run[c + 1].entries[e].gen == 0
  {
    if e in run[j - 1].entries {
      c := CreatedAt(run, steps, j - 1, e);
    } else {
      c := j - 1;
      EntryStartsAtZero(run[c], steps[c], e);
    }
  }

  /** A late write lands exactly when the entry now under its ID was bumped as often since its creation as the generation it remembers. */
  lemma LandsIffBumpedAsOften(run: seq<State>, steps: seq<Step>, j: nat, l: Late) returns (c: nat)
    requires IsRun(run, steps) && run[0] == EmptyState && j < |run| && Known(run[j], l.id)
    ensures c < j && run[j].clients[l.id] !in run[c].entries && run[j].clients[l.id] in run[c + 1].entries
    ensures Lands(run[j], l) <==> BumpCount(run, steps, c + 1, j, run[j].clients[l.id]) == l.gen
  {
    c := CreatedAt(run, steps, j, run[j].clients[l.id]);
    GenerationIsBumpCount(run, steps, c + 1, j, run[j].clients[l.id]);
  }

  /**
   The write lands on another entry exactly when the client was removed since the check
   started and the entry now under its ID was bumped, since it was created at step c, as
   often as the checked entry had been when the check started.
   */
  lemma CheckReachesAnotherEntryIff(run: seq<State>, steps: seq<Step>, i: nat, j: nat, k: CheckId) returns (c: nat)
    requires IsRun(run, steps) && run[0] == EmptyState && i < j < |run| && steps[i].StartCheck? && steps[i].k == k
    ensures k in run[j].checks
    ensures !Known(run[j], steps[i].id) ==> !Lands(run[j], run[j].checks[k])
    ensures Known(run[j], steps[i].id) ==>
            var id := steps[i].id;
            && c < j && run[j].clients[id] !in run[c].entries && run[j].clients[id] in run[c + 1].entries
            && (Lands(run[j], run[j].checks[k]) && !Maps(run[j], id, run[i].clients[id]) <==>
            && !NotRemoved(steps, i, j, id)
            && BumpCount(run, steps, c + 1, j, run[j].clients[id]) == EntryOf(run[i], id).gen)
  {
    CheckRemembered(run, steps, i + 1, j, k);
    MappedIffNotRemoved(run, steps, i, j, steps[i].id);
    c := 0;
    if Known(run[j], steps[i].id) {
      c := LandsIffBumpedAsOften(run, steps, j, run[j].checks[k]);
    }
  }

  /** A client not in the map comes into it only by an add, a boot fallback or a dial whose caller had read its configuration. */
  lemma AppearsOnlyBy(s: State, a: Step, id: ClientId)
    requires Reachable(s) && Enabled(s, a) && id !in s.clients && id in Apply(s, a).clients
    ensures (a.AddPlaceholder? || a.AddDisabled? || a.BootFallback? || a.BeginDial?) && a.id == id
    ensures a.BeginDial? ==> HasRead(s, id)
    ensures EntryOf(Apply(s, a), id).conn.None? && EntryOf(Apply(s, a), id).gen == 0
  {
    StepKeepsInv(s, a, id);
    if DialStep(a) {
      DialAppears(s, a, id);
    } else {
      OtherAppears(s, a, id);
    }
  }

  lemma StepKeepsInv(s: State, a: Step, id: ClientId)
    requires Reachable(s) && Enabled(s, a)
    ensures EntryOk(Apply(s, a), id)
  {
    ReachableInv(s);
    StepKeeps(s, a);
    assert ClientOk(Apply(s, a), id);
  }

  lemma DialAppears(s: State, a: Step, id: ClientId)
    requires Enabled(s, a) && DialStep(a) && id !in s.clients && id in Apply(s, a).clients && EntryOk(Apply(s, a), id)
    ensures a.BeginDial? && a.id == id && HasRead(s, id)
    ensures EntryOf(Apply(s, a), id).conn.None? && EntryOf(Apply(s, a), id).gen == 0
  {
  }

  lemma OtherAppears(s: State, a: Step, id: ClientId)
    requires Enabled(s, a) && !DialStep(a) && id !in s.clients && id in Apply(s, a).clients && EntryOk(Apply(s, a), id)
    ensures (a.AddPlaceholder? || a.AddDisabled? || a.BootFallback?) && a.id == id
    ensures EntryOf(Apply(s, a), id).conn.None? && EntryOf(Apply(s, a), id).gen == 0
  {
  }

  /** A connection with a registered callback is committed: no dial has it as its next connection. */
  ghost predicate LossOk(s: State, c: ConnId, id: ClientId) {
    c in s.onLost ==> NextIsNot(s, id, c)
  }

  lemma StepKeepsLoss(s: State, a: Step, c: ConnId, id: ClientId)
    requires Inv(s) && Enabled(s, a) && LossOk(s, c, id)
    ensures LossOk(Apply(s, a), c, id)
  {
    CapturesKept(s, a);
    if c in s.onLost {
      NextOnlyByOpening(s, a, id, c);
    } else if a.Commit? {
      assert ClientOk(s, id) && ClientOk(s, a.id);
      CommitClearsNext(s, a, c, id);
    }
  }

  lemma CommitClearsNext(s: State, a: Step, c: ConnId, id: ClientId)
    requires Enabled(s, a) && a.Commit? && DialOk(s, id) && DialOk(s, a.id) && c !in s.onLost
    ensures LossOk(DoCommit(s, a.id, a.tools), c, id)
  {
  }

  lemma {:induction false} RunKeepsLoss(run: seq<State>, steps: seq<Step>, j: nat, c: ConnId, id: ClientId)
    requires IsRun(run, steps) && run[0] == EmptyState && j < |run|
    ensures LossOk(run[j], c, id)
  {
    if j > 0 {
      RunKeepsLoss(run, steps, j - 1, c, id);
      RunKeeps(run, steps, j - 1);
      StepKeepsLoss(run[j - 1], steps[j - 1], c, id);
    }
  }

  lemma LossOnlyGrows(s: State, a: Step, c: ConnId)
    requires Enabled(s, a) && c in s.onLost && (a.Commit? ==> LossOk(s, c, a.id))
    ensures c in Apply(s, a).onLost && Apply(s, a).onLost[c] == s.onLost[c]
  {
    CapturesKept(s, a);
  }

  lemma {:induction false} LossRemembered(run: seq<State>, steps: seq<Step>, i: nat, j: nat, c: ConnId)
    requires IsRun(run, steps) && run[0] == EmptyState && i <= j < |run| && c in run[i].onLost
    ensures c in run[j].onLost && run[j].onLost[c] == run[i].onLost[c]
  {
    if i < j {
      LossRemembered(run, steps, i, j - 1, c);
      if steps[j - 1].Commit? { RunKeepsLoss(run, steps, j - 1, c, steps[j - 1].id); }
      LossOnlyGrows(run[j - 1], steps[j - 1], c);
    }
  }

  lemma CommitRegisters(s: State, id: ClientId, tools: Tools, c: ConnId)
    requires DialIn(s, id, {Dialing}) && StillOurs(s, id) && DialOf(s, id).transport.Sse? && DialOf(s, id).next == Some(c)
    ensures var t := DoCommit(s, id, tools);
            var e := s.clients[id];
            e in t.entries && c in t.onLost && t.onLost[c] == Late(id, t.entries[e].gen, e)
  {
  }

  /** The same for the connection-lost callback registered by the commit at step i. */
  lemma LossLandsIffUnbumped(run: seq<State>, steps: seq<Step>, i: nat, j: nat, c: ConnId)
    requires IsRun(run, steps) && run[0] == EmptyState && i < j < |run|
    requires steps[i].Commit? && StillOurs(run[i], steps[i].id)
    requires DialOf(run[i], steps[i].id).transport.Sse? && DialOf(run[i], steps[i].id).next == Some(c)
    requires steps[i].id in run[j].clients && run[j].clients[steps[i].id] == run[i].clients[steps[i].id]
    ensures c in run[j].onLost
    ensures Lands(run[j], run[j].onLost[c]) <==> Unbumped(run, steps, i + 1, j, run[i].clients[steps[i].id])
  {
    CommitRegisters(run[i], steps[i].id, steps[i].tools, c);
    assert run[i + 1] == DoCommit(run[i], steps[i].id, steps[i].tools);
    LossRemembered(run, steps, i + 1, j, c);
    SameGenerationIffUnbumped(run, steps, i + 1, j, run[i].clients[steps[i].id]);
  }

  /** The callback reaches the entry it was registered for exactly when the client was not removed and the entry not bumped since. */
  lemma LossReachesItsEntryIff(run: seq<State>, steps: seq<Step>, i: nat, j: nat, c: ConnId)
    requires IsRun(run, steps) && run[0] == EmptyState && i < j < |run|
    requires steps[i].Commit? && StillOurs(run[i], steps[i].id)
    requires DialOf(run[i], steps[i].id).transport.Sse? && DialOf(run[i], steps[i].id).next == Some(c)
    ensures c in run[j].onLost
    ensures var id, e := steps[i].id, run[i].clients[steps[i].id];
            Lands(run[j], run[j].onLost[c]) && Maps(run[j], id, e) <==>
            NotRemoved(steps, i, j, id) && Unbumped(run, steps, i + 1, j, e)
  {
    CommitRegisters(run[i], steps[i].id, steps[i].tools, c);
    assert run[i + 1] == DoCommit(run[i], steps[i].id, steps[i].tools);
    LossRemembered(run, steps, i + 1, j, c);
    MappedIffNotRemoved(run, steps, i, j, steps[i].id);
    if Maps(run[j], steps[i].id, run[i].clients[steps[i].id]) {
      LossLandsIffUnbumped(run, steps, i, j, c);
    }
  }

  /** The callback lands on another entry exactly when the client was removed since and the new entry bumped as often as the old one at its commit. */
  lemma LossReachesAnotherEntryIff(run: seq<State>, steps: seq<Step>, i: nat, j: nat, conn: ConnId) returns (c: nat)
    requires IsRun(run, steps) && run[0] == EmptyState && i < j < |run|
    requires steps[i].Commit? && StillOurs(run[i], steps[i].id)
    requires DialOf(run[i], steps[i].id).transport.Sse? && DialOf(run[i], steps[i].id).next == Some(conn)
    ensures conn in run[j].onLost
    ensures !Known(run[j], steps[i].id) ==> !Lands(run[j], run[j].onLost[conn])
    ensures Known(run[j], steps[i].id) ==>
            var id := steps[i].id;
            && c < j && run[j].clients[id] !in run[c].entries && run[j].clients[id] in run[c + 1].entries
            && (Lands(run[j], run[j].onLost[conn]) && !Maps(run[j], id, run[i].clients[id]) <==>
            && !NotRemoved(steps, i, j, id)
            && BumpCount(run, steps, c + 1, j, run[j].clients[id]) == EntryOf(run[i], id).gen + 1)
  {
    CommitRegisters(run[i], steps[i].id, steps[i].tools, conn);
    assert run[i + 1] == DoCommit(run[i], steps[i].id, steps[i].tools);
    LossRemembered(run, steps, i + 1, j, conn);
    MappedIffNotRemoved(run, steps, i, j, steps[i].id);
    EndGeneration(run[i], steps[i], run[i].clients[steps[i].id]);
    c := 0;
    if Known(run[j], steps[i].id) {
      c := LandsIffBumpedAsOften(run, steps, j, run[j].onLost[conn]);
    }
  }

  // ---- what a late write writes ----

  /** What the connection-lost callback does to the entry it was registered for. */
  lemma LossMarksUnstable(run: seq<State>, steps: seq<Step>, i: nat, j: nat, conn: ConnId)
    requires IsRun(run, steps) && run[0] == EmptyState && i < j < |steps| && steps[j] == ConnectionLost(conn)
    requires steps[i].Commit? && StillOurs(run[i], steps[i].id)
    requires DialOf(run[i], steps[i].id).transport.Sse? && DialOf(run[i], steps[i].id).next == Some(conn)
    ensures var id, e := steps[i].id, run[i].clients[steps[i].id];
            && e in run[j].entries && e in run[j + 1].entries
            && var x := run[j].entries[e];
               run[j + 1].entries[e] ==
               if NotRemoved(steps, i, j, id) && Unbumped(run, steps, i + 1, j, e) && x.state != Disabled && x.state != NeedsReauth
               then x.(state := Unstable) else x
  {
    LossReachesItsEntryIff(run, steps, i, j, conn);
    MappedIffNotRemoved(run, steps, i, j, steps[i].id);
    CommitRegisters(run[i], steps[i].id, steps[i].tools, conn);
    assert run[i + 1] == DoCommit(run[i], steps[i].id, steps[i].tools);
    LossRemembered(run, steps, i + 1, j, conn);
    assert run[j + 1] == Apply(run[j], steps[j]);
    KnownInRun(run, steps, j, steps[i].id);
    UnstableWritten(run[j], conn, run[i].clients[steps[i].id]);
  }

  lemma KnownInRun(run: seq<State>, steps: seq<Step>, j: nat, id: ClientId)
    requires IsRun(run, steps) && run[0] == EmptyState && j < |run|
    ensures id in run[j].clients ==> Known(run[j], id)
  {
    RunKeeps(run, steps, j);
    assert ClientOk(run[j], id);
  }

  lemma UnstableWritten(s: State, c: ConnId, e: EntryId)
    requires c in s.onLost && e in s.entries && (s.onLost[c].id in s.clients ==> Known(s, s.onLost[c].id))
    ensures e in Apply(s, ConnectionLost(c)).entries
    ensures var x, id := s.entries[e], s.onLost[c].id;
            Apply(s, ConnectionLost(c)).entries[e] ==
            if Maps(s, id, e) && x.gen == s.onLost[c].gen && x.state != Disabled && x.state != NeedsReauth
            then x.(state := Unstable) else x
  {
  }

  /** What a check that ends at step j does to the entry it was started for at step i. */
  lemma CheckWrites(run: seq<State>, steps: seq<Step>, i: nat, j: nat, k: CheckId)
    requires IsRun(run, steps) && run[0] == EmptyState && i < j < |steps| && steps[i].StartCheck? && steps[i].k == k
    requires (steps[j].WriteState? || steps[j].WriteTools?) && steps[j].k == k
    ensures var id, e := steps[i].id, run[i].clients[steps[i].id];
            && e in run[j].entries && e in run[j + 1].entries
            && var x, reaches := run[j].entries[e], NotRemoved(steps, i, j, id) && Unbumped(run, steps, i, j, e);
               run[j + 1].entries[e] ==
               if !reaches then x
               else if steps[j].WriteTools? then x.(tools := steps[j].tools)
               else if x.state == Disabled || x.state == NeedsReauth then x
               else x.(state := if steps[j].healthy then Healthy else Unstable)
  {
    CheckReachesItsEntryIff(run, steps, i, j, k);
    MappedIffNotRemoved(run, steps, i, j, steps[i].id);
    CheckRemembered(run, steps, i + 1, j, k);
    assert run[j + 1] == Apply(run[j], steps[j]);
    KnownInRun(run, steps, j, steps[i].id);
    CheckWritten(run[j], steps[j], run[i].clients[steps[i].id]);
  }

  lemma CheckWritten(s: State, a: Step, e: EntryId)
    requires (a.WriteState? || a.WriteTools?) && Enabled(s, a) && e in s.entries && (s.checks[a.k].id in s.clients ==> Known(s, s.checks[a.k].id))
    ensures e in Apply(s, a).entries
    ensures var x, l := s.entries[e], s.checks[a.k];
            Apply(s, a).entries[e] ==
            if !Maps(s, l.id, e) || x.gen != l.gen then x
            else if a.WriteTools? then x.(tools := a.tools)
            else if x.state == Disabled || x.state == NeedsReauth then x
            else x.(state := if a.healthy then Healthy else Unstable)
  {
  }

  // ---- states no late writer touches ----

  /** Late writers change only the state or tools of one entry, and never a disabled or needs-reauth state. */
  lemma LateWritersRespectAuthority(s: State, a: Step, e: EntryId)
    requires Enabled(s, a) && (a.WriteTools? || a.WriteState? || a.ConnectionLost?) && e in s.entries
    ensures e in Apply(s, a).entries
    ensures Apply(s, a).entries[e] == s.entries[e].(state := Apply(s, a).entries[e].state, tools := Apply(s, a).entries[e].tools)
    ensures Authoritative(s.entries[e].state) ==> Apply(s, a).entries[e].state == s.entries[e].state
  {
  }

  /** The steps that are meant to set the state of client `id`. */
  predicate SetsState(a: Step, id: ClientId) {
    && (a.BeginDial? || a.Commit? || a.FailDial? || a.SetClientTools? || a.BootFallback? || a.RegisterWithoutDial?
        || a.RotateCredential? || a.Disable?)
    && a.id == id
  }

  lemma DialKeepsAuthority(s: State, a: Step, e: EntryId)
    requires DialStep(a) && EntryOk(s, a.id) && Enabled(s, a) && e in s.entries && !SetsState(a, s.entries[e].client)
    ensures e in Apply(s, a).entries && Apply(s, a).entries[e].client == s.entries[e].client
    ensures Apply(s, a).entries[e].state == s.entries[e].state
  {
    if a.BeginDial? {
      var t := DoBeginDial(s, a.id, a.e, a.transport, a.disabled);
      assert e in t.entries && t.entries[e] == s.entries[e];
    } else if a.Commit? {
      var t := DoCommit(s, a.id, a.tools);
      assert e in t.entries && t.entries[e] == s.entries[e];
    }
  }

  lemma EntryStepKeepsAuthority(s: State, a: Step, e: EntryId)
    requires EntryStep(a) && EntryOk(s, a.id) && Enabled(s, a) && e in s.entries && !SetsState(a, s.entries[e].client)
    requires Authoritative(s.entries[e].state)
    ensures e in Apply(s, a).entries && Apply(s, a).entries[e].client == s.entries[e].client
    ensures Apply(s, a).entries[e].state == s.entries[e].state
  {
  }

  lemma OtherStepKeepsAuthority(s: State, a: Step, e: EntryId)
    requires !a.WriteTools? && !a.WriteState? && !a.ConnectionLost? ==> EntryOk(s, a.id)
    requires Enabled(s, a) && !DialStep(a) && !EntryStep(a) && e in s.entries && !SetsState(a, s.entries[e].client)
    requires Authoritative(s.entries[e].state)
    ensures e in Apply(s, a).entries && Apply(s, a).entries[e].client == s.entries[e].client
    ensures Apply(s, a).entries[e].state == s.entries[e].state
  {
    if a.WriteTools? || a.WriteState? || a.ConnectionLost? { LateWritersRespectAuthority(s, a, e); }
  }

  lemma StepKeepsAuthority(s: State, a: Step, e: EntryId)
    requires Inv(s) && Enabled(s, a) && e in s.entries && !SetsState(a, s.entries[e].client) && Authoritative(s.entries[e].state)
    ensures e in Apply(s, a).entries && Apply(s, a).entries[e].client == s.entries[e].client
    ensures Apply(s, a).entries[e].state == s.entries[e].state
  {
    if !a.WriteTools? && !a.WriteState? && !a.ConnectionLost? { assert ClientOk(s, a.id); }
    if DialStep(a) {
      DialKeepsAuthority(s, a, e);
    } else if EntryStep(a) {
      EntryStepKeepsAuthority(s, a, e);
    } else {
      OtherStepKeepsAuthority(s, a, e);
    }
  }

  /**
   A disabled or needs-reauth state lasts over any run until a step that is meant to set the
   state of that client; checks, callbacks and other clients never end it, however late.
   */
  lemma {:induction false} AuthorityOutlastsLateWrites(run: seq<State>, steps: seq<Step>, i: nat, j: nat, e: EntryId)
    requires IsRun(run, steps) && Inv(run[0]) && i <= j < |run| && e in run[i].entries && Authoritative(run[i].entries[e].state)
    requires forall m :: i <= m < j ==> !SetsState(steps[m], run[i].entries[e].client)
    ensures e in run[j].entries && run[j].entries[e].state == run[i].entries[e].state
    ensures run[j].entries[e].client == run[i].entries[e].client
  {
    if i < j {
      AuthorityOutlastsLateWrites(run, steps, i, j - 1, e);
      RunKeeps(run, steps, j - 1);
      StepKeepsAuthority(run[j - 1], steps[j - 1], e);
    }
  }

  ghost predicate LeavesDisabled(s: State, a: Step, e: EntryId) {
    && Enabled(s, a) && e in s.entries && s.entries[e].state.Disabled?
    && !(e in Apply(s, a).entries && Apply(s, a).entries[e].state.Disabled?)
  }

  /** An entry leaves the disabled state only by an enabling dial or one of the unguarded writes. */
  lemma DisabledLeftOnlyBy(s: State, a: Step, e: EntryId)
    requires Reachable(s) && LeavesDisabled(s, a, e)
    ensures (a.BeginDial? && !a.disabled) || a.SetClientTools? || a.BootFallback? || a.RegisterWithoutDial?
  {
    ReachableInv(s);
    GenerationCountsBumps(s, a, e);
    if DialStep(a) {
      assert ClientOk(s, a.id);
      DialLeavesDisabled(s, a, e);
    } else if !EntryStep(a) {
      OthersKeepDisabled(s, a, e);
    }
  }

  lemma DialLeavesDisabled(s: State, a: Step, e: EntryId)
    requires DialStep(a) && LeavesDisabled(s, a, e) && EntryOk(s, a.id)
    ensures a.BeginDial? && !a.disabled
  {
    if a.Commit? || a.FailDial? { EndKeepsDisabled(s, a, e); }
  }

  lemma EndKeepsDisabled(s: State, a: Step, e: EntryId)
    requires Enabled(s, a) && e in s.entries && s.entries[e].state.Disabled? && (a.Commit? || a.FailDial?)
    ensures Apply(s, a).entries == s.entries || (e in Apply(s, a).entries && Apply(s, a).entries[e] == s.entries[e])
  {
  }

  lemma OthersKeepDisabled(s: State, a: Step, e: EntryId)
    requires Enabled(s, a) && e in s.entries && s.entries[e].state.Disabled? && !DialStep(a) && !EntryStep(a)
    ensures e in Apply(s, a).entries && Apply(s, a).entries[e].state.Disabled?
  {
  }
}
