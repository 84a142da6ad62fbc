/**
 Session stickiness: concurrent primary requests of one session agree on a key through a
 key-value store with an atomic set-if-absent.

 The store works without errors, expiry or deletion from outside, and all requests see the
 same pool of eligible keys, which has at least two. The selector may return any pool key, or fail.
 */
module SessionStickiness {
  import opened Wrappers
  import opened KeyPool

  type ReqId = nat

  /** Where a request stands between its store operations. */
  datatype Phase =
    | Reading                 // about to read the stored key ID
    | Refreshing(key: Key)    // found it, about to write it back with a new lifetime
    | Deleting                // found an ID outside the pool, about to delete it
    | Selecting               // found none, about to select
    | Setting(selected: Key)  // about to set-if-absent
    | Rereading(selected: Key) // lost the race, about to read again
    | DeletingLate(selected: Key) // the second read found an ID outside the pool
    | Done(key: Key)
    | Failed                  // the selector returned an error

  /** `first` records the key ID of the first successful set-if-absent. */
  datatype State = State(stored: Option<KeyId>, requests: map<ReqId, Phase>, first: Option<KeyId>)

  const EmptyState := State(None, map[], None)

  datatype Step = Start(r: ReqId) | Advance(r: ReqId, choice: Key) | SelectorFails(r: ReqId)

  /** The lookup of a stored ID: the first pool key with that ID, unless the ID is empty. */
  datatype Lookup = Found(key: Key) | Missing | Stale

  function FirstWith(pool: seq<Key>, id: KeyId): (r: Option<Key>)
    ensures r.Some? ==> r.value in pool && r.value.id == id
    ensures r.None? ==> forall k :: k in pool ==> k.id != id
  {
    if pool == [] then None else if pool[0].id == id then Some(pool[0]) else FirstWith(pool[1..], id)
  }

  function CachedKey(pool: seq<Key>, stored: Option<KeyId>): Lookup {
    if stored.None? || stored.value == "" then Missing
    else
      var k := FirstWith(pool, stored.value);
      if k.Some? then Found(k.value) else Stale
  }

  predicate Enabled(pool: seq<Key>, s: State, a: Step) {
    match a
    case Start(r) => r !in s.requests
    case Advance(r, choice) => r in s.requests && !s.requests[r].Done? && !s.requests[r].Failed? && choice in pool
    case SelectorFails(r) => r in s.requests && s.requests[r].Selecting?
  }

  function Move(s: State, r: ReqId, p: Phase): State {
    s.(requests := s.requests[r := p])
  }

  /** One store operation, or the selection; `choice` is what the selector returns if it is asked. */
  function Apply(pool: seq<Key>, s: State, a: Step): State
    requires Enabled(pool, s, a)
  {
    match a
    case Start(r) => Move(s, r, Reading)
    case SelectorFails(r) => Move(s, r, Failed)
    case Advance(r, choice) =>
      match s.requests[r]
      case Reading =>
        (match CachedKey(pool, s.stored)
         case Found(key) => Move(s, r, Refreshing(key))
         case Stale => Move(s, r, Deleting)
         case Missing => Move(s, r, Selecting))
      case Refreshing(key) => Move(s, r, Done(key)).(stored := Some(key.id))
      case Deleting => Move(s, r, Selecting).(stored := None)
      case Selecting => Move(s, r, Setting(choice))
      case Setting(selected) =>
        if s.stored.None? then
          Move(s, r, Done(selected)).(stored := Some(selected.id), first := if s.first.None? then Some(selected.id) else s.first)
        else Move(s, r, Rereading(selected))
      case Rereading(selected) =>
        (match CachedKey(pool, s.stored)
         case Found(key) => Move(s, r, Done(key))
         case Stale => Move(s, r, DeletingLate(selected))
         case Missing => Move(s, r, Done(selected)))
      case DeletingLate(selected) => Move(s, r, Done(selected)).(stored := None)
      case Done(_) => s
      case Failed => s
  }

  ghost predicate IsRun(pool: seq<Key>, run: seq<State>, steps: seq<Step>) {
    && |run| == |steps| + 1 && run[0] == EmptyState
    && forall i {:trigger steps[i]} :: 0 <= i < |steps| ==> Enabled(pool, run[i], steps[i]) && run[i + 1] == Apply(pool, run[i], steps[i])
  }

  ghost predicate Reachable(pool: seq<Key>, s: State) {
    exists run: seq<State>, steps: seq<Step> :: IsRun(pool, run, steps) && run[|run| - 1] == s
  }

  /** Every pool key has a nonempty ID. */
  predicate NamedKeys(pool: seq<Key>) {
    forall k :: k in pool ==> k.id != ""
  }

  // ---- agreement ----

  ghost predicate PhaseOk(pool: seq<Key>, s: State, r: ReqId) {
    r in s.requests ==>
      match s.requests[r]
      case Refreshing(key) => key in pool && s.first == Some(key.id)
      case Deleting => false
      case DeletingLate(_) => false
      case Setting(selected) => selected in pool
      case Rereading(selected) => selected in pool && s.first.Some?
      case Done(key) => key in pool && s.first == Some(key.id)
      case Reading => true
      case Selecting => true
      case Failed => true
  }

  ghost predicate Inv(pool: seq<Key>, s: State) {
    && s.stored == s.first
    && (s.first.Some? ==> exists k :: k in pool && k.id == s.first.value)
    && (forall r {:trigger PhaseOk(pool, s, r)} :: PhaseOk(pool, s, r))
  }

  lemma StepKeeps(pool: seq<Key>, s: State, a: Step)
    requires NamedKeys(pool) && Inv(pool, s) && Enabled(pool, s, a)
    ensures Inv(pool, Apply(pool, s, a))
    ensures s.first.Some? ==> Apply(pool, s, a).first == s.first
  {
    var t := Apply(pool, s, a);
    assert PhaseOk(pool, s, a.r);
    forall r ensures PhaseOk(pool, t, r) {
      assert PhaseOk(pool, s, r);
    }
  }

  lemma {:induction false} RunKeeps(pool: seq<Key>, run: seq<State>, steps: seq<Step>, i: nat)
    requires NamedKeys(pool) && IsRun(pool, run, steps) && i < |run|
    ensures Inv(pool, run[i])
  {
    if i > 0 {
      RunKeeps(pool, run, steps, i - 1);
      StepKeeps(pool, run[i - 1], steps[i - 1]);
    }
  }

  /** Once a set-if-absent has succeeded, its key ID is the session's for the rest of the run. */
  lemma {:induction false} FirstStays(pool: seq<Key>, run: seq<State>, steps: seq<Step>, i: nat, j: nat)
    requires NamedKeys(pool) && IsRun(pool, run, steps) && i <= j < |run| && run[i].first.Some?
    ensures run[j].first == run[i].first && run[j].stored == run[i].first
  {
    if i < j {
      FirstStays(pool, run, steps, i, j - 1);
      RunKeeps(pool, run, steps, j - 1);
      StepKeeps(pool, run[j - 1], steps[j - 1]);
    }
    RunKeeps(pool, run, steps, j);
  }

  /** Every finished request of the session got the key ID of the first successful set-if-absent. */
  lemma AllRequestsAgree(pool: seq<Key>, s: State, r: ReqId)
    requires NamedKeys(pool) && Reachable(pool, s) && r in s.requests && s.requests[r].Done?
    ensures s.requests[r].key in pool && s.first == Some(s.requests[r].key.id)
  {
    var run: seq<State>, steps: seq<Step> :| IsRun(pool, run, steps) && run[|run| - 1] == s;
    RunKeeps(pool, run, steps, |run| - 1);
    assert PhaseOk(pool, s, r);
  }

  // ---- one request ----

  /** A request that reads a stored ID of the pool finishes with the first key that has it, whatever the selector would say. */
  lemma ReaderKeepsStored(pool: seq<Key>, s: State, r: ReqId, k: Key, any: Key, other: Key) returns (key: Key)
    requires r in s.requests && s.requests[r].Reading? && s.stored == Some(k.id) && k.id != "" && k in pool
    requires any in pool && other in pool
    ensures Enabled(pool, s, Advance(r, any)) && Enabled(pool, Apply(pool, s, Advance(r, any)), Advance(r, other))
    ensures key in pool && key.id == k.id
    ensures Apply(pool, Apply(pool, s, Advance(r, any)), Advance(r, other)) == s.(requests := s.requests[r := Done(key)])
  {
    key := FirstWith(pool, k.id).value;
    assert s.requests[r := Refreshing(key)][r := Done(key)] == s.requests[r := Done(key)];
  }

  /** A request that finds nothing stored, and nobody in between, stores the selector's choice and keeps it. */
  lemma FirstRequestSets(pool: seq<Key>, s: State, r: ReqId, k: Key)
    requires r in s.requests && s.requests[r].Reading? && s.stored.None? && k in pool
    ensures var s1 := Apply(pool, s, Advance(r, k));
            Enabled(pool, s1, Advance(r, k)) &&
            var s2 := Apply(pool, s1, Advance(r, k));
            Enabled(pool, s2, Advance(r, k)) &&
            var s3 := Apply(pool, s2, Advance(r, k));
            r in s3.requests && s3.requests[r] == Done(k) && s3.stored == Some(k.id)
  {
  }

  // ---- without the assumption on IDs ----

  ghost predicate Disagree(s: State, a: ReqId, b: ReqId) {
    && a in s.requests && b in s.requests && s.requests[a].Done? && s.requests[b].Done?
    && s.requests[a].key.id != s.requests[b].key.id
  }

  lemma ReachableStep(pool: seq<Key>, s: State, a: Step, t: State)
    requires Reachable(pool, s) && Enabled(pool, s, a) && t == Apply(pool, s, a)
    ensures Reachable(pool, t)
  {
    var run: seq<State>, steps: seq<Step> :| IsRun(pool, run, steps) && run[|run| - 1] == s;
    var more := run + [t];
    assert IsRun(pool, more, steps + [a]) && more[|more| - 1] == t;
  }

  /** A request that finds nothing stored, or an empty ID, comes to hold the selector's choice. */
  lemma ReachSetting(pool: seq<Key>, s: State, r: ReqId, k: Key) returns (t: State)
    requires Reachable(pool, s) && r !in s.requests && k in pool && CachedKey(pool, s.stored).Missing?
    ensures Reachable(pool, t) && t == Move(s, r, Setting(k))
  {
    var s1, s2 := Move(s, r, Reading), Move(s, r, Selecting);
    ReachableStep(pool, s, Start(r), s1);
    assert s1.requests[r := Selecting] == s.requests[r := Selecting];
    ReachableStep(pool, s1, Advance(r, k), s2);
    t := Move(s, r, Setting(k));
    assert s2.requests[r := Setting(k)] == s.requests[r := Setting(k)];
    ReachableStep(pool, s2, Advance(r, k), t);
  }

  /** With an empty ID in the pool the winner's entry reads as missing, and a later request keeps its own choice. */
  lemma EmptyIdBreaksAgreement(pool: seq<Key>, winner: Key, other: Key) returns (s: State)
    requires winner in pool && other in pool && winner.id == "" && other.id != ""
    ensures Reachable(pool, s) && Disagree(s, 0, 1)
  {
    assert IsRun(pool, [EmptyState], []);
    var s1 := ReachSetting(pool, EmptyState, 0, winner);
    var s2 := State(Some(""), map[0 := Done(winner)], Some(""));
    assert s1.requests[0 := Done(winner)] == map[0 := Done(winner)];
    ReachableStep(pool, s1, Advance(0, winner), s2);
    var s3 := ReachSetting(pool, s2, 1, other);
    var s4 := Move(s2, 1, Rereading(other));
    assert s3.requests[1 := Rereading(other)] == s2.requests[1 := Rereading(other)];
    ReachableStep(pool, s3, Advance(1, other), s4);
    s := Move(s2, 1, Done(other));
    assert s4.requests[1 := Done(other)] == s2.requests[1 := Done(other)];
    ReachableStep(pool, s4, Advance(1, other), s);
  }

  /** For a pool with at least two key IDs: requests can never disagree exactly when no ID is empty. */
  lemma AgreementIff(pool: seq<Key>)
    requires exists j, k :: j in pool && k in pool && j.id != k.id
    ensures NamedKeys(pool) <==> forall s, a, b :: Reachable(pool, s) ==> !Disagree(s, a, b)
  {
    if NamedKeys(pool) {
      forall s, a, b | Reachable(pool, s) ensures !Disagree(s, a, b) {
        if Disagree(s, a, b) {
          AllRequestsAgree(pool, s, a);
          AllRequestsAgree(pool, s, b);
        }
      }
    } else {
      var winner :| winner in pool && winner.id == "";
      var other :| other in pool && other.id != "";
      var s := EmptyIdBreaksAgreement(pool, winner, other);
    }
  }
}
