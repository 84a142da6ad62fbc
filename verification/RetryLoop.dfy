/**
 The retry loop of one request: attempts, key rotation, the attempt trail, the one-off
 attempt without encrypted content, and backoff.

 The upstream call, the encrypted-content strip, the rate-limit text match and the jitter
 are arbitrary functions of the attempt number.
 */
module RetryLoop {
  import opened Wrappers
  import opened Errors
  import opened KeyPool
  import opened Backoff

  datatype Upstream = Upstream(
    handler: (nat, Key) -> Option<BifrostError>,
    strips: nat -> bool,
    rateLimitText: string -> bool,
    jitter: nat -> real,
    wild: nat -> int)

  datatype RetryConfig = RetryConfig(maxRetries: nat, backoffInitial: int, backoffMax: int)

  /** One call of the request handler: its key, whether selecting it reset the pool, the sleep before it. */
  datatype Call = Call(key: Key, reset: bool, slept: Option<nat>, err: Option<BifrostError>, stripped: bool)

  datatype TrailRecord = TrailRecord(attempt: int, keyId: KeyId, triggeredRotation: bool, failReason: Option<string>)

  datatype Outcome =
    | Success
    | Failed(err: BifrostError)
    | CredentialsExhausted // 502 upstream_credentials_exhausted
    | NoEligibleKeys       // 429 no_eligible_keys
    | SelectionFailed

  const ERR_PROVIDER_DO_REQUEST := "failed to execute HTTP request to provider API"
  const ERR_PROVIDER_NETWORK_ERROR :=
    "network error occurred while connecting to provider API (DNS lookup, connection refused, etc.)"
  const NO_KEY := Key("", "")

  // ---- classification of a failure ----

  predicate HasStatus(e: BifrostError, codes: set<int>) {
    e.status.Some? && e.status.value in codes
  }

  /** Never retried: the gateway's own errors and cancellations. */
  predicate Terminal(e: BifrostError) {
    e.isBifrostError || Cancelled(e)
  }

  /** Bound to the key: 401, 402, 403 (RFC 9110), 429 (RFC 6585) or rate-limit text. */
  predicate PerKey(u: Upstream, e: BifrostError) {
    || HasStatus(e, {401, 402, 403, 429})
    || (e.error.Some? &&
        (|| u.rateLimitText(e.error.value.message)
         || (e.error.value.typ.Some? && u.rateLimitText(e.error.value.typ.value))
         || (e.error.value.code.Some? && u.rateLimitText(e.error.value.code.value))))
  }

  /** The key is bad for good: 401, 402 or 403. */
  predicate Permanent(e: BifrostError) {
    HasStatus(e, {401, 402, 403})
  }

  predicate Retryable(u: Upstream, e: BifrostError) {
    || (e.error.Some? && (e.error.value.message == ERR_PROVIDER_DO_REQUEST || e.error.value.message == ERR_PROVIDER_NETWORK_ERROR))
    || HasStatus(e, {500, 502, 503, 504})
    || PerKey(u, e)
  }

  function FailReason(e: BifrostError): string {
    if HasStatus(e, {429}) then "rate_limit_error"
    else if HasStatus(e, {401, 403}) then "authentication_error"
    else if HasStatus(e, {402}) then "billing_error"
    else if e.error.Some? && e.error.value.typ.Some? && e.error.value.typ.value != "" then e.error.value.typ.value
    else "unknown"
  }

  // ---- what a list of calls says ----

  predicate DiedOn(c: Call) {
    c.err.Some? && Permanent(c.err.value)
  }

  predicate LimitedOn(u: Upstream, c: Call) {
    c.err.Some? && PerKey(u, c.err.value) && !Permanent(c.err.value)
  }

  /** Keys that answered 401, 402 or 403. */
  function DeadIds(calls: seq<Call>): set<KeyId> {
    set i | 0 <= i < |calls| && DiedOn(calls[i]) :: calls[i].key.id
  }

  /** Keys rate-limited by a call with no pool reset after it. */
  function LimitedIds(u: Upstream, calls: seq<Call>): set<KeyId> {
    set i | 0 <= i < |calls| && LimitedOn(u, calls[i]) && NoResetAfter(calls, i) :: calls[i].key.id
  }

  predicate NoResetAfter(calls: seq<Call>, i: nat) {
    forall j :: i < j < |calls| ==> !calls[j].reset
  }

  lemma DeadGrows(calls: seq<Call>, c: Call)
    ensures DeadIds(calls + [c]) == DeadIds(calls) + if DiedOn(c) then {c.key.id} else {}
  {
    var all := calls + [c];
    forall id | id in DeadIds(calls) ensures id in DeadIds(all) {
      var i :| 0 <= i < |calls| && DiedOn(calls[i]) && calls[i].key.id == id;
      assert all[i] == calls[i];
    }
    if DiedOn(c) { assert all[|calls|] == c; }
  }

  lemma LimitedGrows(u: Upstream, calls: seq<Call>, c: Call)
    ensures LimitedIds(u, calls + [c]) ==
            (if c.reset then {} else LimitedIds(u, calls)) + if LimitedOn(u, c) then {c.key.id} else {}
  {
    var all := calls + [c];
    if !c.reset {
      forall id | id in LimitedIds(u, calls) ensures id in LimitedIds(u, all) {
        var i :| 0 <= i < |calls| && LimitedOn(u, calls[i]) && NoResetAfter(calls, i) && calls[i].key.id == id;
        assert all[i] == calls[i] && NoResetAfter(all, i);
      }
    } else {
      assert forall i :: 0 <= i < |calls| ==> !NoResetAfter(all, i) by { assert all[|calls|] == c; }
    }
    forall id | id in LimitedIds(u, all) && !c.reset ensures id in LimitedIds(u, calls) || (LimitedOn(u, c) && id == c.key.id) {
      var i :| 0 <= i < |all| && LimitedOn(u, all[i]) && NoResetAfter(all, i) && all[i].key.id == id;
      if i < |calls| {
        forall j | i < j < |calls| ensures !calls[j].reset { assert all[j] == calls[j]; }
        assert NoResetAfter(calls, i);
      }
    }
    if LimitedOn(u, c) { assert all[|calls|] == c && NoResetAfter(all, |calls|); }
  }

  // ---- what is promised about a list of calls ----

  /** A key that answered 401, 402 or 403 is never used again. */
  ghost predicate NeverReusesDead(calls: seq<Call>) {
    forall i, j :: 0 <= i < j < |calls| && DiedOn(calls[i]) ==> calls[j].key.id != calls[i].key.id
  }

  /** Backoff before every retry, except after a permanent key failure or a strip. */
  ghost predicate SleepsAsPromised(u: Upstream, cfg: RetryConfig, keyed: bool, calls: seq<Call>) {
    forall i :: 0 <= i < |calls| ==>
      && (calls[i].slept.Some? <==> i > 0 && !(keyed && DiedOn(calls[i - 1])) && !calls[i - 1].stripped)
      && (calls[i].slept.Some? ==> calls[i].slept.value == BackoffBefore(u, cfg, i) <= Cap(cfg.backoffMax))
  }

  /** Only a key-bound failure leads to another key. */
  ghost predicate KeepsKeyOtherwise(u: Upstream, calls: seq<Call>) {
    forall i :: 0 < i < |calls| && calls[i - 1].err.Some? && !PerKey(u, calls[i - 1].err.value) ==>
      calls[i].key == calls[i - 1].key && !calls[i].reset
  }

  /** Every call but the last failed in a way that warrants another attempt. */
  ghost predicate Retried(u: Upstream, c: Call) {
    && c.err.Some? && !Terminal(c.err.value)
    && (c.stripped <==> !Retryable(u, c.err.value))
  }

  ghost predicate AllRetried(u: Upstream, calls: seq<Call>) {
    forall i :: 0 <= i < |calls| ==> Retried(u, calls[i])
  }

  /** The calls are the handler's own results, and a strip is one that was possible. */
  ghost predicate Recorded(u: Upstream, calls: seq<Call>) {
    forall i :: 0 <= i < |calls| ==> calls[i].err == u.handler(i, calls[i].key) && (calls[i].stripped ==> u.strips(i))
  }

  /** Under a constant veto a rate-limited key comes back only when every live unvetoed key was rate-limited. */
  ghost predicate RotatesFairly(u: Upstream, pool: seq<Key>, veto: set<KeyId>, calls: seq<Call>) {
    forall j :: 0 <= j < |calls| ==> FairAt(u, pool, veto, calls[..j], calls[j])
  }

  ghost predicate FairAt(u: Upstream, pool: seq<Key>, veto: set<KeyId>, before: seq<Call>, c: Call) {
    && (c.reset ==> forall k :: k in pool && k.id !in DeadIds(before) && k.id !in veto ==> k.id in LimitedIds(u, before))
    && (!c.reset ==> c.key.id !in LimitedIds(u, before))
    && c.key.id !in veto && c.key in pool
  }

  /** One record per call, numbered in order, and marked as rotated exactly when the next call is on another key. */
  ghost predicate TrailMatches(calls: seq<Call>, trail: seq<TrailRecord>) {
    |trail| == |calls| && forall i :: 0 <= i < |calls| ==> RecordMatches(calls, i, trail[i])
  }

  ghost predicate RecordMatches(calls: seq<Call>, i: nat, r: TrailRecord)
    requires i < |calls|
  {
    && r.attempt == i && r.keyId == calls[i].key.id && r.failReason == Reason(calls[i])
    && (r.triggeredRotation <==> i + 1 < |calls| && calls[i + 1].key.id != calls[i].key.id)
  }

  function Strips(calls: seq<Call>): nat {
    if calls == [] then 0
    else Strips(calls[..|calls| - 1]) + if calls[|calls| - 1].stripped then 1 else 0
  }

  function TotalSleep(calls: seq<Call>): nat {
    if calls == [] then 0
    else
      var s := calls[|calls| - 1].slept;
      TotalSleep(calls[..|calls| - 1]) + if s.Some? then s.value else 0
  }

  function SleepCount(calls: seq<Call>): nat {
    if calls == [] then 0
    else SleepCount(calls[..|calls| - 1]) + if calls[|calls| - 1].slept.Some? then 1 else 0
  }

  /** Sleeps that are each at most `cap` add up to at most their number times `cap`. */
  lemma {:induction false} TotalSleepBounded(calls: seq<Call>, cap: nat)
    requires forall i :: 0 <= i < |calls| && calls[i].slept.Some? ==> calls[i].slept.value <= cap
    ensures TotalSleep(calls) <= SleepCount(calls) * cap
  {
    if calls != [] {
      var rest, last := calls[..|calls| - 1], calls[|calls| - 1];
      forall i | 0 <= i < |rest| && rest[i].slept.Some? ensures rest[i].slept.value <= cap {
        assert rest[i] == calls[i];
      }
      TotalSleepBounded(rest, cap);
      var more := if last.slept.Some? then 1 else 0;
      assert (SleepCount(rest) + more) * cap == SleepCount(rest) * cap + more * cap;
    }
  }

  // ---- a run, call by call ----

  function BackoffBefore(u: Upstream, cfg: RetryConfig, attempt: nat): nat
    requires attempt > 0
  {
    SleepTime(CalculateBackoff(cfg.backoffInitial, attempt - 1, cfg.backoffMax, u.jitter(attempt), u.wild(attempt)))
  }

  function SleepBefore(u: Upstream, cfg: RetryConfig, keyed: bool, before: seq<Call>): Option<nat> {
    if before == [] then None
    else
      var last := before[|before| - 1];
      if (keyed && DiedOn(last)) || last.stripped then None else Some(BackoffBefore(u, cfg, |before|))
  }

  /** The next call selects its key: it is the first, or the last one failed for its key. */
  predicate Selecting(u: Upstream, before: seq<Call>) {
    before == [] || (before[|before| - 1].err.Some? && PerKey(u, before[|before| - 1].err.value))
  }

  /** `choice` is the selector's answer after the calls `before`, on what the filter then offers of the pool. */
  ghost predicate ChoiceAfter(u: Upstream, h: Hooks, pool: seq<Key>, before: seq<Call>, choice: Choice) {
    SelectedFrom(h, |before|, pool, LimitedIds(u, before), DeadIds(before), choice)
  }

  /** Every call that selects a key of a rotating pool uses the selector's answer. */
  ghost predicate UsesSelector(u: Upstream, h: Hooks, pool: seq<Key>, calls: seq<Call>) {
    forall i :: 0 <= i < |calls| && Selecting(u, calls[..i]) ==>
      ChoiceAfter(u, h, pool, calls[..i], Picked(calls[i].key, calls[i].reset))
  }

  /** `c` is a call the loop may make after the calls `before`. */
  ghost predicate Legit(u: Upstream, h: Hooks, kp: KeyProvider, cfg: RetryConfig, before: seq<Call>, c: Call) {
    && c.slept == SleepBefore(u, cfg, !kp.Keyless?, before)
    && (!kp.Keyless? ==> c.key in Members(kp) && c.key.id !in DeadIds(before))
    && (before != [] && before[|before| - 1].err.Some? && !PerKey(u, before[|before| - 1].err.value) ==>
          c.key == before[|before| - 1].key && !c.reset)
    && (kp.RotatingPool? && Selecting(u, before) ==> ChoiceAfter(u, h, kp.pool, before, Picked(c.key, c.reset)))
    && (kp.RotatingPool? ==> forall veto :: ConstantVeto(h, veto) ==> FairAt(u, kp.pool, veto, before, c))
  }

  ghost predicate LegitRun(u: Upstream, h: Hooks, kp: KeyProvider, cfg: RetryConfig, calls: seq<Call>) {
    forall j {:trigger Legit(u, h, kp, cfg, calls[..j], calls[j])} :: 0 <= j < |calls| ==> Legit(u, h, kp, cfg, calls[..j], calls[j])
  }

  lemma LegitRunGrows(u: Upstream, h: Hooks, kp: KeyProvider, cfg: RetryConfig, calls: seq<Call>, c: Call)
    requires LegitRun(u, h, kp, cfg, calls) && Legit(u, h, kp, cfg, calls, c)
    ensures LegitRun(u, h, kp, cfg, calls + [c])
  {
    var all := calls + [c];
    forall j | 0 <= j < |all| ensures Legit(u, h, kp, cfg, all[..j], all[j]) {
      if j < |calls| {
        assert all[..j] == calls[..j];
        assert Legit(u, h, kp, cfg, calls[..j], calls[j]);
      } else {
        assert all[..j] == calls;
      }
    }
  }

  /** What a run of legitimate calls promises. */
  lemma LegitRunPromises(u: Upstream, h: Hooks, kp: KeyProvider, cfg: RetryConfig, calls: seq<Call>)
    requires LegitRun(u, h, kp, cfg, calls)
    ensures !kp.Keyless? ==> NeverReusesDead(calls) && (forall i :: 0 <= i < |calls| ==> calls[i].key in Members(kp))
    ensures KeepsKeyOtherwise(u, calls)
    ensures SleepsAsPromised(u, cfg, !kp.Keyless?, calls)
    ensures kp.RotatingPool? ==> UsesSelector(u, h, kp.pool, calls)
    ensures kp.RotatingPool? ==> forall veto :: ConstantVeto(h, veto) ==> RotatesFairly(u, kp.pool, veto, calls)
  {
    forall i | 0 <= i < |calls| && kp.RotatingPool? && Selecting(u, calls[..i])
      ensures ChoiceAfter(u, h, kp.pool, calls[..i], Picked(calls[i].key, calls[i].reset))
    {
      assert Legit(u, h, kp, cfg, calls[..i], calls[i]);
    }
    forall i, j | 0 <= i < j < |calls| && DiedOn(calls[i]) && !kp.Keyless? ensures calls[j].key.id != calls[i].key.id {
      assert Legit(u, h, kp, cfg, calls[..j], calls[j]);
      assert calls[..j][i] == calls[i];
      assert calls[i].key.id in DeadIds(calls[..j]);
    }
    forall i | 0 <= i < |calls|
      ensures !kp.Keyless? ==> calls[i].key in Members(kp)
      ensures calls[i].slept == SleepBefore(u, cfg, !kp.Keyless?, calls[..i])
      ensures i > 0 && calls[i - 1].err.Some? && !PerKey(u, calls[i - 1].err.value) ==> calls[i].key == calls[i - 1].key && !calls[i].reset
      ensures kp.RotatingPool? ==> forall veto :: ConstantVeto(h, veto) ==> FairAt(u, kp.pool, veto, calls[..i], calls[i])
    {
      assert Legit(u, h, kp, cfg, calls[..i], calls[i]);
    }
    SleepsFollow(u, cfg, !kp.Keyless?, calls);
  }

  lemma SleepsFollow(u: Upstream, cfg: RetryConfig, keyed: bool, calls: seq<Call>)
    requires forall i :: 0 <= i < |calls| ==> calls[i].slept == SleepBefore(u, cfg, keyed, calls[..i])
    ensures SleepsAsPromised(u, cfg, keyed, calls)
  {
    forall i | 0 <= i < |calls|
      ensures && (calls[i].slept.Some? <==> i > 0 && !(keyed && DiedOn(calls[i - 1])) && !calls[i - 1].stripped)
              && (calls[i].slept.Some? ==> calls[i].slept.value == BackoffBefore(u, cfg, i) <= Cap(cfg.backoffMax))
    {
      if i > 0 {
        assert calls[..i][i - 1] == calls[i - 1];
        BackoffCapped(cfg.backoffInitial, i - 1, cfg.backoffMax, u.jitter(i), u.wild(i));
      }
    }
  }

  // ---- what the loop variables hold ----

  /** The loop variables agree with the calls made so far. */
  ghost predicate Head(u: Upstream, kp: KeyProvider, calls: seq<Call>, used: set<KeyId>, dead: set<KeyId>, current: Key,
                       lastPerKey: bool, lastPermanent: bool, lastStrip: bool)
  {
    && (!kp.Keyless? ==> dead == DeadIds(calls) && used == LimitedIds(u, calls))
    && (calls != [] ==>
          var last := calls[|calls| - 1];
          && last.err.Some? && current == last.key && lastPerKey == PerKey(u, last.err.value)
          && lastPermanent == (!kp.Keyless? && DiedOn(last)) && lastStrip == last.stripped
          && (!kp.Keyless? && !lastPerKey ==> current in Members(kp) && current.id !in dead)
          && (kp.RotatingPool? && !lastPerKey ==> current.id !in used))
  }

  lemma HeadMoves(u: Upstream, kp: KeyProvider, calls: seq<Call>, used: set<KeyId>, dead: set<KeyId>, c: Call)
    requires !kp.Keyless? ==> dead == DeadIds(calls) && used == (if c.reset then {} else LimitedIds(u, calls))
    requires c.err.Some?
    requires !kp.Keyless? ==> c.key in Members(kp) && c.key.id !in dead && (kp.RotatingPool? ==> c.key.id !in used)
    ensures var e := c.err.value;
            var dead' := if !kp.Keyless? && PerKey(u, e) && Permanent(e) then dead + {c.key.id} else dead;
            var used' := if !kp.Keyless? && PerKey(u, e) && !Permanent(e) then used + {c.key.id} else used;
            Head(u, kp, calls + [c], used', dead', c.key, PerKey(u, e), !kp.Keyless? && PerKey(u, e) && Permanent(e), c.stripped)
  {
    DeadGrows(calls, c);
    LimitedGrows(u, calls, c);
  }

  /** A freshly selected key makes a legitimate call. */
  lemma SelectedIsLegit(u: Upstream, h: Hooks, kp: KeyProvider, cfg: RetryConfig, calls: seq<Call>, choice: Choice, c: Call)
    requires !kp.Keyless? && choice.Picked? && c.key == choice.key && c.reset == choice.reset
    requires calls != [] ==> calls[|calls| - 1].err.Some? && PerKey(u, calls[|calls| - 1].err.value)
    requires choice.key.id !in DeadIds(calls) && choice.key in Members(kp)
    requires kp.RotatingPool? && !choice.reset ==> choice.key.id !in LimitedIds(u, calls)
    requires kp.RotatingPool? ==> ChoiceAfter(u, h, kp.pool, calls, choice)
    requires kp.RotatingPool? ==> forall veto :: ConstantVeto(h, veto) ==>
               PicksFairly(kp.pool, LimitedIds(u, calls), DeadIds(calls), veto, choice)
    requires c.slept == SleepBefore(u, cfg, !kp.Keyless?, calls)
    ensures Legit(u, h, kp, cfg, calls, c)
  {
    assert choice == Picked(c.key, c.reset);
    if kp.RotatingPool? {
      forall veto | ConstantVeto(h, veto) ensures FairAt(u, kp.pool, veto, calls, c) {
        assert PicksFairly(kp.pool, LimitedIds(u, calls), DeadIds(calls), veto, choice);
      }
    }
  }

  /** Retrying on the same key is legitimate after a failure that is not the key's. */
  lemma SameKeyIsLegit(u: Upstream, h: Hooks, kp: KeyProvider, cfg: RetryConfig, calls: seq<Call>, c: Call)
    requires LegitRun(u, h, kp, cfg, calls)
    requires kp.Keyless? || (calls != [] && calls[|calls| - 1].err.Some? && !PerKey(u, calls[|calls| - 1].err.value))
    requires calls != [] ==> c.key == calls[|calls| - 1].key
    requires !kp.Keyless? ==> c.key.id !in DeadIds(calls)
    requires kp.RotatingPool? ==> c.key.id !in LimitedIds(u, calls)
    requires !c.reset && c.slept == SleepBefore(u, cfg, !kp.Keyless?, calls)
    ensures Legit(u, h, kp, cfg, calls, c)
  {
    if calls != [] {
      var n := |calls| - 1;
      assert Legit(u, h, kp, cfg, calls[..n], calls[n]);
    }
  }

  ghost predicate AllButLastRetried(u: Upstream, calls: seq<Call>) {
    forall i :: 0 <= i < |calls| - 1 ==> Retried(u, calls[i])
  }

  // ---- the trail ----

  function Reason(c: Call): Option<string> {
    if c.err.Some? && !Terminal(c.err.value) then Some(FailReason(c.err.value)) else None
  }

  /** Marks the last record as rotated when the next key differs. */
  function MarkRotation(trail: seq<TrailRecord>, id: KeyId): seq<TrailRecord> {
    if trail != [] && trail[|trail| - 1].keyId != id
    then trail[|trail| - 1 := trail[|trail| - 1].(triggeredRotation := true)] else trail
  }

  lemma TrailGrows(calls: seq<Call>, trail: seq<TrailRecord>, c: Call)
    requires TrailMatches(calls, trail)
    ensures TrailMatches(calls + [c], MarkRotation(trail, c.key.id) + [TrailRecord(|calls|, c.key.id, false, Reason(c))])
  {
    var all, longer := calls + [c], MarkRotation(trail, c.key.id) + [TrailRecord(|calls|, c.key.id, false, Reason(c))];
    forall i | 0 <= i < |all| ensures RecordMatches(all, i, longer[i]) {
      if i < |calls| {
        assert RecordMatches(calls, i, trail[i]);
      }
    }
  }

  lemma CallsGrow(u: Upstream, calls: seq<Call>, c: Call)
    ensures Strips(calls + [c]) == Strips(calls) + if c.stripped then 1 else 0
    ensures AllRetried(u, calls) && Retried(u, c) ==> AllRetried(u, calls + [c])
    ensures AllRetried(u, calls) ==> AllButLastRetried(u, calls) && AllButLastRetried(u, calls + [c])
  {
    assert (calls + [c])[..|calls|] == calls;
  }

  // ---- the loop ----

  /** Some key is still live, and a constant veto, if there is one, covers every live key. */
  ghost predicate StuckOnVetoes(h: Hooks, kp: KeyProvider, calls: seq<Call>) {
    && (exists k :: k in Members(kp) && k.id !in DeadIds(calls))
    && (forall veto, k :: ConstantVeto(h, veto) && k in Members(kp) && k.id !in DeadIds(calls) ==> k.id in veto)
  }

  /** The key for this attempt: selected, or kept from the previous attempt. */
  method KeyForAttempt(u: Upstream, h: Hooks, kp: KeyProvider, cfg: RetryConfig, ghost calls: seq<Call>, attempt: nat,
                       used: set<KeyId>, dead: set<KeyId>, current: Key,
                       lastPerKey: bool, lastPermanent: bool, lastStrip: bool)
    returns (choice: Choice, used': set<KeyId>, slept: Option<nat>)
    requires HooksOk(h) && Head(u, kp, calls, used, dead, current, lastPerKey, lastPermanent, lastStrip)
    requires LegitRun(u, h, kp, cfg, calls) && attempt == |calls|
    ensures used' == if !kp.Keyless? && (choice.Picked? || choice.SelectorError?) && choice.reset then {} else used
    ensures choice.Picked? ==> forall c: Call {:trigger Legit(u, h, kp, cfg, calls, c)} ::
              c.key == choice.key && c.reset == choice.reset && c.slept == slept ==> Legit(u, h, kp, cfg, calls, c)
    ensures choice.Picked? && kp.RotatingPool? ==> choice.key.id !in used'
    ensures kp.Keyless? ==> choice.Picked?
    ensures choice.AllKeysDead? ==> forall k :: k in Members(kp) ==> k.id in DeadIds(calls)
    ensures !choice.Picked? ==> StoppedBy(u, h, kp, calls, choice)
    ensures choice.SelectorError? ==> HasChoice(h, kp, calls)
    ensures choice.AllKeysFiltered? ==> StuckOnVetoes(h, kp, calls)
    ensures choice.Picked? && calls != [] && !(!kp.Keyless? && lastPerKey) ==> choice.key == current
  {
    used' := used;
    if !kp.Keyless? && (attempt == 0 || lastPerKey) {
      choice, used' := SelectKey(h, attempt, kp, used, dead);
    } else {
      choice := Picked(if attempt == 0 then NO_KEY else current, false);
    }
    slept := None;
    if choice.Picked? && attempt > 0 {
      var keyChanged := !kp.Keyless? && choice.key.id != current.id;
      if !((lastPermanent && keyChanged) || lastStrip) {
        slept := Some(BackoffBefore(u, cfg, attempt));
      }
      assert lastPermanent ==> current.id in DeadIds(calls);
    }
    if choice.Picked? {
      forall c: Call | c.key == choice.key && c.reset == choice.reset && c.slept == slept ensures Legit(u, h, kp, cfg, calls, c) {
        if !kp.Keyless? && (attempt == 0 || lastPerKey) {
          SelectedIsLegit(u, h, kp, cfg, calls, choice, c);
        } else {
          SameKeyIsLegit(u, h, kp, cfg, calls, c);
        }
      }
    }
    if choice.AllKeysDead? {
      forall k | k in Members(kp) ensures k.id in DeadIds(calls) { assert k !in Without(Members(kp), dead); }
    }
    if choice.SelectorError? {
      assert Without(Members(kp), dead)[0] in Without(Members(kp), dead);
      forall veto | ConstantVeto(h, veto) ensures exists k :: k in Members(kp) && k.id !in DeadIds(calls) && k.id !in veto {
        assert PicksFairly(kp.pool, used, dead, veto, choice);
      }
    }
    if choice.AllKeysFiltered? {
      assert Without(Members(kp), dead)[0] in Without(Members(kp), dead);
    }
  }

  /** Fills the failure reason of the last record, if there is one. */
  function FillReason(trail: seq<TrailRecord>, e: BifrostError): seq<TrailRecord> {
    if trail == [] then trail
    else trail[|trail| - 1 := trail[|trail| - 1].(failReason := Some(FailReason(e)))]
  }

  /** The trail after a call: one more record when keyed; only the last reason may change otherwise. */
  ghost predicate TrailOk(kp: KeyProvider, carried: seq<TrailRecord>, calls: seq<Call>, trail: seq<TrailRecord>) {
    && (!kp.Keyless? && calls != [] ==> TrailMatches(calls, trail))
    && (!kp.Keyless? && calls == [] ==> trail == [])
    && (kp.Keyless? ==>
          && |trail| == |carried|
          && forall i :: 0 <= i < |trail| ==>
               trail[i] == carried[i] || (i == |trail| - 1 && trail[i] == carried[i].(failReason := trail[i].failReason)))
  }

  /** The trail when a call begins: the pending record marked if the key changed, and a new one appended. */
  function Appended(kp: KeyProvider, trail: seq<TrailRecord>, pending: bool, attempt: nat, id: KeyId): seq<TrailRecord> {
    if kp.Keyless? then trail
    else (if pending then MarkRotation(trail, id) else trail) + [TrailRecord(attempt, id, false, None)]
  }

  method BeginRecord(kp: KeyProvider, trail: seq<TrailRecord>, pending: int, attempt: nat, id: KeyId) returns (trail': seq<TrailRecord>)
    requires pending == -1 || (!kp.Keyless? && pending == |trail| - 1)
    ensures trail' == Appended(kp, trail, pending >= 0, attempt, id)
  {
    trail' := trail;
    if pending >= 0 && trail[pending].keyId != id {
      trail' := trail[pending := trail[pending].(triggeredRotation := true)];
    }
    if !kp.Keyless? {
      trail' := trail' + [TrailRecord(attempt, id, false, None)];
    }
  }

  /** Marking the pending record, appending one, and filling in its reason extends the trail by one call. */
  lemma TrailStep(kp: KeyProvider, carried: seq<TrailRecord>, calls: seq<Call>, trail: seq<TrailRecord>, pending: bool, c: Call)
    requires TrailOk(kp, carried, calls, trail)
    requires !kp.Keyless? && calls != [] && !pending ==> c.key.id == calls[|calls| - 1].key.id
    ensures var appended := Appended(kp, trail, pending, |calls|, c.key.id);
            var filled := if Reason(c).Some? then FillReason(appended, c.err.value) else appended;
            TrailOk(kp, carried, calls + [c], filled)
  {
    if !kp.Keyless? {
      var marked := MarkRotation(trail, c.key.id);
      assert Appended(kp, trail, pending, |calls|, c.key.id) == marked + [TrailRecord(|calls|, c.key.id, false, None)];
      FilledLast(marked, TrailRecord(|calls|, c.key.id, false, None), c);
      TrailGrows(calls, trail, c);
    }
  }

  lemma FilledLast(trail: seq<TrailRecord>, r: TrailRecord, c: Call)
    ensures Reason(c).Some? ==> FillReason(trail + [r], c.err.value) == trail + [r.(failReason := Reason(c))]
  {
  }

  /** The choice that leaves the loop without a key. */
  ghost predicate StoppedBy(u: Upstream, h: Hooks, kp: KeyProvider, calls: seq<Call>, choice: Choice) {
    && !choice.Picked? && !kp.Keyless?
    && (kp.RotatingPool? ==> ChoiceAfter(u, h, kp.pool, calls, choice))
    && (kp.FixedKey? ==>
          && !choice.SelectorError? && (choice.AllKeysDead? <==> kp.key.id in DeadIds(calls))
          && (choice.AllKeysFiltered? <==> kp.key.id !in DeadIds(calls) && h.filter(2 * |calls|, [kp.key]) == Keep([])))
  }

  function StopOutcome(choice: Choice): Outcome
    requires !choice.Picked?
  {
    match choice
    case AllKeysFiltered => NoEligibleKeys
    case AllKeysDead => CredentialsExhausted
    case SelectorError(_) => SelectionFailed
  }

  /** How a failed run ends. */
  ghost predicate FailsAs(u: Upstream, cfg: RetryConfig, calls: seq<Call>, err: BifrostError) {
    && calls != [] && calls[|calls| - 1].err == Some(err)
    && (|| Terminal(err)
        || (!Retryable(u, err) && !calls[|calls| - 1].stripped && (u.strips(|calls| - 1) ==> Strips(calls) == 1))
        || |calls| == cfg.maxRetries + 1 + Strips(calls))
  }

  /** How a finished run ends. */
  ghost predicate EndsAs(u: Upstream, h: Hooks, kp: KeyProvider, cfg: RetryConfig, calls: seq<Call>, out: Outcome) {
    && (out.Success? <==> calls != [] && calls[|calls| - 1].err.None?)
    && (out.Failed? ==> FailsAs(u, cfg, calls, out.err))
    && (out.CredentialsExhausted? ==> !kp.Keyless? && forall k :: k in Members(kp) ==> k.id in DeadIds(calls))
    && (out.NoEligibleKeys? ==> !kp.Keyless? && StuckOnVetoes(h, kp, calls))
    && (out.SelectionFailed? ==> !kp.Keyless? && HasChoice(h, kp, calls))
    && (!out.Success? && !out.Failed? ==> exists choice :: StoppedBy(u, h, kp, calls, choice) && out == StopOutcome(choice))
    && (kp.Keyless? ==> out.Success? || out.Failed?)
  }

  /** Some key is still live, and a constant veto, if there is one, leaves some live key. */
  ghost predicate HasChoice(h: Hooks, kp: KeyProvider, calls: seq<Call>) {
    && (exists k :: k in Members(kp) && k.id !in DeadIds(calls))
    && (forall veto :: ConstantVeto(h, veto) ==> exists k :: k in Members(kp) && k.id !in DeadIds(calls) && k.id !in veto)
  }

  /**
   When selection ended the run, a constant veto tells why: every key is dead, or some key is
   live but all live keys are vetoed, or the selector failed although it had a choice.
   */
  lemma WhySelectionStopped(u: Upstream, h: Hooks, kp: KeyProvider, cfg: RetryConfig, calls: seq<Call>, out: Outcome, veto: set<KeyId>)
    requires EndsAs(u, h, kp, cfg, calls, out) && !out.Success? && !out.Failed? && ConstantVeto(h, veto)
    ensures out.CredentialsExhausted? <==> forall k :: k in Members(kp) ==> k.id in DeadIds(calls)
    ensures out.NoEligibleKeys? <==>
              && (exists k :: k in Members(kp) && k.id !in DeadIds(calls))
              && (forall k :: k in Members(kp) && k.id !in DeadIds(calls) ==> k.id in veto)
    ensures out.SelectionFailed? <==> exists k :: k in Members(kp) && k.id !in DeadIds(calls) && k.id !in veto
  {
  }

  /** The loop variables that decide the next attempt's key, sleep and budget. */
  datatype Vars = Vars(used: set<KeyId>, dead: set<KeyId>, current: Key, lastPerKey: bool, lastPermanent: bool,
                       lastStrip: bool, stripped: bool, extra: nat)

  ghost predicate InLoop(u: Upstream, kp: KeyProvider, calls: seq<Call>, v: Vars) {
    && v.extra == Strips(calls) == (if v.stripped then 1 else 0)
    && Head(u, kp, calls, v.used, v.dead, v.current, v.lastPerKey, v.lastPermanent, v.lastStrip)
    && AllRetried(u, calls) && Recorded(u, calls)
  }

  /** The classification of a failed attempt: whether to retry, and the marks on its key. */
  method AfterFailure(u: Upstream, kp: KeyProvider, ghost calls: seq<Call>, ghost c: Call, v: Vars, e: BifrostError, strips: bool)
    returns (v': Vars, again: bool)
    requires v.extra == Strips(calls) == (if v.stripped then 1 else 0)
    requires Recorded(u, calls + [c]) && AllRetried(u, calls) && c.err == Some(e) && !Terminal(e) && c.key == v.current
    requires c.stripped == (!Retryable(u, e) && !v.stripped && strips)
    requires !kp.Keyless? ==> v.dead == DeadIds(calls) && v.used == (if c.reset then {} else LimitedIds(u, calls))
    requires !kp.Keyless? ==> c.key in Members(kp) && c.key.id !in v.dead && (kp.RotatingPool? ==> c.key.id !in v.used)
    ensures v'.extra == Strips(calls + [c]) == if v'.stripped then 1 else 0
    ensures again <==> Retryable(u, e) || c.stripped
    ensures again ==> InLoop(u, kp, calls + [c], v')
    ensures again ==> v'.lastPerKey == PerKey(u, e) && v'.current == v.current
  {
    CallsGrow(u, calls, c);
    v', again := v.(lastStrip := false), Retryable(u, e);
    if !again && !v.stripped && strips {
      v', again := v'.(stripped := true, lastStrip := true, extra := v.extra + 1), true;
    }
    if !again {
      return;
    }
    HeadMoves(u, kp, calls, v.used, v.dead, c);
    var permanent := false;
    if PerKey(u, e) && !kp.Keyless? {
      permanent := Permanent(e);
      if permanent {
        v' := v'.(dead := v.dead + {v.current.id});
      } else {
        v' := v'.(used := v.used + {v.current.id});
      }
    }
    v' := v'.(lastPerKey := PerKey(u, e), lastPermanent := permanent);
  }

  /** One call of the handler with its trail record: mark the pending rotation, append, call, fill in the reason. */
  method MakeCall(u: Upstream, h: Hooks, kp: KeyProvider, cfg: RetryConfig, ghost carried: seq<TrailRecord>,
                  ghost calls: seq<Call>, trail: seq<TrailRecord>, pending: int, attempt: nat, stripped: bool,
                  choice: Choice, slept: Option<nat>)
    returns (call: Call, trail': seq<TrailRecord>)
    requires choice.Picked? && attempt == |calls|
    requires forall c: Call {:trigger Legit(u, h, kp, cfg, calls, c)} ::
               c.key == choice.key && c.reset == choice.reset && c.slept == slept ==> Legit(u, h, kp, cfg, calls, c)
    requires LegitRun(u, h, kp, cfg, calls) && TrailOk(kp, carried, calls, trail)
    requires pending == -1 || (!kp.Keyless? && pending == |trail| - 1)
    requires !kp.Keyless? && calls != [] && pending < 0 ==> choice.key.id == calls[|calls| - 1].key.id
    ensures call.key == choice.key && call.reset == choice.reset && call.err == u.handler(attempt, choice.key)
    ensures call.stripped == (&& call.err.Some? && !Terminal(call.err.value) && !Retryable(u, call.err.value)
                              && !stripped && u.strips(attempt))
    ensures Legit(u, h, kp, cfg, calls, call) && LegitRun(u, h, kp, cfg, calls + [call])
    ensures TrailOk(kp, carried, calls + [call], trail')
  {
    trail' := BeginRecord(kp, trail, pending, attempt, choice.key.id);
    var err := u.handler(attempt, choice.key);
    var failed := err.Some? && !Terminal(err.value);
    if failed {
      trail' := FillReason(trail', err.value);
    }
    call := Call(choice.key, choice.reset, slept, err, failed && !Retryable(u, err.value) && !stripped && u.strips(attempt));
    assert Legit(u, h, kp, cfg, calls, call);
    LegitRunGrows(u, h, kp, cfg, calls, call);
    TrailStep(kp, carried, calls, trail, pending >= 0, call);
  }

  /** One attempt: select the key, then call the handler; `stop` tells why there is no key. */
  method Attempt(u: Upstream, h: Hooks, kp: KeyProvider, cfg: RetryConfig, ghost carried: seq<TrailRecord>,
                 ghost calls: seq<Call>, trail: seq<TrailRecord>, pending: int, attempt: nat, v: Vars)
    returns (stop: Option<Outcome>, call: Call, trail': seq<TrailRecord>, v': Vars)
    requires HooksOk(h) && InLoop(u, kp, calls, v) && attempt == |calls|
    requires LegitRun(u, h, kp, cfg, calls) && TrailOk(kp, carried, calls, trail)
    requires pending == -1 || (!kp.Keyless? && pending == |trail| - 1)
    requires pending == -1 ==> kp.Keyless? || calls == [] || !v.lastPerKey
    ensures stop.Some? ==>
              && (stop.value.CredentialsExhausted? || stop.value.NoEligibleKeys? || stop.value.SelectionFailed?)
              && EndsAs(u, h, kp, cfg, calls, stop.value)
    ensures stop.None? ==>
              && Recorded(u, calls + [call])
              && call.stripped == (&& call.err.Some? && !Terminal(call.err.value) && !Retryable(u, call.err.value)
                                   && !v.stripped && u.strips(attempt))
              && LegitRun(u, h, kp, cfg, calls + [call]) && TrailOk(kp, carried, calls + [call], trail')
              && v' == v.(used := v'.used, current := call.key)
              && (!kp.Keyless? ==>
                    && v'.dead == DeadIds(calls) && v'.used == (if call.reset then {} else LimitedIds(u, calls))
                    && call.key in Members(kp) && call.key.id !in v'.dead && (kp.RotatingPool? ==> call.key.id !in v'.used))
  {
    var choice, used, slept :=
      KeyForAttempt(u, h, kp, cfg, calls, attempt, v.used, v.dead, v.current, v.lastPerKey, v.lastPermanent, v.lastStrip);
    trail', v', call := trail, v, Call(NO_KEY, false, None, None, false);
    if !choice.Picked? {
      stop := Some(match choice
                   case AllKeysFiltered => NoEligibleKeys
                   case AllKeysDead => CredentialsExhausted
                   case SelectorError(_) => SelectionFailed);
      assert stop.value == StopOutcome(choice);
      return;
    }
    stop := None;
    call, trail' := MakeCall(u, h, kp, cfg, carried, calls, trail, pending, attempt, v.stripped, choice, slept);
    RecordedGrows(u, calls, call);
    v' := v.(used := used, current := choice.key);
  }

  lemma RecordedGrows(u: Upstream, calls: seq<Call>, c: Call)
    requires Recorded(u, calls) && c.err == u.handler(|calls|, c.key) && (c.stripped ==> u.strips(|calls|))
    ensures Recorded(u, calls + [c])
  {
  }

  /** What every finished run satisfies, before reading off the promises. */
  ghost predicate RunOk(u: Upstream, h: Hooks, kp: KeyProvider, cfg: RetryConfig, carried: seq<TrailRecord>,
                        calls: seq<Call>, trail: seq<TrailRecord>)
  {
    && LegitRun(u, h, kp, cfg, calls) && TrailOk(kp, carried, calls, trail)
    && Strips(calls) <= 1 && |calls| <= cfg.maxRetries + 1 + Strips(calls)
    && AllButLastRetried(u, calls) && Recorded(u, calls)
  }

  /** What holds before every attempt. */
  ghost predicate OnTrack(u: Upstream, h: Hooks, kp: KeyProvider, cfg: RetryConfig, carried: seq<TrailRecord>,
                          calls: seq<Call>, trail: seq<TrailRecord>, v: Vars, pending: int)
  {
    && InLoop(u, kp, calls, v) && |calls| <= cfg.maxRetries + 1 + v.extra
    && LegitRun(u, h, kp, cfg, calls) && TrailOk(kp, carried, calls, trail)
    && pending == (if !kp.Keyless? && calls != [] && v.lastPerKey && |calls| <= cfg.maxRetries + v.extra then |trail| - 1 else -1)
  }

  /** The run ended with an attempt: its outcome, and the key ID left behind. */
  ghost predicate Ended(u: Upstream, h: Hooks, kp: KeyProvider, cfg: RetryConfig, carried: seq<TrailRecord>,
                        calls: seq<Call>, trail: seq<TrailRecord>, out: Outcome, selected: Option<KeyId>)
  {
    && RunOk(u, h, kp, cfg, carried, calls, trail) && EndsAs(u, h, kp, cfg, calls, out)
    && selected == if out.Success? && !kp.Keyless? then Some(calls[|calls| - 1].key.id) else None
  }

  /** Running out of attempts ends the run with the last error. */
  lemma Exhausted(u: Upstream, h: Hooks, kp: KeyProvider, cfg: RetryConfig, carried: seq<TrailRecord>,
                  calls: seq<Call>, trail: seq<TrailRecord>, v: Vars, pending: int)
    requires OnTrack(u, h, kp, cfg, carried, calls, trail, v, pending) && |calls| > cfg.maxRetries + v.extra
    ensures calls[|calls| - 1].err.Some?
    ensures Ended(u, h, kp, cfg, carried, calls, trail, Failed(calls[|calls| - 1].err.value), None)
  {
  }

  /** Selection gave no key: the run ends with the calls made so far. */
  lemma StoppedBySelection(u: Upstream, h: Hooks, kp: KeyProvider, cfg: RetryConfig, carried: seq<TrailRecord>,
                           calls: seq<Call>, trail: seq<TrailRecord>, v: Vars, pending: int, out: Outcome)
    requires OnTrack(u, h, kp, cfg, carried, calls, trail, v, pending) && EndsAs(u, h, kp, cfg, calls, out) && !out.Success?
    ensures Ended(u, h, kp, cfg, carried, calls, trail, out, None)
  {
    CallsGrow(u, calls, Call(NO_KEY, false, None, None, false));
  }

  /** The call just made ends the run. */
  lemma EndedByCall(u: Upstream, h: Hooks, kp: KeyProvider, cfg: RetryConfig, carried: seq<TrailRecord>,
                    calls: seq<Call>, trail: seq<TrailRecord>, v: Vars, c: Call)
    requires InLoop(u, kp, calls, v) && |calls| <= cfg.maxRetries + v.extra
    requires LegitRun(u, h, kp, cfg, calls + [c]) && TrailOk(kp, carried, calls + [c], trail) && Recorded(u, calls + [c])
    requires c.err.Some? && !Terminal(c.err.value) ==> !Retryable(u, c.err.value) && !c.stripped && (u.strips(|calls|) ==> v.stripped)
    requires c.stripped ==> c.err.Some? && !Terminal(c.err.value)
    ensures var out := if c.err.Some? then Failed(c.err.value) else Success;
            Ended(u, h, kp, cfg, carried, calls + [c], trail, out, if out.Success? && !kp.Keyless? then Some(c.key.id) else None)
  {
    CallsGrow(u, calls, c);
  }

  /** After a call: the run ends with it, or the marks for the next attempt are made. */
  method AfterCall(u: Upstream, h: Hooks, kp: KeyProvider, cfg: RetryConfig, ghost carried: seq<TrailRecord>,
                   calls: seq<Call>, trail: seq<TrailRecord>, ghost was: Vars, call: Call, v: Vars)
    returns (done: bool, out: Outcome, selected: Option<KeyId>, v': Vars, pending: int)
    requires InLoop(u, kp, calls, was) && |calls| <= cfg.maxRetries + was.extra && v == was.(used := v.used, current := call.key)
    requires LegitRun(u, h, kp, cfg, calls + [call]) && TrailOk(kp, carried, calls + [call], trail) && Recorded(u, calls + [call])
    requires call.stripped == (&& call.err.Some? && !Terminal(call.err.value) && !Retryable(u, call.err.value)
                               && !v.stripped && u.strips(|calls|))
    requires !kp.Keyless? ==>
               && v.dead == DeadIds(calls) && v.used == (if call.reset then {} else LimitedIds(u, calls))
               && call.key in Members(kp) && call.key.id !in v.dead && (kp.RotatingPool? ==> call.key.id !in v.used)
    ensures done ==> Ended(u, h, kp, cfg, carried, calls + [call], trail, out, selected)
    ensures !done ==> OnTrack(u, h, kp, cfg, carried, calls + [call], trail, v', pending)
    ensures !done ==> call.err.Some? && out == Failed(call.err.value) && selected.None?
  {
    done, selected, v', pending := true, None, v, -1;
    out := if call.err.Some? then Failed(call.err.value) else Success;
    if out.Success? || Terminal(out.err) {
      EndedByCall(u, h, kp, cfg, carried, calls, trail, was, call);
      selected := if out.Success? && !kp.Keyless? then Some(v.current.id) else None;
      return;
    }
    var again;
    v', again := AfterFailure(u, kp, calls, call, v, out.err, u.strips(|calls|));
    if !again {
      EndedByCall(u, h, kp, cfg, carried, calls, trail, was, call);
      return;
    }
    done := false;
    if v'.lastPerKey && !kp.Keyless? && |calls| < cfg.maxRetries + v'.extra {
      pending := |trail| - 1;
    }
  }

  /** One pass through the loop: the run ends, or the next attempt is due. */
  method Iterate(u: Upstream, h: Hooks, kp: KeyProvider, cfg: RetryConfig, ghost carried: seq<TrailRecord>,
                 calls: seq<Call>, trail: seq<TrailRecord>, v: Vars, pending: int)
    returns (done: bool, out: Outcome, selected: Option<KeyId>, calls': seq<Call>, trail': seq<TrailRecord>, v': Vars, pending': int)
    requires HooksOk(h) && OnTrack(u, h, kp, cfg, carried, calls, trail, v, pending) && |calls| <= cfg.maxRetries + v.extra
    ensures done ==> Ended(u, h, kp, cfg, carried, calls', trail', out, selected)
    ensures !done ==> |calls'| == |calls| + 1 && OnTrack(u, h, kp, cfg, carried, calls', trail', v', pending')
    ensures !done ==> calls'[|calls|].err.Some? && out == Failed(calls'[|calls|].err.value) && selected.None?
  {
    var stop, call;
    stop, call, trail', v' := Attempt(u, h, kp, cfg, carried, calls, trail, pending, |calls|, v);
    done, selected, calls', pending' := true, None, calls, -1;
    if stop.Some? {
      StoppedBySelection(u, h, kp, cfg, carried, calls, trail, v, pending, stop.value);
      out, trail' := stop.value, trail;
      return;
    }
    done, out, selected, v', pending' := AfterCall(u, h, kp, cfg, carried, calls, trail', v, call, v');
    calls' := calls + [call];
  }

  /** The loop. `carried` is the trail already in the request context. */
  method RunAttempts(u: Upstream, h: Hooks, kp: KeyProvider, cfg: RetryConfig, carried: seq<TrailRecord>)
    returns (out: Outcome, calls: seq<Call>, trail: seq<TrailRecord>, selected: Option<KeyId>)
    requires HooksOk(h)
    ensures Ended(u, h, kp, cfg, carried, calls, trail, out, selected)
  {
    calls, selected := [], None;
    trail := if kp.Keyless? then carried else [];
    var v := Vars({}, {}, NO_KEY, false, false, false, false, 0);
    var pending := -1;
    var attempts := 0;
    out := SelectionFailed;
    while attempts <= cfg.maxRetries + v.extra
      invariant attempts == |calls| && OnTrack(u, h, kp, cfg, carried, calls, trail, v, pending) && selected.None?
      invariant attempts > 0 ==> calls[attempts - 1].err.Some? && out == Failed(calls[attempts - 1].err.value)
      decreases cfg.maxRetries + 2 - attempts
    {
      var done;
      done, out, selected, calls, trail, v, pending := Iterate(u, h, kp, cfg, carried, calls, trail, v, pending);
      if done {
        return;
      }
      attempts := attempts + 1;
    }
    Exhausted(u, h, kp, cfg, carried, calls, trail, v, pending);
  }

  /**
   One request with its retries: the calls made, the trail, and the key ID left in the
   request context, which names a key only after a successful keyed response.
   */
  method ExecuteRequestWithRetries(u: Upstream, h: Hooks, kp: KeyProvider, cfg: RetryConfig, carried: seq<TrailRecord>)
    returns (out: Outcome, calls: seq<Call>, trail: seq<TrailRecord>, selected: Option<KeyId>)
    requires HooksOk(h)
    ensures Strips(calls) <= 1 && |calls| <= cfg.maxRetries + 1 + Strips(calls)
    ensures forall i :: 0 <= i < |calls| - 1 ==> Retried(u, calls[i])
    ensures !kp.Keyless? ==> NeverReusesDead(calls) && forall i :: 0 <= i < |calls| ==> calls[i].key in Members(kp)
    ensures Recorded(u, calls) && KeepsKeyOtherwise(u, calls)
    ensures kp.RotatingPool? ==> UsesSelector(u, h, kp.pool, calls)
    ensures kp.RotatingPool? ==> forall veto :: ConstantVeto(h, veto) ==> RotatesFairly(u, kp.pool, veto, calls)
    ensures SleepsAsPromised(u, cfg, !kp.Keyless?, calls)
    ensures TotalSleep(calls) <= SleepCount(calls) * Cap(cfg.backoffMax)
    ensures TrailOk(kp, carried, calls, trail)
    ensures EndsAs(u, h, kp, cfg, calls, out)
    ensures selected == if out.Success? && !kp.Keyless? then Some(calls[|calls| - 1].key.id) else None
  {
    out, calls, trail, selected := RunAttempts(u, h, kp, cfg, carried);
    LegitRunPromises(u, h, kp, cfg, calls);
    TotalSleepBounded(calls, Cap(cfg.backoffMax));
  }

  // ---- the promises in literal terms ----

  /** The statuses that end a key's use, those that warrant another attempt, and the reasons in the trail. */
  lemma PromisesByStatus(u: Upstream, kp: KeyProvider, calls: seq<Call>, carried: seq<TrailRecord>, trail: seq<TrailRecord>, i: nat)
    requires i < |calls| && calls[i].err.Some? && !kp.Keyless?
    requires NeverReusesDead(calls) && KeepsKeyOtherwise(u, calls) && TrailOk(kp, carried, calls, trail)
    requires i < |calls| - 1 ==> Retried(u, calls[i])
    ensures var e := calls[i].err.value;
            && (e.status in {Some(401), Some(402), Some(403)} ==> forall j :: i < j < |calls| ==> calls[j].key.id != calls[i].key.id)
            && (i + 1 < |calls| && calls[i + 1].key.id != calls[i].key.id ==>
                  e.status in {Some(401), Some(402), Some(403), Some(429)} || RateLimited(u, e))
            && (i + 1 < |calls| ==>
                  && !e.isBifrostError && (e.error.Some? ==> e.error.value.typ != Some("request_cancelled"))
                  && (calls[i].stripped <==> !WarrantsRetry(u, e)))
            && |trail| == |calls|
            && (!e.isBifrostError && (e.error.Some? ==> e.error.value.typ != Some("request_cancelled")) ==>
                  trail[i].failReason == Some(
                    if e.status == Some(429) then "rate_limit_error"
                    else if e.status == Some(401) || e.status == Some(403) then "authentication_error"
                    else if e.status == Some(402) then "billing_error"
                    else if e.error.Some? && e.error.value.typ.Some? && e.error.value.typ.value != "" then e.error.value.typ.value
                    else "unknown"))
  {
    assert RecordMatches(calls, i, trail[i]);
  }

  /** The failure's message, type or code reads as a rate limit. */
  predicate RateLimited(u: Upstream, e: BifrostError) {
    e.error.Some? &&
    var f := e.error.value;
    u.rateLimitText(f.message) || (f.typ.Some? && u.rateLimitText(f.typ.value)) || (f.code.Some? && u.rateLimitText(f.code.value))
  }

  predicate WarrantsRetry(u: Upstream, e: BifrostError) {
    || e.status in {Some(401), Some(402), Some(403), Some(429), Some(500), Some(502), Some(503), Some(504)}
    || RateLimited(u, e)
    || (e.error.Some? && e.error.value.message in
          {"failed to execute HTTP request to provider API",
           "network error occurred while connecting to provider API (DNS lookup, connection refused, etc.)"})
  }

  lemma RetryableByStatus(u: Upstream, e: BifrostError)
    ensures Retryable(u, e) <==> WarrantsRetry(u, e)
    ensures Terminal(e) <==> e.isBifrostError || (e.error.Some? && e.error.value.typ == Some("request_cancelled"))
  {
  }

  /**
   A failed run has used up its attempts, or its last error does not warrant another one and
   no strip was left to try.
   */
  lemma GivesUpOnlyWhenDone(u: Upstream, cfg: RetryConfig, calls: seq<Call>, err: BifrostError)
    requires FailsAs(u, cfg, calls, err)
    ensures || |calls| == cfg.maxRetries + 1 + Strips(calls)
            || err.isBifrostError || (err.error.Some? && err.error.value.typ == Some("request_cancelled"))
            || (!WarrantsRetry(u, err) && (u.strips(|calls| - 1) ==> Strips(calls) == 1))
  {
    RetryableByStatus(u, err);
  }

  lemma BackoffNear(u: Upstream, cfg: RetryConfig, i: nat, product: int, ideal: int, jittered: real)
    requires i > 0 && 0 <= cfg.backoffInitial && 0 <= cfg.backoffMax < TWO_63 && 0.8 <= u.jitter(i) < 1.2
    requires product == cfg.backoffInitial * Pow2(i - 1) && product < TWO_63
    requires ideal == (if product <= cfg.backoffMax then product else cfg.backoffMax) && jittered == ideal as real * u.jitter(i)
    ensures 10 * BackoffBefore(u, cfg, i) <= 12 * ideal
    ensures jittered < TWO_63 as real ==> 10 * BackoffBefore(u, cfg, i) + 10 > 8 * ideal
  {
    NearIdeal(cfg.backoffInitial, i - 1, cfg.backoffMax, u.jitter(i), u.wild(i), product, ideal, jittered);
  }

  /**
   The sleep before retry i is within 20 percent of min(initial * 2^(i - 1), max), while that
   product and the jittered delay fit.
   */
  lemma SleepsNearIdeal(u: Upstream, cfg: RetryConfig, keyed: bool, calls: seq<Call>, i: nat, product: int, ideal: int, jittered: real)
    requires SleepsAsPromised(u, cfg, keyed, calls) && 0 < i < |calls| && calls[i].slept.Some?
    requires 0 <= cfg.backoffInitial && 0 <= cfg.backoffMax < TWO_63 && 0.8 <= u.jitter(i) < 1.2
    requires product == cfg.backoffInitial * Pow2(i - 1) && product < TWO_63
    requires ideal == (if product <= cfg.backoffMax then product else cfg.backoffMax) && jittered == ideal as real * u.jitter(i)
    ensures 10 * calls[i].slept.value <= 12 * ideal
    ensures jittered < TWO_63 as real ==> 10 * calls[i].slept.value + 10 > 8 * ideal
  {
    BackoffNear(u, cfg, i, product, ideal, jittered);
  }
}
