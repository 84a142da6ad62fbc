/**
 The fallback chain of a request: the primary provider, then each configured fallback in
 order, until one succeeds or an error stops the chain.

 What an attempt returns is an arbitrary function of its number: 0 is the primary and i + 1
 is fallback i.
 */
module FallbackChain {
  import opened Wrappers
  import opened Errors

  datatype Attempt = Served(response: string) | Refused(err: BifrostError)

  datatype World = World(tryRequest: nat -> Attempt, hasConfig: nat -> bool)

  /** A failing fallback without an error field is dereferenced and panics. */
  datatype Outcome = Response(response: string) | Failure(err: BifrostError) | Panic

  /** A cancellation, or an error that disallows fallbacks. */
  predicate StopsChain(e: BifrostError) {
    Cancelled(e) || e.allowFallbacks == Some(false)
  }

  predicate Panics(w: World, a: nat) {
    a > 0 && w.tryRequest(a).Refused? && w.tryRequest(a).err.error.None?
  }

  /** The chain goes on after attempt `a`. */
  predicate PassesOn(w: World, a: nat) {
    w.tryRequest(a).Refused? && !StopsChain(w.tryRequest(a).err) && !Panics(w, a)
  }

  /** The primary and the first `n` fallbacks, without those whose provider has no configuration. */
  function Candidates(w: World, n: nat): (r: seq<nat>)
    ensures |r| > 0 && r[0] == 0 && forall k :: 0 <= k < |r| ==> r[k] <= n
  {
    if n == 0 then [0]
    else Candidates(w, n - 1) + if w.hasConfig(n - 1) then [n] else []
  }

  ghost predicate AllPassOn(w: World, attempts: seq<nat>) {
    forall k :: 0 <= k < |attempts| ==> PassesOn(w, attempts[k])
  }

  function ResultOf(w: World, a: nat): Outcome {
    match w.tryRequest(a)
    case Served(response) => Response(response)
    case Refused(err) => if Panics(w, a) then Panic else Failure(err)
  }

  /**
   The attempts are a prefix of the candidates, all but the last pass on; the outcome is the
   last one's, or the primary's error when every candidate passed on.
   */
  ghost predicate Handled(w: World, n: nat, out: Outcome, attempts: seq<nat>) {
    && 0 < |attempts| && attempts <= Candidates(w, n) && AllPassOn(w, attempts[..|attempts| - 1])
    && var last := attempts[|attempts| - 1];
       if PassesOn(w, last) then attempts == Candidates(w, n) && out == Failure(w.tryRequest(0).err) else out == ResultOf(w, last)
  }

  /** Tries the primary, then the fallbacks; `attempts` are the attempts made. */
  method HandleRequest(w: World, n: nat) returns (out: Outcome, attempts: seq<nat>)
    ensures Handled(w, n, out, attempts)
  {
    attempts := [0];
    Extends(w, 0, n);
    var primary := w.tryRequest(0);
    if primary.Served? {
      return Response(primary.response), attempts;
    }
    if Cancelled(primary.err) || primary.err.allowFallbacks == Some(false) || n == 0 {
      return Failure(primary.err), attempts;
    }
    for i := 0 to n
      invariant attempts == Candidates(w, i) && AllPassOn(w, attempts)
    {
      if !w.hasConfig(i) {
        continue;
      }
      Extends(w, i + 1, n);
      ghost var before := attempts;
      attempts := attempts + [i + 1];
      assert attempts == Candidates(w, i + 1) && attempts[..|attempts| - 1] == before;
      var result := w.tryRequest(i + 1);
      if result.Served? {
        return Response(result.response), attempts;
      }
      if result.err.error.None? {
        return Panic, attempts;
      }
      if result.err.error.value.typ == Some(REQUEST_CANCELLED) || result.err.allowFallbacks == Some(false) {
        return Failure(result.err), attempts;
      }
    }
    out := Failure(primary.err);
    assert PassesOn(w, attempts[|attempts| - 1]);
  }

  lemma {:induction false} Extends(w: World, m: nat, n: nat)
    requires m <= n
    ensures Candidates(w, m) <= Candidates(w, n)
  {
    if m < n {
      Extends(w, m, n - 1);
    }
  }

  // ---- what this refines ----

  /** Candidate `k` is the first success: it serves, and every candidate before it passes on. */
  ghost predicate FirstSuccess(w: World, n: nat, k: nat) {
    && k < |Candidates(w, n)| && w.tryRequest(Candidates(w, n)[k]).Served?
    && AllPassOn(w, Candidates(w, n)[..k])
  }

  /** Two handled runs of the same world agree: the promise determines the outcome and the attempts. */
  lemma HandledIsUnique(w: World, n: nat, out: Outcome, attempts: seq<nat>, out': Outcome, attempts': seq<nat>)
    requires Handled(w, n, out, attempts) && Handled(w, n, out', attempts')
    ensures out == out' && attempts == attempts'
  {
    OneLength(w, n, out, attempts, out', attempts');
    OneLength(w, n, out', attempts', out, attempts);
  }

  lemma OneLength(w: World, n: nat, out: Outcome, attempts: seq<nat>, out': Outcome, attempts': seq<nat>)
    requires Handled(w, n, out, attempts) && Handled(w, n, out', attempts')
    ensures |attempts| >= |attempts'|
  {
    var last := attempts[|attempts| - 1];
    if PassesOn(w, last) {
      assert attempts == Candidates(w, n);
    } else {
      assert forall k :: 0 <= k < |attempts'| - 1 ==> PassesOn(w, attempts'[k]) by {
        assert forall k :: 0 <= k < |attempts'| - 1 ==> attempts'[..|attempts'| - 1][k] == attempts'[k];
      }
    }
  }

  /** The error ends a chain: a cancellation, or fallbacks disallowed. */
  lemma StoppersEnd(w: World, n: nat, out: Outcome, attempts: seq<nat>, k: nat)
    requires Handled(w, n, out, attempts) && k < |attempts| && w.tryRequest(attempts[k]).Refused?
    ensures var e := w.tryRequest(attempts[k]).err;
            e.allowFallbacks == Some(false) || (e.error.Some? && e.error.value.typ == Some("request_cancelled")) ==>
              k == |attempts| - 1 && (e.error.Some? || k == 0 ==> out == Failure(e))
  {
    if k < |attempts| - 1 {
      assert attempts[..|attempts| - 1][k] == attempts[k];
    } else if k == 0 {
      assert attempts[0] == Candidates(w, n)[0];
    }
  }

  /** Any other refusal goes on to the next candidate, if there is one. */
  lemma OthersPassOn(w: World, n: nat, out: Outcome, attempts: seq<nat>, k: nat)
    requires Handled(w, n, out, attempts) && k < |attempts| && w.tryRequest(attempts[k]).Refused?
    requires var e := w.tryRequest(attempts[k]).err;
             e.allowFallbacks != Some(false) && (if e.error.Some? then e.error.value.typ != Some("request_cancelled") else k == 0)
    ensures k + 1 < |Candidates(w, n)| ==> k + 1 < |attempts| && attempts[k + 1] == Candidates(w, n)[k + 1]
  {
    if k == 0 { assert attempts[0] == Candidates(w, n)[0]; }
  }

  /** A response comes back exactly when some candidate is the first success, and it is that candidate's. */
  lemma RespondsIffFirstSuccess(w: World, n: nat, out: Outcome, attempts: seq<nat>)
    requires Handled(w, n, out, attempts)
    ensures out.Response? <==> exists k: nat :: FirstSuccess(w, n, k)
    ensures forall k: nat :: FirstSuccess(w, n, k) ==> out == Response(w.tryRequest(Candidates(w, n)[k]).response)
  {
    var c := Candidates(w, n);
    if out.Response? {
      assert c[..|attempts| - 1] == attempts[..|attempts| - 1];
      assert FirstSuccess(w, n, |attempts| - 1);
    }
    forall k: nat | FirstSuccess(w, n, k) ensures out == Response(w.tryRequest(c[k]).response) {
      FirstSuccessHandled(w, n, k);
      HandledIsUnique(w, n, out, attempts, Response(w.tryRequest(c[k]).response), c[..k + 1]);
    }
  }

  lemma FirstSuccessHandled(w: World, n: nat, k: nat)
    requires FirstSuccess(w, n, k)
    ensures Handled(w, n, Response(w.tryRequest(Candidates(w, n)[k]).response), Candidates(w, n)[..k + 1])
  {
    var c := Candidates(w, n);
    assert c[..k + 1][..k] == c[..k];
    assert c[..k + 1] <= c;
  }

  /**
   Without a response and without a panic the error is the primary's, unless a fallback
   stopped the chain, and then it is that fallback's.
   */
  lemma FailureIsPrimarysOrStoppers(w: World, n: nat, out: Outcome, attempts: seq<nat>)
    requires Handled(w, n, out, attempts) && out.Failure?
    ensures var last := attempts[|attempts| - 1];
            && w.tryRequest(last).Refused?
            && (out.err == if StopsChain(w.tryRequest(last).err) then w.tryRequest(last).err else w.tryRequest(0).err)
            && (attempts == Candidates(w, n) || StopsChain(w.tryRequest(last).err))
  {
    var last := attempts[|attempts| - 1];
    if |attempts| == 1 { assert last == 0; }
  }

  /** The call panics exactly when the last attempt is a fallback that fails without an error field. */
  lemma PanicsIff(w: World, n: nat, out: Outcome, attempts: seq<nat>)
    requires Handled(w, n, out, attempts)
    ensures out.Panic? <==> exists k :: 0 < k < |Candidates(w, n)| && Panics(w, Candidates(w, n)[k]) && AllPassOn(w, Candidates(w, n)[..k])
  {
    var c := Candidates(w, n);
    if out.Panic? {
      assert c[..|attempts| - 1] == attempts[..|attempts| - 1];
      assert Panics(w, c[|attempts| - 1]) && |attempts| > 1;
    }
    forall k | 0 < k < |c| && Panics(w, c[k]) && AllPassOn(w, c[..k]) ensures out.Panic? {
      assert c[..k + 1][..k] == c[..k] && c[..k + 1] <= c;
      HandledIsUnique(w, n, out, attempts, Panic, c[..k + 1]);
    }
  }

  /** Every attempt fails with an error that has no error field, as a plugin's short-circuit may return it. */
  const Fieldless := World(a => Refused(BifrostError(false, None, None, None)), i => true)

  /** With one configured fallback, such a request panics. */
  lemma FieldlessPanics(out: Outcome, attempts: seq<nat>)
    requires Handled(Fieldless, 1, out, attempts)
    ensures out.Panic? && attempts == [0, 1]
  {
    assert Candidates(Fieldless, 0) == [0] && Candidates(Fieldless, 1) == [0] + [1];
    assert Handled(Fieldless, 1, Panic, [0, 1]);
    HandledIsUnique(Fieldless, 1, out, attempts, Panic, [0, 1]);
  }
}
