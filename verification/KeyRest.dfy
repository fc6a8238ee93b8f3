/** When a key that failed is handed out again, over whole runs and told from the outside:
    by the actions, their times, and whether the load of the key rises. */
module KeyRest {
  import opened Common
  import opened KeyHealth

  ghost predicate Ordered(r: Run) {
    forall i, j :: 0 <= i <= j < |r.times| ==> r.times[i] <= r.times[j]
  }

  /** Step j hands the key out. */
  predicate HandedOut(r: Run, j: nat)
    requires j < |r.acts| < |r.states|
  {
    r.acts[j].Select? && r.states[j + 1].inFlight == r.states[j].inFlight + 1
  }

  /** Only selections and scans, and until that moment siblings' throttles. */
  predicate Quiet(a: Action, now: real, until: real) {
    a.Select? || a.Refresh? || (a.Park? && now < until)
  }

  ghost predicate QuietSince(r: Run, i: nat, j: nat, until: real)
    requires j < |r.acts| <= |r.times|
  {
    forall k :: i < k <= j ==> Quiet(r.acts[k], r.times[k], until)
  }

  /** After step i the key rests until that moment: while nothing else is reported about it,
      a selection hands it out from then on and not before. */
  ghost predicate Rests(r: Run, i: nat, until: real)
    requires |r.acts| == |r.times| < |r.states|
  {
    forall j :: i < j < |r.acts| && QuietSince(r, i, j, until) && r.acts[j].Select? ==>
                  (HandedOut(r, j) <==> r.times[j] >= until)
  }

  // ---- What makes a key rest ---------------------------------------------------------------

  /** The key may serve from that moment on, and has not recovered yet. */
  predicate Parked(p: Policy, k: Key, until: real) {
    || (k.status == Cooling && k.cooldownUntil == Some(until))
    || (k.status == Unhealthy && k.lastErrorAt == Some(until - p.autoRecoverAfter))
  }

  predicate Ready(k: Key) { k.status == Healthy || (k.status == Cooling && k.cooldownUntil.None?) }

  lemma QuietStep(p: Policy, k: Key, a: Action, now: real, until: real)
    requires Quiet(a, now, until)
    requires Parked(p, k, until) || (Ready(k) && (now >= until || k.status == Cooling))
    requires k.status == Cooling && k.cooldownUntil.None? ==> now >= until
    ensures var k' := Step(p, k, a, now);
            && (if now < until then Parked(p, k', until) else Parked(p, k', until) || k'.status == Healthy)
            && (a.Select? ==> k'.inFlight == if now >= until then k.inFlight + 1 else k.inFlight)
  {
  }

  /** Before step j: still parked, or its time has come and it may serve. */
  lemma {:induction false} QuietRun(p: Policy, r: Run, i: nat, j: nat, until: real)
    requires IsRun(p, r) && Ordered(r) && i < j < |r.acts| && QuietSince(r, i, j, until)
    requires Parked(p, r.states[i + 1], until) || (Ready(r.states[i + 1]) && r.times[i] >= until)
    ensures var k := r.states[j];
            Parked(p, k, until) || (Ready(k) && r.times[j] >= until)
    decreases j
  {
    if j > i + 1 {
      QuietRun(p, r, i, j - 1, until);
      assert Quiet(r.acts[j - 1], r.times[j - 1], until);
      assert r.states[j] == Step(p, r.states[j - 1], r.acts[j - 1], r.times[j - 1]);
      QuietStep(p, r.states[j - 1], r.acts[j - 1], r.times[j - 1], until);
    }
  }

  lemma RestFollows(p: Policy, r: Run, i: nat, until: real)
    requires IsRun(p, r) && Ordered(r) && i < |r.acts|
    requires Parked(p, r.states[i + 1], until) || (Ready(r.states[i + 1]) && r.times[i] >= until)
    ensures Rests(r, i, until)
  {
    forall j | i < j < |r.acts| && QuietSince(r, i, j, until) && r.acts[j].Select?
      ensures HandedOut(r, j) <==> r.times[j] >= until {
      QuietRun(p, r, i, j, until);
      QuietStep(p, r.states[j], r.acts[j], r.times[j], until);
      assert r.states[j + 1] == Step(p, r.states[j], r.acts[j], r.times[j]);
    }
  }

  /** A throttled key rests for the duration it was given. */
  lemma ThrottledKeyRests(p: Policy, r: Run, i: nat, d: real)
    requires IsRun(p, r) && Ordered(r) && i < |r.acts| && r.acts[i] == Failure(Throttle(d))
    ensures Rests(r, i, if d > 0.0 then r.times[i] + d else r.times[i])
  {
    assert r.states[i + 1] == Step(p, r.states[i], r.acts[i], r.times[i]);
    RestFollows(p, r, i, if d > 0.0 then r.times[i] + d else r.times[i]);
  }

  /** A rejected key rests until the policy gives it another chance. */
  lemma RejectedKeyRests(p: Policy, r: Run, i: nat)
    requires IsRun(p, r) && Ordered(r) && i < |r.acts| && r.acts[i] == Failure(Fatal)
    ensures Rests(r, i, r.times[i] + p.autoRecoverAfter)
  {
    assert r.states[i + 1] == Step(p, r.states[i], r.acts[i], r.times[i]);
    RestFollows(p, r, i, r.times[i] + p.autoRecoverAfter);
  }

  /** A success or an operator ends every rest. */
  lemma SuccessEndsTheRest(p: Policy, r: Run, i: nat)
    requires IsRun(p, r) && Ordered(r) && i < |r.acts| && (r.acts[i].Success? || r.acts[i].Enable?)
    ensures Rests(r, i, r.times[i])
  {
    assert r.states[i + 1] == Step(p, r.states[i], r.acts[i], r.times[i]);
    RestFollows(p, r, i, r.times[i]);
  }

  /** A disabled key is never handed out, whatever its siblings meet. */
  lemma {:induction false} DisabledKeyStays(p: Policy, r: Run, i: nat, j: nat)
    requires IsRun(p, r) && i < j < |r.acts| && r.acts[i].Disable?
    requires forall k :: i < k <= j ==> r.acts[k].Select? || r.acts[k].Refresh? || r.acts[k].Park?
    ensures r.states[j].status == Disabled && !HandedOut(r, j)
    decreases j
  {
    if j > i + 1 {
      DisabledKeyStays(p, r, i, j - 1);
      assert r.states[j] == Step(p, r.states[j - 1], r.acts[j - 1], r.times[j - 1]);
    } else {
      assert r.states[j] == Step(p, r.states[i], r.acts[i], r.times[i]);
    }
    assert r.states[j + 1] == Step(p, r.states[j], r.acts[j], r.times[j]);
  }

  /** A key that could serve rests with its throttled sibling. */
  lemma ParkedKeyRests(p: Policy, r: Run, i: nat, until: real)
    requires IsRun(p, r) && Ordered(r) && i < |r.acts| && r.acts[i] == Park(until)
    requires i > 0 && HandedOut(r, i - 1)
    ensures Rests(r, i, until)
  {
    var k := r.states[i - 1];
    assert r.states[i] == Step(p, k, r.acts[i - 1], r.times[i - 1]);
    assert r.states[i + 1] == Step(p, r.states[i], r.acts[i], r.times[i]);
    HandedOutIsHealthy(p, k, r.times[i - 1]);
    RestFollows(p, r, i, until);
  }

  lemma HandedOutIsHealthy(p: Policy, k: Key, now: real)
    requires Step(p, k, Select, now).inFlight == k.inFlight + 1
    ensures Step(p, k, Select, now).status == Healthy
  {
  }

  // ---- Failures in a row ----------------------------------------------------------------

  predicate IsFault(a: Action) { a.Failure? && (a.f.ClientFault? || a.f.GatewayFault?) }

  predicate IsTransient(a: Action) { a.Failure? && a.f.Transient? }

  /** How many transient failures there are after step s, up to step i. */
  function Transients(acts: seq<Action>, s: nat, i: nat): nat
    requires i < |acts|
  {
    if i <= s then 0 else Transients(acts, s, i - 1) + if IsTransient(acts[i]) then 1 else 0
  }

  /** Step s wipes the record of failures: a success, an operator, or a rest that is served. */
  predicate Wipes(r: Run, s: nat)
    requires s < |r.acts| < |r.states|
  {
    || r.acts[s].Success? || r.acts[s].Enable?
    || (r.acts[s].Select? && r.states[s].status != Healthy && HandedOut(r, s))
  }

  /** From such a step s up to step i the key has only been selected, looked at, or
      reported with faults and transient failures. */
  ghost predicate StreakSince(r: Run, s: nat, i: nat)
    requires i < |r.acts| < |r.states|
  {
    && s <= i && Wipes(r, s)
    && forall k :: s < k <= i ==>
         r.acts[k].Select? || r.acts[k].Refresh? || IsFault(r.acts[k]) || IsTransient(r.acts[k])
  }

  /** So many failures in a row do not park the key yet. */
  predicate Forgiven(k: Key, n: nat) { n == 0 || n < k.maxFailures }

  lemma {:induction false} StreakCounts(p: Policy, r: Run, s: nat, i: nat)
    requires IsRun(p, r) && i < |r.acts| && StreakSince(r, s, i)
    requires Forgiven(r.states[s], Transients(r.acts, s, i))
    ensures var k := r.states[i + 1];
            k.status == Healthy && k.failures == Transients(r.acts, s, i) && k.maxFailures == r.states[s].maxFailures
    decreases i
  {
    assert r.states[i + 1] == Step(p, r.states[i], r.acts[i], r.times[i]);
    if i > s {
      StreakCounts(p, r, s, i - 1);
      StreakStep(p, r.states[i], r.acts[i], r.times[i]);
    }
  }

  lemma StreakStep(p: Policy, k: Key, a: Action, now: real)
    requires k.status == Healthy && (a.Select? || a.Refresh? || IsFault(a) || IsTransient(a))
    requires IsTransient(a) ==> k.failures + 1 < k.maxFailures
    ensures var k' := Step(p, k, a, now);
            && k'.status == Healthy && k'.maxFailures == k.maxFailures
            && k'.failures == k.failures + if IsTransient(a) then 1 else 0
  {
  }

  /** Transient failures and faults leave the key in use until as many transient ones have
      come in a row, without a success or a served rest between them, as the key allows. */
  lemma FewFailuresAreForgiven(p: Policy, r: Run, s: nat, i: nat)
    requires IsRun(p, r) && Ordered(r) && i < |r.acts| && StreakSince(r, s, i)
    requires Forgiven(r.states[s], Transients(r.acts, s, i))
    ensures Rests(r, i, r.times[i])
  {
    StreakCounts(p, r, s, i);
    RestFollows(p, r, i, r.times[i]);
  }

  /** The last one allowed parks it, for the duration it carries or else the policy's. */
  lemma LastFailureParks(p: Policy, r: Run, s: nat, i: nat, d: real)
    requires IsRun(p, r) && Ordered(r) && s < i < |r.acts| && StreakSince(r, s, i) && r.acts[i] == Failure(Transient(d))
    requires Forgiven(r.states[s], Transients(r.acts, s, i - 1)) && !Forgiven(r.states[s], Transients(r.acts, s, i))
    ensures Rests(r, i, r.times[i] + if d != 0.0 then d else p.serverErrorCooldown)
  {
    StreakCounts(p, r, s, i - 1);
    assert r.states[i + 1] == Step(p, r.states[i], r.acts[i], r.times[i]);
    RestFollows(p, r, i, r.times[i] + if d != 0.0 then d else p.serverErrorCooldown);
  }

  // ---- The ladder and the load -----------------------------------------------------------

  /** In a burst of n 429s, each within the decay time of the one before, the n-th stands on
      rung n; a burst starts at the first 429 or after the decay time. */
  lemma {:induction false} BurstClimbs(p: Policy, r: Run, i: nat, n: nat)
    requires IsRun(p, r) && 0 < n && i + n <= |r.acts|
    requires forall k :: i <= k < i + n ==> r.acts[k].Failure? && r.acts[k].f.Throttle?
    requires forall k :: i < k < i + n ==> r.times[k] - r.times[k - 1] < p.rateLimitDecay
    requires if r.states[i].lastRateLimitAt.Some? then
               r.times[i] - r.states[i].lastRateLimitAt.value >= p.rateLimitDecay
             else r.states[i].rateLimits == 0
    ensures r.states[i + n].rateLimits == n && r.states[i + n].lastRateLimitAt == Some(r.times[i + n - 1])
  {
    assert r.states[i + n] == Step(p, r.states[i + n - 1], r.acts[i + n - 1], r.times[i + n - 1]);
    if n > 1 {
      BurstClimbs(p, r, i, n - 1);
    }
  }

  /** How many steps hand the key out, and how many report the end of a request. */
  function HandOuts(r: Run, n: nat): nat
    requires n <= |r.acts| < |r.states|
  {
    if n == 0 then 0 else HandOuts(r, n - 1) + if HandedOut(r, n - 1) then 1 else 0
  }

  function Reports(acts: seq<Action>, n: nat): nat
    requires n <= |acts|
  {
    if n == 0 then 0 else Reports(acts, n - 1) + if acts[n - 1].Success? || acts[n - 1].Failure? then 1 else 0
  }

  /** The load of a key is what was handed out and has not been reported. */
  lemma {:induction false} LoadIsOutstanding(p: Policy, r: Run, n: nat)
    requires IsRun(p, r) && n <= |r.acts|
    ensures r.states[n].inFlight == r.states[0].inFlight + HandOuts(r, n) - Reports(r.acts, n)
  {
    if n > 0 {
      LoadIsOutstanding(p, r, n - 1);
      assert r.states[n] == Step(p, r.states[n - 1], r.acts[n - 1], r.times[n - 1]);
    }
  }

  /** Only an operator switches a key on or off. */
  lemma OperatorsSwitch(p: Policy, k: Key, a: Action, now: real)
    ensures var k' := Step(p, k, a, now);
            k'.enabled == if a.Enable? then true else if a.Disable? then false else k.enabled
    ensures var k' := Step(p, k, a, now); k'.provider == k.provider && k'.maxFailures == k.maxFailures
  {
  }
}
