/** The health state machine of pooled keys and its rate-limit ladder. */
module KeyHealth {
  import opened Common

  datatype Status = Healthy | Cooling | Unhealthy | Disabled

  /** Cooldown policy: recovery times and, abstractly, how long a 429 parks a key. */
  datatype Policy = Policy(rateLimitDecay: real, autoRecoverAfter: real, serverErrorCooldown: real)

  /** What a reported failure says about the key. `duration` is the cooldown the policy
      resolves for it. */
  datatype Failure =
    | ClientFault
    | GatewayFault
    | Fatal                      // 401 or 403
    | Throttle(duration: real)   // 429
    | Transient(duration: real)  // 5xx, timeout, connection; 0.0: use the policy's

  datatype Key = Key(
    provider: string, status: Status, enabled: bool, maxFailures: int,
    cooldownUntil: Option<real>, lastErrorAt: Option<real>, lastRateLimitAt: Option<real>,
    failures: int, rateLimits: int, inFlight: int)

  // ---- Transitions --------------------------------------------------------------

  function Succeeded(k: Key): Key {
    k.(status := Healthy, cooldownUntil := None, failures := 0, rateLimits := 0)
  }

  function Decayed(p: Policy, k: Key, now: real): int {
    if k.lastRateLimitAt.Some? && now - k.lastRateLimitAt.value >= p.rateLimitDecay then 0 else k.rateLimits
  }

  function Failed(p: Policy, k: Key, f: Failure, now: real): Key {
    var e := k.(lastErrorAt := Some(now));
    match f
    case ClientFault => e
    case GatewayFault => e
    case Fatal => e.(failures := k.failures + 1, status := Unhealthy, cooldownUntil := None)
    case Throttle(d) =>
      e.(rateLimits := Decayed(p, k, now) + 1, lastRateLimitAt := Some(now), failures := k.failures + 1,
         status := Cooling, cooldownUntil := if d > 0.0 then Some(now + d) else None)
    case Transient(d) =>
      var g := e.(failures := k.failures + 1);
      if g.failures >= k.maxFailures then
        g.(status := Cooling, cooldownUntil := Some(now + (if d != 0.0 then d else p.serverErrorCooldown)))
      else g
  }

  /** Lazy recovery, tried before every selection. */
  function Refreshed(p: Policy, k: Key, now: real): Key {
    if k.status == Unhealthy then
      if k.lastErrorAt.Some? && now - k.lastErrorAt.value >= p.autoRecoverAfter
      then k.(status := Healthy, failures := 0) else k
    else if k.status == Cooling && (k.cooldownUntil.None? || k.cooldownUntil.value <= now) then
      k.(status := Healthy, cooldownUntil := None, failures := 0, rateLimits := 0)
    else k
  }

  predicate Usable(k: Key, now: real) {
    k.status == Healthy || (k.status == Cooling && (k.cooldownUntil.None? || k.cooldownUntil.value <= now))
  }

  function Enabled(k: Key): Key {
    k.(status := Healthy, enabled := true, cooldownUntil := None, failures := 0, rateLimits := 0)
  }

  function Parked(k: Key, until: real): Key {
    if k.status == Healthy then k.(status := Cooling, cooldownUntil := Some(until)) else k
  }

  function Landed(k: Key): Key { if k.inFlight > 0 then k.(inFlight := k.inFlight - 1) else k }

  /** The transitions as the tracker and the pool apply them to a credential. */
  class Credential {
    var key: Key

    constructor (key: Key)
      ensures this.key == key
    {
      this.key := key;
    }

    method ReportSuccess()
      modifies this
      ensures key == Succeeded(Landed(old(key)))
    {
      if key.inFlight > 0 {
        key := key.(inFlight := key.inFlight - 1);
      }
      key := key.(failures := 0, rateLimits := 0);
      key := key.(status := Healthy, cooldownUntil := None);
    }

    method ReportFailure(p: Policy, f: Failure, now: real)
      modifies this
      ensures key == Failed(p, Landed(old(key)), f, now)
    {
      if key.inFlight > 0 {
        key := key.(inFlight := key.inFlight - 1);
      }
      key := key.(lastErrorAt := Some(now));
      if f.ClientFault? || f.GatewayFault? {
        return;
      }
      if f.Throttle? && key.lastRateLimitAt.Some? && now - key.lastRateLimitAt.value >= p.rateLimitDecay {
        key := key.(rateLimits := 0);
      }
      key := key.(failures := key.failures + 1);
      if f.Fatal? {
        key := key.(status := Unhealthy, cooldownUntil := None);
      } else if f.Throttle? {
        key := key.(lastRateLimitAt := Some(now), rateLimits := key.rateLimits + 1);
        key := key.(status := Cooling, cooldownUntil := if f.duration > 0.0 then Some(now + f.duration) else None);
      } else if key.failures >= key.maxFailures {
        var d := if f.duration != 0.0 then f.duration else p.serverErrorCooldown;
        key := key.(status := Cooling, cooldownUntil := Some(now + d));
      }
    }

    /** Refresh, then hand the key out if it can serve. */
    method Pick(p: Policy, now: real) returns (ok: bool)
      modifies this
      ensures ok <==> Usable(Refreshed(p, old(key), now), now)
      ensures key == PickedOrNot(p, old(key), now)
    {
      Refresh(p, now);
      ok := Usable(key, now);
      if ok {
        HandOut();
      }
    }

    method HandOut()
      modifies this
      ensures key == old(key).(inFlight := old(key).inFlight + 1)
    {
      key := key.(inFlight := key.inFlight + 1);
    }

    /** Lazy recovery: an unhealthy key after its rest, a cooling one after its cooldown. */
    method Refresh(p: Policy, now: real)
      modifies this
      ensures key == Refreshed(p, old(key), now)
    {
      if key.status == Unhealthy {
        if key.lastErrorAt.Some? && now - key.lastErrorAt.value >= p.autoRecoverAfter {
          key := key.(status := Healthy, failures := 0);
        }
        return;
      }
      if key.status != Cooling || (key.cooldownUntil.Some? && key.cooldownUntil.value > now) {
        return;
      }
      key := key.(status := Healthy, cooldownUntil := None, failures := 0);
      key := key.(rateLimits := 0);
    }
  }

  function PickedOrNot(p: Policy, k: Key, now: real): Key {
    var r := Refreshed(p, k, now);
    if Usable(r, now) then r.(inFlight := r.inFlight + 1) else r
  }

  // ---- Runs of one key ---------------------------------------------------------------

  datatype Action =
    | Select              // the key is refreshed and, if usable, handed out
    | Refresh             // a candidate scan that hands out another key
    | Success
    | Failure(f: Failure)
    | Park(until: real)   // a sibling was throttled
    | Enable
    | Disable

  /** Whether the action can happen: only an outstanding request is reported. */
  predicate Possible(k: Key, a: Action) {
    a.Success? || a.Failure? ==> k.inFlight > 0
  }

  function Step(p: Policy, k: Key, a: Action, now: real): Key {
    match a
    case Select => PickedOrNot(p, k, now)
    case Refresh => Refreshed(p, k, now)
    case Success => Succeeded(Landed(k))
    case Failure(f) => Failed(p, Landed(k), f, now)
    case Park(until) => Parked(k, until)
    case Enable => Enabled(k)
    case Disable => k.(status := Disabled, enabled := false)
  }

  /** States, the actions between them and their times. */
  datatype Run = Run(states: seq<Key>, acts: seq<Action>, times: seq<real>)

  /** A run starts somewhere and steps as the key does. */
  ghost predicate IsRun(p: Policy, r: Run) {
    && |r.states| == |r.acts| + 1 && |r.times| == |r.acts|
    && forall i :: 0 <= i < |r.acts| ==>
         Possible(r.states[i], r.acts[i]) && r.states[i + 1] == Step(p, r.states[i], r.acts[i], r.times[i])
  }

  function Last(r: Run): Key
    requires r.states != []
  {
    r.states[|r.states| - 1]
  }

  /** The run up to its n-th step. */
  function Prefix(r: Run, n: nat): Run
    requires n <= |r.acts| < |r.states| && n <= |r.times|
  {
    Run(r.states[..n + 1], r.acts[..n], r.times[..n])
  }

  function Extended(p: Policy, r: Run, a: Action, now: real): Run
    requires r.states != []
  {
    Run(r.states + [Step(p, Last(r), a, now)], r.acts + [a], r.times + [now])
  }

  /** The most requests the key ever had outstanding. */
  function Peak(ks: seq<Key>): int
    requires ks != []
  {
    var k := ks[|ks| - 1].inFlight;
    if |ks| == 1 then k else var m := Peak(ks[..|ks| - 1]); if k > m then k else m
  }

  /** More rungs and requests than the key ever had requests outstanding. */
  predicate PastPeak(r: Run)
    requires r.states != []
  {
    Last(r).rateLimits + Last(r).inFlight > Peak(r.states)
  }

  /** A healthy key starts at the bottom of the ladder, and every rung climbed is a
      request that is no longer outstanding. */
  ghost predicate Ladder(k: Key, peak: int) {
    && k.inFlight >= 0 && k.rateLimits >= 0
    && (k.status == Healthy ==> k.rateLimits == 0)
    && k.rateLimits + k.inFlight <= peak
  }

  /** The step lets an unhealthy key recover although it had climbed the ladder: the branch
      that forgets the failures and keeps the rung. */
  predicate RevivesAbove(p: Policy, k: Key, a: Action, now: real) {
    k.status == Unhealthy && k.rateLimits > 0 && (a.Select? || a.Refresh?)
    && k.lastErrorAt.Some? && now - k.lastErrorAt.value >= p.autoRecoverAfter
  }

  lemma StepKeepsLadder(p: Policy, k: Key, a: Action, now: real, peak: int)
    requires Ladder(k, peak) && Possible(k, a) && !RevivesAbove(p, k, a, now)
    ensures var k' := Step(p, k, a, now);
            Ladder(k', if k'.inFlight > peak then k'.inFlight else peak)
  {
  }

  /** A key as it is registered. */
  predicate Registered(k: Key) { k.status == Healthy && k.rateLimits == 0 && k.inFlight == 0 }

  /** Step i of the run revives the key above the bottom. */
  predicate Revival(p: Policy, r: Run, i: nat)
    requires i < |r.acts| < |r.states| && i < |r.times|
  {
    RevivesAbove(p, r.states[i], r.acts[i], r.times[i])
  }

  /** In every run that revives no key above the bottom, the rung of a key plus what it has
      in flight never exceeds the most requests it ever had outstanding: 401s included. */
  lemma {:induction false} LadderIsBoundedByLoad(p: Policy, r: Run)
    requires IsRun(p, r) && Registered(r.states[0])
    requires forall i :: 0 <= i < |r.acts| ==> !Revival(p, r, i)
    ensures Ladder(Last(r), Peak(r.states)) && !PastPeak(r)
    decreases |r.acts|
  {
    var n := |r.acts|;
    if n > 0 {
      var front := Prefix(r, n - 1);
      assert forall i :: 0 <= i < n - 1 ==> Revival(p, front, i) == Revival(p, r, i);
      LadderIsBoundedByLoad(p, front);
      assert !Revival(p, r, n - 1);
      StepKeepsLadder(p, r.states[n - 1], r.acts[n - 1], r.times[n - 1], Peak(front.states));
    }
  }

  lemma PeakCovers(ks: seq<Key>)
    requires ks != []
    ensures ks[|ks| - 1].inFlight <= Peak(ks)
  {
  }

  lemma ExtendedIsRun(p: Policy, r: Run, a: Action, now: real)
    requires IsRun(p, r) && Possible(Last(r), a)
    ensures var k := Step(p, Last(r), a, now);
            && IsRun(p, Extended(p, r, a, now))
            && Last(Extended(p, r, a, now)) == k
            && Peak(Extended(p, r, a, now).states) == if k.inFlight > Peak(r.states) then k.inFlight else Peak(r.states)
  {
    var k := Step(p, Last(r), a, now);
    assert (r.states + [k])[..|r.states|] == r.states;
  }

  /** The run `more` goes on where r ended, only handing the key out, and by these
      hand-outs it revives nothing above the bottom. */
  ghost predicate HandsOut(p: Policy, r: Run, more: Run) {
    && IsRun(p, r) && IsRun(p, more) && |r.acts| <= |more.acts| && Prefix(more, |r.acts|) == r
    && forall i :: |r.acts| <= i < |more.acts| ==> more.acts[i] == Select && !Revival(p, more, i)
  }

  lemma HandsOutMore(p: Policy, r: Run, now: real, more: Run)
    requires IsRun(p, r) && HandsOut(p, Extended(p, r, Select, now), more) && Last(r).status != Unhealthy
    ensures HandsOut(p, r, more)
  {
    var n, next := |r.acts|, Extended(p, r, Select, now);
    assert next.states == more.states[..n + 2] && next.acts == more.acts[..n + 1] && next.times == more.times[..n + 1];
    assert r.states == next.states[..n + 1] == more.states[..n + 1];
    assert r.acts == next.acts[..n] == more.acts[..n];
    assert r.times == next.times[..n] == more.times[..n];
    assert more.acts[n] == next.acts[n] == Select && more.states[n] == next.states[n] == Last(r);
  }

  /** From a healthy key above the bottom, handing it out until its load is back at the
      peak takes rung plus load past the peak. */
  lemma {:induction false} AboveBottomPassesThePeak(p: Policy, r: Run, now: real) returns (more: Run)
    requires IsRun(p, r) && Last(r).status == Healthy && Last(r).rateLimits > 0
    ensures HandsOut(p, r, more) && PastPeak(more)
    decreases Peak(r.states) - Last(r).inFlight
  {
    PeakCovers(r.states);
    if Last(r).inFlight == Peak(r.states) {
      more := r;
    } else {
      ExtendedIsRun(p, r, Select, now);
      more := AboveBottomPassesThePeak(p, Extended(p, r, Select, now), now);
      HandsOutMore(p, r, now, more);
    }
  }

  /** Handing the key out after the first n steps takes it past the bound. */
  ghost predicate BreaksAfter(p: Policy, r: Run, n: nat)
    requires IsRun(p, r) && n <= |r.acts|
  {
    exists more: Run :: HandsOut(p, Prefix(r, n), more) && PastPeak(more)
  }

  /** The guard is exact: mere hand-outs can take a run past the bound if and only if one
      of its steps revived the key above the bottom. */
  lemma BoundIsExact(p: Policy, r: Run)
    requires IsRun(p, r) && Registered(r.states[0])
    ensures (exists n :: 0 <= n <= |r.acts| && BreaksAfter(p, r, n))
       <==> (exists i :: 0 <= i < |r.acts| && Revival(p, r, i))
  {
    if i :| 0 <= i < |r.acts| && Revival(p, r, i) {
      assert r.states[i + 1] == Step(p, r.states[i], r.acts[i], r.times[i]);
      var more := AboveBottomPassesThePeak(p, Prefix(r, i + 1), r.times[i]);
      assert BreaksAfter(p, r, i + 1);
    } else {
      forall n, more: Run | 0 <= n <= |r.acts| && HandsOut(p, Prefix(r, n), more) ensures !PastPeak(more) {
        NothingBreaks(p, r, n, more);
      }
    }
  }

  lemma NothingBreaks(p: Policy, r: Run, n: nat, more: Run)
    requires IsRun(p, r) && Registered(r.states[0]) && n <= |r.acts| && HandsOut(p, Prefix(r, n), more)
    requires forall i :: 0 <= i < |r.acts| ==> !Revival(p, r, i)
    ensures !PastPeak(more)
  {
    var start := Prefix(more, n);
    assert start == Prefix(r, n);
    assert start.states[0] == r.states[0];
    forall i | 0 <= i < |more.acts| ensures !Revival(p, more, i) {
      if i < n {
        assert Revival(p, more, i) == Revival(p, start, i) == Revival(p, r, i);
      }
    }
    LadderIsBoundedByLoad(p, more);
  }

  /** One more step of a run, in terms of where it ends. */
  lemma OneMore(p: Policy, r: Run, a: Action, now: real) returns (r': Run)
    requires IsRun(p, r) && Possible(Last(r), a)
    ensures IsRun(p, r') && r'.states[0] == r.states[0] && r'.acts == r.acts + [a] && r'.times == r.times + [now]
    ensures var k := Step(p, Last(r), a, now);
            Last(r') == k && Peak(r'.states) == if k.inFlight > Peak(r.states) then k.inFlight else Peak(r.states)
  {
    ExtendedIsRun(p, r, a, now);
    r' := Extended(p, r, a, now);
  }

  const NEW_KEY := Key("p", Healthy, true, 3, None, None, None, 0, 0, 0)

  lemma ThrottledAndRejected(p: Policy) returns (r: Run)
    ensures IsRun(p, r) && r.states[0] == NEW_KEY && Peak(r.states) == 2
    ensures r.acts == [Select, Select, Failure(Throttle(60.0)), Failure(Fatal)] && r.times == [0.0, 0.0, 1.0, 2.0]
    ensures Last(r) == NEW_KEY.(status := Unhealthy, lastErrorAt := Some(2.0),
                                 lastRateLimitAt := Some(1.0), failures := 2, rateLimits := 1)
  {
    r := Run([NEW_KEY], [], []);
    r := OneMore(p, r, Select, 0.0);
    r := OneMore(p, r, Select, 0.0);
    assert Last(r) == NEW_KEY.(inFlight := 2);
    r := OneMore(p, r, Failure(Throttle(60.0)), 1.0);
    r := OneMore(p, r, Failure(Fatal), 2.0);
  }

  /** A run that passes the bound: two requests out, a 429 and a 401 come back, the key
      recovers on its old rung and is handed out twice more. */
  lemma FatalErrorKeepsTheRung(p: Policy) returns (r: Run)
    requires p.autoRecoverAfter == 300.0
    ensures IsRun(p, r) && Registered(r.states[0]) && Peak(r.states) == 2 && PastPeak(r)
    ensures r.acts == [Select, Select, Failure(Throttle(60.0)), Failure(Fatal), Select, Select]
    ensures r.times == [0.0, 0.0, 1.0, 2.0, 400.0, 400.0]
  {
    r := ThrottledAndRejected(p);
    r := OneMore(p, r, Select, 400.0);
    r := OneMore(p, r, Select, 400.0);
  }

  // ---- Sequential use --------------------------------------------------------------------

  /** With one request at a time a key is on the first rung only while it rests. */
  ghost predicate Sequential(k: Key) {
    && 0 <= k.inFlight <= 1 && 0 <= k.rateLimits <= 1
    && (k.rateLimits > 0 ==> k.inFlight == 0 && k.status != Healthy && k.status != Unhealthy)
  }

  /** Used one request at a time, a key never climbs past the first rung, whatever errors
      it meets. */
  lemma {:induction false} SequentialUseStaysLow(p: Policy, r: Run)
    requires IsRun(p, r) && Registered(r.states[0])
    requires forall i :: 0 <= i < |r.states| ==> r.states[i].inFlight <= 1
    ensures Sequential(Last(r))
    decreases |r.acts|
  {
    var n := |r.acts|;
    if n > 0 {
      SequentialUseStaysLow(p, Prefix(r, n - 1));
      assert r.states[n] == Step(p, r.states[n - 1], r.acts[n - 1], r.times[n - 1]);
      StepStaysLow(p, r.states[n - 1], r.acts[n - 1], r.times[n - 1]);
    }
  }

  lemma StepStaysLow(p: Policy, k: Key, a: Action, now: real)
    requires Sequential(k) && Possible(k, a) && Step(p, k, a, now).inFlight <= 1
    ensures Sequential(Step(p, k, a, now))
  {
  }

  /** Exactly when a step can leave a key healthy above the bottom rung: when it revives
      an unhealthy key that had climbed. */
  lemma HealthyAboveBottom(p: Policy, k: Key, a: Action, now: real)
    requires Possible(k, a) && k.rateLimits >= 0
    requires !(k.status == Healthy && k.rateLimits > 0)
    ensures var k' := Step(p, k, a, now);
            k'.status == Healthy && k'.rateLimits > 0 <==> RevivesAbove(p, k, a, now)
  {
  }
}
