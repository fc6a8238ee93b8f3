/** What failures, successes and quiet times do to the accounts and keys of the burner, told
    by what came back, by when a key may be used again, and by how many requests an account
    may have out. */
module Penalties {
  import opened AccountBudget
  import opened Accounts

  /** Nothing keeps this key from being used at that moment or later. */
  predicate Fit(k: Key, now: real) {
    k.cooldownUntil <= now && k.parkedUntil.At? && k.parkedUntil.t <= now && k.attempts >= 0
  }

  /** From then on the key may be used, and not before (unless each key is used only once). */
  ghost predicate UsableFrom(cfg: Config, k: Key, now: real, t: real) {
    forall u :: now <= u ==> (KeyUsable(cfg, k, u) <==> u >= t && !(cfg.once && k.attempts > 0))
  }

  /** The account takes part in no choice before that moment. */
  ghost predicate ClosedUntil(cfg: Config, a: Account, t: real) {
    forall u :: u < t ==> !Eligible(cfg, a, u)
  }

  /** An account with a usable key and room for one more request that nothing has parked. */
  ghost predicate Free(cfg: Config, a: Account, now: real) {
    && a.parkedUntil.At? && a.parkedUntil.t <= now && a.rateParkUntil <= now
    && a.inflight < cfg.perAccountMax && a.inflight as real < a.target
    && exists i :: 0 <= i < |a.keys| && Fit(a.keys[i], now) && a.keys[i].attempts == 0
  }

  /** Such an account takes part in the choice. */
  lemma FreeIsEligible(cfg: Config, a: Account, now: real)
    requires Free(cfg, a, now)
    ensures Eligible(cfg, a, now)
  {
    var i :| 0 <= i < |a.keys| && Fit(a.keys[i], now) && a.keys[i].attempts == 0;
    assert KeyUsable(cfg, a.keys[i], now);
  }

  /** A full account does not. */
  lemma FullIsNotEligible(cfg: Config, a: Account, now: real)
    requires a.inflight as real >= a.target || a.inflight >= cfg.perAccountMax
             || (forall i :: 0 <= i < |a.keys| ==> a.keys[i].parkedUntil == Never)
    ensures !Eligible(cfg, a, now)
  {
  }

  /** One request less is out, on the key and on the account, with its reserved cost. */
  predicate GaveBack(cfg: Config, a: Account, b: Account, k: nat)
    requires k < |a.keys| == |b.keys|
  {
    && b.inflight == a.inflight - 1 && b.inflightCost == a.inflightCost - cfg.estCost
    && b.keys[k].inflight == a.keys[k].inflight - 1
    && (forall i :: 0 <= i < |a.keys| && i != k ==> b.keys[i] == a.keys[i])
    && b.events == a.events && b.creditsTotal == a.creditsTotal && b.keys[k].attempts == a.keys[k].attempts
  }

  // ---- What came back -------------------------------------------------------------------

  predicate QuotaExhausted(c: Cause) {
    c.Status? && c.quotaBody && (c.code == 402 || c.code == 403 || c.code == 429)
  }

  predicate RateLimit(c: Cause) {
    c.Status? && !QuotaExhausted(c) && (c.code == 429 || c.frequencyBody)
  }

  predicate Rejection(c: Cause) {
    c.Status? && !QuotaExhausted(c) && !RateLimit(c) && (c.code == 401 || c.code == 403)
  }

  /** An exhausted quota closes the account, and leaves its keys as fit as they were. */
  lemma ExhaustedAccountRests(cfg: Config, a: Account, k: nat, now: real, cause: Cause)
    requires k < |a.keys| && QuotaExhausted(cause)
    ensures var b := Failed(cfg, a, k, now, Classify(cause));
            && |b.keys| == |a.keys| && GaveBack(cfg, a, b, k) && ClosedUntil(cfg, b, now + cfg.quotaParkSeconds)
            && b.target == a.target && b.rateStreak == a.rateStreak
            && (Fit(a.keys[k], now) ==> UsableFrom(cfg, b.keys[k], now, now))
  {
  }

  /** A rejected key is never used again; the account goes on. */
  lemma RejectedKeyIsGone(cfg: Config, a: Account, k: nat, now: real, cause: Cause)
    requires k < |a.keys| && Rejection(cause)
    ensures var b := Failed(cfg, a, k, now, Classify(cause));
            && |b.keys| == |a.keys| && GaveBack(cfg, a, b, k) && (forall u :: !KeyUsable(cfg, b.keys[k], u))
            && b.parkedUntil == a.parkedUntil && b.rateParkUntil == a.rateParkUntil && b.target == a.target
  {
  }

  /** Any other status rests the key for 20 seconds, an exception for 15; the account goes on. */
  lemma FailedKeyRestsBriefly(cfg: Config, a: Account, k: nat, now: real, cause: Cause)
    requires k < |a.keys| && !QuotaExhausted(cause) && !RateLimit(cause) && !Rejection(cause) && Fit(a.keys[k], now)
    ensures var b := Failed(cfg, a, k, now, Classify(cause));
            && |b.keys| == |a.keys| && GaveBack(cfg, a, b, k)
            && UsableFrom(cfg, b.keys[k], now, if cause.Raised? then now + 15.0 else now + 20.0)
            && b.parkedUntil == a.parkedUntil && b.rateParkUntil == a.rateParkUntil && b.target == a.target
  {
  }

  // ---- Rate limits ----------------------------------------------------------------------

  function TimesTwo(x: real, n: nat): real
    decreases n
  {
    if n == 0 then x else TimesTwo(x + x, n - 1)
  }

  lemma {:induction false} TimesTwoIsPow2(x: real, n: nat)
    ensures TimesTwo(x, n) == x * Pow2(n)
    decreases n
  {
    if n > 0 {
      TimesTwoIsPow2(x + x, n - 1);
    }
  }

  /** A rate limit halves what the account may have out, down to one. */
  predicate HalvedTo(before: real, after: real) {
    after == if before >= 2.0 then before / 2.0 else 1.0
  }

  /** How long a key rests after a rate limit: while the account can still give way, twice as
      long for each one in a row up to the maximum; at one request out, the base. */
  function Rest(cfg: Config, target: real, before: nat): real {
    if target <= 2.0 then cfg.cooldownBase
    else if TimesTwo(cfg.cooldownBase, before) <= cfg.cooldownMax then TimesTwo(cfg.cooldownBase, before)
    else cfg.cooldownMax
  }

  /** The key rests, the account gives way, and after enough rate limits in a row it rests. */
  lemma RateLimitedKeyRests(cfg: Config, a: Account, k: nat, now: real, cause: Cause)
    requires k < |a.keys| && RateLimit(cause) && a.keys[k].streak >= 0 && Fit(a.keys[k], now)
    requires cfg.cooldownBase >= 0.0 && cfg.cooldownMax >= 0.0
    ensures var b := Failed(cfg, a, k, now, Classify(cause));
            && |b.keys| == |a.keys| && GaveBack(cfg, a, b, k) && HalvedTo(a.target, b.target)
            && UsableFrom(cfg, b.keys[k], now, now + Rest(cfg, a.target, a.keys[k].streak))
            && b.keys[k].streak == (if b.target <= 1.0 && a.keys[k].streak >= 2 then 2 else a.keys[k].streak + 1)
            && b.rateStreak == a.rateStreak + 1
            && (b.rateStreak >= cfg.rateParkAfter ==> ClosedUntil(cfg, b, now + cfg.rateParkSeconds))
            && (b.rateStreak < cfg.rateParkAfter ==> b.rateParkUntil == a.rateParkUntil)
            && b.parkedUntil == a.parkedUntil && b.starveBoost == 0 && b.last429 == now && b.lastLimit == cause.kind
  {
    TimesTwoIsPow2(cfg.cooldownBase, a.keys[k].streak);
  }

  /** A success forgets all that: the next rate limit is the first again. */
  lemma SuccessStartsAfresh(cfg: Config, a: Account, k: nat, now: real, credits: real)
    requires k < |a.keys|
    ensures var b := Completed(cfg, a, k, now, credits);
            && |b.keys| == |a.keys| && b.keys[k].streak == 0 && b.rateStreak == 0 && b.starveBoost == 0
            && b.lastOk == now && b.creditsTotal == a.creditsTotal + credits && b.target == a.target
            && b.inflight == a.inflight - 1 && b.inflightCost == a.inflightCost - cfg.estCost
            && b.keys[k] == a.keys[k].(streak := 0, inflight := a.keys[k].inflight - 1)
            && b.parkedUntil == a.parkedUntil && b.rateParkUntil == a.rateParkUntil
  {
  }

  // ---- Quiet times ----------------------------------------------------------------------

  /** No success for a while, nothing lent in vain, and not a limit of frequency. */
  predicate IsStarving(cfg: Config, a: Account, now: real) {
    && now >= cfg.started + cfg.starveGrace
    && (a.lastOk == 0.0 || a.lastOk < now - cfg.starveAfter)
    && a.starveBoost <= 1
    && (a.lastLimit == Unknown || a.lastLimit == Throughput)
  }

  predicate IsQuiet(a: Account, now: real) { a.last429 < now - 60.0 }

  function Room(cfg: Config, a: Account): real { cfg.perAccountMax as real - a.target }

  /** One more request may be out, as far as the maximum allows. */
  predicate OneMore(room: real, before: real, after: real) {
    after == if room <= 0.0 then before else if room < 1.0 then before + room else before + 1.0
  }

  /** A rebalance lets an account that is not parked have one more request out after a quiet
      minute, and one more when it starves; it changes nothing else but the count of the
      latter. A parked account is left alone. */
  lemma RebalanceGrows(cfg: Config, a: Account, now: real)
    ensures var b := Rebalanced(cfg, a, now);
            if a.parkedUntil == Never || (a.parkedUntil.At? && a.parkedUntil.t > now) then b == a
            else
              && b == a.(target := b.target, starveBoost := b.starveBoost)
              && (IsQuiet(a, now) && !IsStarving(cfg, a, now) ==>
                    OneMore(Room(cfg, a), a.target, b.target) && b.starveBoost == a.starveBoost)
              && (!IsQuiet(a, now) && IsStarving(cfg, a, now) ==>
                    && OneMore(Room(cfg, a), a.target, b.target)
                    && b.starveBoost == a.starveBoost + if Room(cfg, a) > 0.0 then 1 else 0)
              && (IsQuiet(a, now) && IsStarving(cfg, a, now) ==>
                    && b.target == (if Room(cfg, a) <= 0.0 then a.target
                                    else if Room(cfg, a) < 2.0 then cfg.perAccountMax as real else a.target + 2.0)
                    && b.starveBoost == a.starveBoost + if Room(cfg, a) > 1.0 then 1 else 0)
              && (!IsQuiet(a, now) && !IsStarving(cfg, a, now) ==> b == a)
  {
  }

  function RebalancedAll(cfg: Config, a: Account, times: seq<real>): Account {
    if times == [] then a else Rebalanced(cfg, RebalancedAll(cfg, a, times[..|times| - 1]), times[|times| - 1])
  }

  /** However long an account starves, at most two more requests are lent to it until
      something comes back; and it never goes past its maximum. */
  lemma {:induction false} LendingIsBounded(cfg: Config, a: Account, times: seq<real>)
    requires a.target <= cfg.perAccountMax as real && 0 <= a.starveBoost <= 2
    requires forall i :: 0 <= i < |times| ==> !IsQuiet(a, times[i])
    ensures var b := RebalancedAll(cfg, a, times);
            && b.target <= cfg.perAccountMax as real && 0 <= b.starveBoost <= 2 && b.last429 == a.last429
            && b.target <= a.target + (b.starveBoost - a.starveBoost) as real
    decreases |times|
  {
    if times != [] {
      var n := |times| - 1;
      LendingIsBounded(cfg, a, times[..n]);
    }
  }

  /** After quiet minutes the account is back at its maximum. */
  lemma {:induction false} QuietAccountRecovers(cfg: Config, a: Account, times: seq<real>)
    requires a.target <= cfg.perAccountMax as real && a.parkedUntil.At?
    requires forall i :: 0 <= i < |times| ==> IsQuiet(a, times[i]) && times[i] >= a.parkedUntil.t
    ensures var b := RebalancedAll(cfg, a, times);
            && b.target <= cfg.perAccountMax as real && b.last429 == a.last429 && b.parkedUntil == a.parkedUntil
            && (b.target == cfg.perAccountMax as real || b.target >= a.target + |times| as real)
    decreases |times|
  {
    if times != [] {
      var n := |times| - 1;
      QuietAccountRecovers(cfg, a, times[..n]);
    }
  }
}
