/** Accounts and keys of the burner: what a dispatch, a settled request, an error and
    the periodic rebalance do to the books of one account. */
module Accounts {
  import opened Ledger
  import opened AccountBudget
  import opened Spending

  /** A wake-up time; Never is the source's float("inf"). */
  datatype Deadline = At(t: real) | Never {
    predicate Passed(now: real) { At? && now >= t }
  }

  datatype Config = Config(
    cap5h: real, capWeek: real, capTotal: real, estCost: real, weekFallback: real,
    perAccountMax: int, once: bool, quotaParkSeconds: real,
    cooldownBase: real, cooldownMax: real, rateParkAfter: int, rateParkSeconds: real,
    starveAfter: real, starveGrace: real, started: real)

  datatype Key = Key(inflight: int, attempts: int, streak: int, cooldownUntil: real, parkedUntil: Deadline)

  /** What the body of the last 429 complained about. */
  datatype LimitKind = Unknown | Frequency | Throughput

  datatype Account = Account(
    events: seq<Event>, creditsTotal: real,
    inflight: int, inflightCost: real, target: real,
    parkedUntil: Deadline, rateParkUntil: real,
    last429: real, lastOk: real, starveBoost: int, rateStreak: int, lastLimit: LimitKind,
    keys: seq<Key>, anchor: real, weekAnchor: real)

  /** What came back instead of a reply: a status with what its body speaks of (an
      exhausted quota, a frequency limit, and the kind of limit), or an exception. */
  datatype Cause = Status(code: int, quotaBody: bool, frequencyBody: bool, kind: LimitKind) | Raised

  /** How a request can fail. */
  datatype Failure = QuotaGone | RateLimited(kind: LimitKind) | KeyRejected | Transient(cooldown: real)

  /** Quota before rate limit before rejection: a 429 may be either of the first two, a 403
      any of the three. */
  function Classify(cause: Cause): Failure {
    match cause
    case Raised => Transient(15.0)
    case Status(code, quotaBody, frequencyBody, kind) =>
      if quotaBody && code in {402, 403, 429} then QuotaGone
      else if code == 429 || frequencyBody then RateLimited(kind)
      else if code in {401, 403} then KeyRejected
      else Transient(20.0)
  }

  /** The account's own week anchor wins over the global one. */
  function WeekBase(cfg: Config, a: Account): real {
    if a.weekAnchor != 0.0 then a.weekAnchor else cfg.weekFallback
  }

  function Room(cfg: Config, a: Account, now: real): real {
    Available(a.events, a.inflightCost, a.anchor, now, cfg.cap5h, cfg.capWeek, WeekStart(WeekBase(cfg, a), now))
  }

  predicate CapReached(cfg: Config, a: Account) {
    cfg.capTotal > 0.0 && a.creditsTotal >= cfg.capTotal
  }

  predicate BudgetOff(cfg: Config) {
    cfg.cap5h <= 0.0 && cfg.capWeek <= 0.0
  }

  predicate CanPay(cfg: Config, a: Account, cost: real, now: real) {
    a.parkedUntil.Passed(now) && !CapReached(cfg, a) && (BudgetOff(cfg) || Room(cfg, a, now) >= cost)
  }

  /** Until when an account that cannot pay is parked: as before, for ever, or until a moment
      that is sound (from then on it can pay) and tight (up to a minute before, it cannot). */
  ghost predicate ParkedUntil(cfg: Config, a: Account, cost: real, now: real, d: Deadline) {
    if !a.parkedUntil.Passed(now) then d == a.parkedUntil
    else if CapReached(cfg, a) then d == Never
    else
      && d.At? && d.t > now + PAD
      && (a.inflightCost >= 0.0 ==> forall u :: now <= u < d.t - SOON ==> Room(cfg, a, u) < cost)
      && (a.inflightCost == 0.0 && cost <= cfg.cap5h && cost <= cfg.capWeek ==>
            forall u :: d.t <= u ==> Room(cfg, a, u) >= cost)
  }

  /** The windows leave room for the cost on top of what is in flight: five hours from the
      account's anchor, and a week from its own anchor or, without one, from the global one.
      Without any anchor the stretch behind the moment counts. */
  ghost predicate Affordable(cfg: Config, a: Account, cost: real, now: real) {
    || (cfg.cap5h <= 0.0 && cfg.capWeek <= 0.0)
    || (&& Affords(a.events, a.anchor, FIVE_HOURS, cfg.cap5h, a.inflightCost + cost, now)
        && if a.weekAnchor != 0.0 then
             Affords(a.events, a.weekAnchor, A_WEEK, cfg.capWeek, a.inflightCost + cost, now)
           else Affords(a.events, cfg.weekFallback, A_WEEK, cfg.capWeek, a.inflightCost + cost, now))
  }

  /** An account can pay exactly when it is not parked, the absolute cap (if there is one) is
      not reached, and its windows have room. */
  lemma CanPayExactly(cfg: Config, a: Account, cost: real, now: real)
    requires UpTo(a.events, now) && now >= WIN_WEEK
    ensures CanPay(cfg, a, cost, now)
       <==> a.parkedUntil.At? && now >= a.parkedUntil.t && !(cfg.capTotal > 0.0 && a.creditsTotal >= cfg.capTotal)
            && Affordable(cfg, a, cost, now)
  {
    AvailableIsAffords(a.events, a.inflightCost, a.anchor, WeekBase(cfg, a), cfg.cap5h, cfg.capWeek, cost, now);
  }

  /** What a parked account is promised: from that moment on its windows have room, and up to
      a minute before they have none. */
  lemma ParkingIsRight(cfg: Config, a: Account, cost: real, now: real, d: Deadline)
    requires UpTo(a.events, now) && now >= WIN_WEEK && ParkedUntil(cfg, a, cost, now, d)
    requires a.parkedUntil.At? && now >= a.parkedUntil.t && !(cfg.cap5h <= 0.0 && cfg.capWeek <= 0.0)
    ensures cfg.capTotal > 0.0 && a.creditsTotal >= cfg.capTotal ==> d == Never
    ensures !(cfg.capTotal > 0.0 && a.creditsTotal >= cfg.capTotal) ==>
              && d.At? && d.t > now + 30.0
              && (a.inflightCost >= 0.0 ==> forall u :: now <= u < d.t - 60.0 ==> !Affordable(cfg, a, cost, u))
              && (a.inflightCost == 0.0 && cost <= cfg.cap5h && cost <= cfg.capWeek ==>
                    forall u :: d.t <= u ==> Affordable(cfg, a, cost, u))
  {
    forall u | now <= u ensures Room(cfg, a, u) >= cost <==> Affordable(cfg, a, cost, u) {
      assert UpTo(a.events, u);
      AvailableIsAffords(a.events, a.inflightCost, a.anchor, WeekBase(cfg, a), cfg.cap5h, cfg.capWeek, cost, u);
    }
  }

  predicate KeyUsable(cfg: Config, k: Key, now: real) {
    now >= k.cooldownUntil && k.parkedUntil.Passed(now) && !(cfg.once && k.attempts > 0)
  }

  predicate Eligible(cfg: Config, a: Account, now: real) {
    && (a.inflight as real) < Min(a.target, cfg.perAccountMax as real)
    && a.parkedUntil.Passed(now)
    && now >= a.rateParkUntil
    && exists i :: 0 <= i < |a.keys| && KeyUsable(cfg, a.keys[i], now)
  }

  function Reserved(cfg: Config, a: Account, k: nat): Account
    requires k < |a.keys|
  {
    var key := a.keys[k];
    a.(inflight := a.inflight + 1, inflightCost := a.inflightCost + cfg.estCost,
       keys := a.keys[k := key.(inflight := key.inflight + 1, attempts := key.attempts + 1)])
  }

  /** The reservation is taken back whatever became of the request. */
  function Released(cfg: Config, a: Account, k: nat): Account
    requires k < |a.keys|
  {
    a.(inflight := a.inflight - 1, inflightCost := a.inflightCost - cfg.estCost,
       keys := a.keys[k := a.keys[k].(inflight := a.keys[k].inflight - 1)])
  }

  /** Debits at the front of the ledger that are too old for any window. */
  function PopOld(es: seq<Event>, cutoff: real): seq<Event> {
    if es != [] && es[0].ts <= cutoff then PopOld(es[1..], cutoff) else es
  }

  const KEEP := WIN_WEEK + DAY

  /** The ledger with a debit booked, too old debits trimmed from the front. */
  function Booked(es: seq<Event>, now: real, credits: real): seq<Event> {
    PopOld(es + [Event(now, credits)], now - KEEP)
  }

  function Completed(cfg: Config, a: Account, k: nat, now: real, credits: real): Account
    requires k < |a.keys|
  {
    var b := a.(events := Booked(a.events, now, credits), creditsTotal := a.creditsTotal + credits,
                lastOk := now, starveBoost := 0, rateStreak := 0,
                keys := a.keys[k := a.keys[k].(streak := 0)]);
    Released(cfg, b, k)
  }

  function Pow2(n: nat): real { if n == 0 then 1.0 else 2.0 * Pow2(n - 1) }

  function Halved(target: real): real { Max(1.0, target * 0.5) }

  function Cooldown(cfg: Config, streak: int): real {
    if streak >= 1 then Min(cfg.cooldownBase * Pow2(streak - 1), cfg.cooldownMax) else cfg.cooldownBase
  }

  /** A 429: halve the account's target, cool the key down, park the account once it
      has been hit often enough in a row. */
  function Throttled(cfg: Config, a: Account, k: nat, now: real, kind: LimitKind): Account
    requires k < |a.keys|
  {
    var target := Halved(a.target);
    var floor := target <= 1.0;
    var s := a.keys[k].streak + 1;
    var streak := if floor && s > 2 then 2 else s;
    var cd := if floor then cfg.cooldownBase else Cooldown(cfg, streak);
    a.(lastLimit := kind, starveBoost := 0, target := target, last429 := now,
       rateStreak := a.rateStreak + 1,
       rateParkUntil := if a.rateStreak + 1 >= cfg.rateParkAfter then now + cfg.rateParkSeconds else a.rateParkUntil,
       keys := a.keys[k := a.keys[k].(streak := streak, cooldownUntil := now + cd)])
  }

  function Penalised(cfg: Config, a: Account, k: nat, now: real, f: Failure): Account
    requires k < |a.keys|
  {
    match f
    case QuotaGone => a.(parkedUntil := At(now + cfg.quotaParkSeconds))
    case RateLimited(kind) => Throttled(cfg, a, k, now, kind)
    case KeyRejected => a.(keys := a.keys[k := a.keys[k].(parkedUntil := Never)])
    case Transient(cd) => a.(keys := a.keys[k := a.keys[k].(cooldownUntil := now + cd)])
  }

  function Failed(cfg: Config, a: Account, k: nat, now: real, f: Failure): Account
    requires k < |a.keys|
  {
    Released(cfg, Penalised(cfg, a, k, now, f), k)
  }

  /** Additive increase after a quiet minute. */
  function Grown(cfg: Config, a: Account, now: real): Account {
    if a.target < cfg.perAccountMax as real && now - a.last429 > 60.0
    then a.(target := Min(a.target + 1.0, cfg.perAccountMax as real)) else a
  }

  predicate Starving(cfg: Config, a: Account, now: real) {
    && now - cfg.started >= cfg.starveGrace
    && (a.lastOk == 0.0 || now - a.lastOk > cfg.starveAfter)
    && a.starveBoost < 2
    && a.lastLimit != Frequency
  }

  function Rebalanced(cfg: Config, a: Account, now: real): Account {
    if !a.parkedUntil.Passed(now) then a
    else
      var b := Grown(cfg, a, now);
      if Starving(cfg, b, now) && b.target < cfg.perAccountMax as real
      then b.(starveBoost := b.starveBoost + 1, target := Min(b.target + 1.0, cfg.perAccountMax as real)) else b
  }

  // ---- Trimming --------------------------------------------------------------

  lemma {:induction false} PopOldIsSuffix(es: seq<Event>, cutoff: real) returns (dropped: seq<Event>)
    ensures es == dropped + PopOld(es, cutoff)
    ensures UpTo(dropped, cutoff)
  {
    if es != [] && es[0].ts <= cutoff {
      var rest := PopOldIsSuffix(es[1..], cutoff);
      dropped := [es[0]] + rest;
      assert es == [es[0]] + (rest + PopOld(es[1..], cutoff)) == dropped + PopOld(es[1..], cutoff);
      assert PopOld(es, cutoff) == PopOld(es[1..], cutoff);
    } else {
      dropped := [];
    }
  }

  /** What trimming drops no window, fixed or rolling, will ever count again. */
  lemma {:induction false} DroppedIsInvisible(dropped: seq<Event>, kept: seq<Event>, trimmedAt: real,
                                              anchor: real, length: real, t: real)
    requires IsWindowLength(length) && UpTo(dropped, trimmedAt - KEEP) && trimmedAt <= t
    ensures Burn(dropped + kept, WindowAt(anchor, length, t)) == Burn(kept, WindowAt(anchor, length, t))
  {
    BurnAppend(dropped, kept, WindowAt(anchor, length, t));
    forall e | e in dropped ensures !WindowAt(anchor, length, t).Covers(e.ts) {
      WindowReach(anchor, length, t, e.ts);
    }
    BurnNothing(dropped, WindowAt(anchor, length, t));
  }

  /** Popping old debits at settle time never changes what the account may spend, then
      or later, in any combination of window modes. */
  lemma {:induction false} TrimmingIsInvisible(es: seq<Event>, trimmedAt: real, t: real, inflightCost: real,
                                               anchor: real, base: real, cap5h: real, capWeek: real)
    requires WIN_WEEK <= trimmedAt <= t
    ensures Available(PopOld(es, trimmedAt - KEEP), inflightCost, anchor, t, cap5h, capWeek, WeekStart(base, t))
            == Available(es, inflightCost, anchor, t, cap5h, capWeek, WeekStart(base, t))
  {
    var dropped := PopOldIsSuffix(es, trimmedAt - KEEP);
    WeekWindowIsWindowAt(base, t);
    DroppedIsInvisible(dropped, PopOld(es, trimmedAt - KEEP), trimmedAt, anchor, WIN_5H, t);
    DroppedIsInvisible(dropped, PopOld(es, trimmedAt - KEEP), trimmedAt, base, WIN_WEEK, t);
  }

  /** Filtering a saved ledger at load time is just as invisible. */
  lemma {:induction false} LoadFilterIsInvisible(es: seq<Event>, loadedAt: real, t: real, inflightCost: real,
                                                 anchor: real, base: real, cap5h: real, capWeek: real)
    requires WIN_WEEK <= loadedAt <= t
    ensures Available(Select(es, After(loadedAt - KEEP)), inflightCost, anchor, t, cap5h, capWeek, WeekStart(base, t))
            == Available(es, inflightCost, anchor, t, cap5h, capWeek, WeekStart(base, t))
  {
    WeekWindowIsWindowAt(base, t);
    forall e | e in es
      ensures WindowAt(anchor, WIN_5H, t).Covers(e.ts) ==> After(loadedAt - KEEP).Covers(e.ts)
      ensures WindowAt(base, WIN_WEEK, t).Covers(e.ts) ==> After(loadedAt - KEEP).Covers(e.ts)
    {
      WindowReach(anchor, WIN_5H, t, e.ts);
      WindowReach(base, WIN_WEEK, t, e.ts);
    }
    BurnSelect(es, After(loadedAt - KEEP), WindowAt(anchor, WIN_5H, t));
    BurnSelect(es, After(loadedAt - KEEP), WindowAt(base, WIN_WEEK, t));
  }

  class AccountState {
    var events: seq<Event>
    var creditsTotal: real
    var inflight: int
    var inflightCost: real
    var target: real
    var parkedUntil: Deadline
    var rateParkUntil: real
    var last429: real
    var lastOk: real
    var starveBoost: int
    var rateStreak: int
    var lastLimit: LimitKind
    var keys: seq<Key>
    const anchor: real      // 0.0: rolling 5h window
    const weekAnchor: real  // 0.0: the burner's global week anchor applies

    /** The state of the account as a value; the methods are specified on it. */
    function View(): Account
      reads this
    {
      Account(events, creditsTotal, inflight, inflightCost, target, parkedUntil, rateParkUntil,
              last429, lastOk, starveBoost, rateStreak, lastLimit, keys, anchor, weekAnchor)
    }

    constructor (start: real, keyCount: nat, anchor: real, weekAnchor: real)
      ensures View() == Account([], 0.0, 0, 0.0, start, At(0.0), 0.0, 0.0, 0.0, 0, 0, Unknown,
                                seq(keyCount, _ => Key(0, 0, 0, 0.0, At(0.0))), anchor, weekAnchor)
    {
      events, creditsTotal, inflight, inflightCost, target := [], 0.0, 0, 0.0, start;
      parkedUntil, rateParkUntil, last429, lastOk := At(0.0), 0.0, 0.0, 0.0;
      starveBoost, rateStreak, lastLimit := 0, 0, Unknown;
      keys := seq(keyCount, _ => Key(0, 0, 0, 0.0, At(0.0)));
      this.anchor, this.weekAnchor := anchor, weekAnchor;
    }

    function AvailableAt(now: real, cap5h: real, capWeek: real, weekStart: real): real
      reads this
    {
      Available(events, inflightCost, anchor, now, cap5h, capWeek, weekStart)
    }

    /** Earliest release of an over-full rolling window, padded; None when it has room. */
    method RollingCandidate(length: real, now: real, cap: real, need: real) returns (c: real, blocked: bool)
      requires IsWindowLength(length) && NonNegative(events) && need <= cap
      ensures blocked <==> Limit(0.0, length, cap).Room(events, now) < need
      ensures blocked ==> c > now + PAD
      ensures blocked ==> BlockedUntil(Limit(0.0, length, cap), events, need, now, c - PAD)
      ensures blocked ==> FreeFrom(Limit(0.0, length, cap), events, need, c - PAD)
    {
      var l := Limit(0.0, length, cap);
      var w := After(now - length);
      var live := Sorted(Select(events, w));
      var total := Burn(live, All);
      LiveTotal(events, w);
      var needRelease := total - (cap - need);
      c, blocked := now, needRelease > 0.0;
      if blocked {
        assert live[..|live|] == live;
        var acc := 0.0;
        var i := 0;
        while i < |live|
          invariant 0 <= i <= |live| && acc == Burn(live[..i], All) < needRelease
        {
          BurnPrefix(live, i);
          acc := acc + live[i].credits;
          if acc >= needRelease {
            RollingReleaseAt(l, events, live, i, need, now);
            c := live[i].ts + length + PAD;
            return;
          }
          i := i + 1;
        }
        assert false;  // the prefix sums reach the total, which is at least the excess
      }
    }

    /** When the 5h limit lets go. */
    method FiveHourCandidate(now: real, cap: real, need: real) returns (t: real)
      requires NonNegative(events) && UpTo(events, now)
      ensures Candidate(Limit(anchor, WIN_5H, cap), events, need, now, t)
    {
      ghost var l := Limit(anchor, WIN_5H, cap);
      if cap < need {
        t := now + DAY;
        NeverEnough(l, events, need, now, t);
      } else if anchor != 0.0 {
        var ws := WindowStart(anchor, WIN_5H, now);
        if Burn(events, Since(ws)) <= cap - need {
          t := now + SOON;
          FreeFromNow(l, events, need, now);
        } else {
          t := ws + WIN_5H + PAD;
          AnchoredRelease(l, events, need, now);
        }
      } else {
        var c, blocked := RollingCandidate(WIN_5H, now, cap, need);
        t := if blocked then c else now + SOON;
        if !blocked { FreeFromNow(l, events, need, now); }
      }
    }

    /** When the week lets go, if it is the week that blocks; now + SOON if it does not. */
    method WeekCandidate(now: real, cap: real, need: real, weekStart: real, ghost base: real)
      returns (t: real, blocked: bool)
      requires NonNegative(events) && UpTo(events, now)
      requires now >= WIN_WEEK && weekStart == WeekStart(base, now)
      ensures Candidate(Limit(base, WIN_WEEK, cap), events, need, now, t)
      ensures !blocked ==> t == now + SOON
    {
      ghost var l := Limit(base, WIN_WEEK, cap);
      WeekWindowIsWindowAt(base, now);
      t, blocked := now + SOON, false;
      if cap < need {
        t, blocked := now + DAY, true;
        NeverEnough(l, events, need, now, t);
      } else if weekStart != 0.0 {
        if Burn(events, Since(weekStart)) > cap - need {
          t, blocked := weekStart + WIN_WEEK + PAD, true;
          AnchoredRelease(l, events, need, now);
        } else {
          FreeFromNow(l, events, need, now);
        }
      } else {
        var c, full := RollingCandidate(WIN_WEEK, now, cap, need);
        if full {
          t, blocked := c, true;
        } else {
          FreeFromNow(l, events, need, now);
        }
      }
    }

    /** When the account should be tried again. With nothing in flight the prediction is
        sound: from the returned time on, the room is never short again. And it is tight:
        the room is short at every earlier moment, up to the padding. */
    method ResumeTime(now: real, cap5h: real, capWeek: real, need: real, weekStart: real, ghost base: real)
      returns (t: real)
      requires NonNegative(events) && UpTo(events, now)
      requires now >= WIN_WEEK && weekStart == WeekStart(base, now)
      ensures need <= cap5h && need <= capWeek && inflightCost == 0.0 ==>
                forall u :: t <= u ==> AvailableAt(u, cap5h, capWeek, WeekStart(base, u)) >= need
      ensures inflightCost >= 0.0 ==>
                forall u :: now <= u < t - SOON ==> AvailableAt(u, cap5h, capWeek, WeekStart(base, u)) < need
      ensures inflightCost >= 0.0 && t > now + SOON ==>
                forall u :: now <= u < t - PAD ==> AvailableAt(u, cap5h, capWeek, WeekStart(base, u)) < need
      ensures t > now + PAD
      ensures need > cap5h || need > capWeek ==> t >= now + DAY
    {
      var t5 := FiveHourCandidate(now, cap5h, need);
      var tw, blocked := WeekCandidate(now, capWeek, need, weekStart, base);
      t := if blocked then Max(t5, tw) else t5;
      TwoLimits(events, inflightCost, Limit(anchor, WIN_5H, cap5h), Limit(base, WIN_WEEK, capWeek),
                need, now, t5, tw, t);
    }

    /** Whether the account can pay for one more request. If its windows cannot, the
        account is parked until the predicted moment; if the absolute cap is reached,
        for good. Nothing else changes. */
    method BudgetAllow(cfg: Config, cost: real, now: real) returns (ok: bool)
      requires NonNegative(events) && UpTo(events, now) && now >= WIN_WEEK
      modifies this`parkedUntil
      ensures ok <==> CanPay(cfg, old(View()), cost, now)
      ensures ok <==> old(parkedUntil.At? && now >= parkedUntil.t)
                      && !(cfg.capTotal > 0.0 && creditsTotal >= cfg.capTotal)
                      && old(Affordable(cfg, View(), cost, now))
      ensures View() == old(View()).(parkedUntil := parkedUntil)
      ensures if ok then parkedUntil == old(parkedUntil) else ParkedUntil(cfg, old(View()), cost, now, parkedUntil)
    {
      CanPayExactly(cfg, View(), cost, now);
      if !parkedUntil.Passed(now) {
        return false;
      }
      if cfg.capTotal > 0.0 && creditsTotal >= cfg.capTotal {
        parkedUntil := Never;
        return false;
      }
      if cfg.cap5h <= 0.0 && cfg.capWeek <= 0.0 {
        return true;
      }
      var base := if weekAnchor != 0.0 then weekAnchor else cfg.weekFallback;
      var ws := WeekStart(base, now);
      if AvailableAt(now, cfg.cap5h, cfg.capWeek, ws) >= cost {
        return true;
      }
      var t := ResumeTime(now, cfg.cap5h, cfg.capWeek, cost, ws, base);
      assert forall u :: Room(cfg, View(), u) == AvailableAt(u, cfg.cap5h, cfg.capWeek, WeekStart(base, u));
      parkedUntil := At(t);
      return false;
    }

    /** Book the estimate before the request is sent. */
    method Reserve(cfg: Config, k: nat)
      requires k < |keys|
      modifies this
      ensures View() == Reserved(cfg, old(View()), k)
    {
      inflight := inflight + 1;
      inflightCost := inflightCost + cfg.estCost;
      keys := keys[k := keys[k].(inflight := keys[k].inflight + 1, attempts := keys[k].attempts + 1)];
    }

    method Release(cfg: Config, k: nat)
      requires k < |keys|
      modifies this
      ensures View() == Released(cfg, old(View()), k)
    {
      keys := keys[k := keys[k].(inflight := keys[k].inflight - 1)];
      inflight := inflight - 1;
      inflightCost := inflightCost - cfg.estCost;
    }

    /** A request succeeded: book its real cost, trim the ledger, drop the reservation. */
    method Complete(cfg: Config, k: nat, now: real, credits: real)
      requires k < |keys|
      modifies this
      ensures View() == Completed(cfg, old(View()), k, now, credits)
    {
      keys := keys[k := keys[k].(streak := 0)];
      rateStreak := 0;
      events := events + [Event(now, credits)];
      lastOk := now;
      starveBoost := 0;
      while events != [] && events[0].ts <= now - KEEP
        invariant PopOld(events, now - KEEP) == Booked(old(events), now, credits)
        invariant View() == old(View()).(events := events, keys := keys, rateStreak := 0, lastOk := now,
                                         starveBoost := 0)
        invariant keys == old(keys)[k := old(keys)[k].(streak := 0)]
        decreases |events|
      {
        events := events[1..];
      }
      creditsTotal := creditsTotal + credits;
      Release(cfg, k);
    }

    /** A request failed: apply the penalty its kind carries, drop the reservation. */
    method Fail(cfg: Config, k: nat, now: real, cause: Cause)
      requires k < |keys|
      modifies this
      ensures View() == Failed(cfg, old(View()), k, now, Classify(cause))
    {
      if cause.Raised? {
        keys := keys[k := keys[k].(cooldownUntil := now + 15.0)];
      } else {
        OnError(cfg, k, now, cause);
      }
      Release(cfg, k);
    }

    method OnError(cfg: Config, k: nat, now: real, cause: Cause)
      requires k < |keys| && cause.Status?
      modifies this
      ensures View() == Penalised(cfg, old(View()), k, now, Classify(cause))
    {
      if cause.quotaBody && (cause.code == 402 || cause.code == 403 || cause.code == 429) {
        parkedUntil := At(now + cfg.quotaParkSeconds);
        return;
      }
      if cause.code == 429 || cause.frequencyBody {
        OnRateLimit(cfg, k, now, cause.kind);
        return;
      }
      if cause.code == 401 || cause.code == 403 {
        keys := keys[k := keys[k].(parkedUntil := Never)];
        return;
      }
      keys := keys[k := keys[k].(cooldownUntil := now + 20.0)];
    }

    method OnRateLimit(cfg: Config, k: nat, now: real, kind: LimitKind)
      requires k < |keys|
      modifies this
      ensures View() == Throttled(cfg, old(View()), k, now, kind)
    {
      lastLimit := kind;
      if starveBoost != 0 {
        starveBoost := 0;
      }
      target := Max(1.0, target * 0.5);
      last429 := now;
      rateStreak := rateStreak + 1;
      var streak, cd := keys[k].streak + 1, cfg.cooldownBase;
      if target <= 1.0 {
        streak := if streak > 2 then 2 else streak;
      } else {
        cd := Cooldown(cfg, streak);
      }
      keys := keys[k := keys[k].(streak := streak, cooldownUntil := now + cd)];
      if rateStreak >= cfg.rateParkAfter {
        rateParkUntil := now + cfg.rateParkSeconds;
      }
    }

    /** One account's share of the periodic rebalance. */
    method Rebalance(cfg: Config, now: real)
      modifies this
      ensures View() == Rebalanced(cfg, old(View()), now)
    {
      if parkedUntil.Never? || parkedUntil.t > now {
        return;
      }
      var cap := cfg.perAccountMax as real;
      if target < cap && now - last429 > 60.0 {
        target := Min(target + 1.0, cap);
      }
      if now - cfg.started < cfg.starveGrace {
        return;
      }
      var starving := lastOk == 0.0 || now - lastOk > cfg.starveAfter;
      if !starving || starveBoost >= 2 || lastLimit == Frequency {
        return;
      }
      if target < cap {
        starveBoost := starveBoost + 1;
        target := Min(target + 1.0, cap);
      }
    }
  }
}
