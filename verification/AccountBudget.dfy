/** The budget side of one burner account: how many credits its windows still hold,
    and when a blocked account can pay again. */
module AccountBudget {
  import opened Ledger

  /** How long a retry is padded past the moment a window lets go. */
  const PAD := 30.0
  /** Retry delay when nothing blocks right now. */
  const SOON := 60.0

  function Min(a: real, b: real): real { if a <= b then a else b }

  function Max(a: real, b: real): real { if a >= b then a else b }

  /** One budget constraint: at most `cap` credits in a window that is fixed when
      `anchor` is set and rolling otherwise. */
  datatype Limit = Limit(anchor: real, length: real, cap: real) {
    function Room(es: seq<Event>, t: real): real
      requires IsWindowLength(length)
    {
      cap - Burn(es, WindowAt(anchor, length, t))
    }

    /** With a frozen ledger, the room of a limit never shrinks. */
    lemma RoomGrows(es: seq<Event>, t: real, u: real)
      requires IsWindowLength(length) && NonNegative(es) && t <= u
      ensures Room(es, t) <= Room(es, u)
    {
      WindowForgets(es, anchor, length, t, u);
      BurnMonotone(es, WindowAt(anchor, length, t), WindowAt(anchor, length, u));
    }

    lemma RoomWithinCap(es: seq<Event>, t: real)
      requires IsWindowLength(length) && NonNegative(es)
      ensures Room(es, t) <= cap
    {
      BurnNonNegative(es, WindowAt(anchor, length, t));
    }
  }

  /** The limit lacks `need` at every moment from now until (excluding) t. */
  ghost predicate BlockedUntil(l: Limit, es: seq<Event>, need: real, now: real, t: real)
    requires IsWindowLength(l.length)
  {
    forall u :: now <= u < t ==> l.Room(es, u) < need
  }

  /** The limit has `need` at t, hence (RoomGrows) ever after. */
  ghost predicate FreeFrom(l: Limit, es: seq<Event>, need: real, t: real)
    requires IsWindowLength(l.length)
  {
    forall u :: t <= u ==> l.Room(es, u) >= need
  }

  lemma FreeFromNow(l: Limit, es: seq<Event>, need: real, t: real)
    requires IsWindowLength(l.length) && NonNegative(es)
    requires l.Room(es, t) >= need
    ensures FreeFrom(l, es, need, t)
  {
    forall u | t <= u ensures l.Room(es, u) >= need {
      l.RoomGrows(es, t, u);
    }
  }

  lemma NeverEnough(l: Limit, es: seq<Event>, need: real, now: real, t: real)
    requires IsWindowLength(l.length) && NonNegative(es) && l.cap < need
    ensures BlockedUntil(l, es, need, now, t)
  {
    forall u | now <= u < t ensures l.Room(es, u) < need {
      l.RoomWithinCap(es, u);
    }
  }

  /** A fixed window that is over its limit lets go exactly at its end. */
  lemma AnchoredRelease(l: Limit, es: seq<Event>, need: real, now: real)
    requires IsWindowLength(l.length) && NonNegative(es) && UpTo(es, now)
    requires l.anchor != 0.0 && l.Room(es, now) < need <= l.cap
    ensures var end := WindowStart(l.anchor, l.length, now) + l.length;
            now < end && BlockedUntil(l, es, need, now, end) && FreeFrom(l, es, need, end)
  {
    var end := WindowStart(l.anchor, l.length, now) + l.length;
    WindowStartBounds(l.anchor, l.length, now);
    forall u | now <= u < end ensures l.Room(es, u) < need {
      WindowStartSteps(l.anchor, l.length, now, u);
    }
    WindowStartSteps(l.anchor, l.length, now, end);
    BurnNothing(es, WindowAt(l.anchor, l.length, end));
    FreeFromNow(l, es, need, end);
  }

  /** live is the sorted content of the window behind now; live[k] is the first debit
      whose prefix sum reaches the excess over cap - need. */
  ghost predicate FirstToCover(es: seq<Event>, live: seq<Event>, k: nat, length: real, excess: real, now: real) {
    && live == Sorted(Select(es, After(now - length)))
    && k < |live|
    && Burn(live[..k], All) < excess <= Burn(live[..k + 1], All)
  }

  /** Sorted debits around index k, seen through a window that starts at that debit. */
  lemma SuffixBurn(live: seq<Event>, k: nat, cut: real)
    requires IsSorted(live) && NonNegative(live) && k < |live| && cut < live[k].ts
    ensures Burn(live, After(cut)) >= Burn(live, All) - Burn(live[..k], All)
  {
    SplitAt(live, k, After(cut));
    SplitAt(live, k, All);
    BurnNonNegative(live[..k], After(cut));
    forall e | e in live[k..] ensures e.ts > cut {
      var j :| 0 <= j < |live[k..]| && live[k..][j] == e;
      assert live[k + j] == e;
    }
    BurnSame(live[k..], All, After(cut));
  }

  lemma PrefixForgotten(live: seq<Event>, k: nat)
    requires IsSorted(live) && NonNegative(live) && k < |live|
    ensures Burn(live, After(live[k].ts)) <= Burn(live, All) - Burn(live[..k + 1], All)
  {
    var v := After(live[k].ts);
    SplitAt(live, k + 1, v);
    SplitAt(live, k + 1, All);
    forall e | e in live[..k + 1] ensures e.ts <= live[k].ts {
      var j :| 0 <= j < k + 1 && live[j] == e;
    }
    BurnNothing(live[..k + 1], v);
    BurnMonotone(live[k + 1..], All, v);
  }

  lemma LiveFacts(es: seq<Event>, w: Window)
    ensures var live := Sorted(Select(es, w));
            IsSorted(live) && forall e :: e in live ==> e in es && w.Covers(e.ts)
  {
    SortedIsSorted(Select(es, w));
    SelectMembers(es, w);
    SortedMembers(Select(es, w));
    forall e | e in Sorted(Select(es, w)) ensures e in Select(es, w) {
      assert e in multiset(Sorted(Select(es, w)));
    }
  }

  lemma BeforeRollOut(es: seq<Event>, live: seq<Event>, k: nat, length: real, excess: real, now: real, u: real)
    requires IsWindowLength(length) && NonNegative(es)
    requires FirstToCover(es, live, k, length, excess, now)
    requires now <= u < live[k].ts + length
    ensures Burn(es, After(u - length)) > Burn(live, All) - excess
  {
    LiveBefore(es, live, k, now - length, u - length);
  }

  lemma LiveBefore(es: seq<Event>, live: seq<Event>, k: nat, cut: real, later: real)
    requires NonNegative(es) && live == Sorted(Select(es, After(cut)))
    requires k < |live| && cut <= later < live[k].ts
    ensures Burn(es, After(later)) >= Burn(live, All) - Burn(live[..k], All)
  {
    LiveIsSound(es, live, cut, later);
    SuffixBurn(live, k, later);
  }

  lemma LiveIsSound(es: seq<Event>, live: seq<Event>, cut: real, later: real)
    requires NonNegative(es) && live == Sorted(Select(es, After(cut))) && cut <= later
    ensures IsSorted(live) && NonNegative(live) && Burn(es, After(later)) == Burn(live, After(later))
  {
    LiveFacts(es, After(cut));
    RollingBurn(es, live, After(cut), After(later));
  }

  lemma AfterRollOut(es: seq<Event>, live: seq<Event>, k: nat, length: real, excess: real, now: real)
    requires IsWindowLength(length) && NonNegative(es)
    requires FirstToCover(es, live, k, length, excess, now)
    ensures Burn(es, After(live[k].ts)) <= Burn(live, All) - excess
    ensures live[k].ts + length > now
  {
    LiveFacts(es, After(now - length));
    assert live[k] in live;
    RollingBurn(es, live, After(now - length), After(live[k].ts));
    PrefixForgotten(live, k);
  }

  /** A rolling window lets go exactly when the debit of time ts rolls out, if it is
      over the limit as long as that debit counts and within it afterwards. */
  lemma RollingRelease(l: Limit, es: seq<Event>, need: real, now: real, ts: real)
    requires IsWindowLength(l.length) && NonNegative(es) && l.anchor == 0.0
    requires forall u :: now <= u < ts + l.length ==> l.Room(es, u) < need
    requires Burn(es, After(ts)) <= l.cap - need
    ensures BlockedUntil(l, es, need, now, ts + l.length) && FreeFrom(l, es, need, ts + l.length)
  {
    assert ts + l.length - l.length == ts;
    assert l.Room(es, ts + l.length) == l.cap - Burn(es, After(ts));
    FreeFromNow(l, es, need, ts + l.length);
  }

  lemma ShortBefore(l: Limit, es: seq<Event>, live: seq<Event>, k: nat, need: real, now: real, u: real)
    requires IsWindowLength(l.length) && NonNegative(es) && l.anchor == 0.0
    requires FirstToCover(es, live, k, l.length, Burn(live, All) - (l.cap - need), now)
    requires now <= u < live[k].ts + l.length
    ensures l.Room(es, u) < need
  {
    BeforeRollOut(es, live, k, l.length, Burn(live, All) - (l.cap - need), now, u);
  }

  lemma RollingReleaseAt(l: Limit, es: seq<Event>, live: seq<Event>, k: nat, need: real, now: real)
    requires IsWindowLength(l.length) && NonNegative(es) && l.anchor == 0.0
    requires FirstToCover(es, live, k, l.length, Burn(live, All) - (l.cap - need), now)
    ensures now < live[k].ts + l.length
    ensures BlockedUntil(l, es, need, now, live[k].ts + l.length)
    ensures FreeFrom(l, es, need, live[k].ts + l.length)
  {
    var total := Burn(live, All);
    var ts := live[k].ts;
    AfterRollOut(es, live, k, l.length, total - (l.cap - need), now);
    assert Burn(es, After(ts)) <= l.cap - need;
    forall u | now <= u < ts + l.length ensures l.Room(es, u) < need {
      ShortBefore(l, es, live, k, need, now, u);
    }
    RollingRelease(l, es, need, now, ts);
  }

  lemma RollingBurn(es: seq<Event>, live: seq<Event>, w: Window, v: Window)
    requires live == Sorted(Select(es, w)) && Includes(es, w, v)
    ensures Burn(live, v) == Burn(es, v)
  {
    SortedBurn(Select(es, w), v);
    BurnSelect(es, w, v);
  }

  lemma LiveTotal(es: seq<Event>, w: Window)
    ensures Burn(Sorted(Select(es, w)), All) == Burn(es, w)
  {
    SortedBurn(Select(es, w), All);
    SelectTotal(es, w);
  }

  lemma BurnPrefix(es: seq<Event>, i: nat)
    requires i < |es|
    ensures Burn(es[..i + 1], All) == Burn(es[..i], All) + es[i].credits
  {
    assert es[..i + 1] == es[..i] + [es[i]];
    BurnSnoc(es[..i], es[i], All);
  }

  lemma SplitAt(es: seq<Event>, k: nat, w: Window)
    requires k <= |es|
    ensures Burn(es, w) == Burn(es[..k], w) + Burn(es[k..], w)
  {
    assert es == es[..k] + es[k..];
    BurnAppend(es[..k], es[k..], w);
  }

  // ---- The account ---------------------------------------------------------

  /** The start of the fixed week, or 0.0 when no week anchor is configured. */
  function WeekStart(base: real, now: real): real {
    if base == 0.0 then 0.0 else WindowStart(base, WIN_WEEK, now)
  }

  /** The week window as the ledger reads it: a start of 0.0 means "rolling". */
  function WeekWindow(weekStart: real, now: real): Window {
    if weekStart != 0.0 then Since(weekStart) else After(now - WIN_WEEK)
  }

  lemma WeekWindowIsWindowAt(base: real, now: real)
    requires now >= WIN_WEEK
    ensures WeekWindow(WeekStart(base, now), now) == WindowAt(base, WIN_WEEK, now)
  {
    WindowStartBounds(base, WIN_WEEK, now);
  }

  /** Credits the account may still commit at a moment. */
  function Available(es: seq<Event>, inflightCost: real, anchor: real, now: real,
                     cap5h: real, capWeek: real, weekStart: real): real
  {
    Min(cap5h - Burn(es, WindowAt(anchor, WIN_5H, now)),
        capWeek - Burn(es, WeekWindow(weekStart, now))) - inflightCost
  }

  /** The anchor is m whole weeks. */
  predicate WeeksFrom(base: real, m: int) { base == m as real * WIN_WEEK }

  /** Where reading a week start of 0.0 as "no anchor" matters: only for an anchor that is a
      whole number of weeks, and only in the first week of the epoch. */
  lemma WeekWindowIsExact(base: real, now: real)
    requires now >= 0.0
    ensures WeekWindow(WeekStart(base, now), now) != WindowAt(base, WIN_WEEK, now)
       <==> base != 0.0 && (exists m :: WeeksFrom(base, m)) && now < WIN_WEEK
  {
    WindowStartBounds(base, WIN_WEEK, now);
    var k := ((now - base) / WIN_WEEK).Floor;
    if WindowStart(base, WIN_WEEK, now) == 0.0 {
      assert WeeksFrom(base, -k);
    }
    if m :| WeeksFrom(base, m) && now < WIN_WEEK {
      SameWeek(k + m, now);
    }
  }

  /** Only week 0 contains a moment of the first week. */
  lemma SameWeek(k: int, now: real)
    requires 0.0 <= now < WIN_WEEK && k as real * WIN_WEEK <= now < (k + 1) as real * WIN_WEEK
    ensures k == 0
  {
  }

  /** t is when one limit lets go, padded: blocked until then and free from then on; or soon,
      when it does not block at all; or a day later, when it never lets go. */
  ghost predicate Candidate(l: Limit, es: seq<Event>, need: real, now: real, t: real)
    requires IsWindowLength(l.length)
  {
    && t > now + PAD && (need > l.cap ==> t == now + DAY)
    && (need <= l.cap ==> FreeFrom(l, es, need, Max(now, t - PAD)) || (t == now + SOON && FreeFrom(l, es, need, now)))
    && (t == now + SOON || BlockedUntil(l, es, need, now, t - PAD))
  }

  /** Each limit is blocked until its own candidate (less padding) unless that candidate
      is the default; the later candidate then bounds the account from both sides. */
  lemma TwoLimits(es: seq<Event>, inflightCost: real, l5: Limit, lw: Limit, need: real, now: real,
                  t5: real, tw: real, t: real)
    requires NonNegative(es) && now >= WIN_WEEK && l5.length == WIN_5H && lw.length == WIN_WEEK
    requires t5 <= t && (t == t5 || t == tw) && (tw <= t || tw == now + SOON)
    requires Candidate(l5, es, need, now, t5) && Candidate(lw, es, need, now, tw)
    ensures need <= l5.cap && need <= lw.cap && inflightCost == 0.0 ==>
              forall u :: t <= u ==>
                 Available(es, inflightCost, l5.anchor, u, l5.cap, lw.cap, WeekStart(lw.anchor, u)) >= need
    ensures inflightCost >= 0.0 ==>
              forall u :: now <= u < t - SOON ==>
                 Available(es, inflightCost, l5.anchor, u, l5.cap, lw.cap, WeekStart(lw.anchor, u)) < need
    ensures inflightCost >= 0.0 && t > now + SOON ==>
              forall u :: now <= u < t - PAD ==>
                 Available(es, inflightCost, l5.anchor, u, l5.cap, lw.cap, WeekStart(lw.anchor, u)) < need
  {
    forall u | now <= u
      ensures Available(es, inflightCost, l5.anchor, u, l5.cap, lw.cap, WeekStart(lw.anchor, u))
              == Min(l5.Room(es, u), lw.Room(es, u)) - inflightCost
    {
      WeekWindowIsWindowAt(lw.anchor, u);
    }
  }
}
