/** What an account has spent, told from its debits alone: the reference that the windows of
    the ledger and the budget decisions are measured against. */
module Spending {
  import opened Ledger
  import opened AccountBudget

  const FIVE_HOURS := 18000.0
  const A_WEEK := 604800.0

  /** Credits of the debits after `lo`, up to and including `hi`. */
  function Spent(es: seq<Event>, lo: real, hi: real): real {
    if es == [] then 0.0
    else (if lo < es[0].ts && es[0].ts <= hi then es[0].credits else 0.0) + Spent(es[1..], lo, hi)
  }

  /** Credits of the debits from `lo` on, before `hi`. */
  function SpentFrom(es: seq<Event>, lo: real, hi: real): real {
    if es == [] then 0.0
    else (if lo <= es[0].ts && es[0].ts < hi then es[0].credits else 0.0) + SpentFrom(es[1..], lo, hi)
  }

  /** The m-th stretch of time behind an anchor. */
  function Edge(anchor: real, length: real, m: int): real { anchor + m as real * length }

  predicate InCell(anchor: real, length: real, m: int, now: real) {
    Edge(anchor, length, m) <= now < Edge(anchor, length, m + 1)
  }

  /** What counts at that moment, with `more` on top, is within the cap: the stretch behind
      that moment, or the stretch from the anchor that the moment lies in. */
  ghost predicate Affords(es: seq<Event>, anchor: real, length: real, cap: real, more: real, now: real) {
    if anchor == 0.0 then Spent(es, now - length, now) + more <= cap
    else forall m: int :: InCell(anchor, length, m, now) ==>
           SpentFrom(es, Edge(anchor, length, m), Edge(anchor, length, m + 1)) + more <= cap
  }

  /** No stretch of that length, or none from the anchor, ever held more than the cap. */
  ghost predicate NeverSpent(es: seq<Event>, anchor: real, length: real, cap: real) {
    if anchor == 0.0 then forall x: real, y: real :: y == x + length ==> Spent(es, x, y) <= cap
    else forall m: int :: SpentFrom(es, Edge(anchor, length, m), Edge(anchor, length, m + 1)) <= cap
  }

  lemma {:induction false} BurnHead(es: seq<Event>, w: Window)
    requires es != []
    ensures Burn(es, w) == Cost(es[0], w) + Burn(es[1..], w)
  {
    assert es == [es[0]] + es[1..];
    BurnAppend([es[0]], es[1..], w);
    assert [es[0]][..0] == [];
  }

  lemma {:induction false} BurnIsSpent(es: seq<Event>, lo: real, hi: real)
    ensures Burn(es, Trailing(lo, hi)) == Spent(es, lo, hi)
    ensures Burn(es, Fixed(lo, hi)) == SpentFrom(es, lo, hi)
    decreases |es|
  {
    if es != [] {
      BurnHead(es, Trailing(lo, hi));
      BurnHead(es, Fixed(lo, hi));
      BurnIsSpent(es[1..], lo, hi);
    }
  }

  /** What the window in force counts. */
  lemma WindowCounts(es: seq<Event>, anchor: real, length: real, now: real, m: int)
    requires IsWindowLength(length) && UpTo(es, now)
    requires anchor != 0.0 ==> InCell(anchor, length, m, now)
    ensures Burn(es, WindowAt(anchor, length, now))
         == if anchor == 0.0 then Spent(es, now - length, now)
            else SpentFrom(es, Edge(anchor, length, m), Edge(anchor, length, m + 1))
  {
    if anchor == 0.0 {
      BurnSame(es, After(now - length), Trailing(now - length, now));
      BurnIsSpent(es, now - length, now);
    } else {
      var lo, hi := Edge(anchor, length, m), Edge(anchor, length, m + 1);
      CellIsWindow(anchor, length, m, now);
      BurnSame(es, Since(lo), Fixed(lo, hi));
      BurnIsSpent(es, lo, hi);
    }
  }

  lemma CellIsWindow(anchor: real, length: real, m: int, now: real)
    requires IsWindowLength(length) && InCell(anchor, length, m, now)
    ensures WindowStart(anchor, length, now) == Edge(anchor, length, m)
  {
    var k := ((now - anchor) / length).Floor;
    WindowStartBounds(anchor, length, now);
    assert WindowStart(anchor, length, now) == Edge(anchor, length, k);
    assert Edge(anchor, length, k) < Edge(anchor, length, m + 1);
    assert Edge(anchor, length, m) < Edge(anchor, length, k + 1);
    assert k == m;
  }

  lemma OneCell(anchor: real, length: real, now: real) returns (m: int)
    requires IsWindowLength(length)
    ensures InCell(anchor, length, m, now)
  {
    m := ((now - anchor) / length).Floor;
    WindowStartBounds(anchor, length, now);
  }

  /** A limit has room for `more` exactly when it affords it. */
  lemma RoomIsAffords(l: Limit, es: seq<Event>, more: real, now: real)
    requires IsWindowLength(l.length) && UpTo(es, now)
    ensures l.Room(es, now) >= more <==> Affords(es, l.anchor, l.length, l.cap, more, now)
  {
    var m := OneCell(l.anchor, l.length, now);
    WindowCounts(es, l.anchor, l.length, now, m);
    if l.anchor != 0.0 {
      forall k: int | InCell(l.anchor, l.length, k, now) ensures k == m {
        CellIsWindow(l.anchor, l.length, k, now);
        CellIsWindow(l.anchor, l.length, m, now);
      }
    }
  }

  /** The credits an account may commit are what both its limits afford. */
  lemma AvailableIsAffords(es: seq<Event>, reserved: real, anchor: real, base: real, cap5h: real, capWeek: real,
                           cost: real, now: real)
    requires UpTo(es, now) && now >= WIN_WEEK
    ensures Available(es, reserved, anchor, now, cap5h, capWeek, WeekStart(base, now)) >= cost
       <==> Affords(es, anchor, FIVE_HOURS, cap5h, reserved + cost, now)
            && Affords(es, base, A_WEEK, capWeek, reserved + cost, now)
  {
    WeekWindowIsWindowAt(base, now);
    RoomIsAffords(Limit(anchor, WIN_5H, cap5h), es, reserved + cost, now);
    RoomIsAffords(Limit(base, WIN_WEEK, capWeek), es, reserved + cost, now);
  }
}
