/** The per-account credit ledger of the burner: time-stamped debits, read through
    a rolling window ("after") or a fixed window that starts at an anchor ("since"). */
module Ledger {
  const WIN_5H := 18000.0
  const WIN_WEEK := 604800.0
  const DAY := 86400.0

  datatype Event = Event(ts: real, credits: real)

  /** Which debits a window counts. A rolling window excludes its left edge, an
      anchored window includes it. */
  datatype Window =
    | All | After(cut: real) | Since(start: real) | Trailing(lo: real, hi: real) | Fixed(lo: real, hi: real)
  {
    predicate Covers(ts: real) {
      match this
      case All => true
      case After(cut) => ts > cut
      case Since(start) => ts >= start
      case Trailing(lo, hi) => lo < ts <= hi
      case Fixed(lo, hi) => lo <= ts < hi
    }
  }

  ghost predicate NonNegative(es: seq<Event>) {
    forall e :: e in es ==> e.credits >= 0.0
  }

  ghost predicate UpTo(es: seq<Event>, now: real) {
    forall e :: e in es ==> e.ts <= now
  }

  /** Window v counts every debit of es that w counts. */
  ghost predicate Includes(es: seq<Event>, v: Window, w: Window) {
    forall e :: e in es && w.Covers(e.ts) ==> v.Covers(e.ts)
  }

  function Cost(e: Event, w: Window): real {
    if w.Covers(e.ts) then e.credits else 0.0
  }

  /** Credits burned inside a window. */
  function Burn(es: seq<Event>, w: Window): real {
    if es == [] then 0.0 else Burn(es[..|es| - 1], w) + Cost(es[|es| - 1], w)
  }

  lemma {:induction false} BurnSnoc(es: seq<Event>, e: Event, w: Window)
    ensures Burn(es + [e], w) == Burn(es, w) + Cost(e, w)
  {
    assert (es + [e])[..|es|] == es;
  }

  lemma {:induction false} BurnAppend(es: seq<Event>, fs: seq<Event>, w: Window)
    ensures Burn(es + fs, w) == Burn(es, w) + Burn(fs, w)
  {
    if fs == [] {
      assert es + fs == es;
    } else {
      var init := fs[..|fs| - 1];
      assert es + fs == (es + init) + [fs[|fs| - 1]];
      BurnSnoc(es + init, fs[|fs| - 1], w);
      BurnAppend(es, init, w);
    }
  }

  lemma {:induction false} BurnNonNegative(es: seq<Event>, w: Window)
    requires NonNegative(es)
    ensures Burn(es, w) >= 0.0
  {
    if es != [] {
      BurnNonNegative(es[..|es| - 1], w);
    }
  }

  /** A window that counts more burns at least as much. */
  lemma {:induction false} BurnMonotone(es: seq<Event>, v: Window, w: Window)
    requires NonNegative(es) && Includes(es, v, w)
    ensures Burn(es, w) <= Burn(es, v)
  {
    if es != [] {
      BurnMonotone(es[..|es| - 1], v, w);
      assert es[|es| - 1] in es;
    }
  }

  lemma {:induction false} BurnNothing(es: seq<Event>, w: Window)
    requires forall e :: e in es ==> !w.Covers(e.ts)
    ensures Burn(es, w) == 0.0
  {
    if es != [] {
      BurnNothing(es[..|es| - 1], w);
      assert es[|es| - 1] in es;
    }
  }

  lemma {:induction false} BurnSame(es: seq<Event>, v: Window, w: Window)
    requires Includes(es, v, w) && Includes(es, w, v)
    ensures Burn(es, v) == Burn(es, w)
  {
    if es != [] {
      BurnSame(es[..|es| - 1], v, w);
      assert es[|es| - 1] in es;
    }
  }

  // ---- Selecting and sorting debits --------------------------------------

  /** The debits a window counts, in ledger order. */
  function Select(es: seq<Event>, w: Window): seq<Event> {
    if es == [] then []
    else Select(es[..|es| - 1], w) + (if w.Covers(es[|es| - 1].ts) then [es[|es| - 1]] else [])
  }

  /** Dropping the debits outside w is invisible to every window inside w. */
  lemma {:induction false} BurnSelect(es: seq<Event>, w: Window, v: Window)
    requires Includes(es, w, v)
    ensures Burn(Select(es, w), v) == Burn(es, v)
  {
    if es != [] {
      var init, e := es[..|es| - 1], es[|es| - 1];
      IncludesFront(es, w, v);
      BurnSelect(init, w, v);
      BurnSelectStep(init, e, w, v);
      assert es == init + [e];
    }
  }

  lemma IncludesFront(es: seq<Event>, w: Window, v: Window)
    requires es != [] && Includes(es, w, v)
    ensures Includes(es[..|es| - 1], w, v)
    ensures v.Covers(es[|es| - 1].ts) ==> w.Covers(es[|es| - 1].ts)
  {
    assert es[|es| - 1] in es && forall x :: x in es[..|es| - 1] ==> x in es;
  }

  lemma BurnSelectStep(init: seq<Event>, e: Event, w: Window, v: Window)
    requires Burn(Select(init, w), v) == Burn(init, v) && (v.Covers(e.ts) ==> w.Covers(e.ts))
    ensures Burn(Select(init + [e], w), v) == Burn(init + [e], v)
  {
    SelectSnoc(init, e, w);
    BurnSnoc(Select(init, w), e, v);
    BurnSnoc(init, e, v);
  }

  lemma SelectSnoc(es: seq<Event>, e: Event, w: Window)
    ensures Select(es + [e], w) == if w.Covers(e.ts) then Select(es, w) + [e] else Select(es, w)
  {
    assert (es + [e])[..|es|] == es;
  }

  lemma {:induction false} SelectTotal(es: seq<Event>, w: Window)
    ensures Burn(Select(es, w), All) == Burn(es, w)
  {
    SelectMembers(es, w);
    BurnSame(Select(es, w), All, w);
    BurnSelect(es, w, w);
  }

  predicate Before(a: Event, b: Event) {
    a.ts < b.ts || (a.ts == b.ts && a.credits <= b.credits)
  }

  ghost predicate IsSorted(es: seq<Event>) {
    forall i, j :: 0 <= i < j < |es| ==> es[i].ts <= es[j].ts
  }

  lemma {:induction false} SelectMembers(es: seq<Event>, w: Window)
    ensures forall e :: e in Select(es, w) <==> e in es && w.Covers(e.ts)
  {
    if es != [] {
      SelectMembers(es[..|es| - 1], w);
      assert es == es[..|es| - 1] + [es[|es| - 1]];
    }
  }

  function Insert(e: Event, es: seq<Event>): seq<Event> {
    if es == [] || Before(es[|es| - 1], e) then es + [e]
    else Insert(e, es[..|es| - 1]) + [es[|es| - 1]]
  }

  /** The order Python's sorted() gives pairs: by time, ties by amount. */
  function Sorted(es: seq<Event>): seq<Event> {
    if es == [] then [] else Insert(es[|es| - 1], Sorted(es[..|es| - 1]))
  }

  lemma {:induction false} InsertMembers(e: Event, es: seq<Event>)
    ensures multiset(Insert(e, es)) == multiset(es) + multiset{e}
  {
    if es == [] || Before(es[|es| - 1], e) {
    } else {
      InsertMembers(e, es[..|es| - 1]);
      assert es == es[..|es| - 1] + [es[|es| - 1]];
    }
  }

  lemma {:induction false} SortedMembers(es: seq<Event>)
    ensures multiset(Sorted(es)) == multiset(es)
  {
    if es != [] {
      SortedMembers(es[..|es| - 1]);
      InsertMembers(es[|es| - 1], Sorted(es[..|es| - 1]));
      assert es == es[..|es| - 1] + [es[|es| - 1]];
    }
  }

  lemma {:induction false} InsertSorted(e: Event, es: seq<Event>)
    requires IsSorted(es)
    ensures IsSorted(Insert(e, es))
  {
    if es == [] || Before(es[|es| - 1], e) {
    } else {
      var init, last := es[..|es| - 1], es[|es| - 1];
      InsertSorted(e, init);
      InsertMembers(e, init);
      var r := Insert(e, init);
      forall i | 0 <= i < |r| ensures r[i].ts <= last.ts {
        assert r[i] in multiset(r);
        if r[i] != e {
          assert r[i] in init;
        }
      }
    }
  }

  lemma {:induction false} InsertBurn(e: Event, es: seq<Event>, w: Window)
    ensures Burn(Insert(e, es), w) == Burn(es, w) + Cost(e, w)
  {
    if es == [] || Before(es[|es| - 1], e) {
      BurnSnoc(es, e, w);
    } else {
      InsertBurn(e, es[..|es| - 1], w);
      BurnSnoc(Insert(e, es[..|es| - 1]), es[|es| - 1], w);
    }
  }

  /** Sorting orders the debits by time and changes the burn of no window. */
  lemma {:induction false} SortedIsSorted(es: seq<Event>)
    ensures IsSorted(Sorted(es))
  {
    if es != [] {
      SortedIsSorted(es[..|es| - 1]);
      InsertSorted(es[|es| - 1], Sorted(es[..|es| - 1]));
    }
  }

  lemma {:induction false} SortedBurn(es: seq<Event>, w: Window)
    ensures Burn(Sorted(es), w) == Burn(es, w)
  {
    if es != [] {
      SortedBurn(es[..|es| - 1], w);
      InsertBurn(es[|es| - 1], Sorted(es[..|es| - 1]), w);
    }
  }

  // ---- Fixed windows -------------------------------------------------------

  /** Start of the fixed window of the given length that contains now. */
  function WindowStart(anchor: real, length: real, now: real): real
    requires length > 0.0
  {
    anchor + ((now - anchor) / length).Floor as real * length
  }

  /** The window in force at a moment: fixed when there is an anchor, else rolling.
      An anchor of 0.0 means "not configured". */
  function WindowAt(anchor: real, length: real, now: real): Window
    requires length > 0.0
  {
    if anchor == 0.0 then After(now - length) else Since(WindowStart(anchor, length, now))
  }

  predicate IsWindowLength(length: real) {
    length == WIN_5H || length == WIN_WEEK
  }

  lemma WindowStartBounds(anchor: real, length: real, now: real)
    requires IsWindowLength(length)
    ensures WindowStart(anchor, length, now) <= now < WindowStart(anchor, length, now) + length
  {
    var q := (now - anchor) / length;
    assert q * length == now - anchor;
    assert q.Floor as real <= q < q.Floor as real + 1.0;
  }

  /** Within one fixed window the start does not move; past its end it has moved
      by at least one length. */
  lemma WindowStartSteps(anchor: real, length: real, now: real, t: real)
    requires IsWindowLength(length) && now <= t
    ensures t < WindowStart(anchor, length, now) + length ==>
              WindowStart(anchor, length, t) == WindowStart(anchor, length, now)
    ensures t >= WindowStart(anchor, length, now) + length ==>
              WindowStart(anchor, length, t) >= WindowStart(anchor, length, now) + length
    ensures WindowStart(anchor, length, t) >= WindowStart(anchor, length, now)
  {
    var k := ((now - anchor) / length).Floor;
    var m := ((t - anchor) / length).Floor;
    WindowStartBounds(anchor, length, now);
    WindowStartBounds(anchor, length, t);
    assert k as real * length < (m as real + 1.0) * length;
    assert k < m + 1;
    if t < WindowStart(anchor, length, now) + length {
      assert m as real * length < (k as real + 1.0) * length;
      assert m < k + 1;
    } else {
      assert (k as real + 1.0) * length < (m as real + 1.0) * length;
      assert k + 1 < m + 1;
    }
  }

  /** As time passes a window only forgets. */
  lemma WindowForgets(es: seq<Event>, anchor: real, length: real, now: real, t: real)
    requires IsWindowLength(length) && now <= t
    ensures Includes(es, WindowAt(anchor, length, now), WindowAt(anchor, length, t))
  {
    WindowStartSteps(anchor, length, now, t);
  }

  /** No window reaches back further than its own length. */
  lemma WindowReach(anchor: real, length: real, t: real, ts: real)
    requires IsWindowLength(length)
    ensures WindowAt(anchor, length, t).Covers(ts) ==> ts > t - length
  {
    WindowStartBounds(anchor, length, t);
  }
}
