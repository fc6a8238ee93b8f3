/** Rotation orders of the key pool. */
module Rotation {

  /** A selectable key; ids are compared as the source compares them. */
  datatype Key = Key(id: int, priority: int, failures: int, successRate: real, lastUsed: real, latency: real)

  // ---- Priority bands ---------------------------------------------------------

  function Band(keys: seq<Key>, priority: int): seq<Key> {
    if keys == [] then []
    else Band(keys[..|keys| - 1], priority)
         + (if keys[|keys| - 1].priority == priority then [keys[|keys| - 1]] else [])
  }

  function Outside(keys: seq<Key>, priority: int): seq<Key> {
    if keys == [] then []
    else Outside(keys[..|keys| - 1], priority)
         + (if keys[|keys| - 1].priority != priority then [keys[|keys| - 1]] else [])
  }

  lemma {:induction false} Split(keys: seq<Key>, priority: int)
    ensures multiset(keys) == multiset(Band(keys, priority)) + multiset(Outside(keys, priority))
    ensures |keys| == |Band(keys, priority)| + |Outside(keys, priority)|
    ensures forall k :: k in Band(keys, priority) ==> k.priority == priority
    ensures forall k :: k in Outside(keys, priority) ==> k.priority != priority
    ensures forall k :: k in keys <==> k in Band(keys, priority) || k in Outside(keys, priority)
  {
    SplitCounts(keys, priority);
    SplitPriorities(keys, priority);
    forall k ensures k in keys <==> k in Band(keys, priority) || k in Outside(keys, priority) {
      assert k in keys <==> k in multiset(keys);
    }
  }

  lemma {:induction false} SplitCounts(keys: seq<Key>, priority: int)
    ensures multiset(keys) == multiset(Band(keys, priority)) + multiset(Outside(keys, priority))
    ensures |keys| == |Band(keys, priority)| + |Outside(keys, priority)|
  {
    if keys != [] {
      var front, last := keys[..|keys| - 1], keys[|keys| - 1];
      SplitCounts(front, priority);
      assert keys == front + [last];
    }
  }

  lemma {:induction false} SplitPriorities(keys: seq<Key>, priority: int)
    ensures forall k :: k in Band(keys, priority) ==> k.priority == priority
    ensures forall k :: k in Outside(keys, priority) ==> k.priority != priority
  {
    if keys != [] {
      SplitPriorities(keys[..|keys| - 1], priority);
    }
  }

  function Top(keys: seq<Key>): int
    requires keys != []
  {
    var last := keys[|keys| - 1].priority;
    if |keys| == 1 then last
    else
      var p := Top(keys[..|keys| - 1]);
      if last > p then last else p
  }

  lemma {:induction false} TopIsHighest(keys: seq<Key>)
    requires keys != []
    ensures exists k :: k in keys && k.priority == Top(keys)
    ensures forall k :: k in keys ==> k.priority <= Top(keys)
  {
    var front, last := keys[..|keys| - 1], keys[|keys| - 1];
    assert keys == front + [last];
    assert last in keys;
    if |keys| > 1 {
      TopIsHighest(front);
      var k :| k in front && k.priority == Top(front);
      assert k in keys;
    }
  }

  // ---- Sorting ------------------------------------------------------------------------

  datatype Strategy = IdOnly | Priority | LeastFailures | Fastest

  /** A sort key: compared component by component. */
  datatype Rank = Rank(a: real, b: real, c: real, d: real, id: int)

  /** A key without an observed latency counts as infinitely slow. */
  function RankOf(s: Strategy, k: Key): Rank {
    match s
    case IdOnly => Rank(0.0, 0.0, 0.0, 0.0, k.id)
    case Priority => Rank(-k.priority as real, k.failures as real, k.lastUsed, 0.0, k.id)
    case LeastFailures => Rank(k.failures as real, -k.successRate, -k.priority as real, k.lastUsed, k.id)
    case Fastest =>
      if k.latency > 0.0 then Rank(0.0, k.latency, -k.priority as real, 0.0, k.id)
      else Rank(1.0, 0.0, -k.priority as real, 0.0, k.id)
  }

  predicate AtMost(x: Rank, y: Rank) {
    if x.a != y.a then x.a < y.a
    else if x.b != y.b then x.b < y.b
    else if x.c != y.c then x.c < y.c
    else if x.d != y.d then x.d < y.d
    else x.id <= y.id
  }

  function Insert(s: Strategy, k: Key, keys: seq<Key>): seq<Key> {
    if keys == [] || AtMost(RankOf(s, keys[|keys| - 1]), RankOf(s, k)) then keys + [k]
    else Insert(s, k, keys[..|keys| - 1]) + [keys[|keys| - 1]]
  }

  /** The order of a sorted strategy; equal keys keep their order. */
  function Sorted(s: Strategy, keys: seq<Key>): seq<Key> {
    if keys == [] then [] else Insert(s, keys[|keys| - 1], Sorted(s, keys[..|keys| - 1]))
  }

  function ById(keys: seq<Key>): seq<Key> { Sorted(IdOnly, keys) }

  ghost predicate InOrder(s: Strategy, keys: seq<Key>) {
    forall i, j :: 0 <= i < j < |keys| ==> AtMost(RankOf(s, keys[i]), RankOf(s, keys[j]))
  }

  lemma {:induction false} InsertKeeps(s: Strategy, k: Key, keys: seq<Key>)
    ensures multiset(Insert(s, k, keys)) == multiset(keys) + multiset{k}
    ensures |Insert(s, k, keys)| == |keys| + 1
  {
    if keys == [] || AtMost(RankOf(s, keys[|keys| - 1]), RankOf(s, k)) {
    } else {
      InsertKeeps(s, k, keys[..|keys| - 1]);
      assert keys == keys[..|keys| - 1] + [keys[|keys| - 1]];
    }
  }

  lemma {:induction false} SortedKeeps(s: Strategy, keys: seq<Key>)
    ensures multiset(Sorted(s, keys)) == multiset(keys) && |Sorted(s, keys)| == |keys|
  {
    if keys != [] {
      var front, last := keys[..|keys| - 1], keys[|keys| - 1];
      assert keys == front + [last];
      SortedKeeps(s, front);
      InsertKeeps(s, last, Sorted(s, front));
      SortedSnoc(s, front, last);
      InsertedCounts(keys, front, last, Sorted(s, front), Sorted(s, keys));
    }
  }

  lemma SortedSnoc(s: Strategy, front: seq<Key>, last: Key)
    ensures Sorted(s, front + [last]) == Insert(s, last, Sorted(s, front))
  {
    assert (front + [last])[..|front|] == front;
  }

  lemma InsertedCounts(keys: seq<Key>, front: seq<Key>, last: Key, sorted: seq<Key>, inserted: seq<Key>)
    requires keys == front + [last] && multiset(sorted) == multiset(front) && |sorted| == |front|
    requires multiset(inserted) == multiset(sorted) + multiset{last} && |inserted| == |sorted| + 1
    ensures multiset(inserted) == multiset(keys) && |inserted| == |keys|
  {
  }

  lemma ByIdKeeps(keys: seq<Key>)
    ensures multiset(ById(keys)) == multiset(keys) && |ById(keys)| == |keys|
  {
    SortedKeeps(IdOnly, keys);
  }

  lemma {:induction false} InsertInOrder(s: Strategy, k: Key, keys: seq<Key>)
    requires InOrder(s, keys)
    ensures InOrder(s, Insert(s, k, keys))
  {
    if keys == [] {
    } else if AtMost(RankOf(s, keys[|keys| - 1]), RankOf(s, k)) {
      LastInOrder(s, keys, k);
    } else {
      var front, last := keys[..|keys| - 1], keys[|keys| - 1];
      InsertInOrder(s, k, front);
      InsertKeeps(s, k, front);
      var r := Insert(s, k, front);
      forall x | x in r ensures AtMost(RankOf(s, x), RankOf(s, last)) {
        assert x in multiset(r);
        assert x == k || x in front;
      }
      forall i, j | 0 <= i < j < |r + [last]| ensures AtMost(RankOf(s, (r + [last])[i]), RankOf(s, (r + [last])[j])) {
        assert r[i] in r;
      }
    }
  }

  lemma LastInOrder(s: Strategy, keys: seq<Key>, k: Key)
    requires keys != [] && InOrder(s, keys) && AtMost(RankOf(s, keys[|keys| - 1]), RankOf(s, k))
    ensures InOrder(s, keys + [k])
  {
    var n := |keys| - 1;
    forall i | 0 <= i <= n ensures AtMost(RankOf(s, keys[i]), RankOf(s, k)) {
      assert i < n ==> AtMost(RankOf(s, keys[i]), RankOf(s, keys[n]));
    }
  }

  /** A sorted strategy tries every key exactly once, in the order of its criteria. */
  lemma {:induction false} StrategySorts(s: Strategy, keys: seq<Key>)
    ensures multiset(Sorted(s, keys)) == multiset(keys)
    ensures InOrder(s, Sorted(s, keys))
  {
    SortedKeeps(s, keys);
    if keys != [] {
      StrategySorts(s, keys[..|keys| - 1]);
      InsertInOrder(s, keys[|keys| - 1], Sorted(s, keys[..|keys| - 1]));
    }
  }

  /** With distinct ids that order is the only one: nothing depends on how the keys stood. */
  lemma {:induction false} OrderIsUnique(s: Strategy, a: seq<Key>, b: seq<Key>)
    requires InOrder(s, a) && InOrder(s, b) && multiset(a) == multiset(b)
    requires forall i, j :: 0 <= i < j < |a| ==> a[i].id != a[j].id
    ensures a == b
  {
    SameLength(a, b);
    if a != [] {
      var n := |a| - 1;
      SameLast(s, a, b);
      SameFront(a, b);
      OrderIsUnique(s, a[..n], b[..n]);
      assert a == a[..n] + [a[n]] && b == b[..n] + [b[n]];
    }
  }

  lemma SameLength(a: seq<Key>, b: seq<Key>)
    requires multiset(a) == multiset(b)
    ensures |a| == |b|
  {
    assert |a| == |multiset(a)| && |b| == |multiset(b)|;
  }

  lemma SameFront(a: seq<Key>, b: seq<Key>)
    requires multiset(a) == multiset(b) && a != [] && |a| == |b| && a[|a| - 1] == b[|b| - 1]
    ensures multiset(a[..|a| - 1]) == multiset(b[..|b| - 1])
  {
    var n := |a| - 1;
    assert a == a[..n] + [a[n]] && b == b[..n] + [b[n]];
    assert multiset(a[..n]) == multiset(a) - multiset{a[n]};
    assert multiset(b[..n]) == multiset(b) - multiset{b[n]};
  }

  lemma SameLast(s: Strategy, a: seq<Key>, b: seq<Key>)
    requires InOrder(s, a) && InOrder(s, b) && multiset(a) == multiset(b) && a != [] && |a| == |b|
    requires forall i, j :: 0 <= i < j < |a| ==> a[i].id != a[j].id
    ensures a[|a| - 1] == b[|b| - 1]
  {
    var n := |a| - 1;
    assert a[n] in multiset(a) && b[n] in multiset(b);
    assert a[n] in b && b[n] in a;
    var i :| 0 <= i < |b| && b[i] == a[n];
    var j :| 0 <= j < |a| && a[j] == b[n];
    assert AtMost(RankOf(s, b[i]), RankOf(s, b[n]));
    assert AtMost(RankOf(s, a[j]), RankOf(s, a[n]));
  }

  /** Higher priorities come first. */
  ghost predicate Banded(keys: seq<Key>) {
    forall i, j :: 0 <= i < j < |keys| ==> keys[i].priority >= keys[j].priority
  }

  /** A whole band in front of lower ones keeps the list banded. */
  lemma BandPrepended(band: seq<Key>, tail: seq<Key>, p: int)
    requires Banded(tail) && (forall k :: k in tail ==> k.priority < p) && (forall k :: k in band ==> k.priority == p)
    ensures Banded(band + tail)
  {
    var all := band + tail;
    forall i, j | 0 <= i < j < |all| ensures all[i].priority >= all[j].priority {
      assert i < |band| ==> all[i] in band;
      assert j < |band| ==> all[j] in band;
      assert i >= |band| ==> all[i] == tail[i - |band|];
      assert j >= |band| ==> all[j] == tail[j - |band|] && all[j] in tail;
    }
  }

  // ---- Round robin ----------------------------------------------------------------

  function Rotate(band: seq<Key>, start: nat): seq<Key>
    requires start <= |band|
  {
    band[start..] + band[..start]
  }

  /** Where a band starts, given its saved cursor. */
  function StartOf(cursor: map<int, nat>, priority: int, size: nat): (start: nat)
    requires size > 0
    ensures start < size
  {
    (if priority in cursor then cursor[priority] else 0) % size
  }

  /** The next start, round the band. */
  function Following(start: nat, size: nat): nat
    requires size > 0
  {
    (start + 1) % size
  }

  /** One band of the result, and the cursors after it. */
  function Turned(keys: seq<Key>, cursor: map<int, nat>, p: int): seq<Key>
    requires Band(keys, p) != []
  {
    ByIdKeeps(Band(keys, p));
    Rotate(ById(Band(keys, p)), StartOf(cursor, p, |Band(keys, p)|))
  }

  function Moved(keys: seq<Key>, cursor: map<int, nat>, p: int): map<int, nat>
    requires Band(keys, p) != []
  {
    cursor[p := Following(StartOf(cursor, p, |Band(keys, p)|), |Band(keys, p)|)]
  }

  /** The keys in the order one call tries them: bands by descending priority, each
      sorted by id and rotated by its cursor. */
  function Arranged(keys: seq<Key>, cursor: map<int, nat>): seq<Key>
    decreases |keys|
  {
    if keys == [] then []
    else
      var p := Top(keys);
      TopBand(keys);
      Turned(keys, cursor, p) + Arranged(Outside(keys, p), Moved(keys, cursor, p))
  }

  /** The cursors after that call. */
  function Advanced(keys: seq<Key>, cursor: map<int, nat>): map<int, nat>
    decreases |keys|
  {
    if keys == [] then cursor
    else
      var p := Top(keys);
      TopBand(keys);
      Advanced(Outside(keys, p), Moved(keys, cursor, p))
  }

  lemma TopBand(keys: seq<Key>)
    requires keys != []
    ensures Band(keys, Top(keys)) != [] && |Outside(keys, Top(keys))| < |keys|
  {
    var p := Top(keys);
    TopIsHighest(keys);
    Split(keys, p);
    var k :| k in keys && k.priority == p;
    assert k in Band(keys, p);
  }

  class RoundRobin {
    var cursor: map<int, nat>

    constructor ()
      ensures cursor == map[]
    {
      cursor := map[];
    }

    method Order(keys: seq<Key>) returns (ordered: seq<Key>)
      modifies this
      ensures ordered == Arranged(keys, old(cursor)) && cursor == Advanced(keys, old(cursor))
    {
      ordered := [];
      var rest := keys;
      while rest != []
        invariant ordered + Arranged(rest, cursor) == Arranged(keys, old(cursor))
        invariant Advanced(rest, cursor) == Advanced(keys, old(cursor))
        decreases |rest|
      {
        TopBand(rest);
        UnfoldArranged(rest, cursor);
        UnfoldAdvanced(rest, cursor);
        var p := Top(rest);
        ghost var later := Arranged(Outside(rest, p), Moved(rest, cursor, p));
        var turned := Turn(p, rest);
        Assoc(ordered, turned, later);
        ordered := ordered + turned;
        rest := Outside(rest, p);
      }
    }

    /** One band: sort its keys by id, rotate them by the cursor, move the cursor on. */
    method Turn(p: int, keys: seq<Key>) returns (turned: seq<Key>)
      requires Band(keys, p) != []
      modifies this
      ensures turned == Turned(keys, old(cursor), p) && cursor == Moved(keys, old(cursor), p)
    {
      var bucket := Band(keys, p);
      ByIdKeeps(bucket);
      var start := StartOf(cursor, p, |bucket|);
      turned := Rotate(ById(bucket), start);
      cursor := cursor[p := Following(start, |bucket|)];
    }
  }

  lemma UnfoldArranged(keys: seq<Key>, cursor: map<int, nat>)
    requires keys != [] && Band(keys, Top(keys)) != []
    ensures Arranged(keys, cursor)
         == Turned(keys, cursor, Top(keys)) + Arranged(Outside(keys, Top(keys)), Moved(keys, cursor, Top(keys)))
  {
  }

  lemma UnfoldAdvanced(keys: seq<Key>, cursor: map<int, nat>)
    requires keys != [] && Band(keys, Top(keys)) != []
    ensures Advanced(keys, cursor) == Advanced(Outside(keys, Top(keys)), Moved(keys, cursor, Top(keys)))
  {
  }

  lemma Assoc(a: seq<Key>, b: seq<Key>, c: seq<Key>)
    ensures (a + b) + c == a + (b + c)
  {
  }

  lemma TurnedKeeps(keys: seq<Key>, cursor: map<int, nat>, p: int)
    requires Band(keys, p) != []
    ensures multiset(Turned(keys, cursor, p)) == multiset(Band(keys, p))
    ensures forall k :: k in Turned(keys, cursor, p) ==> k.priority == p
  {
    var band := Band(keys, p);
    ByIdKeeps(band);
    RotateKeeps(ById(band), StartOf(cursor, p, |band|));
    Split(keys, p);
    SamePriority(band, Turned(keys, cursor, p), p);
  }

  lemma LowerRest(keys: seq<Key>, tail: seq<Key>)
    requires keys != [] && multiset(tail) == multiset(Outside(keys, Top(keys)))
    ensures forall k :: k in tail ==> k.priority < Top(keys)
  {
    TopIsHighest(keys);
    Split(keys, Top(keys));
    forall k | k in tail ensures k.priority < Top(keys) {
      assert k in multiset(tail);
      assert k in Outside(keys, Top(keys));
    }
  }

  /** Every key is tried exactly once, higher priorities first. */
  lemma {:induction false} ArrangedIsBandedPermutation(keys: seq<Key>, cursor: map<int, nat>)
    ensures multiset(Arranged(keys, cursor)) == multiset(keys)
    ensures Banded(Arranged(keys, cursor))
    decreases |keys|
  {
    if keys != [] {
      var p := Top(keys);
      TopBand(keys);
      var head, rest, next := Turned(keys, cursor, p), Outside(keys, p), Moved(keys, cursor, p);
      ArrangedIsBandedPermutation(rest, next);
      TurnedKeeps(keys, cursor, p);
      LowerRest(keys, Arranged(rest, next));
      BandPrepended(head, Arranged(rest, next), p);
      assert multiset(keys) == multiset(Band(keys, p)) + multiset(rest) by {
        Split(keys, p);
      }
    }
  }

  /** The cursor of band q after a call on the keys. */
  ghost predicate CursorMoved(keys: seq<Key>, before: map<int, nat>, after: map<int, nat>, q: int) {
    if Band(keys, q) != [] then
      q in after && after[q] == Following(StartOf(before, q, |Band(keys, q)|), |Band(keys, q)|)
    else
      (q in after <==> q in before) && (q in before ==> after[q] == before[q])
  }

  /** Every band moves on its own cursor by one; the cursors of absent bands stay. */
  lemma {:induction false} AdvancedCursor(keys: seq<Key>, cursor: map<int, nat>, q: int)
    ensures CursorMoved(keys, cursor, Advanced(keys, cursor), q)
    decreases |keys|
  {
    if keys == [] {
      assert Band(keys, q) == [];
    } else {
      var p := Top(keys);
      TopBand(keys);
      AdvancedCursor(Outside(keys, p), Moved(keys, cursor, p), q);
      UnfoldAdvanced(keys, cursor);
      CursorAfterBand(keys, cursor, Advanced(keys, cursor), p, q);
    }
  }

  lemma CursorAfterBand(keys: seq<Key>, cursor: map<int, nat>, after: map<int, nat>, p: int, q: int)
    requires Band(keys, p) != [] && CursorMoved(Outside(keys, p), Moved(keys, cursor, p), after, q)
    ensures CursorMoved(keys, cursor, after, q)
  {
    var band, rest, n := Band(keys, p), Outside(keys, p), |Band(keys, p)|;
    if q == p {
      SplitPriorities(keys, p);
      NoBand(rest, p);
      assert after[p] == Moved(keys, cursor, p)[p];
    } else {
      OutsideBand(keys, p, q);
      OtherCursor(cursor, p, Following(StartOf(cursor, p, n), n), q);
    }
  }

  lemma OtherCursor(cursor: map<int, nat>, p: int, x: nat, q: int)
    requires q != p
    ensures q in cursor[p := x] <==> q in cursor
    ensures q in cursor ==> cursor[p := x][q] == cursor[q]
    ensures forall size: nat :: size > 0 ==> StartOf(cursor[p := x], q, size) == StartOf(cursor, q, size)
  {
  }

  /** Every band stands in the result sorted by id and rotated by its own cursor. */
  lemma {:induction false} ArrangedBand(keys: seq<Key>, cursor: map<int, nat>, q: int)
    ensures Band(Arranged(keys, cursor), q) == if Band(keys, q) == [] then [] else Turned(keys, cursor, q)
    decreases |keys|
  {
    if keys != [] {
      var p := Top(keys);
      TopBand(keys);
      ArrangedBand(Outside(keys, p), Moved(keys, cursor, p), q);
      UnfoldArranged(keys, cursor);
      HeadBand(keys, cursor, Arranged(Outside(keys, p), Moved(keys, cursor, p)), q);
      LaterBand(keys, cursor, p, q);
    }
  }

  /** What the rest of the call does to band q, once band p has been turned. */
  lemma LaterBand(keys: seq<Key>, cursor: map<int, nat>, p: int, q: int)
    requires Band(keys, p) != []
    ensures q == p ==> Band(Outside(keys, p), q) == []
    ensures q != p ==> Band(Outside(keys, p), q) == Band(keys, q)
    ensures q != p && Band(keys, q) != [] ==>
              Turned(Outside(keys, p), Moved(keys, cursor, p), q) == Turned(keys, cursor, q)
  {
    if q == p {
      Split(keys, p);
      NoBand(Outside(keys, p), p);
    } else {
      OutsideBand(keys, p, q);
    }
  }

  lemma HeadBand(keys: seq<Key>, cursor: map<int, nat>, tail: seq<Key>, q: int)
    requires keys != [] && Band(keys, Top(keys)) != []
    ensures var head := Turned(keys, cursor, Top(keys));
            Band(head + tail, q) == if q == Top(keys) then head + Band(tail, q) else Band(tail, q)
  {
    var p := Top(keys);
    TurnedKeeps(keys, cursor, p);
    BandAppend(Turned(keys, cursor, p), tail, q);
    BandAll(Turned(keys, cursor, p), p, q);
  }

  lemma RotateKeeps(band: seq<Key>, start: nat)
    requires start <= |band|
    ensures multiset(Rotate(band, start)) == multiset(band)
  {
    assert band == band[..start] + band[start..];
  }

  lemma SamePriority(band: seq<Key>, r: seq<Key>, p: int)
    requires multiset(r) == multiset(band) && forall k :: k in band ==> k.priority == p
    ensures forall k :: k in r ==> k.priority == p
  {
    forall k | k in r ensures k.priority == p {
      assert k in multiset(r);
    }
  }

  lemma {:induction false} BandAppend(a: seq<Key>, b: seq<Key>, p: int)
    ensures Band(a + b, p) == Band(a, p) + Band(b, p)
  {
    if b == [] {
      assert a + b == a;
    } else {
      assert (a + b)[..|a + b| - 1] == a + b[..|b| - 1];
      BandAppend(a, b[..|b| - 1], p);
    }
  }

  lemma BandAll(r: seq<Key>, p: int, q: int)
    requires forall k :: k in r ==> k.priority == p
    ensures Band(r, p) == r
    ensures q != p ==> Band(r, q) == []
  {
    OneBand(r, p);
    if q != p {
      NoBand(r, q);
    }
  }

  lemma {:induction false} OneBand(r: seq<Key>, p: int)
    requires forall i :: 0 <= i < |r| ==> r[i].priority == p
    ensures Band(r, p) == r
  {
    if r != [] {
      var front, last := r[..|r| - 1], r[|r| - 1];
      OneBand(front, p);
      assert r == front + [last];
    }
  }

  lemma {:induction false} OutsideBand(keys: seq<Key>, p: int, q: int)
    requires p != q
    ensures Band(Outside(keys, p), q) == Band(keys, q)
  {
    if keys != [] {
      var n := |keys| - 1;
      OutsideBand(keys[..n], p, q);
      if keys[n].priority != p {
        BandAppend(Outside(keys[..n], p), [keys[n]], q);
        assert [keys[n]][..0] == [];
      } else {
        assert Outside(keys, p) == Outside(keys[..n], p);
      }
    }
  }

  lemma {:induction false} NoBand(keys: seq<Key>, p: int)
    requires forall k :: k in keys ==> k.priority != p
    ensures Band(keys, p) == []
  {
    if keys != [] {
      assert keys[|keys| - 1] in keys;
      assert forall k :: k in keys[..|keys| - 1] ==> k in keys;
      NoBand(keys[..|keys| - 1], p);
    }
  }

  // ---- Fairness ----------------------------------------------------------------------

  /** The cursors after the first t calls, one on each list of keys. */
  function Calls(lists: seq<seq<Key>>, cursor: map<int, nat>, t: nat): map<int, nat>
    requires t <= |lists|
  {
    if t == 0 then cursor else Advanced(lists[t - 1], Calls(lists, cursor, t - 1))
  }

  /** Whatever else comes and goes, the keys of priority q are the same in every list. */
  ghost predicate Unchanged(lists: seq<seq<Key>>, q: int, band: seq<Key>) {
    forall t :: 0 <= t < |lists| ==> Band(lists[t], q) == band
  }

  lemma Wrap(x: nat, n: nat)
    requires x < n
    ensures x % n == x && (x + 1) % n == if x + 1 < n then x + 1 else 0
  {
    if x + 1 == n {
      assert n % n == 0;
    }
  }

  lemma {:induction false} StartAfter(lists: seq<seq<Key>>, cursor: map<int, nat>, q: int, band: seq<Key>, t: nat)
    requires Unchanged(lists, q, band) && t < |band| && t <= |lists|
    ensures var n, s := |band|, StartOf(cursor, q, |band|);
            StartOf(Calls(lists, cursor, t), q, n) == if s + t < n then s + t else s + t - n
  {
    var n := |band|;
    if t > 0 {
      StartAfter(lists, cursor, q, band, t - 1);
      AdvancedCursor(lists[t - 1], Calls(lists, cursor, t - 1), q);
      var x := StartOf(Calls(lists, cursor, t - 1), q, n);
      Wrap(x, n);
      Wrap((x + 1) % n, n);
    }
  }

  /** Call t puts key i of the sorted band first in its band. */
  ghost predicate Leads(lists: seq<seq<Key>>, cursor: map<int, nat>, q: int, band: seq<Key>, t: nat, i: nat)
    requires t <= |lists| && band != []
  {
    StartOf(Calls(lists, cursor, t), q, |band|) == i
  }

  lemma LeaderStandsFirst(lists: seq<seq<Key>>, cursor: map<int, nat>, q: int, band: seq<Key>, t: nat, i: nat)
    requires Unchanged(lists, q, band) && t < |lists| && i < |band| && Leads(lists, cursor, q, band, t, i)
    ensures var first := Band(Arranged(lists[t], Calls(lists, cursor, t)), q);
            |ById(band)| == |band| && first != [] && first[0] == ById(band)[i]
  {
    ByIdKeeps(band);
    ArrangedBand(lists[t], Calls(lists, cursor, t), q);
  }

  /** In any n consecutive calls on a band of n keys that itself stays unchanged, whatever
      the other bands do, each of its keys stands first in exactly one. */
  lemma EachKeyLeadsOnce(lists: seq<seq<Key>>, cursor: map<int, nat>, q: int, band: seq<Key>, i: nat)
    requires Unchanged(lists, q, band) && |lists| >= |band| > i
    ensures exists t :: t in Turns(lists, cursor, q, band, i)
    ensures forall t, u :: t in Turns(lists, cursor, q, band, i) && u in Turns(lists, cursor, q, band, i) ==> t == u
  {
    var n := |band|;
    var s := StartOf(cursor, q, n);
    var w := if i >= s then i - s else i + n - s;
    StartAfter(lists, cursor, q, band, w);
    assert w in Turns(lists, cursor, q, band, i);
    forall t, u | t in Turns(lists, cursor, q, band, i) && u in Turns(lists, cursor, q, band, i) ensures t == u {
      StartAfter(lists, cursor, q, band, t);
      StartAfter(lists, cursor, q, band, u);
    }
  }

  /** Which of the first n calls put key i of the band first. */
  ghost function Turns(lists: seq<seq<Key>>, cursor: map<int, nat>, q: int, band: seq<Key>, i: nat): set<nat>
    requires |lists| >= |band| > 0
  {
    set t: nat | t < |band| && Leads(lists, cursor, q, band, t, i)
  }

  // ---- Weighted rotation ---------------------------------------------------------------

  /** Take out the first occurrence of a key. */
  function Removed(keys: seq<Key>, k: Key): seq<Key>
    requires k in keys
  {
    if keys[0] == k then keys[1..] else [keys[0]] + Removed(keys[1..], k)
  }

  lemma {:induction false} RemovedCounts(keys: seq<Key>, k: Key)
    requires k in keys
    ensures multiset(keys) == multiset(Removed(keys, k)) + multiset{k}
    ensures |Removed(keys, k)| == |keys| - 1
  {
    assert keys == [keys[0]] + keys[1..];
    if keys[0] != k {
      RemovedCounts(keys[1..], k);
    }
  }

  /** Empty one band in random order; `draw(n, left)` is the position drawn among the
      `left` remaining keys when n have been handed out. */
  method WeightedBand(band: seq<Key>, draw: (nat, nat) -> nat) returns (ordered: seq<Key>)
    ensures multiset(ordered) == multiset(band) && ordered == Drawn(band, draw, 0)
  {
    ordered := [];
    var bucket := band;
    while bucket != []
      invariant multiset(ordered) + multiset(bucket) == multiset(band)
      invariant ordered + Drawn(bucket, draw, |ordered|) == Drawn(band, draw, 0)
      decreases |bucket|
    {
      var chosen := bucket[draw(|ordered|, |bucket|) % |bucket|];
      RemovedCounts(bucket, chosen);
      DrawnFirst(ordered, bucket, draw, chosen);
      ordered := ordered + [chosen];
      bucket := Removed(bucket, chosen);
    }
  }

  /** The order that the draws from n on give. */
  function Drawn(band: seq<Key>, draw: (nat, nat) -> nat, n: nat): seq<Key>
    decreases |band|
  {
    if band == [] then []
    else
      var chosen := band[draw(n, |band|) % |band|];
      RemovedCounts(band, chosen);
      [chosen] + Drawn(Removed(band, chosen), draw, n + 1)
  }

  lemma DrawnFirst(ordered: seq<Key>, bucket: seq<Key>, draw: (nat, nat) -> nat, chosen: Key)
    requires bucket != [] && chosen == bucket[draw(|ordered|, |bucket|) % |bucket|]
    ensures ordered + Drawn(bucket, draw, |ordered|)
         == (ordered + [chosen]) + Drawn(Removed(bucket, chosen), draw, |ordered| + 1)
  {
  }

  /** Draws that take these places one after the other. */
  function Draws(places: seq<nat>): (nat, nat) -> nat {
    (n: nat, left: nat) => if n < |places| then places[n] else 0
  }

  /** Every order of a band can be drawn. */
  lemma AnyOrderCanBeDrawn(band: seq<Key>, order: seq<Key>) returns (places: seq<nat>)
    requires multiset(order) == multiset(band)
    ensures Drawn(band, Draws(places), 0) == order
  {
    places := PlacesFor(band, order, []);
  }

  lemma {:induction false} PlacesFor(band: seq<Key>, order: seq<Key>, before: seq<nat>) returns (places: seq<nat>)
    requires multiset(order) == multiset(band)
    ensures before <= places && Drawn(band, Draws(places), |before|) == order
    decreases |order|
  {
    SameLength(order, band);
    if order == [] {
      places := before;
    } else {
      var i := PlaceOf(band, order);
      places := PlacesFor(Removed(band, order[0]), order[1..], before + [i]);
      PrefixStep(before, i, places, |band|);
      PlaceTaken(band, order[0], i, |before|, Draws(places));
      assert |before + [i]| == |before| + 1;
      assert [order[0]] + order[1..] == order;
    }
  }

  /** Where the first key of the order stands in the band, and what is left without it. */
  lemma PlaceOf(band: seq<Key>, order: seq<Key>) returns (i: nat)
    requires multiset(order) == multiset(band) && order != []
    ensures i < |band| && band[i] == order[0] && order[0] in band
    ensures multiset(order[1..]) == multiset(Removed(band, order[0]))
  {
    assert order[0] in multiset(band);
    i :| 0 <= i < |band| && band[i] == order[0];
    RemovedCounts(band, order[0]);
    assert order == [order[0]] + order[1..];
    RestMatches(order, order[1..], band, order[0], Removed(band, order[0]));
  }

  lemma RestMatches(order: seq<Key>, rest: seq<Key>, band: seq<Key>, first: Key, left: seq<Key>)
    requires order == [first] + rest && multiset(order) == multiset(band)
    requires multiset(band) == multiset(left) + multiset{first}
    ensures multiset(rest) == multiset(left)
  {
    assert multiset(order) == multiset{first} + multiset(rest);
    assert multiset(rest) == multiset(order) - multiset{first};
  }

  lemma PrefixStep(before: seq<nat>, i: nat, places: seq<nat>, left: nat)
    requires before + [i] <= places
    ensures before <= places && |before| < |places| && Draws(places)(|before|, left) == i
  {
    assert (before + [i])[|before|] == i;
  }

  lemma PlaceTaken(band: seq<Key>, first: Key, i: nat, n: nat, draw: (nat, nat) -> nat)
    requires i < |band| && band[i] == first && draw(n, |band|) == i
    ensures Drawn(band, draw, n) == [first] + Drawn(Removed(band, first), draw, n + 1)
  {
    Within(i, |band|);
  }

  lemma Within(i: nat, size: nat)
    requires i < size
    ensures i % size == i
  {
  }

  /** The weighted order, for every outcome of the draws: a permutation that respects
      the priority bands. */
  method WeightedOrder(keys: seq<Key>, draw: (int, nat, nat) -> nat) returns (ordered: seq<Key>)
    ensures multiset(ordered) == multiset(keys)
    ensures Banded(ordered) && ordered == Weighted(keys, draw)
  {
    ordered := [];
    var rest := keys;
    while rest != []
      invariant ordered + Weighted(rest, draw) == Weighted(keys, draw)
      invariant multiset(ordered) + multiset(rest) == multiset(keys)
      invariant Banded(ordered)
      invariant Above(ordered, rest)
      decreases |rest|
    {
      var p := Top(rest);
      TopBand(rest);
      var band := WeightedBand(Band(rest, p), (n, left) => draw(p, n, left));
      BandAppended(ordered, band, rest);
      UnfoldWeighted(rest, draw, p, band);
      Assoc(ordered, band, Weighted(Outside(rest, p), draw));
      ordered, rest := ordered + band, Outside(rest, p);
    }
  }

  /** The bands by descending priority, each in the order that its draws give. */
  function Weighted(keys: seq<Key>, draw: (int, nat, nat) -> nat): seq<Key>
    decreases |keys|
  {
    if keys == [] then []
    else
      var p := Top(keys);
      TopBand(keys);
      Drawn(Band(keys, p), (n, left) => draw(p, n, left), 0) + Weighted(Outside(keys, p), draw)
  }

  lemma UnfoldWeighted(keys: seq<Key>, draw: (int, nat, nat) -> nat, p: int, band: seq<Key>)
    requires keys != [] && p == Top(keys) && band == Drawn(Band(keys, p), (n, left) => draw(p, n, left), 0)
    ensures Weighted(keys, draw) == band + Weighted(Outside(keys, p), draw)
  {
  }

  ghost predicate Above(high: seq<Key>, low: seq<Key>) {
    forall a, b :: a in high && b in low ==> a.priority > b.priority
  }

  lemma BandAppended(high: seq<Key>, band: seq<Key>, rest: seq<Key>)
    requires rest != [] && Banded(high) && Above(high, rest)
    requires multiset(band) == multiset(Band(rest, Top(rest)))
    ensures Banded(high + band) && Above(high + band, Outside(rest, Top(rest)))
    ensures multiset(high + band) + multiset(Outside(rest, Top(rest))) == multiset(high) + multiset(rest)
  {
    var p := Top(rest);
    BandIsWithin(rest, p, band);
    StaysBanded(high, band, p);
    LowerRest(rest, Outside(rest, p));
    Split(rest, p);
    assert Above(high + band, Outside(rest, p));
    SplitCounts(rest, p);
    assert multiset(high + band) == multiset(high) + multiset(band);
  }

  lemma BandIsWithin(rest: seq<Key>, p: int, band: seq<Key>)
    requires multiset(band) == multiset(Band(rest, p))
    ensures forall k :: k in band ==> k in rest && k.priority == p
  {
    Split(rest, p);
    forall k | k in band ensures k in rest && k.priority == p {
      assert k in multiset(band);
      assert k in Band(rest, p);
    }
  }

  lemma StaysBanded(high: seq<Key>, band: seq<Key>, p: int)
    requires Banded(high) && (forall k :: k in band ==> k.priority == p)
    requires forall a, b :: a in high && b in band ==> a.priority > b.priority
    ensures Banded(high + band)
  {
    var all := high + band;
    forall i, j | 0 <= i < j < |all| ensures all[i].priority >= all[j].priority {
      assert i >= |high| ==> all[i] in band;
      assert j >= |high| ==> all[j] in band;
      assert i < |high| ==> all[i] in high;
    }
  }
}
