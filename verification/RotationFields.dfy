/** Which key is tried when, told from the fields of the keys. */
module RotationFields {
  import opened Rotation

  /** Smaller first, and so on with the next criterion on a tie. */
  predicate Before(x: real, y: real, tie: bool) { x < y || (x == y && tie) }

  /** Higher priority, then fewer failures, then the longest unused. */
  predicate PriorityOrder(a: Key, b: Key) {
    || a.priority > b.priority
    || (a.priority == b.priority && (|| a.failures < b.failures
                                     || (a.failures == b.failures && Before(a.lastUsed, b.lastUsed, a.id <= b.id))))
  }

  /** Fewer failures, then the better rate of success, then higher priority, then the longest
      unused. */
  predicate HealthOrder(a: Key, b: Key) {
    || a.failures < b.failures
    || (a.failures == b.failures && (|| a.successRate > b.successRate
                                     || (a.successRate == b.successRate
                                         && (|| a.priority > b.priority
                                             || (a.priority == b.priority
                                                 && Before(a.lastUsed, b.lastUsed, a.id <= b.id))))))
  }

  /** Measured before unmeasured, then the faster, then higher priority. */
  predicate SpeedOrder(a: Key, b: Key) {
    var tie := a.priority > b.priority || (a.priority == b.priority && a.id <= b.id);
    if a.latency > 0.0 && b.latency > 0.0 then Before(a.latency, b.latency, tie)
    else if a.latency > 0.0 then true
    else b.latency <= 0.0 && tie
  }

  /** Each sorted strategy tries all keys, in the order its criteria name. */
  lemma StrategiesOrder(keys: seq<Key>)
    ensures var byPriority := Sorted(Priority, keys);
            && multiset(byPriority) == multiset(keys)
            && forall i, j :: 0 <= i < j < |byPriority| ==> PriorityOrder(byPriority[i], byPriority[j])
    ensures var byHealth := Sorted(LeastFailures, keys);
            && multiset(byHealth) == multiset(keys)
            && forall i, j :: 0 <= i < j < |byHealth| ==> HealthOrder(byHealth[i], byHealth[j])
    ensures var bySpeed := Sorted(Fastest, keys);
            && multiset(bySpeed) == multiset(keys)
            && forall i, j :: 0 <= i < j < |bySpeed| ==> SpeedOrder(bySpeed[i], bySpeed[j])
  {
    StrategySorts(Priority, keys);
    StrategySorts(LeastFailures, keys);
    StrategySorts(Fastest, keys);
    InThatOrder(Priority, Sorted(Priority, keys));
    InThatOrder(LeastFailures, Sorted(LeastFailures, keys));
    InThatOrder(Fastest, Sorted(Fastest, keys));
  }

  lemma InThatOrder(s: Strategy, keys: seq<Key>)
    requires InOrder(s, keys)
    ensures s == Priority ==> forall i, j :: 0 <= i < j < |keys| ==> PriorityOrder(keys[i], keys[j])
    ensures s == LeastFailures ==> forall i, j :: 0 <= i < j < |keys| ==> HealthOrder(keys[i], keys[j])
    ensures s == Fastest ==> forall i, j :: 0 <= i < j < |keys| ==> SpeedOrder(keys[i], keys[j])
  {
    forall i, j | 0 <= i < j < |keys|
      ensures s == Priority ==> PriorityOrder(keys[i], keys[j])
      ensures s == LeastFailures ==> HealthOrder(keys[i], keys[j])
      ensures s == Fastest ==> SpeedOrder(keys[i], keys[j]) {
      assert AtMost(RankOf(s, keys[i]), RankOf(s, keys[j]));
    }
  }

  // ---- Round robin --------------------------------------------------------------------------

  /** The ids of a list rise. */
  ghost predicate RisingIds(keys: seq<Key>) {
    forall i, j :: 0 <= i < j < |keys| ==> keys[i].id <= keys[j].id
  }

  /** The list from place c on, and then its beginning. */
  ghost predicate TurnedBy(turned: seq<Key>, keys: seq<Key>, c: nat) {
    |turned| == |keys| && c <= |keys| && forall i :: 0 <= i < |keys| ==>
      turned[i] == keys[if i + c < |keys| then i + c else i + c - |keys|]
  }

  /** On a band that stays unchanged the t-th call since the start, counted from 0, takes its
      keys by id from the t-th on, round the band; whatever the other bands do. */
  lemma CallsGoRound(lists: seq<seq<Key>>, q: int, band: seq<Key>, t: nat) returns (byId: seq<Key>)
    requires Unchanged(lists, q, band) && t < |lists| && t < |band|
    ensures multiset(byId) == multiset(band) && RisingIds(byId)
    ensures TurnedBy(Band(Arranged(lists[t], Calls(lists, map[], t)), q), byId, t)
  {
    byId := ById(band);
    StrategySorts(IdOnly, band);
    IdsRise(band);
    StartIsTurn(lists, q, band, t);
    BandTurned(lists[t], Calls(lists, map[], t), q, band, t);
  }

  lemma StartIsTurn(lists: seq<seq<Key>>, q: int, band: seq<Key>, t: nat)
    requires Unchanged(lists, q, band) && t < |lists| && t < |band|
    ensures StartOf(Calls(lists, map[], t), q, |band|) == t
  {
    FreshStart(q, |band|);
    StartAfter(lists, map[], q, band, t);
    NoWrap(StartOf(map[], q, |band|), t, |band|, StartOf(Calls(lists, map[], t), q, |band|));
  }

  lemma FreshStart(q: int, size: nat)
    requires size > 0
    ensures StartOf(map[], q, size) == 0
  {
    assert 0 % size == 0;
  }

  lemma NoWrap(s: nat, t: nat, n: nat, start: nat)
    requires s == 0 && t < n && start == if s + t < n then s + t else s + t - n
    ensures start == t
  {
  }

  lemma BandTurned(keys: seq<Key>, cursor: map<int, nat>, q: int, band: seq<Key>, t: nat)
    requires Band(keys, q) == band && t < |band| && StartOf(cursor, q, |band|) == t
    ensures TurnedBy(Band(Arranged(keys, cursor), q), ById(band), t)
  {
    ArrangedBand(keys, cursor, q);
    ByIdKeeps(band);
    RotatedIsTurned(ById(band), t);
  }

  lemma IdsRise(band: seq<Key>)
    ensures RisingIds(ById(band))
  {
    StrategySorts(IdOnly, band);
    forall i, j | 0 <= i < j < |ById(band)| ensures ById(band)[i].id <= ById(band)[j].id {
      assert AtMost(RankOf(IdOnly, ById(band)[i]), RankOf(IdOnly, ById(band)[j]));
    }
  }

  lemma RotatedIsTurned(keys: seq<Key>, c: nat)
    requires c < |keys|
    ensures TurnedBy(Rotate(keys, c), keys, c)
  {
  }
}
