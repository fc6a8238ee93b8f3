/** The candidate list of the key pool: refresh, filter, order, float the session's pin. */
module Pool {
  import opened Common
  import opened Rotation
  import Affinity
  import KeyHealth

  // ---- Which keys are offered -----------------------------------------------------------

  /** A registered key with its health. */
  datatype Entry = Entry(key: Key, health: KeyHealth.Key)

  /** One request for candidates. */
  datatype Query = Query(excluded: set<int>, policy: KeyHealth.Policy, now: real, allowCooldown: bool)

  predicate Serves(k: KeyHealth.Key, q: Query) {
    KeyHealth.Usable(k, q.now) || (q.allowCooldown && k.status == KeyHealth.Cooling)
  }

  /** Not excluded, and able to serve once its cooldown has been looked at. */
  predicate Offered(e: Entry, q: Query) {
    e.key.id !in q.excluded && Serves(KeyHealth.Refreshed(q.policy, e.health, q.now), q)
  }

  function Selectable(entries: seq<Entry>, q: Query): seq<Key> {
    if entries == [] then []
    else
      var n := |entries| - 1;
      Selectable(entries[..n], q) + (if Offered(entries[n], q) then [entries[n].key] else [])
  }

  /** No key is registered twice. */
  ghost predicate DistinctIds(entries: seq<Entry>) {
    forall i, j :: 0 <= i < j < |entries| ==> entries[i].key.id != entries[j].key.id
  }

  lemma {:induction false} SelectableMembers(entries: seq<Entry>, q: Query, k: Key)
    ensures k in Selectable(entries, q)
       <==> exists i :: 0 <= i < |entries| && entries[i].key == k && Offered(entries[i], q)
  {
    if entries != [] {
      var n := |entries| - 1;
      SelectableMembers(entries[..n], q, k);
      if i :| 0 <= i < n && entries[..n][i].key == k && Offered(entries[..n][i], q) {
        assert entries[i].key == k && Offered(entries[i], q);
      }
      if i :| 0 <= i < |entries| && entries[i].key == k && Offered(entries[i], q) {
        assert i < n ==> entries[..n][i] == entries[i];
      }
    }
  }

  /** What a list offers: exactly the keys that are offered, each once. */
  ghost predicate OffersExactly(keys: seq<Key>, entries: seq<Entry>, q: Query) {
    && (forall k :: k in keys <==> exists i :: 0 <= i < |entries| && entries[i].key == k && Offered(entries[i], q))
    && forall i, j :: 0 <= i < j < |keys| ==> keys[i] != keys[j]
  }

  lemma {:induction false} SelectableIsExact(entries: seq<Entry>, q: Query)
    requires DistinctIds(entries)
    ensures OffersExactly(Selectable(entries, q), entries, q)
  {
    forall k ensures k in Selectable(entries, q)
                <==> exists i :: 0 <= i < |entries| && entries[i].key == k && Offered(entries[i], q) {
      SelectableMembers(entries, q, k);
    }
    if entries != [] {
      var n := |entries| - 1;
      SelectableIsExact(entries[..n], q);
      if entries[n].key in Selectable(entries[..n], q) {
        SelectableMembers(entries[..n], q, entries[n].key);
      }
    }
  }

  /** A list without repetitions stays one when permuted. */
  lemma PermutedIsExact(keys: seq<Key>, r: seq<Key>, entries: seq<Entry>, q: Query)
    requires OffersExactly(keys, entries, q) && multiset(r) == multiset(keys)
    ensures OffersExactly(r, entries, q)
  {
    forall k ensures k in r <==> k in keys {
      assert k in r <==> k in multiset(r);
    }
    forall i, j | 0 <= i < j < |r| ensures r[i] != r[j] {
      if r[i] == r[j] {
        TwiceCounts(r, i, j);
        OnceCounts(keys, r[i]);
      }
    }
  }

  lemma TwiceCounts(keys: seq<Key>, i: nat, j: nat)
    requires i < j < |keys| && keys[i] == keys[j]
    ensures multiset(keys)[keys[i]] > 1
  {
    assert keys == keys[..j] + [keys[j]] + keys[j + 1..];
    assert keys[..j][i] in multiset(keys[..j]);
  }

  lemma {:induction false} OnceCounts(keys: seq<Key>, k: Key)
    requires forall i, j :: 0 <= i < j < |keys| ==> keys[i] != keys[j]
    ensures multiset(keys)[k] <= 1
  {
    if keys != [] {
      var n := |keys| - 1;
      assert keys == keys[..n] + [keys[n]];
      OnceCounts(keys[..n], k);
      assert keys[n] !in keys[..n] && multiset(keys[..n])[keys[n]] == 0;
    }
  }

  // ---- The pin --------------------------------------------------------------------------

  /** Where the pinned key stands, or the length when it is absent. */
  function PinAt(ordered: seq<Key>, pinned: int): (i: nat)
    ensures i <= |ordered| && (i < |ordered| ==> ordered[i].id == pinned)
    ensures forall j :: 0 <= j < i ==> ordered[j].id != pinned
  {
    if ordered == [] || ordered[0].id == pinned then 0 else 1 + PinAt(ordered[1..], pinned)
  }

  /** The pinned key, if selectable, goes first; the others keep their relative order. */
  function Floated(ordered: seq<Key>, pinned: int): seq<Key> {
    var i := PinAt(ordered, pinned);
    if i == |ordered| then ordered else [ordered[i]] + ordered[..i] + ordered[i + 1..]
  }

  method MoveToFront(ordered: seq<Key>, pinned: int) returns (r: seq<Key>)
    ensures r == Floated(ordered, pinned)
  {
    var i := 0;
    while i < |ordered|
      invariant 0 <= i <= |ordered| && forall j :: 0 <= j < i ==> ordered[j].id != pinned
    {
      if ordered[i].id == pinned {
        assert PinAt(ordered, pinned) == i;
        r := if i > 0 then [ordered[i]] + ordered[..i] + ordered[i + 1..] else ordered;
        assert r == [ordered[i]] + ordered[..i] + ordered[i + 1..];
        return;
      }
      i := i + 1;
    }
    return ordered;
  }

  /** The other keys, in their order. */
  function Others(ordered: seq<Key>, pinned: int): seq<Key> {
    if ordered == [] then []
    else Others(ordered[..|ordered| - 1], pinned)
         + (if ordered[|ordered| - 1].id == pinned then [] else [ordered[|ordered| - 1]])
  }

  lemma {:induction false} OthersAppend(a: seq<Key>, b: seq<Key>, pinned: int)
    ensures Others(a + b, pinned) == Others(a, pinned) + Others(b, pinned)
  {
    if b == [] {
      assert a + b == a;
    } else {
      assert (a + b)[..|a + b| - 1] == a + b[..|b| - 1];
      OthersAppend(a, b[..|b| - 1], pinned);
    }
  }

  /** A selectable pin leads, and the others keep their relative order; without one the
      order is untouched. */
  lemma PinLeads(ordered: seq<Key>, pinned: int)
    ensures if exists k :: k in ordered && k.id == pinned then
              Floated(ordered, pinned) != [] && Floated(ordered, pinned)[0].id == pinned
            else Floated(ordered, pinned) == ordered
    ensures Others(Floated(ordered, pinned), pinned) == Others(ordered, pinned)
  {
    if i :| 0 <= i < |ordered| && ordered[i].id == pinned {
      assert PinAt(ordered, pinned) <= i;
    }
    var i := PinAt(ordered, pinned);
    if i < |ordered| {
      OthersKept(ordered[..i], ordered[i], ordered[i + 1..], pinned);
      assert ordered == ordered[..i] + [ordered[i]] + ordered[i + 1..];
    }
  }

  lemma OthersKept(a: seq<Key>, k: Key, b: seq<Key>, pinned: int)
    requires k.id == pinned
    ensures Others([k] + a + b, pinned) == Others(a + [k] + b, pinned)
  {
    OthersAppend([k] + a, b, pinned);
    OthersAppend([k], a, pinned);
    OthersAppend(a + [k], b, pinned);
    OthersAppend(a, [k], pinned);
    assert Others([k], pinned) == [] by {
      assert [k][..0] == [];
    }
    assert [] + Others(a, pinned) == Others(a, pinned) == Others(a, pinned) + [];
  }

  lemma FloatedKeeps(ordered: seq<Key>, pinned: int)
    ensures multiset(Floated(ordered, pinned)) == multiset(ordered)
  {
    var i := PinAt(ordered, pinned);
    if i < |ordered| {
      assert ordered == ordered[..i] + [ordered[i]] + ordered[i + 1..];
    }
  }

  /** Whatever permutation a strategy returns, what is offered stays exactly the keys that
      may serve, each once, the pin floated. */
  lemma AnyOrderIsExact(entries: seq<Entry>, q: Query, plain: seq<Key>, pinned: int)
    requires DistinctIds(entries) && multiset(plain) == multiset(Selectable(entries, q))
    ensures OffersExactly(plain, entries, q) && OffersExactly(Floated(plain, pinned), entries, q)
  {
    SelectableIsExact(entries, q);
    PermutedIsExact(Selectable(entries, q), plain, entries, q);
    FloatedKeeps(plain, pinned);
    PermutedIsExact(plain, Floated(plain, pinned), entries, q);
  }

  // ---- The program -------------------------------------------------------------------------

  /** The keys of one provider under round robin. */
  class CredentialPool {
    const keys: seq<Key>
    const credentials: seq<KeyHealth.Credential>
    const rotation: RoundRobin
    const affinity: Affinity.AffinityMap

    constructor (keys: seq<Key>, credentials: seq<KeyHealth.Credential>, rotation: RoundRobin,
                 affinity: Affinity.AffinityMap)
      ensures this.keys == keys && this.credentials == credentials
      ensures this.rotation == rotation && this.affinity == affinity
    {
      this.keys, this.credentials, this.rotation, this.affinity := keys, credentials, rotation, affinity;
    }

    ghost predicate Valid() {
      && |keys| == |credentials|
      && (forall i, j :: 0 <= i < j < |keys| ==> credentials[i] != credentials[j] && keys[i].id != keys[j].id)
    }

    /** The registered keys as they are now. */
    ghost function View(): (v: seq<Entry>)
      requires Valid()
      reads credentials
      ensures |v| == |keys| && forall i :: 0 <= i < |v| ==> v[i] == Entry(keys[i], credentials[i].key)
    {
      seq(|keys|, i requires 0 <= i < |keys| reads credentials => Entry(keys[i], credentials[i].key))
    }

    /** Refresh every key that is not excluded, and keep those that can serve. */
    method Scan(q: Query) returns (free: seq<Key>)
      requires Valid()
      modifies credentials
      ensures free == Selectable(old(View()), q)
      ensures View() == AfterScan(old(View()), q)
    {
      free := [];
      ghost var before := View();
      for i := 0 to |keys|
        invariant free == Selectable(before[..i], q)
        invariant forall j :: 0 <= j < |keys| ==>
                    credentials[j].key == if j < i then Looked(before[j], q) else before[j].health
      {
        assert before[..i + 1][..i] == before[..i];
        if keys[i].id !in q.excluded {
          credentials[i].Refresh(q.policy, q.now);
          if Serves(credentials[i].key, q) {
            free := free + [keys[i]];
          }
        }
      }
      assert before[..|keys|] == before;
    }

    /** The candidates for a session, best first; "" stands for no session. */
    method Candidates(q: Query, session: string) returns (ordered: seq<Key>)
      requires Valid() && affinity.Valid() && affinity.clock <= q.now
      modifies credentials, rotation, affinity
      ensures View() == AfterScan(old(View()), q)
      ensures affinity.Valid() && affinity.clock <= q.now && affinity.notes == old(affinity.notes)
      ensures var free := Selectable(old(View()), q);
              && ordered == Picked(free, old(rotation.cursor),
                                   PinFor(affinity.notes, affinity.maxSessions, session, q.now))
              && rotation.cursor == Advanced(free, old(rotation.cursor))
    {
      var free := Scan(q);
      ordered := rotation.Order(free);
      ordered := ApplyAffinity(ordered, session, q.now);
    }

    /** Move the pinned key of the session to the front, if it is listed. */
    method ApplyAffinity(ordered: seq<Key>, session: string, now: real) returns (r: seq<Key>)
      requires affinity.Valid() && affinity.clock <= now
      modifies affinity
      ensures affinity.Valid() && affinity.clock <= now && affinity.notes == old(affinity.notes)
      ensures r == Pinned(ordered, PinFor(affinity.notes, affinity.maxSessions, session, now))
    {
      r := ordered;
      if session != "" && ordered != [] {
        var pin := affinity.Lookup(session, now);
        if pin.Some? {
          r := MoveToFront(ordered, pin.value);
        }
      }
    }

    /** Hand out the best candidate, if there is one. */
    method Pick(q: Query) returns (k: Option<Key>)
      requires Valid() && affinity.Valid() && affinity.clock <= q.now && !q.allowCooldown
      modifies credentials, rotation, affinity
      ensures var free := Selectable(old(View()), q);
              k == if free == [] then None else Some(Best(free, old(rotation.cursor)))
      ensures forall i :: 0 <= i < |keys| ==>
                View()[i].health == HandedOut(AfterScan(old(View()), q)[i], k)
    {
      ghost var free, cursor := Selectable(View(), q), rotation.cursor;
      var ordered := Candidates(q, "");
      ArrangedKeepsAll(free, cursor);
      if ordered == [] {
        return None;
      }
      MarkInUse(ordered[0]);
      return Some(ordered[0]);
    }

    method MarkInUse(k: Key)
      requires Valid()
      modifies credentials
      ensures forall i :: 0 <= i < |keys| ==> credentials[i].key == HandedOut(old(View())[i], Some(k))
    {
      ghost var before := View();
      for i := 0 to |keys|
        invariant forall j :: 0 <= j < |keys| ==>
                    credentials[j].key == if j < i then HandedOut(before[j], Some(k)) else before[j].health
      {
        if keys[i] == k {
          credentials[i].HandOut();
        }
      }
    }
  }

  /** A key's health after the scan: excluded keys are not looked at. */
  function Looked(e: Entry, q: Query): KeyHealth.Key {
    if e.key.id in q.excluded then e.health else KeyHealth.Refreshed(q.policy, e.health, q.now)
  }

  function AfterScan(entries: seq<Entry>, q: Query): (r: seq<Entry>)
    ensures |r| == |entries|
  {
    seq(|entries|, i requires 0 <= i < |entries| => Entry(entries[i].key, Looked(entries[i], q)))
  }

  /** The key the history of notes pins a session to. */
  ghost function PinFor(notes: seq<Affinity.Pin>, limit: nat, session: string, now: real): Option<int> {
    if session == "" then None else Affinity.PinOf(notes, limit, session, now)
  }

  function Pinned(ordered: seq<Key>, pin: Option<int>): seq<Key> {
    if pin.Some? then Floated(ordered, pin.value) else ordered
  }

  function Picked(free: seq<Key>, cursor: map<int, nat>, pin: Option<int>): seq<Key> {
    Pinned(Arranged(free, cursor), pin)
  }

  /** The key that is handed out has one more request in flight. */
  function HandedOut(e: Entry, k: Option<Key>): KeyHealth.Key {
    if k == Some(e.key) then e.health.(inFlight := e.health.inFlight + 1) else e.health
  }

  lemma ArrangedKeepsAll(free: seq<Key>, cursor: map<int, nat>)
    ensures multiset(Arranged(free, cursor)) == multiset(free)
    ensures Arranged(free, cursor) == [] <==> free == []
  {
    ArrangedIsBandedPermutation(free, cursor);
    assert |multiset(Arranged(free, cursor))| == |Arranged(free, cursor)| && |multiset(free)| == |free|;
  }

  function Best(free: seq<Key>, cursor: map<int, nat>): Key
    requires free != []
  {
    ArrangedKeepsAll(free, cursor);
    Arranged(free, cursor)[0]
  }

  /** For one key a pick is the `Select` step of its health runs, or their `Refresh`. */
  lemma PickIsAStep(e: Entry, q: Query, k: Option<Key>)
    requires e.key.id !in q.excluded && !q.allowCooldown
    requires k == Some(e.key) ==> Offered(e, q)
    ensures HandedOut(Entry(e.key, Looked(e, q)), k)
         == KeyHealth.Step(q.policy, e.health, if k == Some(e.key) then KeyHealth.Select else KeyHealth.Refresh, q.now)
  {
  }

  /** The candidates are exactly the keys that may serve, each once, whoever is pinned. */
  lemma CandidatesAreExact(entries: seq<Entry>, q: Query, cursor: map<int, nat>, pin: Option<int>)
    requires DistinctIds(entries)
    ensures OffersExactly(Picked(Selectable(entries, q), cursor, pin), entries, q)
  {
    ArrangedKeepsAll(Selectable(entries, q), cursor);
    AnyOrderIsExact(entries, q, Arranged(Selectable(entries, q), cursor), if pin.Some? then pin.value else 0);
  }

  /** The key of that id may serve. */
  ghost predicate IdOffered(entries: seq<Entry>, q: Query, id: int) {
    exists i :: 0 <= i < |entries| && entries[i].key.id == id && Offered(entries[i], q)
  }

  /** A session stays with its key: if its last note is live and names a key that may serve,
      that key comes first; if it may not serve, or there is no live note, the order is the
      same as without a session. The other keys are never reordered by a pin. */
  lemma SessionsAreSticky(entries: seq<Entry>, q: Query, cursor: map<int, nat>, notes: seq<Affinity.Pin>, limit: nat,
                          session: string)
    requires session != ""
    ensures var free, pin := Selectable(entries, q), PinFor(notes, limit, session, q.now);
            var ordered, plain := Picked(free, cursor, pin), Picked(free, cursor, None);
            && (forall c :: pin == Some(c) <==> Affinity.LiveBinding(notes, limit, session, q.now, c))
            && if pin.Some? && IdOffered(entries, q, pin.value) then
                 && ordered != [] && ordered[0].id == pin.value
                 && Others(ordered, pin.value) == Others(plain, pin.value)
               else ordered == plain
  {
    var free, pin := Selectable(entries, q), PinFor(notes, limit, session, q.now);
    forall c ensures pin == Some(c) <==> Affinity.LiveBinding(notes, limit, session, q.now, c) {
      if Affinity.LiveBinding(notes, limit, session, q.now, c) {
        Affinity.PinOfIs(notes, limit, session, q.now, c);
      }
    }
    if pin.Some? {
      PinLeads(Arranged(free, cursor), pin.value);
      ListedIsOffered(entries, q, cursor, pin.value);
    }
  }

  lemma ListedIsOffered(entries: seq<Entry>, q: Query, cursor: map<int, nat>, id: int)
    ensures (exists k :: k in Arranged(Selectable(entries, q), cursor) && k.id == id)
       <==> IdOffered(entries, q, id)
  {
    var free := Selectable(entries, q);
    ArrangedKeepsAll(free, cursor);
    assert forall k :: k in Arranged(free, cursor) <==> k in multiset(free);
    if k :| k in free && k.id == id {
      SelectableMembers(entries, q, k);
    }
    if i :| 0 <= i < |entries| && entries[i].key.id == id && Offered(entries[i], q) {
      SelectableMembers(entries, q, entries[i].key);
    }
  }
}
