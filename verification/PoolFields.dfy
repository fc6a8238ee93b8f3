/** Which keys a scan offers and what it changes about them, told from the fields of the keys. */
module PoolFields {
  import opened Common
  import opened Pool
  import KeyHealth

  /** A rest that is served by now: a cooldown that is over, or the rest after a rejection. */
  predicate Served(k: KeyHealth.Key, q: Query) {
    || (k.status == KeyHealth.Cooling && (k.cooldownUntil == None || k.cooldownUntil.value <= q.now))
    || (k.status == KeyHealth.Unhealthy && k.lastErrorAt != None
        && k.lastErrorAt.value + q.policy.autoRecoverAfter <= q.now)
  }

  /** A key may serve when it is healthy or its rest is served, or when it is cooling and the
      caller takes such keys too; never when it is disabled. */
  predicate MayServe(k: KeyHealth.Key, q: Query) {
    k.status == KeyHealth.Healthy || Served(k, q) || (k.status == KeyHealth.Cooling && q.allowCooldown)
  }

  lemma OfferedIsMayServe(e: Entry, q: Query)
    ensures Offered(e, q) <==> e.key.id !in q.excluded && MayServe(e.health, q)
  {
  }

  /** The candidates are exactly the keys that are not excluded and may serve, each once. */
  lemma CandidatesMayServe(entries: seq<Entry>, q: Query, cursor: map<int, nat>, pin: Option<int>)
    requires DistinctIds(entries)
    ensures var keys := Picked(Selectable(entries, q), cursor, pin);
            && (forall k :: k in keys <==> exists i :: 0 <= i < |entries| && entries[i].key == k
                                                       && k.id !in q.excluded && MayServe(entries[i].health, q))
            && forall i, j :: 0 <= i < j < |keys| ==> keys[i] != keys[j]
  {
    CandidatesAreExact(entries, q, cursor, pin);
    forall i | 0 <= i < |entries|
      ensures Offered(entries[i], q) <==> entries[i].key.id !in q.excluded && MayServe(entries[i].health, q) {
      OfferedIsMayServe(entries[i], q);
    }
  }

  /** A scan changes only keys whose rest is served and that are not excluded: they are
      healthy again, without failures; a served cooldown also leaves the ladder. */
  ghost predicate ScannedTo(e: Entry, q: Query, after: Entry) {
    && after.key == e.key
    && if e.key.id in q.excluded || !Served(e.health, q) then after == e
       else
         && after.health == e.health.(status := KeyHealth.Healthy, failures := 0,
                                      cooldownUntil := after.health.cooldownUntil,
                                      rateLimits := after.health.rateLimits)
         && (e.health.status == KeyHealth.Cooling ==>
               after.health.rateLimits == 0 && after.health.cooldownUntil == None)
         && (e.health.status == KeyHealth.Unhealthy ==> after.health.rateLimits == e.health.rateLimits)
  }

  lemma ScanHealsTheServed(entries: seq<Entry>, q: Query)
    ensures var after := AfterScan(entries, q);
            |after| == |entries| && forall i :: 0 <= i < |entries| ==> ScannedTo(entries[i], q, after[i])
  {
  }
}
