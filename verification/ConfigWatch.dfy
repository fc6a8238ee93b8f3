/** The debounce of the configuration watcher: when a changed signature is reloaded. */
module ConfigWatch {

  /** What a poll sees: the stamp of every watched file that exists. */
  type Signature = map<string, int>

  /** The state between polls; `pending == map[]` also stands for "nothing pending". */
  datatype State = State(seen: Signature, pending: Signature, since: real)

  /** The files that are new or differ from the adopted signature. */
  function Changed(seen: Signature, current: Signature): set<string> {
    set path | path in current && !(path in seen && seen[path] == current[path])
  }

  function Cleared(seen: Signature): State { State(seen, map[], 0.0) }

  /** One poll: the next state, and the paths handed to the reload handler. */
  function Polled(s: State, current: Signature, now: real, settle: real): (State, set<string>) {
    if current == s.seen then (Cleared(s.seen), {})
    else if s.pending != current then (State(s.seen, current, now), {})
    else if now - s.since < settle then (s, {})
    else (Cleared(s.pending), Changed(s.seen, s.pending))
  }

  class ConfigWatcher {
    const settle: real
    var seen: Signature
    var pending: Signature
    var pendingSince: real
    var reloadCount: nat

    constructor (settle: real, current: Signature)
      ensures this.settle == settle && View() == Cleared(current) && reloadCount == 0
    {
      this.settle := settle;
      seen, pending, pendingSince, reloadCount := current, map[], 0.0, 0;
    }

    function View(): State
      reads this
    {
      State(seen, pending, pendingSince)
    }

    /** One poll. `called` are the paths the handler is called for, `reloaded` those
        reported as reloaded: none when the handler raises. */
    method PollOnce(current: Signature, now: real, handlerRaises: bool)
      returns (called: set<string>, reloaded: set<string>)
      modifies this
      ensures (View(), called) == Polled(old(View()), current, now, settle)
      ensures reloaded == if handlerRaises then {} else called
      ensures reloadCount == old(reloadCount) + if reloaded == {} then 0 else 1
    {
      called, reloaded := {}, {};
      if current == seen {
        pending, pendingSince := map[], 0.0;
        return;
      }
      if pending != current {
        pending, pendingSince := current, now;
        return;
      }
      if now - pendingSince < settle {
        return;
      }
      var changed := Changed(seen, pending);
      seen := pending;
      pending, pendingSince := map[], 0.0;
      if changed == {} {
        return;
      }
      var ok := Fire(handlerRaises);
      called, reloaded := changed, if ok then changed else {};
    }

    method Fire(handlerRaises: bool) returns (ok: bool)
      modifies this`reloadCount
      ensures ok == !handlerRaises && reloadCount == old(reloadCount) + if ok then 1 else 0
    {
      if handlerRaises {
        return false;
      }
      reloadCount := reloadCount + 1;
      return true;
    }

    method Reseed(current: Signature)
      modifies this
      ensures View() == Cleared(current) && reloadCount == old(reloadCount)
    {
      seen, pending, pendingSince := current, map[], 0.0;
    }
  }

  // ---- Runs ---------------------------------------------------------------------------

  /** A poll, or a reseed after somebody else reloaded. */
  datatype Step = Poll(sig: Signature, now: real) | Reseed(sig: Signature, now: real)

  /** Time does not run backwards. */
  ghost predicate Ordered(run: seq<Step>) {
    forall i, j :: 0 <= i <= j < |run| ==> run[i].now <= run[j].now
  }

  function Stepped(s: State, e: Step, settle: real): State {
    if e.Poll? then Polled(s, e.sig, e.now, settle).0 else Cleared(e.sig)
  }

  /** The state before step n of a run that starts from adopted files. */
  function Before(start: Signature, run: seq<Step>, settle: real, n: nat): State
    requires n <= |run|
  {
    if n == 0 then Cleared(start) else Stepped(Before(start, run, settle, n - 1), run[n - 1], settle)
  }

  /** The files step n hands to the reload handler. */
  function Fires(start: Signature, run: seq<Step>, settle: real, n: nat): set<string>
    requires n < |run|
  {
    if run[n].Poll? then Polled(Before(start, run, settle, n), run[n].sig, run[n].now, settle).1 else {}
  }

  /** The adopted signature before step n. */
  function Seen(start: Signature, run: seq<Step>, settle: real, n: nat): Signature
    requires n <= |run|
  {
    Before(start, run, settle, n).seen
  }

  /** Steps m to n are all polls that saw the same signature. */
  ghost predicate Steady(run: seq<Step>, m: nat, n: nat, sig: Signature) {
    n < |run| && forall k :: m <= k <= n ==> run[k].Poll? && run[k].sig == sig
  }

  /** The signature was observed by all polls of a span at least `settle` long. */
  ghost predicate Settled(run: seq<Step>, settle: real, n: nat)
    requires n < |run|
  {
    exists m :: 0 <= m < n && Steady(run, m, n, run[n].sig) && run[n].now - run[m].now >= settle
  }

  /** What is pending has been seen ever since it became pending. */
  lemma {:induction false} PendingIsSteady(start: Signature, run: seq<Step>, settle: real, n: nat) returns (m: nat)
    requires n <= |run| && Before(start, run, settle, n).pending != map[]
    ensures m < n && Steady(run, m, n - 1, Before(start, run, settle, n).pending)
    ensures Before(start, run, settle, n).since == run[m].now
  {
    var s := Before(start, run, settle, n - 1);
    if run[n - 1].Poll? && s.pending == run[n - 1].sig {
      m := PendingIsSteady(start, run, settle, n - 1);
    } else {
      m := n - 1;
    }
  }

  /** A signature that stays in sight without being adopted is pending at least since then. */
  lemma {:induction false} SteadyIsPending(start: Signature, run: seq<Step>, settle: real, m: nat, n: nat)
    requires Ordered(run) && m < n <= |run| && Steady(run, m, n - 1, run[m].sig)
    requires run[m].sig != map[] && Seen(start, run, settle, n) != run[m].sig
    ensures Before(start, run, settle, n).pending == run[m].sig
    ensures Before(start, run, settle, n).since <= run[m].now
  {
    if m < n - 1 {
      SteadyIsPending(start, run, settle, m, n - 1);
    } else {
      var s := Before(start, run, settle, m);
      if s.pending != map[] {
        var k := PendingIsSteady(start, run, settle, m);
      }
    }
  }

  /** The file is there, and was not, or not with that stamp. */
  predicate IsNewOrChanged(seen: Signature, current: Signature, path: string) {
    path in current.Keys && (path !in seen.Keys || current[path] != seen[path])
  }

  /** The handler runs exactly for a signature that brings a new or changed file and has
      settled; its argument is what differs from the adopted files. */
  lemma FiresExactlyWhenSettled(start: Signature, run: seq<Step>, settle: real, n: nat)
    requires Ordered(run) && n < |run|
    ensures Fires(start, run, settle, n)
         == if run[n].Poll? && Settled(run, settle, n) then Changed(Seen(start, run, settle, n), run[n].sig) else {}
    ensures forall path :: path in Fires(start, run, settle, n)
                      <==> run[n].Poll? && Settled(run, settle, n)
                           && IsNewOrChanged(Seen(start, run, settle, n), run[n].sig, path)
  {
    var s := Before(start, run, settle, n);
    if run[n].Poll? && Changed(s.seen, run[n].sig) != {} {
      var path :| path in Changed(s.seen, run[n].sig);
      if Settled(run, settle, n) {
        var m :| 0 <= m < n && Steady(run, m, n, run[n].sig) && run[n].now - run[m].now >= settle;
        SteadyIsPending(start, run, settle, m, n);
      } else if s.pending == run[n].sig {
        var m := PendingIsSteady(start, run, settle, n);
        assert Steady(run, m, n, run[n].sig);
      }
    }
  }

  /** Once seen and adopted, a signature stays adopted while nothing else is seen. */
  lemma {:induction false} AdoptedStays(start: Signature, run: seq<Step>, settle: real, m: nat, n: nat)
    requires m <= n < |run| && Steady(run, m, n, run[m].sig)
    requires Seen(start, run, settle, m) == run[m].sig || Fires(start, run, settle, m) != {}
    ensures Seen(start, run, settle, n + 1) == run[m].sig
  {
    if m < n {
      AdoptedStays(start, run, settle, m, n - 1);
    }
  }

  /** A signature is fired once, however the handler ends, until another one is observed. */
  lemma FiresOnce(start: Signature, run: seq<Step>, settle: real, m: nat, n: nat)
    requires m < n < |run| && Steady(run, m, n, run[m].sig) && Fires(start, run, settle, m) != {}
    ensures Fires(start, run, settle, n) == {}
  {
    AdoptedStays(start, run, settle, m, n - 1);
  }

  lemma AlsoBefore(run: seq<Step>, k: nat, m: nat, n: nat, sig: Signature)
    requires Steady(run, k, n, sig) && m <= n + 1 && m < |run|
    requires run[m].Poll? && run[m].sig == sig
    ensures k < m ==> Steady(run, m - 1, m, sig)
  {
  }

  /** Nothing is adopted while a non-empty signature has not settled. */
  lemma {:induction false} UnsettledIsNotAdopted(start: Signature, run: seq<Step>, settle: real, m: nat, n: nat)
    requires Ordered(run) && settle > 0.0 && m <= n < |run| && Steady(run, m, n, run[m].sig) && run[m].sig != map[]
    requires m == 0 || !Steady(run, m - 1, m, run[m].sig)
    requires run[n].now - run[m].now < settle
    ensures Seen(start, run, settle, n + 1) == Seen(start, run, settle, m)
  {
    if m < n {
      UnsettledIsNotAdopted(start, run, settle, m, n - 1);
    }
    var s := Before(start, run, settle, n);
    if s.pending == run[n].sig {
      var k := PendingIsSteady(start, run, settle, n);
      AlsoBefore(run, k, m, n - 1, run[m].sig);
    }
  }

  /** An edit that stays put is reloaded at the first poll at or after `settle`, and at
      no poll before it. */
  lemma EditFiresOnTime(start: Signature, run: seq<Step>, settle: real, m: nat, n: nat)
    requires Ordered(run) && settle > 0.0 && m < n < |run| && Steady(run, m, n, run[m].sig)
    requires m == 0 || !Steady(run, m - 1, m, run[m].sig)
    requires Changed(Seen(start, run, settle, m), run[m].sig) != {}
    requires run[n - 1].now - run[m].now < settle <= run[n].now - run[m].now
    ensures Fires(start, run, settle, n) == Changed(Seen(start, run, settle, m), run[m].sig)
    ensures forall k :: m <= k < n ==> Fires(start, run, settle, k) == {}
  {
    var path :| path in Changed(Seen(start, run, settle, m), run[m].sig);
    UnsettledIsNotAdopted(start, run, settle, m, n - 1);
    FiresExactlyWhenSettled(start, run, settle, n);
    forall k | m <= k < n ensures Fires(start, run, settle, k) == {} {
      FiresExactlyWhenSettled(start, run, settle, k);
      if Settled(run, settle, k) {
        var j :| 0 <= j < k && Steady(run, j, k, run[k].sig) && run[k].now - run[j].now >= settle;
        AlsoBefore(run, j, m, k, run[m].sig);
      }
    }
  }

  /** Deleting files alone is never reloaded. */
  lemma DeletionsNeverFire(start: Signature, run: seq<Step>, settle: real, n: nat)
    requires n < |run|
    requires forall path :: path in run[n].sig ==>
               path in Seen(start, run, settle, n) && Seen(start, run, settle, n)[path] == run[n].sig[path]
    ensures Fires(start, run, settle, n) == {}
  {
    assert Changed(Seen(start, run, settle, n), run[n].sig) == {};
  }

  /** Step n adopts what it sees although that has not settled. */
  ghost predicate AdoptsUnsettled(start: Signature, run: seq<Step>, settle: real, n: nat)
    requires n < |run|
  {
    && run[n].Poll? && !Settled(run, settle, n)
    && Seen(start, run, settle, n + 1) != Seen(start, run, settle, n)
  }

  /** An empty pending mark means that nothing is pending, or that all files have been gone
      ever since it was set. */
  lemma {:induction false} EmptyPending(start: Signature, run: seq<Step>, settle: real, n: nat) returns (m: nat)
    requires n <= |run| && Before(start, run, settle, n).pending == map[]
    requires Before(start, run, settle, n) != Cleared(Seen(start, run, settle, n))
    ensures m < n && Steady(run, m, n - 1, map[]) && Before(start, run, settle, n).since == run[m].now
  {
    var s := Before(start, run, settle, n - 1);
    if run[n - 1].Poll? && s.pending == run[n - 1].sig {
      m := EmptyPending(start, run, settle, n - 1);
    } else {
      m := n - 1;
    }
  }

  /** The debounce is skipped exactly for the disappearance of all files at once, seen while
      nothing was pending: the cleared mark already equals that signature. Nothing is
      reloaded by it. */
  lemma VanishedFilesAreAdoptedAtOnce(start: Signature, run: seq<Step>, settle: real, n: nat)
    requires Ordered(run) && n < |run| && run[n].Poll? && !Settled(run, settle, n)
    ensures AdoptsUnsettled(start, run, settle, n)
       <==> run[n].sig == map[] && Seen(start, run, settle, n) != map[] && run[n].now >= settle
            && Before(start, run, settle, n) == Cleared(Seen(start, run, settle, n))
    ensures AdoptsUnsettled(start, run, settle, n) ==> Fires(start, run, settle, n) == {}
  {
    var s := Before(start, run, settle, n);
    if AdoptsUnsettled(start, run, settle, n) {
      assert s.pending == run[n].sig && run[n].now - s.since >= settle;
      if s.pending != map[] {
        var m := PendingIsSteady(start, run, settle, n);
        assert Steady(run, m, n, run[n].sig);
      } else if s != Cleared(s.seen) {
        var m := EmptyPending(start, run, settle, n);
        assert Steady(run, m, n, run[n].sig);
      }
    }
  }
  /** One poll that finds the only file gone adopts that at once. */
  lemma OneFileVanishes(path: string, stamp: int, now: real, settle: real)
    requires 0.0 < settle <= now
    ensures AdoptsUnsettled(map[path := stamp], [Poll(map[], now)], settle, 0)
    ensures Seen(map[path := stamp], [Poll(map[], now)], settle, 1) == map[]
  {
    var start: Signature, run := map[path := stamp], [Poll(map[], now)];
    assert path in start;
    assert Before(start, run, settle, 0) == Cleared(start);
    VanishedFilesAreAdoptedAtOnce(start, run, settle, 0);
  }
}
