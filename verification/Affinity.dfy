/** Session affinity of the key pool: a bounded, expiring map that remembers which key
    last served a conversation. */
module Affinity {
  import opened Common

  datatype Pin = Pin(session: string, credential: int, expires: real)

  ghost predicate Distinct(f: seq<Pin>) {
    forall i, j :: 0 <= i < j < |f| ==> f[i].session != f[j].session
  }

  /** Pins in the order they were noted, so in the order they expire. */
  ghost predicate ByExpiry(f: seq<Pin>) {
    forall i, j :: 0 <= i < j < |f| ==> f[i].expires <= f[j].expires
  }

  function Without(f: seq<Pin>, s: string): seq<Pin> {
    if f == [] then []
    else Without(f[..|f| - 1], s) + (if f[|f| - 1].session == s then [] else [f[|f| - 1]])
  }

  /** The memory without bounds: every session ever noted, by recency of its last note. */
  function Touch(f: seq<Pin>, p: Pin): seq<Pin> { Without(f, p.session) + [p] }

  /** The specification of a lookup: the last note of the session counts if it has not
      expired and the session is among the `limit` most recently noted ones. */
  ghost predicate Bound(f: seq<Pin>, limit: nat, s: string, now: real, c: int) {
    exists i :: 0 <= i < |f| && f[i].session == s && f[i].credential == c && f[i].expires > now && |f| - i <= limit
  }

  /** The pins of f whose sessions are kept. */
  function Restrict(f: seq<Pin>, k: set<string>): seq<Pin> {
    if f == [] then []
    else Restrict(f[..|f| - 1], k) + (if f[|f| - 1].session in k then [f[|f| - 1]] else [])
  }

  /** What may be missing from the map at a moment: expired pins, and pins beyond the
      limit - and no pin is kept while a younger live one is missing. */
  ghost predicate Covers(f: seq<Pin>, k: set<string>, limit: nat, now: real) {
    && (forall i :: 0 <= i < |f| && f[i].session !in k && f[i].expires > now ==> |f| - i > limit)
    && (forall i, j :: 0 <= i < j < |f| && f[i].session in k && f[j].session !in k ==> f[j].expires <= now)
  }

  // ---- Facts about the filters --------------------------------------------------

  lemma {:induction false} WithoutNone(f: seq<Pin>, s: string)
    requires forall i :: 0 <= i < |f| ==> f[i].session != s
    ensures Without(f, s) == f
  {
    if f != [] {
      WithoutNone(f[..|f| - 1], s);
    }
  }

  lemma {:induction false} WithoutAt(f: seq<Pin>, m: nat)
    requires Distinct(f) && m < |f|
    ensures Without(f, f[m].session) == f[..m] + f[m + 1..]
  {
    var n := |f| - 1;
    var g := f[..n];
    if m == n {
      WithoutNone(g, f[m].session);
      assert f[n + 1..] == [];
    } else {
      WithoutAt(g, m);
      assert g[..m] == f[..m] && g[m + 1..] + [f[n]] == f[m + 1..];
    }
  }

  lemma {:induction false} RestrictMember(f: seq<Pin>, k: set<string>, p: Pin)
    ensures p in Restrict(f, k) <==> p in f && p.session in k
  {
    if f != [] {
      RestrictMember(f[..|f| - 1], k, p);
      assert f == f[..|f| - 1] + [f[|f| - 1]];
    }
  }

  lemma {:induction false} RestrictSplit(f: seq<Pin>, k: set<string>, m: nat)
    requires m <= |f|
    ensures Restrict(f, k) == Restrict(f[..m], k) + Restrict(f[m..], k)
  {
    if m == |f| {
      assert f[..m] == f;
    } else {
      var n := |f| - 1;
      RestrictSplit(f[..n], k, m);
      assert f[..n][..m] == f[..m] && f[m..][..n - m] == f[..n][m..];
    }
  }

  lemma {:induction false} RestrictSame(f: seq<Pin>, k: set<string>, k': set<string>)
    requires forall i :: 0 <= i < |f| ==> (f[i].session in k <==> f[i].session in k')
    ensures Restrict(f, k) == Restrict(f, k')
  {
    if f != [] {
      RestrictSame(f[..|f| - 1], k, k');
    }
  }

  lemma {:induction false} RestrictCount(f: seq<Pin>, k: set<string>)
    ensures |Restrict(f, k)| <= |f|
    ensures (forall i :: 0 <= i < |f| ==> f[i].session in k) ==> |Restrict(f, k)| == |f|
    ensures (forall i :: 0 <= i < |f| ==> f[i].session !in k) ==> Restrict(f, k) == []
  {
    if f != [] {
      RestrictCount(f[..|f| - 1], k);
    }
  }

  /** Dropping one session from the kept set drops it from the restriction. */
  lemma {:induction false} RestrictDrop(f: seq<Pin>, k: set<string>, s: string)
    ensures Restrict(f, k - {s}) == Without(Restrict(f, k), s)
  {
    if f != [] {
      var n := |f| - 1;
      RestrictDrop(f[..n], k, s);
      if f[n].session in k {
        assert (Restrict(f[..n], k) + [f[n]])[..|Restrict(f[..n], k)|] == Restrict(f[..n], k);
      } else {
        assert Restrict(f[..n], k) + [] == Restrict(f[..n], k);
        assert Restrict(f[..n], k - {s}) + [] == Restrict(f[..n], k - {s});
      }
    }
  }

  lemma {:induction false} RestrictWithout(f: seq<Pin>, k: set<string>, s: string)
    ensures Restrict(Without(f, s), k) == Without(Restrict(f, k), s)
  {
    if f != [] {
      var n := |f| - 1;
      RestrictWithout(f[..n], k, s);
      RestrictSnoc(Without(f[..n], s), f[n], k);
      WithoutSnoc(Restrict(f[..n], k), f[n], s);
      assert Without(f[..n], s) + [] == Without(f[..n], s) && Restrict(f[..n], k) + [] == Restrict(f[..n], k);
    }
  }

  lemma RestrictSnoc(f: seq<Pin>, p: Pin, k: set<string>)
    ensures Restrict(f + [p], k) == if p.session in k then Restrict(f, k) + [p] else Restrict(f, k)
  {
    assert (f + [p])[..|f|] == f;
  }

  lemma WithoutSnoc(f: seq<Pin>, p: Pin, s: string)
    ensures Without(f + [p], s) == if p.session == s then Without(f, s) else Without(f, s) + [p]
  {
    assert (f + [p])[..|f|] == f;
  }

  /** The oldest kept pin, if the map is too full, lies beyond the limit. */
  lemma EvictKeeps(f: seq<Pin>, k: set<string>, limit: nat, now: real)
    requires Distinct(f) && Covers(f, k, limit, now) && |Restrict(f, k)| > limit
    ensures var r := Restrict(f, k); var k' := k - {r[0].session};
            Restrict(f, k') == r[1..] && Covers(f, k', limit, now)
  {
    var m := FirstKept(f, k);
    OldestOut(f, k, m);
    RestrictCount(f[m + 1..], k);
    assert |f| - m > limit;
  }

  lemma OldestOut(f: seq<Pin>, k: set<string>, m: nat)
    requires m < |f| && f[m].session in k && forall i :: 0 <= i < m ==> f[i].session !in k
    requires forall i :: m < i < |f| ==> f[i].session != f[m].session
    ensures Restrict(f, k) == [f[m]] + Restrict(f[m + 1..], k)
    ensures Restrict(f, k - {f[m].session}) == Restrict(f[m + 1..], k)
  {
    var k' := k - {f[m].session};
    FirstCandidate(f, k, m);
    FirstCandidate(f, k', m);
    RestrictSame(f[m + 1..], k, k');
  }

  lemma FirstCandidate(f: seq<Pin>, k: set<string>, m: nat)
    requires m < |f| && forall i :: 0 <= i < m ==> f[i].session !in k
    ensures Restrict(f, k) == (if f[m].session in k then [f[m]] else []) + Restrict(f[m + 1..], k)
  {
    RestrictCount(f[..m], k);
    FirstOf(f[..m], f[m], f[m + 1..], k);
    assert f == (f[..m] + [f[m]]) + f[m + 1..];
  }

  lemma FirstOf(a: seq<Pin>, p: Pin, b: seq<Pin>, k: set<string>)
    requires Restrict(a, k) == []
    ensures Restrict((a + [p]) + b, k) == (if p.session in k then [p] else []) + Restrict(b, k)
  {
    RestrictAppend(a + [p], b, k);
    RestrictAppend(a, [p], k);
    RestrictOne(p, k);
  }

  lemma RestrictAppend(a: seq<Pin>, b: seq<Pin>, k: set<string>)
    ensures Restrict(a + b, k) == Restrict(a, k) + Restrict(b, k)
  {
    RestrictSplit(a + b, k, |a|);
    assert (a + b)[..|a|] == a && (a + b)[|a|..] == b;
  }

  lemma RestrictOne(p: Pin, k: set<string>)
    ensures Restrict([p], k) == if p.session in k then [p] else []
  {
    assert [p][..0] == [];
  }

  lemma {:induction false} FirstKept(f: seq<Pin>, k: set<string>) returns (m: nat)
    requires Restrict(f, k) != []
    ensures m < |f| && f[m].session in k && forall i :: 0 <= i < m ==> f[i].session !in k
  {
    m := 0;
    if f[0].session !in k {
      RestrictSplit(f, k, 1);
      assert f[..1] == [f[0]] && f[..1][..0] == [];
      var j := FirstKept(f[1..], k);
      m := j + 1;
      assert forall i :: 1 <= i < m ==> f[i] == f[1..][i - 1];
    }
  }

  /** Among live pins the map is exactly the specification. */
  lemma LookupAgrees(f: seq<Pin>, k: set<string>, limit: nat, now: real, p: Pin)
    requires Distinct(f) && ByExpiry(f) && Covers(f, k, limit, now)
    requires |Restrict(f, k)| <= limit && p.expires > now
    ensures p in Restrict(f, k) <==> p in f && Bound(f, limit, p.session, now, p.credential)
  {
    RestrictMember(f, k, p);
    if p in f {
      var m :| 0 <= m < |f| && f[m] == p;
      if p.session in k {
        YoungerAreKept(f, k, limit, now, m);
      }
    }
  }

  lemma YoungerAreKept(f: seq<Pin>, k: set<string>, limit: nat, now: real, m: nat)
    requires ByExpiry(f) && Covers(f, k, limit, now) && |Restrict(f, k)| <= limit
    requires m < |f| && f[m].expires > now && f[m].session in k
    ensures |f| - m <= limit
  {
    RestrictSplit(f, k, m);
    RestrictCount(f[m..], k);
  }

  // ---- The memory is the history's last notes ------------------------------------------

  function Recency(notes: seq<Pin>): seq<Pin> {
    if notes == [] then [] else Touch(Recency(notes[..|notes| - 1]), notes[|notes| - 1])
  }

  /** p is the last note of its session. */
  ghost predicate LastNote(notes: seq<Pin>, p: Pin) {
    exists i :: 0 <= i < |notes| && notes[i] == p && forall j :: i < j < |notes| ==> notes[j].session != p.session
  }

  lemma {:induction false} WithoutMember(f: seq<Pin>, s: string, p: Pin)
    ensures p in Without(f, s) <==> p in f && p.session != s
  {
    if f != [] {
      WithoutMember(f[..|f| - 1], s, p);
      assert f == f[..|f| - 1] + [f[|f| - 1]];
    }
  }

  lemma TouchMember(f: seq<Pin>, q: Pin, p: Pin)
    ensures p in Touch(f, q) <==> p == q || (p in f && p.session != q.session)
  {
    WithoutMember(f, q.session, p);
  }

  lemma LastNoteStep(notes: seq<Pin>, q: Pin, p: Pin)
    ensures LastNote(notes + [q], p) <==> p == q || (p.session != q.session && LastNote(notes, p))
  {
    var all, n := notes + [q], |notes|;
    assert all[n] == q;
    if p == q {
      assert all[n] == p;
    }
    if i :| 0 <= i < n && notes[i] == p && forall j :: i < j < n ==> notes[j].session != p.session {
      assert all[i] == p;
      assert forall j :: i < j < n ==> all[j] == notes[j];
    }
    if i :| 0 <= i < n && all[i] == p && forall j :: i < j < |all| ==> all[j].session != p.session {
      assert notes[i] == p && forall j :: i < j < n ==> notes[j] == all[j];
    }
  }

  lemma RecencySnoc(notes: seq<Pin>, q: Pin)
    ensures Recency(notes + [q]) == Touch(Recency(notes), q)
  {
    assert (notes + [q])[..|notes|] == notes;
  }

  /** After any number of notes the memory holds exactly each session's last one. */
  lemma {:induction false} RecencyHoldsLastNotes(notes: seq<Pin>, p: Pin)
    ensures p in Recency(notes) <==> LastNote(notes, p)
  {
    if notes != [] {
      var n := |notes| - 1;
      var init, q := notes[..n], notes[n];
      assert notes == init + [q];
      RecencyHoldsLastNotes(init, p);
      RecencySnoc(init, q);
      TouchMember(Recency(init), q, p);
      LastNoteStep(init, q, p);
    }
  }

  function SessionsOf(f: seq<Pin>): set<string> { set i | 0 <= i < |f| :: f[i].session }

  /** The sessions noted from note n on. */
  function SessionsSince(notes: seq<Pin>, n: nat): set<string>
    requires n <= |notes|
  {
    SessionsOf(notes[n..])
  }

  ghost predicate LastAt(notes: seq<Pin>, n: nat, p: Pin) {
    n < |notes| && notes[n] == p && forall j :: n < j < |notes| ==> notes[j].session != p.session
  }

  /** What a lookup must answer, read off the history alone: the session's last note, if it
      has not expired and at most `limit` sessions have been noted since. */
  ghost predicate LiveBinding(notes: seq<Pin>, limit: nat, s: string, now: real, c: int) {
    exists n, p :: LastAt(notes, n, p) && p.session == s && p.credential == c && p.expires > now
                   && |SessionsSince(notes, n)| <= limit
  }

  lemma {:induction false} DistinctCount(f: seq<Pin>)
    requires Distinct(f)
    ensures |SessionsOf(f)| == |f|
  {
    if f != [] {
      var n := |f| - 1;
      DistinctCount(f[..n]);
      assert SessionsOf(f) == SessionsOf(f[..n]) + {f[n].session};
      assert f[n].session !in SessionsOf(f[..n]);
    }
  }

  lemma {:induction false} RecencyIsDistinct(notes: seq<Pin>)
    ensures Distinct(Recency(notes))
  {
    if notes != [] {
      var n := |notes| - 1;
      var f := Recency(notes[..n]);
      RecencyIsDistinct(notes[..n]);
      var m := RemovalIndex(f, notes[n].session);
      var g := Without(f, notes[n].session);
      forall i, j | 0 <= i < j < |g| ensures g[i].session != g[j].session {
        if m < |f| {
          assert g[i] == f[Skip(m, i)] && g[j] == f[Skip(m, j)];
        }
      }
    }
  }

  /** Taking out one entry changes the sessions from any place on by at most its own. */
  lemma RemovedSessions(f: seq<Pin>, g: seq<Pin>, m: nat, i: nat, s: string)
    requires Removed(f, g, m) && i < |g| && (m < |f| ==> f[m].session == s)
    ensures SessionsOf(g[i..]) + {s} == SessionsOf(f[if m == |f| then i else Skip(m, i)..]) + {s}
  {
    if m < |f| {
      var k := Skip(m, i);
      forall x | x in SessionsOf(g[i..]) ensures x in SessionsOf(f[k..]) {
        var j :| 0 <= j < |g[i..]| && g[i..][j].session == x;
        InFull(f, g, m, i, i + j);
      }
      forall x | x in SessionsOf(f[k..]) && x != s ensures x in SessionsOf(g[i..]) {
        var j :| 0 <= j < |f[k..]| && f[k..][j].session == x;
        InRest(f, g, m, i, k + j);
      }
    }
  }

  lemma InFull(f: seq<Pin>, g: seq<Pin>, m: nat, i: nat, j: nat)
    requires Removed(f, g, m) && m < |f| && i <= j < |g|
    ensures g[j].session in SessionsOf(f[Skip(m, i)..])
  {
    SessionAt(f, Skip(m, i), Skip(m, j));
  }

  lemma InRest(f: seq<Pin>, g: seq<Pin>, m: nat, i: nat, j: nat)
    requires Removed(f, g, m) && m < |f| && i < |g| && Skip(m, i) <= j < |f| && j != m
    ensures f[j].session in SessionsOf(g[i..])
  {
    SessionAt(g, i, if j < m then j else j - 1);
  }

  lemma SessionAt(f: seq<Pin>, i: nat, j: nat)
    requires i <= j < |f|
    ensures f[j].session in SessionsOf(f[i..])
  {
    assert f[i..][j - i] == f[j];
  }

  /** The place of a session in the memory counts the sessions noted since. */
  lemma {:induction false} PlaceCounts(notes: seq<Pin>, i: nat, n: nat)
    requires i < |Recency(notes)| && LastAt(notes, n, Recency(notes)[i])
    ensures SessionsSince(notes, n) == SessionsOf(Recency(notes)[i..])
  {
    var e := |notes| - 1;
    var front, q := notes[..e], notes[e];
    var f, g := Recency(front), Without(Recency(front), q.session);
    assert notes == front + [q];
    RecencySnoc(front, q);
    if i == |g| {
      assert n == e;
      assert notes[n..] == [q] && Recency(notes)[i..] == [q];
    } else {
      var k := PlaceBefore(front, q, i, n);
      PlaceCounts(front, k, n);
      OneMoreSince(front, q, n);
      OneMoreSince(g, q, i);
    }
  }

  lemma OneMoreSince(f: seq<Pin>, q: Pin, n: nat)
    requires n <= |f|
    ensures SessionsOf((f + [q])[n..]) == SessionsOf(f[n..]) + {q.session}
  {
    assert (f + [q])[n..] == f[n..] + [q];
    OneMoreSession(f[n..], q);
  }

  /** Where an older entry stood before the last note. */
  lemma PlaceBefore(front: seq<Pin>, q: Pin, i: nat, n: nat) returns (k: nat)
    requires i < |Without(Recency(front), q.session)| && LastAt(front + [q], n, Without(Recency(front), q.session)[i])
    requires n <= |front|
    ensures k < |Recency(front)| && n < |front| && LastAt(front, n, Recency(front)[k])
    ensures SessionsOf(Without(Recency(front), q.session)[i..]) + {q.session}
         == SessionsOf(Recency(front)[k..]) + {q.session}
  {
    var f, g := Recency(front), Without(Recency(front), q.session);
    RecencyIsDistinct(front);
    var m := RemovalIndex(f, q.session);
    k := if m == |f| then i else Skip(m, i);
    assert g[i] == f[k] && g[i].session != q.session;
    assert (front + [q])[|front|] == q;
    assert forall j :: 0 <= j < |front| ==> (front + [q])[j] == front[j];
    RemovedSessions(f, g, m, i, q.session);
  }

  lemma OneMoreSession(f: seq<Pin>, q: Pin)
    ensures SessionsOf(f + [q]) == SessionsOf(f) + {q.session}
  {
    var all := f + [q];
    assert all[|f|] == q;
    assert forall i :: 0 <= i < |f| ==> all[i] == f[i];
  }

  /** The two ways to say what a lookup must answer agree. */
  lemma BoundIsLive(notes: seq<Pin>, limit: nat, s: string, now: real, c: int)
    ensures Bound(Recency(notes), limit, s, now, c) <==> LiveBinding(notes, limit, s, now, c)
  {
    var f := Recency(notes);
    RecencyIsDistinct(notes);
    if i :| 0 <= i < |f| && f[i].session == s && f[i].credential == c && f[i].expires > now && |f| - i <= limit {
      RecencyHoldsLastNotes(notes, f[i]);
      var n :| 0 <= n < |notes| && notes[n] == f[i] && forall j :: n < j < |notes| ==> notes[j].session != f[i].session;
      assert LastAt(notes, n, f[i]);
      PlaceCounts(notes, i, n);
      DistinctCount(f[i..]);
    }
    if n: nat, p :| LastAt(notes, n, p) && p.session == s && p.credential == c && p.expires > now
                    && |SessionsSince(notes, n)| <= limit {
      RecencyHoldsLastNotes(notes, p);
      var i :| 0 <= i < |f| && f[i] == p;
      PlaceCounts(notes, i, n);
      DistinctCount(f[i..]);
    }
  }

  /** The key a session is pinned to, read off the history: the only live binding. */
  ghost function PinOf(notes: seq<Pin>, limit: nat, s: string, now: real): (c: Option<int>)
    ensures if c.Some? then LiveBinding(notes, limit, s, now, c.value)
            else forall key :: !LiveBinding(notes, limit, s, now, key)
  {
    if exists key :: LiveBinding(notes, limit, s, now, key) then
      var key :| LiveBinding(notes, limit, s, now, key);
      Some(key)
    else None
  }

  lemma PinOfIs(notes: seq<Pin>, limit: nat, s: string, now: real, key: int)
    requires LiveBinding(notes, limit, s, now, key)
    ensures PinOf(notes, limit, s, now) == Some(key)
  {
    var c := PinOf(notes, limit, s, now).value;
    var n, p :| LastAt(notes, n, p) && p.session == s && p.credential == key;
    var m, r :| LastAt(notes, m, r) && r.session == s && r.credential == c;
    assert n == m;
  }

  /** A pin holds until its time is over, and until as many other sessions have been noted
      since as the map has places; a later note of the session replaces it. */
  lemma PinHolds(older: seq<Pin>, p: Pin, later: seq<Pin>, limit: nat, now: real)
    requires forall i :: 0 <= i < |later| ==> later[i].session != p.session
    ensures var others := set i | 0 <= i < |later| :: later[i].session;
            PinOf(older + [p] + later, limit, p.session, now)
            == if now < p.expires && |others| < limit then Some(p.credential) else None
  {
    var notes, n := older + [p] + later, |older|;
    assert notes[n] == p && notes[n..] == [p] + later;
    assert forall j :: n < j < |notes| ==> notes[j] == later[j - n - 1];
    assert LastAt(notes, n, p);
    SinceCounts(p, later);
    var c := PinOf(notes, limit, p.session, now);
    if c.Some? {
      LastNoteBinds(notes, n, p, limit, now, c.value);
    } else {
      assert !LiveBinding(notes, limit, p.session, now, p.credential);
    }
  }

  lemma LastNoteBinds(notes: seq<Pin>, n: nat, p: Pin, limit: nat, now: real, key: int)
    requires LastAt(notes, n, p) && LiveBinding(notes, limit, p.session, now, key)
    ensures key == p.credential && now < p.expires && |SessionsSince(notes, n)| <= limit
  {
    var m, q :| LastAt(notes, m, q) && q.session == p.session && q.credential == key && q.expires > now
                && |SessionsSince(notes, m)| <= limit;
    assert m == n;
  }

  lemma SinceCounts(p: Pin, later: seq<Pin>)
    requires forall i :: 0 <= i < |later| ==> later[i].session != p.session
    ensures var others := set i | 0 <= i < |later| :: later[i].session;
            |SessionsOf([p] + later)| == |others| + 1
  {
    var others, all := set i | 0 <= i < |later| :: later[i].session, [p] + later;
    assert all[0] == p && forall i :: 0 <= i < |later| ==> all[i + 1] == later[i];
    assert SessionsOf(all) == others + {p.session};
  }

  ghost predicate BoundAnswer(f: seq<Pin>, limit: nat, s: string, now: real, c: Option<int>) {
    if c.Some? then Bound(f, limit, s, now, c.value) else forall key :: !Bound(f, limit, s, now, key)
  }

  lemma AnswerIsLive(notes: seq<Pin>, limit: nat, s: string, now: real, c: Option<int>)
    requires BoundAnswer(Recency(notes), limit, s, now, c)
    ensures c == PinOf(notes, limit, s, now)
  {
    if c.Some? {
      BoundIsLive(notes, limit, s, now, c.value);
      PinOfIs(notes, limit, s, now, c.value);
    } else {
      forall key ensures !LiveBinding(notes, limit, s, now, key) {
        BoundIsLive(notes, limit, s, now, key);
      }
    }
  }

  // ---- What the map keeps up -----------------------------------------------------------

  /** The map holds the kept pins of the memory f, and misses nothing it must not. */
  ghost predicate Holds(f: seq<Pin>, k: set<string>, pins: seq<Pin>, limit: nat, now: real, ttl: real) {
    && Distinct(f) && ByExpiry(f) && (forall i :: 0 <= i < |f| ==> f[i].expires <= now + ttl)
    && pins == Restrict(f, k) && Covers(f, k, limit, now)
  }

  lemma HoldsLater(f: seq<Pin>, k: set<string>, pins: seq<Pin>, limit: nat, clock: real, now: real, ttl: real)
    requires Holds(f, k, pins, limit, clock, ttl) && clock <= now
    ensures Holds(f, k, pins, limit, now, ttl)
  {
  }

  lemma NotedHolds(f: seq<Pin>, k: set<string>, pins: seq<Pin>, limit: nat, now: real, ttl: real, p: Pin)
    requires Holds(f, k, pins, limit, now, ttl) && p.expires == now + ttl
    ensures Holds(Touch(f, p), k + {p.session}, Without(pins, p.session) + [p], limit, now, ttl)
  {
    TouchKeeps(f, k, limit, now, p, ttl);
  }

  lemma EvictedHolds(f: seq<Pin>, k: set<string>, pins: seq<Pin>, limit: nat, now: real, ttl: real)
    requires Holds(f, k, pins, limit, now, ttl) && |pins| > limit
    ensures Holds(f, k - {pins[0].session}, pins[1..], limit, now, ttl)
  {
    EvictKeeps(f, k, limit, now);
  }

  lemma ExpiredHolds(f: seq<Pin>, k: set<string>, pins: seq<Pin>, limit: nat, now: real, ttl: real, i: nat)
    requires Holds(f, k, pins, limit, now, ttl) && i < |pins| && pins[i].expires <= now
    ensures Holds(f, k - {pins[i].session}, Without(pins, pins[i].session), limit, now, ttl)
    ensures |Without(pins, pins[i].session)| <= |pins|
  {
    RestrictMember(f, k, pins[i]);
    ExpiryKeeps(f, k, limit, now, pins[i]);
    RestrictDrop(f, k, pins[i].session);
    WithoutShrinks(pins, pins[i].session);
  }

  lemma HitIsBound(f: seq<Pin>, k: set<string>, pins: seq<Pin>, limit: nat, now: real, ttl: real, i: nat)
    requires Holds(f, k, pins, limit, now, ttl) && |pins| <= limit && i < |pins| && pins[i].expires > now
    ensures Bound(f, limit, pins[i].session, now, pins[i].credential)
  {
    LookupAgrees(f, k, limit, now, pins[i]);
  }

  /** No note is about an empty session. */
  ghost predicate AllNamed(notes: seq<Pin>) {
    forall i :: 0 <= i < |notes| ==> notes[i].session != ""
  }

  lemma NamedStill(notes: seq<Pin>, p: Pin)
    requires AllNamed(notes) && p.session != ""
    ensures AllNamed(notes + [p])
  {
  }

  // ---- The map -----------------------------------------------------------------------

  class AffinityMap {
    const ttl: real
    const maxSessions: nat
    var pins: seq<Pin>              // an ordered dictionary, oldest note first
    ghost var notes: seq<Pin>       // every note ever made
    ghost var recency: seq<Pin>     // every session ever noted
    ghost var kept: set<string>
    ghost var clock: real           // the latest moment seen

    ghost predicate Valid()
      reads this
    {
      && recency == Recency(notes) && AllNamed(notes)
      && Holds(recency, kept, pins, maxSessions, clock, ttl) && |pins| <= maxSessions
    }

    constructor (ttl: real, maxSessions: nat)
      requires maxSessions >= 1
      ensures Valid() && notes == [] && this.ttl == ttl && this.maxSessions == maxSessions
    {
      this.ttl, this.maxSessions := ttl, maxSessions;
      pins, notes, recency, kept, clock := [], [], [], {}, 0.0;
    }

    /** Bind a session to the key that just served it. */
    method Note(session: string, credential: Option<int>, now: real)
      requires Valid() && clock <= now && maxSessions >= 1
      modifies this
      ensures Valid() && clock == now
      ensures notes == if session == "" || credential.None? then old(notes)
                       else old(notes) + [Pin(session, credential.value, now + ttl)]
    {
      HoldsLater(recency, kept, pins, maxSessions, clock, now, ttl);
      clock := now;
      if session == "" || credential.None? {
        return;
      }
      var p := Pin(session, credential.value, now + ttl);
      RecencySnoc(notes, p);
      NamedStill(notes, p);
      notes := notes + [p];
      Keep(p, now);
    }

    /** Put the pin at the young end, and drop the oldest ones beyond the limit. */
    method Keep(p: Pin, now: real)
      requires Holds(recency, kept, pins, maxSessions, now, ttl) && p.expires == now + ttl
      modifies this`pins, this`recency, this`kept
      ensures Holds(recency, kept, pins, maxSessions, now, ttl) && |pins| <= maxSessions
      ensures recency == Touch(old(recency), p)
    {
      NotedHolds(recency, kept, pins, maxSessions, now, ttl, p);
      pins := Without(pins, p.session) + [p];
      recency, kept := Touch(recency, p), kept + {p.session};
      while |pins| > maxSessions
        invariant recency == Touch(old(recency), p)
        invariant Holds(recency, kept, pins, maxSessions, now, ttl)
        decreases |pins|
      {
        EvictedHolds(recency, kept, pins, maxSessions, now, ttl);
        kept := kept - {pins[0].session};
        pins := pins[1..];
      }
    }

    /** The key a session is pinned to. An expired pin found on the way is dropped. */
    method Lookup(session: string, now: real) returns (c: Option<int>)
      requires Valid() && clock <= now
      modifies this`pins, this`kept, this`clock
      ensures Valid() && clock == now
      ensures c == PinOf(notes, maxSessions, session, now)
    {
      HoldsLater(recency, kept, pins, maxSessions, clock, now, ttl);
      clock := now;
      c := Found(session, now);
      AnswerIsLive(notes, maxSessions, session, now, c);
    }

    method Found(session: string, now: real) returns (c: Option<int>)
      requires Holds(recency, kept, pins, maxSessions, now, ttl) && |pins| <= maxSessions
      modifies this`pins, this`kept
      ensures Holds(recency, kept, pins, maxSessions, now, ttl) && |pins| <= maxSessions
      ensures BoundAnswer(recency, maxSessions, session, now, c)
    {
      var i := Position(session);
      if i < |pins| && pins[i].expires > now {
        HitIsBound(recency, kept, pins, maxSessions, now, ttl, i);
        return Some(pins[i].credential);
      }
      if i < |pins| {
        ExpiredHolds(recency, kept, pins, maxSessions, now, ttl, i);
        kept := kept - {session};
        pins := Without(pins, session);
      }
      MissIsUnbound(recency, kept, maxSessions, now, session);
      return None;
    }

    method Position(session: string) returns (i: nat)
      ensures i <= |pins| && (i < |pins| ==> pins[i].session == session)
      ensures forall j :: 0 <= j < i ==> pins[j].session != session
    {
      i := 0;
      while i < |pins| && pins[i].session != session
        invariant i <= |pins| && forall j :: 0 <= j < i ==> pins[j].session != session
      {
        i := i + 1;
      }
    }
  }

  lemma {:induction false} WithoutShrinks(f: seq<Pin>, s: string)
    ensures |Without(f, s)| <= |f|
  {
    if f != [] {
      WithoutShrinks(f[..|f| - 1], s);
    }
  }

  lemma MissIsUnbound(f: seq<Pin>, k: set<string>, limit: nat, now: real, s: string)
    requires Covers(f, k, limit, now)
    requires s !in k || forall i :: 0 <= i < |Restrict(f, k)| ==> Restrict(f, k)[i].session != s
    ensures forall key :: !Bound(f, limit, s, now, key)
  {
    forall j | 0 <= j < |f| && f[j].session == s && f[j].expires > now ensures |f| - j > limit {
      RestrictMember(f, k, f[j]);
    }
  }

  lemma ExpiryKeeps(f: seq<Pin>, k: set<string>, limit: nat, now: real, p: Pin)
    requires Distinct(f) && Covers(f, k, limit, now) && p in f && p.expires <= now
    ensures Covers(f, k - {p.session}, limit, now)
  {
  }

  /** A note moves the session to the young end of both the memory and the map. */
  lemma TouchKeeps(f: seq<Pin>, k: set<string>, limit: nat, now: real, p: Pin, ttl: real)
    requires Distinct(f) && ByExpiry(f) && Covers(f, k, limit, now)
    requires p.expires == now + ttl && forall i :: 0 <= i < |f| ==> f[i].expires <= now + ttl
    ensures var f', k' := Touch(f, p), k + {p.session};
            && Distinct(f') && ByExpiry(f') && Covers(f', k', limit, now)
            && (forall i :: 0 <= i < |f'| ==> f'[i].expires <= now + ttl)
            && Restrict(f', k') == Without(Restrict(f, k), p.session) + [p]
  {
    var g, k' := Without(f, p.session), k + {p.session};
    var m := RemovalIndex(f, p.session);
    RemovedOrder(f, g, m, now + ttl);
    RestrictTouched(f, k, p);
    CoversTouched(f, g, m, k, limit, now, p);
  }

  lemma CoversTouched(f: seq<Pin>, g: seq<Pin>, m: nat, k: set<string>, limit: nat, now: real, p: Pin)
    requires Removed(f, g, m) && Covers(f, k, limit, now)
    requires forall i :: 0 <= i < |g| ==> g[i].session != p.session
    ensures Covers(g + [p], k + {p.session}, limit, now)
  {
    RemovedCovers(f, g, m, k, limit, now);
    var f', k' := g + [p], k + {p.session};
    forall i | 0 <= i < |f'| && f'[i].session !in k' && f'[i].expires > now ensures |f'| - i > limit {
      assert f'[i] == g[i];
    }
    forall i, j | 0 <= i < j < |f'| && f'[i].session in k' && f'[j].session !in k' ensures f'[j].expires <= now {
      assert f'[i] == g[i] && f'[j] == g[j];
    }
  }

  lemma RestrictTouched(f: seq<Pin>, k: set<string>, p: Pin)
    requires Distinct(f)
    ensures Restrict(Touch(f, p), k + {p.session}) == Without(Restrict(f, k), p.session) + [p]
  {
    var g, k' := Without(f, p.session), k + {p.session};
    var m := RemovalIndex(f, p.session);
    RestrictSame(g, k, k');
    RestrictWithout(f, k, p.session);
    assert (g + [p])[..|g|] == g;
  }

  function Skip(m: nat, i: nat): nat { if i < m then i else i + 1 }

  /** g is f, or f without its entry m. */
  ghost predicate Removed(f: seq<Pin>, g: seq<Pin>, m: nat) {
    if m == |f| then g == f
    else m < |f| && |g| == |f| - 1 && forall i :: 0 <= i < |g| ==> g[i] == f[Skip(m, i)]
  }

  lemma RemovalIndex(f: seq<Pin>, s: string) returns (m: nat)
    requires Distinct(f)
    ensures Removed(f, Without(f, s), m) && (m < |f| ==> f[m].session == s)
    ensures forall i :: 0 <= i < |Without(f, s)| ==> Without(f, s)[i].session != s
  {
    if j :| 0 <= j < |f| && f[j].session == s {
      m := j;
      WithoutAt(f, m);
      var g := Without(f, s);
      forall i | 0 <= i < |g| ensures g[i] == f[Skip(m, i)] && g[i].session != s {
        assert g[i] == (f[..m] + f[m + 1..])[i];
      }
    } else {
      m := |f|;
      WithoutNone(f, s);
    }
  }

  lemma RemovedOrder(f: seq<Pin>, g: seq<Pin>, m: nat, bound: real)
    requires Removed(f, g, m) && Distinct(f) && ByExpiry(f) && forall i :: 0 <= i < |f| ==> f[i].expires <= bound
    ensures Distinct(g) && ByExpiry(g) && forall i :: 0 <= i < |g| ==> g[i].expires <= bound
  {
    if m < |f| {
      forall i, j | 0 <= i < j < |g| ensures g[i].session != g[j].session && g[i].expires <= g[j].expires {
        assert g[i] == f[Skip(m, i)] && g[j] == f[Skip(m, j)];
      }
      forall i | 0 <= i < |g| ensures g[i].expires <= bound {
        assert g[i] == f[Skip(m, i)];
      }
    }
  }

  /** With a free place behind them, the remaining pins are still covered. */
  lemma RemovedCovers(f: seq<Pin>, g: seq<Pin>, m: nat, k: set<string>, limit: nat, now: real)
    requires Removed(f, g, m) && Covers(f, k, limit, now)
    ensures forall i :: 0 <= i < |g| && g[i].session !in k && g[i].expires > now ==> |g| + 1 - i > limit
    ensures forall i, j :: 0 <= i < j < |g| && g[i].session in k && g[j].session !in k ==> g[j].expires <= now
  {
    if m < |f| {
      forall i | 0 <= i < |g| && g[i].session !in k && g[i].expires > now ensures |g| + 1 - i > limit {
        assert g[i] == f[Skip(m, i)];
      }
      forall i, j | 0 <= i < j < |g| && g[i].session in k && g[j].session !in k ensures g[j].expires <= now {
        assert g[i] == f[Skip(m, i)] && g[j] == f[Skip(m, j)];
      }
    }
  }
}
