/** Whole runs of the burner: many workers dispatching, completing and failing requests
    in any order while time passes. Proved for every reachable state: no account ever
    burns more than its caps allow. */
module BurnerRun {
  import opened Ledger
  import opened AccountBudget
  import opened Accounts
  import opened Spending

  // ---- Choosing a key -------------------------------------------------------

  /** The outcome of one scan: nothing eligible, or account a and its key k. */
  datatype Choice = NoKey | Chosen(a: nat, k: nat)

  /** k is the least loaded usable key, the first of them on a tie. */
  ghost predicate BestKey(cfg: Config, keys: seq<Key>, now: real, k: nat) {
    && k < |keys| && KeyUsable(cfg, keys[k], now)
    && (forall j :: 0 <= j < |keys| && KeyUsable(cfg, keys[j], now) ==> keys[k].inflight <= keys[j].inflight)
    && (forall j :: 0 <= j < k && KeyUsable(cfg, keys[j], now) ==> keys[k].inflight < keys[j].inflight)
  }

  /** The choice is the least loaded eligible account (first on a tie) and its best key. */
  ghost predicate BestChoice(cfg: Config, accts: seq<Account>, now: real, c: Choice) {
    match c
    case NoKey => forall j :: 0 <= j < |accts| ==> !Eligible(cfg, accts[j], now)
    case Chosen(a, k) =>
      && a < |accts| && Eligible(cfg, accts[a], now) && BestKey(cfg, accts[a].keys, now, k)
      && (forall j :: 0 <= j < |accts| && Eligible(cfg, accts[j], now) ==> accts[a].inflight <= accts[j].inflight)
      && (forall j :: 0 <= j < a && Eligible(cfg, accts[j], now) ==> accts[a].inflight < accts[j].inflight)
  }

  method PickInAccount(cfg: Config, keys: seq<Key>, now: real) returns (found: bool, k: nat)
    ensures found ==> BestKey(cfg, keys, now, k)
    ensures !found ==> forall j :: 0 <= j < |keys| ==> !KeyUsable(cfg, keys[j], now)
  {
    found, k := false, 0;
    for i := 0 to |keys|
      invariant found ==> k < i && BestKey(cfg, keys[..i], now, k)
      invariant !found ==> forall j :: 0 <= j < i ==> !KeyUsable(cfg, keys[j], now)
    {
      assert keys[..i + 1] == keys[..i] + [keys[i]];
      if KeyUsable(cfg, keys[i], now) && (!found || keys[i].inflight < keys[k].inflight) {
        found, k := true, i;
      }
    }
    assert keys[..|keys|] == keys;
  }

  /** One more account in the scan: k is its best key, if it is eligible. */
  lemma ChoiceGrows(cfg: Config, front: seq<Account>, a: Account, now: real, c: Choice, found: bool, k: nat)
    requires BestChoice(cfg, front, now, c)
    requires found <==> Eligible(cfg, a, now)
    requires found ==> BestKey(cfg, a.keys, now, k)
    ensures var c' := if found && (c.NoKey? || a.inflight < front[c.a].inflight) then Chosen(|front|, k) else c;
            BestChoice(cfg, front + [a], now, c')
  {
    var all := front + [a];
    assert all[|front|] == a && forall j :: 0 <= j < |front| ==> all[j] == front[j];
  }

  /** The accounts and the worker loop around them. */
  class Burner {
    const accounts: seq<AccountState>
    const cfg: Config
    var pausedUntil: real   // the global back-off, set elsewhere

    constructor (cfg: Config, accounts: seq<AccountState>)
      ensures this.cfg == cfg && this.accounts == accounts && pausedUntil == 0.0
    {
      this.cfg, this.accounts, pausedUntil := cfg, accounts, 0.0;
    }

    /** No account is listed twice. */
    ghost predicate Valid() {
      forall i, j :: 0 <= i < j < |accounts| ==> accounts[i] != accounts[j]
    }

    ghost function View(): (v: seq<Account>)
      reads accounts
      ensures |v| == |accounts|
      ensures forall i :: 0 <= i < |v| ==> v[i] == accounts[i].View()
    {
      seq(|accounts|, i requires 0 <= i < |accounts| reads accounts => accounts[i].View())
    }

    method PickKey(now: real) returns (c: Choice)
      ensures BestChoice(cfg, View(), now, c)
    {
      c := NoKey;
      for i := 0 to |accounts|
        invariant c.Chosen? ==> c.a < i
        invariant BestChoice(cfg, View()[..i], now, c)
      {
        ghost var v := View();
        var found, k := UsableKey(accounts[i], now);
        ChoiceGrows(cfg, v[..i], v[i], now, c, found, k);
        assert v[..i + 1] == v[..i] + [v[i]];
        if found && (c.NoKey? || accounts[i].inflight < accounts[c.a].inflight) {
          c := Chosen(i, k);
        }
      }
      assert View()[..|accounts|] == View();
    }

    /** The key an account would offer, if it takes part in the scan at all. */
    method UsableKey(acct: AccountState, now: real) returns (found: bool, k: nat)
      ensures found <==> Eligible(cfg, acct.View(), now)
      ensures found ==> BestKey(cfg, acct.keys, now, k)
    {
      found, k := false, 0;
      if acct.inflight as real < Min(acct.target, cfg.perAccountMax as real)
         && acct.parkedUntil.Passed(now) && now >= acct.rateParkUntil {
        found, k := PickInAccount(cfg, acct.keys, now);
      }
    }

    /** One turn of a worker up to the point where the request is sent. Nothing else runs
        between the choice and the reservation. */
    method WorkerTurn(now: real) returns (c: Choice, sent: bool)
      requires Valid() && now >= WIN_WEEK
      requires forall i :: 0 <= i < |accounts| ==> NonNegative(accounts[i].events) && UpTo(accounts[i].events, now)
      modifies accounts
      ensures WorkerStep(cfg, old(View()), now, now < pausedUntil, View())
      ensures BestChoice(cfg, old(View()), now, c)
      ensures sent <==> c.Chosen? && now >= pausedUntil && CanPay(cfg, old(View())[c.a], cfg.estCost, now)
      ensures !sent && c.Chosen? && now >= pausedUntil ==>
                ParkedUntil(cfg, old(View())[c.a], cfg.estCost, now, accounts[c.a].parkedUntil)
    {
      c := PickKey(now);
      sent := false;
      if c.NoKey? || now < pausedUntil {
        return;
      }
      var acct := accounts[c.a];
      var ok := acct.BudgetAllow(cfg, cfg.estCost, now);
      if ok {
        acct.Reserve(cfg, c.k);
        sent := true;
        assert View() == old(View())[c.a := Reserved(cfg, old(View())[c.a], c.k)];
      } else {
        assert View() == old(View())[c.a := old(View())[c.a].(parkedUntil := acct.parkedUntil)];
      }
    }
  }

  // ---- Steps ------------------------------------------------------------------

  /** A worker's turn: nothing while all work is paused; else reserve on the chosen account
      if it can pay, or park it. */
  ghost predicate WorkerStep(cfg: Config, s: seq<Account>, now: real, paused: bool, s': seq<Account>) {
    if paused then s' == s else exists c :: BestChoice(cfg, s, now, c) && WorkerOutcome(cfg, s, now, c, s')
  }

  ghost predicate WorkerOutcome(cfg: Config, s: seq<Account>, now: real, c: Choice, s': seq<Account>)
    requires BestChoice(cfg, s, now, c)
  {
    match c
    case NoKey => s' == s
    case Chosen(a, k) =>
      if CanPay(cfg, s[a], cfg.estCost, now) then s' == s[a := Reserved(cfg, s[a], k)]
      else exists d :: ParkedUntil(cfg, s[a], cfg.estCost, now, d) && s' == s[a := s[a].(parkedUntil := d)]
  }

  /** What the run remembers about an account beyond its trimmed ledger: the debits
      trimmed so far, and by how much real costs have exceeded their estimates. */
  datatype Log = Log(dropped: seq<Event>, excess: real)

  datatype World = World(accts: seq<Account>, logs: seq<Log>, now: real)

  datatype Action =
    | Tick(to: real)
    | Worker(paused: bool)
    | Done(a: nat, k: nat, credits: real)
    | Error(a: nat, k: nat, f: Failure)
    | Rebalance

  function History(a: Account, g: Log): seq<Event> { g.dropped + a.events }

  function Overrun(cfg: Config, credits: real): real { Max(0.0, credits - cfg.estCost) }

  /** Key k of account a has a request in flight. */
  predicate InFlight(w: World, a: nat, k: nat) {
    a < |w.accts| && k < |w.accts[a].keys| && w.accts[a].keys[k].inflight > 0
  }

  ghost predicate Next(cfg: Config, w: World, act: Action, w': World)
    requires |w.logs| == |w.accts|
  {
    && |w'.logs| == |w'.accts| == |w.accts|
    && match act
       case Tick(t) => t >= w.now && w' == w.(now := t)
       case Worker(paused) => w'.now == w.now && w'.logs == w.logs && WorkerStep(cfg, w.accts, w.now, paused, w'.accts)
       case Done(a, k, c) =>
         && InFlight(w, a, k) && c >= 0.0
         && w'.now == w.now && w'.accts == w.accts[a := Completed(cfg, w.accts[a], k, w.now, c)]
         && w'.logs == w.logs[a := w'.logs[a]]
         && w'.logs[a].excess == w.logs[a].excess + Overrun(cfg, c)
         && History(w'.accts[a], w'.logs[a]) == History(w.accts[a], w.logs[a]) + [Event(w.now, c)]
       case Error(a, k, f) =>
         && InFlight(w, a, k)
         && w' == w.(accts := w.accts[a := Failed(cfg, w.accts[a], k, w.now, f)])
       case Rebalance =>
         && w'.now == w.now && w'.logs == w.logs
         && forall i :: 0 <= i < |w.accts| ==> w'.accts[i] == Rebalanced(cfg, w.accts[i], w.now)
  }

  // ---- The invariant ----------------------------------------------------------

  function Sum(keys: seq<Key>): int {
    if keys == [] then 0 else Sum(keys[..|keys| - 1]) + keys[|keys| - 1].inflight
  }

  function Attempts(keys: seq<Key>): int {
    if keys == [] then 0 else Attempts(keys[..|keys| - 1]) + keys[|keys| - 1].attempts
  }

  lemma {:induction false} SumUpdate(keys: seq<Key>, k: nat, key: Key)
    requires k < |keys|
    ensures Sum(keys[k := key]) == Sum(keys) - keys[k].inflight + key.inflight
    ensures Attempts(keys[k := key]) == Attempts(keys) - keys[k].attempts + key.attempts
  {
    var n := |keys| - 1;
    if k == n {
      assert keys[k := key][..n] == keys[..n];
    } else {
      SumUpdate(keys[..n], k, key);
      assert keys[k := key][..n] == keys[..n][k := key];
    }
  }

  lemma {:induction false} SumAtLeast(keys: seq<Key>, k: nat)
    requires k < |keys| && forall i :: 0 <= i < |keys| ==> keys[i].inflight >= 0
    ensures Sum(keys) >= keys[k].inflight
  {
    var n := |keys| - 1;
    if k == n {
      SumNonNegative(keys[..n]);
    } else {
      SumAtLeast(keys[..n], k);
    }
  }

  lemma {:induction false} SumNonNegative(keys: seq<Key>)
    requires forall i :: 0 <= i < |keys| ==> keys[i].inflight >= 0
    ensures Sum(keys) >= 0
  {
    if keys != [] {
      SumNonNegative(keys[..|keys| - 1]);
    }
  }

  /** The reservations of an account agree with what its keys have in flight. */
  ghost predicate Books(cfg: Config, a: Account) {
    && (forall i :: 0 <= i < |a.keys| ==> a.keys[i].inflight >= 0)
    && a.inflight == Sum(a.keys)
    && a.inflightCost == a.inflight as real * cfg.estCost
    && 0 <= a.inflight <= cfg.perAccountMax
    && 1.0 <= a.target
  }

  ghost predicate Ledgered(a: Account, g: Log, now: real) {
    && NonNegative(History(a, g)) && UpTo(History(a, g), now)
    && UpTo(g.dropped, now - KEEP)
    && g.excess >= 0.0
  }

  function FiveHours(cfg: Config, a: Account): Limit { Limit(a.anchor, WIN_5H, cfg.cap5h) }

  function Week(cfg: Config, a: Account): Limit { Limit(WeekBase(cfg, a), WIN_WEEK, cfg.capWeek) }

  /** Over the whole history, no window of this limit holds more than cap + slack: no
      stretch of its length when rolling, no aligned stretch when anchored. */
  ghost predicate NeverOver(l: Limit, history: seq<Event>, slack: real) {
    if l.anchor == 0.0 then forall x: real :: Burn(history, Stretch(l, x)) <= l.cap + slack
    else forall m: int :: Burn(history, Cell(l, m)) <= l.cap + slack
  }

  function Stretch(l: Limit, x: real): Window { Trailing(x, x + l.length) }

  function Cell(l: Limit, m: int): Window {
    Fixed(l.anchor + m as real * l.length, l.anchor + (m + 1) as real * l.length)
  }

  /** The limit covers what is burned now and everything reserved on top. */
  ghost predicate Reserves(l: Limit, a: Account, g: Log, now: real)
    requires IsWindowLength(l.length)
  {
    a.inflightCost <= l.Room(a.events, now) + g.excess
  }

  ghost predicate LimitKept(l: Limit, a: Account, g: Log, now: real)
    requires IsWindowLength(l.length)
  {
    Reserves(l, a, g, now) && NeverOver(l, History(a, g), g.excess)
  }

  ghost predicate BudgetKept(cfg: Config, a: Account, g: Log, now: real) {
    LimitKept(FiveHours(cfg, a), a, g, now) && LimitKept(Week(cfg, a), a, g, now)
  }

  /** The absolute cap can be passed only by what was already in flight. */
  ghost predicate TotalKept(cfg: Config, a: Account, g: Log) {
    a.creditsTotal + a.inflightCost < cfg.capTotal + cfg.perAccountMax as real * cfg.estCost + g.excess
  }

  ghost predicate Sane(cfg: Config, a: Account, g: Log, now: real) {
    Books(cfg, a) && Ledgered(a, g, now)
  }

  ghost predicate WorldSane(cfg: Config, w: World) {
    && |w.logs| == |w.accts| && w.now >= WIN_WEEK
    && forall i :: 0 <= i < |w.accts| ==> Sane(cfg, w.accts[i], w.logs[i], w.now)
  }

  ghost predicate ConfigOk(cfg: Config) {
    cfg.estCost >= 0.0 && cfg.perAccountMax >= 1
  }

  // ---- One account, one step ----------------------------------------------------

  /** History and ledger agree on every window in force. */
  lemma HistoryBurn(a: Account, g: Log, now: real, l: Limit)
    requires Ledgered(a, g, now) && IsWindowLength(l.length)
    ensures Burn(History(a, g), WindowAt(l.anchor, l.length, now)) == l.cap - l.Room(a.events, now)
  {
    DroppedIsInvisible(g.dropped, a.events, now, l.anchor, l.length, now);
  }

  lemma RoomIsBoth(cfg: Config, a: Account, now: real)
    requires now >= WIN_WEEK
    ensures Room(cfg, a, now)
         == Min(FiveHours(cfg, a).Room(a.events, now), Week(cfg, a).Room(a.events, now)) - a.inflightCost
  {
    WeekWindowIsWindowAt(WeekBase(cfg, a), now);
  }

  lemma ReservedKeeps(cfg: Config, a: Account, g: Log, now: real, k: nat)
    requires ConfigOk(cfg) && Sane(cfg, a, g, now) && now >= WIN_WEEK && k < |a.keys|
    requires Eligible(cfg, a, now)
    ensures Sane(cfg, Reserved(cfg, a, k), g, now)
    ensures CanPay(cfg, a, cfg.estCost, now) && !BudgetOff(cfg) && BudgetKept(cfg, a, g, now) ==>
              BudgetKept(cfg, Reserved(cfg, a, k), g, now)
    ensures CanPay(cfg, a, cfg.estCost, now) && cfg.capTotal > 0.0 ==> TotalKept(cfg, Reserved(cfg, a, k), g)
  {
    var b := Reserved(cfg, a, k);
    ReservedBooks(cfg, a, now, k);
    assert History(b, g) == History(a, g);
    if CanPay(cfg, a, cfg.estCost, now) {
      RoomIsBoth(cfg, a, now);
      if !BudgetOff(cfg) && BudgetKept(cfg, a, g, now) {
        ReservedLimit(FiveHours(cfg, a), a, b, g, now);
        ReservedLimit(Week(cfg, a), a, b, g, now);
      }
      if cfg.capTotal > 0.0 {
        ReservedTotal(cfg, b, g);
      }
    }
  }

  /** A reservation the limit has room for. */
  lemma ReservedLimit(l: Limit, a: Account, b: Account, g: Log, now: real)
    requires IsWindowLength(l.length) && LimitKept(l, a, g, now) && g.excess >= 0.0
    requires b.events == a.events && b.inflightCost <= l.Room(a.events, now)
    ensures LimitKept(l, b, g, now)
  {
    assert History(b, g) == History(a, g);
  }

  lemma ReservedTotal(cfg: Config, b: Account, g: Log)
    requires ConfigOk(cfg) && Books(cfg, b) && g.excess >= 0.0 && b.creditsTotal < cfg.capTotal
    ensures TotalKept(cfg, b, g)
  {
    ScaleMonotone(b.inflight, cfg.perAccountMax, cfg.estCost);
  }

  lemma ReservedBooks(cfg: Config, a: Account, now: real, k: nat)
    requires ConfigOk(cfg) && Books(cfg, a) && k < |a.keys| && Eligible(cfg, a, now)
    ensures Books(cfg, Reserved(cfg, a, k))
  {
    var key := a.keys[k];
    SumUpdate(a.keys, k, key.(inflight := key.inflight + 1, attempts := key.attempts + 1));
    OneMoreCosts(a.inflight, cfg.estCost);
    RoomForOne(a.inflight, a.target, cfg.perAccountMax);
  }

  lemma OneMoreCosts(n: int, c: real)
    ensures (n + 1) as real * c == n as real * c + c
  {
  }

  lemma RoomForOne(n: int, target: real, max: int)
    requires n as real < Min(target, max as real)
    ensures n + 1 <= max
  {
  }

  lemma ScaleMonotone(m: int, n: int, c: real)
    requires 0 <= m <= n && c >= 0.0
    ensures 0.0 <= m as real * c <= n as real * c
  {
  }

  lemma ReleasedBooks(cfg: Config, a: Account, k: nat)
    requires ConfigOk(cfg) && Books(cfg, a) && k < |a.keys| && a.keys[k].inflight > 0
    ensures Books(cfg, Released(cfg, a, k))
    ensures a.inflightCost >= Released(cfg, a, k).inflightCost >= 0.0
  {
    SumAtLeast(a.keys, k);
    SumUpdate(a.keys, k, a.keys[k].(inflight := a.keys[k].inflight - 1));
    var b := Released(cfg, a, k);
    assert b.inflight as real * cfg.estCost == a.inflight as real * cfg.estCost - cfg.estCost;
    ScaleMonotone(b.inflight, a.inflight, cfg.estCost);
  }

  lemma FailedKeeps(cfg: Config, a: Account, g: Log, now: real, k: nat, f: Failure)
    requires ConfigOk(cfg) && Sane(cfg, a, g, now) && k < |a.keys| && a.keys[k].inflight > 0
    ensures Sane(cfg, Failed(cfg, a, k, now, f), g, now)
    ensures BudgetKept(cfg, a, g, now) ==> BudgetKept(cfg, Failed(cfg, a, k, now, f), g, now)
    ensures TotalKept(cfg, a, g) ==> TotalKept(cfg, Failed(cfg, a, k, now, f), g)
  {
    var p := Penalised(cfg, a, k, now, f);
    if p.keys != a.keys {
      SumUpdate(a.keys, k, p.keys[k]);
    }
    ReleasedBooks(cfg, p, k);
    assert History(Failed(cfg, a, k, now, f), g) == History(a, g);
  }

  lemma RebalancedKeeps(cfg: Config, a: Account, g: Log, now: real)
    requires ConfigOk(cfg) && Sane(cfg, a, g, now)
    ensures Sane(cfg, Rebalanced(cfg, a, now), g, now)
    ensures BudgetKept(cfg, a, g, now) ==> BudgetKept(cfg, Rebalanced(cfg, a, now), g, now)
    ensures TotalKept(cfg, a, g) ==> TotalKept(cfg, Rebalanced(cfg, a, now), g)
  {
    assert History(Rebalanced(cfg, a, now), g) == History(a, g);
  }

  lemma TickKeeps(cfg: Config, a: Account, g: Log, now: real, t: real)
    requires Sane(cfg, a, g, now) && now <= t
    ensures Sane(cfg, a, g, t)
    ensures BudgetKept(cfg, a, g, now) ==> BudgetKept(cfg, a, g, t)
  {
    assert NonNegative(a.events) by {
      assert forall e :: e in a.events ==> e in History(a, g);
    }
    FiveHours(cfg, a).RoomGrows(a.events, now, t);
    Week(cfg, a).RoomGrows(a.events, now, t);
  }

  /** A debit at `now` keeps every past window within its limit, because the only
      windows it falls into are covered by what was reserved. */
  lemma DebitKeepsNeverOver(l: Limit, h: seq<Event>, now: real, c: real, slack: real, slack': real)
    requires IsWindowLength(l.length) && NonNegative(h) && UpTo(h, now) && c >= 0.0 && slack <= slack'
    requires NeverOver(l, h, slack)
    requires Burn(h + [Event(now, c)], WindowAt(l.anchor, l.length, now)) <= l.cap + slack'
    ensures NeverOver(l, h + [Event(now, c)], slack')
  {
    var h' := h + [Event(now, c)];
    assert NonNegative(h') && UpTo(h', now);
    if l.anchor == 0.0 {
      forall x: real ensures Burn(h', Stretch(l, x)) <= l.cap + slack' {
        BurnSnoc(h, Event(now, c), Stretch(l, x));
        if x < now <= x + l.length {
          BurnMonotone(h', WindowAt(l.anchor, l.length, now), Stretch(l, x));
        }
      }
    } else {
      forall m: int ensures Burn(h', Cell(l, m)) <= l.cap + slack' {
        BurnSnoc(h, Event(now, c), Cell(l, m));
        if Cell(l, m).Covers(now) {
          CellStart(l, m, now);
          BurnMonotone(h', WindowAt(l.anchor, l.length, now), Cell(l, m));
        }
      }
    }
  }

  lemma CellStart(l: Limit, m: int, now: real)
    requires IsWindowLength(l.length) && Cell(l, m).Covers(now)
    ensures WindowStart(l.anchor, l.length, now) == Cell(l, m).lo
  {
    WindowStartBounds(l.anchor, l.length, now);
    var k := ((now - l.anchor) / l.length).Floor;
    assert WindowStart(l.anchor, l.length, now) == l.anchor + k as real * l.length;
    SameCell(k, m, l.length, now - l.anchor);
    assert k as real * l.length == m as real * l.length;
  }

  lemma SameCell(k: int, m: int, length: real, offset: real)
    requires IsWindowLength(length)
    requires k as real * length <= offset < k as real * length + length
    requires m as real * length <= offset < (m + 1) as real * length
    ensures k == m
  {
  }

  lemma SettledLimit(cfg: Config, l: Limit, a: Account, g: Log, b: Account, g': Log, now: real, c: real)
    requires IsWindowLength(l.length) && c >= 0.0
    requires Ledgered(a, g, now) && Ledgered(b, g', now)
    requires History(b, g') == History(a, g) + [Event(now, c)]
    requires b.inflightCost == a.inflightCost - cfg.estCost && b.inflightCost >= 0.0
    requires g'.excess == g.excess + Overrun(cfg, c)
    requires LimitKept(l, a, g, now)
    ensures LimitKept(l, b, g', now)
  {
    var w := WindowAt(l.anchor, l.length, now);
    HistoryBurn(a, g, now, l);
    HistoryBurn(b, g', now, l);
    BurnSnoc(History(a, g), Event(now, c), w);
    assert Cost(Event(now, c), w) <= c;
    assert l.Room(b.events, now) >= l.Room(a.events, now) - c;
    DebitKeepsNeverOver(l, History(a, g), now, c, g.excess, g'.excess);
  }

  lemma CompletedKeeps(cfg: Config, a: Account, g: Log, now: real, k: nat, c: real, g': Log)
    requires ConfigOk(cfg) && Sane(cfg, a, g, now) && k < |a.keys| && a.keys[k].inflight > 0 && c >= 0.0
    requires g'.excess == g.excess + Overrun(cfg, c)
    requires History(Completed(cfg, a, k, now, c), g') == History(a, g) + [Event(now, c)]
    ensures Sane(cfg, Completed(cfg, a, k, now, c), g', now)
    ensures BudgetKept(cfg, a, g, now) ==> BudgetKept(cfg, Completed(cfg, a, k, now, c), g', now)
    ensures TotalKept(cfg, a, g) ==> TotalKept(cfg, Completed(cfg, a, k, now, c), g')
  {
    var b := Completed(cfg, a, k, now, c);
    CompletedBooks(cfg, a, now, k, c);
    TrimmedLog(a, g, now, c, b, g');
    if BudgetKept(cfg, a, g, now) {
      SettledLimit(cfg, FiveHours(cfg, a), a, g, b, g', now, c);
      SettledLimit(cfg, Week(cfg, a), a, g, b, g', now, c);
    }
  }

  lemma CompletedBooks(cfg: Config, a: Account, now: real, k: nat, c: real)
    requires ConfigOk(cfg) && Books(cfg, a) && k < |a.keys| && a.keys[k].inflight > 0
    ensures Books(cfg, Completed(cfg, a, k, now, c))
    ensures Completed(cfg, a, k, now, c).inflightCost >= 0.0
  {
    var p := a.(keys := a.keys[k := a.keys[k].(streak := 0)]);
    CalmedBooks(cfg, a, k);
    ReleasedBooks(cfg, p, k);
    SameBooks(cfg, Released(cfg, p, k), Completed(cfg, a, k, now, c));
  }

  lemma CalmedBooks(cfg: Config, a: Account, k: nat)
    requires Books(cfg, a) && k < |a.keys|
    ensures Books(cfg, a.(keys := a.keys[k := a.keys[k].(streak := 0)]))
  {
    SumUpdate(a.keys, k, a.keys[k].(streak := 0));
  }

  /** The books look at reservations and the target only. */
  lemma SameBooks(cfg: Config, a: Account, b: Account)
    requires Books(cfg, a) && a.keys == b.keys && a.inflight == b.inflight
    requires a.inflightCost == b.inflightCost && a.target == b.target
    ensures Books(cfg, b)
  {
  }

  /** What the settle step trims is old. */
  lemma TrimmedLog(a: Account, g: Log, now: real, c: real, b: Account, g': Log)
    requires Ledgered(a, g, now) && c >= 0.0 && g'.excess >= g.excess
    requires b.events == Booked(a.events, now, c)
    requires History(b, g') == History(a, g) + [Event(now, c)]
    ensures Ledgered(b, g', now)
  {
    var more := PopOldIsSuffix(a.events + [Event(now, c)], now - KEEP);
    assert (g.dropped + more) + b.events == g.dropped + (more + b.events) == History(b, g');
    assert |g'.dropped| == |g.dropped + more|;
    assert g'.dropped == History(b, g')[..|g'.dropped|] == g.dropped + more;
    assert forall e :: e in History(b, g') ==> e in History(a, g) || e == Event(now, c);
  }

  // ---- Every run ------------------------------------------------------------------

  ghost predicate IsRun(cfg: Config, ws: seq<World>, acts: seq<Action>) {
    && |ws| == |acts| + 1
    && (forall i :: 0 <= i < |ws| ==> |ws[i].logs| == |ws[i].accts|)
    && forall i :: 0 <= i < |acts| ==> Next(cfg, ws[i], acts[i], ws[i + 1])
  }

  /** How one account moves in one step. */
  lemma StepKeeps(cfg: Config, w: World, act: Action, w': World, i: nat)
    requires ConfigOk(cfg) && WorldSane(cfg, w) && Next(cfg, w, act, w') && i < |w.accts|
    ensures w'.now >= w.now
    ensures Sane(cfg, w'.accts[i], w'.logs[i], w'.now)
    ensures !BudgetOff(cfg) && BudgetKept(cfg, w.accts[i], w.logs[i], w.now) ==>
              BudgetKept(cfg, w'.accts[i], w'.logs[i], w'.now)
    ensures cfg.capTotal > 0.0 && TotalKept(cfg, w.accts[i], w.logs[i]) ==> TotalKept(cfg, w'.accts[i], w'.logs[i])
  {
    var a, g := w.accts[i], w.logs[i];
    match act {
      case Tick(t) =>
        TickKeeps(cfg, a, g, w.now, t);
      case Worker(paused) =>
        WorkerKeeps(cfg, w, paused, w', i);
      case Done(j, k, c) =>
        if j == i {
          CompletedKeeps(cfg, a, g, w.now, k, c, w'.logs[i]);
        }
      case Error(j, k, f) =>
        if j == i {
          FailedKeeps(cfg, a, g, w.now, k, f);
        }
      case Rebalance =>
        RebalancedKeeps(cfg, a, g, w.now);
    }
  }

  lemma WorkerKeeps(cfg: Config, w: World, paused: bool, w': World, i: nat)
    requires ConfigOk(cfg) && WorldSane(cfg, w) && Next(cfg, w, Worker(paused), w') && i < |w.accts|
    ensures Sane(cfg, w'.accts[i], w'.logs[i], w'.now)
    ensures !BudgetOff(cfg) && BudgetKept(cfg, w.accts[i], w.logs[i], w.now) ==>
              BudgetKept(cfg, w'.accts[i], w'.logs[i], w'.now)
    ensures cfg.capTotal > 0.0 && TotalKept(cfg, w.accts[i], w.logs[i]) ==> TotalKept(cfg, w'.accts[i], w'.logs[i])
  {
    var a, g := w.accts[i], w.logs[i];
    if paused {
      return;
    }
    var c :| BestChoice(cfg, w.accts, w.now, c) && WorkerOutcome(cfg, w.accts, w.now, c, w'.accts);
    assert Sane(cfg, a, g, w.now);
    if c.Chosen? && c.a == i {
      if CanPay(cfg, a, cfg.estCost, w.now) {
        ReservedKeeps(cfg, a, g, w.now, c.k);
      } else {
        var d :| ParkedUntil(cfg, a, cfg.estCost, w.now, d) && w'.accts == w.accts[i := a.(parkedUntil := d)];
        ParkedKeeps(cfg, a, g, w.now, d);
      }
    } else {
      assert w'.accts[i] == a;
    }
  }

  lemma ParkedKeeps(cfg: Config, a: Account, g: Log, now: real, d: Deadline)
    requires Sane(cfg, a, g, now)
    ensures Sane(cfg, a.(parkedUntil := d), g, now)
    ensures BudgetKept(cfg, a, g, now) ==> BudgetKept(cfg, a.(parkedUntil := d), g, now)
    ensures TotalKept(cfg, a, g) ==> TotalKept(cfg, a.(parkedUntil := d), g)
  {
    assert History(a.(parkedUntil := d), g) == History(a, g);
  }

  lemma {:induction false} RunIsSane(cfg: Config, ws: seq<World>, acts: seq<Action>, n: nat)
    requires ConfigOk(cfg) && IsRun(cfg, ws, acts) && n < |ws| && WorldSane(cfg, ws[0])
    ensures WorldSane(cfg, ws[n]) && |ws[n].accts| == |ws[0].accts|
  {
    if n > 0 {
      RunIsSane(cfg, ws, acts, n - 1);
      assert Next(cfg, ws[n - 1], acts[n - 1], ws[n]);
      forall i | 0 <= i < |ws[n].accts| ensures Sane(cfg, ws[n].accts[i], ws[n].logs[i], ws[n].now) {
        StepKeeps(cfg, ws[n - 1], acts[n - 1], ws[n], i);
      }
      if |ws[0].accts| == 0 {
        assert ws[n].now >= ws[n - 1].now;
      } else {
        StepKeeps(cfg, ws[n - 1], acts[n - 1], ws[n], 0);
      }
    }
  }

  /** Whole-run budget safety. In every reachable state each window's burn plus what is in
      flight stays within the cap, up to the amount by which real costs exceeded their
      estimates; and so does every window of the whole history, trimmed debits included. */
  lemma {:induction false} BudgetSafety(cfg: Config, ws: seq<World>, acts: seq<Action>, n: nat, i: nat)
    requires ConfigOk(cfg) && !BudgetOff(cfg) && IsRun(cfg, ws, acts) && n < |ws|
    requires WorldSane(cfg, ws[0]) && i < |ws[0].accts|
    requires BudgetKept(cfg, ws[0].accts[i], ws[0].logs[i], ws[0].now)
    ensures |ws[n].accts| == |ws[0].accts| && |ws[n].logs| == |ws[n].accts|
    ensures BudgetKept(cfg, ws[n].accts[i], ws[n].logs[i], ws[n].now)
  {
    if n > 0 {
      BudgetSafety(cfg, ws, acts, n - 1, i);
      RunIsSane(cfg, ws, acts, n - 1);
      StepKeeps(cfg, ws[n - 1], acts[n - 1], ws[n], i);
    }
  }

  /** Never over a limit, told from the debits alone. */
  lemma NeverOverIsNeverSpent(l: Limit, history: seq<Event>, slack: real)
    requires NeverOver(l, history, slack)
    ensures NeverSpent(history, l.anchor, l.length, l.cap + slack)
  {
    if l.anchor == 0.0 {
      forall x: real, y: real | y == x + l.length ensures Spent(history, x, y) <= l.cap + slack {
        BurnIsSpent(history, x, y);
        assert Burn(history, Stretch(l, x)) <= l.cap + slack;
      }
    } else {
      forall m: int ensures SpentFrom(history, Edge(l.anchor, l.length, m), Edge(l.anchor, l.length, m + 1))
                         <= l.cap + slack {
        BurnIsSpent(history, Edge(l.anchor, l.length, m), Edge(l.anchor, l.length, m + 1));
        assert Cell(l, m) == Fixed(Edge(l.anchor, l.length, m), Edge(l.anchor, l.length, m + 1));
        assert Burn(history, Cell(l, m)) <= l.cap + slack;
      }
    }
  }

  /** The caps hold: in every run from an account without debits, no five hours and no week
      of its history hold more than their caps, up to the excess of real costs over estimates.
      An account with its own week anchor keeps to its own weeks, whatever the global anchor. */
  lemma CapsHold(cfg: Config, ws: seq<World>, acts: seq<Action>, n: nat, i: nat)
    requires ConfigOk(cfg) && (cfg.cap5h > 0.0 || cfg.capWeek > 0.0) && IsRun(cfg, ws, acts) && n < |ws|
    requires WorldSane(cfg, ws[0]) && i < |ws[0].accts| && cfg.cap5h >= 0.0 && cfg.capWeek >= 0.0
    requires ws[0].accts[i].events == [] && ws[0].accts[i].inflightCost == 0.0 && ws[0].logs[i] == Log([], 0.0)
    ensures |ws[n].accts| == |ws[0].accts| && |ws[n].logs| == |ws[n].accts|
    ensures var a, h, slack := ws[n].accts[i], History(ws[n].accts[i], ws[n].logs[i]), ws[n].logs[i].excess;
            && NeverSpent(h, a.anchor, FIVE_HOURS, cfg.cap5h + slack)
            && (a.weekAnchor != 0.0 ==> NeverSpent(h, a.weekAnchor, A_WEEK, cfg.capWeek + slack))
            && (a.weekAnchor == 0.0 ==> NeverSpent(h, cfg.weekFallback, A_WEEK, cfg.capWeek + slack))
    ensures ws[n].accts[i].anchor == ws[0].accts[i].anchor && ws[n].accts[i].weekAnchor == ws[0].accts[i].weekAnchor
  {
    assert History(ws[0].accts[i], ws[0].logs[i]) == [];
    BudgetSafety(cfg, ws, acts, n, i);
    AnchorsStay(cfg, ws, acts, n, i);
    var a, h, slack := ws[n].accts[i], History(ws[n].accts[i], ws[n].logs[i]), ws[n].logs[i].excess;
    NeverOverIsNeverSpent(FiveHours(cfg, a), h, slack);
    NeverOverIsNeverSpent(Week(cfg, a), h, slack);
  }

  lemma {:induction false} AnchorsStay(cfg: Config, ws: seq<World>, acts: seq<Action>, n: nat, i: nat)
    requires IsRun(cfg, ws, acts) && n < |ws| && i < |ws[0].accts|
    ensures |ws[n].accts| == |ws[0].accts|
    ensures ws[n].accts[i].anchor == ws[0].accts[i].anchor && ws[n].accts[i].weekAnchor == ws[0].accts[i].weekAnchor
  {
    if n > 0 {
      AnchorsStay(cfg, ws, acts, n - 1, i);
      assert Next(cfg, ws[n - 1], acts[n - 1], ws[n]);
    }
  }

  /** Honest estimates: no completion of the run costs more than was reserved. */
  ghost predicate Honest(cfg: Config, acts: seq<Action>) {
    forall n :: 0 <= n < |acts| && acts[n].Done? ==> acts[n].credits <= cfg.estCost
  }

  lemma {:induction false} HonestHasNoExcess(cfg: Config, ws: seq<World>, acts: seq<Action>, n: nat, i: nat)
    requires IsRun(cfg, ws, acts) && n < |ws| && i < |ws[0].accts| && Honest(cfg, acts)
    ensures |ws[n].accts| == |ws[0].accts| && ws[n].logs[i].excess == ws[0].logs[i].excess
  {
    if n > 0 {
      HonestHasNoExcess(cfg, ws, acts, n - 1, i);
      assert Next(cfg, ws[n - 1], acts[n - 1], ws[n]);
    }
  }

  /** With honest estimates the caps are never exceeded at all. */
  lemma {:induction false} HonestRunsStayWithinCaps(cfg: Config, ws: seq<World>, acts: seq<Action>, n: nat, i: nat)
    requires ConfigOk(cfg) && !BudgetOff(cfg) && IsRun(cfg, ws, acts) && n < |ws|
    requires WorldSane(cfg, ws[0]) && i < |ws[0].accts| && ws[0].logs[i].excess == 0.0
    requires BudgetKept(cfg, ws[0].accts[i], ws[0].logs[i], ws[0].now)
    requires Honest(cfg, acts)
    ensures |ws[n].accts| == |ws[0].accts| && |ws[n].logs| == |ws[n].accts|
    ensures var a, h := ws[n].accts[i], History(ws[n].accts[i], ws[n].logs[i]);
            && a.inflightCost <= FiveHours(cfg, a).Room(a.events, ws[n].now)
            && a.inflightCost <= Week(cfg, a).Room(a.events, ws[n].now)
            && NeverOver(FiveHours(cfg, a), h, 0.0) && NeverOver(Week(cfg, a), h, 0.0)
  {
    BudgetSafety(cfg, ws, acts, n, i);
    HonestHasNoExcess(cfg, ws, acts, n, i);
  }

  /** The absolute cap is overshot by less than one full load of the account. */
  lemma {:induction false} TotalOvershootIsBounded(cfg: Config, ws: seq<World>, acts: seq<Action>, n: nat, i: nat)
    requires ConfigOk(cfg) && cfg.capTotal > 0.0 && IsRun(cfg, ws, acts) && n < |ws|
    requires WorldSane(cfg, ws[0]) && i < |ws[0].accts|
    requires ws[0].accts[i].creditsTotal < cfg.capTotal
    ensures |ws[n].accts| == |ws[0].accts| && |ws[n].logs| == |ws[n].accts|
    ensures ws[n].accts[i].creditsTotal < cfg.capTotal + cfg.perAccountMax as real * cfg.estCost + ws[n].logs[i].excess
  {
    RunKeepsTotal(cfg, ws, acts, n, i);
    RunIsSane(cfg, ws, acts, n);
    var a := ws[n].accts[i];
    assert Sane(cfg, a, ws[n].logs[i], ws[n].now);
    ScaleMonotone(a.inflight, cfg.perAccountMax, cfg.estCost);
  }

  lemma {:induction false} RunKeepsTotal(cfg: Config, ws: seq<World>, acts: seq<Action>, n: nat, i: nat)
    requires ConfigOk(cfg) && cfg.capTotal > 0.0 && IsRun(cfg, ws, acts) && n < |ws|
    requires WorldSane(cfg, ws[0]) && i < |ws[0].accts|
    requires ws[0].accts[i].creditsTotal < cfg.capTotal
    ensures |ws[n].accts| == |ws[0].accts| && |ws[n].logs| == |ws[n].accts|
    ensures TotalKept(cfg, ws[n].accts[i], ws[n].logs[i])
  {
    if n == 0 {
      assert Sane(cfg, ws[0].accts[i], ws[0].logs[i], ws[0].now);
      ScaleMonotone(ws[0].accts[i].inflight, cfg.perAccountMax, cfg.estCost);
    } else {
      RunKeepsTotal(cfg, ws, acts, n - 1, i);
      RunIsSane(cfg, ws, acts, n - 1);
      StepKeeps(cfg, ws[n - 1], acts[n - 1], ws[n], i);
    }
  }

  /** Once the absolute cap is reached no request is ever dispatched again, whatever
      happens to the account's parking in the meantime. */
  lemma {:induction false} CapReachedIsFinal(cfg: Config, ws: seq<World>, acts: seq<Action>, m: nat, n: nat, i: nat)
    requires IsRun(cfg, ws, acts) && m <= n < |ws| && i < |ws[0].accts|
    ensures |ws[m].accts| == |ws[n].accts| == |ws[0].accts|
    ensures CapReached(cfg, ws[m].accts[i]) ==>
              CapReached(cfg, ws[n].accts[i]) && Attempts(ws[n].accts[i].keys) == Attempts(ws[m].accts[i].keys)
    decreases n
  {
    if n > 0 {
      CapReachedIsFinal(cfg, ws, acts, 0, n - 1, i);
    }
    if m < n {
      CapReachedIsFinal(cfg, ws, acts, m, n - 1, i);
      assert Next(cfg, ws[n - 1], acts[n - 1], ws[n]);
      if CapReached(cfg, ws[m].accts[i]) {
        CapReachedStep(cfg, ws[n - 1], acts[n - 1], ws[n], i);
      }
    }
  }

  /** A worker's turn moves at most a reservation or a parking. */
  lemma WorkerLeavesLedger(cfg: Config, w: World, paused: bool, w': World, i: nat)
    requires |w.logs| == |w.accts| && Next(cfg, w, Worker(paused), w') && i < |w.accts|
    ensures w'.accts[i].events == w.accts[i].events && w'.accts[i].creditsTotal == w.accts[i].creditsTotal
  {
    if !paused {
      var c :| BestChoice(cfg, w.accts, w.now, c) && WorkerOutcome(cfg, w.accts, w.now, c, w'.accts);
    }
  }

  lemma WorkerAttempts(cfg: Config, w: World, paused: bool, w': World, i: nat)
    requires |w.logs| == |w.accts| && Next(cfg, w, Worker(paused), w') && i < |w.accts|
    requires CapReached(cfg, w.accts[i])
    ensures w'.accts[i].creditsTotal == w.accts[i].creditsTotal && w'.accts[i].keys == w.accts[i].keys
  {
    if !paused {
      var c :| BestChoice(cfg, w.accts, w.now, c) && WorkerOutcome(cfg, w.accts, w.now, c, w'.accts);
    }
  }

  lemma CapReachedStep(cfg: Config, w: World, act: Action, w': World, i: nat)
    requires |w.logs| == |w.accts| && Next(cfg, w, act, w') && i < |w.accts|
    requires CapReached(cfg, w.accts[i])
    ensures CapReached(cfg, w'.accts[i]) && Attempts(w'.accts[i].keys) == Attempts(w.accts[i].keys)
  {
    match act {
      case Tick(_) =>
      case Rebalance =>
      case Worker(paused) =>
        WorkerAttempts(cfg, w, paused, w', i);
      case Done(j, k, c) =>
        if j == i {
          DoneAttempts(cfg, w.accts[i], k, w.now, c);
        }
      case Error(j, k, f) =>
        if j == i {
          ErrorAttempts(cfg, w.accts[i], k, w.now, f);
        }
    }
  }

  lemma DoneAttempts(cfg: Config, a: Account, k: nat, now: real, c: real)
    requires k < |a.keys|
    ensures Attempts(Completed(cfg, a, k, now, c).keys) == Attempts(a.keys)
  {
    var p := a.keys[k := a.keys[k].(streak := 0)];
    SumUpdate(a.keys, k, p[k]);
    SumUpdate(p, k, p[k].(inflight := p[k].inflight - 1));
  }

  lemma ErrorAttempts(cfg: Config, a: Account, k: nat, now: real, f: Failure)
    requires k < |a.keys|
    ensures Attempts(Failed(cfg, a, k, now, f).keys) == Attempts(a.keys)
    ensures Failed(cfg, a, k, now, f).creditsTotal == a.creditsTotal
  {
    var p := Penalised(cfg, a, k, now, f).keys;
    if p != a.keys {
      SumUpdate(a.keys, k, p[k]);
    }
    SumUpdate(p, k, p[k].(inflight := p[k].inflight - 1));
  }

  // ---- Bookkeeping and starting point ---------------------------------------------

  /** The running total always accounts for exactly the debits of the whole history. */
  lemma {:induction false} TotalIsTheHistory(cfg: Config, ws: seq<World>, acts: seq<Action>, n: nat, i: nat)
    requires IsRun(cfg, ws, acts) && n < |ws| && i < |ws[0].accts|
    ensures |ws[n].accts| == |ws[0].accts|
    ensures ws[n].accts[i].creditsTotal - Burn(History(ws[n].accts[i], ws[n].logs[i]), All)
            == ws[0].accts[i].creditsTotal - Burn(History(ws[0].accts[i], ws[0].logs[i]), All)
  {
    if n > 0 {
      TotalIsTheHistory(cfg, ws, acts, n - 1, i);
      TotalStep(cfg, ws[n - 1], acts[n - 1], ws[n], i);
    }
  }

  lemma TotalStep(cfg: Config, w: World, act: Action, w': World, i: nat)
    requires |w.logs| == |w.accts| && Next(cfg, w, act, w') && i < |w.accts|
    ensures w'.accts[i].creditsTotal - Burn(History(w'.accts[i], w'.logs[i]), All)
            == w.accts[i].creditsTotal - Burn(History(w.accts[i], w.logs[i]), All)
  {
    match act {
      case Tick(_) =>
      case Rebalance =>
      case Worker(paused) =>
        WorkerLeavesLedger(cfg, w, paused, w', i);
      case Done(j, k, c) =>
        if j == i {
          BurnSnoc(History(w.accts[i], w.logs[i]), Event(w.now, c), All);
        }
      case Error(j, k, f) =>
        if j == i {
          assert w'.accts[i].events == w.accts[i].events;
        }
    }
  }

  /** Every completion can be logged: the step relation never blocks a real settle. */
  lemma DoneIsPossible(cfg: Config, w: World, a: nat, k: nat, c: real) returns (w': World)
    requires |w.logs| == |w.accts| && InFlight(w, a, k) && c >= 0.0
    ensures Next(cfg, w, Done(a, k, c), w')
  {
    var acct, log := w.accts[a], w.logs[a];
    var more := PopOldIsSuffix(acct.events + [Event(w.now, c)], w.now - KEEP);
    var acct' := Completed(cfg, acct, k, w.now, c);
    var log' := Log(log.dropped + more, log.excess + Overrun(cfg, c));
    assert History(acct', log') == log.dropped + (more + acct'.events) == History(acct, log) + [Event(w.now, c)];
    w' := World(w.accts[a := acct'], w.logs[a := log'], w.now);
  }

  /** A fresh account starts inside every bound. */
  lemma FreshAccountIsSafe(cfg: Config, a: Account, now: real)
    requires ConfigOk(cfg) && cfg.cap5h >= 0.0 && cfg.capWeek >= 0.0
    requires a.events == [] && a.inflight == 0 && a.inflightCost == 0.0 && a.target >= 1.0
    requires forall k :: 0 <= k < |a.keys| ==> a.keys[k].inflight == 0
    ensures Sane(cfg, a, Log([], 0.0), now) && BudgetKept(cfg, a, Log([], 0.0), now)
  {
    NoneInFlight(a.keys);
    assert History(a, Log([], 0.0)) == [];
  }

  lemma {:induction false} NoneInFlight(keys: seq<Key>)
    requires forall k :: 0 <= k < |keys| ==> keys[k].inflight == 0
    ensures Sum(keys) == 0
  {
    if keys != [] {
      NoneInFlight(keys[..|keys| - 1]);
    }
  }
}
