/** When the translated history keeps every tool round together: an assistant message with
    calls, then exactly its answers. */
module ToolRounds {
  import opened Common
  import opened ToolHistory

  // ---- The property and the guard -----------------------------------------------------

  /** The messages right behind message p are this block. */
  ghost predicate IsBehind(ms: seq<Message>, p: nat, block: seq<Message>) {
    p + |block| < |ms| && forall q :: 0 <= q < |block| ==> ms[p + 1 + q] == block[q]
  }

  /** The block answers exactly these calls. */
  ghost predicate AnswersAll(block: seq<Message>, calls: seq<Call>) {
    && |block| == |calls| && Answered(block) == multiset(Ids(calls))
    && forall q :: 0 <= q < |block| ==> block[q].calls == [] && block[q].answers.Some?
  }

  /** Message p and the answers to all its calls stand next to each other. */
  ghost predicate WholeRound(ms: seq<Message>, p: nat)
    requires p < |ms|
  {
    exists block :: IsBehind(ms, p, block) && AnswersAll(block, ms[p].calls)
  }

  /** Every message with calls is immediately followed by exactly its answers. */
  ghost predicate Adjacent(ms: seq<Message>) {
    forall p :: 0 <= p < |ms| && ms[p].calls != [] ==> WholeRound(ms, p)
  }

  /** Call ids that have been read but not sent, and call ids sent but not answered. */
  datatype Books = Books(pending: seq<string>, open: seq<string>)

  function Booked(b: Books, item: Item): Books {
    match item
    case FunctionCall(_, _, _, _, _) => b.(pending := b.pending + [CallOf(item).id])
    case Output(id, _) =>
      var open := b.open + b.pending;
      Books([], if id in open then RemoveFirst(open, id) else open)
    case Turn(_, _) => Books([], [])
    case _ => b
  }

  function BooksOf(items: seq<Item>): Books {
    if items == [] then Books([], []) else Booked(BooksOf(items[..|items| - 1]), items[|items| - 1])
  }

  /** Before item i, or at the end, calls are sent while earlier calls are unanswered. */
  predicate OverlapsAt(items: seq<Item>, i: nat)
    requires i <= |items|
  {
    var b := BooksOf(items[..i]);
    (i == |items| || items[i].Output? || items[i].Turn?) && b.pending != [] && b.open != []
  }

  lemma {:induction false} BooksAgree(forward: bool, items: seq<Item>)
    ensures var s := FeedAll(forward, EMPTY, items);
            BooksOf(items) == Books(Ids(s.pending), s.open)
  {
    if items != [] {
      var front, last := items[..|items| - 1], items[|items| - 1];
      var s := FeedAll(forward, EMPTY, front);
      BooksAgree(forward, front);
      if last.FunctionCall? {
        assert Ids(s.pending + [CallOf(last)]) == Ids(s.pending) + [CallOf(last).id];
      } else if last.Output? && s.pending == [] {
        assert s.open + Ids(s.pending) == s.open;
      }
    }
  }

  // ---- Counting --------------------------------------------------------------------------

  lemma {:induction false} CountsAppend(a: seq<Message>, b: seq<Message>)
    ensures Opened(a + b) == Opened(a) + Opened(b)
    ensures Answered(a + b) == Answered(a) + Answered(b)
  {
    if b == [] {
      assert a + b == a;
    } else {
      var front, last := b[..|b| - 1], b[|b| - 1];
      assert (a + b)[..|a + b| - 1] == a + front;
      CountsAppend(a, front);
    }
  }

  lemma {:induction false} NothingOpened(ms: seq<Message>)
    requires forall q :: 0 <= q < |ms| ==> ms[q].calls == []
    ensures Opened(ms) == multiset{}
  {
    if ms != [] {
      NothingOpened(ms[..|ms| - 1]);
      assert Ids(ms[|ms| - 1].calls) == [];
    }
  }

  lemma {:induction false} LastCalls(ms: seq<Message>) returns (found: bool, p: nat)
    ensures found ==> p < |ms| && ms[p].calls != [] && forall q :: p < q < |ms| ==> ms[q].calls == []
    ensures !found ==> forall q :: 0 <= q < |ms| ==> ms[q].calls == []
  {
    if ms == [] {
      found, p := false, 0;
    } else if ms[|ms| - 1].calls != [] {
      found, p := true, |ms| - 1;
    } else {
      found, p := LastCalls(ms[..|ms| - 1]);
    }
  }

  /** A prefix that ends before a message with calls has its rounds whole. */
  lemma AdjacentBefore(ms: seq<Message>, p: nat)
    requires Adjacent(ms) && p < |ms| && ms[p].calls != []
    ensures Adjacent(ms[..p])
  {
    forall q | 0 <= q < p && ms[q].calls != [] ensures WholeRound(ms[..p], q) {
      RoundBefore(ms, p, q);
    }
  }

  lemma RoundBefore(ms: seq<Message>, p: nat, q: nat)
    requires q < p < |ms| && ms[p].calls != [] && WholeRound(ms, q)
    ensures WholeRound(ms[..p], q)
  {
    var block :| IsBehind(ms, q, block) && AnswersAll(block, ms[q].calls);
    assert q + |block| >= p ==> ms[q + 1 + (p - q - 1)] == block[p - q - 1];
    assert IsBehind(ms[..p], q, block);
  }

  lemma RoundCounts(ms: seq<Message>, p: nat)
    requires p < |ms| && WholeRound(ms, p) && forall q :: p < q < |ms| ==> ms[q].calls == []
    ensures Opened(ms) == Opened(ms[..p]) + multiset(Ids(ms[p].calls))
    ensures Answered(ms[..p]) + multiset(Ids(ms[p].calls)) <= Answered(ms)
  {
    var block :| IsBehind(ms, p, block) && AnswersAll(block, ms[p].calls);
    var head, tail := ms[..p], ms[p + 1 + |block|..];
    NothingOpened(block);
    NothingOpened(tail);
    PartsCount(head, ms[p], block, tail);
    Parts(ms, p, block);
  }

  lemma Parts(ms: seq<Message>, p: nat, block: seq<Message>)
    requires IsBehind(ms, p, block)
    ensures ms == ((ms[..p] + [ms[p]]) + block) + ms[p + 1 + |block|..]
  {
  }

  lemma PartsCount(head: seq<Message>, m: Message, block: seq<Message>, tail: seq<Message>)
    requires Opened(block) == Opened(tail) == multiset{}
    ensures Opened(((head + [m]) + block) + tail) == Opened(head) + multiset(Ids(m.calls))
    ensures Answered(head) + Answered(block) <= Answered(((head + [m]) + block) + tail)
  {
    CountsAppend((head + [m]) + block, tail);
    CountsAppend(head + [m], block);
    SnocCounts(head, m);
  }

  /** Whole rounds answer all they open. */
  lemma {:induction false} AdjacentIsAnswered(ms: seq<Message>)
    requires Adjacent(ms)
    ensures Opened(ms) <= Answered(ms)
    decreases |ms|
  {
    var found, p := LastCalls(ms);
    if found {
      assert WholeRound(ms, p);
      AdjacentBefore(ms, p);
      AdjacentIsAnswered(ms[..p]);
      RoundCounts(ms, p);
    } else {
      NothingOpened(ms);
    }
  }

  // ---- Without an overlap every round stays together -----------------------------------------

  /** The rounds before message p are whole; those of its calls that are not `open` have
      been answered right behind it. */
  ghost predicate RoundOpen(ms: seq<Message>, p: nat, open: multiset<string>) {
    && p < |ms| && Adjacent(ms[..p]) && ms[p].calls != []
    && (forall q :: p < q < |ms| ==> ms[q].calls == [] && ms[q].answers.Some?)
    && Answered(ms[p + 1..]) + open == multiset(Ids(ms[p].calls))
  }

  ghost predicate Tidy(ms: seq<Message>, open: multiset<string>) {
    if open == multiset{} then Adjacent(ms) else exists p: nat :: RoundOpen(ms, p, open)
  }

  lemma WholeRoundGrows(ms: seq<Message>, more: seq<Message>, p: nat)
    requires p < |ms| && WholeRound(ms, p)
    ensures WholeRound(ms + more, p)
  {
    var block :| IsBehind(ms, p, block) && AnswersAll(block, ms[p].calls);
    assert IsBehind(ms + more, p, block);
  }

  lemma AdjacentGrows(ms: seq<Message>, m: Message)
    requires Adjacent(ms) && m.calls == []
    ensures Adjacent(ms + [m])
  {
    forall p | 0 <= p < |ms| && ms[p].calls != [] ensures WholeRound(ms + [m], p) {
      WholeRoundGrows(ms, [m], p);
    }
  }

  lemma TidyCalls(ms: seq<Message>, calls: seq<Call>)
    requires Adjacent(ms) && calls != []
    ensures Tidy(ms + [CallsMessage(calls)], multiset(Ids(calls)))
  {
    var all := ms + [CallsMessage(calls)];
    assert all[..|ms|] == ms && all[|ms| + 1..] == [];
    assert Ids(calls)[0] in multiset(Ids(calls));
    assert RoundOpen(all, |ms|, multiset(Ids(calls)));
  }

  lemma {:induction false} AnswersCount(ms: seq<Message>)
    requires forall q :: 0 <= q < |ms| ==> ms[q].answers.Some?
    ensures |Answered(ms)| == |ms|
  {
    if ms != [] {
      AnswersCount(ms[..|ms| - 1]);
    }
  }

  lemma TidyAnswer(ms: seq<Message>, open: multiset<string>, id: string, body: Body)
    requires Tidy(ms, open) && id in open
    ensures Tidy(ms + [AnswerMessage(id, body)], open - multiset{id})
  {
    assert open[id] > 0;
    var p: nat :| RoundOpen(ms, p, open);
    RoundTakes(ms, p, open, AnswerMessage(id, body));
    if open - multiset{id} == multiset{} {
      RoundClosed(ms + [AnswerMessage(id, body)], p);
    }
  }

  lemma RoundTakes(ms: seq<Message>, p: nat, open: multiset<string>, m: Message)
    requires RoundOpen(ms, p, open) && m.calls == [] && m.answers.Some? && m.answers.value in open
    ensures RoundOpen(ms + [m], p, open - AnswersOf(m))
  {
    var all, tail := ms + [m], ms[p + 1..];
    assert all[..p] == ms[..p] && all[p + 1..] == tail + [m];
    SnocCounts(tail, m);
    MovedOver(Answered(tail), open, m.answers.value);
  }

  lemma MovedOver(done: multiset<string>, open: multiset<string>, id: string)
    requires id in open
    ensures (done + multiset{id}) + (open - multiset{id}) == done + open
  {
  }

  /** The last answer makes the round whole. */
  lemma RoundClosed(ms: seq<Message>, p: nat)
    requires RoundOpen(ms, p, multiset{})
    ensures Adjacent(ms)
  {
    LastRoundWhole(ms, p);
    forall q | 0 <= q < |ms| && ms[q].calls != [] ensures WholeRound(ms, q) {
      if q < p {
        EarlierRoundWhole(ms, p, q);
      }
    }
  }

  lemma EarlierRoundWhole(ms: seq<Message>, p: nat, q: nat)
    requires q < p <= |ms| && ms[q].calls != [] && Adjacent(ms[..p])
    ensures WholeRound(ms, q)
  {
    assert ms[..p][q] == ms[q];
    assert WholeRound(ms[..p], q);
    WholeRoundGrows(ms[..p], ms[p..], q);
    assert ms == ms[..p] + ms[p..];
  }

  lemma LastRoundWhole(ms: seq<Message>, p: nat)
    requires RoundOpen(ms, p, multiset{})
    ensures WholeRound(ms, p)
  {
    var block := ms[p + 1..];
    AnswersCount(block);
    assert |Ids(ms[p].calls)| == |multiset(Ids(ms[p].calls))|;
    assert IsBehind(ms, p, block) && AnswersAll(block, ms[p].calls);
  }

  lemma SyntheticHead(ms: seq<Message>, open: seq<string>)
    requires open != []
    ensures ms + Synthetic(open) == (ms + [AnswerMessage(open[0], Text(NO_OUTPUT))]) + Synthetic(open[1..])
  {
  }

  lemma {:induction false} TidySynthetic(ms: seq<Message>, open: seq<string>)
    requires Tidy(ms, multiset(open))
    ensures Adjacent(ms + Synthetic(open))
    decreases |open|
  {
    if open == [] {
      assert ms + Synthetic(open) == ms;
    } else {
      var first := AnswerMessage(open[0], Text(NO_OUTPUT));
      HeadOut(open);
      TidyAnswer(ms, multiset(open), open[0], Text(NO_OUTPUT));
      TidySynthetic(ms + [first], open[1..]);
      SyntheticHead(ms, open);
    }
  }

  lemma {:induction false} TidyPlain(ms: seq<Message>, more: seq<Message>)
    requires Adjacent(ms) && forall m :: m in more ==> m.calls == []
    ensures Adjacent(ms + more)
    decreases |more|
  {
    if more == [] {
      assert ms + more == ms;
    } else {
      assert more[0] in more;
      AdjacentGrows(ms, more[0]);
      TidyPlain(ms + [more[0]], more[1..]);
      assert ms + more == (ms + [more[0]]) + more[1..];
    }
  }

  ghost predicate InOrder(s: State) { Tidy(s.messages, multiset(s.open)) }

  lemma NothingOpen(open: seq<string>)
    ensures multiset(open) == multiset{} <==> open == []
  {
    if open != [] {
      assert open[0] in multiset(open);
    }
  }

  lemma FlushCallsTidy(s: State)
    requires InOrder(s) && (s.pending == [] || s.open == [])
    ensures InOrder(FlushCalls(s))
  {
    if s.pending != [] {
      TidyCalls(s.messages, s.pending);
      assert [] + Ids(s.pending) == Ids(s.pending);
    }
  }

  lemma AnswerOpenTidy(s: State)
    requires InOrder(s)
    ensures InOrder(AnswerOpen(s)) && Adjacent(AnswerOpen(s).messages)
  {
    TidySynthetic(s.messages, s.open);
  }

  lemma FlushDeferredTidy(s: State)
    requires Adjacent(s.messages)
    ensures Adjacent(FlushDeferred(s).messages)
  {
    TidyPlain(s.messages, ImageMessages(s.images));
    TidyPlain(s.messages + ImageMessages(s.images), TextMessages(s.texts));
  }

  lemma OutputTidy(forward: bool, t: State, id: string, raw: Raw)
    requires InOrder(t) && t.pending == []
    ensures InOrder(Feed(forward, t, Output(id, raw)))
  {
    if id in t.open {
      var u := t.(messages := t.messages + [AnswerMessage(id, Render(forward, raw))], open := RemoveFirst(t.open, id));
      RemoveFirstMultiset(t.open, id);
      TidyAnswer(t.messages, multiset(t.open), id, Render(forward, raw));
      NothingOpen(u.open);
      if u.open == [] {
        FlushDeferredTidy(u);
      }
    }
  }

  lemma FeedTidy(forward: bool, s: State, item: Item)
    requires InOrder(s) && (item.Output? || item.Turn? ==> s.pending == [] || s.open == [])
    ensures InOrder(Feed(forward, s, item))
  {
    match item {
      case FunctionCall(_, _, _, _, _) =>
      case Other =>
      case Output(id, raw) =>
        FlushCallsTidy(s);
        assert Feed(forward, s, item) == Feed(forward, FlushCalls(s), item);
        OutputTidy(forward, FlushCalls(s), id, raw);
      case Image(url) =>
        if forward && s.pending == [] && s.open == [] {
          AdjacentGrows(s.messages, if url != "" then ImageMessage(url) else PlainMessage(User, Text(PLACEHOLDER)));
        }
      case Turn(role, raw) =>
        FlushCallsTidy(s);
        AnswerOpenTidy(FlushCalls(s));
        AdjacentGrows(AnswerOpen(FlushCalls(s)).messages, PlainMessage(RoleOf(role), Render(forward, raw)));
    }
  }

  lemma {:induction false} FeedAllTidy(forward: bool, items: seq<Item>)
    requires forall i :: 0 <= i < |items| ==> !OverlapsAt(items, i)
    ensures InOrder(FeedAll(forward, EMPTY, items))
  {
    if items != [] {
      var n := |items| - 1;
      var front := items[..n];
      forall i | 0 <= i < n ensures !OverlapsAt(front, i) {
        assert front[..i] == items[..i] && !OverlapsAt(items, i);
      }
      FeedAllTidy(forward, front);
      assert !OverlapsAt(items, n);
      BooksAgree(forward, front);
      FeedTidy(forward, FeedAll(forward, EMPTY, front), items[n]);
    }
  }

  // ---- An overlap tears a round apart -----------------------------------------------------------

  ghost predicate Grown(before: State, after: State) {
    |before.messages| <= |after.messages| && after.messages[..|before.messages|] == before.messages
  }

  lemma FeedGrows(forward: bool, s: State, item: Item)
    ensures Grown(s, Feed(forward, s, item))
    ensures item.Output? || item.Turn? ==> Grown(FlushCalls(s), Feed(forward, s, item))
  {
  }

  lemma {:induction false} FeedAllGrows(forward: bool, items: seq<Item>, i: nat)
    requires i <= |items|
    ensures Grown(FeedAll(forward, EMPTY, items[..i]), FeedAll(forward, EMPTY, items))
  {
    if i == |items| {
      assert items[..i] == items;
    } else {
      var front := items[..|items| - 1];
      assert front[..i] == items[..i];
      FeedAllGrows(forward, front, i);
      FeedGrows(forward, FeedAll(forward, EMPTY, front), items[|items| - 1]);
      GrownTwice(FeedAll(forward, EMPTY, items[..i]), FeedAll(forward, EMPTY, front), FeedAll(forward, EMPTY, items));
    }
  }

  lemma GrownTwice(a: State, b: State, c: State)
    requires Grown(a, b) && Grown(b, c)
    ensures Grown(a, c)
  {
    assert c.messages[..|a.messages|] == c.messages[..|b.messages|][..|a.messages|];
  }

  /** Calls sent while others were open keep those apart from their answers for good. */
  lemma TornApart(s: State, ms: seq<Message>)
    requires Good(s) && s.pending != [] && s.open != []
    requires |s.messages| < |ms| && ms[..|s.messages| + 1] == FlushCalls(s).messages
    ensures !Adjacent(ms)
  {
    var n := |s.messages|;
    OpenIsUnanswered(s);
    if Adjacent(ms) {
      assert ms[n] == ms[..n + 1][n] == CallsMessage(s.pending);
      assert ms[..n] == ms[..n + 1][..n] == s.messages;
      AdjacentBefore(ms, n);
      AdjacentIsAnswered(s.messages);
    }
  }

  lemma OpenIsUnanswered(s: State)
    requires Good(s) && s.open != []
    ensures !(Opened(s.messages) <= Answered(s.messages))
  {
    var id := s.open[0];
    assert multiset(s.open)[id] > 0;
    assert Opened(s.messages)[id] == Answered(s.messages)[id] + multiset(s.open)[id];
  }

  lemma OverlapTears(forward: bool, items: seq<Item>, i: nat)
    requires i <= |items| && OverlapsAt(items, i)
    ensures !Adjacent(Translate(forward, Items(items)))
  {
    var s, t := FeedAll(forward, EMPTY, items[..i]), FeedAll(forward, EMPTY, items);
    BooksAgree(forward, items[..i]);
    FeedAllGood(forward, items[..i]);
    assert Grown(FlushCalls(s), Close(t)) by {
      if i == |items| {
        assert items[..i] == items;
      } else {
        FeedGrows(forward, s, items[i]);
        assert items[..i + 1][..i] == items[..i];
        FeedAllGrows(forward, items, i + 1);
        GrownTwice(FlushCalls(s), FeedAll(forward, EMPTY, items[..i + 1]), t);
      }
      CloseGrows(t);
      GrownTwice(FlushCalls(s), if i == |items| then FlushCalls(t) else t, Close(t));
    }
    TornApart(s, Close(t).messages);
  }

  lemma CloseGrows(t: State)
    ensures Grown(FlushCalls(t), Close(t)) && Grown(t, Close(t)) && Grown(FlushCalls(t), FlushCalls(t))
  {
  }

  /** For every transcript: each assistant message with calls is immediately followed by
      exactly its answers if and only if calls are never sent while earlier ones are open. */
  lemma AdjacencyIsExact(forward: bool, items: seq<Item>)
    ensures Adjacent(Translate(forward, Items(items)))
       <==> forall i :: 0 <= i <= |items| ==> !OverlapsAt(items, i)
  {
    if i :| 0 <= i <= |items| && OverlapsAt(items, i) {
      OverlapTears(forward, items, i);
    } else {
      var s := FeedAll(forward, EMPTY, items);
      FeedAllTidy(forward, items);
      assert !OverlapsAt(items, |items|);
      assert items[..|items|] == items;
      BooksAgree(forward, items);
      FlushCallsTidy(s);
      AnswerOpenTidy(FlushCalls(s));
      FlushDeferredTidy(AnswerOpen(FlushCalls(s)));
    }
  }

  lemma BooksSnoc(items: seq<Item>, item: Item)
    ensures BooksOf(items + [item]) == Booked(BooksOf(items), item)
  {
    assert (items + [item])[..|items|] == items;
  }

  lemma BooksOfCall(items: seq<Item>, item: Item, b: Books)
    requires BooksOf(items) == b && item.FunctionCall?
    ensures BooksOf(items + [item]) == Books(b.pending + [CallOf(item).id], b.open)
  {
    BooksSnoc(items, item);
  }

  lemma BooksOfFirstAnswer(items: seq<Item>, item: Item, a: string, b: string)
    requires BooksOf(items) == Books([a, b], []) && item.Output? && item.callId == a
    ensures BooksOf(items + [item]) == Books([], [b])
  {
    BooksSnoc(items, item);
    assert [] + [a, b] == [a, b] && [a, b][1..] == [b];
  }

  /** A call that arrives between the answers of another round splits that round. */
  lemma InterleavedRoundIsSplit(forward: bool, o: Raw)
    ensures !Adjacent(Translate(forward, Items([
              FunctionCall("a", "", "", "f", "{}"), FunctionCall("b", "", "", "f", "{}"), Output("a", o),
              FunctionCall("c", "", "", "f", "{}"), Output("b", o), Output("c", o)])))
  {
    var i0, i1, i2 := FunctionCall("a", "", "", "f", "{}"), FunctionCall("b", "", "", "f", "{}"), Output("a", o);
    var i3, i4, i5 := FunctionCall("c", "", "", "f", "{}"), Output("b", o), Output("c", o);
    var items := [i0, i1, i2, i3, i4, i5];
    BooksOfCall([], i0, Books([], []));
    BooksOfCall([] + [i0], i1, Books([] + ["a"], []));
    assert [] + ["a"] + ["b"] == ["a", "b"];
    BooksOfFirstAnswer([] + [i0] + [i1], i2, "a", "b");
    BooksOfCall([] + [i0] + [i1] + [i2], i3, Books([], ["b"]));
    assert items[..4] == [] + [i0] + [i1] + [i2] + [i3];
    assert OverlapsAt(items, 4);
    AdjacencyIsExact(forward, items);
  }

  // ---- Nothing is lost and nothing invented ----------------------------------------------------

  /** Call ids an output may answer when item i is read. */
  function Asked(items: seq<Item>): seq<string> { BooksOf(items).open + BooksOf(items).pending }

  /** The answers an item brings: an output its own, if its call is waiting; a message a
      placeholder for every call still waiting. */
  function AnswersDue(forward: bool, asked: seq<string>, item: Item): seq<Message> {
    match item
    case Output(id, raw) => if id in asked then [AnswerMessage(id, Render(forward, raw))] else []
    case Turn(_, _) => Synthetic(asked)
    case _ => []
  }

  function AllAnswersDue(forward: bool, items: seq<Item>): seq<Message> {
    if items == [] then []
    else
      var front := items[..|items| - 1];
      AllAnswersDue(forward, front) + AnswersDue(forward, Asked(front), items[|items| - 1])
  }

  function AnswerMessages(ms: seq<Message>): seq<Message> {
    if ms == [] then []
    else AnswerMessages(ms[..|ms| - 1]) + (if ms[|ms| - 1].answers.Some? then [ms[|ms| - 1]] else [])
  }

  lemma {:induction false} AnswerMessagesAppend(a: seq<Message>, b: seq<Message>)
    ensures AnswerMessages(a + b) == AnswerMessages(a) + AnswerMessages(b)
  {
    if b == [] {
      assert a + b == a;
    } else {
      assert (a + b)[..|a + b| - 1] == a + b[..|b| - 1];
      AnswerMessagesAppend(a, b[..|b| - 1]);
    }
  }

  lemma {:induction false} OnlyAnswers(ms: seq<Message>)
    requires forall i :: 0 <= i < |ms| ==> ms[i].answers.Some?
    ensures AnswerMessages(ms) == ms
  {
    if ms != [] {
      OnlyAnswers(ms[..|ms| - 1]);
      assert ms == ms[..|ms| - 1] + [ms[|ms| - 1]];
    }
  }

  lemma {:induction false} NoAnswers(ms: seq<Message>)
    requires forall i :: 0 <= i < |ms| ==> ms[i].answers.None?
    ensures AnswerMessages(ms) == []
  {
    if ms != [] {
      NoAnswers(ms[..|ms| - 1]);
    }
  }

  lemma AppendedAnswers(ms: seq<Message>, more: seq<Message>)
    ensures (forall i :: 0 <= i < |more| ==> more[i].answers.None?) ==> AnswerMessages(ms + more) == AnswerMessages(ms)
    ensures (forall i :: 0 <= i < |more| ==> more[i].answers.Some?)
        ==> AnswerMessages(ms + more) == AnswerMessages(ms) + more
  {
    AnswerMessagesAppend(ms, more);
    if forall i :: 0 <= i < |more| ==> more[i].answers.None? {
      NoAnswers(more);
    }
    if forall i :: 0 <= i < |more| ==> more[i].answers.Some? {
      OnlyAnswers(more);
    }
  }

  lemma FlushCallsAnswers(s: State)
    ensures AnswerMessages(FlushCalls(s).messages) == AnswerMessages(s.messages)
    ensures FlushCalls(s).open == s.open + Ids(s.pending)
  {
    if s.pending != [] {
      AppendedAnswers(s.messages, [CallsMessage(s.pending)]);
    }
  }

  lemma FlushDeferredAnswers(s: State)
    ensures AnswerMessages(FlushDeferred(s).messages) == AnswerMessages(s.messages)
  {
    AppendedAnswers(s.messages, ImageMessages(s.images));
    AppendedAnswers(s.messages + ImageMessages(s.images), TextMessages(s.texts));
  }

  lemma FeedAnswers(forward: bool, s: State, item: Item)
    ensures AnswerMessages(Feed(forward, s, item).messages)
         == AnswerMessages(s.messages) + AnswersDue(forward, s.open + Ids(s.pending), item)
  {
    match item {
      case FunctionCall(_, _, _, _, _) =>
      case Other =>
      case Output(id, raw) =>
        OutputAnswers(forward, s, id, raw);
      case Image(url) =>
        AppendedAnswers(s.messages, [if url != "" then ImageMessage(url) else PlainMessage(User, Text(PLACEHOLDER))]);
      case Turn(role, raw) =>
        TurnAnswers(s, PlainMessage(RoleOf(role), Render(forward, raw)));
    }
  }

  lemma OutputAnswers(forward: bool, s: State, id: string, raw: Raw)
    ensures AnswerMessages(Feed(forward, s, Output(id, raw)).messages)
         == AnswerMessages(s.messages) + AnswersDue(forward, s.open + Ids(s.pending), Output(id, raw))
  {
    FlushCallsAnswers(s);
    FlushedOutput(forward, s, id, raw);
    OutputAnswersFlushed(forward, FlushCalls(s), id, raw);
  }

  lemma FlushedOutput(forward: bool, s: State, id: string, raw: Raw)
    ensures Feed(forward, s, Output(id, raw)) == Feed(forward, FlushCalls(s), Output(id, raw))
    ensures FlushCalls(s).pending == []
  {
  }

  lemma OutputAnswersFlushed(forward: bool, t: State, id: string, raw: Raw)
    requires t.pending == []
    ensures AnswerMessages(Feed(forward, t, Output(id, raw)).messages)
         == AnswerMessages(t.messages) + AnswersDue(forward, t.open, Output(id, raw))
  {
    if id in t.open {
      OneAnswer(t, AnswerMessage(id, Render(forward, raw)), RemoveFirst(t.open, id));
    }
  }

  lemma OneAnswer(t: State, m: Message, open: seq<string>)
    requires m.answers.Some?
    ensures var u := t.(messages := t.messages + [m], open := open);
            AnswerMessages(u.messages) == AnswerMessages(FlushDeferred(u).messages) == AnswerMessages(t.messages) + [m]
  {
    OnlyAnswers([m]);
    AnswerMessagesAppend(t.messages, [m]);
    FlushDeferredAnswers(t.(messages := t.messages + [m], open := open));
  }

  lemma TurnAnswers(s: State, m: Message)
    requires m.answers.None?
    ensures AnswerMessages(AnswerOpen(FlushCalls(s)).messages + [m])
         == AnswerMessages(s.messages) + Synthetic(s.open + Ids(s.pending))
  {
    FlushCallsAnswers(s);
    AnswerOpenAnswers(FlushCalls(s));
    NoAnswers([m]);
    AnswerMessagesAppend(AnswerOpen(FlushCalls(s)).messages, [m]);
  }

  lemma AnswerOpenAnswers(t: State)
    ensures AnswerMessages(AnswerOpen(t).messages) == AnswerMessages(t.messages) + Synthetic(t.open)
  {
    OnlyAnswers(Synthetic(t.open));
    AnswerMessagesAppend(t.messages, Synthetic(t.open));
  }

  lemma {:induction false} FeedAllAnswers(forward: bool, items: seq<Item>)
    ensures AnswerMessages(FeedAll(forward, EMPTY, items).messages) == AllAnswersDue(forward, items)
  {
    if items != [] {
      var front := items[..|items| - 1];
      FeedAllAnswers(forward, front);
      BooksAgree(forward, front);
      FeedAnswers(forward, FeedAll(forward, EMPTY, front), items[|items| - 1]);
    }
  }

  /** For every transcript: the answers sent are, in order, exactly the outputs whose call
      was waiting, each once with its own content, and one placeholder for each call that
      got none. */
  lemma AnswersAreExact(forward: bool, items: seq<Item>)
    ensures AnswerMessages(Translate(forward, Items(items))) == AllAnswersDue(forward, items) + Synthetic(Asked(items))
  {
    var s := FeedAll(forward, EMPTY, items);
    FeedAllAnswers(forward, items);
    BooksAgree(forward, items);
    FlushCallsAnswers(s);
    AnswerOpenAnswers(FlushCalls(s));
    FlushDeferredAnswers(AnswerOpen(FlushCalls(s)));
  }

  // ---- What is said, and in which order --------------------------------------------------------

  /** The ordinary messages of a history: no calls, no answers. */
  function Ordinary(ms: seq<Message>): seq<Message> {
    if ms == [] then []
    else Ordinary(ms[..|ms| - 1]) + (if InRound(ms[|ms| - 1]) then [] else [ms[|ms| - 1]])
  }

  /** What an item says outside of tool rounds: a message itself, a bare image one message
      (or a remark that it is missing). */
  function Says(forward: bool, item: Item): seq<Message> {
    match item
    case Turn(role, raw) => [PlainMessage(RoleOf(role), Render(forward, raw))]
    case Image(url) => PictureMessages(forward, url)
    case _ => []
  }

  /** What the items with these numbers say, one after the other. */
  function Told(forward: bool, items: seq<Item>, order: seq<nat>): seq<Message> {
    if order == [] then []
    else
      var last := order[|order| - 1];
      Told(forward, items, order[..|order| - 1]) + (if last < |items| then Says(forward, items[last]) else [])
  }

  /** The numbers of the items whose message is sent, and of those whose image or remark
      is held back. */
  datatype Track = Track(sent: seq<nat>, images: seq<nat>, remarks: seq<nat>)

  function Line(t: Track): seq<nat> { t.sent + t.images + t.remarks }

  predicate Busy(b: Books) { b.pending != [] || b.open != [] }

  predicate ClosesRound(b: Books, item: Item) {
    item.Output? && item.callId in b.open + b.pending && Booked(b, item).open == []
  }

  function Tracked(forward: bool, b: Books, t: Track, n: nat, item: Item): Track {
    match item
    case Output(_, _) => if ClosesRound(b, item) then Track(Line(t), [], []) else t
    case Turn(_, _) => t.(sent := t.sent + [n])
    case Image(url) =>
      if !forward then t
      else if !Busy(b) then t.(sent := t.sent + [n])
      else if url != "" then t.(images := t.images + [n])
      else t.(remarks := t.remarks + [n])
    case _ => t
  }

  function Tracks(forward: bool, items: seq<Item>): Track {
    if items == [] then Track([], [], [])
    else
      var front := items[..|items| - 1];
      Tracked(forward, BooksOf(front), Tracks(forward, front), |front|, items[|items| - 1])
  }

  /** The numbers of the items that say something, in the order in which they are sent. */
  function Order(forward: bool, items: seq<Item>): seq<nat> { Line(Tracks(forward, items)) }

  ghost predicate Below(order: seq<nat>, n: nat) { forall k :: 0 <= k < |order| ==> order[k] < n }

  ghost predicate TrackBelow(t: Track, n: nat) { Below(t.sent, n) && Below(t.images, n) && Below(t.remarks, n) }

  lemma {:induction false} OrdinaryAppend(a: seq<Message>, b: seq<Message>)
    ensures Ordinary(a + b) == Ordinary(a) + Ordinary(b)
  {
    if b == [] {
      assert a + b == a;
    } else {
      assert (a + b)[..|a + b| - 1] == a + b[..|b| - 1];
      OrdinaryAppend(a, b[..|b| - 1]);
    }
  }

  lemma {:induction false} OrdinaryOnly(ms: seq<Message>)
    ensures (forall m :: m in ms ==> !InRound(m)) ==> Ordinary(ms) == ms
    ensures (forall m :: m in ms ==> InRound(m)) ==> Ordinary(ms) == []
  {
    if ms != [] {
      var front, last := ms[..|ms| - 1], ms[|ms| - 1];
      assert last in ms && ms == front + [last] && forall m :: m in front ==> m in ms;
      OrdinaryOnly(front);
    }
  }

  lemma OrdinaryPlus(ms: seq<Message>, more: seq<Message>)
    ensures (forall m :: m in more ==> !InRound(m)) ==> Ordinary(ms + more) == Ordinary(ms) + more
    ensures (forall m :: m in more ==> InRound(m)) ==> Ordinary(ms + more) == Ordinary(ms)
  {
    OrdinaryAppend(ms, more);
    OrdinaryOnly(more);
  }

  lemma {:induction false} ToldAppend(forward: bool, items: seq<Item>, a: seq<nat>, b: seq<nat>)
    ensures Told(forward, items, a + b) == Told(forward, items, a) + Told(forward, items, b)
  {
    if b == [] {
      assert a + b == a;
    } else {
      assert (a + b)[..|a + b| - 1] == a + b[..|b| - 1];
      ToldAppend(forward, items, a, b[..|b| - 1]);
    }
  }

  lemma {:induction false} ToldStill(forward: bool, items: seq<Item>, item: Item, order: seq<nat>)
    requires Below(order, |items|)
    ensures Told(forward, items + [item], order) == Told(forward, items, order)
  {
    if order != [] {
      ToldStill(forward, items, item, order[..|order| - 1]);
    }
  }

  lemma ToldOneMore(forward: bool, items: seq<Item>, item: Item, order: seq<nat>)
    requires Below(order, |items|)
    ensures Told(forward, items + [item], order + [|items|]) == Told(forward, items, order) + Says(forward, item)
  {
    ToldStill(forward, items, item, order);
    assert (order + [|items|])[..|order|] == order;
  }

  lemma {:induction false} TrackInRange(forward: bool, items: seq<Item>)
    ensures TrackBelow(Tracks(forward, items), |items|)
  {
    if items != [] {
      TrackInRange(forward, items[..|items| - 1]);
    }
  }

  /** The buffers hold what the track says. */
  ghost predicate Follows(forward: bool, items: seq<Item>, s: State, t: Track) {
    && Ordinary(s.messages) == Told(forward, items, t.sent)
    && ImageMessages(s.images) == Told(forward, items, t.images)
    && TextMessages(s.texts) == Told(forward, items, t.remarks)
  }

  lemma FollowsStill(forward: bool, items: seq<Item>, item: Item, s: State, t: Track)
    requires Follows(forward, items, s, t)
    requires TrackBelow(t, |items|)
    ensures Follows(forward, items + [item], s, t)
  {
    ToldStill(forward, items, item, t.sent);
    ToldStill(forward, items, item, t.images);
    ToldStill(forward, items, item, t.remarks);
  }

  lemma FlushCallsSays(s: State)
    ensures Ordinary(FlushCalls(s).messages) == Ordinary(s.messages)
  {
    if s.pending != [] {
      OrdinaryPlus(s.messages, [CallsMessage(s.pending)]);
    }
  }

  lemma AnswerOpenSays(s: State)
    ensures Ordinary(AnswerOpen(s).messages) == Ordinary(s.messages)
  {
    OrdinaryPlus(s.messages, Synthetic(s.open));
  }

  lemma FlushDeferredSays(forward: bool, items: seq<Item>, s: State, t: Track)
    requires Follows(forward, items, s, t)
    ensures Follows(forward, items, FlushDeferred(s), Track(Line(t), [], []))
  {
    OrdinaryPlus(s.messages, ImageMessages(s.images));
    OrdinaryPlus(s.messages + ImageMessages(s.images), TextMessages(s.texts));
    ToldAppend(forward, items, t.sent, t.images);
    ToldAppend(forward, items, t.sent + t.images, t.remarks);
  }

  lemma TurnFollows(forward: bool, items: seq<Item>, item: Item, s: State, t: Track)
    requires Follows(forward, items, s, t) && item.Turn?
    requires TrackBelow(t, |items|)
    ensures Follows(forward, items + [item], Feed(forward, s, item), t.(sent := t.sent + [|items|]))
  {
    FollowsStill(forward, items, item, s, t);
    ToldOneMore(forward, items, item, t.sent);
    FlushCallsSays(s);
    AnswerOpenSays(FlushCalls(s));
    OrdinaryPlus(AnswerOpen(FlushCalls(s)).messages, Says(forward, item));
  }

  lemma ImageFollows(forward: bool, items: seq<Item>, url: string, s: State, t: Track, b: Books)
    requires Follows(forward, items, s, t) && b == Books(Ids(s.pending), s.open)
    requires TrackBelow(t, |items|)
    ensures Follows(forward, items + [Image(url)], Feed(forward, s, Image(url)),
                    Tracked(forward, b, t, |items|, Image(url)))
  {
    FollowsStill(forward, items, Image(url), s, t);
    if forward && !Busy(b) {
      ToldOneMore(forward, items, Image(url), t.sent);
      OrdinaryPlus(s.messages, Says(forward, Image(url)));
    } else if forward {
      HeldBackFollows(forward, items, url, s, t);
    }
  }

  lemma HeldBackFollows(forward: bool, items: seq<Item>, url: string, s: State, t: Track)
    requires forward && Follows(forward, items, s, t) && Follows(forward, items + [Image(url)], s, t)
    requires TrackBelow(t, |items|)
    ensures var all := items + [Image(url)];
            if url != "" then
              Follows(forward, all, s.(images := s.images + [url]), t.(images := t.images + [|items|]))
            else
              Follows(forward, all, s.(texts := s.texts + [PLACEHOLDER]), t.(remarks := t.remarks + [|items|]))
  {
    if url != "" {
      ImagesTold(items, url, s.images, t.images);
    } else {
      RemarksTold(items, s.texts, t.remarks);
    }
  }

  lemma ImagesTold(items: seq<Item>, url: string, images: seq<string>, order: seq<nat>)
    requires url != "" && Below(order, |items|) && ImageMessages(images) == Told(true, items, order)
    ensures ImageMessages(images + [url]) == Told(true, items + [Image(url)], order + [|items|])
  {
    ToldOneMore(true, items, Image(url), order);
    assert ImageMessages(images + [url]) == ImageMessages(images) + [ImageMessage(url)];
  }

  lemma RemarksTold(items: seq<Item>, texts: seq<string>, order: seq<nat>)
    requires Below(order, |items|) && TextMessages(texts) == Told(true, items, order)
    ensures TextMessages(texts + [PLACEHOLDER]) == Told(true, items + [Image("")], order + [|items|])
  {
    ToldOneMore(true, items, Image(""), order);
    assert TextMessages(texts + [PLACEHOLDER]) == TextMessages(texts) + [PlainMessage(User, Text(PLACEHOLDER))];
  }

  lemma OutputFollows(forward: bool, items: seq<Item>, s: State, t: Track, id: string, raw: Raw)
    requires Follows(forward, items, s, t) && s.pending == []
    ensures Follows(forward, items, Feed(forward, s, Output(id, raw)),
                    if id in s.open && RemoveFirst(s.open, id) == [] then Track(Line(t), [], []) else t)
  {
    if id in s.open {
      var m := AnswerMessage(id, Render(forward, raw));
      var u := s.(messages := s.messages + [m], open := RemoveFirst(s.open, id));
      OrdinaryPlus(s.messages, [m]);
      FlushDeferredSays(forward, items, u, t);
    }
  }

  lemma OutputTracked(forward: bool, items: seq<Item>, s: State, t: Track, item: Item)
    requires item.Output? && Follows(forward, items, s, t)
    requires TrackBelow(t, |items|)
    ensures Follows(forward, items + [item], Feed(forward, s, item),
                    Tracked(forward, Books(Ids(s.pending), s.open), t, |items|, item))
  {
    FollowsStill(forward, items, item, s, t);
    FlushCallsSays(s);
    FlushCallsAnswers(s);
    FlushedOutput(forward, s, item.callId, item.raw);
    OutputFollows(forward, items + [item], FlushCalls(s), t, item.callId, item.raw);
  }

  lemma {:induction false} FeedAllFollows(forward: bool, items: seq<Item>)
    ensures Follows(forward, items, FeedAll(forward, EMPTY, items), Tracks(forward, items))
  {
    if items != [] {
      var front, last := items[..|items| - 1], items[|items| - 1];
      var s, t := FeedAll(forward, EMPTY, front), Tracks(forward, front);
      assert items == front + [last];
      FeedAllFollows(forward, front);
      TrackInRange(forward, front);
      BooksAgree(forward, front);
      match last {
        case Turn(_, _) => TurnFollows(forward, front, last, s, t);
        case Image(url) => ImageFollows(forward, front, url, s, t, BooksOf(front));
        case Output(_, _) => OutputTracked(forward, front, s, t, last);
        case _ => FollowsStill(forward, front, last, s, t);
      }
    }
  }

  /** The list names every item that says something, once, and no other. */
  ghost predicate NamesEach(forward: bool, items: seq<Item>, order: seq<nat>) {
    && (forall k: nat :: k in order <==> k < |items| && Says(forward, items[k]) != [])
    && forall i, j :: 0 <= i < j < |order| ==> order[i] != order[j]
  }

  /** For every transcript: the ordinary messages sent are what the items say, in the order
      given by `Order`, which names every item that says something once. */
  lemma SaidIsExact(forward: bool, items: seq<Item>)
    ensures Ordinary(Translate(forward, Items(items))) == Told(forward, items, Order(forward, items))
    ensures NamesEach(forward, items, Order(forward, items))
  {
    var s := FeedAll(forward, EMPTY, items);
    FeedAllFollows(forward, items);
    FlushCallsSays(s);
    AnswerOpenSays(FlushCalls(s));
    FlushDeferredSays(forward, items, AnswerOpen(FlushCalls(s)), Tracks(forward, items));
    OrderNamesAll(forward, items);
  }

  // ---- When the order is kept ------------------------------------------------------------------

  ghost predicate Increasing(order: seq<nat>) {
    forall i, j :: 0 <= i < j < |order| ==> order[i] < order[j]
  }

  /** What stands behind the message of item n when it joins the line. */
  function Overtaken(forward: bool, b: Books, t: Track, item: Item): seq<nat> {
    match item
    case Turn(_, _) => t.images + t.remarks
    case Image(url) =>
      if !forward then []
      else if !Busy(b) then t.images + t.remarks
      else if url != "" then t.remarks
      else []
    case _ => []
  }

  lemma JoinsTheLine(forward: bool, b: Books, t: Track, n: nat, item: Item) returns (ahead: seq<nat>)
    ensures var behind := Overtaken(forward, b, t, item);
            && Line(t) == ahead + behind
            && Line(Tracked(forward, b, t, n, item)) == ahead + (if Says(forward, item) != [] then [n] else []) + behind
  {
    var n' := if Says(forward, item) != [] then [n] else [];
    if item.Turn? || (item.Image? && forward && !Busy(b)) {
      ahead := t.sent;
      Regrouped(t.sent, n', t.images, t.remarks);
    } else if item.Image? && forward && item.url != "" {
      ahead := t.sent + t.images;
      assert t.sent + (t.images + n') == ahead + n';
    } else {
      ahead := Line(t);
      assert ahead + [] == ahead && ahead + n' + [] == ahead + n';
    }
  }

  lemma Regrouped(a: seq<nat>, b: seq<nat>, c: seq<nat>, d: seq<nat>)
    ensures (a + b) + c + d == a + b + (c + d) && a + c + d == a + (c + d)
  {
  }

  lemma InsertedKeepsOrder(a: seq<nat>, n: nat, z: seq<nat>)
    requires Below(a + z, n)
    ensures Increasing(a + [n] + z) <==> Increasing(a + z) && z == []
  {
    var line := a + [n] + z;
    assert forall i :: 0 <= i < |a| ==> line[i] == (a + z)[i];
    assert forall i :: |a| <= i < |a + z| ==> line[i + 1] == (a + z)[i];
    assert line[|a|] == n;
    if z != [] {
      assert z[0] in a + z && line[|a| + 1] == z[0];
    } else {
      assert forall i :: 0 <= i < |a| ==> (a + z)[i] in a + z;
    }
  }

  lemma InsertedOnce(a: seq<nat>, n: nat, z: seq<nat>)
    requires Below(a + z, n)
    requires forall i, j :: 0 <= i < j < |a + z| ==> (a + z)[i] != (a + z)[j]
    ensures forall i, j :: 0 <= i < j < |a + [n] + z| ==> (a + [n] + z)[i] != (a + [n] + z)[j]
  {
    var line := a + [n] + z;
    assert forall i :: 0 <= i < |line| && i != |a| ==> line[i] == (a + z)[if i < |a| then i else i - 1];
    assert line[|a|] == n;
    forall i, j | 0 <= i < j < |line| ensures line[i] != line[j] {
      if i == |a| {
        assert line[j] in a + z;
      } else if j == |a| {
        assert line[i] in a + z;
      }
    }
  }

  lemma OrderStep(forward: bool, front: seq<Item>, last: Item) returns (a: seq<nat>, z: seq<nat>)
    ensures z == Overtaken(forward, BooksOf(front), Tracks(forward, front), last)
    ensures Order(forward, front) == a + z
    ensures Order(forward, front + [last]) == if Says(forward, last) != [] then a + [|front|] + z else a + z
  {
    z := Overtaken(forward, BooksOf(front), Tracks(forward, front), last);
    a := JoinsTheLine(forward, BooksOf(front), Tracks(forward, front), |front|, last);
    assert a + [] + z == a + z;
    assert (front + [last])[..|front|] == front;
  }

  lemma OrderInRange(forward: bool, items: seq<Item>)
    ensures Below(Order(forward, items), |items|)
  {
    TrackInRange(forward, items);
  }

  lemma {:induction false} OrderNamesAll(forward: bool, items: seq<Item>)
    ensures NamesEach(forward, items, Order(forward, items))
  {
    if items == [] {
      assert Order(forward, items) == [];
    } else {
      var front, last := items[..|items| - 1], items[|items| - 1];
      assert items == front + [last];
      OrderNamesAll(forward, front);
      OrderInRange(forward, front);
      var a, z := OrderStep(forward, front, last);
      NamesStep(forward, front, last, a, z);
    }
  }

  lemma BelowExcludes(order: seq<nat>, n: nat)
    requires Below(order, n)
    ensures n !in order
  {
  }

  lemma NamesStep(forward: bool, front: seq<Item>, last: Item, a: seq<nat>, z: seq<nat>)
    requires Below(a + z, |front|) && NamesEach(forward, front, a + z)
    ensures NamesEach(forward, front + [last], if Says(forward, last) != [] then a + [|front|] + z else a + z)
  {
    var n := |front|;
    InsertedOnce(a, n, z);
    forall k: nat ensures k in a + [n] + z <==> k in a + z || k == n {
    }
    assert (front + [last])[n] == last && forall k :: 0 <= k < n ==> (front + [last])[k] == front[k];
    BelowExcludes(a + z, n);
  }

  /** Item j overtakes: a message while images or remarks are held back, or an image that
      is held back while a remark is. */
  predicate OvertakesAt(forward: bool, items: seq<Item>, j: nat)
    requires j < |items|
  {
    var t, b := Tracks(forward, items[..j]), BooksOf(items[..j]);
    || (items[j].Turn? && t.images + t.remarks != [])
    || (forward && items[j].Image? && Busy(b) && items[j].url != "" && t.remarks != [])
  }

  ghost predicate Overtakes(forward: bool, items: seq<Item>) {
    exists j :: 0 <= j < |items| && OvertakesAt(forward, items, j)
  }

  lemma OvertakesSnoc(forward: bool, items: seq<Item>)
    requires items != []
    ensures Overtakes(forward, items)
       <==> Overtakes(forward, items[..|items| - 1]) || OvertakesAt(forward, items, |items| - 1)
  {
    var front := items[..|items| - 1];
    assert forall j :: 0 <= j < |front| ==> front[..j] == items[..j];
    assert forall j :: 0 <= j < |front| ==> (OvertakesAt(forward, front, j) <==> OvertakesAt(forward, items, j));
  }

  /** Unless a message has overtaken, something is held back only during a round. */
  lemma {:induction false} IdleHoldsNothing(forward: bool, items: seq<Item>)
    requires !Overtakes(forward, items) && !Busy(BooksOf(items))
    ensures var t := Tracks(forward, items); t.images == [] && t.remarks == []
  {
    if items != [] {
      var front, last := items[..|items| - 1], items[|items| - 1];
      OvertakesSnoc(forward, items);
      if !Busy(BooksOf(front)) {
        IdleHoldsNothing(forward, front);
      } else if last.Turn? {
        assert Tracks(forward, front).images == [] && Tracks(forward, front).remarks == [] by {
          var t := Tracks(forward, front);
          assert t.images + t.remarks == [];
        }
      }
    }
  }

  /** Without an earlier overtaking the last item overtakes exactly if something stands
      behind its place in the line. */
  lemma OvertakesNow(forward: bool, items: seq<Item>)
    requires items != [] && !Overtakes(forward, items[..|items| - 1])
    ensures var front, last := items[..|items| - 1], items[|items| - 1];
            && (OvertakesAt(forward, items, |items| - 1)
                <==> Overtaken(forward, BooksOf(front), Tracks(forward, front), last) != [])
            && (Says(forward, last) == [] ==> !OvertakesAt(forward, items, |items| - 1))
  {
    var front := items[..|items| - 1];
    if !Busy(BooksOf(front)) {
      IdleHoldsNothing(forward, front);
    }
  }

  /** The ordinary messages keep the order of the transcript exactly when no item overtakes. */
  lemma {:induction false} OrderIsExact(forward: bool, items: seq<Item>)
    ensures Increasing(Order(forward, items)) <==> !Overtakes(forward, items)
  {
    if items == [] {
      assert Order(forward, items) == [];
    } else {
      var front, last := items[..|items| - 1], items[|items| - 1];
      OrderIsExact(forward, front);
      OvertakesSnoc(forward, items);
      OrderInRange(forward, front);
      var a, z := OrderStep(forward, front, last);
      if Says(forward, last) != [] {
        InsertedKeepsOrder(a, |front|, z);
      }
      if !Overtakes(forward, front) {
        OvertakesNow(forward, items);
      }
    }
  }

  function AllSays(forward: bool, items: seq<Item>): seq<Message> {
    if items == [] then []
    else AllSays(forward, items[..|items| - 1]) + Says(forward, items[|items| - 1])
  }

  lemma LastIsLast(forward: bool, front: seq<Item>, last: Item)
    requires !Overtakes(forward, front + [last])
    ensures !Overtakes(forward, front)
    ensures Order(forward, front + [last]) == OneMore(forward, Order(forward, front), |front|, last)
  {
    var items := front + [last];
    assert items[..|items| - 1] == front;
    OvertakesSnoc(forward, items);
    OvertakesNow(forward, items);
    var a, z := OrderStep(forward, front, last);
    assert a + z == a && a + [|front|] + z == a + [|front|];
  }

  function OneMore(forward: bool, order: seq<nat>, n: nat, item: Item): seq<nat> {
    if Says(forward, item) != [] then order + [n] else order
  }

  /** Then the ordinary messages are simply what the items say, one after the other. */
  lemma {:induction false} KeptOrderSaysAll(forward: bool, items: seq<Item>)
    requires !Overtakes(forward, items)
    ensures Told(forward, items, Order(forward, items)) == AllSays(forward, items)
  {
    if items != [] {
      var front, last := items[..|items| - 1], items[|items| - 1];
      assert items == front + [last];
      LastIsLast(forward, front, last);
      KeptOrderSaysAll(forward, front);
      OrderInRange(forward, front);
      OneMoreSays(forward, front, last, Order(forward, front));
    }
  }

  lemma OneMoreSays(forward: bool, front: seq<Item>, last: Item, order: seq<nat>)
    requires Below(order, |front|) && Told(forward, front, order) == AllSays(forward, front)
    ensures Told(forward, front + [last], OneMore(forward, order, |front|, last)) == AllSays(forward, front + [last])
  {
    ToldOneMore(forward, front, last, order);
    ToldStill(forward, front, last, order);
    assert (front + [last])[..|front|] == front;
  }

  /** An image in a round comes after the message that cuts the round short. */
  lemma ImageIsOvertaken(u: string, o: Raw)
    requires u != ""
    ensures var items := [FunctionCall("a", "", "", "f", "{}"), Image(u), Turn("user", o)];
            Order(true, items) == [2, 1] && !Increasing(Order(true, items))
  {
    var i0, i1, i2 := FunctionCall("a", "", "", "f", "{}"), Image(u), Turn("user", o);
    assert [i0, i1, i2][..2] == [i0, i1] && [i0, i1][..1] == [i0] && [i0][..0] == [];
    assert BooksOf([i0]) == Books(["a"], []);
    assert Tracks(true, [i0]) == Track([], [], []);
    assert Tracks(true, [i0, i1]) == Track([], [1], []);
    assert Order(true, [i0, i1, i2])[0] == 2 && Order(true, [i0, i1, i2])[1] == 1;
  }
}
