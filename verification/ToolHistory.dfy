/** Replaying a Responses transcript as chat messages: tool calls are merged, answered
    and repaired so that a strict upstream accepts the history. */
module ToolHistory {
  import opened Common

  datatype Call = Call(id: string, name: string, arguments: string)

  datatype Part = TextPart(text: string) | ImagePart(url: string)

  datatype Body = NoBody | Text(text: string) | Parts(parts: seq<Part>)

  datatype Role = System | User | Assistant | Tool

  /** A chat message; `calls` is empty and `answers` None unless it belongs to a tool round. */
  datatype Message = Message(role: Role, body: Body, calls: seq<Call>, answers: Option<string>)

  /** A content payload as the flattening helpers see it: its text with image
      placeholders, its text without, and the usable image URLs. */
  datatype Raw = Raw(flat: Option<string>, textOnly: Option<string>, images: seq<string>)

  /** One input item. Empty strings stand for absent fields; `minted` is the id that
      would be minted for a call without any. A bare image without usable URL has "". */
  datatype Item =
    | FunctionCall(callId: string, itemId: string, minted: string, name: string, arguments: string)
    | Output(callId: string, raw: Raw)
    | Image(url: string)
    | Turn(role: string, raw: Raw)
    | Other

  datatype Input = Plain(text: string) | Items(items: seq<Item>)

  const NO_OUTPUT := "(no output recorded)"
  const PLACEHOLDER := "[图片内容不可用：网关未转发该图像]"

  function RoleOf(name: string): Role {
    if name == "developer" || name == "system" then System
    else if name == "assistant" then Assistant
    else if name == "tool" then Tool
    else User
  }

  function CallOf(item: Item): Call
    requires item.FunctionCall?
  {
    Call(if item.callId != "" then item.callId else if item.itemId != "" then item.itemId else item.minted,
         item.name, item.arguments)
  }

  function Ids(calls: seq<Call>): (r: seq<string>)
    ensures |r| == |calls|
  {
    seq(|calls|, i requires 0 <= i < |calls| => calls[i].id)
  }

  function ImageParts(urls: seq<string>): seq<Part> {
    seq(|urls|, i requires 0 <= i < |urls| => ImagePart(urls[i]))
  }

  function BodyOf(text: Option<string>): Body {
    match text case None => NoBody case Some(t) => Text(t)
  }

  /** Text and images travel together; a payload without images stays plain text. */
  function Render(forward: bool, raw: Raw): Body {
    if forward && raw.images != [] then
      Parts((if raw.textOnly.Some? && raw.textOnly.value != "" then [TextPart(raw.textOnly.value)] else [])
            + ImageParts(raw.images))
    else BodyOf(raw.flat)
  }

  function CallsMessage(calls: seq<Call>): Message { Message(Assistant, NoBody, calls, None) }

  function AnswerMessage(id: string, body: Body): Message { Message(Tool, body, [], Some(id)) }

  function PlainMessage(role: Role, body: Body): Message { Message(role, body, [], None) }

  function ImageMessage(url: string): Message { PlainMessage(User, Parts([ImagePart(url)])) }

  function Synthetic(ids: seq<string>): (r: seq<Message>)
    ensures |r| == |ids|
  {
    seq(|ids|, i requires 0 <= i < |ids| => AnswerMessage(ids[i], Text(NO_OUTPUT)))
  }

  function ImageMessages(urls: seq<string>): (r: seq<Message>)
    ensures |r| == |urls|
  {
    seq(|urls|, i requires 0 <= i < |urls| => ImageMessage(urls[i]))
  }

  function TextMessages(texts: seq<string>): (r: seq<Message>)
    ensures |r| == |texts|
  {
    seq(|texts|, i requires 0 <= i < |texts| => PlainMessage(User, Text(texts[i])))
  }

  function RemoveFirst(ids: seq<string>, id: string): seq<string>
    requires id in ids
  {
    if ids[0] == id then ids[1..] else [ids[0]] + RemoveFirst(ids[1..], id)
  }

  // ---- The translation, as a function of its five buffers ---------------------

  datatype State = State(messages: seq<Message>, pending: seq<Call>, open: seq<string>,
                         images: seq<string>, texts: seq<string>)

  const EMPTY := State([], [], [], [], [])

  function FlushCalls(s: State): State {
    if s.pending == [] then s
    else s.(messages := s.messages + [CallsMessage(s.pending)], open := s.open + Ids(s.pending), pending := [])
  }

  function AnswerOpen(s: State): State {
    s.(messages := s.messages + Synthetic(s.open), open := [])
  }

  function FlushDeferred(s: State): State {
    s.(messages := s.messages + ImageMessages(s.images) + TextMessages(s.texts), images := [], texts := [])
  }

  function Feed(forward: bool, s: State, item: Item): State {
    match item
    case FunctionCall(_, _, _, _, _) => s.(pending := s.pending + [CallOf(item)])
    case Output(id, raw) =>
      var t := FlushCalls(s);
      if id in t.open then
        var u := t.(messages := t.messages + [AnswerMessage(id, Render(forward, raw))],
                    open := RemoveFirst(t.open, id));
        if u.open == [] then FlushDeferred(u) else u
      else t
    case Image(url) =>
      if !forward then s
      else if s.pending != [] || s.open != [] then
        if url != "" then s.(images := s.images + [url]) else s.(texts := s.texts + [PLACEHOLDER])
      else
        s.(messages := s.messages + [if url != "" then ImageMessage(url) else PlainMessage(User, Text(PLACEHOLDER))])
    case Turn(role, raw) =>
      var t := AnswerOpen(FlushCalls(s));
      t.(messages := t.messages + [PlainMessage(RoleOf(role), Render(forward, raw))])
    case Other => s
  }

  function FeedAll(forward: bool, s: State, items: seq<Item>): State {
    if items == [] then s else Feed(forward, FeedAll(forward, s, items[..|items| - 1]), items[|items| - 1])
  }

  function Close(s: State): State { FlushDeferred(AnswerOpen(FlushCalls(s))) }

  function Translate(forward: bool, input: Input): seq<Message> {
    match input
    case Plain(text) => [PlainMessage(User, Text(text))]
    case Items(items) => Close(FeedAll(forward, EMPTY, items)).messages
  }

  // ---- The translation, as it runs ------------------------------------------------

  class Translator {
    var messages: seq<Message>
    var pending: seq<Call>
    var openCalls: seq<string>
    var deferredImages: seq<string>
    var deferredText: seq<string>

    function View(): State
      reads this
    {
      State(messages, pending, openCalls, deferredImages, deferredText)
    }

    constructor ()
      ensures View() == EMPTY
    {
      messages, pending, openCalls, deferredImages, deferredText := [], [], [], [], [];
    }

    method FlushPending()
      modifies this
      ensures View() == FlushCalls(old(View()))
    {
      if pending == [] {
        return;
      }
      messages := messages + [CallsMessage(pending)];
      openCalls := openCalls + Ids(pending);
      pending := [];
    }

    method AnswerOpenCalls()
      modifies this
      ensures View() == AnswerOpen(old(View()))
    {
      var i := 0;
      while i < |openCalls|
        invariant 0 <= i <= |openCalls|
        invariant View() == old(View()).(messages := old(messages) + Synthetic(openCalls)[..i])
      {
        messages := messages + [AnswerMessage(openCalls[i], Text(NO_OUTPUT))];
        i := i + 1;
      }
      openCalls := [];
    }

    method FlushDeferredParts()
      modifies this
      ensures View() == FlushDeferred(old(View()))
    {
      var i := 0;
      while i < |deferredImages|
        invariant 0 <= i <= |deferredImages|
        invariant View() == old(View()).(messages := old(messages) + ImageMessages(deferredImages)[..i])
      {
        messages := messages + [ImageMessage(deferredImages[i])];
        i := i + 1;
      }
      deferredImages := [];
      ghost var mid := messages;
      i := 0;
      while i < |deferredText|
        invariant 0 <= i <= |deferredText|
        invariant View() == old(View()).(images := [], messages := mid + TextMessages(deferredText)[..i])
      {
        messages := messages + [PlainMessage(User, Text(deferredText[i]))];
        i := i + 1;
      }
      deferredText := [];
    }

    method OnOutput(forward: bool, id: string, raw: Raw)
      modifies this
      ensures View() == Feed(forward, old(View()), Output(id, raw))
    {
      FlushPending();
      if id in openCalls {
        messages := messages + [AnswerMessage(id, Render(forward, raw))];
        openCalls := RemoveFirst(openCalls, id);
        if openCalls == [] {
          FlushDeferredParts();
        }
      }
    }

    method OnImage(forward: bool, url: string)
      modifies this
      ensures View() == Feed(forward, old(View()), Image(url))
    {
      if pending != [] || openCalls != [] {
        if forward && url != "" {
          deferredImages := deferredImages + [url];
        } else if forward {
          deferredText := deferredText + [PLACEHOLDER];
        }
        return;
      }
      if forward && url != "" {
        messages := messages + [ImageMessage(url)];
      } else if forward {
        messages := messages + [PlainMessage(User, Text(PLACEHOLDER))];
      }
    }

    method OnTurn(forward: bool, role: string, raw: Raw)
      modifies this
      ensures View() == Feed(forward, old(View()), Turn(role, raw))
    {
      FlushPending();
      AnswerOpenCalls();
      messages := messages + [PlainMessage(RoleOf(role), Render(forward, raw))];
    }

    method OnItem(forward: bool, item: Item)
      modifies this
      ensures View() == Feed(forward, old(View()), item)
    {
      match item {
        case FunctionCall(_, _, _, _, _) => pending := pending + [CallOf(item)];
        case Output(id, raw) => OnOutput(forward, id, raw);
        case Image(url) => OnImage(forward, url);
        case Turn(role, raw) => OnTurn(forward, role, raw);
        case Other =>
      }
    }

    method Finish()
      modifies this
      ensures View() == Close(old(View()))
    {
      FlushPending();
      AnswerOpenCalls();
      FlushDeferredParts();
    }
  }

  lemma FedOneMore(forward: bool, items: seq<Item>, i: nat)
    requires i < |items|
    ensures FeedAll(forward, EMPTY, items[..i + 1]) == Feed(forward, FeedAll(forward, EMPTY, items[..i]), items[i])
  {
    assert items[..i + 1][..i] == items[..i];
  }

  method TranslateInput(forward: bool, input: Input) returns (messages: seq<Message>)
    ensures messages == Translate(forward, input)
  {
    if input.Plain? {
      return [PlainMessage(User, Text(input.text))];
    }
    var t := new Translator();
    var items := input.items;
    var i := 0;
    while i < |items|
      invariant 0 <= i <= |items|
      invariant t.View() == FeedAll(forward, EMPTY, items[..i])
    {
      FedOneMore(forward, items, i);
      t.OnItem(forward, items[i]);
      i := i + 1;
    }
    assert items[..i] == items;
    t.Finish();
    return t.messages;
  }

  // ---- Balance ------------------------------------------------------------------------

  function Opened(ms: seq<Message>): multiset<string> {
    if ms == [] then multiset{} else Opened(ms[..|ms| - 1]) + multiset(Ids(ms[|ms| - 1].calls))
  }

  function AnswersOf(m: Message): multiset<string> {
    if m.answers.Some? then multiset{m.answers.value} else multiset{}
  }

  function Answered(ms: seq<Message>): multiset<string> {
    if ms == [] then multiset{} else Answered(ms[..|ms| - 1]) + AnswersOf(ms[|ms| - 1])
  }

  predicate InRound(m: Message) { m.calls != [] || m.answers.Some? }

  /** Before message p only opened calls have been answered, and if message p is an
      ordinary one, all of them have. */
  ghost predicate SoundAt(ms: seq<Message>, p: nat)
    requires p <= |ms|
  {
    && Answered(ms[..p]) <= Opened(ms[..p])
    && (p < |ms| && !InRound(ms[p]) ==> Answered(ms[..p]) == Opened(ms[..p]))
  }

  /** A history a strict upstream accepts. */
  ghost predicate Accepted(ms: seq<Message>) {
    forall p :: 0 <= p <= |ms| ==> SoundAt(ms, p)
  }

  /** The history so far is acceptable and exactly `open` is still unanswered. */
  ghost predicate Waiting(ms: seq<Message>, open: multiset<string>) {
    Accepted(ms) && Opened(ms) == Answered(ms) + open
  }

  lemma AcceptedSnoc(ms: seq<Message>, m: Message)
    requires Accepted(ms) && Answered(ms) <= Opened(ms)
    requires InRound(m) || Answered(ms) == Opened(ms)
    requires Answered(ms + [m]) <= Opened(ms + [m])
    ensures Accepted(ms + [m])
  {
    forall p | 0 <= p <= |ms| + 1 ensures SoundAt(ms + [m], p) {
      PrefixOfSnoc(ms, m, p);
      if p < |ms| {
        assert SoundAt(ms, p);
      }
    }
  }

  lemma PrefixOfSnoc(ms: seq<Message>, m: Message, p: nat)
    requires p <= |ms| + 1
    ensures (ms + [m])[..p] == if p <= |ms| then ms[..p] else ms + [m]
    ensures p == |ms| ==> ms[..p] == ms
  {
  }

  lemma Remainder(asked: multiset<string>, answered: multiset<string>, open: multiset<string>,
                  ids: multiset<string>, ans: multiset<string>)
    requires asked == answered + open && ans <= open + ids
    ensures asked + ids == (answered + ans) + (open + ids - ans)
    ensures answered + ans <= asked + ids && answered <= asked
  {
  }

  lemma Appended(ms: seq<Message>, open: multiset<string>, m: Message, open': multiset<string>)
    requires Waiting(ms, open)
    requires AnswersOf(m) <= open + multiset(Ids(m.calls))
    requires open' == open + multiset(Ids(m.calls)) - AnswersOf(m)
    requires InRound(m) || open == multiset{}
    ensures Waiting(ms + [m], open')
  {
    Remainder(Opened(ms), Answered(ms), open, multiset(Ids(m.calls)), AnswersOf(m));
    SnocCounts(ms, m);
    AcceptedSnoc(ms, m);
  }

  lemma AppendedPlain(ms: seq<Message>, m: Message)
    requires Waiting(ms, multiset{}) && !InRound(m)
    ensures Waiting(ms + [m], multiset{})
  {
    assert Ids(m.calls) == [];
    Appended(ms, multiset{}, m, multiset{});
  }

  lemma AppendedAnswer(ms: seq<Message>, open: multiset<string>, id: string, body: Body)
    requires Waiting(ms, open) && id in open
    ensures Waiting(ms + [AnswerMessage(id, body)], open - multiset{id})
  {
    assert Ids(AnswerMessage(id, body).calls) == [];
    Appended(ms, open, AnswerMessage(id, body), open - multiset{id});
  }

  lemma SnocCounts(ms: seq<Message>, m: Message)
    ensures Opened(ms + [m]) == Opened(ms) + multiset(Ids(m.calls))
    ensures Answered(ms + [m]) == Answered(ms) + AnswersOf(m)
  {
    assert (ms + [m])[..|ms|] == ms;
  }

  lemma HeadOut(ids: seq<string>)
    requires ids != []
    ensures multiset{ids[0]} <= multiset(ids) && multiset(ids[1..]) == multiset(ids) - multiset{ids[0]}
  {
    assert ids == [ids[0]] + ids[1..];
  }

  lemma {:induction false} SyntheticBalance(ms: seq<Message>, open: seq<string>)
    requires Waiting(ms, multiset(open))
    ensures Waiting(ms + Synthetic(open), multiset{})
    decreases |open|
  {
    if open == [] {
      assert ms + Synthetic(open) == ms;
    } else {
      var first := AnswerMessage(open[0], Text(NO_OUTPUT));
      HeadOut(open);
      AppendedAnswer(ms, multiset(open), open[0], Text(NO_OUTPUT));
      SyntheticBalance(ms + [first], open[1..]);
      assert ms + Synthetic(open) == (ms + [first]) + Synthetic(open[1..]);
    }
  }

  lemma {:induction false} PlainBalance(ms: seq<Message>, more: seq<Message>)
    requires Waiting(ms, multiset{}) && forall m :: m in more ==> !InRound(m)
    ensures Waiting(ms + more, multiset{})
    decreases |more|
  {
    if more == [] {
      assert ms + more == ms;
    } else {
      assert more[0] in more;
      AppendedPlain(ms, more[0]);
      PlainBalance(ms + [more[0]], more[1..]);
      assert ms + more == (ms + [more[0]]) + more[1..];
    }
  }

  ghost predicate Good(s: State) { Waiting(s.messages, multiset(s.open)) }

  lemma FlushCallsGood(s: State)
    requires Good(s)
    ensures Good(FlushCalls(s))
  {
    if s.pending != [] {
      Appended(s.messages, multiset(s.open), CallsMessage(s.pending), multiset(s.open + Ids(s.pending)));
    }
  }

  lemma AnswerOpenGood(s: State)
    requires Good(s)
    ensures Good(AnswerOpen(s)) && AnswerOpen(s).open == []
  {
    SyntheticBalance(s.messages, s.open);
  }

  lemma FlushDeferredGood(s: State)
    requires Good(s) && s.open == []
    ensures Good(FlushDeferred(s))
  {
    PlainBalance(s.messages, ImageMessages(s.images));
    PlainBalance(s.messages + ImageMessages(s.images), TextMessages(s.texts));
  }

  lemma {:induction false} RemoveFirstMultiset(ids: seq<string>, id: string)
    requires id in ids
    ensures multiset(RemoveFirst(ids, id)) == multiset(ids) - multiset{id}
  {
    assert ids == [ids[0]] + ids[1..];
    if ids[0] != id {
      RemoveFirstMultiset(ids[1..], id);
    }
  }

  lemma FeedGood(forward: bool, s: State, item: Item)
    requires Good(s)
    ensures Good(Feed(forward, s, item))
  {
    match item {
      case FunctionCall(_, _, _, _, _) =>
        AsideGood(forward, s, item);
      case Other =>
        AsideGood(forward, s, item);
      case Output(id, raw) =>
        OutputGood(forward, s, id, raw);
      case Image(url) =>
        ImageGood(forward, s, url);
      case Turn(role, raw) =>
        TurnFeedGood(forward, s, role, raw);
    }
  }

  lemma AsideGood(forward: bool, s: State, item: Item)
    requires Good(s) && (item.FunctionCall? || item.Other?)
    ensures Good(Feed(forward, s, item))
  {
  }

  lemma TurnFeedGood(forward: bool, s: State, role: string, raw: Raw)
    requires Good(s)
    ensures Good(Feed(forward, s, Turn(role, raw)))
  {
    TurnIs(forward, s, role, raw);
    TurnGood(s, PlainMessage(RoleOf(role), Render(forward, raw)));
  }

  lemma TurnIs(forward: bool, s: State, role: string, raw: Raw)
    ensures var t := AnswerOpen(FlushCalls(s));
            Feed(forward, s, Turn(role, raw))
            == t.(messages := t.messages + [PlainMessage(RoleOf(role), Render(forward, raw))])
  {
  }

  lemma ImageGood(forward: bool, s: State, url: string)
    requires Good(s)
    ensures Good(Feed(forward, s, Image(url)))
  {
    if forward && s.pending == [] && s.open == [] {
      AppendedPlain(s.messages, if url != "" then ImageMessage(url) else PlainMessage(User, Text(PLACEHOLDER)));
    }
  }

  lemma OutputGood(forward: bool, s: State, id: string, raw: Raw)
    requires Good(s)
    ensures Good(Feed(forward, s, Output(id, raw)))
  {
    FlushCallsGood(s);
    var t := FlushCalls(s);
    if id in t.open {
      AnswerGood(t, id, Render(forward, raw));
    }
  }

  lemma AnswerGood(t: State, id: string, body: Body)
    requires Good(t) && id in t.open
    ensures var u := t.(messages := t.messages + [AnswerMessage(id, body)], open := RemoveFirst(t.open, id));
            Good(u) && (u.open == [] ==> Good(FlushDeferred(u)))
  {
    RemoveFirstMultiset(t.open, id);
    AppendedAnswer(t.messages, multiset(t.open), id, body);
    var u := t.(messages := t.messages + [AnswerMessage(id, body)], open := RemoveFirst(t.open, id));
    if u.open == [] {
      FlushDeferredGood(u);
    }
  }

  lemma TurnGood(s: State, m: Message)
    requires Good(s) && !InRound(m)
    ensures var t := AnswerOpen(FlushCalls(s)); Good(t.(messages := t.messages + [m]))
  {
    FlushCallsGood(s);
    AnswerOpenGood(FlushCalls(s));
    AppendedPlain(AnswerOpen(FlushCalls(s)).messages, m);
  }

  lemma {:induction false} FeedAllGood(forward: bool, items: seq<Item>)
    ensures Good(FeedAll(forward, EMPTY, items))
  {
    if items == [] {
    } else {
      FeedAllGood(forward, items[..|items| - 1]);
      FeedGood(forward, FeedAll(forward, EMPTY, items[..|items| - 1]), items[|items| - 1]);
    }
  }

  /** For every transcript: at each point of the result only opened calls have been
      answered, ordinary messages never interrupt a round, and at the end every call
      has exactly one answer. */
  lemma {:induction false} HistoryIsAccepted(forward: bool, input: Input)
    ensures Accepted(Translate(forward, input))
    ensures Opened(Translate(forward, input)) == Answered(Translate(forward, input))
  {
    match input {
      case Plain(text) =>
        OneMessageAccepted(PlainMessage(User, Text(text)));
      case Items(items) =>
        TranscriptAccepted(forward, items);
    }
  }

  lemma OneMessageAccepted(m: Message)
    requires !InRound(m)
    ensures Accepted([m]) && Opened([m]) == Answered([m])
  {
    AppendedPlain([], m);
    assert [] + [m] == [m];
  }

  lemma TranscriptAccepted(forward: bool, items: seq<Item>)
    ensures var ms := Close(FeedAll(forward, EMPTY, items)).messages;
            Accepted(ms) && Opened(ms) == Answered(ms)
  {
    FeedAllGood(forward, items);
    CloseGood(FeedAll(forward, EMPTY, items));
  }

  lemma CloseGood(s: State)
    requires Good(s)
    ensures Accepted(Close(s).messages) && Opened(Close(s).messages) == Answered(Close(s).messages)
  {
    FlushCallsGood(s);
    AnswerOpenGood(FlushCalls(s));
    FlushDeferredGood(AnswerOpen(FlushCalls(s)));
  }

  /** A "tool" message without a call id can only come from an input message that
      already had the role "tool". */
  lemma {:induction false} ToolMessagesAnswer(forward: bool, items: seq<Item>)
    requires forall i :: i in items && i.Turn? ==> i.role != "tool"
    ensures forall m :: m in Translate(forward, Items(items)) && m.role == Tool ==> m.answers.Some?
  {
    FedToolMessagesAnswer(forward, items);
    var s := FeedAll(forward, EMPTY, items);
    FlushesTagged(s);
    FlushesTagged(FlushCalls(s));
    FlushesTagged(AnswerOpen(FlushCalls(s)));
  }

  lemma {:induction false} FedToolMessagesAnswer(forward: bool, items: seq<Item>)
    requires forall i :: 0 <= i < |items| && items[i].Turn? ==> items[i].role != "tool"
    ensures Tagged(FeedAll(forward, EMPTY, items).messages)
  {
    if items != [] {
      var front, last := items[..|items| - 1], items[|items| - 1];
      FedToolMessagesAnswer(forward, front);
      FeedTagged(forward, FeedAll(forward, EMPTY, front), last);
    }
  }

  /** Every tool message names the call it answers. */
  ghost predicate Tagged(ms: seq<Message>) {
    forall m :: m in ms && m.role == Tool ==> m.answers.Some?
  }

  lemma FlushesTagged(s: State)
    requires Tagged(s.messages)
    ensures Tagged(FlushCalls(s).messages) && Tagged(AnswerOpen(s).messages) && Tagged(FlushDeferred(s).messages)
  {
    assert Tagged([CallsMessage(s.pending)]) && Tagged(Synthetic(s.open));
    assert Tagged(ImageMessages(s.images)) && Tagged(TextMessages(s.texts));
  }

  lemma OutputTagged(forward: bool, s: State, id: string, raw: Raw)
    requires Tagged(s.messages)
    ensures Tagged(Feed(forward, s, Output(id, raw)).messages)
  {
    FlushesTagged(s);
    var t, m := FlushCalls(s), AnswerMessage(id, Render(forward, raw));
    if id in t.open {
      FlushesTagged(t.(messages := t.messages + [m], open := RemoveFirst(t.open, id)));
    }
  }

  lemma TurnTagged(s: State, m: Message)
    requires Tagged(s.messages) && m.role != Tool
    ensures Tagged(AnswerOpen(FlushCalls(s)).messages + [m])
  {
    FlushesTagged(s);
    FlushesTagged(FlushCalls(s));
  }

  lemma FeedTagged(forward: bool, s: State, item: Item)
    requires Tagged(s.messages) && (item.Turn? ==> item.role != "tool")
    ensures Tagged(Feed(forward, s, item).messages)
  {
    match item {
      case FunctionCall(_, _, _, _, _) =>
      case Other =>
      case Image(_) =>
      case Output(id, raw) =>
        OutputTagged(forward, s, id, raw);
      case Turn(role, raw) =>
        TurnTagged(s, PlainMessage(RoleOf(role), Render(forward, raw)));
    }
  }

  // ---- No call is lost ------------------------------------------------------------------

  function CallsIn(ms: seq<Message>): seq<Call> {
    if ms == [] then [] else CallsIn(ms[..|ms| - 1]) + ms[|ms| - 1].calls
  }

  function CallsGiven(items: seq<Item>): seq<Call> {
    if items == [] then []
    else CallsGiven(items[..|items| - 1])
         + (if items[|items| - 1].FunctionCall? then [CallOf(items[|items| - 1])] else [])
  }

  lemma {:induction false} CallsAppend(ms: seq<Message>, more: seq<Message>)
    ensures CallsIn(ms + more) == CallsIn(ms) + CallsIn(more)
  {
    if more == [] {
      assert ms + more == ms;
    } else {
      var init, last := more[..|more| - 1], more[|more| - 1];
      CallsAppend(ms, init);
      CallsSnoc(ms + init, last);
      CallsSnoc(init, last);
      Assoc(CallsIn(ms), CallsIn(init), last.calls);
      Assoc(ms, init, [last]);
      assert more == init + [last];
    }
  }

  lemma CallsSnoc(ms: seq<Message>, m: Message)
    ensures CallsIn(ms + [m]) == CallsIn(ms) + m.calls
  {
    assert (ms + [m])[..|ms|] == ms;
  }

  lemma {:induction false} NoCalls(ms: seq<Message>)
    requires forall m :: m in ms ==> m.calls == []
    ensures CallsIn(ms) == []
  {
    if ms != [] {
      assert ms[|ms| - 1] in ms;
      NoCalls(ms[..|ms| - 1]);
    }
  }

  function Carried(s: State): seq<Call> { CallsIn(s.messages) + s.pending }

  lemma FlushCallsCarries(s: State)
    ensures Carried(FlushCalls(s)) == Carried(s)
  {
    if s.pending != [] {
      CallsAppend(s.messages, [CallsMessage(s.pending)]);
      assert CallsIn([CallsMessage(s.pending)]) == s.pending by {
        assert [CallsMessage(s.pending)][..0] == [];
      }
    }
  }

  lemma OthersCarry(s: State, more: seq<Message>)
    requires forall m :: m in more ==> m.calls == []
    ensures Carried(s.(messages := s.messages + more)) == Carried(s)
  {
    CallsAppend(s.messages, more);
    NoCalls(more);
  }

  lemma FlushDeferredCarries(s: State)
    ensures Carried(FlushDeferred(s)) == Carried(s)
  {
    OthersCarry(s, ImageMessages(s.images));
    OthersCarry(s.(messages := s.messages + ImageMessages(s.images)), TextMessages(s.texts));
  }

  lemma FeedCarries(forward: bool, s: State, item: Item)
    ensures Carried(Feed(forward, s, item)) == Carried(s) + (if item.FunctionCall? then [CallOf(item)] else [])
  {
    match item {
      case FunctionCall(_, _, _, _, _) =>
      case Other =>
      case Output(id, raw) =>
        OutputCarries(forward, s, id, raw);
      case Image(url) =>
        OthersCarry(s, [if url != "" then ImageMessage(url) else PlainMessage(User, Text(PLACEHOLDER))]);
      case Turn(role, raw) =>
        TurnCarries(s, PlainMessage(RoleOf(role), Render(forward, raw)));
    }
  }

  lemma OutputCarries(forward: bool, s: State, id: string, raw: Raw)
    ensures Carried(Feed(forward, s, Output(id, raw))) == Carried(s)
  {
    FlushCallsCarries(s);
    var t := FlushCalls(s);
    if id in t.open {
      AnswerCarries(t, AnswerMessage(id, Render(forward, raw)), RemoveFirst(t.open, id));
    }
  }

  lemma AnswerCarries(t: State, m: Message, open: seq<string>)
    requires m.calls == []
    ensures var u := t.(messages := t.messages + [m], open := open);
            Carried(u) == Carried(t) && Carried(FlushDeferred(u)) == Carried(t)
  {
    OthersCarry(t, [m]);
    FlushDeferredCarries(t.(messages := t.messages + [m], open := open));
  }

  lemma TurnCarries(s: State, m: Message)
    requires m.calls == []
    ensures var t := AnswerOpen(FlushCalls(s)); Carried(t.(messages := t.messages + [m])) == Carried(s)
  {
    FlushCallsCarries(s);
    var t := FlushCalls(s);
    OthersCarry(t, Synthetic(t.open));
    OthersCarry(AnswerOpen(t), [m]);
  }

  lemma {:induction false} FeedAllCarries(forward: bool, items: seq<Item>)
    ensures Carried(FeedAll(forward, EMPTY, items)) == CallsGiven(items)
  {
    if items != [] {
      FeedAllCarries(forward, items[..|items| - 1]);
      FeedCarries(forward, FeedAll(forward, EMPTY, items[..|items| - 1]), items[|items| - 1]);
    }
  }

  /** Every function call of the transcript reaches the upstream exactly once, in order,
      with its id, name and arguments. */
  lemma {:induction false} NoCallIsLost(forward: bool, items: seq<Item>)
    ensures CallsIn(Translate(forward, Items(items))) == CallsGiven(items)
  {
    var s := FeedAll(forward, EMPTY, items);
    FeedAllCarries(forward, items);
    FlushCallsCarries(s);
    var t := FlushCalls(s);
    OthersCarry(t, Synthetic(t.open));
    FlushDeferredCarries(AnswerOpen(t));
  }

  // ---- Faithful on well-shaped rounds -----------------------------------------------------

  /** A piece of a transcript: a message, a bare image between rounds, an ignored item,
      or a tool round - calls, then outputs, with bare images anywhere among them. */
  datatype Segment =
    | Said(role: string, raw: Raw)
    | Picture(url: string)
    | Ignored
    | Round(asked: seq<Item>, told: seq<Item>)

  predicate Passing(i: Item) { i.Image? || i.Other? }

  function OutputIds(items: seq<Item>): multiset<string> {
    if items == [] then multiset{}
    else (if items[0].Output? then multiset{items[0].callId} else multiset{}) + OutputIds(items[1..])
  }

  /** A round opens with a call, ends with an output, and its outputs answer its calls. */
  ghost predicate WellShaped(seg: Segment) {
    seg.Round? ==>
      && seg.asked != [] && seg.asked[0].FunctionCall?
      && (forall i :: i in seg.asked ==> i.FunctionCall? || Passing(i))
      && seg.told != [] && seg.told[|seg.told| - 1].Output?
      && (forall i :: i in seg.told ==> i.Output? || Passing(i))
      && OutputIds(seg.told) == multiset(Ids(CallsGiven(seg.asked)))
  }

  function ItemsOf(seg: Segment): seq<Item> {
    match seg
    case Said(role, raw) => [Turn(role, raw)]
    case Picture(url) => [Image(url)]
    case Ignored => [Other]
    case Round(asked, told) => asked + told
  }

  function Transcript(segs: seq<Segment>): seq<Item> {
    if segs == [] then [] else Transcript(segs[..|segs| - 1]) + ItemsOf(segs[|segs| - 1])
  }

  function UsableOf(forward: bool, i: Item): seq<string> {
    if forward && i.Image? && i.url != "" then [i.url] else []
  }

  function UnusableOf(forward: bool, i: Item): seq<string> {
    if forward && i.Image? && i.url == "" then [PLACEHOLDER] else []
  }

  function AnswerOf(forward: bool, i: Item): seq<Message> {
    if i.Output? then [AnswerMessage(i.callId, Render(forward, i.raw))] else []
  }

  function CallsOf(i: Item): seq<Call> { if i.FunctionCall? then [CallOf(i)] else [] }

  function Usable(forward: bool, items: seq<Item>): seq<string> {
    if items == [] then [] else UsableOf(forward, items[0]) + Usable(forward, items[1..])
  }

  function Unusable(forward: bool, items: seq<Item>): seq<string> {
    if items == [] then [] else UnusableOf(forward, items[0]) + Unusable(forward, items[1..])
  }

  function Answers(forward: bool, items: seq<Item>): seq<Message> {
    if items == [] then [] else AnswerOf(forward, items[0]) + Answers(forward, items[1..])
  }

  function PictureMessages(forward: bool, url: string): seq<Message> {
    if !forward then []
    else if url != "" then [ImageMessage(url)]
    else [PlainMessage(User, Text(PLACEHOLDER))]
  }

  /** What a piece of a transcript means, on its own: a round is one assistant message
      with all its calls, then exactly its answers in order, then its images. */
  function Meaning(forward: bool, seg: Segment): seq<Message> {
    match seg
    case Said(role, raw) => [PlainMessage(RoleOf(role), Render(forward, raw))]
    case Picture(url) => PictureMessages(forward, url)
    case Ignored => []
    case Round(asked, told) =>
      [CallsMessage(CallsGiven(asked))] + Answers(forward, told)
      + ImageMessages(Usable(forward, asked + told)) + TextMessages(Unusable(forward, asked + told))
  }

  function Meanings(forward: bool, segs: seq<Segment>): seq<Message> {
    if segs == [] then [] else Meanings(forward, segs[..|segs| - 1]) + Meaning(forward, segs[|segs| - 1])
  }

  lemma {:induction false} FeedAllAppend(forward: bool, s: State, a: seq<Item>, b: seq<Item>)
    ensures FeedAll(forward, s, a + b) == FeedAll(forward, FeedAll(forward, s, a), b)
  {
    if b == [] {
      assert a + b == a;
    } else {
      var init := b[..|b| - 1];
      assert (a + b)[..|a + b| - 1] == a + init;
      FeedAllAppend(forward, s, a, init);
    }
  }

  lemma FeedAllHead(forward: bool, s: State, items: seq<Item>)
    requires items != []
    ensures FeedAll(forward, s, items) == FeedAll(forward, Feed(forward, s, items[0]), items[1..])
  {
    assert items == [items[0]] + items[1..];
    FeedAllAppend(forward, s, [items[0]], items[1..]);
    assert [items[0]][..0] == [];
    assert FeedAll(forward, s, [items[0]]) == Feed(forward, s, items[0]);
  }

  lemma Assoc<T>(a: seq<T>, b: seq<T>, c: seq<T>)
    ensures (a + b) + c == a + (b + c)
  {
  }

  lemma {:induction false} CallsGivenHead(items: seq<Item>)
    requires items != []
    ensures CallsGiven(items) == CallsOf(items[0]) + CallsGiven(items[1..])
  {
    if |items| == 1 {
      assert items[..0] == [] && items[1..] == [];
    } else {
      var init, last := items[..|items| - 1], items[|items| - 1];
      CallsGivenHead(init);
      assert init[1..] == items[1..][..|items| - 2];
      Assoc(CallsOf(items[0]), CallsGiven(init[1..]), CallsOf(last));
    }
  }

  /** While a round is under way, bare images only fill the deferred buffers. */
  function Deferred(forward: bool, s: State, items: seq<Item>): State {
    s.(images := s.images + Usable(forward, items), texts := s.texts + Unusable(forward, items))
  }

  function DeferredOne(forward: bool, s: State, i: Item): State {
    s.(images := s.images + UsableOf(forward, i), texts := s.texts + UnusableOf(forward, i))
  }

  lemma DeferredHead(forward: bool, s: State, items: seq<Item>)
    requires items != []
    ensures Deferred(forward, DeferredOne(forward, s, items[0]), items[1..]) == Deferred(forward, s, items)
  {
    Assoc(s.images, UsableOf(forward, items[0]), Usable(forward, items[1..]));
    Assoc(s.texts, UnusableOf(forward, items[0]), Unusable(forward, items[1..]));
  }

  lemma FeedPassing(forward: bool, s: State, i: Item)
    requires s.pending != [] || s.open != []
    requires Passing(i) || i.FunctionCall?
    ensures Feed(forward, s, i) == DeferredOne(forward, s, i).(pending := s.pending + CallsOf(i))
  {
    assert s.images + [] == s.images && s.texts + [] == s.texts && s.pending + [] == s.pending;
  }

  /** The asking half: once a call is pending, calls and images pile up. */
  lemma {:induction false} Asking(forward: bool, s: State, items: seq<Item>)
    requires s.pending != [] && forall i :: i in items ==> i.FunctionCall? || Passing(i)
    ensures FeedAll(forward, s, items) == Deferred(forward, s, items).(pending := s.pending + CallsGiven(items))
    decreases |items|
  {
    if items == [] {
      assert s.images + [] == s.images && s.texts + [] == s.texts && s.pending + [] == s.pending;
    } else {
      var i, rest := items[0], items[1..];
      assert i in items;
      FeedAllHead(forward, s, items);
      FeedPassing(forward, s, i);
      Asking(forward, Feed(forward, s, i), rest);
      CallsGivenHead(items);
      DeferredHead(forward, s, items);
      Assoc(s.pending, CallsOf(i), CallsGiven(rest));
    }
  }

  lemma {:induction false} OutputIdsNonEmpty(items: seq<Item>)
    requires items != [] && items[|items| - 1].Output?
    ensures OutputIds(items) != multiset{}
  {
    if |items| > 1 {
      OutputIdsNonEmpty(items[1..]);
    }
  }

  /** The state after a finished round: its messages, then whatever was deferred. */
  function Landed(s: State, ms: seq<Message>): State {
    State(s.messages + ms + ImageMessages(s.images) + TextMessages(s.texts), [], [], [], [])
  }

  predicate Tellable(items: seq<Item>) {
    && items != [] && items[|items| - 1].Output?
    && forall i :: i in items ==> i.Output? || Passing(i)
  }

  /** The telling half, calls flushed: answers in order, then the deferred images. */
  lemma {:induction false} Telling(forward: bool, s: State, items: seq<Item>)
    requires s.pending == [] && Tellable(items) && multiset(s.open) == OutputIds(items)
    ensures FeedAll(forward, s, items) == Landed(Deferred(forward, s, items), Answers(forward, items))
    decreases |items|, 1
  {
    var i, rest := items[0], items[1..];
    assert i in items;
    FeedAllHead(forward, s, items);
    if i.Output? {
      TellingOutput(forward, s, items);
    } else {
      OutputIdsNonEmpty(items);
      assert s.open != [];
      FeedPassing(forward, s, i);
      assert Feed(forward, s, i) == DeferredOne(forward, s, i);
      Telling(forward, DeferredOne(forward, s, i), rest);
      DeferredHead(forward, s, items);
      assert Answers(forward, items) == [] + Answers(forward, rest) == Answers(forward, rest);
    }
  }

  lemma {:induction false} TellingOutput(forward: bool, s: State, items: seq<Item>)
    requires s.pending == [] && Tellable(items) && items[0].Output? && multiset(s.open) == OutputIds(items)
    ensures FeedAll(forward, Feed(forward, s, items[0]), items[1..])
            == Landed(Deferred(forward, s, items), Answers(forward, items))
    decreases |items|, 0
  {
    var i, rest := items[0], items[1..];
    var left := AnswerTaken(s.open, items);
    NothingDeferred(forward, s, i);
    if rest == [] {
      EmptyOpen(left);
      LastOutput(forward, s, i);
      assert items == [i];
    } else {
      OutputIdsNonEmpty(rest);
      var u := s.(messages := s.messages + AnswerOf(forward, i), open := left);
      assert Feed(forward, s, i) == u;
      Telling(forward, u, rest);
      DeferredHead(forward, s, items);
      Assoc(s.messages, AnswerOf(forward, i), Answers(forward, rest));
    }
  }

  lemma AnswerTaken(open: seq<string>, items: seq<Item>) returns (left: seq<string>)
    requires items != [] && items[0].Output? && multiset(open) == OutputIds(items)
    ensures items[0].callId in open && left == RemoveFirst(open, items[0].callId)
    ensures multiset(left) == OutputIds(items[1..])
  {
    assert items[0].callId in multiset(open);
    left := RemoveFirst(open, items[0].callId);
    RemoveFirstMultiset(open, items[0].callId);
  }

  lemma NothingDeferred(forward: bool, s: State, i: Item)
    requires i.Output?
    ensures DeferredOne(forward, s, i) == s
  {
    assert s.images + [] == s.images && s.texts + [] == s.texts;
  }

  lemma LastOutput(forward: bool, s: State, i: Item)
    requires s.pending == [] && i.Output? && i.callId in s.open && RemoveFirst(s.open, i.callId) == []
    ensures Feed(forward, s, i) == Landed(Deferred(forward, s, [i]), Answers(forward, [i]))
  {
    NothingDeferred(forward, s, i);
    DeferredHead(forward, s, [i]);
    assert [i][1..] == [];
    assert Deferred(forward, s, []) == s by {
      assert s.images + [] == s.images && s.texts + [] == s.texts;
    }
    assert Answers(forward, [i]) == AnswerOf(forward, i) + [] == AnswerOf(forward, i);
  }

  lemma EmptyOpen(ids: seq<string>)
    requires multiset(ids) == multiset{}
    ensures |ids| == 0
  {
    assert |multiset(ids)| == |ids|;
  }

  lemma PendingThenOutput(forward: bool, s: State, items: seq<Item>)
    requires items != [] && items[0].Output?
    requires s.pending != [] && s.open == [] && Tellable(items) && multiset(Ids(s.pending)) == OutputIds(items)
    ensures FeedAll(forward, s, items)
            == Landed(Deferred(forward, s, items), [CallsMessage(s.pending)] + Answers(forward, items))
  {
    var t := FlushCalls(s);
    assert t.open == Ids(s.pending);
    FeedAllHead(forward, s, items);
    FeedAllHead(forward, t, items);
    assert Feed(forward, s, items[0]) == Feed(forward, t, items[0]);
    TellingOutput(forward, t, items);
    Assoc(s.messages, [CallsMessage(s.pending)], Answers(forward, items));
  }

  /** Images between the last call and the first output still find the calls pending. */
  lemma {:induction false} TellingPending(forward: bool, s: State, items: seq<Item>)
    requires s.pending != [] && s.open == [] && Tellable(items) && multiset(Ids(s.pending)) == OutputIds(items)
    ensures FeedAll(forward, s, items)
            == Landed(Deferred(forward, s, items), [CallsMessage(s.pending)] + Answers(forward, items))
    decreases |items|
  {
    var i, rest := items[0], items[1..];
    assert i in items;
    FeedAllHead(forward, s, items);
    if i.Output? {
      PendingThenOutput(forward, s, items);
    } else {
      FeedPassing(forward, s, i);
      assert s.pending + [] == s.pending;
      assert Feed(forward, s, i) == DeferredOne(forward, s, i);
      TellingPending(forward, DeferredOne(forward, s, i), rest);
      DeferredHead(forward, s, items);
      assert Answers(forward, items) == [] + Answers(forward, rest) == Answers(forward, rest);
    }
  }

  function Clean(ms: seq<Message>): State { State(ms, [], [], [], []) }

  lemma {:induction false} UsableAppend(forward: bool, a: seq<Item>, b: seq<Item>)
    ensures Usable(forward, a + b) == Usable(forward, a) + Usable(forward, b)
    ensures Unusable(forward, a + b) == Unusable(forward, a) + Unusable(forward, b)
  {
    if a == [] {
      assert a + b == b;
    } else {
      assert (a + b)[1..] == a[1..] + b && (a + b)[0] == a[0];
      UsableAppend(forward, a[1..], b);
      Assoc(UsableOf(forward, a[0]), Usable(forward, a[1..]), Usable(forward, b));
      Assoc(UnusableOf(forward, a[0]), Unusable(forward, a[1..]), Unusable(forward, b));
    }
  }

  lemma {:induction false} RoundAsked(forward: bool, ms: seq<Message>, asked: seq<Item>)
    requires asked != [] && asked[0].FunctionCall? && forall i :: i in asked ==> i.FunctionCall? || Passing(i)
    ensures FeedAll(forward, Clean(ms), asked)
            == State(ms, CallsGiven(asked), [], Usable(forward, asked), Unusable(forward, asked))
  {
    var s := Clean(ms);
    FeedAllHead(forward, s, asked);
    CallsGivenHead(asked);
    var t := Feed(forward, s, asked[0]);
    assert t == State(ms, [CallOf(asked[0])], [], [], []);
    assert forall i :: i in asked[1..] ==> i in asked;
    Asking(forward, t, asked[1..]);
    assert Usable(forward, asked) == [] + Usable(forward, asked[1..]);
    assert Unusable(forward, asked) == [] + Unusable(forward, asked[1..]);
  }

  lemma {:induction false} RoundMeans(forward: bool, ms: seq<Message>, asked: seq<Item>, told: seq<Item>)
    requires WellShaped(Round(asked, told))
    ensures FeedAll(forward, Clean(ms), asked + told) == Clean(ms + Meaning(forward, Round(asked, told)))
  {
    FeedAllAppend(forward, Clean(ms), asked, told);
    RoundAsked(forward, ms, asked);
    RoundTold(forward, ms, asked, told, FeedAll(forward, Clean(ms), asked));
  }

  lemma RoundTold(forward: bool, ms: seq<Message>, asked: seq<Item>, told: seq<Item>, mid: State)
    requires WellShaped(Round(asked, told))
    requires mid == State(ms, CallsGiven(asked), [], Usable(forward, asked), Unusable(forward, asked))
    ensures FeedAll(forward, mid, told) == Clean(ms + Meaning(forward, Round(asked, told)))
  {
    CallsGivenHead(asked);
    TellingPending(forward, mid, told);
    RoundSays(forward, ms, asked, told, mid);
  }

  lemma RoundSays(forward: bool, ms: seq<Message>, asked: seq<Item>, told: seq<Item>, mid: State)
    requires mid == State(ms, CallsGiven(asked), [], Usable(forward, asked), Unusable(forward, asked))
    ensures Landed(Deferred(forward, mid, told), [CallsMessage(CallsGiven(asked))] + Answers(forward, told))
         == Clean(ms + Meaning(forward, Round(asked, told)))
  {
    UsableAppend(forward, asked, told);
    var body := [CallsMessage(CallsGiven(asked))] + Answers(forward, told);
    LandedIs(ms, body, Usable(forward, asked + told), Unusable(forward, asked + told), Deferred(forward, mid, told));
  }

  /** Landing puts the images and remarks behind the answers. */
  lemma LandedIs(ms: seq<Message>, body: seq<Message>, images: seq<string>, texts: seq<string>, s: State)
    requires s.messages == ms && s.images == images && s.texts == texts
    ensures Landed(s, body) == Clean(ms + (body + ImageMessages(images) + TextMessages(texts)))
  {
    Assoc(ms, body, ImageMessages(images));
    Assoc(ms, body + ImageMessages(images), TextMessages(texts));
  }

  lemma {:induction false} SegmentMeans(forward: bool, ms: seq<Message>, seg: Segment)
    requires WellShaped(seg)
    ensures FeedAll(forward, Clean(ms), ItemsOf(seg)) == Clean(ms + Meaning(forward, seg))
  {
    if seg.Round? {
      RoundMeans(forward, ms, seg.asked, seg.told);
    } else {
      var item := ItemsOf(seg)[0];
      FeedAllHead(forward, Clean(ms), ItemsOf(seg));
      assert Feed(forward, Clean(ms), item) == Clean(ms + Meaning(forward, seg));
    }
  }

  lemma {:induction false} SegmentsMean(forward: bool, segs: seq<Segment>)
    requires forall seg :: seg in segs ==> WellShaped(seg)
    ensures FeedAll(forward, EMPTY, Transcript(segs)) == Clean(Meanings(forward, segs))
  {
    if segs != [] {
      var init, last := segs[..|segs| - 1], segs[|segs| - 1];
      assert last in segs;
      SegmentsMean(forward, init);
      FeedAllAppend(forward, EMPTY, Transcript(init), ItemsOf(last));
      SegmentMeans(forward, Meanings(forward, init), last);
    }
  }

  /** On a transcript made of messages, images and well-shaped rounds, the translation is
      compositional and faithful: every round is one assistant message directly followed
      by exactly its real answers in order, nothing is fabricated or dropped, and with
      forwarding on every bare image becomes exactly one user message after its round. */
  lemma {:induction false} RoundsAreFaithful(forward: bool, segs: seq<Segment>)
    requires forall seg :: seg in segs ==> WellShaped(seg)
    ensures Translate(forward, Items(Transcript(segs))) == Meanings(forward, segs)
  {
    SegmentsMean(forward, segs);
  }
}
