/** What a translated transcript looks like, told from the fields of its items: which id a call
    goes by, whose output answers it, what the other messages say and in whose name. */
module ToolFields {
  import opened Common
  import opened ToolHistory

  // ---- Calls ------------------------------------------------------------------------------

  function FunctionCalls(items: seq<Item>): seq<Item> {
    if items == [] then []
    else (if items[0].FunctionCall? then [items[0]] else []) + FunctionCalls(items[1..])
  }

  /** A call goes by its call id, or else by its item id, or else by a new one. */
  predicate CarriesIdOf(call: Call, item: Item) {
    && item.FunctionCall? && call.name == item.name && call.arguments == item.arguments
    && (item.callId != "" ==> call.id == item.callId)
    && (item.callId == "" && item.itemId != "" ==> call.id == item.itemId)
    && (item.callId == "" && item.itemId == "" ==> call.id == item.minted)
  }

  lemma {:induction false} GivenAreCarried(items: seq<Item>)
    ensures var calls, given := CallsGiven(items), FunctionCalls(items);
            |calls| == |given| && forall k :: 0 <= k < |calls| ==> CarriesIdOf(calls[k], given[k])
  {
    if items != [] {
      GivenAreCarried(items[1..]);
      CallsGivenHead(items);
    }
  }

  /** For every transcript: the calls sent are the calls given, in order, each under its own
      id, whatever other ids it carries. */
  lemma CallsCarryTheirIds(forward: bool, items: seq<Item>)
    ensures var calls, given := CallsIn(Translate(forward, Items(items))), FunctionCalls(items);
            |calls| == |given| && forall k :: 0 <= k < |calls| ==> CarriesIdOf(calls[k], given[k])
  {
    NoCallIsLost(forward, items);
    GivenAreCarried(items);
  }

  // ---- Content ----------------------------------------------------------------------------

  function Urls(parts: seq<Part>): seq<string> {
    if parts == [] then [] else (if parts[0].ImagePart? then [parts[0].url] else []) + Urls(parts[1..])
  }

  /** With images to forward, a content is its text, if any, followed by its images; else it
      is its flattened text. */
  ghost predicate Holds(forward: bool, raw: Raw, body: Body) {
    if forward && raw.images != [] then
      && body.Parts? && Urls(body.parts) == raw.images
      && (if raw.textOnly.Some? && raw.textOnly.value != "" then
            |body.parts| == |raw.images| + 1 && body.parts[0] == TextPart(raw.textOnly.value)
          else |body.parts| == |raw.images|)
    else if raw.flat.Some? then body == Text(raw.flat.value)
    else body == NoBody
  }

  lemma {:induction false} UrlsOfImages(urls: seq<string>)
    ensures Urls(ImageParts(urls)) == urls
  {
    if urls != [] {
      assert ImageParts(urls)[1..] == ImageParts(urls[1..]);
      UrlsOfImages(urls[1..]);
    }
  }

  lemma ContentIsHeld(forward: bool, raw: Raw)
    ensures Holds(forward, raw, Render(forward, raw))
  {
    UrlsOfImages(raw.images);
    if forward && raw.images != [] && raw.textOnly.Some? && raw.textOnly.value != "" {
      var t := TextPart(raw.textOnly.value);
      assert ([t] + ImageParts(raw.images))[1..] == ImageParts(raw.images);
    } else {
      assert [] + ImageParts(raw.images) == ImageParts(raw.images);
    }
  }

  // ---- A round ----------------------------------------------------------------------------

  /** Calls with call ids, then outputs with exactly those call ids. */
  ghost predicate IsRound(asked: seq<Item>, told: seq<Item>) {
    && asked != [] && told != []
    && (forall i :: 0 <= i < |asked| ==> asked[i].FunctionCall? && asked[i].callId != "")
    && (forall i :: 0 <= i < |told| ==> told[i].Output?)
    && CallIds(asked) == CallIds(told)
  }

  function CallIds(items: seq<Item>): multiset<string> {
    if items == [] then multiset{}
    else (if items[0].FunctionCall? || items[0].Output? then multiset{items[0].callId} else multiset{})
         + CallIds(items[1..])
  }

  ghost predicate CallsRead(asked: seq<Item>, calls: seq<Call>) {
    |calls| == |asked| && forall k :: 0 <= k < |asked| ==>
      asked[k].FunctionCall? && calls[k] == Call(asked[k].callId, asked[k].name, asked[k].arguments)
  }

  /** These messages answer with these outputs, in order. */
  ghost predicate OutputsRead(forward: bool, told: seq<Item>, ms: seq<Message>) {
    |ms| == |told| && forall k :: 0 <= k < |told| ==>
      told[k].Output? && Answer(ms[k], told[k].callId) && Holds(forward, told[k].raw, ms[k].body)
  }

  predicate Answer(m: Message, id: string) { m.role == Tool && m.calls == [] && m.answers == Some(id) }

  /** The messages of a round: one message of the assistant with all its calls, under their
      call ids, and then exactly its outputs, in the order in which they came. */
  ghost predicate RoundReads(forward: bool, asked: seq<Item>, told: seq<Item>, ms: seq<Message>) {
    && ms != [] && ms[0].role == Assistant && ms[0].body == NoBody && ms[0].answers == None
    && CallsRead(asked, ms[0].calls) && OutputsRead(forward, told, ms[1..])
  }

  /** A round is answered by its own outputs, whatever item ids its calls carry. */
  lemma RoundIsAnswered(forward: bool, asked: seq<Item>, told: seq<Item>)
    requires IsRound(asked, told)
    ensures RoundReads(forward, asked, told, Translate(forward, Items(asked + told)))
  {
    RoundIsWellShaped(asked, told);
    OneSegment(forward, Round(asked, told));
    NoPictures(forward, asked + told);
    RoundMeaning(forward, asked, told);
  }

  lemma RoundIsWellShaped(asked: seq<Item>, told: seq<Item>)
    requires IsRound(asked, told)
    ensures WellShaped(Round(asked, told))
  {
    CallIdsGiven(asked);
    OutputIdsAre(told);
  }

  lemma OneSegment(forward: bool, seg: Segment)
    requires WellShaped(seg)
    ensures Translate(forward, Items(ItemsOf(seg))) == Meaning(forward, seg)
  {
    RoundsAreFaithful(forward, [seg]);
    assert [seg][..0] == [];
    assert [] + ItemsOf(seg) == ItemsOf(seg) && [] + Meaning(forward, seg) == Meaning(forward, seg);
  }

  lemma {:induction false} CallIdsGiven(asked: seq<Item>)
    requires forall i :: 0 <= i < |asked| ==> asked[i].FunctionCall? && asked[i].callId != ""
    ensures CallsRead(asked, CallsGiven(asked)) && multiset(Ids(CallsGiven(asked))) == CallIds(asked)
  {
    if asked == [] {
      assert Ids(CallsGiven(asked)) == [];
    } else {
      CallIdsGiven(asked[1..]);
      CallsGivenHead(asked);
      var calls := CallsGiven(asked);
      assert calls == [CallOf(asked[0])] + CallsGiven(asked[1..]);
      assert Ids(calls) == [asked[0].callId] + Ids(CallsGiven(asked[1..]));
    }
  }

  lemma {:induction false} OutputIdsAre(told: seq<Item>)
    requires forall i :: 0 <= i < |told| ==> told[i].Output?
    ensures OutputIds(told) == CallIds(told)
  {
    if told != [] {
      OutputIdsAre(told[1..]);
    }
  }

  lemma {:induction false} NoPictures(forward: bool, items: seq<Item>)
    requires forall i :: 0 <= i < |items| ==> !items[i].Image?
    ensures Usable(forward, items) == [] && Unusable(forward, items) == []
  {
    if items != [] {
      NoPictures(forward, items[1..]);
    }
  }

  lemma {:induction false} AnswersAre(forward: bool, told: seq<Item>)
    requires forall i :: 0 <= i < |told| ==> told[i].Output?
    ensures OutputsRead(forward, told, Answers(forward, told))
  {
    if told != [] {
      AnswersAre(forward, told[1..]);
      ContentIsHeld(forward, told[0].raw);
    }
  }

  lemma RoundMeaning(forward: bool, asked: seq<Item>, told: seq<Item>)
    requires IsRound(asked, told)
    requires Usable(forward, asked + told) == [] && Unusable(forward, asked + told) == []
    ensures RoundReads(forward, asked, told, Meaning(forward, Round(asked, told)))
  {
    CallIdsGiven(asked);
    AnswersAre(forward, told);
    BareMeaning(forward, asked, told);
    RoundPieces(forward, asked, told, CallsGiven(asked), Answers(forward, told));
  }

  lemma BareMeaning(forward: bool, asked: seq<Item>, told: seq<Item>)
    requires Usable(forward, asked + told) == [] && Unusable(forward, asked + told) == []
    ensures Meaning(forward, Round(asked, told)) == [CallsMessage(CallsGiven(asked))] + Answers(forward, told)
  {
    assert ImageMessages([]) == [] && TextMessages([]) == [];
  }

  lemma RoundPieces(forward: bool, asked: seq<Item>, told: seq<Item>, calls: seq<Call>, answers: seq<Message>)
    requires CallsRead(asked, calls) && OutputsRead(forward, told, answers)
    ensures RoundReads(forward, asked, told, [CallsMessage(calls)] + answers)
  {
    assert ([CallsMessage(calls)] + answers)[1..] == answers;
  }

  // ---- Calls without outputs --------------------------------------------------------------

  /** Calls that never got an output are sent, and each is closed by a note that says so. */
  lemma LoneCallsAreClosed(forward: bool, asked: seq<Item>)
    requires asked != [] && forall i :: 0 <= i < |asked| ==> asked[i].FunctionCall? && asked[i].callId != ""
    ensures ClosedReads(asked, Translate(forward, Items(asked)))
  {
    CallIdsGiven(asked);
    NoPictures(forward, asked);
    RoundAsked(forward, [], asked);
    var calls := CallsGiven(asked);
    assert FeedAll(forward, EMPTY, asked) == State([], calls, [], [], []);
    ClosedCalls(calls);
    ClosedPieces(asked, calls);
  }

  /** One message with the calls, and one note for each of them. */
  ghost predicate ClosedReads(asked: seq<Item>, ms: seq<Message>) {
    && |ms| == 1 + |asked| && ms[0].role == Assistant && CallsRead(asked, ms[0].calls)
    && forall k :: 0 <= k < |asked| ==>
         asked[k].FunctionCall? && Answer(ms[k + 1], asked[k].callId)
         && ms[k + 1].body == Text("(no output recorded)")
  }

  lemma ClosedPieces(asked: seq<Item>, calls: seq<Call>)
    requires CallsRead(asked, calls)
    ensures ClosedReads(asked, [CallsMessage(calls)] + Synthetic(Ids(calls)))
  {
  }

  lemma ClosedCalls(calls: seq<Call>)
    requires calls != []
    ensures Close(State([], calls, [], [], [])).messages == [CallsMessage(calls)] + Synthetic(Ids(calls))
  {
    assert [] + Ids(calls) == Ids(calls) && ImageMessages([]) == [] && TextMessages([]) == [];
    assert [] + [CallsMessage(calls)] == [CallsMessage(calls)];
  }

  // ---- A round that was interrupted -------------------------------------------------------

  ghost predicate AllDiffer(ids: seq<string>) { forall i, j :: 0 <= i < j < |ids| ==> ids[i] != ids[j] }

  function IdsOf(items: seq<Item>): (r: seq<string>)
    ensures |r| == |items|
  {
    seq(|items|, i requires 0 <= i < |items| =>
      if items[i].FunctionCall? || items[i].Output? then items[i].callId else "")
  }

  function Without(ids: seq<string>, gone: set<string>): seq<string> {
    if ids == [] then [] else (if ids[0] in gone then [] else [ids[0]]) + Without(ids[1..], gone)
  }

  /** One message with all calls, the outputs that came, and a note for each call without one. */
  ghost predicate InterruptedReads(forward: bool, asked: seq<Item>, told: seq<Item>, left: seq<string>,
                                   ms: seq<Message>) {
    && |ms| == 1 + |told| + |left| && ms[0].role == Assistant && CallsRead(asked, ms[0].calls)
    && OutputsRead(forward, told, ms[1..1 + |told|])
    && forall k :: 0 <= k < |left| ==>
         Answer(ms[1 + |told| + k], left[k]) && ms[1 + |told| + k].body == Text("(no output recorded)")
  }

  ghost predicate IsInterrupted(asked: seq<Item>, told: seq<Item>) {
    && asked != [] && AllDiffer(IdsOf(asked)) && AllDiffer(IdsOf(told))
    && (forall i :: 0 <= i < |asked| ==> asked[i].FunctionCall? && asked[i].callId != "")
    && (forall i :: 0 <= i < |told| ==> told[i].Output? && told[i].callId in IdsOf(asked))
  }

  /** A round in which some outputs are missing, and the others come in any order: those that
      came are sent as they came, then the missing ones are made up, in the order of the calls. */
  lemma InterruptedRoundIsClosed(forward: bool, asked: seq<Item>, told: seq<Item>)
    requires IsInterrupted(asked, told)
    ensures InterruptedReads(forward, asked, told, Without(IdsOf(asked), Named(told)),
                             Translate(forward, Items(asked + told)))
  {
    CallIdsGiven(asked);
    NoPictures(forward, asked);
    RoundAsked(forward, [], asked);
    var calls := CallsGiven(asked);
    var s := State([], calls, [], [], []);
    assert FeedAll(forward, EMPTY, asked) == s;
    assert Ids(calls) == IdsOf(asked);
    FeedAllAppend(forward, EMPTY, asked, told);
    var ms := OutputsLand(forward, s, calls, told);
    InterruptedPieces(forward, asked, told, Without(Ids(calls), Named(told)), calls, ms);
    StillOpen(FeedAll(forward, s, told), [CallsMessage(calls)] + ms, Without(Ids(calls), Named(told)));
  }

  function Named(told: seq<Item>): set<string> { set id | id in IdsOf(told) }

  lemma StillOpen(s: State, ms: seq<Message>, left: seq<string>)
    requires FlushCalls(s) == State(ms, [], left, [], [])
    ensures Close(s).messages == ms + Synthetic(left)
  {
  }

  lemma InterruptedPieces(forward: bool, asked: seq<Item>, told: seq<Item>, left: seq<string>, calls: seq<Call>,
                          ms: seq<Message>)
    requires CallsRead(asked, calls) && OutputsRead(forward, told, ms)
    ensures InterruptedReads(forward, asked, told, left, [CallsMessage(calls)] + ms + Synthetic(left))
  {
    assert ([CallsMessage(calls)] + ms + Synthetic(left))[1..1 + |told|] == ms;
  }

  /** After some outputs: they stand behind the calls, and the other calls are still open. */
  ghost predicate Landed(forward: bool, s: State, calls: seq<Call>, told: seq<Item>, ms: seq<Message>) {
    && OutputsRead(forward, told, ms)
    && FlushCalls(FeedAll(forward, s, told))
       == State([CallsMessage(calls)] + ms, [], Without(Ids(calls), Named(told)), [], [])
  }

  lemma {:induction false} OutputsLand(forward: bool, s: State, calls: seq<Call>, told: seq<Item>)
    returns (ms: seq<Message>)
    requires s == State([], calls, [], [], []) && calls != [] && AllDiffer(Ids(calls)) && AllDiffer(IdsOf(told))
    requires forall i :: 0 <= i < |told| ==> told[i].Output? && told[i].callId in Ids(calls)
    ensures Landed(forward, s, calls, told, ms)
  {
    if told == [] {
      ms := [];
      NothingLanded(forward, s, calls);
    } else {
      var front, last := told[..|told| - 1], told[|told| - 1];
      assert told == front + [last];
      LastNamed(front, last);
      ms := OutputsLand(forward, s, calls, front);
      OneMoreLanded(forward, s, calls, front, last, ms);
      ms := ms + [AnswerMessage(last.callId, Render(forward, last.raw))];
    }
  }

  lemma NothingLanded(forward: bool, s: State, calls: seq<Call>)
    requires s == State([], calls, [], [], []) && calls != []
    ensures Landed(forward, s, calls, [], [])
  {
    NoneGone(Ids(calls));
    assert [CallsMessage(calls)] + [] == [] + [CallsMessage(calls)] && [] + Ids(calls) == Ids(calls);
    assert Named([]) == {};
  }

  lemma OneMoreLanded(forward: bool, s: State, calls: seq<Call>, front: seq<Item>, last: Item, ms: seq<Message>)
    requires Landed(forward, s, calls, front, ms) && AllDiffer(Ids(calls))
    requires last.Output? && last.callId in Ids(calls) && last.callId !in Named(front)
    requires Named(front + [last]) == Named(front) + {last.callId}
    ensures Landed(forward, s, calls, front + [last], ms + [AnswerMessage(last.callId, Render(forward, last.raw))])
  {
    var m := AnswerMessage(last.callId, Render(forward, last.raw));
    OneGone(Ids(calls), Named(front), last.callId);
    OneMoreRead(forward, front, last, ms);
    OneMoreLands(forward, s, front, last, [CallsMessage(calls)] + ms, Without(Ids(calls), Named(front)));
    assert [CallsMessage(calls)] + ms + [m] == [CallsMessage(calls)] + (ms + [m]);
  }

  lemma LastNamed(front: seq<Item>, last: Item)
    requires last.Output? && AllDiffer(IdsOf(front + [last]))
    ensures IdsOf(front + [last]) == IdsOf(front) + [last.callId] && AllDiffer(IdsOf(front))
    ensures Named(front + [last]) == Named(front) + {last.callId} && last.callId !in Named(front)
  {
    assert IdsOf(front + [last]) == IdsOf(front) + [last.callId];
    var all := IdsOf(front + [last]);
    assert all[|front|] == last.callId && forall i :: 0 <= i < |front| ==> all[i] == IdsOf(front)[i];
  }

  lemma OneMoreRead(forward: bool, front: seq<Item>, last: Item, ms: seq<Message>)
    requires OutputsRead(forward, front, ms) && last.Output?
    ensures OutputsRead(forward, front + [last], ms + [AnswerMessage(last.callId, Render(forward, last.raw))])
  {
    ContentIsHeld(forward, last.raw);
  }

  lemma OneMoreLands(forward: bool, s: State, front: seq<Item>, last: Item, ms: seq<Message>, open: seq<string>)
    requires FlushCalls(FeedAll(forward, s, front)) == State(ms, [], open, [], [])
    requires last.Output? && last.callId in open
    ensures FlushCalls(FeedAll(forward, s, front + [last]))
         == State(ms + [AnswerMessage(last.callId, Render(forward, last.raw))], [],
                  RemoveFirst(open, last.callId), [], [])
  {
    assert (front + [last])[..|front|] == front;
    OutputLands(forward, FeedAll(forward, s, front), ms, open, last);
  }

  lemma OutputLands(forward: bool, s: State, ms: seq<Message>, open: seq<string>, item: Item)
    requires FlushCalls(s) == State(ms, [], open, [], []) && item.Output? && item.callId in open
    ensures FlushCalls(Feed(forward, s, item))
         == State(ms + [AnswerMessage(item.callId, Render(forward, item.raw))], [],
                  RemoveFirst(open, item.callId), [], [])
  {
    var out := ms + [AnswerMessage(item.callId, Render(forward, item.raw))];
    assert ImageMessages([]) == [] && TextMessages([]) == [];
    assert out + [] + [] == out;
  }

  lemma {:induction false} NoneGone(ids: seq<string>)
    ensures Without(ids, {}) == ids
  {
    if ids != [] {
      NoneGone(ids[1..]);
    }
  }

  lemma {:induction false} OtherGone(ids: seq<string>, gone: set<string>, id: string)
    requires id !in ids
    ensures Without(ids, gone + {id}) == Without(ids, gone)
  {
    if ids != [] {
      OtherGone(ids[1..], gone, id);
    }
  }

  lemma WithoutHead(head: string, tail: seq<string>, gone: set<string>)
    ensures Without([head] + tail, gone) == if head in gone then Without(tail, gone) else [head] + Without(tail, gone)
  {
    assert ([head] + tail)[1..] == tail;
  }

  lemma {:induction false} OneGone(ids: seq<string>, gone: set<string>, id: string)
    requires AllDiffer(ids) && id in ids && id !in gone
    ensures id in Without(ids, gone) && RemoveFirst(Without(ids, gone), id) == Without(ids, gone + {id})
  {
    var head, tail := ids[0], ids[1..];
    assert ids == [head] + tail;
    WithoutHead(head, tail, gone);
    WithoutHead(head, tail, gone + {id});
    if head == id {
      OtherGone(tail, gone, id);
    } else {
      OneGone(tail, gone, id);
      if head !in gone {
        RemoveBehind(head, Without(tail, gone), id);
      }
    }
  }

  lemma RemoveBehind(head: string, ids: seq<string>, id: string)
    requires head != id && id in ids
    ensures RemoveFirst([head] + ids, id) == [head] + RemoveFirst(ids, id)
  {
    assert ([head] + ids)[1..] == ids;
  }

  // ---- Messages and bare images -----------------------------------------------------------

  /** In whose name a message is sent. */
  predicate InTheNameOf(role: Role, name: string) {
    && (name == "system" || name == "developer" ==> role == System)
    && (name == "assistant" ==> role == Assistant)
    && (name == "tool" ==> role == Tool)
    && (name != "system" && name != "developer" && name != "assistant" && name != "tool" ==> role == User)
  }

  ghost predicate Reads(item: Item, m: Message) {
    && m.calls == [] && m.answers == None
    && (item.Turn? ==> InTheNameOf(m.role, item.role) && Holds(true, item.raw, m.body))
    && (item.Image? ==> m.role == User)
    && (item.Image? && item.url != "" ==> m.body == Parts([ImagePart(item.url)]))
    && (item.Image? && item.url == "" ==> m.body == Text("[图片内容不可用：网关未转发该图像]"))
  }

  lemma {:induction false} PlainRun(items: seq<Item>)
    requires forall i :: 0 <= i < |items| ==> items[i].Turn? || items[i].Image?
    ensures var s := FeedAll(true, EMPTY, items);
            && s == Clean(s.messages) && |s.messages| == |items|
            && forall k :: 0 <= k < |items| ==> Reads(items[k], s.messages[k])
  {
    if items != [] {
      var n := |items| - 1;
      PlainRun(items[..n]);
      if items[n].Turn? {
        ContentIsHeld(true, items[n].raw);
      }
    }
  }

  /** Outside of rounds every message and every bare image is one message, in order. */
  lemma MessagesAreRead(items: seq<Item>)
    requires forall i :: 0 <= i < |items| ==> items[i].Turn? || items[i].Image?
    ensures var ms := Translate(true, Items(items));
            |ms| == |items| && forall k :: 0 <= k < |items| ==> Reads(items[k], ms[k])
  {
    PlainRun(items);
  }

  function WithoutImages(items: seq<Item>): seq<Item> {
    if items == [] then []
    else WithoutImages(items[..|items| - 1]) + (if items[|items| - 1].Image? then [] else [items[|items| - 1]])
  }

  lemma {:induction false} ImagesAreSkipped(items: seq<Item>)
    ensures FeedAll(false, EMPTY, items) == FeedAll(false, EMPTY, WithoutImages(items))
  {
    if items != [] {
      var front, last := items[..|items| - 1], items[|items| - 1];
      ImagesAreSkipped(front);
      if last.Image? {
        assert WithoutImages(items) == WithoutImages(front);
      } else {
        assert WithoutImages(items)[..|WithoutImages(front)|] == WithoutImages(front);
      }
    }
  }

  /** Without forwarding, bare images leave no trace. */
  lemma ImagesAreSilent(items: seq<Item>)
    ensures Translate(false, Items(items)) == Translate(false, Items(WithoutImages(items)))
  {
    ImagesAreSkipped(items);
  }

  /** A plain text is one message of the user. */
  lemma PlainTextIsRead(forward: bool, text: string)
    ensures Translate(forward, Plain(text)) == [Message(User, Text(text), [], None)]
  {
  }
}
