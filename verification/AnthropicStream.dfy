/** The Anthropic provider's event stream -> canonical chunks, and what survives when
    those chunks are assembled into an Anthropic reply again. */
module AnthropicStream {
  import opened Common
  import opened ChatStream
  import MessagesStream

  function FinishReason(stop: string): string {
    if stop in {"end_turn", "stop_sequence", "stop"} then "stop"
    else if stop in {"max_tokens", "max_output_tokens", "length"} then "length"
    else if stop in {"tool_use", "function_call", "tool_calls"} then "tool_calls"
    else if stop in {"content_filter", "safety", "recitation"} then "content_filter"
    else stop
  }

  function Decimal(n: nat): string {
    (if n < 10 then "" else Decimal(n / 10)) + [('0' as int + n % 10) as char]
  }

  /** The adapter's running variables and the chunks it has yielded. */
  datatype State = State(input: int, output: int, finish: string, toolIndex: int, done: bool, chunks: seq<Chunk>)

  const INITIAL := State(0, 0, "", -1, false, [])

  function Yield(s: State, c: Choice): State { s.(chunks := s.chunks + [Chunk(None, Some(c))]) }

  function Opened(id: string, name: string, index: int): CallDelta {
    CallDelta(if id != "" then id else "call_" + (if index >= 0 then Decimal(index) else "-1"),
              "", Some(index), name, "")
  }

  function Argument(index: int, json: string): CallDelta { CallDelta("", "", Some(index), "", json) }

  function Step(s: State, e: Event): State {
    if s.done then s
    else match e
      case MessageStart(n) => Yield(s.(input := n), QUIET)
      case BlockStart(_, b) =>
        if b.ToolUse? then
          Yield(s.(toolIndex := s.toolIndex + 1), QUIET.(calls := [Opened(b.id, b.name, s.toolIndex + 1)]))
        else s
      case BlockDelta(_, d) => (
        match d
        case TextDelta(t) => if t != "" then Yield(s, QUIET.(content := t)) else s
        case ThinkingDelta(t) => if t != "" then Yield(s, QUIET.(reasoning := t)) else s
        case JsonDelta(j) => Yield(s, QUIET.(calls := [Argument(s.toolIndex, j)])))
      case MessageDelta(stop, _, out) =>
        s.(finish := if stop != "" then FinishReason(stop) else s.finish,
           output := if out.Some? then out.value else s.output)
      case MessageStop => s.(done := true)
      case _ => s
  }

  function Steps(es: seq<Event>): State {
    if es == [] then INITIAL else Step(Steps(es[..|es| - 1]), es[|es| - 1])
  }

  function Last(s: State): Chunk {
    Chunk(Some(Usage(s.input, s.output, s.input + s.output)),
          Some(QUIET.(finish := if s.finish != "" then s.finish else "stop")))
  }

  function Chunks(es: seq<Event>): seq<Chunk> { Steps(es).chunks + [Last(Steps(es))] }

  /** The adapter's loop over upstream events; it stops reading at message_stop. */
  method Stream(es: seq<Event>) returns (chunks: seq<Chunk>)
    ensures chunks == Chunks(es)
  {
    chunks := [];
    var input, output, finish, toolIndex := 0, 0, "", -1;
    var i := 0;
    while i < |es|
      invariant 0 <= i <= |es|
      invariant State(input, output, finish, toolIndex, false, chunks) == Steps(es[..i])
    {
      assert es[..i + 1][..i] == es[..i];
      match es[i] {
        case MessageStart(n) =>
          input := n;
          chunks := chunks + [Chunk(None, Some(QUIET))];
        case BlockStart(_, b) =>
          if b.ToolUse? {
            toolIndex := toolIndex + 1;
            chunks := chunks + [Chunk(None, Some(QUIET.(calls := [Opened(b.id, b.name, toolIndex)])))];
          }
        case BlockDelta(_, d) =>
          if d.TextDelta? && d.text != "" {
            chunks := chunks + [Chunk(None, Some(QUIET.(content := d.text)))];
          } else if d.ThinkingDelta? && d.text != "" {
            chunks := chunks + [Chunk(None, Some(QUIET.(reasoning := d.text)))];
          } else if d.JsonDelta? {
            chunks := chunks + [Chunk(None, Some(QUIET.(calls := [Argument(toolIndex, d.text)])))];
          }
        case MessageDelta(stop, _, out) =>
          finish := if stop != "" then FinishReason(stop) else finish;
          output := if out.Some? then out.value else output;
        case MessageStop =>
          DoneIsFinal(es, i + 1);
          break;
        case _ =>
      }
      i := i + 1;
    }
    assert i == |es| ==> es[..i] == es;
    chunks := chunks + [Last(State(input, output, finish, toolIndex, true, chunks))];
  }

  lemma {:induction false} DoneIsFinal(es: seq<Event>, n: nat)
    requires n <= |es| && Steps(es[..n]).done
    ensures Steps(es) == Steps(es[..n])
  {
    if n == |es| {
      assert es[..n] == es;
    } else {
      assert es[..|es| - 1][..n] == es[..n];
      DoneIsFinal(es[..|es| - 1], n);
    }
  }

  // ---- Well-formed upstream streams -----------------------------------------------

  /** Whether a block is currently open. */
  function Busy(es: seq<Event>): bool {
    if es == [] then false
    else match es[|es| - 1]
      case BlockStart(_, _) => true
      case BlockStop(_) => false
      case _ => Busy(es[..|es| - 1])
  }

  /** One block at a time: it starts under the next index, receives fitting deltas, and
      is stopped before the next one starts. Tool blocks carry an id. */
  ghost predicate Sequential(es: seq<Event>) {
    es != [] ==>
      Sequential(es[..|es| - 1]) && InSequence(es[..|es| - 1], es[|es| - 1])
  }

  ghost predicate InSequence(es: seq<Event>, e: Event) {
    var r := Read(es);
    match e
    case BlockStart(i, b) => !Busy(es) && i == |r| && (b.ToolUse? ==> b.id != "")
    case BlockDelta(i, d) => Busy(es) && i + 1 == |r| && Fits(r[i], d)
    case BlockStop(i) => Busy(es) && i + 1 == |r|
    case MessageStop => false
    case _ => true
  }

  /** The thinking an upstream stream carries, without its blank deltas. */
  function Thoughts(es: seq<Event>): string {
    if es == [] then ""
    else
      var e := es[|es| - 1];
      Thoughts(es[..|es| - 1])
      + (if e.BlockDelta? && e.delta.ThinkingDelta? && !Blank(e.delta.text) then e.delta.text else "")
  }

  function InputTokens(es: seq<Event>): int {
    if es == [] then 0
    else if es[|es| - 1].MessageStart? then es[|es| - 1].inputTokens else InputTokens(es[..|es| - 1])
  }

  function OutputTokens(es: seq<Event>): int {
    if es == [] then 0
    else
      var e := es[|es| - 1];
      if e.MessageDelta? && e.outputTokens.Some? then e.outputTokens.value else OutputTokens(es[..|es| - 1])
  }

  function StopOf(es: seq<Event>): string {
    if es == [] then ""
    else
      var e := es[|es| - 1];
      if e.MessageDelta? && e.stop != "" then e.stop else StopOf(es[..|es| - 1])
  }

  // ---- The adapter preserves the message -------------------------------------------

  function Keys(n: nat): seq<int> { seq(n, i => i) }

  /** The adapter's state, and the chunks it has yielded, spell these. */
  ghost predicate Spells(s: State, text: string, thoughts: string, tools: seq<Content>,
                         input: int, output: int, stop: string) {
    var g := MessagesStream.Spelled(false, s.chunks);
    && !s.done
    && g.text == text && g.thinking == thoughts && g.tools == tools
    && g.keys == Keys(|g.tools|) && s.toolIndex == |g.tools| - 1
    && s.input == input && s.output == output && s.finish == (if stop == "" then "" else FinishReason(stop))
  }

  /** What the chunks yielded so far spell is what the events so far say. */
  ghost predicate Mirrors(es: seq<Event>) {
    Spells(Steps(es), AllText(Read(es)), Thoughts(es), Tools(Read(es)), InputTokens(es), OutputTokens(es), StopOf(es))
  }

  lemma SpelledSnoc(cs: seq<Chunk>, c: Chunk)
    ensures MessagesStream.Spelled(false, cs + [c]) == MessagesStream.Take(false, MessagesStream.Spelled(false, cs), c)
  {
    assert (cs + [c])[..|cs|] == cs;
  }

  lemma {:induction false} LocateKey(n: nat, m: nat, key: nat)
    requires m <= n
    ensures MessagesStream.Locate(Keys(n), key) == if key < n then key else n
  {
    var j := MessagesStream.Locate(Keys(n), key);
    assert key < n ==> Keys(n)[key] == key;
    assert j < n ==> Keys(n)[j] == j;
  }

  lemma TakeQuiet(g: MessagesStream.Given)
    requires MessagesStream.Aligned(g)
    ensures MessagesStream.Take(false, g, Chunk(None, Some(QUIET))) == g
  {
    assert g.text + "" == g.text && g.thinking + "" == g.thinking;
  }

  lemma TakeText(g: MessagesStream.Given, t: string)
    requires MessagesStream.Aligned(g)
    ensures MessagesStream.Take(false, g, Chunk(None, Some(QUIET.(content := t)))) == g.(text := g.text + t)
  {
    assert g.thinking + "" == g.thinking;
  }

  lemma TakeThought(g: MessagesStream.Given, t: string)
    requires MessagesStream.Aligned(g)
    ensures MessagesStream.Take(false, g, Chunk(None, Some(QUIET.(reasoning := t))))
            == g.(thinking := g.thinking + if Blank(t) then "" else t)
  {
    assert g.text + "" == g.text;
  }

  lemma TakeOne(g: MessagesStream.Given, call: CallDelta)
    requires MessagesStream.Aligned(g)
    ensures MessagesStream.Take(false, g, Chunk(None, Some(QUIET.(calls := [call]))))
         == MessagesStream.TakeCall(g, call)
  {
    assert g.text + "" == g.text && g.thinking + "" == g.thinking;
    assert g.(text := g.text, thinking := g.thinking) == g;
    assert [call][..0] == [];
    assert MessagesStream.TakeCalls(g, [call]) == MessagesStream.TakeCall(MessagesStream.TakeCalls(g, []), call);
  }

  lemma TakeOpening(g: MessagesStream.Given, id: string, name: string)
    requires MessagesStream.Aligned(g) && g.keys == Keys(|g.tools|) && id != ""
    ensures MessagesStream.TakeCall(g, Opened(id, name, |g.tools|))
            == g.(keys := Keys(|g.tools| + 1), tools := g.tools + [Tool(id, name, "")])
  {
    LocateKey(|g.tools|, 0, |g.tools|);
    assert Keys(|g.tools|) + [|g.tools|] == Keys(|g.tools| + 1);
  }

  lemma TakeArgument(g: MessagesStream.Given, json: string)
    requires MessagesStream.Aligned(g) && g.keys == Keys(|g.tools|) && g.tools != []
    ensures var j := |g.tools| - 1;
            MessagesStream.TakeCall(g, Argument(j, json))
            == g.(tools := g.tools[j := Extend(g.tools[j], JsonDelta(json))])
  {
    LocateKey(|g.tools|, 0, |g.tools| - 1);
  }

  lemma LastBlock(r: seq<Content>, d: Delta)
    requires r != [] && Fits(r[|r| - 1], d)
    ensures var n := |r| - 1; var r' := r[n := Extend(r[n], d)];
            && AllText(r') == AllText(r) + (if d.TextDelta? then d.text else "")
            && (d.JsonDelta? ==> Tools(r) != [] && Tools(r)[|Tools(r)| - 1] == r[n]
                                 && Tools(r') == Tools(r)[|Tools(r)| - 1 := Extend(r[n], d)])
            && (!d.JsonDelta? ==> Tools(r') == Tools(r))
  {
    var n := |r| - 1;
    var c := Extend(r[n], d);
    assert r[n := c] == r[..n] + [c];
    assert r == r[..n] + [r[n]];
    ContentSnoc(r[..n], c);
    ContentSnoc(r[..n], r[n]);
    if d.TextDelta? {
      assert AllText(r[..n]) + (r[n].text + d.text) == (AllText(r[..n]) + r[n].text) + d.text;
    }
  }

  /** Every upstream event is mirrored by at most one chunk that says the same. */
  lemma MirrorStep(es: seq<Event>, e: Event)
    requires Mirrors(es) && InSequence(es, e)
    ensures Mirrors(es + [e])
  {
    match e {
      case MessageStart(_) =>
        MirrorMessageStart(es, e);
      case BlockStart(_, b) =>
        StartSays(es, e);
        if b.ToolUse? {
          ToolOpens(Steps(es), AllText(Read(es)), Thoughts(es), Tools(Read(es)),
                    InputTokens(es), OutputTokens(es), StopOf(es), e);
        }
      case BlockDelta(_, d) =>
        MirrorDelta(es, d);
      case Ping =>
        MirrorAside(es, e);
      case BlockStop(_) =>
        MirrorAside(es, e);
      case MessageDelta(_, _, _) =>
        MirrorAside(es, e);
    }
  }

  /** An event that carries no content. */
  predicate Aside(e: Event) { e.MessageStart? || e.Ping? || e.BlockStop? || e.MessageDelta? }

  /** What such an event does to the upstream side of the mirror. */
  lemma AsideSays(es: seq<Event>, e: Event)
    requires Aside(e)
    ensures Read(es + [e]) == Read(es) && Thoughts(es + [e]) == Thoughts(es)
    ensures Steps(es + [e]) == Step(Steps(es), e)
    ensures InputTokens(es + [e]) == if e.MessageStart? then e.inputTokens else InputTokens(es)
    ensures OutputTokens(es + [e])
         == if e.MessageDelta? && e.outputTokens.Some? then e.outputTokens.value else OutputTokens(es)
    ensures StopOf(es + [e]) == if e.MessageDelta? && e.stop != "" then e.stop else StopOf(es)
  {
    assert (es + [e])[..|es|] == es;
    ReadSnoc(es, e);
    assert Thoughts(es) + "" == Thoughts(es);
  }

  lemma MirrorMessageStart(es: seq<Event>, e: Event)
    requires Mirrors(es) && e.MessageStart?
    ensures Mirrors(es + [e])
  {
    AsideSays(es, e);
    var s := Steps(es);
    SpelledSnoc(s.chunks, Chunk(None, Some(QUIET)));
    TakeQuiet(MessagesStream.Spelled(false, s.chunks));
  }

  lemma MirrorAside(es: seq<Event>, e: Event)
    requires Mirrors(es) && Aside(e) && !e.MessageStart?
    ensures Mirrors(es + [e])
  {
    AsideSays(es, e);
    if e.MessageDelta? && e.stop != "" {
      FinishIsNamed(e.stop);
    }
  }

  lemma FinishIsNamed(stop: string)
    requires stop != ""
    ensures FinishReason(stop) != ""
  {
  }

  /** A new tool block is yielded as the opening fragment of a call. */
  lemma ToolOpens(s: State, text: string, thoughts: string, tools: seq<Content>,
                  input: int, output: int, stop: string, e: Event)
    requires Spells(s, text, thoughts, tools, input, output, stop)
    requires e.BlockStart? && e.block.ToolUse? && e.block.id != ""
    ensures Spells(Step(s, e), text, thoughts, tools + [Tool(e.block.id, e.block.name, "")], input, output, stop)
  {
    SpelledOpening(s.chunks, e.block.id, e.block.name);
  }

  /** What a new block does to the upstream side of the mirror. */
  lemma StartSays(es: seq<Event>, e: Event)
    requires e.BlockStart? && InSequence(es, e)
    ensures var es', b := es + [e], e.block;
            && Steps(es') == Step(Steps(es), e)
            && AllText(Read(es')) == AllText(Read(es)) && Thoughts(es') == Thoughts(es)
            && Tools(Read(es')) == Tools(Read(es)) + (if b.ToolUse? then [Tool(b.id, b.name, "")] else [])
            && InputTokens(es') == InputTokens(es) && OutputTokens(es') == OutputTokens(es) && StopOf(es') == StopOf(es)
  {
    assert (es + [e])[..|es|] == es;
    ReadSnoc(es, e);
    ContentSnoc(Read(es), Fresh(e.block));
    assert AllText(Read(es)) + "" == AllText(Read(es)) && Thoughts(es) + "" == Thoughts(es);
    assert Tools(Read(es)) + [] == Tools(Read(es));
  }

  lemma SpelledOpening(cs: seq<Chunk>, id: string, name: string)
    requires var g := MessagesStream.Spelled(false, cs); MessagesStream.Aligned(g) && g.keys == Keys(|g.tools|)
    requires id != ""
    ensures var g := MessagesStream.Spelled(false, cs);
            MessagesStream.Spelled(false, cs + [Chunk(None, Some(QUIET.(calls := [Opened(id, name, |g.tools|)])))])
            == g.(keys := Keys(|g.tools| + 1), tools := g.tools + [Tool(id, name, "")])
  {
    var g := MessagesStream.Spelled(false, cs);
    var call := Opened(id, name, |g.tools|);
    SpelledSnoc(cs, Chunk(None, Some(QUIET.(calls := [call]))));
    TakeOne(g, call);
    TakeOpening(g, id, name);
  }

  /** What a delta to the last block does to the upstream side of the mirror. */
  lemma DeltaSays(es: seq<Event>, d: Delta)
    requires |Read(es)| > 0 && InSequence(es, BlockDelta(|Read(es)| - 1, d))
    ensures var es', r := es + [BlockDelta(|Read(es)| - 1, d)], Read(es);
            && Steps(es') == Step(Steps(es), BlockDelta(|Read(es)| - 1, d))
            && AllText(Read(es')) == AllText(r) + (if d.TextDelta? then d.text else "")
            && Thoughts(es') == Thoughts(es) + (if d.ThinkingDelta? && !Blank(d.text) then d.text else "")
            && (d.JsonDelta? ==> Tools(r) != [])
            && (d.JsonDelta? ==> Tools(Read(es')) == Tools(r)[|Tools(r)| - 1 := Extend(Tools(r)[|Tools(r)| - 1], d)])
            && (!d.JsonDelta? ==> Tools(Read(es')) == Tools(r))
            && InputTokens(es') == InputTokens(es) && OutputTokens(es') == OutputTokens(es) && StopOf(es') == StopOf(es)
  {
    var e := BlockDelta(|Read(es)| - 1, d);
    assert (es + [e])[..|es|] == es;
    ReadSnoc(es, e);
    LastBlock(Read(es), d);
  }

  lemma MirrorText(es: seq<Event>, t: string)
    requires Mirrors(es) && |Read(es)| > 0 && InSequence(es, BlockDelta(|Read(es)| - 1, TextDelta(t)))
    ensures Mirrors(es + [BlockDelta(|Read(es)| - 1, TextDelta(t))])
  {
    var s := Steps(es);
    var g := MessagesStream.Spelled(false, s.chunks);
    DeltaSays(es, TextDelta(t));
    SpelledSnoc(s.chunks, Chunk(None, Some(QUIET.(content := t))));
    TakeText(g, t);
    assert t == "" ==> g.text + t == g.text;
    assert Thoughts(es) + "" == Thoughts(es);
  }

  lemma MirrorThinking(es: seq<Event>, t: string)
    requires Mirrors(es) && |Read(es)| > 0 && InSequence(es, BlockDelta(|Read(es)| - 1, ThinkingDelta(t)))
    ensures Mirrors(es + [BlockDelta(|Read(es)| - 1, ThinkingDelta(t))])
  {
    var s := Steps(es);
    var g := MessagesStream.Spelled(false, s.chunks);
    DeltaSays(es, ThinkingDelta(t));
    SpelledSnoc(s.chunks, Chunk(None, Some(QUIET.(reasoning := t))));
    TakeThought(g, t);
    assert Thoughts(es) + "" == Thoughts(es) && g.text + "" == g.text;
  }

  lemma MirrorJson(es: seq<Event>, j: string)
    requires Mirrors(es) && |Read(es)| > 0 && InSequence(es, BlockDelta(|Read(es)| - 1, JsonDelta(j)))
    ensures Mirrors(es + [BlockDelta(|Read(es)| - 1, JsonDelta(j))])
  {
    var s := Steps(es);
    var g := MessagesStream.Spelled(false, s.chunks);
    DeltaSays(es, JsonDelta(j));
    SpelledSnoc(s.chunks, Chunk(None, Some(QUIET.(calls := [Argument(s.toolIndex, j)]))));
    TakeOne(g, Argument(s.toolIndex, j));
    TakeArgument(g, j);
    assert Thoughts(es) + "" == Thoughts(es) && g.text + "" == g.text;
  }

  lemma MirrorDelta(es: seq<Event>, d: Delta)
    requires Mirrors(es) && |Read(es)| > 0 && InSequence(es, BlockDelta(|Read(es)| - 1, d))
    ensures Mirrors(es + [BlockDelta(|Read(es)| - 1, d)])
  {
    match d {
      case TextDelta(t) => MirrorText(es, t);
      case ThinkingDelta(t) => MirrorThinking(es, t);
      case JsonDelta(j) => MirrorJson(es, j);
    }
  }

  lemma {:induction false} SequentialMirrors(es: seq<Event>)
    requires Sequential(es)
    ensures Mirrors(es)
  {
    if es == [] {
      assert Keys(0) == [];
    } else {
      var front, last := es[..|es| - 1], es[|es| - 1];
      assert es == front + [last];
      SequentialMirrors(front);
      MirrorStep(front, last);
    }
  }

  /** A complete upstream message: a sequential stream, then message_stop. */
  ghost predicate Complete(es: seq<Event>) {
    es != [] && es[|es| - 1] == MessageStop && Sequential(es[..|es| - 1])
  }

  /** The stop reason a client of the gateway sees for an upstream one. */
  function StopSeen(stop: string): string {
    if stop == "" then "end_turn" else MessagesStream.StopReason(FinishReason(stop))
  }

  /** The reply's closing event carries the upstream's token counts and stop reason. */
  lemma {:induction false} ClosingSays(cs: seq<Chunk>, last: Chunk)
    requires forall c :: c in cs ==> c.usage.None? && c.choice.Some? && c.choice.value.finish == ""
    requires last.usage.Some? && last.choice.Some? && last.choice.value.finish != ""
    ensures var s := MessagesStream.FeedAll(false, cs + [last]);
            s.usage == last.usage && s.stop == MessagesStream.StopReason(last.choice.value.finish)
  {
    assert (cs + [last])[..|cs|] == cs;
    MessagesStream.FeedCallsAside(MessagesStream.FeedAll(false, cs), last);
  }

  /** Streaming round trip: for every complete upstream message, a client of the gateway
      reads the same text, the same thinking less blank fragments, and the same tool
      calls in the same order; token counts and stop reason arrive with the closing
      event; and the reply is well-formed. */
  lemma {:induction false} ReemissionIsFaithful(es: seq<Event>)
    requires Complete(es)
    ensures var out := MessagesStream.Reply(false, Chunks(es));
            && MessagesStream.WellFormed(out)
            && AllText(Read(out)) == AllText(Read(es))
            && AllThinking(Read(out)) == Thoughts(es)
            && Tools(Read(out)) == Tools(Read(es))
            && |out| >= 2
            && out[|out| - 2] == MessageDelta(StopSeen(StopOf(es)), InputTokens(es), Some(OutputTokens(es)))
            && out[|out| - 1] == MessageStop
  {
    var init := es[..|es| - 1];
    assert es == init + [MessageStop];
    SequentialMirrors(init);
    StopSays(init);
    ChunksSpell(init);
    MessagesStream.ReplyIsFaithful(false, Chunks(es));
    YieldedAreQuiet(init);
    ClosingSays(Steps(init).chunks, Last(Steps(init)));
    FinishOf(Steps(init), StopOf(init));
  }

  /** message_stop and the adapter's own last chunk add nothing to what is spelled. */
  lemma ChunksSpell(init: seq<Event>)
    requires Mirrors(init)
    ensures var es := init + [MessageStop]; var g := MessagesStream.Spelled(false, Chunks(es));
            && Chunks(es) == Steps(init).chunks + [Last(Steps(init))]
            && g.text == AllText(Read(es)) && g.thinking == Thoughts(es) && g.tools == Tools(Read(es))
  {
    var s := Steps(init);
    ChunksOf(init);
    StopSays(init);
    SpelledSnoc(s.chunks, Last(s));
    TakeLast(MessagesStream.Spelled(false, s.chunks), Last(s));
  }

  lemma ChunksOf(init: seq<Event>)
    requires !Steps(init).done
    ensures Chunks(init + [MessageStop]) == Steps(init).chunks + [Last(Steps(init))]
  {
    StopSays(init);
  }

  lemma TakeLast(g: MessagesStream.Given, last: Chunk)
    requires MessagesStream.Aligned(g) && last.choice.Some?
    requires last.choice.value == QUIET.(finish := last.choice.value.finish)
    ensures MessagesStream.Take(false, g, last) == g
  {
    assert g.text + "" == g.text && g.thinking + "" == g.thinking;
  }

  lemma StopSays(init: seq<Event>)
    requires !Steps(init).done
    ensures var es := init + [MessageStop];
            && Steps(es) == Steps(init).(done := true) && Read(es) == Read(init) && Thoughts(es) == Thoughts(init)
            && StopOf(es) == StopOf(init) && InputTokens(es) == InputTokens(init)
            && OutputTokens(es) == OutputTokens(init)
  {
    assert (init + [MessageStop])[..|init|] == init;
    ReadSnoc(init, MessageStop);
    assert Thoughts(init) + "" == Thoughts(init);
  }

  lemma FinishOf(s: State, stop: string)
    requires s.finish == (if stop == "" then "" else FinishReason(stop))
    ensures MessagesStream.StopReason(Last(s).choice.value.finish) == StopSeen(stop)
    ensures StopSeen(stop) != ""
  {
    if stop != "" {
      FinishIsNamed(stop);
    }
  }

  lemma {:induction false} YieldedAreQuiet(es: seq<Event>)
    ensures forall c :: c in Steps(es).chunks ==> c.usage.None? && c.choice.Some? && c.choice.value.finish == ""
  {
    if es != [] {
      YieldedAreQuiet(es[..|es| - 1]);
    }
  }

  /** The stop reasons an agent depends on survive; stop_sequence becomes end_turn. */
  lemma StopReasonsSurvive()
    ensures forall stop :: stop in {"end_turn", "max_tokens", "tool_use"} ==> StopSeen(stop) == stop
    ensures StopSeen("stop_sequence") == "end_turn"
  {
  }
}
