/** Canonical chunks -> Anthropic server-sent events, as the /v1/messages endpoint
    assembles them. */
module MessagesStream {
  import opened Common
  import opened ChatStream

  function StopReason(finish: string): string {
    if finish == "stop" then "end_turn"
    else if finish == "length" then "max_tokens"
    else if finish == "tool_calls" || finish == "function_call" then "tool_use"
    else if finish == "content_filter" then "refusal"
    else "end_turn"
  }

  /** An open tool block: the key its fragments carry and its block index. */
  datatype Slot = Slot(key: int, index: nat)

  /** The assembler's state; `out` is what it has emitted between start and finish. */
  datatype State = State(next: nat, open: seq<nat>, thinking: Option<nat>, text: Option<nat>,
                         tools: seq<Slot>, stop: string, usage: Option<Usage>, out: seq<Event>)

  const INITIAL := State(0, [], None, None, [], "", None, [])

  /** Position of a key in an insertion-ordered dictionary, or its size. */
  function Find(tools: seq<Slot>, key: int): (r: nat)
    ensures r <= |tools|
    ensures r < |tools| ==> tools[r].key == key
    ensures forall i :: 0 <= i < r ==> tools[i].key != key
  {
    if tools == [] then 0
    else if tools[0].key == key then 0
    else
      var r := 1 + Find(tools[1..], key);
      assert forall i :: 1 <= i < r ==> tools[i] == tools[1..][i - 1];
      r
  }

  function Emit(s: State, e: Event): State { s.(out := s.out + [e]) }

  function OpenBlock(s: State, b: Block): State {
    s.(next := s.next + 1, open := s.open + [s.next], out := s.out + [BlockStart(s.next, b)])
  }

  function FeedThinking(s: State, t: string): State {
    if t == "" then s
    else
      var u := if s.thinking.Some? then s else OpenBlock(s, ThinkingBlock).(thinking := Some(s.next));
      Emit(u, BlockDelta(u.thinking.value, ThinkingDelta(t)))
  }

  function FeedText(s: State, t: string): State {
    if t == "" then s
    else
      var u := if s.text.Some? then s else OpenBlock(s, TextBlock).(text := Some(s.next));
      Emit(u, BlockDelta(u.text.value, TextDelta(t)))
  }

  function KeyOf(count: nat, call: CallDelta): int {
    if call.index.Some? then call.index.value else count
  }

  function IdOf(call: CallDelta): string { if call.id != "" then call.id else call.minted }

  function FeedCall(s: State, call: CallDelta): State {
    var key := KeyOf(|s.tools|, call);
    var j := Find(s.tools, key);
    var u := if j < |s.tools| then s
             else OpenBlock(s, ToolUse(IdOf(call), call.name)).(tools := s.tools + [Slot(key, s.next)]);
    if call.arguments == "" then u else Emit(u, BlockDelta(u.tools[j].index, JsonDelta(call.arguments)))
  }

  function FeedCalls(s: State, calls: seq<CallDelta>): State {
    if calls == [] then s else FeedCall(FeedCalls(s, calls[..|calls| - 1]), calls[|calls| - 1])
  }

  lemma Regroup(a: seq<Event>, b: seq<Event>, c: seq<Event>)
    ensures (a + b) + c == a + (b + c)
  {
  }

  lemma FeedCallsNext(s: State, calls: seq<CallDelta>, i: nat)
    requires i < |calls|
    ensures FeedCalls(s, calls[..i + 1]) == FeedCall(FeedCalls(s, calls[..i]), calls[i])
  {
    assert calls[..i + 1][..i] == calls[..i];
  }

  function Shown(strip: bool, c: Choice): string {
    if c.recovered && strip then "" else c.content
  }

  function Thought(strip: bool, c: Choice): string {
    if strip then "" else c.Thinking()
  }

  function FeedChoice(strip: bool, s: State, c: Choice): State {
    var u := FeedCalls(FeedText(FeedThinking(s, Thought(strip, c)), Shown(strip, c)), c.calls);
    if c.finish != "" then u.(stop := StopReason(c.finish)) else u
  }

  function Feed(strip: bool, s: State, c: Chunk): State {
    var u := if c.usage.Some? then s.(usage := c.usage) else s;
    if c.choice.Some? then FeedChoice(strip, u, c.choice.value) else u
  }

  function FeedAll(strip: bool, cs: seq<Chunk>): State {
    if cs == [] then INITIAL else Feed(strip, FeedAll(strip, cs[..|cs| - 1]), cs[|cs| - 1])
  }

  function Stops(open: seq<nat>): (r: seq<Event>)
    ensures |r| == |open|
  {
    seq(|open|, i requires 0 <= i < |open| => BlockStop(open[i]))
  }

  function Closing(s: State): seq<Event> {
    var u := if s.usage.Some? then s.usage.value else Usage(0, 0, 0);
    Stops(s.open)
    + [MessageDelta(if s.stop != "" then s.stop else "end_turn", u.prompt, Some(u.completion)), MessageStop]
  }

  const OPENING := [MessageStart(0), Ping]

  /** Everything the client receives for a stream of chunks. */
  function Reply(strip: bool, cs: seq<Chunk>): seq<Event> {
    OPENING + FeedAll(strip, cs).out + Closing(FeedAll(strip, cs))
  }

  // ---- The assembler as it runs ---------------------------------------------------

  class StreamAssembler {
    const strip: bool
    var nextIndex: nat
    var openBlocks: seq<nat>
    var thinkingBlock: Option<nat>
    var textBlock: Option<nat>
    var toolBlocks: seq<Slot>
    var stopReason: string
    var usage: Option<Usage>

    /** The state of the assembler after it has emitted `log`. */
    function View(log: seq<Event>): State
      reads this
    {
      State(nextIndex, openBlocks, thinkingBlock, textBlock, toolBlocks, stopReason, usage, log)
    }

    constructor (strip: bool)
      ensures View([]) == INITIAL && this.strip == strip
    {
      this.strip := strip;
      nextIndex, openBlocks, thinkingBlock, textBlock := 0, [], None, None;
      toolBlocks, stopReason, usage := [], "", None;
    }

    method OpenNext(b: Block) returns (index: nat, start: Event)
      modifies this
      ensures index == old(nextIndex) && start == BlockStart(index, b)
      ensures forall log :: View(log + [start]) == OpenBlock(old(View(log)), b)
    {
      index := nextIndex;
      nextIndex := nextIndex + 1;
      openBlocks := openBlocks + [index];
      start := BlockStart(index, b);
    }

    method OnCall(call: CallDelta, ghost log: seq<Event>) returns (out: seq<Event>)
      modifies this
      ensures View(log + out) == FeedCall(old(View(log)), call)
    {
      var key := if call.index.Some? then call.index.value else |toolBlocks|;
      var j := Find(toolBlocks, key);
      out := [];
      if j == |toolBlocks| {
        var index, start := OpenNext(ToolUse(if call.id != "" then call.id else call.minted, call.name));
        toolBlocks := toolBlocks + [Slot(key, index)];
        out := [start];
      }
      if call.arguments != "" {
        var d := BlockDelta(toolBlocks[j].index, JsonDelta(call.arguments));
        assert log + (out + [d]) == (log + out) + [d];
        out := out + [d];
      }
      assert log + [] == log;
    }

    method OnThinking(t: string, ghost log: seq<Event>) returns (out: seq<Event>)
      requires t != ""
      modifies this
      ensures View(log + out) == FeedThinking(old(View(log)), t)
    {
      out := [];
      if thinkingBlock.None? {
        var index, start := OpenNext(ThinkingBlock);
        thinkingBlock := Some(index);
        out := [start];
      }
      var d := BlockDelta(thinkingBlock.value, ThinkingDelta(t));
      assert log + (out + [d]) == (log + out) + [d] && log + [] == log;
      out := out + [d];
    }

    method OnText(t: string, ghost log: seq<Event>) returns (out: seq<Event>)
      requires t != ""
      modifies this
      ensures View(log + out) == FeedText(old(View(log)), t)
    {
      out := [];
      if textBlock.None? {
        var index, start := OpenNext(TextBlock);
        textBlock := Some(index);
        out := [start];
      }
      var d := BlockDelta(textBlock.value, TextDelta(t));
      assert log + (out + [d]) == (log + out) + [d] && log + [] == log;
      out := out + [d];
    }

    method OnChoice(choice: Choice, ghost log: seq<Event>) returns (out: seq<Event>)
      modifies this
      ensures View(log + out) == FeedChoice(strip, old(View(log)), choice)
    {
      out := OnSpeech(choice, log);
      var rest := OnCalls(choice.calls, log + out);
      assert log + (out + rest) == (log + out) + rest;
      out := out + rest;
      if choice.finish != "" {
        stopReason := StopReason(choice.finish);
      }
    }

    /** The thinking and the text of a choice. */
    method OnSpeech(choice: Choice, ghost log: seq<Event>) returns (out: seq<Event>)
      modifies this
      ensures View(log + out) == FeedText(FeedThinking(old(View(log)), Thought(strip, choice)), Shown(strip, choice))
    {
      out := [];
      assert log + [] == log;
      var thinking := choice.Thinking();
      if thinking != "" && !strip {
        out := OnThinking(thinking, log);
      }
      ghost var log1 := log + out;
      assert View(log1) == FeedThinking(old(View(log)), Thought(strip, choice));
      if choice.content != "" && !(choice.recovered && strip) {
        var more := OnText(choice.content, log1);
        assert log + (out + more) == log1 + more;
        out := out + more;
      }
    }

    method FeedChunk(c: Chunk, ghost log: seq<Event>) returns (out: seq<Event>)
      modifies this
      ensures View(log + out) == Feed(strip, old(View(log)), c)
    {
      out := [];
      assert log + [] == log;
      if c.usage.Some? {
        usage := c.usage;
      }
      if c.choice.Some? {
        out := OnChoice(c.choice.value, log);
      }
    }

    method OnCalls(calls: seq<CallDelta>, ghost log: seq<Event>) returns (out: seq<Event>)
      modifies this
      ensures View(log + out) == FeedCalls(old(View(log)), calls)
    {
      out := [];
      ghost var start, all := View(log), log;
      assert log + [] == log;
      var i := 0;
      while i < |calls|
        invariant 0 <= i <= |calls|
        invariant all == log + out && View(all) == FeedCalls(start, calls[..i])
      {
        FeedCallsNext(start, calls, i);
        var more := OnCall(calls[i], all);
        Regroup(log, out, more);
        all := all + more;
        out := out + more;
        i := i + 1;
      }
      assert calls[..|calls|] == calls;
    }

    method Finish() returns (out: seq<Event>)
      modifies this
      ensures forall log :: out == Closing(old(View(log)))
    {
      out := [];
      var i := 0;
      while i < |openBlocks|
        invariant 0 <= i <= |openBlocks| && out == Stops(openBlocks)[..i]
        invariant unchanged(this)
      {
        out := out + [BlockStop(openBlocks[i])];
        i := i + 1;
      }
      openBlocks, thinkingBlock, textBlock, toolBlocks := [], None, None, [];
      var u := if usage.Some? then usage.value else Usage(0, 0, 0);
      out := out + [MessageDelta(if stopReason != "" then stopReason else "end_turn", u.prompt, Some(u.completion)),
                    MessageStop];
    }
  }

  method StreamReply(strip: bool, cs: seq<Chunk>) returns (out: seq<Event>)
    ensures out == Reply(strip, cs)
  {
    var a := new StreamAssembler(strip);
    var body := [];
    var i := 0;
    while i < |cs|
      invariant 0 <= i <= |cs| && a.strip == strip
      invariant a.View(body) == FeedAll(strip, cs[..i])
    {
      assert cs[..i + 1][..i] == cs[..i];
      var more := a.FeedChunk(cs[i], body);
      body := body + more;
      i := i + 1;
    }
    assert cs[..i] == cs;
    ghost var last := a.View(body);
    var closing := a.Finish();
    assert closing == Closing(last);
    out := OPENING + body + closing;
  }

  // ---- What the chunks say, independently of any event -------------------------------

  /** The message a stream of chunks spells: its text, its thinking, and its tool calls
      under their keys in order of appearance. */
  datatype Given = Given(text: string, thinking: string, keys: seq<int>, tools: seq<Content>)

  ghost predicate Aligned(g: Given) {
    |g.keys| == |g.tools| && forall j :: 0 <= j < |g.tools| ==> g.tools[j].Tool?
  }

  function Locate(keys: seq<int>, key: int): (r: nat)
    ensures r <= |keys|
    ensures r < |keys| ==> keys[r] == key
    ensures forall i :: 0 <= i < r ==> keys[i] != key
  {
    if keys == [] then 0
    else if keys[0] == key then 0
    else
      var r := 1 + Locate(keys[1..], key);
      assert forall i :: 1 <= i < r ==> keys[i] == keys[1..][i - 1];
      r
  }

  function TakeCall(g: Given, call: CallDelta): (r: Given)
    requires Aligned(g)
    ensures Aligned(r) && r.text == g.text && r.thinking == g.thinking
  {
    var key := KeyOf(|g.keys|, call);
    var j := Locate(g.keys, key);
    if j < |g.keys| then
      var t := g.tools[j];
      g.(tools := g.tools[j := Tool(t.id, t.name, t.json + call.arguments)])
    else
      g.(keys := g.keys + [key], tools := g.tools + [Tool(IdOf(call), call.name, call.arguments)])
  }

  function TakeCalls(g: Given, calls: seq<CallDelta>): (r: Given)
    requires Aligned(g)
    ensures Aligned(r) && r.text == g.text && r.thinking == g.thinking
  {
    if calls == [] then g else TakeCall(TakeCalls(g, calls[..|calls| - 1]), calls[|calls| - 1])
  }

  function Take(strip: bool, g: Given, c: Chunk): (r: Given)
    requires Aligned(g)
    ensures Aligned(r)
  {
    if c.choice.None? then g
    else
      var ch := c.choice.value;
      TakeCalls(g.(text := g.text + Shown(strip, ch), thinking := g.thinking + Thought(strip, ch)), ch.calls)
  }

  function Spelled(strip: bool, cs: seq<Chunk>): (r: Given)
    ensures Aligned(r)
  {
    if cs == [] then Given("", "", [], [])
    else Take(strip, Spelled(strip, cs[..|cs| - 1]), cs[|cs| - 1])
  }

  // ---- The grammar of the reply --------------------------------------------------------

  function Count(es: seq<Event>): nat {
    if es == [] then 0 else Count(es[..|es| - 1]) + (if es[|es| - 1].BlockStart? then 1 else 0)
  }

  /** Event e may come next: a block starts under the next index, or a delta names a
      block that has started and is of its kind. */
  ghost predicate MayFollow(es: seq<Event>, e: Event) {
    if e.BlockStart? then e.index == Count(es) == |Read(es)|
    else e.BlockDelta? && e.index < Count(es) == |Read(es)| && Fits(Read(es)[e.index], e.delta)
  }

  /** What stands between opening and closing. */
  ghost predicate Body(es: seq<Event>) {
    es != [] ==> Body(es[..|es| - 1]) && MayFollow(es[..|es| - 1], es[|es| - 1])
  }

  function Upto(n: nat): seq<nat> { seq(n, i => i) }

  lemma BodySnoc(es: seq<Event>, e: Event)
    requires Body(es) && Count(es) == |Read(es)|
    requires MayFollow(es, e)
    ensures Body(es + [e]) && Read(es + [e]) == Hear(Read(es), e)
    ensures Count(es + [e]) == |Read(es + [e])| == Count(es) + (if e.BlockStart? then 1 else 0)
  {
    assert (es + [e])[..|es|] == es;
    ReadSnoc(es, e);
  }

  /** The assembler's books agree with what a client has read so far and with what the
      chunks have spelled so far. */
  ghost predicate Faithful(s: State, g: Given) {
    var r := Read(s.out);
    && Body(s.out) && Count(s.out) == |r| == s.next && s.open == Upto(s.next)
    && Aligned(g)
    && TextStands(r, s.text, g.text) && ThoughtStands(r, s.thinking, g.thinking)
    && Tools(r) == g.tools && KeysAgree(s.tools, g.keys) && SlotsOk(r, s.tools)
  }

  ghost predicate KeysAgree(tools: seq<Slot>, keys: seq<int>) {
    |tools| == |keys| && forall j :: 0 <= j < |tools| ==> tools[j].key == keys[j]
  }

  /** The only text block, if there is one, is at `at` and holds t. */
  ghost predicate TextStands(r: seq<Content>, at: Option<nat>, t: string) {
    && (forall i :: 0 <= i < |r| ==> (r[i].Text? <==> at == Some(i)))
    && (if at.Some? then at.value < |r| && r[at.value] == Text(t) else t == "")
  }

  ghost predicate ThoughtStands(r: seq<Content>, at: Option<nat>, t: string) {
    && (forall i :: 0 <= i < |r| ==> (r[i].Think? <==> at == Some(i)))
    && (if at.Some? then at.value < |r| && r[at.value] == Think(t) else t == "")
  }

  /** A new block joins the singletons, or leaves them alone. */
  lemma NewBlock(r: seq<Content>, text: Option<nat>, t: string, thought: Option<nat>, u: string, c: Content)
    requires TextStands(r, text, t) && ThoughtStands(r, thought, u)
    ensures !c.Text? ==> TextStands(r + [c], text, t)
    ensures !c.Think? ==> ThoughtStands(r + [c], thought, u)
    ensures c == Text("") && text.None? ==> TextStands(r + [c], Some(|r|), t)
    ensures c == Think("") && thought.None? ==> ThoughtStands(r + [c], Some(|r|), u)
  {
  }

  /** Block i is the j-th tool block. */
  ghost predicate SlotOk(r: seq<Content>, i: nat, j: nat) {
    i < |r| && r[i].Tool? && |Tools(r[..i])| == j
  }

  lemma SameFind(tools: seq<Slot>, keys: seq<int>, key: int)
    requires |tools| == |keys| && forall j :: 0 <= j < |tools| ==> tools[j].key == keys[j]
    ensures Find(tools, key) == Locate(keys, key)
  {
    var a, b := Find(tools, key), Locate(keys, key);
    assert a < |tools| ==> tools[a].key == keys[a];
    assert b < |keys| ==> tools[b].key == keys[b];
  }

  /** Opening a block of any kind. */
  lemma OpenKeeps(s: State, b: Block)
    requires Body(s.out) && Count(s.out) == |Read(s.out)| == s.next && s.open == Upto(s.next)
    ensures var u := OpenBlock(s, b);
            && Body(u.out) && Count(u.out) == |Read(u.out)| == u.next && u.open == Upto(u.next)
            && Read(u.out) == Read(s.out) + [Fresh(b)]
            && Tools(Read(u.out)) == Tools(Read(s.out)) + (if b.ToolUse? then [Fresh(b)] else [])
  {
    BodySnoc(s.out, BlockStart(s.next, b));
    ContentSnoc(Read(s.out), Fresh(b));
  }

  lemma SlotsAfterOpen(r: seq<Content>, c: Content, i: nat, j: nat)
    requires SlotOk(r, i, j)
    ensures SlotOk(r + [c], i, j)
  {
    assert (r + [c])[..i] == r[..i];
  }

  lemma SlotsAfterUpdate(r: seq<Content>, k: nat, c: Content, i: nat, j: nat)
    requires SlotOk(r, i, j) && k < |r| && (r[k].Tool? <==> c.Tool?)
    ensures SlotOk(r[k := c], i, j)
  {
    if k < i {
      assert r[k := c][..i] == r[..i][k := c];
      ToolsUpdate(r[..i], k, c);
    } else {
      assert r[k := c][..i] == r[..i];
    }
  }

  /** A delta to block i that already fits it. */
  lemma DeltaKeeps(s: State, i: nat, d: Delta)
    requires Body(s.out) && Count(s.out) == |Read(s.out)| == s.next
    requires i < |Read(s.out)| && Fits(Read(s.out)[i], d)
    ensures var u := Emit(s, BlockDelta(i, d));
            && Body(u.out) && Count(u.out) == |Read(u.out)| == u.next
            && Read(u.out) == Read(s.out)[i := Extend(Read(s.out)[i], d)]
  {
    BodySnoc(s.out, BlockDelta(i, d));
  }

  ghost predicate SlotsOk(r: seq<Content>, tools: seq<Slot>) {
    forall j :: 0 <= j < |tools| ==> SlotOk(r, tools[j].index, j)
  }

  lemma SlotsGrown(r: seq<Content>, tools: seq<Slot>, c: Content)
    requires SlotsOk(r, tools)
    ensures SlotsOk(r + [c], tools)
  {
    forall j | 0 <= j < |tools| ensures SlotOk(r + [c], tools[j].index, j) {
      SlotsAfterOpen(r, c, tools[j].index, j);
    }
  }

  /** Another content under an index that no tool has. */
  lemma SlotsBeside(r: seq<Content>, tools: seq<Slot>, i: nat, c: Content)
    requires SlotsOk(r, tools) && i < |r| && !r[i].Tool? && !c.Tool?
    ensures SlotsOk(r[i := c], tools) && Tools(r[i := c]) == Tools(r)
  {
    ToolsUpdate(r, i, c);
    forall j | 0 <= j < |tools| ensures SlotOk(r[i := c], tools[j].index, j) {
      SlotsAfterUpdate(r, i, c, tools[j].index, j);
    }
  }

  lemma OpenText(s: State, g: Given)
    requires Faithful(s, g) && s.text.None?
    ensures Faithful(OpenBlock(s, TextBlock).(text := Some(s.next)), g)
  {
    OpenKeeps(s, TextBlock);
    SlotsGrown(Read(s.out), s.tools, Text(""));
    NewBlock(Read(s.out), s.text, g.text, s.thinking, g.thinking, Text(""));
  }

  lemma OpenThinking(s: State, g: Given)
    requires Faithful(s, g) && s.thinking.None?
    ensures Faithful(OpenBlock(s, ThinkingBlock).(thinking := Some(s.next)), g)
  {
    OpenKeeps(s, ThinkingBlock);
    SlotsGrown(Read(s.out), s.tools, Think(""));
    NewBlock(Read(s.out), s.text, g.text, s.thinking, g.thinking, Think(""));
  }

  lemma ExtendText(s: State, g: Given, t: string)
    requires Faithful(s, g) && s.text.Some?
    ensures Faithful(Emit(s, BlockDelta(s.text.value, TextDelta(t))), g.(text := g.text + t))
  {
    DeltaKeeps(s, s.text.value, TextDelta(t));
    SlotsBeside(Read(s.out), s.tools, s.text.value, Text(g.text + t));
  }

  lemma ExtendThinking(s: State, g: Given, t: string)
    requires Faithful(s, g) && s.thinking.Some?
    ensures Faithful(Emit(s, BlockDelta(s.thinking.value, ThinkingDelta(t))), g.(thinking := g.thinking + t))
  {
    var r, i := Read(s.out), s.thinking.value;
    DeltaKeeps(s, i, ThinkingDelta(t));
    ToolsUpdate(r, i, Think(g.thinking + t));
    forall j | 0 <= j < |s.tools| ensures SlotOk(r[i := Think(g.thinking + t)], s.tools[j].index, j) {
      SlotsAfterUpdate(r, i, Think(g.thinking + t), s.tools[j].index, j);
    }
  }

  lemma OpenTool(s: State, g: Given, key: int, id: string, name: string)
    requires Faithful(s, g)
    ensures Faithful(OpenBlock(s, ToolUse(id, name)).(tools := s.tools + [Slot(key, s.next)]),
                     g.(keys := g.keys + [key], tools := g.tools + [Tool(id, name, "")]))
  {
    OpenKeeps(s, ToolUse(id, name));
    var u := OpenBlock(s, ToolUse(id, name)).(tools := s.tools + [Slot(key, s.next)]);
    ToolJoins(s, u, g, key, Tool(id, name, ""));
  }

  lemma ToolJoins(s: State, u: State, g: Given, key: int, c: Content)
    requires Faithful(s, g) && c.Tool?
    requires Body(u.out) && Count(u.out) == |Read(u.out)| == u.next && u.open == Upto(u.next)
    requires Read(u.out) == Read(s.out) + [c] && Tools(Read(u.out)) == g.tools + [c]
    requires u.text == s.text && u.thinking == s.thinking && u.tools == s.tools + [Slot(key, |Read(s.out)|)]
    ensures Faithful(u, g.(keys := g.keys + [key], tools := g.tools + [c]))
  {
    SlotsWithNew(Read(s.out), s.tools, key, c);
    NewBlock(Read(s.out), s.text, g.text, s.thinking, g.thinking, c);
    NewKey(s.tools, g.keys, Slot(key, |Read(s.out)|));
  }

  lemma NewKey(tools: seq<Slot>, keys: seq<int>, slot: Slot)
    requires KeysAgree(tools, keys)
    ensures KeysAgree(tools + [slot], keys + [slot.key])
  {
  }

  lemma SlotsWithNew(r: seq<Content>, tools: seq<Slot>, key: int, c: Content)
    requires SlotsOk(r, tools) && |Tools(r)| == |tools| && c.Tool?
    ensures SlotsOk(r + [c], tools + [Slot(key, |r|)])
  {
    var all, slots := r + [c], tools + [Slot(key, |r|)];
    assert all[..|r|] == r;
    forall j | 0 <= j < |slots| ensures SlotOk(all, slots[j].index, j) {
      if j < |tools| {
        assert SlotOk(r, tools[j].index, j);
        SlotsAfterOpen(r, c, tools[j].index, j);
      }
    }
  }

  lemma ExtendTool(s: State, g: Given, j: nat, a: string)
    requires Faithful(s, g) && j < |s.tools|
    ensures var t := g.tools[j];
            Faithful(Emit(s, BlockDelta(s.tools[j].index, JsonDelta(a))),
                     g.(tools := g.tools[j := Tool(t.id, t.name, t.json + a)]))
  {
    var r, i := Read(s.out), s.tools[j].index;
    assert SlotOk(r, i, j);
    SlotContent(r, i, j);
    DeltaKeeps(s, i, JsonDelta(a));
    SlotsUpdated(r, s.tools, i, j, Extend(r[i], JsonDelta(a)));
  }

  lemma SlotContent(r: seq<Content>, i: nat, j: nat)
    requires SlotOk(r, i, j)
    ensures j < |Tools(r)| && r[i] == Tools(r)[j]
  {
    ToolsUpdate(r, i, r[i]);
    assert r[i := r[i]] == r;
  }

  lemma SlotsUpdated(r: seq<Content>, tools: seq<Slot>, i: nat, j: nat, c: Content)
    requires SlotsOk(r, tools) && SlotOk(r, i, j) && c.Tool? && j < |Tools(r)|
    ensures SlotsOk(r[i := c], tools) && Tools(r[i := c]) == Tools(r)[j := c]
  {
    ToolsUpdate(r, i, c);
    forall k | 0 <= k < |tools| ensures SlotOk(r[i := c], tools[k].index, k) {
      SlotsAfterUpdate(r, i, c, tools[k].index, k);
    }
  }

  /** The fragment's arguments land on the tool at position j. */
  function Argue(g: Given, j: nat, a: string): Given
    requires Aligned(g) && j < |g.tools|
  {
    g.(tools := g.tools[j := Tool(g.tools[j].id, g.tools[j].name, g.tools[j].json + a)])
  }

  lemma ArgumentFaithful(s: State, g: Given, j: nat, a: string)
    requires Faithful(s, g) && j < |s.tools|
    ensures Faithful(if a == "" then s else Emit(s, BlockDelta(s.tools[j].index, JsonDelta(a))), Argue(g, j, a))
  {
    if a == "" {
      assert g.tools[j].json + a == g.tools[j].json;
      assert g.tools[j := g.tools[j]] == g.tools;
      assert Argue(g, j, a) == g;
    } else {
      ExtendTool(s, g, j, a);
    }
  }

  lemma KeyPosition(s: State, g: Given, call: CallDelta)
    requires Faithful(s, g)
    ensures |s.tools| == |g.keys| == |g.tools|
    ensures Find(s.tools, KeyOf(|s.tools|, call)) == Locate(g.keys, KeyOf(|g.keys|, call))
  {
    SameFind(s.tools, g.keys, KeyOf(|s.tools|, call));
  }

  lemma NewCallFaithful(s: State, g: Given, key: int, id: string, name: string, a: string)
    requires Faithful(s, g)
    ensures var u := OpenBlock(s, ToolUse(id, name)).(tools := s.tools + [Slot(key, s.next)]);
            Faithful(if a == "" then u else Emit(u, BlockDelta(s.next, JsonDelta(a))),
                     g.(keys := g.keys + [key], tools := g.tools + [Tool(id, name, a)]))
  {
    OpenTool(s, g, key, id, name);
    var u := OpenBlock(s, ToolUse(id, name)).(tools := s.tools + [Slot(key, s.next)]);
    var h := g.(keys := g.keys + [key], tools := g.tools + [Tool(id, name, "")]);
    var j := |s.tools|;
    ArgumentFaithful(u, h, j, a);
    assert "" + a == a;
    assert h.tools[j := Tool(id, name, a)] == g.tools + [Tool(id, name, a)];
  }

  lemma CallFaithful(s: State, g: Given, call: CallDelta)
    requires Faithful(s, g)
    ensures Faithful(FeedCall(s, call), TakeCall(g, call))
  {
    KeyPosition(s, g, call);
    var key := KeyOf(|s.tools|, call);
    var j := Find(s.tools, key);
    if j == |s.tools| {
      NewCallFaithful(s, g, key, IdOf(call), call.name, call.arguments);
    } else {
      ArgumentFaithful(s, g, j, call.arguments);
    }
  }

  lemma {:induction false} CallsFaithful(s: State, g: Given, calls: seq<CallDelta>)
    requires Faithful(s, g)
    ensures Faithful(FeedCalls(s, calls), TakeCalls(g, calls))
  {
    if calls != [] {
      CallsFaithful(s, g, calls[..|calls| - 1]);
      CallFaithful(FeedCalls(s, calls[..|calls| - 1]), TakeCalls(g, calls[..|calls| - 1]), calls[|calls| - 1]);
    }
  }

  lemma ThinkingFaithful(s: State, g: Given, t: string)
    requires Faithful(s, g)
    ensures Faithful(FeedThinking(s, t), g.(thinking := g.thinking + t))
  {
    if t == "" {
      assert g.thinking + t == g.thinking;
    } else if s.thinking.None? {
      OpenThinking(s, g);
      ExtendThinking(OpenBlock(s, ThinkingBlock).(thinking := Some(s.next)), g, t);
    } else {
      ExtendThinking(s, g, t);
    }
  }

  lemma TextFaithful(s: State, g: Given, t: string)
    requires Faithful(s, g)
    ensures Faithful(FeedText(s, t), g.(text := g.text + t))
  {
    if t == "" {
      assert g.text + t == g.text;
    } else if s.text.None? {
      OpenText(s, g);
      ExtendText(OpenBlock(s, TextBlock).(text := Some(s.next)), g, t);
    } else {
      ExtendText(s, g, t);
    }
  }

  lemma ChoiceFaithful(strip: bool, s: State, g: Given, ch: Choice)
    requires Faithful(s, g)
    ensures Faithful(FeedChoice(strip, s, ch), Take(strip, g, Chunk(None, Some(ch))))
  {
    var g1 := g.(thinking := g.thinking + Thought(strip, ch));
    var s1 := FeedThinking(s, Thought(strip, ch));
    assert Faithful(s1, g1) by { ThinkingFaithful(s, g, Thought(strip, ch)); }
    var g2 := g1.(text := g1.text + Shown(strip, ch));
    var s2 := FeedText(s1, Shown(strip, ch));
    assert Faithful(s2, g2) by { TextFaithful(s1, g1, Shown(strip, ch)); }
    var s3, g3 := FeedCalls(s2, ch.calls), TakeCalls(g2, ch.calls);
    assert Faithful(s3, g3) by { CallsFaithful(s2, g2, ch.calls); }
    StopIsAside(s3, g3, StopReason(ch.finish));
    assert g2 == g.(text := g.text + Shown(strip, ch), thinking := g.thinking + Thought(strip, ch));
  }

  lemma UsageIsAside(s: State, g: Given, usage: Option<Usage>)
    requires Faithful(s, g)
    ensures Faithful(s.(usage := usage), g)
  {
  }

  lemma FeedFaithful(strip: bool, s: State, g: Given, c: Chunk)
    requires Faithful(s, g)
    ensures Faithful(Feed(strip, s, c), Take(strip, g, c))
  {
    UsageIsAside(s, g, c.usage);
    var u := if c.usage.Some? then s.(usage := c.usage) else s;
    if c.choice.Some? {
      ChoiceFaithful(strip, u, g, c.choice.value);
    }
  }

  lemma StopIsAside(s: State, g: Given, stop: string)
    requires Faithful(s, g)
    ensures Faithful(s.(stop := stop), g)
  {
  }

  lemma {:induction false} FeedAllFaithful(strip: bool, cs: seq<Chunk>)
    ensures Faithful(FeedAll(strip, cs), Spelled(strip, cs))
  {
    if cs == [] {
      assert Upto(0) == [];
    } else {
      FeedAllFaithful(strip, cs[..|cs| - 1]);
      FeedFaithful(strip, FeedAll(strip, cs[..|cs| - 1]), Spelled(strip, cs[..|cs| - 1]), cs[|cs| - 1]);
    }
  }

  /** The shape of every reply: blocks start under 0..n-1 in order, deltas only touch
      started blocks of their kind, then every block is stopped exactly once in opening
      order, and the message ends. */
  ghost predicate WellFormed(es: seq<Event>) {
    exists body, last :: Shaped(es, body, last)
  }

  ghost predicate Shaped(es: seq<Event>, body: seq<Event>, last: Event) {
    Body(body) && last.MessageDelta? && es == OPENING + body + Stops(Upto(Count(body))) + [last, MessageStop]
  }

  /** At most one text and one thinking block. */
  ghost predicate Singletons(r: seq<Content>) {
    && (forall i, j :: 0 <= i < j < |r| ==> !(r[i].Text? && r[j].Text?))
    && (forall i, j :: 0 <= i < j < |r| ==> !(r[i].Think? && r[j].Think?))
  }

  /** For every stream of chunks the reply is well-formed, and a client that reads it
      receives exactly the text, the thinking and the tool calls the chunks spell - in
      at most one text and one thinking block. */
  lemma {:induction false} ReplyIsFaithful(strip: bool, cs: seq<Chunk>)
    ensures WellFormed(Reply(strip, cs))
    ensures var r, g := Read(Reply(strip, cs)), Spelled(strip, cs);
            && AllText(r) == g.text && AllThinking(r) == g.thinking && Tools(r) == g.tools
            && Singletons(r)
  {
    FeedAllFaithful(strip, cs);
    var s, g := FeedAll(strip, cs), Spelled(strip, cs);
    ReplyShape(strip, cs);
    ReplyReads(strip, cs);
    OneText(Read(s.out), s.text, g.text);
    OneThought(Read(s.out), s.thinking, g.thinking);
  }

  lemma ReplyShape(strip: bool, cs: seq<Chunk>)
    ensures WellFormed(Reply(strip, cs))
  {
    FeedAllFaithful(strip, cs);
    var s := FeedAll(strip, cs);
    var u := if s.usage.Some? then s.usage.value else Usage(0, 0, 0);
    var last := MessageDelta(if s.stop != "" then s.stop else "end_turn", u.prompt, Some(u.completion));
    var stops := Stops(Upto(Count(s.out)));
    assert Closing(s) == stops + [last, MessageStop];
    assert (OPENING + s.out) + (stops + [last, MessageStop]) == OPENING + s.out + stops + [last, MessageStop];
    assert Shaped(Reply(strip, cs), s.out, last);
  }

  lemma ReplyReads(strip: bool, cs: seq<Chunk>)
    ensures Read(Reply(strip, cs)) == Read(FeedAll(strip, cs).out)
  {
    var s := FeedAll(strip, cs);
    ReadTail(OPENING + s.out, Closing(s));
    ReadLead(Ping, s.out);
    ReadLead(MessageStart(0), [Ping] + s.out);
    assert OPENING + s.out == [MessageStart(0)] + ([Ping] + s.out);
  }

  /** Content never touches the usage or the stop reason. */
  lemma FeedCallsAside(s: State, c: Chunk)
    requires c.choice.Some?
    ensures c.usage.Some? ==> Feed(false, s, c).usage == c.usage
    ensures c.choice.value.finish != "" ==> Feed(false, s, c).stop == StopReason(c.choice.value.finish)
  {
    var u := if c.usage.Some? then s.(usage := c.usage) else s;
    CallsLeaveUsage(FeedText(FeedThinking(u, Thought(false, c.choice.value)), Shown(false, c.choice.value)),
                    c.choice.value.calls);
  }

  lemma {:induction false} CallsLeaveUsage(s: State, calls: seq<CallDelta>)
    ensures FeedCalls(s, calls).usage == s.usage
  {
    if calls != [] {
      CallsLeaveUsage(s, calls[..|calls| - 1]);
    }
  }
}
