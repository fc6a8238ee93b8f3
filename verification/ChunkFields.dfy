/** What a client reads from a reply, told from the fields of the chunks: text, thinking,
    tool calls under their keys, and how the message ends. */
module ChunkFields {
  import opened Common
  import opened ChatStream
  import opened MessagesStream
  import ResponsesStream

  // ---- Text and thinking ------------------------------------------------------------------

  /** Something in it is not white space. */
  ghost predicate HasInk(s: string) { exists i :: 0 <= i < |s| && !IsSpace(s[i]) }

  /** The thinking of a choice: the first of its two reasoning fields that has ink. */
  ghost function ThoughtOf(c: Choice): string {
    if HasInk(c.reasoningContent) then c.reasoningContent
    else if HasInk(c.reasoning) then c.reasoning
    else ""
  }

  ghost function ThoughtsOf(cs: seq<Chunk>): string {
    if cs == [] then ""
    else
      var last := cs[|cs| - 1];
      ThoughtsOf(cs[..|cs| - 1]) + if last.choice.Some? then ThoughtOf(last.choice.value) else ""
  }

  /** The text of the chunks; with stripping on, what was recovered from reasoning is not text. */
  function TextsOf(strip: bool, cs: seq<Chunk>): string {
    if cs == [] then ""
    else
      var front, last := cs[..|cs| - 1], cs[|cs| - 1];
      if last.choice.None? || (strip && last.choice.value.recovered) then TextsOf(strip, front)
      else TextsOf(strip, front) + last.choice.value.content
  }

  lemma InkIsNotBlank(s: string)
    ensures HasInk(s) <==> !Blank(s)
  {
  }

  lemma {:induction false} SpelledSays(strip: bool, cs: seq<Chunk>)
    ensures Spelled(strip, cs).text == TextsOf(strip, cs)
    ensures Spelled(strip, cs).thinking == if strip then "" else ThoughtsOf(cs)
  {
    if cs != [] {
      var front, last := cs[..|cs| - 1], cs[|cs| - 1];
      SpelledSays(strip, front);
      if last.choice.Some? {
        InkIsNotBlank(last.choice.value.reasoningContent);
        InkIsNotBlank(last.choice.value.reasoning);
        assert TextsOf(strip, front) + "" == TextsOf(strip, front);
      }
    }
  }

  /** The text and the thinking a client reads are those of the chunks, whichever reasoning
      field they come in; with stripping on there is no thinking. */
  lemma SpeechIsRead(strip: bool, cs: seq<Chunk>)
    ensures var r := Read(Reply(strip, cs));
            AllText(r) == TextsOf(strip, cs) && AllThinking(r) == if strip then "" else ThoughtsOf(cs)
  {
    ReplyIsFaithful(strip, cs);
    SpelledSays(strip, cs);
  }

  // ---- Tool calls -------------------------------------------------------------------------

  /** The tool fragments of the chunks, in order. */
  function Fragments(cs: seq<Chunk>): seq<CallDelta> {
    if cs == [] then []
    else
      var last := cs[|cs| - 1];
      Fragments(cs[..|cs| - 1]) + if last.choice.Some? then last.choice.value.calls else []
  }

  /** The keys of the fragments, each once, in order of appearance. A fragment without an
      index stands for one more call. */
  function KeysOf(fs: seq<CallDelta>): seq<int> {
    if fs == [] then []
    else
      var keys, last := KeysOf(fs[..|fs| - 1]), fs[|fs| - 1];
      var key := if last.index.Some? then last.index.value else |keys|;
      if key in keys then keys else keys + [key]
  }

  function KeyAt(fs: seq<CallDelta>, n: nat): int
    requires n < |fs|
  {
    if fs[n].index.Some? then fs[n].index.value else |KeysOf(fs[..n])|
  }

  /** The first fragment of a key. */
  ghost predicate Opens(fs: seq<CallDelta>, n: nat, key: int) {
    n < |fs| && KeyAt(fs, n) == key && forall m :: 0 <= m < n ==> KeyAt(fs, m) != key
  }

  /** The arguments of all fragments of a key. */
  function ArgumentsOf(fs: seq<CallDelta>, key: int): string {
    if fs == [] then ""
    else
      var n := |fs| - 1;
      ArgumentsOf(fs[..n], key) + if KeyAt(fs, n) == key then fs[n].arguments else ""
  }

  /** The tool of a key: id and name of its first fragment - a new id if that has none - and
      the arguments of all. */
  ghost predicate IsToolOf(fs: seq<CallDelta>, key: int, tool: Content) {
    exists n: nat :: Opens(fs, n, key)
      && tool == Tool(if fs[n].id == "" then fs[n].minted else fs[n].id, fs[n].name, ArgumentsOf(fs, key))
  }

  ghost predicate AreToolsOf(fs: seq<CallDelta>, tools: seq<Content>) {
    |tools| == |KeysOf(fs)| && forall j :: 0 <= j < |tools| ==> IsToolOf(fs, KeysOf(fs)[j], tools[j])
  }

  ghost predicate Matches(fs: seq<CallDelta>, g: Given) {
    Aligned(g) && g.keys == KeysOf(fs) && AreToolsOf(fs, g.tools)
  }

  lemma SameKeys(fs: seq<CallDelta>, f: CallDelta)
    ensures forall n :: 0 <= n < |fs| ==> KeyAt(fs + [f], n) == KeyAt(fs, n)
    ensures KeyAt(fs + [f], |fs|) == if f.index.Some? then f.index.value else |KeysOf(fs)|
    ensures var key := KeyAt(fs + [f], |fs|);
            KeysOf(fs + [f]) == if key in KeysOf(fs) then KeysOf(fs) else KeysOf(fs) + [key]
  {
    var all := fs + [f];
    assert all[..|fs|] == fs;
    forall n | 0 <= n < |fs| ensures KeyAt(all, n) == KeyAt(fs, n) {
      assert all[..n] == fs[..n] && all[n] == fs[n];
    }
  }

  lemma ArgumentsSnoc(fs: seq<CallDelta>, f: CallDelta, key: int)
    ensures ArgumentsOf(fs + [f], key)
         == ArgumentsOf(fs, key) + if KeyAt(fs + [f], |fs|) == key then f.arguments else ""
  {
    assert (fs + [f])[..|fs|] == fs;
  }

  /** Every key has its place in the list. */
  lemma {:induction false} KeysAppear(fs: seq<CallDelta>)
    ensures forall n :: 0 <= n < |fs| ==> KeyAt(fs, n) in KeysOf(fs)
  {
    if fs != [] {
      var n := |fs| - 1;
      KeysAppear(fs[..n]);
      SameKeys(fs[..n], fs[n]);
      assert fs == fs[..n] + [fs[n]];
    }
  }

  lemma ToolStays(fs: seq<CallDelta>, f: CallDelta, key: int, tool: Content)
    requires IsToolOf(fs, key, tool) && KeyAt(fs + [f], |fs|) != key
    ensures IsToolOf(fs + [f], key, tool)
  {
    SameKeys(fs, f);
    ArgumentsSnoc(fs, f, key);
    var n: nat :| Opens(fs, n, key)
             && tool == Tool(if fs[n].id == "" then fs[n].minted else fs[n].id, fs[n].name, ArgumentsOf(fs, key));
    assert ArgumentsOf(fs, key) + "" == ArgumentsOf(fs, key);
    assert Opens(fs + [f], n, key);
  }

  lemma ToolGrows(fs: seq<CallDelta>, f: CallDelta, key: int, tool: Content)
    requires IsToolOf(fs, key, tool) && KeyAt(fs + [f], |fs|) == key
    ensures tool.Tool? && IsToolOf(fs + [f], key, Tool(tool.id, tool.name, tool.json + f.arguments))
  {
    SameKeys(fs, f);
    ArgumentsSnoc(fs, f, key);
    var n: nat :| Opens(fs, n, key)
             && tool == Tool(if fs[n].id == "" then fs[n].minted else fs[n].id, fs[n].name, ArgumentsOf(fs, key));
    assert Opens(fs + [f], n, key);
  }

  lemma {:induction false} NoArguments(fs: seq<CallDelta>, key: int)
    requires key !in KeysOf(fs)
    ensures ArgumentsOf(fs, key) == ""
  {
    if fs != [] {
      var front, last := fs[..|fs| - 1], fs[|fs| - 1];
      assert fs == front + [last];
      SameKeys(front, last);
      NoArguments(front, key);
      ArgumentsSnoc(front, last, key);
    }
  }

  lemma ToolOpens(fs: seq<CallDelta>, f: CallDelta, key: int)
    requires key !in KeysOf(fs) && KeyAt(fs + [f], |fs|) == key
    ensures IsToolOf(fs + [f], key, Tool(if f.id == "" then f.minted else f.id, f.name, f.arguments))
  {
    SameKeys(fs, f);
    KeysAppear(fs);
    NoArguments(fs, key);
    ArgumentsSnoc(fs, f, key);
    assert Opens(fs + [f], |fs|, key);
    assert "" + f.arguments == f.arguments;
  }

  lemma {:induction false} KeysDiffer(fs: seq<CallDelta>)
    ensures forall i, j :: 0 <= i < j < |KeysOf(fs)| ==> KeysOf(fs)[i] != KeysOf(fs)[j]
  {
    if fs != [] {
      KeysDiffer(fs[..|fs| - 1]);
    }
  }

  lemma FragmentTaken(fs: seq<CallDelta>, g: Given, f: CallDelta)
    requires Matches(fs, g)
    ensures Matches(fs + [f], TakeCall(g, f))
  {
    SameKeys(fs, f);
    KeysDiffer(fs);
    var key, j := KeyAt(fs + [f], |fs|), Locate(g.keys, KeyAt(fs + [f], |fs|));
    if j < |g.keys| {
      ToolsGrow(fs, g.tools, f, j);
    } else {
      ToolsJoin(fs, g.tools, f);
    }
  }

  lemma ToolsGrow(fs: seq<CallDelta>, tools: seq<Content>, f: CallDelta, j: nat)
    requires AreToolsOf(fs, tools) && j < |tools| && tools[j].Tool?
    requires KeysOf(fs)[j] == KeyAt(fs + [f], |fs|)
    ensures AreToolsOf(fs + [f], tools[j := Tool(tools[j].id, tools[j].name, tools[j].json + f.arguments)])
  {
    SameKeys(fs, f);
    KeysDiffer(fs);
    forall i | 0 <= i < |tools| && i != j ensures IsToolOf(fs + [f], KeysOf(fs)[i], tools[i]) {
      ToolStays(fs, f, KeysOf(fs)[i], tools[i]);
    }
    ToolGrows(fs, f, KeysOf(fs)[j], tools[j]);
  }

  lemma ToolsJoin(fs: seq<CallDelta>, tools: seq<Content>, f: CallDelta)
    requires AreToolsOf(fs, tools) && KeyAt(fs + [f], |fs|) !in KeysOf(fs)
    ensures AreToolsOf(fs + [f], tools + [Tool(if f.id == "" then f.minted else f.id, f.name, f.arguments)])
  {
    SameKeys(fs, f);
    forall i | 0 <= i < |tools| ensures IsToolOf(fs + [f], KeysOf(fs)[i], tools[i]) {
      ToolStays(fs, f, KeysOf(fs)[i], tools[i]);
    }
    ToolOpens(fs, f, KeyAt(fs + [f], |fs|));
  }

  lemma {:induction false} FragmentsTaken(fs: seq<CallDelta>, g: Given, calls: seq<CallDelta>)
    requires Matches(fs, g)
    ensures Matches(fs + calls, TakeCalls(g, calls))
  {
    if calls == [] {
      assert fs + calls == fs;
    } else {
      var front, last := calls[..|calls| - 1], calls[|calls| - 1];
      FragmentsTaken(fs, g, front);
      FragmentTaken(fs + front, TakeCalls(g, front), last);
      assert fs + calls == (fs + front) + [last];
    }
  }

  lemma {:induction false} SpelledTools(strip: bool, cs: seq<Chunk>)
    ensures Matches(Fragments(cs), Spelled(strip, cs))
  {
    if cs != [] {
      var front, last := cs[..|cs| - 1], cs[|cs| - 1];
      SpelledTools(strip, front);
      if last.choice.Some? {
        var ch, g := last.choice.value, Spelled(strip, front);
        var told := g.(text := g.text + Shown(strip, ch), thinking := g.thinking + Thought(strip, ch));
        FragmentsTaken(Fragments(front), told, ch.calls);
      } else {
        assert Fragments(front) + [] == Fragments(front);
      }
    }
  }

  /** The tool calls a client reads are those of the fragments, under their keys. */
  lemma ToolsAreRead(strip: bool, cs: seq<Chunk>)
    ensures AreToolsOf(Fragments(cs), Tools(Read(Reply(strip, cs))))
  {
    ReplyIsFaithful(strip, cs);
    SpelledTools(strip, cs);
  }

  // ---- The end of the message ---------------------------------------------------------------

  /** The last finish reason given, and the last usage. */
  function FinishOf(cs: seq<Chunk>): string {
    if cs == [] then ""
    else
      var last := cs[|cs| - 1];
      if last.choice.Some? && last.choice.value.finish != "" then last.choice.value.finish
      else FinishOf(cs[..|cs| - 1])
  }

  function UsageOf(cs: seq<Chunk>): Option<Usage> {
    if cs == [] then None
    else if cs[|cs| - 1].usage.Some? then cs[|cs| - 1].usage else UsageOf(cs[..|cs| - 1])
  }

  predicate StopsFor(finish: string, stop: string) {
    && (finish == "length" ==> stop == "max_tokens")
    && (finish == "tool_calls" || finish == "function_call" ==> stop == "tool_use")
    && (finish == "content_filter" ==> stop == "refusal")
    && (finish != "length" && finish != "tool_calls" && finish != "function_call" && finish != "content_filter" ==>
          stop == "end_turn")
  }

  lemma {:induction false} CallsLeaveTheEnd(s: State, calls: seq<CallDelta>)
    ensures FeedCalls(s, calls).stop == s.stop && FeedCalls(s, calls).usage == s.usage
  {
    if calls != [] {
      CallsLeaveTheEnd(s, calls[..|calls| - 1]);
    }
  }

  lemma ChunkEnds(strip: bool, s: State, c: Chunk)
    ensures var t := Feed(strip, s, c);
            && t.usage == (if c.usage.Some? then c.usage else s.usage)
            && (if c.choice.Some? && c.choice.value.finish != "" then
                  StopsFor(c.choice.value.finish, t.stop) && t.stop != ""
                else t.stop == s.stop)
  {
    if c.choice.Some? {
      var ch := c.choice.value;
      var u := if c.usage.Some? then s.(usage := c.usage) else s;
      CallsLeaveTheEnd(FeedText(FeedThinking(u, Thought(strip, ch)), Shown(strip, ch)), ch.calls);
    }
  }

  lemma {:induction false} ChunksEnd(strip: bool, cs: seq<Chunk>)
    ensures var s := FeedAll(strip, cs);
            && s.usage == UsageOf(cs)
            && (if FinishOf(cs) == "" then s.stop == "" else s.stop != "" && StopsFor(FinishOf(cs), s.stop))
  {
    if cs != [] {
      ChunksEnd(strip, cs[..|cs| - 1]);
      ChunkEnds(strip, FeedAll(strip, cs[..|cs| - 1]), cs[|cs| - 1]);
    }
  }

  /** The message ends with the stop reason of the last finish reason and with the last usage
      reported, or none. */
  lemma EndIsRead(strip: bool, cs: seq<Chunk>)
    ensures var out, n := Reply(strip, cs), |Reply(strip, cs)|;
            && n >= 2 && out[n - 1] == MessageStop && out[n - 2].MessageDelta?
            && StopsFor(FinishOf(cs), out[n - 2].stop)
            && (UsageOf(cs).Some? ==>
                  out[n - 2].inputTokens == UsageOf(cs).value.prompt
                  && out[n - 2].outputTokens == Some(UsageOf(cs).value.completion))
            && (UsageOf(cs).None? ==> out[n - 2].inputTokens == 0 && out[n - 2].outputTokens == Some(0))
  {
    ChunksEnd(strip, cs);
  }

  // ---- The other protocol --------------------------------------------------------------------

  /** A completed response holds the same: the text first, if there is any, then the tools. */
  lemma ResponseHolds(strip: bool, es: seq<ResponsesStream.Report>)
    requires !ResponsesStream.Fails(es)
    ensures var out, cs := ResponsesStream.Reply(strip, es), ResponsesStream.ChunksOf(es);
            && out != [] && out[|out| - 1].kind.Completed?
            && var done := out[|out| - 1].kind;
            var text := TextsOf(strip, cs);
            if text == "" then done.outputText == None && AreToolsOf(Fragments(cs), done.output)
            else
              && done.outputText == Some(text) && done.output != [] && done.output[0] == Text(text)
              && AreToolsOf(Fragments(cs), done.output[1..])
  {
    ResponsesStream.ReplyIsFaithful(strip, es);
    var cs := ResponsesStream.ChunksOf(es);
    SpelledSays(strip, cs);
    SpelledTools(strip, cs);
    var g := Spelled(strip, cs);
    assert [] + g.tools == g.tools && ([Text(g.text)] + g.tools)[1..] == g.tools;
  }

  /** A failed response ends with the failure as it was reported; what the report leaves out
      reads as an error of the server upstream. */
  lemma FailureIsRead(strip: bool, es: seq<ResponsesStream.Report>, n: nat)
    requires n < |es| && es[n].Failed? && forall i :: 0 <= i < n ==> !es[i].Failed? && !es[i].Ended?
    ensures var out := ResponsesStream.Reply(strip, es);
            && |out| >= 2 && out[|out| - 1].kind.ErrorSent? && out[|out| - 2].kind.ResponseFailed?
            && var failed, error := out[|out| - 2].kind, out[|out| - 1].kind;
            && failed.code == error.code && failed.message == error.message
            && (es[n].code.Some? ==> error.code == es[n].code.value)
            && (es[n].code.None? ==> error.code == "server_error")
            && (es[n].message.Some? ==> error.message == es[n].message.value)
            && (es[n].message.None? ==> error.message == "upstream error")
  {
    assert ResponsesStream.StopAt(es) == n;
    ResponsesStream.ReplyIsFaithful(strip, es);
  }
}
