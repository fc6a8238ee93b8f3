/** The canonical chat stream between providers and client protocols, and the Anthropic
    event vocabulary spoken on either side of it. */
module ChatStream {
  import opened Common

  // ---- Canonical chunks -------------------------------------------------------

  datatype Usage = Usage(prompt: int, completion: int, total: int)

  /** A fragment of a tool call. An empty id is absent; `minted` is the id that would be
      generated in its place. */
  datatype CallDelta = CallDelta(id: string, minted: string, index: Option<int>, name: string, arguments: string)

  datatype Choice = Choice(content: string, reasoningContent: string, reasoning: string,
                           recovered: bool, calls: seq<CallDelta>, finish: string)
  {
    /** The first reasoning field that is not blank, else nothing. */
    function Thinking(): string {
      if !Blank(reasoningContent) then reasoningContent
      else if !Blank(reasoning) then reasoning else ""
    }
  }

  datatype Chunk = Chunk(usage: Option<Usage>, choice: Option<Choice>)

  const QUIET := Choice("", "", "", false, [], "")

  predicate Blank(s: string) {
    forall i :: 0 <= i < |s| ==> IsSpace(s[i])
  }

  // ---- Anthropic events ---------------------------------------------------------

  datatype Block = TextBlock | ThinkingBlock | ToolUse(id: string, name: string)

  datatype Delta = TextDelta(text: string) | ThinkingDelta(text: string) | JsonDelta(text: string)

  datatype Event =
    | MessageStart(inputTokens: int)
    | Ping
    | BlockStart(index: nat, block: Block)
    | BlockDelta(index: nat, delta: Delta)
    | BlockStop(index: nat)
    | MessageDelta(stop: string, inputTokens: int, outputTokens: Option<int>)
    | MessageStop

  /** What a client has received of one content block. */
  datatype Content = Text(text: string) | Think(text: string) | Tool(id: string, name: string, json: string)

  function Fresh(b: Block): Content {
    match b
    case TextBlock => Text("")
    case ThinkingBlock => Think("")
    case ToolUse(id, name) => Tool(id, name, "")
  }

  predicate Fits(c: Content, d: Delta) {
    match d
    case TextDelta(_) => c.Text?
    case ThinkingDelta(_) => c.Think?
    case JsonDelta(_) => c.Tool?
  }

  function Extend(c: Content, d: Delta): Content
    requires Fits(c, d)
  {
    match c
    case Text(t) => Text(t + d.text)
    case Think(t) => Think(t + d.text)
    case Tool(id, name, json) => Tool(id, name, json + d.text)
  }

  /** How a client reads an event: a start appends a block, a delta extends the block it
      names. Events that name no fitting block are not understood and change nothing. */
  function Hear(r: seq<Content>, e: Event): seq<Content> {
    match e
    case BlockStart(_, b) => r + [Fresh(b)]
    case BlockDelta(i, d) => if i < |r| && Fits(r[i], d) then r[i := Extend(r[i], d)] else r
    case _ => r
  }

  function Read(es: seq<Event>): seq<Content> {
    if es == [] then [] else Hear(Read(es[..|es| - 1]), es[|es| - 1])
  }

  function AllText(r: seq<Content>): string {
    if r == [] then "" else AllText(r[..|r| - 1]) + (if r[|r| - 1].Text? then r[|r| - 1].text else "")
  }

  function AllThinking(r: seq<Content>): string {
    if r == [] then "" else AllThinking(r[..|r| - 1]) + (if r[|r| - 1].Think? then r[|r| - 1].text else "")
  }

  /** The tool calls of a message in order, with their concatenated arguments. */
  function Tools(r: seq<Content>): seq<Content> {
    if r == [] then [] else Tools(r[..|r| - 1]) + (if r[|r| - 1].Tool? then [r[|r| - 1]] else [])
  }

  lemma ReadSnoc(es: seq<Event>, e: Event)
    ensures Read(es + [e]) == Hear(Read(es), e)
  {
    assert (es + [e])[..|es|] == es;
  }

  /** Events that carry no content at the end of a stream are not read as content. */
  lemma {:induction false} ReadTail(es: seq<Event>, tail: seq<Event>)
    requires forall e :: e in tail ==> !e.BlockStart? && !e.BlockDelta?
    ensures Read(es + tail) == Read(es)
  {
    if tail == [] {
      assert es + tail == es;
    } else {
      var init, e := tail[..|tail| - 1], tail[|tail| - 1];
      ReadTail(es, init);
      ReadSnoc(es + init, e);
      assert es + tail == (es + init) + [e];
      assert e in tail;
    }
  }

  lemma ReadLead(e: Event, es: seq<Event>)
    requires !e.BlockStart? && !e.BlockDelta?
    ensures Read([e] + es) == Read(es)
  {
    if es == [] {
      assert [e] + es == [] + [e];
      ReadSnoc([], e);
    } else {
      var init, l := es[..|es| - 1], es[|es| - 1];
      ReadLead(e, init);
      ReadSnoc([e] + init, l);
      assert [e] + es == ([e] + init) + [l];
    }
  }

  lemma ContentSnoc(r: seq<Content>, c: Content)
    ensures AllText(r + [c]) == AllText(r) + (if c.Text? then c.text else "")
    ensures AllThinking(r + [c]) == AllThinking(r) + (if c.Think? then c.text else "")
    ensures Tools(r + [c]) == Tools(r) + (if c.Tool? then [c] else [])
  {
    assert (r + [c])[..|r|] == r;
  }

  /** Replacing a block by another of its kind changes only that block's entry. */
  lemma {:induction false} ToolsUpdate(r: seq<Content>, i: nat, c: Content)
    requires i < |r|
    ensures |Tools(r[..i])| <= |Tools(r)|
    ensures r[i].Tool? && c.Tool? ==>
              |Tools(r[..i])| < |Tools(r)| && Tools(r[i := c]) == Tools(r)[|Tools(r[..i])| := c]
    ensures !r[i].Tool? && !c.Tool? ==> Tools(r[i := c]) == Tools(r)
  {
    var n := |r| - 1;
    if i == n {
      assert r[i := c][..n] == r[..n];
    } else {
      ToolsUpdate(r[..n], i, c);
      assert r[i := c][..n] == r[..n][i := c];
      assert r[..n][..i] == r[..i];
    }
  }

  /** With at most one text block, all text is that block's text. */
  lemma {:induction false} OneText(r: seq<Content>, at: Option<nat>, t: string)
    requires forall i :: 0 <= i < |r| ==> (r[i].Text? <==> at == Some(i))
    requires forall i :: 0 <= i < |r| && r[i].Text? ==> r[i].text == t
    ensures AllText(r) == if at.Some? && at.value < |r| then t else ""
  {
    if r != [] {
      OneText(r[..|r| - 1], at, t);
    }
  }

  lemma {:induction false} OneThought(r: seq<Content>, at: Option<nat>, t: string)
    requires forall i :: 0 <= i < |r| ==> (r[i].Think? <==> at == Some(i))
    requires forall i :: 0 <= i < |r| && r[i].Think? ==> r[i].text == t
    ensures AllThinking(r) == if at.Some? && at.value < |r| then t else ""
  {
    if r != [] {
      OneThought(r[..|r| - 1], at, t);
    }
  }
}
