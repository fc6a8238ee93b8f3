/** What becomes of the texts and the calls of a turn, told from its blocks: no text is lost,
    however many there are and wherever they lie. */
module TurnFields {
  import opened AnthropicHistory

  // ---- Joined texts -----------------------------------------------------------------------

  /** The texts that are not empty. */
  function Filled(texts: seq<string>): seq<string> {
    if texts == [] then [] else (if texts[0] == "" then [] else [texts[0]]) + Filled(texts[1..])
  }

  /** The text holds exactly these parts, in order, with a newline between neighbours. */
  predicate Spells(text: string, parts: seq<string>)
    decreases |parts|
  {
    if parts == [] then text == ""
    else if |parts| == 1 then text == parts[0]
    else
      var n := |parts[0]|;
      n < |text| && text[..n] == parts[0] && text[n] == '\n' && Spells(text[n + 1..], parts[1..])
  }

  lemma {:induction false} FilledSnoc(texts: seq<string>, last: string)
    ensures Filled(texts + [last]) == Filled(texts) + (if last == "" then [] else [last])
  {
    if texts == [] {
      assert [last][1..] == [];
    } else {
      FilledSnoc(texts[1..], last);
      assert (texts + [last])[1..] == texts[1..] + [last];
    }
  }

  lemma {:induction false} SpellsMore(text: string, parts: seq<string>, last: string)
    requires Spells(text, parts) && parts != []
    ensures Spells(text + "\n" + last, parts + [last])
    decreases |parts|
  {
    var all, told, n := text + "\n" + last, parts + [last], |parts[0]|;
    if |parts| == 1 {
      assert told[1..] == [last] && all[n + 1..] == last && all[..n] == text;
    } else {
      var rest := text[n + 1..];
      SpellsMore(rest, parts[1..], last);
      assert told[1..] == parts[1..] + [last];
      assert all[n + 1..] == rest + "\n" + last && all[..n] == text[..n];
    }
  }

  /** Joined texts are the texts that are not empty, in order, a newline between neighbours. */
  lemma {:induction false} JoinedTextsSpell(texts: seq<string>)
    ensures Spells(JoinTexts(texts), Filled(texts))
    ensures JoinTexts(texts) == "" <==> Filled(texts) == []
  {
    if texts != [] {
      var front, last := texts[..|texts| - 1], texts[|texts| - 1];
      JoinedTextsSpell(front);
      assert texts == front + [last];
      FilledSnoc(front, last);
      JoinedWith(JoinTexts(front), Filled(front), last);
    }
  }

  lemma JoinedWith(text: string, parts: seq<string>, last: string)
    requires Spells(text, parts) && (text == "" <==> parts == [])
    ensures var all := if last == "" then text else if text == "" then last else text + "\n" + last;
            var told := parts + (if last == "" then [] else [last]);
            Spells(all, told) && (all == "" <==> told == [])
  {
    if last == "" {
      assert parts + [] == parts;
    } else if text == "" {
      assert parts + [last] == [last];
    } else {
      SpellsMore(text, parts, last);
    }
  }

  // ---- Assistant turns --------------------------------------------------------------------

  /** The texts of a turn that are not empty, and its calls. */
  function SaidIn(blocks: seq<Block>): seq<string> {
    if blocks == [] then []
    else (if blocks[0].Text? && blocks[0].text != "" then [blocks[0].text] else []) + SaidIn(blocks[1..])
  }

  function UsedIn(blocks: seq<Block>): seq<Block> {
    if blocks == [] then []
    else (if blocks[0].ToolUse? then [blocks[0]] else []) + UsedIn(blocks[1..])
  }

  /** A call keeps its id, or gets a new one if it has none; its input is written out. */
  predicate CallKept(c: Codec, block: Block, call: Call) {
    && block.ToolUse? && call.name == block.name && call.arguments == c.dump(block.input)
    && call.id == if block.id == "" then block.minted else block.id
  }

  lemma {:induction false} SaidSnoc(blocks: seq<Block>, b: Block)
    ensures SaidIn(blocks + [b]) == SaidIn(blocks) + (if b.Text? && b.text != "" then [b.text] else [])
  {
    if blocks == [] {
      assert [b][1..] == [];
    } else {
      SaidSnoc(blocks[1..], b);
      assert (blocks + [b])[1..] == blocks[1..] + [b];
    }
  }

  lemma {:induction false} UsedSnoc(blocks: seq<Block>, b: Block)
    ensures UsedIn(blocks + [b]) == UsedIn(blocks) + (if b.ToolUse? then [b] else [])
  {
    if blocks == [] {
      assert [b][1..] == [];
    } else {
      UsedSnoc(blocks[1..], b);
      assert (blocks + [b])[1..] == blocks[1..] + [b];
    }
  }

  lemma {:induction false} TurnTexts(c: Codec, blocks: seq<Block>)
    ensures Filled(TextsOf(blocks)) == SaidIn(blocks)
    ensures var calls, used := CallsOf(c, blocks), UsedIn(blocks);
            |calls| == |used| && forall k :: 0 <= k < |used| ==> CallKept(c, used[k], calls[k])
  {
    if blocks != [] {
      var front, last := blocks[..|blocks| - 1], blocks[|blocks| - 1];
      TurnTexts(c, front);
      SaidSnoc(front, last);
      UsedSnoc(front, last);
      assert blocks == front + [last];
      if last.Text? {
        FilledSnoc(TextsOf(front), last.text);
      } else {
        assert TextsOf(front) + [] == TextsOf(front) && SaidIn(front) + [] == SaidIn(front);
      }
    }
  }

  /** A turn of the assistant is one message with all its texts and all its calls. */
  lemma AssistantTurnIsKept(c: Codec, turn: Turn)
    requires turn.role == Assistant
    ensures var ms, blocks := Translated(c, turn), BlocksOf(turn.content);
            && |ms| == 1 && ms[0].AssistantMsg? && Spells(ms[0].text, SaidIn(blocks))
            && |ms[0].calls| == |UsedIn(blocks)|
            && forall k :: 0 <= k < |ms[0].calls| ==> CallKept(c, UsedIn(blocks)[k], ms[0].calls[k])
  {
    TurnTexts(c, BlocksOf(turn.content));
    JoinedTextsSpell(TextsOf(BlocksOf(turn.content)));
  }

  /** A system turn becomes context of the user, with all its texts. */
  lemma SystemTurnIsKept(c: Codec, turn: Turn)
    requires turn.role == System
    ensures var ms := Translated(c, turn);
            |ms| == 1 && ms[0].UserMsg? && Spells(ms[0].text, SaidIn(BlocksOf(turn.content)))
  {
    TurnTexts(c, BlocksOf(turn.content));
    JoinedTextsSpell(TextsOf(BlocksOf(turn.content)));
  }

  // ---- User turns -------------------------------------------------------------------------

  /** Texts cut into sections by the tool results between them. */
  datatype Sections<T> = Sections(texts: seq<seq<string>>, results: seq<T>)

  function WithText<T>(s: Sections<T>, text: string): Sections<T> {
    var n := |s.texts| - 1;
    if text == "" || s.texts == [] then s else s.(texts := s.texts[n := s.texts[n] + [text]])
  }

  function WithResult<T>(s: Sections<T>, result: T): Sections<T> {
    Sections(s.texts + [[]], s.results + [result])
  }

  function OfBlocks(blocks: seq<Block>): (s: Sections<Block>)
    ensures |s.texts| == |s.results| + 1 && forall k :: 0 <= k < |s.results| ==> s.results[k].ToolResult?
  {
    if blocks == [] then Sections([[]], [])
    else
      var s, last := OfBlocks(blocks[..|blocks| - 1]), blocks[|blocks| - 1];
      match last
      case Text(t) => WithText(s, t)
      case ToolResult(_, _) => WithResult(s, last)
      case _ => s
  }

  function OfMessages(ms: seq<Chat>): (s: Sections<Chat>)
    ensures |s.texts| == |s.results| + 1 && forall k :: 0 <= k < |s.results| ==> s.results[k].ToolMsg?
  {
    if ms == [] then Sections([[]], [])
    else
      var s, last := OfMessages(ms[..|ms| - 1]), ms[|ms| - 1];
      match last
      case UserMsg(t) => WithText(s, t)
      case ToolMsg(_, _) => WithResult(s, last)
      case _ => s
  }

  /** What a section says is said in one message, if there is anything to say. */
  ghost predicate Told(parts: seq<string>, messages: seq<string>) {
    if parts == [] then messages == [] else |messages| == 1 && Spells(messages[0], parts)
  }

  /** A result keeps its id and all its texts. */
  ghost predicate ResultKept(block: Block, m: Chat) {
    block.ToolResult? && m.ToolMsg? && m.id == block.id && Spells(m.text, Filled(block.content))
  }

  ghost predicate AllTold(a: Sections<Block>, b: Sections<Chat>) {
    && |a.texts| == |b.texts| && |a.results| == |b.results|
    && (forall k :: 0 <= k < |a.texts| ==> Told(a.texts[k], b.texts[k]))
    && (forall k :: 0 <= k < |a.results| ==> ResultKept(a.results[k], b.results[k]))
  }

  /** All sections are told but the last, whose texts are still waiting. */
  ghost predicate Waiting(a: Sections<Block>, b: Sections<Chat>, pending: seq<string>) {
    && |a.texts| == |b.texts| == |a.results| + 1 && |a.results| == |b.results|
    && (forall k :: 0 <= k < |a.results| ==> Told(a.texts[k], b.texts[k]) && ResultKept(a.results[k], b.results[k]))
    && a.texts[|a.results|] == Filled(pending) && b.texts[|b.results|] == []
  }

  lemma OfMessagesSnoc(ms: seq<Chat>, m: Chat)
    requires m.UserMsg? || m.ToolMsg?
    ensures OfMessages(ms + [m])
         == if m.UserMsg? then WithText(OfMessages(ms), m.text) else WithResult(OfMessages(ms), m)
  {
    assert (ms + [m])[..|ms|] == ms;
  }

  lemma FlushTells(a: Sections<Block>, s: UserState)
    requires Waiting(a, OfMessages(s.translated), s.pending)
    ensures AllTold(a, OfMessages(Flush(s)))
  {
    JoinedTextsSpell(s.pending);
    if s.pending != [] {
      OfMessagesSnoc(s.translated, UserMsg(JoinTexts(s.pending)));
      assert [] + [JoinTexts(s.pending)] == [JoinTexts(s.pending)];
    }
  }

  lemma ResultWaits(a: Sections<Block>, ms: seq<Chat>, block: Block, m: Chat)
    requires AllTold(a, OfMessages(ms)) && |a.texts| == |a.results| + 1 && ResultKept(block, m)
    ensures Waiting(WithResult(a, block), OfMessages(ms + [m]), [])
  {
    OfMessagesSnoc(ms, m);
    SectionsJoin(a, OfMessages(ms), block, m);
  }

  lemma SectionsJoin(a: Sections<Block>, b: Sections<Chat>, block: Block, m: Chat)
    requires AllTold(a, b) && |a.texts| == |a.results| + 1 && ResultKept(block, m)
    ensures Waiting(WithResult(a, block), WithResult(b, m), [])
  {
  }

  lemma TextWaits(a: Sections<Block>, b: Sections<Chat>, pending: seq<string>, text: string)
    requires Waiting(a, b, pending)
    ensures Waiting(WithText(a, text), b, pending + [text])
  {
    FilledSnoc(pending, text);
    assert Filled(pending) + [] == Filled(pending);
  }

  lemma {:induction false} FoldWaits(blocks: seq<Block>)
    ensures var s := UserFold(blocks);
            Waiting(OfBlocks(blocks), OfMessages(s.translated), s.pending)
  {
    if blocks != [] {
      var front, last := blocks[..|blocks| - 1], blocks[|blocks| - 1];
      var s, a := UserFold(front), OfBlocks(front);
      FoldWaits(front);
      match last {
        case ToolResult(id, content) =>
          FlushTells(a, s);
          JoinedTextsSpell(content);
          ResultWaits(a, Flush(s), last, ToolMsg(id, JoinTexts(content)));
        case Text(text) => TextWaits(a, OfMessages(s.translated), s.pending, text);
        case _ =>
      }
    }
  }

  /** A user turn is told in full: between the same tool results, in the same order, the same
      texts, each section in one message; and every result with all its texts. */
  lemma UserTurnIsKept(c: Codec, turn: Turn)
    requires turn.role == User
    ensures AllTold(OfBlocks(BlocksOf(turn.content)), OfMessages(Translated(c, turn)))
    ensures Translated(c, turn) != []
  {
    var blocks := BlocksOf(turn.content);
    FoldWaits(blocks);
    FlushTells(OfBlocks(blocks), UserFold(blocks));
    if Flush(UserFold(blocks)) == [] {
      OfMessagesSnoc([], UserMsg(""));
      assert [] + [UserMsg("")] == [UserMsg("")];
    }
  }

  // ---- On the way back --------------------------------------------------------------------

  /** No content of a turn is empty: texts say something, results name their call. */
  predicate Substantial(turn: Turn) {
    match turn.content
    case Plain(text) => text != ""
    case Blocks(blocks) =>
      && blocks != []
      && forall k :: 0 <= k < |blocks| ==>
           && (blocks[k].Text? ==> blocks[k].text != "")
           && (blocks[k].ToolResult? ==> blocks[k].id != "")
  }

  lemma {:induction false} CallBlocksAre(c: Codec, calls: seq<Call>)
    ensures var blocks := CallBlocks(c, calls);
            |blocks| == |calls| && forall k :: 0 <= k < |blocks| ==>
              && blocks[k].ToolUse? && blocks[k].id == calls[k].id && blocks[k].name == calls[k].name
              && blocks[k].input == if calls[k].arguments == "" then c.empty else c.parse(calls[k].arguments)
  {
    if calls != [] {
      CallBlocksAre(c, calls[..|calls| - 1]);
    }
  }

  /** The protocol rejects empty content, and none is sent. */
  lemma {:induction false} NothingIsEmpty(c: Codec, messages: seq<Chat>)
    ensures forall k :: 0 <= k < |Converted(c, messages)| ==> Substantial(Converted(c, messages)[k])
  {
    if messages != [] {
      var front, m := messages[..|messages| - 1], messages[|messages| - 1];
      NothingIsEmpty(c, front);
      if m.AssistantMsg? {
        CallBlocksAre(c, m.calls);
      }
    }
  }

  /** What an empty message, a result without a call, and a call without arguments become. */
  lemma BlanksAreFilled(c: Codec, id: string, name: string, text: string)
    ensures Converted(c, [UserMsg("")]) == [Turn(User, Plain(" "))]
    ensures Converted(c, [AssistantMsg("", [])]) == [Turn(Assistant, Plain(" "))]
    ensures Converted(c, [ToolMsg("", text)]) == [Turn(User, Blocks([ToolResult("unknown", [text])]))]
    ensures Converted(c, [AssistantMsg("", [Call(id, name, "")])])
         == [Turn(Assistant, Blocks([ToolUse(id, "", name, c.empty)]))]
  {
    OneConverted(c, UserMsg(""));
    OneConverted(c, AssistantMsg("", []));
    OneConverted(c, ToolMsg("", text));
    OneConverted(c, AssistantMsg("", [Call(id, name, "")]));
    CallBlocksAre(c, [Call(id, name, "")]);
    assert CallBlocks(c, [Call(id, name, "")]) == [ToolUse(id, "", name, c.empty)] by {
      assert [Call(id, name, "")][..0] == [];
    }
  }

  lemma OneConverted(c: Codec, m: Chat)
    ensures Converted(c, [m]) == Converted1(c, [], m)
  {
    assert [m][..0] == [];
  }

  function SystemTexts(messages: seq<Chat>): seq<string> {
    if messages == [] then []
    else SystemTexts(messages[..|messages| - 1])
         + (if messages[|messages| - 1].SystemMsg? then [messages[|messages| - 1].text] else [])
  }

  /** The system prompt is gathered from the system messages that are not empty, in order. */
  lemma {:induction false} SystemIsGathered(messages: seq<Chat>)
    ensures SystemChunks(messages) == Filled(SystemTexts(messages))
  {
    if messages != [] {
      var front, last := messages[..|messages| - 1], messages[|messages| - 1];
      SystemIsGathered(front);
      if last.SystemMsg? {
        FilledSnoc(SystemTexts(front), last.text);
      } else {
        assert SystemTexts(front) + [] == SystemTexts(front) && SystemChunks(front) + [] == SystemChunks(front);
      }
    }
  }
}
