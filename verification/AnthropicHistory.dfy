/** Conversation histories on their way from the Anthropic protocol to chat messages and
    back: the inbound translator, then the adapter's. */
module AnthropicHistory {

  /** A parsed JSON object, opaque here. */
  datatype Json = Json(value: int)

  datatype Role = User | Assistant | System

  /** A content block. `minted` is the id a call without one would get; `Other` is a block
      the translators ignore, such as `thinking`. */
  datatype Block =
    | Text(text: string)
    | ToolUse(id: string, minted: string, name: string, input: Json)
    | ToolResult(id: string, content: seq<string>)
    | Other

  datatype Content = Plain(text: string) | Blocks(blocks: seq<Block>)
  datatype Turn = Turn(role: Role, content: Content)

  /** Chat messages; an empty text stands for absent content too. */
  datatype Call = Call(id: string, name: string, arguments: string)
  datatype Chat =
    | SystemMsg(text: string)
    | UserMsg(text: string)
    | AssistantMsg(text: string, calls: seq<Call>)
    | ToolMsg(id: string, text: string)

  /** JSON in and out of text. */
  datatype Codec = Codec(dump: Json -> string, parse: string -> Json, empty: Json)

  ghost predicate Inverse(c: Codec) {
    forall x :: c.dump(x) != "" && c.parse(c.dump(x)) == x
  }

  function ParseObject(c: Codec, raw: string): Json { if raw == "" then c.empty else c.parse(raw) }

  // ---- Anthropic to chat ------------------------------------------------------------------

  function BlocksOf(content: Content): seq<Block> {
    match content
    case Plain(text) => [Text(text)]
    case Blocks(blocks) => blocks
  }

  /** The non-empty texts, joined by newlines. */
  function JoinTexts(texts: seq<string>): string {
    if texts == [] then ""
    else
      var front, last := JoinTexts(texts[..|texts| - 1]), texts[|texts| - 1];
      if last == "" then front else if front == "" then last else front + "\n" + last
  }

  function TextsOf(blocks: seq<Block>): seq<string> {
    if blocks == [] then []
    else
      var last := blocks[|blocks| - 1];
      TextsOf(blocks[..|blocks| - 1]) + (if last.Text? then [last.text] else [])
  }

  function CallId(b: Block): string
    requires b.ToolUse?
  {
    if b.id != "" then b.id else b.minted
  }

  function CallsOf(c: Codec, blocks: seq<Block>): seq<Call> {
    if blocks == [] then []
    else
      var last := blocks[|blocks| - 1];
      CallsOf(c, blocks[..|blocks| - 1])
      + (if last.ToolUse? then [Call(CallId(last), last.name, c.dump(last.input))] else [])
  }

  /** The messages so far, and the text waiting to become a user message. */
  datatype UserState = UserState(translated: seq<Chat>, pending: seq<string>)

  function Flush(s: UserState): seq<Chat> {
    if s.pending == [] then s.translated else s.translated + [UserMsg(JoinTexts(s.pending))]
  }

  function UserFold(blocks: seq<Block>): UserState {
    if blocks == [] then UserState([], [])
    else
      var s, last := UserFold(blocks[..|blocks| - 1]), blocks[|blocks| - 1];
      match last
      case ToolResult(id, content) => UserState(Flush(s) + [ToolMsg(id, JoinTexts(content))], [])
      case Text(text) => s.(pending := s.pending + [text])
      case _ => s
  }

  function Translated(c: Codec, turn: Turn): seq<Chat> {
    var blocks := BlocksOf(turn.content);
    match turn.role
    case Assistant => [AssistantMsg(JoinTexts(TextsOf(blocks)), CallsOf(c, blocks))]
    case User => if Flush(UserFold(blocks)) == [] then [UserMsg("")] else Flush(UserFold(blocks))
    case System => [UserMsg(JoinTexts(TextsOf(blocks)))]
  }

  method TranslateMessage(c: Codec, turn: Turn) returns (messages: seq<Chat>)
    ensures messages == Translated(c, turn)
  {
    var blocks := BlocksOf(turn.content);
    assert blocks[..|blocks|] == blocks;
    if turn.role == Assistant {
      var texts: seq<string>, calls: seq<Call> := [], [];
      for i := 0 to |blocks|
        invariant texts == TextsOf(blocks[..i]) && calls == CallsOf(c, blocks[..i])
      {
        assert blocks[..i + 1][..i] == blocks[..i];
        match blocks[i] {
          case Text(text) => texts := texts + [text];
          case ToolUse(_, _, name, input) => calls := calls + [Call(CallId(blocks[i]), name, c.dump(input))];
          case _ =>
        }
      }
      return [AssistantMsg(JoinTexts(texts), calls)];
    }
    if turn.role == User {
      messages := [];
      var pending: seq<string> := [];
      for i := 0 to |blocks|
        invariant UserState(messages, pending) == UserFold(blocks[..i])
      {
        assert blocks[..i + 1][..i] == blocks[..i];
        match blocks[i] {
          case ToolResult(id, content) =>
            if pending != [] {
              messages, pending := messages + [UserMsg(JoinTexts(pending))], [];
            }
            messages := messages + [ToolMsg(id, JoinTexts(content))];
          case Text(text) => pending := pending + [text];
          case _ =>
        }
      }
      if pending != [] {
        messages := messages + [UserMsg(JoinTexts(pending))];
      }
      return if messages == [] then [UserMsg("")] else messages;
    }
    return [UserMsg(JoinTexts(TextsOf(blocks)))];
  }

  /** The chat request's messages: the system prompt, then every turn's. */
  function TranslatedTurns(c: Codec, turns: seq<Turn>): seq<Chat> {
    if turns == [] then [] else TranslatedTurns(c, turns[..|turns| - 1]) + Translated(c, turns[|turns| - 1])
  }

  function ToChat(c: Codec, system: string, turns: seq<Turn>): seq<Chat> {
    (if system != "" then [SystemMsg(system)] else []) + TranslatedTurns(c, turns)
  }

  // ---- Chat to Anthropic ------------------------------------------------------------------

  function CallBlocks(c: Codec, calls: seq<Call>): seq<Block> {
    if calls == [] then []
    else
      var call := calls[|calls| - 1];
      CallBlocks(c, calls[..|calls| - 1]) + [ToolUse(call.id, "", call.name, ParseObject(c, call.arguments))]
  }

  function NonBlank(text: string): string { if text == "" then " " else text }

  /** One message appended, or merged into the last turn's results. */
  function Converted1(c: Codec, turns: seq<Turn>, m: Chat): seq<Turn> {
    match m
    case SystemMsg(_) => turns
    case ToolMsg(id, text) =>
      var block := ToolResult(if id == "" then "unknown" else id, [text]);
      if turns != [] && turns[|turns| - 1].role == User && turns[|turns| - 1].content.Blocks? then
        turns[..|turns| - 1] + [Turn(User, Blocks(turns[|turns| - 1].content.blocks + [block]))]
      else turns + [Turn(User, Blocks([block]))]
    case UserMsg(text) => turns + [Turn(User, Plain(NonBlank(text)))]
    case AssistantMsg(text, calls) =>
      if calls != [] then
        turns + [Turn(Assistant, Blocks((if text != "" then [Text(text)] else []) + CallBlocks(c, calls)))]
      else turns + [Turn(Assistant, Plain(NonBlank(text)))]
  }

  function Converted(c: Codec, messages: seq<Chat>): seq<Turn> {
    if messages == [] then [] else Converted1(c, Converted(c, messages[..|messages| - 1]), messages[|messages| - 1])
  }

  function SystemChunks(messages: seq<Chat>): seq<string> {
    if messages == [] then []
    else
      var last := messages[|messages| - 1];
      SystemChunks(messages[..|messages| - 1]) + (if last.SystemMsg? && last.text != "" then [last.text] else [])
  }

  /** The blocks of an assistant turn that calls tools. */
  method CallTurn(c: Codec, text: string, calls: seq<Call>) returns (blocks: seq<Block>)
    ensures blocks == (if text != "" then [Text(text)] else []) + CallBlocks(c, calls)
  {
    blocks := if text != "" then [Text(text)] else [];
    for k := 0 to |calls|
      invariant blocks == (if text != "" then [Text(text)] else []) + CallBlocks(c, calls[..k])
    {
      assert calls[..k + 1][..k] == calls[..k];
      blocks := blocks + [ToolUse(calls[k].id, "", calls[k].name, ParseObject(c, calls[k].arguments))];
    }
    assert calls[..|calls|] == calls;
  }

  /** The turns and the pieces of the system prompt; a request of system messages only is
      refused. */
  method ConvertMessages(c: Codec, messages: seq<Chat>) returns (turns: seq<Turn>, system: seq<string>, refused: bool)
    ensures turns == Converted(c, messages) && system == SystemChunks(messages)
    ensures refused <==> forall i :: 0 <= i < |messages| ==> messages[i].SystemMsg?
  {
    turns, system := [], [];
    assert messages[..|messages|] == messages;
    for i := 0 to |messages|
      invariant turns == Converted(c, messages[..i]) && system == SystemChunks(messages[..i])
      invariant turns == [] <==> forall j :: 0 <= j < i ==> messages[j].SystemMsg?
    {
      assert messages[..i + 1][..i] == messages[..i];
      var m := messages[i];
      if m.SystemMsg? {
        if m.text != "" {
          system := system + [m.text];
        }
        continue;
      }
      if m.ToolMsg? {
        var block := ToolResult(if m.id == "" then "unknown" else m.id, [m.text]);
        var last := |turns| - 1;
        if turns != [] && turns[last].role == User && turns[last].content.Blocks? {
          turns := turns[..last] + [Turn(User, Blocks(turns[last].content.blocks + [block]))];
        } else {
          turns := turns + [Turn(User, Blocks([block]))];
        }
        continue;
      }
      if m.AssistantMsg? && m.calls != [] {
        var blocks := CallTurn(c, m.text, m.calls);
        turns := turns + [Turn(Assistant, Blocks(blocks))];
        continue;
      }
      var role := if m.AssistantMsg? then Assistant else User;
      turns := turns + [Turn(role, Plain(if m.text == "" then " " else m.text))];
    }
    refused := turns == [];
  }

  // ---- What a history says ------------------------------------------------------------------

  datatype Item =
    | Said(role: Role, text: string)
    | Used(id: string, name: string, input: Json)
    | Answered(id: string, text: string)

  function Shown(role: Role, b: Block): seq<Item> {
    match b
    case Text(text) => [Said(role, text)]
    case ToolUse(_, _, name, input) => [Used(CallId(b), name, input)]
    case ToolResult(id, content) => [Answered(id, JoinTexts(content))]
    case Other => []
  }

  function Flat(role: Role, blocks: seq<Block>): seq<Item> {
    if blocks == [] then [] else Flat(role, blocks[..|blocks| - 1]) + Shown(role, blocks[|blocks| - 1])
  }

  /** The flattened history: who said what, which tools were called, what they answered. */
  function History(turns: seq<Turn>): seq<Item> {
    if turns == [] then []
    else
      var last := turns[|turns| - 1];
      History(turns[..|turns| - 1]) + Flat(last.role, BlocksOf(last.content))
  }

  /** The same for chat messages, as the adapter will render them. */
  function CallItems(c: Codec, calls: seq<Call>): seq<Item> {
    if calls == [] then []
    else
      var call := calls[|calls| - 1];
      CallItems(c, calls[..|calls| - 1]) + [Used(call.id, call.name, ParseObject(c, call.arguments))]
  }

  function Rendered(c: Codec, m: Chat): seq<Item> {
    match m
    case SystemMsg(_) => []
    case UserMsg(text) => [Said(User, NonBlank(text))]
    case ToolMsg(id, text) => [Answered(if id == "" then "unknown" else id, text)]
    case AssistantMsg(text, calls) =>
      if calls == [] then [Said(Assistant, NonBlank(text))]
      else (if text != "" then [Said(Assistant, text)] else []) + CallItems(c, calls)
  }

  function RenderedAll(c: Codec, messages: seq<Chat>): seq<Item> {
    if messages == [] then [] else RenderedAll(c, messages[..|messages| - 1]) + Rendered(c, messages[|messages| - 1])
  }

  lemma {:induction false} FlatAppend(role: Role, a: seq<Block>, b: seq<Block>)
    ensures Flat(role, a + b) == Flat(role, a) + Flat(role, b)
  {
    if b == [] {
      assert a + b == a;
    } else {
      var front, last := b[..|b| - 1], b[|b| - 1];
      FlatAppend(role, a, front);
      assert a + b == (a + front) + [last];
      FlatSnoc(role, a + front, last);
      Assoc(Flat(role, a), Flat(role, front), Shown(role, last));
    }
  }

  lemma FlatSnoc(role: Role, a: seq<Block>, b: Block)
    ensures Flat(role, a + [b]) == Flat(role, a) + Shown(role, b)
  {
    assert (a + [b])[..|a|] == a;
  }

  lemma Flat1(role: Role, b: Block)
    ensures Flat(role, [b]) == Shown(role, b)
  {
    assert [b][..0] == [];
  }

  lemma HistorySnoc(turns: seq<Turn>, turn: Turn)
    ensures History(turns + [turn]) == History(turns) + Flat(turn.role, BlocksOf(turn.content))
  {
    assert (turns + [turn])[..|turns|] == turns;
  }

  lemma Assoc(x: seq<Item>, y: seq<Item>, z: seq<Item>)
    ensures (x + y) + z == x + (y + z)
    ensures x + [] == x
  {
  }

  lemma {:induction false} RenderedAppend(c: Codec, a: seq<Chat>, b: seq<Chat>)
    ensures RenderedAll(c, a + b) == RenderedAll(c, a) + RenderedAll(c, b)
  {
    if b == [] {
      assert a + b == a;
      Assoc(RenderedAll(c, a), [], []);
    } else {
      var front, last := b[..|b| - 1], b[|b| - 1];
      RenderedAppend(c, a, front);
      RenderedShift(c, a, front, last);
      assert front + [last] == b;
    }
  }

  lemma RenderedShift(c: Codec, a: seq<Chat>, front: seq<Chat>, last: Chat)
    requires RenderedAll(c, a + front) == RenderedAll(c, a) + RenderedAll(c, front)
    ensures RenderedAll(c, a + (front + [last])) == RenderedAll(c, a) + RenderedAll(c, front + [last])
  {
    assert a + (front + [last]) == (a + front) + [last];
    RenderedSnoc(c, a + front, last);
    RenderedSnoc(c, front, last);
    Assoc(RenderedAll(c, a), RenderedAll(c, front), Rendered(c, last));
  }

  lemma RenderedSnoc(c: Codec, a: seq<Chat>, m: Chat)
    ensures RenderedAll(c, a + [m]) == RenderedAll(c, a) + Rendered(c, m)
  {
    assert (a + [m])[..|a|] == a;
  }

  lemma CallItemsSnoc(c: Codec, calls: seq<Call>, call: Call)
    ensures CallItems(c, calls + [call])
         == CallItems(c, calls) + [Used(call.id, call.name, ParseObject(c, call.arguments))]
  {
    assert (calls + [call])[..|calls|] == calls;
  }

  lemma Rendered1(c: Codec, m: Chat)
    ensures RenderedAll(c, [m]) == Rendered(c, m)
  {
    assert [m][..0] == [];
  }

  // ---- The adapter renders every message ---------------------------------------------------------

  lemma {:induction false} CallBlocksSay(c: Codec, calls: seq<Call>)
    ensures Flat(Assistant, CallBlocks(c, calls)) == CallItems(c, calls)
  {
    if calls != [] {
      var front := calls[..|calls| - 1];
      CallBlocksSay(c, front);
      var all := CallBlocks(c, calls);
      assert all[..|all| - 1] == CallBlocks(c, front);
    }
  }

  lemma MergedResult(front: seq<Turn>, blocks: seq<Block>, block: Block)
    ensures History(front + [Turn(User, Blocks(blocks + [block]))])
         == History(front + [Turn(User, Blocks(blocks))]) + Shown(User, block)
  {
    HistorySnoc(front, Turn(User, Blocks(blocks)));
    HistorySnoc(front, Turn(User, Blocks(blocks + [block])));
    assert Flat(User, blocks + [block]) == Flat(User, blocks) + Shown(User, block) by {
      FlatAppend(User, blocks, [block]);
      Flat1(User, block);
    }
    Assoc(History(front), Flat(User, blocks), Shown(User, block));
  }

  lemma ResultText(text: string)
    ensures JoinTexts([text]) == text
  {
    assert [text][..0] == [];
  }

  lemma CallTurnSays(c: Codec, text: string, calls: seq<Call>)
    ensures Flat(Assistant, (if text != "" then [Text(text)] else []) + CallBlocks(c, calls))
         == (if text != "" then [Said(Assistant, text)] else []) + CallItems(c, calls)
  {
    FlatAppend(Assistant, if text != "" then [Text(text)] else [], CallBlocks(c, calls));
    CallBlocksSay(c, calls);
    Flat1(Assistant, Text(text));
  }

  function ResultBlock(id: string, text: string): Block { ToolResult(if id == "" then "unknown" else id, [text]) }

  lemma ResultShown(c: Codec, id: string, text: string)
    ensures Shown(User, ResultBlock(id, text)) == Rendered(c, ToolMsg(id, text))
  {
    ResultText(text);
  }

  /** What a tool message does to the turns, last turn apart. */
  lemma Merges(c: Codec, front: seq<Turn>, last: Turn, id: string, text: string)
    ensures Converted1(c, front + [last], ToolMsg(id, text))
         == if last.role == User && last.content.Blocks? then
              front + [Turn(User, Blocks(last.content.blocks + [ResultBlock(id, text)]))]
            else
              (front + [last]) + [Turn(User, Blocks([ResultBlock(id, text)]))]
  {
    assert (front + [last])[..|front|] == front;
  }

  lemma ResultSays(c: Codec, front: seq<Turn>, last: Turn, id: string, text: string)
    ensures History(Converted1(c, front + [last], ToolMsg(id, text)))
         == History(front + [last]) + Rendered(c, ToolMsg(id, text))
  {
    Merges(c, front, last, id, text);
    ResultShown(c, id, text);
    if last.role == User && last.content.Blocks? {
      MergedResult(front, last.content.blocks, ResultBlock(id, text));
    } else {
      NewResultSays(front + [last], ResultBlock(id, text));
    }
  }

  lemma NewResultSays(turns: seq<Turn>, block: Block)
    ensures History(turns + [Turn(User, Blocks([block]))]) == History(turns) + Shown(User, block)
  {
    HistorySnoc(turns, Turn(User, Blocks([block])));
    Flat1(User, block);
  }

  lemma ToolSays(c: Codec, turns: seq<Turn>, id: string, text: string)
    ensures History(Converted1(c, turns, ToolMsg(id, text))) == History(turns) + Rendered(c, ToolMsg(id, text))
  {
    ResultShown(c, id, text);
    if turns == [] {
      NewResultSays(turns, ResultBlock(id, text));
    } else {
      assert turns == turns[..|turns| - 1] + [turns[|turns| - 1]];
      ResultSays(c, turns[..|turns| - 1], turns[|turns| - 1], id, text);
    }
  }

  lemma SaidSays(turns: seq<Turn>, role: Role, text: string)
    ensures History(turns + [Turn(role, Plain(text))]) == History(turns) + [Said(role, text)]
  {
    HistorySnoc(turns, Turn(role, Plain(text)));
    Flat1(role, Text(text));
  }

  lemma ConvertedOneSays(c: Codec, turns: seq<Turn>, m: Chat)
    ensures History(Converted1(c, turns, m)) == History(turns) + Rendered(c, m)
  {
    match m
    case SystemMsg(_) =>
      Assoc(History(turns), [], []);
    case ToolMsg(id, text) =>
      ToolSays(c, turns, id, text);
    case UserMsg(text) =>
      SaidSays(turns, User, NonBlank(text));
    case AssistantMsg(text, calls) =>
      if calls != [] {
        HistorySnoc(turns, Turn(Assistant, Blocks((if text != "" then [Text(text)] else []) + CallBlocks(c, calls))));
        CallTurnSays(c, text, calls);
      } else {
        SaidSays(turns, Assistant, NonBlank(text));
      }
  }

  /** The adapter's turns say exactly what the messages say, in their order. */
  lemma {:induction false} ConversionSaysTheSame(c: Codec, messages: seq<Chat>)
    ensures History(Converted(c, messages)) == RenderedAll(c, messages)
  {
    if messages != [] {
      var front := messages[..|messages| - 1];
      ConversionSaysTheSame(c, front);
      ConvertedOneSays(c, Converted(c, front), messages[|messages| - 1]);
    }
  }

  // ---- The translator keeps turns in normal form -------------------------------------------------

  /** One block of a turn in normal form: no empty text, every tool named. */
  predicate PlainBlock(role: Role, b: Block, position: nat, size: nat) {
    match b
    case Text(text) => text != "" && (if role == User then position == size - 1 else position == 0)
    case ToolUse(_, _, _, _) => role == Assistant
    case ToolResult(id, _) => role == User && id != ""
    case Other => false
  }

  /** Assistant: at most one text, then calls. User: results, then at most one text. */
  ghost predicate Normal(turn: Turn) {
    var blocks := BlocksOf(turn.content);
    turn.role != System && blocks != []
    && forall i :: 0 <= i < |blocks| ==> PlainBlock(turn.role, blocks[i], i, |blocks|)
  }

  lemma {:induction false} CallsAreKept(c: Codec, blocks: seq<Block>)
    requires Inverse(c) && forall i :: 0 <= i < |blocks| ==> blocks[i].ToolUse?
    ensures CallItems(c, CallsOf(c, blocks)) == Flat(Assistant, blocks)
    ensures TextsOf(blocks) == [] && |CallsOf(c, blocks)| == |blocks|
  {
    if blocks != [] {
      var front, last := blocks[..|blocks| - 1], blocks[|blocks| - 1];
      CallsAreKept(c, front);
      CallItemsSnoc(c, CallsOf(c, front), Call(CallId(last), last.name, c.dump(last.input)));
    }
  }

  lemma {:induction false} CallsAfterText(c: Codec, text: string, blocks: seq<Block>)
    ensures CallsOf(c, [Text(text)] + blocks) == CallsOf(c, blocks)
    ensures TextsOf([Text(text)] + blocks) == [text] + TextsOf(blocks)
  {
    var all := [Text(text)] + blocks;
    if blocks == [] {
      assert all[..0] == [];
    } else {
      assert all[..|all| - 1] == [Text(text)] + blocks[..|blocks| - 1];
      CallsAfterText(c, text, blocks[..|blocks| - 1]);
    }
  }

  lemma AssistantTurnIsKept(c: Codec, turn: Turn)
    requires Inverse(c) && Normal(turn) && turn.role == Assistant
    ensures RenderedAll(c, Translated(c, turn)) == Flat(Assistant, BlocksOf(turn.content))
  {
    var blocks := BlocksOf(turn.content);
    Rendered1(c, AssistantMsg(JoinTexts(TextsOf(blocks)), CallsOf(c, blocks)));
    AssistantBlocksAreKept(c, blocks, AssistantMsg(JoinTexts(TextsOf(blocks)), CallsOf(c, blocks)));
  }

  lemma AssistantBlocksAreKept(c: Codec, blocks: seq<Block>, m: Chat)
    requires Inverse(c) && blocks != [] && m == AssistantMsg(JoinTexts(TextsOf(blocks)), CallsOf(c, blocks))
    requires forall i :: 0 <= i < |blocks| ==> PlainBlock(Assistant, blocks[i], i, |blocks|)
    ensures Rendered(c, m) == Flat(Assistant, blocks)
  {
    assert PlainBlock(Assistant, blocks[0], 0, |blocks|);
    forall i | 0 < i < |blocks| ensures blocks[i].ToolUse? {
      assert PlainBlock(Assistant, blocks[i], i, |blocks|);
    }
    if blocks[0].Text? {
      var text, calls := blocks[0].text, blocks[1..];
      assert blocks == [Text(text)] + calls;
      TextThenCalls(c, text, calls, blocks);
    } else {
      CallsAreKept(c, blocks);
    }
  }

  lemma TextThenCalls(c: Codec, text: string, calls: seq<Block>, blocks: seq<Block>)
    requires blocks == [Text(text)] + calls
    requires Inverse(c) && text != "" && forall i :: 0 <= i < |calls| ==> calls[i].ToolUse?
    ensures Rendered(c, AssistantMsg(JoinTexts(TextsOf(blocks)), CallsOf(c, blocks))) == Flat(Assistant, blocks)
  {
    CallsAfterText(c, text, calls);
    CallsAreKept(c, calls);
    ResultText(text);
    FlatAppend(Assistant, [Text(text)], calls);
    Flat1(Assistant, Text(text));
  }

  lemma {:induction false} ResultsAreKept(c: Codec, blocks: seq<Block>)
    requires forall i :: 0 <= i < |blocks| ==> blocks[i].ToolResult? && blocks[i].id != ""
    ensures UserFold(blocks).pending == [] && |UserFold(blocks).translated| == |blocks|
    ensures RenderedAll(c, UserFold(blocks).translated) == Flat(User, blocks)
  {
    if blocks != [] {
      var front, last := blocks[..|blocks| - 1], blocks[|blocks| - 1];
      ResultsAreKept(c, front);
      RenderedAppend(c, UserFold(front).translated, [ToolMsg(last.id, JoinTexts(last.content))]);
      Rendered1(c, ToolMsg(last.id, JoinTexts(last.content)));
    }
  }

  lemma UserTurnIsKept(c: Codec, turn: Turn)
    requires Normal(turn) && turn.role == User
    ensures RenderedAll(c, Translated(c, turn)) == Flat(User, BlocksOf(turn.content))
  {
    var blocks := BlocksOf(turn.content);
    UserBlocksAreKept(c, blocks);
  }

  lemma UserBlocksAreKept(c: Codec, blocks: seq<Block>)
    requires blocks != [] && forall i :: 0 <= i < |blocks| ==> PlainBlock(User, blocks[i], i, |blocks|)
    ensures var messages := Flush(UserFold(blocks)); messages != [] && RenderedAll(c, messages) == Flat(User, blocks)
  {
    var n := |blocks| - 1;
    assert PlainBlock(User, blocks[n], n, |blocks|);
    if blocks[n].Text? {
      forall i | 0 <= i < n ensures blocks[i].ToolResult? && blocks[i].id != "" {
        assert PlainBlock(User, blocks[i], i, |blocks|);
      }
      ResultsThenText(c, blocks);
    } else {
      forall i | 0 <= i < |blocks| ensures blocks[i].ToolResult? && blocks[i].id != "" {
        assert PlainBlock(User, blocks[i], i, |blocks|);
      }
      OnlyResults(c, blocks);
    }
  }

  lemma OnlyResults(c: Codec, blocks: seq<Block>)
    requires blocks != [] && forall i :: 0 <= i < |blocks| ==> blocks[i].ToolResult? && blocks[i].id != ""
    ensures var messages := Flush(UserFold(blocks)); messages != [] && RenderedAll(c, messages) == Flat(User, blocks)
  {
    ResultsAreKept(c, blocks);
  }

  lemma ResultsThenText(c: Codec, blocks: seq<Block>)
    requires blocks != [] && blocks[|blocks| - 1].Text? && blocks[|blocks| - 1].text != ""
    requires forall i :: 0 <= i < |blocks| - 1 ==> blocks[i].ToolResult? && blocks[i].id != ""
    ensures var messages := Flush(UserFold(blocks)); messages != [] && RenderedAll(c, messages) == Flat(User, blocks)
  {
    var front, text := blocks[..|blocks| - 1], blocks[|blocks| - 1].text;
    ResultsAreKept(c, front);
    assert [] + [text] == [text];
    ResultText(text);
    RenderedSnoc(c, UserFold(front).translated, UserMsg(text));
  }

  lemma {:induction false} TurnsAreKept(c: Codec, turns: seq<Turn>)
    requires Inverse(c) && forall i :: 0 <= i < |turns| ==> Normal(turns[i])
    ensures RenderedAll(c, TranslatedTurns(c, turns)) == History(turns)
  {
    if turns != [] {
      var front, last := turns[..|turns| - 1], turns[|turns| - 1];
      TurnsAreKept(c, front);
      RenderedAppend(c, TranslatedTurns(c, front), Translated(c, last));
      if last.role == Assistant {
        AssistantTurnIsKept(c, last);
      } else {
        UserTurnIsKept(c, last);
      }
    }
  }

  /** There and back again, a history in normal form says the same: every text, call and
      answer once, in order, with its role, ids, names, inputs and texts. */
  lemma HistoryRoundTrip(c: Codec, system: string, turns: seq<Turn>)
    requires Inverse(c) && forall i :: 0 <= i < |turns| ==> Normal(turns[i])
    ensures History(Converted(c, ToChat(c, system, turns))) == History(turns)
  {
    ConversionSaysTheSame(c, ToChat(c, system, turns));
    PromptIsSilent(c, system, turns);
    TurnsAreKept(c, turns);
  }

  lemma PromptIsSilent(c: Codec, system: string, turns: seq<Turn>)
    ensures RenderedAll(c, ToChat(c, system, turns)) == RenderedAll(c, TranslatedTurns(c, turns))
  {
    if system != "" {
      RenderedAppend(c, [SystemMsg(system)], TranslatedTurns(c, turns));
      Rendered1(c, SystemMsg(system));
    } else {
      assert ToChat(c, system, turns) == TranslatedTurns(c, turns);
    }
  }

  // ---- Turns answered ---------------------------------------------------------------------

  /** A history cut at its assistant turns: what each said, and what the user turns up to
      the next assistant turn replied. The first exchange holds what came before any. */
  datatype Exchange = Exchange(said: seq<Item>, reply: seq<Item>)

  function Replied(es: seq<Exchange>, items: seq<Item>): seq<Exchange>
    requires es != []
  {
    var n := |es| - 1;
    es[..n] + [es[n].(reply := es[n].reply + items)]
  }

  function Exchanges(turns: seq<Turn>): (es: seq<Exchange>)
    ensures es != []
  {
    if turns == [] then [Exchange([], [])] else Joined(Exchanges(turns[..|turns| - 1]), turns[|turns| - 1])
  }

  function Joined(es: seq<Exchange>, turn: Turn): (es': seq<Exchange>)
    requires es != []
    ensures es' != []
  {
    var items := Flat(turn.role, BlocksOf(turn.content));
    if turn.role == Assistant then es + [Exchange(items, [])] else Replied(es, items)
  }

  /** The same cut of a chat, as the adapter will render it. */
  function Exchanged1(c: Codec, es: seq<Exchange>, m: Chat): (es': seq<Exchange>)
    requires es != []
    ensures es' != []
  {
    if m.AssistantMsg? then es + [Exchange(Rendered(c, m), [])] else Replied(es, Rendered(c, m))
  }

  function Exchanged(c: Codec, es: seq<Exchange>, messages: seq<Chat>): (es': seq<Exchange>)
    requires es != []
    ensures es' != []
  {
    if messages == [] then es else Exchanged1(c, Exchanged(c, es, messages[..|messages| - 1]), messages[|messages| - 1])
  }

  lemma RepliedTwice(es: seq<Exchange>, a: seq<Item>, b: seq<Item>)
    requires es != []
    ensures Replied(Replied(es, a), b) == Replied(es, a + b)
    ensures Replied(es, []) == es
  {
    var n := |es| - 1;
    Assoc(es[n].reply, a, b);
    assert Replied(es, a)[..n] == es[..n];
    Assoc(es[n].reply, [], []);
    assert es == es[..n] + [es[n]];
  }

  lemma ExchangesSnoc(turns: seq<Turn>, turn: Turn)
    ensures Exchanges(turns + [turn]) == Joined(Exchanges(turns), turn)
  {
    assert (turns + [turn])[..|turns|] == turns;
  }

  lemma MergedExchange(front: seq<Turn>, blocks: seq<Block>, block: Block)
    ensures Exchanges(front + [Turn(User, Blocks(blocks + [block]))])
         == Replied(Exchanges(front + [Turn(User, Blocks(blocks))]), Shown(User, block))
  {
    ExchangesSnoc(front, Turn(User, Blocks(blocks)));
    ExchangesSnoc(front, Turn(User, Blocks(blocks + [block])));
    assert Flat(User, blocks + [block]) == Flat(User, blocks) + Shown(User, block) by {
      FlatAppend(User, blocks, [block]);
      Flat1(User, block);
    }
    RepliedTwice(Exchanges(front), Flat(User, blocks), Shown(User, block));
  }

  lemma ResultExchanged(c: Codec, front: seq<Turn>, last: Turn, id: string, text: string)
    ensures Exchanges(Converted1(c, front + [last], ToolMsg(id, text)))
         == Exchanged1(c, Exchanges(front + [last]), ToolMsg(id, text))
  {
    Merges(c, front, last, id, text);
    ResultShown(c, id, text);
    if last.role == User && last.content.Blocks? {
      MergedExchange(front, last.content.blocks, ResultBlock(id, text));
    } else {
      NewResultExchanged(front + [last], ResultBlock(id, text));
    }
  }

  lemma NewResultExchanged(turns: seq<Turn>, block: Block)
    ensures Exchanges(turns + [Turn(User, Blocks([block]))]) == Replied(Exchanges(turns), Shown(User, block))
  {
    ExchangesSnoc(turns, Turn(User, Blocks([block])));
    Flat1(User, block);
  }

  lemma ToolExchanged(c: Codec, turns: seq<Turn>, id: string, text: string)
    ensures Exchanges(Converted1(c, turns, ToolMsg(id, text))) == Exchanged1(c, Exchanges(turns), ToolMsg(id, text))
  {
    ResultShown(c, id, text);
    if turns == [] {
      NewResultExchanged(turns, ResultBlock(id, text));
    } else {
      assert turns == turns[..|turns| - 1] + [turns[|turns| - 1]];
      ResultExchanged(c, turns[..|turns| - 1], turns[|turns| - 1], id, text);
    }
  }

  lemma SaidExchanged(turns: seq<Turn>, role: Role, text: string)
    ensures Exchanges(turns + [Turn(role, Plain(text))])
         == if role == Assistant then Exchanges(turns) + [Exchange([Said(role, text)], [])]
            else Replied(Exchanges(turns), [Said(role, text)])
  {
    ExchangesSnoc(turns, Turn(role, Plain(text)));
    Flat1(role, Text(text));
  }

  lemma OneExchanged(c: Codec, turns: seq<Turn>, m: Chat)
    ensures Exchanges(Converted1(c, turns, m)) == Exchanged1(c, Exchanges(turns), m)
  {
    match m
    case SystemMsg(_) =>
      RepliedTwice(Exchanges(turns), [], []);
    case ToolMsg(id, text) =>
      ToolExchanged(c, turns, id, text);
    case UserMsg(text) =>
      SaidExchanged(turns, User, NonBlank(text));
    case AssistantMsg(text, calls) =>
      if calls != [] {
        ExchangesSnoc(turns, Turn(Assistant, Blocks((if text != "" then [Text(text)] else []) + CallBlocks(c, calls))));
        CallTurnSays(c, text, calls);
      } else {
        SaidExchanged(turns, Assistant, NonBlank(text));
      }
  }

  /** The adapter keeps every exchange. */
  lemma {:induction false} ConversionKeepsExchanges(c: Codec, messages: seq<Chat>)
    ensures Exchanges(Converted(c, messages)) == Exchanged(c, [Exchange([], [])], messages)
  {
    if messages != [] {
      var front := messages[..|messages| - 1];
      ConversionKeepsExchanges(c, front);
      OneExchanged(c, Converted(c, front), messages[|messages| - 1]);
    }
  }

  lemma {:induction false} ExchangedAppend(c: Codec, es: seq<Exchange>, a: seq<Chat>, b: seq<Chat>)
    requires es != []
    ensures Exchanged(c, es, a + b) == Exchanged(c, Exchanged(c, es, a), b)
  {
    if b == [] {
      assert a + b == a;
    } else {
      assert (a + b)[..|a + b| - 1] == a + b[..|b| - 1];
      ExchangedAppend(c, es, a, b[..|b| - 1]);
    }
  }

  /** Messages of one user turn all go to the same reply. */
  lemma {:induction false} UserMessagesReply(c: Codec, es: seq<Exchange>, messages: seq<Chat>)
    requires es != [] && forall m :: m in messages ==> !m.AssistantMsg?
    ensures Exchanged(c, es, messages) == Replied(es, RenderedAll(c, messages))
  {
    if messages == [] {
      RepliedTwice(es, [], []);
    } else {
      var front, last := messages[..|messages| - 1], messages[|messages| - 1];
      assert last in messages && forall m :: m in front ==> m in messages;
      UserMessagesReply(c, es, front);
      RepliedTwice(es, RenderedAll(c, front), Rendered(c, last));
    }
  }

  lemma {:induction false} UserFoldIsUser(blocks: seq<Block>)
    ensures forall m :: m in UserFold(blocks).translated ==> !m.AssistantMsg? && !m.SystemMsg?
  {
    if blocks != [] {
      UserFoldIsUser(blocks[..|blocks| - 1]);
    }
  }

  lemma TurnExchanged(c: Codec, es: seq<Exchange>, turn: Turn)
    requires es != [] && Inverse(c) && Normal(turn)
    ensures Exchanged(c, es, Translated(c, turn)) == Joined(es, turn)
  {
    if turn.role == Assistant {
      AssistantTurnIsKept(c, turn);
      var m := Translated(c, turn)[0];
      Rendered1(c, m);
      assert [m][..0] == [];
    } else {
      UserTurnIsKept(c, turn);
      UserFoldIsUser(BlocksOf(turn.content));
      UserMessagesReply(c, es, Translated(c, turn));
    }
  }

  lemma {:induction false} TurnsExchanged(c: Codec, es: seq<Exchange>, turns: seq<Turn>)
    requires es == [Exchange([], [])] && Inverse(c) && forall i :: 0 <= i < |turns| ==> Normal(turns[i])
    ensures Exchanged(c, es, TranslatedTurns(c, turns)) == Exchanges(turns)
  {
    if turns != [] {
      var front, last := turns[..|turns| - 1], turns[|turns| - 1];
      TurnsExchanged(c, es, front);
      ExchangedAppend(c, es, TranslatedTurns(c, front), Translated(c, last));
      TurnExchanged(c, Exchanges(front), last);
    }
  }

  /** There and back again, a history in normal form has the same exchanges: the same
      assistant turns, each followed by the same replies. */
  lemma ExchangesRoundTrip(c: Codec, system: string, turns: seq<Turn>)
    requires Inverse(c) && forall i :: 0 <= i < |turns| ==> Normal(turns[i])
    ensures Exchanges(Converted(c, ToChat(c, system, turns))) == Exchanges(turns)
  {
    var es, head := [Exchange([], [])], if system != "" then [SystemMsg(system)] else [];
    ConversionKeepsExchanges(c, ToChat(c, system, turns));
    ExchangedAppend(c, es, head, TranslatedTurns(c, turns));
    assert Exchanged(c, es, head) == es by {
      assert head[..0] == [];
      RepliedTwice(es, [], []);
    }
    TurnsExchanged(c, es, turns);
  }

  /** Turn m comes after the assistant turn k with only user turns up to it. */
  ghost predicate Follows(turns: seq<Turn>, k: nat, m: nat) {
    k < m < |turns| && forall i :: k < i <= m ==> turns[i].role != Assistant
  }

  ghost predicate Answers(turn: Turn, id: string) {
    exists item :: item in Flat(turn.role, BlocksOf(turn.content)) && item.Answered? && item.id == id
  }

  ghost predicate Calls(turn: Turn, id: string) {
    exists item :: item in Flat(turn.role, BlocksOf(turn.content)) && item.Used? && item.id == id
  }

  /** Every call of every assistant turn is answered in the user turns that follow it,
      before the assistant speaks again. */
  ghost predicate EveryTurnAnswered(turns: seq<Turn>) {
    forall k, id :: 0 <= k < |turns| && turns[k].role == Assistant && Calls(turns[k], id) ==>
      exists m: nat :: Follows(turns, k, m) && Answers(turns[m], id)
  }

  /** The exchange that turn k belongs to. */
  function Number(turns: seq<Turn>, k: nat): nat
    requires k <= |turns|
  {
    if k == 0 then 0 else Number(turns, k - 1) + (if turns[k - 1].role == Assistant then 1 else 0)
  }

  lemma {:induction false} NumberPrefix(turns: seq<Turn>, n: nat, k: nat)
    requires k <= n <= |turns|
    ensures Number(turns[..n], k) == Number(turns, k)
  {
    if k > 0 {
      NumberPrefix(turns, n, k - 1);
    }
  }

  lemma {:induction false} NumberGrows(turns: seq<Turn>, j: nat, k: nat)
    requires j <= k <= |turns|
    ensures Number(turns, j) <= Number(turns, k)
    ensures Number(turns, j) == Number(turns, k) <==> forall i :: j <= i < k ==> turns[i].role != Assistant
  {
    if j < k {
      NumberGrows(turns, j, k - 1);
    }
  }

  lemma {:induction false} ExchangeCount(turns: seq<Turn>)
    ensures |Exchanges(turns)| == Number(turns, |turns|) + 1
  {
    if turns != [] {
      NumberPrefix(turns, |turns| - 1, |turns| - 1);
      ExchangeCount(turns[..|turns| - 1]);
    }
  }

  /** Turn k, an assistant's, opens exchange x with the item in it. */
  ghost predicate SaidAt(turns: seq<Turn>, x: nat, item: Item, k: nat) {
    k < |turns| && turns[k].role == Assistant && Number(turns, k + 1) == x
    && item in Flat(Assistant, BlocksOf(turns[k].content))
  }

  /** Turn k, not an assistant's, belongs to exchange x and has the item. */
  ghost predicate ReplyAt(turns: seq<Turn>, x: nat, item: Item, k: nat) {
    k < |turns| && turns[k].role != Assistant && Number(turns, k + 1) == x
    && item in Flat(turns[k].role, BlocksOf(turns[k].content))
  }

  lemma JoinedItems(es: seq<Exchange>, turn: Turn, x: nat, item: Item)
    requires es != [] && x < |Joined(es, turn)|
    ensures item in Joined(es, turn)[x].said <==>
              (x < |es| && item in es[x].said)
              || (turn.role == Assistant && x == |es| && item in Flat(turn.role, BlocksOf(turn.content)))
    ensures item in Joined(es, turn)[x].reply <==>
              (x < |es| && item in es[x].reply)
              || (turn.role != Assistant && x == |es| - 1 && item in Flat(turn.role, BlocksOf(turn.content)))
  {
  }

  /** Where the items of one more turn go. */
  lemma SaidAtSnoc(front: seq<Turn>, turn: Turn, x: nat, item: Item)
    ensures (exists k :: SaidAt(front + [turn], x, item, k))
       <==> (exists k :: SaidAt(front, x, item, k))
            || (turn.role == Assistant && x == |Exchanges(front)| && item in Flat(turn.role, BlocksOf(turn.content)))
  {
    var turns, n := front + [turn], |front|;
    NumberSnoc(front, turn);
    assert forall k :: 0 <= k < n ==> turns[k] == front[k];
    assert forall k: nat :: k < n ==> SaidAt(turns, x, item, k) == SaidAt(front, x, item, k);
    assert SaidAt(turns, x, item, n) <==>
             turn.role == Assistant && x == |Exchanges(front)| && item in Flat(turn.role, BlocksOf(turn.content));
    assert forall k: nat :: k > n ==> !SaidAt(turns, x, item, k);
  }

  lemma ReplyAtSnoc(front: seq<Turn>, turn: Turn, x: nat, item: Item)
    ensures (exists k :: ReplyAt(front + [turn], x, item, k))
       <==> (exists k :: ReplyAt(front, x, item, k))
            || (turn.role != Assistant && x == |Exchanges(front)| - 1
                && item in Flat(turn.role, BlocksOf(turn.content)))
  {
    var turns, n := front + [turn], |front|;
    NumberSnoc(front, turn);
    assert forall k :: 0 <= k < n ==> turns[k] == front[k];
    assert forall k: nat :: k < n ==> ReplyAt(turns, x, item, k) == ReplyAt(front, x, item, k);
    assert ReplyAt(turns, x, item, n) <==>
             turn.role != Assistant && x == |Exchanges(front)| - 1 && item in Flat(turn.role, BlocksOf(turn.content));
    assert forall k: nat :: k > n ==> !ReplyAt(turns, x, item, k);
  }

  lemma NumberSnoc(front: seq<Turn>, turn: Turn)
    ensures forall j :: 0 <= j <= |front| ==> Number(front + [turn], j) == Number(front, j)
    ensures Number(front + [turn], |front| + 1) == |Exchanges(front)| - 1 + (if turn.role == Assistant then 1 else 0)
  {
    ExchangeCount(front);
    assert (front + [turn])[..|front|] == front;
    forall j | 0 <= j <= |front| ensures Number(front + [turn], j) == Number(front, j) {
      NumberPrefix(front + [turn], |front|, j);
    }
  }

  lemma {:induction false} SaidInExchange(turns: seq<Turn>, x: nat, item: Item)
    requires x < |Exchanges(turns)|
    ensures item in Exchanges(turns)[x].said <==> exists k :: SaidAt(turns, x, item, k)
  {
    if turns != [] {
      var front, last := turns[..|turns| - 1], turns[|turns| - 1];
      assert turns == front + [last];
      ExchangesSnoc(front, last);
      JoinedItems(Exchanges(front), last, x, item);
      SaidAtSnoc(front, last, x, item);
      if x < |Exchanges(front)| {
        SaidInExchange(front, x, item);
      } else {
        NothingBeyond(front, x, item);
      }
    }
  }

  lemma {:induction false} ReplyInExchange(turns: seq<Turn>, x: nat, item: Item)
    requires x < |Exchanges(turns)|
    ensures item in Exchanges(turns)[x].reply <==> exists k :: ReplyAt(turns, x, item, k)
  {
    if turns != [] {
      var front, last := turns[..|turns| - 1], turns[|turns| - 1];
      assert turns == front + [last];
      ExchangesSnoc(front, last);
      JoinedItems(Exchanges(front), last, x, item);
      ReplyAtSnoc(front, last, x, item);
      if x < |Exchanges(front)| {
        ReplyInExchange(front, x, item);
      } else {
        NothingBeyond(front, x, item);
      }
    }
  }

  lemma NothingBeyond(front: seq<Turn>, x: nat, item: Item)
    requires x >= |Exchanges(front)|
    ensures forall k :: !SaidAt(front, x, item, k) && !ReplyAt(front, x, item, k)
  {
    ExchangeCount(front);
    forall j | 0 <= j <= |front| ensures Number(front, j) < x {
      NumberGrows(front, j, |front|);
    }
  }

  /** Exchange x answers what it asks. */
  ghost predicate AnsweredExchange(e: Exchange, id: string) {
    (exists u :: u in e.said && u.Used? && u.id == id) ==> exists a :: a in e.reply && a.Answered? && a.id == id
  }

  /** What is asked and answered can be read off the exchanges. */
  lemma AnsweredByExchanges(turns: seq<Turn>)
    ensures EveryTurnAnswered(turns)
       <==> forall x, id :: 0 <= x < |Exchanges(turns)| ==> AnsweredExchange(Exchanges(turns)[x], id)
  {
    if EveryTurnAnswered(turns) {
      forall x, id | 0 <= x < |Exchanges(turns)| ensures AnsweredExchange(Exchanges(turns)[x], id) {
        ExchangeIsAnswered(turns, x, id);
      }
    } else {
      var k, id :| 0 <= k < |turns| && turns[k].role == Assistant && Calls(turns[k], id)
                   && forall m: nat :: !(Follows(turns, k, m) && Answers(turns[m], id));
      ExchangeOf(turns, k);
      UnansweredExchange(turns, k, id);
    }
  }

  lemma ExchangeIsAnswered(turns: seq<Turn>, x: nat, id: string)
    requires EveryTurnAnswered(turns) && x < |Exchanges(turns)|
    ensures AnsweredExchange(Exchanges(turns)[x], id)
  {
    if u :| u in Exchanges(turns)[x].said && u.Used? && u.id == id {
      TurnsThenExchange(turns, x, u);
    }
  }

  lemma ExchangeOf(turns: seq<Turn>, k: nat)
    requires k < |turns|
    ensures Number(turns, k + 1) < |Exchanges(turns)|
  {
    ExchangeCount(turns);
    NumberGrows(turns, k + 1, |turns|);
  }

  lemma TurnsThenExchange(turns: seq<Turn>, x: nat, u: Item)
    requires EveryTurnAnswered(turns) && x < |Exchanges(turns)|
    requires u in Exchanges(turns)[x].said && u.Used?
    ensures exists a :: a in Exchanges(turns)[x].reply && a.Answered? && a.id == u.id
  {
    SaidInExchange(turns, x, u);
    var k :| SaidAt(turns, x, u, k);
    var m, a := AnswerTo(turns, k, u);
    SameExchange(turns, k, m);
    assert ReplyAt(turns, x, a, m);
    ReplyInExchange(turns, x, a);
  }

  lemma AnswerTo(turns: seq<Turn>, k: nat, u: Item) returns (m: nat, a: Item)
    requires EveryTurnAnswered(turns) && k < |turns| && turns[k].role == Assistant
    requires u in Flat(Assistant, BlocksOf(turns[k].content)) && u.Used?
    ensures Follows(turns, k, m) && a in Flat(turns[m].role, BlocksOf(turns[m].content)) && a.Answered? && a.id == u.id
  {
    assert Calls(turns[k], u.id);
    m :| Follows(turns, k, m) && Answers(turns[m], u.id);
    a :| a in Flat(turns[m].role, BlocksOf(turns[m].content)) && a.Answered? && a.id == u.id;
  }

  lemma SameExchange(turns: seq<Turn>, k: nat, m: nat)
    requires Follows(turns, k, m)
    ensures Number(turns, m + 1) == Number(turns, k + 1)
  {
    NumberGrows(turns, k + 1, m + 1);
  }

  lemma UnansweredExchange(turns: seq<Turn>, k: nat, id: string)
    requires k < |turns| && turns[k].role == Assistant && Calls(turns[k], id)
    requires forall m: nat :: !(Follows(turns, k, m) && Answers(turns[m], id))
    requires Number(turns, k + 1) < |Exchanges(turns)|
    ensures !AnsweredExchange(Exchanges(turns)[Number(turns, k + 1)], id)
  {
    var x := Number(turns, k + 1);
    var u :| u in Flat(turns[k].role, BlocksOf(turns[k].content)) && u.Used? && u.id == id;
    assert SaidAt(turns, x, u, k);
    SaidInExchange(turns, x, u);
    forall a | a in Exchanges(turns)[x].reply && a.Answered? && a.id == id ensures false {
      var m := TurnOf(turns, k, a);
    }
  }

  lemma TurnOf(turns: seq<Turn>, k: nat, a: Item) returns (m: nat)
    requires k < |turns| && turns[k].role == Assistant && Number(turns, k + 1) < |Exchanges(turns)|
    requires a in Exchanges(turns)[Number(turns, k + 1)].reply && a.Answered?
    ensures Follows(turns, k, m) && Answers(turns[m], a.id)
  {
    var x := Number(turns, k + 1);
    ReplyInExchange(turns, x, a);
    m :| ReplyAt(turns, x, a, m);
    ReplyFollows(turns, k, m);
  }

  lemma ReplyFollows(turns: seq<Turn>, k: nat, m: nat)
    requires k < |turns| && m < |turns| && turns[k].role == Assistant && turns[m].role != Assistant
    requires Number(turns, m + 1) == Number(turns, k + 1)
    ensures Follows(turns, k, m)
  {
    if m < k {
      NumberGrows(turns, m + 1, k);
    } else {
      NumberGrows(turns, k + 1, m + 1);
    }
  }

  /** So a history in normal form whose tool turns are all answered before the assistant
      speaks again still is one after the round trip, and conversely. */
  lemma AnswersRoundTrip(c: Codec, system: string, turns: seq<Turn>)
    requires Inverse(c) && forall i :: 0 <= i < |turns| ==> Normal(turns[i])
    ensures EveryTurnAnswered(Converted(c, ToChat(c, system, turns))) <==> EveryTurnAnswered(turns)
  {
    ExchangesRoundTrip(c, system, turns);
    AnsweredByExchanges(turns);
    AnsweredByExchanges(Converted(c, ToChat(c, system, turns)));
  }

  // ---- Any history: tools ----------------------------------------------------------------------

  function Tools(items: seq<Item>): seq<Item> {
    if items == [] then []
    else Tools(items[..|items| - 1]) + (if items[|items| - 1].Said? then [] else [items[|items| - 1]])
  }

  lemma {:induction false} ToolsAppend(a: seq<Item>, b: seq<Item>)
    ensures Tools(a + b) == Tools(a) + Tools(b)
  {
    if b == [] {
      assert a + b == a;
    } else {
      assert (a + b)[..|a + b| - 1] == a + b[..|b| - 1];
      ToolsAppend(a, b[..|b| - 1]);
    }
  }

  lemma Tools1(i: Item)
    ensures Tools([i]) == if i.Said? then [] else [i]
  {
    assert [i][..0] == [];
  }

  /** Calls only by the assistant, answers only in user turns, each with its call's id. */
  ghost predicate ToolsInPlace(turn: Turn) {
    forall b :: b in BlocksOf(turn.content) ==>
      && (b.ToolUse? ==> turn.role == Assistant)
      && (b.ToolResult? ==> turn.role == User && b.id != "")
  }

  lemma {:induction false} CallsOfAnyTurn(c: Codec, blocks: seq<Block>)
    requires Inverse(c) && forall b :: b in blocks ==> !b.ToolResult?
    ensures CallItems(c, CallsOf(c, blocks)) == Tools(Flat(Assistant, blocks))
  {
    if blocks != [] {
      var front, last := blocks[..|blocks| - 1], blocks[|blocks| - 1];
      assert forall b :: b in front ==> b in blocks;
      assert last in blocks;
      CallsOfAnyTurn(c, front);
      ToolsAppend(Flat(Assistant, front), Shown(Assistant, last));
      Assoc(Tools(Flat(Assistant, front)), [], []);
      if last.ToolUse? {
        Tools1(Used(CallId(last), last.name, last.input));
        CallItemsSnoc(c, CallsOf(c, front), Call(CallId(last), last.name, c.dump(last.input)));
      } else {
        assert CallsOf(c, blocks) == CallsOf(c, front);
        if last.Text? {
          Tools1(Said(Assistant, last.text));
        }
      }
    }
  }

  lemma {:induction false} CallItemsAreTools(c: Codec, calls: seq<Call>)
    ensures Tools(CallItems(c, calls)) == CallItems(c, calls)
  {
    if calls != [] {
      CallItemsAreTools(c, calls[..|calls| - 1]);
      var all := CallItems(c, calls);
      assert all[..|all| - 1] == CallItems(c, calls[..|calls| - 1]);
    }
  }

  lemma ToolsOfMessage(c: Codec, messages: seq<Chat>, m: Chat)
    ensures Tools(RenderedAll(c, messages + [m])) == Tools(RenderedAll(c, messages)) + Tools(Rendered(c, m))
    ensures m.UserMsg? ==> Tools(Rendered(c, m)) == []
    ensures m.ToolMsg? ==> Tools(Rendered(c, m)) == Rendered(c, m)
  {
    RenderedAppend(c, messages, [m]);
    Rendered1(c, m);
    ToolsAppend(RenderedAll(c, messages), Rendered(c, m));
    if m.UserMsg? || m.ToolMsg? {
      Tools1(Rendered(c, m)[0]);
    }
  }

  lemma ToolsOfFlush(c: Codec, s: UserState)
    ensures Tools(RenderedAll(c, Flush(s))) == Tools(RenderedAll(c, s.translated))
  {
    if s.pending != [] {
      ToolsOfMessage(c, s.translated, UserMsg(JoinTexts(s.pending)));
    }
  }

  lemma {:induction false} AnswersOfAnyTurn(c: Codec, blocks: seq<Block>)
    requires forall b :: b in blocks ==> !b.ToolUse? && (b.ToolResult? ==> b.id != "")
    ensures Tools(RenderedAll(c, UserFold(blocks).translated)) == Tools(Flat(User, blocks))
  {
    if blocks != [] {
      var front, last := blocks[..|blocks| - 1], blocks[|blocks| - 1];
      assert forall b :: b in front ==> b in blocks;
      assert last in blocks;
      AnswersOfAnyTurn(c, front);
      ToolsAppend(Flat(User, front), Shown(User, last));
      if last.ToolResult? {
        var s, m := UserFold(front), ToolMsg(last.id, JoinTexts(last.content));
        ToolsOfFlush(c, s);
        ToolsOfMessage(c, Flush(s), m);
      } else if last.Text? {
        Tools1(Said(User, last.text));
      }
    }
  }

  lemma ToolsOfTurn(c: Codec, turn: Turn)
    requires Inverse(c) && ToolsInPlace(turn)
    ensures Tools(RenderedAll(c, Translated(c, turn))) == Tools(Flat(turn.role, BlocksOf(turn.content)))
  {
    var blocks := BlocksOf(turn.content);
    match turn.role
    case Assistant =>
      var m := AssistantMsg(JoinTexts(TextsOf(blocks)), CallsOf(c, blocks));
      Rendered1(c, m);
      CallsOfAnyTurn(c, blocks);
      CallItemsAreTools(c, m.calls);
      ToolsAppend(if m.text != "" then [Said(Assistant, m.text)] else [], CallItems(c, m.calls));
      Tools1(Said(Assistant, m.text));
      Tools1(Said(Assistant, NonBlank(m.text)));
    case User =>
      AnswersOfAnyTurn(c, blocks);
      ToolsOfFlush(c, UserFold(blocks));
      NoMessage(c);
    case System =>
      Rendered1(c, UserMsg(JoinTexts(TextsOf(blocks))));
      Tools1(Said(User, NonBlank(JoinTexts(TextsOf(blocks)))));
      NoTools(blocks);
  }

  lemma NoMessage(c: Codec)
    ensures Tools(RenderedAll(c, [UserMsg("")])) == []
  {
    Rendered1(c, UserMsg(""));
    Tools1(Said(User, " "));
  }

  lemma {:induction false} NoTools(blocks: seq<Block>)
    requires forall b :: b in blocks ==> !b.ToolUse? && !b.ToolResult?
    ensures Tools(Flat(System, blocks)) == []
  {
    if blocks != [] {
      var front, last := blocks[..|blocks| - 1], blocks[|blocks| - 1];
      assert forall b :: b in front ==> b in blocks;
      assert last in blocks;
      NoTools(front);
      ToolsAppend(Flat(System, front), Shown(System, last));
      if last.Text? {
        Tools1(Said(System, last.text));
      }
    }
  }

  lemma {:induction false} ToolsOfTurns(c: Codec, turns: seq<Turn>)
    requires Inverse(c) && forall i :: 0 <= i < |turns| ==> ToolsInPlace(turns[i])
    ensures Tools(RenderedAll(c, TranslatedTurns(c, turns))) == Tools(History(turns))
  {
    if turns != [] {
      var front, last := turns[..|turns| - 1], turns[|turns| - 1];
      ToolsOfTurns(c, front);
      ToolsOfTurn(c, last);
      RenderedAppend(c, TranslatedTurns(c, front), Translated(c, last));
      ToolsAppend(RenderedAll(c, TranslatedTurns(c, front)), RenderedAll(c, Translated(c, last)));
      ToolsAppend(History(front), Flat(last.role, BlocksOf(last.content)));
    }
  }

  /** However the texts lie (several, empty, between the results, beside thinking), every
      call and every answer survives, in order. */
  lemma ToolsSurvive(c: Codec, system: string, turns: seq<Turn>)
    requires Inverse(c) && forall i :: 0 <= i < |turns| ==> ToolsInPlace(turns[i])
    ensures Tools(History(Converted(c, ToChat(c, system, turns)))) == Tools(History(turns))
  {
    ConversionSaysTheSame(c, ToChat(c, system, turns));
    PromptIsSilent(c, system, turns);
    ToolsOfTurns(c, turns);
  }

  // ---- Shape of the result --------------------------------------------------------------------

  predicate Results(turn: Turn) { turn.role == User && turn.content.Blocks? }

  /** Answers that follow each other end up in one turn, as the protocol asks: no turn of
      answers comes right after another. */
  lemma {:induction false} AnswersShareATurn(c: Codec, messages: seq<Chat>)
    ensures Apart(Converted(c, messages))
  {
    if messages != [] {
      var turns := Converted(c, messages[..|messages| - 1]);
      AnswersShareATurn(c, messages[..|messages| - 1]);
      OneMoreStaysApart(c, turns, messages[|messages| - 1]);
    }
  }

  ghost predicate Apart(turns: seq<Turn>) {
    forall i :: 0 <= i < |turns| - 1 ==> !(Results(turns[i]) && Results(turns[i + 1]))
  }

  lemma OneMoreStaysApart(c: Codec, turns: seq<Turn>, m: Chat)
    requires Apart(turns)
    ensures Apart(Converted1(c, turns, m))
  {
    var next := Converted1(c, turns, m);
    forall i | 0 <= i < |next| - 1 ensures !(Results(next[i]) && Results(next[i + 1])) {
      assert i < |turns| - 1 ==> next[i] == turns[i] && (Results(next[i + 1]) ==> Results(turns[i + 1]));
    }
  }

  /** The system prompt comes back as it was, and nothing else becomes one. */
  lemma SystemPromptRoundTrip(c: Codec, system: string, turns: seq<Turn>)
    ensures SystemChunks(ToChat(c, system, turns)) == if system != "" then [system] else []
  {
    var head := if system != "" then [SystemMsg(system)] else [];
    NoSystem(c, turns);
    ChunksAppend(head, TranslatedTurns(c, turns));
    assert [SystemMsg(system)][..0] == [];
  }

  lemma {:induction false} ChunksAppend(a: seq<Chat>, b: seq<Chat>)
    ensures SystemChunks(a + b) == SystemChunks(a) + SystemChunks(b)
  {
    if b == [] {
      assert a + b == a;
    } else {
      assert (a + b)[..|a + b| - 1] == a + b[..|b| - 1];
      ChunksAppend(a, b[..|b| - 1]);
    }
  }

  lemma {:induction false} NoChunks(messages: seq<Chat>)
    requires forall m :: m in messages ==> !m.SystemMsg?
    ensures SystemChunks(messages) == []
  {
    if messages != [] {
      assert messages[|messages| - 1] in messages;
      assert forall m :: m in messages[..|messages| - 1] ==> m in messages;
      NoChunks(messages[..|messages| - 1]);
    }
  }

  lemma {:induction false} NoSystem(c: Codec, turns: seq<Turn>)
    ensures SystemChunks(TranslatedTurns(c, turns)) == []
  {
    if turns != [] {
      var last := turns[|turns| - 1];
      NoSystem(c, turns[..|turns| - 1]);
      ChunksAppend(TranslatedTurns(c, turns[..|turns| - 1]), Translated(c, last));
      UserFoldIsUser(BlocksOf(last.content));
      NoChunks(Translated(c, last));
    }
  }
}
