/** Canonical chunks -> Responses API events, as the /v1/responses endpoint assembles
    them, and the replay of a completed response as the next request's input. */
module ResponsesStream {
  import opened Common
  import opened ChatStream
  import Spell = MessagesStream
  import ToolHistory

  /** Output items are read as Text or Tool contents; ids minted for items are left out. */
  datatype Kind =
    | Created
    | InProgress
    | ItemAdded(index: nat, item: Content)
    | PartAdded(index: nat)
    | TextDelta(index: nat, text: string)
    | ArgsDelta(index: nat, text: string)
    | TextDone(index: nat, text: string)
    | PartDone(index: nat, text: string)
    | ArgsDone(index: nat, text: string)
    | ItemDone(index: nat, item: Content)
    | Completed(output: seq<Content>, outputText: Option<string>, usage: Option<Usage>, routing: Option<string>)
    | ResponseFailed(code: string, message: string)
    | ErrorSent(code: string, message: string)

  datatype Event = Event(sequence: nat, kind: Kind)

  /** The state of an open tool call. */
  datatype Call = Call(key: int, index: nat, item: Content)

  /** The open text item. */
  datatype Message = Message(index: nat, text: string)

  /** What the service reports: chunks, the usage, the routing metadata, a failure, the end. */
  datatype Report =
    | Chunked(chunk: Chunk)
    | Used(usage: Usage)
    | Routed(routing: string)
    | Failed(code: Option<string>, message: Option<string>)
    | Ended

  datatype State = State(sequence: nat, outputIndex: nat, message: Option<Message>, calls: seq<Call>,
                         usage: Option<Usage>, routing: Option<string>, out: seq<Event>)

  function Emit(s: State, k: Kind): State {
    s.(sequence := s.sequence + 1, out := s.out + [Event(s.sequence + 1, k)])
  }

  const INITIAL := State(0, 0, None, [], None, None, [])

  function Start(): State { Emit(Emit(INITIAL, Created), InProgress) }

  function OpenMessage(s: State): State {
    var i := s.outputIndex;
    var u := s.(outputIndex := i + 1, message := Some(Message(i, "")));
    Emit(Emit(u, ItemAdded(i, Text(""))), PartAdded(i))
  }

  function AddText(s: State, t: string): State
    requires s.message.Some?
  {
    var m := s.message.value;
    Emit(s, Kind.TextDelta(m.index, t)).(message := Some(Message(m.index, m.text + t)))
  }

  function FeedText(s: State, t: string): State {
    if t == "" then s else AddText(if s.message.Some? then s else OpenMessage(s), t)
  }

  /** Position of a key in the insertion-ordered dictionary of calls, or its size. */
  function Find(calls: seq<Call>, key: int): (r: nat)
    ensures r <= |calls|
    ensures r < |calls| ==> calls[r].key == key
    ensures forall i :: 0 <= i < r ==> calls[i].key != key
  {
    if calls == [] then 0
    else if calls[0].key == key then 0
    else
      var r := 1 + Find(calls[1..], key);
      assert forall i :: 1 <= i < r ==> calls[i] == calls[1..][i - 1];
      r
  }

  function OpenCall(s: State, key: int, id: string, name: string): State {
    var i := s.outputIndex;
    var u := s.(outputIndex := i + 1, calls := s.calls + [Call(key, i, Tool(id, name, ""))]);
    Emit(u, ItemAdded(i, Tool(id, name, "")))
  }

  function AddArguments(s: State, j: nat, a: string): State
    requires j < |s.calls| && s.calls[j].item.Tool?
  {
    var c := s.calls[j];
    Emit(s, ArgsDelta(c.index, a)).(calls := s.calls[j := c.(item := Extend(c.item, JsonDelta(a)))])
  }

  ghost predicate AllTools(calls: seq<Call>) {
    forall j :: 0 <= j < |calls| ==> calls[j].item.Tool?
  }

  function FeedCall(s: State, call: CallDelta): (r: State)
    requires AllTools(s.calls)
    ensures AllTools(r.calls)
  {
    var key := Spell.KeyOf(|s.calls|, call);
    var j := Find(s.calls, key);
    var u := if j < |s.calls| then s else OpenCall(s, key, Spell.IdOf(call), call.name);
    if call.arguments == "" then u else AddArguments(u, j, call.arguments)
  }

  function FeedCalls(s: State, calls: seq<CallDelta>): (r: State)
    requires AllTools(s.calls)
    ensures AllTools(r.calls)
  {
    if calls == [] then s else FeedCall(FeedCalls(s, calls[..|calls| - 1]), calls[|calls| - 1])
  }

  /** Usage comes with any chunk; the last one counts. */
  function Metered(s: State, c: Chunk): State { if c.usage.Some? then s.(usage := c.usage) else s }

  function Feed(strip: bool, s: State, c: Chunk): (r: State)
    requires AllTools(s.calls)
    ensures AllTools(r.calls)
  {
    if c.choice.None? then Metered(s, c)
    else FeedCalls(FeedText(Metered(s, c), Spell.Shown(strip, c.choice.value)), c.choice.value.calls)
  }

  function FeedAll(strip: bool, cs: seq<Chunk>): (r: State)
    ensures AllTools(r.calls)
  {
    if cs == [] then Start() else Feed(strip, FeedAll(strip, cs[..|cs| - 1]), cs[|cs| - 1])
  }

  function FinishMessage(s: State): State {
    if s.message.None? then s
    else
      var m := s.message.value;
      Emit(Emit(Emit(s, TextDone(m.index, m.text)), PartDone(m.index, m.text)), ItemDone(m.index, Text(m.text)))
  }

  function FinishCall(s: State, c: Call): State
    requires c.item.Tool?
  {
    Emit(Emit(s, ArgsDone(c.index, c.item.json)), ItemDone(c.index, c.item))
  }

  function FinishCalls(s: State, calls: seq<Call>): State
    requires AllTools(calls)
  {
    if calls == [] then s else FinishCall(FinishCalls(s, calls[..|calls| - 1]), calls[|calls| - 1])
  }

  function ItemsOf(calls: seq<Call>): (r: seq<Content>)
    ensures |r| == |calls|
  {
    seq(|calls|, i requires 0 <= i < |calls| => calls[i].item)
  }

  function Output(s: State): seq<Content> {
    (if s.message.Some? then [Text(s.message.value.text)] else []) + ItemsOf(s.calls)
  }

  function Finish(s: State): State
    requires AllTools(s.calls)
  {
    Emit(FinishCalls(FinishMessage(s), s.calls), Completion(s))
  }

  function Completion(s: State): Kind {
    Completed(Output(s), if s.message.Some? then Some(s.message.value.text) else None, s.usage, s.routing)
  }

  function Or(text: Option<string>, other: string): string {
    if text.Some? then text.value else other
  }

  function Fail(s: State, code: string, message: string): State {
    Emit(Emit(s, ResponseFailed(code, message)), ErrorSent(code, message))
  }

  function Take(strip: bool, s: State, e: Report): (r: State)
    requires AllTools(s.calls)
    ensures AllTools(r.calls)
  {
    match e
    case Chunked(c) => Feed(strip, s, c)
    case Used(u) => s.(usage := Some(u))
    case Routed(m) => s.(routing := Some(m))
    case _ => s
  }

  function TakeAll(strip: bool, es: seq<Report>): (r: State)
    ensures AllTools(r.calls)
  {
    if es == [] then Start() else Take(strip, TakeAll(strip, es[..|es| - 1]), es[|es| - 1])
  }

  /** Where the stream ends: at its end, or at the first failure. */
  function StopAt(es: seq<Report>): (n: nat)
    ensures n <= |es| && (n < |es| ==> es[n].Ended? || es[n].Failed?)
    ensures forall i :: 0 <= i < n ==> !es[i].Ended? && !es[i].Failed?
  {
    if es == [] || es[0].Ended? || es[0].Failed? then 0 else 1 + StopAt(es[1..])
  }

  predicate Fails(es: seq<Report>) { StopAt(es) < |es| && es[StopAt(es)].Failed? }

  function FailureCode(es: seq<Report>): string
    requires Fails(es)
  {
    Or(es[StopAt(es)].code, "server_error")
  }

  function FailureMessage(es: seq<Report>): string
    requires Fails(es)
  {
    Or(es[StopAt(es)].message, "upstream error")
  }

  /** Everything the client receives for what the service reports. */
  function Reply(strip: bool, es: seq<Report>): seq<Event> {
    var s := TakeAll(strip, es[..StopAt(es)]);
    if Fails(es) then Fail(s, FailureCode(es), FailureMessage(es)).out else Finish(s).out
  }

  /** The chunks that count. */
  function Chunks(es: seq<Report>): seq<Chunk> {
    if es == [] then []
    else Chunks(es[..|es| - 1]) + (if es[|es| - 1].Chunked? then [es[|es| - 1].chunk] else [])
  }

  function ChunksOf(es: seq<Report>): seq<Chunk> { Chunks(es[..StopAt(es)]) }

  // ---- The assembler as it runs -----------------------------------------------------

  class ResponsesAssembler {
    const strip: bool
    var sequence: nat
    var outputIndex: nat
    var message: Option<Message>
    var calls: seq<Call>
    var usage: Option<Usage>
    var routing: Option<string>

    /** The state of the assembler after it has emitted `log`. */
    function View(log: seq<Event>): State
      reads this
    {
      State(sequence, outputIndex, message, calls, usage, routing, log)
    }

    constructor (strip: bool)
      ensures View([]) == INITIAL && this.strip == strip
    {
      this.strip := strip;
      sequence, outputIndex, message, calls, usage, routing := 0, 0, None, [], None, None;
    }

    method Send(k: Kind, log: seq<Event>) returns (out: seq<Event>)
      modifies this`sequence
      ensures View(out) == Emit(old(View(log)), k)
    {
      sequence := sequence + 1;
      out := log + [Event(sequence, k)];
    }

    method Begin() returns (out: seq<Event>)
      requires View([]) == INITIAL
      modifies this`sequence
      ensures View(out) == Start()
    {
      out := Send(Created, []);
      out := Send(InProgress, out);
    }

    method OnText(t: string, log: seq<Event>) returns (out: seq<Event>)
      requires t != ""
      modifies this
      ensures View(out) == FeedText(old(View(log)), t)
    {
      out := log;
      if message.None? {
        var i := outputIndex;
        outputIndex := outputIndex + 1;
        message := Some(Message(i, ""));
        out := Send(ItemAdded(i, Text("")), out);
        out := Send(PartAdded(i), out);
      }
      out := Send(Kind.TextDelta(message.value.index, t), out);
      message := Some(Message(message.value.index, message.value.text + t));
    }

    method OnCall(call: CallDelta, log: seq<Event>) returns (out: seq<Event>)
      requires AllTools(calls)
      modifies this
      ensures View(out) == FeedCall(old(View(log)), call)
    {
      out := log;
      var key := if call.index.Some? then call.index.value else |calls|;
      var j := Find(calls, key);
      if j == |calls| {
        var i := outputIndex;
        var item := Tool(if call.id != "" then call.id else call.minted, call.name, "");
        outputIndex := outputIndex + 1;
        calls := calls + [Call(key, i, item)];
        out := Send(ItemAdded(i, item), out);
      }
      if call.arguments != "" {
        var c := calls[j];
        out := Send(ArgsDelta(c.index, call.arguments), out);
        calls := calls[j := c.(item := Tool(c.item.id, c.item.name, c.item.json + call.arguments))];
      }
    }

    method FeedChunk(c: Chunk, log: seq<Event>) returns (out: seq<Event>)
      requires AllTools(calls)
      modifies this
      ensures View(out) == Feed(strip, old(View(log)), c)
    {
      out := log;
      if c.usage.Some? {
        usage := c.usage;
      }
      if c.choice.None? {
        return;
      }
      var choice := c.choice.value;
      if choice.content != "" && !(choice.recovered && strip) {
        out := OnText(choice.content, out);
      }
      out := OnCalls(choice.calls, out);
    }

    method OnCalls(deltas: seq<CallDelta>, log: seq<Event>) returns (out: seq<Event>)
      requires AllTools(calls)
      modifies this
      ensures View(out) == FeedCalls(old(View(log)), deltas)
    {
      out := log;
      ghost var s := View(out);
      var i := 0;
      while i < |deltas|
        invariant 0 <= i <= |deltas| && AllTools(s.calls)
        invariant View(out) == FeedCalls(s, deltas[..i])
      {
        assert deltas[..i + 1][..i] == deltas[..i];
        out := OnCall(deltas[i], out);
        i := i + 1;
      }
      assert deltas[..i] == deltas;
    }

    method CloseMessage(log: seq<Event>) returns (out: seq<Event>)
      modifies this`sequence
      ensures View(out) == FinishMessage(old(View(log)))
    {
      out := log;
      if message.Some? {
        var m := message.value;
        out := Send(TextDone(m.index, m.text), out);
        out := Send(PartDone(m.index, m.text), out);
        out := Send(ItemDone(m.index, Text(m.text)), out);
      }
    }

    method CloseCalls(log: seq<Event>) returns (out: seq<Event>, items: seq<Content>)
      requires AllTools(calls)
      modifies this`sequence
      ensures View(out) == FinishCalls(old(View(log)), calls) && items == ItemsOf(calls)
    {
      out, items := log, [];
      var i := 0;
      while i < |calls|
        invariant 0 <= i <= |calls| && AllTools(calls[..i])
        invariant View(out) == FinishCalls(old(View(log)), calls[..i])
        invariant items == ItemsOf(calls)[..i]
      {
        assert calls[..i + 1][..i] == calls[..i];
        out := Send(ArgsDone(calls[i].index, calls[i].item.json), out);
        out := Send(ItemDone(calls[i].index, calls[i].item), out);
        items := items + [calls[i].item];
        i := i + 1;
      }
      assert calls[..i] == calls;
    }

    method Close(log: seq<Event>) returns (out: seq<Event>)
      requires AllTools(calls)
      modifies this`sequence
      ensures View(out) == Finish(old(View(log)))
    {
      out := CloseMessage(log);
      var items;
      out, items := CloseCalls(out);
      var output := (if message.Some? then [Text(message.value.text)] else []) + items;
      var text := if message.Some? then Some(message.value.text) else None;
      out := Send(Completed(output, text, usage, routing), out);
    }

    method SendFailure(code: string, message: string, log: seq<Event>) returns (out: seq<Event>)
      modifies this`sequence
      ensures View(out) == Fail(old(View(log)), code, message)
    {
      out := Send(ResponseFailed(code, message), log);
      out := Send(ErrorSent(code, message), out);
    }

    method OnReport(e: Report, log: seq<Event>) returns (out: seq<Event>)
      requires AllTools(calls)
      modifies this
      ensures View(out) == Take(strip, old(View(log)), e)
    {
      out := log;
      match e {
        case Chunked(c) => out := FeedChunk(c, out);
        case Used(u) => usage := Some(u);
        case Routed(m) => routing := Some(m);
        case _ =>
      }
    }
  }

  lemma TakeOneMore(strip: bool, es: seq<Report>, i: nat)
    requires i < |es|
    ensures TakeAll(strip, es[..i + 1]) == Take(strip, TakeAll(strip, es[..i]), es[i])
  {
    assert es[..i + 1][..i] == es[..i];
  }

  lemma ReplyUntil(strip: bool, es: seq<Report>, i: nat)
    requires i <= StopAt(es) && (i == |es| || es[i].Ended? || es[i].Failed?)
    ensures var s := TakeAll(strip, es[..i]);
            Reply(strip, es) == if i < |es| && es[i].Failed? then
                                  Fail(s, Or(es[i].code, "server_error"), Or(es[i].message, "upstream error")).out
                                else Finish(s).out
  {
  }

  method StreamReply(strip: bool, es: seq<Report>) returns (out: seq<Event>)
    ensures out == Reply(strip, es)
  {
    var a := new ResponsesAssembler(strip);
    var i;
    out, i := Listen(a, es);
    ReplyUntil(strip, es, i);
    if i < |es| && es[i].Failed? {
      out := a.SendFailure(Or(es[i].code, "server_error"), Or(es[i].message, "upstream error"), out);
      return;
    }
    out := a.Close(out);
  }

  /** Take in the reports up to the end or a failure. */
  method Listen(a: ResponsesAssembler, es: seq<Report>) returns (out: seq<Event>, i: nat)
    requires a.View([]) == INITIAL
    modifies a
    ensures i <= StopAt(es) && (i == |es| || es[i].Ended? || es[i].Failed?)
    ensures a.View(out) == TakeAll(a.strip, es[..i]) && AllTools(a.calls)
  {
    out := a.Begin();
    i := 0;
    assert es[..0] == [] && TakeAll(a.strip, []) == Start();
    while i < |es| && !es[i].Ended? && !es[i].Failed?
      invariant 0 <= i <= |es| && forall k :: 0 <= k < i ==> !es[k].Ended? && !es[k].Failed?
      invariant a.View(out) == TakeAll(a.strip, es[..i]) && AllTools(a.calls)
    {
      out := TakeNext(a, es, i, out);
      i := i + 1;
    }
  }

  method TakeNext(a: ResponsesAssembler, es: seq<Report>, i: nat, log: seq<Event>) returns (out: seq<Event>)
    requires i < |es| && AllTools(a.calls) && a.View(log) == TakeAll(a.strip, es[..i])
    modifies a
    ensures a.View(out) == TakeAll(a.strip, es[..i + 1]) && AllTools(a.calls)
  {
    TakeOneMore(a.strip, es, i);
    out := a.OnReport(es[i], log);
  }

  // ---- The grammar of the reply ----------------------------------------------------------

  /** What a client holds under each output index. */
  function Hear(r: seq<Content>, k: Kind): seq<Content> {
    match k
    case ItemAdded(_, c) => r + [c]
    case TextDelta(i, t) => if i < |r| && r[i].Text? then r[i := Extend(r[i], ChatStream.TextDelta(t))] else r
    case ArgsDelta(i, t) => if i < |r| && r[i].Tool? then r[i := Extend(r[i], JsonDelta(t))] else r
    case _ => r
  }

  function Items(es: seq<Event>): seq<Content> {
    if es == [] then [] else Hear(Items(es[..|es| - 1]), es[|es| - 1].kind)
  }

  /** How far an output item has come. */
  datatype Stage = Announced | Streaming | Told | PartTold | Finished

  /** The item an event is about. */
  function About(k: Kind): Option<nat> {
    match k
    case ItemAdded(i, _) => Some(i)
    case PartAdded(i) => Some(i)
    case TextDelta(i, _) => Some(i)
    case ArgsDelta(i, _) => Some(i)
    case TextDone(i, _) => Some(i)
    case PartDone(i, _) => Some(i)
    case ArgsDone(i, _) => Some(i)
    case ItemDone(i, _) => Some(i)
    case _ => None
  }

  /** How far the item of an event has come before it. */
  function Before(k: Kind): Stage {
    match k
    case PartAdded(_) => Announced
    case PartDone(_, _) => Told
    case ItemDone(_, c) => if c.Text? then PartTold else Told
    case _ => Streaming
  }

  function After(k: Kind): Stage {
    match k
    case TextDone(_, _) => Told
    case ArgsDone(_, _) => Told
    case PartDone(_, _) => PartTold
    case ItemDone(_, _) => Finished
    case _ => Streaming
  }

  function Advanced(stages: seq<Stage>, k: Kind): seq<Stage> {
    if k.ItemAdded? then stages + [if k.item.Text? then Announced else Streaming]
    else if About(k).Some? && About(k).value < |stages| then stages[About(k).value := After(k)]
    else stages
  }

  function Stages(es: seq<Event>): seq<Stage> {
    if es == [] then [] else Advanced(Stages(es[..|es| - 1]), es[|es| - 1].kind)
  }

  predicate EmptyItem(c: Content) { c == Text("") || (c.Tool? && c.json == "") }

  /** What the item of an event holds before it. */
  predicate Fits(c: Content, k: Kind) {
    match k
    case PartAdded(_) => c == Text("")
    case TextDelta(_, _) => c.Text?
    case ArgsDelta(_, _) => c.Tool?
    case TextDone(_, t) => c == Text(t)
    case PartDone(_, t) => c == Text(t)
    case ArgsDone(_, a) => c.Tool? && c.json == a
    case ItemDone(_, d) => c == d
    case _ => false
  }

  predicate Terminal(k: Kind) { k.Completed? || k.ResponseFailed? || k.ErrorSent? }

  /** The response has begun and is not over. */
  predicate Running(es: seq<Event>) { |es| >= 2 && !Terminal(es[|es| - 1].kind) }

  /** An item is announced empty under the next free index; a text then announces its part.
      Only then come its deltas, then once its text or arguments as a whole, then for a text
      once its part, then once the item, each with exactly what the deltas built up. The
      response completes when all items are finished, with them as its output. */
  ghost predicate Continues(r: seq<Content>, stages: seq<Stage>, k: Kind) {
    if k.ItemAdded? then k.index == |r| && EmptyItem(k.item)
    else if k.Completed? then AllDone(r, stages, k.output, k.outputText)
    else if About(k).Some? then Reached(r, stages, About(k).value, k)
    else k.ResponseFailed?
  }

  predicate Reached(r: seq<Content>, stages: seq<Stage>, i: nat, k: Kind) {
    i < |r| && i < |stages| && stages[i] == Before(k) && Fits(r[i], k)
  }

  ghost predicate AllDone(r: seq<Content>, stages: seq<Stage>, output: seq<Content>, text: Option<string>) {
    && (forall i :: 0 <= i < |stages| ==> stages[i] == Finished)
    && multiset(output) == multiset(r)
    && (if text.Some? then Text(text.value) in r else forall i :: 0 <= i < |r| ==> !r[i].Text?)
  }

  /** Nothing follows the completion; a failure is followed by its error event only. */
  ghost predicate MayFollow(es: seq<Event>, k: Kind) {
    match k
    case Created => es == []
    case InProgress => |es| == 1
    case ErrorSent(c, m) => es != [] && es[|es| - 1].kind == ResponseFailed(c, m)
    case _ => Running(es) && Continues(Items(es), Stages(es), k)
  }

  /** How many events, from the first on, a client accepts. */
  ghost function Accepted(es: seq<Event>): (n: nat)
    ensures n <= |es|
  {
    if es == [] then 0
    else
      var init, e := es[..|es| - 1], es[|es| - 1];
      if Accepted(init) == |init| && e.sequence == |es| && MayFollow(init, e.kind) then |es| else Accepted(init)
  }

  ghost predicate Grammatical(es: seq<Event>) { Accepted(es) == |es| }

  ghost predicate Sound(s: State) {
    Grammatical(s.out) && s.sequence == |s.out|
  }

  lemma EmitKeeps(s: State, k: Kind)
    requires Sound(s) && MayFollow(s.out, k)
    ensures Sound(Emit(s, k)) && Items(Emit(s, k).out) == Hear(Items(s.out), k)
    ensures Stages(Emit(s, k).out) == Advanced(Stages(s.out), k)
    ensures s.out != [] && !Terminal(k) ==> Running(Emit(s, k).out)
  {
    assert Emit(s, k).out[..|s.out|] == s.out;
  }

  // ---- What the grammar rules out ------------------------------------------------------------

  /** The order of the events of an item. */
  function Rank(k: Kind): nat {
    match k
    case ItemAdded(_, _) => 0
    case PartAdded(_) => 1
    case TextDone(_, _) => 3
    case ArgsDone(_, _) => 3
    case PartDone(_, _) => 4
    case ItemDone(_, _) => 5
    case _ => 2
  }

  function Level(stage: Stage): nat {
    match stage case Announced => 0 case Streaming => 2 case Told => 3 case PartTold => 4 case Finished => 5
  }

  lemma {:induction false} StagesMatchItems(es: seq<Event>)
    ensures |Stages(es)| == |Items(es)|
  {
    if es != [] {
      StagesMatchItems(es[..|es| - 1]);
    }
  }

  /** An item has come at least as far as each of its events. */
  lemma {:induction false} LevelReached(es: seq<Event>, p: nat, i: nat)
    requires Grammatical(es) && p < |es| && About(es[p].kind) == Some(i)
    ensures i < |Stages(es)| && Rank(es[p].kind) <= Level(Stages(es)[i])
  {
    var front, last := es[..|es| - 1], es[|es| - 1];
    StagesMatchItems(front);
    if p < |front| {
      LevelReached(front, p, i);
      StepRises(Items(front), Stages(front), last.kind, i);
    } else {
      StepReaches(Items(front), Stages(front), last.kind, i);
    }
  }

  lemma StepReaches(r: seq<Content>, stages: seq<Stage>, k: Kind, i: nat)
    requires |stages| == |r| && Continues(r, stages, k) && About(k) == Some(i)
    ensures i < |Advanced(stages, k)| && Rank(k) <= Level(Advanced(stages, k)[i])
  {
  }

  lemma StepRises(r: seq<Content>, stages: seq<Stage>, k: Kind, i: nat)
    requires i < |stages| == |r|
    requires Continues(r, stages, k) || k.ErrorSent? || k.Created? || k.InProgress?
    ensures i < |Advanced(stages, k)| && Level(stages[i]) <= Level(Advanced(stages, k)[i])
  {
  }

  /** In every grammatical stream the events of an item come in the order: announced, part
      announced, deltas, whole text or arguments, part done, item done; only deltas repeat. */
  lemma {:induction false} ItemEventsAreOrdered(es: seq<Event>, p: nat, q: nat)
    requires Grammatical(es) && p < q < |es|
    requires About(es[p].kind).Some? && About(es[p].kind) == About(es[q].kind)
    ensures Rank(es[p].kind) <= Rank(es[q].kind)
    ensures Rank(es[p].kind) == Rank(es[q].kind) ==> Rank(es[p].kind) == 2
  {
    var front := es[..|es| - 1];
    if q < |front| {
      ItemEventsAreOrdered(front, p, q);
    } else {
      var i := About(es[p].kind).value;
      LevelReached(front, p, i);
      StagesMatchItems(front);
      StepNeeds(Items(front), Stages(front), es[q].kind, i);
    }
  }

  /** Before an event its item has not passed the event's place in that order. */
  lemma StepNeeds(r: seq<Content>, stages: seq<Stage>, k: Kind, i: nat)
    requires i < |stages| == |r| && Continues(r, stages, k) && About(k) == Some(i)
    ensures Level(stages[i]) <= Rank(k) && (Level(stages[i]) == Rank(k) ==> Rank(k) == 2)
  {
  }

  ghost predicate Occurs(es: seq<Event>, i: nat, rank: nat) {
    exists p :: 0 <= p < |es| && About(es[p].kind) == Some(i) && Rank(es[p].kind) == rank
  }

  /** Everything an item has gone through has been sent. */
  ghost predicate Sent(es: seq<Event>, i: nat, text: bool, level: nat) {
    && Occurs(es, i, 0) && (text && level >= 2 ==> Occurs(es, i, 1))
    && (level >= 3 ==> Occurs(es, i, 3)) && (text && level >= 4 ==> Occurs(es, i, 4))
    && (level >= 5 ==> Occurs(es, i, 5))
  }

  lemma OccursStill(es: seq<Event>, e: Event, i: nat, rank: nat)
    ensures Occurs(es, i, rank) ==> Occurs(es + [e], i, rank)
    ensures About(e.kind) == Some(i) && Rank(e.kind) == rank ==> Occurs(es + [e], i, rank)
  {
    if p :| 0 <= p < |es| && About(es[p].kind) == Some(i) && Rank(es[p].kind) == rank {
      assert (es + [e])[p] == es[p];
    }
    assert (es + [e])[|es|] == e;
  }

  lemma {:induction false} StageIsSent(es: seq<Event>, i: nat)
    requires Grammatical(es) && i < |Stages(es)| == |Items(es)|
    ensures Sent(es, i, Items(es)[i].Text?, Level(Stages(es)[i]))
  {
    var front, last := es[..|es| - 1], es[|es| - 1];
    StagesMatchItems(front);
    assert es == front + [last];
    if i < |Stages(front)| {
      StageIsSent(front, i);
      KindStays(Items(front), last.kind, i);
    }
    SentStep(front, last, Items(front), Stages(front), i);
  }

  lemma SentStep(front: seq<Event>, last: Event, r: seq<Content>, stages: seq<Stage>, i: nat)
    requires |stages| == |r| && i < |Advanced(stages, last.kind)| == |Hear(r, last.kind)|
    requires Continues(r, stages, last.kind) || last.kind.ErrorSent? || last.kind.Created? || last.kind.InProgress?
    requires i < |stages| ==> Sent(front, i, r[i].Text?, Level(stages[i]))
    ensures Sent(front + [last], i, Hear(r, last.kind)[i].Text?, Level(Advanced(stages, last.kind)[i]))
  {
    OccursStill(front, last, i, 0);
    OccursStill(front, last, i, 1);
    OccursStill(front, last, i, 3);
    OccursStill(front, last, i, 4);
    OccursStill(front, last, i, 5);
    if i < |stages| {
      KindStays(r, last.kind, i);
    }
  }

  lemma KindStays(r: seq<Content>, k: Kind, i: nat)
    requires i < |r|
    ensures i < |Hear(r, k)| && (Hear(r, k)[i].Text? <==> r[i].Text?)
  {
  }

  /** A completed response has sent each of these events for every item, so by the order
      above exactly once: announcement, whole text or arguments, item, and for a text its
      part twice. Nothing comes after the completion. */
  lemma CompletedResponseIsWhole(es: seq<Event>, n: nat)
    requires Grammatical(es) && n < |es| && es[n].kind.Completed?
    ensures n == |es| - 1
    ensures forall i :: 0 <= i < |Items(es)| ==> Sent(es, i, Items(es)[i].Text?, 5)
  {
    CompletionIsLast(es, n);
    StagesMatchItems(es);
    assert Continues(Items(es[..n]), Stages(es[..n]), es[n].kind);
    forall i | 0 <= i < |Items(es)| ensures Sent(es, i, Items(es)[i].Text?, 5) {
      assert Stages(es)[i] == Finished;
      StageIsSent(es, i);
    }
  }

  lemma {:induction false} CompletionIsLast(es: seq<Event>, n: nat)
    requires Grammatical(es) && n < |es| && es[n].kind.Completed?
    ensures n == |es| - 1
  {
    if n < |es| - 1 {
      var front := es[..|es| - 1];
      CompletionIsLast(front, n);
    }
  }

  // ---- The reply spells what the chunks say -------------------------------------------------

  ghost predicate CallOk(r: seq<Content>, c: Call) {
    c.index < |r| && c.item.Tool? && r[c.index] == c.item
  }

  /** The response is running, and all its items still take deltas. */
  ghost predicate AllOpen(s: State) {
    && Sound(s) && Running(s.out) && |Stages(s.out)| == |Items(s.out)|
    && forall i :: 0 <= i < |Stages(s.out)| ==> Stages(s.out)[i] == Streaming
  }

  /** The items are all open, and they are exactly the message and the calls. */
  ghost predicate Holds(s: State) {
    var r := Items(s.out);
    && AllOpen(s) && |r| == s.outputIndex
    && AllTools(s.calls) && CallsStand(r, s.calls) && MessageStands(r, s.message)
    && Tools(r) == ItemsOf(s.calls)
  }

  ghost predicate CallsStand(r: seq<Content>, calls: seq<Call>) {
    forall j :: 0 <= j < |calls| ==> CallOk(r, calls[j]) && Spell.SlotOk(r, calls[j].index, j)
  }

  ghost predicate MessageStands(r: seq<Content>, m: Option<Message>) {
    && (m.Some? ==> m.value.index < |r| && r[m.value.index] == Text(m.value.text))
    && (forall i :: 0 <= i < |r| ==> if m.Some? && m.value.index == i then r[i].Text? else r[i].Tool?)
  }

  /** The books agree with the reference reading of the chunks. */
  ghost predicate Agrees(s: State, g: Spell.Given) {
    && Spell.Aligned(g)
    && |s.calls| == |g.tools|
    && (forall j :: 0 <= j < |s.calls| ==> s.calls[j].key == g.keys[j] && s.calls[j].item == g.tools[j])
    && (if s.message.Some? then g.text != "" && s.message.value.text == g.text else g.text == "")
  }

  lemma OpenMessageHolds(s: State)
    requires Holds(s) && s.message.None?
    ensures Holds(OpenMessage(s))
  {
    OpenMessageEmits(s);
    ContentSnoc(Items(s.out), Text(""));
    CallsAfterItem(Items(s.out), s.calls, Text(""));
  }

  lemma OpenMessageEmits(s: State)
    requires AllOpen(s) && |Items(s.out)| == s.outputIndex
    ensures var v := OpenMessage(s);
            AllOpen(v) && Items(v.out) == Items(s.out) + [Text("")]
  {
    var i := s.outputIndex;
    var u := s.(outputIndex := i + 1, message := Some(Message(i, "")));
    assert AllOpen(u);
    TextItemAdded(u, i);
    PartOfItemAdded(Emit(u, ItemAdded(i, Text(""))), i);
  }

  /** All items but the last, a new text, are open. */
  ghost predicate TextAnnounced(s: State, i: nat) {
    && Sound(s) && Running(s.out) && |Stages(s.out)| == |Items(s.out)| == i + 1
    && Stages(s.out)[i] == Announced && Items(s.out)[i] == Text("")
    && forall j :: 0 <= j < i ==> Stages(s.out)[j] == Streaming
  }

  lemma TextItemAdded(s: State, i: nat)
    requires AllOpen(s) && |Items(s.out)| == i
    ensures TextAnnounced(Emit(s, ItemAdded(i, Text(""))), i)
    ensures Items(Emit(s, ItemAdded(i, Text(""))).out) == Items(s.out) + [Text("")]
  {
    EmitKeeps(s, ItemAdded(i, Text("")));
  }

  lemma PartOfItemAdded(s: State, i: nat)
    requires TextAnnounced(s, i)
    ensures AllOpen(Emit(s, PartAdded(i))) && Items(Emit(s, PartAdded(i)).out) == Items(s.out)
  {
    EmitKeeps(s, PartAdded(i));
  }

  lemma TextDeltaAdded(s: State, i: nat, t: string)
    requires AllOpen(s) && i < |Items(s.out)| && Items(s.out)[i].Text?
    ensures var u, r := Emit(s, Kind.TextDelta(i, t)), Items(s.out);
            AllOpen(u) && Items(u.out) == r[i := Text(r[i].text + t)]
  {
    EmitKeeps(s, Kind.TextDelta(i, t));
  }

  lemma ArgsDeltaAdded(s: State, i: nat, a: string)
    requires AllOpen(s) && i < |Items(s.out)| && Items(s.out)[i].Tool?
    ensures var u, r := Emit(s, ArgsDelta(i, a)), Items(s.out);
            AllOpen(u) && Items(u.out) == r[i := Extend(r[i], JsonDelta(a))]
  {
    EmitKeeps(s, ArgsDelta(i, a));
  }

  /** Beside the text items nothing changes. */
  lemma TextUpdated(r: seq<Content>, calls: seq<Call>, i: nat, c: Content)
    requires CallsStand(r, calls) && i < |r| && r[i].Text? && c.Text?
    ensures CallsStand(r[i := c], calls) && Tools(r[i := c]) == Tools(r)
  {
    ToolsUpdate(r, i, c);
    forall j | 0 <= j < |calls| ensures Spell.SlotOk(r[i := c], calls[j].index, j) && CallOk(r[i := c], calls[j]) {
      assert CallOk(r, calls[j]);
      Spell.SlotsAfterUpdate(r, i, c, calls[j].index, j);
    }
  }

  lemma AddTextHolds(s: State, t: string)
    requires Holds(s) && s.message.Some?
    ensures Holds(AddText(s, t))
  {
    var m, r := s.message.value, Items(s.out);
    TextDeltaAdded(s, m.index, t);
    TextUpdated(r, s.calls, m.index, Text(m.text + t));
  }

  lemma OpenCallHolds(s: State, key: int, id: string, name: string)
    requires Holds(s)
    ensures Holds(OpenCall(s, key, id, name))
  {
    OpenCallEmits(s, key, id, name);
    CallOpened(s, OpenCall(s, key, id, name), key, Tool(id, name, ""));
  }

  lemma CallOpened(s: State, v: State, key: int, c: Content)
    requires Holds(s) && AllOpen(v) && Items(v.out) == Items(s.out) + [c] && c.Tool?
    requires v.calls == s.calls + [Call(key, s.outputIndex, c)]
    requires v.message == s.message && v.outputIndex == s.outputIndex + 1
    ensures Holds(v)
  {
    var r := Items(s.out);
    ContentSnoc(r, c);
    CallsAfterOpen(r, s.calls, key, c);
    MessageAfterCall(r, s.message, c);
    OpenedItems(s.calls, Call(key, |r|, c));
  }

  lemma OpenedItems(calls: seq<Call>, call: Call)
    requires AllTools(calls) && call.item.Tool?
    ensures AllTools(calls + [call]) && ItemsOf(calls + [call]) == ItemsOf(calls) + [call.item]
  {
  }

  lemma MessageAfterCall(r: seq<Content>, m: Option<Message>, c: Content)
    requires MessageStands(r, m) && c.Tool?
    ensures MessageStands(r + [c], m)
  {
  }

  lemma OpenCallEmits(s: State, key: int, id: string, name: string)
    requires AllOpen(s) && |Items(s.out)| == s.outputIndex
    ensures var v := OpenCall(s, key, id, name);
            AllOpen(v) && Items(v.out) == Items(s.out) + [Tool(id, name, "")]
  {
    var i, c := s.outputIndex, Tool(id, name, "");
    var u := s.(outputIndex := i + 1, calls := s.calls + [Call(key, i, c)]);
    assert AllOpen(u);
    ToolItemAdded(u, i, c);
  }

  lemma ToolItemAdded(s: State, i: nat, c: Content)
    requires AllOpen(s) && |Items(s.out)| == i && c.Tool? && c.json == ""
    ensures AllOpen(Emit(s, ItemAdded(i, c))) && Items(Emit(s, ItemAdded(i, c)).out) == Items(s.out) + [c]
  {
    EmitKeeps(s, ItemAdded(i, c));
  }

  lemma CallsAfterItem(r: seq<Content>, calls: seq<Call>, c: Content)
    requires CallsStand(r, calls)
    ensures CallsStand(r + [c], calls)
  {
    forall j | 0 <= j < |calls| ensures CallOk(r + [c], calls[j]) && Spell.SlotOk(r + [c], calls[j].index, j) {
      assert CallOk(r, calls[j]);
      Spell.SlotsAfterOpen(r, c, calls[j].index, j);
    }
  }

  lemma CallsAfterOpen(r: seq<Content>, calls: seq<Call>, key: int, c: Content)
    requires CallsStand(r, calls) && c.Tool? && |Tools(r)| == |calls|
    ensures CallsStand(r + [c], calls + [Call(key, |r|, c)])
  {
    CallsAfterItem(r, calls, c);
    assert (r + [c])[..|r|] == r;
  }

  lemma AddArgumentsHolds(s: State, j: nat, a: string)
    requires Holds(s) && j < |s.calls|
    ensures Holds(AddArguments(s, j, a))
  {
    var c, r := s.calls[j], Items(s.out);
    assert CallOk(r, c) && Spell.SlotOk(r, c.index, j);
    ArgsDeltaAdded(s, c.index, a);
    CallUpdated(r, s.calls, j, Extend(c.item, JsonDelta(a)));
  }

  lemma CallUpdated(r: seq<Content>, calls: seq<Call>, j: nat, item: Content)
    requires CallsStand(r, calls) && j < |calls| && item.Tool? && Tools(r) == ItemsOf(calls)
    ensures calls[j].index < |r|
    ensures var calls', r' := calls[j := calls[j].(item := item)], r[calls[j].index := item];
            CallsStand(r', calls') && Tools(r') == ItemsOf(calls')
  {
    var c := calls[j];
    assert CallOk(r, c) && Spell.SlotOk(r, c.index, j);
    ToolsUpdate(r, c.index, item);
    forall k | 0 <= k < |calls| ensures Spell.SlotOk(r[c.index := item], calls[k].index, k) {
      assert CallOk(r, calls[k]) && Spell.SlotOk(r, calls[k].index, k);
      Spell.SlotsAfterUpdate(r, c.index, item, calls[k].index, k);
    }
    forall k | 0 <= k < |calls| && k != j ensures CallOk(r[c.index := item], calls[k]) {
      assert CallOk(r, calls[k]) && Spell.SlotOk(r, calls[k].index, k);
    }
    assert ItemsOf(calls[j := c.(item := item)]) == ItemsOf(calls)[j := item];
  }

  lemma FeedTextAgrees(s: State, g: Spell.Given, t: string)
    requires Holds(s) && Agrees(s, g)
    ensures Holds(FeedText(s, t)) && Agrees(FeedText(s, t), g.(text := g.text + t))
  {
    if t == "" {
      assert g.text + t == g.text;
    } else if s.message.None? {
      OpenMessageHolds(s);
      AddTextHolds(OpenMessage(s), t);
    } else {
      AddTextHolds(s, t);
    }
  }

  lemma SameFind(s: State, g: Spell.Given, key: int)
    requires Agrees(s, g)
    ensures Find(s.calls, key) == Spell.Locate(g.keys, key)
  {
    var a, b := Find(s.calls, key), Spell.Locate(g.keys, key);
    assert a < |s.calls| ==> s.calls[a].key == g.keys[a];
    assert b < |g.keys| ==> s.calls[b].key == g.keys[b];
  }

  lemma FeedCallHolds(s: State, call: CallDelta)
    requires Holds(s)
    ensures Holds(FeedCall(s, call))
  {
    var key := Spell.KeyOf(|s.calls|, call);
    var j := Find(s.calls, key);
    var u := s;
    if j == |s.calls| {
      OpenCallHolds(s, key, Spell.IdOf(call), call.name);
      u := OpenCall(s, key, Spell.IdOf(call), call.name);
    }
    if call.arguments != "" {
      AddArgumentsHolds(u, j, call.arguments);
    }
  }

  lemma FeedCallAgrees(s: State, g: Spell.Given, call: CallDelta)
    requires AllTools(s.calls) && Agrees(s, g)
    ensures Agrees(FeedCall(s, call), Spell.TakeCall(g, call))
  {
    var key := Spell.KeyOf(|s.calls|, call);
    SameFind(s, g, key);
    var j := Find(s.calls, key);
    assert "" + call.arguments == call.arguments;
    assert j < |g.tools| ==> g.tools[j].json + "" == g.tools[j].json;
  }

  lemma {:induction false} FeedCallsAgree(s: State, g: Spell.Given, calls: seq<CallDelta>)
    requires Holds(s) && Agrees(s, g)
    ensures Holds(FeedCalls(s, calls)) && Agrees(FeedCalls(s, calls), Spell.TakeCalls(g, calls))
  {
    if calls != [] {
      var init, call := calls[..|calls| - 1], calls[|calls| - 1];
      FeedCallsAgree(s, g, init);
      FeedCallHolds(FeedCalls(s, init), call);
      FeedCallAgrees(FeedCalls(s, init), Spell.TakeCalls(g, init), call);
    }
  }

  lemma FeedAgrees(strip: bool, s: State, g: Spell.Given, c: Chunk)
    requires Holds(s) && Agrees(s, g)
    ensures Holds(Feed(strip, s, c)) && Agrees(Feed(strip, s, c), Spell.Take(strip, g, c))
  {
    FeedChoiceAgrees(strip, Metered(s, c), g, c);
  }

  lemma FeedChoiceAgrees(strip: bool, s: State, g: Spell.Given, c: Chunk)
    requires Holds(s) && Agrees(s, g) && Metered(s, c) == s
    ensures Holds(Feed(strip, s, c)) && Agrees(Feed(strip, s, c), Spell.Take(strip, g, c))
  {
    if c.choice.Some? {
      var ch := c.choice.value;
      FeedTextAgrees(s, g, Spell.Shown(strip, ch));
      var g1 := g.(text := g.text + Spell.Shown(strip, ch));
      var g2 := g1.(thinking := g.thinking + Spell.Thought(strip, ch));
      var s1 := FeedText(s, Spell.Shown(strip, ch));
      assert Agrees(s1, g2);
      FeedCallsAgree(s1, g2, ch.calls);
    }
  }

  lemma StartHolds()
    ensures Holds(Start()) && Agrees(Start(), Spell.Given("", "", [], []))
  {
    EmitKeeps(INITIAL, Created);
    EmitKeeps(Emit(INITIAL, Created), InProgress);
  }

  lemma {:induction false} FeedAllAgrees(strip: bool, cs: seq<Chunk>)
    ensures Holds(FeedAll(strip, cs)) && Agrees(FeedAll(strip, cs), Spell.Spelled(strip, cs))
  {
    if cs == [] {
      StartHolds();
    } else {
      FeedAllAgrees(strip, cs[..|cs| - 1]);
      FeedAgrees(strip, FeedAll(strip, cs[..|cs| - 1]), Spell.Spelled(strip, cs[..|cs| - 1]), cs[|cs| - 1]);
    }
  }

  // ---- Closing ---------------------------------------------------------------------------------

  function Indices(calls: seq<Call>): set<nat> {
    set j | 0 <= j < |calls| :: calls[j].index
  }

  /** From s to u exactly these items have been finished. */
  ghost predicate FinishedBy(s: State, u: State, done: set<nat>) {
    && Sound(u) && Running(u.out) && Items(u.out) == Items(s.out) && |Stages(u.out)| == |Stages(s.out)|
    && forall i :: 0 <= i < |Stages(u.out)| ==> Stages(u.out)[i] == if i in done then Finished else Stages(s.out)[i]
  }

  function MessageIndex(m: Option<Message>): set<nat> { if m.Some? then {m.value.index} else {} }

  lemma FinishMessageKeeps(s: State)
    requires Holds(s)
    ensures FinishedBy(s, FinishMessage(s), MessageIndex(s.message))
  {
    if s.message.Some? {
      FinishText(s, s.message.value.index, s.message.value.text);
    }
  }

  /** From s to u one item has come to another stage. */
  ghost predicate StageSet(s: State, u: State, i: nat, stage: Stage) {
    && Sound(u) && Running(u.out) && Items(u.out) == Items(s.out)
    && i < |Stages(s.out)| && Stages(u.out) == Stages(s.out)[i := stage]
  }

  lemma TextTold(s: State, i: nat, t: string)
    requires Sound(s) && Running(s.out) && Reached(Items(s.out), Stages(s.out), i, TextDone(i, t))
    ensures StageSet(s, Emit(s, TextDone(i, t)), i, Told)
  {
    EmitKeeps(s, TextDone(i, t));
  }

  lemma PartIsTold(s: State, i: nat, t: string)
    requires Sound(s) && Running(s.out) && Reached(Items(s.out), Stages(s.out), i, PartDone(i, t))
    ensures StageSet(s, Emit(s, PartDone(i, t)), i, PartTold)
  {
    EmitKeeps(s, PartDone(i, t));
  }

  lemma ArgsTold(s: State, i: nat, c: Content)
    requires Sound(s) && Running(s.out) && c.Tool? && i < |Items(s.out)| && Items(s.out)[i] == c
    requires i < |Stages(s.out)| && Stages(s.out)[i] == Streaming
    ensures StageSet(s, Emit(s, ArgsDone(i, c.json)), i, Told)
  {
    EmitKeeps(s, ArgsDone(i, c.json));
  }

  lemma ItemTold(s: State, i: nat, c: Content)
    requires Sound(s) && Running(s.out) && Reached(Items(s.out), Stages(s.out), i, ItemDone(i, c))
    ensures StageSet(s, Emit(s, ItemDone(i, c)), i, Finished)
  {
    EmitKeeps(s, ItemDone(i, c));
  }

  lemma StageSetTwice(s: State, u: State, v: State, i: nat, mid: Stage, stage: Stage)
    requires StageSet(s, u, i, mid) && StageSet(u, v, i, stage)
    ensures StageSet(s, v, i, stage)
  {
  }

  lemma FinishText(s: State, i: nat, t: string)
    requires AllOpen(s) && i < |Items(s.out)| && Items(s.out)[i] == Text(t)
    ensures FinishedBy(s, Emit(Emit(Emit(s, TextDone(i, t)), PartDone(i, t)), ItemDone(i, Text(t))), {i})
  {
    var u := Emit(s, TextDone(i, t));
    var v := Emit(u, PartDone(i, t));
    TextTold(s, i, t);
    PartIsTold(u, i, t);
    StageSetTwice(s, u, v, i, Told, PartTold);
    TextItemTold(s, v, i, t);
  }

  lemma TextItemTold(s: State, v: State, i: nat, t: string)
    requires StageSet(s, v, i, PartTold) && i < |Items(s.out)| && Items(s.out)[i] == Text(t)
    ensures FinishedBy(s, Emit(v, ItemDone(i, Text(t))), {i})
  {
    ItemTold(v, i, Text(t));
    StageSetTwice(s, v, Emit(v, ItemDone(i, Text(t))), i, PartTold, Finished);
  }

  /** A call that can be finished. */
  ghost predicate Open(s: State, c: Call) {
    CallOk(Items(s.out), c) && c.index < |Stages(s.out)| && Stages(s.out)[c.index] == Streaming
  }

  lemma FinishCallKeeps(s: State, c: Call)
    requires Sound(s) && Running(s.out) && Open(s, c)
    ensures FinishedBy(s, FinishCall(s, c), {c.index})
  {
    ArgsTold(s, c.index, c.item);
    ItemTold(Emit(s, ArgsDone(c.index, c.item.json)), c.index, c.item);
  }

  lemma IndicesSnoc(calls: seq<Call>)
    requires calls != []
    ensures Indices(calls) == Indices(calls[..|calls| - 1]) + {calls[|calls| - 1].index}
  {
  }

  lemma {:induction false} FinishCallsKeep(s: State, calls: seq<Call>)
    requires Sound(s) && Running(s.out) && AllTools(calls) && forall j :: 0 <= j < |calls| ==> Open(s, calls[j])
    requires forall i, j :: 0 <= i < j < |calls| ==> calls[i].index != calls[j].index
    ensures FinishedBy(s, FinishCalls(s, calls), Indices(calls))
  {
    if calls == [] {
      assert Indices(calls) == {};
    } else {
      var n := |calls| - 1;
      var init, c := calls[..n], calls[n];
      FinishCallsKeep(s, init);
      assert Open(s, c);
      assert c.index !in Indices(init);
      FinishOneMore(s, FinishCalls(s, init), c, Indices(init));
      IndicesSnoc(calls);
    }
  }

  lemma FinishOneMore(s: State, u: State, c: Call, done: set<nat>)
    requires FinishedBy(s, u, done) && Open(s, c) && c.index !in done
    ensures FinishedBy(s, FinishCall(u, c), done + {c.index})
  {
    FinishCallKeeps(u, c);
  }

  /** Finishing in two steps. */
  lemma FinishedTwice(s: State, u: State, v: State, a: set<nat>, b: set<nat>)
    requires FinishedBy(s, u, a) && FinishedBy(u, v, b)
    ensures FinishedBy(s, v, a + b)
  {
  }

  /** Every item is the message or one of the calls. */
  lemma {:induction false} EveryToolHasACall(r: seq<Content>, calls: seq<Call>, i: nat)
    requires i < |r| && r[i].Tool?
    requires |Tools(r)| == |calls| && forall j :: 0 <= j < |calls| ==> Spell.SlotOk(r, calls[j].index, j)
    ensures i in Indices(calls)
  {
    var j := |Tools(r[..i])|;
    ToolsUpdate(r, i, r[i]);
    assert r[i := r[i]] == r;
    var k := calls[j].index;
    assert Spell.SlotOk(r, k, j);
    if k < i {
      ToolsGrow(r, k, i);
    } else if i < k {
      ToolsGrow(r, i, k);
    }
  }

  lemma {:induction false} ToolsGrow(r: seq<Content>, i: nat, k: nat)
    requires i < k <= |r| && r[i].Tool?
    ensures |Tools(r[..i])| < |Tools(r[..k])|
  {
    assert r[..k][..i] == r[..i];
    ToolsUpdate(r[..k], i, r[i]);
    assert r[..k][i := r[i]] == r[..k];
  }

  function Lead(n: nat, at: Option<nat>, t: Content): seq<Content> {
    if at.Some? && at.value < n then [t] else []
  }

  lemma SnocCount<T>(a: seq<T>, l: seq<T>, t: seq<T>, c: T)
    requires multiset(a) == multiset(l) + multiset(t)
    ensures multiset(a + [c]) == multiset(l) + multiset(t + [c])
    ensures multiset(a + [c]) == multiset(l + [c]) + multiset(t)
  {
  }

  lemma {:induction false} TextsAndTools(r: seq<Content>, at: Option<nat>, t: Content)
    requires t.Text? && OneText(r, at, t)
    ensures multiset(r) == multiset(Lead(|r|, at, t)) + multiset(Tools(r))
  {
    if r != [] {
      var n := |r| - 1;
      var init, c := r[..n], r[n];
      assert r == init + [c];
      assert OneText(init, at, t);
      TextsAndTools(init, at, t);
      TextOrTool(init, c, at, t);
    }
  }

  ghost predicate OneText(r: seq<Content>, at: Option<nat>, t: Content) {
    forall i :: 0 <= i < |r| ==> if at == Some(i) then r[i] == t else r[i].Tool?
  }

  lemma TextOrTool(init: seq<Content>, c: Content, at: Option<nat>, t: Content)
    requires multiset(init) == multiset(Lead(|init|, at, t)) + multiset(Tools(init))
    requires if at == Some(|init|) then c == t && t.Text? else c.Tool?
    ensures multiset(init + [c]) == multiset(Lead(|init| + 1, at, t)) + multiset(Tools(init + [c]))
  {
    var l, ts := Lead(|init|, at, t), Tools(init);
    var l', ts' := Lead(|init| + 1, at, t), Tools(init + [c]);
    if c.Text? {
      assert l' == l + [c] && ts' == ts by { NextText(init, c, at, t); }
    } else {
      assert l' == l && ts' == ts + [c] by { NextTool(init, c, at, t); }
    }
    SnocCount(init, l, ts, c);
  }

  lemma NextText(init: seq<Content>, c: Content, at: Option<nat>, t: Content)
    requires at == Some(|init|) && c == t && t.Text?
    ensures Lead(|init| + 1, at, t) == Lead(|init|, at, t) + [c] && Tools(init + [c]) == Tools(init)
  {
    ContentSnoc(init, c);
  }

  lemma NextTool(init: seq<Content>, c: Content, at: Option<nat>, t: Content)
    requires at != Some(|init|) && c.Tool?
    ensures Lead(|init| + 1, at, t) == Lead(|init|, at, t) && Tools(init + [c]) == Tools(init) + [c]
  {
    ContentSnoc(init, c);
  }

  // ---- Usage and routing metadata --------------------------------------------------------------

  /** The last usage reported, by a chunk or on its own. */
  function LastUsage(es: seq<Report>): Option<Usage> {
    if es == [] then None
    else
      var front, last := es[..|es| - 1], es[|es| - 1];
      if last.Used? then Some(last.usage)
      else if last.Chunked? && last.chunk.usage.Some? then last.chunk.usage
      else LastUsage(front)
  }

  function LastRouting(es: seq<Report>): Option<string> {
    if es == [] then None
    else if es[|es| - 1].Routed? then Some(es[|es| - 1].routing)
    else LastRouting(es[..|es| - 1])
  }

  /** The same state with other metadata. */
  function Marked(s: State, usage: Option<Usage>, routing: Option<string>): State {
    s.(usage := usage, routing := routing)
  }

  lemma CallIgnoresMarks(s: State, call: CallDelta, usage: Option<Usage>, routing: Option<string>)
    requires AllTools(s.calls)
    ensures FeedCall(Marked(s, usage, routing), call) == Marked(FeedCall(s, call), usage, routing)
  {
  }

  lemma TextIgnoresMarks(s: State, t: string, usage: Option<Usage>, routing: Option<string>)
    ensures FeedText(Marked(s, usage, routing), t) == Marked(FeedText(s, t), usage, routing)
  {
  }

  lemma {:induction false} CallsIgnoreMarks(s: State, calls: seq<CallDelta>,
                                            usage: Option<Usage>, routing: Option<string>)
    requires AllTools(s.calls)
    ensures FeedCalls(Marked(s, usage, routing), calls) == Marked(FeedCalls(s, calls), usage, routing)
  {
    if calls != [] {
      var front, last := calls[..|calls| - 1], calls[|calls| - 1];
      CallsIgnoreMarks(s, front, usage, routing);
      CallIgnoresMarks(FeedCalls(s, front), last, usage, routing);
    }
  }

  lemma FeedIgnoresMarks(strip: bool, s: State, c: Chunk, usage: Option<Usage>, routing: Option<string>)
    requires AllTools(s.calls)
    ensures Feed(strip, Marked(s, usage, routing), c)
         == Marked(Feed(strip, s, c), if c.usage.Some? then c.usage else usage, routing)
  {
    if c.choice.Some? {
      var ch := c.choice.value;
      var u := if c.usage.Some? then c.usage else usage;
      TextIgnoresMarks(Metered(s, c), Spell.Shown(strip, ch), u, routing);
      CallsIgnoreMarks(FeedText(Metered(s, c), Spell.Shown(strip, ch)), ch.calls, u, routing);
    }
  }

  /** The reports amount to their chunks, the last usage and the last routing metadata. */
  lemma {:induction false} ReportsAmountTo(strip: bool, es: seq<Report>)
    ensures TakeAll(strip, es) == Marked(FeedAll(strip, Chunks(es)), LastUsage(es), LastRouting(es))
  {
    if es != [] {
      var front, last := es[..|es| - 1], es[|es| - 1];
      ReportsAmountTo(strip, front);
      if last.Chunked? {
        FeedIgnoresMarks(strip, FeedAll(strip, Chunks(front)), last.chunk, LastUsage(front), LastRouting(front));
        assert Chunks(es)[..|Chunks(front)|] == Chunks(front);
      } else {
        assert Chunks(es) == Chunks(front);
      }
    }
  }

  /** For everything the service can report the reply is grammatical - numbered 1, 2, 3, ...
      without gaps, every item announced, streamed and finished in order before the one
      completion at the end - and its output is the text the chunks spell, if any, followed
      by their tool calls, with the last usage and routing metadata. After a failure the
      reply ends with it instead. */
  lemma {:induction false} ReplyIsFaithful(strip: bool, es: seq<Report>)
    ensures Grammatical(Reply(strip, es)) && |Reply(strip, es)| >= 2
    ensures Fails(es) ==>
              var out, n := Reply(strip, es), |Reply(strip, es)|;
              && out[n - 2].kind == ResponseFailed(FailureCode(es), FailureMessage(es))
              && out[n - 1].kind == ErrorSent(FailureCode(es), FailureMessage(es))
    ensures !Fails(es) ==>
              var out, n, told := Reply(strip, es), |Reply(strip, es)|, es[..StopAt(es)];
              out[n - 1].kind == CompletedWith(Spell.Spelled(strip, ChunksOf(es)), LastUsage(told), LastRouting(told))
  {
    var told := es[..StopAt(es)];
    ReportsHold(strip, told);
    if Fails(es) {
      FailHolds(TakeAll(strip, told), FailureCode(es), FailureMessage(es));
    } else {
      FinishHolds(TakeAll(strip, told));
      CompletionSays(TakeAll(strip, told), Spell.Spelled(strip, ChunksOf(es)));
    }
  }

  /** The completion for what the chunks spell. */
  function CompletedWith(g: Spell.Given, usage: Option<Usage>, routing: Option<string>): Kind {
    Completed((if g.text != "" then [Text(g.text)] else []) + g.tools, if g.text != "" then Some(g.text) else None,
              usage, routing)
  }

  lemma CompletionSays(s: State, g: Spell.Given)
    requires Holds(s) && Agrees(s, g)
    ensures Completion(s) == CompletedWith(g, s.usage, s.routing)
  {
    assert ItemsOf(s.calls) == g.tools;
  }

  lemma ReportsHold(strip: bool, es: seq<Report>)
    ensures var s := TakeAll(strip, es);
            && Holds(s) && Agrees(s, Spell.Spelled(strip, Chunks(es)))
            && s.usage == LastUsage(es) && s.routing == LastRouting(es)
  {
    ReportsAmountTo(strip, es);
    FeedAllAgrees(strip, Chunks(es));
    MarkedHolds(FeedAll(strip, Chunks(es)), Spell.Spelled(strip, Chunks(es)), LastUsage(es), LastRouting(es));
  }

  lemma MarkedHolds(s: State, g: Spell.Given, usage: Option<Usage>, routing: Option<string>)
    requires Holds(s) && Agrees(s, g)
    ensures Holds(Marked(s, usage, routing)) && Agrees(Marked(s, usage, routing), g)
  {
  }

  lemma FailHolds(s: State, code: string, message: string)
    requires Holds(s)
    ensures var out, n := Fail(s, code, message).out, |Fail(s, code, message).out|;
            && Grammatical(out) && n >= 2
            && out[n - 2].kind == ResponseFailed(code, message) && out[n - 1].kind == ErrorSent(code, message)
  {
    EmitKeeps(s, ResponseFailed(code, message));
    EmitKeeps(Emit(s, ResponseFailed(code, message)), ErrorSent(code, message));
  }

  lemma SlotsDiffer(r: seq<Content>, calls: seq<Call>)
    requires forall j :: 0 <= j < |calls| ==> Spell.SlotOk(r, calls[j].index, j)
    ensures forall i, j :: 0 <= i < j < |calls| ==> calls[i].index != calls[j].index
  {
    forall i, j | 0 <= i < j < |calls| ensures calls[i].index != calls[j].index {
      assert Spell.SlotOk(r, calls[i].index, i) && Spell.SlotOk(r, calls[j].index, j);
    }
  }

  lemma FinishHolds(s: State)
    requires Holds(s)
    ensures Sound(Finish(s)) && Items(Finish(s).out) == Items(s.out)
    ensures var out := Finish(s).out; |out| >= 2 && out[|out| - 1].kind == Completion(s)
  {
    var v := FinishCalls(FinishMessage(s), s.calls);
    ItemsFinished(s);
    ReadyToComplete(s, v);
    CompletionEmitted(v, Completion(s));
  }

  lemma ReadyToComplete(s: State, v: State)
    requires Holds(s) && FinishedBy(s, v, MessageIndex(s.message) + Indices(s.calls))
    ensures MayFollow(v.out, Completion(s))
  {
    AllFinished(s, v);
    OutputIsItems(s);
    CompletionFollows(s, v);
  }

  lemma CompletionEmitted(v: State, k: Kind)
    requires Sound(v) && k.Completed? && MayFollow(v.out, k)
    ensures Sound(Emit(v, k)) && Items(Emit(v, k).out) == Items(v.out)
    ensures var out := Emit(v, k).out; |out| >= 2 && out[|out| - 1].kind == k
  {
    EmitKeeps(v, k);
  }

  lemma CompletionFollows(s: State, v: State)
    requires Holds(s) && Items(v.out) == Items(s.out) && Running(v.out)
    requires forall i :: 0 <= i < |Stages(v.out)| ==> Stages(v.out)[i] == Finished
    requires multiset(Output(s)) == multiset(Items(s.out))
    ensures MayFollow(v.out, Completion(s))
  {
    if s.message.Some? {
      assert Items(s.out)[s.message.value.index] == Text(s.message.value.text);
    }
  }

  lemma ItemsFinished(s: State)
    requires Holds(s)
    ensures FinishedBy(s, FinishCalls(FinishMessage(s), s.calls), MessageIndex(s.message) + Indices(s.calls))
  {
    FinishMessageKeeps(s);
    CallsFinished(s, FinishMessage(s), s.calls, MessageIndex(s.message));
  }

  lemma CallsFinished(s: State, u: State, calls: seq<Call>, told: set<nat>)
    requires AllOpen(s) && CallsStand(Items(s.out), calls) && AllTools(calls) && FinishedBy(s, u, told)
    requires forall j :: 0 <= j < |calls| ==> calls[j].index !in told
    ensures FinishedBy(s, FinishCalls(u, calls), told + Indices(calls))
  {
    SlotsDiffer(Items(s.out), calls);
    forall j | 0 <= j < |calls| ensures Open(u, calls[j]) {
      assert CallOk(Items(s.out), calls[j]);
    }
    FinishCallsKeep(u, calls);
    FinishedTwice(s, u, FinishCalls(u, calls), told, Indices(calls));
  }

  lemma OutputIsItems(s: State)
    requires Holds(s)
    ensures multiset(Output(s)) == multiset(Items(s.out))
  {
    var r := Items(s.out);
    var at := if s.message.Some? then Some(s.message.value.index) else None;
    var t := Text(if s.message.Some? then s.message.value.text else "");
    TextsAndTools(r, at, t);
    assert Output(s) == Lead(|r|, at, t) + Tools(r);
  }

  lemma AllFinished(s: State, v: State)
    requires Holds(s)
    requires FinishedBy(s, v, MessageIndex(s.message) + Indices(s.calls))
    ensures forall i :: 0 <= i < |Stages(v.out)| ==> Stages(v.out)[i] == Finished
  {
    var r := Items(s.out);
    forall i | 0 <= i < |r| ensures Stages(v.out)[i] == Finished {
      if r[i].Tool? {
        EveryToolHasACall(r, s.calls, i);
      }
    }
  }

  /** Chunk c shows text to the client. */
  predicate Speaks(strip: bool, c: Chunk) { c.choice.Some? && Spell.Shown(strip, c.choice.value) != "" }

  predicate Calls(c: Chunk) { c.choice.Some? && c.choice.value.calls != [] }

  /** The first text comes in chunk j. */
  ghost predicate FirstText(strip: bool, cs: seq<Chunk>, j: nat) {
    j < |cs| && Speaks(strip, cs[j]) && forall k :: 0 <= k < j ==> !Speaks(strip, cs[k])
  }

  /** A tool fragment comes in an earlier chunk than the first text. */
  ghost predicate CallComesFirst(strip: bool, cs: seq<Chunk>) {
    exists i: nat, j: nat :: i < j && FirstText(strip, cs, j) && Calls(cs[i])
  }

  lemma {:induction false} FeedCallsOpen(s: State, calls: seq<CallDelta>)
    requires AllTools(s.calls) && s.outputIndex >= |s.calls|
    ensures var t := FeedCalls(s, calls);
            && t.message == s.message && t.usage == s.usage && t.outputIndex >= |t.calls|
            && (t.calls == [] <==> s.calls == [] && calls == [])
            && (t.outputIndex == 0 <==> s.outputIndex == 0 && calls == [])
  {
    if calls != [] {
      FeedCallsOpen(s, calls[..|calls| - 1]);
    }
  }

  /** What the assembler has opened so far, in terms of the chunks. */
  ghost predicate OpenedBy(strip: bool, cs: seq<Chunk>, s: State) {
    && s.outputIndex >= |s.calls|
    && (s.calls == [] <==> forall k :: 0 <= k < |cs| ==> !Calls(cs[k]))
    && (s.message.None? <==> forall k :: 0 <= k < |cs| ==> !Speaks(strip, cs[k]))
    && (s.outputIndex == 0 <==> s.calls == [] && s.message.None?)
    && (s.message.Some? ==> (s.message.value.index == 0 <==> !CallComesFirst(strip, cs)))
  }

  lemma {:induction false} OpenedByChunks(strip: bool, cs: seq<Chunk>)
    ensures OpenedBy(strip, cs, FeedAll(strip, cs))
  {
    if cs != [] {
      var front, c := cs[..|cs| - 1], cs[|cs| - 1];
      OpenedByChunks(strip, front);
      OpenedByChunk(strip, front, FeedAll(strip, front), c);
      assert cs == front + [c];
    }
  }

  lemma OpenedByChunk(strip: bool, front: seq<Chunk>, s: State, c: Chunk)
    requires AllTools(s.calls) && OpenedBy(strip, front, s)
    ensures OpenedBy(strip, front + [c], Feed(strip, s, c))
  {
    FirstTextAppended(strip, front, c);
    ChunkOpens(strip, s, c);
    assert (front + [c])[|front|] == c && forall k :: 0 <= k < |front| ==> (front + [c])[k] == front[k];
  }

  /** What one chunk opens. */
  lemma ChunkOpens(strip: bool, s: State, c: Chunk)
    requires AllTools(s.calls) && s.outputIndex >= |s.calls| && (s.message.Some? ==> s.outputIndex > 0)
    ensures var t := Feed(strip, s, c);
            && t.outputIndex >= |t.calls|
            && (t.calls == [] <==> s.calls == [] && !Calls(c))
            && (t.message.None? <==> s.message.None? && !Speaks(strip, c))
            && (t.outputIndex == 0 <==> s.outputIndex == 0 && !Calls(c) && !Speaks(strip, c))
            && (s.message.Some? ==> t.message.Some? && t.message.value.index == s.message.value.index)
            && (s.message.None? && t.message.Some? ==> t.message.value.index == s.outputIndex)
  {
    if c.choice.Some? {
      FeedCallsOpen(FeedText(Metered(s, c), Spell.Shown(strip, c.choice.value)), c.choice.value.calls);
    }
  }

  lemma FirstTextAppended(strip: bool, front: seq<Chunk>, c: Chunk)
    ensures var cs := front + [c];
            if exists k :: 0 <= k < |front| && Speaks(strip, front[k]) then
              CallComesFirst(strip, cs) <==> CallComesFirst(strip, front)
            else
              CallComesFirst(strip, cs) <==> Speaks(strip, c) && exists k :: 0 <= k < |front| && Calls(front[k])
  {
    var cs, n := front + [c], |front|;
    assert forall k :: 0 <= k < n ==> cs[k] == front[k];
    assert forall j: nat :: j < n ==> FirstText(strip, cs, j) == FirstText(strip, front, j);
    if Speaks(strip, c) && (forall k :: 0 <= k < n ==> !Speaks(strip, front[k])) {
      assert FirstText(strip, cs, n);
    }
  }

  /** The completed output lists the items in output-index order exactly when no tool
      fragment comes in an earlier chunk than the first text: the text is always listed
      first. */
  lemma OutputOrder(strip: bool, es: seq<Report>)
    requires !Fails(es)
    ensures var out := Reply(strip, es);
            && out != [] && out[|out| - 1].kind.Completed?
            && (out[|out| - 1].kind.output == Items(out) <==> !CallComesFirst(strip, ChunksOf(es)))
  {
    var s, cs := TakeAll(strip, es[..StopAt(es)]), ChunksOf(es);
    ReportsHold(strip, es[..StopAt(es)]);
    ReportsAmountTo(strip, es[..StopAt(es)]);
    OpenedByChunks(strip, cs);
    OrderOf(s);
    FinishHolds(s);
    if CallComesFirst(strip, cs) {
      NoTextNoOrder(strip, cs);
    }
  }

  lemma NoTextNoOrder(strip: bool, cs: seq<Chunk>)
    requires CallComesFirst(strip, cs)
    ensures exists k :: 0 <= k < |cs| && Speaks(strip, cs[k])
  {
    var i: nat, j: nat :| i < j && FirstText(strip, cs, j) && Calls(cs[i]);
  }

  /** A stream whose output is out of order: a call, then text. */
  lemma CallThenText()
    ensures var call := Chunk(None, Some(QUIET.(calls := [CallDelta("id", "", Some(0), "f", "{}")])));
            var text := Chunk(None, Some(QUIET.(content := "done")));
            var out := Reply(false, [Chunked(call), Chunked(text)]);
            out != [] && out[|out| - 1].kind.Completed? && out[|out| - 1].kind.output != Items(out)
  {
    var call := Chunk(None, Some(QUIET.(calls := [CallDelta("id", "", Some(0), "f", "{}")])));
    var text := Chunk(None, Some(QUIET.(content := "done")));
    var es := [Chunked(call), Chunked(text)];
    assert StopAt(es) == 2 && es[..2] == es;
    assert Chunks(es[..1]) == [call] by {
      assert es[..1][..0] == [];
    }
    assert ChunksOf(es) == [call, text];
    assert FirstText(false, ChunksOf(es), 1) && Calls(ChunksOf(es)[0]);
    OutputOrder(false, es);
  }

  lemma OrderOf(s: State)
    requires Holds(s)
    ensures Output(s) == Items(s.out) <==> (s.message.None? || s.message.value.index == 0)
  {
    ItemOrder(Items(s.out), s.message, ItemsOf(s.calls));
  }

  lemma ItemOrder(r: seq<Content>, m: Option<Message>, tools: seq<Content>)
    requires MessageStands(r, m) && Tools(r) == tools
    ensures (if m.Some? then [Text(m.value.text)] else []) + tools == r <==> (m.None? || m.value.index == 0)
  {
    if m.None? {
      AllToolsIs(r);
      assert [] + tools == tools;
    } else if m.value.index == 0 {
      assert r == [r[0]] + r[1..];
      ToolsHead(r);
      AllToolsIs(r[1..]);
    } else {
      assert ([Text(m.value.text)] + tools)[0].Text? && !r[0].Text?;
    }
  }

  lemma {:induction false} AllToolsIs(r: seq<Content>)
    requires forall i :: 0 <= i < |r| ==> r[i].Tool?
    ensures Tools(r) == r
  {
    if r != [] {
      AllToolsIs(r[..|r| - 1]);
      assert r == r[..|r| - 1] + [r[|r| - 1]];
    }
  }

  lemma {:induction false} ToolsHead(r: seq<Content>)
    requires r != [] && !r[0].Tool?
    ensures Tools(r) == Tools(r[1..])
  {
    var n := |r| - 1;
    if n == 0 {
      assert r[..0] == [] && r[1..] == [];
    } else {
      ToolsHead(r[..n]);
      assert r[..n][1..] == r[1..][..n - 1];
    }
  }

  // ---- Replaying a response as input --------------------------------------------------------------

  function ReplayItem(c: Content): ToolHistory.Item
    requires c.Text? || c.Tool?
  {
    match c
    case Text(t) => ToolHistory.Turn("assistant", ToolHistory.Raw(Some(t), Some(t), []))
    case Tool(id, name, json) => ToolHistory.FunctionCall(id, "", "", name, json)
  }

  function Replay(output: seq<Content>): (r: seq<ToolHistory.Item>)
    requires forall c :: c in output ==> c.Text? || c.Tool?
    ensures |r| == |output|
  {
    seq(|output|, i requires 0 <= i < |output| => ReplayItem(output[i]))
  }

  function ToCalls(tools: seq<Content>): (r: seq<ToolHistory.Call>)
    requires forall c :: c in tools ==> c.Tool?
    ensures |r| == |tools|
  {
    seq(|tools|, i requires 0 <= i < |tools| => ToolHistory.Call(tools[i].id, tools[i].name, tools[i].json))
  }

  lemma {:induction false} ReplayCalls(forward: bool, ms: seq<ToolHistory.Message>, tools: seq<Content>)
    requires forall c :: c in tools ==> c.Tool? && c.id != ""
    ensures ToolHistory.FeedAll(forward, ToolHistory.Clean(ms), Replay(tools))
            == ToolHistory.Clean(ms).(pending := ToCalls(tools))
  {
    if tools != [] {
      var init, t := tools[..|tools| - 1], tools[|tools| - 1];
      assert t in tools;
      ReplayCalls(forward, ms, init);
      assert Replay(tools)[..|tools| - 1] == Replay(init);
      assert ToCalls(tools) == ToCalls(init) + [ToolHistory.Call(t.id, t.name, t.json)];
    }
  }

  /** The messages a replayed output stands for: the assistant's text, then one message
      with all its calls, each closed by a placeholder answer. */
  function Replayed(text: string, tools: seq<Content>): seq<ToolHistory.Message>
    requires forall c :: c in tools ==> c.Tool?
  {
    (if text != "" then [ToolHistory.PlainMessage(ToolHistory.Assistant, ToolHistory.Text(text))] else [])
    + (if tools != [] then
         [ToolHistory.CallsMessage(ToCalls(tools))] + ToolHistory.Synthetic(ToolHistory.Ids(ToCalls(tools)))
       else [])
  }

  /** Sending a completed response back as input restores the text and the very calls,
      in order, that were streamed. */
  lemma {:induction false} ReplayIsFaithful(strip: bool, forward: bool, es: seq<Report>)
    requires !Fails(es) && forall c :: c in Spell.Spelled(strip, ChunksOf(es)).tools ==> c.id != ""
    ensures var g, out := Spell.Spelled(strip, ChunksOf(es)), Reply(strip, es);
            && out != [] && out[|out| - 1].kind.Completed?
            && var output := out[|out| - 1].kind.output;
            && (forall c :: c in output ==> c.Text? || c.Tool?)
            && ToolHistory.Translate(forward, ToolHistory.Items(Replay(output))) == Replayed(g.text, g.tools)
  {
    ReplyIsFaithful(strip, es);
    var g := Spell.Spelled(strip, ChunksOf(es));
    OutputReplays(forward, g.text, g.tools);
  }

  lemma {:induction false} OutputReplays(forward: bool, text: string, tools: seq<Content>)
    requires forall c :: c in tools ==> c.Tool? && c.id != ""
    ensures ToolHistory.Translate(forward, ToolHistory.Items(
              Replay((if text != "" then [Text(text)] else []) + tools))) == Replayed(text, tools)
  {
    var lead := if text != "" then [Text(text)] else [];
    var ms := if text != "" then [ToolHistory.PlainMessage(ToolHistory.Assistant, ToolHistory.Text(text))] else [];
    assert Replay(lead + tools) == Replay(lead) + Replay(tools);
    ToolHistory.FeedAllAppend(forward, ToolHistory.EMPTY, Replay(lead), Replay(tools));
    LeadIn(forward, text);
    ReplayCalls(forward, ms, tools);
    CloseCalls(ms, ToCalls(tools));
  }

  lemma LeadIn(forward: bool, text: string)
    ensures var lead := if text != "" then [Text(text)] else [];
            var said := ToolHistory.PlainMessage(ToolHistory.Assistant, ToolHistory.Text(text));
            var ms := if text != "" then [said] else [];
            ToolHistory.FeedAll(forward, ToolHistory.EMPTY, Replay(lead)) == ToolHistory.Clean(ms)
  {
    if text != "" {
      var items := Replay([Text(text)]);
      assert items[..0] == [];
      assert ToolHistory.FeedAll(forward, ToolHistory.EMPTY, items)
          == ToolHistory.Feed(forward, ToolHistory.EMPTY, items[0]);
    }
  }

  lemma CloseCalls(ms: seq<ToolHistory.Message>, calls: seq<ToolHistory.Call>)
    ensures ToolHistory.Close(ToolHistory.Clean(ms).(pending := calls)).messages
            == ms + (if calls != [] then
                       [ToolHistory.CallsMessage(calls)] + ToolHistory.Synthetic(ToolHistory.Ids(calls))
                     else [])
  {
    var ids := ToolHistory.Ids(calls);
    assert [] + ids == ids;
    var flushed := ToolHistory.FlushCalls(ToolHistory.Clean(ms).(pending := calls));
    if calls != [] {
      var answers := ToolHistory.Synthetic(ids);
      assert flushed.messages + answers == ms + ([ToolHistory.CallsMessage(calls)] + answers);
    }
  }
}
