/** What the Anthropic adapter makes of an upstream stream, event by event and told from the
    fields of the events, whatever order they come in. */
module AdapterFields {
  import opened Common
  import opened ChatStream
  import opened AnthropicStream

  /** The events before the first message_stop. */
  function Heard(es: seq<Event>): seq<Event> {
    if es == [] || es[0] == MessageStop then [] else [es[0]] + Heard(es[1..])
  }

  predicate Speaks(e: Event) {
    || e.MessageStart? || (e.BlockStart? && e.block.ToolUse?)
    || (e.BlockDelta? && (e.delta.JsonDelta? || e.delta.text != ""))
  }

  /** The events that yield a chunk, each with how many tools have been opened before it. */
  function Speaking(es: seq<Event>): seq<(Event, nat)> {
    if es == [] then []
    else
      var front, last := es[..|es| - 1], es[|es| - 1];
      Speaking(front) + if Speaks(last) then [(last, Opens(front))] else []
  }

  function Opens(es: seq<Event>): nat {
    if es == [] then 0
    else Opens(es[..|es| - 1]) + if es[|es| - 1].BlockStart? && es[|es| - 1].block.ToolUse? then 1 else 0
  }

  /** The chunk conveys the event and nothing else: its text, its thinking, a call under the
      next number, or arguments for the call opened last. */
  ghost predicate Conveys(e: Event, before: nat, chunk: Chunk) {
    && chunk.usage == None && chunk.choice.Some?
    && var ch := chunk.choice.value;
    && ch.finish == "" && !ch.recovered && ch.reasoningContent == ""
    && ch.content == (if e.BlockDelta? && e.delta.TextDelta? then e.delta.text else "")
    && ch.reasoning == (if e.BlockDelta? && e.delta.ThinkingDelta? then e.delta.text else "")
    && (if e.BlockStart? && e.block.ToolUse? then
          && |ch.calls| == 1 && ch.calls[0].index == Some(before) && ch.calls[0].name == e.block.name
          && ch.calls[0].arguments == "" && ch.calls[0].id != ""
          && (e.block.id != "" ==> ch.calls[0].id == e.block.id)
          && (e.block.id == "" ==> ch.calls[0].id == "call_" + Decimal(before))
        else if e.BlockDelta? && e.delta.JsonDelta? then
          && |ch.calls| == 1 && ch.calls[0].index == Some(before - 1) && ch.calls[0].name == ""
          && ch.calls[0].arguments == e.delta.text && ch.calls[0].id == ""
        else ch.calls == [])
  }

  ghost predicate AllConveyed(speaking: seq<(Event, nat)>, chunks: seq<Chunk>) {
    |chunks| == |speaking| && forall n :: 0 <= n < |chunks| ==> Conveys(speaking[n].0, speaking[n].1, chunks[n])
  }

  lemma {:induction false} StepsConvey(es: seq<Event>)
    requires forall n :: 0 <= n < |es| ==> es[n] != MessageStop
    ensures var s := Steps(es);
            !s.done && s.toolIndex == Opens(es) - 1 && AllConveyed(Speaking(es), s.chunks)
  {
    if es != [] {
      var front, last := es[..|es| - 1], es[|es| - 1];
      StepsConvey(front);
      StepConveys(Steps(front), last, Opens(front));
      OneMoreConveyed(Speaking(front), Steps(front).chunks, last, Opens(front), Steps(es).chunks);
    }
  }

  lemma OneMoreConveyed(speaking: seq<(Event, nat)>, chunks: seq<Chunk>, e: Event, before: nat, all: seq<Chunk>)
    requires AllConveyed(speaking, chunks)
    requires if Speaks(e) then
               |all| == |chunks| + 1 && all[..|chunks|] == chunks && Conveys(e, before, all[|chunks|])
             else all == chunks
    ensures AllConveyed(speaking + if Speaks(e) then [(e, before)] else [], all)
  {
    if Speaks(e) {
      assert all == chunks + [all[|chunks|]];
    } else {
      assert speaking + [] == speaking;
    }
  }

  lemma {:induction false} StepsCount(es: seq<Event>)
    requires forall n :: 0 <= n < |es| ==> es[n] != MessageStop
    ensures var s := Steps(es);
            && !s.done && s.input == InputTokens(es) && s.output == OutputTokens(es)
            && s.finish == if StopOf(es) == "" then "" else FinishReason(StopOf(es))
  {
    if es != [] {
      StepsCount(es[..|es| - 1]);
    }
  }

  lemma StepConveys(s: State, e: Event, before: nat)
    requires !s.done && e != MessageStop && s.toolIndex == before - 1
    ensures var t := Step(s, e);
            && !t.done && t.toolIndex == before - 1 + (if e.BlockStart? && e.block.ToolUse? then 1 else 0)
            && (if Speaks(e) then
                  |t.chunks| == |s.chunks| + 1 && t.chunks[..|s.chunks|] == s.chunks
                  && Conveys(e, before, t.chunks[|s.chunks|])
                else t.chunks == s.chunks)
  {
  }

  lemma {:induction false} HeardFirst(es: seq<Event>)
    ensures |Heard(es)| <= |es| && es[..|Heard(es)|] == Heard(es)
    ensures |Heard(es)| < |es| ==> es[|Heard(es)|] == MessageStop
    ensures forall n :: 0 <= n < |Heard(es)| ==> Heard(es)[n] != MessageStop
  {
    if es != [] && es[0] != MessageStop {
      HeardFirst(es[1..]);
    }
  }

  const NAMED := {"", "end_turn", "stop_sequence", "stop", "max_tokens", "max_output_tokens", "length", "tool_use",
                  "function_call", "tool_calls", "content_filter", "safety", "recitation"}

  /** How the reasons for stopping read on either side. */
  predicate FinishesFor(stop: string, finish: string) {
    && (stop == "" || stop == "end_turn" || stop == "stop_sequence" || stop == "stop" ==> finish == "stop")
    && (stop == "max_tokens" || stop == "max_output_tokens" || stop == "length" ==> finish == "length")
    && (stop == "tool_use" || stop == "function_call" || stop == "tool_calls" ==> finish == "tool_calls")
    && (stop == "content_filter" || stop == "safety" || stop == "recitation" ==> finish == "content_filter")
    && (stop !in NAMED ==> finish == stop)
  }

  /** The last chunk: the token counts with their sum, and why the message ended. */
  ghost predicate Ends(es: seq<Event>, chunk: Chunk) {
    && chunk.usage == Some(Usage(InputTokens(es), OutputTokens(es), InputTokens(es) + OutputTokens(es)))
    && chunk.choice.Some? && FinishesFor(StopOf(es), chunk.choice.value.finish)
    && chunk.choice.value == QUIET.(finish := chunk.choice.value.finish)
  }

  /** For every upstream stream, sequential or not: one chunk for each event that says
      something, in order, and one for the end. */
  lemma EveryEventIsConveyed(es: seq<Event>)
    ensures var cs, heard := Chunks(es), Heard(es);
            && |cs| >= 1 && AllConveyed(Speaking(heard), cs[..|cs| - 1]) && Ends(heard, cs[|cs| - 1])
  {
    var heard := Heard(es);
    HeardFirst(es);
    StepsConvey(heard);
    StepsCount(heard);
    SameAtTheEnd(es, heard);
    EndSays(Steps(es), heard);
    assert (Steps(es).chunks + [Last(Steps(es))])[..|Steps(es).chunks|] == Steps(es).chunks;
  }

  lemma SameAtTheEnd(es: seq<Event>, heard: seq<Event>)
    requires |heard| <= |es| && es[..|heard|] == heard && (|heard| < |es| ==> es[|heard|] == MessageStop)
    requires !Steps(heard).done
    ensures Steps(es) == Steps(heard).(done := |heard| < |es|)
  {
    if |heard| < |es| {
      StopsHere(es, |heard|);
    } else {
      assert es[..|heard|] == es;
    }
  }

  lemma EndSays(s: State, heard: seq<Event>)
    requires s.input == InputTokens(heard) && s.output == OutputTokens(heard)
    requires s.finish == if StopOf(heard) == "" then "" else FinishReason(StopOf(heard))
    ensures Ends(heard, Last(s))
  {
    if StopOf(heard) != "" {
      ReasonIsNamed(StopOf(heard));
    }
  }

  lemma ReasonIsNamed(stop: string)
    requires stop != ""
    ensures FinishesFor(stop, FinishReason(stop)) && FinishReason(stop) != ""
  {
  }

  lemma StopsHere(es: seq<Event>, n: nat)
    requires n < |es| && es[n] == MessageStop && !Steps(es[..n]).done
    ensures Steps(es) == Steps(es[..n]).(done := true)
  {
    assert es[..n + 1][..n] == es[..n];
    DoneIsFinal(es, n + 1);
  }

  // ---- Numbers ----------------------------------------------------------------------------

  function ValueOf(digits: string): int {
    if digits == "" then 0
    else ValueOf(digits[..|digits| - 1]) * 10 + (digits[|digits| - 1] as int - '0' as int)
  }

  /** The number of a new call can be read back from its id, so no two share one. */
  lemma {:induction false} NumbersReadBack(n: nat)
    ensures ValueOf(Decimal(n)) == n && Decimal(n) != ""
  {
    if n >= 10 {
      NumbersReadBack(n / 10);
      ValueSnoc(Decimal(n / 10), n % 10);
    } else {
      ValueSnoc("", n);
      assert "" + [('0' as int + n) as char] == [('0' as int + n) as char];
    }
  }

  lemma ValueSnoc(digits: string, d: nat)
    requires d < 10
    ensures ValueOf(digits + [('0' as int + d) as char]) == ValueOf(digits) * 10 + d
  {
    assert (digits + [('0' as int + d) as char])[..|digits|] == digits;
  }
}
