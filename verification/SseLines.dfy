/** Reading server-sent events line by line, and the printer it must agree with. */
module SseLines {
  import opened Common

  /** What the reader yields: the event name, if any, and the payload. */
  datatype Pair = Pair(event: Option<string>, data: string)

  // ---- Text ---------------------------------------------------------------------------

  function StripStart(s: string): string {
    if s != "" && IsSpace(s[0]) then StripStart(s[1..]) else s
  }

  function StripEnd(s: string): string {
    if s != "" && IsSpace(s[|s| - 1]) then StripEnd(s[..|s| - 1]) else s
  }

  function Strip(s: string): string { StripEnd(StripStart(s)) }

  function WithoutReturns(s: string): string {
    if s != "" && s[|s| - 1] == '\r' then WithoutReturns(s[..|s| - 1]) else s
  }

  predicate StartsWith(s: string, prefix: string) { |prefix| <= |s| && s[..|prefix|] == prefix }

  function Join(lines: seq<string>): string {
    if lines == [] then ""
    else if |lines| == 1 then lines[0]
    else Join(lines[..|lines| - 1]) + "\n" + lines[|lines| - 1]
  }

  // ---- The reader -----------------------------------------------------------------------

  datatype Reader = Reader(event: Option<string>, eventBuf: Option<string>, dataBuf: seq<string>, yielded: seq<Pair>)

  const FRESH := Reader(None, None, [], [])

  /** A buffer that is already a whole payload; `json` says which texts parse. */
  predicate BufferComplete(json: string -> bool, lines: seq<string>) {
    var text := Strip(Join(lines));
    text == "[DONE]" || json(text)
  }

  function Flushed(r: Reader): Reader {
    if r.dataBuf == [] then r
    else r.(dataBuf := [], yielded := r.yielded + [Pair(r.eventBuf, Join(r.dataBuf))])
  }

  function Fed(r: Reader, raw: string, json: string -> bool): Reader {
    var line := WithoutReturns(raw);
    if line == "" then Flushed(r.(event := None))
    else if StartsWith(line, ":") then r
    else if StartsWith(line, "event:") then r.(event := Some(Strip(line[6..])))
    else if StartsWith(line, "data:") then
      var r := if r.dataBuf != [] && BufferComplete(json, r.dataBuf) then Flushed(r) else r;
      r.(dataBuf := r.dataBuf + [Strip(line[5..])], eventBuf := r.event)
    else r.(yielded := r.yielded + [Pair(None, Strip(line))])
  }

  function FedAll(r: Reader, lines: seq<string>, json: string -> bool): Reader
    decreases |lines|
  {
    if lines == [] then r else FedAll(Fed(r, lines[0], json), lines[1..], json)
  }

  /** All that the reader yields for the lines of a response. */
  function Parse(lines: seq<string>, json: string -> bool): seq<Pair> {
    Flushed(FedAll(FRESH, lines, json)).yielded
  }

  method StreamLines(lines: seq<string>, json: string -> bool) returns (yielded: seq<Pair>)
    ensures yielded == Parse(lines, json)
  {
    var event: Option<string>, eventBuf: Option<string>, dataBuf: seq<string> := None, None, [];
    yielded := [];
    var i := 0;
    while i < |lines|
      invariant 0 <= i <= |lines|
      invariant FedAll(Reader(event, eventBuf, dataBuf, yielded), lines[i..], json) == FedAll(FRESH, lines, json)
    {
      assert lines[i..][0] == lines[i] && lines[i..][1..] == lines[i + 1..];
      var line := WithoutReturns(lines[i]);
      i := i + 1;
      if line == "" {
        event := None;
        if dataBuf != [] {
          yielded, dataBuf := yielded + [Pair(eventBuf, Join(dataBuf))], [];
        }
        continue;
      }
      if StartsWith(line, ":") {
        continue;
      }
      if StartsWith(line, "event:") {
        event := Some(Strip(line[6..]));
        continue;
      }
      if StartsWith(line, "data:") {
        if dataBuf != [] && BufferComplete(json, dataBuf) {
          yielded, dataBuf := yielded + [Pair(eventBuf, Join(dataBuf))], [];
        }
        dataBuf, eventBuf := dataBuf + [Strip(line[5..])], event;
        continue;
      }
      yielded := yielded + [Pair(None, Strip(line))];
    }
    if dataBuf != [] {
      yielded := yielded + [Pair(eventBuf, Join(dataBuf))];
    }
  }

  // ---- Frames -----------------------------------------------------------------------------

  /** An event as it is written: an optional event line, data lines, and the blank line
      some providers leave out. */
  datatype Frame = Frame(event: Option<string>, data: seq<string>, separated: bool)

  function DataLines(data: seq<string>): seq<string> {
    if data == [] then [] else ["data: " + data[0]] + DataLines(data[1..])
  }

  function Printed(f: Frame): seq<string> {
    (if f.event.Some? then ["event: " + f.event.value] else [])
    + (DataLines(f.data) + (if f.separated then [""] else []))
  }

  function PrintedAll(frames: seq<Frame>): seq<string> {
    if frames == [] then [] else Printed(frames[0]) + PrintedAll(frames[1..])
  }

  function Meaning(f: Frame): Pair { Pair(f.event, Join(f.data)) }

  function Meanings(frames: seq<Frame>): seq<Pair> {
    if frames == [] then [] else [Meaning(frames[0])] + Meanings(frames[1..])
  }

  /** At least one data line, every text free of surrounding blanks. */
  ghost predicate Printable(f: Frame) {
    && f.data != [] && (f.event.Some? ==> Strip(f.event.value) == f.event.value)
    && (forall i :: 0 <= i < |f.data| ==> Strip(f.data[i]) == f.data[i])
  }

  /** No proper part of the payload can be taken for a payload. */
  ghost predicate Whole(f: Frame, json: string -> bool) {
    forall i :: 0 < i < |f.data| ==> !BufferComplete(json, f.data[..i])
  }

  ghost predicate WellFormed(f: Frame, json: string -> bool) { Printable(f) && Whole(f, json) }

  /** Where the blank line is missing the payload must be complete, and the event name
      of the next frame must be its own. */
  ghost predicate Boundary(f: Frame, g: Frame, json: string -> bool) {
    f.separated || (BufferComplete(json, f.data) && (g.event.Some? || f.event.None?))
  }

  ghost predicate Readable(frames: seq<Frame>, json: string -> bool) {
    && (forall i :: 0 <= i < |frames| ==> Whole(frames[i], json))
    && (forall i :: 0 < i < |frames| ==> Boundary(frames[i - 1], frames[i], json))
  }

  // ---- One frame ------------------------------------------------------------------------------

  lemma {:induction false} StrippedEnd(s: string)
    ensures StripEnd(s) == "" || !IsSpace(StripEnd(s)[|StripEnd(s)| - 1])
    ensures |StripEnd(s)| <= |s|
  {
    if s != "" && IsSpace(s[|s| - 1]) {
      StrippedEnd(s[..|s| - 1]);
    }
  }

  /** What a printed field is read as. */
  lemma FieldIsRead(name: string, value: string)
    requires name == "event:" || name == "data:"
    requires Strip(value) == value
    ensures var line := name + " " + value;
            WithoutReturns(line) == line && StartsWith(line, name) && Strip(line[|name|..]) == value
  {
    var line := name + " " + value;
    StrippedEnd(StripStart(value));
    assert line[|name|..] == " " + value;
    assert (" " + value)[1..] == value;
    if value != "" {
      assert line[|line| - 1] == value[|value| - 1];
    }
  }

  lemma EventIsRead(r: Reader, value: string, json: string -> bool)
    requires Strip(value) == value
    ensures Fed(r, "event: " + value, json) == r.(event := Some(value))
  {
    FieldIsRead("event:", value);
    assert "event: " + value == "event:" + " " + value;
    assert ("event: " + value)[0] == 'e';
  }

  lemma DataIsRead(r: Reader, value: string, json: string -> bool)
    requires Strip(value) == value
    ensures var r' := if r.dataBuf != [] && BufferComplete(json, r.dataBuf) then Flushed(r) else r;
            Fed(r, "data: " + value, json) == r'.(dataBuf := r'.dataBuf + [value], eventBuf := r.event)
  {
    FieldIsRead("data:", value);
    assert "data: " + value == "data:" + " " + value;
    assert ("data: " + value)[0] == 'd';
  }

  lemma {:induction false} FedAppend(r: Reader, a: seq<string>, b: seq<string>, json: string -> bool)
    ensures FedAll(r, a + b, json) == FedAll(FedAll(r, a, json), b, json)
    decreases |a|
  {
    if a == [] {
      assert a + b == b;
    } else {
      assert (a + b)[1..] == a[1..] + b;
      FedAppend(Fed(r, a[0], json), a[1..], b, json);
    }
  }

  /** The rest of a payload is buffered line by line. */
  lemma {:induction false} DataIsBuffered(r: Reader, data: seq<string>, k: nat, json: string -> bool)
    requires 0 < k <= |data| && r.dataBuf == data[..k] && r.eventBuf == r.event
    requires forall i :: 0 <= i < |data| ==> Strip(data[i]) == data[i]
    requires forall i :: 0 < i < |data| ==> !BufferComplete(json, data[..i])
    ensures FedAll(r, DataLines(data[k..]), json) == r.(dataBuf := data)
    decreases |data| - k
  {
    if k < |data| {
      DataIsRead(r, data[k], json);
      FirstLine(data, k);
      FedFirst(r, "data: " + data[k], DataLines(data[k + 1..]), json);
      DataIsBuffered(r.(dataBuf := data[..k + 1]), data, k + 1, json);
    } else {
      assert data[..k] == data && data[k..] == [];
    }
  }

  lemma FirstLine(data: seq<string>, k: nat)
    requires k < |data|
    ensures DataLines(data[k..]) == ["data: " + data[k]] + DataLines(data[k + 1..])
    ensures data[..k] + [data[k]] == data[..k + 1]
  {
    assert data[k..][1..] == data[k + 1..];
  }

  lemma FedFirst(r: Reader, line: string, rest: seq<string>, json: string -> bool)
    ensures FedAll(r, [line] + rest, json) == FedAll(Fed(r, line, json), rest, json)
  {
    assert ([line] + rest)[1..] == rest;
  }

  /** The reader after some frames: those it has yielded, and the one it may still hold. */
  ghost predicate Holds(r: Reader, done: seq<Pair>, held: Option<Frame>) {
    if held.None? then r == Reader(None, r.eventBuf, [], done)
    else r == Reader(held.value.event, held.value.event, held.value.data, done)
  }

  ghost predicate Fits(held: Option<Frame>, f: Frame, json: string -> bool) {
    held.Some? ==> held.value.data != [] && !held.value.separated && Boundary(held.value, f, json)
  }

  function Yielded(done: seq<Pair>, held: Option<Frame>): seq<Pair> {
    if held.None? then done else done + [Meaning(held.value)]
  }

  /** The first data line of a frame sends off the frame before it. */
  lemma FrameOpens(r: Reader, done: seq<Pair>, held: Option<Frame>, f: Frame, json: string -> bool)
    requires Holds(r, done, held) && Printable(f) && Fits(held, f, json)
    ensures Opened(r, f, json) == Reader(f.event, f.event, f.data[..1], Yielded(done, held))
    ensures var r1 := FedAll(r, if f.event.Some? then ["event: " + f.event.value] else [], json);
            Fed(r1, "data: " + f.data[0], json) == Reader(f.event, f.event, f.data[..1], Yielded(done, held))
  {
    if f.event.Some? {
      EventIsRead(r, f.event.value, json);
      var lines := ["event: " + f.event.value];
      assert lines[1..] == [];
      assert FedAll(r, lines, json) == Fed(r, lines[0], json);
    }
    var r1 := FedAll(r, if f.event.Some? then ["event: " + f.event.value] else [], json);
    DataIsRead(r1, f.data[0], json);
    assert f.data[..1] == [f.data[0]];
  }

  lemma FrameIsRead(r: Reader, done: seq<Pair>, held: Option<Frame>, f: Frame, json: string -> bool)
    requires Holds(r, done, held) && WellFormed(f, json) && Fits(held, f, json)
    ensures var r' := FedAll(r, Printed(f), json);
            if f.separated then Holds(r', Yielded(done, held) + [Meaning(f)], None)
            else Holds(r', Yielded(done, held), Some(f))
  {
    var head := if f.event.Some? then ["event: " + f.event.value] else [];
    var tail := if f.separated then [""] else [];
    FedAppend(r, head, DataLines(f.data) + tail, json);
    var r1 := FedAll(r, head, json);
    FedAppend(r1, DataLines(f.data), tail, json);
    FrameOpens(r, done, held, f, json);
    var r2 := Fed(r1, "data: " + f.data[0], json);
    DataIsBuffered(r2, f.data, 1, json);
    assert FedAll(r1, DataLines(f.data), json) == FedAll(r2, DataLines(f.data[1..]), json) by {
      assert DataLines(f.data)[1..] == DataLines(f.data[1..]);
    }
    var r3 := r2.(dataBuf := f.data);
    if f.separated {
      assert [""][1..] == [];
      assert FedAll(r3, [""], json) == Fed(r3, "", json);
    }
  }

  // ---- Whole streams ------------------------------------------------------------------------------

  lemma Regroup(a: seq<Pair>, p: Pair, b: seq<Pair>)
    ensures (a + [p]) + b == a + ([p] + b)
  {
  }

  // When a frame is not read back, the first pair that comes out wrong stays wrong: what
  // has been yielded stays, and a held payload only grows.

  lemma {:induction false} YieldedStays(r: Reader, lines: seq<string>, json: string -> bool)
    ensures var out := Flushed(FedAll(r, lines, json)).yielded;
            |r.yielded| <= |out| && out[..|r.yielded|] == r.yielded
    decreases |lines|
  {
    if lines != [] {
      var r' := Fed(r, lines[0], json);
      YieldedStays(r', lines[1..], json);
      assert |r.yielded| <= |r'.yielded| && r'.yielded[..|r.yielded|] == r.yielded;
      var out := Flushed(FedAll(r, lines, json)).yielded;
      assert out[..|r.yielded|] == out[..|r'.yielded|][..|r.yielded|];
    }
  }

  lemma {:induction false} JoinGrows(data: seq<string>, i: nat)
    requires 0 < i <= |data|
    ensures |Join(data[..i])| <= |Join(data)| && (i < |data| ==> |Join(data[..i])| < |Join(data)|)
  {
    if i == |data| {
      assert data[..i] == data;
    } else {
      JoinGrows(data[..|data| - 1], i);
      assert data[..|data| - 1][..i] == data[..i];
    }
  }

  /** An event, data or blank line. */
  predicate IsField(line: string) {
    var l := WithoutReturns(line);
    l == "" || StartsWith(l, ":") || StartsWith(l, "event:") || StartsWith(l, "data:")
  }

  /** The next pair that comes out of a held payload. */
  ghost predicate Pending(r: Reader, p: Pair) {
    |p.data| >= |Join(r.dataBuf)| && (r.event.Some? && r.eventBuf.Some? ==> p.event.Some?)
  }

  lemma {:induction false} HeldComesOut(r: Reader, lines: seq<string>, json: string -> bool)
    requires r.dataBuf != [] && forall i :: 0 <= i < |lines| ==> IsField(lines[i])
    ensures var out := Flushed(FedAll(r, lines, json)).yielded;
            |r.yielded| < |out| && Pending(r, out[|r.yielded|])
    decreases |lines|
  {
    if lines != [] {
      var n, r', rest := |r.yielded|, Fed(r, lines[0], json), lines[1..];
      assert FedAll(r, lines, json) == FedAll(r', rest, json);
      assert forall i :: 0 <= i < |rest| ==> rest[i] == lines[i + 1];
      assert IsField(lines[0]);
      if |r'.yielded| > n {
        FirstYield(r', rest, n, json);
      } else {
        HeldComesOut(r', rest, json);
        HeldGrows(r, lines[0], json);
      }
    }
  }

  lemma HeldGrows(r: Reader, line: string, json: string -> bool)
    requires r.dataBuf != [] && IsField(line) && |Fed(r, line, json).yielded| == |r.yielded|
    ensures var r' := Fed(r, line, json);
            r'.dataBuf != [] && r'.yielded == r.yielded && |Join(r.dataBuf)| <= |Join(r'.dataBuf)|
            && (r.event.Some? && r.eventBuf.Some? ==> r'.event.Some? && r'.eventBuf.Some?)
  {
    var l, r' := WithoutReturns(line), Fed(r, line, json);
    if r'.dataBuf != r.dataBuf {
      assert r'.dataBuf == r.dataBuf + [Strip(l[5..])];
      JoinGrows(r'.dataBuf, |r.dataBuf|);
      assert r'.dataBuf[..|r.dataBuf|] == r.dataBuf;
    }
  }

  lemma FieldLines(name: string, value: string)
    requires (name == "event:" || name == "data:") && Strip(value) == value
    ensures IsField(name + " " + value)
  {
    FieldIsRead(name, value);
  }

  lemma {:induction false} DataAreFields(data: seq<string>)
    requires forall i :: 0 <= i < |data| ==> Strip(data[i]) == data[i]
    ensures forall i :: 0 <= i < |DataLines(data)| ==> IsField(DataLines(data)[i])
  {
    if data != [] {
      FieldLines("data:", data[0]);
      assert "data: " + data[0] == "data:" + " " + data[0];
      DataAreFields(data[1..]);
    }
  }

  lemma PrintedAreFields(f: Frame)
    requires Printable(f)
    ensures forall i :: 0 <= i < |Printed(f)| ==> IsField(Printed(f)[i])
  {
    DataAreFields(f.data);
    if f.event.Some? {
      FieldLines("event:", f.event.value);
      assert "event: " + f.event.value == "event:" + " " + f.event.value;
    }
  }

  lemma {:induction false} AllAreFields(frames: seq<Frame>)
    requires forall i :: 0 <= i < |frames| ==> Printable(frames[i])
    ensures forall i :: 0 <= i < |PrintedAll(frames)| ==> IsField(PrintedAll(frames)[i])
  {
    if frames != [] {
      PrintedAreFields(frames[0]);
      AllAreFields(frames[1..]);
    }
  }

  /** The lines of a frame after its first data line. */
  function Later(f: Frame): seq<string>
    requires f.data != []
  {
    DataLines(f.data[1..]) + (if f.separated then [""] else [])
  }

  lemma LaterAreFields(f: Frame)
    requires Printable(f)
    ensures forall i :: 0 <= i < |Later(f)| ==> IsField(Later(f)[i])
  {
    DataAreFields(f.data[1..]);
  }

  /** The reader after the first data line of a frame. */
  function Opened(r: Reader, f: Frame, json: string -> bool): Reader
    requires f.data != []
  {
    var r1 := if f.event.Some? then Fed(r, "event: " + f.event.value, json) else r;
    Fed(r1, "data: " + f.data[0], json)
  }

  lemma OpenedThen(r: Reader, f: Frame, more: seq<string>, json: string -> bool)
    requires f.data != []
    ensures FedAll(r, Printed(f) + more, json) == FedAll(Opened(r, f, json), Later(f) + more, json)
  {
    var first := "data: " + f.data[0];
    var r1 := if f.event.Some? then Fed(r, "event: " + f.event.value, json) else r;
    var head := if f.event.Some? then ["event: " + f.event.value] else [];
    FirstLine(f.data, 0);
    assert f.data[0..] == f.data;
    assert Printed(f) + more == head + ([first] + (Later(f) + more));
    if f.event.Some? {
      FedFirst(r, "event: " + f.event.value, [first] + (Later(f) + more), json);
    } else {
      assert head + ([first] + (Later(f) + more)) == [first] + (Later(f) + more);
    }
    FedFirst(r1, first, Later(f) + more, json);
  }

  /** A broken boundary: the held frame grows by a line of the next, or its event name
      leaks into the next. */
  lemma BrokenBoundary(r: Reader, done: seq<Pair>, f: Frame, g: Frame, more: seq<string>, json: string -> bool)
    requires Holds(r, done, Some(f)) && Printable(f) && Printable(g) && !Boundary(f, g, json)
    requires forall i :: 0 <= i < |more| ==> IsField(more[i])
    ensures var out := Flushed(FedAll(r, Printed(g) + more, json)).yielded;
            |out| > |done| && (out[|done|] != Meaning(f) || (|out| > |done| + 1 && out[|done| + 1] != Meaning(g)))
  {
    var r2, lines := Opened(r, g, json), Later(g) + more;
    OpenedThen(r, g, more, json);
    LaterAreFields(g);
    if g.event.Some? {
      EventIsRead(r, g.event.value, json);
    }
    var r1 := if g.event.Some? then r.(event := g.event) else r;
    DataIsRead(r1, g.data[0], json);
    HeldComesOut(r2, lines, json);
    YieldedStays(r2, lines, json);
    var out := Flushed(FedAll(r2, lines, json)).yielded;
    if BufferComplete(json, f.data) {
      assert out[|done| + 1].event.Some?;
    } else {
      assert r2.dataBuf == f.data + [g.data[0]];
      JoinGrows(r2.dataBuf, |f.data|);
      assert r2.dataBuf[..|f.data|] == f.data;
    }
  }

  /** A payload with a complete proper part comes out short. */
  lemma {:induction false} SplitPayload(r: Reader, data: seq<string>, k: nat, more: seq<string>, json: string -> bool)
    requires 0 < k < |data| && r.dataBuf == data[..k]
    requires forall i :: 0 <= i < |data| ==> Strip(data[i]) == data[i]
    requires exists i :: k <= i < |data| && BufferComplete(json, data[..i])
    ensures var out := Flushed(FedAll(r, DataLines(data[k..]) + more, json)).yielded;
            |r.yielded| < |out| && |out[|r.yielded|].data| < |Join(data)|
    decreases |data| - k
  {
    FirstDataFed(r, data, k, more, json);
    if BufferComplete(json, data[..k]) {
      PayloadYielded(r, data, k, json);
      SplitHere(r, data, k, Fed(r, "data: " + data[k], json), DataLines(data[k + 1..]) + more, json);
    } else {
      PayloadBuffered(r, data, k, json);
      SplitPayload(r.(dataBuf := data[..k + 1], eventBuf := r.event), data, k + 1, more, json);
    }
  }

  lemma PayloadYielded(r: Reader, data: seq<string>, k: nat, json: string -> bool)
    requires 0 < k < |data| && r.dataBuf == data[..k] && Strip(data[k]) == data[k] && BufferComplete(json, data[..k])
    ensures Fed(r, "data: " + data[k], json).yielded == r.yielded + [Pair(r.eventBuf, Join(r.dataBuf))]
  {
    DataIsRead(r, data[k], json);
  }

  lemma PayloadBuffered(r: Reader, data: seq<string>, k: nat, json: string -> bool)
    requires 0 < k < |data| && r.dataBuf == data[..k] && Strip(data[k]) == data[k] && !BufferComplete(json, data[..k])
    ensures Fed(r, "data: " + data[k], json) == r.(dataBuf := data[..k + 1], eventBuf := r.event)
  {
    DataIsRead(r, data[k], json);
    assert data[..k] + [data[k]] == data[..k + 1];
  }

  lemma FirstDataFed(r: Reader, data: seq<string>, k: nat, more: seq<string>, json: string -> bool)
    requires k < |data|
    ensures FedAll(r, DataLines(data[k..]) + more, json)
         == FedAll(Fed(r, "data: " + data[k], json), DataLines(data[k + 1..]) + more, json)
  {
    FirstLine(data, k);
    FedFirst(r, "data: " + data[k], DataLines(data[k + 1..]) + more, json);
    assert DataLines(data[k..]) + more == ["data: " + data[k]] + (DataLines(data[k + 1..]) + more);
  }

  lemma SplitHere(r: Reader, data: seq<string>, k: nat, r': Reader, rest: seq<string>, json: string -> bool)
    requires 0 < k < |data| && r.dataBuf == data[..k]
    requires r'.yielded == r.yielded + [Pair(r.eventBuf, Join(r.dataBuf))]
    ensures var out := Flushed(FedAll(r', rest, json)).yielded;
            |r.yielded| < |out| && |out[|r.yielded|].data| < |Join(data)|
  {
    FirstYield(r', rest, |r.yielded|, json);
    JoinGrows(data, k);
  }

  lemma FirstYield(r: Reader, lines: seq<string>, n: nat, json: string -> bool)
    requires n < |r.yielded|
    ensures var out := Flushed(FedAll(r, lines, json)).yielded;
            n < |out| && out[n] == r.yielded[n]
  {
    YieldedStays(r, lines, json);
    var out := Flushed(FedAll(r, lines, json)).yielded;
    assert out[n] == out[..|r.yielded|][n];
  }

  lemma BrokenPayload(r: Reader, done: seq<Pair>, held: Option<Frame>, f: Frame, more: seq<string>,
                      json: string -> bool)
    requires Holds(r, done, held) && Printable(f) && !Whole(f, json) && Fits(held, f, json)
    ensures var out, n := Flushed(FedAll(r, Printed(f) + more, json)).yielded, |Yielded(done, held)|;
            |out| > n && out[n] != Meaning(f)
  {
    OpenedThen(r, f, more, json);
    FrameOpens(r, done, held, f, json);
    BrokenLater(Reader(f.event, f.event, f.data[..1], Yielded(done, held)), f, more, json);
  }

  lemma BrokenLater(r: Reader, f: Frame, more: seq<string>, json: string -> bool)
    requires Printable(f) && !Whole(f, json) && r.dataBuf == f.data[..1]
    ensures var out, n := Flushed(FedAll(r, Later(f) + more, json)).yielded, |r.yielded|;
            |out| > n && out[n] != Meaning(f)
  {
    var tail := (if f.separated then [""] else []) + more;
    assert Later(f) + more == DataLines(f.data[1..]) + tail;
    SplitPayload(r, f.data, 1, tail, json);
  }

  /** The frames still to come are whole, and every boundary from the held one on holds. */
  ghost predicate Chained(held: Option<Frame>, frames: seq<Frame>, json: string -> bool) {
    Readable(frames, json) && (held.Some? && frames != [] ==> Boundary(held.value, frames[0], json))
  }

  lemma ChainedTail(held: Option<Frame>, frames: seq<Frame>, json: string -> bool)
    requires frames != [] && (held.Some? ==> Boundary(held.value, frames[0], json)) && Whole(frames[0], json)
    ensures Chained(held, frames, json)
       <==> Chained(if frames[0].separated then None else Some(frames[0]), frames[1..], json)
  {
    var rest := frames[1..];
    if Readable(rest, json) && (|frames| > 1 ==> Boundary(frames[0], rest[0], json)) {
      forall i | 0 < i < |frames| ensures Boundary(frames[i - 1], frames[i], json) {
        if i > 1 {
          assert Boundary(rest[i - 2], rest[i - 1], json);
        }
      }
      forall i | 0 <= i < |frames| ensures Whole(frames[i], json) {
        if i > 0 {
          assert Whole(rest[i - 1], json);
        }
      }
    }
    if Readable(frames, json) {
      forall i | 0 < i < |rest| ensures Boundary(rest[i - 1], rest[i], json) {
        assert Boundary(frames[i + 1 - 1], frames[i + 1], json);
      }
      if rest != [] {
        assert Boundary(frames[1 - 1], frames[1], json);
      }
    }
  }

  /** From any point between frames on: what comes out is what the frames mean exactly when
      they can be told apart. */
  lemma {:induction false} FramesAreRead(r: Reader, done: seq<Pair>, held: Option<Frame>, frames: seq<Frame>,
                                         json: string -> bool)
    requires Holds(r, done, held) && (held.Some? ==> Printable(held.value) && !held.value.separated)
    requires forall i :: 0 <= i < |frames| ==> Printable(frames[i])
    ensures Flushed(FedAll(r, PrintedAll(frames), json)).yielded == Yielded(done, held) + Meanings(frames)
       <==> Chained(held, frames, json)
    decreases |frames|
  {
    if frames == [] {
      assert Yielded(done, held) + [] == Yielded(done, held);
    } else {
      var f, rest, sent := frames[0], frames[1..], Yielded(done, held);
      AllAreFields(rest);
      Regroup(sent, Meaning(f), Meanings(rest));
      if held.Some? && !Boundary(held.value, f, json) {
        BrokenBoundary(r, done, held.value, f, PrintedAll(rest), json);
        assert (sent + Meanings(frames))[|done|] == Meaning(held.value);
        assert (sent + Meanings(frames))[|done| + 1] == Meaning(f);
      } else if !Whole(f, json) {
        BrokenPayload(r, done, held, f, PrintedAll(rest), json);
        assert (sent + Meanings(frames))[|sent|] == Meaning(f);
      } else {
        FedAppend(r, Printed(f), PrintedAll(rest), json);
        FrameIsRead(r, done, held, f, json);
        ChainedTail(held, frames, json);
        var r' := FedAll(r, Printed(f), json);
        if f.separated {
          FramesAreRead(r', sent + [Meaning(f)], None, rest, json);
        } else {
          FramesAreRead(r', sent, Some(f), rest, json);
        }
      }
    }
  }

  predicate IsComment(line: string) { StartsWith(WithoutReturns(line), ":") }

  function WithoutComments(lines: seq<string>): seq<string> {
    if lines == [] then []
    else (if IsComment(lines[0]) then [] else [lines[0]]) + WithoutComments(lines[1..])
  }

  /** Comment lines change nothing, wherever they stand. */
  lemma {:induction false} CommentsAreInvisible(r: Reader, lines: seq<string>, json: string -> bool)
    ensures FedAll(r, lines, json) == FedAll(r, WithoutComments(lines), json)
    decreases |lines|
  {
    if lines != [] {
      CommentsAreInvisible(Fed(r, lines[0], json), lines[1..], json);
      if IsComment(lines[0]) {
        assert Fed(r, lines[0], json) == r;
        assert WithoutComments(lines) == WithoutComments(lines[1..]);
      } else {
        assert WithoutComments(lines)[0] == lines[0];
        assert WithoutComments(lines)[1..] == WithoutComments(lines[1..]);
      }
    }
  }

  /** Reading gives the frames back, one pair each and in order, with comments anywhere and
      payloads over several lines joined by newlines, exactly when no payload has a complete
      proper part and every missing separator stands after a complete payload and before a
      frame with its own event name (or after one without). */
  lemma ReadingIsExact(frames: seq<Frame>, lines: seq<string>, json: string -> bool)
    requires forall i :: 0 <= i < |frames| ==> Printable(frames[i])
    requires WithoutComments(lines) == PrintedAll(frames)
    ensures Parse(lines, json) == Meanings(frames) <==> Readable(frames, json)
  {
    CommentsAreInvisible(FRESH, lines, json);
    FramesAreRead(FRESH, [], None, frames, json);
    assert [] + Meanings(frames) == Meanings(frames);
  }

  /** What two one-line frames are read as when the separator between them is missing and
      the second has no event name. */
  lemma TwoFramesAreRead(event: Option<string>, x: string, y: string, json: string -> bool)
    requires (event.Some? ==> Strip(event.value) == event.value) && Strip(x) == x && Strip(y) == y
    ensures Parse(PrintedAll([Frame(event, [x], false), Frame(None, [y], true)]), json)
         == if BufferComplete(json, [x]) then [Pair(event, x), Pair(event, y)] else [Pair(event, Join([x, y]))]
  {
    TwoFramesPrinted(event, x, y);
    var r := FRESH.(event := event);
    DataThenData(r, x, y, json);
    if event.Some? {
      EventIsRead(FRESH, event.value, json);
      FedFirst(FRESH, "event: " + event.value, ["data: " + x, "data: " + y, ""], json);
    } else {
      assert [] + ["data: " + x, "data: " + y, ""] == ["data: " + x, "data: " + y, ""];
    }
  }

  lemma DataThenData(r: Reader, x: string, y: string, json: string -> bool)
    requires r.dataBuf == [] && r.yielded == [] && Strip(x) == x && Strip(y) == y
    ensures Flushed(FedAll(r, ["data: " + x, "data: " + y, ""], json)).yielded
         == if BufferComplete(json, [x]) then [Pair(r.event, x), Pair(r.event, y)] else [Pair(r.event, Join([x, y]))]
  {
    var u := r.(dataBuf := [x], eventBuf := r.event);
    DataIsRead(r, x, json);
    assert [] + [x] == [x];
    FedFirst(r, "data: " + x, ["data: " + y, ""], json);
    assert ["data: " + x] + ["data: " + y, ""] == ["data: " + x, "data: " + y, ""];
    SecondData(u, x, y, json);
  }

  lemma SecondData(u: Reader, x: string, y: string, json: string -> bool)
    requires u.dataBuf == [x] && u.eventBuf == u.event && u.yielded == [] && Strip(y) == y
    ensures Flushed(FedAll(u, ["data: " + y, ""], json)).yielded
         == if BufferComplete(json, [x]) then [Pair(u.event, x), Pair(u.event, y)] else [Pair(u.event, Join([x, y]))]
  {
    DataIsRead(u, y, json);
    FedFirst(u, "data: " + y, [""], json);
    assert ["data: " + y] + [""] == ["data: " + y, ""];
    assert [x] + [y] == [x, y] && [] + [y] == [y] && Join([y]) == y && Join([x]) == x;
    BlankIsRead(Fed(u, "data: " + y, json), json);
  }

  lemma BlankIsRead(r: Reader, json: string -> bool)
    requires r.dataBuf != []
    ensures Flushed(FedAll(r, [""], json)).yielded == r.yielded + [Pair(r.eventBuf, Join(r.dataBuf))]
  {
    assert [""][1..] == [];
    assert WithoutReturns("") == "";
  }

  lemma TwoFramesPrinted(event: Option<string>, x: string, y: string)
    ensures PrintedAll([Frame(event, [x], false), Frame(None, [y], true)])
         == (if event.Some? then ["event: " + event.value] else []) + ["data: " + x, "data: " + y, ""]
  {
    var frames := [Frame(event, [x], false), Frame(None, [y], true)];
    OneLinePrinted(x);
    OneLinePrinted(y);
    assert frames[1..] == [frames[1]] && frames[1..][1..] == [];
    assert PrintedAll(frames[1..]) == Printed(frames[1]) == ["data: " + y, ""];
  }

  lemma OneLinePrinted(x: string)
    ensures DataLines([x]) == ["data: " + x]
  {
    assert [x][1..] == [];
  }

  lemma TwoMeanings(f: Frame, g: Frame)
    ensures Meanings([f, g]) == [Meaning(f), Meaning(g)]
  {
    assert [f, g][1..] == [g];
    assert Meanings([g]) == [Meaning(g)] + Meanings([]) by {
      assert [g][1..] == [];
    }
  }

  /** Two frames that are not read back: a payload that is not complete runs on. */
  lemma HalfPayloadRunsOn(json: string -> bool)
    requires !json("half")
    ensures var frames := [Frame(None, ["half"], false), Frame(None, ["rest"], true)];
            Parse(PrintedAll(frames), json) == [Pair(None, "half" + "\n" + "rest")] != Meanings(frames)
  {
    HalfAndRest();
    TwoFramesAreRead(None, "half", "rest", json);
    TwoMeanings(Frame(None, ["half"], false), Frame(None, ["rest"], true));
  }

  lemma HalfAndRest()
    ensures Strip("half") == "half" && Strip("rest") == "rest" && Join(["half"]) == "half"
    ensures Join(["half", "rest"]) == "half" + "\n" + "rest"
  {
    assert StripStart("half") == "half" && StripStart("rest") == "rest";
    assert ["half", "rest"][..1] == ["half"];
  }

  /** And a frame without an event name inherits the one before, whatever counts as JSON. */
  lemma EventNameIsInherited(json: string -> bool)
    ensures var frames := [Frame(Some("ping"), ["[DONE]"], false), Frame(None, ["[DONE]"], true)];
            Parse(PrintedAll(frames), json) == [Pair(Some("ping"), "[DONE]"), Pair(Some("ping"), "[DONE]")]
                                            != Meanings(frames)
  {
    assert StripStart("ping") == "ping" && StripStart("[DONE]") == "[DONE]" && Join(["[DONE]"]) == "[DONE]";
    TwoFramesAreRead(Some("ping"), "[DONE]", "[DONE]", json);
    TwoMeanings(Frame(Some("ping"), ["[DONE]"], false), Frame(None, ["[DONE]"], true));
  }

  // ---- The gateway's own printer --------------------------------------------------------------------

  /** The lines of one printed event; the payload is one line of JSON text. */
  function Sse(event: string, payload: string): seq<string> {
    ["event: " + event, "data: " + payload, ""]
  }

  function SseAll(events: seq<(string, string)>): seq<string> {
    if events == [] then [] else Sse(events[0].0, events[0].1) + SseAll(events[1..])
  }

  /** The same events as frames. */
  function FramesOf(events: seq<(string, string)>): seq<Frame> {
    if events == [] then [] else [Frame(Some(events[0].0), [events[0].1], true)] + FramesOf(events[1..])
  }

  lemma {:induction false} EventsAreFrames(events: seq<(string, string)>)
    ensures |FramesOf(events)| == |events|
    ensures forall i :: 0 <= i < |events| ==> FramesOf(events)[i] == Frame(Some(events[i].0), [events[i].1], true)
    ensures PrintedAll(FramesOf(events)) == SseAll(events)
  {
    if events != [] {
      EventsAreFrames(events[1..]);
      var f := FramesOf(events)[0];
      FirstLine(f.data, 0);
      assert f.data[0..] == f.data && f.data[1..] == [];
      assert Printed(f) == Sse(events[0].0, events[0].1);
      assert FramesOf(events)[1..] == FramesOf(events[1..]);
    }
  }

  lemma {:induction false} MeaningsAt(frames: seq<Frame>)
    ensures |Meanings(frames)| == |frames|
    ensures forall i :: 0 <= i < |frames| ==> Meanings(frames)[i] == Meaning(frames[i])
  {
    if frames != [] {
      MeaningsAt(frames[1..]);
    }
  }

  /** What the gateway prints, its own reader reads back, whatever counts as JSON. */
  lemma PrintedEventsAreReadBack(events: seq<(string, string)>, json: string -> bool)
    requires forall i :: 0 <= i < |events| ==> Strip(events[i].0) == events[i].0 && Strip(events[i].1) == events[i].1
    ensures |Parse(SseAll(events), json)| == |events|
    ensures forall i :: 0 <= i < |events| ==> Parse(SseAll(events), json)[i] == Pair(Some(events[i].0), events[i].1)
  {
    EventsAreFrames(events);
    MeaningsAt(FramesOf(events));
    EventsAreRead(events, json);
  }

  lemma EventsAreRead(events: seq<(string, string)>, json: string -> bool)
    requires forall i :: 0 <= i < |events| ==> Strip(events[i].0) == events[i].0 && Strip(events[i].1) == events[i].1
    ensures Parse(SseAll(events), json) == Meanings(FramesOf(events))
  {
    var frames := FramesOf(events);
    EventsAreFrames(events);
    FramesAreRead(FRESH, [], None, frames, json);
    assert Yielded([], None) + Meanings(frames) == Meanings(frames);
  }

  // ---- Line ends, blanks, and lines that are no fields ------------------------------------------

  /** The same lines, each with one more carriage return at its end. */
  function WithReturns(lines: seq<string>): seq<string> {
    if lines == [] then [] else [lines[0] + "\r"] + WithReturns(lines[1..])
  }

  /** Carriage returns at the ends of lines change nothing; so any number of them does not. */
  lemma {:induction false} ReturnsAreInvisible(r: Reader, lines: seq<string>, json: string -> bool)
    ensures FedAll(r, WithReturns(lines), json) == FedAll(r, lines, json)
    decreases |lines|
  {
    if lines != [] {
      assert (lines[0] + "\r")[..|lines[0]|] == lines[0];
      assert Fed(r, lines[0] + "\r", json) == Fed(r, lines[0], json);
      FedFirst(r, lines[0] + "\r", WithReturns(lines[1..]), json);
      ReturnsAreInvisible(Fed(r, lines[0], json), lines[1..], json);
    }
  }

  /** What is white space. */
  lemma WhiteSpaceIs(c: char)
    ensures IsSpace(c) <==>
              (c as int) in {9, 10, 11, 12, 13, 28, 29, 30, 31, 32, 0x85, 0xa0, 0x1680, 0x2000, 0x2001, 0x2002, 0x2003,
                             0x2004, 0x2005, 0x2006, 0x2007, 0x2008, 0x2009, 0x200a, 0x2028, 0x2029, 0x202f, 0x205f,
                             0x3000}
  {
  }

  ghost predicate Blanks(s: string) { forall i :: 0 <= i < |s| ==> IsSpace(s[i]) }

  /** No white space at either end. */
  predicate Trim(s: string) { s != "" ==> !IsSpace(s[0]) && !IsSpace(s[|s| - 1]) }

  lemma {:induction false} StripStartOf(before: string, s: string)
    requires Blanks(before) && (s != "" ==> !IsSpace(s[0]))
    ensures StripStart(before + s) == s
  {
    if before != "" {
      assert (before + s)[1..] == before[1..] + s;
      StripStartOf(before[1..], s);
    } else {
      assert before + s == s;
    }
  }

  lemma {:induction false} StripEndOf(s: string, after: string)
    requires Blanks(after) && (s != "" ==> !IsSpace(s[|s| - 1]))
    ensures StripEnd(s + after) == s
  {
    if after != "" {
      assert (s + after)[..|s + after| - 1] == s + after[..|after| - 1];
      StripEndOf(s, after[..|after| - 1]);
    } else {
      assert s + after == s;
    }
  }

  /** Stripping takes the white space off both ends and nothing else. */
  lemma StripTrims(before: string, core: string, after: string)
    requires Blanks(before) && Blanks(after) && Trim(core)
    ensures Strip(before + core + after) == core
  {
    if core == "" {
      assert before + core + after == (before + after) + "";
      StripStartOf(before + after, "");
    } else {
      assert before + core + after == before + (core + after);
      StripStartOf(before, core + after);
      StripEndOf(core, after);
    }
  }

  /** A line that is no field of an event: newline-delimited JSON, say. */
  predicate NoField(line: string) {
    var l := WithoutReturns(line);
    l != "" && !StartsWith(l, ":") && !StartsWith(l, "event:") && !StartsWith(l, "data:")
  }

  function Alone(lines: seq<string>): seq<Pair> {
    if lines == [] then [] else [Pair(None, Strip(WithoutReturns(lines[0])))] + Alone(lines[1..])
  }

  lemma NoFieldFed(r: Reader, line: string, json: string -> bool)
    requires NoField(line)
    ensures Fed(r, line, json) == r.(yielded := r.yielded + [Pair(None, Strip(WithoutReturns(line)))])
  {
  }

  lemma {:induction false} NoFieldsAreRead(r: Reader, lines: seq<string>, json: string -> bool)
    requires forall i :: 0 <= i < |lines| ==> NoField(lines[i])
    ensures FedAll(r, lines, json) == r.(yielded := r.yielded + Alone(lines))
    decreases |lines|
  {
    if lines == [] {
      assert r.yielded + [] == r.yielded;
    } else {
      var p := Pair(None, Strip(WithoutReturns(lines[0])));
      NoFieldFed(r, lines[0], json);
      NoFieldsAreRead(Fed(r, lines[0], json), lines[1..], json);
      assert (r.yielded + [p]) + Alone(lines[1..]) == r.yielded + Alone(lines);
    }
  }

  /** Lines that are no fields are read one by one, each without an event and stripped. */
  lemma LinesAreReadAlone(lines: seq<string>, json: string -> bool)
    requires forall i :: 0 <= i < |lines| ==> NoField(lines[i])
    ensures Parse(lines, json) == Alone(lines)
  {
    NoFieldsAreRead(FRESH, lines, json);
    assert [] + Alone(lines) == Alone(lines);
  }
}
