/** Deleting one list entry of a YAML section by splicing its lines. */
module ConfigWriter {

  /** A line of the file, as far as the splice looks at it. `Dash` is a line whose first
      text is a dash and a space; `entry` is its `key: name`, if it has that form. */
  datatype Line =
    | Blank(text: string)
    | Comment(indent: nat, text: string)
    | Dash(indent: nat, entry: Entry, text: string)
    | Text(indent: nat, text: string)
  datatype Entry = Named(key: string, name: string) | Bare

  type Lines = seq<Line>

  predicate Header(line: Line) { line.Blank? || line.Comment? }

  /** Column 0, neither a comment nor blank: also a dash at column 0. */
  predicate TopLevelKey(line: Line) { !Header(line) && line.indent == 0 }

  predicate SiblingMarker(line: Line, indent: nat) { line.Dash? && line.indent == indent }

  predicate OpensSection(line: Line, section: string) { line == Text(0, section + ":") }

  predicate Matches(line: Line, want: Entry) { line.Dash? && want.Named? && line.entry == want }

  predicate Stop(line: Line, indent: nat) { TopLevelKey(line) || SiblingMarker(line, indent) }

  // ---- The helpers, as values ------------------------------------------------------------

  /** Each search returns |lines| when it finds nothing. */
  function SectionFrom(lines: Lines, section: string, i: nat): (s: nat)
    requires i <= |lines|
    ensures i <= s <= |lines|
    decreases |lines| - i
  {
    if i == |lines| || OpensSection(lines[i], section) then i else SectionFrom(lines, section, i + 1)
  }

  function EntryFrom(lines: Lines, want: Entry, i: nat): (item: nat)
    requires i <= |lines|
    ensures i <= item <= |lines|
    decreases |lines| - i
  {
    if i == |lines| || TopLevelKey(lines[i]) then |lines|
    else if Matches(lines[i], want) then i
    else EntryFrom(lines, want, i + 1)
  }

  function HeaderFrom(lines: Lines, floor: nat, start: nat): (h: nat)
    requires floor <= start <= |lines|
    ensures floor <= h <= start
  {
    if start > floor && Header(lines[start - 1]) then HeaderFrom(lines, floor, start - 1) else start
  }

  function BlockFrom(lines: Lines, indent: nat, i: nat): (n: nat)
    requires i <= |lines|
    ensures i <= n <= |lines|
    decreases |lines| - i
  {
    if i == |lines| || Stop(lines[i], indent) then i else BlockFrom(lines, indent, i + 1)
  }

  /** What a delete removes: the range from `head` to `end`. */
  datatype Cut = Cut(head: nat, item: nat, end: nat, next: nat) | Nothing

  function CutOf(lines: Lines, section: string, want: Entry): (c: Cut)
    ensures c.Cut? ==> c.head <= c.item < c.end <= c.next <= |lines| && lines[c.item].Dash?
  {
    var s := SectionFrom(lines, section, 0);
    if s == |lines| then Nothing
    else
      var item := EntryFrom(lines, want, s + 1);
      if item == |lines| then Nothing
      else
        EntryIsDash(lines, want, s + 1);
        var next := BlockFrom(lines, lines[item].indent, item + 1);
        Cut(HeaderFrom(lines, s + 1, item), item, HeaderFrom(lines, item + 1, next), next)
  }

  function Delete(lines: Lines, section: string, want: Entry): (bool, Lines) {
    var c := CutOf(lines, section, want);
    if c.Nothing? then (false, lines) else (true, lines[..c.head] + lines[c.end..])
  }

  // ---- The program -------------------------------------------------------------------------

  method SectionLine(lines: Lines, section: string) returns (s: nat)
    ensures s == SectionFrom(lines, section, 0)
  {
    s := 0;
    while s < |lines| && !OpensSection(lines[s], section)
      invariant s <= |lines| && SectionFrom(lines, section, s) == SectionFrom(lines, section, 0)
    {
      s := s + 1;
    }
  }

  method FindEntryLine(lines: Lines, sectionStart: nat, want: Entry) returns (item: nat)
    requires sectionStart < |lines|
    ensures item == EntryFrom(lines, want, sectionStart + 1)
  {
    var index := sectionStart + 1;
    while index < |lines|
      invariant sectionStart < index <= |lines|
      invariant EntryFrom(lines, want, index) == EntryFrom(lines, want, sectionStart + 1)
    {
      if TopLevelKey(lines[index]) {
        break;
      }
      if Matches(lines[index], want) {
        return index;
      }
      index := index + 1;
    }
    return |lines|;
  }

  /** Walks back over blank and comment lines; also used to trim the end of a block. */
  method WalkBack(lines: Lines, index: nat, floor: nat) returns (start: nat)
    requires floor <= index <= |lines|
    ensures start == HeaderFrom(lines, floor, index)
  {
    start := index;
    while start > floor && Header(lines[start - 1])
      invariant floor <= start <= |lines| && HeaderFrom(lines, floor, start) == HeaderFrom(lines, floor, index)
    {
      start := start - 1;
    }
  }

  method EntryBlockEnd(lines: Lines, item: nat, indent: nat) returns (index: nat)
    requires item < |lines|
    ensures index == BlockFrom(lines, indent, item + 1)
  {
    index := item + 1;
    while index < |lines| && !Stop(lines[index], indent)
      invariant index <= |lines| && BlockFrom(lines, indent, index) == BlockFrom(lines, indent, item + 1)
    {
      index := index + 1;
    }
  }

  method DeleteListEntry(lines: Lines, section: string, want: Entry) returns (removed: bool, rest: Lines)
    ensures (removed, rest) == Delete(lines, section, want)
  {
    var c := FindCut(lines, section, want);
    if c.Nothing? {
      return false, lines;
    }
    return true, lines[..c.head] + lines[c.end..];
  }

  /** The range to delete. */
  method FindCut(lines: Lines, section: string, want: Entry) returns (c: Cut)
    ensures c == CutOf(lines, section, want)
  {
    var s := SectionLine(lines, section);
    if s == |lines| {
      return Nothing;
    }
    var item := FindEntryLine(lines, s, want);
    if item == |lines| {
      return Nothing;
    }
    EntryIsDash(lines, want, s + 1);
    var head := WalkBack(lines, item, s + 1);
    var block := EntryBlockEnd(lines, item, lines[item].indent);
    var end := WalkBack(lines, block, item + 1);
    return Cut(head, item, end, block);
  }

  // ---- What a delete removes -----------------------------------------------------------------

  ghost predicate IsSection(lines: Lines, section: string, s: nat) {
    s < |lines| && OpensSection(lines[s], section) && forall k :: 0 <= k < s ==> !OpensSection(lines[k], section)
  }

  /** The first match inside the section that starts at s. */
  ghost predicate IsItem(lines: Lines, s: nat, want: Entry, item: nat) {
    s < item < |lines| && Matches(lines[item], want) && !TopLevelKey(lines[item])
    && forall k :: s < k < item ==> !TopLevelKey(lines[k]) && !Matches(lines[k], want)
  }

  /** The blank and comment lines right above an item, down to the section's own line. */
  ghost predicate IsHead(lines: Lines, s: nat, item: nat, head: nat)
    requires item < |lines|
  {
    s < head <= item && (forall k :: head <= k < item ==> Header(lines[k]))
    && (head == s + 1 || !Header(lines[head - 1]))
  }

  /** The body of an item ends at `end`; up to `next`, the next sibling, top-level key or
      end of the file, there are only blank and comment lines. */
  ghost predicate IsBody(lines: Lines, item: nat, end: nat, next: nat)
    requires item < |lines| && lines[item].Dash?
  {
    item < end <= next <= |lines|
    && (end == item + 1 || !Header(lines[end - 1]))
    && (forall k :: end <= k < next ==> Header(lines[k]))
    && (forall k :: item < k < next ==> !Stop(lines[k], lines[item].indent))
    && (next == |lines| || Stop(lines[next], lines[item].indent))
  }

  ghost predicate IsEntry(lines: Lines, s: nat, want: Entry, c: Cut) {
    c.Cut? && IsItem(lines, s, want, c.item) && IsHead(lines, s, c.item, c.head) && IsBody(lines, c.item, c.end, c.next)
  }

  lemma {:induction false} EntryIsDash(lines: Lines, want: Entry, i: nat)
    requires i <= |lines|
    ensures var item := EntryFrom(lines, want, i);
            item < |lines| ==> Matches(lines[item], want) && !TopLevelKey(lines[item])
                               && forall k :: i <= k < item ==> !TopLevelKey(lines[k]) && !Matches(lines[k], want)
    decreases |lines| - i
  {
    if i < |lines| && !TopLevelKey(lines[i]) && !Matches(lines[i], want) {
      EntryIsDash(lines, want, i + 1);
    }
  }

  lemma {:induction false} EntryIsFirst(lines: Lines, want: Entry, i: nat, item: nat)
    requires i <= item < |lines| && Matches(lines[item], want)
    requires forall k :: i <= k <= item ==> !TopLevelKey(lines[k])
    requires forall k :: i <= k < item ==> !Matches(lines[k], want)
    ensures EntryFrom(lines, want, i) == item
    decreases item - i
  {
    if i < item {
      EntryIsFirst(lines, want, i + 1, item);
    }
  }

  lemma {:induction false} SectionIsFirst(lines: Lines, section: string, i: nat)
    requires i <= |lines|
    ensures var s := SectionFrom(lines, section, i);
            && (s < |lines| ==> OpensSection(lines[s], section))
            && forall k :: i <= k < s ==> !OpensSection(lines[k], section)
    decreases |lines| - i
  {
    if i < |lines| && !OpensSection(lines[i], section) {
      SectionIsFirst(lines, section, i + 1);
    }
  }

  lemma {:induction false} HeaderRun(lines: Lines, floor: nat, start: nat)
    requires floor <= start <= |lines|
    ensures var h := HeaderFrom(lines, floor, start);
            && (forall k :: h <= k < start ==> Header(lines[k]))
            && (h == floor || !Header(lines[h - 1]))
  {
    if start > floor && Header(lines[start - 1]) {
      HeaderRun(lines, floor, start - 1);
    }
  }

  lemma {:induction false} BlockRun(lines: Lines, indent: nat, i: nat)
    requires i <= |lines|
    ensures var n := BlockFrom(lines, indent, i);
            && (forall k :: i <= k < n ==> !Stop(lines[k], indent))
            && (n == |lines| || Stop(lines[n], indent))
    decreases |lines| - i
  {
    if i < |lines| && !Stop(lines[i], indent) {
      BlockRun(lines, indent, i + 1);
    }
  }

  /** A delete removes the first matching item with its body and the blank and comment
      lines right above it, nothing else. */
  lemma DeleteRemovesTheEntry(lines: Lines, section: string, want: Entry)
    ensures var c := CutOf(lines, section, want);
            if c.Cut? then
              var s := SectionFrom(lines, section, 0);
              IsSection(lines, section, s) && IsEntry(lines, s, want, c)
            else
              forall s, k :: IsSection(lines, section, s) ==> !IsItem(lines, s, want, k)
  {
    var s := SectionFrom(lines, section, 0);
    SectionIsFirst(lines, section, 0);
    if s < |lines| {
      if EntryFrom(lines, want, s + 1) < |lines| {
        CutIsEntry(lines, section, want);
      } else {
        NoItem(lines, s, want);
      }
    }
  }

  lemma CutIsEntry(lines: Lines, section: string, want: Entry)
    requires CutOf(lines, section, want).Cut?
    ensures IsEntry(lines, SectionFrom(lines, section, 0), want, CutOf(lines, section, want))
  {
    var s := SectionFrom(lines, section, 0);
    EntryIsDash(lines, want, s + 1);
    var item := EntryFrom(lines, want, s + 1);
    HeadAndBody(lines, s, item, lines[item].indent, BlockFrom(lines, lines[item].indent, item + 1));
  }

  lemma HeadAndBody(lines: Lines, s: nat, item: nat, indent: nat, next: nat)
    requires s < item < |lines| && lines[item].Dash? && lines[item].indent == indent
    requires next == BlockFrom(lines, indent, item + 1)
    ensures IsHead(lines, s, item, HeaderFrom(lines, s + 1, item))
    ensures IsBody(lines, item, HeaderFrom(lines, item + 1, next), next)
  {
    HeaderRun(lines, s + 1, item);
    BlockRun(lines, indent, item + 1);
    HeaderRun(lines, item + 1, next);
  }

  lemma NoItem(lines: Lines, s: nat, want: Entry)
    requires s < |lines| && EntryFrom(lines, want, s + 1) == |lines|
    ensures forall k :: !IsItem(lines, s, want, k)
  {
    forall k | IsItem(lines, s, want, k) ensures false {
      EntryIsFirst(lines, want, s + 1, k);
    }
  }

  /** The entry of a name is unique. */
  lemma EntryIsUnique(lines: Lines, s: nat, want: Entry, c: Cut, d: Cut)
    requires IsEntry(lines, s, want, c) && IsEntry(lines, s, want, d)
    ensures c == d
  {
  }

  /** Finding an entry by its description is enough to know what a delete does. */
  lemma DeleteOf(lines: Lines, section: string, s: nat, want: Entry, c: Cut)
    requires IsSection(lines, section, s) && IsEntry(lines, s, want, c)
    ensures CutOf(lines, section, want) == c && Delete(lines, section, want) == (true, lines[..c.head] + lines[c.end..])
  {
    DeleteRemovesTheEntry(lines, section, want);
    EntryIsUnique(lines, s, want, c, CutOf(lines, section, want));
  }

  // ---- Entries do not overlap ------------------------------------------------------------------

  /** Entries of one list are disjoint and in file order; an entry ends where the header
      of the sibling after it starts. */
  lemma EntriesAreDisjoint(lines: Lines, s: nat, a: Entry, b: Entry, c: Cut, d: Cut)
    requires IsEntry(lines, s, a, c) && IsEntry(lines, s, b, d) && c.item < d.item
    requires lines[c.item].indent == lines[d.item].indent
    ensures c.end <= d.head && c.next <= d.item
    ensures c.next == d.item ==> c.end == d.head
    ensures c.next < d.item ==> c.next < d.head
  {
  }

  // ---- Deleting two entries --------------------------------------------------------------------

  /** `rest` is `lines` without the lines from i to j. */
  ghost predicate Spliced(lines: Lines, rest: Lines, i: nat, j: nat) {
    i <= j <= |lines| && |rest| == |lines| - (j - i)
    && (forall k :: 0 <= k < i ==> rest[k] == lines[k])
    && (forall k :: i <= k < |rest| ==> rest[k] == lines[k + (j - i)])
  }

  lemma SpliceIs(lines: Lines, i: nat, j: nat)
    requires i <= j <= |lines|
    ensures Spliced(lines, lines[..i] + lines[j..], i, j)
  {
  }

  /** The same cut, so many lines further up. */
  function Up(d: Cut, gap: nat): Cut
    requires d.Cut? && gap <= d.head <= d.item <= d.end <= d.next
  {
    Cut(d.head - gap, d.item - gap, d.end - gap, d.next - gap)
  }

  lemma ItemMovesUp(lines: Lines, rest: Lines, section: string, s: nat, b: Entry, i: nat, j: nat, item: nat)
    requires Spliced(lines, rest, i, j) && IsSection(lines, section, s)
    requires s < i && j <= item && IsItem(lines, s, b, item)
    ensures IsSection(rest, section, s) && IsItem(rest, s, b, item - (j - i))
  {
    assert rest[item - (j - i)] == lines[item];
  }

  lemma HeadMovesUp(lines: Lines, rest: Lines, s: nat, i: nat, j: nat, item: nat, head: nat)
    requires Spliced(lines, rest, i, j) && s < i && j <= head <= item < |lines| && IsHead(lines, s, item, head)
    requires head == j ==> i == s + 1 || !Header(lines[i - 1])
    ensures IsHead(rest, s, item - (j - i), head - (j - i))
  {
  }

  lemma BodyMovesUp(lines: Lines, rest: Lines, i: nat, j: nat, item: nat, end: nat, next: nat)
    requires Spliced(lines, rest, i, j) && j <= item < |lines| && lines[item].Dash? && IsBody(lines, item, end, next)
    ensures rest[item - (j - i)].Dash? && IsBody(rest, item - (j - i), end - (j - i), next - (j - i))
  {
    assert rest[item - (j - i)] == lines[item];
    assert next < |lines| ==> rest[next - (j - i)] == lines[next];
    assert end > item + 1 ==> rest[end - 1 - (j - i)] == lines[end - 1];
  }

  /** After the earlier entry is gone, the later one has only moved up. */
  lemma EarlierGone(lines: Lines, rest: Lines, section: string, s: nat, a: Entry, b: Entry, c: Cut, d: Cut)
    requires c.Cut? && Spliced(lines, rest, c.head, c.end)
    requires IsSection(lines, section, s) && IsEntry(lines, s, a, c) && IsEntry(lines, s, b, d) && c.item < d.item
    requires lines[c.item].indent == lines[d.item].indent
    ensures var gap := c.end - c.head;
            && c.end <= d.head && IsSection(rest, section, s)
            && IsEntry(rest, s, b, Up(d, gap))
  {
    EntriesAreDisjoint(lines, s, a, b, c, d);
    MovesUp(lines, rest, section, s, b, c.head, c.end, d);
  }

  lemma MovesUp(lines: Lines, rest: Lines, section: string, s: nat, b: Entry, i: nat, j: nat, d: Cut)
    requires Spliced(lines, rest, i, j) && IsSection(lines, section, s) && IsEntry(lines, s, b, d)
    requires s < i && j <= d.head && (d.head == j ==> i == s + 1 || !Header(lines[i - 1]))
    ensures IsSection(rest, section, s) && IsEntry(rest, s, b, Up(d, j - i))
  {
    ItemMovesUp(lines, rest, section, s, b, i, j, d.item);
    HeadMovesUp(lines, rest, s, i, j, d.item, d.head);
    BodyMovesUp(lines, rest, i, j, d.item, d.end, d.next);
  }

  /** After the later entry is gone, the earlier one stands as before; only what follows
      it may be another sibling. */
  lemma LaterGone(lines: Lines, section: string, s: nat, a: Entry, b: Entry, c: Cut, d: Cut)
    requires IsSection(lines, section, s) && IsEntry(lines, s, a, c) && IsEntry(lines, s, b, d) && c.item < d.item
    requires lines[c.item].indent == lines[d.item].indent
    ensures var rest := lines[..d.head] + lines[d.end..];
            var next := if c.next == d.item then d.next - (d.end - d.head) else c.next;
            && IsSection(rest, section, s)
            && IsEntry(rest, s, a, Cut(c.head, c.item, c.end, next))
  {
    EntriesAreDisjoint(lines, s, a, b, c, d);
    var rest := lines[..d.head] + lines[d.end..];
    SpliceIs(lines, d.head, d.end);
    ItemStays(lines, rest, section, s, a, d.head, d.end, c);
    if c.next == d.item {
      BodyMeetsNext(lines, rest, c, d);
    } else {
      BodyStays(lines, rest, d.head, d.end, c);
    }
  }

  lemma ItemStays(lines: Lines, rest: Lines, section: string, s: nat, a: Entry, i: nat, j: nat, c: Cut)
    requires Spliced(lines, rest, i, j) && IsSection(lines, section, s) && IsEntry(lines, s, a, c) && c.end <= i
    ensures IsSection(rest, section, s) && IsItem(rest, s, a, c.item) && IsHead(rest, s, c.item, c.head)
  {
  }

  /** The item is followed by another sibling, further up than its own end. */
  lemma BodyStays(lines: Lines, rest: Lines, i: nat, j: nat, c: Cut)
    requires Spliced(lines, rest, i, j) && c.Cut? && c.item < |lines| && lines[c.item].Dash?
    requires IsBody(lines, c.item, c.end, c.next) && c.next < i
    ensures rest[c.item].Dash? && IsBody(rest, c.item, c.end, c.next)
  {
    assert rest[c.next] == lines[c.next];
  }

  /** The item was followed by the sibling that is gone, and now by what followed that. */
  lemma BodyMeetsNext(lines: Lines, rest: Lines, c: Cut, d: Cut)
    requires c.Cut? && d.Cut? && Spliced(lines, rest, d.head, d.end)
    requires c.item < d.item < |lines| && lines[c.item].Dash? && lines[d.item].Dash?
    requires lines[c.item].indent == lines[d.item].indent
    requires IsBody(lines, c.item, c.end, c.next) && IsBody(lines, d.item, d.end, d.next)
    requires c.next == d.item && c.end == d.head
    ensures rest[c.item].Dash? && IsBody(rest, c.item, c.end, d.next - (d.end - d.head))
  {
    var next := d.next - (d.end - d.head);
    assert next < |rest| ==> rest[next] == lines[d.next];
    assert forall k :: c.end <= k < next ==> Header(rest[k]);
  }

  /** Deletes of two different entries of one list commute. */
  lemma DeletesCommute(lines: Lines, section: string, a: Entry, b: Entry)
    requires var c, d := CutOf(lines, section, a), CutOf(lines, section, b);
             c.Cut? && d.Cut? && lines[c.item].indent == lines[d.item].indent
    requires a != b
    ensures Delete(Delete(lines, section, a).1, section, b) == Delete(Delete(lines, section, b).1, section, a)
    ensures Delete(Delete(lines, section, a).1, section, b).0
  {
    var s := SectionFrom(lines, section, 0);
    DeleteRemovesTheEntry(lines, section, a);
    DeleteRemovesTheEntry(lines, section, b);
    assert CutOf(lines, section, a).item != CutOf(lines, section, b).item;
    if CutOf(lines, section, a).item < CutOf(lines, section, b).item {
      DeletesInOrder(lines, section, s, a, b);
    } else {
      DeletesInOrder(lines, section, s, b, a);
    }
  }

  lemma DeletesInOrder(lines: Lines, section: string, s: nat, a: Entry, b: Entry)
    requires var c, d := CutOf(lines, section, a), CutOf(lines, section, b);
             && IsSection(lines, section, s) && IsEntry(lines, s, a, c) && IsEntry(lines, s, b, d)
             && c.item < d.item && lines[c.item].indent == lines[d.item].indent
    ensures var c, d := CutOf(lines, section, a), CutOf(lines, section, b);
            && c.end <= d.head
            && Delete(Delete(lines, section, a).1, section, b)
               == (true, lines[..c.head] + lines[c.end..d.head] + lines[d.end..])
            && Delete(Delete(lines, section, b).1, section, a)
               == (true, lines[..c.head] + lines[c.end..d.head] + lines[d.end..])
  {
    EarlierFirst(lines, section, s, a, b, CutOf(lines, section, a), CutOf(lines, section, b));
    LaterThenEarlier(lines, section, s, a, b, CutOf(lines, section, a), CutOf(lines, section, b));
  }

  lemma EarlierFirst(lines: Lines, section: string, s: nat, a: Entry, b: Entry, c: Cut, d: Cut)
    requires IsSection(lines, section, s) && IsEntry(lines, s, a, c) && IsEntry(lines, s, b, d)
    requires c.item < d.item && lines[c.item].indent == lines[d.item].indent
    ensures c.end <= d.head
    ensures Delete(lines[..c.head] + lines[c.end..], section, b)
         == (true, lines[..c.head] + lines[c.end..d.head] + lines[d.end..])
  {
    var rest := lines[..c.head] + lines[c.end..];
    SpliceIs(lines, c.head, c.end);
    EarlierThenLater(lines, rest, section, s, a, b, c, d);
    SecondSplice(lines, rest, section, b, c, d);
  }

  lemma SecondSplice(lines: Lines, rest: Lines, section: string, b: Entry, c: Cut, d: Cut)
    requires c.Cut? && d.Cut? && c.head <= c.end <= d.head <= d.end <= |lines|
    requires rest == lines[..c.head] + lines[c.end..]
    requires d.head <= d.item <= d.end <= d.next
    requires var e := Up(d, c.end - c.head); Delete(rest, section, b) == (true, rest[..e.head] + rest[e.end..])
    ensures Delete(rest, section, b) == (true, lines[..c.head] + lines[c.end..d.head] + lines[d.end..])
  {
    TwoSplices(lines, c.head, c.end, d.head, d.end);
  }

  lemma EarlierThenLater(lines: Lines, rest: Lines, section: string, s: nat, a: Entry, b: Entry, c: Cut, d: Cut)
    requires c.Cut? && Spliced(lines, rest, c.head, c.end)
    requires IsSection(lines, section, s) && IsEntry(lines, s, a, c) && IsEntry(lines, s, b, d)
    requires c.item < d.item && lines[c.item].indent == lines[d.item].indent
    ensures c.end <= d.head <= d.item <= d.end <= d.next && d.end <= |lines|
    ensures var e := Up(d, c.end - c.head);
            e.head <= e.end <= |rest| && Delete(rest, section, b) == (true, rest[..e.head] + rest[e.end..])
  {
    EarlierGone(lines, rest, section, s, a, b, c, d);
    DeleteOf(rest, section, s, b, Up(d, c.end - c.head));
  }

  lemma LaterThenEarlier(lines: Lines, section: string, s: nat, a: Entry, b: Entry, c: Cut, d: Cut)
    requires IsSection(lines, section, s) && IsEntry(lines, s, a, c) && IsEntry(lines, s, b, d)
    requires c.item < d.item && lines[c.item].indent == lines[d.item].indent
    ensures c.end <= d.head
    ensures Delete(lines[..d.head] + lines[d.end..], section, a)
         == (true, lines[..c.head] + lines[c.end..d.head] + lines[d.end..])
  {
    EntriesAreDisjoint(lines, s, a, b, c, d);
    LaterGone(lines, section, s, a, b, c, d);
    var rest := lines[..d.head] + lines[d.end..];
    var next := if c.next == d.item then d.next - (d.end - d.head) else c.next;
    DeleteOf(rest, section, s, a, Cut(c.head, c.item, c.end, next));
    TwoSplices(lines, c.head, c.end, d.head, d.end);
  }

  lemma TwoSplices(lines: Lines, i: nat, j: nat, k: nat, l: nat)
    requires i <= j <= k <= l <= |lines|
    ensures var once := lines[..i] + lines[j..];
            once[..k - (j - i)] + once[l - (j - i)..] == lines[..i] + lines[j..k] + lines[l..]
    ensures var once := lines[..k] + lines[l..];
            once[..i] + once[j..] == lines[..i] + lines[j..k] + lines[l..]
  {
  }

  /** Another entry of that name further down the section. */
  ghost predicate AnotherMatch(lines: Lines, s: nat, want: Entry, from: nat) {
    exists k :: from <= k < |lines| && Matches(lines[k], want) && forall j :: s < j <= k ==> !TopLevelKey(lines[j])
  }

  /** A second delete does something exactly when the section holds that name again. */
  lemma SecondDelete(lines: Lines, section: string, want: Entry)
    requires CutOf(lines, section, want).Cut?
    ensures Delete(Delete(lines, section, want).1, section, want).0
       <==> AnotherMatch(lines, SectionFrom(lines, section, 0), want, CutOf(lines, section, want).end)
  {
    var s, c := SectionFrom(lines, section, 0), CutOf(lines, section, want);
    DeleteRemovesTheEntry(lines, section, want);
    var rest := lines[..c.head] + lines[c.end..];
    SpliceIs(lines, c.head, c.end);
    DeleteRemovesTheEntry(rest, section, want);
    SectionStays(lines, rest, section, s, c.head, c.end);
    if Delete(rest, section, want).0 {
      LeftOver(lines, rest, s, want, c, CutOf(rest, section, want).item);
    } else if AnotherMatch(lines, s, want, c.end) {
      var m := StillThere(lines, rest, s, want, c);
    }
  }

  lemma SectionStays(lines: Lines, rest: Lines, section: string, s: nat, i: nat, j: nat)
    requires Spliced(lines, rest, i, j) && IsSection(lines, section, s) && s < i
    ensures IsSection(rest, section, s) && SectionFrom(rest, section, 0) == s
  {
    SectionIsFirst(rest, section, 0);
  }

  lemma LeftOver(lines: Lines, rest: Lines, s: nat, want: Entry, c: Cut, item: nat)
    requires IsEntry(lines, s, want, c) && Spliced(lines, rest, c.head, c.end) && IsItem(rest, s, want, item)
    ensures AnotherMatch(lines, s, want, c.end)
  {
    var k := item + (c.end - c.head);
    assert item >= c.head;
    assert Matches(lines[k], want);
    forall j | s < j <= k ensures !TopLevelKey(lines[j]) {
      assert j >= c.end ==> rest[j - (c.end - c.head)] == lines[j];
    }
  }

  lemma StillThere(lines: Lines, rest: Lines, s: nat, want: Entry, c: Cut) returns (m: nat)
    requires IsEntry(lines, s, want, c) && Spliced(lines, rest, c.head, c.end) && AnotherMatch(lines, s, want, c.end)
    ensures IsItem(rest, s, want, m)
  {
    var k :| c.end <= k < |lines| && Matches(lines[k], want) && forall j :: s < j <= k ==> !TopLevelKey(lines[j]);
    var k' := k - (c.end - c.head);
    assert rest[k'] == lines[k];
    m := FirstMatch(rest, want, s + 1, k');
  }

  lemma {:induction false} FirstMatch(lines: Lines, want: Entry, from: nat, k: nat) returns (m: nat)
    requires from <= k < |lines| && Matches(lines[k], want)
    ensures from <= m <= k && Matches(lines[m], want) && forall j :: from <= j < m ==> !Matches(lines[j], want)
    decreases k - from
  {
    if Matches(lines[from], want) {
      m := from;
    } else {
      m := FirstMatch(lines, want, from + 1, k);
    }
  }

  // ---- Whose lines are removed -----------------------------------------------------------------

  /** A content line that is not part of the item's block in the sense of YAML. */
  predicate Outdented(line: Line, indent: nat) { !Header(line) && line.indent <= indent }

  /** The first content line after the item that is not deeper than it, if there is one,
      is a sibling or a top-level key. */
  ghost predicate EndsInItsList(lines: Lines, item: nat)
    requires item < |lines| && !Header(lines[item])
  {
    forall k :: item < k < |lines| && Outdented(lines[k], lines[item].indent)
                && (forall j :: item < j < k ==> !Outdented(lines[j], lines[item].indent))
                ==> Stop(lines[k], lines[item].indent)
  }

  /** Below its item a delete removes only deeper lines, blanks and comments exactly when
      the list the item stands in is left at a sibling or at a top-level key. */
  lemma BelowItsItem(lines: Lines, section: string, want: Entry)
    requires CutOf(lines, section, want).Cut?
    ensures var c := CutOf(lines, section, want);
            && !Header(lines[c.item])
            && ((forall k :: c.item < k < c.end ==> !Outdented(lines[k], lines[c.item].indent))
                <==> EndsInItsList(lines, c.item))
  {
    DeleteRemovesTheEntry(lines, section, want);
    BodyIsDeeper(lines, CutOf(lines, section, want));
  }

  lemma BodyIsDeeper(lines: Lines, c: Cut)
    requires c.Cut? && c.item < |lines| && lines[c.item].Dash? && IsBody(lines, c.item, c.end, c.next)
    ensures (forall k :: c.item < k < c.end ==> !Outdented(lines[k], lines[c.item].indent))
       <==> EndsInItsList(lines, c.item)
  {
    if EndsInItsList(lines, c.item) {
      if k :| c.item < k < |lines| && Outdented(lines[k], lines[c.item].indent) {
        FirstIsBeyond(lines, c, k);
      }
    } else {
      var k :| c.item < k < |lines| && Outdented(lines[k], lines[c.item].indent)
               && !Stop(lines[k], lines[c.item].indent)
               && forall j :: c.item < j < k ==> !Outdented(lines[j], lines[c.item].indent);
      LeavesInside(lines, c, k);
    }
  }

  lemma FirstIsBeyond(lines: Lines, c: Cut, k: nat)
    requires c.Cut? && c.item < |lines| && lines[c.item].Dash? && IsBody(lines, c.item, c.end, c.next)
    requires EndsInItsList(lines, c.item) && c.item < k < |lines| && Outdented(lines[k], lines[c.item].indent)
    ensures forall j :: c.item < j < c.end ==> !Outdented(lines[j], lines[c.item].indent)
  {
    var m := FirstOutdented(lines, lines[c.item].indent, c.item + 1, k);
    assert Stop(lines[m], lines[c.item].indent) by {
      FirstIsStop(lines, c.item, m);
    }
    assert m >= c.next;
  }

  lemma FirstIsStop(lines: Lines, item: nat, m: nat)
    requires item < m < |lines| && !Header(lines[item]) && EndsInItsList(lines, item)
    requires Outdented(lines[m], lines[item].indent)
    requires forall j :: item < j < m ==> !Outdented(lines[j], lines[item].indent)
    ensures Stop(lines[m], lines[item].indent)
  {
  }

  lemma LeavesInside(lines: Lines, c: Cut, k: nat)
    requires c.Cut? && c.item < |lines| && lines[c.item].Dash? && IsBody(lines, c.item, c.end, c.next)
    requires c.item < k < |lines| && Outdented(lines[k], lines[c.item].indent) && !Stop(lines[k], lines[c.item].indent)
    requires forall j :: c.item < j < k ==> !Outdented(lines[j], lines[c.item].indent)
    ensures k < c.end
  {
  }

  lemma {:induction false} FirstOutdented(lines: Lines, indent: nat, from: nat, k: nat) returns (m: nat)
    requires from <= k < |lines| && Outdented(lines[k], indent)
    ensures from <= m <= k && Outdented(lines[m], indent) && forall j :: from <= j < m ==> !Outdented(lines[j], indent)
    decreases k - from
  {
    if Outdented(lines[from], indent) {
      m := from;
    } else {
      m := FirstOutdented(lines, indent, from + 1, k);
    }
  }

  // ---- The other entries stay -----------------------------------------------------------------

  /** The section that opens at s holds a list whose first item is line f. */
  ghost predicate HoldsList(lines: Lines, s: nat, f: nat) {
    s < f < |lines| && lines[f].Dash? && lines[f].indent > 0 && forall k :: s < k < f ==> Header(lines[k])
  }

  /** Line j is an item of that list. */
  ghost predicate OwnItem(lines: Lines, s: nat, f: nat, j: nat) {
    && HoldsList(lines, s, f) && f <= j < |lines| && SiblingMarker(lines[j], lines[f].indent)
    && forall k :: s < k <= j ==> !TopLevelKey(lines[k])
  }

  /** A comment deeper than the list's column, such as a commented-out option: it belongs
      to the entry above it. */
  predicate Deeper(line: Line, indent: nat) { line.Comment? && line.indent > indent }

  /** The lines from `top` to `bottom` belong to the entry of an item; `next` is the next
      item, top-level key or end of the file. */
  datatype Owned = Owned(top: nat, item: nat, bottom: nat, next: nat)

  /** The blank and comment lines above an item belong to it, except those that the entry
      above it has: `floor` is the first line behind the section's own, `first` says that
      no entry is above. */
  ghost predicate IsTop(lines: Lines, floor: nat, indent: nat, first: bool, item: nat, top: nat)
    requires item < |lines|
  {
    && floor <= top <= item
    && (forall k :: top <= k < item ==> Header(lines[k]) && (first || !Deeper(lines[k], indent)))
    && (top == floor || !Header(lines[top - 1]) || (!first && Deeper(lines[top - 1], indent)))
  }

  /** An entry has the lines below its item up to the last content line or deeper comment
      before `next`. */
  ghost predicate IsBottom(lines: Lines, indent: nat, item: nat, bottom: nat, next: nat) {
    && item < bottom <= next <= |lines|
    && (forall k :: item < k < next ==> !Stop(lines[k], indent))
    && (next == |lines| || Stop(lines[next], indent))
    && (forall k :: bottom <= k < next ==> Header(lines[k]) && !Deeper(lines[k], indent))
    && (bottom == item + 1 || !Header(lines[bottom - 1]) || Deeper(lines[bottom - 1], indent))
  }

  /** The lines of an entry of the section's own list, whatever its name. */
  ghost predicate OwnEntry(lines: Lines, s: nat, f: nat, d: Owned) {
    && OwnItem(lines, s, f, d.item)
    && IsTop(lines, s + 1, lines[f].indent, d.item == f, d.item, d.top)
    && IsBottom(lines, lines[f].indent, d.item, d.bottom, d.next)
  }

  /** The entries share out the lines of the list: each starts where the one before ends. */
  lemma OwnersAbut(lines: Lines, s: nat, f: nat, d: Owned, e: Owned)
    requires OwnEntry(lines, s, f, d) && OwnEntry(lines, s, f, e) && d.item < e.item
    ensures d.next <= e.item && (d.next == e.item ==> d.bottom == e.top)
    ensures d.bottom <= e.top
  {
    assert Stop(lines[e.item], lines[f].indent);
    assert d.item < e.top;
  }

  /** No line of d is removed by c. */
  predicate Untouched(c: Cut, d: Owned)
    requires c.Cut?
  {
    d.bottom <= c.head || c.end <= d.top
  }

  /** An untouched entry stands whole in the result. */
  lemma UntouchedStays(lines: Lines, section: string, want: Entry, d: Owned)
    requires CutOf(lines, section, want).Cut? && d.top <= d.bottom <= |lines|
    requires Untouched(CutOf(lines, section, want), d)
    ensures var c, rest := CutOf(lines, section, want), Delete(lines, section, want).1;
            var at := if d.bottom <= c.head then d.top else d.top - (c.end - c.head);
            && 0 <= at && at + (d.bottom - d.top) <= |rest|
            && rest[at..at + (d.bottom - d.top)] == lines[d.top..d.bottom]
  {
    var c := CutOf(lines, section, want);
    if d.bottom <= c.head {
      SliceBefore(lines, c.head, c.end, d.top, d.bottom);
    } else {
      SliceAfter(lines, c.head, c.end, d.top, d.bottom);
    }
  }

  lemma SliceBefore(lines: Lines, i: nat, j: nat, k: nat, l: nat)
    requires k <= l <= i <= j <= |lines|
    ensures (lines[..i] + lines[j..])[k..l] == lines[k..l]
  {
  }

  lemma SliceAfter(lines: Lines, i: nat, j: nat, k: nat, l: nat)
    requires i <= j <= k <= l <= |lines|
    ensures |lines[..i] + lines[j..]| == |lines| - (j - i)
    ensures (lines[..i] + lines[j..])[k - (j - i)..k - (j - i) + (l - k)] == lines[k..l]
  {
    var front, back := lines[..i], lines[j..];
    SliceOfBack(front, back, k - j, l - j);
    assert back[k - j..l - j] == lines[k..l];
  }

  lemma SliceOfBack(front: Lines, back: Lines, k: nat, l: nat)
    requires k <= l <= |back|
    ensures (front + back)[|front| + k..|front| + l] == back[k..l]
  {
  }

  lemma {:induction false} TopOf(lines: Lines, floor: nat, indent: nat, first: bool, item: nat, from: nat)
    returns (top: nat)
    requires floor <= from <= item < |lines|
    requires forall k :: from <= k < item ==> Header(lines[k]) && (first || !Deeper(lines[k], indent))
    ensures IsTop(lines, floor, indent, first, item, top)
  {
    if from == floor || !Header(lines[from - 1]) || (!first && Deeper(lines[from - 1], indent)) {
      top := from;
    } else {
      top := TopOf(lines, floor, indent, first, item, from - 1);
    }
  }

  lemma {:induction false} BottomOf(lines: Lines, indent: nat, item: nat, next: nat, from: nat) returns (bottom: nat)
    requires item < from <= next <= |lines|
    requires forall k :: item < k < next ==> !Stop(lines[k], indent)
    requires next == |lines| || Stop(lines[next], indent)
    requires forall k :: from <= k < next ==> Header(lines[k]) && !Deeper(lines[k], indent)
    ensures IsBottom(lines, indent, item, bottom, next)
  {
    if from == item + 1 || !Header(lines[from - 1]) || Deeper(lines[from - 1], indent) {
      bottom := from;
    } else {
      bottom := BottomOf(lines, indent, item, next, from - 1);
    }
  }

  /** Every item of the list has its lines. */
  lemma EntryAround(lines: Lines, s: nat, f: nat, j: nat) returns (d: Owned)
    requires OwnItem(lines, s, f, j)
    ensures OwnEntry(lines, s, f, d) && d.item == j
  {
    var indent := lines[f].indent;
    BlockRun(lines, indent, j + 1);
    var next := BlockFrom(lines, indent, j + 1);
    var top := TopOf(lines, s + 1, indent, j == f, j, j);
    var bottom := BottomOf(lines, indent, j, next, next);
    d := Owned(top, j, bottom, next);
  }

  /** The last item of the list at or before line i. */
  lemma {:induction false} ItemBefore(lines: Lines, indent: nat, f: nat, i: nat) returns (j: nat)
    requires f <= i < |lines| && SiblingMarker(lines[f], indent)
    ensures f <= j <= i && SiblingMarker(lines[j], indent)
    ensures forall k :: j < k <= i ==> !SiblingMarker(lines[k], indent)
  {
    if SiblingMarker(lines[i], indent) {
      j := i;
    } else {
      j := ItemBefore(lines, indent, f, i - 1);
    }
  }

  /** Below the first item every content line and every deeper comment has an owner. */
  lemma LineHasOwner(lines: Lines, s: nat, f: nat, i: nat) returns (d: Owned)
    requires HoldsList(lines, s, f) && f <= i < |lines| && (!Header(lines[i]) || Deeper(lines[i], lines[f].indent))
    requires forall k :: s < k <= i ==> !TopLevelKey(lines[k])
    ensures OwnEntry(lines, s, f, d) && d.item <= i < d.bottom
    ensures SiblingMarker(lines[i], lines[f].indent) ==> d.item == i
  {
    var j := ItemBefore(lines, lines[f].indent, f, i);
    d := EntryAround(lines, s, f, j);
  }

  /** No comment right above the item belongs to an entry before it. */
  predicate HeadIsOwn(lines: Lines, f: nat, c: Cut)
    requires c.Cut? && f < |lines| && lines[f].Dash? && c.item <= |lines|
  {
    c.item == f || forall k :: c.head <= k < c.item ==> !Deeper(lines[k], lines[f].indent)
  }

  /** What the delete promises about its neighbours: every other entry of the section's own
      list keeps its lines. It does so exactly when the first match stands at the list's own
      indentation and the comments right above it are not deeper than that (unless it is
      the first entry). */
  lemma OtherEntriesStay(lines: Lines, section: string, want: Entry, f: nat)
    requires CutOf(lines, section, want).Cut? && HoldsList(lines, SectionFrom(lines, section, 0), f)
    ensures var s, c := SectionFrom(lines, section, 0), CutOf(lines, section, want);
            (forall d :: OwnEntry(lines, s, f, d) && d.item != c.item ==> Untouched(c, d))
            <==> lines[c.item].indent == lines[f].indent && HeadIsOwn(lines, f, c)
  {
    var s, c := SectionFrom(lines, section, 0), CutOf(lines, section, want);
    DeleteRemovesTheEntry(lines, section, want);
    assert f <= c.item;
    if lines[c.item].indent != lines[f].indent {
      var d := LineHasOwner(lines, s, f, c.item);
      assert !Untouched(c, d);
    } else if !HeadIsOwn(lines, f, c) {
      var k :| c.head <= k < c.item && Deeper(lines[k], lines[f].indent);
      assert f < c.head;
      var d := LineHasOwner(lines, s, f, k);
      assert !Untouched(c, d);
    } else {
      forall d | OwnEntry(lines, s, f, d) && d.item != c.item ensures Untouched(c, d) {
        NeighbourStays(lines, s, f, want, c, d);
      }
    }
  }

  lemma NeighbourStays(lines: Lines, s: nat, f: nat, want: Entry, c: Cut, d: Owned)
    requires IsEntry(lines, s, want, c) && OwnEntry(lines, s, f, d) && d.item != c.item
    requires lines[c.item].indent == lines[f].indent && HeadIsOwn(lines, f, c)
    ensures Untouched(c, d)
  {
    if d.item < c.item {
      assert Stop(lines[c.item], lines[f].indent);
      assert d.item < c.head;
    } else {
      assert Stop(lines[d.item], lines[f].indent);
    }
  }

  /** Under that condition what goes is the wanted entry, from its first line to its last
      line of content; of its own lines only blanks and comments below that stay. */
  lemma TheWantedEntryGoes(lines: Lines, section: string, want: Entry, f: nat)
    requires CutOf(lines, section, want).Cut? && HoldsList(lines, SectionFrom(lines, section, 0), f)
    requires var c := CutOf(lines, section, want);
             lines[c.item].indent == lines[f].indent && HeadIsOwn(lines, f, c)
    ensures var s, c := SectionFrom(lines, section, 0), CutOf(lines, section, want);
            exists d :: OwnEntry(lines, s, f, d) && d.top == c.head && d.item == c.item && c.end <= d.bottom
                        && forall k :: c.end <= k < d.bottom ==> Header(lines[k])
  {
    var s, c := SectionFrom(lines, section, 0), CutOf(lines, section, want);
    DeleteRemovesTheEntry(lines, section, want);
    assert OwnItem(lines, s, f, c.item);
    var d := EntryAround(lines, s, f, c.item);
    assert d.top == c.head;
  }

  /** A file where the comment of the entry above, a commented-out option, goes too. */
  lemma CommentOfTheNeighbourGoes()
    ensures var head := [Text(0, "models:"), Dash(2, Named("id", "a"), ""), Text(4, "x: 1")];
            var tail := [Comment(4, "# y: 2"), Dash(2, Named("id", "b"), "")];
            && Delete(head + tail, "models", Named("id", "b")) == (true, head)
            && OwnEntry(head + tail, 0, 1, Owned(1, 1, 4, 4))
  {
    var head := [Text(0, "models:"), Dash(2, Named("id", "a"), ""), Text(4, "x: 1")];
    var lines := head + [Comment(4, "# y: 2"), Dash(2, Named("id", "b"), "")];
    assert OpensSection(lines[0], "models");
    DeleteOf(lines, "models", 0, Named("id", "b"), Cut(3, 4, 5, 5));
    assert lines[..3] + lines[5..] == head;
  }

  // Three files where the first match is nested in another entry.

  const X := Named("name", "x")
  const MODELS := [Text(0, "models:"), Dash(2, Named("name", "a"), ""), Text(4, "tags:"), Dash(6, X, "")]

  /** From the last item of the nested list the delete runs on over the next entry. */
  lemma NestedMatchTakesTheNextEntry()
    ensures Delete(MODELS + [Dash(2, Named("name", "b"), "")], "models", X) == (true, MODELS[..3])
  {
    var lines := MODELS + [Dash(2, Named("name", "b"), "")];
    assert OpensSection(lines[0], "models");
    DeleteOf(lines, "models", 0, X, Cut(3, 3, 5, 5));
    assert lines[..3] + lines[5..] == MODELS[..3];
  }

  /** From an earlier item it takes a line out of the entry around it. */
  lemma NestedMatchTakesALine()
    ensures var tail := [Dash(6, Named("name", "y"), ""), Dash(2, Named("name", "b"), "")];
            Delete(MODELS + tail, "models", X) == (true, MODELS[..3] + tail)
  {
    var tail := [Dash(6, Named("name", "y"), ""), Dash(2, Named("name", "b"), "")];
    var lines := MODELS + tail;
    assert OpensSection(lines[0], "models");
    DeleteOf(lines, "models", 0, X, Cut(3, 3, 4, 4));
    assert lines[..3] + lines[4..] == MODELS[..3] + tail;
  }

  /** And the entry that was wanted, further down, survives. */
  lemma NestedMatchLeavesTheWantedEntry()
    ensures var tail := [Dash(6, Named("name", "y"), ""), Dash(2, X, "")];
            Delete(MODELS + tail, "models", X) == (true, MODELS[..3] + tail)
  {
    var tail := [Dash(6, Named("name", "y"), ""), Dash(2, X, "")];
    var lines := MODELS + tail;
    assert OpensSection(lines[0], "models");
    DeleteOf(lines, "models", 0, X, Cut(3, 3, 4, 4));
    assert lines[..3] + lines[4..] == MODELS[..3] + tail;
  }

  /** An entry at column 0 reads as a top-level key, so it is never found. */
  lemma ColumnZeroIsNeverDeleted(lines: Lines, section: string, want: Entry)
    ensures var c := CutOf(lines, section, want); c.Cut? ==> lines[c.item].Dash? && lines[c.item].indent > 0
  {
    DeleteRemovesTheEntry(lines, section, want);
  }

  // ---- What is deleted, told from the lines alone -------------------------------------------------

  /** Neither blank nor a comment, and at the left margin. */
  predicate AtTheMargin(line: Line) { (line.Text? && line.indent == 0) || (line.Dash? && line.indent == 0) }

  /** Line k names the wanted entry, in the section that opens at line s. */
  ghost predicate Names(lines: Lines, section: string, s: nat, want: Entry, k: nat) {
    && s < k < |lines|
    && lines[s].Text? && lines[s].indent == 0 && lines[s].text == section + ":"
    && (forall j :: 0 <= j < s ==> !(lines[j].Text? && lines[j].indent == 0 && lines[j].text == section + ":"))
    && lines[k].Dash? && want.Named? && lines[k].entry.Named?
    && lines[k].entry.key == want.key && lines[k].entry.name == want.name
    && (forall j :: s < j <= k ==> !AtTheMargin(lines[j]))
  }

  /** A delete removes something exactly when a line of the section names the entry: the
      first such line, with the blank and comment lines right above it and everything below
      it up to the next dash in its column or line at the margin, less the blank and comment
      lines that end it. */
  lemma WhatIsDeleted(lines: Lines, section: string, want: Entry)
    ensures CutOf(lines, section, want).Cut? <==> exists s: nat, k: nat :: Names(lines, section, s, want, k)
    ensures var c := CutOf(lines, section, want);
            c.Cut? ==>
              && (forall s: nat, k: nat :: Names(lines, section, s, want, k) ==> s < c.head && c.item <= k)
              && (exists s: nat :: Names(lines, section, s, want, c.item))
              && (forall j :: c.head <= j < c.item ==> lines[j].Blank? || lines[j].Comment?)
              && 0 < c.head && !lines[c.head - 1].Blank? && !lines[c.head - 1].Comment?
              && (forall j :: c.end <= j < c.next ==> lines[j].Blank? || lines[j].Comment?)
              && !lines[c.end - 1].Blank? && !lines[c.end - 1].Comment?
              && (forall j :: c.item < j < c.next ==>
                    !AtTheMargin(lines[j]) && !(lines[j].Dash? && lines[j].indent == lines[c.item].indent))
              && (c.next < |lines| ==>
                    AtTheMargin(lines[c.next])
                    || (lines[c.next].Dash? && lines[c.next].indent == lines[c.item].indent))
  {
    DeleteRemovesTheEntry(lines, section, want);
    var c, s := CutOf(lines, section, want), SectionFrom(lines, section, 0);
    if c.Cut? {
      assert Names(lines, section, s, want, c.item);
    }
    forall t: nat, k: nat | Names(lines, section, t, want, k) ensures c.Cut? && t < c.head && c.item <= k {
      NamesIsItem(lines, section, t, want, k);
    }
  }

  lemma NamesIsItem(lines: Lines, section: string, s: nat, want: Entry, k: nat)
    requires Names(lines, section, s, want, k)
    ensures var c := CutOf(lines, section, want); c.Cut? && s < c.head && c.item <= k
  {
    var m := FirstMatch(lines, want, s + 1, k);
    assert IsSection(lines, section, s);
    assert IsItem(lines, s, want, m);
    DeleteRemovesTheEntry(lines, section, want);
  }
}
