/** Splitting raw output into index chunks (delegator/contextmode/chunker.go). */
module Chunker {
  import opened Sequences
  import opened Text

  datatype ChunkOpts = ChunkOpts(minChars: int, maxChars: int)
  {
    function WithDefaults(): (o: ChunkOpts)
      ensures 0 < o.minChars <= o.maxChars
      ensures 0 < minChars <= maxChars ==> o == this
      // The sizes that stand for a default, and a maximum below the minimum.
      ensures minChars <= 0 && maxChars <= 0 ==> o == ChunkOpts(256, 2048)
      ensures minChars <= 0 && 256 <= maxChars ==> o == ChunkOpts(256, maxChars)
      ensures 0 < minChars <= 2048 && maxChars <= 0 ==> o == ChunkOpts(minChars, 2048)
      ensures minChars > 0 && (0 < maxChars < minChars || (maxChars <= 0 && minChars > 2048)) ==>
                o == ChunkOpts(minChars, 2 * minChars)
      ensures minChars <= 0 && 0 < maxChars < 256 ==> o == ChunkOpts(256, 512)
    {
      var lo := if minChars <= 0 then 256 else minChars;
      var hi := if maxChars <= 0 then 2048 else maxChars;
      ChunkOpts(lo, if hi < lo then lo * 2 else hi)
    }
  }

  datatype IndexedChunk = IndexedChunk(heading: string, content: string)

  const HEADING_CAP := 120

  predicate IsStrongHeading(line: string) {
    HasPrefix(line, "## ") || HasPrefix(line, "### ") || HasPrefix(line, "==> ")
  }

  function JoinedLen(lines: seq<string>): nat
  {
    if lines == [] then 0 else JoinedLen(lines[..|lines|-1]) + |lines[|lines|-1]| + 1
  }

  lemma {:induction false} JoinedLenAppend(a: seq<string>, b: seq<string>)
    ensures JoinedLen(a + b) == JoinedLen(a) + JoinedLen(b)
  {
    if b == [] {
      assert a + b == a;
    } else {
      var b' := b[..|b|-1];
      JoinedLenAppend(a, b');
      assert (a + b)[..|a + b|-1] == a + b';
    }
  }

  // ---- pass 1 ----

  // A section never has a strong heading past its first line, and is cut as soon as it reaches the maximum.
  ghost predicate IsSection(section: seq<string>, maxChars: int) {
    && section != []
    && (forall k :: 0 < k < |section| ==> !IsStrongHeading(section[k]))
    && JoinedLen(section[..|section|-1]) < maxChars
  }

  predicate IsFull(section: seq<string>, maxChars: int) {
    JoinedLen(section) >= maxChars
  }

  // Sections end only where they are full or the next one opens with a strong heading.
  ghost predicate WellCut(sections: seq<seq<string>>, maxChars: int) {
    && (forall i :: 0 <= i < |sections| ==> IsSection(sections[i], maxChars))
    && (forall i :: 0 < i < |sections| ==> IsFull(sections[i-1], maxChars) || IsStrongHeading(sections[i][0]))
  }

  ghost predicate IsSectioning(lines: seq<string>, maxChars: int, sections: seq<seq<string>>) {
    Flatten(sections) == lines && WellCut(sections, maxChars)
  }

  // A section may follow those before it.
  ghost predicate Follows(sections: seq<seq<string>>, cur: seq<string>, maxChars: int) {
    sections != [] ==> IsFull(sections[|sections|-1], maxChars) || (cur != [] && IsStrongHeading(cur[0]))
  }

  // The section being filled is still short.
  ghost predicate IsOpen(cur: seq<string>, maxChars: int) {
    JoinedLen(cur) < maxChars && forall k :: 0 < k < |cur| ==> !IsStrongHeading(cur[k])
  }

  // The loop's state once the given lines have been read.
  ghost predicate Cutting(read: seq<string>, sections: seq<seq<string>>, cur: seq<string>, maxChars: int) {
    && WellCut(sections, maxChars) && Flatten(sections) + cur == read
    && IsOpen(cur, maxChars) && Follows(sections, cur, maxChars)
  }

  method SplitSections(lines: seq<string>, maxChars: int) returns (sections: seq<seq<string>>)
    requires maxChars > 0
    ensures IsSectioning(lines, maxChars, sections)
  {
    sections := [];
    var cur: seq<string> := [];
    var curLen := 0;
    for i := 0 to |lines|
      invariant curLen == JoinedLen(cur) && Cutting(lines[..i], sections, cur, maxChars)
    {
      ghost var read := lines[..i];
      assert lines[..i+1] == read + [lines[i]];
      sections, cur, curLen := TakeLine(read, sections, cur, curLen, lines[i], maxChars);
    }
    assert lines[..|lines|] == lines;
    if |cur| > 0 {
      Flushed(lines, sections, cur, maxChars);
      sections := sections + [cur];
    }
  }

  method TakeLine(ghost read: seq<string>, sections: seq<seq<string>>, cur: seq<string>, curLen: nat,
          line: string, maxChars: int)
    returns (sections': seq<seq<string>>, cur': seq<string>, curLen': nat)
    requires maxChars > 0 && curLen == JoinedLen(cur) && Cutting(read, sections, cur, maxChars)
    ensures curLen' == JoinedLen(cur') && Cutting(read + [line], sections', cur', maxChars)
  {
    sections', cur', curLen' := sections, cur, curLen;
    if IsStrongHeading(line) && |cur| > 0 {
      HeadingFlushes(read, sections, cur, line, maxChars);
      sections', cur', curLen' := sections + [cur], [], 0;
    }
    assert [] + [line] == [line];
    LineAppended(read, sections', cur', line, maxChars);
    cur' := cur' + [line];
    curLen' := curLen' + |line| + 1;
    if curLen' >= maxChars {
      sections', cur', curLen' := sections' + [cur'], [], 0;
    }
  }

  // A strong heading flushes what is open before it is appended.
  lemma {:induction false} HeadingFlushes(read: seq<string>, sections: seq<seq<string>>, cur: seq<string>,
          line: string, maxChars: int)
    requires maxChars > 0 && Cutting(read, sections, cur, maxChars) && cur != [] && IsStrongHeading(line)
    ensures WellCut(sections + [cur], maxChars) && Flatten(sections + [cur]) + [] == read
    ensures Follows(sections + [cur], [line], maxChars) && IsOpen([], maxChars)
  {
    Flushed(read, sections, cur, maxChars);
  }

  // Appending a line keeps the section open or fills it.
  lemma {:induction false} LineAppended(read: seq<string>, sections: seq<seq<string>>, cur: seq<string>,
          line: string, maxChars: int)
    requires maxChars > 0 && WellCut(sections, maxChars) && Flatten(sections) + cur == read
    requires IsOpen(cur, maxChars) && Follows(sections, cur + [line], maxChars) && (IsStrongHeading(line) ==> cur == [])
    ensures JoinedLen(cur + [line]) == JoinedLen(cur) + |line| + 1
    ensures if JoinedLen(cur + [line]) >= maxChars
            then Cutting(read + [line], sections + [cur + [line]], [], maxChars)
            else Cutting(read + [line], sections, cur + [line], maxChars)
  {
    PushLine(cur, line, maxChars);
    assert Flatten(sections) + (cur + [line]) == read + [line];
    if JoinedLen(cur + [line]) >= maxChars {
      Flushed(read + [line], sections, cur + [line], maxChars);
    }
  }

  lemma {:induction false} PushLine(cur: seq<string>, line: string, maxChars: int)
    requires IsOpen(cur, maxChars) && (IsStrongHeading(line) ==> cur == [])
    ensures IsSection(cur + [line], maxChars)
    ensures JoinedLen(cur + [line]) == JoinedLen(cur) + |line| + 1
  {
    assert (cur + [line])[..|cur|] == cur;
  }

  lemma {:induction false} Flushed(read: seq<string>, sections: seq<seq<string>>, cur: seq<string>, maxChars: int)
    requires WellCut(sections, maxChars) && Flatten(sections) + cur == read
    requires cur != [] && Follows(sections, cur, maxChars) && (IsOpen(cur, maxChars) || IsSection(cur, maxChars))
    ensures IsSectioning(read, maxChars, sections + [cur])
  {
    FlattenAppend(sections, cur);
  }

  // ---- pass 2 ----

  // A group is a run of sections that would be undersized without its last one.
  ghost predicate IsGroup(part: seq<seq<string>>, minChars: int) {
    part != [] && (|part| > 1 ==> JoinedLen(Flatten(part[..|part|-1])) < minChars)
  }

  // The groups partition the sections, and only the last may be undersized.
  ghost predicate IsGrouping(sections: seq<seq<string>>, minChars: int, parts: seq<seq<seq<string>>>) {
    && Flatten(parts) == sections
    && (forall i :: 0 <= i < |parts| ==> IsGroup(parts[i], minChars))
    && (forall i :: 0 <= i < |parts| - 1 ==> JoinedLen(Flatten(parts[i])) >= minChars)
  }

  // The lines of each group.
  ghost predicate AreFlat(parts: seq<seq<seq<string>>>, groups: seq<seq<string>>) {
    |groups| == |parts| && forall i :: 0 <= i < |groups| ==> groups[i] == Flatten(parts[i])
  }

  method MergeUndersized(sections: seq<seq<string>>, minChars: int) returns (merged: seq<seq<string>>)
    ensures exists parts :: IsGrouping(sections, minChars, parts) && AreFlat(parts, merged)
  {
    merged := [];
    ghost var parts: seq<seq<seq<string>>> := [];
    for i := 0 to |sections|
      invariant IsGrouping(sections[..i], minChars, parts) && AreFlat(parts, merged)
    {
      var section := sections[i];
      var n := |merged|;
      assert sections[..i+1] == sections[..i] + [section];
      var undersized := false;
      if n > 0 {
        var size := MeasureLines(merged[n-1]);
        undersized := size < minChars;
      }
      if undersized {
        ExtendLast(parts, section);
        merged := merged[n-1 := merged[n-1] + section];
        parts := parts[n-1 := parts[n-1] + [section]];
      } else {
        FlattenAppend(parts, [section]);
        assert Flatten([section]) == section by { FlattenAppend([], section); }
        merged := merged + [section];
        parts := parts + [[section]];
      }
    }
    assert sections[..|sections|] == sections;
  }

  lemma {:induction false} ExtendLast(parts: seq<seq<seq<string>>>, section: seq<string>)
    requires parts != []
    ensures var last := |parts| - 1;
            && Flatten(parts[last := parts[last] + [section]]) == Flatten(parts) + [section]
            && Flatten(parts[last] + [section]) == Flatten(parts[last]) + section
            && (parts[last] + [section])[..|parts[last]|] == parts[last]
  {
    var last := |parts| - 1;
    var longer := parts[last := parts[last] + [section]];
    assert longer[..last] == parts[..last];
    assert Flatten(parts[..last]) + (parts[last] + [section]) == Flatten(parts[..last]) + parts[last] + [section];
    FlattenAppend(parts[last], section);
  }

  // ---- rendering ----

  // The first line that is not blank, trimmed and cut to the cap.
  function FirstNonEmptyTrim(lines: seq<string>, maxLen: nat): string
  {
    if lines == [] then ""
    else
      var t := TrimSpace(lines[0]);
      if t == "" then FirstNonEmptyTrim(lines[1..], maxLen)
      else if |t| > maxLen then t[..maxLen] else t
  }

  // One chunk for every group with some text in it.
  function Render(groups: seq<seq<string>>): seq<IndexedChunk>
  {
    if groups == [] then []
    else
      var last := groups[|groups|-1];
      Render(groups[..|groups|-1]) +
      (if TrimSpace(Join(last)) == "" then [] else [IndexedChunk(FirstNonEmptyTrim(last, HEADING_CAP), Join(last))])
  }

  method HeadingOf(lines: seq<string>, maxLen: nat) returns (heading: string)
    ensures heading == FirstNonEmptyTrim(lines, maxLen)
  {
    for i := 0 to |lines|
      invariant FirstNonEmptyTrim(lines, maxLen) == FirstNonEmptyTrim(lines[i..], maxLen)
    {
      var t := TrimSpace(lines[i]);
      if t == "" {
        continue;
      }
      if |t| > maxLen {
        t := t[..maxLen];
      }
      return t;
    }
    return "";
  }

  // The heading of lines with text is the first of them that has some, trimmed and cut to the limit.
  lemma {:induction false} HeadingComesFromALine(lines: seq<string>, maxLen: nat) returns (k: nat)
    requires exists line :: line in lines && !AllSpace(line)
    ensures k < |lines| && !AllSpace(lines[k]) && forall i :: 0 <= i < k ==> AllSpace(lines[i])
    ensures var t := TrimSpace(lines[k]);
            t != "" && FirstNonEmptyTrim(lines, maxLen) == if |t| <= maxLen then t else t[..maxLen]
  {
    BlankIff(lines[0]);
    if AllSpace(lines[0]) {
      var rest := HeadingComesFromALine(lines[1..], maxLen);
      k := rest + 1;
      assert forall i :: 0 < i < k ==> lines[i] == lines[1..][i-1];
    } else {
      k := 0;
    }
  }

  method MeasureLines(lines: seq<string>) returns (n: nat)
    ensures n == JoinedLen(lines)
  {
    n := 0;
    for i := 0 to |lines|
      invariant n == JoinedLen(lines[..i])
    {
      assert lines[..i+1][..i] == lines[..i];
      n := n + |lines[i]| + 1;
    }
    assert lines[..|lines|] == lines;
  }

  /** How a text is cut: sections of its lines, groups of sections, and the lines of each group. */
  datatype Cut = Cut(sections: seq<seq<string>>, parts: seq<seq<seq<string>>>, groups: seq<seq<string>>)

  ghost predicate IsCut(s: string, o: ChunkOpts, cut: Cut) {
    && IsSectioning(Split(s), o.maxChars, cut.sections)
    && IsGrouping(cut.sections, o.minChars, cut.parts)
    && AreFlat(cut.parts, cut.groups)
  }

  method ChunkText(s: string, opts: ChunkOpts) returns (out: seq<IndexedChunk>)
    ensures s == "" ==> out == []
    ensures s != "" ==> exists cut :: IsCut(s, opts.WithDefaults(), cut) && out == Render(cut.groups)
  {
    var o := opts.WithDefaults();
    if s == "" {
      return [];
    }
    var sections := SplitSections(Split(s), o.maxChars);
    var merged := MergeUndersized(sections, o.minChars);
    ghost var parts :| IsGrouping(sections, o.minChars, parts) && AreFlat(parts, merged);
    out := [];
    for i := 0 to |merged|
      invariant out == Render(merged[..i])
    {
      assert merged[..i+1][..i] == merged[..i];
      var text := Join(merged[i]);
      if TrimSpace(text) == "" {
        continue;
      }
      var heading := HeadingOf(merged[i], HEADING_CAP);
      out := out + [IndexedChunk(heading, text)];
    }
    assert merged[..|merged|] == merged;
    assert IsCut(s, o, Cut(sections, parts, merged));
  }

  // ---- lossless ----

  lemma {:induction false} FlattenGroups(parts: seq<seq<seq<string>>>, groups: seq<seq<string>>)
    requires AreFlat(parts, groups)
    ensures Flatten(groups) == Flatten(Flatten(parts))
  {
    if parts == [] {
    } else {
      var front, last := parts[..|parts|-1], parts[|parts|-1];
      FlattenGroups(front, groups[..|groups|-1]);
      FlattenConcat(Flatten(front), last);
    }
  }

  function Texts(groups: seq<seq<string>>): seq<string>
  {
    if groups == [] then [] else Texts(groups[..|groups|-1]) + [Join(groups[|groups|-1])]
  }

  lemma {:induction false} JoinTexts(groups: seq<seq<string>>)
    requires groups != [] && forall i :: 0 <= i < |groups| ==> groups[i] != []
    ensures Texts(groups) != [] && Join(Texts(groups)) == Join(Flatten(groups))
    ensures Flatten(groups) != []
  {
    var front, last := groups[..|groups|-1], groups[|groups|-1];
    if front != [] {
      JoinTexts(front);
      JoinAppend(Texts(front), [Join(last)]);
      JoinAppend(Flatten(front), last);
    } else {
      assert Texts(groups) == [Join(last)] && Flatten(groups) == last;
    }
  }

  // Joining the texts of all groups, blank ones included, gives back the input.
  lemma {:induction false} ChunkingIsLossless(s: string, o: ChunkOpts, cut: Cut)
    requires IsCut(s, o, cut)
    ensures Flatten(cut.sections) == Flatten(cut.groups) == Split(s)
    ensures Join(Texts(cut.groups)) == s
  {
    FlattenGroups(cut.parts, cut.groups);
    JoinSplit(s);
    FlattenNone<string>();
    forall i | 0 <= i < |cut.groups|
      ensures cut.groups[i] != []
    {
      GroupNonEmpty(cut.sections, cut.parts, o, i);
    }
    JoinTexts(cut.groups);
  }

  lemma {:induction false} GroupNonEmpty(sections: seq<seq<string>>, parts: seq<seq<seq<string>>>, o: ChunkOpts, i: nat)
    requires WellCut(sections, o.maxChars) && IsGrouping(sections, o.minChars, parts) && i < |parts|
    ensures Flatten(parts[i]) != []
  {
    SectionsOfPart(sections, parts, i);
    assert IsGroup(parts[i], o.minChars);
    FlattenFirst(parts[i]);
    assert parts[i][0] in sections;
  }

  // The sections of a group are sections of the whole.
  lemma {:induction false} SectionsOfPart(sections: seq<seq<string>>, parts: seq<seq<seq<string>>>, i: nat)
    requires Flatten(parts) == sections && i < |parts|
    ensures forall x :: x in parts[i] ==> x in sections
    decreases |parts|
  {
    if i == |parts| - 1 {
    } else {
      SectionsOfPart(Flatten(parts[..|parts|-1]), parts[..|parts|-1], i);
    }
  }

  // What the output leaves out is exactly the groups whose text is only whitespace.
  lemma {:induction false} OnlyBlankGroupsAreDropped(groups: seq<seq<string>>, i: nat)
    requires i < |groups|
    ensures (exists c :: c in Render(groups) && c.content == Join(groups[i])) <==> !AllSpace(Join(groups[i]))
  {
    var front, last := groups[..|groups|-1], groups[|groups|-1];
    RenderedHaveText(groups);
    if !AllSpace(Join(groups[i])) {
      BlankIff(Join(groups[i]));
      if i < |groups| - 1 {
        OnlyBlankGroupsAreDropped(front, i);
        var c :| c in Render(front) && c.content == Join(front[i]);
        assert c in Render(groups);
      } else {
        assert IndexedChunk(FirstNonEmptyTrim(last, HEADING_CAP), Join(last)) in Render(groups);
      }
    }
  }

  lemma {:induction false} RenderedHaveText(groups: seq<seq<string>>)
    ensures forall c :: c in Render(groups) ==> !AllSpace(c.content)
  {
    if groups == [] {
    } else {
      RenderedHaveText(groups[..|groups|-1]);
      BlankIff(Join(groups[|groups|-1]));
    }
  }

  // ---- bounds ----

  function Longest(lines: seq<string>): nat
  {
    if lines == [] then 0
    else
      var rest := Longest(lines[..|lines|-1]);
      if |lines[|lines|-1]| > rest then |lines[|lines|-1]| else rest
  }

  lemma {:induction false} LongestBounds(lines: seq<string>, i: nat)
    requires i < |lines|
    ensures |lines[i]| <= Longest(lines)
  {
    if i == |lines| - 1 {
    } else {
      LongestBounds(lines[..|lines|-1], i);
    }
  }

  lemma {:induction false} LinesOfSection(sections: seq<seq<string>>, section: seq<string>, line: string)
    requires section in sections && line in section
    ensures line in Flatten(sections)
  {
    if section == sections[|sections|-1] {
    } else {
      LinesOfSection(sections[..|sections|-1], section, line);
    }
  }

  // A section is shorter than the maximum plus one line.
  lemma {:induction false} SectionBound(lines: seq<string>, section: seq<string>,
          sections: seq<seq<string>>, maxChars: int)
    requires IsSectioning(lines, maxChars, sections) && section in sections
    ensures JoinedLen(section) < maxChars + Longest(lines) + 1
  {
    assert IsSection(section, maxChars);
    var line := section[|section|-1];
    LinesOfSection(sections, section, line);
    var i :| 0 <= i < |lines| && lines[i] == line;
    LongestBounds(lines, i);
  }

  // Every group but the last reaches the minimum, and none exceeds minimum, maximum and one line together.
  lemma {:induction false} GroupBounds(s: string, o: ChunkOpts, cut: Cut, i: nat)
    requires IsCut(s, o, cut) && i < |cut.groups| && 0 < o.minChars
    ensures i < |cut.groups| - 1 ==> JoinedLen(cut.groups[i]) >= o.minChars
    ensures JoinedLen(cut.groups[i]) < o.minChars + o.maxChars + Longest(Split(s))
  {
    var part := cut.parts[i];
    SectionsOfPart(cut.sections, cut.parts, i);
    assert IsGroup(part, o.minChars);
    var last := part[|part|-1];
    SectionBound(Split(s), last, cut.sections, o.maxChars);
    JoinedLenAppend(Flatten(part[..|part|-1]), last);
    if |part| == 1 {
      assert Flatten(part[..0]) == [];
    }
  }

  // A line that starts like a Markdown heading or a file separator has fewer than the minimum characters before it in
  // its group.
  lemma {:induction false} HeadingsAreEarly(s: string, o: ChunkOpts, cut: Cut, i: nat, k: nat)
    requires IsCut(s, o, cut) && i < |cut.groups| && 0 < o.minChars && k < |cut.groups[i]|
    requires var line := cut.groups[i][k]; "## " <= line || "### " <= line || "==> " <= line
    ensures JoinedLen(cut.groups[i][..k]) < o.minChars
  {
    var part := cut.parts[i];
    SectionsOfPart(cut.sections, cut.parts, i);
    assert forall x :: x in part ==> IsSection(x, o.maxChars);
    var j := HeadingOpensSection(part, o.maxChars, k);
    PrefixOfPart(part, j);
    assert IsGroup(part, o.minChars);
    assert cut.groups[i][..k] == Flatten(part[..j]);
  }

  // Sections begin where the one before is full or at such a line, and hold no other such line.
  lemma {:induction false} SectionsBeginAtHeadings(s: string, o: ChunkOpts, cut: Cut, i: nat, k: nat)
    requires IsCut(s, o, cut) && i < |cut.sections| && k < |cut.sections[i]|
    ensures var line := cut.sections[i][k];
            && ("## " <= line || "### " <= line || "==> " <= line ==> k == 0)
            && (k == 0 < i ==>
                  JoinedLen(cut.sections[i-1]) >= o.maxChars
                  || "## " <= line || "### " <= line || "==> " <= line)
  {
    assert IsSection(cut.sections[i], o.maxChars);
  }

  lemma {:induction false} JoinOfSpaces(lines: seq<string>)
    requires forall line :: line in lines ==> AllSpace(line)
    ensures AllSpace(Join(lines))
  {
    if |lines| <= 1 {
    } else {
      JoinOfSpaces(lines[1..]);
      assert lines[0] in lines;
    }
  }

  // A chunk is a group with some text, under its first line with text, trimmed and cut off after 120 characters.
  lemma {:induction false} ChunkHeading(groups: seq<seq<string>>, c: IndexedChunk) returns (i: nat, k: nat)
    requires c in Render(groups)
    ensures i < |groups| && k < |groups[i]| && c.content == Join(groups[i])
    ensures !AllSpace(groups[i][k]) && forall j :: 0 <= j < k ==> AllSpace(groups[i][j])
    ensures var t := TrimSpace(groups[i][k]); c.heading == if |t| <= 120 then t else t[..120]
  {
    var front, last := groups[..|groups|-1], groups[|groups|-1];
    if c in Render(front) {
      i, k := ChunkHeading(front, c);
    } else {
      i := |groups| - 1;
      BlankIff(Join(last));
      if forall line :: line in last ==> AllSpace(line) {
        JoinOfSpaces(last);
      }
      k := HeadingComesFromALine(last, 120);
    }
  }

  // Counting lines, a strong heading inside concatenated sections is the first line of one of them.
  lemma {:induction false} HeadingOpensSection(part: seq<seq<string>>, maxChars: int, k: nat) returns (j: nat)
    requires forall x :: x in part ==> IsSection(x, maxChars)
    requires k < |Flatten(part)| && IsStrongHeading(Flatten(part)[k])
    ensures j < |part| && k == |Flatten(part[..j])| && Flatten(part)[..k] == Flatten(part[..j])
  {
    var front, last := part[..|part|-1], part[|part|-1];
    if k < |Flatten(front)| {
      j := HeadingOpensSection(front, maxChars, k);
      assert front[..j] == part[..j];
    } else {
      assert last in part && last[k - |Flatten(front)|] == Flatten(part)[k];
      j := |part| - 1;
    }
  }

  // Every proper run of a group's sections from its start is undersized.
  lemma {:induction false} PrefixOfPart(part: seq<seq<string>>, j: nat)
    requires j < |part|
    ensures JoinedLen(Flatten(part[..j])) <= JoinedLen(Flatten(part[..|part|-1]))
  {
    var front := part[..|part|-1];
    assert front[..j] + front[j..] == front && front[..j] == part[..j];
    FlattenConcat(front[..j], front[j..]);
    JoinedLenAppend(Flatten(front[..j]), Flatten(front[j..]));
  }

  // ---- the rules determine the cut ----

  lemma {:induction false} SectioningDropFirst(lines: seq<string>, maxChars: int, a: seq<seq<string>>)
    requires IsSectioning(lines, maxChars, a) && a != []
    ensures a[0] <= lines && IsSectioning(lines[|a[0]|..], maxChars, a[1..])
  {
    FlattenFirst(a);
  }

  // A first section ends where it is full, at a strong heading, or with the text.
  lemma {:induction false} FirstSectionEnds(lines: seq<string>, maxChars: int, a: seq<seq<string>>)
    requires IsSectioning(lines, maxChars, a) && a != []
    ensures a[0] <= lines
    ensures a[0] == lines || IsFull(a[0], maxChars) || IsStrongHeading(lines[|a[0]|])
  {
    FlattenFirst(a);
    if |a| > 1 {
      assert IsSection(a[1], maxChars);
      FlattenFirst(a[1..]);
      assert a[1][0] == Flatten(a[1..])[0];
    } else {
      assert Flatten(a[1..]) == [];
    }
  }

  lemma {:induction false} FirstSectionNotShorter(lines: seq<string>, maxChars: int,
          a: seq<seq<string>>, b: seq<seq<string>>)
    requires IsSectioning(lines, maxChars, a) && IsSectioning(lines, maxChars, b) && a != [] && b != []
    ensures |a[0]| >= |b[0]|
  {
    FirstSectionEnds(lines, maxChars, a);
    FirstSectionEnds(lines, maxChars, b);
    var x, y := a[0], b[0];
    assert IsSection(y, maxChars);
    if |x| < |y| {
      LongerIsNoSection(x, y, maxChars);
    }
  }

  lemma {:induction false} LongerIsNoSection(x: seq<string>, y: seq<string>, maxChars: int)
    requires x < y && IsSection(y, maxChars)
    ensures !IsFull(x, maxChars) && (x != [] ==> !IsStrongHeading(y[|x|]))
  {
    var front := y[..|y|-1];
    assert front == x + front[|x|..];
    JoinedLenAppend(x, front[|x|..]);
  }

  lemma {:induction false} SectioningHasLines(lines: seq<string>, maxChars: int, a: seq<seq<string>>)
    requires IsSectioning(lines, maxChars, a)
    ensures a == [] <==> lines == []
  {
    if a != [] {
      FlattenFirst(a);
      assert IsSection(a[0], maxChars);
    }
  }

  // Two cuts of the same lines by the same rules are the same cut.
  lemma {:induction false} SectioningUnique(lines: seq<string>, maxChars: int, a: seq<seq<string>>, b: seq<seq<string>>)
    requires IsSectioning(lines, maxChars, a) && IsSectioning(lines, maxChars, b)
    ensures a == b
    decreases |a|
  {
    SectioningHasLines(lines, maxChars, a);
    SectioningHasLines(lines, maxChars, b);
    if a == [] {
    } else {
      FirstSectionNotShorter(lines, maxChars, a, b);
      FirstSectionNotShorter(lines, maxChars, b, a);
      SectioningDropFirst(lines, maxChars, a);
      SectioningDropFirst(lines, maxChars, b);
      assert a[0] == lines[..|a[0]|] == b[0];
      SectioningUnique(lines[|a[0]|..], maxChars, a[1..], b[1..]);
      assert a == [a[0]] + a[1..] && b == [b[0]] + b[1..];
    }
  }

  lemma {:induction false} FirstGroupNotShorter(sections: seq<seq<string>>, minChars: int,
          a: seq<seq<seq<string>>>, b: seq<seq<seq<string>>>)
    requires IsGrouping(sections, minChars, a) && IsGrouping(sections, minChars, b) && a != [] && b != []
    ensures a[0] <= sections && |a[0]| >= |b[0]|
  {
    FlattenFirst(a);
    FlattenFirst(b);
    var x, y := a[0], b[0];
    assert IsGroup(y, minChars) && sections[..|x|] == x && sections[..|y|] == y;
    FlattenNone<seq<string>>();
    if |x| < |y| {
      assert sections[..|x|] == sections[..|y|][..|x|];
      LongerIsNoGroup(x, y, minChars);
    }
  }

  lemma {:induction false} LongerIsNoGroup(x: seq<seq<string>>, y: seq<seq<string>>, minChars: int)
    requires x < y && IsGroup(y, minChars)
    ensures JoinedLen(Flatten(x)) < minChars || x == []
  {
    PrefixOfPart(y, |x|);
    assert y[..|x|] == x;
  }

  lemma {:induction false} GroupingDropFirst(sections: seq<seq<string>>, minChars: int, a: seq<seq<seq<string>>>)
    requires IsGrouping(sections, minChars, a) && a != []
    ensures a[0] <= sections && IsGrouping(sections[|a[0]|..], minChars, a[1..])
    ensures a == [a[0]] + a[1..]
  {
    FlattenFirst(a);
  }

  lemma {:induction false} GroupingUnique(sections: seq<seq<string>>, minChars: int,
          a: seq<seq<seq<string>>>, b: seq<seq<seq<string>>>)
    requires IsGrouping(sections, minChars, a) && IsGrouping(sections, minChars, b)
    ensures a == b
    decreases |a|
  {
    GroupingHasSections(sections, minChars, a);
    GroupingHasSections(sections, minChars, b);
    if a == [] {
    } else {
      FirstGroupNotShorter(sections, minChars, a, b);
      FirstGroupNotShorter(sections, minChars, b, a);
      GroupingDropFirst(sections, minChars, a);
      GroupingDropFirst(sections, minChars, b);
      assert a[0] == sections[..|a[0]|] == b[0];
      GroupingUnique(sections[|a[0]|..], minChars, a[1..], b[1..]);
    }
  }

  lemma {:induction false} GroupingHasSections(sections: seq<seq<string>>, minChars: int, a: seq<seq<seq<string>>>)
    requires IsGrouping(sections, minChars, a)
    ensures a == [] <==> sections == []
  {
    if a != [] {
      FlattenFirst(a);
      assert IsGroup(a[0], minChars);
    }
  }

  // The rules leave ChunkText no choice: any cut that keeps them gives the same groups.
  lemma {:induction false} CutUnique(s: string, o: ChunkOpts, a: Cut, b: Cut)
    requires IsCut(s, o, a) && IsCut(s, o, b)
    ensures a == b
  {
    SectioningUnique(Split(s), o.maxChars, a.sections, b.sections);
    GroupingUnique(a.sections, o.minChars, a.parts, b.parts);
  }
}
