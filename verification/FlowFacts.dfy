/** What reflowing makes of a text: where it is cut into paragraphs, and which lines are joined. */
module FlowFacts {
  import opened Strings
  import opened Flow

  // --- Paragraphs -----------------------------------------------------------------------------------

  /** A paragraph break of `n` characters stands at `i`: two newlines, nothing but spaces and tabs between. */
  predicate BreakAt(text: string, i: nat, n: nat) {
    && n >= 2 && i + n <= |text| && text[i] == '\n' && text[i + n - 1] == '\n'
    && forall k :: i < k < i + n - 1 ==> text[k] == ' ' || text[k] == '\t'
  }

  ghost predicate Breaks(text: string, i: nat) { exists n: nat :: BreakAt(text, i, n) }

  /** No break begins before `m`. */
  ghost predicate Unbroken(text: string, m: nat) { forall i: nat :: i < m ==> !Breaks(text, i) }

  /** The text begins with `first`, and with it up to its first break, of `n` characters. */
  ghost predicate FirstCut(text: string, first: string, n: nat)
    ensures FirstCut(text, first, n) ==> |first| + n <= |text|
  {
    && |first| <= |text| && text[..|first|] == first
    && Unbroken(text, |first|) && BreakAt(text, |first|, n)
  }

  /** The text is cut at its breaks, each as soon as it comes. */
  ghost predicate CutAtBreaks(text: string, paragraphs: seq<string>) {
    && paragraphs != []
    && if |paragraphs| == 1 then text == paragraphs[0] && Unbroken(text, |text|)
       else
         exists n: nat ::
           FirstCut(text, paragraphs[0], n) && CutAtBreaks(text[|paragraphs[0]| + n..], paragraphs[1..])
  }

  lemma BreakIs(text: string)
    ensures BreakLength(text) > 0 ==> BreakAt(text, 0, BreakLength(text))
    ensures BreakLength(text) > 0 <==> Breaks(text, 0)
  {
    if text != "" && text[0] == '\n' {
      RunAll(text, 1, Tab);
      var j := RunEnd(text, 1, Tab);
      if j < |text| && text[j] == '\n' { assert BreakAt(text, 0, j + 1); }
      if n: nat :| BreakAt(text, 0, n) { TabsEnd(text, 1, n - 1); }
    }
  }

  lemma {:induction false} TabsEnd(text: string, i: nat, j: nat)
    requires i <= j < |text| && text[j] == '\n' && forall k :: i <= k < j ==> text[k] == ' ' || text[k] == '\t'
    ensures RunEnd(text, i, Tab) == j
    decreases j - i
  {
    if i < j { TabsEnd(text, i + 1, j); }
  }

  lemma BreakShifts(text: string, i: nat)
    requires text != ""
    ensures Breaks(text, i + 1) <==> Breaks(text[1..], i)
  {
    var j := i + 1;
    if n: nat :| BreakAt(text, j, n) { assert BreakAt(text[1..], i, n); }
    if n: nat :| BreakAt(text[1..], i, n) {
      BreakLater(text, i, n);
    }
  }

  lemma {:induction false} ParagraphsCut(text: string)
    ensures CutAtBreaks(text, Paragraphs(text))
    decreases |text|
  {
    hide BreakLength, Breaks, BreakAt;
    if text == "" {
      NoBreaks();
    } else {
      BreakIs(text);
      var n := BreakLength(text);
      if n > 0 {
        ParagraphsCut(text[n..]);
        var rest := Paragraphs(text[n..]);
        assert Paragraphs(text) == [""] + rest && ([""] + rest)[1..] == rest;
        assert FirstCut(text, "", n) by { assert text[..0] == ""; }
        assert text[|""| + n..] == text[n..];
      } else {
        ParagraphsCut(text[1..]);
        LongerFirst(text, Paragraphs(text[1..]));
      }
    }
  }

  lemma NoBreaks()
    ensures Unbroken("", 0)
  {
  }

  lemma UnbrokenMore(text: string, m: nat)
    requires text != "" && !Breaks(text, 0) && Unbroken(text[1..], m)
    ensures Unbroken(text, m + 1)
  {
    hide Breaks;
    forall i: nat | i < m + 1 ensures !Breaks(text, i) {
      if i > 0 { BreakShifts(text, i - 1); }
    }
  }

  lemma FirstCutMore(text: string, first: string, n: nat)
    requires text != "" && !Breaks(text, 0) && FirstCut(text[1..], first, n)
    ensures FirstCut(text, [text[0]] + first, n)
    ensures text[|[text[0]] + first| + n..] == text[1..][|first| + n..]
  {
    hide Unbroken;
    UnbrokenMore(text, |first|);
    BreakLater(text, |first|, n);
    assert text == [text[0]] + text[1..];
    assert text[..|first| + 1] == [text[0]] + text[1..][..|first|];
  }

  /** One more character before the first paragraph. */
  lemma LongerFirst(text: string, paragraphs: seq<string>)
    requires text != "" && !Breaks(text, 0) && CutAtBreaks(text[1..], paragraphs)
    ensures CutAtBreaks(text, [[text[0]] + paragraphs[0]] + paragraphs[1..])
  {
    hide Breaks, Unbroken, FirstCut;
    var first := [text[0]] + paragraphs[0];
    var more := [first] + paragraphs[1..];
    assert more[0] == first && more[1..] == paragraphs[1..];
    if |paragraphs| == 1 {
      UnbrokenMore(text, |text| - 1);
      assert text == [text[0]] + text[1..];
    } else {
      var n: nat :| FirstCut(text[1..], paragraphs[0], n)
        && CutAtBreaks(text[1..][|paragraphs[0]| + n..], paragraphs[1..]);
      FirstCutMore(text, paragraphs[0], n);
      assert FirstCut(text, more[0], n) && CutAtBreaks(text[|more[0]| + n..], more[1..]);
    }
  }

  lemma BreakLater(text: string, i: nat, n: nat)
    requires text != "" && BreakAt(text[1..], i, n)
    ensures BreakAt(text, i + 1, n)
  {
    forall k | i + 1 < k < i + n ensures text[k] == ' ' || text[k] == '\t' { assert text[1..][k - 1] == text[k]; }
  }

  // --- Lines ----------------------------------------------------------------------------------------

  /** The trimmed lines that are something, in order. */
  ghost predicate Trimmed(lines: seq<string>, solid: seq<string>) {
    if lines == [] then solid == []
    else if Blank(lines[0]) then Trimmed(lines[1..], solid)
    else solid != [] && IsTrim(lines[0], solid[0]) && Trimmed(lines[1..], solid[1..])
  }

  ghost predicate IsTrim(line: string, trimmed: string) {
    Stripped(trimmed) && exists before, after :: Blank(before) && Blank(after) && line == before + trimmed + after
  }

  lemma StripTrims(line: string)
    ensures IsTrim(line, Strip(line))
  {
    var from, end := StripParts(line);
    hide Strip, Blank, Stripped;
    assert line == line[..from] + line[from..end] + line[end..];
  }

  lemma {:induction false} SolidTrimmed(lines: seq<string>)
    ensures Trimmed(lines, Solid(lines))
    decreases |lines|
  {
    if lines != [] {
      hide Strip, Blank, IsTrim;
      StripTrims(lines[0]);
      SolidTrimmed(lines[1..]);
      var rest := Solid(lines[1..]);
      assert ([Strip(lines[0])] + rest)[1..] == rest && [] + rest == rest;
    }
  }

  /** The lines in groups: a block line alone, and prose lines with all the prose next to them. */
  ghost predicate Grouped(lines: seq<string>, groups: seq<seq<string>>, digit: char -> bool) {
    && Concat(groups) == lines
    && (forall g <- groups :: g != [] && (|g| > 1 ==> AllProse(g, digit)))
    && forall k :: 0 < k < |groups| ==> Parted(groups[k - 1], groups[k], digit)
  }

  predicate Parted(a: seq<string>, b: seq<string>, digit: char -> bool) {
    a != [] && b != [] && (BlockLine(a[0], digit) || BlockLine(b[0], digit))
  }

  function Concat(groups: seq<seq<string>>): seq<string> {
    if groups == [] then [] else groups[0] + Concat(groups[1..])
  }

  /** Each group is one line, its parts a space apart. */
  predicate OneEach(groups: seq<seq<string>>, rendered: seq<string>) {
    |rendered| == |groups| && forall k :: 0 <= k < |groups| ==> rendered[k] == Join(groups[k], " ")
  }

  lemma {:induction false} ConcatProse(group: seq<string>, rest: seq<seq<string>>)
    ensures Concat([group] + rest) == group + Concat(rest)
  {
    assert ([group] + rest)[1..] == rest;
  }

  /** Prose that is being gathered, before what its groups are. */
  predicate AllProse(lines: seq<string>, digit: char -> bool) {
    forall l <- lines :: !BlockLine(l, digit)
  }

  lemma GroupedMore(group: seq<string>, lines: seq<string>, groups: seq<seq<string>>, digit: char -> bool)
    requires group != [] && Grouped(lines, groups, digit) && (|group| > 1 ==> AllProse(group, digit))
    requires groups != [] ==> groups[0] != [] && (BlockLine(group[0], digit) || BlockLine(groups[0][0], digit))
    ensures Grouped(group + lines, [group] + groups, digit)
  {
    hide BlockLine;
    ConcatProse(group, groups);
    var more := [group] + groups;
    forall k | 0 < k < |more| ensures Parted(more[k - 1], more[k], digit) {
      if k > 1 { assert Parted(groups[k - 2], groups[k - 1], digit); }
    }
  }

  /** Rendering joins exactly the groups; `buffer` is the prose gathered before the lines. */
  lemma {:induction false} RenderGroups(lines: seq<string>, buffer: seq<string>, digit: char -> bool)
    returns (groups: seq<seq<string>>)
    requires AllProse(buffer, digit)
    ensures Grouped(buffer + lines, groups, digit) && OneEach(groups, Render(lines, buffer, digit))
    ensures buffer != [] ==> groups != [] && groups[0] != [] && groups[0][0] == buffer[0]
    ensures buffer == [] && lines != [] && BlockLine(lines[0], digit) ==> groups != [] && groups[0] == [lines[0]]
    decreases |lines|
  {
    hide BlockLine, Join, Grouped, AllProse, OneEach;
    ProseMore(buffer, lines, digit);
    if lines == [] {
      assert buffer + lines == buffer;
      groups := if buffer == [] then [] else [buffer];
      NoGroups(digit);
      if buffer != [] {
        GroupedMore(buffer, [], [], digit);
        OneMore(buffer, [], []);
        assert buffer + [] == buffer && [buffer] + [] == [buffer] && Prose(buffer) + [] == Prose(buffer);
      }
    } else if BlockLine(lines[0], digit) {
      var rest := RenderGroups(lines[1..], [], digit);
      assert [] + lines[1..] == lines[1..] && [lines[0]] + lines[1..] == lines;
      GroupHeads(lines[1..], rest, digit);
      GroupedMore([lines[0]], lines[1..], rest, digit);
      JoinOne(lines[0]);
      groups := [[lines[0]]] + rest;
      var tail := Render(lines[1..], [], digit);
      OneMore([lines[0]], rest, tail);
      if buffer == [] {
        assert buffer + lines == lines && Prose(buffer) + [lines[0]] + tail == [lines[0]] + tail;
      } else {
        GroupedMore(buffer, lines, groups, digit);
        OneMore(buffer, groups, [lines[0]] + tail);
        assert Prose(buffer) + [lines[0]] + tail == Prose(buffer) + ([lines[0]] + tail);
        groups := [buffer] + groups;
      }
    } else {
      groups := RenderGroups(lines[1..], buffer + [lines[0]], digit);
      assert buffer + [lines[0]] + lines[1..] == buffer + lines;
    }
  }

  lemma ProseMore(buffer: seq<string>, lines: seq<string>, digit: char -> bool)
    requires AllProse(buffer, digit)
    ensures lines != [] && !BlockLine(lines[0], digit) ==> AllProse(buffer + [lines[0]], digit)
    ensures AllProse([], digit)
  {
    hide BlockLine;
  }

  lemma OneMore(group: seq<string>, groups: seq<seq<string>>, rendered: seq<string>)
    requires OneEach(groups, rendered)
    ensures OneEach([group] + groups, [Join(group, " ")] + rendered)
  {
    hide Join;
  }

  lemma JoinOne(line: string)
    ensures Join([line], " ") == line
  {
  }

  lemma NoGroups(digit: char -> bool)
    ensures Grouped([], [], digit) && OneEach([], [])
  {
  }

  lemma GroupHeads(lines: seq<string>, groups: seq<seq<string>>, digit: char -> bool)
    requires Grouped(lines, groups, digit)
    ensures groups != [] ==> groups[0] != []
  {
    if groups != [] { assert groups[0] in groups; }
  }

  /** What reflowing leaves of a paragraph: its trimmed lines in groups, each group a line; nothing of one
      without such lines. */
  ghost predicate ParagraphIs(paragraph: string, rendered: seq<string>, digit: char -> bool) {
    exists solid, groups, lines ::
      && Trimmed(Lines(paragraph), solid) && Grouped(solid, groups, digit) && OneEach(groups, lines)
      && rendered == if solid == [] then [] else [Join(lines, "\n")]
  }

  lemma ReflowedIs(paragraph: string, digit: char -> bool)
    ensures ParagraphIs(paragraph, Reflowed(paragraph, digit), digit)
  {
    hide Solid, Render, Grouped, OneEach, Trimmed, Lines, Join;
    var solid := Solid(Lines(paragraph));
    SolidTrimmed(Lines(paragraph));
    assert [] + solid == solid;
    var groups := RenderGroups(solid, [], digit);
    assert Trimmed(Lines(paragraph), solid) && Grouped(solid, groups, digit)
        && OneEach(groups, Render(solid, [], digit));
  }

  /** One rendered paragraph for each that has one, in order. */
  ghost predicate RenderedAll(paragraphs: seq<string>, rendered: seq<string>, digit: char -> bool) {
    if paragraphs == [] then rendered == []
    else exists n: nat :: n <= |rendered| && ParagraphIs(paragraphs[0], rendered[..n], digit)
                          && RenderedAll(paragraphs[1..], rendered[n..], digit)
  }

  lemma {:induction false} ReflowedAllIs(paragraphs: seq<string>, digit: char -> bool)
    ensures RenderedAll(paragraphs, ReflowedAll(paragraphs, digit), digit)
    decreases |paragraphs|
  {
    hide Reflowed, ParagraphIs;
    if paragraphs != [] {
      var first, rest := Reflowed(paragraphs[0], digit), ReflowedAll(paragraphs[1..], digit);
      ReflowedIs(paragraphs[0], digit);
      ReflowedAllIs(paragraphs[1..], digit);
      assert (first + rest)[..|first|] == first && (first + rest)[|first|..] == rest;
    }
  }

  /** Reflowing cuts a text at its paragraph breaks and renders each paragraph: its trimmed lines, prose
      next to prose joined by a space, block lines on lines of their own, a blank line between paragraphs. */
  lemma FlowIs(text: string, digit: char -> bool)
    ensures exists paragraphs, rendered ::
      && CutAtBreaks(text, paragraphs) && RenderedAll(paragraphs, rendered, digit)
      && Flowed(text, digit) == Join(rendered, "\n\n")
  {
    hide CutAtBreaks, RenderedAll, ReflowedAll, Paragraphs, Join;
    ParagraphsCut(text);
    ReflowedAllIs(Paragraphs(text), digit);
  }
}
