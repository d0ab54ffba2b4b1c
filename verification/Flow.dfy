/** Reflowing a run of JSX text into Markdown: soft wraps are joined, blank lines stay paragraph
    breaks, and a line that opens a Markdown block keeps its own line. */
module Flow {
  import opened Strings

  /** A line that opens a Markdown block. Which characters count as digits is the regular
      expression engine's to say. */
  predicate BlockLine(line: string, digit: char -> bool) {
    var hashes := RunEnd(line, 0, c => c == '#');
    var digits := RunEnd(line, 0, digit);
    || (1 <= hashes <= 6 && hashes < |line| && line[hashes] == ' ')
    || Two(line, 0, '-', ' ') || Two(line, 0, '*', ' ') || Two(line, 0, '+', ' ') || Two(line, 0, '>', ' ')
    || (digits > 0 && (Two(line, digits, '.', ' ') || Two(line, digits, ')', ' ')))
    || (line != "" && line[0] == '|')
    || Three(line, 0, '`', '`', '`') || Three(line, 0, '-', '-', '-') || Three(line, 0, '=', '=', '=')
  }

  predicate Tab(c: char) { c == ' ' || c == '\t' }

  /** The length of the paragraph break that `text` starts with: a newline, spaces and tabs, and a
      newline. */
  function BreakLength(text: string): (n: nat)
    ensures n <= |text|
  {
    if text == "" || text[0] != '\n' then 0
    else
      var j := RunEnd(text, 1, Tab);
      if j < |text| && text[j] == '\n' then j + 1 else 0
  }

  /** The paragraphs: what lies between breaks. */
  function Paragraphs(text: string): (paragraphs: seq<string>)
    ensures |paragraphs| > 0
    decreases |text|
  {
    if text == "" then [""]
    else if BreakLength(text) > 0 then [""] + Paragraphs(text[BreakLength(text)..])
    else [[text[0]] + Paragraphs(text[1..])[0]] + Paragraphs(text[1..])[1..]
  }

  function Solid(lines: seq<string>): seq<string> {
    if lines == [] then [] else (if Strip(lines[0]) == "" then [] else [Strip(lines[0])]) + Solid(lines[1..])
  }

  function Prose(buffer: seq<string>): seq<string> {
    if buffer == [] then [] else [Join(buffer, " ")]
  }

  /** The rendered lines of a paragraph, with `buffer` prose still to be joined. */
  function Render(lines: seq<string>, buffer: seq<string>, digit: char -> bool): seq<string>
    decreases |lines|
  {
    if lines == [] then Prose(buffer)
    else if BlockLine(lines[0], digit) then Prose(buffer) + [lines[0]] + Render(lines[1..], [], digit)
    else Render(lines[1..], buffer + [lines[0]], digit)
  }

  function Reflowed(paragraph: string, digit: char -> bool): seq<string> {
    if Solid(Lines(paragraph)) == [] then [] else [Join(Render(Solid(Lines(paragraph)), [], digit), "\n")]
  }

  function ReflowedAll(paragraphs: seq<string>, digit: char -> bool): seq<string> {
    if paragraphs == [] then [] else Reflowed(paragraphs[0], digit) + ReflowedAll(paragraphs[1..], digit)
  }

  function Flowed(text: string, digit: char -> bool): string {
    Join(ReflowedAll(Paragraphs(text), digit), "\n\n")
  }

  // --- The loops ------------------------------------------------------------------------------------

  lemma RenderStep(lines: seq<string>, i: nat, buffer: seq<string>, rendered: seq<string>, digit: char -> bool)
    requires i < |lines|
    ensures rendered + Render(lines[i..], buffer, digit)
         == if BlockLine(lines[i], digit)
             then (rendered + Prose(buffer) + [lines[i]]) + Render(lines[i + 1..], [], digit)
            else rendered + Render(lines[i + 1..], buffer + [lines[i]], digit)
  {
    hide BlockLine, Prose;
    assert lines[i..][1..] == lines[i + 1..];
    var rest := Render(lines[i + 1..], [], digit);
    assert rendered + (Prose(buffer) + [lines[i]] + rest) == (rendered + Prose(buffer) + [lines[i]]) + rest;
  }

  method RenderLines(lines: seq<string>, digit: char -> bool) returns (rendered: seq<string>)
    ensures rendered == Render(lines, [], digit)
  {
    hide BlockLine, Join;
    var buffer: seq<string> := [];
    rendered := [];
    for i := 0 to |lines|
      invariant rendered + Render(lines[i..], buffer, digit) == Render(lines, [], digit)
    {
      RenderStep(lines, i, buffer, rendered, digit);
      if BlockLine(lines[i], digit) {
        if buffer != [] {
          rendered := rendered + [Join(buffer, " ")];
          buffer := [];
        }
        rendered := rendered + [lines[i]];
      } else {
        buffer := buffer + [lines[i]];
      }
    }
    if buffer != [] { rendered := rendered + [Join(buffer, " ")]; }
  }

  lemma SolidStep(raw: seq<string>, i: nat, lines: seq<string>)
    requires i < |raw|
    ensures lines + Solid(raw[i..])
         == (if Strip(raw[i]) == "" then lines else lines + [Strip(raw[i])]) + Solid(raw[i + 1..])
  {
    hide Strip;
    assert raw[i..][1..] == raw[i + 1..];
    var rest := Solid(raw[i + 1..]);
    assert lines + ([Strip(raw[i])] + rest) == (lines + [Strip(raw[i])]) + rest && lines + ([] + rest) == lines + rest;
  }

  method StripLines(paragraph: string) returns (lines: seq<string>)
    ensures lines == Solid(Lines(paragraph))
  {
    hide Strip, Lines;
    var raw := Lines(paragraph);
    lines := [];
    for i := 0 to |raw|
      invariant lines + Solid(raw[i..]) == Solid(raw)
    {
      SolidStep(raw, i, lines);
      if Strip(raw[i]) != "" { lines := lines + [Strip(raw[i])]; }
    }
  }

  method ReflowParagraph(paragraph: string, digit: char -> bool) returns (rendered: seq<string>)
    ensures rendered == Reflowed(paragraph, digit)
  {
    hide Render, Solid, Lines;
    var lines := StripLines(paragraph);
    if lines == [] { return []; }
    var body := RenderLines(lines, digit);
    rendered := [Join(body, "\n")];
  }

  method Reflow(text: string, digit: char -> bool) returns (out: string)
    ensures out == Flowed(text, digit)
  {
    hide Reflowed, Paragraphs, Join;
    var paragraphs := Paragraphs(text);
    var rendered: seq<string> := [];
    for i := 0 to |paragraphs|
      invariant rendered + ReflowedAll(paragraphs[i..], digit) == ReflowedAll(paragraphs, digit)
    {
      assert paragraphs[i..][1..] == paragraphs[i + 1..];
      var body := ReflowParagraph(paragraphs[i], digit);
      var rest := ReflowedAll(paragraphs[i + 1..], digit);
      assert rendered + (body + rest) == (rendered + body) + rest;
      rendered := rendered + body;
    }
    assert ReflowedAll(paragraphs[|paragraphs|..], digit) == [] && rendered + [] == rendered;
    out := Join(rendered, "\n\n");
  }

  // --- Nothing but whitespace changes -----------------------------------------------------------------

  lemma BreakInk(text: string)
    requires BreakLength(text) > 0
    ensures Ink(text[BreakLength(text)..]) == Ink(text)
  {
    var n := BreakLength(text);
    RunAll(text, 1, Tab);
    BlankInk(text[..n]);
    InkAppend(text[..n], text[n..]);
    assert text[..n] + text[n..] == text;
  }

  lemma {:induction false} ParagraphsInk(text: string)
    ensures Inks(Paragraphs(text)) == Ink(text)
    decreases |text|
  {
    hide BreakLength, IsSpace;
    if text != "" {
      var n := BreakLength(text);
      if n > 0 {
        BreakInk(text);
        ParagraphsInk(text[n..]);
      } else {
        var rest := Paragraphs(text[1..]);
        ParagraphsInk(text[1..]);
        InkAppend([text[0]], rest[0]);
        InkAppend([text[0]], text[1..]);
        assert [text[0]] + text[1..] == text && Paragraphs(text)[1..] == rest[1..];
      }
    }
  }

  lemma {:induction false} SolidInk(lines: seq<string>)
    ensures Inks(Solid(lines)) == Inks(lines)
  {
    hide Strip, Ink;
    if lines != [] {
      StripInk(lines[0]);
      SolidInk(lines[1..]);
      InksOne(Strip(lines[0]));
      InksAppend([Strip(lines[0])], Solid(lines[1..]));
      if Strip(lines[0]) == "" {
        BlankInk("");
        assert Solid(lines) == Solid(lines[1..]);
      }
    }
  }

  lemma ProseInk(buffer: seq<string>)
    ensures Inks(Prose(buffer)) == Inks(buffer)
  {
    if buffer != [] {
      JoinInk(buffer, " ");
      InksOne(Join(buffer, " "));
    } else {
      assert Prose(buffer) == buffer;
    }
  }

  lemma InksThree(a: seq<string>, line: string, b: seq<string>)
    ensures Inks(a + [line] + b) == Inks(a) + Ink(line) + Inks(b)
  {
    InksOne(line);
    InksAppend(a, [line]);
    InksAppend(a + [line], b);
  }

  lemma {:induction false} RenderInk(lines: seq<string>, buffer: seq<string>, digit: char -> bool)
    ensures Inks(Render(lines, buffer, digit)) == Inks(buffer) + Inks(lines)
    decreases |lines|
  {
    hide BlockLine, Ink, Prose;
    if lines == [] {
      ProseInk(buffer);
      InksOne("");
    } else {
      var line, rest := lines[0], lines[1..];
      assert lines == [line] + rest && buffer + lines == buffer + [line] + rest;
      InksThree(buffer, line, rest);
      InksAppend(buffer, lines);
      if BlockLine(line, digit) {
        ProseInk(buffer);
        RenderInk(rest, [], digit);
        InksThree(Prose(buffer), line, Render(rest, [], digit));
        InksOne("");
      } else {
        RenderInk(rest, buffer + [line], digit);
        InksAppend(buffer + [line], rest);
      }
    }
  }

  lemma ReflowedInk(paragraph: string, digit: char -> bool)
    ensures Inks(Reflowed(paragraph, digit)) == Ink(paragraph)
  {
    hide Render, Solid, Ink, Lines, Join;
    var raw := Lines(paragraph);
    var lines := Solid(raw);
    var rendered := Render(lines, [], digit);
    JoinLines(paragraph);
    JoinInk(raw, "\n");
    SolidInk(raw);
    RenderInk(lines, [], digit);
    JoinInk(rendered, "\n");
    InksOne(Join(rendered, "\n"));
  }

  lemma {:induction false} ReflowedAllInk(paragraphs: seq<string>, digit: char -> bool)
    ensures Inks(ReflowedAll(paragraphs, digit)) == Inks(paragraphs)
  {
    if paragraphs != [] {
      ReflowedInk(paragraphs[0], digit);
      ReflowedAllInk(paragraphs[1..], digit);
      InksAppend(Reflowed(paragraphs[0], digit), ReflowedAll(paragraphs[1..], digit));
    }
  }

  /** Reflowing keeps every character that is not whitespace, in order. */
  lemma FlowKeepsInk(text: string, digit: char -> bool)
    ensures Ink(Flowed(text, digit)) == Ink(text)
  {
    hide Reflowed;
    ParagraphsInk(text);
    ReflowedAllInk(Paragraphs(text), digit);
    JoinInk(ReflowedAll(Paragraphs(text), digit), "\n\n");
  }

  // --- Reflowing what is reflowed changes nothing -------------------------------------------------------

  /** A line as reflowing leaves it: not empty, no newline, no whitespace at either end. */
  predicate Neat(line: string) { line != "" && Stripped(line) && OneLine(line) }

  predicate AllNeat(lines: seq<string>) { forall k :: 0 <= k < |lines| ==> Neat(lines[k]) }

  /** No two lines that a second pass would join. */
  predicate Spaced(lines: seq<string>, digit: char -> bool) {
    forall k :: 0 < k < |lines| ==> BlockLine(lines[k - 1], digit) || BlockLine(lines[k], digit)
  }

  lemma StripNeat(line: string)
    requires OneLine(line) && Strip(line) != ""
    ensures Neat(Strip(line))
  {
  }

  lemma {:induction false} SolidNeat(lines: seq<string>)
    requires forall k :: 0 <= k < |lines| ==> OneLine(lines[k])
    ensures AllNeat(Solid(lines))
  {
    hide Strip, Neat;
    if lines != [] {
      SolidNeat(lines[1..]);
      if Strip(lines[0]) != "" { StripNeat(lines[0]); }
    }
  }

  lemma {:induction false} ProseNeat(buffer: seq<string>)
    requires buffer != [] && AllNeat(buffer)
    ensures Neat(Join(buffer, " "))
  {
    if |buffer| > 1 {
      ProseNeat(buffer[1..]);
      assert Neat(buffer[0]);
    } else {
      assert Join(buffer, " ") == buffer[0];
    }
  }

  /** Prose that joining turns into something like a block line is still one line. */
  lemma {:induction false} RenderNeat(lines: seq<string>, buffer: seq<string>, digit: char -> bool)
    requires AllNeat(lines) && AllNeat(buffer)
    ensures AllNeat(Render(lines, buffer, digit)) && Spaced(Render(lines, buffer, digit), digit)
    ensures lines != [] || buffer != [] ==> Render(lines, buffer, digit) != []
    decreases |lines|
  {
    hide BlockLine, Neat;
    if buffer != [] { ProseNeat(buffer); }
    if lines != [] {
      if BlockLine(lines[0], digit) {
        var rest := Render(lines[1..], [], digit);
        RenderNeat(lines[1..], [], digit);
        RenderParts(Prose(buffer), lines[0], rest, digit);
      } else {
        RenderNeat(lines[1..], buffer + [lines[0]], digit);
      }
    }
  }

  lemma RenderParts(prose: seq<string>, line: string, rest: seq<string>, digit: char -> bool)
    requires |prose| <= 1 && BlockLine(line, digit) && Spaced(rest, digit)
    requires AllNeat(prose) && Neat(line) && AllNeat(rest)
    ensures AllNeat(prose + [line] + rest) && Spaced(prose + [line] + rest, digit)
  {
    hide BlockLine, Neat;
    var all, n := prose + [line] + rest, |prose|;
    assert all[n] == line;
    forall k | 0 <= k < |all| ensures Neat(all[k]) {
      if k > n { assert all[k] == rest[k - n - 1]; }
    }
    forall k | 0 < k < |all| ensures BlockLine(all[k - 1], digit) || BlockLine(all[k], digit) {
      if k > n + 1 { assert all[k] == rest[k - n - 1] && all[k - 1] == rest[k - n - 2]; }
    }
  }

  lemma {:induction false} RenderSame(lines: seq<string>, digit: char -> bool)
    requires Spaced(lines, digit)
    ensures Render(lines, [], digit) == lines
    decreases |lines|
  {
    hide BlockLine;
    if lines != [] {
      SpacedRest(lines, digit);
      RenderSame(lines[1..], digit);
      if !BlockLine(lines[0], digit) && |lines| > 1 {
        assert BlockLine(lines[1..][0], digit);
        SpacedRest(lines[1..], digit);
        RenderSame(lines[1..][1..], digit);
        assert [] + [lines[0]] == [lines[0]] && Join([lines[0]], " ") == lines[0];
        assert lines == [lines[0]] + [lines[1]] + lines[1..][1..];
      }
    }
  }

  lemma SpacedRest(lines: seq<string>, digit: char -> bool)
    requires lines != [] && Spaced(lines, digit)
    ensures Spaced(lines[1..], digit)
  {
    hide BlockLine;
    var rest := lines[1..];
    forall k | 0 < k < |rest| ensures BlockLine(rest[k - 1], digit) || BlockLine(rest[k], digit) {
      assert rest[k - 1] == lines[k] && rest[k] == lines[k + 1];
    }
  }

  lemma {:induction false} SolidSame(lines: seq<string>)
    requires AllNeat(lines)
    ensures Solid(lines) == lines
  {
    if lines != [] {
      assert Neat(lines[0]);
      SolidSame(lines[1..]);
    }
  }

  /** A paragraph as reflowing leaves it. */
  ghost predicate Settled(paragraph: string, digit: char -> bool) {
    exists lines :: lines != [] && AllNeat(lines) && Spaced(lines, digit) && paragraph == Join(lines, "\n")
  }

  lemma ReflowedSettled(paragraph: string, digit: char -> bool)
    ensures forall k :: 0 <= k < |Reflowed(paragraph, digit)| ==> Settled(Reflowed(paragraph, digit)[k], digit)
  {
    hide Lines, Solid, Render, Neat;
    var lines := Solid(Lines(paragraph));
    LinesAreLines(paragraph);
    SolidNeat(Lines(paragraph));
    RenderNeat(lines, [], digit);
  }

  lemma SettledSame(paragraph: string, digit: char -> bool)
    requires Settled(paragraph, digit)
    ensures Reflowed(paragraph, digit) == [paragraph]
  {
    hide Solid, Render, Join;
    var lines :| lines != [] && AllNeat(lines) && Spaced(lines, digit) && paragraph == Join(lines, "\n");
    LinesOfJoin(lines);
    SolidSame(lines);
    RenderSame(lines, digit);
  }

  /** Every newline in `s` is followed by something that is not whitespace. */
  predicate Tight(s: string) {
    forall i :: 0 <= i < |s| && s[i] == '\n' ==> i + 1 < |s| && !IsSpace(s[i + 1])
  }

  lemma {:induction false} NeatTight(lines: seq<string>)
    requires lines != [] && AllNeat(lines)
    ensures Tight(Join(lines, "\n")) && Join(lines, "\n") != "" && !IsSpace(Join(lines, "\n")[0])
  {
    hide IsSpace;
    assert Neat(lines[0]);
    if |lines| > 1 {
      NeatTight(lines[1..]);
      TightAppend(lines[0], Join(lines[1..], "\n"));
    }
  }

  lemma TightAppend(line: string, rest: string)
    requires OneLine(line) && Tight(rest) && rest != "" && !IsSpace(rest[0])
    ensures Tight(line + "\n" + rest)
  {
    hide IsSpace;
    var s, n := line + "\n" + rest, |line| + 1;
    assert forall i :: 0 <= i < |line| ==> s[i] == line[i] != '\n';
    forall i | 0 <= i < |s| && s[i] == '\n' ensures i + 1 < |s| && !IsSpace(s[i + 1]) {
      if i >= n {
        assert s[i] == rest[i - n] && s[i + 1] == rest[i - n + 1];
      } else {
        assert s[n] == rest[0];
      }
    }
  }

  lemma NoBreak(text: string)
    requires text != "" && (text[0] == '\n' ==> |text| > 1 && !IsSpace(text[1]))
    ensures BreakLength(text) == 0
  {
  }

  lemma {:induction false} ParagraphsTight(s: string, rest: string)
    requires Tight(s) && (rest == "" || (Two(rest, 0, '\n', '\n')))
    ensures Paragraphs(s + rest) == [s] + (if rest == "" then [] else Paragraphs(rest[2..]))
    decreases |s|
  {
    if s == "" {
      assert s + rest == rest;
      if rest != "" { BlankBreak(rest); }
    } else {
      var text := s + rest;
      assert text[0] == s[0] && (s[0] == '\n' ==> text[1] == s[1]);
      NoBreak(text);
      assert text[1..] == s[1..] + rest;
      assert Tight(s[1..]) by { TightRest(s); }
      ParagraphsTight(s[1..], rest);
      assert [s[0]] + s[1..] == s;
    }
  }

  lemma TightRest(s: string)
    requires s != "" && Tight(s)
    ensures Tight(s[1..])
  {
    hide IsSpace;
    forall i | 0 <= i < |s[1..]| && s[1..][i] == '\n' ensures i + 1 < |s[1..]| && !IsSpace(s[1..][i + 1]) {
      assert s[i + 1] == '\n' && !IsSpace(s[i + 2]);
    }
  }

  lemma BlankBreak(rest: string)
    requires Two(rest, 0, '\n', '\n')
    ensures BreakLength(rest) == 2
  {
  }

  lemma {:induction false} ParagraphsOfJoin(paragraphs: seq<string>)
    requires paragraphs != [] && forall k :: 0 <= k < |paragraphs| ==> Tight(paragraphs[k])
    ensures Paragraphs(Join(paragraphs, "\n\n")) == paragraphs
  {
    hide Paragraphs, Tight;
    var first := paragraphs[0];
    if |paragraphs| == 1 {
      ParagraphsTight(first, "");
      assert first + "" == first;
    } else {
      var others := Join(paragraphs[1..], "\n\n");
      ParagraphsOfJoin(paragraphs[1..]);
      ParagraphsTight(first, "\n\n" + others);
      assert first + ("\n\n" + others) == Join(paragraphs, "\n\n");
      assert ("\n\n" + others)[2..] == others;
    }
  }

  ghost predicate AllSettled(paragraphs: seq<string>, digit: char -> bool) {
    forall k :: 0 <= k < |paragraphs| ==> Settled(paragraphs[k], digit)
  }

  lemma {:induction false} ReflowedAllSettled(paragraphs: seq<string>, digit: char -> bool)
    ensures AllSettled(ReflowedAll(paragraphs, digit), digit)
  {
    hide Settled, Reflowed;
    if paragraphs != [] {
      ReflowedSettled(paragraphs[0], digit);
      ReflowedAllSettled(paragraphs[1..], digit);
    }
  }

  lemma {:induction false} AllSettledSame(paragraphs: seq<string>, digit: char -> bool)
    requires AllSettled(paragraphs, digit)
    ensures ReflowedAll(paragraphs, digit) == paragraphs
  {
    hide Settled, Reflowed;
    if paragraphs != [] {
      assert Settled(paragraphs[0], digit);
      SettledSame(paragraphs[0], digit);
      AllSettledSame(paragraphs[1..], digit);
    }
  }

  lemma SettledTight(paragraph: string, digit: char -> bool)
    requires Settled(paragraph, digit)
    ensures Tight(paragraph)
  {
    var lines :| lines != [] && AllNeat(lines) && Spaced(lines, digit) && paragraph == Join(lines, "\n");
    NeatTight(lines);
  }

  /** Reflowing twice is reflowing once, even when joined prose comes to look like a block line. */
  lemma FlowIdempotent(text: string, digit: char -> bool)
    ensures Flowed(Flowed(text, digit), digit) == Flowed(text, digit)
  {
    hide Settled, Reflowed, Tight;
    var paragraphs := ReflowedAll(Paragraphs(text), digit);
    ReflowedAllSettled(Paragraphs(text), digit);
    if paragraphs == [] {
      NothingReflowed(digit);
    } else {
      forall k | 0 <= k < |paragraphs| ensures Tight(paragraphs[k]) { SettledTight(paragraphs[k], digit); }
      ParagraphsOfJoin(paragraphs);
      AllSettledSame(paragraphs, digit);
    }
  }

  lemma NothingReflowed(digit: char -> bool)
    ensures Flowed("", digit) == ""
  {
    assert Paragraphs("") == [""] && Lines("") == [""] && Solid([""]) == [];
    assert ReflowedAll([""], digit) == Reflowed("", digit) + ReflowedAll([], digit);
  }

  /** It does happen: a lone hash is no block line, but joined with the word below it is. */
  lemma JoiningCanMakeABlockLine(digit: char -> bool)
    ensures !BlockLine("#", digit) && !BlockLine("a", digit)
    ensures BlockLine(Prose(["#", "a"])[0], digit)
  {
    var joined := Join(["#", "a"], " ");
    assert joined == "# a";
    assert RunEnd(joined, 0, c => c == '#') == 1;
  }
}
