/** What the writer puts down as blocks is what the splitter picks up, and splitting loses no
    line. */
module BlocksRoundTrip {
  import opened Strings
  import opened Blocks
  import Markdown

  /** The scan goes through these lines as part of one block, and leaves no fence open. */
  predicate Whole(lines: seq<string>, fence: Fence) {
    if lines == [] then fence.Closed?
    else !Separates(fence, lines[0]) && Whole(lines[1..], FenceAfter(fence, lines[0]))
  }

  /** Where blocks stand when a blank line separates each from the next. */
  function Placed(texts: seq<string>, at: nat): seq<Block> {
    if texts == [] then [] else [Block(at, at + |texts[0]|, texts[0])] + Placed(texts[1..], at + |texts[0]| + 2)
  }

  lemma {:induction false} ThroughBlock(lines: seq<string>, rest: seq<string>, offset: nat, fence: Fence,
                                        pending: seq<string>)
    requires Whole(lines, fence) && Total(pending) <= offset
    ensures Total(pending + lines) <= offset + Total(lines)
    ensures BlocksFrom(lines + rest, offset, fence, pending)
         == BlocksFrom(rest, offset + Total(lines), Closed, pending + lines)
    decreases |lines|
  {
    hide Separates, FenceAfter, Ended;
    TotalAppend(pending, lines);
    if lines == [] {
      assert lines + rest == rest && pending + lines == pending;
    } else {
      assert (lines + rest)[0] == lines[0] && (lines + rest)[1..] == lines[1..] + rest;
      assert pending + [lines[0]] + lines[1..] == pending + lines;
      TotalAppend(pending, [lines[0]]);
      ThroughBlock(lines[1..], rest, offset + |lines[0]| + 1, FenceAfter(fence, lines[0]), pending + [lines[0]]);
    }
  }

  lemma BlockEnds(text: string, at: nat)
    ensures Total(Lines(text)) == |text| + 1
    ensures Ended(Lines(text), at + |text| + 1) == [Block(at, at + |text|, text)]
  {
    JoinLines(text);
    TotalJoin(Lines(text));
  }

  lemma EmptyLine(rest: seq<string>, offset: nat, pending: seq<string>)
    requires Total(pending) <= offset
    ensures BlocksFrom([""] + rest, offset, Closed, pending)
        == Ended(pending, offset) + BlocksFrom(rest, offset + 1, Closed, [])
  {
    EmptySeparates("");
    hide Separates, Ended, Total;
    var lines := [""] + rest;
    assert lines[0] == "" && lines[1..] == rest;
  }

  lemma EmptySeparates(line: string)
    requires line == ""
    ensures Separates(Closed, line)
  {
    assert Strip(line) == "";
  }

  /** A whole text, and nothing after it or a blank line and more. */
  lemma OneBlock(text: string, rest: seq<string>, at: nat)
    requires Whole(Lines(text), Closed)
    ensures BlocksFrom(Lines(text), at, Closed, []) == [Block(at, at + |text|, text)]
    ensures BlocksFrom(Lines(text) + [""] + rest, at, Closed, [])
         == [Block(at, at + |text|, text)] + BlocksFrom(rest, at + |text| + 2, Closed, [])
  {
    hide Lines, Whole, Ended, Total;
    var lines := Lines(text);
    assert Total([]) == 0 by { Edges([]); }
    BlockEnds(text, at);
    ThroughBlock(lines, [], at, Closed, []);
    ThroughBlock(lines, [""] + rest, at, Closed, []);
    assert lines + [] == lines && [] + lines == lines && lines + ([""] + rest) == lines + [""] + rest;
    LastBlock(at + |text| + 1, Closed, lines);
    EmptyLine(rest, at + |text| + 1, lines);
  }

  lemma {:induction false} SplitsPlaced(texts: seq<string>, at: nat)
    requires forall k :: 0 <= k < |texts| ==> Whole(Lines(texts[k]), Closed)
    ensures BlocksFrom(Lines(Join(texts, "\n\n")), at, Closed, []) == Placed(texts, at)
    decreases |texts|
  {
    hide Whole, Ended, Total, BlocksFrom;
    if texts == [] {
      assert Lines("") == [""] + [];
      NothingSplits(at);
    } else {
      var first, rest := texts[0], Join(texts[1..], "\n\n");
      OneBlock(first, Lines(rest), at);
      if |texts| > 1 {
        SplitsPlaced(texts[1..], at + |first| + 2);
        LinesAppend(first + "\n", rest);
        LinesAppend(first, "");
        assert Join(texts, "\n\n") == first + "\n" + "\n" + rest;
        assert first + "\n" + "" == first + "\n";
        assert Lines("") == [""];
      }
    }
  }

  lemma NothingSplits(at: nat)
    ensures BlocksFrom([""] + [], at, Closed, []) == []
  {
    EmptyLine([], at, []);
  }

  // --- The writer's side --------------------------------------------------------------------------

  function Blocked(texts: seq<string>): seq<Markdown.Write> {
    if texts == [] then [] else [Markdown.WriteBlock(texts[0])] + Blocked(texts[1..])
  }

  predicate AllStripped(texts: seq<string>) {
    forall k :: 0 <= k < |texts| ==> texts[k] != "" && Stripped(texts[k])
  }

  lemma StrippedMoved(before: seq<string>, texts: seq<string>)
    requires AllStripped(before) && AllStripped(texts) && texts != []
    ensures AllStripped(before + [texts[0]]) && AllStripped(texts[1..]) && texts[0] != "" && Stripped(texts[0])
    ensures before + [texts[0]] + texts[1..] == before + texts
  {
  }

  lemma {:induction false} BlocksWritten(s: Markdown.Written, before: seq<string>, texts: seq<string>)
    requires AllStripped(before) && AllStripped(texts)
    requires s == Markdown.Written(Join(before, "\n\n"), before != [])
    ensures Markdown.WroteAll(s, Blocked(texts)) == Markdown.Written(Join(before + texts, "\n\n"), before + texts != [])
    decreases |texts|
  {
    hide AllStripped, Stripped, Join, Markdown.BlockWritten;
    if texts == [] {
      assert before + texts == before;
    } else {
      StrippedMoved(before, texts);
      BlockWritten(s, before, texts[0]);
      assert Blocked(texts)[1..] == Blocked(texts[1..]);
      BlocksWritten(Markdown.BlockWritten(s, texts[0]), before + [texts[0]], texts[1..]);
    }
  }

  lemma {:induction false} JoinStripped(texts: seq<string>)
    requires AllStripped(texts) && texts != []
    ensures Join(texts, "\n\n") != "" && Stripped(Join(texts, "\n\n"))
  {
    hide IsSpace;
    assert Stripped(texts[0]);
    if |texts| > 1 { JoinStripped(texts[1..]); }
  }

  lemma BlockWritten(s: Markdown.Written, before: seq<string>, text: string)
    requires AllStripped(before) && text != "" && Stripped(text)
    requires s == Markdown.Written(Join(before, "\n\n"), before != [])
    ensures Markdown.BlockWritten(s, text) == Markdown.Written(Join(before + [text], "\n\n"), true)
  {
    hide AllStripped;
    assert Strip(text) == text;
    if before != [] {
      JoinStripped(before);
      NotNewline(s.buf);
      JoinAppend(before, [text], "\n\n");
    } else {
      assert before + [text] == [text];
    }
  }

  lemma NotNewline(s: string)
    requires s != "" && Stripped(s)
    ensures Markdown.TrimNewlines(s) == s
  {
  }

  /** Write any number of texts as blocks, take the result, split it: the same texts come back,
      each where it was put. */
  lemma WriteThenSplit(texts: seq<string>)
    requires AllStripped(texts) && forall k :: 0 <= k < |texts| ==> Whole(Lines(texts[k]), Closed)
    ensures var written := Markdown.WroteAll(Markdown.Written("", false), Blocked(texts));
      SplitBlocks(Markdown.Result(written)) == Placed(texts, 0)
  {
    hide Whole, Lines, Blocked, BlocksFrom;
    BlocksWritten(Markdown.Written("", false), [], texts);
    assert [] + texts == texts;
    var text := Join(texts, "\n\n");
    if texts != [] { JoinStripped(texts); }
    assert SolidEnd(text, 0, |text|) == |text| && text[..|text|] == text;
    SplitsPlaced(texts, 0);
  }

  // --- Which texts stay whole ---------------------------------------------------------------------

  /** A text in which no line opens a fence stays whole if and only if no line is blank. */
  lemma {:induction false} ParagraphWhole(lines: seq<string>)
    requires forall k :: 0 <= k < |lines| ==> Opens(lines[k]).Closed?
    ensures Whole(lines, Closed) <==> forall k :: 0 <= k < |lines| ==> !Blank(lines[k])
    decreases |lines|
  {
    hide Opens, Blank;
    if lines != [] {
      assert Opens(lines[0]).Closed?;
      ParagraphWhole(lines[1..]);
      assert forall k :: 0 < k < |lines| ==> lines[k] == lines[1..][k - 1];
    }
  }

  predicate Ticked(line: string) { Marked(Strip(line), '`') }

  predicate Waved(line: string) { Marked(Strip(line), '~') }

  /** How many lines start with three backticks. */
  function TickedIn(lines: seq<string>): nat {
    if lines == [] then 0 else (if Ticked(lines[0]) then 1 else 0) + TickedIn(lines[1..])
  }

  /** The fence after some lines. */
  function Through(lines: seq<string>, fence: Fence): Fence {
    if lines == [] then fence else Through(lines[1..], FenceAfter(fence, lines[0]))
  }

  /** Lines and a last one of backticks stay whole if and only if the backtick fence is open when the
      last line comes and some fence is open at every blank line. */
  lemma {:induction false} ClosedByTicks(body: seq<string>, last: string, fence: Fence)
    requires Ticked(last)
    ensures Whole(body + [last], fence)
            <==> && Through(body, fence) == Open('`')
                 && forall k :: 0 <= k < |body| && Blank(body[k]) ==> Through(body[..k], fence).Open?
    decreases |body|
  {
    hide Marked, Strip, Blank, FenceAfter;
    var lines := body + [last];
    if body == [] {
      assert lines[1..] == [];
      LastTicks(last, fence);
    } else {
      var first, rest := body[0], body[1..];
      assert lines[0] == first && lines[1..] == rest + [last];
      BlankIsNoFence(first);
      ClosedByTicks(rest, last, FenceAfter(fence, first));
      forall k | 0 <= k < |rest|
        ensures rest[k] == body[k + 1] && Through(body[..k + 1], fence) == Through(rest[..k], FenceAfter(fence, first))
      {
        assert body[..k + 1][1..] == rest[..k];
      }
      assert body[..0] == [] && forall k :: 0 < k < |body| ==> body[k] == rest[k - 1];
    }
  }

  lemma LastTicks(last: string, fence: Fence)
    requires Ticked(last)
    ensures !Separates(fence, last) && (FenceAfter(fence, last) == Closed <==> fence == Open('`'))
  {
    BlankIsNoFence(last);
    hide Strip, Blank;
  }

  /** Where no line starts with three tildes, backticks open and close in turn. */
  lemma {:induction false} Parity(lines: seq<string>, open: bool)
    requires forall k :: 0 <= k < |lines| ==> !Waved(lines[k])
    ensures Through(lines, if open then Open('`') else Closed)
         == if TickedIn(lines) % 2 == (if open then 0 else 1) then Open('`') else Closed
    decreases |lines|
  {
    hide Marked, Strip;
    if lines != [] {
      assert !Waved(lines[0]);
      Parity(lines[1..], if Ticked(lines[0]) then !open else open);
    }
  }

  lemma BlankIsNoFence(line: string)
    ensures Blank(line) ==> !Ticked(line) && !Waved(line) && Opens(line).Closed?
  {
    hide Blank;
  }

  lemma TicksMark(ticks: string, rest: string)
    requires |ticks| >= 3 && forall k :: 0 <= k < |ticks| ==> ticks[k] == '`'
    ensures Marked(Strip(ticks + rest), '`')
  {
    var line := ticks + rest;
    assert line[0] == '`' && line[1] == '`' && line[2] == '`';
    SolidPast(line, 2);
  }

  lemma SolidPast(s: string, k: nat)
    requires k < |s| && !IsSpace(s[0]) && !IsSpace(s[k])
    ensures |Strip(s)| > k && forall i :: 0 <= i <= k ==> Strip(s)[i] == s[i]
  {
    assert RunEnd(s, 0, IsSpace) == 0;
    assert SolidEnd(s, 0, |s|) > k;
  }

  /** The lines of a fenced block. */
  lemma FenceLines(code: string, language: string) returns (first: string, last: string)
    requires OneLine(language)
    ensures Lines(Markdown.FenceOf(code, language)) == [first] + (Lines(Markdown.FenceBody(code)) + [last])
    ensures Ticked(first) && Ticked(last)
  {
    hide Marked, Strip, Blank;
    var body := Markdown.FenceBody(code);
    last := Markdown.Ticks(Markdown.TicksFor(code));
    first := last + language;
    LinesAppend(first + "\n" + body, last);
    LinesAppend(first, body);
    LinesOfLine(first);
    LinesOfLine(last);
    TicksMark(last, language);
    TicksMark(last, "");
    assert last + "" == last;
  }

  /** Three backticks close any fence, however long. So a fenced block stays whole if and only if its
      code leaves the fence of backticks open, or opened again, at its end, and some fence open at each
      of its blank lines. */
  lemma FenceWholeIff(code: string, language: string)
    requires OneLine(language)
    ensures var body := Lines(Markdown.FenceBody(code));
      Whole(Lines(Markdown.FenceOf(code, language)), Closed)
      <==> && Through(body, Open('`')) == Open('`')
           && forall k :: 0 <= k < |body| && Blank(body[k]) ==> Through(body[..k], Open('`')).Open?
  {
    hide Marked, Strip, Blank, Lines, Through;
    var body := Lines(Markdown.FenceBody(code));
    var first, last := FenceLines(code, language);
    var inner := body + [last];
    assert ([first] + inner)[0] == first && ([first] + inner)[1..] == inner;
    ClosedByTicks(body, last, Open('`'));
  }

  /** For code without a line that starts with three tildes: an even number of lines start with three
      backticks, and an even number before each blank line. */
  lemma FenceWholeByParity(code: string, language: string)
    requires OneLine(language)
    requires forall k :: 0 <= k < |Lines(Markdown.FenceBody(code))| ==> !Waved(Lines(Markdown.FenceBody(code))[k])
    ensures var body := Lines(Markdown.FenceBody(code));
      Whole(Lines(Markdown.FenceOf(code, language)), Closed)
      <==> && TickedIn(body) % 2 == 0
           && forall k :: 0 <= k < |body| && Blank(body[k]) ==> TickedIn(body[..k]) % 2 == 0
  {
    hide Waved, Strip, Blank, Lines, Through, TickedIn, Whole;
    var body := Lines(Markdown.FenceBody(code));
    FenceWholeIff(code, language);
    Parity(body, true);
    forall k | 0 <= k < |body|
      ensures Through(body[..k], Open('`')) == if TickedIn(body[..k]) % 2 == 0 then Open('`') else Closed
    {
      Parity(body[..k], true);
    }
  }

  lemma {:induction false} StaysOpen(lines: seq<string>)
    requires forall k :: 0 <= k < |lines| ==> !Ticked(lines[k])
    ensures Through(lines, Open('`')) == Open('`')
  {
    hide Marked, Strip;
    if lines != [] {
      assert !Ticked(lines[0]);
      StaysOpen(lines[1..]);
    }
  }

  /** A fenced block stays whole when no line of its code starts with three backticks, whatever else
      is in it. */
  lemma FenceWhole(code: string, language: string)
    requires OneLine(language)
    requires forall k :: 0 <= k < |Lines(Markdown.FenceBody(code))| ==> !Ticked(Lines(Markdown.FenceBody(code))[k])
    ensures Whole(Lines(Markdown.FenceOf(code, language)), Closed)
  {
    hide Ticked, Strip, Blank, Lines, Through, Whole;
    var body := Lines(Markdown.FenceBody(code));
    FenceWholeIff(code, language);
    StaysOpen(body);
    forall k | 0 <= k < |body| ensures Through(body[..k], Open('`')) == Open('`') { StaysOpen(body[..k]); }
  }

  /** It comes apart when its code starts with three backticks and a blank line, although the fence
      around the code is longer. */
  lemma FenceSplits(code: string, language: string, rest: string)
    requires OneLine(language) && Markdown.FenceBody(code) == "```" + "\n" + ("\n" + rest)
    ensures !Whole(Lines(Markdown.FenceOf(code, language)), Closed)
  {
    var body, tail := Lines(Markdown.FenceBody(code)), Lines("\n" + rest);
    assert tail[0] == "";
    LinesAppend("```", "\n" + rest);
    LinesOfLine("```");
    TicksMark("```", "");
    assert "```" + "" == "```" && Blank("");
    hide Lines, Strip, Marked, Blank, Whole;
    assert body[0] == "```" && body[1] == "";
    assert body[..1] == ["```"] && ["```"][1..] == [];
    assert Through(body[..1], Open('`')) == Closed;
    FenceWholeIff(code, language);
  }

  /** One such code. */
  lemma ThisFenceSplits(language: string)
    requires OneLine(language)
    ensures !Whole(Lines(Markdown.FenceOf("```\n\nx", language)), Closed)
  {
    assert "```\n\nx" == "```" + "\n" + ("\n" + "x");
    hide Lines, Whole;
    FenceSplits("```\n\nx", language, "x");
  }

  // --- Splitting loses nothing --------------------------------------------------------------------

  function NonBlankIn(blocks: seq<Block>): seq<string> {
    if blocks == [] then [] else NonBlank(Lines(blocks[0].text)) + NonBlankIn(blocks[1..])
  }

  lemma EndedKeeps(pending: seq<string>, offset: nat)
    requires Total(pending) <= offset && forall k :: 0 <= k < |pending| ==> OneLine(pending[k])
    ensures NonBlankIn(Ended(pending, offset)) == NonBlank(pending)
  {
    hide NonBlank, Lines, Join;
    if pending == [] {
      assert NonBlank([]) == [] by { NonBlankNone(); }
    } else {
      LinesOfJoin(pending);
      assert NonBlankIn([]) == [] && Ended(pending, offset)[1..] == [];
    }
  }

  lemma EndedThen(pending: seq<string>, offset: nat, rest: seq<Block>)
    requires Total(pending) <= offset && forall k :: 0 <= k < |pending| ==> OneLine(pending[k])
    ensures NonBlankIn(Ended(pending, offset) + rest) == NonBlank(pending) + NonBlankIn(rest)
  {
    EndedKeeps(pending, offset);
    hide NonBlank, Lines, Join;
    var ended := Ended(pending, offset);
    if pending == [] {
      NonBlankNone();
      assert ended + rest == rest;
    } else {
      assert (ended + rest)[0] == ended[0] && (ended + rest)[1..] == rest;
      assert NonBlankIn(ended) == NonBlank(Lines(ended[0].text)) + NonBlankIn([]);
    }
  }

  lemma {:induction false} BlocksKeep(lines: seq<string>, offset: nat, fence: Fence, pending: seq<string>)
    requires Total(pending) <= offset
    requires forall k :: 0 <= k < |pending| ==> OneLine(pending[k])
    requires forall k :: 0 <= k < |lines| ==> OneLine(lines[k])
    ensures NonBlankIn(BlocksFrom(lines, offset, fence, pending)) == NonBlank(pending) + NonBlank(lines)
    decreases |lines|
  {
    hide Blank, Opens, FenceAfter, Ended, NonBlankIn;
    if lines == [] {
      EndedKeeps(pending, offset);
      NonBlankNone();
    } else {
      var next := offset + |lines[0]| + 1;
      TotalAppend(pending, [lines[0]]);
      if Separates(fence, lines[0]) {
        BlocksKeep(lines[1..], next, Closed, []);
        EndedThen(pending, offset, BlocksFrom(lines[1..], next, Closed, []));
        NonBlankNone();
      } else {
        BlocksKeep(lines[1..], next, FenceAfter(fence, lines[0]), pending + [lines[0]]);
        NonBlankAppend(pending, [lines[0]]);
        NonBlankAppend(pending + [lines[0]], lines[1..]);
        NonBlankAppend(pending, lines);
        assert pending + [lines[0]] + lines[1..] == pending + lines;
      }
    }
  }

  /** Every line that is not blank is in exactly one block, in the order of the document. */
  lemma SplitKeepsLines(markdown: string)
    ensures NonBlankIn(SplitBlocks(markdown)) == NonBlank(Lines(markdown))
  {
    hide BlocksFrom, NonBlankIn, Lines;
    LinesAreLines(markdown);
    BlocksKeep(Lines(markdown), 0, Closed, []);
    NonBlankNone();
  }

  /** The blocks lie in `text` from `from` on, ascending, each where its offsets say. */
  ghost predicate Lie(text: string, blocks: seq<Block>, from: nat) {
    blocks == [] ||
    (&& from <= blocks[0].start <= blocks[0].end <= |text|
     && text[blocks[0].start..blocks[0].end] == blocks[0].text
     && Lie(text, blocks[1..], blocks[0].end + 1))
  }

  lemma EndedLies(text: string, before: seq<string>, pending: seq<string>, rest: seq<string>, after: seq<Block>)
    requires text == Join(before + pending + rest, "\n")
    requires Lie(text, after, Total(before + pending))
    ensures Total(pending) <= Total(before + pending)
    ensures Lie(text, Ended(pending, Total(before + pending)) + after, Total(before))
  {
    hide Join;
    TotalAppend(before, pending);
    if pending == [] {
      assert before + pending == before && Ended(pending, Total(before)) + after == after;
    } else {
      CutMiddle(before, pending, rest);
      assert (Ended(pending, Total(before + pending)) + after)[1..] == after;
    }
  }

  lemma {:induction false} BlocksLie(text: string, before: seq<string>, pending: seq<string>, rest: seq<string>,
                                     fence: Fence)
    requires text == Join(before + pending + rest, "\n")
    ensures Total(pending) <= Total(before + pending)
    ensures Lie(text, BlocksFrom(rest, Total(before + pending), fence, pending), Total(before))
    decreases |rest|
  {
    hide Join, Separates, FenceAfter, Ended;
    var offset := Total(before + pending);
    TotalAppend(before, pending);
    if rest == [] {
      EndedLies(text, before, pending, rest, []);
      assert Ended(pending, offset) + [] == Ended(pending, offset);
    } else {
      var line := [rest[0]];
      TotalAppend(before + pending, line);
      assert before + pending + line + [] + rest[1..] == before + pending + rest
          == before + (pending + line) + rest[1..];
      if Separates(fence, rest[0]) {
        assert before + pending + line + [] == before + pending + line;
        BlocksLie(text, before + pending + line, [], rest[1..], Closed);
        LieLater(text, BlocksFrom(rest[1..], offset + |rest[0]| + 1, Closed, []), offset, offset + |rest[0]| + 1);
        EndedLies(text, before, pending, rest, BlocksFrom(rest[1..], offset + |rest[0]| + 1, Closed, []));
      } else {
        assert before + (pending + line) == before + pending + line;
        BlocksLie(text, before, pending + line, rest[1..], FenceAfter(fence, rest[0]));
      }
    }
  }

  lemma LieLater(text: string, blocks: seq<Block>, a: nat, b: nat)
    requires Lie(text, blocks, b) && a <= b
    ensures Lie(text, blocks, a)
  {
  }

  /** Each block is the stretch of the document its offsets name, and they ascend. */
  lemma SplitLies(markdown: string)
    ensures Lie(markdown, SplitBlocks(markdown), 0)
  {
    JoinLines(markdown);
    hide BlocksFrom, Lie, Lines, Join;
    Edges([]);
    var none: seq<string> := [];
    assert none + none + Lines(markdown) == Lines(markdown) && none + none == none;
    BlocksLie(markdown, none, none, Lines(markdown), Closed);
  }
}
