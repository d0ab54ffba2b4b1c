/** Blank-line separated Markdown blocks with their offsets, respecting code fences. */
module Blocks {
  import opened Strings

  datatype Block = Block(start: nat, end: nat, text: string)

  datatype Fence = Closed | Open(mark: char)

  /** `line` starts with three of `mark`. */
  predicate Marked(line: string, mark: char) { Three(line, 0, mark, mark, mark) }

  /** The fence a line opens: three backticks or tildes, whatever whitespace stands before. */
  function Opens(line: string): Fence {
    if Marked(Strip(line), '`') then Open('`') else if Marked(Strip(line), '~') then Open('~') else Closed
  }

  /** The fence after a line; three marks close it, however many opened it. */
  function FenceAfter(fence: Fence, line: string): Fence {
    match fence
    case Closed => Opens(line)
    case Open(mark) => if Marked(Strip(line), mark) then Closed else fence
  }

  /** A blank line outside fences is what separates blocks. */
  predicate Separates(fence: Fence, line: string) {
    fence.Closed? && Opens(line).Closed? && Blank(line)
  }

  /** The block made of `lines`, which end just before `offset`. */
  function Ended(lines: seq<string>, offset: nat): seq<Block>
    requires Total(lines) <= offset
  {
    if lines == [] then [] else [Block(offset - Total(lines), offset - 1, Join(lines, "\n"))]
  }

  /** The blocks of `lines`, the first of which stands at `offset`, after the lines `pending`
      of a block that has begun. */
  function BlocksFrom(lines: seq<string>, offset: nat, fence: Fence, pending: seq<string>): seq<Block>
    requires Total(pending) <= offset
  {
    if lines == [] then Ended(pending, offset)
    else
      var next := offset + |lines[0]| + 1;
      if Separates(fence, lines[0]) then Ended(pending, offset) + BlocksFrom(lines[1..], next, Closed, [])
      else
        TotalAppend(pending, [lines[0]]);
        BlocksFrom(lines[1..], next, FenceAfter(fence, lines[0]), pending + [lines[0]])
  }

  function SplitBlocks(markdown: string): seq<Block> {
    BlocksFrom(Lines(markdown), 0, Closed, [])
  }

  // --- The loop over line numbers and offsets ---------------------------------------------------

  /** Lines `first` to `last` of a text, cut out by their offsets. */
  lemma CutLines(lines: seq<string>, first: nat, last: nat)
    requires first <= last < |lines|
    ensures Total(lines[..first]) + Total(lines[first..last + 1]) == Total(lines[..last + 1])
    ensures Total(lines[..last]) + |lines[last]| + 1 == Total(lines[..last + 1]) <= |Join(lines, "\n")| + 1
    ensures Total(lines[..first]) <= Total(lines[..last])
    ensures Join(lines, "\n")[Total(lines[..first])..Total(lines[..last + 1]) - 1] == Join(lines[first..last + 1], "\n")
  {
    var a, b, c := lines[..first], lines[first..last + 1], lines[last + 1..];
    assert lines[..last + 1] == a + b == lines[..last] + [lines[last]] && a + b + c == lines
        && lines[..last] == a + lines[first..last];
    TotalAppend(a, b);
    TotalAppend(a, lines[first..last]);
    TotalAppend(lines[..last], [lines[last]]);
    CutMiddle(a, b, c);
  }

  lemma CutMiddle(a: seq<string>, b: seq<string>, c: seq<string>)
    requires b != []
    ensures Total(a + b) <= |Join(a + b + c, "\n")| + 1 && Total(a) < Total(a + b)
    ensures Join(a + b + c, "\n")[Total(a)..Total(a + b) - 1] == Join(b, "\n")
  {
    TotalAppend(a, b);
    TotalJoin(b);
    var head := if a == [] then "" else Join(a, "\n") + "\n";
    var tail := if c == [] then "" else "\n" + Join(c, "\n");
    assert |head| == Total(a) by { if a != [] { TotalJoin(a); } }
    assert Join(a + b, "\n") == head + Join(b, "\n") by {
      if a != [] { JoinAppend(a, b, "\n"); } else { assert a + b == b; }
    }
    assert Join(a + b + c, "\n") == head + Join(b, "\n") + tail by {
      if c != [] { JoinAppend(a + b, c, "\n"); } else { assert a + b + c == a + b; }
    }
  }

  method Split(markdown: string) returns (blocks: seq<Block>)
    ensures blocks == SplitBlocks(markdown)
  {
    var lines := Lines(markdown);
    JoinLines(markdown);
    var offsets: seq<nat> := [];
    var cursor: nat := 0;
    for i := 0 to |lines|
      invariant |offsets| == i && cursor == Total(lines[..i])
      invariant forall k :: 0 <= k < i ==> offsets[k] == Total(lines[..k])
    {
      CutLines(lines, i, i);
      offsets := offsets + [cursor];
      cursor := cursor + |lines[i]| + 1;
    }
    blocks := ScanBlocks(markdown, lines, offsets);
  }

  /** What one line does to the blocks still to come. */
  lemma OneLineOn(lines: seq<string>, index: nat, fence: Fence, pending: seq<string>, blocks: seq<Block>)
    requires index < |lines| && Total(pending) <= Total(lines[..index])
    ensures Total(lines[..index + 1]) == Total(lines[..index]) + |lines[index]| + 1
    ensures Total(pending + [lines[index]]) <= Total(lines[..index + 1])
    ensures var here, next := Total(lines[..index]), Total(lines[..index + 1]);
      blocks + BlocksFrom(lines[index..], here, fence, pending)
      == if Separates(fence, lines[index])
         then (blocks + Ended(pending, here)) + BlocksFrom(lines[index + 1..], next, Closed, [])
         else blocks + BlocksFrom(lines[index + 1..], next, FenceAfter(fence, lines[index]), pending + [lines[index]])
  {
    hide Separates, FenceAfter;
    assert lines[..index + 1] == lines[..index] + [lines[index]];
    TotalAppend(lines[..index], [lines[index]]);
    TotalAppend(pending, [lines[index]]);
    assert lines[index..][1..] == lines[index + 1..];
    var rest := BlocksFrom(lines[index + 1..], Total(lines[..index + 1]), Closed, []);
    assert blocks + (Ended(pending, Total(lines[..index])) + rest)
        == (blocks + Ended(pending, Total(lines[..index]))) + rest;
  }

  /** _make_block, and the block it stands for. */
  method MakeBlock(markdown: string, lines: seq<string>, offsets: seq<nat>, first: nat,
                   last: nat) returns (block: Block)
    requires markdown == Join(lines, "\n") && first <= last < |lines| && |offsets| == |lines|
    requires forall k :: 0 <= k < |lines| ==> offsets[k] == Total(lines[..k])
    ensures Total(lines[first..last + 1]) <= Total(lines[..last + 1])
    ensures [block] == Ended(lines[first..last + 1], Total(lines[..last + 1]))
  {
    CutLines(lines, first, last);
    var start := offsets[first];
    var end := offsets[last] + |lines[last]|;
    block := Block(start, end, markdown[start..end]);
  }

  method ScanBlocks(markdown: string, lines: seq<string>, offsets: seq<nat>) returns (blocks: seq<Block>)
    requires lines != [] && markdown == Join(lines, "\n") && |offsets| == |lines|
    requires forall k :: 0 <= k < |lines| ==> offsets[k] == Total(lines[..k])
    ensures blocks == BlocksFrom(lines, 0, Closed, [])
  {
    Edges(lines);
    hide BlocksFrom, Total, Opens, Ended, Blank, Join;
    blocks := [];
    var fence := Closed;
    var start := -1;
    var index := 0;
    ghost var pending: seq<string> := [];
    while index < |lines|
      invariant 0 <= index <= |lines| && -1 <= start && (start < index || start < 0)
      invariant pending == if start < 0 then [] else lines[start..index]
      invariant Total(pending) <= Total(lines[..index])
      invariant fence.Open? ==> start >= 0
      invariant blocks + BlocksFrom(lines[index..], Total(lines[..index]), fence, pending)
          == BlocksFrom(lines, 0, Closed, [])
    {
      var line := lines[index];
      OneLineOn(lines, index, fence, pending, blocks);
      assert start >= 0 ==> lines[start..index] + [line] == lines[start..index + 1];
      assert [] + [line] == lines[index..index + 1];
      Edges(pending);
      var found := if fence.Closed? then Opens(line) else Closed;
      if found.Open? {
        if start < 0 { start := index; }
        fence := found;
      } else if fence.Open? {
        if Marked(Strip(line), fence.mark) { fence := Closed; }
      } else if Blank(line) {
        if start >= 0 {
          var block := MakeBlock(markdown, lines, offsets, start, index - 1);
          blocks := blocks + [block];
          start := -1;
        }
      } else if start < 0 {
        start := index;
      }
      index := index + 1;
      pending := if start < 0 then [] else lines[start..index];
    }
    Edges(lines);
    LastBlock(Total(lines), fence, pending);
    if start >= 0 {
      var block := MakeBlock(markdown, lines, offsets, start, |lines| - 1);
      blocks := blocks + [block];
    }
  }

  lemma Edges(lines: seq<string>)
    ensures lines[..0] == [] && lines[0..] == lines && lines[..|lines|] == lines && lines[|lines|..] == []
    ensures Total([]) == 0 && forall offset: nat :: Ended([], offset) == []
  {
  }

  lemma LastBlock(offset: nat, fence: Fence, pending: seq<string>)
    requires Total(pending) <= offset
    ensures BlocksFrom([], offset, fence, pending) == Ended(pending, offset)
  {
  }
}
