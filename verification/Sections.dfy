/** Splitting a document's blocks at its headings, each section with its anchor and the trail of
    headings above it. */
module Sections {
  import opened Options
  import opened Strings

  datatype Kind = Paragraph | Heading | Code | Quote | Bullets | Table | Image | Rule

  /** A block whose kind, and level when it is a heading, the Markdown parser has decided. */
  datatype Item = Item(start: nat, end: nat, text: string, kind: Kind, level: nat, language: string)

  datatype Section = Section(
    title: Option<string>, anchor: Option<string>, level: nat, breadcrumbs: seq<string>, blocks: seq<Item>)

  /** A heading the pre-pass recorded, with its anchor if it has one. */
  datatype Entry = Entry(title: string, anchor: Option<string>)

  datatype Head = Head(level: nat, title: string)

  predicate HashOrSpace(c: char) { c == '#' || c == ' ' }

  function TrimEnd(s: string): string {
    if s != "" && HashOrSpace(s[|s| - 1]) then TrimEnd(s[..|s| - 1]) else s
  }

  /** The text of a heading block: what follows the hashes, or the text without its hashes when it
      does not have the form of a heading line. */
  function HeadingTitle(text: string): string {
    var s := Strip(text);
    var n := RunEnd(s, 0, c => c == '#');
    if 1 <= n <= 6 && n < |s| && (s[n] == ' ' || s[n] == '\t') && OneLine(s) then Strip(s[n..])
    else Strip(TrimEnd(text[RunEnd(text, 0, HashOrSpace)..]))
  }

  /** The anchor of the first entry with this title. */
  function AnchorOf(outline: seq<Entry>, title: string): Option<string> {
    if outline == [] then None
    else if outline[0].title == title then outline[0].anchor
    else AnchorOf(outline[1..], title)
  }

  /** The entry in step with the heading when their titles agree, else the first that agrees. */
  function AnchorFor(outline: seq<Entry>, index: nat, title: string): Option<string> {
    if index < |outline| && outline[index].title == title then outline[index].anchor else AnchorOf(outline, title)
  }

  function Popped(stack: seq<Head>, level: nat): seq<Head> {
    if stack != [] && stack[|stack| - 1].level >= level then Popped(stack[..|stack| - 1], level) else stack
  }

  function Titles(heads: seq<Head>): (titles: seq<string>)
    ensures |titles| == |heads|
    ensures forall k :: 0 <= k < |heads| ==> titles[k] == heads[k].title
  {
    if heads == [] then [] else Titles(heads[..|heads| - 1]) + [heads[|heads| - 1].title]
  }

  function HeadOf(b: Item): Head { Head(b.level, HeadingTitle(b.text)) }

  function Begun(outline: seq<Entry>, index: nat, head: Head, above: seq<Head>): Section {
    Section(Some(head.title), AnchorFor(outline, index, head.title), head.level, Titles(above), [])
  }

  /** The sections appended from here on. */
  function WalkFrom(outline: seq<Entry>, blocks: seq<Item>, current: Section, stack: seq<Head>,
                    index: nat): seq<Section>
    decreases |blocks|
  {
    if blocks == [] then [current]
    else if !blocks[0].kind.Heading? then
      WalkFrom(outline, blocks[1..], current.(blocks := current.blocks + [blocks[0]]), stack, index)
    else
      var head := HeadOf(blocks[0]);
      var above := Popped(stack, head.level);
      (if current.blocks != [] || current.title == None then [current] else [])
      + WalkFrom(outline, blocks[1..], Begun(outline, index, head, above), above + [head], index + 1)
  }

  predicate Worth(s: Section) { s.blocks != [] || (s.title.Some? && s.title.value != "") }

  function Worthy(sections: seq<Section>): seq<Section> {
    if sections == [] then [] else (if Worth(sections[0]) then [sections[0]] else []) + Worthy(sections[1..])
  }

  function Leading(title: Option<string>): Section { Section(title, None, 0, [], []) }

  function SectionsOf(outline: seq<Entry>, blocks: seq<Item>, title: Option<string>): seq<Section> {
    Worthy(WalkFrom(outline, blocks, Leading(title), [], 0))
  }

  lemma WalkStep(outline: seq<Entry>, blocks: seq<Item>, i: nat, current: Section, stack: seq<Head>, index: nat,
                 done: seq<Section>)
    requires i < |blocks|
    ensures done + WalkFrom(outline, blocks[i..], current, stack, index)
      == if !blocks[i].kind.Heading? then
           done + WalkFrom(outline, blocks[i + 1..], current.(blocks := current.blocks + [blocks[i]]), stack, index)
         else
           var above := Popped(stack, HeadOf(blocks[i]).level);
           (done + if current.blocks != [] || current.title == None then [current] else [])
           + WalkFrom(outline, blocks[i + 1..], Begun(outline, index, HeadOf(blocks[i]), above),
                      above + [HeadOf(blocks[i])], index + 1)
  {
    hide HeadOf, Popped, Begun;
    assert blocks[i..][1..] == blocks[i + 1..];
    if blocks[i].kind.Heading? {
      var head := HeadOf(blocks[i]);
      var above := Popped(stack, head.level);
      var rest := WalkFrom(outline, blocks[i + 1..], Begun(outline, index, head, above), above + [head], index + 1);
      assert done + ([current] + rest) == (done + [current]) + rest && done + ([] + rest) == (done + []) + rest;
    }
  }

  method SplitSections(outline: seq<Entry>, blocks: seq<Item>, title: Option<string>) returns (sections: seq<Section>)
    ensures sections == SectionsOf(outline, blocks, title)
  {
    hide HeadingTitle, AnchorFor, WalkFrom, Titles, Worthy;
    sections := [];
    var stack: seq<Head> := [];
    var headingIndex := 0;
    var current := Leading(title);
    assert blocks[0..] == blocks;
    for i := 0 to |blocks|
      invariant sections + WalkFrom(outline, blocks[i..], current, stack, headingIndex)
             == WalkFrom(outline, blocks, Leading(title), [], 0)
    {
      WalkStep(outline, blocks, i, current, stack, headingIndex, sections);
      var block := blocks[i];
      if !block.kind.Heading? {
        current := current.(blocks := current.blocks + [block]);
        continue;
      }
      var text := HeadingTitle(block.text);
      var anchor := AnchorFor(outline, headingIndex, text);
      headingIndex := headingIndex + 1;
      ghost var was := stack;
      while stack != [] && stack[|stack| - 1].level >= block.level
        invariant Popped(stack, block.level) == Popped(was, block.level)
      {
        stack := stack[..|stack| - 1];
      }
      var breadcrumbs := Titles(stack);
      stack := stack + [Head(block.level, text)];
      if current.blocks != [] || current.title == None { sections := sections + [current]; }
      current := Section(Some(text), anchor, block.level, breadcrumbs, []);
    }
    WalkDone(outline, blocks[|blocks|..], current, stack, headingIndex);
    sections := Worthy(sections + [current]);
  }

  lemma WalkDone(outline: seq<Entry>, blocks: seq<Item>, current: Section, stack: seq<Head>, index: nat)
    requires blocks == []
    ensures WalkFrom(outline, blocks, current, stack, index) == [current]
  {
  }

  // --- What the sections are ----------------------------------------------------------------------

  /** The headings above a heading of `level` that follows `heads`: the last of a lower level, and
      those above it in turn. */
  function Above(heads: seq<Head>, level: nat): seq<Head> {
    if heads == [] then []
    else
      var last := heads[|heads| - 1];
      if last.level < level then Above(heads[..|heads| - 1], last.level) + [last]
      else Above(heads[..|heads| - 1], level)
  }

  /** One section for each heading, and one for what stands before them all. */
  function Outlined(outline: seq<Entry>, blocks: seq<Item>, current: Section,
                    heads: seq<Head>): (sections: seq<Section>)
    ensures sections != []
    decreases |blocks|
  {
    if blocks == [] then [current]
    else if !blocks[0].kind.Heading? then
      Outlined(outline, blocks[1..], current.(blocks := current.blocks + [blocks[0]]), heads)
    else
      var head := HeadOf(blocks[0]);
      [current] + Outlined(outline, blocks[1..], Begun(outline, |heads|, head, Above(heads, head.level)),
                           heads + [head])
  }

  /** Sections with a body; the last one also when it has only a title. */
  function Kept(sections: seq<Section>): seq<Section>
    requires sections != []
  {
    if |sections| == 1 then Worthy(sections)
    else (if sections[0].blocks != [] then [sections[0]] else []) + Kept(sections[1..])
  }

  /** The headings still open after `heads`. */
  function StillOpen(heads: seq<Head>): seq<Head> {
    if heads == [] then [] else
      var last := heads[|heads| - 1];
      Above(heads[..|heads| - 1], last.level) + [last]
  }

  lemma {:induction false} PoppedIsAbove(heads: seq<Head>, bound: nat, level: nat)
    requires level <= bound
    ensures Popped(Above(heads, bound), level) == Above(heads, level)
    decreases |heads|
  {
    if heads != [] {
      var rest, last := heads[..|heads| - 1], heads[|heads| - 1];
      if last.level < bound {
        var stack := Above(rest, last.level) + [last];
        assert stack[..|stack| - 1] == Above(rest, last.level);
        if last.level >= level { PoppedIsAbove(rest, last.level, level); }
      } else {
        PoppedIsAbove(rest, bound, level);
      }
    }
  }

  lemma PoppedOpen(heads: seq<Head>, level: nat)
    ensures Popped(StillOpen(heads), level) == Above(heads, level)
  {
    if heads != [] {
      var rest, last := heads[..|heads| - 1], heads[|heads| - 1];
      var stack := StillOpen(heads);
      assert stack[..|stack| - 1] == Above(rest, last.level);
      if last.level >= level { PoppedIsAbove(rest, last.level, level); }
    }
  }

  lemma {:induction false} WalkIsOutline(outline: seq<Entry>, blocks: seq<Item>, current: Section, heads: seq<Head>)
    ensures Worthy(WalkFrom(outline, blocks, current, StillOpen(heads), |heads|))
        == Kept(Outlined(outline, blocks, current, heads))
    decreases |blocks|
  {
    hide HeadingTitle, AnchorFor, Titles;
    if blocks != [] {
      if !blocks[0].kind.Heading? {
        WalkIsOutline(outline, blocks[1..], current.(blocks := current.blocks + [blocks[0]]), heads);
      } else {
        var head := HeadOf(blocks[0]);
        var above := Above(heads, head.level);
        PoppedOpen(heads, head.level);
        assert (heads + [head])[..|heads|] == heads;
        assert StillOpen(heads + [head]) == above + [head];
        WalkIsOutline(outline, blocks[1..], Begun(outline, |heads|, head, above), heads + [head]);
        AppendWorthy(current,
            WalkFrom(outline, blocks[1..], Begun(outline, |heads|, head, above), above + [head], |heads| + 1),
                     Outlined(outline, blocks[1..], Begun(outline, |heads|, head, above), heads + [head]));
      }
    }
  }

  lemma AppendWorthy(current: Section, walked: seq<Section>, outlined: seq<Section>)
    requires outlined != [] && Worthy(walked) == Kept(outlined)
    ensures Worthy((if current.blocks != [] || current.title == None then [current] else []) + walked)
        == Kept([current] + outlined)
  {
    assert ([current] + walked)[1..] == walked && ([current] + outlined)[1..] == outlined;
    assert [] + walked == walked;
  }

  /** The sections are those of the outline, each with the headings above it as its trail, except
      that a heading with no body is dropped unless it is the last. */
  lemma SectionsAreOutline(outline: seq<Entry>, blocks: seq<Item>, title: Option<string>)
    ensures SectionsOf(outline, blocks, title) == Kept(Outlined(outline, blocks, Leading(title), []))
  {
    WalkIsOutline(outline, blocks, Leading(title), []);
  }

  // --- No block is lost ---------------------------------------------------------------------------

  function BlocksOf(sections: seq<Section>): seq<Item> {
    if sections == [] then [] else sections[0].blocks + BlocksOf(sections[1..])
  }

  function Bodies(blocks: seq<Item>): seq<Item> {
    if blocks == [] then [] else (if blocks[0].kind.Heading? then [] else [blocks[0]]) + Bodies(blocks[1..])
  }

  lemma {:induction false} KeptBlocks(sections: seq<Section>)
    requires sections != []
    ensures BlocksOf(Kept(sections)) == BlocksOf(sections)
  {
    if |sections| > 1 {
      KeptBlocks(sections[1..]);
      var rest := Kept(sections[1..]);
      assert ([sections[0]] + rest)[1..] == rest && [] + rest == rest;
      assert [] + BlocksOf(sections[1..]) == BlocksOf(sections[1..]);
    } else {
      assert sections[1..] == [] && Worthy([]) == [];
    }
  }

  lemma {:induction false} OutlinedBlocks(outline: seq<Entry>, blocks: seq<Item>, current: Section, heads: seq<Head>)
    ensures BlocksOf(Outlined(outline, blocks, current, heads)) == current.blocks + Bodies(blocks)
    decreases |blocks|
  {
    hide HeadingTitle, AnchorFor, Titles, Above;
    if blocks == [] {
      assert BlocksOf([current]) == current.blocks + BlocksOf([]);
    } else if !blocks[0].kind.Heading? {
      OutlinedBlocks(outline, blocks[1..], current.(blocks := current.blocks + [blocks[0]]), heads);
      assert current.blocks + [blocks[0]] + Bodies(blocks[1..]) == current.blocks + ([blocks[0]] + Bodies(blocks[1..]));
    } else {
      var head := HeadOf(blocks[0]);
      var next := Begun(outline, |heads|, head, Above(heads, head.level));
      OutlinedBlocks(outline, blocks[1..], next, heads + [head]);
      var rest := Outlined(outline, blocks[1..], next, heads + [head]);
      assert ([current] + rest)[1..] == rest;
    }
  }

  /** Every block that is not a heading is in exactly one section, in document order. */
  lemma SectionsKeepBlocks(outline: seq<Entry>, blocks: seq<Item>, title: Option<string>)
    ensures BlocksOf(SectionsOf(outline, blocks, title)) == Bodies(blocks)
  {
    SectionsAreOutline(outline, blocks, title);
    hide Kept, Outlined, SectionsOf, Bodies;
    KeptBlocks(Outlined(outline, blocks, Leading(title), []));
    OutlinedBlocks(outline, blocks, Leading(title), []);
  }
}
