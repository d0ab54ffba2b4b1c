/** A whole document through binding, packing and merging: no line of its text is lost, repeated or
    moved. */
module ChunkDocument {
  import opened Options
  import opened Strings
  import opened Sections
  import opened Units
  import opened Packing
  import opened PackingFacts
  import opened Merging

  function Hashes(n: nat): string {
    if n == 0 then "" else "#" + Hashes(n - 1)
  }

  /** The block that stands for a heading with no body. */
  function HeadingItem(s: Section): Item
    requires s.title.Some?
  {
    Item(0, 0, Hashes(if s.level > 1 then s.level else 1) + " " + s.title.value, Heading, s.level, "")
  }

  /** What a section puts into chunks: its bound blocks, or its heading when it has none. */
  function UnitsOf(s: Section, steps: seq<Region>): seq<Group> {
    if Bound(s.blocks, steps) != [] then Bound(s.blocks, steps)
    else if s.title.Some? && s.title.value != "" then [Group([HeadingItem(s)], false)]
    else []
  }

  function Kept(sections: seq<Section>, steps: seq<Region>): seq<Item> {
    if sections == [] then [] else Flat(UnitsOf(sections[0], steps)) + Kept(sections[1..], steps)
  }

  lemma {:induction false} BoundFilled(blocks: seq<Item>, i: nat, steps: seq<Region>, units: seq<Group>)
    requires i <= |blocks| && Filled(units)
    ensures Filled(GroupFrom(blocks, i, steps, units))
    decreases |blocks| - i
  {
    hide RegionOf, RegionEnd, MediaEnd, GroupFrom;
    if i == |blocks| {
      GroupDone(blocks, steps, units);
    } else {
      GroupStep(blocks, i, steps, units);
      if blocks[i].kind.Rule? {
        BoundFilled(blocks, i + 1, steps, units);
      } else if RegionOf(steps, blocks[i]).Some? {
        var j := RegionEnd(blocks, i + 1, RegionOf(steps, blocks[i]).value);
        BoundFilled(blocks, j, steps, units + [Group(blocks[i..j], true)]);
      } else {
        var j := MediaEnd(blocks, i + 1);
        BoundFilled(blocks, j, steps, Attached(units, blocks[i..j]));
      }
    }
  }

  lemma UnitsFilled(s: Section, steps: seq<Region>)
    ensures Filled(UnitsOf(s, steps))
  {
    hide GroupFrom, HeadingItem;
    BoundFilled(s.blocks, 0, steps, []);
  }

  /** The units of one section, packed. */
  method PackSection(s: Section, steps: seq<Region>, sizes: Sizes, count: Count) returns (packed: seq<Candidate>)
    ensures CandidateLines(packed) == LinesIn(Flat(UnitsOf(s, steps)))
  {
    hide Bound, TokensOf, PackFrom, CandidateLines, LinesIn, Flat, HeadingItem;
    var units := BindUnits(s.blocks, steps, count);
    UnitsFilled(s, steps);
    if units == [] {
      if s.title.None? || s.title.value == "" {
        NoLines();
        return [];
      }
      var heading := HeadingItem(s);
      OneText(heading, count);
      var unit := new Unit([heading], count(heading.text), false);
      units := [unit];
      assert Values(units[..0]) == [] && Values(units) == [unit.Value()];
    }
    packed := Pack(units, s, sizes, count);
    PackKeepsLines(Values(units), [], false, s, sizes, count);
    NoLines();
    assert [] + LinesIn(Flat(Values(units))) == LinesIn(Flat(Values(units)));
  }

  method PackSections(sections: seq<Section>, steps: seq<Region>, sizes: Sizes,
                      count: Count) returns (candidates: seq<Candidate>)
    ensures CandidateLines(candidates) == LinesIn(Kept(sections, steps))
  {
    candidates := [];
    NoLines();
    assert Kept(sections[..0], steps) == [] && sections[..|sections|] == sections;
    hide UnitsOf, CandidateLines, LinesIn, Flat, Kept;
    for i := 0 to |sections|
      invariant CandidateLines(candidates) == LinesIn(Kept(sections[..i], steps))
    {
      var packed := PackSection(sections[i], steps, sizes, count);
      CandidateLinesAppend(candidates, packed);
      KeptNext(sections, i, steps);
      LinesInAppend(Kept(sections[..i], steps), Flat(UnitsOf(sections[i], steps)));
      candidates := candidates + packed;
    }
  }

  lemma {:induction false} KeptAppend(a: seq<Section>, b: seq<Section>, steps: seq<Region>)
    ensures Kept(a + b, steps) == Kept(a, steps) + Kept(b, steps)
    decreases |a|
  {
    hide UnitsOf, Flat;
    if a == [] {
      assert a + b == b;
    } else {
      assert (a + b)[0] == a[0] && (a + b)[1..] == a[1..] + b;
      KeptAppend(a[1..], b, steps);
    }
  }

  lemma KeptNext(sections: seq<Section>, i: nat, steps: seq<Region>)
    requires i < |sections|
    ensures Kept(sections[..i + 1], steps) == Kept(sections[..i], steps) + Flat(UnitsOf(sections[i], steps))
  {
    hide UnitsOf, Flat;
    var last := [sections[i]];
    assert sections[..i + 1] == sections[..i] + last && last[1..] == [];
    KeptAppend(sections[..i], last, steps);
    assert Kept(last, steps) == Flat(UnitsOf(sections[i], steps)) + Kept([], steps);
  }

  // --- The chunks -------------------------------------------------------------------------------------

  /** A candidate whose body is blank holds no line that is not. */
  lemma EmptyBody(c: Candidate)
    requires BodyOf(c.blocks) == ""
    ensures LinesIn(c.blocks) == []
  {
    hide NonBlank, Lines, LinesIn, Texts, IsSpace;
    var text := Join(Texts(c.blocks), "\n\n");
    assert Blank(text);
    if c.blocks == [] {
      NoLines();
    } else {
      JoinLines(text);
      BlankJoin(Lines(text));
      UnitLinesAre(c.blocks);
    }
  }

  method KeepBodies(merged: seq<Candidate>) returns (chunks: seq<Candidate>)
    ensures CandidateLines(chunks) == CandidateLines(merged)
    ensures forall c :: c in chunks ==> c in merged && BodyOf(c.blocks) != ""
  {
    chunks := [];
    NoLines();
    hide CandidateLines, BodyOf, LinesIn, AllBlocks;
    assert merged[..0] == [] && merged[..|merged|] == merged;
    for i := 0 to |merged|
      invariant CandidateLines(chunks) == CandidateLines(merged[..i])
      invariant forall c :: c in chunks ==> c in merged && BodyOf(c.blocks) != ""
    {
      var c := merged[i];
      assert merged[..i + 1] == merged[..i] + [c];
      CandidateLinesAppend(merged[..i], [c]);
      CandidateLinesAppend(chunks, [c]);
      if BodyOf(c.blocks) != "" {
        chunks := chunks + [c];
      } else {
        EmptyBody(c);
        LinesOfOne(c);
      }
    }
  }

  lemma LinesOfOne(c: Candidate)
    ensures CandidateLines([c]) == LinesIn(c.blocks)
  {
    hide LinesIn;
    OneCandidate(c);
  }

  /** The chunks of a document, or nothing when it has text and no chunk came of it. */
  method Chunked(markdown: string, outline: seq<Entry>, blocks: seq<Item>, steps: seq<Region>, r: Ruler)
    returns (chunks: Option<seq<Candidate>>)
    ensures chunks.Some? ==>
      CandidateLines(chunks.value) == LinesIn(Kept(SectionsOf(outline, blocks, r.docTitle), steps))
    ensures chunks.Some? ==> Strip(markdown) == "" || chunks.value != []
    ensures chunks.Some? ==> forall c :: c in chunks.value ==> BodyOf(c.blocks) != ""
    ensures chunks.None? ==>
      Strip(markdown) != "" && LinesIn(Kept(SectionsOf(outline, blocks, r.docTitle), steps)) == []
  {
    hide CandidateLines, LinesIn, Kept, BodyOf, MergeFrom, SectionsOf;
    var sections := SplitSections(outline, blocks, r.docTitle);
    var candidates := PackSections(sections, steps, r.sizes, r.count);
    var merged := MergeUndersized(candidates, r);
    MergeKeepsLines(candidates, r);
    var kept := KeepBodies(merged);
    NoLines();
    if Strip(markdown) != "" && kept == [] { return None; }
    chunks := Some(kept);
  }

  lemma MergeKeepsLines(cs: seq<Candidate>, r: Ruler)
    ensures CandidateLines(MergeFrom(cs, r)) == CandidateLines(cs)
  {
    hide LinesIn, AllBlocks, MergeFrom;
    MergeKeepsBlocks(cs, r);
  }

  // --- What is kept -----------------------------------------------------------------------------------

  /** The blocks that are neither headings nor rules. */
  function Essential(items: seq<Item>): seq<Item> {
    if items == [] then []
    else (if items[0].kind.Heading? || items[0].kind.Rule? then [] else [items[0]]) + Essential(items[1..])
  }

  lemma {:induction false} EssentialAppend(a: seq<Item>, b: seq<Item>)
    ensures Essential(a + b) == Essential(a) + Essential(b)
  {
    if a == [] {
      assert a + b == b;
    } else {
      assert (a + b)[0] == a[0] && (a + b)[1..] == a[1..] + b;
      EssentialAppend(a[1..], b);
    }
  }

  lemma {:induction false} EssentialDropped(all: seq<Item>, kept: seq<Item>)
    requires DropsRules(all, kept)
    ensures Essential(kept) == Essential(all)
    decreases |all|
  {
    if all != [] {
      if kept != [] && kept[0] == all[0] && DropsRules(all[1..], kept[1..]) {
        EssentialDropped(all[1..], kept[1..]);
      } else {
        EssentialDropped(all[1..], kept);
        assert [] + Essential(all[1..]) == Essential(all[1..]);
      }
    }
  }

  lemma {:induction false} EssentialBodies(blocks: seq<Item>)
    ensures Essential(Bodies(blocks)) == Essential(blocks)
  {
    if blocks != [] {
      EssentialBodies(blocks[1..]);
      EssentialAppend(if blocks[0].kind.Heading? then [] else [blocks[0]], Bodies(blocks[1..]));
      assert Essential([blocks[0]])
          == (if blocks[0].kind.Heading? || blocks[0].kind.Rule? then [] else [blocks[0]]) + Essential([]);
      assert [] + Essential(blocks[1..]) == Essential(blocks[1..]);
    }
  }

  lemma EssentialUnits(s: Section, steps: seq<Region>)
    ensures Essential(Flat(UnitsOf(s, steps))) == Essential(s.blocks)
  {
    hide Bound, DropsRules, Essential;
    BindingKeeps(s.blocks, steps);
    EssentialDropped(s.blocks, Flat(Bound(s.blocks, steps)));
    NoUnits();
    if Bound(s.blocks, steps) == [] && s.title.Some? && s.title.value != "" {
      FlatOne(Group([HeadingItem(s)], false));
      HeadingDrops(HeadingItem(s));
    }
  }

  lemma HeadingDrops(item: Item)
    requires item.kind.Heading?
    ensures Essential([item]) == Essential([])
  {
    assert [item][1..] == [];
  }

  lemma {:induction false} EssentialKept(sections: seq<Section>, steps: seq<Region>)
    ensures Essential(Kept(sections, steps)) == Essential(BlocksOf(sections))
  {
    hide UnitsOf, Flat, Essential;
    if sections != [] {
      EssentialKept(sections[1..], steps);
      EssentialUnits(sections[0], steps);
      EssentialAppend(Flat(UnitsOf(sections[0], steps)), Kept(sections[1..], steps));
      EssentialAppend(sections[0].blocks, BlocksOf(sections[1..]));
    }
  }

  /** Of the document's blocks that are neither headings nor rules, every one is kept, once and in
      order: the kept blocks differ from the document's only in headings and rules. */
  lemma ChunkingKeepsBlocks(outline: seq<Entry>, blocks: seq<Item>, title: Option<string>, steps: seq<Region>)
    ensures Essential(Kept(SectionsOf(outline, blocks, title), steps)) == Essential(blocks)
  {
    hide SectionsOf, Essential, Kept;
    SectionsKeepBlocks(outline, blocks, title);
    EssentialKept(SectionsOf(outline, blocks, title), steps);
    EssentialBodies(blocks);
  }
}
