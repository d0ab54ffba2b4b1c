/** What packing keeps: every line, every unit that fits, and the maximum size. */
module PackingFacts {
  import opened Strings
  import opened Sections
  import opened Units
  import opened Packing

  // --- Lines ----------------------------------------------------------------------------------------

  function LinesIn(items: seq<Item>): seq<string> {
    if items == [] then [] else NonBlank(Lines(items[0].text)) + LinesIn(items[1..])
  }

  function AllBlocks(candidates: seq<Candidate>): seq<Item> {
    if candidates == [] then [] else candidates[0].blocks + AllBlocks(candidates[1..])
  }

  lemma {:induction false} LinesInAppend(a: seq<Item>, b: seq<Item>)
    ensures LinesIn(a + b) == LinesIn(a) + LinesIn(b)
  {
    hide NonBlank, Lines;
    if a == [] {
      assert a + b == b;
    } else {
      assert (a + b)[0] == a[0] && (a + b)[1..] == a[1..] + b;
      LinesInAppend(a[1..], b);
      assert NonBlank(Lines(a[0].text)) + (LinesIn(a[1..]) + LinesIn(b)) == LinesIn(a) + LinesIn(b);
    }
  }

  lemma {:induction false} AllBlocksAppend(a: seq<Candidate>, b: seq<Candidate>)
    ensures AllBlocks(a + b) == AllBlocks(a) + AllBlocks(b)
  {
    if a == [] {
      assert a + b == b;
    } else {
      assert (a + b)[0] == a[0] && (a + b)[1..] == a[1..] + b;
      AllBlocksAppend(a[1..], b);
    }
  }

  lemma LinesInOne(item: Item)
    ensures LinesIn([item]) == NonBlank(Lines(item.text)) && LinesIn([]) == []
  {
    hide NonBlank, Lines;
    assert LinesIn([]) == [] && [item][1..] == [];
  }

  lemma BlankLineAdds(a: seq<string>, b: seq<string>)
    ensures NonBlank(a + [""] + b) == NonBlank(a) + NonBlank(b)
  {
    NonBlankAppend(a + [""], b);
    NonBlankAppend(a, [""]);
    assert NonBlank([""]) == [] by { assert [""][1..] == [] && Blank(""); NonBlankNone(); }
  }

  lemma {:induction false} UnitLinesAre(blocks: seq<Item>)
    requires blocks != []
    ensures NonBlank(UnitLines(blocks)) == LinesIn(blocks)
    decreases |blocks|
  {
    hide NonBlank, Lines;
    var first := blocks[0].text;
    if |blocks| == 1 {
      assert Texts(blocks) == [first] by { assert Texts(blocks[1..]) == []; }
      LinesInOne(blocks[0]);
      assert blocks == [blocks[0]];
    } else {
      var rest := Join(Texts(blocks[1..]), "\n\n");
      UnitLinesAre(blocks[1..]);
      assert Texts(blocks)[1..] == Texts(blocks[1..]) && |Texts(blocks)| > 1;
      assert Join(Texts(blocks), "\n\n") == first + "\n\n" + rest == first + "\n" + "" + "\n" + rest;
      LinesAppend(first + "\n" + "", rest);
      LinesAppend(first, "");
      LinesOfLine("");
      BlankLineAdds(Lines(first), Lines(rest));
    }
  }

  lemma {:induction false} BlankJoin(piece: seq<string>)
    requires Blank(Join(piece, "\n"))
    ensures NonBlank(piece) == []
    decreases |piece|
  {
    hide IsSpace;
    if |piece| == 1 {
      assert piece[1..] == [];
      NonBlankNone();
    } else if |piece| > 1 {
      var s, rest := Join(piece, "\n"), Join(piece[1..], "\n");
      assert s == piece[0] + "\n" + rest;
      assert forall k :: 0 <= k < |piece[0]| ==> piece[0][k] == s[k];
      assert forall k :: 0 <= k < |rest| ==> rest[k] == s[|piece[0]| + 1 + k];
      BlankJoin(piece[1..]);
    }
  }

  lemma {:induction false} PieceItemsLines(template: Item, pieces: seq<seq<string>>)
    requires forall k :: 0 <= k < |Concat(pieces)| ==> OneLine(Concat(pieces)[k])
    ensures LinesIn(PieceItems(template, pieces)) == NonBlank(Concat(pieces))
    decreases |pieces|
  {
    hide NonBlank, Lines, Join, Blank, OneLine;
    if pieces == [] {
      NonBlankNone();
    } else {
      var piece, rest := pieces[0], Concat(pieces[1..]);
      assert forall k :: 0 <= k < |piece| ==> piece[k] == Concat(pieces)[k];
      assert forall k :: 0 <= k < |rest| ==> rest[k] == Concat(pieces)[|piece| + k];
      PieceItemsLines(template, pieces[1..]);
      NonBlankAppend(piece, rest);
      if Blank(Join(piece, "\n")) {
        BlankJoin(piece);
        assert [] + PieceItems(template, pieces[1..]) == PieceItems(template, pieces[1..]);
      } else {
        NotBlankPiece(piece);
        LinesOfJoin(piece);
        LinesInOne(PieceItem(template, piece));
        LinesInAppend([PieceItem(template, piece)], PieceItems(template, pieces[1..]));
      }
    }
  }

  lemma NotBlankPiece(piece: seq<string>)
    requires !Blank(Join(piece, "\n"))
    ensures piece != []
  {
  }

  /** Cutting a unit keeps its lines. */
  lemma OversizedLines(blocks: seq<Item>, sizes: Sizes, count: Count)
    requires blocks != []
    ensures LinesIn(Oversized(blocks, sizes, count)) == LinesIn(blocks)
  {
    hide NonBlank, Lines, Pieces, LinesIn, PieceItems;
    var lines := UnitLines(blocks);
    LinesAreLines(Join(Texts(blocks), "\n\n"));
    PiecesKeepLines(lines, [], sizes, count);
    assert [] + lines == lines;
    PieceItemsLines(blocks[0], Pieces(lines, [], sizes, count));
    UnitLinesAre(blocks);
  }

  lemma {:induction false} PieceCandidatesBlocks(items: seq<Item>, section: Section, isStep: bool, index: nat,
                                                 total: nat)
    ensures AllBlocks(PieceCandidates(items, section, isStep, index, total)) == items
    decreases |items|
  {
    if items != [] {
      PieceCandidatesBlocks(items[1..], section, isStep, index + 1, total);
      var first := Candidate([items[0]], section, isStep, index > 0, index + 1 < total);
      var rest := PieceCandidates(items[1..], section, isStep, index + 1, total);
      assert ([first] + rest)[1..] == rest && [items[0]] + items[1..] == items;
    }
  }

  lemma FlushedBlocks(current: seq<Item>, isStep: bool, section: Section)
    ensures AllBlocks(Flushed(current, isStep, section)) == current
  {
    if current != [] {
      var c := Candidate(current, section, isStep, false, false);
      assert [c][1..] == [] && AllBlocks([]) == [];
    }
  }

  function CandidateLines(candidates: seq<Candidate>): seq<string> { LinesIn(AllBlocks(candidates)) }

  lemma CandidateLinesAppend(a: seq<Candidate>, b: seq<Candidate>)
    ensures CandidateLines(a + b) == CandidateLines(a) + CandidateLines(b)
  {
    AllBlocksAppend(a, b);
    LinesInAppend(AllBlocks(a), AllBlocks(b));
  }

  /** Packing keeps every line that is not blank, in order. */
  lemma {:induction false} PackKeepsLines(units: seq<Group>, current: seq<Item>, isStep: bool, section: Section,
                                          sizes: Sizes, count: Count)
    requires Filled(units)
    ensures CandidateLines(PackFrom(units, current, isStep, section, sizes, count))
        == LinesIn(current) + LinesIn(Flat(units))
    decreases |units|
  {
    hide LinesIn, AllBlocks, CandidateLines, TokensOf, Oversized, PieceCandidates, Flushed;
    var flushed := Flushed(current, isStep, section);
    assert CandidateLines(flushed) == LinesIn(current) by { FlushedLines(current, isStep, section); }
    NoLines();
    if units == [] {
      assert LinesIn(current) + [] == LinesIn(current);
    } else {
      var unit := units[0];
      LinesInAppend(unit.blocks, Flat(units[1..]));
      LinesInAppend(current, unit.blocks);
      if TokensOf(unit.blocks, count) > sizes.max {
        var items := Oversized(unit.blocks, sizes, count);
        var cut := PieceCandidates(items, section, unit.isStep, 0, |items|);
        var rest := PackFrom(units[1..], [], false, section, sizes, count);
        PackKeepsLines(units[1..], [], false, section, sizes, count);
        CandidateLinesAppend(flushed + cut, rest);
        CandidateLinesAppend(flushed, cut);
        CutLines(unit.blocks, section, unit.isStep, sizes, count);
      } else if current != [] && TokensOf(current, count) + TokensOf(unit.blocks, count) > sizes.target {
        PackKeepsLines(units[1..], unit.blocks, unit.isStep, section, sizes, count);
        CandidateLinesAppend(flushed, PackFrom(units[1..], unit.blocks, unit.isStep, section, sizes, count));
      } else {
        PackKeepsLines(units[1..], current + unit.blocks, isStep || unit.isStep, section, sizes, count);
      }
    }
  }

  lemma NoLines()
    ensures LinesIn([]) == [] && Flat([]) == [] && CandidateLines([]) == []
  {
  }

  lemma FlushedLines(current: seq<Item>, isStep: bool, section: Section)
    ensures CandidateLines(Flushed(current, isStep, section)) == LinesIn(current)
  {
    FlushedBlocks(current, isStep, section);
  }

  lemma CutLines(blocks: seq<Item>, section: Section, isStep: bool, sizes: Sizes, count: Count)
    requires blocks != []
    ensures var items := Oversized(blocks, sizes, count);
      CandidateLines(PieceCandidates(items, section, isStep, 0, |items|)) == LinesIn(blocks)
  {
    hide LinesIn, Oversized;
    var items := Oversized(blocks, sizes, count);
    PieceCandidatesBlocks(items, section, isStep, 0, |items|);
    OversizedLines(blocks, sizes, count);
  }

  // --- Units that fit stay whole ----------------------------------------------------------------------

  predicate PartAt(part: seq<Item>, whole: seq<Item>, k: nat) {
    k + |part| <= |whole| && whole[k..k + |part|] == part
  }

  ghost predicate Within(part: seq<Item>, whole: seq<Item>) {
    exists k :: PartAt(part, whole, k)
  }

  ghost predicate InOne(part: seq<Item>, candidates: seq<Candidate>) {
    exists c :: 0 <= c < |candidates| && Within(part, candidates[c].blocks)
  }

  lemma InLater(part: seq<Item>, a: seq<Candidate>, b: seq<Candidate>)
    requires InOne(part, a) || InOne(part, b)
    ensures InOne(part, a + b)
  {
    hide Within;
    if InOne(part, a) {
      var c :| 0 <= c < |a| && Within(part, a[c].blocks);
      assert (a + b)[c] == a[c];
    } else {
      var c :| 0 <= c < |b| && Within(part, b[c].blocks);
      assert (a + b)[|a| + c] == b[c];
    }
  }

  lemma InFlushed(part: seq<Item>, current: seq<Item>, isStep: bool, section: Section)
    requires Within(part, current) && part != []
    ensures InOne(part, Flushed(current, isStep, section))
  {
    assert Flushed(current, isStep, section)[0].blocks == current;
  }

  lemma WithinMore(part: seq<Item>, a: seq<Item>, b: seq<Item>)
    requires Within(part, a)
    ensures Within(part, a + b)
  {
    var k :| PartAt(part, a, k);
    assert PartAt(part, a + b, k);
  }

  lemma WithinEnd(part: seq<Item>, a: seq<Item>)
    ensures Within(part, a + part)
  {
    assert PartAt(part, a + part, |a|);
  }

  /** What has been gathered ends up together in one candidate. */
  lemma {:induction false} CurrentStays(part: seq<Item>, units: seq<Group>, current: seq<Item>, isStep: bool,
                                        section: Section, sizes: Sizes, count: Count)
    requires Filled(units) && part != [] && Within(part, current)
    ensures InOne(part, PackFrom(units, current, isStep, section, sizes, count))
    decreases |units|
  {
    hide TokensOf, Oversized, PieceCandidates, Within, InOne;
    var flushed := Flushed(current, isStep, section);
    InFlushed(part, current, isStep, section);
    if units != [] {
      var unit := units[0];
      if TokensOf(unit.blocks, count) > sizes.max {
        var items := Oversized(unit.blocks, sizes, count);
        var cut := PieceCandidates(items, section, unit.isStep, 0, |items|);
        InLater(part, flushed, cut);
        InLater(part, flushed + cut, PackFrom(units[1..], [], false, section, sizes, count));
      } else if current != [] && TokensOf(current, count) + TokensOf(unit.blocks, count) > sizes.target {
        InLater(part, flushed, PackFrom(units[1..], unit.blocks, unit.isStep, section, sizes, count));
      } else {
        WithinMore(part, current, unit.blocks);
        CurrentStays(part, units[1..], current + unit.blocks, isStep || unit.isStep, section, sizes, count);
      }
    }
  }

  /** A unit that does not exceed the maximum is never split. */
  lemma {:induction false} UnitStaysWhole(units: seq<Group>, k: nat, current: seq<Item>, isStep: bool, section: Section,
                                          sizes: Sizes, count: Count)
    requires Filled(units) && k < |units| && TokensOf(units[k].blocks, count) <= sizes.max
    ensures InOne(units[k].blocks, PackFrom(units, current, isStep, section, sizes, count))
    decreases k
  {
    hide TokensOf, Oversized, PieceCandidates, Within, InOne, Flushed;
    var unit, part := units[0], units[k].blocks;
    var flushed := Flushed(current, isStep, section);
    if TokensOf(unit.blocks, count) > sizes.max {
      var items := Oversized(unit.blocks, sizes, count);
      var cut := PieceCandidates(items, section, unit.isStep, 0, |items|);
      UnitStaysWhole(units[1..], k - 1, [], false, section, sizes, count);
      InLater(part, flushed + cut, PackFrom(units[1..], [], false, section, sizes, count));
    } else if current != [] && TokensOf(current, count) + TokensOf(unit.blocks, count) > sizes.target {
      if k == 0 {
        WithinEnd(part, []);
        assert [] + part == part;
        CurrentStays(part, units[1..], unit.blocks, unit.isStep, section, sizes, count);
      } else {
        UnitStaysWhole(units[1..], k - 1, unit.blocks, unit.isStep, section, sizes, count);
      }
      InLater(part, flushed, PackFrom(units[1..], unit.blocks, unit.isStep, section, sizes, count));
    } else if k == 0 {
      WithinEnd(part, current);
      CurrentStays(part, units[1..], current + part, isStep || unit.isStep, section, sizes, count);
    } else {
      UnitStaysWhole(units[1..], k - 1, current + unit.blocks, isStep || unit.isStep, section, sizes, count);
    }
  }

  // --- Nothing packed exceeds the maximum ---------------------------------------------------------------

  /** Joined blocks do not weigh more than the blocks and `sep`, what the blank line may cost. */
  ghost predicate JoinsLight(count: Count, sep: nat) {
    forall a: seq<Item>, b: seq<Item> {:trigger TokensOf(a + b, count)} ::
      TokensOf(a + b, count) <= TokensOf(a, count) + TokensOf(b, count) + sep
  }

  ghost predicate AllFit(candidates: seq<Candidate>, max: int, count: Count) {
    forall k :: 0 <= k < |candidates| ==> TokensOf(candidates[k].blocks, count) <= max
  }

  ghost predicate LightUnits(units: seq<Group>, limit: nat, count: Count) {
    forall k :: 0 <= k < |units| ==> Light(UnitLines(units[k].blocks), limit, count)
  }

  lemma {:induction false} PieceItemsFit(template: Item, pieces: seq<seq<string>>, max: int, count: Count)
    requires forall piece :: piece in pieces ==> Weight(piece, count) <= max
    ensures forall item :: item in PieceItems(template, pieces) ==> count(item.text) <= max
    decreases |pieces|
  {
    hide Join, Blank;
    if pieces != [] {
      assert pieces[0] in pieces;
      PieceItemsFit(template, pieces[1..], max, count);
    }
  }

  lemma {:induction false} PieceCandidatesFit(items: seq<Item>, section: Section, isStep: bool, index: nat, total: nat,
                                              max: int, count: Count)
    requires forall item :: item in items ==> count(item.text) <= max
    ensures AllFit(PieceCandidates(items, section, isStep, index, total), max, count)
    decreases |items|
  {
    hide Join;
    if items != [] {
      assert items[0] in items;
      PieceCandidatesFit(items[1..], section, isStep, index + 1, total, max, count);
      OneText(items[0], count);
    }
  }

  lemma OneText(item: Item, count: Count)
    ensures TokensOf([item], count) == count(item.text)
  {
    assert Texts([item]) == [item.text] by { assert Texts([]) == [] && [item][1..] == []; }
  }

  lemma OversizedFits(blocks: seq<Item>, section: Section, isStep: bool, sizes: Sizes, limit: nat, count: Count,
                      sep: nat)
    requires blocks != [] && Measures(count, sep)
    requires sizes.overlap >= 0 && sizes.overlap + 2 * limit + 2 * sep <= sizes.max
    requires Light(UnitLines(blocks), limit, count)
    ensures var items := Oversized(blocks, sizes, count);
      AllFit(PieceCandidates(items, section, isStep, 0, |items|), sizes.max, count)
  {
    hide Light, UnitLines, Measures, Pieces, PieceItems, PieceCandidates, AllFit;
    var lines := UnitLines(blocks);
    assert Light([], limit, count) by { NothingHeavy(limit, count); }
    PiecesFit(lines, [], sizes, limit, count, sep);
    PieceItemsFit(blocks[0], Pieces(lines, [], sizes, count), sizes.max, count);
    var items := Oversized(blocks, sizes, count);
    PieceCandidatesFit(items, section, isStep, 0, |items|, sizes.max, count);
  }

  lemma NothingHeavy(limit: nat, count: Count)
    ensures Light([], limit, count)
  {
  }

  lemma FitAppend(a: seq<Candidate>, b: seq<Candidate>, max: int, count: Count)
    requires AllFit(a, max, count) && AllFit(b, max, count)
    ensures AllFit(a + b, max, count)
  {
    hide TokensOf;
  }

  /** With a target below the maximum by what a blank line may cost, and no line above half of what the
      overlap and two line breaks leave, every packed candidate keeps to the maximum. */
  lemma {:induction false} PackedFit(units: seq<Group>, current: seq<Item>, isStep: bool, section: Section,
                                     sizes: Sizes, 
                                     limit: nat, count: Count, sep: nat)
    requires Filled(units) && Measures(count, sep) && JoinsLight(count, sep) && LightUnits(units, limit, count)
    requires sizes.target + sep <= sizes.max && sizes.overlap >= 0 && sizes.overlap + 2 * limit + 2 * sep <= sizes.max
    requires current == [] || TokensOf(current, count) <= sizes.max
    ensures AllFit(PackFrom(units, current, isStep, section, sizes, count), sizes.max, count)
    decreases |units|
  {
    hide TokensOf, Oversized, PieceCandidates, Measures, Light, UnitLines;
    var flushed := Flushed(current, isStep, section);
    assert AllFit(flushed, sizes.max, count);
    if units != [] {
      var unit := units[0];
      assert Light(UnitLines(unit.blocks), limit, count);
      assert LightUnits(units[1..], limit, count);
      hide AllFit, LightUnits;
      if TokensOf(unit.blocks, count) > sizes.max {
        var items := Oversized(unit.blocks, sizes, count);
        var cut := PieceCandidates(items, section, unit.isStep, 0, |items|);
        OversizedFits(unit.blocks, section, unit.isStep, sizes, limit, count, sep);
        PackedFit(units[1..], [], false, section, sizes, limit, count, sep);
        FitAppend(flushed, cut, sizes.max, count);
        FitAppend(flushed + cut, PackFrom(units[1..], [], false, section, sizes, count), sizes.max, count);
      } else if current != [] && TokensOf(current, count) + TokensOf(unit.blocks, count) > sizes.target {
        PackedFit(units[1..], unit.blocks, unit.isStep, section, sizes, limit, count, sep);
        FitAppend(flushed, PackFrom(units[1..], unit.blocks, unit.isStep, section, sizes, count), sizes.max, count);
      } else {
        assert TokensOf(current + unit.blocks, count) <= TokensOf(current, count) + TokensOf(unit.blocks, count) + sep;
        if current == [] { assert current + unit.blocks == unit.blocks; }
        PackedFit(units[1..], current + unit.blocks, isStep || unit.isStep, section, sizes, limit, count, sep);
      }
    }
  }
}
