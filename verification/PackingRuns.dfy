/** Which units share a candidate, and what each candidate says of itself. */
module PackingRuns {
  import opened Strings
  import opened Sections
  import opened Units
  import opened Packing

  /** Consecutive units that go into one candidate, or one unit that is cut up. */
  datatype Run = Together(units: seq<Group>) | Apart(unit: Group)

  function UnitsOf(run: Run): seq<Group> { if run.Together? then run.units else [run.unit] }

  function AllUnits(runs: seq<Run>): seq<Group> {
    if runs == [] then [] else UnitsOf(runs[0]) + AllUnits(runs[1..])
  }

  ghost predicate AnyStep(units: seq<Group>) { exists k :: 0 <= k < |units| && units[k].isStep }

  /** No unit of the run exceeds the maximum, and none after the first brings it past the target. */
  ghost predicate Fills(units: seq<Group>, sizes: Sizes, count: Count) {
    && units != []
    && (forall k :: 0 <= k < |units| ==> TokensOf(units[k].blocks, count) <= sizes.max)
    && forall k :: 0 < k < |units| ==>
         TokensOf(Flat(units[..k]), count) + TokensOf(units[k].blocks, count) <= sizes.target
  }

  ghost predicate RunOk(run: Run, sizes: Sizes, count: Count) {
    match run
    case Together(units) => Fills(units, sizes, count)
    case Apart(unit) => TokensOf(unit.blocks, count) > sizes.max
  }

  /** A run is closed only by a unit that is cut up, or one that would bring it past the target. */
  predicate Closed(run: Run, next: Run, sizes: Sizes, count: Count) {
    run.Together? && next.Together? && next.units != [] ==>
      TokensOf(Flat(run.units), count) + TokensOf(next.units[0].blocks, count) > sizes.target
  }

  ghost predicate RunsOk(runs: seq<Run>, sizes: Sizes, count: Count) {
    && (forall k :: 0 <= k < |runs| ==> RunOk(runs[k], sizes, count))
    && forall k :: 0 < k < |runs| ==> Closed(runs[k - 1], runs[k], sizes, count)
  }

  /** The blocks are the pieces that are not blank, in order. */
  predicate Texted(pieces: seq<seq<string>>, items: seq<Item>) {
    if pieces == [] then items == []
    else if Blank(Join(pieces[0], "\n")) then Texted(pieces[1..], items)
    else items != [] && items[0].text == Join(pieces[0], "\n") && Texted(pieces[1..], items[1..])
  }

  /** The blocks of a unit that is cut up: its pieces, and otherwise like its first block. */
  predicate CutBlocks(blocks: seq<Item>, items: seq<Item>, sizes: Sizes, count: Count)
    requires blocks != []
  {
    && Texted(Pieces(Lines(Join(Texts(blocks), "\n\n")), [], sizes, count), items)
    && forall item <- items ::
         && item.start == blocks[0].start && item.end == blocks[0].end
         && item.kind == blocks[0].kind && item.language == blocks[0].language
  }

  /** One candidate a piece, which says on which side it was cut off. */
  ghost predicate Truncated(unit: Group, cs: seq<Candidate>, items: seq<Item>, section: Section) {
    |cs| == |items| && forall k :: 0 <= k < |cs| ==>
      cs[k] == Candidate([items[k]], section, unit.isStep, k > 0, k < |items| - 1)
  }

  /** The candidates of a run: all its blocks in one, or one for each piece. */
  ghost predicate GivenBy(run: Run, cs: seq<Candidate>, section: Section, sizes: Sizes, count: Count) {
    match run
    case Together(units) => cs == [Candidate(Flat(units), section, AnyStep(units), false, false)]
    case Apart(unit) =>
      && unit.blocks != []
      && exists items :: CutBlocks(unit.blocks, items, sizes, count) && Truncated(unit, cs, items, section)
  }

  function AllOf(parts: seq<seq<Candidate>>): seq<Candidate> {
    if parts == [] then [] else parts[0] + AllOf(parts[1..])
  }

  ghost predicate Packs(units: seq<Group>, runs: seq<Run>, parts: seq<seq<Candidate>>, section: Section, sizes: Sizes,
                        count: Count) {
    && AllUnits(runs) == units && RunsOk(runs, sizes, count) && |parts| == |runs|
    && forall k :: 0 <= k < |runs| ==> GivenBy(runs[k], parts[k], section, sizes, count)
  }

  // --- Cut units ------------------------------------------------------------------------------------

  lemma {:induction false} PieceItemsTexted(template: Item, pieces: seq<seq<string>>)
    ensures Texted(pieces, PieceItems(template, pieces))
    decreases |pieces|
  {
    hide Blank, Join;
    if pieces != [] {
      PieceItemsTexted(template, pieces[1..]);
      var first, rest := PieceItem(template, pieces[0]), PieceItems(template, pieces[1..]);
      assert ([first] + rest)[1..] == rest && [] + rest == rest;
    }
  }

  lemma {:induction false} PieceItemsLike(template: Item, pieces: seq<seq<string>>)
    ensures forall item <- PieceItems(template, pieces) ::
      && item.start == template.start && item.end == template.end
      && item.kind == template.kind && item.language == template.language
    decreases |pieces|
  {
    hide Blank, Join;
    if pieces != [] { PieceItemsLike(template, pieces[1..]); }
  }

  lemma OversizedIs(blocks: seq<Item>, sizes: Sizes, count: Count)
    requires blocks != []
    ensures CutBlocks(blocks, Oversized(blocks, sizes, count), sizes, count)
  {
    hide Pieces, Lines, Join, Texted;
    var pieces := Pieces(UnitLines(blocks), [], sizes, count);
    PieceItemsTexted(blocks[0], pieces);
    PieceItemsLike(blocks[0], pieces);
  }

  lemma {:induction false} PieceCandidatesAre(items: seq<Item>, section: Section, isStep: bool, index: nat, total: nat)
    ensures var cs := PieceCandidates(items, section, isStep, index, total);
      |cs| == |items| && forall k :: 0 <= k < |cs| ==>
        cs[k] == Candidate([items[k]], section, isStep, index + k > 0, index + k < total - 1)
    decreases |items|
  {
    if items != [] { PieceCandidatesAre(items[1..], section, isStep, index + 1, total); }
  }

  lemma ApartGives(unit: Group, section: Section, sizes: Sizes, count: Count)
    requires unit.blocks != []
    ensures var items := Oversized(unit.blocks, sizes, count);
      GivenBy(Apart(unit), PieceCandidates(items, section, unit.isStep, 0, |items|), section, sizes, count)
  {
    hide CutBlocks, Oversized;
    var items := Oversized(unit.blocks, sizes, count);
    OversizedIs(unit.blocks, sizes, count);
    PieceCandidatesAre(items, section, unit.isStep, 0, |items|);
  }

  // --- Runs -----------------------------------------------------------------------------------------

  lemma TogetherGives(units: seq<Group>, isStep: bool, section: Section, sizes: Sizes, count: Count)
    requires units != [] && Flat(units) != [] && isStep == AnyStep(units)
    ensures GivenBy(Together(units), Flushed(Flat(units), isStep, section), section, sizes, count)
  {
  }

  lemma FillsMore(units: seq<Group>, unit: Group, sizes: Sizes, count: Count)
    requires Fills(units, sizes, count) && TokensOf(unit.blocks, count) <= sizes.max
    requires TokensOf(Flat(units), count) + TokensOf(unit.blocks, count) <= sizes.target
    ensures Fills(units + [unit], sizes, count)
  {
    hide TokensOf, Flat;
    var more := units + [unit];
    forall k | 0 < k < |more|
      ensures TokensOf(Flat(more[..k]), count) + TokensOf(more[k].blocks, count) <= sizes.target
    {
      assert more[..k] == units[..k];
      if k == |units| { assert units[..k] == units; }
    }
  }

  lemma FillsOne(unit: Group, sizes: Sizes, count: Count)
    requires TokensOf(unit.blocks, count) <= sizes.max
    ensures Fills([unit], sizes, count)
  {
    hide TokensOf;
  }

  lemma AnyStepMore(units: seq<Group>, unit: Group)
    ensures AnyStep(units + [unit]) == (AnyStep(units) || unit.isStep)
    ensures AnyStep([unit]) == unit.isStep && !AnyStep([])
  {
    var more := units + [unit];
    assert forall k :: 0 <= k < |units| ==> more[k] == units[k];
    assert more[|units|] == unit && [unit][0] == unit;
  }

  lemma PacksMore(run: Run, part: seq<Candidate>, units: seq<Group>, runs: seq<Run>, parts: seq<seq<Candidate>>,
                  section: Section, sizes: Sizes, count: Count)
    requires RunOk(run, sizes, count) && GivenBy(run, part, section, sizes, count)
    requires Packs(units, runs, parts, section, sizes, count)
    requires runs != [] ==> Closed(run, runs[0], sizes, count)
    ensures Packs(UnitsOf(run) + units, [run] + runs, [part] + parts, section, sizes, count)
    ensures AllOf([part] + parts) == part + AllOf(parts)
  {
    hide RunOk, GivenBy, Closed;
    var runs', parts' := [run] + runs, [part] + parts;
    assert runs'[1..] == runs && parts'[1..] == parts;
    forall k | 0 < k < |runs'| ensures Closed(runs'[k - 1], runs'[k], sizes, count) {
      if k > 1 { assert Closed(runs[k - 2], runs[k - 1], sizes, count); }
    }
  }

  /** How what is being gathered becomes the first run: it takes the first of the units still to come
      when they fit, and is closed by them otherwise. */
  lemma {:induction false} Gathering(before: seq<Group>, units: seq<Group>, isStep: bool, section: Section,
                                     sizes: Sizes, count: Count)
    returns (runs: seq<Run>, parts: seq<seq<Candidate>>)
    requires Filled(units) && Filled(before) && before != []
    requires Fills(before, sizes, count) && isStep == AnyStep(before)
    ensures Packs(before + units, runs, parts, section, sizes, count)
    ensures runs != [] && runs[0].Together? && before <= runs[0].units
    ensures PackFrom(units, Flat(before), isStep, section, sizes, count) == AllOf(parts)
    decreases |units|, 1
  {
    hide TokensOf, Oversized, PieceCandidates, Fills, AnyStep, Packs, Flushed, PackFrom, GivenBy, Flat, AllOf;
    FlatFilled(before);
    var flushed := Flushed(Flat(before), isStep, section);
    if units == [] {
      TogetherGives(before, isStep, section, sizes, count);
      NoRuns(section, sizes, count);
      PackEnd(Flat(before), isStep, section, sizes, count);
      runs, parts := [Together(before)], [flushed];
      PacksMore(Together(before), flushed, [], [], [], section, sizes, count);
      assert runs == [Together(before)] + [] && parts == [flushed] + [];
      assert before + [] == UnitsOf(Together(before)) + [] && flushed + [] == flushed;
    } else {
      var unit := units[0];
      if TokensOf(unit.blocks, count) <= sizes.max
         && TokensOf(Flat(before), count) + TokensOf(unit.blocks, count) <= sizes.target {
        FillsMore(before, unit, sizes, count);
        AnyStepMore(before, unit);
        Joins(before, units, isStep, section, sizes, count);
        runs, parts := Gathering(before + [unit], units[1..], isStep || unit.isStep, section, sizes, count);
        assert before + [unit] + units[1..] == before + units;
      } else {
        runs, parts := Starting(units, section, sizes, count);
        TogetherGives(before, isStep, section, sizes, count);
        PacksMore(Together(before), flushed, units, runs, parts, section, sizes, count);
        Later(units, Flat(before), isStep, section, sizes, count);
        runs, parts := [Together(before)] + runs, [flushed] + parts;
      }
    }
  }

  lemma Joins(before: seq<Group>, units: seq<Group>, isStep: bool, section: Section, sizes: Sizes, count: Count)
    requires Filled(units) && units != [] && TokensOf(units[0].blocks, count) <= sizes.max
    requires TokensOf(Flat(before), count) + TokensOf(units[0].blocks, count) <= sizes.target
    ensures PackFrom(units, Flat(before), isStep, section, sizes, count)
         == PackFrom(units[1..], Flat(before + [units[0]]), isStep || units[0].isStep, section, sizes, count)
  {
    hide TokensOf, Oversized, PieceCandidates, Flushed;
    FlatAppend(before, [units[0]]);
    FlatOne(units[0]);
  }

  lemma NoRuns(section: Section, sizes: Sizes, count: Count)
    ensures Packs([], [], [], section, sizes, count) && AllOf([]) == []
  {
  }

  lemma {:induction false} FlatFilled(units: seq<Group>)
    requires Filled(units)
    ensures units != [] ==> Flat(units) != []
  {
  }

  /** Units that cannot join what was gathered are packed as from the start. */
  lemma Later(units: seq<Group>, current: seq<Item>, isStep: bool, section: Section, sizes: Sizes, count: Count)
    requires Filled(units) && units != [] && current != []
    requires TokensOf(units[0].blocks, count) > sizes.max
          || TokensOf(current, count) + TokensOf(units[0].blocks, count) > sizes.target
    ensures PackFrom(units, current, isStep, section, sizes, count)
         == Flushed(current, isStep, section) + PackFrom(units, [], false, section, sizes, count)
  {
    hide TokensOf, Oversized, PieceCandidates;
    var unit, flushed := units[0], Flushed(current, isStep, section);
    if TokensOf(unit.blocks, count) > sizes.max {
      var items := Oversized(unit.blocks, sizes, count);
      var cut := PieceCandidates(items, section, unit.isStep, 0, |items|);
      var rest := PackFrom(units[1..], [], false, section, sizes, count);
      assert flushed + cut + rest == flushed + ([] + cut + rest);
    } else {
      assert [] + unit.blocks == unit.blocks;
    }
  }

  /** Packing fills each candidate as far as the next unit allows: the units fall into consecutive runs,
      each filled to the target as it stands and closed only by what would bring it past, or cut up
      alone for being past the maximum; and the candidates are what the runs give, in order. */
  lemma {:induction false} Starting(units: seq<Group>, section: Section, sizes: Sizes, count: Count)
    returns (runs: seq<Run>, parts: seq<seq<Candidate>>)
    requires Filled(units)
    ensures Packs(units, runs, parts, section, sizes, count)
    ensures runs != [] && runs[0].Together? ==>
      && units != [] && runs[0].units != [] && runs[0].units[0] == units[0]
      && TokensOf(units[0].blocks, count) <= sizes.max
    ensures runs != [] && runs[0].Apart? ==> units != [] && TokensOf(units[0].blocks, count) > sizes.max
    ensures PackFrom(units, [], false, section, sizes, count) == AllOf(parts)
    decreases |units|, 0
  {
    hide TokensOf, Oversized, PieceCandidates, Fills, AnyStep, Packs, GivenBy;
    if units == [] {
      runs, parts := [], [];
      NoRuns(section, sizes, count);
    } else if TokensOf(units[0].blocks, count) > sizes.max {
      var unit, items := units[0], Oversized(units[0].blocks, sizes, count);
      var cut := PieceCandidates(items, section, unit.isStep, 0, |items|);
      runs, parts := Starting(units[1..], section, sizes, count);
      ApartGives(unit, section, sizes, count);
      PacksMore(Apart(unit), cut, units[1..], runs, parts, section, sizes, count);
      runs, parts := [Apart(unit)] + runs, [cut] + parts;
      assert [unit] + units[1..] == units;
      assert [] + cut + PackFrom(units[1..], [], false, section, sizes, count)
          == cut + PackFrom(units[1..], [], false, section, sizes, count);
    } else {
      var unit := units[0];
      FillsOne(unit, sizes, count);
      AnyStepMore([], unit);
      FlatOne(unit);
      runs, parts := Gathering([unit], units[1..], unit.isStep, section, sizes, count);
      assert [unit] + units[1..] == units && [] + unit.blocks == unit.blocks;
    }
  }
}
