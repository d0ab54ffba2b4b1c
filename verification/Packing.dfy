/** Filling chunks with units up to the target size, and cutting units that cannot fit. */
module Packing {
  import opened Strings
  import opened Sections
  import opened Units

  datatype Sizes = Sizes(min: int, target: int, max: int, overlap: int)

  // --- Cutting a unit that is too big ---------------------------------------------------------------

  function Weight(lines: seq<string>, count: Count): nat { count(Join(lines, "\n")) }

  /** Lines moved from the end of a full piece to the start of the next. */
  function Cut(current: seq<string>, moved: seq<string>, overlap: int, count: Count): (r: (seq<string>, seq<string>))
    ensures r.0 + r.1 == current + moved
    decreases |current|
  {
    if current != [] && Weight(moved, count) < overlap then
      Cut(current[..|current| - 1], [current[|current| - 1]] + moved, overlap, count)
    else (current, moved)
  }

  /** The last `n` lines. */
  function Last(full: seq<string>, n: nat): seq<string>
    requires n <= |full|
  {
    full[|full| - n..]
  }

  /** `moved` is the shortest end of `full` that weighs at least the overlap, or all of it. */
  predicate ShortestOverlap(full: seq<string>, moved: seq<string>, overlap: int, count: Count) {
    && |moved| <= |full| && moved == Last(full, |moved|)
    && (moved == full || Weight(moved, count) >= overlap)
    && forall n :: 0 <= n < |moved| ==> Weight(Last(full, n), count) < overlap
  }

  lemma {:induction false} CutFrom(full: seq<string>, k: nat, overlap: int, count: Count)
    requires k <= |full| && forall n :: 0 <= n < |full| - k ==> Weight(Last(full, n), count) < overlap
    ensures var (left, moved) := Cut(full[..k], full[k..], overlap, count);
      left + moved == full && ShortestOverlap(full, moved, overlap, count)
    decreases k
  {
    if k > 0 && Weight(full[k..], count) < overlap {
      assert full[..k][..k - 1] == full[..k - 1] && [full[k - 1]] + full[k..] == full[k - 1..];
      assert Last(full, |full| - k) == full[k..];
      CutFrom(full, k - 1, overlap, count);
    } else {
      assert full[..k] + full[k..] == full && Last(full, |full[k..]|) == full[k..];
    }
  }

  /** What is moved at a cut: no more than it takes to make the overlap, and no less. */
  lemma CutIs(full: seq<string>, overlap: int, count: Count)
    ensures var (left, moved) := Cut(full, [], overlap, count);
      left + moved == full && ShortestOverlap(full, moved, overlap, count)
  {
    CutFrom(full, |full|, overlap, count);
    assert full[..|full|] == full && full[|full|..] == [];
  }

  function Pieces(lines: seq<string>, current: seq<string>, sizes: Sizes, count: Count): seq<seq<string>>
    decreases |lines|
  {
    if lines == [] then if current == [] then [] else [current]
    else if current != [] && Weight(current + [lines[0]], count) > sizes.max then
      var (left, moved) := Cut(current, [], sizes.overlap, count);
      [left] + Pieces(lines[1..], moved + [lines[0]], sizes, count)
    else Pieces(lines[1..], current + [lines[0]], sizes, count)
  }

  // --- Where pieces begin and end ---------------------------------------------------------------------

  /** A piece as it was when the next was begun: with the lines that then moved on. */
  function Full(pieces: seq<seq<string>>, moved: seq<seq<string>>, i: nat): seq<string>
    requires i < |pieces|
  {
    if i < |moved| then pieces[i] + moved[i] else pieces[i]
  }

  /** Filled line by line from `held` lines and one more, never past the maximum. */
  predicate Gathered(full: seq<string>, held: nat, sizes: Sizes, count: Count) {
    held < |full| && forall n :: held + 1 < n <= |full| ==> Weight(full[..n], count) <= sizes.max
  }

  /** The next piece begins with the overlap and the line that was one too many. */
  predicate Begins(full: seq<string>, left: seq<string>, moved: seq<string>, next: seq<string>, sizes: Sizes,
                   count: Count) {
    && full == left + moved && ShortestOverlap(full, moved, sizes.overlap, count)
    && |moved| < |next| && next[..|moved|] == moved
    && Weight(full + [next[|moved|]], count) > sizes.max
  }

  /** `moved[i]` went from the end of piece `i` to the start of the next; the first was begun with `held`. */
  ghost predicate CutUp(pieces: seq<seq<string>>, moved: seq<seq<string>>, held: nat, sizes: Sizes, count: Count) {
    && |moved| + 1 == |pieces|
    && (forall i :: 0 <= i < |pieces| ==>
          Gathered(Full(pieces, moved, i), if i == 0 then held else |moved[i - 1]|, sizes, count))
    && forall i :: 0 <= i < |moved| ==>
         Begins(Full(pieces, moved, i), pieces[i], moved[i], Full(pieces, moved, i + 1), sizes, count)
  }

  lemma FullShift(left: seq<string>, m: seq<string>, rest: seq<seq<string>>, moved: seq<seq<string>>, i: nat)
    requires i < |rest|
    ensures Full([left] + rest, [m] + moved, i + 1) == Full(rest, moved, i)
    ensures Full([left] + rest, [m] + moved, 0) == left + m
  {
  }

  lemma GatheredAll(left: seq<string>, m: seq<string>, rest: seq<seq<string>>, moved: seq<seq<string>>, held: nat,
                    sizes: Sizes, count: Count, i: nat)
    requires Gathered(left + m, held, sizes, count) && CutUp(rest, moved, |m|, sizes, count) && i <= |rest|
    ensures Gathered(Full([left] + rest, [m] + moved, i), if i == 0 then held else |([m] + moved)[i - 1]|, sizes, count)
  {
    hide Gathered, Begins, Full;
    if i > 0 {
      FullShift(left, m, rest, moved, i - 1);
      assert Gathered(Full(rest, moved, i - 1), if i == 1 then |m| else |moved[i - 2]|, sizes, count);
    } else {
      FullShift(left, m, rest, moved, 0);
    }
  }

  lemma BeginsAll(left: seq<string>, m: seq<string>, rest: seq<seq<string>>, moved: seq<seq<string>>, held: nat,
                  sizes: Sizes, count: Count, i: nat)
    requires CutUp(rest, moved, held, sizes, count) && i <= |moved|
    requires Begins(left + m, left, m, Full(rest, moved, 0), sizes, count)
    ensures var pieces, moved := [left] + rest, [m] + moved;
      Begins(Full(pieces, moved, i), pieces[i], moved[i], Full(pieces, moved, i + 1), sizes, count)
  {
    hide Gathered, Begins, Full;
    FullShift(left, m, rest, moved, i);
    if i > 0 {
      FullShift(left, m, rest, moved, i - 1);
      assert Begins(Full(rest, moved, i - 1), rest[i - 1], moved[i - 1], Full(rest, moved, i), sizes, count);
    }
  }

  lemma CutUpMore(left: seq<string>, m: seq<string>, line: string, rest: seq<seq<string>>, moved: seq<seq<string>>,
                  held: nat, sizes: Sizes, count: Count)
    requires Gathered(left + m, held, sizes, count) && ShortestOverlap(left + m, m, sizes.overlap, count)
    requires CutUp(rest, moved, |m|, sizes, count) && m + [line] <= Full(rest, moved, 0)
    requires Weight(left + m + [line], count) > sizes.max
    ensures CutUp([left] + rest, [m] + moved, held, sizes, count)
    ensures Full([left] + rest, [m] + moved, 0) == left + m
  {
    FullShift(left, m, rest, moved, 0);
    BeginsWith(left, m, line, Full(rest, moved, 0), sizes, count);
    hide Gathered, ShortestOverlap, Weight, Begins, Full;
    forall i: nat | i <= |rest|
      ensures Gathered(Full([left] + rest, [m] + moved, i), if i == 0 then held else |([m] + moved)[i - 1]|,
                       sizes, count)
    {
      GatheredAll(left, m, rest, moved, held, sizes, count, i);
    }
    forall i: nat | i <= |moved|
      ensures Begins(Full([left] + rest, [m] + moved, i), ([left] + rest)[i], ([m] + moved)[i],
                     Full([left] + rest, [m] + moved, i + 1), sizes, count)
    {
      BeginsAll(left, m, rest, moved, |m|, sizes, count, i);
    }
  }

  lemma BeginsWith(left: seq<string>, m: seq<string>, line: string, next: seq<string>, sizes: Sizes, count: Count)
    requires ShortestOverlap(left + m, m, sizes.overlap, count) && m + [line] <= next
    requires Weight(left + m + [line], count) > sizes.max
    ensures Begins(left + m, left, m, next, sizes, count)
  {
    hide ShortestOverlap, Weight;
    assert next[..|m|] == m && next[|m|] == line;
  }

  lemma GatheredMore(current: seq<string>, held: nat, line: string, sizes: Sizes, count: Count)
    requires Gathered(current, held, sizes, count) && Weight(current + [line], count) <= sizes.max
    ensures Gathered(current + [line], held, sizes, count)
  {
    hide Weight;
    var more := current + [line];
    forall n | held + 1 < n <= |more| ensures Weight(more[..n], count) <= sizes.max {
      if n <= |current| { assert more[..n] == current[..n]; } else { assert more[..n] == more; }
    }
  }

  /** With `current` gathered from `held` lines on, what is still to come is cut up as it should be. */
  lemma {:induction false} RestIsCutUp(lines: seq<string>, current: seq<string>, held: nat, sizes: Sizes, count: Count)
    returns (moved: seq<seq<string>>)
    requires Gathered(current, held, sizes, count)
    ensures CutUp(Pieces(lines, current, sizes, count), moved, held, sizes, count)
    ensures current <= Full(Pieces(lines, current, sizes, count), moved, 0)
    decreases |lines|
  {
    hide Weight, Cut, CutUp, ShortestOverlap;
    if lines == [] {
      moved := [];
      LastCutUp(current, held, sizes, count);
    } else if Weight(current + [lines[0]], count) > sizes.max {
      var (left, m) := Cut(current, [], sizes.overlap, count);
      CutIs(current, sizes.overlap, count);
      var rest := Pieces(lines[1..], m + [lines[0]], sizes, count);
      moved := RestIsCutUp(lines[1..], m + [lines[0]], |m|, sizes, count);
      CutUpMore(left, m, lines[0], rest, moved, held, sizes, count);
      moved := [m] + moved;
    } else {
      GatheredMore(current, held, lines[0], sizes, count);
      moved := RestIsCutUp(lines[1..], current + [lines[0]], held, sizes, count);
    }
  }

  lemma LastCutUp(current: seq<string>, held: nat, sizes: Sizes, count: Count)
    requires Gathered(current, held, sizes, count)
    ensures CutUp([current], [], held, sizes, count)
  {
    hide Weight;
  }

  /** The pieces are cut as they should be, the first begun from nothing. */
  ghost predicate WellCut(pieces: seq<seq<string>>, sizes: Sizes, count: Count) {
    exists moved :: CutUp(pieces, moved, 0, sizes, count)
  }

  /** A cut comes exactly where the next line would be one too many; what moves on is the shortest end
      of the full piece that makes the overlap, or all of it; and the next piece begins with it. */
  lemma PiecesAreWellCut(lines: seq<string>, sizes: Sizes, count: Count)
    requires lines != []
    ensures WellCut(Pieces(lines, [], sizes, count), sizes, count)
  {
    hide Weight, Cut, CutUp;
    assert [] + [lines[0]] == [lines[0]];
    var moved := RestIsCutUp(lines[1..], [lines[0]], 0, sizes, count);
  }

  /** A list of lines that can be shared: the piece last added and the piece being filled are one
      object, so taking lines off the one takes them off the other. */
  class LineList {
    var lines: seq<string>

    constructor (lines: seq<string>)
      ensures this.lines == lines
    {
      this.lines := lines;
    }

    method Pop() returns (line: string)
      requires lines != []
      modifies this
      ensures lines + [line] == old(lines)
    {
      line := lines[|lines| - 1];
      lines := lines[..|lines| - 1];
    }
  }

  function Contents(pieces: seq<LineList>): (contents: seq<seq<string>>)
    reads pieces
    ensures |contents| == |pieces|
  {
    if pieces == [] then [] else Contents(pieces[..|pieces| - 1]) + [pieces[|pieces| - 1].lines]
  }

  method MoveOverlap(current: LineList, overlap: int, count: Count) returns (moved: seq<string>)
    modifies current
    ensures (current.lines, moved) == Cut(old(current.lines), [], overlap, count)
    ensures current.lines + moved == old(current.lines)
    ensures ShortestOverlap(old(current.lines), moved, overlap, count)
  {
    CutIs(current.lines, overlap, count);
    moved := [];
    while current.lines != [] && Weight(moved, count) < overlap
      invariant Cut(current.lines, moved, overlap, count) == Cut(old(current.lines), [], overlap, count)
      decreases |current.lines|
    {
      var line := current.Pop();
      assert (current.lines + [line])[..|current.lines|] == current.lines;
      moved := [line] + moved;
    }
  }

  method SplitLines(lines: seq<string>, sizes: Sizes, count: Count) returns (pieces: seq<LineList>)
    ensures Contents(pieces) == Pieces(lines, [], sizes, count)
    ensures lines != [] ==> WellCut(Contents(pieces), sizes, count)
  {
    hide Weight, Cut, Pieces, WellCut, ShortestOverlap;
    if lines != [] { PiecesAreWellCut(lines, sizes, count); }
    pieces := [];
    assert lines[0..] == lines && lines[|lines|..] == [];
    var current := new LineList([]);
    for i := 0 to |lines|
      invariant fresh(current) && current !in pieces
      invariant Contents(pieces) + Pieces(lines[i..], current.lines, sizes, count) == Pieces(lines, [], sizes, count)
    {
      PieceStep(lines, i, current.lines, Contents(pieces), sizes, count);
      var line := lines[i];
      var candidate := new LineList(current.lines + [line]);
      if current.lines != [] && Weight(candidate.lines, count) > sizes.max {
        pieces := pieces + [current];
        var moved := MoveOverlap(current, sizes.overlap, count);
        assert pieces[..|pieces| - 1] + [current] == pieces;
        current := new LineList(moved + [line]);
      } else {
        current := candidate;
      }
    }
    LastPiece(current.lines, sizes, count);
    if current.lines != [] { pieces := pieces + [current]; }
  }

  lemma PieceStep(lines: seq<string>, i: nat, current: seq<string>, done: seq<seq<string>>, sizes: Sizes, count: Count)
    requires i < |lines|
    ensures done + Pieces(lines[i..], current, sizes, count) ==
      if current != [] && Weight(current + [lines[i]], count) > sizes.max then
        var (left, moved) := Cut(current, [], sizes.overlap, count);
        (done + [left]) + Pieces(lines[i + 1..], moved + [lines[i]], sizes, count)
      else done + Pieces(lines[i + 1..], current + [lines[i]], sizes, count)
  {
    hide Weight, Cut;
    assert lines[i..][0] == lines[i] && lines[i..][1..] == lines[i + 1..];
    var (left, moved) := Cut(current, [], sizes.overlap, count);
    var rest := Pieces(lines[i + 1..], moved + [lines[i]], sizes, count);
    assert done + ([left] + rest) == (done + [left]) + rest;
  }

  lemma LastPiece(current: seq<string>, sizes: Sizes, count: Count)
    ensures Pieces([], current, sizes, count) == if current == [] then [] else [current]
  {
  }

  // --- What cutting keeps -----------------------------------------------------------------------------

  function Concat(pieces: seq<seq<string>>): seq<string> {
    if pieces == [] then [] else pieces[0] + Concat(pieces[1..])
  }

  /** The overlap is moved, not copied: each line is in exactly one piece, in order. */
  lemma {:induction false} PiecesKeepLines(lines: seq<string>, current: seq<string>, sizes: Sizes, count: Count)
    ensures Concat(Pieces(lines, current, sizes, count)) == current + lines
    decreases |lines|
  {
    hide Weight, Cut;
    if lines == [] {
      if current != [] { assert Concat([current]) == current + Concat([]); }
    } else {
      assert current + lines == current + [lines[0]] + lines[1..];
      if current != [] && Weight(current + [lines[0]], count) > sizes.max {
        var (left, moved) := Cut(current, [], sizes.overlap, count);
        PiecesKeepLines(lines[1..], moved + [lines[0]], sizes, count);
        var rest := Pieces(lines[1..], moved + [lines[0]], sizes, count);
        assert ([left] + rest)[1..] == rest;
        assert left + moved == current + [];
        assert left + (moved + [lines[0]] + lines[1..]) == left + moved + [lines[0]] + lines[1..];
      } else {
        PiecesKeepLines(lines[1..], current + [lines[0]], sizes, count);
      }
    }
  }

  /** Weight does not drop when lines are added, nor exceed the weight of the parts by more than `sep`,
      what the line break between them may cost. */
  ghost predicate Measures(count: Count, sep: nat) {
    forall a: seq<string>, b: seq<string> {:trigger Weight(a + b, count)} ::
      Weight(a, count) <= Weight(a + b, count) <= Weight(a, count) + Weight(b, count) + sep
  }

  lemma {:induction false} CutWeight(current: seq<string>, moved: seq<string>, overlap: nat, limit: nat, count: Count,
                                     sep: nat)
    requires Measures(count, sep)
    requires forall k :: 0 <= k < |current| ==> Weight([current[k]], count) <= limit
    requires moved == [] || Weight(moved, count) <= overlap + limit + sep
    ensures var r := Cut(current, moved, overlap, count);
      (r.1 == [] || Weight(r.1, count) <= overlap + limit + sep) && Weight(r.0, count) <= Weight(current, count)
    decreases |current|
  {
    if current != [] && Weight(moved, count) < overlap {
      var rest, last := current[..|current| - 1], current[|current| - 1];
      assert rest + [last] == current;
      assert Weight(rest, count) <= Weight(rest + [last], count);
      assert Weight([last] + moved, count) <= Weight([last], count) + Weight(moved, count) + sep;
      if moved == [] { assert [last] + moved == [last]; }
      CutWeight(rest, [last] + moved, overlap, limit, count, sep);
    }
  }

  lemma CutLines(current: seq<string>, overlap: int, count: Count)
    ensures var r := Cut(current, [], overlap, count); r.0 + r.1 == current
  {
  }

  ghost predicate Light(lines: seq<string>, limit: nat, count: Count) {
    forall k :: 0 <= k < |lines| ==> Weight([lines[k]], count) <= limit
  }

  /** When no line weighs more than half of what the maximum leaves beside the overlap and two line
      breaks, no piece exceeds the maximum. */
  lemma {:induction false} PiecesFit(lines: seq<string>, current: seq<string>, sizes: Sizes, limit: nat, count: Count,
                                     sep: nat)
    requires Measures(count, sep) && sizes.overlap >= 0 && sizes.overlap + 2 * limit + 2 * sep <= sizes.max
    requires Light(lines, limit, count) && Light(current, limit, count)
    requires current == [] || Weight(current, count) <= sizes.max
    ensures forall piece :: piece in Pieces(lines, current, sizes, count) ==> Weight(piece, count) <= sizes.max
    decreases |lines|
  {
    hide Weight, Cut;
    if lines != [] {
      var line := lines[0];
      assert Weight([line], count) <= limit && Light(lines[1..], limit, count);
      if current != [] && Weight(current + [line], count) > sizes.max {
        var (left, moved) := Cut(current, [], sizes.overlap, count);
        CutWeight(current, [], sizes.overlap, limit, count, sep);
        CutLines(current, sizes.overlap, count);
        assert forall k :: 0 <= k < |moved| ==> moved[k] == current[|left| + k];
        assert Weight(moved + [line], count) <= Weight(moved, count) + Weight([line], count) + sep;
        if moved == [] { assert moved + [line] == [line]; }
        PiecesFit(lines[1..], moved + [line], sizes, limit, count, sep);
      } else {
        if current == [] { assert current + [line] == [line]; }
        PiecesFit(lines[1..], current + [line], sizes, limit, count, sep);
      }
    }
  }

  // --- Packing --------------------------------------------------------------------------------------

  /** A chunk before the document-wide merge decides whether it is big enough. */
  datatype Candidate = Candidate(
    blocks: seq<Item>, section: Section, isStep: bool, truncatedStart: bool, truncatedEnd: bool)

  function UnitLines(blocks: seq<Item>): seq<string> { Lines(Join(Texts(blocks), "\n\n")) }

  function PieceItem(template: Item, piece: seq<string>): Item {
    Item(template.start, template.end, Join(piece, "\n"), template.kind, 0, template.language)
  }

  /** The pieces that hold more than whitespace, as blocks of the kind of the unit's first. */
  function PieceItems(template: Item, pieces: seq<seq<string>>): seq<Item> {
    if pieces == [] then []
    else
      (if Blank(Join(pieces[0], "\n")) then [] else [PieceItem(template, pieces[0])])
      + PieceItems(template, pieces[1..])
  }

  function Oversized(blocks: seq<Item>, sizes: Sizes, count: Count): seq<Item>
    requires blocks != []
  {
    PieceItems(blocks[0], Pieces(UnitLines(blocks), [], sizes, count))
  }

  /** One candidate a piece, from the `index`th on of `total`. */
  function PieceCandidates(items: seq<Item>, section: Section, isStep: bool, index: nat, total: nat): seq<Candidate> {
    if items == [] then []
    else [Candidate([items[0]], section, isStep, index > 0, index + 1 < total)]
         + PieceCandidates(items[1..], section, isStep, index + 1, total)
  }

  function Flushed(current: seq<Item>, isStep: bool, section: Section): seq<Candidate> {
    if current == [] then [] else [Candidate(current, section, isStep, false, false)]
  }

  predicate Filled(units: seq<Group>) { forall k :: 0 <= k < |units| ==> units[k].blocks != [] }

  function PackFrom(units: seq<Group>, current: seq<Item>, isStep: bool, section: Section, sizes: Sizes,
                    count: Count): seq<Candidate>
    requires Filled(units)
    decreases |units|
  {
    if units == [] then Flushed(current, isStep, section)
    else
      var unit := units[0];
      if TokensOf(unit.blocks, count) > sizes.max then
        var items := Oversized(unit.blocks, sizes, count);
        Flushed(current, isStep, section) + PieceCandidates(items, section, unit.isStep, 0, |items|)
        + PackFrom(units[1..], [], false, section, sizes, count)
      else if current != [] && TokensOf(current, count) + TokensOf(unit.blocks, count) > sizes.target then
        Flushed(current, isStep, section) + PackFrom(units[1..], unit.blocks, unit.isStep, section, sizes, count)
      else PackFrom(units[1..], current + unit.blocks, isStep || unit.isStep, section, sizes, count)
  }

  method SplitOversized(unit: Unit, sizes: Sizes, count: Count) returns (items: seq<Item>)
    requires unit.blocks != []
    ensures items == Oversized(unit.blocks, sizes, count)
  {
    hide Pieces, Lines, Join, Blank;
    var template := unit.blocks[0];
    var pieces := SplitLines(UnitLines(unit.blocks), sizes, count);
    var contents := Contents(pieces);
    items := [];
    assert contents[0..] == contents && PieceItems(template, []) == [];
    for i := 0 to |contents|
      invariant items + PieceItems(template, contents[i..]) == PieceItems(template, contents)
    {
      PieceItemStep(template, contents, i, items);
      if !Blank(Join(contents[i], "\n")) { items := items + [PieceItem(template, contents[i])]; }
    }
    assert contents[|contents|..] == [] && items + [] == items;
  }

  lemma PieceItemStep(template: Item, pieces: seq<seq<string>>, i: nat, done: seq<Item>)
    requires i < |pieces|
    ensures done + PieceItems(template, pieces[i..])
         == (if Blank(Join(pieces[i], "\n")) then done else done + [PieceItem(template, pieces[i])])
            + PieceItems(template, pieces[i + 1..])
  {
    hide Blank, Join;
    assert pieces[i..][0] == pieces[i] && pieces[i..][1..] == pieces[i + 1..];
    var rest := PieceItems(template, pieces[i + 1..]);
    assert done + ([PieceItem(template, pieces[i])] + rest) == (done + [PieceItem(template, pieces[i])]) + rest;
    assert done + ([] + rest) == done + rest;
  }

  method PieceByPiece(items: seq<Item>, section: Section, isStep: bool) returns (packed: seq<Candidate>)
    ensures packed == PieceCandidates(items, section, isStep, 0, |items|)
  {
    packed := [];
    assert items[0..] == items;
    for index := 0 to |items|
      invariant packed + PieceCandidates(items[index..], section, isStep, index, |items|)
             == PieceCandidates(items, section, isStep, 0, |items|)
    {
      assert items[index..][0] == items[index] && items[index..][1..] == items[index + 1..];
      var candidate := Candidate([items[index]], section, isStep, index > 0, index < |items| - 1);
      var rest := PieceCandidates(items[index + 1..], section, isStep, index + 1, |items|);
      assert packed + ([candidate] + rest) == (packed + [candidate]) + rest;
      packed := packed + [candidate];
    }
    assert items[|items|..] == [];
  }

  lemma PackStep(units: seq<Group>, i: nat, current: seq<Item>, isStep: bool, section: Section, sizes: Sizes,
                 count: Count, done: seq<Candidate>)
    requires Filled(units) && i < |units|
    ensures units[i].blocks != []
    ensures done + PackFrom(units[i..], current, isStep, section, sizes, count) ==
      var unit := units[i];
      if TokensOf(unit.blocks, count) > sizes.max then
        var items := Oversized(unit.blocks, sizes, count);
        (done + Flushed(current, isStep, section) + PieceCandidates(items, section, unit.isStep, 0, |items|))
        + PackFrom(units[i + 1..], [], false, section, sizes, count)
      else if current != [] && TokensOf(current, count) + TokensOf(unit.blocks, count) > sizes.target then
        (done + Flushed(current, isStep, section))
            + PackFrom(units[i + 1..], unit.blocks, unit.isStep, section, sizes, count)
      else done + PackFrom(units[i + 1..], current + unit.blocks, isStep || unit.isStep, section, sizes, count)
  {
    hide TokensOf, Oversized, PieceCandidates, Flushed;
    var unit := units[i];
    assert units[i..][0] == unit && units[i..][1..] == units[i + 1..];
    if TokensOf(unit.blocks, count) > sizes.max {
      var items := Oversized(unit.blocks, sizes, count);
      var a, b := Flushed(current, isStep, section), PieceCandidates(items, section, unit.isStep, 0, |items|);
      var rest := PackFrom(units[i + 1..], [], false, section, sizes, count);
      assert done + (a + b + rest) == (done + a + b) + rest;
    } else {
      var a, rest := Flushed(current, isStep, section),
          PackFrom(units[i + 1..], unit.blocks, unit.isStep, section, sizes, count);
      assert done + (a + rest) == (done + a) + rest;
    }
  }

  method Flush(packed: seq<Candidate>, current: seq<Item>, isStep: bool, section: Section) returns (out: seq<Candidate>)
    ensures out == packed + Flushed(current, isStep, section)
  {
    out := packed;
    if current != [] { out := out + [Candidate(current, section, isStep, false, false)]; }
  }

  method Pack(units: seq<Unit>, section: Section, sizes: Sizes, count: Count) returns (packed: seq<Candidate>)
    requires AllCounted(units, count) && Filled(Values(units))
    ensures packed == PackFrom(Values(units), [], false, section, sizes, count)
  {
    hide TokensOf, Oversized, PieceCandidates, Flushed, PackFrom, Values;
    ghost var values := Values(units);
    packed := [];
    var current: seq<Item> := [];
    var currentStep := false;
    assert values[0..] == values && values[|values|..] == [];
    for i := 0 to |units|
      invariant values == Values(units)
      invariant packed + PackFrom(values[i..], current, currentStep, section, sizes, count)
             == PackFrom(values, [], false, section, sizes, count)
    {
      PackStep(values, i, current, currentStep, section, sizes, count, packed);
      var unit := units[i];
      assert values[i] == unit.Value() && unit.Counted(count) && [] + unit.blocks == unit.blocks;
      if unit.tokens > sizes.max {
        packed := Flush(packed, current, currentStep, section);
        current, currentStep := [], false;
        var items := SplitOversized(unit, sizes, count);
        var pieces := PieceByPiece(items, section, unit.isStep);
        packed := packed + pieces;
        continue;
      }
      if current != [] && TokensOf(current, count) + unit.tokens > sizes.target {
        packed := Flush(packed, current, currentStep, section);
        current, currentStep := [], false;
      }
      current := current + unit.blocks;
      currentStep := currentStep || unit.isStep;
    }
    PackEnd(current, currentStep, section, sizes, count);
    packed := Flush(packed, current, currentStep, section);
  }

  lemma PackEnd(current: seq<Item>, isStep: bool, section: Section, sizes: Sizes, count: Count)
    ensures Filled([]) && PackFrom([], current, isStep, section, sizes, count) == Flushed(current, isStep, section)
  {
  }
}
