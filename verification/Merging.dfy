/** Folding chunks below the floor into a neighbour, across section boundaries. */
module Merging {
  import opened Options
  import opened Strings
  import opened Sections
  import opened Units
  import opened Packing
  import opened PackingFacts

  /** What the token counts of the merge pass depend on. */
  datatype Ruler = Ruler(docTitle: Option<string>, sizes: Sizes, count: Count)

  function BodyOf(blocks: seq<Item>): string { Strip(Join(Texts(blocks), "\n\n")) }

  function Present(title: Option<string>): seq<string> {
    if title.Some? && title.value != "" then [title.value] else []
  }

  function ChunkText(docTitle: Option<string>, section: Section, body: string): string {
    var line := Join(Present(docTitle) + Present(section.title), " \U{203A} ");
    if line != "" then line + "\n\n" + body else body
  }

  function Tokens(c: Candidate, r: Ruler): nat { r.count(ChunkText(r.docTitle, c.section, BodyOf(c.blocks))) }

  /** Two neighbours as one; the citation is that of the one with more text. */
  function Merged(first: Candidate, second: Candidate, r: Ruler): Candidate {
    Candidate(
      first.blocks + second.blocks,
      if Tokens(first, r) >= Tokens(second, r) then first.section else second.section,
      first.isStep || second.isStep,
      first.truncatedStart,
      second.truncatedEnd)
  }

  function Combined(left: Candidate, right: Candidate, r: Ruler): nat {
    var section := if Tokens(left, r) >= Tokens(right, r) then left.section else right.section;
    r.count(ChunkText(r.docTitle, section, BodyOf(left.blocks + right.blocks)))
  }

  predicate Fits(cs: seq<Candidate>, i: nat, r: Ruler) {
    i + 1 < |cs| && Combined(cs[i], cs[i + 1], r) <= r.sizes.max
  }

  predicate Small(c: Candidate, r: Ruler) { Tokens(c, r) < r.sizes.min }

  function FirstSmall(cs: seq<Candidate>, i: nat, r: Ruler): (target: Option<nat>)
    requires i <= |cs|
    ensures target.Some? ==> i <= target.value < |cs| && Small(cs[target.value], r)
    ensures forall k :: i <= k < (if target.Some? then target.value else |cs|) ==> !Small(cs[k], r)
    decreases |cs| - i
  {
    if i == |cs| then None else if Small(cs[i], r) then Some(i) else FirstSmall(cs, i + 1, r)
  }

  /** The left one of the pair to merge: the target with whichever fitting neighbour has fewer
      tokens, the one before it when they are equal. */
  function PairFor(cs: seq<Candidate>, target: nat, r: Ruler): (pair: Option<nat>)
    requires target < |cs|
    ensures pair.Some? ==> Fits(cs, pair.value, r) && (pair.value == target || pair.value + 1 == target)
    ensures pair.None? <==> !Fits(cs, target, r) && (target == 0 || !Fits(cs, target - 1, r))
  {
    if target > 0 && Fits(cs, target - 1, r) then
      if Fits(cs, target, r) && Tokens(cs[target + 1], r) < Tokens(cs[target - 1], r) then Some(target)
      else Some(target - 1)
    else if Fits(cs, target, r) then Some(target)
    else None
  }

  function Replaced(cs: seq<Candidate>, i: nat, r: Ruler): (out: seq<Candidate>)
    requires i + 1 < |cs|
    ensures |out| + 1 == |cs|
  {
    cs[..i] + [Merged(cs[i], cs[i + 1], r)] + cs[i + 2..]
  }

  /** The pair the pass merges next, if it goes on. */
  function NextPair(cs: seq<Candidate>, r: Ruler): (pair: Option<nat>)
    ensures pair.Some? ==> Fits(cs, pair.value, r)
  {
    if |cs| <= 1 then None
    else
      match FirstSmall(cs, 0, r)
      case None => None
      case Some(target) => PairFor(cs, target, r)
  }

  function MergeFrom(cs: seq<Candidate>, r: Ruler): seq<Candidate>
    decreases |cs|
  {
    match NextPair(cs, r)
    case None => cs
    case Some(i) => MergeFrom(Replaced(cs, i, r), r)
  }

  method Neighbours(cs: seq<Candidate>, target: nat, r: Ruler) returns (neighbours: seq<nat>)
    requires target < |cs|
    ensures neighbours == (if target > 0 && Fits(cs, target - 1, r) then [target - 1] else [])
                          + if Fits(cs, target, r) then [target + 1] else []
  {
    neighbours := [];
    if target > 0 && Combined(cs[target - 1], cs[target], r) <= r.sizes.max { neighbours := neighbours + [target - 1]; }
    if target + 1 < |cs| && Combined(cs[target], cs[target + 1], r) <= r.sizes.max {
      neighbours := neighbours + [target + 1];
    }
  }

  method MergeUndersized(candidates: seq<Candidate>, r: Ruler) returns (merged: seq<Candidate>)
    ensures merged == MergeFrom(candidates, r)
  {
    hide Tokens, Merged, MergeFrom, NextPair, Replaced;
    merged := candidates;
    while |merged| > 1
      invariant MergeFrom(merged, r) == MergeFrom(candidates, r)
      decreases |merged|
    {
      MergeStep(merged, r);
      var low := ChoosePair(merged, r);
      if low.None? { break; }
      ghost var before := merged;
      merged := merged[low.value := Merged(merged[low.value], merged[low.value + 1], r)];
      merged := merged[..low.value + 1] + merged[low.value + 2..];
      ReplaceAndDelete(before, low.value, r);
    }
    if |merged| <= 1 { MergeStep(merged, r); }
  }

  lemma ReplaceAndDelete(cs: seq<Candidate>, i: nat, r: Ruler)
    requires i + 1 < |cs|
    ensures var put := cs[i := Merged(cs[i], cs[i + 1], r)]; put[..i + 1] + put[i + 2..] == Replaced(cs, i, r)
  {
    hide Merged;
  }

  lemma MergeStep(cs: seq<Candidate>, r: Ruler)
    ensures MergeFrom(cs, r)
        == if NextPair(cs, r).None? then cs else MergeFrom(Replaced(cs, NextPair(cs, r).value, r), r)
    ensures |cs| <= 1 ==> NextPair(cs, r).None?
  {
    hide Replaced, Small, Fits;
  }

  method ChoosePair(cs: seq<Candidate>, r: Ruler) returns (low: Option<nat>)
    requires |cs| > 1
    ensures low == NextPair(cs, r)
  {
    hide Tokens, Combined;
    var target := FirstSmall(cs, 0, r);
    if target.None? { return None; }
    var neighbours := Neighbours(cs, target.value, r);
    if |neighbours| == 0 { return None; }
    var choice := neighbours[0];
    if |neighbours| > 1 && Tokens(cs[neighbours[1]], r) < Tokens(cs[choice], r) { choice := neighbours[1]; }
    low := Some(if choice < target.value then choice else target.value);
  }

  // --- What merging keeps -----------------------------------------------------------------------------

  lemma ReplacedBlocks(cs: seq<Candidate>, i: nat, r: Ruler)
    requires i + 1 < |cs|
    ensures AllBlocks(Replaced(cs, i, r)) == AllBlocks(cs)
  {
    hide Tokens, AllBlocks, Merged;
    var a, first, second, b := cs[..i], cs[i], cs[i + 1], cs[i + 2..];
    var both := Merged(first, second, r);
    PairAt(cs, i);
    BlocksAround(a, [both], b);
    BlocksAround(a, [first] + [second], b);
    AllBlocksAppend([first], [second]);
    OneCandidate(first);
    OneCandidate(second);
    OneCandidate(both);
    MergedBlocks(first, second, r);
    assert Replaced(cs, i, r) == a + [both] + b;
  }

  lemma PairAt(cs: seq<Candidate>, i: nat)
    requires i + 1 < |cs|
    ensures cs == cs[..i] + ([cs[i]] + [cs[i + 1]]) + cs[i + 2..]
  {
  }

  lemma BlocksAround(a: seq<Candidate>, mid: seq<Candidate>, b: seq<Candidate>)
    ensures AllBlocks(a + mid + b) == AllBlocks(a) + AllBlocks(mid) + AllBlocks(b)
  {
    AllBlocksAppend(a + mid, b);
    AllBlocksAppend(a, mid);
  }

  lemma OneCandidate(c: Candidate)
    ensures AllBlocks([c]) == c.blocks
  {
    assert AllBlocks([]) == [] && [c][1..] == [];
  }

  lemma MergedBlocks(first: Candidate, second: Candidate, r: Ruler)
    ensures Merged(first, second, r).blocks == first.blocks + second.blocks
  {
  }

  /** Merging keeps every block, in order. */
  lemma {:induction false} MergeKeepsBlocks(cs: seq<Candidate>, r: Ruler)
    ensures AllBlocks(MergeFrom(cs, r)) == AllBlocks(cs)
    decreases |cs|
  {
    hide NextPair, Replaced, AllBlocks;
    match NextPair(cs, r)
    case None =>
    case Some(i) =>
      ReplacedBlocks(cs, i, r);
      MergeKeepsBlocks(Replaced(cs, i, r), r);
  }

  lemma MergedFits(cs: seq<Candidate>, i: nat, r: Ruler)
    requires Fits(cs, i, r)
    ensures Tokens(Merged(cs[i], cs[i + 1], r), r) <= r.sizes.max
  {
  }

  /** Every chunk that comes out is one that went in, or keeps to the maximum. */
  lemma {:induction false} MergeNeverOversizes(cs: seq<Candidate>, r: Ruler)
    ensures forall c :: c in MergeFrom(cs, r) ==> c in cs || Tokens(c, r) <= r.sizes.max
    decreases |cs|
  {
    hide Tokens, Merged, NextPair;
    match NextPair(cs, r)
    case None =>
    case Some(i) =>
      MergedFits(cs, i, r);
      MergeNeverOversizes(Replaced(cs, i, r), r);
      assert forall c :: c in Replaced(cs, i, r) ==> c in cs || c == Merged(cs[i], cs[i + 1], r);
  }

  /** It stops only with at most one chunk, with none below the floor, or with a first one below
      the floor that no neighbour can absorb. */
  ghost predicate Finished(cs: seq<Candidate>, r: Ruler) {
    || |cs| <= 1
    || (forall k :: 0 <= k < |cs| ==> !Small(cs[k], r))
    || exists t: nat :: FirstOf(cs, t, r) && !Fits(cs, t, r) && (t == 0 || !Fits(cs, t - 1, r))
  }

  predicate FirstOf(cs: seq<Candidate>, t: nat, r: Ruler) {
    t < |cs| && Small(cs[t], r) && forall k :: 0 <= k < t ==> !Small(cs[k], r)
  }

  lemma {:induction false} MergeFinishes(cs: seq<Candidate>, r: Ruler)
    ensures Finished(MergeFrom(cs, r), r)
    decreases |cs|
  {
    hide Small, Combined, Replaced;
    match NextPair(cs, r)
    case None =>
      if |cs| > 1 {
        var target := FirstSmall(cs, 0, r);
        if target.Some? { assert FirstOf(cs, target.value, r); }
      }
    case Some(i) => MergeFinishes(Replaced(cs, i, r), r);
  }

  /** A chunk below the floor that cannot be absorbed ends the pass, so any after it stay as they
      are, however small and however well they fit together. */
  lemma StuckChunkEndsThePass(cs: seq<Candidate>, t: nat, r: Ruler)
    requires FirstOf(cs, t, r) && !Fits(cs, t, r) && (t == 0 || !Fits(cs, t - 1, r))
    ensures MergeFrom(cs, r) == cs
  {
    hide Small, Fits;
    var target := FirstSmall(cs, 0, r);
    assert target == Some(t);
  }
}
