/** The merge pass fold by fold: which two chunks become one each time, and what the one is. */
module MergingSteps {
  import opened Options
  import opened Strings
  import opened Sections
  import opened Units
  import opened Packing
  import opened Merging

  /** A chunk's text: its trimmed blocks, under a line with the titles there are. */
  function Labelled(docTitle: Option<string>, title: Option<string>, blocks: seq<Item>): string {
    var body := Strip(Join(Texts(blocks), "\n\n"));
    var doc, section := docTitle.Some? && docTitle.value != "", title.Some? && title.value != "";
    if doc && section then docTitle.value + " \U{203A} " + title.value + "\n\n" + body
    else if doc then docTitle.value + "\n\n" + body
    else if section then title.value + "\n\n" + body
    else body
  }

  function Weighs(c: Candidate, r: Ruler): nat { r.count(Labelled(r.docTitle, c.section.title, c.blocks)) }

  lemma WeighsIs(c: Candidate, r: Ruler)
    ensures Tokens(c, r) == Weighs(c, r)
  {
    LabelledIs(r.docTitle, c.section, c.blocks);
  }

  lemma LabelledIs(docTitle: Option<string>, section: Section, blocks: seq<Item>)
    ensures ChunkText(docTitle, section, BodyOf(blocks)) == Labelled(docTitle, section.title, blocks)
  {
    hide Strip, Texts;
    var parts := Present(docTitle) + Present(section.title);
    var line := Join(parts, " \U{203A} ");
    if |parts| == 2 {
      assert parts[1..] == [parts[1]] && Join(parts[1..], " \U{203A} ") == parts[1];
      assert line == parts[0] + " \U{203A} " + parts[1] && line != "";
    } else if |parts| == 1 {
      assert line == parts[0] && line != "";
      assert parts == Present(docTitle) || parts == Present(section.title);
    } else {
      assert line == "";
    }
  }

  /** Two chunks as one: their blocks in order, under the section of the heavier, the first if they
      weigh the same. */
  predicate IsBoth(both: Candidate, first: Candidate, second: Candidate, r: Ruler) {
    && both.blocks == first.blocks + second.blocks
    && both.section == (if Weighs(second, r) > Weighs(first, r) then second.section else first.section)
    && (both.isStep <==> first.isStep || second.isStep)
    && both.truncatedStart == first.truncatedStart && both.truncatedEnd == second.truncatedEnd
  }

  /** The two after `i` can be one without passing the maximum. */
  ghost predicate Joinable(cs: seq<Candidate>, i: int, r: Ruler)
    ensures Joinable(cs, i, r) ==> 0 <= i && i + 1 < |cs|
  {
    0 <= i && i + 1 < |cs| && exists both :: IsBoth(both, cs[i], cs[i + 1], r) && Weighs(both, r) <= r.sizes.max
  }

  /** The first chunk below the floor. */
  predicate FirstLight(cs: seq<Candidate>, t: nat, r: Ruler) {
    t < |cs| && Weighs(cs[t], r) < r.sizes.min && forall k :: 0 <= k < t ==> Weighs(cs[k], r) >= r.sizes.min
  }

  /** One fold: the first chunk below the floor goes with a neighbour it can be joined to, with the lighter
      when there are two, the one before it when they weigh the same. */
  ghost predicate Folds(cs: seq<Candidate>, next: seq<Candidate>, r: Ruler) {
    exists t: nat, i: nat, both: Candidate :: FoldsWith(cs, next, t, i, both, r)
  }

  ghost predicate FoldsWith(cs: seq<Candidate>, next: seq<Candidate>, t: nat, i: nat, both: Candidate, r: Ruler) {
    && FirstLight(cs, t, r) && (i == t || i + 1 == t) && Joinable(cs, i, r)
    && (i == t && Joinable(cs, t - 1, r) ==> Weighs(cs[t + 1], r) < Weighs(cs[t - 1], r))
    && (i + 1 == t && Joinable(cs, t, r) ==> Weighs(cs[t + 1], r) >= Weighs(cs[t - 1], r))
    && IsBoth(both, cs[i], cs[i + 1], r) && next == cs[..i] + [both] + cs[i + 2..]
  }

  /** Nothing more to fold: one chunk, none below the floor, or a first one that can be joined to no
      neighbour. */
  ghost predicate Done(cs: seq<Candidate>, r: Ruler) {
    || |cs| <= 1 || (forall k :: 0 <= k < |cs| ==> Weighs(cs[k], r) >= r.sizes.min)
    || exists t: nat :: FirstLight(cs, t, r) && !Joinable(cs, t - 1, r) && !Joinable(cs, t, r)
  }

  /** A list, folded once to the next, and so on until nothing more can be. */
  ghost predicate Chain(lists: seq<seq<Candidate>>, r: Ruler) {
    && lists != []
    && if |lists| == 1 then Done(lists[0], r)
       else |lists[0]| > 1 && Folds(lists[0], lists[1], r) && Chain(lists[1..], r)
  }

  lemma MergedIsBoth(a: Candidate, b: Candidate, r: Ruler)
    ensures IsBoth(Merged(a, b, r), a, b, r)
    ensures forall both :: IsBoth(both, a, b, r) ==> both == Merged(a, b, r)
  {
    hide Tokens, Weighs;
    WeighsIs(a, r);
    WeighsIs(b, r);
  }

  lemma FitsIff(cs: seq<Candidate>, i: nat, r: Ruler)
    ensures Fits(cs, i, r) <==> Joinable(cs, i, r)
  {
    if i + 1 < |cs| {
      var both := Merged(cs[i], cs[i + 1], r);
      MergedIsBoth(cs[i], cs[i + 1], r);
      WeighsIs(both, r);
      hide Weighs, IsBoth, ChunkText, BodyOf;
      assert Combined(cs[i], cs[i + 1], r) == Tokens(both, r);
    }
  }

  lemma FirstIs(cs: seq<Candidate>, r: Ruler)
    ensures match FirstSmall(cs, 0, r)
      case None => forall k :: 0 <= k < |cs| ==> Weighs(cs[k], r) >= r.sizes.min
      case Some(t) => FirstLight(cs, t, r)
  {
    hide Tokens, Weighs;
    forall k | 0 <= k < |cs| ensures Small(cs[k], r) <==> Weighs(cs[k], r) < r.sizes.min { WeighsIs(cs[k], r); }
  }

  lemma StepFolds(cs: seq<Candidate>, r: Ruler)
    requires |cs| > 1
    ensures match NextPair(cs, r)
      case None => Done(cs, r)
      case Some(i) => Folds(cs, Replaced(cs, i, r), r)
  {
    hide PairFor, Folds, Replaced, Weighs, FirstLight, Joinable;
    FirstIs(cs, r);
    match FirstSmall(cs, 0, r)
    case None =>
    case Some(t) => PairFolds(cs, t, r);
  }

  lemma PairFolds(cs: seq<Candidate>, t: nat, r: Ruler)
    requires FirstLight(cs, t, r)
    ensures match PairFor(cs, t, r)
      case None => !Joinable(cs, t - 1, r) && !Joinable(cs, t, r)
      case Some(i) => Folds(cs, Replaced(cs, i, r), r)
  {
    hide Tokens, Weighs, Fits, Joinable, IsBoth, Merged, Folds;
    FitsIff(cs, t, r);
    if t > 0 {
      FitsIff(cs, t - 1, r);
      WeighsIs(cs[t - 1], r);
    }
    if t + 1 < |cs| { WeighsIs(cs[t + 1], r); }
    if Fits(cs, t, r) { FitsRoom(cs, t, r); }
    NotBefore(cs, r);
    match PairFor(cs, t, r)
    case None =>
    case Some(i) =>
      FitsRoom(cs, i, r);
      MergedIsBoth(cs[i], cs[i + 1], r);
      FoldsAt(cs, t, i, Merged(cs[i], cs[i + 1], r), r);
  }

  lemma NotBefore(cs: seq<Candidate>, r: Ruler)
    ensures !Joinable(cs, -1, r)
  {
  }

  lemma FitsRoom(cs: seq<Candidate>, i: nat, r: Ruler)
    requires Fits(cs, i, r)
    ensures i + 1 < |cs|
  {
  }

  lemma FoldsAt(cs: seq<Candidate>, t: nat, i: nat, both: Candidate, r: Ruler)
    requires t < |cs| && FirstLight(cs, t, r) && (i == t || i + 1 == t) && i + 1 < |cs| && Joinable(cs, i, r)
    requires i == t && Joinable(cs, t - 1, r) ==> t > 0 && Weighs(cs[t + 1], r) < Weighs(cs[t - 1], r)
    requires i + 1 == t && Joinable(cs, t, r) ==> t + 1 < |cs| && Weighs(cs[t + 1], r) >= Weighs(cs[t - 1], r)
    requires IsBoth(both, cs[i], cs[i + 1], r)
    ensures Folds(cs, cs[..i] + [both] + cs[i + 2..], r)
  {
    hide FirstLight, Joinable, Weighs, IsBoth;
    assert FoldsWith(cs, cs[..i] + [both] + cs[i + 2..], t, i, both, r);
  }

  /** The pass is a chain of such folds, from the list it is given to the one it leaves, and it ends only
      where nothing more can be folded. */
  lemma {:induction false} MergeIsChain(cs: seq<Candidate>, r: Ruler) returns (lists: seq<seq<Candidate>>)
    ensures Chain(lists, r) && lists[0] == cs && lists[|lists| - 1] == MergeFrom(cs, r)
    decreases |cs|
  {
    hide Folds, Done, Replaced, NextPair, MergeFrom, Chain;
    MergeStep(cs, r);
    if |cs| <= 1 {
      lists := [cs];
      FewDone(cs, r);
      ChainEnds(cs, r);
    } else {
      StepFolds(cs, r);
      match NextPair(cs, r)
      case None =>
        lists := [cs];
        ChainEnds(cs, r);
      case Some(i) =>
        var rest := MergeIsChain(Replaced(cs, i, r), r);
        lists := [cs] + rest;
        ChainMore(cs, rest, r);
    }
  }

  lemma ChainEnds(cs: seq<Candidate>, r: Ruler)
    requires Done(cs, r)
    ensures Chain([cs], r)
  {
  }

  lemma ChainMore(cs: seq<Candidate>, rest: seq<seq<Candidate>>, r: Ruler)
    requires Chain(rest, r)
    ensures rest != []
    ensures |cs| > 1 && Folds(cs, rest[0], r) ==> Chain([cs] + rest, r)
    ensures ([cs] + rest)[|rest|] == rest[|rest| - 1]
  {
    hide Folds, Done;
    assert ([cs] + rest)[1..] == rest;
  }

  lemma FewDone(cs: seq<Candidate>, r: Ruler)
    requires |cs| <= 1
    ensures Done(cs, r)
  {
  }
}
