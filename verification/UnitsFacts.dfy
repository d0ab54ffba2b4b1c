/** Which blocks of a section are bound into which unit. */
module UnitsFacts {
  import opened Options
  import opened Sections
  import opened Units

  /** Consecutive blocks that stay together: those of a step, or a block with the code and images after
      it. */
  datatype Stretch = Stretch(from: nat, upto: nat, step: bool)

  /** `r` is the first step region the block lies in. */
  ghost predicate FirstRegion(steps: seq<Region>, b: Item, r: Region) {
    exists k :: 0 <= k < |steps| && steps[k] == r && Inside(r, b) && forall j :: 0 <= j < k ==> !Inside(steps[j], b)
  }

  ghost predicate InStep(blocks: seq<Item>, s: Stretch, r: Region)
    requires s.upto <= |blocks|
  {
    && (forall k :: s.from <= k < s.upto ==> Inside(r, blocks[k]))
    && (s.upto < |blocks| ==> !Inside(r, blocks[s.upto]))
  }

  /** A stretch begins with no rule. In a step it goes on as long as that lasts; outside every step, as
      long as code and images follow. */
  ghost predicate StretchOk(blocks: seq<Item>, steps: seq<Region>, s: Stretch) {
    && s.from < s.upto <= |blocks| && !blocks[s.from].kind.Rule?
    && if s.step then exists r :: FirstRegion(steps, blocks[s.from], r) && InStep(blocks, s, r)
       else
         && (forall r <- steps :: !Inside(r, blocks[s.from]))
         && (forall k :: s.from < k < s.upto ==> Media(blocks[k]))
         && (s.upto < |blocks| ==> !Media(blocks[s.upto]))
  }

  /** The stretches lie one after the other up to `j`, with nothing but rules between. */
  ghost predicate Covers(blocks: seq<Item>, stretches: seq<Stretch>, j: nat)
    requires j <= |blocks|
    decreases |stretches|
  {
    if stretches == [] then RulesOnly(blocks, 0, j)
    else
      var last := stretches[|stretches| - 1];
      && last.from <= last.upto <= j && RulesOnly(blocks, last.upto, j)
      && Covers(blocks, stretches[..|stretches| - 1], last.from)
  }

  predicate RulesOnly(blocks: seq<Item>, i: nat, j: nat)
    requires j <= |blocks|
  {
    forall k :: i <= k < j ==> blocks[k].kind.Rule?
  }

  function BlocksOf(blocks: seq<Item>, part: seq<Stretch>): seq<Item>
    requires forall s <- part :: s.from <= s.upto <= |blocks|
  {
    if part == [] then []
    else
      var last := part[|part| - 1];
      BlocksOf(blocks, part[..|part| - 1]) + blocks[last.from..last.upto]
  }

  function Concat(parts: seq<seq<Stretch>>): seq<Stretch> {
    if parts == [] then [] else Concat(parts[..|parts| - 1]) + parts[|parts| - 1]
  }

  /** A unit's stretches: any, and then those outside steps that begin with code or an image. */
  ghost predicate PartOk(blocks: seq<Item>, steps: seq<Region>, part: seq<Stretch>) {
    && part != [] && (forall s <- part :: StretchOk(blocks, steps, s))
    && forall k :: 0 < k < |part| ==> !part[k].step && part[k].from < |blocks| && Media(blocks[part[k].from])
  }

  /** What opens a unit after others: a step, or a block that is neither code nor image. */
  predicate Opens(blocks: seq<Item>, part: seq<Stretch>) {
    part != [] && part[0].from < |blocks| && (part[0].step || !Media(blocks[part[0].from]))
  }

  ghost predicate UnitIs(blocks: seq<Item>, part: seq<Stretch>, unit: Group) {
    && part != [] && (forall s <- part :: s.from <= s.upto <= |blocks|)
    && unit == Group(BlocksOf(blocks, part), part[0].step)
  }

  /** The units up to the `i`th block. */
  ghost predicate UnitsAre(blocks: seq<Item>, steps: seq<Region>, parts: seq<seq<Stretch>>, i: nat, units: seq<Group>) {
    && i <= |blocks| && Covers(blocks, Concat(parts), i)
    && |units| == |parts| && forall k :: 0 <= k < |parts| ==> OneUnit(blocks, steps, parts[k], units[k], k == 0)
  }

  ghost predicate OneUnit(blocks: seq<Item>, steps: seq<Region>, part: seq<Stretch>, unit: Group, first: bool) {
    PartOk(blocks, steps, part) && UnitIs(blocks, part, unit) && (first || Opens(blocks, part))
  }

  lemma {:induction false} RegionIs(steps: seq<Region>, b: Item)
    ensures match RegionOf(steps, b)
      case Some(r) => FirstRegion(steps, b, r)
      case None => forall r <- steps :: !Inside(r, b)
  {
    if steps != [] && !Inside(steps[0], b) {
      RegionIs(steps[1..], b);
      if r: Region :| FirstRegion(steps[1..], b, r) {
        var k :| 0 <= k < |steps[1..]| && steps[1..][k] == r && Inside(r, b)
          && forall j :: 0 <= j < k ==> !Inside(steps[1..][j], b);
        assert steps[k + 1] == r && forall j :: 0 < j < k + 1 ==> steps[j] == steps[1..][j - 1];
      }
    }
  }

  lemma {:induction false} RegionRun(blocks: seq<Item>, i: nat, r: Region)
    requires i <= |blocks|
    ensures var j := RegionEnd(blocks, i, r);
      && (forall k :: i <= k < j ==> Inside(r, blocks[k])) && (j < |blocks| ==> !Inside(r, blocks[j]))
    decreases |blocks| - i
  {
    if i < |blocks| && Inside(r, blocks[i]) { RegionRun(blocks, i + 1, r); }
  }

  lemma {:induction false} MediaRun(blocks: seq<Item>, i: nat)
    requires i <= |blocks|
    ensures var j := MediaEnd(blocks, i);
      && (forall k :: i <= k < j ==> Media(blocks[k])) && (j < |blocks| ==> !Media(blocks[j]))
    decreases |blocks| - i
  {
    if i < |blocks| && Media(blocks[i]) { MediaRun(blocks, i + 1); }
  }

  /** The stretch at a block that is no rule. */
  lemma NextStretch(blocks: seq<Item>, i: nat, steps: seq<Region>) returns (s: Stretch)
    requires i < |blocks| && !blocks[i].kind.Rule?
    ensures StretchOk(blocks, steps, s) && s.from == i && (s.step <==> RegionOf(steps, blocks[i]).Some?)
    ensures s.upto == match RegionOf(steps, blocks[i])
      case Some(r) => RegionEnd(blocks, i + 1, r)
      case None => MediaEnd(blocks, i + 1)
  {
    hide FirstRegion, Media;
    RegionIs(steps, blocks[i]);
    match RegionOf(steps, blocks[i])
    case Some(r) =>
      RegionRun(blocks, i + 1, r);
      s := Stretch(i, RegionEnd(blocks, i + 1, r), true);
      assert InStep(blocks, s, r);
    case None =>
      MediaRun(blocks, i + 1);
      s := Stretch(i, MediaEnd(blocks, i + 1), false);
  }

  lemma CoversMore(blocks: seq<Item>, stretches: seq<Stretch>, s: Stretch)
    requires s.from <= s.upto <= |blocks| && Covers(blocks, stretches, s.from)
    ensures Covers(blocks, stretches + [s], s.upto)
  {
    assert (stretches + [s])[..|stretches|] == stretches;
  }

  lemma ConcatLast(parts: seq<seq<Stretch>>, part: seq<Stretch>)
    ensures Concat(parts + [part]) == Concat(parts) + part
  {
    assert (parts + [part])[..|parts|] == parts;
  }

  lemma PartMore(blocks: seq<Item>, part: seq<Stretch>, s: Stretch)
    requires (forall t <- part :: t.from <= t.upto <= |blocks|) && s.from <= s.upto <= |blocks|
    ensures BlocksOf(blocks, part + [s]) == BlocksOf(blocks, part) + blocks[s.from..s.upto]
  {
    assert (part + [s])[..|part|] == part;
  }

  lemma UnitOpens(blocks: seq<Item>, steps: seq<Region>, parts: seq<seq<Stretch>>, units: seq<Group>, s: Stretch)
    requires UnitsAre(blocks, steps, parts, s.from, units) && StretchOk(blocks, steps, s)
    requires units == [] || s.step || !Media(blocks[s.from])
    ensures UnitsAre(blocks, steps, parts + [[s]], s.upto, units + [Group(blocks[s.from..s.upto], s.step)])
  {
    hide Covers, Media;
    ConcatLast(parts, [s]);
    CoversMore(blocks, Concat(parts), s);
    OneOpens(blocks, steps, s, units == []);
    hide OneUnit, StretchOk;
  }

  lemma OneOpens(blocks: seq<Item>, steps: seq<Region>, s: Stretch, first: bool)
    requires StretchOk(blocks, steps, s) && (first || s.step || !Media(blocks[s.from]))
    ensures OneUnit(blocks, steps, [s], Group(blocks[s.from..s.upto], s.step), first)
  {
    hide Media;
    PartMore(blocks, [], s);
    assert [] + [s] == [s] && BlocksOf(blocks, []) == [] && [] + blocks[s.from..s.upto] == blocks[s.from..s.upto];
  }

  lemma OneGrows(blocks: seq<Item>, steps: seq<Region>, part: seq<Stretch>, unit: Group, first: bool, s: Stretch)
    requires OneUnit(blocks, steps, part, unit, first)
    requires StretchOk(blocks, steps, s) && !s.step && Media(blocks[s.from])
    ensures OneUnit(blocks, steps, part + [s], unit.(blocks := unit.blocks + blocks[s.from..s.upto]), first)
  {
    PartMore(blocks, part, s);
    LongerPart(blocks, steps, part, s);
    assert (part + [s])[0] == part[0];
  }

  lemma UnitGrows(blocks: seq<Item>, steps: seq<Region>, parts: seq<seq<Stretch>>, units: seq<Group>, s: Stretch)
    returns (more: seq<seq<Stretch>>)
    requires UnitsAre(blocks, steps, parts, s.from, units) && StretchOk(blocks, steps, s)
    requires units != [] && !s.step && Media(blocks[s.from])
    ensures var last := units[|units| - 1];
      UnitsAre(blocks, steps, more, s.upto,
               units[..|units| - 1] + [last.(blocks := last.blocks + blocks[s.from..s.upto])])
  {
    hide Covers, Media, OneUnit, BlocksOf, Concat;
    StretchBounds(blocks, steps, s);
    hide StretchOk;
    var n := |parts| - 1;
    more := parts[..n] + [parts[n] + [s]];
    assert parts == parts[..n] + [parts[n]];
    ConcatLast(parts[..n], parts[n]);
    ConcatLast(parts[..n], parts[n] + [s]);
    CoversMore(blocks, Concat(parts), s);
    assert Concat(parts[..n]) + parts[n] + [s] == Concat(parts[..n]) + (parts[n] + [s]);
    OneGrows(blocks, steps, parts[n], units[n], n == 0, s);
  }

  lemma LongerPart(blocks: seq<Item>, steps: seq<Region>, part: seq<Stretch>, s: Stretch)
    requires PartOk(blocks, steps, part) && StretchOk(blocks, steps, s) && !s.step && Media(blocks[s.from])
    ensures PartOk(blocks, steps, part + [s])
  {
    StretchBounds(blocks, steps, s);
    hide StretchOk;
    var more := part + [s];
    assert forall t <- more :: t in part || t == s;
  }

  lemma {:induction false} GroupsAre(blocks: seq<Item>, i: nat, steps: seq<Region>, units: seq<Group>,
                                     parts: seq<seq<Stretch>>) returns (all: seq<seq<Stretch>>)
    requires UnitsAre(blocks, steps, parts, i, units)
    ensures UnitsAre(blocks, steps, all, |blocks|, GroupFrom(blocks, i, steps, units))
    decreases |blocks| - i
  {
    hide RegionOf, RegionEnd, MediaEnd, StretchOk, UnitsAre, Media, GroupFrom;
    UnitsBound(blocks, steps, parts, i, units);
    if i == |blocks| {
      GroupDone(blocks, steps, units);
      all := parts;
    } else {
      GroupStep(blocks, i, steps, units);
      if blocks[i].kind.Rule? {
        RuleSkipped(blocks, steps, parts, i, units);
        all := GroupsAre(blocks, i + 1, steps, units, parts);
      } else {
        var s := NextStretch(blocks, i, steps);
        StretchBounds(blocks, steps, s);
        if s.step || units == [] || !Media(blocks[i]) {
          UnitOpens(blocks, steps, parts, units, s);
          all := GroupsAre(blocks, s.upto, steps, units + [Group(blocks[i..s.upto], s.step)], parts + [[s]]);
        } else {
          var more := UnitGrows(blocks, steps, parts, units, s);
          all := GroupsAre(blocks, s.upto, steps, Attached(units, blocks[i..s.upto]), more);
        }
      }
    }
  }

  lemma UnitsBound(blocks: seq<Item>, steps: seq<Region>, parts: seq<seq<Stretch>>, i: nat, units: seq<Group>)
    requires UnitsAre(blocks, steps, parts, i, units)
    ensures i <= |blocks|
  {
  }

  lemma StretchBounds(blocks: seq<Item>, steps: seq<Region>, s: Stretch)
    requires StretchOk(blocks, steps, s)
    ensures s.from < s.upto <= |blocks|
  {
  }

  lemma RuleSkipped(blocks: seq<Item>, steps: seq<Region>, parts: seq<seq<Stretch>>, i: nat, units: seq<Group>)
    requires i < |blocks| && blocks[i].kind.Rule? && UnitsAre(blocks, steps, parts, i, units)
    ensures UnitsAre(blocks, steps, parts, i + 1, units)
  {
    hide OneUnit, Concat;
  }

  /** The units as bound: those of the parts, but that one of nothing but code and images before
      others joins the next. */
  ghost predicate BoundIs(blocks: seq<Item>, units: seq<Group>, out: seq<Group>) {
    if |units| > 1 && forall b <- units[0].blocks :: b.kind.Code? || b.kind.Image? then
      && |out| == |units| - 1
      && out[0] == Group(units[0].blocks + units[1].blocks, units[0].isStep || units[1].isStep)
      && forall k :: 0 < k < |out| ==> out[k] == units[k + 1]
    else out == units
  }

  /** Every block that is no rule lies in one stretch, in order; the blocks of a step stay together and
      are marked as one, other blocks keep the code and images that follow them, and those that nothing
      precedes are bound to what does. */
  lemma BindingIs(blocks: seq<Item>, steps: seq<Region>) returns (parts: seq<seq<Stretch>>)
    ensures exists units ::
      UnitsAre(blocks, steps, parts, |blocks|, units) && BoundIs(blocks, units, Bound(blocks, steps))
  {
    hide UnitsAre, GroupFrom;
    NothingYet(blocks, steps);
    parts := GroupsAre(blocks, 0, steps, [], []);
    var units := GroupFrom(blocks, 0, steps, []);
    if |units| > 1 {
      assert AllMedia(units[0].blocks) <==> forall b <- units[0].blocks :: b.kind.Code? || b.kind.Image? by {
        MediaAre(units[0].blocks);
      }
    }
    assert BoundIs(blocks, units, Bound(blocks, steps));
  }

  lemma MediaAre(blocks: seq<Item>)
    ensures AllMedia(blocks) <==> forall b <- blocks :: b.kind.Code? || b.kind.Image?
  {
    if forall b <- blocks :: b.kind.Code? || b.kind.Image? {
      assert forall k :: 0 <= k < |blocks| ==> blocks[k] in blocks;
    }
  }

  lemma NothingYet(blocks: seq<Item>, steps: seq<Region>)
    ensures UnitsAre(blocks, steps, [], 0, [])
  {
  }
}
