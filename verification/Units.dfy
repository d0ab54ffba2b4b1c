/** Grouping a section's blocks into units that must not be separated. */
module Units {
  import opened Options
  import opened Strings
  import opened Sections

  datatype Region = Region(from: nat, upto: nat)

  /** A unit's value: its blocks and whether it is a step. */
  datatype Group = Group(blocks: seq<Item>, isStep: bool)

  predicate Media(b: Item) { b.kind.Code? || b.kind.Image? }

  predicate Inside(r: Region, b: Item) { r.from <= b.start < r.upto }

  function RegionOf(steps: seq<Region>, b: Item): (region: Option<Region>)
    ensures region.Some? ==> Inside(region.value, b)
  {
    if steps == [] then None else if Inside(steps[0], b) then Some(steps[0]) else RegionOf(steps[1..], b)
  }

  function RegionEnd(blocks: seq<Item>, i: nat, r: Region): (j: nat)
    requires i <= |blocks|
    ensures i <= j <= |blocks|
    decreases |blocks| - i
  {
    if i < |blocks| && Inside(r, blocks[i]) then RegionEnd(blocks, i + 1, r) else i
  }

  function MediaEnd(blocks: seq<Item>, i: nat): (j: nat)
    requires i <= |blocks|
    ensures i <= j <= |blocks|
    decreases |blocks| - i
  {
    if i < |blocks| && Media(blocks[i]) then MediaEnd(blocks, i + 1) else i
  }

  /** `group` joins the last unit when it opens with code or an image, else is a unit of its own. */
  function Attached(units: seq<Group>, group: seq<Item>): seq<Group>
    requires group != []
  {
    if Media(group[0]) && units != [] then
      var last := units[|units| - 1];
      units[..|units| - 1] + [last.(blocks := last.blocks + group)]
    else units + [Group(group, false)]
  }

  function GroupFrom(blocks: seq<Item>, i: nat, steps: seq<Region>, units: seq<Group>): seq<Group>
    requires i <= |blocks|
    decreases |blocks| - i
  {
    if i == |blocks| then units
    else if blocks[i].kind.Rule? then GroupFrom(blocks, i + 1, steps, units)
    else
      match RegionOf(steps, blocks[i])
      case Some(region) =>
        var j := RegionEnd(blocks, i + 1, region);
        GroupFrom(blocks, j, steps, units + [Group(blocks[i..j], true)])
      case None =>
        var j := MediaEnd(blocks, i + 1);
        GroupFrom(blocks, j, steps, Attached(units, blocks[i..j]))
  }

  predicate AllMedia(blocks: seq<Item>) { forall k :: 0 <= k < |blocks| ==> Media(blocks[k]) }

  /** Code that opens the section joins the explanation that follows. */
  function Forwarded(units: seq<Group>): seq<Group> {
    if |units| > 1 && AllMedia(units[0].blocks) then
      [Group(units[0].blocks + units[1].blocks, units[0].isStep || units[1].isStep)] + units[2..]
    else units
  }

  function Bound(blocks: seq<Item>, steps: seq<Region>): seq<Group> {
    Forwarded(GroupFrom(blocks, 0, steps, []))
  }

  // --- The loop, over unit objects changed in place ---------------------------------------------

  type Count = string -> nat

  function Texts(blocks: seq<Item>): seq<string> {
    if blocks == [] then [] else [blocks[0].text] + Texts(blocks[1..])
  }

  function TokensOf(blocks: seq<Item>, count: Count): nat { count(Join(Texts(blocks), "\n\n")) }

  class Unit {
    var blocks: seq<Item>
    var tokens: nat
    var isStep: bool

    constructor (blocks: seq<Item>, tokens: nat, isStep: bool)
      ensures this.blocks == blocks && this.tokens == tokens && this.isStep == isStep
    {
      this.blocks, this.tokens, this.isStep := blocks, tokens, isStep;
    }

    function Value(): Group
      reads this
    {
      Group(blocks, isStep)
    }

    predicate Counted(count: Count)
      reads this
    {
      tokens == TokensOf(blocks, count)
    }
  }

  function Values(units: seq<Unit>): (values: seq<Group>)
    reads units
    ensures |values| == |units| && forall k :: 0 <= k < |units| ==> values[k] == units[k].Value()
  {
    if units == [] then [] else Values(units[..|units| - 1]) + [units[|units| - 1].Value()]
  }

  ghost predicate Apart(units: seq<Unit>) {
    forall j, k :: 0 <= j < k < |units| ==> units[j] != units[k]
  }

  ghost predicate AllCounted(units: seq<Unit>, count: Count)
    reads units
  {
    forall k :: 0 <= k < |units| ==> units[k].Counted(count)
  }

  /** units[-1].blocks.extend(group), and the count brought up to date. */
  method Extend(units: seq<Unit>, group: seq<Item>, count: Count)
    requires units != [] && Apart(units) && AllCounted(units, count)
    requires group != [] && Media(group[0])
    modifies units[|units| - 1]
    ensures Values(units) == Attached(old(Values(units)), group) && AllCounted(units, count)
  {
    var last := units[|units| - 1];
    last.blocks := last.blocks + group;
    last.tokens := TokensOf(last.blocks, count);
  }

  method Add(units: seq<Unit>, group: seq<Item>, isStep: bool, count: Count) returns (out: seq<Unit>)
    requires Apart(units) && AllCounted(units, count)
    ensures forall u :: u in out ==> u in units || fresh(u)
    ensures Apart(out) && AllCounted(out, count)
    ensures Values(out) == old(Values(units)) + [Group(group, isStep)]
  {
    var unit := new Unit(group, TokensOf(group, count), isStep);
    out := units + [unit];
    assert out[..|out| - 1] == units;
  }

  method ScanRegion(blocks: seq<Item>, start: nat, region: Region) returns (index: nat)
    requires start <= |blocks|
    ensures index == RegionEnd(blocks, start, region)
  {
    index := start;
    while index < |blocks| && Inside(region, blocks[index])
      invariant start <= index <= |blocks| && RegionEnd(blocks, index, region) == RegionEnd(blocks, start, region)
    {
      index := index + 1;
    }
  }

  method ScanMedia(blocks: seq<Item>, start: nat) returns (index: nat)
    requires start <= |blocks|
    ensures index == MediaEnd(blocks, start)
  {
    index := start;
    while index < |blocks| && Media(blocks[index])
      invariant start <= index <= |blocks| && MediaEnd(blocks, index) == MediaEnd(blocks, start)
    {
      index := index + 1;
    }
  }

  method BindUnits(blocks: seq<Item>, steps: seq<Region>, count: Count) returns (units: seq<Unit>)
    ensures (forall u :: u in units ==> fresh(u)) && Apart(units) && AllCounted(units, count)
    ensures Values(units) == Bound(blocks, steps)
  {
    units := GroupUnits(blocks, steps, count);
    units := Forward(units, count);
  }

  lemma GroupStep(blocks: seq<Item>, i: nat, steps: seq<Region>, units: seq<Group>)
    requires i < |blocks|
    ensures GroupFrom(blocks, i, steps, units) ==
      if blocks[i].kind.Rule? then GroupFrom(blocks, i + 1, steps, units)
      else if RegionOf(steps, blocks[i]).Some? then
        var j := RegionEnd(blocks, i + 1, RegionOf(steps, blocks[i]).value);
        GroupFrom(blocks, j, steps, units + [Group(blocks[i..j], true)])
      else
        var j := MediaEnd(blocks, i + 1);
        GroupFrom(blocks, j, steps, Attached(units, blocks[i..j]))
  {
  }

  lemma GroupDone(blocks: seq<Item>, steps: seq<Region>, units: seq<Group>)
    ensures GroupFrom(blocks, |blocks|, steps, units) == units
  {
  }

  /** One turn of the loop: a rule skipped, a step's blocks taken, or a block with the code and
      images that follow it. */
  method NextUnit(blocks: seq<Item>, index: nat, steps: seq<Region>, units: seq<Unit>, count: Count)
    returns (next: nat, out: seq<Unit>)
    requires index < |blocks| && Apart(units) && AllCounted(units, count)
    modifies set u | u in units
    ensures index < next <= |blocks|
    ensures forall u :: u in out ==> u in units || fresh(u)
    ensures Apart(out) && AllCounted(out, count)
    ensures GroupFrom(blocks, next, steps, Values(out)) == GroupFrom(blocks, index, steps, old(Values(units)))
  {
    hide TokensOf, RegionOf, RegionEnd, MediaEnd, Attached, Apart, AllCounted, Values, GroupFrom;
    GroupStep(blocks, index, steps, Values(units));
    var region := RegionOf(steps, blocks[index]);
    if blocks[index].kind.Rule? {
      next, out := index + 1, units;
    } else if region.Some? {
      next := ScanRegion(blocks, index + 1, region.value);
      out := Add(units, blocks[index..next], true, count);
    } else {
      next := ScanMedia(blocks, index + 1);
      out := Attach(units, blocks[index..next], count);
    }
  }

  method GroupUnits(blocks: seq<Item>, steps: seq<Region>, count: Count) returns (units: seq<Unit>)
    ensures (forall u :: u in units ==> fresh(u)) && Apart(units) && AllCounted(units, count)
    ensures Values(units) == GroupFrom(blocks, 0, steps, [])
  {
    units := [];
    assert Values(units) == [] && Apart(units) && AllCounted(units, count);
    hide Values, Apart, AllCounted, GroupFrom;
    var index := 0;
    while index < |blocks|
      invariant index <= |blocks|
      invariant (forall u :: u in units ==> fresh(u)) && Apart(units) && AllCounted(units, count)
      invariant GroupFrom(blocks, index, steps, Values(units)) == GroupFrom(blocks, 0, steps, [])
      decreases |blocks| - index
    {
      index, units := NextUnit(blocks, index, steps, units, count);
    }
    GroupDone(blocks, steps, Values(units));
  }

  method Attach(units: seq<Unit>, group: seq<Item>, count: Count) returns (out: seq<Unit>)
    requires Apart(units) && AllCounted(units, count) && group != []
    modifies set u | u in units
    ensures forall u :: u in out ==> u in units || fresh(u)
    ensures Apart(out) && AllCounted(out, count)
    ensures Values(out) == Attached(old(Values(units)), group)
  {
    if Media(group[0]) && units != [] {
      Extend(units, group, count);
      out := units;
    } else {
      out := Add(units, group, false, count);
    }
  }

  method Forward(units: seq<Unit>, count: Count) returns (out: seq<Unit>)
    requires Apart(units) && AllCounted(units, count)
    modifies set u | u in units
    ensures forall u :: u in out ==> u in units
    ensures Apart(out) && AllCounted(out, count)
    ensures Values(out) == Forwarded(old(Values(units)))
  {
    hide TokensOf, AllMedia;
    out := units;
    if |units| > 1 && AllMedia(units[0].blocks) {
      units[1].blocks := units[0].blocks + units[1].blocks;
      units[1].tokens := TokensOf(units[1].blocks, count);
      units[1].isStep := units[0].isStep || units[1].isStep;
      out := units[1..];
    }
  }

  // --- What binding keeps -------------------------------------------------------------------------

  function Flat(units: seq<Group>): seq<Item> {
    if units == [] then [] else units[0].blocks + Flat(units[1..])
  }

  lemma {:induction false} FlatAppend(a: seq<Group>, b: seq<Group>)
    ensures Flat(a + b) == Flat(a) + Flat(b)
  {
    if a == [] {
      assert a + b == b;
    } else {
      assert (a + b)[0] == a[0] && (a + b)[1..] == a[1..] + b;
      FlatAppend(a[1..], b);
    }
  }

  lemma FlatOne(g: Group)
    ensures Flat([g]) == g.blocks
  {
    assert Flat([]) == [];
  }

  /** `kept` is `all` in order, with nothing gone but rules. */
  predicate DropsRules(all: seq<Item>, kept: seq<Item>) {
    if all == [] then kept == []
    else
      || (kept != [] && kept[0] == all[0] && DropsRules(all[1..], kept[1..]))
      || (all[0].kind.Rule? && DropsRules(all[1..], kept))
  }

  lemma AttachedFlat(units: seq<Group>, group: seq<Item>)
    requires group != []
    ensures Flat(Attached(units, group)) == Flat(units) + group
  {
    if Media(group[0]) && units != [] {
      var rest, last := units[..|units| - 1], units[|units| - 1];
      assert units == rest + [last];
      FlatAppend(rest, [last]);
      FlatAppend(rest, [last.(blocks := last.blocks + group)]);
      FlatOne(last);
      FlatOne(last.(blocks := last.blocks + group));
    } else {
      FlatAppend(units, [Group(group, false)]);
      FlatOne(Group(group, false));
    }
  }

  lemma {:induction false} GroupsKeep(blocks: seq<Item>, i: nat, steps: seq<Region>, units: seq<Group>)
    requires i <= |blocks|
    ensures DropsRules(Flat(units) + blocks[i..], Flat(GroupFrom(blocks, i, steps, units)))
    decreases |blocks| - i
  {
    hide DropsRules, RegionOf, RegionEnd, MediaEnd, Attached, Flat;
    var flat := Flat(units);
    if i == |blocks| {
      NothingDropped(flat);
      assert flat + [] == flat;
    } else {
      GroupStep(blocks, i, steps, units);
      if blocks[i].kind.Rule? {
        GroupsKeep(blocks, i + 1, steps, units);
        RuleDropped(flat, blocks[i], blocks[i + 1..], Flat(GroupFrom(blocks, i + 1, steps, units)));
        assert flat + [blocks[i]] + blocks[i + 1..] == flat + blocks[i..];
      } else {
        var region := RegionOf(steps, blocks[i]);
        var j := if region.Some? then RegionEnd(blocks, i + 1, region.value) else MediaEnd(blocks, i + 1);
        var more := if region.Some? then units + [Group(blocks[i..j], true)] else Attached(units, blocks[i..j]);
        assert Flat(more) == flat + blocks[i..j] by {
          FlatAppend(units, [Group(blocks[i..j], true)]);
          FlatOne(Group(blocks[i..j], true));
          AttachedFlat(units, blocks[i..j]);
        }
        assert flat + blocks[i..j] + blocks[j..] == flat + blocks[i..];
        GroupsKeep(blocks, j, steps, more);
      }
    }
  }

  lemma {:induction false} NothingDropped(all: seq<Item>)
    ensures DropsRules(all, all)
  {
    if all != [] { NothingDropped(all[1..]); }
  }

  lemma {:induction false} RuleDropped(flat: seq<Item>, rule: Item, rest: seq<Item>, kept: seq<Item>)
    requires rule.kind.Rule? && DropsRules(flat + rest, kept)
    ensures DropsRules(flat + [rule] + rest, kept)
    decreases |flat|, |kept|
  {
    var all := flat + [rule] + rest;
    if flat == [] {
      assert flat + rest == rest && all[1..] == rest;
    } else {
      assert all[1..] == flat[1..] + [rule] + rest && (flat + rest)[1..] == flat[1..] + rest;
      if kept != [] && kept[0] == flat[0] && DropsRules(flat[1..] + rest, kept[1..]) {
        RuleDropped(flat[1..], rule, rest, kept[1..]);
      } else {
        RuleDropped(flat[1..], rule, rest, kept);
      }
    }
  }

  lemma ForwardedFlat(units: seq<Group>)
    ensures Flat(Forwarded(units)) == Flat(units)
  {
    if |units| > 1 && AllMedia(units[0].blocks) {
      var first := Group(units[0].blocks + units[1].blocks, units[0].isStep || units[1].isStep);
      var out := [first] + units[2..];
      assert units[1..][1..] == units[2..] && out[0] == first && out[1..] == units[2..];
      assert Flat(units) == units[0].blocks + (units[1].blocks + Flat(units[2..]));
    }
  }

  /** Binding keeps every block, in order, except rules between units. */
  lemma BindingKeeps(blocks: seq<Item>, steps: seq<Region>)
    ensures DropsRules(blocks, Flat(Bound(blocks, steps)))
  {
    hide DropsRules, GroupFrom, Flat;
    GroupsKeep(blocks, 0, steps, []);
    ForwardedFlat(GroupFrom(blocks, 0, steps, []));
    assert Flat([]) == [] by { FlatAppend([], []); NoUnits(); }
    assert [] + blocks[0..] == blocks;
  }

  lemma NoUnits()
    ensures Flat([]) == []
  {
  }

  predicate HasProse(g: Group) { exists k :: 0 <= k < |g.blocks| && !Media(g.blocks[k]) }

  /** Only the first unit, or one that is a step, opens with code or an image. */
  predicate Explained(units: seq<Group>) {
    forall k :: 0 < k < |units| ==> units[k].isStep || (units[k].blocks != [] && !Media(units[k].blocks[0]))
  }

  lemma {:induction false} GroupsExplained(blocks: seq<Item>, i: nat, steps: seq<Region>, units: seq<Group>)
    requires i <= |blocks| && Explained(units)
    ensures Explained(GroupFrom(blocks, i, steps, units))
    decreases |blocks| - i
  {
    hide RegionOf, RegionEnd, MediaEnd, GroupFrom;
    if i == |blocks| {
      GroupDone(blocks, steps, units);
    } else {
      GroupStep(blocks, i, steps, units);
      if blocks[i].kind.Rule? {
        GroupsExplained(blocks, i + 1, steps, units);
      } else if RegionOf(steps, blocks[i]).Some? {
        var j := RegionEnd(blocks, i + 1, RegionOf(steps, blocks[i]).value);
        GroupsExplained(blocks, j, steps, units + [Group(blocks[i..j], true)]);
      } else {
        var j := MediaEnd(blocks, i + 1);
        AttachedExplained(units, blocks[i..j]);
        GroupsExplained(blocks, j, steps, Attached(units, blocks[i..j]));
      }
    }
  }

  lemma AttachedExplained(units: seq<Group>, group: seq<Item>)
    requires group != [] && Explained(units)
    ensures Explained(Attached(units, group))
  {
    var out := Attached(units, group);
    forall k | 0 < k < |out| ensures out[k].isStep || (out[k].blocks != [] && !Media(out[k].blocks[0])) {
      if k < |units| { assert units[k].isStep || (units[k].blocks != [] && !Media(units[k].blocks[0])); }
    }
  }

  /** Outside steps, code and images are never left without prose, unless the section has none. */
  lemma CodeIsNeverStranded(blocks: seq<Item>, steps: seq<Region>, k: nat)
    requires k < |Bound(blocks, steps)| && |Bound(blocks, steps)| > 1
    ensures Bound(blocks, steps)[k].isStep || HasProse(Bound(blocks, steps)[k])
  {
    hide GroupFrom, Media;
    var units := GroupFrom(blocks, 0, steps, []);
    GroupsExplained(blocks, 0, steps, []);
    var out := Forwarded(units);
    if |units| > 1 && AllMedia(units[0].blocks) {
      if k == 0 {
        assert units[1].isStep || (units[1].blocks != [] && !Media(units[1].blocks[0]));
        if !out[0].isStep { assert out[0].blocks[|units[0].blocks|] == units[1].blocks[0]; }
      } else {
        assert out[k] == units[k + 1];
        assert units[k + 1].isStep || !Media(units[k + 1].blocks[0]);
      }
    } else if k > 0 {
      assert units[k].isStep || !Media(units[k].blocks[0]);
    }
  }
}
