/** When the merge pass leaves no chunk below the floor. */
module MergingFacts {
  import opened Options
  import opened Strings
  import opened Sections
  import opened Units
  import opened Packing
  import opened PackingFacts
  import opened Merging

  /** What the pass is said to leave: one chunk, or none below the floor. */
  predicate FloorMet(cs: seq<Candidate>, r: Ruler) {
    |cs| <= 1 || forall k :: 0 <= k < |cs| ==> !Small(cs[k], r)
  }

  /** Text inserted anywhere never lowers the count. */
  ghost predicate Monotone(count: Count) {
    forall p: string, a: string, b: string, c: string :: count(p + b) <= count(p + a + b + c)
  }

  // --- Part of a body -------------------------------------------------------------------------------

  lemma StripSpans(s: string) returns (from: nat, end: nat)
    ensures from <= end <= |s| && Strip(s) == s[from..end]
    ensures forall k :: 0 <= k < |s| && !IsSpace(s[k]) ==> from <= k < end
    ensures Strip(s) != "" ==> from < end && !IsSpace(s[from]) && !IsSpace(s[end - 1])
  {
    hide IsSpace;
    from := RunEnd(s, 0, IsSpace);
    end := SolidEnd(s, from, |s|);
    RunAll(s, 0, IsSpace);
  }

  lemma StripInside(p: string, m: string, q: string) returns (x: string, y: string)
    ensures Strip(p + m + q) == x + Strip(m) + y
  {
    var all := p + m + q;
    var from, end := StripSpans(all);
    var inner, outer := StripSpans(m);
    if Strip(m) == "" {
      x, y := Strip(all), "";
    } else {
      hide Strip, IsSpace;
      assert all[|p| + inner] == m[inner] && all[|p| + outer - 1] == m[outer - 1];
      x, y := all[from..|p| + inner], all[|p| + outer..end];
      SliceInside(p, m, q, from, inner, outer, end);
    }
  }

  lemma SliceInside(p: string, m: string, q: string, from: nat, inner: nat, outer: nat, end: nat)
    requires inner <= outer <= |m| && from <= |p| + inner && |p| + outer <= end <= |p + m + q|
    ensures var all := p + m + q;
      all[from..end] == all[from..|p| + inner] + m[inner..outer] + all[|p| + outer..end]
  {
    var all := p + m + q;
    assert all[|p| + inner..|p| + outer] == m[inner..outer];
    assert all[from..end] == all[from..|p| + inner] + all[|p| + inner..|p| + outer] + all[|p| + outer..end];
  }

  lemma {:induction false} TextsAppend(a: seq<Item>, b: seq<Item>)
    ensures Texts(a + b) == Texts(a) + Texts(b)
  {
    if a == [] {
      assert a + b == b;
    } else {
      assert (a + b)[1..] == a[1..] + b;
      TextsAppend(a[1..], b);
    }
  }

  lemma JoinInside(a: seq<string>, m: seq<string>, b: seq<string>, sep: string) returns (p: string, q: string)
    requires m != []
    ensures Join(a + m + b, sep) == p + Join(m, sep) + q
  {
    p, q := "", "";
    if a == [] {
      assert a + m == m;
    } else {
      JoinAppend(a, m, sep);
      p := Join(a, sep) + sep;
    }
    if b == [] {
      assert a + m + b == a + m;
    } else {
      JoinAppend(a + m, b, sep);
      q := sep + Join(b, sep);
    }
  }

  /** The text of some blocks is inside the text of any run of blocks around them. */
  lemma BodyInside(a: seq<Item>, m: seq<Item>, b: seq<Item>) returns (x: string, y: string)
    ensures BodyOf(a + m + b) == x + BodyOf(m) + y
  {
    assert Strip("") == "";
    hide Strip;
    if m == [] {
      x, y := BodyOf(a + m + b), "";
    } else {
      TextsAppend(a + m, b);
      TextsAppend(a, m);
      var p, q := JoinInside(Texts(a), Texts(m), Texts(b), "\n\n");
      x, y := StripInside(p, Join(Texts(m), "\n\n"), q);
    }
  }

  lemma MoreCounts(r: Ruler, section: Section, a: seq<Item>, m: seq<Item>, b: seq<Item>)
    requires Monotone(r.count)
    ensures r.count(ChunkText(r.docTitle, section, BodyOf(m)))
         <= r.count(ChunkText(r.docTitle, section, BodyOf(a + m + b)))
    ensures r.count(BodyOf(m)) <= r.count(ChunkText(r.docTitle, section, BodyOf(a + m + b)))
  {
    hide Monotone, BodyOf;
    var x, y := BodyInside(a, m, b);
    var line := Join(Present(r.docTitle) + Present(section.title), " \U{203A} ");
    assert "" + BodyOf(m) == BodyOf(m) && "" + BodyOf(a + m + b) == BodyOf(a + m + b);
    MoreText(r.count, if line != "" then line + "\n\n" else "", x, BodyOf(m), y);
  }

  lemma MoreText(count: Count, p: string, x: string, body: string, y: string)
    requires Monotone(count)
    ensures count(p + body) <= count(p + (x + body + y)) && count(body) <= count(p + (x + body + y))
  {
    assert "" + body == body;
    assert p + x + body + y == p + (x + body + y) && "" + (p + x) + body + y == p + (x + body + y);
    assert count(p + body) <= count(p + x + body + y);
    assert count("" + body) <= count("" + (p + x) + body + y);
  }

  // --- A document that fits -----------------------------------------------------------------------------

  /** All the text, under any of the sections, keeps to the maximum. */
  predicate WholeFits(cs: seq<Candidate>, r: Ruler) {
    forall k :: 0 <= k < |cs| ==> r.count(ChunkText(r.docTitle, cs[k].section, BodyOf(AllBlocks(cs)))) <= r.sizes.max
  }

  lemma WholePairsFit(cs: seq<Candidate>, i: nat, r: Ruler)
    requires Monotone(r.count) && WholeFits(cs, r) && i + 1 < |cs|
    ensures Fits(cs, i, r)
  {
    hide Monotone, BodyOf, ChunkText, AllBlocks, Tokens;
    var section := if Tokens(cs[i], r) >= Tokens(cs[i + 1], r) then cs[i].section else cs[i + 1].section;
    PairAt(cs, i);
    BlocksAround(cs[..i], [cs[i]] + [cs[i + 1]], cs[i + 2..]);
    AllBlocksAppend([cs[i]], [cs[i + 1]]);
    OneCandidate(cs[i]);
    OneCandidate(cs[i + 1]);
    MoreCounts(r, section, AllBlocks(cs[..i]), cs[i].blocks + cs[i + 1].blocks, AllBlocks(cs[i + 2..]));
  }

  lemma WholeStays(cs: seq<Candidate>, i: nat, r: Ruler)
    requires WholeFits(cs, r) && i + 1 < |cs|
    ensures WholeFits(Replaced(cs, i, r), r)
  {
    hide BodyOf, ChunkText, AllBlocks, Tokens;
    ReplacedBlocks(cs, i, r);
    var out := Replaced(cs, i, r);
    forall k | 0 <= k < |out|
      ensures r.count(ChunkText(r.docTitle, out[k].section, BodyOf(AllBlocks(out)))) <= r.sizes.max
    {
      var from :=
        if k < i then k
        else if k > i then k + 1
        else if Tokens(cs[i], r) >= Tokens(cs[i + 1], r) then i
        else i + 1;
      assert out[k].section == cs[from].section;
    }
  }

  /** A document all of whose text fits one chunk is left with one chunk or with none below the
      floor. */
  lemma {:induction false} WholeMeetsFloor(cs: seq<Candidate>, r: Ruler)
    requires Monotone(r.count) && WholeFits(cs, r)
    ensures FloorMet(MergeFrom(cs, r), r)
    decreases |cs|
  {
    hide Monotone, WholeFits, Small, Combined, Replaced;
    match NextPair(cs, r)
    case Some(i) =>
      WholeStays(cs, i, r);
      WholeMeetsFloor(Replaced(cs, i, r), r);
    case None =>
      if |cs| > 1 && FirstSmall(cs, 0, r).Some? {
        var t := FirstSmall(cs, 0, r).value;
        WholePairsFit(cs, if t > 0 then t - 1 else t, r);
      }
  }

  // --- A chunk that is never absorbed ---------------------------------------------------------------------

  /** The texts of the two together are already too much, whatever heads them. */
  predicate TooMuch(left: Candidate, right: Candidate, r: Ruler) {
    r.count(BodyOf(left.blocks + right.blocks)) > r.sizes.max
  }

  /** A chunk below the floor between neighbours that cannot take it. */
  predicate Walled(cs: seq<Candidate>, t: nat, r: Ruler) {
    && t < |cs| && |cs| > 1 && Small(cs[t], r)
    && (t > 0 ==> TooMuch(cs[t - 1], cs[t], r))
    && (t + 1 < |cs| ==> TooMuch(cs[t], cs[t + 1], r))
  }

  lemma TooMuchNeverFits(left: Candidate, right: Candidate, r: Ruler)
    requires Monotone(r.count) && TooMuch(left, right, r)
    ensures Combined(left, right, r) > r.sizes.max
  {
    hide Monotone, BodyOf, ChunkText, Tokens;
    var section := if Tokens(left, r) >= Tokens(right, r) then left.section else right.section;
    var both := left.blocks + right.blocks;
    assert [] + both + [] == both;
    MoreCounts(r, section, [], both, []);
  }

  /** More text on either side leaves it too much. */
  lemma TooMuchGrows(a: seq<Item>, both: seq<Item>, b: seq<Item>, r: Ruler)
    requires Monotone(r.count) && r.count(BodyOf(both)) > r.sizes.max
    ensures r.count(BodyOf(a + both + b)) > r.sizes.max
  {
    hide BodyOf;
    var x, y := BodyInside(a, both, b);
    assert "" + BodyOf(both) == BodyOf(both) && "" + x + BodyOf(both) + y == x + BodyOf(both) + y;
    assert r.count("" + BodyOf(both)) <= r.count("" + x + BodyOf(both) + y);
  }

  /** Where a walled chunk stands after a merge elsewhere. */
  lemma WalledStays(cs: seq<Candidate>, t: nat, i: nat, r: Ruler) returns (t': nat)
    requires Monotone(r.count) && Walled(cs, t, r) && Fits(cs, i, r)
    ensures Walled(Replaced(cs, i, r), t', r)
  {
    hide Monotone, BodyOf, Small, Tokens, Combined;
    var out := Replaced(cs, i, r);
    if i == t { TooMuchNeverFits(cs[t], cs[t + 1], r); }
    if i + 1 == t { TooMuchNeverFits(cs[t - 1], cs[t], r); }
    t' := if i < t then t - 1 else t;
    assert out[t'] == cs[t];
    if i + 2 == t {
      TooMuchGrows(cs[i].blocks, cs[t - 1].blocks + cs[t].blocks, [], r);
      assert out[t' - 1].blocks + out[t'].blocks == cs[i].blocks + (cs[t - 1].blocks + cs[t].blocks) + [];
    }
    if i == t + 1 {
      TooMuchGrows([], cs[t].blocks + cs[t + 1].blocks, cs[i + 1].blocks, r);
      assert out[t'].blocks + out[t' + 1].blocks == [] + (cs[t].blocks + cs[t + 1].blocks) + cs[i + 1].blocks;
    }
    assert t' > 0 && i + 2 != t ==> out[t' - 1] == cs[t - 1];
    assert t' + 1 < |out| && i != t + 1 ==> out[t' + 1] == cs[t + 1];
  }

  /** One such chunk anywhere, and the floor is not met. */
  lemma {:induction false} WalledMissesFloor(cs: seq<Candidate>, t: nat, r: Ruler)
    requires Monotone(r.count) && Walled(cs, t, r)
    ensures !FloorMet(MergeFrom(cs, r), r)
    decreases |cs|
  {
    hide Monotone, TooMuch, Small, Combined, Replaced;
    match NextPair(cs, r)
    case None =>
    case Some(i) =>
      var t' := WalledStays(cs, t, i, r);
      WalledMissesFloor(Replaced(cs, i, r), t', r);
  }

  // --- One chunk below the floor ------------------------------------------------------------------------

  predicate OnlySmall(cs: seq<Candidate>, t: nat, r: Ruler) {
    t < |cs| && forall k :: 0 <= k < |cs| ==> (Small(cs[k], r) <==> k == t)
  }

  /** Two neighbours of which one reaches the floor reach it together. */
  lemma MergedNotSmall(cs: seq<Candidate>, i: nat, r: Ruler)
    requires Monotone(r.count) && i + 1 < |cs| && (!Small(cs[i], r) || !Small(cs[i + 1], r))
    ensures !Small(Merged(cs[i], cs[i + 1], r), r)
  {
    hide Monotone, BodyOf, ChunkText;
    var a, b := cs[i].blocks, cs[i + 1].blocks;
    assert [] + a + b == a + b && a + b + [] == a + b;
    MoreCounts(r, cs[i].section, [], a, b);
    MoreCounts(r, cs[i + 1].section, a, b, []);
  }

  lemma ReplacedNotSmall(cs: seq<Candidate>, t: nat, i: nat, r: Ruler)
    requires OnlySmall(cs, t, r) && i + 1 < |cs| && (i == t || i + 1 == t) && !Small(Merged(cs[i], cs[i + 1], r), r)
    ensures forall k :: 0 <= k < |Replaced(cs, i, r)| ==> !Small(Replaced(cs, i, r)[k], r)
  {
    hide Small, Merged;
    var out := Replaced(cs, i, r);
    forall k | 0 <= k < |out| ensures !Small(out[k], r) {
      if k > i { assert out[k] == cs[k + 1]; }
    }
  }

  lemma NoneSmallStands(cs: seq<Candidate>, r: Ruler)
    requires forall k :: 0 <= k < |cs| ==> !Small(cs[k], r)
    ensures MergeFrom(cs, r) == cs
  {
    hide Small, Fits, Replaced;
  }

  /** With one chunk below the floor among several, the floor is met if and only if a neighbour can
      take it. */
  lemma OneSmallIff(cs: seq<Candidate>, t: nat, r: Ruler)
    requires Monotone(r.count) && |cs| > 1 && OnlySmall(cs, t, r)
    ensures FloorMet(MergeFrom(cs, r), r) <==> Fits(cs, t, r) || (t > 0 && Fits(cs, t - 1, r))
  {
    hide Monotone, Small, Combined;
    assert Small(cs[t], r);
    match NextPair(cs, r)
    case None =>
    case Some(i) =>
      MergedNotSmall(cs, i, r);
      ReplacedNotSmall(cs, t, i, r);
      NoneSmallStands(Replaced(cs, i, r), r);
  }

  // --- A stuck pass --------------------------------------------------------------------------------------

  function Plain(text: string): Candidate {
    Candidate([Item(0, 0, text, Paragraph, 0, "")], Section(None, None, 0, [], []), false, false, false)
  }

  /** Counting characters; a floor of two, a maximum of five. */
  function PlainRuler(): Ruler { Ruler(None, Sizes(2, 4, 5, 0), (s: string) => |s|) }

  predicate Solid(text: string) { |text| > 0 && !IsSpace(text[0]) && !IsSpace(text[|text| - 1]) }

  lemma PlainTokens(text: string)
    requires Solid(text)
    ensures Tokens(Plain(text), PlainRuler()) == |text|
  {
    hide Strip, IsSpace;
    var blocks := Plain(text).blocks;
    assert blocks[1..] == [] && Texts(blocks) == [text];
  }

  lemma PlainCombined(a: string, b: string)
    requires Solid(a) && Solid(b)
    ensures Combined(Plain(a), Plain(b), PlainRuler()) == |a| + 2 + |b|
  {
    hide Strip, IsSpace, Tokens;
    var x, y := Plain(a).blocks, Plain(b).blocks;
    TextsAppend(x, y);
    assert x[1..] == [] && y[1..] == [] && Texts(x) == [a] && Texts(y) == [b];
    JoinAppend([a], [b], "\n\n");
    var both := a + "\n\n" + b;
    assert Join(Texts(x + y), "\n\n") == both && both[0] == a[0] && both[|both| - 1] == b[|b| - 1];
    assert Strip(both) == both;
  }

  lemma LengthsGrow()
    ensures Monotone(PlainRuler().count)
  {
  }

  lemma StuckAtFirst(a: Candidate, b: Candidate, c: Candidate, d: Candidate, r: Ruler)
    requires Small(a, r) && Combined(a, b, r) > r.sizes.max
    requires Small(c, r) && Small(d, r) && Combined(c, d, r) <= r.sizes.max
    ensures var cs := [a, b, c, d];
      MergeFrom(cs, r) == cs && !FloorMet(cs, r) && Small(cs[2], r) && Small(cs[3], r) && Fits(cs, 2, r)
  {
    hide Small, Combined, MergeFrom;
    StuckChunkEndsThePass([a, b, c, d], 0, r);
    assert Small([a, b, c, d][0], r);
  }

  /** The first chunk cannot be absorbed; the two at the end are below the floor and fit together, and
      are left apart. */
  lemma StuckChunkLeavesTheRest()
    ensures var cs := [Plain("a"), Plain("bbbb"), Plain("c"), Plain("d")]; var r := PlainRuler();
      && Monotone(r.count) && MergeFrom(cs, r) == cs && !FloorMet(cs, r)
      && Small(cs[2], r) && Small(cs[3], r) && Fits(cs, 2, r)
  {
    PlainTokens("a");
    PlainTokens("c");
    PlainTokens("d");
    PlainCombined("a", "bbbb");
    PlainCombined("c", "d");
    LengthsGrow();
    hide Plain, Combined, Tokens, Monotone, FloorMet, MergeFrom, Fits, IsSpace;
    StuckAtFirst(Plain("a"), Plain("bbbb"), Plain("c"), Plain("d"), PlainRuler());
  }
}
