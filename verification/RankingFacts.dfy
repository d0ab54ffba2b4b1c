/** What ranking guarantees: one order whatever the enumeration, dominance, gentle boosts, and greedy
    deduplication. */
module RankingFacts {
  import opened Options
  import opened Ranking

  // --- Fusion -----------------------------------------------------------------------------------------

  lemma {:induction false} FusedAre(cfg: Config, dense: seq<Hit>, lexical: seq<Hit>, similarities: map<Id, real>,
                                    order: seq<Id>)
    requires Valid(cfg)
    ensures var fused := FuseAll(cfg, dense, lexical, similarities, order);
      && (fused.None? <==> exists k :: 0 <= k < |order| && Fuse(cfg, dense, lexical, similarities, order[k]).None?)
      && (fused.Some? ==>
            && |fused.value| == |order|
            && forall k :: 0 <= k < |order|
                ==> Fuse(cfg, dense, lexical, similarities, order[k]) == Some(fused.value[k]))
    decreases |order|
  {
    hide Fuse;
    if order != [] {
      FusedAre(cfg, dense, lexical, similarities, order[1..]);
      assert forall k :: 0 < k < |order| ==> order[k] == order[1..][k - 1];
      var first := Fuse(cfg, dense, lexical, similarities, order[0]);
      var rest := FuseAll(cfg, dense, lexical, similarities, order[1..]);
      if rest.None? {
        var k :| 0 <= k < |order[1..]| && Fuse(cfg, dense, lexical, similarities, order[1..][k]).None?;
        assert order[k + 1] == order[1..][k];
      }
    }
  }

  lemma FuseId(cfg: Config, dense: seq<Hit>, lexical: seq<Hit>, similarities: map<Id, real>, id: Id)
    requires Valid(cfg)
    ensures var f := Fuse(cfg, dense, lexical, similarities, id);
      f.Some? ==> f.value.id == id && f.value.multiplier == 1.0
  {
  }

  lemma FusedDistinct(cfg: Config, dense: seq<Hit>, lexical: seq<Hit>, similarities: map<Id, real>, order: seq<Id>)
    requires Valid(cfg) && Enumerates(order, dense, lexical)
    requires FuseAll(cfg, dense, lexical, similarities, order).Some?
    ensures DistinctIds(FuseAll(cfg, dense, lexical, similarities, order).value)
  {
    hide Fuse;
    FusedAre(cfg, dense, lexical, similarities, order);
    var fused := FuseAll(cfg, dense, lexical, similarities, order).value;
    forall j, k | 0 <= j < k < |fused| ensures fused[j].id != fused[k].id {
      FuseId(cfg, dense, lexical, similarities, order[j]);
      FuseId(cfg, dense, lexical, similarities, order[k]);
      assert order[j] != order[k];
    }
  }

  lemma Remove<T>(s: seq<T>, k: nat)
    requires k < |s|
    ensures multiset(s) == multiset(s[..k] + s[k + 1..]) + multiset{s[k]}
  {
    assert s == s[..k] + [s[k]] + s[k + 1..];
  }

  lemma RemoveSame<T>(a: seq<T>, b: seq<T>, k: nat)
    requires a != [] && k < |b| && a[0] == b[k] && multiset(a) == multiset(b)
    ensures multiset(a[1..]) == multiset(b[..k] + b[k + 1..])
  {
    var rest := b[..k] + b[k + 1..];
    Remove(b, k);
    Headed(a[0], a[1..]);
    assert a == [a[0]] + a[1..];
    assert multiset(rest) == multiset(b) - multiset{a[0]} && multiset(a[1..]) == multiset(a) - multiset{a[0]};
  }

  /** The candidates of two enumerations are the same collection. */
  lemma {:induction false} SameCandidates(cfg: Config, dense: seq<Hit>, lexical: seq<Hit>, similarities: map<Id, real>,
                                          a: seq<Id>, b: seq<Id>)
    requires Valid(cfg) && multiset(a) == multiset(b)
    requires FuseAll(cfg, dense, lexical, similarities, a).Some? && FuseAll(cfg, dense, lexical, similarities, b).Some?
    ensures multiset(FuseAll(cfg, dense, lexical, similarities, a).value)
        == multiset(FuseAll(cfg, dense, lexical, similarities, b).value)
    decreases |a|
  {
    hide Fuse, FuseAll;
    if a == [] {
      assert |multiset(b)| == |multiset(a)| == 0;
      assert b == [];
    } else {
      assert a[0] in multiset(b);
      var k :| 0 <= k < |b| && b[k] == a[0];
      var rest := b[..k] + b[k + 1..];
      RemoveSame(a, b, k);
      FuseFirst(cfg, dense, lexical, similarities, a);
      Without(cfg, dense, lexical, similarities, b, k);
      SameCandidates(cfg, dense, lexical, similarities, a[1..], rest);
    }
  }

  lemma {:induction false} Without(cfg: Config, dense: seq<Hit>, lexical: seq<Hit>, similarities: map<Id, real>,
                                   order: seq<Id>, k: nat)
    requires Valid(cfg) && k < |order| && FuseAll(cfg, dense, lexical, similarities, order).Some?
    ensures Fuse(cfg, dense, lexical, similarities, order[k]).Some?
    ensures var rest := FuseAll(cfg, dense, lexical, similarities, order[..k] + order[k + 1..]);
      && rest.Some?
      && multiset(FuseAll(cfg, dense, lexical, similarities, order).value)
         == multiset(rest.value) + multiset{Fuse(cfg, dense, lexical, similarities, order[k]).value}
    decreases k
  {
    hide Fuse, FuseAll;
    FuseFirst(cfg, dense, lexical, similarities, order);
    if k == 0 {
      assert order[..0] + order[0 + 1..] == order[1..];
    } else {
      var rest, all := order[1..][..k - 1] + order[1..][k..], order[..k] + order[k + 1..];
      Without(cfg, dense, lexical, similarities, order[1..], k - 1);
      assert all[0] == order[0] && all[1..] == rest && order[1..][k - 1 + 1..] == order[1..][k..];
      FuseFirst(cfg, dense, lexical, similarities, all);
    }
  }

  /** A list of candidates is fused when its first is and the others are. */
  lemma FuseFirst(cfg: Config, dense: seq<Hit>, lexical: seq<Hit>, similarities: map<Id, real>, order: seq<Id>)
    requires Valid(cfg) && order != []
    ensures var all, first, rest := FuseAll(cfg, dense, lexical, similarities, order),
        Fuse(cfg, dense, lexical, similarities, order[0]), FuseAll(cfg, dense, lexical, similarities, order[1..]);
      && (all.Some? <==> first.Some? && rest.Some?)
      && (all.Some? ==> multiset(all.value) == multiset{first.value} + multiset(rest.value))
  {
    hide Fuse;
    var first, rest := Fuse(cfg, dense, lexical, similarities, order[0]),
        FuseAll(cfg, dense, lexical, similarities, order[1..]);
    if first.Some? && rest.Some? { Headed(first.value, rest.value); }
  }

  lemma Headed<T>(first: T, rest: seq<T>)
    ensures multiset([first] + rest) == multiset{first} + multiset(rest)
  {
  }

  lemma EnumerationsAgree(a: seq<Id>, b: seq<Id>, dense: seq<Hit>, lexical: seq<Hit>)
    requires Enumerates(a, dense, lexical) && Enumerates(b, dense, lexical)
    ensures multiset(a) == multiset(b)
  {
    OneEach(a);
    OneEach(b);
    assert forall id :: id in a <==> id in IdSet(a);
    assert forall id :: id in b <==> id in IdSet(b);
    assert forall id :: multiset(a)[id] == multiset(b)[id];
  }

  lemma {:induction false} OneEach(order: seq<Id>)
    requires forall j, k :: 0 <= j < k < |order| ==> order[j] != order[k]
    ensures forall id {:trigger multiset(order)[id]} :: multiset(order)[id] == if id in order then 1 else 0
    decreases |order|
  {
    if order != [] {
      var rest := order[1..];
      Headed(order[0], rest);
      assert order == [order[0]] + rest;
      assert forall j :: 0 <= j < |rest| ==> rest[j] == order[j + 1];
      OneEach(rest);
    }
  }

  /** Fusion gives the same list, or fails alike, whatever order the candidates are enumerated in. */
  lemma FusionIsDeterministic(cfg: Config, dense: seq<Hit>, lexical: seq<Hit>, similarities: map<Id, real>, a: seq<Id>,
                              b: seq<Id>)
    requires Valid(cfg) && Enumerates(a, dense, lexical) && Enumerates(b, dense, lexical)
    ensures Ranked(cfg, dense, lexical, similarities, a) == Ranked(cfg, dense, lexical, similarities, b)
  {
    hide Fuse, Sorted, InOrder, DistinctIds;
    EnumerationsAgree(a, b, dense, lexical);
    FusedAre(cfg, dense, lexical, similarities, a);
    FusedAre(cfg, dense, lexical, similarities, b);
    SameFailures(cfg, dense, lexical, similarities, a, b);
    var x, y := FuseAll(cfg, dense, lexical, similarities, a), FuseAll(cfg, dense, lexical, similarities, b);
    if x.Some? {
      SameCandidates(cfg, dense, lexical, similarities, a, b);
      FusedDistinct(cfg, dense, lexical, similarities, a);
      FusedDistinct(cfg, dense, lexical, similarities, b);
      SortedOk(x.value);
      SortedOk(y.value);
      OneOrder(Sorted(x.value), Sorted(y.value));
    }
  }

  lemma SameFailures(cfg: Config, dense: seq<Hit>, lexical: seq<Hit>, similarities: map<Id, real>, a: seq<Id>,
                     b: seq<Id>)
    requires Valid(cfg) && multiset(a) == multiset(b)
    ensures (exists k :: 0 <= k < |a| && Fuse(cfg, dense, lexical, similarities, a[k]).None?)
       <==> (exists k :: 0 <= k < |b| && Fuse(cfg, dense, lexical, similarities, b[k]).None?)
  {
    hide Fuse;
    if k :| 0 <= k < |a| && Fuse(cfg, dense, lexical, similarities, a[k]).None? {
      assert a[k] in multiset(b);
      var j :| 0 <= j < |b| && b[j] == a[k];
    }
    if k :| 0 <= k < |b| && Fuse(cfg, dense, lexical, similarities, b[k]).None? {
      assert b[k] in multiset(a);
      var j :| 0 <= j < |a| && a[j] == b[k];
    }
  }

  /** Each candidate of either list is ranked, exactly once. */
  lemma EachCandidateOnce(cfg: Config, dense: seq<Hit>, lexical: seq<Hit>, similarities: map<Id, real>, order: seq<Id>)
    requires Valid(cfg) && Enumerates(order, dense, lexical) && Ranked(cfg, dense, lexical, similarities, order).Some?
    ensures var fs := Ranked(cfg, dense, lexical, similarities, order).value;
      InOrder(fs) && DistinctIds(fs) && (set f | f in fs :: f.id) == Ids(dense) + Ids(lexical)
  {
    hide Fuse, Sorted, InOrder;
    var fused := FuseAll(cfg, dense, lexical, similarities, order).value;
    FusedAre(cfg, dense, lexical, similarities, order);
    FusedDistinct(cfg, dense, lexical, similarities, order);
    SortedOk(fused);
    var fs := Sorted(fused);
    SameIds(fs, fused);
    forall k | 0 <= k < |order| ensures fused[k].id == order[k] { FuseId(cfg, dense, lexical, similarities, order[k]); }
    assert (set f | f in fused :: f.id) == IdSet(order) by {
      forall id | id in IdSet(order) ensures id in (set f | f in fused :: f.id) {
        var k :| 0 <= k < |order| && order[k] == id;
        assert fused[k] in fused;
      }
    }
  }

  lemma SameIds(a: seq<Fused>, b: seq<Fused>)
    requires multiset(a) == multiset(b) && DistinctIds(b)
    ensures (set f | f in a :: f.id) == (set f | f in b :: f.id) && DistinctIds(a)
  {
    assert forall f :: f in a <==> f in multiset(a);
    assert forall f :: f in b <==> f in multiset(b);
    forall j, k | 0 <= j < k < |a| ensures a[j].id != a[k].id {
      TwoOf(a, j, k);
      AtMostOne(b, a[j]);
      assert a[j] in b && a[k] in b;
      var x :| 0 <= x < |b| && b[x] == a[j];
      var y :| 0 <= y < |b| && b[y] == a[k];
    }
  }

  lemma TwoOf(a: seq<Fused>, j: nat, k: nat)
    requires j < k < |a|
    ensures a[j] == a[k] ==> multiset(a)[a[j]] >= 2
  {
    Remove(a, k);
    assert (a[..k] + a[k + 1..])[j] == a[j];
    assert a[j] in multiset(a[..k] + a[k + 1..]);
  }

  lemma {:induction false} AtMostOne(b: seq<Fused>, f: Fused)
    requires DistinctIds(b)
    ensures multiset(b)[f] <= 1
    decreases |b|
  {
    if b != [] {
      var rest := b[1..];
      Headed(b[0], rest);
      assert b == [b[0]] + rest;
      assert forall k :: 0 <= k < |rest| ==> rest[k] == b[k + 1];
      AtMostOne(rest, f);
      assert b[0] !in rest;
    }
  }

  // --- Dominance --------------------------------------------------------------------------------------

  /** No worse a rank; being absent is worst. */
  predicate NoWorse(a: Option<nat>, b: Option<nat>) { b.None? || (a.Some? && a.value <= b.value) }

  lemma ShareMonotone(weight: real, k: nat, a: Option<nat>, b: Option<nat>)
    requires k > 0 && weight >= 0.0 && NoWorse(a, b)
    ensures Share(weight, k, a) >= Share(weight, k, b) >= 0.0
    ensures weight > 0.0 && a != b ==> Share(weight, k, a) > Share(weight, k, b)
  {
    if a.Some? { Quotient(weight, (k + a.value) as real); }
    if b.Some? {
      Quotient(weight, (k + b.value) as real);
      Quotients(weight, (k + a.value) as real, (k + b.value) as real);
    }
  }

  lemma Quotient(w: real, x: real)
    requires w >= 0.0 && x > 0.0
    ensures w / x >= 0.0 && (w > 0.0 ==> w / x > 0.0)
  {
  }

  lemma Quotients(w: real, x: real, y: real)
    requires w >= 0.0 && 0.0 < x <= y
    ensures w / x >= w / y && (w > 0.0 && x < y ==> w / x > w / y)
  {
    assert w / x - w / y == w * (y - x) / (x * y);
  }

  /** A chunk ranked no worse than another in both lists, and better in one that has weight, comes
      first. */
  lemma DominantComesFirst(cfg: Config, dense: seq<Hit>, lexical: seq<Hit>, similarities: map<Id, real>, a: Id, b: Id)
    requires Valid(cfg)
    requires Fuse(cfg, dense, lexical, similarities, a).Some? && Fuse(cfg, dense, lexical, similarities, b).Some?
    requires NoWorse(RankOf(dense, a), RankOf(dense, b)) && NoWorse(RankOf(lexical, a), RankOf(lexical, b))
    requires || (cfg.denseWeight > 0.0 && RankOf(dense, a) != RankOf(dense, b))
             || (cfg.lexicalWeight > 0.0 && RankOf(lexical, a) != RankOf(lexical, b))
    ensures Before(Fuse(cfg, dense, lexical, similarities, a).value, Fuse(cfg, dense, lexical, similarities, b).value)
  {
    hide RankOf, Share;
    ShareMonotone(cfg.denseWeight, cfg.rrfK, RankOf(dense, a), RankOf(dense, b));
    ShareMonotone(cfg.lexicalWeight, cfg.rrfK, RankOf(lexical, a), RankOf(lexical, b));
  }

  // --- Boosts -----------------------------------------------------------------------------------------

  lemma Products(s: real, t: real, m: real, n: real)
    requires s >= t >= 0.0 && m >= n >= 1.0
    ensures s * m >= t * n && (s > t ==> s * m > t * n)
  {
    assert s * m - t * n == s * (m - n) + (s - t) * n;
    assert s * (m - n) >= 0.0;
    assert (s - t) * n >= 0.0 && (s > t ==> (s - t) * n > 0.0);
  }

  lemma Multipliers(weight: real, m: nat, n: nat)
    requires weight >= 0.0 && m >= n
    ensures 1.0 + weight * m as real >= 1.0 + weight * n as real >= 1.0
  {
    assert weight * m as real - weight * n as real == weight * (m - n) as real;
  }

  /** Boosting never moves a chunk below one that it preceded and that has no more matches. */
  lemma BoostKeepsOrder(cfg: Config, a: Fused, b: Fused, m: nat, n: nat)
    requires Valid(cfg) && a.multiplier == b.multiplier == 1.0 && b.score >= 0.0
    requires Before(a, b) && m >= n
    ensures Before(Boost(cfg, a, m), Boost(cfg, b, n))
  {
    Multipliers(cfg.boostWeight, m, n);
    Products(a.score, b.score, 1.0 + cfg.boostWeight * m as real, 1.0 + cfg.boostWeight * n as real);
  }

  lemma {:induction false} BoostsAre(cfg: Config, fs: seq<Fused>, hints: seq<(string, string)>,
                                     normalize: string -> string)
    ensures var out := BoostAll(cfg, fs, hints, normalize);
      |out| == |fs| && forall k :: 0 <= k < |fs| ==>
        out[k] == Boost(cfg, fs[k], Matches(hints, fs[k].metadata, normalize))
    decreases |fs|
  {
    hide Matches, Boost;
    if fs != [] {
      BoostsAre(cfg, fs[1..], hints, normalize);
      assert forall k :: 0 < k < |fs| ==> fs[k] == fs[1..][k - 1];
    }
  }

  /** Boosting keeps every candidate, and the places it gives are by boosted score, then id. */
  lemma BoostedKeepsAll(cfg: Config, fs: seq<Fused>, hints: seq<(string, string)>, normalize: string -> string)
    requires DistinctIds(fs)
    ensures var out := Boosted(cfg, fs, hints, normalize);
      InOrder(out) && multiset(out) == multiset(BoostAll(cfg, fs, hints, normalize))
  {
    hide Matches, Sorted, InOrder;
    BoostsAre(cfg, fs, hints, normalize);
    var boosted := BoostAll(cfg, fs, hints, normalize);
    assert forall k :: 0 <= k < |fs| ==> boosted[k].id == fs[k].id;
    SortedOk(boosted);
  }

  lemma Placed(fs: seq<Fused>, a: Fused, b: Fused) returns (p: nat, q: nat)
    requires InOrder(fs) && a in fs && b in fs && Before(a, b)
    ensures p < q < |fs| && fs[p] == a && fs[q] == b
  {
    p :| 0 <= p < |fs| && fs[p] == a;
    q :| 0 <= q < |fs| && fs[q] == b;
    assert q < p ==> Before(fs[q], fs[p]);
  }

  /** So in the boosted list the chunk still stands before the other. */
  lemma BoostedOrder(cfg: Config, fs: seq<Fused>, hints: seq<(string, string)>, normalize: string -> string, j: nat,
                     k: nat)
    returns (p: nat, q: nat)
    requires Valid(cfg) && DistinctIds(fs) && InOrder(fs) && j < k < |fs|
    requires fs[j].multiplier == fs[k].multiplier == 1.0 && fs[k].score >= 0.0
    requires Matches(hints, fs[j].metadata, normalize) >= Matches(hints, fs[k].metadata, normalize)
    ensures var out := Boosted(cfg, fs, hints, normalize);
      p < q < |out| && out[p].id == fs[j].id && out[q].id == fs[k].id
  {
    hide Matches, Sorted, Before;
    BoostedKeepsAll(cfg, fs, hints, normalize);
    BoostsAre(cfg, fs, hints, normalize);
    var out, boosted := Boosted(cfg, fs, hints, normalize), BoostAll(cfg, fs, hints, normalize);
    var a, b := boosted[j], boosted[k];
    assert Before(fs[j], fs[k]);
    BoostKeepsOrder(cfg, fs[j], fs[k], Matches(hints, fs[j].metadata, normalize),
        Matches(hints, fs[k].metadata, normalize));
    assert a in multiset(out) && b in multiset(out);
    p, q := Placed(out, a, b);
  }

  // --- Deduplication ----------------------------------------------------------------------------------

  /** `kept` are the positions of the results that repeat none kept before them. */
  ghost predicate Greedy(lens: Lens, fs: seq<Fused>, kept: seq<nat>) {
    && (forall j, k :: 0 <= j < k < |kept| ==> kept[j] < kept[k])
    && (forall k :: 0 <= k < |kept| ==> kept[k] < |fs|)
    && (forall i :: 0 <= i < |fs| ==> (i in kept <==> !Repeats(lens, fs, kept, i)))
  }

  /** The `i`th result repeats one kept before it. */
  ghost predicate Repeats(lens: Lens, fs: seq<Fused>, kept: seq<nat>, i: nat)
    requires i < |fs|
  {
    exists k :: 0 <= k < |kept| && kept[k] < i && Duplicates(lens, fs[i], fs[kept[k]])
  }

  function Picked(fs: seq<Fused>, kept: seq<nat>): (picked: seq<Fused>)
    requires forall k :: 0 <= k < |kept| ==> kept[k] < |fs|
    ensures |picked| == |kept| && forall k :: 0 <= k < |kept| ==> picked[k] == fs[kept[k]]
  {
    seq(|kept|, k requires 0 <= k < |kept| => fs[kept[k]])
  }

  lemma {:induction false} DedupedSnoc(lens: Lens, fs: seq<Fused>, f: Fused, accepted: seq<Fused>)
    ensures var before := Deduped(lens, fs, accepted);
      Deduped(lens, fs + [f], accepted) == if DuplicateOf(lens, f, before) then before else before + [f]
    decreases |fs|
  {
    hide DuplicateOf;
    if fs == [] {
      assert fs + [f] == [f] && [f][1..] == [];
    } else {
      assert (fs + [f])[1..] == fs[1..] + [f];
      DedupedSnoc(lens, fs[1..], f, if DuplicateOf(lens, fs[0], accepted) then accepted else accepted + [fs[0]]);
    }
  }

  /** One result more, kept if it repeats none kept so far. */
  lemma GreedySnoc(lens: Lens, fs: seq<Fused>, f: Fused, kept: seq<nat>) returns (more: seq<nat>)
    requires Greedy(lens, fs, kept)
    ensures more == kept || more == kept + [|fs|]
    ensures Greedy(lens, fs + [f], more)
    ensures Picked(fs + [f], more)
        == if DuplicateOf(lens, f, Picked(fs, kept)) then Picked(fs, kept) else Picked(fs, kept) + [f]
  {
    GreedyBounds(lens, fs, kept);
    hide Duplicates, DuplicateOf, Repeats, Greedy, Picked;
    PickedSnoc(fs, f, kept);
    if DuplicateOf(lens, f, Picked(fs, kept)) {
      more := kept;
    } else {
      more := kept + [|fs|];
    }
    GreedyMembers(lens, fs, f, kept, more);
    GreedyIs(lens, fs + [f], more);
  }

  lemma GreedyMembers(lens: Lens, fs: seq<Fused>, f: Fused, kept: seq<nat>, more: seq<nat>)
    requires Greedy(lens, fs, kept) && forall k :: 0 <= k < |kept| ==> kept[k] < |fs|
    requires more == if DuplicateOf(lens, f, Picked(fs, kept)) then kept else kept + [|fs|]
    ensures forall i :: 0 <= i < |fs + [f]| ==> (i in more <==> !Repeats(lens, fs + [f], more, i))
  {
    hide Duplicates, DuplicateOf, Repeats, Greedy, Picked;
    var all := fs + [f];
    forall i | 0 <= i < |all| ensures i in more <==> !Repeats(lens, all, more, i) {
      if i < |fs| {
        GreedyAt(lens, fs, kept, i);
        SameRepeats(lens, fs, f, kept, more, i);
      } else {
        LastRepeats(lens, fs, f, kept, more);
      }
    }
  }

  lemma GreedyAt(lens: Lens, fs: seq<Fused>, kept: seq<nat>, i: nat)
    requires Greedy(lens, fs, kept) && i < |fs|
    ensures i in kept <==> !Repeats(lens, fs, kept, i)
  {
    hide Duplicates, Repeats;
  }

  lemma GreedyIs(lens: Lens, fs: seq<Fused>, kept: seq<nat>)
    requires forall j, k :: 0 <= j < k < |kept| ==> kept[j] < kept[k]
    requires forall k :: 0 <= k < |kept| ==> kept[k] < |fs|
    requires forall i :: 0 <= i < |fs| ==> (i in kept <==> !Repeats(lens, fs, kept, i))
    ensures Greedy(lens, fs, kept)
  {
    hide Duplicates, Repeats;
  }

  lemma PickedSnoc(fs: seq<Fused>, f: Fused, kept: seq<nat>)
    requires forall k :: 0 <= k < |kept| ==> kept[k] < |fs|
    ensures Picked(fs + [f], kept) == Picked(fs, kept)
    ensures Picked(fs + [f], kept + [|fs|]) == Picked(fs, kept) + [f]
  {
  }

  lemma SameRepeats(lens: Lens, fs: seq<Fused>, f: Fused, kept: seq<nat>, more: seq<nat>, i: nat)
    requires i < |fs| && (more == kept || more == kept + [|fs|]) && forall k :: 0 <= k < |kept| ==> kept[k] < |fs|
    ensures Repeats(lens, fs + [f], more, i) <==> Repeats(lens, fs, kept, i)
  {
    hide Duplicates;
    if k :| 0 <= k < |kept| && kept[k] < i && Duplicates(lens, fs[i], fs[kept[k]]) {
      assert more[k] == kept[k] && (fs + [f])[more[k]] == fs[kept[k]];
    }
    if k :| 0 <= k < |more| && more[k] < i && Duplicates(lens, (fs + [f])[i], (fs + [f])[more[k]]) {
      assert k < |kept| && more[k] == kept[k];
    }
  }

  lemma LastRepeats(lens: Lens, fs: seq<Fused>, f: Fused, kept: seq<nat>, more: seq<nat>)
    requires (more == kept || more == kept + [|fs|]) && forall k :: 0 <= k < |kept| ==> kept[k] < |fs|
    ensures Repeats(lens, fs + [f], more, |fs|) <==> DuplicateOf(lens, f, Picked(fs, kept))
  {
    hide Duplicates;
    var all := fs + [f];
    if k :| 0 <= k < |kept| && Duplicates(lens, f, Picked(fs, kept)[k]) {
      assert more[k] == kept[k] && all[more[k]] == Picked(fs, kept)[k] && all[|fs|] == f;
    }
    if k :| 0 <= k < |more| && more[k] < |fs| && Duplicates(lens, all[|fs|], all[more[k]]) {
      assert k < |kept| && Picked(fs, kept)[k] == all[more[k]];
    }
  }

  /** Deduplication keeps exactly the results that repeat none kept before them. */
  lemma {:induction false} DedupIsGreedy(lens: Lens, fs: seq<Fused>) returns (kept: seq<nat>)
    ensures Greedy(lens, fs, kept) && Deduped(lens, fs, []) == Picked(fs, kept)
    decreases |fs|
  {
    hide Greedy, DuplicateOf;
    if fs == [] {
      kept := [];
      NothingKept(lens);
    } else {
      var last := |fs| - 1;
      assert fs == fs[..last] + [fs[last]];
      kept := DedupIsGreedy(lens, fs[..last]);
      assert forall k :: 0 <= k < |kept| ==> kept[k] < last by { GreedyBounds(lens, fs[..last], kept); }
      DedupedSnoc(lens, fs[..last], fs[last], []);
      kept := GreedySnoc(lens, fs[..last], fs[last], kept);
    }
  }

  lemma GreedyBounds(lens: Lens, fs: seq<Fused>, kept: seq<nat>)
    requires Greedy(lens, fs, kept)
    ensures forall j, k :: 0 <= j < k < |kept| ==> kept[j] < kept[k]
    ensures forall k :: 0 <= k < |kept| ==> kept[k] < |fs|
  {
  }

  lemma NothingKept(lens: Lens)
    ensures Greedy(lens, [], []) && Deduped(lens, [], []) == Picked([], [])
  {
  }

  /** There is only one such choice. */
  lemma GreedyIsUnique(lens: Lens, fs: seq<Fused>, a: seq<nat>, b: seq<nat>)
    requires Greedy(lens, fs, a) && Greedy(lens, fs, b)
    ensures a == b
  {
    hide Duplicates;
    forall i: nat | i < |fs| ensures i in a <==> i in b { SameChoice(lens, fs, a, b, i); }
    SameMembers(a, b);
  }

  lemma {:induction false} SameChoice(lens: Lens, fs: seq<Fused>, a: seq<nat>, b: seq<nat>, i: nat)
    requires Greedy(lens, fs, a) && Greedy(lens, fs, b) && i < |fs|
    ensures i in a <==> i in b
    decreases i
  {
    hide Duplicates;
    forall j | 0 <= j < i ensures j in a <==> j in b { SameChoice(lens, fs, a, b, j); }
    if k :| 0 <= k < |a| && a[k] < i && Duplicates(lens, fs[i], fs[a[k]]) {
      var j := a[k];
      assert j in a && j in b;
      var l :| 0 <= l < |b| && b[l] == j;
    }
    if k :| 0 <= k < |b| && b[k] < i && Duplicates(lens, fs[i], fs[b[k]]) {
      var j := b[k];
      assert j in b && j in a;
      var l :| 0 <= l < |a| && a[l] == j;
    }
  }

  lemma FirstIn(a: seq<nat>)
    ensures a != [] ==> a[0] in a
  {
  }

  lemma {:induction false} SameMembers(a: seq<nat>, b: seq<nat>)
    requires forall j, k :: 0 <= j < k < |a| ==> a[j] < a[k]
    requires forall j, k :: 0 <= j < k < |b| ==> b[j] < b[k]
    requires forall i: nat :: i in a <==> i in b
    ensures a == b
    decreases |a|
  {
    if a == [] {
      FirstIn(b);
    } else {
      assert a[|a| - 1] in b;
      var x, y := |a| - 1, |b| - 1;
      assert b[y] in a;
      assert a[x] == b[y];
      forall i: nat ensures i in a[..x] <==> i in b[..y] {
        assert i in a[..x] <==> i in a && i != a[x];
        assert i in b[..y] <==> i in b && i != b[y];
      }
      SameMembers(a[..x], b[..y]);
    }
  }

  predicate Subsequence(part: seq<Fused>, whole: seq<Fused>) {
    if part == [] then true
    else whole != [] && ((part[0] == whole[0] && Subsequence(part[1..], whole[1..])) || Subsequence(part, whole[1..]))
  }

  lemma {:induction false} DedupedExtends(lens: Lens, rest: seq<Fused>,
                                          accepted: seq<Fused>) returns (added: seq<Fused>)
    ensures Deduped(lens, rest, accepted) == accepted + added && Subsequence(added, rest)
    decreases |rest|
  {
    hide DuplicateOf;
    if rest == [] {
      added := [];
      assert accepted + [] == accepted;
    } else if DuplicateOf(lens, rest[0], accepted) {
      added := DedupedExtends(lens, rest[1..], accepted);
    } else {
      var tail := DedupedExtends(lens, rest[1..], accepted + [rest[0]]);
      added := [rest[0]] + tail;
      assert accepted + [rest[0]] + tail == accepted + added && added[1..] == tail;
    }
  }

  /** It keeps the ranking's order. */
  lemma DedupKeepsOrder(lens: Lens, fs: seq<Fused>)
    ensures Subsequence(Deduped(lens, fs, []), fs)
  {
    var added := DedupedExtends(lens, fs, []);
    assert [] + added == added;
  }

  lemma {:induction false} NothingRepeats(lens: Lens, accepted: seq<Fused>, rest: seq<Fused>)
    requires forall k :: 0 <= k < |rest| ==> !DuplicateOf(lens, rest[k], accepted + rest[..k])
    ensures Deduped(lens, rest, accepted) == accepted + rest
    decreases |rest|
  {
    hide DuplicateOf;
    if rest == [] {
      assert accepted + rest == accepted;
    } else {
      assert accepted + rest[..0] == accepted;
      assert !DuplicateOf(lens, rest[0], accepted + rest[..0]);
      var next := accepted + [rest[0]];
      forall k | 0 <= k < |rest[1..]| ensures !DuplicateOf(lens, rest[1..][k], next + rest[1..][..k]) {
        assert next + rest[1..][..k] == accepted + rest[..k + 1] && rest[1..][k] == rest[k + 1];
      }
      NothingRepeats(lens, next, rest[1..]);
      assert next + rest[1..] == accepted + rest;
    }
  }

  /** Deduplicating twice is deduplicating once. */
  lemma DedupIdempotent(lens: Lens, fs: seq<Fused>)
    ensures Deduped(lens, Deduped(lens, fs, []), []) == Deduped(lens, fs, [])
  {
    hide Duplicates;
    var once := Deduped(lens, fs, []);
    var kept := DedupIsGreedy(lens, fs);
    forall k | 0 <= k < |once| ensures !DuplicateOf(lens, once[k], [] + once[..k]) {
      assert [] + once[..k] == once[..k];
      assert kept[k] in kept && !Repeats(lens, fs, kept, kept[k]);
      forall j | 0 <= j < k ensures !Duplicates(lens, once[k], once[..k][j]) {
        assert kept[j] < kept[k] && once[..k][j] == fs[kept[j]];
      }
    }
    NothingRepeats(lens, [], once);
    assert [] + once == once;
  }

  // --- What hybrid retrieval returns ----------------------------------------------------------------------

  /** A chunk of the ranking that stands before another is returned before it, or repeats one that
      is. */
  lemma EarlierReturned(lens: Lens, fs: seq<Fused>, p: nat, q: nat, limit: nat, n: nat) returns (m: nat)
    requires p < q < |fs| && DistinctIds(fs)
    requires n < |Returned(lens, fs, limit)| && Returned(lens, fs, limit)[n].id == fs[q].id
    ensures m < n
    ensures Returned(lens, fs, limit)[m].id == fs[p].id || Duplicates(lens, fs[p], Returned(lens, fs, limit)[m])
  {
    hide Duplicates;
    var kept := DedupIsGreedy(lens, fs);
    var out := Deduped(lens, fs, []);
    assert out[n] == fs[kept[n]] && kept[n] == q by { assert fs[kept[n]].id == fs[q].id; }
    if p in kept {
      m :| 0 <= m < |kept| && kept[m] == p;
    } else {
      assert Repeats(lens, fs, kept, p);
      m :| 0 <= m < |kept| && kept[m] < p && Duplicates(lens, fs[p], fs[kept[m]]);
    }
    PositionsInOrder(lens, fs, kept, m, n);
  }

  lemma KeptInOrder(lens: Lens, fs: seq<Fused>, kept: seq<nat>, j: nat, k: nat)
    requires Greedy(lens, fs, kept) && j < k < |kept|
    ensures kept[j] < kept[k]
  {
  }

  lemma PositionsInOrder(lens: Lens, fs: seq<Fused>, kept: seq<nat>, m: nat, n: nat)
    requires Greedy(lens, fs, kept) && m < |kept| && n < |kept| && kept[m] < kept[n]
    ensures m < n
  {
    hide Greedy;
    if n < m { KeptInOrder(lens, fs, kept, n, m); }
  }

  lemma FusedIs(cfg: Config, dense: seq<Hit>, lexical: seq<Hit>, similarities: map<Id, real>, order: seq<Id>, id: Id)
    returns (p: nat)
    requires Valid(cfg) && Enumerates(order, dense, lexical) && Ranked(cfg, dense, lexical, similarities, order).Some?
    requires id in Ids(dense) + Ids(lexical)
    ensures var fs := Ranked(cfg, dense, lexical, similarities, order).value;
      p < |fs| && Fuse(cfg, dense, lexical, similarities, id) == Some(fs[p]) && fs[p].id == id
  {
    hide Fuse, Sorted, InOrder, DistinctIds;
    assert id in IdSet(order);
    var k :| 0 <= k < |order| && order[k] == id;
    var fused := FuseAll(cfg, dense, lexical, similarities, order).value;
    FusedAre(cfg, dense, lexical, similarities, order);
    FusedDistinct(cfg, dense, lexical, similarities, order);
    SortedOk(fused);
    FuseId(cfg, dense, lexical, similarities, id);
    assert fused[k] in multiset(Sorted(fused));
    p :| 0 <= p < |Sorted(fused)| && Sorted(fused)[p] == fused[k];
  }

  /** Fused scores are not negative and not yet boosted. */
  lemma FusedPlain(cfg: Config, dense: seq<Hit>, lexical: seq<Hit>, similarities: map<Id, real>, id: Id)
    requires Valid(cfg)
    ensures var f := Fuse(cfg, dense, lexical, similarities, id);
      f.Some? ==> f.value.score >= 0.0 && f.value.multiplier == 1.0
  {
    hide RankOf, Share;
    ShareMonotone(cfg.denseWeight, cfg.rrfK, RankOf(dense, id), None);
    ShareMonotone(cfg.lexicalWeight, cfg.rrfK, RankOf(lexical, id), None);
  }

  /** A chunk dominates another: no worse in either list, better in one that has weight, and no fewer
      matches with the profile. */
  predicate Dominates(cfg: Config, dense: seq<Hit>, lexical: seq<Hit>, similarities: map<Id, real>,
                      hints: seq<(string, string)>, normalize: string -> string, a: Id, b: Id)
    requires Valid(cfg)
  {
    var x, y := Fuse(cfg, dense, lexical, similarities, a), Fuse(cfg, dense, lexical, similarities, b);
    && NoWorse(RankOf(dense, a), RankOf(dense, b)) && NoWorse(RankOf(lexical, a), RankOf(lexical, b))
    && ((cfg.denseWeight > 0.0 && RankOf(dense, a) != RankOf(dense, b))
        || (cfg.lexicalWeight > 0.0 && RankOf(lexical, a) != RankOf(lexical, b)))
    && x.Some? && y.Some? && Matches(hints, x.value.metadata, normalize) >= Matches(hints, y.value.metadata, normalize)
  }

  /** The ranking that is deduplicated, and where the two chunks stand in it. */
  lemma DominantPlaced(cfg: Config, dense: seq<Hit>, lexical: seq<Hit>, similarities: map<Id, real>, order: seq<Id>,
                       hints: seq<(string, string)>, normalize: string -> string, a: Id, b: Id)
    returns (p: nat, q: nat)
    requires Valid(cfg) && Enumerates(order, dense, lexical) && Ranked(cfg, dense, lexical, similarities, order).Some?
    requires {a, b} <= Ids(dense) + Ids(lexical)
    requires Dominates(cfg, dense, lexical, similarities, hints, normalize, a, b)
    ensures var fs := Profiled(cfg, Ranked(cfg, dense, lexical, similarities, order).value, hints, normalize);
      DistinctIds(fs) && p < q < |fs| && fs[p].id == a && fs[q].id == b
  {
    var fs := Ranked(cfg, dense, lexical, similarities, order).value;
    DominantComesFirst(cfg, dense, lexical, similarities, a, b);
    p := FusedIs(cfg, dense, lexical, similarities, order, a);
    q := FusedIs(cfg, dense, lexical, similarities, order, b);
    FusedPlain(cfg, dense, lexical, similarities, a);
    FusedPlain(cfg, dense, lexical, similarities, b);
    EachCandidateOnce(cfg, dense, lexical, similarities, order);
    hide Fuse, FuseAll, Sorted, Matches, Ranked, BoostAll;
    assert p < q by { RanksApart(fs, p, q); }
    if hints != [] {
      BoostedDistinct(cfg, fs, hints, normalize);
      p, q := BoostedOrder(cfg, fs, hints, normalize, p, q);
    }
  }

  lemma RanksApart(fs: seq<Fused>, p: nat, q: nat)
    requires InOrder(fs) && p < |fs| && q < |fs| && Before(fs[p], fs[q])
    ensures p < q
  {
    if q < p { OrderedAt(fs, q, p); }
  }

  lemma OrderedAt(fs: seq<Fused>, j: nat, k: nat)
    requires InOrder(fs) && j < k < |fs|
    ensures Before(fs[j], fs[k])
  {
  }

  lemma BoostedDistinct(cfg: Config, fs: seq<Fused>, hints: seq<(string, string)>, normalize: string -> string)
    requires DistinctIds(fs)
    ensures DistinctIds(Boosted(cfg, fs, hints, normalize))
  {
    hide Matches, Sorted, InOrder;
    BoostsAre(cfg, fs, hints, normalize);
    var boosted := BoostAll(cfg, fs, hints, normalize);
    assert forall k :: 0 <= k < |fs| ==> boosted[k].id == fs[k].id;
    SortedOk(boosted);
    SameIds(Boosted(cfg, fs, hints, normalize), boosted);
  }

  /** In what a search returns, a chunk is preceded by each chunk that dominates it, or by one that the
      dominating chunk repeats. */
  lemma DominantReturnedFirst(cfg: Config, dense: seq<Hit>, lexical: seq<Hit>, similarities: map<Id, real>,
                              order: seq<Id>, 
                              hints: seq<(string, string)>, normalize: string -> string, lens: Lens, limit: nat,
                              a: Id, b: Id, n: nat)
    returns (m: nat, dominant: Fused)
    requires Valid(cfg) && Enumerates(order, dense, lexical) && Ranked(cfg, dense, lexical, similarities, order).Some?
    requires {a, b} <= Ids(dense) + Ids(lexical)
    requires Dominates(cfg, dense, lexical, similarities, hints, normalize, a, b)
    requires var out := Hybrid(cfg, dense, lexical, similarities, order, hints, normalize, lens, limit).value;
      n < |out| && out[n].id == b
    ensures var fs := Profiled(cfg, Ranked(cfg, dense, lexical, similarities, order).value, hints, normalize);
      dominant in fs && dominant.id == a
    ensures var out := Hybrid(cfg, dense, lexical, similarities, order, hints, normalize, lens, limit).value;
      m < n && (out[m].id == a || Duplicates(lens, dominant, out[m]))
  {
    var fs := Profiled(cfg, Ranked(cfg, dense, lexical, similarities, order).value, hints, normalize);
    var p, q := DominantPlaced(cfg, dense, lexical, similarities, order, hints, normalize, a, b);
    hide Ranked, Profiled, Dominates, Duplicates, Deduped;
    dominant := fs[p];
    m := EarlierReturned(lens, fs, p, q, limit, n);
  }

  /** And it returns the same whatever order the candidates are enumerated in. */
  lemma HybridIsDeterministic(cfg: Config, dense: seq<Hit>, lexical: seq<Hit>, similarities: map<Id, real>, a: seq<Id>,
                              b: seq<Id>, 
                              hints: seq<(string, string)>, normalize: string -> string, lens: Lens, limit: nat)
    requires Valid(cfg) && Enumerates(a, dense, lexical) && Enumerates(b, dense, lexical)
    ensures Hybrid(cfg, dense, lexical, similarities, a, hints, normalize, lens, limit)
         == Hybrid(cfg, dense, lexical, similarities, b, hints, normalize, lens, limit)
  {
    hide Ranked, Profiled, Returned;
    FusionIsDeterministic(cfg, dense, lexical, similarities, a, b);
  }
}
