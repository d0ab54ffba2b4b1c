/** The numbers behind the ranking: fused scores as fractions, who comes before whom, boosts, and what a
    search keeps of it. */
module RankingScores {
  import opened Options
  import opened Ranking
  import opened RankingFacts

  // --- Fusion -----------------------------------------------------------------------------------------

  /** The rank of a chunk in a list, counted from one; the last place counts if it has several. */
  predicate RankIs(hits: seq<Hit>, id: Id, rank: Option<nat>) {
    match rank
    case Some(r) => 1 <= r <= |hits| && hits[r - 1].id == id && forall k :: r <= k < |hits| ==> hits[k].id != id
    case None => forall k :: 0 <= k < |hits| ==> hits[k].id != id
  }

  lemma {:induction false} RankIsRank(hits: seq<Hit>, id: Id)
    ensures RankIs(hits, id, RankOf(hits, id))
    decreases |hits|
  {
    if hits != [] && hits[|hits| - 1].id != id { RankIsRank(hits[..|hits| - 1], id); }
  }

  /** A list's weight over `k` plus the rank, for each list the chunk is in, multiplied out. */
  predicate ScoreIs(cfg: Config, score: real, dense: Option<nat>, lexical: Option<nat>) {
    var k := cfg.rrfK;
    match (dense, lexical)
    case (Some(d), Some(l)) =>
      var x, y := (k + d) as real, (k + l) as real;
      score * x * y == cfg.denseWeight * y + cfg.lexicalWeight * x
    case (Some(d), None) => score * (k + d) as real == cfg.denseWeight
    case (None, Some(l)) => score * (k + l) as real == cfg.lexicalWeight
    case (None, None) => false
  }

  /** The chunk's evidence: what the dense list says of it, or else the lexical list and the similarity
      looked up for it. */
  predicate EvidenceIs(dense: seq<Hit>, lexical: seq<Hit>, similarities: map<Id, real>, f: Fused) {
    if f.denseRank.Some? then
      && 1 <= f.denseRank.value <= |dense|
      && dense[f.denseRank.value - 1] == Hit(f.id, f.similarity, f.text, f.metadata)
    else
      && f.lexicalRank.Some? && 1 <= f.lexicalRank.value <= |lexical|
      && var hit := lexical[f.lexicalRank.value - 1];
         hit.id == f.id && hit.text == f.text && hit.metadata == f.metadata
         && f.id in similarities && f.similarity == similarities[f.id]
  }

  predicate Scored(cfg: Config, dense: seq<Hit>, lexical: seq<Hit>, similarities: map<Id, real>, f: Fused) {
    && RankIs(dense, f.id, f.denseRank) && RankIs(lexical, f.id, f.lexicalRank)
    && ScoreIs(cfg, f.score, f.denseRank, f.lexicalRank)
    && EvidenceIs(dense, lexical, similarities, f) && f.matches == 0 && f.multiplier == 1.0
  }

  lemma Over(w: real, x: real)
    requires x > 0.0
    ensures w / x * x == w
  {
  }

  lemma Both(w: real, v: real, x: real, y: real)
    requires x > 0.0 && y > 0.0
    ensures (w / x + v / y) * x * y == w * y + v * x
  {
    Over(w, x);
    Over(v, y);
    var a, b := w / x, v / y;
    assert (a + b) * x * y == (a * x) * y + (b * y) * x;
  }

  lemma FuseScores(cfg: Config, dense: seq<Hit>, lexical: seq<Hit>, similarities: map<Id, real>, id: Id)
    requires Valid(cfg) && Fuse(cfg, dense, lexical, similarities, id).Some?
    ensures Scored(cfg, dense, lexical, similarities, Fuse(cfg, dense, lexical, similarities, id).value)
  {
    hide RankOf, RankIs;
    RankIsRank(dense, id);
    RankIsRank(lexical, id);
    var d, l := RankOf(dense, id), RankOf(lexical, id);
    if d.Some? && l.Some? {
      Both(cfg.denseWeight, cfg.lexicalWeight, (cfg.rrfK + d.value) as real, (cfg.rrfK + l.value) as real);
    } else if d.Some? {
      Over(cfg.denseWeight, (cfg.rrfK + d.value) as real);
    } else {
      Over(cfg.lexicalWeight, (cfg.rrfK + l.value) as real);
    }
  }

  /** Higher score first; equal scores by id. */
  predicate Descends(a: Fused, b: Fused) { a.score > b.score || (a.score == b.score && a.id < b.id) }

  /** Fusion fails exactly for want of a similarity; otherwise every chunk has the score its ranks give
      it, and the list goes down by score. */
  lemma FusionIs(cfg: Config, dense: seq<Hit>, lexical: seq<Hit>, similarities: map<Id, real>, order: seq<Id>)
    requires Valid(cfg) && Enumerates(order, dense, lexical)
    ensures var fs := Ranked(cfg, dense, lexical, similarities, order);
      && (fs.None? <==> exists id :: id in Ids(lexical) && id !in Ids(dense) && id !in similarities)
      && (fs.Some? ==>
            && (forall f <- fs.value :: Scored(cfg, dense, lexical, similarities, f))
            && forall j, k :: 0 <= j < k < |fs.value| ==> Descends(fs.value[j], fs.value[k]))
  {
    hide Scored, Sorted;
    FusionFails(cfg, dense, lexical, similarities, order);
    var fs := Ranked(cfg, dense, lexical, similarities, order);
    if fs.Some? {
      AllScored(cfg, dense, lexical, similarities, order);
      EachCandidateOnce(cfg, dense, lexical, similarities, order);
      hide Ranked;
      forall j, k | 0 <= j < k < |fs.value| ensures Descends(fs.value[j], fs.value[k]) {
        PlainOrder(cfg, dense, lexical, similarities, fs.value[j], fs.value[k]);
      }
    }
  }

  lemma PlainOrder(cfg: Config, dense: seq<Hit>, lexical: seq<Hit>, similarities: map<Id, real>, a: Fused, b: Fused)
    requires Scored(cfg, dense, lexical, similarities, a) && Scored(cfg, dense, lexical, similarities, b)
    ensures Before(a, b) <==> Descends(a, b)
  {
    hide RankIs, ScoreIs, EvidenceIs;
    assert Key(a) == a.score && Key(b) == b.score;
  }

  lemma AllScored(cfg: Config, dense: seq<Hit>, lexical: seq<Hit>, similarities: map<Id, real>, order: seq<Id>)
    requires Valid(cfg) && Enumerates(order, dense, lexical) && Ranked(cfg, dense, lexical, similarities, order).Some?
    ensures forall f <- Ranked(cfg, dense, lexical, similarities, order).value ::
      Scored(cfg, dense, lexical, similarities, f)
  {
    hide Fuse, Sorted, Scored;
    var fused := FuseAll(cfg, dense, lexical, similarities, order).value;
    FusedAre(cfg, dense, lexical, similarities, order);
    FusedDistinct(cfg, dense, lexical, similarities, order);
    SortedOk(fused);
    forall f | f in Sorted(fused) ensures Scored(cfg, dense, lexical, similarities, f) {
      assert f in multiset(Sorted(fused));
      var k :| 0 <= k < |fused| && fused[k] == f;
      FuseScores(cfg, dense, lexical, similarities, order[k]);
    }
  }

  lemma FusionFails(cfg: Config, dense: seq<Hit>, lexical: seq<Hit>, similarities: map<Id, real>, order: seq<Id>)
    requires Valid(cfg) && Enumerates(order, dense, lexical)
    ensures Ranked(cfg, dense, lexical, similarities, order).None?
       <==> exists id :: id in Ids(lexical) && id !in Ids(dense) && id !in similarities
  {
    hide Sorted, RankOf, Share;
    FusedAre(cfg, dense, lexical, similarities, order);
    if k :| 0 <= k < |order| && Fuse(cfg, dense, lexical, similarities, order[k]).None? {
      assert order[k] in IdSet(order);
      RankIff(dense, order[k]);
    }
    if id :| id in Ids(lexical) && id !in Ids(dense) && id !in similarities {
      assert id in IdSet(order);
      var k :| 0 <= k < |order| && order[k] == id;
      RankIff(dense, id);
      assert Fuse(cfg, dense, lexical, similarities, order[k]).None?;
    }
  }

  lemma RankIff(hits: seq<Hit>, id: Id)
    ensures RankOf(hits, id).Some? <==> id in Ids(hits)
  {
  }

  // --- Who comes before whom ------------------------------------------------------------------------

  /** The place of a score among others when it is known only as a fraction. */
  lemma Compare(s: real, t: real, x: real)
    requires x > 0.0
    ensures (s > t <==> s * x > t * x) && (s == t <==> s * x == t * x)
  {
    assert s * x - t * x == (s - t) * x;
  }

  lemma OneScore(cfg: Config, f: Fused, w: real, r: nat)
    requires (f.denseRank, f.lexicalRank, w) == (Some(r), None, cfg.denseWeight)
          || (f.denseRank, f.lexicalRank, w) == (None, Some(r), cfg.lexicalWeight)
    requires ScoreIs(cfg, f.score, f.denseRank, f.lexicalRank)
    ensures f.score * (cfg.rrfK + r) as real == w
  {
  }

  lemma BothScore(cfg: Config, f: Fused, x: real, y: real)
    requires f.denseRank.Some? && f.lexicalRank.Some? && ScoreIs(cfg, f.score, f.denseRank, f.lexicalRank)
    requires x == (cfg.rrfK + f.denseRank.value) as real && y == (cfg.rrfK + f.lexicalRank.value) as real
    ensures f.score * x * y == cfg.denseWeight * y + cfg.lexicalWeight * x
  {
  }

  /** A chunk in one list only, with rank `r` and the list's weight `w`, and a chunk in both. */
  lemma Crossing(cfg: Config, a: Fused, b: Fused, w: real, r: nat)
    requires Valid(cfg) && b.denseRank.Some? && b.lexicalRank.Some?
    requires (a.denseRank, a.lexicalRank, w) == (Some(r), None, cfg.denseWeight)
          || (a.denseRank, a.lexicalRank, w) == (None, Some(r), cfg.lexicalWeight)
    requires ScoreIs(cfg, a.score, a.denseRank, a.lexicalRank) && ScoreIs(cfg, b.score, b.denseRank, b.lexicalRank)
    ensures var x, y, z := (cfg.rrfK + b.denseRank.value) as real, (cfg.rrfK + b.lexicalRank.value) as real,
                           (cfg.rrfK + r) as real;
      var one, both := w * x * y, (cfg.denseWeight * y + cfg.lexicalWeight * x) * z;
      && (Descends(a, b) <==> one > both || (one == both && a.id < b.id))
      && (Descends(b, a) <==> one < both || (one == both && b.id < a.id))
  {
    var x, y, z := (cfg.rrfK + b.denseRank.value) as real, (cfg.rrfK + b.lexicalRank.value) as real,
        (cfg.rrfK + r) as real;
    OneScore(cfg, a, w, r);
    BothScore(cfg, b, x, y);
    hide ScoreIs;
    Scaled(a.score, b.score, x, y, z, w, cfg.denseWeight * y + cfg.lexicalWeight * x);
  }

  lemma Scaled(s: real, t: real, x: real, y: real, z: real, one: real, both: real)
    requires x > 0.0 && y > 0.0 && z > 0.0 && s * z == one && t * x * y == both
    ensures (s > t <==> one * x * y > both * z) && (s == t <==> one * x * y == both * z)
  {
    var m := x * y;
    assert m > 0.0 && m * z > 0.0;
    Compare(s, t, m * z);
    assert s * (m * z) == (s * z) * x * y;
    assert t * (m * z) == (t * x * y) * z;
  }

  /** With equal weights, a chunk in both lists comes before every chunk in one list only, as long as
      its ranks add up to less than twice `rrf_k` and four. */
  lemma BothBeatOne(cfg: Config, a: Fused, b: Fused)
    requires Valid(cfg) && cfg.denseWeight == cfg.lexicalWeight > 0.0
    requires a.denseRank.None? != a.lexicalRank.None? && b.denseRank.Some? && b.lexicalRank.Some?
    requires (a.denseRank.Some? ==> a.denseRank.value >= 1) && (a.lexicalRank.Some? ==> a.lexicalRank.value >= 1)
    requires ScoreIs(cfg, a.score, a.denseRank, a.lexicalRank) && ScoreIs(cfg, b.score, b.denseRank, b.lexicalRank)
    requires b.denseRank.value + b.lexicalRank.value < 2 * cfg.rrfK + 4
    ensures b.score > a.score
  {
    var r := if a.denseRank.Some? then a.denseRank.value else a.lexicalRank.value;
    var w, k := cfg.denseWeight, cfg.rrfK;
    var x, y, z := (k + b.denseRank.value) as real, (k + b.lexicalRank.value) as real, (k + r) as real;
    OneScore(cfg, a, w, r);
    BothScore(cfg, b, x, y);
    hide ScoreIs;
    SumBeatsOne(a.score, b.score, x, y, z, w);
  }

  lemma SumBeatsOne(s: real, t: real, x: real, y: real, z: real, w: real)
    requires x > 0.0 && y > 0.0 && z > 0.0 && w > 0.0 && x + y < 4.0 * z
    requires s * z == w && t * x * y == w * y + w * x
    ensures t > s
  {
    Scaled(s, t, x, y, z, w, w * y + w * x);
    Mean(x, y, z);
    assert (w * y + w * x) * z - w * x * y == w * ((x + y) * z - x * y);
    Positive(w, (x + y) * z - x * y);
  }

  lemma Positive(w: real, x: real)
    requires w > 0.0 && x > 0.0
    ensures w * x > 0.0
  {
  }

  lemma Mean(x: real, y: real, z: real)
    requires x > 0.0 && y > 0.0 && z > 0.0 && x + y < 4.0 * z
    ensures (x + y) * z > x * y
  {
    var s := x + y;
    assert s * s - 4.0 * (x * y) == (x - y) * (x - y);
    assert (x - y) * (x - y) >= 0.0;
    assert s * (4.0 * z) - s * s == s * (4.0 * z - s);
    Positive(s, 4.0 * z - s);
    assert s * (4.0 * z) == 4.0 * (s * z);
  }

  /** So it is with the settings the code comes with: what both lists find stands before what only one
      finds, in any ranking, up to ranks that add up to 123. */
  lemma FoundTwiceFirst(dense: seq<Hit>, lexical: seq<Hit>, similarities: map<Id, real>, order: seq<Id>, j: nat, k: nat)
    requires Enumerates(order, dense, lexical)
    requires Ranked(DEFAULTS, dense, lexical, similarities, order).Some?
    requires var fs := Ranked(DEFAULTS, dense, lexical, similarities, order).value;
      && j < |fs| && k < |fs|
      && fs[j].denseRank.None? != fs[j].lexicalRank.None?
      && fs[k].denseRank.Some? && fs[k].lexicalRank.Some?
      && fs[k].denseRank.value + fs[k].lexicalRank.value <= 123
    ensures k < j
  {
    hide Ranked;
    var fs := Ranked(DEFAULTS, dense, lexical, similarities, order).value;
    FusionIs(DEFAULTS, dense, lexical, similarities, order);
    assert fs[j] in fs && fs[k] in fs;
    BothBeatOne(DEFAULTS, fs[j], fs[k]);
    assert j < k ==> Descends(fs[j], fs[k]);
  }

  const DEFAULTS := Config(60, 1.0, 1.0, 0.15)

  // --- Boosts ---------------------------------------------------------------------------------------

  /** The chunk's metadata gives what the profile expects. */
  predicate Met(hint: (string, string), metadata: map<string, string>, normalize: string -> string) {
    normalize(if hint.0 in metadata then metadata[hint.0] else "") == hint.1
  }

  function MetHints(hints: seq<(string, string)>, metadata: map<string, string>,
                    normalize: string -> string): set<nat> {
    set k: nat | k < |hints| && Met(hints[k], metadata, normalize)
  }

  lemma {:induction false} MatchesMore(hints: seq<(string, string)>, last: (string, string),
                                       metadata: map<string, string>, normalize: string -> string)
    ensures Matches(hints + [last], metadata, normalize)
         == Matches(hints, metadata, normalize) + if Met(last, metadata, normalize) then 1 else 0
    decreases |hints|
  {
    if hints == [] {
      assert hints + [last] == [last] && [last][1..] == [];
    } else {
      assert (hints + [last])[1..] == hints[1..] + [last];
      MatchesMore(hints[1..], last, metadata, normalize);
    }
  }

  lemma {:induction false} MatchesCount(hints: seq<(string, string)>, metadata: map<string, string>,
                                        normalize: string -> string)
    ensures Matches(hints, metadata, normalize) == |MetHints(hints, metadata, normalize)|
    decreases |hints|
  {
    if hints != [] {
      hide Met;
      var n := |hints| - 1;
      var rest, last := hints[..n], hints[n];
      assert hints == rest + [last];
      MatchesMore(rest, last, metadata, normalize);
      MatchesCount(rest, metadata, normalize);
      var met: set<nat> := if Met(last, metadata, normalize) then {n} else {};
      assert MetHints(hints, metadata, normalize) == MetHints(rest, metadata, normalize) + met;
    }
  }

  /** A boosted chunk is the fused one with the hints it meets counted, each adding the boost weight to
      its multiplier. */
  predicate BoostIs(cfg: Config, f: Fused, g: Fused, hints: seq<(string, string)>, normalize: string -> string) {
    && g == f.(matches := g.matches, multiplier := g.multiplier)
    && g.matches == |MetHints(hints, f.metadata, normalize)|
    && g.multiplier == 1.0 + cfg.boostWeight * g.matches as real
  }

  /** Higher boosted score first; equal ones by id. */
  predicate BoostedDescends(a: Fused, b: Fused) {
    var s, t := a.score * a.multiplier, b.score * b.multiplier;
    s > t || (s == t && a.id < b.id)
  }

  /** Boosting gives each chunk its multiplier and sorts by score times multiplier; none is lost. */
  lemma BoostingIs(cfg: Config, fs: seq<Fused>, hints: seq<(string, string)>, normalize: string -> string)
    requires DistinctIds(fs)
    ensures var out := Boosted(cfg, fs, hints, normalize);
      && (forall j, k :: 0 <= j < k < |out| ==> BoostedDescends(out[j], out[k]))
      && (forall g <- out :: exists f :: f in fs && BoostIs(cfg, f, g, hints, normalize))
      && (forall f <- fs :: exists g :: g in out && BoostIs(cfg, f, g, hints, normalize))
  {
    hide BoostIs, BoostAll, Sorted;
    BoostedKeepsAll(cfg, fs, hints, normalize);
    BoostsAre(cfg, fs, hints, normalize);
    var out, boosted := Boosted(cfg, fs, hints, normalize), BoostAll(cfg, fs, hints, normalize);
    forall k | 0 <= k < |fs| ensures BoostIs(cfg, fs[k], boosted[k], hints, normalize) {
      OneBoost(cfg, fs[k], hints, normalize);
    }
    forall g | g in out ensures exists f :: f in fs && BoostIs(cfg, f, g, hints, normalize) {
      assert g in multiset(boosted);
      var k :| 0 <= k < |boosted| && boosted[k] == g;
      assert fs[k] in fs;
    }
    forall f | f in fs ensures exists g :: g in out && BoostIs(cfg, f, g, hints, normalize) {
      var k :| 0 <= k < |fs| && fs[k] == f;
      assert boosted[k] in multiset(out);
    }
    forall j, k | 0 <= j < k < |out| ensures BoostedDescends(out[j], out[k]) {
      OrderedAt(out, j, k);
    }
  }

  lemma OneBoost(cfg: Config, f: Fused, hints: seq<(string, string)>, normalize: string -> string)
    ensures BoostIs(cfg, f, Boost(cfg, f, Matches(hints, f.metadata, normalize)), hints, normalize)
  {
    hide Matches, MetHints;
    MatchesCount(hints, f.metadata, normalize);
  }

  // --- What a search keeps ---------------------------------------------------------------------------

  /** The two texts have the same body, or bodies that are near enough, neither being empty. */
  predicate Alike(lens: Lens, a: string, b: string) {
    || lens.body(a) == lens.body(b)
    || (lens.body(a) != "" && lens.body(b) != "" && lens.near(lens.body(a), lens.body(b)))
  }

  /** `at` are the places, in order, of what is returned: as many as asked for of those that are like
      nothing returned before them. */
  ghost predicate Kept(lens: Lens, fs: seq<Fused>, at: seq<nat>, limit: nat) {
    && (forall j, k :: 0 <= j < k < |at| ==> at[j] < at[k] < |fs|)
    && (|at| > 0 ==> at[|at| - 1] < |fs|) && |at| <= limit
    && (forall j, k :: 0 <= j < k < |at| ==> !Alike(lens, fs[at[k]].text, fs[at[j]].text))
    && forall i: nat :: i < |fs| && i !in at ==>
         || (|at| == limit && (limit > 0 ==> at[limit - 1] < i))
         || exists j :: 0 <= j < |at| && at[j] < i && Alike(lens, fs[i].text, fs[at[j]].text)
  }

  lemma AlikeIff(lens: Lens, f: Fused, g: Fused)
    ensures Duplicates(lens, f, g) <==> Alike(lens, f.text, g.text)
  {
  }

  lemma LeftOut(lens: Lens, fs: seq<Fused>, kept: seq<nat>, at: seq<nat>, limit: nat, i: nat)
    requires Greedy(lens, fs, kept) && at == (if |kept| <= limit then kept else kept[..limit])
    requires i < |fs| && i !in at
    ensures || (|at| == limit && (limit > 0 ==> at[limit - 1] < i))
            || exists j :: 0 <= j < |at| && at[j] < i && Alike(lens, fs[i].text, fs[at[j]].text)
  {
    hide Duplicates, Alike;
    assert forall m :: 0 <= m < |at| ==> at[m] == kept[m] && at[m] in at;
    if i in kept {
      var k :| 0 <= k < |kept| && kept[k] == i;
      assert k >= |at|;
    } else {
      assert Repeats(lens, fs, kept, i);
      var k :| 0 <= k < |kept| && kept[k] < i && Duplicates(lens, fs[i], fs[kept[k]]);
      AlikeIff(lens, fs[i], fs[kept[k]]);
    }
  }

  lemma Unlike(lens: Lens, fs: seq<Fused>, kept: seq<nat>, j: nat, k: nat)
    requires Greedy(lens, fs, kept) && j < k < |kept|
    ensures kept[j] < kept[k] < |fs| && !Alike(lens, fs[kept[k]].text, fs[kept[j]].text)
  {
    hide Duplicates, Alike;
    assert kept[k] in kept && !Repeats(lens, fs, kept, kept[k]);
    AlikeIff(lens, fs[kept[k]], fs[kept[j]]);
  }

  lemma KeptCut(lens: Lens, fs: seq<Fused>, kept: seq<nat>, limit: nat) returns (at: seq<nat>)
    requires Greedy(lens, fs, kept)
    ensures at == (if |kept| <= limit then kept else kept[..limit]) && Kept(lens, fs, at, limit)
  {
    hide Alike;
    at := if |kept| <= limit then kept else kept[..limit];
    GreedyBounds(lens, fs, kept);
    hide Greedy;
    forall j, k | 0 <= j < k < |at| ensures !Alike(lens, fs[at[k]].text, fs[at[j]].text) {
      Unlike(lens, fs, kept, j, k);
    }
    forall i: nat | i < |fs| && i !in at
      ensures || (|at| == limit && (limit > 0 ==> at[limit - 1] < i))
              || exists j :: 0 <= j < |at| && at[j] < i && Alike(lens, fs[i].text, fs[at[j]].text)
    {
      LeftOut(lens, fs, kept, at, limit, i);
    }
  }

  lemma ReturnedAt(lens: Lens, fs: seq<Fused>, kept: seq<nat>, limit: nat)
    requires (forall k :: 0 <= k < |kept| ==> kept[k] < |fs|) && Deduped(lens, fs, []) == Picked(fs, kept)
    ensures var at, out := if |kept| <= limit then kept else kept[..limit], Returned(lens, fs, limit);
      |at| == |out| && forall j :: 0 <= j < |at| ==> at[j] < |fs| && out[j] == fs[at[j]]
  {
    hide Deduped;
  }

  /** A search returns, of the fused and, where the profile gives hints, boosted ranking, the first
      results that are like none before them, as many as asked for. */
  lemma SearchIs(cfg: Config, dense: seq<Hit>, lexical: seq<Hit>, similarities: map<Id, real>, order: seq<Id>,
                 hints: seq<(string, string)>, normalize: string -> string, lens: Lens, limit: nat)
    returns (at: seq<nat>)
    requires Valid(cfg) && Enumerates(order, dense, lexical)
    ensures var ranked := Ranked(cfg, dense, lexical, similarities, order);
      var out := Hybrid(cfg, dense, lexical, similarities, order, hints, normalize, lens, limit);
      && (out.Some? <==> ranked.Some?)
      && (out.Some? ==>
            var fs := if hints == [] then ranked.value else Boosted(cfg, ranked.value, hints, normalize);
            && Kept(lens, fs, at, limit) && |out.value| == |at|
            && forall j :: 0 <= j < |at| ==> at[j] < |fs| && out.value[j] == fs[at[j]])
  {
    hide Ranked, Boosted, Kept, Greedy, Deduped, Returned;
    var ranked := Ranked(cfg, dense, lexical, similarities, order);
    at := [];
    if ranked.Some? {
      var fs := if hints == [] then ranked.value else Boosted(cfg, ranked.value, hints, normalize);
      var kept := DedupIsGreedy(lens, fs);
      GreedyBounds(lens, fs, kept);
      at := KeptCut(lens, fs, kept, limit);
      ReturnedAt(lens, fs, kept, limit);
    }
  }
}
