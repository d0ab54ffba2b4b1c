/** Hybrid ranking: rank fusion, soft boosts for profile matches, and greedy deduplication. */
module Ranking {
  import opened Options

  /** Chunk ids, in the order of their text form. */
  type Id = nat

  /** A candidate of one list; its rank is its position, from one. */
  datatype Hit = Hit(id: Id, similarity: real, text: string, metadata: map<string, string>)

  datatype Fused = Fused(
    id: Id, score: real, denseRank: Option<nat>, lexicalRank: Option<nat>, similarity: real,
    text: string, metadata: map<string, string>, matches: nat, multiplier: real)

  datatype Config = Config(rrfK: nat, denseWeight: real, lexicalWeight: real, boostWeight: real)

  /** What the settings validators enforce. */
  predicate Valid(cfg: Config) {
    cfg.rrfK > 0 && cfg.denseWeight >= 0.0 && cfg.lexicalWeight >= 0.0 && cfg.boostWeight >= 0.0
  }

  // --- Sorting ----------------------------------------------------------------------------------------

  function Key(f: Fused): real { f.score * f.multiplier }

  /** By descending key, then by id. */
  predicate Before(a: Fused, b: Fused) { Key(a) > Key(b) || (Key(a) == Key(b) && a.id < b.id) }

  function Insert(f: Fused, sorted: seq<Fused>): seq<Fused> {
    if sorted == [] || Before(f, sorted[0]) then [f] + sorted else [sorted[0]] + Insert(f, sorted[1..])
  }

  function Sorted(fs: seq<Fused>): seq<Fused> {
    if fs == [] then [] else Insert(fs[0], Sorted(fs[1..]))
  }

  predicate InOrder(fs: seq<Fused>) {
    forall j, k :: 0 <= j < k < |fs| ==> Before(fs[j], fs[k])
  }

  predicate DistinctIds(fs: seq<Fused>) {
    forall j, k :: 0 <= j < k < |fs| ==> fs[j].id != fs[k].id
  }

  lemma {:induction false} InsertKeeps(f: Fused, sorted: seq<Fused>)
    requires InOrder(sorted) && forall k :: 0 <= k < |sorted| ==> sorted[k].id != f.id
    ensures InOrder(Insert(f, sorted)) && multiset(Insert(f, sorted)) == multiset([f]) + multiset(sorted)
  {
    hide Key;
    if sorted != [] {
      assert sorted == [sorted[0]] + sorted[1..];
      if Before(f, sorted[0]) {
        BeforeAll(f, sorted);
      } else {
        InsertKeeps(f, sorted[1..]);
        var rest := Insert(f, sorted[1..]);
        forall k | 0 <= k < |rest| ensures Before(sorted[0], rest[k]) {
          assert rest[k] in multiset(rest);
          assert rest[k] == f || rest[k] in sorted[1..];
          Total(f, sorted[0]);
        }
        AllBefore(sorted[0], rest);
      }
    }
  }

  lemma Total(a: Fused, b: Fused)
    requires a.id != b.id
    ensures Before(a, b) || Before(b, a)
  {
  }

  lemma BeforeAll(f: Fused, sorted: seq<Fused>)
    requires sorted != [] && InOrder(sorted) && Before(f, sorted[0])
    ensures InOrder([f] + sorted)
  {
    forall k | 0 <= k < |sorted| ensures Before(f, sorted[k]) {
      if k > 0 { assert Before(sorted[0], sorted[k]); }
    }
    AllBefore(f, sorted);
  }

  lemma AllBefore(f: Fused, rest: seq<Fused>)
    requires InOrder(rest) && forall k :: 0 <= k < |rest| ==> Before(f, rest[k])
    ensures InOrder([f] + rest)
  {
    hide Before;
    var all := [f] + rest;
    assert all[0] == f && forall k :: 0 < k < |all| ==> all[k] == rest[k - 1];
  }

  lemma {:induction false} SortedOk(fs: seq<Fused>)
    requires DistinctIds(fs)
    ensures InOrder(Sorted(fs)) && multiset(Sorted(fs)) == multiset(fs)
  {
    hide Before, InOrder;
    if fs != [] {
      var rest := fs[1..];
      assert forall k :: 0 <= k < |rest| ==> rest[k] == fs[k + 1];
      SortedOk(rest);
      assert fs == [fs[0]] + rest;
      forall k | 0 <= k < |Sorted(rest)| ensures Sorted(rest)[k].id != fs[0].id {
        assert Sorted(rest)[k] in multiset(Sorted(rest));
        assert Sorted(rest)[k] in rest;
      }
      InsertKeeps(fs[0], Sorted(rest));
    } else {
      assert InOrder(Sorted(fs)) by { Empty(); }
    }
  }

  lemma Empty()
    ensures InOrder([])
  {
  }

  /** There is one way to put a collection in order. */
  lemma {:induction false} OneOrder(a: seq<Fused>, b: seq<Fused>)
    requires InOrder(a) && InOrder(b) && multiset(a) == multiset(b)
    ensures a == b
    decreases |a|
  {
    hide Before;
    assert |a| == |multiset(a)| == |multiset(b)| == |b|;
    if a != [] {
      assert a[0] in multiset(b) && b[0] in multiset(a);
      FirstIsFirst(a, b);
      Headless(a);
      Headless(b);
      RestInOrder(a);
      RestInOrder(b);
      OneOrder(a[1..], b[1..]);
      assert a == [a[0]] + a[1..] && b == [b[0]] + b[1..];
    }
  }

  lemma RestInOrder(fs: seq<Fused>)
    requires fs != [] && InOrder(fs)
    ensures InOrder(fs[1..])
  {
    hide Before;
    assert forall k :: 0 <= k < |fs[1..]| ==> fs[1..][k] == fs[k + 1];
  }

  lemma Headless(fs: seq<Fused>)
    requires fs != []
    ensures multiset(fs[1..]) == multiset(fs) - multiset{fs[0]}
  {
    assert fs == [fs[0]] + fs[1..];
  }

  lemma FirstIsFirst(a: seq<Fused>, b: seq<Fused>)
    requires a != [] && b != [] && InOrder(a) && InOrder(b) && a[0] in b && b[0] in a
    ensures a[0] == b[0]
  {
    var i :| 0 <= i < |b| && b[i] == a[0];
    var j :| 0 <= j < |a| && a[j] == b[0];
    if i > 0 { assert Before(b[0], a[0]); }
    if j > 0 { assert Before(a[0], b[0]); }
  }

  // --- Fusion -----------------------------------------------------------------------------------------

  /** The rank of `id`: its last position, from one. */
  function RankOf(hits: seq<Hit>, id: Id): (rank: Option<nat>)
    ensures rank.Some? ==> 1 <= rank.value <= |hits| && hits[rank.value - 1].id == id
    ensures rank.None? ==> forall k :: 0 <= k < |hits| ==> hits[k].id != id
  {
    if hits == [] then None
    else if hits[|hits| - 1].id == id then Some(|hits|)
    else RankOf(hits[..|hits| - 1], id)
  }

  function Share(weight: real, k: nat, rank: Option<nat>): real
    requires k > 0
  {
    if rank.Some? then weight / (k + rank.value) as real else 0.0
  }

  /** One candidate, fused; nothing when only the lexical list has it and its similarity is unknown. */
  function Fuse(cfg: Config, dense: seq<Hit>, lexical: seq<Hit>, similarities: map<Id, real>, id: Id): Option<Fused>
    requires Valid(cfg)
  {
    var d, l := RankOf(dense, id), RankOf(lexical, id);
    if d.None? && (l.None? || id !in similarities) then None
    else
      var hit := if d.Some? then dense[d.value - 1] else lexical[l.value - 1];
      Some(Fused(id, Share(cfg.denseWeight, cfg.rrfK, d) + Share(cfg.lexicalWeight, cfg.rrfK, l), d, l,
                 if d.Some? then hit.similarity else similarities[id], hit.text, hit.metadata, 0, 1.0))
  }

  function FuseAll(cfg: Config, dense: seq<Hit>, lexical: seq<Hit>, similarities: map<Id, real>,
                   order: seq<Id>): Option<seq<Fused>>
    requires Valid(cfg)
  {
    if order == [] then Some([])
    else
      var first := Fuse(cfg, dense, lexical, similarities, order[0]);
      var rest := FuseAll(cfg, dense, lexical, similarities, order[1..]);
      if first.None? || rest.None? then None else Some([first.value] + rest.value)
  }

  function Ids(hits: seq<Hit>): set<Id> { set h | h in hits :: h.id }

  function IdSet(order: seq<Id>): set<Id> { set id | id in order }

  /** An enumeration of the candidates: each id of either list, once, in whatever order the set
      yields them. */
  ghost predicate Enumerates(order: seq<Id>, dense: seq<Hit>, lexical: seq<Hit>) {
    && (forall j, k :: 0 <= j < k < |order| ==> order[j] != order[k])
    && IdSet(order) == Ids(dense) + Ids(lexical)
  }

  function Ranked(cfg: Config, dense: seq<Hit>, lexical: seq<Hit>, similarities: map<Id, real>,
                  order: seq<Id>): Option<seq<Fused>>
    requires Valid(cfg)
  {
    var fused := FuseAll(cfg, dense, lexical, similarities, order);
    if fused.None? then None else Some(Sorted(fused.value))
  }

  /** The loop over the candidates; a candidate without a similarity raises. */
  method ReciprocalRankFusion(cfg: Config, dense: seq<Hit>, lexical: seq<Hit>, similarities: map<Id, real>,
                              order: seq<Id>)
    returns (results: Option<seq<Fused>>)
    requires Valid(cfg)
    ensures results == Ranked(cfg, dense, lexical, similarities, order)
  {
    hide Fuse, Sorted;
    var fused: seq<Fused> := [];
    assert order[..0] == [] && order[..|order|] == order;
    for i := 0 to |order|
      invariant FuseAll(cfg, dense, lexical, similarities, order[..i]) == Some(fused)
    {
      var one := Fuse(cfg, dense, lexical, similarities, order[i]);
      FuseNext(cfg, dense, lexical, similarities, order[..i], order[i]);
      assert order[..i] + [order[i]] == order[..i + 1];
      if one.None? {
        FuseFails(cfg, dense, lexical, similarities, order, i);
        return None;
      }
      fused := fused + [one.value];
    }
    results := Some(Sorted(fused));
  }

  lemma {:induction false} FuseNext(cfg: Config, dense: seq<Hit>, lexical: seq<Hit>, similarities: map<Id, real>,
                                    order: seq<Id>, id: Id)
    requires Valid(cfg)
    ensures FuseAll(cfg, dense, lexical, similarities, order + [id]) ==
      var a, b := FuseAll(cfg, dense, lexical, similarities, order), Fuse(cfg, dense, lexical, similarities, id);
      if a.None? || b.None? then None else Some(a.value + [b.value])
    decreases |order|
  {
    hide Fuse;
    if order == [] {
      assert order + [id] == [id] && [id][1..] == [];
      assert FuseAll(cfg, dense, lexical, similarities, [id][1..]) == Some([]);
      var last := Fuse(cfg, dense, lexical, similarities, id);
      if last.Some? { assert [last.value] + [] == [] + [last.value]; }
    } else {
      assert (order + [id])[1..] == order[1..] + [id];
      FuseNext(cfg, dense, lexical, similarities, order[1..], id);
      var first := Fuse(cfg, dense, lexical, similarities, order[0]);
      var rest := FuseAll(cfg, dense, lexical, similarities, order[1..]);
      var last := Fuse(cfg, dense, lexical, similarities, id);
      if first.Some? && rest.Some? && last.Some? {
        assert [first.value] + (rest.value + [last.value]) == [first.value] + rest.value + [last.value];
      }
    }
  }

  lemma {:induction false} FuseFails(cfg: Config, dense: seq<Hit>, lexical: seq<Hit>, similarities: map<Id, real>,
                                     order: seq<Id>, i: nat)
    requires Valid(cfg) && i < |order| && Fuse(cfg, dense, lexical, similarities, order[i]).None?
    ensures FuseAll(cfg, dense, lexical, similarities, order).None?
    decreases i
  {
    hide Fuse;
    if i > 0 { FuseFails(cfg, dense, lexical, similarities, order[1..], i - 1); }
  }

  // --- Boosts -----------------------------------------------------------------------------------------

  function Matches(hints: seq<(string, string)>, metadata: map<string, string>, normalize: string -> string): nat {
    if hints == [] then 0
    else (if normalize(if hints[0].0 in metadata then metadata[hints[0].0] else "") == hints[0].1 then 1 else 0)
         + Matches(hints[1..], metadata, normalize)
  }

  function Boost(cfg: Config, f: Fused, matches: nat): Fused {
    f.(matches := matches, multiplier := 1.0 + cfg.boostWeight * matches as real)
  }

  function BoostAll(cfg: Config, fs: seq<Fused>, hints: seq<(string, string)>,
                    normalize: string -> string): seq<Fused> {
    if fs == [] then []
    else [Boost(cfg, fs[0], Matches(hints, fs[0].metadata, normalize))] + BoostAll(cfg, fs[1..], hints, normalize)
  }

  function Boosted(cfg: Config, fs: seq<Fused>, hints: seq<(string, string)>, normalize: string -> string): seq<Fused> {
    Sorted(BoostAll(cfg, fs, hints, normalize))
  }

  method ApplyMetadataBoosts(cfg: Config, results: seq<Fused>, hints: seq<(string, string)>,
                             normalize: string -> string)
    returns (out: seq<Fused>)
    ensures out == Boosted(cfg, results, hints, normalize)
  {
    hide Matches, Boost, Sorted;
    var boosted: seq<Fused> := [];
    assert results[0..] == results;
    for i := 0 to |results|
      invariant boosted + BoostAll(cfg, results[i..], hints, normalize) == BoostAll(cfg, results, hints, normalize)
    {
      assert results[i..][0] == results[i] && results[i..][1..] == results[i + 1..];
      var matches := Matches(hints, results[i].metadata, normalize);
      var rest := BoostAll(cfg, results[i + 1..], hints, normalize);
      assert boosted + ([Boost(cfg, results[i], matches)] + rest)
          == (boosted + [Boost(cfg, results[i], matches)]) + rest;
      boosted := boosted + [Boost(cfg, results[i], matches)];
    }
    assert results[|results|..] == [] && boosted + [] == boosted;
    out := Sorted(boosted);
  }

  // --- Deduplication ----------------------------------------------------------------------------------

  /** What deduplication compares: the normalised body, and whether two bodies are near-identical. */
  datatype Lens = Lens(body: string -> string, near: (string, string) -> bool)

  predicate Duplicates(lens: Lens, f: Fused, prior: Fused) {
    var a, b := lens.body(f.text), lens.body(prior.text);
    a == b || (a != "" && b != "" && lens.near(a, b))
  }

  predicate DuplicateOf(lens: Lens, f: Fused, accepted: seq<Fused>) {
    exists k :: 0 <= k < |accepted| && Duplicates(lens, f, accepted[k])
  }

  function Deduped(lens: Lens, fs: seq<Fused>, accepted: seq<Fused>): seq<Fused>
    decreases |fs|
  {
    if fs == [] then accepted
    else Deduped(lens, fs[1..], if DuplicateOf(lens, fs[0], accepted) then accepted else accepted + [fs[0]])
  }

  method Deduplicate(lens: Lens, results: seq<Fused>) returns (accepted: seq<Fused>)
    ensures accepted == Deduped(lens, results, [])
  {
    hide Duplicates;
    accepted := [];
    assert results[0..] == results;
    for i := 0 to |results|
      invariant Deduped(lens, results[i..], accepted) == Deduped(lens, results, [])
    {
      assert results[i..][0] == results[i] && results[i..][1..] == results[i + 1..];
      var duplicate := IsDuplicate(lens, results[i], accepted);
      if duplicate { continue; }
      accepted := accepted + [results[i]];
    }
  }

  method IsDuplicate(lens: Lens, f: Fused, accepted: seq<Fused>) returns (duplicate: bool)
    ensures duplicate == DuplicateOf(lens, f, accepted)
  {
    for k := 0 to |accepted|
      invariant forall j :: 0 <= j < k ==> !Duplicates(lens, f, accepted[j])
    {
      if Duplicates(lens, f, accepted[k]) { return true; }
    }
    duplicate := false;
  }

  // --- Hybrid retrieval -------------------------------------------------------------------------------

  /** Boosts apply only where the profile gives hints. */
  function Profiled(cfg: Config, fs: seq<Fused>, hints: seq<(string, string)>,
                    normalize: string -> string): seq<Fused> {
    if hints == [] then fs else Boosted(cfg, fs, hints, normalize)
  }

  function Returned(lens: Lens, fs: seq<Fused>, limit: nat): seq<Fused> {
    var out := Deduped(lens, fs, []);
    if |out| <= limit then out else out[..limit]
  }

  function Hybrid(cfg: Config, dense: seq<Hit>, lexical: seq<Hit>, similarities: map<Id, real>, order: seq<Id>,
                  hints: seq<(string, string)>, normalize: string -> string, lens: Lens, limit: nat)
    : (out: Option<seq<Fused>>)
    requires Valid(cfg)
    ensures out.Some? <==> Ranked(cfg, dense, lexical, similarities, order).Some?
  {
    match Ranked(cfg, dense, lexical, similarities, order)
    case None => None
    case Some(fs) => Some(Returned(lens, Profiled(cfg, fs, hints, normalize), limit))
  }

  /** What hybrid_retrieve makes of the two lists it has fetched. */
  method HybridRetrieve(cfg: Config, dense: seq<Hit>, lexical: seq<Hit>, similarities: map<Id, real>, order: seq<Id>,
                        hints: seq<(string, string)>, normalize: string -> string, lens: Lens, limit: nat)
    returns (results: Option<seq<Fused>>)
    requires Valid(cfg)
    ensures results == Hybrid(cfg, dense, lexical, similarities, order, hints, normalize, lens, limit)
  {
    var fused := ReciprocalRankFusion(cfg, dense, lexical, similarities, order);
    if fused.None? { return None; }
    var fs := fused.value;
    if |hints| > 0 { fs := ApplyMetadataBoosts(cfg, fs, hints, normalize); }
    fs := Deduplicate(lens, fs);
    results := Some(if |fs| <= limit then fs else fs[..limit]);
  }
}
