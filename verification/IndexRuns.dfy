/** What one ingestion and one rollback leave, report by report, over any history before them. */
module IndexRuns {
  import opened Options
  import opened IndexVersions
  import opened IndexFacts

  // --- The documents of a build -----------------------------------------------------------------------

  /** What the build holds under a path that has a source: the document carried forward if its text is
      what it was, else what building makes of it, if anything. */
  predicate DocIs(cfg: Config, s: Source, current: Docs, commit: string, docs: Docs) {
    if s.path in current && current[s.path].hash == cfg.hash(s.text) then
      s.path in docs && docs[s.path] == current[s.path]
    else
      && cfg.build(s).Some?
      && if cfg.build(s).value == [] then s.path !in docs
         else s.path in docs && docs[s.path] == Doc(cfg.hash(s.text), cfg.build(s).value, commit)
  }

  /** That for every source, and nothing else. */
  ghost predicate DocsAre(cfg: Config, sources: seq<Source>, current: Docs, commit: string, docs: Docs) {
    && (forall s <- sources :: DocIs(cfg, s, current, commit, docs))
    && forall p <- docs.Keys :: exists s :: s in sources && s.path == p
  }

  /** The build stops at the `i`th source: something raises there, or its changed text cannot be parsed. */
  predicate StopsAt(cfg: Config, sources: seq<Source>, i: nat, current: Docs, faults: nat -> Option<ErrorCode>)
    requires i < |sources|
  {
    var s := sources[i];
    || faults(i).Some?
    || ((s.path in current ==> current[s.path].hash != cfg.hash(s.text)) && cfg.build(s).None?)
  }

  function StopCode(i: nat, faults: nat -> Option<ErrorCode>): ErrorCode {
    if faults(i).Some? then faults(i).value else DOCUMENT_PARSE_FAILED
  }

  lemma DocsMore(cfg: Config, sources: seq<Source>, i: nat, current: Docs, commit: string, docs: Docs, more: Docs)
    requires i < |sources| && Apart(sources) && DocsAre(cfg, sources[..i], current, commit, docs)
    requires DocIs(cfg, sources[i], current, commit, more)
    requires forall p :: p != sources[i].path ==> (p in more <==> p in docs) && (p in docs ==> more[p] == docs[p])
    ensures DocsAre(cfg, sources[..i + 1], current, commit, more)
  {
    var now := sources[..i + 1];
    forall s | s in now ensures DocIs(cfg, s, current, commit, more) {
      var k :| 0 <= k <= i && sources[k] == s;
      if k < i {
        assert sources[..i][k] == s && s.path != sources[i].path;
        assert DocIs(cfg, s, current, commit, docs);
      }
    }
    forall p | p in more.Keys ensures exists s :: s in now && s.path == p {
      if p == sources[i].path {
        assert sources[i] in now;
      } else {
        assert p in docs.Keys;
        var s :| s in sources[..i] && s.path == p;
        assert s in now;
      }
    }
  }

  lemma NotStored(cfg: Config, sources: seq<Source>, i: nat, current: Docs, commit: string, docs: Docs)
    requires i < |sources| && Apart(sources) && DocsAre(cfg, sources[..i], current, commit, docs)
    ensures sources[i].path !in docs
  {
    hide DocIs;
    assert forall k :: 0 <= k < i ==> sources[..i][k].path != sources[i].path;
    assert forall s <- sources[..i] :: s.path != sources[i].path;
    assert forall p <- docs.Keys :: exists s :: s in sources[..i] && s.path == p;
  }

  /** A build raises exactly at the first source that stops it, with what is raised there; else it holds
      for each source what it should. */
  lemma {:induction false} BuildIs(cfg: Config, sources: seq<Source>, i: nat, current: Docs, commit: string,
                                   faults: nat -> Option<ErrorCode>, docs: Docs)
    requires i <= |sources| && Apart(sources) && DocsAre(cfg, sources[..i], current, commit, docs)
    ensures match BuildFrom(cfg, sources, i, current, commit, faults, docs)
      case Stored(built) =>
        && DocsAre(cfg, sources, current, commit, built)
        && forall k :: i <= k < |sources| ==> !StopsAt(cfg, sources, k, current, faults)
      case Raised(error) =>
        exists k :: i <= k < |sources| && StopsAt(cfg, sources, k, current, faults) && error == StopCode(k, faults)
          && forall j :: i <= j < k ==> !StopsAt(cfg, sources, j, current, faults)
    decreases |sources| - i, 0
  {
    if i == |sources| {
      assert sources[..i] == sources;
    } else if faults(i).Some? {
      assert StopsAt(cfg, sources, i, current, faults);
    } else {
      var s := sources[i];
      NotStored(cfg, sources, i, current, commit, docs);
      if Unchanged(cfg, s, current) {
        DocsMore(cfg, sources, i, current, commit, docs, docs[s.path := current[s.path]]);
        NextIs(cfg, sources, i, current, commit, faults, docs[s.path := current[s.path]]);
      } else if cfg.build(s).Some? {
        var more := Ingest(cfg, s, commit, docs).docs;
        DocsMore(cfg, sources, i, current, commit, docs, more);
        NextIs(cfg, sources, i, current, commit, faults, more);
      } else {
        assert StopsAt(cfg, sources, i, current, faults);
      }
    }
  }

  lemma {:induction false} NextIs(cfg: Config, sources: seq<Source>, i: nat, current: Docs, commit: string,
                                  faults: nat -> Option<ErrorCode>, docs: Docs)
    requires i < |sources| && Apart(sources) && DocsAre(cfg, sources[..i + 1], current, commit, docs)
    requires !StopsAt(cfg, sources, i, current, faults)
    ensures match BuildFrom(cfg, sources, i + 1, current, commit, faults, docs)
      case Stored(built) =>
        && DocsAre(cfg, sources, current, commit, built)
        && forall k :: i <= k < |sources| ==> !StopsAt(cfg, sources, k, current, faults)
      case Raised(error) =>
        exists k :: i <= k < |sources| && StopsAt(cfg, sources, k, current, faults) && error == StopCode(k, faults)
          && forall j :: i <= j < k ==> !StopsAt(cfg, sources, j, current, faults)
    decreases |sources| - i - 1, 1
  {
    hide DocsAre, StopsAt, BuildFrom, StopCode;
    BuildIs(cfg, sources, i + 1, current, commit, faults, docs);
  }

  // --- Fitness -----------------------------------------------------------------------------------------

  predicate Chunked(docs: Docs, p: string, k: nat) { p in docs && k < |docs[p].chunks| }

  /** A version fit to serve: it has a chunk, and every chunk has a vector of the right dimension, keeps
      to the maximum, and can be cited. */
  ghost predicate Fit(cfg: Config, docs: Docs) {
    && (exists p, k: nat :: Chunked(docs, p, k))
    && forall p, k: nat :: Chunked(docs, p, k) ==>
         var c := docs[p].chunks[k];
         && c.vector.Some? && c.dimensions == cfg.dimensions && c.tokens <= cfg.maxTokens
         && c.url != "" && docs[p].commit != ""
  }

  lemma FitIff(cfg: Config, docs: Docs)
    ensures Validates(cfg, docs) <==> Fit(cfg, docs)
  {
    if HasChunks(docs) {
      var p :| p in docs && docs[p].chunks != [];
      assert Chunked(docs, p, 0);
    }
    if Fit(cfg, docs) {
      var p, k: nat :| Chunked(docs, p, k);
      assert docs[p].chunks != [];
      forall q | q in docs ensures DocOk(cfg, docs[q]) {
        if docs[q].chunks != [] { assert Chunked(docs, q, 0); }
        assert forall k: nat :: k < |docs[q].chunks| ==> Chunked(docs, q, k);
      }
    }
    if Validates(cfg, docs) {
      forall p, k: nat | Chunked(docs, p, k)
        ensures ChunkOk(cfg, docs[p].chunks[k]) && docs[p].commit != ""
      {
        assert DocOk(cfg, docs[p]);
      }
    }
  }

  // --- The table afterwards ------------------------------------------------------------------------------

  /** A version once another serves: superseded if it was serving, else as it was. */
  function Retired(v: Version): Version {
    if v.active then v.(active := false, status := Superseded) else v
  }

  /** How many versions that do not serve are kept: what the setting says, but never none. */
  predicate Retains(cfg: Config, keep: nat) {
    keep >= 1 && (cfg.retention >= 1 ==> keep == cfg.retention) && (cfg.retention < 1 ==> keep == 1)
  }

  /** The newest `keep` of what there was, retired, and the new version serving. */
  ghost predicate TakesOver(cfg: Config, before: Versions, v: Version, after: Versions) {
    exists keep: nat :: Retains(cfg, keep)
      && var from := if |before| > keep then |before| - keep else 0;
         && |after| == |before| - from + 1
         && (forall k :: 0 <= k < |after| - 1 ==> after[k] == Retired(before[from + k]))
         && after[|after| - 1] == v.(active := true, status := Active)
  }

  lemma {:induction false} PrunedNewest(vs: Versions, last: Version, keep: nat)
    requires last.active && forall v <- vs :: !v.active
    ensures var from := if |vs| > keep then |vs| - keep else 0;
      Pruned(vs + [last], keep) == vs[from..] + [last]
    decreases |vs|
  {
    hide Inactive;
    if vs == [] {
      assert vs + [last] == [last];
      PrunedOne(last, keep);
    } else {
      var rest := vs[1..] + [last];
      assert vs + [last] == [vs[0]] + rest;
      PrunedNewest(vs[1..], last, keep);
      AllInactive(vs[1..], last);
      PrunedFirst(vs[0], rest, keep);
      if |vs| > keep { assert vs[1..][|vs| - 1 - keep..] == vs[|vs| - keep..]; }
    }
  }

  lemma PrunedOne(v: Version, keep: nat)
    requires v.active
    ensures Pruned([v], keep) == [v]
  {
    assert [v][1..] == [] && Pruned([], keep) == [];
  }

  lemma PrunedFirst(v: Version, rest: Versions, keep: nat)
    requires !v.active
    ensures Pruned([v] + rest, keep) == (if Inactive(rest) < keep then [v] else []) + Pruned(rest, keep)
  {
    assert ([v] + rest)[1..] == rest;
  }

  lemma DraftsAre(before: Versions, v: Version) returns (retired: Versions)
    requires !v.active && forall u <- before :: u.id != v.id
    ensures Activated(before + [v], v.id) == retired + [v.(active := true, status := Active)]
    ensures |retired| == |before| && forall k :: 0 <= k < |before| ==>
      retired[k] == Retired(before[k]) && !retired[k].active
  {
    var all, drafts := before + [v], Activated(before + [v], v.id);
    retired := drafts[..|before|];
    forall k | 0 <= k < |before| ensures retired[k] == Retired(before[k]) && !retired[k].active {
      assert all[k] == before[k] && before[k] in before;
    }
    assert all[|before|] == v && drafts == retired + [drafts[|before|]];
  }

  lemma TakeOverIs(cfg: Config, before: Versions, v: Version)
    requires v.id == NextId(before) && !v.active
    ensures TakesOver(cfg, before, v, Pruned(Activated(before + [v], v.id), Keep(cfg)))
  {
    hide Pruned, NextId, Activated, Retired;
    FreshId(before);
    var retired := DraftsAre(before, v);
    PrunedNewest(retired, v.(active := true, status := Active), Keep(cfg));
    assert Retains(cfg, Keep(cfg));
  }

  /** The version that serves, if one does. */
  ghost predicate Serves(vs: Versions, v: Version) { v in vs && v.active }

  /** What is carried forward from: the documents being served. */
  ghost predicate Current(vs: Versions, docs: Docs) {
    if exists v :: Serves(vs, v) then exists v :: Serves(vs, v) && docs == v.docs else docs == map[]
  }

  /** What an ingestion leaves and reports. */
  ghost predicate IngestionIs(cfg: Config, before: Versions, commit: string, force: bool,
                              faults: nat -> Option<ErrorCode>, after: Versions, report: Report) {
    var sources := cfg.corpus(commit);
    if !force && exists v :: Serves(before, v) && v.commit == commit then after == before && report == NoChange
    else
      exists current :: Current(before, current) && RunIs(cfg, before, commit, faults, current, after, report)
  }

  /** Without a fault it adds a version with a new id and the built documents, which takes over when it
      is fit and stays as failed when it is not. */
  ghost predicate RunIs(cfg: Config, before: Versions, commit: string, faults: nat -> Option<ErrorCode>, current: Docs,
                        after: Versions, report: Report) {
    var sources := cfg.corpus(commit);
    if exists k :: 0 <= k < |sources| && StopsAt(cfg, sources, k, current, faults) then
      && after == before
      && exists k :: 0 <= k < |sources| && StopsAt(cfg, sources, k, current, faults)
           && (forall j :: 0 <= j < k ==> !StopsAt(cfg, sources, j, current, faults))
           && report == BuildFailed(StopCode(k, faults))
    else
      exists v: Version ::
        && v.status == Validating && !v.active && v.commit == commit && (forall u <- before :: u.id < v.id)
        && DocsAre(cfg, sources, current, commit, v.docs)
        && if Fit(cfg, v.docs) then TakesOver(cfg, before, v, after) && report == Activation
           else after == before + [v.(status := Failed)] && report == ValidationFailed
  }

  lemma ActiveIs(vs: Versions)
    requires OneActive(vs)
    ensures forall v :: Serves(vs, v) <==> ActiveOf(vs) == Some(v)
    ensures Current(vs, CurrentDocs(vs))
  {
    forall v | Serves(vs, v) ensures ActiveOf(vs) == Some(v) { OnlyActive(vs, v); }
    if ActiveOf(vs).Some? { assert Serves(vs, ActiveOf(vs).value); }
  }

  lemma RunIsSo(cfg: Config, before: Versions, commit: string, faults: nat -> Option<ErrorCode>)
    requires Apart(cfg.corpus(commit))
    ensures var current := CurrentDocs(before);
      var built := BuildFrom(cfg, cfg.corpus(commit), 0, current, commit, faults, map[]);
      && (built.Raised? ==> RunIs(cfg, before, commit, faults, current, before, BuildFailed(built.error)))
      && (built.Stored? ==>
            var v := Version(NextId(before), Validating, false, commit, built.docs);
            if Validates(cfg, built.docs) then
              RunIs(cfg, before, commit, faults, current,
                    Pruned(Activated(before + [v], v.id), Keep(cfg)), Activation)
            else
              RunIs(cfg, before, commit, faults, current, before + [v.(status := Failed)], ValidationFailed))
  {
    hide StopsAt, DocIs, Validates, Fit, TakesOver, NextId, Pruned, Activated;
    var sources, current := cfg.corpus(commit), CurrentDocs(before);
    assert DocsAre(cfg, sources[..0], current, commit, map[]);
    BuildIs(cfg, sources, 0, current, commit, faults, map[]);
    var built := BuildFrom(cfg, sources, 0, current, commit, faults, map[]);
    if built.Stored? {
      var v := Version(NextId(before), Validating, false, commit, built.docs);
      FreshId(before);
      FitIff(cfg, built.docs);
      TakeOverIs(cfg, before, v);
    }
  }

  /** Every ingestion, after any history: what it reports and what the table holds afterwards, said of
      the sources, the settings and the versions before it. */
  lemma EveryIngestion(cfg: Config, ops: seq<Op>, commit: string, force: bool, faults: nat -> Option<ErrorCode>)
    requires Sound(cfg)
    ensures var before := Replay(cfg, ops);
      var (after, report) := Ingested(cfg, before, commit, force, faults);
      && IngestionIs(cfg, before, commit, force, faults, after, report)
      && Replay(cfg, ops + [Reindex(commit, force, faults)]) == after
  {
    var before := Replay(cfg, ops);
    EveryHistory(cfg, ops);
    assert OneActive(before) && Apart(cfg.corpus(commit));
    ActiveIs(before);
    assert (ops + [Reindex(commit, force, faults)])[..|ops|] == ops;
    hide Sound, RunIs, BuildFrom, Validates, Pruned, Activated, NextId, OneActive, Current;
    RunIsSo(cfg, before, commit, faults);
  }

  // --- Rollback -----------------------------------------------------------------------------------------

  predicate Holds(v: Version, id: nat) { v.id == id && exists p :: p in v.docs && v.docs[p].chunks != [] }

  /** The version asked for serves, what served is superseded, and the others are as they were. */
  predicate PointsAt(before: Versions, id: nat, after: Versions) {
    |after| == |before| && forall k :: 0 <= k < |before| ==>
      after[k] == if before[k].id == id then before[k].(active := true, status := Active) else Retired(before[k])
  }

  /** Every rollback, after any history: refused exactly when there is no such version, or it holds no
      chunk, and then nothing changes. */
  lemma EveryRollback(cfg: Config, ops: seq<Op>, id: nat)
    requires Sound(cfg)
    ensures var before := Replay(cfg, ops);
      var (after, error) := RolledBack(before, id);
      && (error.None? <==> exists v :: v in before && Holds(v, id))
      && (error == Some(NO_ACTIVE_INDEX) <==> forall v <- before :: v.id != id)
      && (error.Some? ==> after == before && error.value in {NO_ACTIVE_INDEX, INDEX_VALIDATION_FAILED})
      && (error.None? ==> PointsAt(before, id, after))
      && Replay(cfg, ops + [Rollback(id)]) == after
  {
    var before := Replay(cfg, ops);
    assert (ops + [Rollback(id)])[..|ops|] == ops;
    EveryHistory(cfg, ops);
    assert IdsApart(before);
    hide Sound, Faithful;
    var found := Find(before, id);
    if found.Some? {
      forall v | v in before && v.id == id ensures v == found.value {
        var j :| 0 <= j < |before| && before[j] == v;
        var k :| 0 <= k < |before| && before[k] == found.value;
      }
    }
  }
}
