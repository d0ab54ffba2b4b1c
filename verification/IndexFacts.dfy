/** What holds of the index over any history of ingestions, failures, rollbacks and prunes. */
module IndexFacts {
  import opened Options
  import opened IndexVersions

  // --- The simple rebuild -----------------------------------------------------------------------------

  /** `docs` are what a full rebuild of `sources` stores, but for the commit a document carries. */
  ghost predicate Faithful(cfg: Config, docs: Docs, sources: seq<Source>) {
    && (forall k :: 0 <= k < |sources| ==> Rebuilt(cfg, docs, sources[k]))
    && (forall p :: p in docs ==> exists k :: 0 <= k < |sources| && sources[k].path == p)
  }

  ghost predicate Rebuilt(cfg: Config, docs: Docs, s: Source) {
    && cfg.build(s).Some?
    && var chunks := cfg.build(s).value;
       if chunks == [] then s.path !in docs
       else s.path in docs && docs[s.path].hash == cfg.hash(s.text) && docs[s.path].chunks == chunks
  }

  /** Each path stands once in a commit's corpus, and the hash tells texts apart. */
  ghost predicate Sound(cfg: Config) {
    && (forall c, j, k :: 0 <= j < k < |cfg.corpus(c)| ==> cfg.corpus(c)[j].path != cfg.corpus(c)[k].path)
    && (forall a, b :: cfg.hash(a) == cfg.hash(b) ==> a == b)
  }

  predicate Apart(sources: seq<Source>) {
    forall j, k :: 0 <= j < k < |sources| ==> sources[j].path != sources[k].path
  }

  /** A document carried forward is the one that building it anew would store. */
  lemma CarriedIsRebuilt(cfg: Config, s: Source, current: Docs, past: seq<Source>)
    requires Sound(cfg) && Faithful(cfg, current, past) && Unchanged(cfg, s, current)
    ensures cfg.build(s).Some? && current[s.path].chunks == cfg.build(s).value != []
    ensures current[s.path].hash == cfg.hash(s.text)
  {
    var k :| 0 <= k < |past| && past[k].path == s.path;
    assert Rebuilt(cfg, current, past[k]);
    assert past[k].text == s.text && past[k] == s;
  }

  lemma OneMore(cfg: Config, docs: Docs, more: Docs, sources: seq<Source>, i: nat)
    requires i < |sources| && Apart(sources) && Faithful(cfg, docs, sources[..i])
    requires Rebuilt(cfg, more, sources[i])
    requires forall p :: p != sources[i].path ==> (p in more <==> p in docs) && (p in docs ==> more[p] == docs[p])
    ensures Faithful(cfg, more, sources[..i + 1])
  {
    var now := sources[..i + 1];
    forall k | 0 <= k < |now| ensures Rebuilt(cfg, more, now[k]) {
      if k < i { assert Rebuilt(cfg, docs, sources[..i][k]) && sources[k].path != sources[i].path; }
    }
    forall p | p in more ensures exists k :: 0 <= k < |now| && now[k].path == p {
      if p == sources[i].path {
        assert now[i].path == p;
      } else {
        var k :| 0 <= k < i && sources[..i][k].path == p;
        assert now[k].path == p;
      }
    }
  }

  lemma NotYet(cfg: Config, docs: Docs, sources: seq<Source>, i: nat)
    requires i < |sources| && Apart(sources) && Faithful(cfg, docs, sources[..i])
    ensures sources[i].path !in docs
  {
    assert forall k :: 0 <= k < i ==> sources[..i][k] == sources[k] && sources[k].path != sources[i].path;
  }

  /** The incremental build agrees with the full one, wherever its faults fall. */
  lemma {:induction false} BuildIsFaithful(cfg: Config, sources: seq<Source>, i: nat, current: Docs, past: seq<Source>,
                                           commit: string, faults: nat -> Option<ErrorCode>, docs: Docs)
    requires Sound(cfg) && Apart(sources) && i <= |sources|
    requires Faithful(cfg, current, past) && Faithful(cfg, docs, sources[..i])
    ensures match BuildFrom(cfg, sources, i, current, commit, faults, docs)
      case Raised(_) => true
      case Stored(built) => Faithful(cfg, built, sources)
    decreases |sources| - i
  {
    if i == |sources| {
      assert sources[..i] == sources;
    } else if faults(i).None? {
      var s := sources[i];
      NotYet(cfg, docs, sources, i);
      hide Sound, Faithful, Apart;
      if Unchanged(cfg, s, current) {
        CarriedIsRebuilt(cfg, s, current, past);
        OneMore(cfg, docs, docs[s.path := current[s.path]], sources, i);
        BuildIsFaithful(cfg, sources, i + 1, current, past, commit, faults, docs[s.path := current[s.path]]);
      } else if cfg.build(s).Some? {
        var more := Ingest(cfg, s, commit, docs).docs;
        OneMore(cfg, docs, more, sources, i);
        BuildIsFaithful(cfg, sources, i + 1, current, past, commit, faults, more);
      }
    }
  }

  /** Faithful documents are determined by the sources, but for the commits they carry. */
  lemma FaithfulAgree(cfg: Config, a: Docs, b: Docs, sources: seq<Source>)
    requires Faithful(cfg, a, sources) && Faithful(cfg, b, sources)
    ensures a.Keys == b.Keys && forall p :: p in a ==> a[p].hash == b[p].hash && a[p].chunks == b[p].chunks
  {
    forall p | p in a || p in b
      ensures p in a && p in b && a[p].hash == b[p].hash && a[p].chunks == b[p].chunks
    {
      var k :| 0 <= k < |sources| && sources[k].path == p;
      assert Rebuilt(cfg, a, sources[k]) && Rebuilt(cfg, b, sources[k]);
    }
  }

  // --- Every version, over every history ------------------------------------------------------------------

  ghost predicate VersionOk(cfg: Config, v: Version) {
    && Faithful(cfg, v.docs, cfg.corpus(v.commit))
    && (v.active ==> HasChunks(v.docs))
  }

  predicate IdsApart(vs: Versions) {
    forall j, k :: 0 <= j < |vs| && 0 <= k < |vs| && vs[j].id == vs[k].id ==> j == k
  }

  predicate OneActive(vs: Versions) {
    forall j, k :: 0 <= j < k < |vs| ==> !(vs[j].active && vs[k].active)
  }

  predicate Serving(vs: Versions) { exists v :: v in vs && v.active }

  ghost predicate IndexOk(cfg: Config, vs: Versions) {
    IdsApart(vs) && OneActive(vs) && forall v :: v in vs ==> VersionOk(cfg, v)
  }

  lemma {:induction false} FreshId(vs: Versions)
    ensures forall v :: v in vs ==> v.id < NextId(vs)
    decreases |vs|
  {
    if vs != [] {
      FreshId(vs[..|vs| - 1]);
      assert forall v :: v in vs ==> v in vs[..|vs| - 1] || v == vs[|vs| - 1];
    }
  }

  lemma {:induction false} PrunedPart(vs: Versions, keep: nat)
    ensures forall v :: v in Pruned(vs, keep) ==> v in vs
    ensures forall v :: v in vs && v.active ==> v in Pruned(vs, keep)
  {
    if vs != [] { PrunedPart(vs[1..], keep); }
  }

  lemma {:induction false} PrunedApart(vs: Versions, keep: nat)
    requires IdsApart(vs) && OneActive(vs)
    ensures IdsApart(Pruned(vs, keep)) && OneActive(Pruned(vs, keep))
  {
    if vs != [] {
      var rest := Pruned(vs[1..], keep);
      RestApart(vs);
      PrunedApart(vs[1..], keep);
      PrunedPart(vs[1..], keep);
      forall k | 0 <= k < |rest| ensures rest[k].id != vs[0].id && !(rest[k].active && vs[0].active) {
        assert rest[k] in vs[1..];
        var j :| 0 <= j < |vs[1..]| && vs[1..][j] == rest[k];
        assert vs[j + 1] == rest[k];
      }
      FirstApart(vs[0], rest);
    }
  }

  lemma RestApart(vs: Versions)
    requires vs != [] && IdsApart(vs) && OneActive(vs)
    ensures IdsApart(vs[1..]) && OneActive(vs[1..])
  {
    var rest := vs[1..];
    assert forall k :: 0 <= k < |rest| ==> rest[k] == vs[k + 1];
  }

  lemma FirstApart(v: Version, rest: Versions)
    requires IdsApart(rest) && OneActive(rest)
    requires forall k :: 0 <= k < |rest| ==> rest[k].id != v.id && !(rest[k].active && v.active)
    ensures IdsApart([v] + rest) && OneActive([v] + rest)
  {
    var all := [v] + rest;
    assert all[0] == v && forall k :: 0 < k < |all| ==> all[k] == rest[k - 1];
  }

  /** Where each version stands after an activation. */
  lemma ActivatedAt(vs: Versions, id: nat, k: nat)
    requires k < |vs|
    ensures var v := Activated(vs, id)[k];
      v.id == vs[k].id && v.docs == vs[k].docs && v.commit == vs[k].commit && (v.active <==> vs[k].id == id)
  {
  }

  lemma ActivatedApart(vs: Versions, id: nat)
    requires IdsApart(vs)
    ensures IdsApart(Activated(vs, id)) && OneActive(Activated(vs, id))
  {
    hide Activated;
    forall k | 0 <= k < |vs|
      ensures Activated(vs, id)[k].id == vs[k].id && (Activated(vs, id)[k].active <==> vs[k].id == id)
    {
      ActivatedAt(vs, id, k);
    }
  }

  lemma ActivationKeeps(cfg: Config, vs: Versions, id: nat)
    requires IdsApart(vs) && forall v :: v in vs ==> Faithful(cfg, v.docs, cfg.corpus(v.commit))
    requires exists v :: v in vs && v.id == id && HasChunks(v.docs)
    ensures IndexOk(cfg, Activated(vs, id)) && Serving(Activated(vs, id))
    ensures forall v :: v in Activated(vs, id) ==> (v.active <==> v.id == id)
  {
    hide Faithful, HasChunks, Activated, Flip;
    var out := Activated(vs, id);
    var target :| target in vs && target.id == id && HasChunks(target.docs);
    var t :| 0 <= t < |vs| && vs[t] == target;
    ActivatedApart(vs, id);
    forall v | v in out ensures VersionOk(cfg, v) && (v.active <==> v.id == id) {
      var k :| 0 <= k < |out| && out[k] == v;
      ActivatedAt(vs, id, k);
      assert vs[k] in vs;
      if v.active { assert vs[k].id == vs[t].id; }
    }
    ActivatedAt(vs, id, t);
    assert out[t] in out;
  }

  lemma RollbackKeeps(cfg: Config, vs: Versions, id: nat)
    requires IndexOk(cfg, vs)
    ensures IndexOk(cfg, RolledBack(vs, id).0)
    ensures Serving(vs) ==> Serving(RolledBack(vs, id).0)
    ensures RolledBack(vs, id).1.None? ==> Serving(RolledBack(vs, id).0)
  {
    hide Faithful, HasChunks;
    var target := Find(vs, id);
    if target.Some? && HasChunks(target.value.docs) { ActivationKeeps(cfg, vs, id); }
  }

  lemma NewVersion(cfg: Config, vs: Versions, version: Version)
    requires IndexOk(cfg, vs) && version.id == NextId(vs) && !version.active
    requires Faithful(cfg, version.docs, cfg.corpus(version.commit))
    ensures IndexOk(cfg, vs + [version]) && (Serving(vs) ==> Serving(vs + [version]))
  {
    hide Faithful, HasChunks, NextId;
    FreshId(vs);
    var out := vs + [version];
    forall j, k | 0 <= j < k < |out| ensures out[j].id != out[k].id && !(out[j].active && out[k].active) {
      assert out[j] in vs;
      if k < |vs| { assert vs[k] in vs; }
    }
  }

  lemma IngestionKeeps(cfg: Config, vs: Versions, commit: string, force: bool, faults: nat -> Option<ErrorCode>)
    requires Sound(cfg) && IndexOk(cfg, vs)
    ensures IndexOk(cfg, Ingested(cfg, vs, commit, force, faults).0)
    ensures Serving(vs) ==> Serving(Ingested(cfg, vs, commit, force, faults).0)
    ensures Ingested(cfg, vs, commit, force, faults).1.Activation?
        ==> Serving(Ingested(cfg, vs, commit, force, faults).0)
  {
    var active := ActiveOf(vs);
    var sources := cfg.corpus(commit);
    assert Apart(sources);
    NothingBuilt(cfg, sources);
    BuildIsFaithful(cfg, sources, 0, CurrentDocs(vs), if active.Some? then cfg.corpus(active.value.commit) else [],
                    commit, faults, map[]);
    hide Faithful, HasChunks, BuildFrom, Sound, NextId, IndexOk, Activated, Pruned, Serving;
    var built := BuildFrom(cfg, sources, 0, CurrentDocs(vs), commit, faults, map[]);
    if built.Stored? {
      var version := Version(NextId(vs), Validating, false, commit, built.docs);
      NewVersion(cfg, vs, version);
      NewVersion(cfg, vs, version.(status := Failed));
      if Validates(cfg, built.docs) { Publish(cfg, vs + [version], version, Keep(cfg)); }
    }
  }

  lemma NothingBuilt(cfg: Config, sources: seq<Source>)
    ensures Faithful(cfg, map[], sources[..0]) && Faithful(cfg, map[], [])
  {
  }

  lemma Publish(cfg: Config, vs: Versions, version: Version, keep: nat)
    requires IndexOk(cfg, vs) && version in vs && HasChunks(version.docs)
    ensures IndexOk(cfg, Pruned(Activated(vs, version.id), keep)) && Serving(Pruned(Activated(vs, version.id), keep))
  {
    hide Faithful, HasChunks, Pruned, Activated;
    ActivationKeeps(cfg, vs, version.id);
    PrunedPart(Activated(vs, version.id), keep);
    PrunedApart(Activated(vs, version.id), keep);
  }

  datatype Op =
    | Reindex(commit: string, force: bool, faults: nat -> Option<ErrorCode>)
    | Rollback(id: nat)

  function After(cfg: Config, vs: Versions, op: Op): Versions {
    match op
    case Reindex(commit, force, faults) => Ingested(cfg, vs, commit, force, faults).0
    case Rollback(id) => RolledBack(vs, id).0
  }

  function Replay(cfg: Config, ops: seq<Op>): Versions
    decreases |ops|
  {
    if ops == [] then [] else After(cfg, Replay(cfg, ops[..|ops| - 1]), ops[|ops| - 1])
  }

  lemma OpKeeps(cfg: Config, vs: Versions, op: Op)
    requires Sound(cfg) && IndexOk(cfg, vs)
    ensures IndexOk(cfg, After(cfg, vs, op)) && (Serving(vs) ==> Serving(After(cfg, vs, op)))
  {
    hide Sound, IndexOk, Serving, Ingested, RolledBack;
    match op
    case Reindex(commit, force, faults) => IngestionKeeps(cfg, vs, commit, force, faults);
    case Rollback(id) => RollbackKeeps(cfg, vs, id);
  }

  /** After any history every stored version is a full rebuild of its commit's corpus, at most one is
      active, and an active one holds a chunk. */
  lemma {:induction false} EveryHistory(cfg: Config, ops: seq<Op>)
    requires Sound(cfg)
    ensures IndexOk(cfg, Replay(cfg, ops))
    decreases |ops|
  {
    hide Sound, IndexOk, After;
    if ops != [] {
      EveryHistory(cfg, ops[..|ops| - 1]);
      OpKeeps(cfg, Replay(cfg, ops[..|ops| - 1]), ops[|ops| - 1]);
    } else {
      NoVersions(cfg);
    }
  }

  lemma NoVersions(cfg: Config)
    ensures IndexOk(cfg, [])
  {
  }

  /** Once there is an active version there always is one. */
  lemma {:induction false} NeverLost(cfg: Config, ops: seq<Op>, n: nat)
    requires Sound(cfg) && n <= |ops| && Serving(Replay(cfg, ops[..n]))
    ensures Serving(Replay(cfg, ops))
    decreases |ops|
  {
    hide Sound, IndexOk, After, Serving;
    if n == |ops| {
      assert ops[..n] == ops;
    } else {
      var rest := ops[..|ops| - 1];
      assert rest[..n] == ops[..n];
      NeverLost(cfg, rest, n);
      EveryHistory(cfg, rest);
      OpKeeps(cfg, Replay(cfg, rest), ops[|ops| - 1]);
    }
  }

  // --- What pruning leaves ------------------------------------------------------------------------------

  /** A version survives exactly when it is active or fewer than `keep` inactive ones are newer. */
  lemma {:induction false} PruneKeepsExactly(vs: Versions, keep: nat, k: nat)
    requires IdsApart(vs) && k < |vs|
    ensures vs[k] in Pruned(vs, keep) <==> vs[k].active || Inactive(vs[k + 1..]) < keep
  {
    var rest := vs[1..];
    assert forall j :: 0 <= j < |rest| ==> rest[j] == vs[j + 1];
    assert IdsApart(rest);
    PrunedPart(rest, keep);
    if k > 0 {
      PruneKeepsExactly(rest, keep, k - 1);
      assert rest[k - 1] == vs[k] && rest[k..] == vs[k + 1..];
      assert vs[0].id != vs[k].id;
    } else {
      assert forall j :: 0 <= j < |rest| ==> rest[j] == vs[j + 1] && vs[j + 1].id != vs[0].id;
      assert vs[0] !in rest && vs[0 + 1..] == rest;
    }
  }

  predicate NewestSuperseded(vs: Versions, k: nat) {
    && k < |vs| && vs[k].status.Superseded? && !vs[k].active
    && forall j :: k < j < |vs| ==> !vs[j].status.Superseded?
  }

  lemma {:induction false} FewerInactive(vs: Versions, j: nat)
    requires j <= |vs|
    ensures Inactive(vs[j..]) <= Inactive(vs)
    decreases j
  {
    if j > 0 {
      assert vs[1..][j - 1..] == vs[j..];
      FewerInactive(vs[1..], j - 1);
    } else {
      assert vs[0..] == vs;
    }
  }

  /** The promise that a superseded version always remains holds exactly when fewer than `keep`
      inactive versions, which are then all failed builds, are newer than the newest superseded. */
  lemma RollbackTargetRemains(vs: Versions, keep: nat, k: nat)
    requires IdsApart(vs) && NewestSuperseded(vs, k)
    requires forall j :: 0 <= j < |vs| && vs[j].status.Superseded? ==> !vs[j].active
    ensures (exists v :: v in Pruned(vs, keep) && v.status.Superseded?) <==> Inactive(vs[k + 1..]) < keep
  {
    PruneKeepsExactly(vs, keep, k);
    PrunedPart(vs, keep);
    if v :| v in Pruned(vs, keep) && v.status.Superseded? {
      var j :| 0 <= j < |vs| && vs[j] == v;
      PruneKeepsExactly(vs, keep, j);
      assert j <= k;
      assert vs[j + 1..][k - j..] == vs[k + 1..];
      FewerInactive(vs[j + 1..], k - j);
    }
  }

  // --- Rolling back after an activation, over histories ---------------------------------------------------

  /** The operation activates a version. */
  predicate Activates(cfg: Config, vs: Versions, op: Op) {
    match op
    case Reindex(commit, force, faults) => Ingested(cfg, vs, commit, force, faults).1.Activation?
    case Rollback(id) => RolledBack(vs, id).1.None?
  }

  /** What a stored version can be. */
  predicate Settled(v: Version) {
    if v.active then v.status.Active? else v.status.Superseded? || v.status.Failed?
  }

  predicate AllSettled(vs: Versions) { forall v :: v in vs ==> Settled(v) }

  lemma {:induction false} ActivatedSettled(vs: Versions, id: nat)
    requires forall v :: v in vs ==> Settled(v) || v.id == id
    ensures AllSettled(Activated(vs, id))
  {
    if vs != [] { ActivatedSettled(vs[1..], id); }
  }

  /** No history leaves a superseded version active, or one half built. */
  lemma {:induction false} StatusesSettle(cfg: Config, ops: seq<Op>)
    ensures AllSettled(Replay(cfg, ops))
    decreases |ops|
  {
    hide Validates, HasChunks, BuildFrom, NextId, Activated, Pruned;
    if ops != [] {
      var vs, op := Replay(cfg, ops[..|ops| - 1]), ops[|ops| - 1];
      StatusesSettle(cfg, ops[..|ops| - 1]);
      match op
      case Rollback(id) => ActivatedSettled(vs, id);
      case Reindex(commit, _, faults) =>
        var built := BuildFrom(cfg, cfg.corpus(commit), 0, CurrentDocs(vs), commit, faults, map[]);
        if built.Stored? {
          var version := Version(NextId(vs), Validating, false, commit, built.docs);
          ActivatedSettled(vs + [version], version.id);
          PrunedPart(Activated(vs + [version], version.id), Keep(cfg));
        }
    }
  }

  lemma {:induction false} AllInactive(vs: Versions, last: Version)
    requires last.active && forall v :: v in vs ==> !v.active
    ensures Inactive(vs + [last]) == |vs|
    decreases |vs|
  {
    if vs == [] {
      assert Inactive([]) == 0 && [last][1..] == [] && vs + [last] == [last];
    } else {
      assert (vs + [last])[1..] == vs[1..] + [last];
      AllInactive(vs[1..], last);
    }
  }

  /** What pruning leaves of the versions there were when a new one takes over. */
  lemma TakenOver(vs: Versions, version: Version, keep: nat, k: nat)
    requires IdsApart(vs + [version]) && k < |vs| && Settled(vs[k])
    ensures var drafts := Activated(vs + [version], version.id);
      && (drafts[k].status.Superseded? <==> !vs[k].status.Failed?)
      && (drafts[k] in Pruned(drafts, keep) <==> |vs| - 1 - k < keep)
  {
    hide Pruned;
    var all := vs + [version];
    var drafts := Activated(all, version.id);
    ActivatedApart(all, version.id);
    forall i | 0 <= i < |vs| ensures drafts[i] == Flip(vs[i], version.id) && !drafts[i].active {
      assert all[i] == vs[i] && all[|vs|].id == version.id;
    }
    PruneKeepsExactly(drafts, keep, k);
    var last := drafts[|vs|];
    assert drafts[k + 1..] == drafts[k + 1..|vs|] + [last];
    AllInactive(drafts[k + 1..|vs|], last);
  }

  /** Over every history: after an ingestion that activates, a superseded version remains to roll back to
      if and only if the newest versions there were before, as many as are kept, are not all failed
      builds. */
  lemma RollbackTargetIff(cfg: Config, ops: seq<Op>, op: Op)
    requires Sound(cfg) && op.Reindex? && Activates(cfg, Replay(cfg, ops), op)
    ensures var vs := Replay(cfg, ops);
      (exists v :: v in Replay(cfg, ops + [op]) && v.status.Superseded?)
      <==> exists k :: 0 <= k < |vs| && |vs| - Keep(cfg) <= k && !vs[k].status.Failed?
  {
    hide Sound, Validates, BuildFrom, NextId, Activated, Pruned;
    var vs := Replay(cfg, ops);
    assert (ops + [op])[..|ops|] == ops;
    var built := BuildFrom(cfg, cfg.corpus(op.commit), 0, CurrentDocs(vs), op.commit, op.faults, map[]);
    var version := Version(NextId(vs), Validating, false, op.commit, built.docs);
    assert Replay(cfg, ops + [op]) == Pruned(Activated(vs + [version], version.id), Keep(cfg));
    EveryHistory(cfg, ops);
    StatusesSettle(cfg, ops);
    FreshId(vs);
    assert IdsApart(vs + [version]);
    SupersededRemains(vs, version, Keep(cfg));
  }

  lemma SupersededRemains(vs: Versions, version: Version, keep: nat)
    requires IdsApart(vs + [version]) && AllSettled(vs)
    ensures (exists v :: v in Pruned(Activated(vs + [version], version.id), keep) && v.status.Superseded?)
      <==> exists k :: 0 <= k < |vs| && |vs| - keep <= k && !vs[k].status.Failed?
  {
    hide Pruned, Flip;
    var drafts := Activated(vs + [version], version.id);
    PrunedPart(drafts, keep);
    if v :| v in Pruned(drafts, keep) && v.status.Superseded? {
      var k :| 0 <= k < |drafts| && drafts[k] == v;
      NewIsActive(vs, version);
      TakenOver(vs, version, keep, k);
    }
    if k :| 0 <= k < |vs| && |vs| - keep <= k && !vs[k].status.Failed? {
      TakenOver(vs, version, keep, k);
    }
  }

  lemma NewIsActive(vs: Versions, version: Version)
    ensures Activated(vs + [version], version.id)[|vs|].status.Active?
  {
  }

  // --- What is served -------------------------------------------------------------------------------------

  /** A rollback that succeeds, to a version that would not pass validation. */
  predicate Spoils(cfg: Config, vs: Versions, op: Op) {
    op.Rollback? && Find(vs, op.id).Some?
    && HasChunks(Find(vs, op.id).value.docs) && !Validates(cfg, Find(vs, op.id).value.docs)
  }

  lemma OnlyActive(vs: Versions, v: Version)
    requires OneActive(vs) && v in vs && v.active
    ensures ActiveOf(vs) == Some(v)
  {
    var a := ActiveOf(vs).value;
    var j :| 0 <= j < |vs| && vs[j] == a;
    var k :| 0 <= k < |vs| && vs[k] == v;
    if j < k { assert !(vs[j].active && vs[k].active); }
    if k < j { assert !(vs[k].active && vs[j].active); }
  }

  lemma {:induction false} ActiveSnoc(vs: Versions, v: Version)
    requires !v.active
    ensures ActiveOf(vs + [v]) == ActiveOf(vs)
  {
    if vs != [] {
      assert (vs + [v])[1..] == vs[1..] + [v];
      ActiveSnoc(vs[1..], v);
    }
  }

  /** After an activation, pruned or not, the target's documents are the ones served. */
  lemma ServedTarget(cfg: Config, vs: Versions, target: Version, keep: nat)
    requires IdsApart(vs) && target in vs
    ensures ActiveOf(Activated(vs, target.id)).Some? && CurrentDocs(Activated(vs, target.id)) == target.docs
    ensures var pruned := Pruned(Activated(vs, target.id), keep);
      ActiveOf(pruned).Some? && CurrentDocs(pruned) == target.docs
  {
    hide Pruned, Activated, Flip;
    var k :| 0 <= k < |vs| && vs[k] == target;
    var out := Activated(vs, target.id);
    ActivatedAt(vs, target.id, k);
    ActivatedApart(vs, target.id);
    assert out[k] in out;
    OnlyActive(out, out[k]);
    PrunedPart(out, keep);
    PrunedApart(out, keep);
    OnlyActive(Pruned(out, keep), out[k]);
  }

  /** Documents are being served that do not pass validation. */
  predicate ServesUnfit(cfg: Config, vs: Versions) {
    ActiveOf(vs).Some? && !Validates(cfg, ActiveOf(vs).value.docs)
  }

  lemma ReindexServes(cfg: Config, vs: Versions, op: Op)
    requires Sound(cfg) && IndexOk(cfg, vs) && op.Reindex?
    ensures ServesUnfit(cfg, After(cfg, vs, op)) <==> ServesUnfit(cfg, vs) && !Activates(cfg, vs, op)
  {
    hide Sound, Validates, BuildFrom, NextId, Activated, Pruned;
    var built := BuildFrom(cfg, cfg.corpus(op.commit), 0, CurrentDocs(vs), op.commit, op.faults, map[]);
    if built.Stored? {
      var version := Version(NextId(vs), Validating, false, op.commit, built.docs);
      ActiveSnoc(vs, version.(status := Failed));
      FreshId(vs);
      assert IdsApart(vs + [version]);
      ServedTarget(cfg, vs + [version], version, Keep(cfg));
    }
  }

  lemma RollbackServes(cfg: Config, vs: Versions, op: Op)
    requires IndexOk(cfg, vs) && op.Rollback?
    ensures ServesUnfit(cfg, After(cfg, vs, op))
            <==> Spoils(cfg, vs, op) || (ServesUnfit(cfg, vs) && !Activates(cfg, vs, op))
  {
    hide Validates, Activated, HasChunks, VersionOk;
    if Find(vs, op.id).Some? { ServedTarget(cfg, vs, Find(vs, op.id).value, 1); }
  }

  /** Operation `i` was such a rollback, and nothing has been activated since. */
  ghost predicate SpoiledAt(cfg: Config, ops: seq<Op>, i: nat)
    requires i < |ops|
  {
    Spoils(cfg, Replay(cfg, ops[..i]), ops[i])
    && forall k :: i < k < |ops| ==> !Activates(cfg, Replay(cfg, ops[..k]), ops[k])
  }

  lemma SpoiledLonger(cfg: Config, ops: seq<Op>, i: nat)
    requires i < |ops| - 1
    ensures var last := |ops| - 1;
      SpoiledAt(cfg, ops, i) <==> SpoiledAt(cfg, ops[..last], i) && !Activates(cfg, Replay(cfg, ops[..last]), ops[last])
  {
    hide Spoils, Activates, Replay;
    var last := |ops| - 1;
    assert forall k :: 0 <= k <= last ==> ops[..last][..k] == ops[..k];
  }

  lemma SpoiledNow(cfg: Config, ops: seq<Op>)
    requires ops != []
    ensures var last := |ops| - 1; SpoiledAt(cfg, ops, last) <==> Spoils(cfg, Replay(cfg, ops[..last]), ops[last])
  {
    hide Spoils, Replay;
  }

  lemma ReindexNeverSpoils(cfg: Config, vs: Versions, op: Op)
    requires op.Reindex?
    ensures !Spoils(cfg, vs, op)
  {
  }

  lemma NothingServed(cfg: Config)
    ensures !ServesUnfit(cfg, [])
  {
  }

  /** Over every history: what is served fails validation if and only if the last activation was a
      rollback to a version that fails it, which the caller could have seen before the call. */
  lemma {:induction false} ServesUnfitIff(cfg: Config, ops: seq<Op>)
    requires Sound(cfg)
    ensures ServesUnfit(cfg, Replay(cfg, ops)) <==> exists i :: 0 <= i < |ops| && SpoiledAt(cfg, ops, i)
    decreases |ops|
  {
    hide Sound, ServesUnfit, Activates, Spoils, After, IndexOk, SpoiledAt;
    if ops == [] {
      NothingServed(cfg);
    } else {
      var last := |ops| - 1;
      var vs := Replay(cfg, ops[..last]);
      ServesUnfitIff(cfg, ops[..last]);
      EveryHistory(cfg, ops[..last]);
      if ops[last].Reindex? {
        ReindexServes(cfg, vs, ops[last]);
        ReindexNeverSpoils(cfg, vs, ops[last]);
      } else {
        RollbackServes(cfg, vs, ops[last]);
      }
      forall i | 0 <= i < last
        ensures SpoiledAt(cfg, ops, i) <==> SpoiledAt(cfg, ops[..last], i) && !Activates(cfg, vs, ops[last])
      {
        SpoiledLonger(cfg, ops, i);
      }
      SpoiledNow(cfg, ops);
    }
  }

  // --- Histories in which the documented promises fail ------------------------------------------------------

  /** A corpus of one document, whose chunk at commit "bad" comes out over the maximum, as a chunk can
      whose breadcrumbs are added to a full body. */
  function Shop(retention: int): Config {
    Config(
      commit => [Source("p", commit)],
      text => text,
      (s: Source) => Some([Chunk(s.text, if s.text == "bad" then 2 else 1, Some([1.0]), 1, "u")]),
      1, 1, retention)
  }

  lemma ShopSound(retention: int)
    ensures Sound(Shop(retention))
  {
  }

  function ShopDocs(retention: int, commit: string): Docs {
    map["p" := Doc(commit, Shop(retention).build(Source("p", commit)).value, commit)]
  }

  lemma ShopFits(retention: int, commit: string)
    requires commit != ""
    ensures Validates(Shop(retention), ShopDocs(retention, commit)) <==> commit != "bad"
    ensures HasChunks(ShopDocs(retention, commit))
  {
    var docs := ShopDocs(retention, commit);
    assert "p" in docs && docs["p"].chunks != [];
    assert ChunkOk(Shop(retention), docs["p"].chunks[0]) <==> commit != "bad";
  }

  const CALM: nat -> Option<ErrorCode> := _ => None

  /** A commit not seen before is built from its source. */
  lemma ShopBuilds(retention: int, current: Docs, commit: string)
    requires "p" in current ==> current["p"].hash != commit
    ensures BuildFrom(Shop(retention), Shop(retention).corpus(commit), 0, current, commit, CALM, map[])
         == Stored(ShopDocs(retention, commit))
  {
    var cfg := Shop(retention);
    var sources := cfg.corpus(commit);
    assert BuildFrom(cfg, sources, 1, current, commit, CALM, ShopDocs(retention, commit))
        == Stored(ShopDocs(retention, commit));
  }

  /** A first build, then one whose validation fails. */
  function ShopOps(): seq<Op> { [Reindex("good", false, CALM), Reindex("bad", false, CALM)] }

  lemma ShopAfterTwo(retention: int)
    ensures Replay(Shop(retention), ShopOps())
         == [Version(0, Active, true, "good", ShopDocs(retention, "good")),
             Version(1, Failed, false, "bad", ShopDocs(retention, "bad"))]
  {
    var cfg := Shop(retention);
    hide BuildFrom, Validates;
    ShopBuilds(retention, map[], "good");
    ShopFits(retention, "good");
    var first := Version(0, Validating, false, "good", ShopDocs(retention, "good"));
    var one := [first.(active := true, status := Active)];
    assert NextId([]) == 0 && Activated([first], 0) == one && Pruned(one, Keep(cfg)) == one;
    assert After(cfg, [], Reindex("good", false, CALM)) == one;
    ShopBuilds(retention, ShopDocs(retention, "good"), "bad");
    ShopFits(retention, "bad");
    assert NextId(one) == 1;
    assert ShopOps()[..1] == [Reindex("good", false, CALM)] && ShopOps()[..1][..0] == [];
  }

  /** A rollback asks only for chunks: here it puts the failed build in the place of the good one. */
  lemma RollbackCanServeAFailedBuild()
    ensures Sound(Shop(1))
    ensures var before, after := Replay(Shop(1), ShopOps()), Replay(Shop(1), ShopOps() + [Rollback(1)]);
      && !ServesUnfit(Shop(1), before) && ActiveOf(before).Some?
      && ServesUnfit(Shop(1), after) && ActiveOf(after).value.docs == before[1].docs && before[1].status.Failed?
  {
    ShopSound(1);
    ShopAfterTwo(1);
    ShopFits(1, "good");
    ShopFits(1, "bad");
    hide Validates, HasChunks;
    var before := Replay(Shop(1), ShopOps());
    var ops := ShopOps() + [Rollback(1)];
    assert ops[..|ops| - 1] == ShopOps();
    assert Activated(before, 1)
        == [before[0].(active := false, status := Superseded), before[1].(active := true, status := Active)];
  }

  /** And with one build failed since, a retention of one evicts the version that was serving: the
      next activation leaves only the failed build to roll back to. */
  lemma FailedBuildEvicts()
    ensures Replay(Shop(1), ShopOps() + [Reindex("better", false, CALM)])
         == [Version(1, Failed, false, "bad", ShopDocs(1, "bad")),
             Version(2, Active, true, "better", ShopDocs(1, "better"))]
  {
    ShopAfterTwo(1);
    ShopBuilds(1, ShopDocs(1, "good"), "better");
    ShopFits(1, "better");
    hide BuildFrom, Validates;
    var before := Replay(Shop(1), ShopOps());
    var ops := ShopOps() + [Reindex("better", false, CALM)];
    assert ops[..|ops| - 1] == ShopOps() && before[..1] == [before[0]] && NextId(before) == 2;
    var made := Version(2, Validating, false, "better", ShopDocs(1, "better"));
    EvictsServing(before[0], before[1], made);
  }

  lemma EvictsServing(a: Version, b: Version, c: Version)
    requires a.active && !b.active && !c.active
    requires a.id != b.id && b.id != c.id && a.id != c.id
    ensures Pruned(Activated([a, b] + [c], c.id), 1) == [b, c.(active := true, status := Active)]
  {
    var off := a.(active := false, status := Superseded);
    var on := c.(active := true, status := Active);
    var out := Activated([a, b] + [c], c.id);
    assert out == [off, b, on];
    assert out[1..] == [b, on] && out[1..][1..] == [on] && out[1..][1..][1..] == [];
    assert Inactive([on]) == 0 && Inactive([b, on]) == 1;
    assert Pruned([on], 1) == [on] && Pruned([b, on], 1) == [b, on];
  }
}
