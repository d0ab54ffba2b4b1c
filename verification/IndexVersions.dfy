/** Index versions: incremental builds, validation, activation, pruning and rollback. */
module IndexVersions {
  import opened Options

  datatype Chunk = Chunk(text: string, tokens: int, vector: Option<seq<real>>, dimensions: int, url: string)

  /** A stored document with its chunks; `commit` is the one it was first built from. */
  datatype Doc = Doc(hash: string, chunks: seq<Chunk>, commit: string)

  type Docs = map<string, Doc>

  datatype Status = Validating | Active | Superseded | Failed

  datatype Version = Version(id: nat, status: Status, active: bool, commit: string, docs: Docs)

  datatype Source = Source(path: string, text: string)

  datatype ErrorCode = INDEX_VALIDATION_FAILED | NO_ACTIVE_INDEX | DOCUMENT_PARSE_FAILED | Other(code: string)

  /** What is fixed over a history: the corpus at each commit, the content hash, what parsing,
      chunking and embedding make of a document (nothing when it cannot be parsed), and settings. */
  datatype Config = Config(
    corpus: string -> seq<Source>,
    hash: string -> string,
    build: Source -> Option<seq<Chunk>>,
    dimensions: int,
    maxTokens: int,
    retention: int)

  // --- One document ---------------------------------------------------------------------------------

  datatype Built = Stored(docs: Docs) | Raised(error: ErrorCode)

  function Ingest(cfg: Config, s: Source, commit: string, docs: Docs): Built {
    match cfg.build(s)
    case None => Raised(DOCUMENT_PARSE_FAILED)
    case Some(chunks) =>
      Stored(if chunks == [] then docs else docs[s.path := Doc(cfg.hash(s.text), chunks, commit)])
  }

  predicate Unchanged(cfg: Config, s: Source, current: Docs) {
    s.path in current && current[s.path].hash == cfg.hash(s.text)
  }

  /** The documents from the `i`th source on; `faults` are the errors the embedding gateway or the
      database raises on the way, wherever they do. */
  function BuildFrom(cfg: Config, sources: seq<Source>, i: nat, current: Docs, commit: string,
                     faults: nat -> Option<ErrorCode>, docs: Docs): Built
    requires i <= |sources|
    decreases |sources| - i
  {
    if i == |sources| then Stored(docs)
    else if faults(i).Some? then Raised(faults(i).value)
    else
      var s := sources[i];
      if Unchanged(cfg, s, current) then
        BuildFrom(cfg, sources, i + 1, current, commit, faults, docs[s.path := current[s.path]])
      else
        match Ingest(cfg, s, commit, docs)
        case Raised(error) => Raised(error)
        case Stored(more) => BuildFrom(cfg, sources, i + 1, current, commit, faults, more)
  }

  // --- Versions -------------------------------------------------------------------------------------

  predicate HasChunks(docs: Docs) { exists p :: p in docs && docs[p].chunks != [] }

  predicate ChunkOk(cfg: Config, c: Chunk) {
    c.vector.Some? && c.dimensions == cfg.dimensions && c.tokens <= cfg.maxTokens && c.url != ""
  }

  predicate DocOk(cfg: Config, d: Doc) {
    (forall k :: 0 <= k < |d.chunks| ==> ChunkOk(cfg, d.chunks[k])) && (d.chunks != [] ==> d.commit != "")
  }

  predicate Validates(cfg: Config, docs: Docs) {
    docs != map[] && HasChunks(docs) && forall p :: p in docs ==> DocOk(cfg, docs[p])
  }

  /** Versions in the order of their creation, the newest last. */
  type Versions = seq<Version>

  function ActiveOf(vs: Versions): (active: Option<Version>)
    ensures active.Some? ==> active.value in vs && active.value.active
    ensures active.None? ==> forall v :: v in vs ==> !v.active
  {
    if vs == [] then None else if vs[0].active then Some(vs[0]) else ActiveOf(vs[1..])
  }

  function Find(vs: Versions, id: nat): (found: Option<Version>)
    ensures found.Some? ==> found.value in vs && found.value.id == id
    ensures found.None? ==> forall v :: v in vs ==> v.id != id
  {
    if vs == [] then None else if vs[0].id == id then Some(vs[0]) else Find(vs[1..], id)
  }

  function Flip(v: Version, id: nat): Version {
    var off := if v.active then v.(active := false, status := Superseded) else v;
    if v.id == id then off.(active := true, status := Active) else off
  }

  /** Whatever was active no longer is; `id` is. */
  function Activated(vs: Versions, id: nat): (out: Versions)
    ensures |out| == |vs| && forall k :: 0 <= k < |vs| ==> out[k] == Flip(vs[k], id)
  {
    if vs == [] then [] else [Flip(vs[0], id)] + Activated(vs[1..], id)
  }

  function Inactive(vs: Versions): nat {
    if vs == [] then 0 else (if vs[0].active then 0 else 1) + Inactive(vs[1..])
  }

  /** The active version, and the newest `keep` others. */
  function Pruned(vs: Versions, keep: nat): Versions {
    if vs == [] then []
    else (if vs[0].active || Inactive(vs[1..]) < keep then [vs[0]] else []) + Pruned(vs[1..], keep)
  }

  function Keep(cfg: Config): nat { if cfg.retention > 1 then cfg.retention else 1 }

  function NextId(vs: Versions): nat {
    if vs == [] then 0
    else
      var last, rest := vs[|vs| - 1].id + 1, NextId(vs[..|vs| - 1]);
      if last > rest then last else rest
  }

  datatype Report = NoChange | Activation | ValidationFailed | BuildFailed(error: ErrorCode)

  function CurrentDocs(vs: Versions): Docs {
    if ActiveOf(vs).Some? then ActiveOf(vs).value.docs else map[]
  }

  function Ingested(cfg: Config, vs: Versions, commit: string, force: bool,
                    faults: nat -> Option<ErrorCode>): (Versions, Report) {
    if ActiveOf(vs).Some? && ActiveOf(vs).value.commit == commit && !force then (vs, NoChange)
    else
      match BuildFrom(cfg, cfg.corpus(commit), 0, CurrentDocs(vs), commit, faults, map[])
      case Raised(error) => (vs, BuildFailed(error))
      case Stored(docs) =>
        var version := Version(NextId(vs), Validating, false, commit, docs);
        if Validates(cfg, docs) then (Pruned(Activated(vs + [version], version.id), Keep(cfg)), Activation)
        else (vs + [version.(status := Failed)], ValidationFailed)
  }

  function RolledBack(vs: Versions, id: nat): (Versions, Option<ErrorCode>) {
    match Find(vs, id)
    case None => (vs, Some(NO_ACTIVE_INDEX))
    case Some(v) =>
      if HasChunks(v.docs) then (Activated(vs, id), None) else (vs, Some(INDEX_VALIDATION_FAILED))
  }

  // --- The store --------------------------------------------------------------------------------------

  /** The version table. What a run writes becomes visible when it commits; until then, and when it
      fails, the table is as it was. */
  class Index {
    const cfg: Config
    var versions: Versions

    constructor (cfg: Config)
      ensures this.cfg == cfg && versions == []
    {
      this.cfg, versions := cfg, [];
    }

    /** The documents of a new version, carried forward or built. */
    method Build(commit: string, faults: nat -> Option<ErrorCode>) returns (built: Built)
      ensures built == BuildFrom(cfg, cfg.corpus(commit), 0, CurrentDocs(versions), commit, faults, map[])
    {
      hide Ingest;
      var sources := cfg.corpus(commit);
      var current := CurrentDocs(versions);
      var docs: Docs := map[];
      for i := 0 to |sources|
        invariant BuildFrom(cfg, sources, i, current, commit, faults, docs)
               == BuildFrom(cfg, sources, 0, current, commit, faults, map[])
      {
        if faults(i).Some? { return Raised(faults(i).value); }
        var s := sources[i];
        if Unchanged(cfg, s, current) {
          docs := Carry(s.path, current, docs);
        } else {
          var step := Ingest(cfg, s, commit, docs);
          if step.Raised? { return step; }
          docs := step.docs;
        }
      }
      built := Stored(docs);
    }

    /** Copy an unchanged document, with its vectors and the commit it was built from. */
    method Carry(path: string, current: Docs, docs: Docs) returns (out: Docs)
      requires path in current
      ensures out == docs[path := current[path]]
    {
      var previous := current[path];
      out := docs[path := Doc(previous.hash, previous.chunks, previous.commit)];
    }

    method RunIngestion(commit: string, force: bool, faults: nat -> Option<ErrorCode>) returns (report: Report)
      modifies this
      ensures (versions, report) == Ingested(cfg, old(versions), commit, force, faults)
    {
      hide BuildFrom, Validates, Pruned, Activated, NextId;
      var current := ActiveOf(versions);
      if current.Some? && current.value.commit == commit && !force { return NoChange; }
      var built := Build(commit, faults);
      if built.Raised? { return BuildFailed(built.error); }
      var version := Version(NextId(versions), Validating, false, commit, built.docs);
      var draft := versions + [version];
      if !Validates(cfg, built.docs) {
        draft := draft[|draft| - 1 := version.(status := Failed)];
        assert draft == versions + [version.(status := Failed)];
        versions := draft;
        return ValidationFailed;
      }
      draft := Activated(draft, version.id);
      draft := Pruned(draft, Keep(cfg));
      versions := draft;
      report := Activation;
    }

    method RollbackTo(id: nat) returns (error: Option<ErrorCode>)
      modifies this
      ensures (versions, error) == RolledBack(old(versions), id)
    {
      var target := Find(versions, id);
      if target.None? { return Some(NO_ACTIVE_INDEX); }
      if !HasChunks(target.value.docs) { return Some(INDEX_VALIDATION_FAILED); }
      versions := Activated(versions, id);
      error := None;
    }
  }
}
