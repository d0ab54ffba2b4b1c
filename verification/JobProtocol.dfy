/** The answering-job protocol as a transition system: API processes, any number of workers,
    worker deaths and lease expiry, over one job table, one queue, one lease per job and one
    relay stream per job. Every step is one atomic effect on a store; a commit or a publish
    may raise. */
module JobProtocol {
  import opened Options
  import opened JobModel

  /** Everything the processes share: tables, queue, leases, streams. */
  datatype Shared = Shared(
    jobs: map<JobId, Job>,
    turns: map<ConversationId, seq<Turn>>,
    queue: seq<JobId>,
    leases: map<JobId, WorkerId>,
    streams: map<JobId, Stream>)

  function TurnsOf(d: Shared, c: ConversationId): seq<Turn> {
    if c in d.turns then d.turns[c] else []
  }

  function StreamOf(d: Shared, j: JobId): Stream {
    if j in d.streams then d.streams[j] else []
  }

  /** A job that still owes its reader an outcome. */
  predicate Open(d: Shared, j: JobId) {
    j in d.jobs && !Terminal(d.jobs[j].status)
  }

  // --- Store operations ------------------------------------------------------

  function CommitRow(d: Shared, j: JobId, row: Job): Shared {
    d.(jobs := d.jobs[j := row])
  }

  function AppendTurn(d: Shared, c: ConversationId, turn: Turn): Shared {
    d.(turns := d.turns[c := TurnsOf(d, c) + [turn]])
  }

  /** LPUSH; BRPOP takes from the other end. */
  function Push(d: Shared, j: JobId): Shared {
    d.(queue := [j] + d.queue)
  }

  function Append(d: Shared, j: JobId, e: Event): Shared {
    d.(streams := d.streams[j := StreamOf(d, j) + [e]])
  }

  /** SET NX: a lease is only taken where there is none. */
  function TakeLease(d: Shared, j: JobId, w: WorkerId): Shared {
    if j in d.leases then d else d.(leases := d.leases[j := w])
  }

  /** DEL, whoever the owner is. */
  function DropLease(d: Shared, j: JobId): Shared {
    d.(leases := d.leases - {j})
  }

  /** The row persist_turn and the COMPLETED transition commit together. */
  function Complete(d: Shared, j: JobId, row: Job, reply: Reply): Shared {
    CommitRow(
      AppendTurn(d, row.conversation, AssistantTurn(j, reply)),
      j, Record(row, Completed, reply.code))
  }

  predicate MayRetry(row: Job, transient: bool) {
    transient && row.attempt < row.maxAttempts
  }

  /** The next entry of the relayed answer: a chunk while text is left, then the whole. */
  function RelayEntry(reply: Reply, next: nat, size: nat): Event {
    if next * size < |reply.content| then DeltaEvent(Chunk(reply.content, next, size)) else FinalEvent(reply)
  }

  // --- Processes -------------------------------------------------------------

  /** Where one attempt stands. The point names what the worker does next. */
  datatype Point =
    | AtStart
    | AtRetrievingStatus
    | AtHistory
    | AtGeneratingStatus
    | AtAgent
    | AtPersist(reply: Reply)
    | AtRelay(reply: Reply, next: nat)
    | AtFailing(transient: bool, error: ErrorCode)
    | AtRetryingStatus
    | AtRequeue
    | AtErrorEvent

  datatype Phase =
    | Booting(todo: seq<JobId>)
    | SawNoLease(job: JobId, todo: seq<JobId>)
    | SawNotQueued(job: JobId, todo: seq<JobId>)
    | Idle
    | Popped(job: JobId)
    | Leased(job: JobId)
    | Working(job: JobId, row: Job, at: Point)
    | Releasing(job: JobId)

  /** `arriving` are jobs committed by the API and not yet enqueued. `issued`, `answered` and
      `raised` are history: the ids ever created, the answer each completed job persisted, and
      the jobs one of whose answer publishes raised. */
  datatype System = System(
    data: Shared,
    workers: map<WorkerId, Phase>,
    arriving: set<JobId>,
    issued: set<JobId>,
    answered: map<JobId, Reply>,
    raised: set<JobId>)

  const Init := System(Shared(map[], map[], [], map[], map[]), map[], {}, {}, map[], {})

  /** Between acquire_lease and release_lease. */
  predicate Holds(p: Phase, j: JobId) {
    || (p.Leased? && p.job == j)
    || (p.Working? && p.job == j)
    || (p.Releasing? && p.job == j)
  }

  datatype PublishResult = Published | RaisedAfterAppend | RaisedBefore

  datatype Step =
    | Submit(job: JobId, conversation: ConversationId, key: string, question: string, maxAttempts: nat)
    | Enqueue(job: JobId)
    | ApiDies(job: JobId)
    | DeleteConversation(conversation: ConversationId)
    | Start(worker: WorkerId, rows: seq<JobId>)
    | Reclaim(worker: WorkerId)
    | Pop(worker: WorkerId)
    | Take(worker: WorkerId)
    | Read(worker: WorkerId)
    | Commit(worker: WorkerId, ok: bool)
    | Publish(worker: WorkerId, result: PublishResult)
    | Trace(worker: WorkerId, step: string, ok: bool)
    | Raise(worker: WorkerId, transient: bool, error: ErrorCode)
    | Answer(worker: WorkerId, reply: Reply)
    | Requeue(worker: WorkerId, ok: bool)
    | Cancel(worker: WorkerId)
    | Release(worker: WorkerId, ok: bool)
    | Die(worker: WorkerId)
    | Expire(job: JobId)

  function Goto(s: System, w: WorkerId, p: Phase): System {
    s.(workers := s.workers[w := p])
  }

  predicate CommitDue(p: Phase) {
    p.Working? && (p.at.AtStart? || p.at.AtHistory? || p.at.AtPersist? || p.at.AtFailing?)
  }

  predicate PublishDue(p: Phase) {
    p.Working? &&
    (p.at.AtRetrievingStatus? || p.at.AtGeneratingStatus? || p.at.AtRelay?
     || p.at.AtRetryingStatus? || p.at.AtErrorEvent?)
  }

  ghost predicate Enabled(s: System, step: Step) {
    match step
    // A fresh uuid, and a key no row carries: the unique constraint.
    case Submit(j, c, key, _, max) =>
      j !in s.issued && max >= 1 && forall k :: k in s.data.jobs ==> s.data.jobs[k].key != key
    case Enqueue(j) => j in s.arriving
    case ApiDies(j) => j in s.arriving
    case DeleteConversation(c) =>
      forall j :: j in s.data.jobs && s.data.jobs[j].conversation == c ==> Terminal(s.data.jobs[j].status)
    case Start(w, rows) =>
      w !in s.workers && forall j :: j in rows <==> Open(s.data, j)
    case Reclaim(w) =>
      w in s.workers && (s.workers[w].Booting? || s.workers[w].SawNoLease? || s.workers[w].SawNotQueued?)
    case Pop(w) => w in s.workers && s.workers[w].Idle? && s.data.queue != []
    case Take(w) => w in s.workers && s.workers[w].Popped?
    case Read(w) => w in s.workers && s.workers[w].Leased?
    case Commit(w, _) => w in s.workers && CommitDue(s.workers[w])
    case Publish(w, _) => w in s.workers && PublishDue(s.workers[w])
    case Trace(w, _, _) => w in s.workers && s.workers[w].Working? && s.workers[w].at.AtAgent?
    case Raise(w, _, _) =>
      w in s.workers && s.workers[w].Working? && (s.workers[w].at.AtHistory? || s.workers[w].at.AtAgent?)
    case Answer(w, _) => w in s.workers && s.workers[w].Working? && s.workers[w].at.AtAgent?
    case Requeue(w, _) => w in s.workers && s.workers[w].Working? && s.workers[w].at.AtRequeue?
    case Cancel(w) => w in s.workers && (s.workers[w].Popped? || s.workers[w].Leased? || s.workers[w].Working?)
    case Release(w, _) => w in s.workers && s.workers[w].Releasing?
    case Die(w) => w in s.workers
    // The timing assumption: the heartbeat outlives the TTL, so a lease only lapses when no
    // live worker is between acquire and release.
    case Expire(j) => j in s.data.leases && forall w :: w in s.workers ==> !Holds(s.workers[w], j)
  }

  function ReclaimStep(s: System, w: WorkerId, p: Phase): System
    requires p.Booting? || p.SawNoLease? || p.SawNotQueued?
  {
    match p
    case Booting(todo) =>
      if todo == [] then Goto(s, w, Idle)
      else if todo[0] in s.data.leases then Goto(s, w, Booting(todo[1..]))
      else Goto(s, w, SawNoLease(todo[0], todo[1..]))
    case SawNoLease(j, todo) =>
      if j in s.data.queue then Goto(s, w, Booting(todo)) else Goto(s, w, SawNotQueued(j, todo))
    case SawNotQueued(j, todo) => Goto(s.(data := Push(s.data, j)), w, Booting(todo))
  }

  function ReadStep(s: System, w: WorkerId, j: JobId): System {
    if j !in s.data.jobs || Terminal(s.data.jobs[j].status) then Goto(s, w, Releasing(j))
    else Goto(s, w, Working(j, s.data.jobs[j], AtStart))
  }

  /** A commit that goes through. The failure handler has rolled back and read the row again. */
  function CommitStep(s: System, w: WorkerId, p: Phase): System
    requires CommitDue(p)
  {
    var j := p.job;
    match p.at
    case AtStart =>
      var row := Record(p.row.(attempt := p.row.attempt + 1), Retrieving, None);
      Goto(s.(data := CommitRow(s.data, j, row)), w, Working(j, row, AtRetrievingStatus))
    case AtHistory =>
      var row := Record(p.row, Generating, None);
      Goto(s.(data := CommitRow(s.data, j, row)), w, Working(j, row, AtGeneratingStatus))
    case AtPersist(reply) =>
      var row := Record(p.row, Completed, reply.code);
      Goto(s.(data := Complete(s.data, j, p.row, reply), answered := s.answered[j := reply]),
           w, Working(j, row, AtRelay(reply, 0)))
    case AtFailing(transient, error) =>
      if j !in s.data.jobs then Goto(s, w, Releasing(j))
      else
        var current := s.data.jobs[j];
        if MayRetry(current, transient) then
          var row := Record(current, Retrying, Some(error));
          Goto(s.(data := CommitRow(s.data, j, row)), w, Working(j, row, AtRetryingStatus))
        else
          var row := Record(current, Failed, Some(error));
          Goto(s.(data := CommitRow(s.data, j, row)), w, Working(j, row, AtErrorEvent))
  }

  /** A commit that raises inside the attempt goes to the failure handler as an unexpected
      error; one that raises inside the handler escapes, and only the lease is given back. */
  function CommitRaises(s: System, w: WorkerId, p: Phase): System
    requires CommitDue(p)
  {
    if p.at.AtFailing? then Goto(s, w, Releasing(p.job))
    else Goto(s, w, Working(p.job, p.row, AtFailing(false, INTERNAL_ERROR)))
  }

  function DueEvent(p: Phase, size: nat): Event
    requires PublishDue(p)
  {
    match p.at
    case AtRetrievingStatus => StatusEvent(Retrieving, p.row.attempt)
    case AtGeneratingStatus => StatusEvent(Generating, p.row.attempt)
    case AtRelay(reply, next) => RelayEntry(reply, next, size)
    case AtRetryingStatus => StatusEvent(Retrying, p.row.attempt)
    case AtErrorEvent => ErrorEvent(p.row.error.GetOr(INTERNAL_ERROR))
  }

  function AfterPublish(p: Phase, size: nat): Phase
    requires PublishDue(p)
  {
    match p.at
    case AtRetrievingStatus => p.(at := AtHistory)
    case AtGeneratingStatus => p.(at := AtAgent)
    case AtRelay(reply, next) =>
      if next * size < |reply.content| then p.(at := AtRelay(reply, next + 1)) else Releasing(p.job)
    case AtRetryingStatus => p.(at := AtRequeue)
    case AtErrorEvent => Releasing(p.job)
  }

  function AfterPublishRaises(p: Phase): Phase
    requires PublishDue(p)
  {
    if p.at.AtRetryingStatus? || p.at.AtErrorEvent? then Releasing(p.job)
    else p.(at := AtFailing(false, INTERNAL_ERROR))
  }

  function PublishStep(cfg: Settings, s: System, w: WorkerId, p: Phase, result: PublishResult): System
    requires PublishDue(p)
  {
    var size := cfg.streamChunkChars;
    var appended := Append(s.data, p.job, DueEvent(p, size));
    var raised := if p.at.AtRelay? then s.raised + {p.job} else s.raised;
    match result
    case Published => Goto(s.(data := appended), w, AfterPublish(p, size))
    case RaisedAfterAppend => Goto(s.(data := appended, raised := raised), w, AfterPublishRaises(p))
    case RaisedBefore => Goto(s.(raised := raised), w, AfterPublishRaises(p))
  }

  ghost function Apply(cfg: Settings, s: System, step: Step): System
    requires Enabled(s, step)
  {
    match step
    case Submit(j, c, key, question, max) =>
      s.(data := CommitRow(AppendTurn(s.data, c, UserTurn(j, question)), j, NewJob(c, key, question, max)),
         arriving := s.arriving + {j},
         issued := s.issued + {j})
    case Enqueue(j) => s.(data := Push(s.data, j), arriving := s.arriving - {j})
    case ApiDies(j) => s.(arriving := s.arriving - {j})
    case DeleteConversation(c) =>
      s.(data := s.data.(
           jobs := map j | j in s.data.jobs && s.data.jobs[j].conversation != c :: s.data.jobs[j],
           turns := s.data.turns - {c}))
    case Start(w, rows) => Goto(s, w, Booting(rows))
    case Reclaim(w) => ReclaimStep(s, w, s.workers[w])
    case Pop(w) =>
      var last := |s.data.queue| - 1;
      Goto(s.(data := s.data.(queue := s.data.queue[..last])), w, Popped(s.data.queue[last]))
    case Take(w) =>
      var j := s.workers[w].job;
      if j in s.data.leases then Goto(s, w, Idle)
      else Goto(s.(data := TakeLease(s.data, j, w)), w, Leased(j))
    case Read(w) => ReadStep(s, w, s.workers[w].job)
    case Commit(w, ok) =>
      if ok then CommitStep(s, w, s.workers[w]) else CommitRaises(s, w, s.workers[w])
    case Publish(w, result) => PublishStep(cfg, s, w, s.workers[w], result)
    case Trace(w, text, ok) =>
      if ok then s.(data := Append(s.data, s.workers[w].job, TraceEvent(text))) else s
    case Raise(w, transient, error) => Goto(s, w, s.workers[w].(at := AtFailing(transient, error)))
    case Answer(w, reply) => Goto(s, w, s.workers[w].(at := AtPersist(reply)))
    case Requeue(w, ok) =>
      var j := s.workers[w].job;
      Goto(if ok then s.(data := Push(s.data, j)) else s, w, Releasing(j))
    // Whatever escapes past the lease gives it back; before the lease there is nothing to give.
    case Cancel(w) => Goto(s, w, if s.workers[w].Popped? then Idle else Releasing(s.workers[w].job))
    case Release(w, ok) =>
      var j := s.workers[w].job;
      Goto(if ok then s.(data := DropLease(s.data, j)) else s, w, Idle)
    case Die(w) => s.(workers := s.workers - {w})
    case Expire(j) => s.(data := DropLease(s.data, j))
  }

  ghost predicate Next(cfg: Settings, s: System, t: System) {
    exists step :: Enabled(s, step) && t == Apply(cfg, s, step)
  }

  /** A run: a sequence of states from the empty system, each the successor of the last. */
  ghost predicate Run(cfg: Settings, run: seq<System>) {
    && |run| > 0
    && run[0] == Init
    && forall i :: 0 < i < |run| ==> Next(cfg, run[i - 1], run[i])
  }

  ghost predicate Reachable(cfg: Settings, s: System) {
    exists run :: Run(cfg, run) && run[|run| - 1] == s
  }
}
