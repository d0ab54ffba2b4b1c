/** What every reachable state of the job protocol satisfies. */
module JobSafety {
  import opened Options
  import opened JobModel
  import opened JobProtocol

  // --- The invariant ---------------------------------------------------------

  predicate About(t: Turn, j: JobId, assistant: bool) {
    t.job == j && t.AssistantTurn? == assistant
  }

  function TurnCount(turns: seq<Turn>, j: JobId, assistant: bool): nat {
    if turns == [] then 0
    else
      TurnCount(turns[..|turns| - 1], j, assistant)
      + if About(turns[|turns| - 1], j, assistant) then 1 else 0
  }

  lemma TurnCountAppend(turns: seq<Turn>, t: Turn, j: JobId, assistant: bool)
    ensures TurnCount(turns + [t], j, assistant)
         == TurnCount(turns, j, assistant) + if About(t, j, assistant) then 1 else 0
  {
    assert (turns + [t])[..|turns|] == turns;
  }

  lemma {:induction false} NoTurns(turns: seq<Turn>, j: JobId, assistant: bool)
    requires forall i :: 0 <= i < |turns| ==> turns[i].job != j
    ensures TurnCount(turns, j, assistant) == 0
  {
    if turns != [] {
      NoTurns(turns[..|turns| - 1], j, assistant);
    }
  }

  ghost predicate RowOk(row: Job) {
    && ValidHistory(row.transitions)
    && row.transitions[|row.transitions| - 1] == Transition(row.status, row.error)
    && Count(row.transitions, Retrieving) == row.attempt
    && Count(row.transitions, Retrying) < row.maxAttempts
  }

  function AnswerOf(s: System, j: JobId): Option<Reply> {
    if j in s.answered then Some(s.answered[j]) else None
  }

  ghost predicate JobShape(j: JobId, row: Job, turns: seq<Turn>, answer: Option<Reply>, raised: bool, stream: Stream) {
    && RowOk(row)
    && TurnCount(turns, j, false) == 1
    && TurnCount(turns, j, true) == (if answer.Some? then 1 else 0)
    && (answer.Some? ==> AssistantTurn(j, answer.value) in turns)
    && (answer.Some? <==> Count(row.transitions, Completed) > 0)
    && (row.status.Failed? && answer.Some? ==> raised)
    && (!Terminal(row.status) ==> Below(stream, 0))
  }

  ghost predicate JobOk(s: System, j: JobId)
    requires j in s.data.jobs
  {
    var row := s.data.jobs[j];
    && j in s.issued
    && JobShape(j, row, TurnsOf(s.data, row.conversation), AnswerOf(s, j), j in s.raised, StreamOf(s.data, j))
  }

  ghost predicate StreamShape(stream: Stream, answer: Option<Reply>, raised: bool) {
    && Ordered(stream)
    && (answer.None? ==> forall i :: 0 <= i < |stream| ==> Rank(stream[i]) == 0 || Rank(stream[i]) == 3)
    && (answer.Some? ==>
          && Text(stream) <= answer.value.content
          && forall i :: 0 <= i < |stream| && stream[i].FinalEvent? ==>
               stream[i].reply == answer.value && Text(stream) == answer.value.content)
    && (answer.Some? && !raised ==> Below(stream, 2))
  }

  ghost predicate StreamOk(s: System, j: JobId) {
    && (j !in s.issued ==> StreamOf(s.data, j) == [])
    && StreamShape(StreamOf(s.data, j), AnswerOf(s, j), j in s.raised)
  }

  ghost predicate PointShape(size: nat, present: bool, row: Job, at: Point, answer: Option<Reply>, raised: bool,
                             stream: Stream) {
    match at
    case AtStart => present && !Terminal(row.status)
    case AtRetrievingStatus => present && row.status.Retrieving?
    case AtHistory => present && row.status.Retrieving?
    case AtGeneratingStatus => present && row.status.Generating?
    case AtAgent => present && row.status.Generating?
    case AtPersist(_) => present && row.status.Generating?
    case AtRelay(reply, next) =>
      && row.status.Completed?
      && answer == Some(reply)
      && Below(stream, 1)
      && Text(stream) == Relayed(reply.content, next, size)
    case AtFailing(transient, _) =>
      if row.status.Completed? then !transient && answer.Some? && raised && Below(stream, 2)
      else
        && present && !row.status.Failed?
        && (transient ==> row.status.Retrieving? || row.status.Generating?)
    case AtRetryingStatus => present && row.status.Retrying?
    case AtRequeue => present && row.status.Retrying?
    case AtErrorEvent => row.status.Failed? && Below(stream, 2) && (answer.Some? ==> raised)
  }

  ghost predicate PointOk(cfg: Settings, s: System, j: JobId, row: Job, at: Point) {
    PointShape(cfg.streamChunkChars, j in s.data.jobs, row, at, AnswerOf(s, j), j in s.raised, StreamOf(s.data, j))
  }

  ghost predicate PhaseOk(cfg: Settings, s: System, w: WorkerId, p: Phase) {
    match p
    case Leased(j) => j in s.data.leases && s.data.leases[j] == w
    case Releasing(j) => j in s.data.leases && s.data.leases[j] == w
    case Working(j, row, at) =>
      && j in s.data.leases && s.data.leases[j] == w
      && j in s.issued
      && (j in s.data.jobs ==> s.data.jobs[j] == row)
      && PointOk(cfg, s, j, row, at)
    case _ => true
  }

  ghost predicate KeysUnique(d: Shared) {
    forall j, k :: j in d.jobs && k in d.jobs && d.jobs[j].key == d.jobs[k].key ==> j == k
  }

  ghost predicate TurnsIssued(s: System) {
    forall c, i :: c in s.data.turns && 0 <= i < |s.data.turns[c]| ==> s.data.turns[c][i].job in s.issued
  }

  ghost predicate Inv(cfg: Settings, s: System) {
    && KeysUnique(s.data)
    && TurnsIssued(s)
    && (forall j :: j in s.answered ==> j in s.issued)
    && (forall j :: j in s.data.jobs ==> JobOk(s, j))
    && (forall j :: StreamOk(s, j))
    && (forall w :: w in s.workers ==> PhaseOk(cfg, s, w, s.workers[w]))
  }

  // --- Framing: what one job's step leaves alone ------------------------------

  ghost predicate SameFor(s: System, t: System, k: JobId) {
    && (k in t.data.jobs <==> k in s.data.jobs)
    && (k in t.data.jobs ==> t.data.jobs[k] == s.data.jobs[k])
    && (k in t.data.leases <==> k in s.data.leases)
    && (k in t.data.leases ==> t.data.leases[k] == s.data.leases[k])
    && StreamOf(t.data, k) == StreamOf(s.data, k)
    && (k in t.answered <==> k in s.answered)
    && (k in t.answered ==> t.answered[k] == s.answered[k])
    && (k in t.raised <==> k in s.raised)
    && (k in t.issued <==> k in s.issued)
  }

  ghost predicate TurnsGrowFor(s: System, t: System, j: JobId, c: ConversationId) {
    var before, after := TurnsOf(s.data, c), TurnsOf(t.data, c);
    after == before || (|after| == |before| + 1 && after[..|before|] == before && after[|before|].job == j)
  }

  /** `t` differs from `s` only in what concerns job `j`. */
  ghost predicate Elsewhere(s: System, t: System, j: JobId) {
    && (forall k :: k != j ==> SameFor(s, t, k))
    && (forall c :: TurnsGrowFor(s, t, j, c))
  }

  lemma TurnsGrowKeeps(s: System, t: System, j: JobId, k: JobId, c: ConversationId)
    requires TurnsGrowFor(s, t, j, c) && k != j
    ensures TurnCount(TurnsOf(t.data, c), k, false) == TurnCount(TurnsOf(s.data, c), k, false)
    ensures TurnCount(TurnsOf(t.data, c), k, true) == TurnCount(TurnsOf(s.data, c), k, true)
    ensures forall x :: x in TurnsOf(s.data, c) ==> x in TurnsOf(t.data, c)
  {
    var before, after := TurnsOf(s.data, c), TurnsOf(t.data, c);
    if after != before {
      assert after == before + [after[|before|]];
      TurnCountAppend(before, after[|before|], k, false);
      TurnCountAppend(before, after[|before|], k, true);
    }
  }

  function Worker(step: Step): Option<WorkerId> {
    match step
    case Submit(_, _, _, _, _) => None
    case Enqueue(_) => None
    case ApiDies(_) => None
    case DeleteConversation(_) => None
    case Expire(_) => None
    case _ => Some(step.worker)
  }

  ghost predicate LeasesHeld(s: System) {
    forall v, k :: v in s.workers && Holds(s.workers[v], k) ==> k in s.data.leases && s.data.leases[k] == v
  }

  /** Every worker but `w` stands where it stood, and still has its lease. */
  ghost predicate Bystanders(s: System, t: System, w: Option<WorkerId>) {
    && (forall v :: v in t.workers && w != Some(v) ==> v in s.workers && t.workers[v] == s.workers[v])
    && (forall v, k :: v in t.workers && w != Some(v) && Holds(t.workers[v], k) ==>
          k in s.data.leases && k in t.data.leases && t.data.leases[k] == s.data.leases[k])
  }

  ghost predicate ActorOk(cfg: Settings, t: System, w: Option<WorkerId>) {
    w.Some? && w.value in t.workers ==> PhaseOk(cfg, t, w.value, t.workers[w.value])
  }

  ghost predicate NobodyElse(t: System, w: Option<WorkerId>, j: JobId) {
    forall v :: v in t.workers && w != Some(v) && t.workers[v].Working? ==> t.workers[v].job != j
  }

  lemma BystanderOk(cfg: Settings, s: System, t: System, w: Option<WorkerId>, j: JobId, v: WorkerId)
    requires v in s.workers && PhaseOk(cfg, s, v, s.workers[v])
    requires v in t.workers && w != Some(v) && Bystanders(s, t, w)
    requires s.workers[v].Working? ==> SameFor(s, t, s.workers[v].job)
    ensures PhaseOk(cfg, t, v, t.workers[v])
  {
    var p := s.workers[v];
    if p.Leased? || p.Releasing? || p.Working? { assert Holds(t.workers[v], p.job); }
  }

  lemma OtherJobOk(s: System, t: System, j: JobId, k: JobId)
    requires Elsewhere(s, t, j) && k != j
    requires k in s.data.jobs && JobOk(s, k)
    ensures k in t.data.jobs && JobOk(t, k)
  {
    assert SameFor(s, t, k);
    TurnsGrowKeeps(s, t, j, k, s.data.jobs[k].conversation);
  }

  /** A step on job `j`, by worker `w` if one takes it, keeps everybody else's invariant. */
  lemma Frame(cfg: Settings, s: System, t: System, w: Option<WorkerId>, j: JobId)
    requires Inv(cfg, s) && Elsewhere(s, t, j)
    requires Bystanders(s, t, w) && ActorOk(cfg, t, w) && NobodyElse(t, w, j)
    requires j in t.data.jobs ==> JobOk(t, j)
    requires j in t.answered ==> j in t.issued
    requires StreamOk(t, j)
    requires KeysUnique(t.data) && TurnsIssued(t)
    ensures Inv(cfg, t)
  {
    forall k | k in t.data.jobs ensures JobOk(t, k) {
      if k != j {
        assert SameFor(s, t, k);
        OtherJobOk(s, t, j, k);
      }
    }
    forall k ensures StreamOk(t, k) {
      if k != j { assert SameFor(s, t, k) && StreamOk(s, k); }
    }
    forall v | v in t.workers ensures PhaseOk(cfg, t, v, t.workers[v]) {
      if w != Some(v) { BystanderOk(cfg, s, t, w, j, v); }
    }
    forall k | k in t.answered ensures k in t.issued {
      if k != j { assert SameFor(s, t, k); }
    }
  }

  /** Two live workers never stand between acquire and release for the same job. */
  lemma MutualExclusion(cfg: Settings, s: System, v: WorkerId, w: WorkerId, j: JobId)
    requires Inv(cfg, s)
    requires v in s.workers && w in s.workers && Holds(s.workers[v], j) && Holds(s.workers[w], j)
    ensures v == w
  {
    assert PhaseOk(cfg, s, v, s.workers[v]) && PhaseOk(cfg, s, w, s.workers[w]);
  }

  // --- Rows ------------------------------------------------------------------

  function Moved(row: Job, next: Status, error: Option<ErrorCode>): Job {
    Record(if next.Retrieving? then row.(attempt := row.attempt + 1) else row, next, error)
  }

  /** A transition along an edge keeps a row consistent, provided the attempt counter moves
      with `Retrieving` and a retry is only recorded while attempts are left. */
  lemma RecordKeepsRow(row: Job, next: Status, error: Option<ErrorCode>)
    requires RowOk(row) && Edge(row.status, next)
    requires next.Retrying? ==> row.attempt < row.maxAttempts
    ensures RowOk(Moved(row, next, error))
    ensures Count(Moved(row, next, error).transitions, Completed)
         == Count(row.transitions, Completed) + if next.Completed? then 1 else 0
  {
    var h, e := row.transitions, Transition(next, error);
    CountAppend(h, e, Retrieving);
    CountAppend(h, e, Retrying);
    CountAppend(h, e, Completed);
    RetriesCloseAttempts(h);
  }

  lemma AppendInOrder(stream: Stream, e: Event)
    requires Ordered(stream)
    requires Below(stream, Rank(e)) && (Rank(e) > 1 ==> Below(stream, Rank(e) - 1))
    ensures Ordered(stream + [e])
    ensures Below(stream + [e], Rank(e))
  {
  }

  // --- Each step keeps the invariant --------------------------------------------

  lemma InitOk(cfg: Settings)
    ensures Inv(cfg, Init)
  {
  }

  lemma NewRowOk(conversation: ConversationId, key: string, question: string, maxAttempts: nat)
    requires maxAttempts >= 1
    ensures var row := NewJob(conversation, key, question, maxAttempts);
      RowOk(row) && Count(row.transitions, Completed) == 0
  {
    var h := NewJob(conversation, key, question, maxAttempts).transitions;
    assert h[..0] == [];
  }

  lemma QuestionOnly(before: seq<Turn>, j: JobId, question: string)
    requires forall i :: 0 <= i < |before| ==> before[i].job != j
    ensures TurnCount(before + [UserTurn(j, question)], j, false) == 1
    ensures TurnCount(before + [UserTurn(j, question)], j, true) == 0
  {
    NoTurns(before, j, false);
    NoTurns(before, j, true);
    TurnCountAppend(before, UserTurn(j, question), j, false);
    TurnCountAppend(before, UserTurn(j, question), j, true);
  }

  lemma SubmittedJobOk(s: System, t: System, step: Step)
    requires TurnsIssued(s) && step.Submit? && step.maxAttempts >= 1
    requires step.job !in s.issued && step.job !in s.answered && StreamOf(s.data, step.job) == []
    requires t.issued == s.issued + {step.job} && t.answered == s.answered
    requires t.data == CommitRow(
                         AppendTurn(s.data, step.conversation, UserTurn(step.job, step.question)), step.job,
                         NewJob(step.conversation, step.key, step.question, step.maxAttempts))
    ensures JobOk(t, step.job)
  {
    hide TurnCount, RowOk, Count;
    QuestionOnly(TurnsOf(s.data, step.conversation), step.job, step.question);
    NewRowOk(step.conversation, step.key, step.question, step.maxAttempts);
  }

  lemma SubmitElsewhere(cfg: Settings, s: System, step: Step)
    requires LeasesHeld(s) && Enabled(s, step) && step.Submit?
    ensures Elsewhere(s, Apply(cfg, s, step), step.job)
    ensures Bystanders(s, Apply(cfg, s, step), None)
  {
  }

  lemma SubmitRecords(cfg: Settings, s: System, step: Step)
    requires Enabled(s, step) && step.Submit?
    requires StreamOk(s, step.job)
    ensures KeysUnique(s.data) ==> KeysUnique(Apply(cfg, s, step).data)
    ensures TurnsIssued(s) ==> TurnsIssued(Apply(cfg, s, step))
    ensures StreamOk(Apply(cfg, s, step), step.job)
  {
  }

  lemma SubmitKeeps(cfg: Settings, s: System, step: Step)
    requires Inv(cfg, s) && Enabled(s, step) && step.Submit?
    ensures Inv(cfg, Apply(cfg, s, step))
  {
    var t := Apply(cfg, s, step);
    var j := step.job;
    assert StreamOk(s, j);
    SubmittedJobOk(s, t, step);
    SubmitRecords(cfg, s, step);
    HeldLeases(cfg, s);
    SubmitElsewhere(cfg, s, step);
    forall v | v in t.workers && t.workers[v].Working? ensures t.workers[v].job != j {
      assert PhaseOk(cfg, s, v, s.workers[v]);
    }
    Frame(cfg, s, t, None, j);
  }

  lemma DeletedOk(cfg: Settings, s: System, t: System, step: Step)
    requires Enabled(s, step) && step.DeleteConversation? && t == Apply(cfg, s, step)
    ensures forall k :: k in t.data.jobs && JobOk(s, k) ==> JobOk(t, k)
    ensures forall k :: StreamOk(s, k) ==> StreamOk(t, k)
    ensures KeysUnique(s.data) ==> KeysUnique(t.data)
    ensures TurnsIssued(s) ==> TurnsIssued(t)
  {
  }

  lemma DeletedPhaseOk(cfg: Settings, s: System, t: System, step: Step, w: WorkerId, p: Phase)
    requires Enabled(s, step) && step.DeleteConversation? && t == Apply(cfg, s, step)
    requires PhaseOk(cfg, s, w, p)
    ensures PhaseOk(cfg, t, w, p)
  {
  }

  lemma DeleteKeeps(cfg: Settings, s: System, step: Step)
    requires Inv(cfg, s) && Enabled(s, step) && step.DeleteConversation?
    ensures Inv(cfg, Apply(cfg, s, step))
  {
    var t := Apply(cfg, s, step);
    DeletedOk(cfg, s, t, step);
    forall v | v in t.workers ensures PhaseOk(cfg, t, v, t.workers[v]) {
      DeletedPhaseOk(cfg, s, t, step, v, t.workers[v]);
    }
  }

  /** Steps that touch no row, no turn and no stream, and no lease that a bystander holds. */
  ghost predicate SameRecords(s: System, t: System) {
    && t.data.jobs == s.data.jobs && t.data.turns == s.data.turns && t.data.streams == s.data.streams
    && t.issued == s.issued && t.answered == s.answered && t.raised == s.raised
  }

  lemma QuietKeeps(cfg: Settings, s: System, t: System, w: Option<WorkerId>)
    requires Inv(cfg, s) && SameRecords(s, t) && Bystanders(s, t, w) && ActorOk(cfg, t, w)
    ensures Inv(cfg, t)
  {
    forall k | k in t.data.jobs ensures JobOk(t, k) { assert JobOk(s, k); }
    forall k ensures StreamOk(t, k) { assert StreamOk(s, k); }
    forall v | v in t.workers ensures PhaseOk(cfg, t, v, t.workers[v]) {
      if w != Some(v) {
        var p := s.workers[v];
        assert PhaseOk(cfg, s, v, p);
        if p.Leased? || p.Releasing? || p.Working? { assert Holds(t.workers[v], p.job); }
      }
    }
  }

  lemma HeldLeases(cfg: Settings, s: System)
    requires Inv(cfg, s)
    ensures LeasesHeld(s)
  {
    forall v, k | v in s.workers && Holds(s.workers[v], k) ensures k in s.data.leases && s.data.leases[k] == v {
      assert PhaseOk(cfg, s, v, s.workers[v]);
    }
  }

  predicate Quiet(step: Step) {
    || step.Enqueue? || step.ApiDies? || step.Start? || step.Reclaim? || step.Pop? || step.Take? || step.Read?
    || step.Raise? || step.Answer? || step.Requeue? || step.Cancel? || step.Release? || step.Die? || step.Expire?
  }

  lemma QuietRecords(cfg: Settings, s: System, step: Step)
    requires Enabled(s, step) && Quiet(step)
    ensures SameRecords(s, Apply(cfg, s, step))
  {
    hide Terminal, Holds;
  }

  lemma QuietBystanders(cfg: Settings, s: System, step: Step)
    requires LeasesHeld(s) && Enabled(s, step) && Quiet(step)
    ensures Bystanders(s, Apply(cfg, s, step), Worker(step))
  {
    var t := Apply(cfg, s, step);
    if step.Release? {
      assert Holds(s.workers[step.worker], s.workers[step.worker].job);
    }
  }

  lemma QuietActor(cfg: Settings, s: System, step: Step)
    requires Enabled(s, step) && Quiet(step)
    requires ActorOk(cfg, s, Worker(step))
    requires forall j :: j in s.data.jobs ==> j in s.issued
    ensures ActorOk(cfg, Apply(cfg, s, step), Worker(step))
  {
  }

  lemma QuietStepKeeps(cfg: Settings, s: System, step: Step)
    requires Inv(cfg, s) && Enabled(s, step) && Quiet(step)
    ensures Inv(cfg, Apply(cfg, s, step))
  {
    HeldLeases(cfg, s);
    QuietRecords(cfg, s, step);
    QuietBystanders(cfg, s, step);
    assert forall j :: j in s.data.jobs ==> JobOk(s, j);
    QuietActor(cfg, s, step);
    QuietKeeps(cfg, s, Apply(cfg, s, step), Worker(step));
  }

  // --- Steps that write: commits, publishes, trace entries -------------------------

  predicate Writes(step: Step) { step.Commit? || step.Publish? || step.Trace? }

  lemma CommitStepElsewhere(s: System, w: WorkerId, p: Phase, k: JobId)
    requires CommitDue(p) && k != p.job
    ensures SameFor(s, CommitStep(s, w, p), k)
  {
    hide Terminal, Record, MayRetry;
  }

  lemma CommitElsewhere(cfg: Settings, s: System, step: Step)
    requires Enabled(s, step) && step.Commit?
    ensures forall k :: k != s.workers[step.worker].job ==> SameFor(s, Apply(cfg, s, step), k)
  {
    hide CommitStep;
    var p := s.workers[step.worker];
    forall k | k != p.job ensures SameFor(s, Apply(cfg, s, step), k) {
      if step.ok { CommitStepElsewhere(s, step.worker, p, k); }
    }
  }

  lemma WriteElsewhere(cfg: Settings, s: System, step: Step)
    requires Enabled(s, step) && Writes(step)
    ensures forall k :: k != s.workers[step.worker].job ==> SameFor(s, Apply(cfg, s, step), k)
  {
    if step.Commit? { CommitElsewhere(cfg, s, step); }
  }

  lemma WriteTurns(cfg: Settings, s: System, step: Step)
    requires Enabled(s, step) && Writes(step)
    ensures forall c :: TurnsGrowFor(s, Apply(cfg, s, step), s.workers[step.worker].job, c)
  {
    hide Record, Terminal, MayRetry, RelayEntry;
  }

  /** A write moves no worker but its own, and no lease. */
  lemma WriteMoves(cfg: Settings, s: System, step: Step)
    requires Enabled(s, step) && Writes(step)
    ensures forall v :: v != step.worker ==>
      && (v in Apply(cfg, s, step).workers <==> v in s.workers)
      && (v in s.workers ==> Apply(cfg, s, step).workers[v] == s.workers[v])
    ensures Apply(cfg, s, step).data.leases == s.data.leases
  {
    hide Record, Terminal, MayRetry, RelayEntry, Chunk;
  }

  lemma WriteBystanders(cfg: Settings, s: System, step: Step)
    requires LeasesHeld(s) && Enabled(s, step) && Writes(step)
    ensures Bystanders(s, Apply(cfg, s, step), Some(step.worker))
    ensures NobodyElse(Apply(cfg, s, step), Some(step.worker), s.workers[step.worker].job)
  {
    WriteMoves(cfg, s, step);
    var j := s.workers[step.worker].job;
    assert Holds(s.workers[step.worker], j);
    hide Apply;
    forall v | v in s.workers && Holds(s.workers[v], j) ensures v == step.worker {
      assert s.data.leases[j] == v;
    }
    assert forall v :: v in s.workers && s.workers[v].Working? ==> Holds(s.workers[v], s.workers[v].job);
  }

  lemma RowReplaced(d: Shared, d': Shared, j: JobId)
    requires KeysUnique(d) && j in d.jobs && j in d'.jobs
    requires d'.jobs == d.jobs[j := d'.jobs[j]] && d'.jobs[j].key == d.jobs[j].key
    ensures KeysUnique(d')
  {
  }

  lemma WriteKeys(cfg: Settings, s: System, step: Step)
    requires Enabled(s, step) && Writes(step)
    requires PhaseOk(cfg, s, step.worker, s.workers[step.worker])
    requires KeysUnique(s.data)
    ensures KeysUnique(Apply(cfg, s, step).data)
  {
    var d, d', j := s.data, Apply(cfg, s, step).data, s.workers[step.worker].job;
    if d'.jobs != d.jobs {
      RowReplaced(d, d', j);
    }
  }

  lemma WriteTurnsIssued(cfg: Settings, s: System, step: Step)
    requires Enabled(s, step) && Writes(step)
    requires s.workers[step.worker].job in s.issued
    requires TurnsIssued(s)
    ensures TurnsIssued(Apply(cfg, s, step))
  {
  }

  /** What a write has to establish about its own job and its own worker. */
  ghost predicate OwnOk(cfg: Settings, t: System, w: WorkerId, j: JobId) {
    && w in t.workers && PhaseOk(cfg, t, w, t.workers[w])
    && (j in t.data.jobs ==> JobOk(t, j))
    && StreamOk(t, j)
  }

  lemma RowMoves(j: JobId, row: Job, turns: seq<Turn>, answer: Option<Reply>, raised: bool, stream: Stream,
                 next: Status, error: Option<ErrorCode>)
    requires JobShape(j, row, turns, answer, raised, stream)
    requires Edge(row.status, next) && !next.Completed?
    requires next.Retrying? ==> row.attempt < row.maxAttempts
    requires next.Failed? && answer.Some? ==> raised
    ensures JobShape(j, Moved(row, next, error), turns, answer, raised, stream)
  {
    RecordKeepsRow(row, next, error);
    var moved := Moved(row, next, error);
    assert RowOk(moved) && Count(moved.transitions, Completed) == Count(row.transitions, Completed);
    assert !Terminal(next) ==> !Terminal(row.status);
  }

  lemma RowCommitted(s: System, t: System, j: JobId, next: Status, error: Option<ErrorCode>)
    requires j in s.data.jobs && JobOk(s, j) && StreamOk(s, j)
    requires Edge(s.data.jobs[j].status, next) && !next.Completed?
    requires next.Retrying? ==> s.data.jobs[j].attempt < s.data.jobs[j].maxAttempts
    requires next.Failed? && j in s.answered ==> j in s.raised
    requires t == s.(workers := t.workers, data := CommitRow(s.data, j, Moved(s.data.jobs[j], next, error)))
    ensures JobOk(t, j) && StreamOk(t, j)
  {
    var row := s.data.jobs[j];
    RowMoves(j, row, TurnsOf(s.data, row.conversation), AnswerOf(s, j), j in s.raised, StreamOf(s.data, j), next,
        error);
  }

  lemma AnswerMoves(j: JobId, row: Job, turns: seq<Turn>, raised: bool, stream: Stream,
                    reply: Reply)
    requires JobShape(j, row, turns, None, raised, stream)
    requires row.status.Generating?
    ensures JobShape(j, Record(row, Completed, reply.code), turns + [AssistantTurn(j, reply)], Some(reply),
                     raised, stream)
  {
    CompletedOnce(row.transitions);
    RecordKeepsRow(row, Completed, reply.code);
    var turn := AssistantTurn(j, reply);
    TurnCountAppend(turns, turn, j, false);
    TurnCountAppend(turns, turn, j, true);
    assert (turns + [turn])[|turns|] == turn;
  }

  lemma AnswerCommitted(s: System, t: System, j: JobId, reply: Reply)
    requires j in s.data.jobs && JobOk(s, j) && StreamOk(s, j)
    requires s.data.jobs[j].status.Generating?
    requires t == s.(workers := t.workers,
                     data := Complete(s.data, j, s.data.jobs[j], reply),
                     answered := s.answered[j := reply])
    ensures JobOk(t, j) && StreamOk(t, j)
    ensures Text(StreamOf(s.data, j)) == ""
  {
    var row := s.data.jobs[j];
    CompletedOnce(row.transitions);
    AnswerMoves(j, row, TurnsOf(s.data, row.conversation), j in s.raised, StreamOf(s.data, j), reply);
    TextOfCommentary(StreamOf(s.data, j));
  }

  lemma CommitAttempt(cfg: Settings, s: System, w: WorkerId)
    requires Enabled(s, Commit(w, true)) && OwnOk(cfg, s, w, s.workers[w].job)
    requires s.workers[w].at.AtStart? || s.workers[w].at.AtHistory?
    ensures OwnOk(cfg, Apply(cfg, s, Commit(w, true)), w, s.workers[w].job)
  {
    var p := s.workers[w];
    RowCommitted(s, Apply(cfg, s, Commit(w, true)), p.job, if p.at.AtStart? then Retrieving else Generating, None);
  }

  lemma CommitAnswer(cfg: Settings, s: System, w: WorkerId)
    requires Enabled(s, Commit(w, true)) && OwnOk(cfg, s, w, s.workers[w].job)
    requires s.workers[w].at.AtPersist?
    ensures OwnOk(cfg, Apply(cfg, s, Commit(w, true)), w, s.workers[w].job)
  {
    var p := s.workers[w];
    AnswerCommitted(s, Apply(cfg, s, Commit(w, true)), p.job, p.at.reply);
  }

  lemma CommitFailure(cfg: Settings, s: System, w: WorkerId)
    requires Enabled(s, Commit(w, true)) && OwnOk(cfg, s, w, s.workers[w].job)
    requires s.workers[w].at.AtFailing? && s.workers[w].job in s.data.jobs
    ensures OwnOk(cfg, Apply(cfg, s, Commit(w, true)), w, s.workers[w].job)
  {
    var p := s.workers[w];
    CompletedOnce(p.row.transitions);
    var t := Apply(cfg, s, Commit(w, true));
    if MayRetry(p.row, p.at.transient) {
      RowCommitted(s, t, p.job, Retrying, Some(p.at.error));
    } else {
      RowCommitted(s, t, p.job, Failed, Some(p.at.error));
    }
  }

  lemma CommitVanished(cfg: Settings, s: System, w: WorkerId)
    requires Enabled(s, Commit(w, true)) && OwnOk(cfg, s, w, s.workers[w].job)
    requires s.workers[w].at.AtFailing? && s.workers[w].job !in s.data.jobs
    ensures OwnOk(cfg, Apply(cfg, s, Commit(w, true)), w, s.workers[w].job)
  {
  }

  lemma CommitRaised(cfg: Settings, s: System, w: WorkerId)
    requires Enabled(s, Commit(w, false)) && OwnOk(cfg, s, w, s.workers[w].job)
    ensures OwnOk(cfg, Apply(cfg, s, Commit(w, false)), w, s.workers[w].job)
  {
  }

  lemma CommitKeeps(cfg: Settings, s: System, step: Step)
    requires Inv(cfg, s) && Enabled(s, step) && step.Commit?
    ensures Inv(cfg, Apply(cfg, s, step))
  {
    var w := step.worker;
    var j, at := s.workers[w].job, s.workers[w].at;
    assert OwnOk(cfg, s, w, j) by {
      assert PhaseOk(cfg, s, w, s.workers[w]) && StreamOk(s, j);
    }
    if !step.ok {
      CommitRaised(cfg, s, w);
    } else if at.AtPersist? {
      CommitAnswer(cfg, s, w);
    } else if at.AtFailing? {
      if j in s.data.jobs { CommitFailure(cfg, s, w); } else { CommitVanished(cfg, s, w); }
    } else {
      CommitAttempt(cfg, s, w);
    }
    WriteKeeps(cfg, s, step);
  }

  lemma StreamExtends(stream: Stream, e: Event, answer: Option<Reply>, raised: bool)
    requires StreamShape(stream, answer, raised)
    requires Below(stream, Rank(e)) && (Rank(e) > 1 ==> Below(stream, Rank(e) - 1))
    requires e.DeltaEvent? || e.FinalEvent? ==> answer.Some?
    requires e.DeltaEvent? ==> Text(stream) + e.text <= answer.value.content
    requires e.FinalEvent? ==> e.reply == answer.value && Text(stream) == answer.value.content
    requires e.ErrorEvent? && answer.Some? ==> raised
    ensures StreamShape(stream + [e], answer, raised)
    ensures Below(stream + [e], Rank(e))
  {
    AppendInOrder(stream, e);
    TextAppend(stream, e);
  }

  lemma AppendEvent(cfg: Settings, s: System, t: System, j: JobId, e: Event)
    requires t == s.(workers := t.workers, raised := t.raised, data := Append(s.data, j, e))
    requires StreamOk(s, j) && (j in s.data.jobs ==> JobOk(s, j)) && j in s.issued
    requires s.raised <= t.raised
    requires Below(StreamOf(s.data, j), Rank(e)) && (Rank(e) > 1 ==> Below(StreamOf(s.data, j), Rank(e) - 1))
    requires Rank(e) == 0 || (j in s.data.jobs ==> Terminal(s.data.jobs[j].status))
    requires e.DeltaEvent? || e.FinalEvent? ==> j in s.answered
    requires e.DeltaEvent? ==> Text(StreamOf(s.data, j)) + e.text <= s.answered[j].content
    requires e.FinalEvent? ==> e.reply == s.answered[j] && Text(StreamOf(s.data, j)) == s.answered[j].content
    requires e.ErrorEvent? && j in s.answered ==> j in t.raised
    ensures StreamOk(t, j) && (j in t.data.jobs ==> JobOk(t, j))
    ensures StreamOf(t.data, j) == StreamOf(s.data, j) + [e]
    ensures Below(StreamOf(t.data, j), Rank(e))
  {
    var stream, answer := StreamOf(s.data, j), AnswerOf(s, j);
    assert StreamShape(stream, answer, j in t.raised);
    StreamExtends(stream, e, answer, j in t.raised);
  }

  /** The chunk or the final entry that is due continues the relayed text. */
  lemma RelayDue(size: nat, stream: Stream, reply: Reply, next: nat)
    requires Text(stream) == Relayed(reply.content, next, size)
    ensures var e := RelayEntry(reply, next, size);
      && (e.DeltaEvent? ==> Text(stream) + e.text == Relayed(reply.content, next + 1, size) <= reply.content)
      && (e.FinalEvent? ==> Text(stream) == reply.content)
  {
    if next * size < |reply.content| {
      RelayedGrows(reply.content, next, size);
    }
  }

  /** What the relay's point says of the entry that is due. */
  lemma RelayMay(size: nat, present: bool, row: Job, reply: Reply, next: nat, answer: Option<Reply>, raised: bool,
                 stream: Stream)
    requires PointShape(size, present, row, AtRelay(reply, next), answer, raised, stream)
    ensures var e := RelayEntry(reply, next, size);
      && answer == Some(reply) && row.status.Completed?
      && (e.DeltaEvent? || e.FinalEvent?)
      && Below(stream, Rank(e)) && (Rank(e) > 1 ==> Below(stream, Rank(e) - 1))
      && (e.DeltaEvent? ==> Text(stream) + e.text <= reply.content)
      && (e.FinalEvent? ==> e.reply == reply && Text(stream) == reply.content)
  {
    RelayDue(size, stream, reply, next);
  }

  /** Where the relay stands once that entry is appended. */
  lemma RelayMovesOn(size: nat, present: bool, row: Job, reply: Reply, next: nat, answer: Option<Reply>, raised: bool,
                     stream: Stream)
    requires PointShape(size, present, row, AtRelay(reply, next), answer, raised, stream)
    ensures var e := RelayEntry(reply, next, size);
      e.DeltaEvent? ==> PointShape(size, present, row, AtRelay(reply, next + 1), answer, raised, stream + [e])
  {
    RelayDue(size, stream, reply, next);
    TextAppend(stream, RelayEntry(reply, next, size));
    hide Text, Relayed;
  }

  lemma RelayBreaksOff(size: nat, present: bool, row: Job, reply: Reply, next: nat, answer: Option<Reply>, raised: bool,
                       stream: Stream)
    requires PointShape(size, present, row, AtRelay(reply, next), answer, raised, stream)
    ensures var e := RelayEntry(reply, next, size);
      PointShape(size, present, row, AtFailing(false, INTERNAL_ERROR), answer, true, stream + [e])
  {
    hide Text, Relayed, Chunk;
  }

  lemma PublishRelay(cfg: Settings, s: System, w: WorkerId, result: PublishResult)
    requires Enabled(s, Publish(w, result)) && OwnOk(cfg, s, w, s.workers[w].job)
    requires s.workers[w].at.AtRelay? && (result.Published? || result.RaisedAfterAppend?)
    ensures OwnOk(cfg, Apply(cfg, s, Publish(w, result)), w, s.workers[w].job)
  {
    hide Relayed, Text, PointShape, Below, StreamShape, JobShape;
    var p := s.workers[w];
    var j, reply, next, size := p.job, p.at.reply, p.at.next, cfg.streamChunkChars;
    var stream, answer := StreamOf(s.data, j), AnswerOf(s, j);
    RelayMay(size, j in s.data.jobs, p.row, reply, next, answer, j in s.raised, stream);
    RelayMovesOn(size, j in s.data.jobs, p.row, reply, next, answer, j in s.raised, stream);
    RelayBreaksOff(size, j in s.data.jobs, p.row, reply, next, answer, j in s.raised, stream);
    AppendEvent(cfg, s, Apply(cfg, s, Publish(w, result)), j, RelayEntry(reply, next, size));
  }

  lemma PublishStatus(cfg: Settings, s: System, w: WorkerId, result: PublishResult)
    requires Enabled(s, Publish(w, result)) && OwnOk(cfg, s, w, s.workers[w].job)
    requires !s.workers[w].at.AtRelay? && (result.Published? || result.RaisedAfterAppend?)
    ensures OwnOk(cfg, Apply(cfg, s, Publish(w, result)), w, s.workers[w].job)
  {
    hide Text, Ordered, ValidHistory, TurnCount, Count;
    var p := s.workers[w];
    AppendEvent(cfg, s, Apply(cfg, s, Publish(w, result)), p.job, DueEvent(p, cfg.streamChunkChars));
  }

  lemma PublishRaised(cfg: Settings, s: System, w: WorkerId)
    requires Enabled(s, Publish(w, RaisedBefore)) && OwnOk(cfg, s, w, s.workers[w].job)
    ensures OwnOk(cfg, Apply(cfg, s, Publish(w, RaisedBefore)), w, s.workers[w].job)
  {
  }

  lemma TraceOk(cfg: Settings, s: System, w: WorkerId, text: string, ok: bool)
    requires Enabled(s, Trace(w, text, ok)) && OwnOk(cfg, s, w, s.workers[w].job)
    ensures OwnOk(cfg, Apply(cfg, s, Trace(w, text, ok)), w, s.workers[w].job)
  {
    var p := s.workers[w];
    if ok {
      AppendEvent(cfg, s, Apply(cfg, s, Trace(w, text, ok)), p.job, TraceEvent(text));
    }
  }

  lemma WriteKeeps(cfg: Settings, s: System, step: Step)
    requires Inv(cfg, s) && Enabled(s, step) && Writes(step)
    requires OwnOk(cfg, Apply(cfg, s, step), step.worker, s.workers[step.worker].job)
    ensures Inv(cfg, Apply(cfg, s, step))
  {
    var w := step.worker;
    HeldLeases(cfg, s);
    WriteElsewhere(cfg, s, step);
    WriteTurns(cfg, s, step);
    WriteBystanders(cfg, s, step);
    assert PhaseOk(cfg, s, w, s.workers[w]);
    WriteKeys(cfg, s, step);
    WriteTurnsIssued(cfg, s, step);
    Frame(cfg, s, Apply(cfg, s, step), Some(w), s.workers[w].job);
  }

  lemma PublishKeeps(cfg: Settings, s: System, step: Step)
    requires ValidSettings(cfg) && Inv(cfg, s) && Enabled(s, step) && (step.Publish? || step.Trace?)
    ensures Inv(cfg, Apply(cfg, s, step))
  {
    var w := step.worker;
    var j := s.workers[w].job;
    assert OwnOk(cfg, s, w, j) by {
      assert PhaseOk(cfg, s, w, s.workers[w]) && StreamOk(s, j);
    }
    if step.Trace? {
      TraceOk(cfg, s, w, step.step, step.ok);
    } else if step.result.RaisedBefore? {
      PublishRaised(cfg, s, w);
    } else if s.workers[w].at.AtRelay? {
      PublishRelay(cfg, s, w, step.result);
    } else {
      PublishStatus(cfg, s, w, step.result);
    }
    WriteKeeps(cfg, s, step);
  }

  // --- Whole runs -------------------------------------------------------------------

  lemma StepKeeps(cfg: Settings, s: System, step: Step)
    requires ValidSettings(cfg) && Inv(cfg, s) && Enabled(s, step)
    ensures Inv(cfg, Apply(cfg, s, step))
  {
    if step.Submit? {
      SubmitKeeps(cfg, s, step);
    } else if step.DeleteConversation? {
      DeleteKeeps(cfg, s, step);
    } else if step.Commit? {
      CommitKeeps(cfg, s, step);
    } else if step.Publish? || step.Trace? {
      PublishKeeps(cfg, s, step);
    } else {
      QuietStepKeeps(cfg, s, step);
    }
  }

  lemma {:induction false} RunKeeps(cfg: Settings, run: seq<System>)
    requires ValidSettings(cfg) && Run(cfg, run)
    ensures Inv(cfg, run[|run| - 1])
  {
    var last := |run| - 1;
    if last > 0 {
      RunKeeps(cfg, run[..last]);
      assert Next(cfg, run[last - 1], run[last]);
      var step :| Enabled(run[last - 1], step) && run[last] == Apply(cfg, run[last - 1], step);
      StepKeeps(cfg, run[last - 1], step);
    } else {
      InitOk(cfg);
    }
  }

  lemma ReachableOk(cfg: Settings, s: System)
    requires ValidSettings(cfg) && Reachable(cfg, s)
    ensures Inv(cfg, s)
  {
    var run :| Run(cfg, run) && run[|run| - 1] == s;
    RunKeeps(cfg, run);
  }

  /** At most one live worker is between acquiring and releasing any one job. */
  lemma OneHolder(cfg: Settings, s: System, v: WorkerId, w: WorkerId, j: JobId)
    requires ValidSettings(cfg) && Reachable(cfg, s)
    requires v in s.workers && w in s.workers && Holds(s.workers[v], j) && Holds(s.workers[w], j)
    ensures v == w
  {
    ReachableOk(cfg, s);
    MutualExclusion(cfg, s, v, w, j);
  }

  /** A job's conversation holds its question once, and one answer exactly when `completed` is
      in its history; no idempotency key has two jobs. */
  lemma OneAnswer(cfg: Settings, s: System, j: JobId)
    requires ValidSettings(cfg) && Reachable(cfg, s) && j in s.data.jobs
    ensures var row := s.data.jobs[j]; var turns := TurnsOf(s.data, row.conversation);
      && TurnCount(turns, j, false) == 1
      && TurnCount(turns, j, true) == Count(row.transitions, Completed) <= 1
    ensures forall k :: k in s.data.jobs && s.data.jobs[k].key == s.data.jobs[j].key ==> k == j
  {
    ReachableOk(cfg, s);
    assert JobOk(s, j);
    CompletedOnce(s.data.jobs[j].transitions);
  }

  /** The history lies in the grammar, ends in the row's status, and accounts for every attempt:
      no more than the configured number plus those that were interrupted. */
  lemma HistoryOk(cfg: Settings, s: System, j: JobId)
    requires ValidSettings(cfg) && Reachable(cfg, s) && j in s.data.jobs
    ensures var row := s.data.jobs[j]; var h := row.transitions;
      && InGrammar(Statuses(h))
      && h[|h| - 1] == Transition(row.status, row.error)
      && row.attempt == Count(h, Retrieving)
      && Count(h, Retrying) < row.maxAttempts
      && row.attempt <= row.maxAttempts + Interrupted(h)
      && (Count(h, Completed) > 0 && row.status.Failed? ==> j in s.raised)
  {
    ReachableOk(cfg, s);
    assert JobOk(s, j);
    var h := s.data.jobs[j].transitions;
    HistoryIsGrammar(h);
    AttemptsAccounted(h);
  }

  /** A stream reads as commentary, then the outcome. Its chunks spell a prefix of the persisted
      answer, all of it once `final` is there. Answer and error entries only meet on a stream
      one of whose answer publishes raised. */
  lemma StreamReads(cfg: Settings, s: System, j: JobId)
    requires ValidSettings(cfg) && Reachable(cfg, s)
    ensures var stream := StreamOf(s.data, j);
      && Ordered(stream)
      && ((exists i :: 0 <= i < |stream| && 1 <= Rank(stream[i]) <= 2) ==> j in s.answered)
      && (j in s.answered ==> Text(stream) <= s.answered[j].content)
      && (forall i :: 0 <= i < |stream| && stream[i].FinalEvent? ==>
            j in s.answered && stream[i].reply == s.answered[j] && Text(stream) == s.answered[j].content)
      && (j !in s.raised ==>
            !exists i, k :: 0 <= i < |stream| && 0 <= k < |stream|
              && (stream[i].DeltaEvent? || stream[i].FinalEvent?) && stream[k].ErrorEvent?)
  {
    ReachableOk(cfg, s);
    assert StreamOk(s, j);
  }

  /** No step rewrites history: a row keeps its key and its past entries and gains at most one,
      and only a finished job's row can ever disappear. */
  lemma HistoryAppendOnly(cfg: Settings, s: System, step: Step, j: JobId)
    requires ValidSettings(cfg) && Reachable(cfg, s) && Enabled(s, step)
    requires j in s.data.jobs
    ensures var t := Apply(cfg, s, step);
      if j in t.data.jobs then
        && t.data.jobs[j].key == s.data.jobs[j].key
        && s.data.jobs[j].transitions <= t.data.jobs[j].transitions
        && |t.data.jobs[j].transitions| <= |s.data.jobs[j].transitions| + 1
      else Terminal(s.data.jobs[j].status)
  {
    ReachableOk(cfg, s);
    assert JobOk(s, j);
    if step.Commit? {
      assert PhaseOk(cfg, s, step.worker, s.workers[step.worker]);
      CommitAppends(cfg, s, step, j);
    } else {
      OnlyCommitsMoveRows(cfg, s, step, j);
    }
  }

  /** A commit writes the row of the worker's own job, one entry longer, or nothing. */
  lemma CommitAppends(cfg: Settings, s: System, step: Step, j: JobId)
    requires Enabled(s, step) && step.Commit? && j in s.data.jobs
    requires j == s.workers[step.worker].job ==> s.data.jobs[j] == s.workers[step.worker].row
    ensures var t := Apply(cfg, s, step);
      && j in t.data.jobs
      && t.data.jobs[j].key == s.data.jobs[j].key
      && s.data.jobs[j].transitions <= t.data.jobs[j].transitions
      && |t.data.jobs[j].transitions| <= |s.data.jobs[j].transitions| + 1
  {
    if j != s.workers[step.worker].job {
      CommitElsewhere(cfg, s, step);
      assert SameFor(s, Apply(cfg, s, step), j);
    }
  }

  lemma OnlyCommitsMoveRows(cfg: Settings, s: System, step: Step, j: JobId)
    requires Enabled(s, step) && !step.Commit? && j in s.data.jobs && j in s.issued
    ensures var t := Apply(cfg, s, step);
      if j in t.data.jobs then t.data.jobs[j] == s.data.jobs[j]
      else step.DeleteConversation? && Terminal(s.data.jobs[j].status)
  {
  }
}
