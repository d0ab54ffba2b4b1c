/** Which open jobs somebody will still get to. A job is carried while it waits in the queue, is
    about to be enqueued, or is in a live worker's hands; an open job that nobody carries stays
    open until a worker starts and reclaims it. */
module JobCarriers {
  import opened Options
  import opened JobModel
  import opened JobProtocol
  import opened JobSafety

  // --- Runs as step sequences -------------------------------------------------------------

  ghost predicate Legal(cfg: Settings, steps: seq<Step>)
    decreases |steps|, 0
  {
    steps == [] ||
    var last := |steps| - 1;
    Legal(cfg, steps[..last]) && Enabled(After(cfg, steps[..last]), steps[last])
  }

  ghost function After(cfg: Settings, steps: seq<Step>): System
    requires Legal(cfg, steps)
    decreases |steps|, 1
  {
    if steps == [] then Init
    else
      var last := |steps| - 1;
      Apply(cfg, After(cfg, steps[..last]), steps[last])
  }

  lemma {:induction false} PrefixLegal(cfg: Settings, steps: seq<Step>, n: nat)
    requires Legal(cfg, steps) && n <= |steps|
    ensures Legal(cfg, steps[..n])
    decreases |steps|
  {
    if n < |steps| {
      PrefixLegal(cfg, steps[..|steps| - 1], n);
      assert steps[..|steps| - 1][..n] == steps[..n];
    } else {
      assert steps[..n] == steps;
    }
  }

  lemma {:induction false} LegalReachable(cfg: Settings, steps: seq<Step>)
    requires Legal(cfg, steps)
    ensures Reachable(cfg, After(cfg, steps))
  {
    if steps == [] {
      assert Run(cfg, [Init]);
    } else {
      var last := |steps| - 1;
      LegalReachable(cfg, steps[..last]);
      var s, t := After(cfg, steps[..last]), After(cfg, steps);
      var run :| Run(cfg, run) && run[|run| - 1] == s;
      assert Next(cfg, s, t);
      var longer := run + [t];
      assert Run(cfg, longer) && longer[|longer| - 1] == t;
    }
  }

  lemma Extend(cfg: Settings, steps: seq<Step>, step: Step)
    requires Legal(cfg, steps) && Enabled(After(cfg, steps), step)
    ensures Legal(cfg, steps + [step])
    ensures After(cfg, steps + [step]) == Apply(cfg, After(cfg, steps), step)
  {
    assert (steps + [step])[..|steps|] == steps;
  }

  // --- Carriers -----------------------------------------------------------------------------

  /** The worker will still attempt the job, or look at it in its reclaim. A worker that only has
      the lease to give back will not. */
  predicate InHand(p: Phase, j: JobId) {
    match p
    case Booting(todo) => j in todo
    case SawNoLease(k, todo) => j == k || j in todo
    case SawNotQueued(k, todo) => j == k || j in todo
    case Popped(k) => j == k
    case Leased(k) => j == k
    case Working(k, _, _) => j == k
    case _ => false
  }

  ghost predicate HeldApartFrom(s: System, w: Option<WorkerId>, j: JobId) {
    exists v :: v in s.workers && w != Some(v) && InHand(s.workers[v], j)
  }

  ghost predicate Carried(s: System, j: JobId) {
    j in s.data.queue || j in s.arriving || HeldApartFrom(s, None, j)
  }

  ghost predicate Lost(s: System, j: JobId) {
    Open(s.data, j) && !Carried(s, j)
  }

  /** The steps by which a process lets go of a job it had, without finishing it. */
  predicate LetsGo(s: System, step: Step, j: JobId) {
    match step
    case ApiDies(k) => j == k
    case Take(w) => w in s.workers && s.workers[w] == Popped(j) && j in s.data.leases
    case Reclaim(w) =>
      w in s.workers && s.workers[w].Booting? && s.workers[w].todo != []
      && s.workers[w].todo[0] == j && j in s.data.leases && j !in s.workers[w].todo[1..]
    case Commit(w, ok) =>
      !ok && w in s.workers && s.workers[w].Working? && s.workers[w].job == j && s.workers[w].at.AtFailing?
    case Publish(w, result) =>
      !result.Published? && w in s.workers
      && s.workers[w].Working? && s.workers[w].job == j && s.workers[w].at.AtRetryingStatus?
    case Requeue(w, ok) => !ok && w in s.workers && s.workers[w].Working? && s.workers[w].job == j
    case Cancel(w) => w in s.workers && InHand(s.workers[w], j)
    case Die(w) => w in s.workers && InHand(s.workers[w], j)
    case _ => false
  }

  /** Who lets go loses the job if nobody else has it. */
  ghost predicate Loses(s: System, step: Step, j: JobId) {
    && Open(s.data, j) && LetsGo(s, step, j)
    && j !in s.data.queue
    && (j in s.arriving ==> step.ApiDies?)
    && !HeldApartFrom(s, Worker(step), j)
  }

  // --- One step -------------------------------------------------------------------------------

  /** What the queue, the API and worker `w` have, whoever else has it too. */
  ghost predicate Has(s: System, w: Option<WorkerId>, j: JobId) {
    || j in s.data.queue || j in s.arriving
    || (w.Some? && w.value in s.workers && InHand(s.workers[w.value], j))
  }

  lemma CarriedSplit(s: System, w: Option<WorkerId>, j: JobId)
    ensures Carried(s, j) <==> Has(s, w, j) || HeldApartFrom(s, w, j)
  {
    if w.Some? && w.value in s.workers && InHand(s.workers[w.value], j) {
      assert None != Some(w.value);
    }
  }

  lemma OthersStand(cfg: Settings, s: System, step: Step)
    requires Enabled(s, step)
    ensures forall v :: Worker(step) != Some(v) ==>
      && (v in Apply(cfg, s, step).workers <==> v in s.workers)
      && (v in s.workers ==> Apply(cfg, s, step).workers[v] == s.workers[v])
  {
    hide Record, Terminal, MayRetry, RelayEntry, Chunk;
  }

  lemma OthersHold(cfg: Settings, s: System, step: Step, j: JobId)
    requires Enabled(s, step)
    ensures HeldApartFrom(Apply(cfg, s, step), Worker(step), j) <==> HeldApartFrom(s, Worker(step), j)
  {
    OthersStand(cfg, s, step);
    hide Apply, Enabled, Worker, InHand;
    var t, w := Apply(cfg, s, step), Worker(step);
    if HeldApartFrom(s, w, j) {
      var v :| v in s.workers && w != Some(v) && InHand(s.workers[v], j);
      assert v in t.workers;
    }
    if HeldApartFrom(t, w, j) {
      var v :| v in t.workers && w != Some(v) && InHand(t.workers[v], j);
      assert v in s.workers;
    }
  }

  /** What the invariant says of the row in the hands of the worker that takes the step. */
  ghost predicate RowInHand(s: System, step: Step) {
    forall w :: Worker(step) == Some(w) && w in s.workers && s.workers[w].Working? ==>
      var p := s.workers[w];
      && (p.job in s.data.jobs ==> s.data.jobs[p.job] == p.row)
      && match p.at
         case AtRelay(_, _) => p.row.status.Completed?
         case AtErrorEvent => p.row.status.Failed?
         case AtFailing(transient, _) => Terminal(p.row.status) ==> !transient
         case _ => p.job in s.data.jobs && !Terminal(p.row.status)
  }

  lemma PointRow(size: nat, present: bool, row: Job, at: Point, answer: Option<Reply>, raised: bool, stream: Stream)
    requires PointShape(size, present, row, at, answer, raised, stream)
    ensures match at
      case AtRelay(_, _) => row.status.Completed?
      case AtErrorEvent => row.status.Failed?
      case AtFailing(transient, _) => Terminal(row.status) ==> !transient
      case _ => present && !Terminal(row.status)
  {
    hide Below, Text, Relayed;
  }

  lemma InvRow(cfg: Settings, s: System, step: Step)
    requires Inv(cfg, s) && Enabled(s, step)
    ensures RowInHand(s, step)
  {
    hide Enabled, PointShape;
    var w := Worker(step);
    if w.Some? && w.value in s.workers && s.workers[w.value].Working? {
      var p := s.workers[w.value];
      assert PhaseOk(cfg, s, w.value, p);
      PointRow(cfg.streamChunkChars, p.job in s.data.jobs, p.row, p.at, AnswerOf(s, p.job), p.job in s.raised,
          StreamOf(s.data, p.job));
    }
  }

  predicate LetsGoAlone(s: System, step: Step, j: JobId) {
    LetsGo(s, step, j) && j !in s.data.queue && (j in s.arriving ==> step.ApiDies?)
  }

  predicate MovesQueue(step: Step) {
    step.Enqueue? || step.Pop? || step.Requeue? || step.ApiDies?
  }

  predicate MovesLease(step: Step) {
    step.Take? || step.Release? || step.Expire?
  }

  lemma QueueHas(cfg: Settings, s: System, step: Step, j: JobId)
    requires Enabled(s, step) && RowInHand(s, step) && Open(s.data, j)
    requires MovesQueue(step)
    ensures var t := Apply(cfg, s, step);
      Open(t.data, j) && (Has(t, Worker(step), j) <==> Has(s, Worker(step), j) && !LetsGoAlone(s, step, j))
  {
    hide Terminal;
  }

  lemma ReclaimHas(cfg: Settings, s: System, step: Step, j: JobId)
    requires Enabled(s, step) && RowInHand(s, step) && Open(s.data, j)
    requires step.Reclaim?
    ensures var t := Apply(cfg, s, step);
      Open(t.data, j) && (Has(t, Worker(step), j) <==> Has(s, Worker(step), j) && !LetsGoAlone(s, step, j))
  {
    hide Terminal;
  }

  lemma LeaseHas(cfg: Settings, s: System, step: Step, j: JobId)
    requires Enabled(s, step) && RowInHand(s, step) && Open(s.data, j)
    requires MovesLease(step)
    ensures var t := Apply(cfg, s, step);
      Open(t.data, j) && (Has(t, Worker(step), j) <==> Has(s, Worker(step), j) && !LetsGoAlone(s, step, j))
  {
    hide Terminal;
  }

  lemma QuietHas(cfg: Settings, s: System, step: Step, j: JobId)
    requires Enabled(s, step) && RowInHand(s, step) && Open(s.data, j)
    requires Quiet(step) && !step.Start? && !step.Reclaim? && !MovesQueue(step) && !MovesLease(step)
    ensures var t := Apply(cfg, s, step);
      Open(t.data, j) && (Has(t, Worker(step), j) <==> Has(s, Worker(step), j) && !LetsGoAlone(s, step, j))
  {
  }

  /** `t` has the worker on the same job, and the queue and every other job as before. */
  ghost predicate KeepsHold(s: System, t: System, w: WorkerId, j: JobId) {
    && t.data.queue == s.data.queue && t.arriving == s.arriving
    && w in t.workers && (Open(t.data, j) ==> InHand(t.workers[w], j))
    && forall k :: k != j && Open(s.data, k) ==> Open(t.data, k) && !InHand(t.workers[w], k)
  }

  lemma FailureHolds(s: System, w: WorkerId, p: Phase)
    requires CommitDue(p) && p.at.AtFailing?
    ensures KeepsHold(s, CommitStep(s, w, p), w, p.job)
  {
    hide Record, MayRetry;
  }

  lemma ProgressHolds(s: System, w: WorkerId, p: Phase)
    requires CommitDue(p) && !p.at.AtFailing?
    ensures KeepsHold(s, CommitStep(s, w, p), w, p.job)
  {
    hide Record;
  }

  lemma CommitHas(cfg: Settings, s: System, step: Step, j: JobId)
    requires Enabled(s, step) && RowInHand(s, step) && Open(s.data, j)
    requires step.Commit?
    ensures var t := Apply(cfg, s, step);
      Open(t.data, j) ==> (Has(t, Worker(step), j) <==> Has(s, Worker(step), j) && !LetsGoAlone(s, step, j))
  {
    hide CommitStep;
    var p := s.workers[step.worker];
    if step.ok {
      if p.at.AtFailing? { FailureHolds(s, step.worker, p); } else { ProgressHolds(s, step.worker, p); }
    }
  }

  lemma PublishHas(cfg: Settings, s: System, step: Step, j: JobId)
    requires Enabled(s, step) && RowInHand(s, step) && Open(s.data, j)
    requires step.Publish?
    ensures var t := Apply(cfg, s, step);
      Open(t.data, j) ==> (Has(t, Worker(step), j) <==> Has(s, Worker(step), j) && !LetsGoAlone(s, step, j))
  {
    hide RelayEntry, DueEvent, Chunk, StreamOf;
  }

  lemma TraceHas(cfg: Settings, s: System, step: Step, j: JobId)
    requires Enabled(s, step) && RowInHand(s, step) && Open(s.data, j)
    requires step.Trace?
    ensures var t := Apply(cfg, s, step);
      Open(t.data, j) ==> (Has(t, Worker(step), j) <==> Has(s, Worker(step), j) && !LetsGoAlone(s, step, j))
  {
    hide StreamOf;
  }

  lemma RecordsHas(cfg: Settings, s: System, step: Step, j: JobId)
    requires Enabled(s, step) && Open(s.data, j)
    requires step.Submit? || step.DeleteConversation?
    requires forall k :: k in s.data.jobs ==> k in s.issued
    ensures var t := Apply(cfg, s, step);
      Open(t.data, j) && (Has(t, Worker(step), j) <==> Has(s, Worker(step), j) && !LetsGoAlone(s, step, j))
  {
  }

  /** A job that was not open is not opened, save by the submission that creates it. */
  lemma CommitNotReopens(s: System, w: WorkerId, p: Phase, j: JobId)
    requires CommitDue(p) && !Open(s.data, j)
    requires p.job in s.data.jobs ==> s.data.jobs[p.job] == p.row
    requires if p.at.AtFailing? then Terminal(p.row.status) ==> !p.at.transient
             else p.job in s.data.jobs && !Terminal(p.row.status)
    ensures !Open(CommitStep(s, w, p).data, j)
  {
  }

  /** A job that was not open is not opened, save by the submission that creates it. */
  lemma NotReopened(cfg: Settings, s: System, step: Step, j: JobId)
    requires Enabled(s, step) && RowInHand(s, step) && !Open(s.data, j)
    ensures Open(Apply(cfg, s, step).data, j) ==> step.Submit? && step.job == j
  {
    hide CommitStep, RelayEntry, AfterPublish, AfterPublishRaises;
    if step.Commit? && step.ok { CommitNotReopens(s, step.worker, s.workers[step.worker], j); }
  }

  lemma StartFinds(cfg: Settings, s: System, step: Step, j: JobId)
    requires Enabled(s, step) && step.Start? && Open(s.data, j)
    ensures Carried(Apply(cfg, s, step), j)
  {
    var t := Apply(cfg, s, step);
    assert None != Some(step.worker) && InHand(t.workers[step.worker], j);
  }

  lemma StepHas(cfg: Settings, s: System, step: Step, j: JobId)
    requires Inv(cfg, s) && Enabled(s, step) && Open(s.data, j) && !step.Start?
    ensures var t := Apply(cfg, s, step);
      && (Open(t.data, j) ==> (Has(t, Worker(step), j) <==> Has(s, Worker(step), j) && !LetsGoAlone(s, step, j)))
      && (!Writes(step) ==> Open(t.data, j))
  {
    InvRow(cfg, s, step);
    hide Apply, Enabled, Has, LetsGoAlone, RowInHand, Open, PhaseOk, StreamOk, JobShape;
    if MovesQueue(step) { QueueHas(cfg, s, step, j); }
    else if step.Reclaim? { ReclaimHas(cfg, s, step, j); }
    else if MovesLease(step) { LeaseHas(cfg, s, step, j); }
    else if step.Commit? { CommitHas(cfg, s, step, j); }
    else if step.Publish? { PublishHas(cfg, s, step, j); }
    else if step.Trace? { TraceHas(cfg, s, step, j); }
    else if step.Submit? || step.DeleteConversation? {
      assert forall k :: k in s.data.jobs ==> JobOk(s, k);
      RecordsHas(cfg, s, step, j);
    }
    else { QuietHas(cfg, s, step, j); }
  }

  lemma StepCarries(cfg: Settings, s: System, step: Step, j: JobId)
    requires Inv(cfg, s) && Enabled(s, step) && Open(s.data, j) && !step.Start?
    ensures var t := Apply(cfg, s, step);
      && (Open(t.data, j) ==> (Carried(t, j) <==> Carried(s, j) && !Loses(s, step, j)))
      && (!Writes(step) ==> Open(t.data, j))
  {
    StepHas(cfg, s, step, j);
    OthersHold(cfg, s, step, j);
    CarriedSplit(s, Worker(step), j);
    CarriedSplit(Apply(cfg, s, step), Worker(step), j);
  }

  /** A write leaves every job open that is not in its worker's hands. */
  lemma WriteLeavesOpen(cfg: Settings, s: System, step: Step, j: JobId)
    requires Enabled(s, step) && Writes(step) && Open(s.data, j)
    requires LetsGo(s, step, j) || !Carried(s, j)
    ensures Open(Apply(cfg, s, step).data, j)
  {
    var w := step.worker;
    var p := s.workers[w];
    if p.job == j {
      assert None != Some(w) && InHand(p, j);
    } else {
      WriteElsewhere(cfg, s, step);
      assert SameFor(s, Apply(cfg, s, step), j);
    }
  }

  lemma SubmittedCarried(cfg: Settings, s: System, step: Step)
    requires Enabled(s, step) && step.Submit?
    ensures Carried(Apply(cfg, s, step), step.job)
  {
  }

  /** An open job that somebody carried is lost by a step if and only if the step lets go of it
      and nobody else has it. */
  lemma LossIff(cfg: Settings, s: System, step: Step, j: JobId)
    requires ValidSettings(cfg) && Reachable(cfg, s) && Enabled(s, step)
    requires !Lost(s, j)
    ensures Lost(Apply(cfg, s, step), j) <==> Loses(s, step, j)
  {
    ReachableOk(cfg, s);
    hide Inv, Apply, Enabled;
    if !Open(s.data, j) {
      InvRow(cfg, s, step);
      NotReopened(cfg, s, step, j);
      if step.Submit? { SubmittedCarried(cfg, s, step); }
    } else if step.Start? {
      StartFinds(cfg, s, step, j);
    } else {
      StepCarries(cfg, s, step, j);
      if Writes(step) && LetsGo(s, step, j) { WriteLeavesOpen(cfg, s, step, j); }
    }
  }

  /** A lost job is found again by a worker that starts, and by nothing else. */
  lemma LostStays(cfg: Settings, s: System, step: Step, j: JobId)
    requires ValidSettings(cfg) && Reachable(cfg, s) && Enabled(s, step)
    requires Lost(s, j)
    ensures Lost(Apply(cfg, s, step), j) <==> !step.Start?
  {
    ReachableOk(cfg, s);
    hide Inv, Apply, Enabled;
    if step.Start? {
      StartFinds(cfg, s, step, j);
    } else {
      StepCarries(cfg, s, step, j);
      if Writes(step) { WriteLeavesOpen(cfg, s, step, j); }
    }
  }

  // --- Whole runs -----------------------------------------------------------------------------

  /** Step `i` of the run lost the job, and no worker has started since. */
  ghost predicate LostAt(cfg: Settings, steps: seq<Step>, i: nat, j: JobId)
    requires Legal(cfg, steps) && i < |steps|
  {
    PrefixLegal(cfg, steps, i);
    Loses(After(cfg, steps[..i]), steps[i], j) && forall k :: i < k < |steps| ==> !steps[k].Start?
  }

  lemma NothingLostYet(j: JobId)
    ensures Calm(Init) && !Lost(Init, j)
  {
  }

  lemma StartLosesNothing(s: System, step: Step, j: JobId)
    ensures Loses(s, step, j) ==> !step.Start?
  {
  }

  lemma LostAtLonger(cfg: Settings, steps: seq<Step>, i: nat, j: JobId)
    requires Legal(cfg, steps) && i < |steps| - 1
    ensures Legal(cfg, steps[..|steps| - 1])
    ensures LostAt(cfg, steps, i, j) <==> LostAt(cfg, steps[..|steps| - 1], i, j) && !steps[|steps| - 1].Start?
  {
    hide Loses, Enabled, Apply;
    var last := |steps| - 1;
    PrefixLegal(cfg, steps, i);
    PrefixLegal(cfg, steps[..last], i);
    assert steps[..last][..i] == steps[..i];
  }

  /** Over every run, with any number of workers and every failure: a job stands open with nobody
      to get to it if and only if some step lost it and no worker has started since. */
  lemma {:induction false} LostIff(cfg: Settings, steps: seq<Step>, j: JobId)
    requires ValidSettings(cfg) && Legal(cfg, steps)
    ensures Lost(After(cfg, steps), j) <==> exists i :: 0 <= i < |steps| && LostAt(cfg, steps, i, j)
  {
    hide Loses, Enabled, Apply, Lost;
    if steps == [] {
      NothingLostYet(j);
    } else {
      var last := |steps| - 1;
      var s := After(cfg, steps[..last]);
      LostIff(cfg, steps[..last], j);
      LegalReachable(cfg, steps[..last]);
      if Lost(s, j) { LostStays(cfg, s, steps[last], j); } else { LossIff(cfg, s, steps[last], j); }
      forall i | 0 <= i < last
        ensures LostAt(cfg, steps, i, j) <==> LostAt(cfg, steps[..last], i, j) && !steps[last].Start?
      {
        LostAtLonger(cfg, steps, i, j);
      }
      assert LostAt(cfg, steps, last, j) <==> Loses(s, steps[last], j);
      StartLosesNothing(s, steps[last], j);
    }
  }

  // --- When nothing is ever lost --------------------------------------------------------------

  /** What can go wrong around a job, or a second worker. */
  datatype Slip =
    | SecondWorker
    | WorkerDies
    | SubmitterDies
    | Escapes
    | HandlerCommitRaises
    | RetryStatusRaises
    | RequeueRaises
    | ReleaseRaises

  function SlipOf(s: System, step: Step): Option<Slip> {
    match step
    case Start(_, _) => if s.workers != map[] then Some(SecondWorker) else None
    case Die(_) => Some(WorkerDies)
    case ApiDies(_) => Some(SubmitterDies)
    case Cancel(_) => Some(Escapes)
    case Commit(w, ok) =>
      if !ok && w in s.workers && s.workers[w].Working? && s.workers[w].at.AtFailing? then Some(HandlerCommitRaises)
      else None
    case Publish(w, result) =>
      if !result.Published? && w in s.workers && s.workers[w].Working? && s.workers[w].at.AtRetryingStatus?
      then Some(RetryStatusRaises) else None
    case Requeue(_, ok) => if !ok then Some(RequeueRaises) else None
    case Release(_, ok) => if !ok then Some(ReleaseRaises) else None
    case _ => None
  }

  ghost function Slips(cfg: Settings, steps: seq<Step>): set<Slip>
    requires Legal(cfg, steps)
  {
    if steps == [] then {}
    else
      var last := |steps| - 1;
      Slips(cfg, steps[..last]) +
      match SlipOf(After(cfg, steps[..last]), steps[last])
      case Some(slip) => {slip}
      case None => {}
  }

  /** While nothing has slipped: one worker, and no lease but the one it will give back. */
  ghost predicate Calm(s: System) {
    && (forall v, w :: v in s.workers && w in s.workers ==> v == w)
    && (forall j :: j in s.data.leases ==> exists w :: w in s.workers && Holds(s.workers[w], j))
  }

  lemma CalmAlone(s: System, w: WorkerId, j: JobId)
    requires Calm(s) && w in s.workers && j in s.data.leases
    ensures Holds(s.workers[w], j)
  {
  }

  lemma CalmWorkers(cfg: Settings, s: System, step: Step)
    requires Calm(s) && Enabled(s, step) && SlipOf(s, step).None?
    ensures var t := Apply(cfg, s, step);
      forall v, w :: v in t.workers && w in t.workers ==> v == w
  {
    OthersStand(cfg, s, step);
    hide Apply;
    if step.Start? { assert s.workers == map[]; }
  }

  lemma WriteCalm(cfg: Settings, s: System, step: Step)
    requires Calm(s) && Enabled(s, step) && Writes(step)
    ensures var t := Apply(cfg, s, step);
      forall j :: j in t.data.leases ==> step.worker in t.workers && Holds(t.workers[step.worker], j)
  {
    WriteMoves(cfg, s, step);
    var w := step.worker;
    var p := s.workers[w];
    assert forall j :: j in s.data.leases ==> j == p.job by {
      forall j | j in s.data.leases ensures j == p.job { CalmAlone(s, w, j); }
    }
    hide Calm, RelayEntry, DueEvent, Record, Complete, StreamOf, MayRetry;
    assert Holds(Apply(cfg, s, step).workers[w], p.job);
  }

  lemma QuietCalm(cfg: Settings, s: System, step: Step, j: JobId)
    requires Calm(s) && Enabled(s, step) && SlipOf(s, step).None? && !Writes(step)
    requires j in Apply(cfg, s, step).data.leases
    ensures var t := Apply(cfg, s, step);
      exists w :: w in t.workers && Holds(t.workers[w], j)
  {
    var t := Apply(cfg, s, step);
    if Worker(step).Some? && step.worker in s.workers {
      var w := step.worker;
      if j in s.data.leases { CalmAlone(s, w, j); }
      hide Calm;
      assert Holds(t.workers[w], j);
    } else {
      var w :| w in s.workers && Holds(s.workers[w], j);
      hide Calm;
      OthersStand(cfg, s, step);
      assert Holds(t.workers[w], j);
    }
  }

  lemma CalmStays(cfg: Settings, s: System, step: Step)
    requires Calm(s) && Enabled(s, step) && SlipOf(s, step).None?
    ensures Calm(Apply(cfg, s, step))
  {
    CalmWorkers(cfg, s, step);
    var t := Apply(cfg, s, step);
    hide Apply, Enabled;
    forall j | j in t.data.leases ensures exists w :: w in t.workers && Holds(t.workers[w], j) {
      if Writes(step) {
        WriteCalm(cfg, s, step);
      } else {
        QuietCalm(cfg, s, step, j);
      }
    }
  }

  lemma CalmKeepsHold(s: System, step: Step, j: JobId)
    requires Calm(s) && Enabled(s, step) && SlipOf(s, step).None?
    ensures !Loses(s, step, j)
  {
  }

  lemma {:induction false} NoSlipNoLoss(cfg: Settings, steps: seq<Step>, j: JobId)
    requires ValidSettings(cfg) && Legal(cfg, steps) && Slips(cfg, steps) == {}
    ensures Calm(After(cfg, steps)) && !Lost(After(cfg, steps), j)
  {
    hide Loses, Lost, Calm, Apply, Enabled, SlipOf;
    if steps == [] {
      NothingLostYet(j);
    } else {
      var last := |steps| - 1;
      var s := After(cfg, steps[..last]);
      NoSlipNoLoss(cfg, steps[..last], j);
      LegalReachable(cfg, steps[..last]);
      CalmStays(cfg, s, steps[last]);
      CalmKeepsHold(s, steps[last], j);
      LossIff(cfg, s, steps[last], j);
    }
  }

  // --- Each slip alone can lose a job ---------------------------------------------------------

  /** The run is legal, ends in `s`, and slipped in these ways only. */
  ghost predicate Led(cfg: Settings, steps: seq<Step>, slips: set<Slip>, s: System) {
    Legal(cfg, steps) && After(cfg, steps) == s && Slips(cfg, steps) == slips
  }

  /** One step more, nothing slipping. */
  lemma Go(cfg: Settings, steps: seq<Step>, slips: set<Slip>, s: System, step: Step)
    returns (longer: seq<Step>, t: System)
    requires Led(cfg, steps, slips, s) && Enabled(s, step) && SlipOf(s, step).None?
    ensures t == Apply(cfg, s, step) && Led(cfg, longer, slips, t)
  {
    longer, t := steps + [step], Apply(cfg, s, step);
    Extend(cfg, steps, step);
    assert longer[..|steps|] == steps;
  }

  /** The one step that slips. */
  lemma Slipping(cfg: Settings, steps: seq<Step>, s: System, step: Step, slip: Slip)
    returns (longer: seq<Step>, t: System)
    requires Led(cfg, steps, {}, s) && Enabled(s, step) && SlipOf(s, step) == Some(slip)
    ensures t == Apply(cfg, s, step) && Led(cfg, longer, {slip}, t)
  {
    longer, t := steps + [step], Apply(cfg, s, step);
    Extend(cfg, steps, step);
    assert longer[..|steps|] == steps;
  }

  /** Worker "a" in phase `p`, alone or with "b" idle. */
  function Crew(two: bool, p: Phase): map<WorkerId, Phase> {
    if two then map["a" := p, "b" := Idle] else map["a" := p]
  }

  function CrewSlips(two: bool): set<Slip> {
    if two then {SecondWorker} else {}
  }

  /** One job of two attempts, in the hands of "a". */
  ghost predicate InCharge(s: System, two: bool, p: Phase, queue: seq<JobId>) {
    && s.workers == Crew(two, p) && s.arriving == {}
    && s.data.jobs.Keys == {0} && s.data.queue == queue && s.data.leases == map[0 := "a"]
    && !Terminal(s.data.jobs[0].status) && s.data.jobs[0].maxAttempts == 2
    && (p.Working? ==> p.row == s.data.jobs[0])
  }

  lemma Crewed(cfg: Settings, two: bool) returns (steps: seq<Step>, s: System)
    ensures Led(cfg, steps, CrewSlips(two), s)
    ensures s == Init.(workers := Crew(two, Idle))
  {
    assert Led(cfg, [], {}, Init);
    hide Led;
    steps, s := Go(cfg, [], {}, Init, Start("a", []));
    steps, s := Go(cfg, steps, {}, s, Reclaim("a"));
    if two {
      steps, s := Slipping(cfg, steps, s, Start("b", []), SecondWorker);
      steps, s := Go(cfg, steps, {SecondWorker}, s, Reclaim("b"));
    }
  }

  lemma Submitted(cfg: Settings, two: bool) returns (steps: seq<Step>, s: System)
    ensures Led(cfg, steps, CrewSlips(two), s)
    ensures s.workers == Crew(two, Idle) && s.arriving == {0}
    ensures s.data.jobs == map[0 := NewJob(0, "", "", 2)] && s.data.queue == [] && s.data.leases == map[]
  {
    steps, s := Crewed(cfg, two);
    hide Led;
    steps, s := Go(cfg, steps, CrewSlips(two), s, Submit(0, 0, "", "", 2));
  }

  lemma Fetched(cfg: Settings, two: bool) returns (steps: seq<Step>, s: System)
    ensures Led(cfg, steps, CrewSlips(two), s)
    ensures InCharge(s, two, Leased(0), []) && s.data.jobs[0].attempt == 0
  {
    steps, s := Submitted(cfg, two);
    hide Led;
    var slips := CrewSlips(two);
    steps, s := Go(cfg, steps, slips, s, Enqueue(0));
    steps, s := Go(cfg, steps, slips, s, Pop("a"));
    steps, s := Go(cfg, steps, slips, s, Take("a"));
  }

  lemma Begun(cfg: Settings, two: bool) returns (steps: seq<Step>, s: System)
    ensures Led(cfg, steps, CrewSlips(two), s)
    ensures "a" in s.workers && s.workers["a"].Working? && s.workers["a"].at == AtRetrievingStatus
    ensures InCharge(s, two, s.workers["a"], []) && s.workers["a"].job == 0 && s.data.jobs[0].attempt == 1
  {
    steps, s := Fetched(cfg, two);
    hide Led;
    steps, s := Go(cfg, steps, CrewSlips(two), s, Read("a"));
    steps, s := Go(cfg, steps, CrewSlips(two), s, Commit("a", true));
  }

  lemma Failing(cfg: Settings, two: bool) returns (steps: seq<Step>, s: System)
    ensures Led(cfg, steps, CrewSlips(two), s)
    ensures "a" in s.workers && s.workers["a"].Working? && s.workers["a"].at == AtFailing(true, "")
    ensures InCharge(s, two, s.workers["a"], []) && s.workers["a"].job == 0 && s.data.jobs[0].attempt == 1
  {
    steps, s := Begun(cfg, two);
    hide Led;
    steps, s := Go(cfg, steps, CrewSlips(two), s, Publish("a", Published));
    steps, s := Go(cfg, steps, CrewSlips(two), s, Raise("a", true, ""));
  }

  lemma Retried(cfg: Settings, two: bool) returns (steps: seq<Step>, s: System)
    ensures Led(cfg, steps, CrewSlips(two), s)
    ensures "a" in s.workers && s.workers["a"].Working? && s.workers["a"].at == AtRetryingStatus
    ensures InCharge(s, two, s.workers["a"], []) && s.workers["a"].job == 0
  {
    steps, s := Failing(cfg, two);
    hide Led;
    steps, s := Go(cfg, steps, CrewSlips(two), s, Commit("a", true));
  }

  lemma RetryAnnounced(cfg: Settings, two: bool) returns (steps: seq<Step>, s: System)
    ensures Led(cfg, steps, CrewSlips(two), s)
    ensures "a" in s.workers && s.workers["a"].Working? && s.workers["a"].at == AtRequeue
    ensures InCharge(s, two, s.workers["a"], []) && s.workers["a"].job == 0
  {
    steps, s := Retried(cfg, two);
    hide Led;
    steps, s := Go(cfg, steps, CrewSlips(two), s, Publish("a", Published));
  }

  lemma Requeued(cfg: Settings, two: bool) returns (steps: seq<Step>, s: System)
    ensures Led(cfg, steps, CrewSlips(two), s)
    ensures InCharge(s, two, Releasing(0), [0])
  {
    steps, s := RetryAnnounced(cfg, two);
    hide Led;
    steps, s := Go(cfg, steps, CrewSlips(two), s, Requeue("a", true));
  }

  /** The entry of a retry is popped while its lease still stands, and dropped. */
  lemma DroppedByAnother(cfg: Settings) returns (steps: seq<Step>, s: System)
    ensures Led(cfg, steps, {SecondWorker}, s) && Lost(s, 0)
  {
    steps, s := Requeued(cfg, true);
    hide Led;
    steps, s := Go(cfg, steps, {SecondWorker}, s, Pop("b"));
    steps, s := Go(cfg, steps, {SecondWorker}, s, Take("b"));
  }

  lemma DroppedByItself(cfg: Settings) returns (steps: seq<Step>, s: System)
    ensures Led(cfg, steps, {ReleaseRaises}, s) && Lost(s, 0)
  {
    steps, s := Requeued(cfg, false);
    hide Led;
    steps, s := Slipping(cfg, steps, s, Release("a", false), ReleaseRaises);
    steps, s := Go(cfg, steps, {ReleaseRaises}, s, Pop("a"));
    steps, s := Go(cfg, steps, {ReleaseRaises}, s, Take("a"));
  }

  /** The step by which a lone worker, or the API before it has enqueued, leaves the job. */
  lemma Abandoned(cfg: Settings, before: seq<Step>, s: System, step: Step, slip: Slip)
    returns (steps: seq<Step>, t: System)
    requires Led(cfg, before, {}, s) && Enabled(s, step) && SlipOf(s, step) == Some(slip)
    requires ValidSettings(cfg) && Loses(s, step, 0) && Carried(s, 0)
    ensures Led(cfg, steps, {slip}, t) && Lost(t, 0)
  {
    LegalReachable(cfg, before);
    LossIff(cfg, s, step, 0);
    hide Loses, Carried, Enabled, Apply;
    steps, t := Slipping(cfg, before, s, step, slip);
  }

  lemma AloneCarries(s: System, p: Phase, queue: seq<JobId>)
    requires InCharge(s, false, p, queue) && InHand(p, 0)
    ensures Carried(s, 0) && !HeldApartFrom(s, Some("a"), 0)
  {
    assert "a" in s.workers && InHand(s.workers["a"], 0);
  }

  lemma LostWhileWorking(cfg: Settings, slip: Slip) returns (steps: seq<Step>, s: System)
    requires ValidSettings(cfg)
    requires slip.HandlerCommitRaises? || slip.RetryStatusRaises? || slip.RequeueRaises?
    ensures Led(cfg, steps, {slip}, s) && Lost(s, 0)
  {
    var step: Step;
    if slip.HandlerCommitRaises? {
      steps, s := Failing(cfg, false);
      step := Commit("a", false);
    } else if slip.RetryStatusRaises? {
      steps, s := Retried(cfg, false);
      step := Publish("a", RaisedBefore);
    } else {
      steps, s := RetryAnnounced(cfg, false);
      step := Requeue("a", false);
    }
    hide Led;
    AloneCarries(s, s.workers["a"], []);
    steps, s := Abandoned(cfg, steps, s, step, slip);
  }

  lemma LostByLeaving(cfg: Settings, slip: Slip) returns (steps: seq<Step>, s: System)
    requires ValidSettings(cfg)
    requires slip.WorkerDies? || slip.Escapes?
    ensures Led(cfg, steps, {slip}, s) && Lost(s, 0)
  {
    steps, s := Fetched(cfg, false);
    hide Led;
    AloneCarries(s, Leased(0), []);
    steps, s := Abandoned(cfg, steps, s, if slip.WorkerDies? then Die("a") else Cancel("a"), slip);
  }

  lemma LostBeforeQueued(cfg: Settings) returns (steps: seq<Step>, s: System)
    requires ValidSettings(cfg)
    ensures Led(cfg, steps, {SubmitterDies}, s) && Lost(s, 0)
  {
    steps, s := Submitted(cfg, false);
    hide Led;
    steps, s := Abandoned(cfg, steps, s, ApiDies(0), SubmitterDies);
  }

  /** Each slip alone can leave a job open with nobody to get to it: from the empty system, a run
      with nothing else out of the ordinary. */
  lemma SlipLoses(cfg: Settings, slip: Slip) returns (steps: seq<Step>, s: System)
    requires ValidSettings(cfg)
    ensures Led(cfg, steps, {slip}, s) && Lost(s, 0)
  {
    hide Led, Lost;
    match slip
    case SecondWorker => steps, s := DroppedByAnother(cfg);
    case ReleaseRaises => steps, s := DroppedByItself(cfg);
    case SubmitterDies => steps, s := LostBeforeQueued(cfg);
    case WorkerDies => steps, s := LostByLeaving(cfg, slip);
    case Escapes => steps, s := LostByLeaving(cfg, slip);
    case _ => steps, s := LostWhileWorking(cfg, slip);
  }

  /** Runs that slip in none but the allowed ways never lose a job. */
  ghost predicate NeverLoses(cfg: Settings, allowed: set<Slip>) {
    forall steps, j :: Legal(cfg, steps) && Slips(cfg, steps) <= allowed ==> !Lost(After(cfg, steps), j)
  }

  /** No slip can be afforded: with one worker and none of the others, every open job is carried in
      every state of every run; allow any one of them and some run loses a job. */
  lemma NeverLosesIff(cfg: Settings, allowed: set<Slip>)
    requires ValidSettings(cfg)
    ensures NeverLoses(cfg, allowed) <==> allowed == {}
  {
    hide Lost;
    if allowed == {} {
      forall steps, j | Legal(cfg, steps) && Slips(cfg, steps) <= allowed ensures !Lost(After(cfg, steps), j) {
        NoSlipNoLoss(cfg, steps, j);
      }
    } else {
      var slip :| slip in allowed;
      var steps, s := SlipLoses(cfg, slip);
      assert Slips(cfg, steps) <= allowed && Lost(After(cfg, steps), 0);
    }
  }
}
