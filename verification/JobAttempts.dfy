/** What attempts, commits and publishes write, entry by entry. */
module JobAttempts {
  import opened Options
  import opened JobModel
  import opened JobProtocol
  import opened JobSafety
  import JobStore

  // --- One attempt, when no call of the store raises ------------------------------------------

  function Reports(steps: seq<string>): (events: Stream)
    ensures |events| == |steps| && forall i :: 0 <= i < |steps| ==> events[i] == TraceEvent(steps[i])
  {
    seq(|steps|, i requires 0 <= i < |steps| => TraceEvent(steps[i]))
  }

  /** The job's row took `entries` into its history and stands at the last; its stream took `events`;
      no other row, no other stream and no lease changed. */
  ghost predicate Wrote(d: Shared, d': Shared, j: JobId, attempt: nat, entries: History, events: Stream)
    requires j in d.jobs && entries != []
  {
    var row, last := d.jobs[j], entries[|entries| - 1];
    && d'.jobs == d.jobs[j := Job(row.conversation, row.key, row.question, row.maxAttempts, last.status, last.error,
                                  attempt, row.transitions + entries)]
    && StreamOf(d', j) == StreamOf(d, j) + events
    && (forall k :: k != j ==> StreamOf(d', k) == StreamOf(d, k))
    && d'.leases == d.leases
  }

  /** Only the job's stream grew, by `events`. */
  ghost predicate Told(d: Shared, d': Shared, j: JobId, events: Stream) {
    && d'.(streams := d.streams) == d
    && StreamOf(d', j) == StreamOf(d, j) + events
    && forall k :: k != j ==> StreamOf(d', k) == StreamOf(d, k)
  }

  ghost predicate SameQueueAndTurns(d: Shared, d': Shared) {
    d'.queue == d.queue && d'.turns == d.turns
  }

  lemma WroteThen(d: Shared, d1: Shared, d2: Shared, j: JobId, a1: nat, a2: nat, h1: History, h2: History, v1: Stream,
                  v2: Stream)
    requires j in d.jobs && h1 != [] && h2 != []
    requires Wrote(d, d1, j, a1, h1, v1) && Wrote(d1, d2, j, a2, h2, v2)
    ensures Wrote(d, d2, j, a2, h1 + h2, v1 + v2)
  {
    assert d.jobs[j].transitions + h1 + h2 == d.jobs[j].transitions + (h1 + h2);
    assert StreamOf(d, j) + v1 + v2 == StreamOf(d, j) + (v1 + v2);
    assert d.jobs[j := d1.jobs[j]][j := d2.jobs[j]] == d.jobs[j := d2.jobs[j]];
  }

  lemma WroteTold(d: Shared, d1: Shared, d2: Shared, j: JobId, a: nat, h: History, v: Stream, more: Stream)
    requires j in d.jobs && h != [] && Wrote(d, d1, j, a, h, v) && Told(d1, d2, j, more)
    ensures Wrote(d, d2, j, a, h, v + more) && SameQueueAndTurns(d1, d2)
  {
    assert StreamOf(d, j) + v + more == StreamOf(d, j) + (v + more);
  }

  lemma ToldThen(d: Shared, d1: Shared, d2: Shared, j: JobId, v1: Stream, v2: Stream)
    requires Told(d, d1, j, v1) && Told(d1, d2, j, v2)
    ensures Told(d, d2, j, v1 + v2)
  {
    assert StreamOf(d, j) + v1 + v2 == StreamOf(d, j) + (v1 + v2);
  }

  lemma {:induction false} TracedTells(d: Shared, j: JobId, steps: seq<string>)
    ensures Told(d, JobStore.Traced(d, j, steps, JobStore.FAIR.attempt), j, Reports(steps))
    decreases |steps|
  {
    if steps == [] {
      assert StreamOf(d, j) + Reports(steps) == StreamOf(d, j);
    } else {
      var n := |steps| - 1;
      TracedTells(d, j, steps[..n]);
      assert Reports(steps) == Reports(steps[..n]) + [TraceEvent(steps[n])];
      ToldThen(d, JobStore.Traced(d, j, steps[..n], JobStore.FAIR.attempt),
               JobStore.Traced(d, j, steps, JobStore.FAIR.attempt), j, Reports(steps[..n]), [TraceEvent(steps[n])]);
    }
  }

  /** The pieces of an answer in order, each of `size` characters but the last, and then the whole. */
  function Delivery(reply: Reply, size: nat, n: nat): (events: Stream)
    requires size > 0
    decreases |reply.content| - n * size
  {
    var from := n * size;
    if from >= |reply.content| then [FinalEvent(reply)]
    else
      var upto := if from + size <= |reply.content| then from + size else |reply.content|;
      [DeltaEvent(reply.content[from..upto])] + Delivery(reply, size, n + 1)
  }

  lemma {:induction false} RelayTells(d: Shared, j: JobId, reply: Reply, n: nat, size: nat, first: nat)
    requires size > 0
    ensures var relayed := JobStore.RelayFrom(d, j, reply, n, size, JobStore.FAIR.attempt, first);
      relayed.1 && Told(d, relayed.0, j, Delivery(reply, size, n))
    decreases |reply.content| - n * size
  {
    var next := Append(d, j, RelayEntry(reply, n, size));
    if n * size < |reply.content| {
      assert (n + 1) * size == n * size + size;
      RelayTells(next, j, reply, n + 1, size, first);
      var relayed := JobStore.RelayFrom(d, j, reply, n, size, JobStore.FAIR.attempt, first);
      ToldThen(d, next, relayed.0, j, [RelayEntry(reply, n, size)], Delivery(reply, size, n + 1));
    }
  }

  lemma BegunWrites(d: Shared, j: JobId)
    requires j in d.jobs
    ensures var begun := JobStore.Begun(d, j, JobStore.FAIR.attempt); var a := d.jobs[j].attempt + 1;
      && begun.1 && SameQueueAndTurns(d, begun.0)
      && Wrote(d, begun.0, j, a, [Transition(Retrieving, None)], [StatusEvent(Retrieving, a)])
  {
  }

  lemma GeneratedWrites(d: Shared, j: JobId)
    requires j in d.jobs
    ensures var generated := JobStore.Generated(d, j, JobStore.FAIR.attempt); var a := d.jobs[j].attempt;
      && generated.1 && SameQueueAndTurns(d, generated.0)
      && Wrote(d, generated.0, j, a, [Transition(Generating, None)], [StatusEvent(Generating, a)])
  {
  }

  /** What the failure handler writes: a retry exactly for an error that is transient while attempts are
      left, and then the job is queued; otherwise the end, with its error. */
  lemma FailureWrites(d: Shared, j: JobId, transient: bool, error: ErrorCode)
    requires j in d.jobs
    ensures var d' := JobStore.FailAttempt(d, j, transient, error, JobStore.FAIR.handler); var a := d.jobs[j].attempt;
      && d'.turns == d.turns
      && if transient && a < d.jobs[j].maxAttempts then
           && Wrote(d, d', j, a, [Transition(Retrying, Some(error))], [StatusEvent(Retrying, a)])
           && d'.queue == [j] + d.queue
         else
           && Wrote(d, d', j, a, [Transition(Failed, Some(error))], [ErrorEvent(error)])
           && d'.queue == d.queue
  {
  }

  const OPENING: History := [Transition(Retrieving, None), Transition(Generating, None)]

  function OpeningEvents(attempt: nat, steps: seq<string>): Stream {
    [StatusEvent(Retrieving, attempt)] + [StatusEvent(Generating, attempt)] + Reports(steps)
  }

  /** The store when the agent is through. */
  lemma OpeningWrites(d: Shared, j: JobId, steps: seq<string>)
    requires j in d.jobs
    ensures var begun := JobStore.Begun(d, j, JobStore.FAIR.attempt); var a := d.jobs[j].attempt + 1;
      && begun.1 && j in begun.0.jobs
      && var generated := JobStore.Generated(begun.0, j, JobStore.FAIR.attempt);
      && generated.1
      && var traced := JobStore.Traced(generated.0, j, steps, JobStore.FAIR.attempt);
      && Wrote(d, traced, j, a, OPENING, OpeningEvents(a, steps)) && SameQueueAndTurns(d, traced)
  {
    var fates, a := JobStore.FAIR.attempt, d.jobs[j].attempt + 1;
    BegunWrites(d, j);
    var begun := JobStore.Begun(d, j, fates).0;
    GeneratedWrites(begun, j);
    var generated := JobStore.Generated(begun, j, fates).0;
    TracedTells(generated, j, steps);
    hide JobStore.Begun, JobStore.Generated, JobStore.Traced;
    WroteThen(d, begun, generated, j, a, a, [Transition(Retrieving, None)], [Transition(Generating, None)],
              [StatusEvent(Retrieving, a)], [StatusEvent(Generating, a)]);
    assert OPENING == [Transition(Retrieving, None)] + [Transition(Generating, None)];
    WroteTold(d, generated, JobStore.Traced(generated, j, steps, fates), j, a, OPENING,
              [StatusEvent(Retrieving, a)] + [StatusEvent(Generating, a)], Reports(steps));
  }

  /** An attempt whose agent raises: the job is tried again if and only if the error is transient and
      this was not the last attempt; then it is queued, and otherwise it has failed with that error. */
  lemma AgentRaising(cfg: Settings, d: Shared, j: JobId, steps: seq<string>, transient: bool, error: ErrorCode)
    requires ValidSettings(cfg) && j in d.jobs
    ensures var d' := JobStore.Attempt(cfg, d, j, JobStore.AgentRaises(steps, transient, error), JobStore.FAIR);
      var a := d.jobs[j].attempt + 1;
      && d'.turns == d.turns
      && if transient && a < d.jobs[j].maxAttempts then
           && Wrote(d, d', j, a, OPENING + [Transition(Retrying, Some(error))],
                    OpeningEvents(a, steps) + [StatusEvent(Retrying, a)])
           && d'.queue == [j] + d.queue
         else
           && Wrote(d, d', j, a, OPENING + [Transition(Failed, Some(error))],
                    OpeningEvents(a, steps) + [ErrorEvent(error)])
           && d'.queue == d.queue
  {
    OpeningWrites(d, j, steps);
    var fates, a := JobStore.FAIR.attempt, d.jobs[j].attempt + 1;
    var begun := JobStore.Begun(d, j, fates).0;
    var traced := JobStore.Traced(JobStore.Generated(begun, j, fates).0, j, steps, fates);
    FailureWrites(traced, j, transient, error);
    var d' := JobStore.FailAttempt(traced, j, transient, error, JobStore.FAIR.handler);
    hide JobStore.FailAttempt, JobStore.Begun, JobStore.Generated, JobStore.Traced, OpeningEvents;
    if transient && a < d.jobs[j].maxAttempts {
      WroteThen(d, traced, d', j, a, a, OPENING, [Transition(Retrying, Some(error))], OpeningEvents(a, steps),
                [StatusEvent(Retrying, a)]);
    } else {
      WroteThen(d, traced, d', j, a, a, OPENING, [Transition(Failed, Some(error))], OpeningEvents(a, steps),
                [ErrorEvent(error)]);
    }
  }

  /** The same when the conversation's history cannot be read. */
  lemma HistoryRaising(cfg: Settings, d: Shared, j: JobId, transient: bool, error: ErrorCode)
    requires ValidSettings(cfg) && j in d.jobs
    ensures var d' := JobStore.Attempt(cfg, d, j, JobStore.HistoryRaises(transient, error), JobStore.FAIR);
      var a := d.jobs[j].attempt + 1;
      && d'.turns == d.turns
      && if transient && a < d.jobs[j].maxAttempts then
           && Wrote(d, d', j, a, [Transition(Retrieving, None)] + [Transition(Retrying, Some(error))],
                    [StatusEvent(Retrieving, a)] + [StatusEvent(Retrying, a)])
           && d'.queue == [j] + d.queue
         else
           && Wrote(d, d', j, a, [Transition(Retrieving, None)] + [Transition(Failed, Some(error))],
                    [StatusEvent(Retrieving, a)] + [ErrorEvent(error)])
           && d'.queue == d.queue
  {
    BegunWrites(d, j);
    var a, begun := d.jobs[j].attempt + 1, JobStore.Begun(d, j, JobStore.FAIR.attempt).0;
    FailureWrites(begun, j, transient, error);
    var d' := JobStore.FailAttempt(begun, j, transient, error, JobStore.FAIR.handler);
    hide JobStore.FailAttempt, JobStore.Begun;
    if transient && a < d.jobs[j].maxAttempts {
      WroteThen(d, begun, d', j, a, a, [Transition(Retrieving, None)], [Transition(Retrying, Some(error))],
                [StatusEvent(Retrieving, a)], [StatusEvent(Retrying, a)]);
    } else {
      WroteThen(d, begun, d', j, a, a, [Transition(Retrieving, None)], [Transition(Failed, Some(error))],
                [StatusEvent(Retrieving, a)], [ErrorEvent(error)]);
    }
  }

  lemma CompletedWrites(d: Shared, j: JobId, reply: Reply)
    requires j in d.jobs
    ensures var d', row := Complete(d, j, d.jobs[j], reply), d.jobs[j];
      && Wrote(d, d', j, row.attempt, [Transition(Completed, reply.code)], [])
      && d'.queue == d.queue
      && d'.turns == d.turns[row.conversation := TurnsOf(d, row.conversation) + [AssistantTurn(j, reply)]]
  {
    assert StreamOf(d, j) + [] == StreamOf(d, j);
  }

  lemma AnswerWrites(cfg: Settings, d: Shared, j: JobId, steps: seq<string>, reply: Reply)
    requires ValidSettings(cfg) && j in d.jobs
    ensures var d' := JobStore.AfterAgent(cfg, d, j, JobStore.AgentAnswers(steps, reply), JobStore.FAIR);
      var row := d.jobs[j];
      && Wrote(d, d', j, row.attempt, [Transition(Completed, reply.code)], Delivery(reply, cfg.streamChunkChars, 0))
      && d'.queue == d.queue
      && d'.turns == d.turns[row.conversation := TurnsOf(d, row.conversation) + [AssistantTurn(j, reply)]]
  {
    var fates, first := JobStore.FAIR.attempt, 4 + |steps| + 1;
    var done := Complete(d, j, d.jobs[j], reply);
    var d' := JobStore.RelayFrom(done, j, reply, 0, cfg.streamChunkChars, fates, first).0;
    CompletedWrites(d, j, reply);
    RelayTells(done, j, reply, 0, cfg.streamChunkChars, first);
    var pieces := Delivery(reply, cfg.streamChunkChars, 0);
    assert [] + pieces == pieces;
    hide JobStore.RelayFrom, Delivery, Complete;
    WroteTold(d, done, d', j, d.jobs[j].attempt, [Transition(Completed, reply.code)], [], pieces);
  }

  /** An attempt whose agent answers: the answer is stored in the conversation and the job completed
      with its code; then the pieces go out, and the whole. */
  lemma AgentAnswering(cfg: Settings, d: Shared, j: JobId, steps: seq<string>, reply: Reply)
    requires ValidSettings(cfg) && j in d.jobs
    ensures var d' := JobStore.Attempt(cfg, d, j, JobStore.AgentAnswers(steps, reply), JobStore.FAIR);
      var a, c := d.jobs[j].attempt + 1, d.jobs[j].conversation;
      && Wrote(d, d', j, a, OPENING + [Transition(Completed, reply.code)],
               OpeningEvents(a, steps) + Delivery(reply, cfg.streamChunkChars, 0))
      && d'.queue == d.queue
      && d'.turns == d.turns[c := TurnsOf(d, c) + [AssistantTurn(j, reply)]]
  {
    OpeningWrites(d, j, steps);
    var fates, a := JobStore.FAIR.attempt, d.jobs[j].attempt + 1;
    var begun := JobStore.Begun(d, j, fates).0;
    var traced := JobStore.Traced(JobStore.Generated(begun, j, fates).0, j, steps, fates);
    AnswerWrites(cfg, traced, j, steps, reply);
    hide JobStore.AfterAgent, JobStore.Begun, JobStore.Generated, JobStore.Traced, OpeningEvents, Delivery;
    var d' := JobStore.AfterAgent(cfg, traced, j, JobStore.AgentAnswers(steps, reply), JobStore.FAIR);
    WroteThen(d, traced, d', j, a, a, OPENING, [Transition(Completed, reply.code)], OpeningEvents(a, steps),
              Delivery(reply, cfg.streamChunkChars, 0));
  }

  // --- Every commit and publish of a run -------------------------------------------------------

  /** What a worker's commit writes into its row, by where the worker stands. */
  function EntryDue(row: Job, at: Point): Transition
    requires at.AtStart? || at.AtHistory? || at.AtPersist? || at.AtFailing?
  {
    match at
    case AtStart => Transition(Retrieving, None)
    case AtHistory => Transition(Generating, None)
    case AtPersist(reply) => Transition(Completed, reply.code)
    case AtFailing(transient, error) =>
      if transient && row.attempt < row.maxAttempts then Transition(Retrying, Some(error))
      else Transition(Failed, Some(error))
  }

  function Taken(row: Job, at: Point, entry: Transition): Job {
    Job(row.conversation, row.key, row.question, row.maxAttempts, entry.status, entry.error,
        if at.AtStart? then row.attempt + 1 else row.attempt, row.transitions + [entry])
  }

  lemma ProgressWrites(s: System, w: WorkerId, p: Phase)
    requires CommitDue(p) && (p.at.AtStart? || p.at.AtHistory?) && p.job in s.data.jobs && s.data.jobs[p.job] == p.row
    ensures CommitStep(s, w, p).data
         == s.data.(jobs := s.data.jobs[p.job := Taken(p.row, p.at, EntryDue(p.row, p.at))])
  {
  }

  lemma CompletionWrites(s: System, w: WorkerId, p: Phase)
    requires CommitDue(p) && p.at.AtPersist? && p.job in s.data.jobs && s.data.jobs[p.job] == p.row
    ensures var c := p.row.conversation;
      CommitStep(s, w, p).data
      == s.data.(jobs := s.data.jobs[p.job := Taken(p.row, p.at, EntryDue(p.row, p.at))],
                 turns := s.data.turns[c := TurnsOf(s.data, c) + [AssistantTurn(p.job, p.at.reply)]])
  {
  }

  lemma FailureCommits(s: System, w: WorkerId, p: Phase)
    requires CommitDue(p) && p.at.AtFailing? && p.job in s.data.jobs && s.data.jobs[p.job] == p.row
    ensures CommitStep(s, w, p).data
         == s.data.(jobs := s.data.jobs[p.job := Taken(p.row, p.at, EntryDue(p.row, p.at))])
  {
  }

  /** Over every run: a commit that goes through adds the entry that is due to the row of its worker's
      job, counts the attempt where one begins, and stores the answer with the completion; it changes
      no other row and no other turn. Only a job that is gone is left alone. */
  lemma CommitWrites(cfg: Settings, s: System, w: WorkerId)
    requires ValidSettings(cfg) && Reachable(cfg, s) && Enabled(s, Commit(w, true))
    ensures var p, t := s.workers[w], Apply(cfg, s, Commit(w, true)); var j := p.job;
      if j !in s.data.jobs then t.data == s.data
      else
        var row := s.data.jobs[j]; var c := row.conversation;
        && t.data.jobs == s.data.jobs[j := Taken(row, p.at, EntryDue(row, p.at))]
        && t.data.turns == (if p.at.AtPersist? then
                              s.data.turns[c := TurnsOf(s.data, c) + [AssistantTurn(j, p.at.reply)]]
                            else s.data.turns)
        && t.data.(jobs := s.data.jobs, turns := s.data.turns) == s.data
  {
    ReachableOk(cfg, s);
    var p := s.workers[w];
    assert PhaseOk(cfg, s, w, p);
    hide Inv, StreamOk, JobOk;
    if p.job in s.data.jobs {
      hide CommitStep, PhaseOk;
      if p.at.AtFailing? { FailureCommits(s, w, p); }
      else if p.at.AtPersist? { CompletionWrites(s, w, p); }
      else { ProgressWrites(s, w, p); }
    }
  }

  /** A step appends `retrying` to a history if and only if it is the commit of the job's failure handler
      for a transient error with attempts left. */
  lemma RetryingIff(cfg: Settings, s: System, step: Step, j: JobId)
    requires ValidSettings(cfg) && Reachable(cfg, s) && Enabled(s, step) && j in s.data.jobs
    ensures var t, row := Apply(cfg, s, step), s.data.jobs[j];
      (j in t.data.jobs && |t.data.jobs[j].transitions| == |row.transitions| + 1
       && t.data.jobs[j].transitions[|row.transitions|].status.Retrying?)
      <==> && step.Commit? && step.ok && s.workers[step.worker].job == j
           && s.workers[step.worker].at.AtFailing? && s.workers[step.worker].at.transient
           && row.attempt < row.maxAttempts
  {
    ReachableOk(cfg, s);
    assert JobOk(s, j);
    hide Inv, JobShape;
    if step.Commit? && step.ok {
      CommitWrites(cfg, s, step.worker);
      hide Apply;
    } else if step.Commit? {
      hide CommitStep;
    } else {
      OnlyCommitsMoveRows(cfg, s, step, j);
      hide Apply;
    }
  }

  /** An error due at a failure handler is the one the history or the agent raised, as transient as it
      was raised, or an internal one that is not, after a call of the store raised. */
  lemma WhatFails(cfg: Settings, s: System, step: Step, w: WorkerId)
    requires Enabled(s, step) && w in s.workers && w in Apply(cfg, s, step).workers
    requires s.workers[w] != Apply(cfg, s, step).workers[w]
    requires Apply(cfg, s, step).workers[w].Working? && Apply(cfg, s, step).workers[w].at.AtFailing?
    ensures var at := Apply(cfg, s, step).workers[w].at;
      || step == Raise(w, at.transient, at.error)
      || (at == AtFailing(false, INTERNAL_ERROR)
          && (step == Commit(w, false) || step == Publish(w, RaisedAfterAppend) || step == Publish(w, RaisedBefore)))
  {
    hide Record, Terminal, MayRetry, RelayEntry, Complete;
  }

  /** What a worker's publish tells, by where the worker stands. */
  function EventDue(row: Job, at: Point, size: nat): Event
    requires at.AtRetrievingStatus? || at.AtGeneratingStatus? || at.AtRelay? || at.AtRetryingStatus? || at.AtErrorEvent?
  {
    match at
    case AtRetrievingStatus => StatusEvent(Retrieving, row.attempt)
    case AtGeneratingStatus => StatusEvent(Generating, row.attempt)
    case AtRetryingStatus => StatusEvent(Retrying, row.attempt)
    case AtErrorEvent => ErrorEvent(row.error.GetOr(INTERNAL_ERROR))
    case AtRelay(reply, next) =>
      var from := next * size;
      if from >= |reply.content| then FinalEvent(reply)
      else DeltaEvent(reply.content[from..if from + size <= |reply.content| then from + size else |reply.content|])
  }

  /** Over every run: a publish that goes through tells the stream of its worker's job what is due, and
      nothing else changes in the store. */
  lemma PublishTells(cfg: Settings, s: System, w: WorkerId)
    requires Enabled(s, Publish(w, Published))
    ensures var p, t := s.workers[w], Apply(cfg, s, Publish(w, Published));
      Told(s.data, t.data, p.job, [EventDue(p.row, p.at, cfg.streamChunkChars)])
  {
  }
}
