/** The worker as the program it is: one mutable store, the job operations that write it, and
    the loop that claims jobs and runs attempts, any of whose commits and publishes may raise. What
    each method leaves behind is a function of what it found; `JobRecovery` proves what those
    functions promise. */
module JobStore {
  import opened Options
  import opened JobModel
  import opened JobProtocol

  // --- What the model and the summarizer may do to an attempt -----------------------

  /** How one attempt goes: the conversation history cannot be read, or the agent runs, reports
      some search steps, and raises or answers. */
  datatype Outcome =
    | HistoryRaises(transient: bool, error: ErrorCode)
    | AgentRaises(steps: seq<string>, transient: bool, error: ErrorCode)
    | AgentAnswers(steps: seq<string>, reply: Reply)

  type Agent = (JobId, nat) -> Outcome

  /** What becomes of one store call. A commit that raises has not happened; a publish or a push may
      have. */
  datatype Fate = Works | RaisesAfter | RaisesBefore

  /** The fates of an attempt's calls, of its failure handler's calls, and of the release. */
  datatype Weather = Weather(attempt: nat -> Fate, handler: nat -> Fate, release: Fate)

  const FAIR := Weather(k => Works, k => Works, Works)

  // --- What an attempt leaves behind --------------------------------------------------

  function Told(d: Shared, j: JobId, e: Event, fate: Fate): Shared {
    if fate.RaisesBefore? then d else Append(d, j, e)
  }

  /** A transition committed and its status published, or how far that came. */
  function Announced(d: Shared, j: JobId, row: Job, commit: Fate, publish: Fate): (r: (Shared, bool))
    requires j in d.jobs
    ensures r.0.jobs == (if commit.Works? then d.jobs[j := row] else d.jobs)
    ensures r.1 <==> commit.Works? && publish.Works?
  {
    if !commit.Works? then (d, false)
    else (Told(CommitRow(d, j, row), j, StatusEvent(row.status, row.attempt), publish), publish.Works?)
  }

  /** The search steps; a step that cannot be published is passed over. */
  function Traced(d: Shared, j: JobId, steps: seq<string>, fates: nat -> Fate): Shared
    ensures Traced(d, j, steps, fates).jobs == d.jobs
  {
    if steps == [] then d
    else
      var n := |steps| - 1;
      Told(Traced(d, j, steps[..n], fates), j, TraceEvent(steps[n]), fates(4 + n))
  }

  /** publish_answer from its n-th chunk on, then the final entry; and whether all went out. */
  function RelayFrom(d: Shared, j: JobId, reply: Reply, n: nat, size: nat, fates: nat -> Fate,
                     first: nat): (r: (Shared, bool))
    requires size > 0
    ensures r.0.jobs == d.jobs
    decreases |reply.content| - n * size
  {
    var next := Told(d, j, RelayEntry(reply, n, size), fates(first + n));
    if !fates(first + n).Works? then (next, false)
    else if n * size < |reply.content| then RelayFrom(next, j, reply, n + 1, size, fates, first)
    else (next, true)
  }

  function FailAttempt(d: Shared, j: JobId, transient: bool, error: ErrorCode, fates: nat -> Fate): Shared
    requires j in d.jobs
  {
    var row := d.jobs[j];
    if MayRetry(row, transient) then
      var told := Announced(d, j, Record(row, Retrying, Some(error)), fates(0), fates(1));
      if told.1 && !fates(2).RaisesBefore? then Push(told.0, j) else told.0
    else if fates(0).Works? then
      Told(CommitRow(d, j, Record(row, Failed, Some(error))), j, ErrorEvent(error), fates(1))
    else d
  }

  function Begun(d: Shared, j: JobId, fates: nat -> Fate): (Shared, bool)
    requires j in d.jobs
  {
    Announced(d, j, Record(d.jobs[j].(attempt := d.jobs[j].attempt + 1), Retrieving, None), fates(0), fates(1))
  }

  function Generated(d: Shared, j: JobId, fates: nat -> Fate): (Shared, bool)
    requires j in d.jobs
  {
    Announced(d, j, Record(d.jobs[j], Generating, None), fates(2), fates(3))
  }

  /** The answer stored and relayed. */
  function Delivered(cfg: Settings, d: Shared, j: JobId, reply: Reply, commit: nat,
                     fates: nat -> Fate): (r: (Shared, bool))
    requires ValidSettings(cfg) && j in d.jobs
    ensures j in r.0.jobs
  {
    if fates(commit).Works? then
      RelayFrom(Complete(d, j, d.jobs[j], reply), j, reply, 0, cfg.streamChunkChars, fates, commit + 1)
    else (d, false)
  }

  /** One attempt. What raises inside it goes to the failure handler: the history and the agent with
      their own errors, the store as an internal one. */
  function Attempt(cfg: Settings, d: Shared, j: JobId, outcome: Outcome, weather: Weather): Shared
    requires ValidSettings(cfg) && j in d.jobs
  {
    var begun := Begun(d, j, weather.attempt);
    if !begun.1 then FailAttempt(begun.0, j, false, INTERNAL_ERROR, weather.handler)
    else if outcome.HistoryRaises? then
      FailAttempt(begun.0, j, outcome.transient, outcome.error, weather.handler)
    else
      var generated := Generated(begun.0, j, weather.attempt);
      if !generated.1 then FailAttempt(generated.0, j, false, INTERNAL_ERROR, weather.handler)
      else AfterAgent(cfg, Traced(generated.0, j, outcome.steps, weather.attempt), j, outcome, weather)
  }

  function AfterAgent(cfg: Settings, d: Shared, j: JobId, outcome: Outcome, weather: Weather): Shared
    requires ValidSettings(cfg) && j in d.jobs && !outcome.HistoryRaises?
  {
    match outcome
    case AgentRaises(_, transient, error) => FailAttempt(d, j, transient, error, weather.handler)
    case AgentAnswers(steps, reply) =>
      var delivered := Delivered(cfg, d, j, reply, 4 + |steps|, weather.attempt);
      if delivered.1 then delivered.0 else FailAttempt(delivered.0, j, false, INTERNAL_ERROR, weather.handler)
  }

  /** _run_one for a claimed id: dropped if leased, skipped if gone or finished. */
  function AfterOne(cfg: Settings, d: Shared, j: JobId, w: WorkerId, agent: Agent, weather: Weather): Shared
    requires ValidSettings(cfg)
  {
    if j in d.leases then d
    else
      var leased := TakeLease(d, j, w);
      Released(if Open(d, j) then Attempt(cfg, leased, j, agent(j, d.jobs[j].attempt), weather) else leased, j, weather)
  }

  function Released(d: Shared, j: JobId, weather: Weather): Shared {
    if weather.release.RaisesBefore? then d else DropLease(d, j)
  }

  function Reverse(s: seq<JobId>): (r: seq<JobId>)
    ensures forall j :: j in r <==> j in s
  {
    if s == [] then [] else Reverse(s[1..]) + [s[0]]
  }

  lemma NothingReversed()
    ensures Reverse([]) == []
  {
  }

  lemma {:induction false} ReverseSnoc(s: seq<JobId>, j: JobId)
    ensures Reverse(s + [j]) == [j] + Reverse(s)
  {
    if s == [] {
      assert s + [j] == [j];
    } else {
      assert (s + [j])[1..] == s[1..] + [j];
      ReverseSnoc(s[1..], j);
    }
  }

  datatype Submission = Existing(job: JobId) | Refused | Created(job: JobId)

  function Questions(turns: seq<Turn>): nat {
    if turns == [] then 0 else (if turns[0].UserTurn? then 1 else 0) + Questions(turns[1..])
  }

  // --- The store -------------------------------------------------------------------------

  class Store {
    const cfg: Settings
    var jobs: map<JobId, Job>
    var turns: map<ConversationId, seq<Turn>>
    var queue: seq<JobId>
    var leases: map<JobId, WorkerId>
    var streams: map<JobId, Stream>

    ghost function Data(): Shared
      reads this
    {
      Shared(jobs, turns, queue, leases, streams)
    }

    constructor (cfg: Settings)
      ensures this.cfg == cfg && Data() == Init.data
    {
      this.cfg := cfg;
      jobs, turns, queue, leases, streams := map[], map[], [], map[], map[];
    }

    /** record_transition and the commit after it. */
    method RecordTransition(j: JobId, row: Job, status: Status, error: Option<ErrorCode>)
      modifies this`jobs
      ensures Data() == CommitRow(old(Data()), j, Record(row, status, error))
    {
      jobs := jobs[j := row.(status := status, error := error,
                             transitions := row.transitions + [Transition(status, error)])];
    }

    method Enqueue(j: JobId)
      modifies this`queue
      ensures Data() == Push(old(Data()), j)
    {
      queue := [j] + queue;
    }

    method Publish(j: JobId, e: Event)
      modifies this`streams
      ensures Data() == Append(old(Data()), j, e)
    {
      var stream := if j in streams then streams[j] else [];
      streams := streams[j := stream + [e]];
    }

    method AcquireLease(j: JobId, w: WorkerId) returns (acquired: bool)
      modifies this`leases
      ensures acquired <==> j !in old(leases)
      ensures Data() == TakeLease(old(Data()), j, w)
    {
      acquired := j !in leases;
      if acquired { leases := leases[j := w]; }
    }

    method ReleaseLease(j: JobId)
      modifies this`leases
      ensures Data() == DropLease(old(Data()), j)
    {
      leases := leases - {j};
    }

    /** _start_job: the question and its job are committed together, and only then is the job
        enqueued. A key that already has a job gives that job back, and a conversation at its
        limit of questions refuses; both change nothing. */
    method StartJob(conversation: ConversationId, question: string, key: string, maxAttempts: nat, maxTurns: nat,
                    id: JobId)
      returns (submission: Submission)
      requires id !in jobs
      modifies this
      ensures submission.Existing? <==> exists k :: k in old(jobs) && old(jobs[k].key) == key
      ensures submission.Existing? ==> submission.job in jobs && jobs[submission.job].key == key
      ensures submission.Refused?
          <==> !submission.Existing? && Questions(TurnsOf(old(Data()), conversation)) >= maxTurns
      ensures !submission.Created? ==> Data() == old(Data())
      ensures submission.Created? ==>
                && submission.job == id
                && Data() == Push(CommitRow(AppendTurn(old(Data()), conversation, UserTurn(id, question)), id,
                                            NewJob(conversation, key, question, maxAttempts)), id)
    {
      if k :| k in jobs && jobs[k].key == key {
        return Existing(k);
      }
      var before := if conversation in turns then turns[conversation] else [];
      if Questions(before) >= maxTurns { return Refused; }
      turns := turns[conversation := before + [UserTurn(id, question)]];
      jobs := jobs[id := NewJob(conversation, key, question, maxAttempts)];
      Enqueue(id);
      submission := Created(id);
    }

    /** persist_turn and the COMPLETED transition, one commit. */
    method PersistTurn(j: JobId, reply: Reply)
      requires j in jobs
      modifies this`turns, this`jobs
      ensures Data() == Complete(old(Data()), j, old(jobs[j]), reply)
    {
      var c := jobs[j].conversation;
      var before := if c in turns then turns[c] else [];
      turns := turns[c := before + [AssistantTurn(j, reply)]];
      RecordTransition(j, jobs[j], Completed, reply.code);
    }

    /** A publish that may raise. */
    method TryPublish(j: JobId, e: Event, fate: Fate) returns (ok: bool)
      modifies this`streams
      ensures ok == fate.Works? && Data() == Told(old(Data()), j, e, fate)
    {
      if !fate.RaisesBefore? { Publish(j, e); }
      ok := fate.Works?;
    }

    method Announce(j: JobId, row: Job, status: Status, error: Option<ErrorCode>, commit: Fate,
                    publish: Fate) returns (ok: bool)
      requires j in jobs
      modifies this`jobs, this`streams
      ensures (Data(), ok) == Announced(old(Data()), j, Record(row, status, error), commit, publish)
    {
      if !commit.Works? { return false; }
      RecordTransition(j, row, status, error);
      ok := TryPublish(j, StatusEvent(status, row.attempt), publish);
    }

    /** publish_answer, then the final entry. */
    method PublishAnswer(j: JobId, reply: Reply, fates: nat -> Fate, first: nat) returns (ok: bool)
      requires ValidSettings(cfg)
      modifies this`streams
      ensures (Data(), ok) == RelayFrom(old(Data()), j, reply, 0, cfg.streamChunkChars, fates, first)
    {
      var size, text := cfg.streamChunkChars, reply.content;
      var start, n := 0, 0;
      while start < |text|
        invariant start == n * size
        invariant RelayFrom(Data(), j, reply, n, size, fates, first)
            == RelayFrom(old(Data()), j, reply, 0, size, fates, first)
        invariant Data().(streams := old(streams)) == old(Data())
        decreases |text| - start
      {
        var chunk := text[start..if start + size <= |text| then start + size else |text|];
        ok := TryPublish(j, DeltaEvent(chunk), fates(first + n));
        if !ok { return; }
        start, n := start + size, n + 1;
      }
      ok := TryPublish(j, FinalEvent(reply), fates(first + n));
    }

    method HandleFailure(j: JobId, transient: bool, error: ErrorCode, fates: nat -> Fate)
      requires j in jobs
      modifies this
      ensures Data() == FailAttempt(old(Data()), j, transient, error, fates)
      ensures j in jobs
      ensures fates(0).Works? ==>
        && jobs[j].status == (if transient && old(jobs[j].attempt < jobs[j].maxAttempts) then Retrying else Failed)
        && jobs[j].transitions == old(jobs[j].transitions) + [Transition(jobs[j].status, Some(error))]
      ensures queue == old(queue)
        || (transient && old(jobs[j].attempt < jobs[j].maxAttempts) && queue == [j] + old(queue))
    {
      var row := jobs[j];
      if transient && row.attempt < row.maxAttempts {
        var ok := Announce(j, row, Retrying, Some(error), fates(0), fates(1));
        if ok && !fates(2).RaisesBefore? { Enqueue(j); }
      } else if fates(0).Works? {
        RecordTransition(j, row, Failed, Some(error));
        var _ := TryPublish(j, ErrorEvent(error), fates(1));
      }
    }

    method PublishTrace(j: JobId, steps: seq<string>, fates: nat -> Fate)
      modifies this`streams
      ensures Data() == Traced(old(Data()), j, steps, fates)
    {
      for i := 0 to |steps|
        invariant Data() == Traced(old(Data()), j, steps[..i], fates)
      {
        var _ := TryPublish(j, TraceEvent(steps[i]), fates(4 + i));
        assert steps[..i + 1][..i] == steps[..i];
      }
      assert steps[..|steps|] == steps;
    }

    /** The body of the attempt: how it went, and the error it raised if it did. */
    method TryAttempt(j: JobId, outcome: Outcome, fates: nat -> Fate) returns (raised: Option<(bool, ErrorCode)>)
      requires ValidSettings(cfg) && j in jobs
      modifies this
      ensures j in jobs
      ensures forall handler, release ::
                Attempt(cfg, old(Data()), j, outcome, Weather(fates, handler, release))
                == (if raised.None? then Data() else FailAttempt(Data(), j, raised.value.0, raised.value.1, handler))
    {
      hide FailAttempt, RelayFrom, Traced, Announced;
      var internal := Some((false, INTERNAL_ERROR));
      var row := jobs[j].(attempt := jobs[j].attempt + 1);
      var ok := Announce(j, row, Retrieving, None, fates(0), fates(1));
      if !ok { return internal; }
      if outcome.HistoryRaises? { return Some((outcome.transient, outcome.error)); }
      ok := Announce(j, jobs[j], Generating, None, fates(2), fates(3));
      if !ok { return internal; }
      PublishTrace(j, outcome.steps, fates);
      if outcome.AgentRaises? { return Some((outcome.transient, outcome.error)); }
      var commit := 4 + |outcome.steps|;
      if !fates(commit).Works? { return internal; }
      PersistTurn(j, outcome.reply);
      ok := PublishAnswer(j, outcome.reply, fates, commit + 1);
      raised := if ok then None else internal;
    }

    method ProcessJob(j: JobId, agent: Agent, weather: Weather)
      requires ValidSettings(cfg) && j in jobs
      modifies this
      ensures Data() == Attempt(cfg, old(Data()), j, agent(j, old(jobs[j].attempt)), weather)
    {
      hide Attempt, FailAttempt;
      var raised := TryAttempt(j, agent(j, jobs[j].attempt), weather.attempt);
      assert weather == Weather(weather.attempt, weather.handler, weather.release);
      if raised.Some? { HandleFailure(j, raised.value.0, raised.value.1, weather.handler); }
    }

    method RunOne(j: JobId, w: WorkerId, agent: Agent, weather: Weather)
      requires ValidSettings(cfg)
      modifies this
      ensures Data() == AfterOne(cfg, old(Data()), j, w, agent, weather)
    {
      hide Attempt;
      var acquired := AcquireLease(j, w);
      if !acquired { return; }
      if j in jobs && jobs[j].status !in {Completed, Failed} {
        ProcessJob(j, agent, weather);
      }
      if !weather.release.RaisesBefore? { ReleaseLease(j); }
    }

    /** The ids of all rows in an active status, in whatever order the table yields them. */
    method ActiveJobs() returns (rows: seq<JobId>)
      ensures forall j :: j in rows <==> Open(Data(), j)
      ensures forall i, k :: 0 <= i < k < |rows| ==> rows[i] != rows[k]
    {
      rows := [];
      var left := jobs.Keys;
      while left != {}
        invariant left <= jobs.Keys
        invariant forall j :: j in rows <==> Open(Data(), j) && j !in left
        invariant forall i, k :: 0 <= i < k < |rows| ==> rows[i] != rows[k]
        decreases |left|
      {
        var j :| j in left;
        if jobs[j].status !in {Completed, Failed} { rows := rows + [j]; }
        left := left - {j};
      }
    }

    /** The ids among `rows` with neither lease nor entry, pushed in turn. */
    method PushOrphans(rows: seq<JobId>) returns (reclaimed: seq<JobId>)
      requires forall i, k :: 0 <= i < k < |rows| ==> rows[i] != rows[k]
      modifies this`queue
      ensures queue == Reverse(reclaimed) + old(queue)
      ensures forall j :: j in reclaimed <==> j in rows && j !in leases && j !in old(queue)
      ensures forall i, k :: 0 <= i < k < |reclaimed| ==> reclaimed[i] != reclaimed[k]
    {
      hide Reverse;
      reclaimed := [];
      assert Reverse(reclaimed) + old(queue) == old(queue) by { NothingReversed(); }
      for i := 0 to |rows|
        invariant queue == Reverse(reclaimed) + old(queue)
        invariant forall j :: j in reclaimed <==> j in rows[..i] && j !in leases && j !in old(queue)
        invariant forall k, l :: 0 <= k < l < |reclaimed| ==> reclaimed[k] != reclaimed[l]
      {
        var j := rows[i];
        assert j !in rows[..i];
        if j !in leases && j !in queue {
          ReverseSnoc(reclaimed, j);
          Enqueue(j);
          reclaimed := reclaimed + [j];
        }
      }
      assert rows[..|rows|] == rows;
    }

    /** Every open job that is neither leased nor queued is pushed, once, and nothing else moves. */
    method ReclaimOrphanedJobs() returns (reclaimed: seq<JobId>)
      modifies this`queue
      ensures queue == Reverse(reclaimed) + old(queue)
      ensures forall j :: j in reclaimed <==> Open(Data(), j) && j !in leases && j !in old(queue)
      ensures forall i, k :: 0 <= i < k < |reclaimed| ==> reclaimed[i] != reclaimed[k]
    {
      var rows := ActiveJobs();
      hide Reverse;
      reclaimed := PushOrphans(rows);
    }
  }
}
