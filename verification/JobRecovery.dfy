/** Recovery: once the leases of dead workers have lapsed, one worker that starts and runs its
    loop brings every open job to an end. Its run is a run of the protocol, so everything that
    holds of reachable states holds where it ends. */
module JobRecovery {
  import opened JobModel
  import opened JobProtocol
  import opened JobStore

  // --- The sequential worker is a run of the protocol -------------------------------------

  ghost predicate Path(cfg: Settings, path: seq<System>) {
    |path| > 0 && forall i :: 0 < i < |path| ==> Next(cfg, path[i - 1], path[i])
  }

  ghost predicate Reaches(cfg: Settings, s: System, t: System) {
    exists path :: Path(cfg, path) && path[0] == s && path[|path| - 1] == t
  }

  lemma Stay(cfg: Settings, s: System)
    ensures Reaches(cfg, s, s)
  {
    assert Path(cfg, [s]) && [s][0] == s;
  }

  lemma Then(cfg: Settings, s: System, t: System, step: Step) returns (u: System)
    requires Reaches(cfg, s, t) && Enabled(t, step)
    ensures u == Apply(cfg, t, step) && Reaches(cfg, s, u)
  {
    u := Apply(cfg, t, step);
    var path :| Path(cfg, path) && path[0] == s && path[|path| - 1] == t;
    var longer := path + [u];
    assert Next(cfg, t, u);
    assert Path(cfg, longer) && longer[0] == s && longer[|longer| - 1] == u;
  }

  lemma ReachesReachable(cfg: Settings, s: System, t: System)
    requires Reachable(cfg, s) && Reaches(cfg, s, t)
    ensures Reachable(cfg, t)
  {
    var run :| Run(cfg, run) && run[|run| - 1] == s;
    var path :| Path(cfg, path) && path[0] == s && path[|path| - 1] == t;
    var whole := run + path[1..];
    forall i | 0 < i < |whole| ensures Next(cfg, whole[i - 1], whole[i]) {
      if i >= |run| { assert whole[i] == path[i - |run| + 1] && whole[i - 1] == path[i - |run|]; }
    }
    assert Run(cfg, whole) && whole[|whole| - 1] == t;
  }

  /** `t` is `s` after worker `w` moved to phase `p` and the store became `d`. */
  ghost predicate At(s: System, t: System, w: WorkerId, p: Phase, d: Shared) {
    t.workers == s.workers[w := p] && t.data == d
  }

  function Result(fate: Fate): PublishResult {
    match fate
    case Works => Published
    case RaisesAfter => RaisedAfterAppend
    case RaisesBefore => RaisedBefore
  }

  const INTERNAL := AtFailing(false, INTERNAL_ERROR)

  lemma BegunReaches(cfg: Settings, s: System, t: System, w: WorkerId, j: JobId, fates: nat -> Fate) returns (u: System)
    requires Reaches(cfg, s, t) && j in t.data.jobs
    requires At(s, t, w, Working(j, t.data.jobs[j], AtStart), t.data)
    ensures var begun := Begun(t.data, j, fates);
      && Reaches(cfg, s, u) && j in begun.0.jobs
      && At(s, u, w, Working(j, begun.0.jobs[j], if begun.1 then AtHistory else INTERNAL), begun.0)
  {
    hide Reaches;
    u := Then(cfg, s, t, Commit(w, fates(0).Works?));
    if fates(0).Works? { u := Then(cfg, s, u, Publish(w, Result(fates(1)))); }
  }

  lemma AnnouncedGenerating(cfg: Settings, s: System, t: System, w: WorkerId, j: JobId,
                            fates: nat -> Fate) returns (u: System)
    requires Reaches(cfg, s, t) && j in t.data.jobs
    requires At(s, t, w, Working(j, t.data.jobs[j], AtHistory), t.data)
    ensures var generated := Generated(t.data, j, fates);
      && Reaches(cfg, s, u) && j in generated.0.jobs
      && At(s, u, w, Working(j, generated.0.jobs[j], if generated.1 then AtAgent else INTERNAL), generated.0)
  {
    hide Reaches;
    u := Then(cfg, s, t, Commit(w, fates(2).Works?));
    if fates(2).Works? { u := Then(cfg, s, u, Publish(w, Result(fates(3)))); }
  }

  lemma RetryReaches(cfg: Settings, s: System, t: System, w: WorkerId, j: JobId, row: Job, error: ErrorCode,
                     fates: nat -> Fate)
    returns (u: System)
    requires Reaches(cfg, s, t) && j in t.data.jobs && t.data.jobs[j] == row && MayRetry(row, true)
    requires At(s, t, w, Working(j, row, AtFailing(true, error)), t.data)
    ensures Reaches(cfg, s, u)
    ensures At(s, u, w, Releasing(j), FailAttempt(t.data, j, true, error, fates))
  {
    hide Reaches;
    u := Then(cfg, s, t, Commit(w, fates(0).Works?));
    if fates(0).Works? {
      u := Then(cfg, s, u, Publish(w, Result(fates(1))));
      if fates(1).Works? { u := Then(cfg, s, u, Requeue(w, !fates(2).RaisesBefore?)); }
    }
  }

  lemma GiveUpReaches(cfg: Settings, s: System, t: System, w: WorkerId, j: JobId, row: Job, transient: bool,
                      error: ErrorCode, 
                      fates: nat -> Fate)
    returns (u: System)
    requires Reaches(cfg, s, t) && j in t.data.jobs && t.data.jobs[j] == row && !MayRetry(row, transient)
    requires At(s, t, w, Working(j, row, AtFailing(transient, error)), t.data)
    ensures Reaches(cfg, s, u)
    ensures At(s, u, w, Releasing(j), FailAttempt(t.data, j, transient, error, fates))
  {
    hide Reaches;
    u := Then(cfg, s, t, Commit(w, fates(0).Works?));
    if fates(0).Works? { u := Then(cfg, s, u, Publish(w, Result(fates(1)))); }
  }

  /** The failure handler, from wherever the error came. */
  lemma HandlerReaches(cfg: Settings, s: System, t: System, w: WorkerId, j: JobId, transient: bool, error: ErrorCode,
                       fates: nat -> Fate)
    returns (u: System)
    requires Reaches(cfg, s, t) && j in t.data.jobs
    requires At(s, t, w, Working(j, t.data.jobs[j], AtFailing(transient, error)), t.data)
    ensures Reaches(cfg, s, u)
    ensures At(s, u, w, Releasing(j), FailAttempt(t.data, j, transient, error, fates))
  {
    hide Reaches, FailAttempt;
    if MayRetry(t.data.jobs[j], transient) {
      u := RetryReaches(cfg, s, t, w, j, t.data.jobs[j], error, fates);
    } else {
      u := GiveUpReaches(cfg, s, t, w, j, t.data.jobs[j], transient, error, fates);
    }
  }

  lemma {:induction false} TraceReaches(cfg: Settings, s: System, t: System, w: WorkerId, j: JobId, row: Job,
                                        steps: seq<string>, fates: nat -> Fate)
    returns (u: System)
    requires Reaches(cfg, s, t) && At(s, t, w, Working(j, row, AtAgent), t.data)
    ensures Reaches(cfg, s, u) && At(s, u, w, Working(j, row, AtAgent), Traced(t.data, j, steps, fates))
  {
    hide Reaches;
    u := t;
    if steps != [] {
      var n := |steps| - 1;
      u := TraceReaches(cfg, s, t, w, j, row, steps[..n], fates);
      u := Then(cfg, s, u, Trace(w, steps[n], !fates(4 + n).RaisesBefore?));
    }
  }

  lemma {:induction false} RelayReaches(cfg: Settings, s: System, t: System, w: WorkerId, j: JobId, row: Job,
                                        reply: Reply, n: nat, 
                                        fates: nat -> Fate, first: nat)
    returns (u: System)
    requires ValidSettings(cfg)
    requires Reaches(cfg, s, t) && At(s, t, w, Working(j, row, AtRelay(reply, n)), t.data)
    ensures var relayed := RelayFrom(t.data, j, reply, n, cfg.streamChunkChars, fates, first);
      && Reaches(cfg, s, u)
      && At(s, u, w, if relayed.1 then Releasing(j) else Working(j, row, INTERNAL), relayed.0)
    decreases |reply.content| - n * cfg.streamChunkChars
  {
    hide Reaches;
    u := Then(cfg, s, t, Publish(w, Result(fates(first + n))));
    if fates(first + n).Works? && n * cfg.streamChunkChars < |reply.content| {
      assert (n + 1) * cfg.streamChunkChars == n * cfg.streamChunkChars + cfg.streamChunkChars;
      u := RelayReaches(cfg, s, u, w, j, row, reply, n + 1, fates, first);
    }
  }

  lemma DeliveryReaches(cfg: Settings, s: System, t: System, w: WorkerId, j: JobId, reply: Reply, commit: nat,
                        fates: nat -> Fate)
    returns (u: System)
    requires ValidSettings(cfg)
    requires Reaches(cfg, s, t) && j in t.data.jobs
    requires At(s, t, w, Working(j, t.data.jobs[j], AtAgent), t.data)
    ensures var delivered := Delivered(cfg, t.data, j, reply, commit, fates);
      && Reaches(cfg, s, u)
      && At(s, u, w, if delivered.1 then Releasing(j) else Working(j, delivered.0.jobs[j], INTERNAL), delivered.0)
  {
    hide Reaches, RelayFrom;
    u := Then(cfg, s, t, Answer(w, reply));
    u := Then(cfg, s, u, Commit(w, fates(commit).Works?));
    if fates(commit).Works? {
      u := RelayReaches(cfg, s, u, w, j, u.data.jobs[j], reply, 0, fates, commit + 1);
    }
  }

  lemma AgentReaches(cfg: Settings, s: System, t: System, w: WorkerId, j: JobId, outcome: Outcome, weather: Weather)
    returns (u: System)
    requires ValidSettings(cfg)
    requires Reaches(cfg, s, t) && j in t.data.jobs && !outcome.HistoryRaises?
    requires At(s, t, w, Working(j, t.data.jobs[j], AtAgent), t.data)
    ensures Reaches(cfg, s, u)
    ensures At(s, u, w, Releasing(j), AfterAgent(cfg, t.data, j, outcome, weather))
  {
    hide Reaches, FailAttempt, Delivered;
    match outcome
    case AgentRaises(_, transient, error) =>
      u := Then(cfg, s, t, Raise(w, transient, error));
      u := HandlerReaches(cfg, s, u, w, j, transient, error, weather.handler);
    case AgentAnswers(steps, reply) =>
      u := DeliveryReaches(cfg, s, t, w, j, reply, 4 + |steps|, weather.attempt);
      if !Delivered(cfg, t.data, j, reply, 4 + |steps|, weather.attempt).1 {
        u := HandlerReaches(cfg, s, u, w, j, false, INTERNAL_ERROR, weather.handler);
      }
  }

  /** An attempt over the store, whatever raises in it, is a path of the protocol. */
  lemma AttemptReaches(cfg: Settings, s: System, t: System, w: WorkerId, j: JobId, outcome: Outcome, weather: Weather)
    returns (u: System)
    requires ValidSettings(cfg)
    requires Reaches(cfg, s, t) && j in t.data.jobs
    requires At(s, t, w, Working(j, t.data.jobs[j], AtStart), t.data)
    ensures Reaches(cfg, s, u) && At(s, u, w, Releasing(j), Attempt(cfg, t.data, j, outcome, weather))
  {
    hide Reaches, FailAttempt, AfterAgent, Traced;
    u := BegunReaches(cfg, s, t, w, j, weather.attempt);
    if !Begun(t.data, j, weather.attempt).1 {
      u := HandlerReaches(cfg, s, u, w, j, false, INTERNAL_ERROR, weather.handler);
    } else if outcome.HistoryRaises? {
      u := Then(cfg, s, u, Raise(w, outcome.transient, outcome.error));
      u := HandlerReaches(cfg, s, u, w, j, outcome.transient, outcome.error, weather.handler);
    } else {
      u := GeneratedReaches(cfg, s, u, w, j, outcome, weather);
    }
  }

  lemma GeneratedReaches(cfg: Settings, s: System, t: System, w: WorkerId, j: JobId, outcome: Outcome, weather: Weather)
    returns (u: System)
    requires ValidSettings(cfg) && !outcome.HistoryRaises?
    requires Reaches(cfg, s, t) && j in t.data.jobs
    requires At(s, t, w, Working(j, t.data.jobs[j], AtHistory), t.data)
    ensures var generated := Generated(t.data, j, weather.attempt);
      && Reaches(cfg, s, u)
      && At(s, u, w, Releasing(j),
            if !generated.1 then FailAttempt(generated.0, j, false, INTERNAL_ERROR, weather.handler)
            else AfterAgent(cfg, Traced(generated.0, j, outcome.steps, weather.attempt), j, outcome, weather))
  {
    hide Reaches, FailAttempt, AfterAgent, Traced;
    u := AnnouncedGenerating(cfg, s, t, w, j, weather.attempt);
    if !Generated(t.data, j, weather.attempt).1 {
      u := HandlerReaches(cfg, s, u, w, j, false, INTERNAL_ERROR, weather.handler);
    } else {
      u := TraceReaches(cfg, s, u, w, j, u.data.jobs[j], outcome.steps, weather.attempt);
      u := AgentReaches(cfg, s, u, w, j, outcome, weather);
    }
  }

  lemma LeasedReaches(cfg: Settings, s: System, t: System, w: WorkerId, j: JobId, agent: Agent,
                      weather: Weather) returns (u: System)
    requires ValidSettings(cfg)
    requires Reaches(cfg, s, t) && At(s, t, w, Leased(j), t.data)
    ensures Reaches(cfg, s, u)
    ensures At(s, u, w, Idle,
               var d := t.data;
               Released(if Open(d, j) then Attempt(cfg, d, j, agent(j, d.jobs[j].attempt), weather) else d, j, weather))
  {
    hide Reaches, Attempt;
    u := Then(cfg, s, t, Read(w));
    if Open(t.data, j) {
      u := AttemptReaches(cfg, s, u, w, j, agent(j, t.data.jobs[j].attempt), weather);
    }
    u := Then(cfg, s, u, Release(w, !weather.release.RaisesBefore?));
  }

  /** Popping the oldest entry and running it is a path of the protocol back to `Idle`. */
  lemma OneReaches(cfg: Settings, s: System, t: System, w: WorkerId, agent: Agent, weather: Weather) returns (u: System)
    requires ValidSettings(cfg)
    requires Reaches(cfg, s, t) && At(s, t, w, Idle, t.data) && t.data.queue != []
    ensures var q := t.data.queue; var last := |q| - 1;
      Reaches(cfg, s, u) && At(s, u, w, Idle, AfterOne(cfg, t.data.(queue := q[..last]), q[last], w, agent, weather))
  {
    hide Reaches, Attempt;
    var j := t.data.queue[|t.data.queue| - 1];
    u := Then(cfg, s, t, Pop(w));
    u := Then(cfg, s, u, Take(w));
    if j !in t.data.leases {
      u := LeasedReaches(cfg, s, u, w, j, agent, weather);
    }
  }

  /** Examining one selected row: skipped if leased or queued, pushed otherwise. */
  lemma ReclaimReaches(cfg: Settings, s: System, t: System, w: WorkerId, todo: seq<JobId>) returns (u: System)
    requires Reaches(cfg, s, t) && At(s, t, w, Booting(todo), t.data) && todo != []
    ensures Reaches(cfg, s, u)
    ensures At(s, u, w, Booting(todo[1..]),
               if todo[0] in t.data.leases || todo[0] in t.data.queue then t.data else Push(t.data, todo[0]))
  {
    u := Then(cfg, s, t, Reclaim(w));
    if todo[0] !in t.data.leases {
      u := Then(cfg, s, u, Reclaim(w));
      if todo[0] !in t.data.queue {
        u := Then(cfg, s, u, Reclaim(w));
      }
    }
  }

  lemma {:induction false} PushAllReaches(cfg: Settings, s: System, t: System, w: WorkerId, todo: seq<JobId>,
                                          rest: seq<JobId>)
    returns (u: System)
    requires Reaches(cfg, s, t) && At(s, t, w, Booting(todo + rest), t.data)
    requires forall i :: 0 <= i < |todo| ==> todo[i] !in t.data.leases && todo[i] !in t.data.queue
    requires forall i, k :: 0 <= i < k < |todo| ==> todo[i] != todo[k]
    ensures Reaches(cfg, s, u)
    ensures At(s, u, w, Booting(rest), t.data.(queue := Reverse(todo) + t.data.queue))
    decreases |todo|
  {
    if todo == [] {
      u := t;
      assert todo + rest == rest;
    } else {
      assert (todo + rest)[1..] == todo[1..] + rest && (todo + rest)[0] == todo[0];
      u := ReclaimReaches(cfg, s, t, w, todo + rest);
      assert forall i :: 0 <= i < |todo[1..]| ==> todo[1..][i] == todo[i + 1];
      assert Reverse(todo) + t.data.queue == Reverse(todo[1..]) + ([todo[0]] + t.data.queue);
      u := PushAllReaches(cfg, s, u, w, todo[1..], rest);
    }
  }

  lemma {:induction false} SkipAllReaches(cfg: Settings, s: System, t: System, w: WorkerId,
                                          todo: seq<JobId>) returns (u: System)
    requires Reaches(cfg, s, t) && At(s, t, w, Booting(todo), t.data)
    requires forall i :: 0 <= i < |todo| ==> todo[i] in t.data.leases || todo[i] in t.data.queue
    ensures Reaches(cfg, s, u) && At(s, u, w, Idle, t.data)
    decreases |todo|
  {
    if todo == [] {
      u := Then(cfg, s, t, Reclaim(w));
    } else {
      u := ReclaimReaches(cfg, s, t, w, todo);
      u := SkipAllReaches(cfg, s, u, w, todo[1..]);
    }
  }

  lemma {:induction false} Enumerate(ids: set<JobId>) returns (listed: seq<JobId>)
    ensures forall j :: j in listed <==> j in ids
  {
    listed := [];
    if ids != {} {
      var j :| j in ids;
      listed := Enumerate(ids - {j});
      listed := listed + [j];
    }
  }

  /** Worker start-up with its reclaim, from a state with no worker of that name. */
  lemma StartReaches(cfg: Settings, s: System, w: WorkerId, reclaimed: seq<JobId>) returns (u: System)
    requires w !in s.workers
    requires forall j :: j in reclaimed <==> Open(s.data, j) && j !in s.data.leases && j !in s.data.queue
    requires forall i, k :: 0 <= i < k < |reclaimed| ==> reclaimed[i] != reclaimed[k]
    ensures Reaches(cfg, s, u)
    ensures At(s, u, w, Idle, s.data.(queue := Reverse(reclaimed) + s.data.queue))
  {
    var rest := Enumerate(set j | j in s.data.jobs && Open(s.data, j) && j !in reclaimed);
    Stay(cfg, s);
    u := Then(cfg, s, s, Start(w, reclaimed + rest));
    u := PushAllReaches(cfg, s, u, w, reclaimed, rest);
    u := SkipAllReaches(cfg, s, u, w, rest);
  }

  // --- The work still owed -----------------------------------------------------------------

  /** Attempts a job may still take: those its budget allows, plus the one in hand. */
  function Owes(row: Job): nat {
    if Terminal(row.status) then 0
    else 1 + if row.attempt < row.maxAttempts then row.maxAttempts - row.attempt else 0
  }

  ghost function Owed(jobs: map<JobId, Job>): nat {
    if jobs == map[] then 0
    else
      var j :| j in jobs;
      Owes(jobs[j]) + Owed(jobs - {j})
  }

  lemma OneFewer(jobs: map<JobId, Job>, j: JobId)
    requires j in jobs
    ensures |jobs - {j}| < |jobs|
  {
    assert jobs.Keys == (jobs - {j}).Keys + {j};
  }

  lemma RemoveBoth(jobs: map<JobId, Job>, j: JobId, k: JobId)
    ensures jobs - {k} - {j} == jobs - {j} - {k}
  {
  }

  lemma {:induction false} OwedSplit(jobs: map<JobId, Job>, j: JobId)
    requires j in jobs
    ensures Owed(jobs) == Owes(jobs[j]) + Owed(jobs - {j})
    decreases |jobs|
  {
    hide Owes;
    var k :| k in jobs && Owed(jobs) == Owes(jobs[k]) + Owed(jobs - {k});
    if k != j {
      OneFewer(jobs, k);
      OneFewer(jobs, j);
      OwedSplit(jobs - {k}, j);
      OwedSplit(jobs - {j}, k);
      RemoveBoth(jobs, j, k);
    }
  }

  lemma OwedUpdate(before: map<JobId, Job>, after: map<JobId, Job>, j: JobId)
    requires j in before && j in after && after == before[j := after[j]]
    ensures Owed(after) - Owes(after[j]) == Owed(before) - Owes(before[j])
  {
    OwedSplit(before, j);
    OwedSplit(after, j);
    assert before - {j} == after - {j};
  }

  /** What running an attempt of job `j` changes, and what it leaves alone. */
  ghost predicate Advances(d: Shared, d': Shared, j: JobId)
    requires j in d.jobs
  {
    && j in d'.jobs && d'.jobs == d.jobs[j := d'.jobs[j]]
    && d'.leases == d.leases
    && (if Terminal(d'.jobs[j].status) then d'.queue == d.queue else d'.queue == [j] + d.queue)
    && d.jobs[j].transitions <= d'.jobs[j].transitions
  }

  lemma {:induction false} RelayAdvances(d: Shared, j: JobId, reply: Reply, n: nat, size: nat, first: nat)
    requires size > 0
    ensures var relayed := RelayFrom(d, j, reply, n, size, FAIR.attempt, first);
      relayed.1 && relayed.0.(streams := d.streams) == d
    decreases |reply.content| - n * size
  {
    if n * size < |reply.content| {
      assert (n + 1) * size == n * size + size;
      RelayAdvances(Append(d, j, RelayEntry(reply, n, size)), j, reply, n + 1, size, first);
    }
  }

  lemma {:induction false} TraceAdvances(d: Shared, j: JobId, steps: seq<string>)
    ensures Traced(d, j, steps, FAIR.attempt).(streams := d.streams) == d
  {
    if steps != [] { TraceAdvances(d, j, steps[..|steps| - 1]); }
  }

  lemma AgentAdvances(cfg: Settings, d: Shared, j: JobId, outcome: Outcome)
    requires ValidSettings(cfg) && Open(d, j) && !outcome.HistoryRaises?
    ensures Advances(d, AfterAgent(cfg, d, j, outcome, FAIR), j)
    ensures var row := AfterAgent(cfg, d, j, outcome, FAIR).jobs[j];
      Terminal(row.status) || (row.attempt == d.jobs[j].attempt < row.maxAttempts == d.jobs[j].maxAttempts)
  {
    hide RelayFrom;
    if outcome.AgentAnswers? {
      var done := Complete(d, j, d.jobs[j], outcome.reply);
      RelayAdvances(done, j, outcome.reply, 0, cfg.streamChunkChars, 4 + |outcome.steps| + 1);
    }
  }

  /** In fair weather an attempt finishes the job or puts it back with one attempt fewer owed. */
  lemma AttemptAdvances(cfg: Settings, d: Shared, j: JobId, outcome: Outcome)
    requires ValidSettings(cfg) && Open(d, j)
    ensures Advances(d, Attempt(cfg, d, j, outcome, FAIR), j)
    ensures Owes(Attempt(cfg, d, j, outcome, FAIR).jobs[j]) < Owes(d.jobs[j])
  {
    hide Traced, AfterAgent;
    if !outcome.HistoryRaises? {
      var generated := Generated(Begun(d, j, FAIR.attempt).0, j, FAIR.attempt);
      TraceAdvances(generated.0, j, outcome.steps);
      AgentAdvances(cfg, Traced(generated.0, j, outcome.steps, FAIR.attempt), j, outcome);
      hide FailAttempt;
    }
  }

  /** Every open job waits in the queue, with no lease in its way. */
  ghost predicate AllQueued(d: Shared) {
    forall j :: Open(d, j) ==> j in d.queue && j !in d.leases
  }

  ghost predicate HistoriesKept(before: map<JobId, Job>, after: map<JobId, Job>) {
    before.Keys == after.Keys && forall j :: j in before ==> before[j].transitions <= after[j].transitions
  }

  lemma SameHistories(jobs: map<JobId, Job>)
    ensures HistoriesKept(jobs, jobs)
  {
  }

  lemma HistoriesKeptOn(a: map<JobId, Job>, b: map<JobId, Job>, c: map<JobId, Job>)
    requires HistoriesKept(a, b) && HistoriesKept(b, c)
    ensures HistoriesKept(a, c)
  {
  }

  lemma OneAdvances(cfg: Settings, d: Shared, w: WorkerId, agent: Agent)
    requires ValidSettings(cfg) && AllQueued(d) && d.queue != []
    ensures var last := |d.queue| - 1;
      var d' := AfterOne(cfg, d.(queue := d.queue[..last]), d.queue[last], w, agent, FAIR);
      && AllQueued(d')
      && HistoriesKept(d.jobs, d'.jobs)
      && (Owed(d'.jobs) < Owed(d.jobs) || (Owed(d'.jobs) == Owed(d.jobs) && |d'.queue| < |d.queue|))
  {
    hide Attempt, Owed, Owes;
    var last := |d.queue| - 1;
    var j := d.queue[last];
    var popped := d.(queue := d.queue[..last]);
    var d' := AfterOne(cfg, popped, j, w, agent, FAIR);
    assert d.queue == popped.queue + [j];
    if Open(d, j) {
      var leased := TakeLease(popped, j, w);
      AttemptAdvances(cfg, leased, j, agent(j, d.jobs[j].attempt));
      OwedUpdate(d.jobs, d'.jobs, j);
      assert d'.leases == d.leases;
    } else {
      assert d'.jobs == d.jobs && d'.queue == popped.queue;
      assert d'.leases == d.leases;
    }
    forall k | Open(d', k) ensures k in d'.queue && k !in d'.leases {
      if k != j { assert Open(d, k); }
    }
  }

  /** One turn of the worker's loop: claim the oldest entry and run it. */
  method ClaimNext(store: Store, w: WorkerId, agent: Agent, ghost s: System, ghost t: System) returns (ghost u: System)
    requires ValidSettings(store.cfg) && AllQueued(store.Data()) && store.queue != []
    requires Reaches(store.cfg, s, t) && At(s, t, w, Idle, store.Data())
    modifies store
    ensures AllQueued(store.Data()) && HistoriesKept(old(store.jobs), store.jobs)
    ensures Owed(store.jobs) < old(Owed(store.jobs))
         || (Owed(store.jobs) == old(Owed(store.jobs)) && |store.queue| < |old(store.queue)|)
    ensures Reaches(store.cfg, s, u) && At(s, u, w, Idle, store.Data())
  {
    hide Reaches, Attempt, AfterOne, Owed, HistoriesKept, AllQueued;
    u := OneReaches(store.cfg, s, t, w, agent, FAIR);
    OneAdvances(store.cfg, store.Data(), w, agent);
    var last := |store.queue| - 1;
    var j := store.queue[last];
    store.queue := store.queue[..last];
    store.RunOne(j, w, agent, FAIR);
  }

  /** The worker process: reclaim, then claim and run until nothing is left to claim. It ends;
      every job has then completed or failed; no job, and no entry of any history, was lost;
      and where it ends is a state the protocol reaches from where it started, so everything that
      holds of reachable states holds there if it held before. */
  method RunWorker(store: Store, w: WorkerId, agent: Agent, ghost s: System) returns (ghost t: System)
    requires ValidSettings(store.cfg)
    requires s.data == store.Data() && w !in s.workers
    requires forall j :: Open(store.Data(), j) ==> j !in store.leases
    modifies store
    ensures forall j :: j in store.jobs ==> Terminal(store.jobs[j].status)
    ensures HistoriesKept(old(store.jobs), store.jobs)
    ensures store.queue == []
    ensures Reaches(store.cfg, s, t) && t.data == store.Data()
    ensures Reachable(store.cfg, s) ==> Reachable(store.cfg, t)
  {
    hide Reaches, Reachable, Attempt, AfterOne, Owed, HistoriesKept;
    var reclaimed := store.ReclaimOrphanedJobs();
    assert HistoriesKept(store.jobs, store.jobs) by { SameHistories(store.jobs); }
    t := StartReaches(store.cfg, s, w, reclaimed);
    while store.queue != []
      invariant AllQueued(store.Data())
      invariant HistoriesKept(old(store.jobs), store.jobs)
      invariant Reaches(store.cfg, s, t) && At(s, t, w, Idle, store.Data())
      decreases Owed(store.jobs), |store.queue|
    {
      ghost var before := store.jobs;
      t := ClaimNext(store, w, agent, s, t);
      HistoriesKeptOn(old(store.jobs), before, store.jobs);
    }
    assert forall j :: j in store.jobs ==> !Open(store.Data(), j);
    if Reachable(store.cfg, s) { ReachesReachable(store.cfg, s, t); }
  }

  // --- Where recovery is needed even though nobody died -----------------------------------

  /** A retry is pushed before its lease is released. Whenever another worker is idle and the
      queue is empty, it can pop that entry, find the lease, and drop it: the job is then open
      with no entry, no lease and no worker, although no process died. Only a reclaim, which
      runs when a worker starts, finds it again. */
  lemma RetryCanBeDropped(cfg: Settings, s: System, v: WorkerId, w: WorkerId, error: ErrorCode) returns (t: System)
    requires v in s.workers && s.workers[v].Working? && s.workers[v].at == AtFailing(true, error)
    requires w in s.workers && s.workers[w].Idle? && s.data.queue == []
    requires var j := s.workers[v].job; Open(s.data, j) && j in s.data.leases && MayRetry(s.data.jobs[j], true)
    ensures Reaches(cfg, s, t)
    ensures var j := s.workers[v].job;
      && Open(t.data, j) && t.data.jobs[j].status.Retrying?
      && j !in t.data.queue && j !in t.data.leases
      && t.workers == s.workers[v := Idle]
  {
    t := RetryPushed(cfg, s, v, error);
    t := Then(cfg, s, t, Pop(w));
    t := Then(cfg, s, t, Take(w));
    t := Then(cfg, s, t, Release(v, true));
    assert t.workers == s.workers[v := Idle];
  }

  lemma RetryPushed(cfg: Settings, s: System, v: WorkerId, error: ErrorCode) returns (t: System)
    requires v in s.workers && s.workers[v].Working? && s.workers[v].at == AtFailing(true, error)
    requires var j := s.workers[v].job; Open(s.data, j) && MayRetry(s.data.jobs[j], true)
    ensures Reaches(cfg, s, t)
    ensures var j := s.workers[v].job;
      && t.workers == s.workers[v := Releasing(j)]
      && t.data.queue == [j] + s.data.queue && t.data.leases == s.data.leases
      && Open(t.data, j) && t.data.jobs[j].status.Retrying?
  {
    Stay(cfg, s);
    t := Then(cfg, s, s, Commit(v, true));
    t := Then(cfg, s, t, Publish(v, Published));
    t := Then(cfg, s, t, Requeue(v, true));
  }
}
