/** Why the lease must not lapse under a live worker: let one lapse once, and a job can end up with two
    answers. */
module JobLapse {
  import opened Options
  import opened JobModel
  import opened JobProtocol
  import opened JobSafety
  import JobStore
  import JobRecovery
  import JobCarriers

  /** The lease of `j` gone although somebody holds it: a heartbeat that stopped, or came too late. */
  function Lapsed(s: System, j: JobId): System {
    s.(data := DropLease(s.data, j))
  }

  const REPLY := Reply("", None, [], false)

  /** Worker `w` has a new answer to job 0 in hand, ready to be stored. */
  ghost predicate Answering(s: System, w: WorkerId) {
    && w in s.workers && s.workers[w].Working? && s.workers[w].job == 0 && s.workers[w].at == AtPersist(REPLY)
    && 0 in s.data.jobs && s.workers[w].row.conversation == s.data.jobs[0].conversation
  }

  /** From its lease on to the answer. */
  lemma Answers(cfg: Settings, s: System, t: System, w: WorkerId) returns (u: System)
    requires JobRecovery.Reaches(cfg, s, t) && JobRecovery.At(s, t, w, Leased(0), t.data) && Open(t.data, 0)
    ensures JobRecovery.Reaches(cfg, s, u) && Answering(u, w)
    ensures u.workers == s.workers[w := u.workers[w]] && u.workers[w].row == u.data.jobs[0]
    ensures u.data.jobs.Keys == t.data.jobs.Keys && u.data.turns == t.data.turns && u.data.queue == t.data.queue
    ensures u.data.leases == t.data.leases
    ensures u.data.jobs[0].conversation == t.data.jobs[0].conversation && !Terminal(u.data.jobs[0].status)
  {
    hide JobRecovery.Reaches;
    var fates := JobStore.FAIR.attempt;
    u := JobRecovery.Then(cfg, s, t, Read(w));
    u := JobRecovery.BegunReaches(cfg, s, u, w, 0, fates);
    u := JobRecovery.AnnouncedGenerating(cfg, s, u, w, 0, fates);
    u := JobRecovery.Then(cfg, s, u, Answer(w, REPLY));
  }

  /** A worker that is about to store its answer, in a reachable state. */
  lemma AboutToStore(cfg: Settings) returns (s: System)
    requires ValidSettings(cfg)
    ensures Reachable(cfg, s) && Answering(s, "a") && s.workers.Keys == {"a"}
    ensures s.data.jobs.Keys == {0} && s.data.queue == [] && !Terminal(s.data.jobs[0].status)
    ensures TurnCount(TurnsOf(s.data, s.data.jobs[0].conversation), 0, true) == 0
    ensures s.data.leases.Keys == {0}
  {
    var steps, before := JobCarriers.Fetched(cfg, false);
    JobCarriers.LegalReachable(cfg, steps);
    hide JobRecovery.Reaches, Reachable, JobCarriers.Led, JobCarriers.Legal;
    JobRecovery.Stay(cfg, before);
    s := Answers(cfg, before, before, "a");
    JobRecovery.ReachesReachable(cfg, before, s);
    NothingAnswered(cfg, s);
  }

  lemma NothingAnswered(cfg: Settings, s: System)
    requires ValidSettings(cfg) && Reachable(cfg, s) && Open(s.data, 0)
    ensures TurnCount(TurnsOf(s.data, s.data.jobs[0].conversation), 0, true) == 0
  {
    ReachableOk(cfg, s);
    assert JobOk(s, 0);
    CompletedOnce(s.data.jobs[0].transitions);
  }

  /** The lapse, a worker that starts and reclaims the job, and takes it as far as its own answer. */
  lemma Reclaimed(cfg: Settings, s: System) returns (t: System)
    requires Answering(s, "a") && s.workers.Keys == {"a"} && s.data.queue == [] && s.data.leases == map[]
    requires s.data.jobs.Keys == {0} && !Terminal(s.data.jobs[0].status)
    ensures JobRecovery.Reaches(cfg, s, t) && Answering(t, "a") && Answering(t, "b")
    ensures t.data.turns == s.data.turns && t.data.jobs[0].conversation == s.data.jobs[0].conversation
  {
    hide JobRecovery.Reaches;
    t := JobRecovery.StartReaches(cfg, s, "b", [0]);
    t := JobRecovery.Then(cfg, s, t, Pop("b"));
    t := JobRecovery.Then(cfg, s, t, Take("b"));
    t := Answers(cfg, s, t, "b");
  }

  lemma Stores(cfg: Settings, s: System, t: System, w: WorkerId) returns (u: System)
    requires JobRecovery.Reaches(cfg, s, t) && Answering(t, w)
    ensures JobRecovery.Reaches(cfg, s, u) && 0 in u.data.jobs
    ensures forall v :: v != w && Answering(t, v) ==> Answering(u, v)
    ensures u.data.jobs[0].conversation == t.data.jobs[0].conversation
    ensures var c := t.data.jobs[0].conversation;
      TurnCount(TurnsOf(u.data, c), 0, true) == TurnCount(TurnsOf(t.data, c), 0, true) + 1
  {
    hide JobRecovery.Reaches;
    TurnCountAppend(TurnsOf(t.data, t.data.jobs[0].conversation), AssistantTurn(0, REPLY), 0, true);
    u := JobRecovery.Then(cfg, s, t, Commit(w, true));
  }

  /** From a reachable state, one lapse under a live worker and then only what the protocol allows, in
      which nothing raises and nobody dies: the conversation holds two answers to one question. */
  lemma LapseDoublesTheAnswer(cfg: Settings) returns (s: System, t: System)
    requires ValidSettings(cfg)
    ensures Reachable(cfg, s) && "a" in s.workers && Holds(s.workers["a"], 0)
    ensures JobRecovery.Reaches(cfg, Lapsed(s, 0), t) && 0 in t.data.jobs
    ensures TurnCount(TurnsOf(t.data, t.data.jobs[0].conversation), 0, true) == 2
  {
    s := AboutToStore(cfg);
    hide JobRecovery.Reaches, Reachable, TurnCount;
    var lapsed := Lapsed(s, 0);
    assert lapsed.data.leases == map[];
    t := Reclaimed(cfg, lapsed);
    t := Stores(cfg, lapsed, t, "b");
    t := Stores(cfg, lapsed, t, "a");
  }
}
