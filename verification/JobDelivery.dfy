/** What a browser that follows a job sees, over every run of the protocol and every pattern of
    reconnects. */
module JobDelivery {
  import opened Options
  import opened JobModel
  import opened JobProtocol
  import opened JobSafety
  import opened Relay

  lemma {:induction false} TextPrefix(stream: Stream, n: nat)
    requires n <= |stream|
    ensures Text(stream[..n]) <= Text(stream)
    decreases |stream|
  {
    if n < |stream| {
      var last := |stream| - 1;
      TextPrefix(stream[..last], n);
      assert stream[..last][..n] == stream[..n];
    } else {
      assert stream[..n] == stream;
    }
  }

  predicate ShowsReply(v: View, reply: Reply) {
    v.answer == reply.content && v.citations == reply.citations && v.clarifies == reply.clarifies
  }

  /** The view was closed by entry `i`. */
  ghost predicate ClosedBy(v: View, stream: Stream, i: nat)
    requires i < |stream|
  {
    match stream[i]
    case FinalEvent(reply) => ShowsReply(v, reply) && v.status.Completed?
    case ErrorEvent(_) => v.answer == Text(stream[..i]) && v.status.Failed?
    case _ => false
  }

  /** A view is built from chunks until an outcome replaces or freezes it. */
  lemma {:induction false} ShownFrom(stream: Stream, n: nat)
    requires n <= |stream|
    ensures var v := Shown(stream[..n]);
      && (!v.done ==> v.answer == Text(stream[..n]))
      && (v.done ==> exists i :: 0 <= i < n && ClosedBy(v, stream, i))
  {
    if n > 0 {
      ShownFrom(stream, n - 1);
      ShownNext(stream, n - 1);
      TextAppend(stream[..n - 1], stream[n - 1]);
      assert stream[..n] == stream[..n - 1] + [stream[n - 1]];
      var before, v := Shown(stream[..n - 1]), Shown(stream[..n]);
      assert v.done && !before.done ==> ClosedBy(v, stream, n - 1);
    }
  }

  // --- A stream that grows while it is followed ---------------------------------------------

  lemma CommitStreams(s: System, w: WorkerId, p: Phase)
    requires CommitDue(p)
    ensures CommitStep(s, w, p).data.streams == s.data.streams
  {
    hide Record, Terminal, MayRetry;
  }

  /** No step takes anything from a stream. */
  lemma StreamsGrow(cfg: Settings, s: System, step: Step, j: JobId)
    requires Enabled(s, step)
    ensures StreamOf(s.data, j) <= StreamOf(Apply(cfg, s, step).data, j)
  {
    hide CommitStep, Terminal, RelayEntry, DueEvent, AfterPublish, AfterPublishRaises;
    if step.Commit? && step.ok { CommitStreams(s, step.worker, s.workers[step.worker]); }
  }

  lemma {:induction false} StreamsGrowAlong(cfg: Settings, run: seq<System>, i: nat, k: nat, j: JobId)
    requires Run(cfg, run) && i <= k < |run|
    ensures StreamOf(run[i].data, j) <= StreamOf(run[k].data, j)
    decreases k
  {
    if i < k {
      StreamsGrowAlong(cfg, run, i, k - 1, j);
      assert Next(cfg, run[k - 1], run[k]);
      var step :| Enabled(run[k - 1], step) && run[k] == Apply(cfg, run[k - 1], step);
      StreamsGrow(cfg, run[k - 1], step, j);
    }
  }

  /** A connection, and the state of the run in which the last of its entries was there to be
      served. */
  datatype Served = Served(at: nat, connection: Connection)

  function Connections(served: seq<Served>): seq<Connection> {
    if served == [] then [] else [served[0].connection] + Connections(served[1..])
  }

  /** Each connection resumes at or before the last offset received, and gets what its state holds. */
  predicate ResumesAlong(run: seq<System>, j: JobId, served: seq<Served>, offset: nat) {
    served == [] ||
    (&& served[0].at < |run|
     && served[0].connection.start <= offset
     && served[0].connection.start <= served[0].connection.end <= |StreamOf(run[served[0].at].data, j)|
     && ResumesAlong(run, j, served[1..], served[0].connection.end))
  }

  function FollowAlong(c: Client, run: seq<System>, j: JobId, served: seq<Served>, offset: nat): Client
    requires ResumesAlong(run, j, served, offset)
    decreases |served|
  {
    if served == [] then c
    else
      var k := served[0].connection;
      FollowAlong(FollowOne(c, StreamOf(run[served[0].at].data, j), k.start, k.end), run, j, served[1..], k.end)
  }

  lemma {:induction false} FollowOneLonger(c: Client, stream: Stream, longer: Stream, at: nat, end: nat)
    requires at <= end <= |stream| && stream <= longer
    ensures FollowOne(c, longer, at, end) == FollowOne(c, stream, at, end)
    decreases end - at
  {
    if at < end { FollowOneLonger(Received(c, Frame(at + 1, stream[at])), stream, longer, at + 1, end); }
  }

  /** What the connections of a run deliver is what they would deliver from its last state. */
  lemma {:induction false} AlongIsAll(cfg: Settings, c: Client, run: seq<System>, j: JobId, served: seq<Served>,
                                      offset: nat)
    requires Run(cfg, run) && ResumesAlong(run, j, served, offset)
    ensures var stream := StreamOf(run[|run| - 1].data, j);
      && Resumes(Connections(served), stream, offset)
      && FollowAlong(c, run, j, served, offset) == FollowAll(c, stream, Connections(served), offset)
    decreases |served|
  {
    hide Run, FollowOne;
    if served != [] {
      var last, now, k := |run| - 1, served[0].at, served[0].connection;
      assert last >= 0 by { RunHasStates(cfg, run); }
      StreamsGrowAlong(cfg, run, now, last, j);
      FollowOneLonger(c, StreamOf(run[now].data, j), StreamOf(run[last].data, j), k.start, k.end);
      AlongIsAll(cfg, FollowOne(c, StreamOf(run[now].data, j), k.start, k.end), run, j, served[1..], k.end);
    }
  }

  lemma RunHasStates(cfg: Settings, run: seq<System>)
    requires Run(cfg, run)
    ensures |run| > 0
  {
  }

  /** What is on screen is never anything but the beginning of the answer that was checked and
      stored, and it is that whole answer once the job shows as completed. */
  lemma OnlyTheStoredAnswer(cfg: Settings, s: System, j: JobId, connections: seq<Connection>)
    requires ValidSettings(cfg) && Reachable(cfg, s)
    requires Resumes(connections, StreamOf(s.data, j), 0)
    ensures var c := FollowAll(Client(INITIAL, {}), StreamOf(s.data, j), connections, 0);
      && (j !in s.answered ==> c.view.answer == "")
      && (j in s.answered ==> c.view.answer <= s.answered[j].content)
      && (c.view.done && c.view.status.Completed? ==> j in s.answered && ShowsReply(c.view, s.answered[j]))
  {
    var stream := StreamOf(s.data, j);
    var high := Furthest(connections, 0);
    ReconnectsAreInvisible(stream, connections);
    StreamReads(cfg, s, j);
    ShownFrom(stream, high);
    var once := Shown(stream[..high]);
    if !once.done {
      TextPrefix(stream, high);
    } else {
      var i :| 0 <= i < high && ClosedBy(once, stream, i);
      TextPrefix(stream, i);
    }
    if j !in s.answered {
      TextOfCommentary(stream);
    }
  }

  /** The same for a browser that follows the job while the run goes on, each connection served at
      whatever state the run had then come to: what it shows belongs to the reply that the last state
      has stored, and once the job shows as completed it is that reply, citations and all. */
  lemma OnlyTheStoredReply(cfg: Settings, run: seq<System>, j: JobId, served: seq<Served>)
    requires ValidSettings(cfg) && Run(cfg, run) && ResumesAlong(run, j, served, 0)
    ensures var c := FollowAlong(Client(INITIAL, {}), run, j, served, 0); var s := run[|run| - 1];
      && (j !in s.answered ==> c.view.answer == "")
      && (j in s.answered ==> c.view.answer <= s.answered[j].content)
      && (c.view.done && c.view.status.Completed? ==> j in s.answered && ShowsReply(c.view, s.answered[j]))
  {
    var s := run[|run| - 1];
    assert Reachable(cfg, s);
    AlongIsAll(cfg, Client(INITIAL, {}), run, j, served, 0);
    hide Run, Reachable, FollowAlong, FollowAll, ResumesAlong;
    OnlyTheStoredAnswer(cfg, s, j, Connections(served));
  }

  // --- Server and browser together -----------------------------------------------------------

  /** A stream as the server reads it: every entry that publish writes can be decoded. */
  function RawOf(stream: Stream): (raw: seq<Raw>)
    ensures |raw| == |stream| && forall i :: 0 <= i < |raw| ==> raw[i] == Entry(stream[i])
    ensures Readable(raw)
  {
    seq(|stream|, i requires 0 <= i < |stream| => Entry(stream[i]))
  }

  function RawPolls(polls: seq<Stream>): (raws: seq<seq<Raw>>)
    ensures |raws| == |polls| && forall i :: 0 <= i < |raws| ==> raws[i] == RawOf(polls[i])
  {
    seq(|polls|, i requires 0 <= i < |polls| => RawOf(polls[i]))
  }

  /** One visit: the stream as each poll finds it, whether the job had finished before, and how many
      frames the browser stays for. */
  datatype Visit = Visit(polls: seq<Stream>, finished: bool, patience: nat)

  /** The polls find longer and longer beginnings of `stream`. */
  predicate Grows(v: Visit, stream: Stream) {
    && v.polls != []
    && (forall p :: 0 <= p < |v.polls| ==> v.polls[p] <= stream)
    && forall p, q :: 0 <= p <= q < |v.polls| ==> |v.polls[p]| <= |v.polls[q]|
  }

  function Last(v: Visit): Stream
    requires v.polls != []
  {
    v.polls[|v.polls| - 1]
  }

  lemma RawGrows(v: Visit, stream: Stream)
    requires Grows(v, stream)
    ensures Growing(RawPolls(v.polls))
  {
    forall p, q | 0 <= p <= q < |v.polls| ensures RawOf(v.polls[p]) <= RawOf(v.polls[q]) {
      assert v.polls[p] <= v.polls[q];
    }
  }

  lemma {:induction false} FollowOneNext(c: Client, stream: Stream, at: nat, end: nat)
    requires at <= end < |stream|
    ensures FollowOne(c, stream, at, end + 1) == Received(FollowOne(c, stream, at, end), Frame(end + 1, stream[end]))
    decreases end - at
  {
    if at < end { FollowOneNext(Received(c, Frame(at + 1, stream[at])), stream, at + 1, end); }
  }

  /** Frames that are served, over a readable stream, are its entries one after the other. */
  lemma ServedFrames(frames: seq<Frame>, stream: Stream, start: nat)
    requires Serves(frames, RawOf(stream), start)
    ensures frames != [] ==> start + |frames| <= |stream|
    ensures start + |frames| <= |stream| ==>
      forall i :: 0 <= i < |frames| ==> frames[i] == Frame(start + i + 1, stream[start + i])
  {
    if frames != [] {
      ReadableFrames(RawOf(stream), stream, start, frames[|frames| - 1].id);
    }
  }

  /** A visit that neither ended nor was left comes as far as its polls bring it, a batch each, and to
      all there was at any of them. */
  ghost predicate GotFar(v: Visit, lastEventId: Option<nat>, stream: Stream, end: nat)
    requires Grows(v, stream) && lastEventId.GetOr(0) <= end <= |stream|
  {
    var start := lastEventId.GetOr(0);
    || end - start == v.patience
    || (end > start && Ends(stream[end - 1]))
    || (v.finished && lastEventId.None? && v.polls[0] == [])
    || forall k :: 0 <= k < |v.polls| ==> end >= Min(|v.polls[k]|, start + BATCH * (|v.polls| - k))
  }

  lemma SentFar(v: Visit, lastEventId: Option<nat>, stream: Stream, frames: seq<Frame>)
    requires Grows(v, stream) && lastEventId.GetOr(0) + |frames| <= |Last(v)|
    requires Serves(frames, RawOf(Last(v)), lastEventId.GetOr(0))
    requires frames == if v.finished && lastEventId.None? && Batch(RawPolls(v.polls)[0], 0) == [] then []
                       else Cut(Polled(RawPolls(v.polls), lastEventId.GetOr(0)), v.patience)
    requires |frames| <= v.patience
    ensures GotFar(v, lastEventId, stream, lastEventId.GetOr(0) + |frames|)
  {
    hide Cut, Polled, Serves, Batch, At, Ends;
    var start, raws := lastEventId.GetOr(0), RawPolls(v.polls);
    assert Last(v) <= stream by { LastWithin(v, stream); }
    ServedFrames(frames, Last(v), start);
    EmptyBatch(v.polls[0]);
    CutWhole(Polled(raws, start), v.patience);
    FramesEnd(frames, Last(v), start);
    PollsFar(v, start, stream);
  }

  lemma LastWithin(v: Visit, stream: Stream)
    requires Grows(v, stream)
    ensures Last(v) <= stream
  {
  }

  lemma PollsFar(v: Visit, start: nat, stream: Stream)
    requires Grows(v, stream)
    ensures forall k :: 0 <= k < |v.polls| ==>
      At(Polled(RawPolls(v.polls), start), start) >= Min(|v.polls[k]|, start + BATCH * (|v.polls| - k))
  {
    hide Polled, At;
    RawGrows(v, stream);
    forall k | 0 <= k < |v.polls|
      ensures At(Polled(RawPolls(v.polls), start), start) >= Min(|v.polls[k]|, start + BATCH * (|v.polls| - k))
    {
      PolledProgress(RawPolls(v.polls), start, k);
    }
  }

  lemma EmptyBatch(stream: Stream)
    ensures Batch(RawOf(stream), 0) == [] <==> stream == []
  {
    if stream != [] { ReadableBatch(RawOf(stream), 0); }
  }

  lemma FramesEnd(frames: seq<Frame>, stream: Stream, start: nat)
    requires start + |frames| <= |stream|
    requires forall i :: 0 <= i < |frames| ==> frames[i] == Frame(start + i + 1, stream[start + i])
    ensures At(frames, start) == start + |frames|
    ensures frames != [] ==> frames[|frames| - 1].event == stream[start + |frames| - 1]
  {
  }

  /** What stream_job sends on one visit, handled by the hook one frame at a time, is one connection of
      `ReconnectsAreInvisible`. */
  method FollowVisit(client: JobStream, v: Visit, lastEventId: Option<nat>, ghost stream: Stream) returns (end: nat)
    requires Grows(v, stream) && lastEventId.GetOr(0) <= |Last(v)|
    modifies client
    ensures lastEventId.GetOr(0) <= end <= |Last(v)| <= |stream|
    ensures client.State() == FollowOne(old(client.State()), stream, lastEventId.GetOr(0), end)
    ensures GotFar(v, lastEventId, stream, end)
  {
    hide Received, Serves, Cut, Polled, Batch, GotFar;
    var start, last := lastEventId.GetOr(0), Last(v);
    RawGrows(v, stream);
    var frames := StreamJob(RawPolls(v.polls), lastEventId, v.finished, v.patience);
    ServedFrames(frames, last, start);
    SentFar(v, lastEventId, stream, frames);
    for i := 0 to |frames|
      invariant client.State() == FollowOne(old(client.State()), stream, start, start + i)
    {
      FollowOneNext(old(client.State()), stream, start, start + i);
      client.Handle(frames[i]);
    }
    end := start + |frames|;
  }

  /** Each visit finds at least what the one before it found. */
  predicate AllGrow(visits: seq<Visit>, stream: Stream) {
    && (forall k :: 0 <= k < |visits| ==> Grows(visits[k], stream))
    && forall i, k :: 0 <= i <= k < |visits| ==> |Last(visits[i])| <= |Last(visits[k])|
  }

  lemma {:induction false} FollowAllSnoc(c: Client, stream: Stream, connections: seq<Connection>, at: nat,
                                         k: Connection)
    requires Resumes(connections, stream, at) && k.start <= LastEnd(connections, at)
    requires k.start <= k.end <= |stream|
    ensures Resumes(connections + [k], stream, at)
    ensures LastEnd(connections + [k], at) == k.end
    ensures Furthest(connections + [k], at) == Max(Furthest(connections, at), k.end)
    ensures FollowAll(c, stream, connections + [k], at)
         == FollowOne(FollowAll(c, stream, connections, at), stream, k.start, k.end)
    decreases |connections|
  {
    FurthestSnoc(connections, at, k);
    hide FollowOne, Furthest;
    if connections == [] {
      assert [k][1..] == [] && connections + [k] == [k];
    } else {
      assert (connections + [k])[0] == connections[0] && (connections + [k])[1..] == connections[1..] + [k];
      var first := connections[0];
      FollowAllSnoc(FollowOne(c, stream, first.start, first.end), stream, connections[1..], first.end, k);
    }
  }

  lemma {:induction false} FurthestSnoc(connections: seq<Connection>, sofar: nat, k: Connection)
    ensures Furthest(connections + [k], sofar) == Max(Furthest(connections, sofar), k.end)
    decreases |connections|
  {
    if connections == [] {
      assert [k][1..] == [] && connections + [k] == [k];
      assert Furthest([k][1..], Max(sofar, k.end)) == Max(sofar, k.end);
    } else {
      assert (connections + [k])[0] == connections[0] && (connections + [k])[1..] == connections[1..] + [k];
      FurthestSnoc(connections[1..], Max(sofar, connections[0].end), k);
    }
  }

  /** A browser that comes back whenever its connection breaks, with the last offset it received: after
      any number of visits to a stream that grows meanwhile, its view is that of one uninterrupted
      pass. */
  method FollowJob(visits: seq<Visit>, ghost stream: Stream) returns (view: View, received: nat)
    requires AllGrow(visits, stream)
    ensures received <= |stream| && view == Shown(stream[..received])
  {
    hide FollowAll, FollowOne, Furthest, LastEnd, Resumes, Shown;
    var client := new JobStream();
    received := 0;
    ghost var first := client.State();
    ghost var connections: seq<Connection> := [];
    NoConnections(first, stream);
    for k := 0 to |visits|
      invariant Resumes(connections, stream, 0)
      invariant received == LastEnd(connections, 0) == Furthest(connections, 0) <= |stream|
      invariant if k == 0 then received == 0 else received <= |Last(visits[k - 1])|
      invariant client.State() == FollowAll(first, stream, connections, 0)
    {
      var lastEventId := if received == 0 then None else Some(received);
      var end := FollowVisit(client, visits[k], lastEventId, stream);
      FollowAllSnoc(first, stream, connections, 0, Connection(received, end));
      connections := connections + [Connection(received, end)];
      received := end;
    }
    ReconnectsAreInvisible(stream, connections);
    view := client.view;
  }

  lemma NoConnections(c: Client, stream: Stream)
    ensures Resumes([], stream, 0) && LastEnd([], 0) == Furthest([], 0) == 0
    ensures FollowAll(c, stream, [], 0) == c
  {
  }
}
