/** One answering job as the request_jobs table stores it: its status machine, its
    append-only history, and the relay stream its clients read. */
module JobModel {

  import opened Options

  type JobId = nat
  type ConversationId = nat
  type WorkerId = string
  type ErrorCode = string

  const INTERNAL_ERROR: ErrorCode := "INTERNAL_ERROR"

  datatype Settings = Settings(streamChunkChars: nat)

  /** Both bounds are enforced when the configuration is loaded. */
  predicate ValidSettings(cfg: Settings) { cfg.streamChunkChars > 0 }

  // --- Rows ---------------------------------------------------------------

  datatype Status = Queued | Retrieving | Generating | Retrying | Completed | Failed

  predicate Terminal(status: Status) { status.Completed? || status.Failed? }

  datatype Transition = Transition(status: Status, error: Option<ErrorCode>)

  type History = seq<Transition>

  datatype Job = Job(
    conversation: ConversationId,
    key: string,
    question: string,
    maxAttempts: nat,
    status: Status,
    error: Option<ErrorCode>,
    attempt: nat,
    transitions: History)

  /** What the agent hands back: the checked text, why it is not a plain answer if it is not, and
      what the reader is shown beside it. */
  datatype Reply = Reply(content: string, code: Option<ErrorCode>, citations: seq<string>, clarifies: bool)

  /** One message of a conversation; its ordinal is its position. */
  datatype Turn = UserTurn(job: JobId, content: string) | AssistantTurn(job: JobId, reply: Reply)

  function NewJob(conversation: ConversationId, key: string, question: string, maxAttempts: nat): Job {
    Job(conversation, key, question, maxAttempts, Queued, None, 0, [Transition(Queued, None)])
  }

  /** record_transition: the status moves and the history grows by one entry. */
  function Record(row: Job, status: Status, error: Option<ErrorCode>): Job {
    row.(status := status, error := error, transitions := row.transitions + [Transition(status, error)])
  }

  // --- The status machine --------------------------------------------------

  /** The moves one committed transition can make. A second `Retrieving` with nothing between
      is an attempt whose worker died or whose failure handler raised; `Failed` straight after
      `Queued` or `Retrying` is an attempt whose very first commit raised. */
  predicate Edge(a: Status, b: Status) {
    match a
    case Queued => b.Retrieving? || b.Failed?
    case Retrieving => b.Generating? || b.Retrying? || b.Failed? || b.Retrieving?
    case Generating => b.Completed? || b.Retrying? || b.Failed? || b.Retrieving?
    case Retrying => b.Retrieving? || b.Failed?
    case Completed => b.Failed?
    case Failed => false
  }

  ghost predicate ValidHistory(h: History) {
    && |h| > 0
    && h[0].status.Queued?
    && forall i :: 0 < i < |h| ==> Edge(h[i - 1].status, h[i].status)
  }

  function Count(h: History, status: Status): nat {
    if h == [] then 0
    else Count(h[..|h| - 1], status) + if h[|h| - 1].status == status then 1 else 0
  }

  /** Attempts that were superseded without a closing entry of their own. */
  function Interrupted(h: History): nat {
    if |h| < 2 then 0
    else
      Interrupted(h[..|h| - 1])
      + if h[|h| - 1].status.Retrieving? && (h[|h| - 2].status.Retrieving? || h[|h| - 2].status.Generating?)
        then 1 else 0
  }

  lemma CountAppend(h: History, t: Transition, status: Status)
    ensures Count(h + [t], status) == Count(h, status) + if t.status == status then 1 else 0
  {
    assert (h + [t])[..|h|] == h;
  }

  /** Every retry closes an attempt, so retries never outnumber attempts, and while an
      attempt is open they are strictly fewer. */
  lemma {:induction false} RetriesCloseAttempts(h: History)
    requires ValidHistory(h)
    ensures Count(h, Retrying) <= Count(h, Retrieving)
    ensures h[|h| - 1].status.Retrieving? || h[|h| - 1].status.Generating?
            ==> Count(h, Retrying) < Count(h, Retrieving)
  {
    var last := |h| - 1;
    if last > 0 {
      RetriesCloseAttempts(h[..last]);
      assert Edge(h[last - 1].status, h[last].status);
    } else {
      assert h[..0] == [];
    }
  }

  /** All attempts but the last ended in a retry or were interrupted. */
  lemma {:induction false} AttemptsAccounted(h: History)
    requires ValidHistory(h)
    ensures Count(h, Retrieving) <= Count(h, Retrying) + Interrupted(h) + 1
    ensures h[|h| - 1].status.Queued? || h[|h| - 1].status.Retrying?
            ==> Count(h, Retrieving) <= Count(h, Retrying) + Interrupted(h)
  {
    var last := |h| - 1;
    if last > 0 {
      AttemptsAccounted(h[..last]);
      assert Edge(h[last - 1].status, h[last].status);
    } else {
      assert h[..0] == [];
    }
  }

  /** A finished history: `Completed` occurs at most once, and only as the last entry or just
      before a final `Failed`; nothing follows `Failed`. */
  lemma {:induction false} CompletedOnce(h: History)
    requires ValidHistory(h)
    ensures Count(h, Completed) <= 1
    ensures h[|h| - 1].status.Completed? ==> Count(h, Completed) == 1
    ensures !Terminal(h[|h| - 1].status) ==> Count(h, Completed) == 0 && Count(h, Failed) == 0
    ensures Count(h, Failed) == if h[|h| - 1].status.Failed? then 1 else 0
  {
    var last := |h| - 1;
    if last > 0 {
      CompletedOnce(h[..last]);
      assert Edge(h[last - 1].status, h[last].status);
    } else {
      assert h[..0] == [];
    }
  }

  /** The same language written as a grammar:
      `queued (retrieving generating? retrying?)* (retrieving generating? end?)? | failed`,
      where `end` is `completed`, `failed`, or `completed failed`. `i` is where a new attempt
      would start. */
  predicate Attempts(h: seq<Status>, i: nat)
    requires i <= |h|
    decreases |h| - i
  {
    || i == |h|
    || (h[i].Failed? && i + 1 == |h|)
    || (h[i].Retrieving? &&
        var generating := i + 1 < |h| && h[i + 1].Generating?;
        var k := if generating then i + 2 else i + 1;
        || k == |h|
        || (h[k].Retrieving? && Attempts(h, k))
        || (h[k].Retrying? && Attempts(h, k + 1))
        || (h[k].Failed? && k + 1 == |h|)
        || (generating && h[k].Completed? && (k + 1 == |h| || (h[k + 1].Failed? && k + 2 == |h|))))
  }

  predicate InGrammar(h: seq<Status>) {
    |h| > 0 && h[0].Queued? && Attempts(h, 1)
  }

  function Statuses(h: History): (s: seq<Status>)
    ensures |s| == |h| && forall i :: 0 <= i < |h| ==> s[i] == h[i].status
  {
    seq(|h|, i requires 0 <= i < |h| => h[i].status)
  }

  lemma {:induction false} EdgesParse(h: seq<Status>, i: nat)
    requires 0 < i <= |h|
    requires forall k :: i <= k < |h| ==> Edge(h[k - 1], h[k])
    requires h[i - 1].Queued? || h[i - 1].Retrying? || (i < |h| && h[i].Retrieving?)
    ensures Attempts(h, i)
    decreases |h| - i
  {
    if i < |h| {
      assert Edge(h[i - 1], h[i]);
      if h[i].Retrieving? {
        var k := if i + 1 < |h| && h[i + 1].Generating? then i + 2 else i + 1;
        if k < |h| {
          assert Edge(h[k - 1], h[k]);
          if h[k].Retrieving? {
            EdgesParse(h, k);
          } else if h[k].Retrying? {
            EdgesParse(h, k + 1);
          } else {
            assert k + 1 < |h| ==> Edge(h[k], h[k + 1]);
            assert k + 2 < |h| ==> Edge(h[k + 1], h[k + 2]);
          }
        }
      } else {
        assert i + 1 < |h| ==> Edge(h[i], h[i + 1]);
      }
    }
  }

  lemma {:induction false} ParseEdges(h: seq<Status>, i: nat, j: nat)
    requires 0 < i <= |h| && Attempts(h, i)
    requires h[i - 1].Queued? || h[i - 1].Retrying?
             || (i < |h| && h[i].Retrieving? && (h[i - 1].Retrieving? || h[i - 1].Generating?))
    requires i <= j < |h|
    ensures Edge(h[j - 1], h[j])
    decreases |h| - i
  {
    if h[i].Retrieving? {
      var k := if i + 1 < |h| && h[i + 1].Generating? then i + 2 else i + 1;
      if k < |h| && j >= k {
        if h[k].Retrieving? {
          ParseEdges(h, k, j);
        } else if h[k].Retrying? && j > k {
          ParseEdges(h, k + 1, j);
        }
      }
    }
  }

  /** The edge relation and the grammar describe the same histories. */
  lemma HistoryIsGrammar(h: History)
    ensures ValidHistory(h) <==> InGrammar(Statuses(h))
  {
    var s := Statuses(h);
    if ValidHistory(h) {
      EdgesParse(s, 1);
    }
    if InGrammar(s) {
      forall j | 0 < j < |h| ensures Edge(h[j - 1].status, h[j].status) {
        ParseEdges(s, 1, j);
      }
    }
  }

  // --- The relay stream ----------------------------------------------------

  datatype Event =
    | StatusEvent(status: Status, attempt: nat)
    | TraceEvent(step: string)
    | DeltaEvent(text: string)
    | FinalEvent(reply: Reply)
    | ErrorEvent(code: ErrorCode)

  type Stream = seq<Event>

  /** Where an entry may stand: commentary, then answer chunks, then the outcome. */
  function Rank(e: Event): nat {
    match e
    case StatusEvent(_, _) => 0
    case TraceEvent(_) => 0
    case DeltaEvent(_) => 1
    case FinalEvent(_) => 2
    case ErrorEvent(_) => 3
  }

  ghost predicate Ordered(stream: Stream) {
    forall i, j :: 0 <= i < j < |stream| ==>
      Rank(stream[i]) <= Rank(stream[j]) && (Rank(stream[i]) >= 2 ==> Rank(stream[i]) < Rank(stream[j]))
  }

  ghost predicate Below(stream: Stream, rank: nat) {
    forall i :: 0 <= i < |stream| ==> Rank(stream[i]) <= rank
  }

  /** The answer text a reader has once it has read the whole stream. */
  function Text(stream: Stream): string {
    if stream == [] then ""
    else
      Text(stream[..|stream| - 1])
      + if stream[|stream| - 1].DeltaEvent? then stream[|stream| - 1].text else ""
  }

  lemma TextAppend(stream: Stream, e: Event)
    ensures Text(stream + [e]) == Text(stream) + if e.DeltaEvent? then e.text else ""
  {
    assert (stream + [e])[..|stream|] == stream;
  }

  lemma {:induction false} TextOfCommentary(stream: Stream)
    requires forall i :: 0 <= i < |stream| ==> !stream[i].DeltaEvent?
    ensures Text(stream) == ""
  {
    if stream != [] {
      TextOfCommentary(stream[..|stream| - 1]);
    }
  }

  function Min(a: nat, b: nat): nat { if a <= b then a else b }

  /** The n-th chunk publish_answer relays. */
  function Chunk(answer: string, n: nat, size: nat): string
    requires n * size < |answer|
  {
    answer[n * size..Min(n * size + size, |answer|)]
  }

  /** What has been relayed after n chunks. */
  function Relayed(answer: string, n: nat, size: nat): string {
    answer[..Min(n * size, |answer|)]
  }

  lemma RelayedGrows(answer: string, n: nat, size: nat)
    requires n * size < |answer|
    ensures Relayed(answer, n, size) + Chunk(answer, n, size) == Relayed(answer, n + 1, size)
    ensures Relayed(answer, n, size) <= answer
  {
    assert (n + 1) * size == n * size + size;
  }
}
