/** Keeping a long conversation affordable: recent turns verbatim, older ones folded into a running
    summary up to a marker. */
module Summarization {
  import opened Options
  import opened Strings

  datatype Role = User | Assistant

  datatype Turn = Turn(ordinal: int, role: Role, content: string)

  /** `window` is the number of messages replayed verbatim: twice the configured turns. */
  datatype Config = Config(historyTurns: nat, triggerTurns: nat) {
    function Window(): nat { 2 * historyTurns }
  }

  /** What a conversation stores. `folded` are the turns whose text went into the stored summary. */
  datatype Stored = Stored(summary: Option<string>, marker: Option<int>, folded: seq<Turn>)

  datatype Context = Context(summary: Option<string>, turns: seq<Turn>)

  /** Where the verbatim turns start. The source slices from `len - window`, and a negative index
      counts from the end. */
  function RecentStart(n: nat, window: nat): (start: nat)
    ensures start <= n
  {
    if window == 0 then n
    else if n >= window then n - window
    else if 2 * n > window then 2 * n - window
    else 0
  }

  function Users(history: seq<Turn>): nat {
    if history == [] then 0 else (if history[0].role.User? then 1 else 0) + Users(history[1..])
  }

  /** The older turns the marker has not passed. */
  function Pending(older: seq<Turn>, marker: Option<int>): (pending: seq<Turn>)
    ensures forall t :: t in pending ==> t in older
  {
    if older == [] then []
    else (if marker.None? || older[0].ordinal > marker.value then [older[0]] else []) + Pending(older[1..], marker)
  }

  /** What one summarization call comes to: the model's text, or the summary there was when the call
      failed or returned nothing usable. */
  function Summarized(previous: Option<string>, reply: Option<string>): Option<string> {
    if reply.Some? && Strip(reply.value) != "" then Some(Strip(reply.value)) else previous
  }

  predicate Fresh(summary: Option<string>, previous: Option<string>) {
    summary.Some? && summary.value != "" && summary != previous
  }

  /** Nothing to fold: too short, nothing outside the window, or nothing past the marker. */
  predicate Idle(cfg: Config, history: seq<Turn>, s: Stored) {
    var older := history[..RecentStart(|history|, cfg.Window())];
    Users(history) <= cfg.triggerTurns || older == [] || Pending(older, s.marker) == []
  }

  /** The conversation and the context after one turn's preparation: `reply` is what the summary
      model answers if it is asked, and `commits` whether the write goes through. */
  function Prepared(cfg: Config, history: seq<Turn>, s: Stored, reply: Option<string>,
                    commits: bool): (Stored, Context) {
    var start := RecentStart(|history|, cfg.Window());
    var older, recent := history[..start], history[start..];
    if Idle(cfg, history, s) then (s, Context(s.summary, recent))
    else
      var summary := Summarized(s.summary, reply);
      if Fresh(summary, s.summary) && commits then
        (Stored(summary, Some(older[|older| - 1].ordinal), s.folded + Pending(older, s.marker)),
            Context(summary, recent))
      else (s, Context(summary, recent))
  }

  /** One conversation row. */
  class Conversation {
    var historySummary: Option<string>
    var summarizedThrough: Option<int>
    ghost var folded: seq<Turn>

    constructor ()
      ensures State() == Stored(None, None, [])
    {
      historySummary, summarizedThrough, folded := None, None, [];
    }

    ghost function State(): Stored
      reads this
    {
      Stored(historySummary, summarizedThrough, folded)
    }

    method BuildContext(cfg: Config, history: seq<Turn>, reply: Option<string>,
                        commits: bool) returns (context: Context)
      modifies this
      ensures (State(), context) == Prepared(cfg, history, old(State()), reply, commits)
    {
      hide Strip, Users;
      var window := cfg.Window();
      var recent: seq<Turn> := [];
      if window > 0 { recent := TailFrom(history, |history| - window); }
      TailIs(history, window);
      var older := history[..|history| - |recent|];
      var userTurns := CountUsers(history);
      if userTurns <= cfg.triggerTurns || older == [] { return Context(historySummary, recent); }
      var pending := FindPending(older, summarizedThrough);
      if pending == [] { return Context(historySummary, recent); }
      var summary := if reply.Some? && Strip(reply.value) != "" then Some(Strip(reply.value)) else historySummary;
      if summary.Some? && summary.value != "" && summary != historySummary {
        var savedSummary, savedMarker := historySummary, summarizedThrough;
        historySummary := summary;
        summarizedThrough := Some(older[|older| - 1].ordinal);
        if commits {
          folded := folded + pending;
        } else {
          historySummary, summarizedThrough := savedSummary, savedMarker;
        }
      }
      context := Context(summary, recent);
    }
  }

  /** history[i:], where a negative `i` counts from the end. */
  function TailFrom(history: seq<Turn>, i: int): (tail: seq<Turn>)
    ensures |tail| <= |history| && tail == history[|history| - |tail|..]
  {
    if i >= |history| then []
    else if i >= 0 then history[i..]
    else if -i < |history| then history[|history| + i..]
    else history
  }

  lemma TailIs(history: seq<Turn>, window: nat)
    ensures (if window > 0 then TailFrom(history, |history| - window) else [])
        == history[RecentStart(|history|, window)..]
  {
    assert history[|history|..] == [] && history[0..] == history;
  }

  lemma CountStep(history: seq<Turn>, i: nat)
    requires i < |history|
    ensures Users(history[i..]) == (if history[i].role.User? then 1 else 0) + Users(history[i + 1..])
  {
    assert history[i..][1..] == history[i + 1..];
  }

  method CountUsers(history: seq<Turn>) returns (n: nat)
    ensures n == Users(history)
  {
    n := 0;
    assert history[0..] == history;
    for i := 0 to |history|
      invariant n + Users(history[i..]) == Users(history)
    {
      CountStep(history, i);
      if history[i].role.User? { n := n + 1; }
    }
  }

  method FindPending(older: seq<Turn>, marker: Option<int>) returns (pending: seq<Turn>)
    ensures pending == Pending(older, marker)
  {
    pending := [];
    assert older[0..] == older;
    for i := 0 to |older|
      invariant pending + Pending(older[i..], marker) == Pending(older, marker)
    {
      assert older[i..][0] == older[i] && older[i..][1..] == older[i + 1..];
      var rest := Pending(older[i + 1..], marker);
      assert pending + ([older[i]] + rest) == (pending + [older[i]]) + rest;
      if marker.None? || older[i].ordinal > marker.value { pending := pending + [older[i]]; }
    }
  }

  // --- What the summary covers --------------------------------------------------------------------------

  predicate Ascending(history: seq<Turn>) {
    forall j, k :: 0 <= j < k < |history| ==> history[j].ordinal < history[k].ordinal
  }

  /** How many turns of the history the marker has passed. */
  function Covered(history: seq<Turn>, marker: Option<int>): (n: nat)
    ensures n <= |history|
  {
    if history == [] || marker.None? || history[0].ordinal > marker.value then 0
    else 1 + Covered(history[1..], marker)
  }

  lemma {:induction false} CoveredMeans(history: seq<Turn>, marker: Option<int>)
    requires Ascending(history)
    ensures var n := Covered(history, marker);
      && (forall k :: 0 <= k < n ==> marker.Some? && history[k].ordinal <= marker.value)
      && (forall k :: n <= k < |history| ==> marker.None? || history[k].ordinal > marker.value)
    decreases |history|
  {
    if history != [] {
      assert forall k :: 0 < k < |history| ==> history[k] == history[1..][k - 1];
      CoveredMeans(history[1..], marker);
    }
  }

  /** A count with that meaning is the count. */
  lemma CoveredIs(history: seq<Turn>, marker: Option<int>, n: nat)
    requires Ascending(history) && n <= |history|
    requires n > 0 ==> marker.Some? && history[n - 1].ordinal <= marker.value
    requires n < |history| ==> marker.None? || history[n].ordinal > marker.value
    ensures Covered(history, marker) == n
  {
    CoveredMeans(history, marker);
    assert forall j, k :: 0 <= j <= k < |history| ==> history[j].ordinal <= history[k].ordinal;
  }

  lemma {:induction false} PendingIs(history: seq<Turn>, start: nat, marker: Option<int>)
    requires Ascending(history) && start <= |history|
    ensures var n := Covered(history, marker);
      Pending(history[..start], marker) == if n <= start then history[n..start] else []
    decreases |history|
  {
    if start > 0 {
      var rest := history[1..];
      assert forall k :: 0 <= k < |rest| ==> rest[k] == history[k + 1];
      PendingIs(rest, start - 1, marker);
      assert history[..start][1..] == rest[..start - 1];
      var n := Covered(history, marker);
      if n > 0 {
        if n <= start { assert rest[n - 1..start - 1] == history[n..start]; }
      } else {
        assert Ascending(rest);
        NoneCovered(rest, marker);
        assert history[0..start] == [history[0]] + rest[..start - 1];
      }
    }
  }

  lemma NoneCovered(rest: seq<Turn>, marker: Option<int>)
    requires marker.None? || forall k :: 0 <= k < |rest| ==> rest[k].ordinal > marker.value
    ensures Covered(rest, marker) == 0 && rest[0..|rest|] == rest
  {
  }

  // --- One turn -------------------------------------------------------------------------------------------

  /** The stored summary covers exactly the turns up to the marker, and the marker is the last of
      them. */
  ghost predicate Faithful(history: seq<Turn>, s: Stored) {
    var n := Covered(history, s.marker);
    && Ascending(history)
    && s.folded == history[..n]
    && (s.marker.Some? ==> n > 0 && s.marker.value == history[n - 1].ordinal)
  }

  lemma StartFaithful()
    ensures Faithful([], Stored(None, None, []))
  {
  }

  /** A new turn is not covered, and nothing else changes. */
  lemma SaidKeeps(history: seq<Turn>, s: Stored, turn: Turn)
    requires Faithful(history, s) && Ascending(history + [turn])
    ensures Faithful(history + [turn], s) && Covered(history + [turn], s.marker) == Covered(history, s.marker)
  {
    var n, longer := Covered(history, s.marker), history + [turn];
    CoveredMeans(history, s.marker);
    if s.marker.Some? && n < |history| { assert longer[n] == history[n]; }
    if n > 0 { assert longer[n - 1] == history[n - 1]; }
    if n == |history| && s.marker.Some? { assert longer[n - 1].ordinal < longer[n].ordinal; }
    CoveredIs(longer, s.marker, n);
    assert longer[..n] == history[..n];
  }

  /** Preparing a turn either leaves the row alone or folds in exactly the turns between the marker
      and the verbatim window: the marker only grows, stops short of the window, and no turn is
      folded in twice. */
  lemma PreparedKeeps(cfg: Config, history: seq<Turn>, s: Stored, reply: Option<string>, commits: bool)
    requires Faithful(history, s)
    ensures var (next, context) := Prepared(cfg, history, s, reply, commits);
      var start := RecentStart(|history|, cfg.Window());
      && Faithful(history, next) && context.turns == history[start..]
      && (next == s
          || (Covered(history, s.marker) < Covered(history, next.marker) == start
              && next.folded == s.folded + history[Covered(history, s.marker)..start]))
  {
    hide Strip, Users, Fresh, Pending, Covered, Faithful;
    var start := RecentStart(|history|, cfg.Window());
    var n := Covered(history, s.marker);
    assert Pending(history[..start], s.marker) == if n < start then history[n..start] else [] by {
      assert Ascending(history) by { FaithfulAscending(history, s); }
      PendingIs(history, start, s.marker);
    }
    if n < start { FoldedKeeps(history, s, start, Summarized(s.summary, reply)); }
  }

  lemma FaithfulAscending(history: seq<Turn>, s: Stored)
    requires Faithful(history, s)
    ensures Ascending(history)
  {
  }

  lemma FoldedKeeps(history: seq<Turn>, s: Stored, start: nat, summary: Option<string>)
    requires Faithful(history, s) && Covered(history, s.marker) < start <= |history|
    ensures var n := Covered(history, s.marker);
      var next := Stored(summary, Some(history[..start][start - 1].ordinal), s.folded + history[n..start]);
      Faithful(history, next) && Covered(history, next.marker) == start
  {
    hide Covered, Ascending;
    var n := Covered(history, s.marker);
    var marker := history[..start][start - 1].ordinal;
    assert marker == history[start - 1].ordinal && s.folded == history[..n] && Ascending(history);
    hide Faithful;
    MarkerCovers(history, start);
    assert history[..n] + history[n..start] == history[..start];
    FoldedIs(history, Stored(summary, Some(marker), history[..start]), start);
  }

  lemma MarkerCovers(history: seq<Turn>, start: nat)
    requires Ascending(history) && 0 < start <= |history|
    ensures Covered(history, Some(history[start - 1].ordinal)) == start
  {
    CoveredIs(history, Some(history[start - 1].ordinal), start);
  }

  lemma FoldedIs(history: seq<Turn>, next: Stored, start: nat)
    requires Ascending(history) && 0 < start <= |history| && Covered(history, next.marker) == start
    requires next.marker == Some(history[start - 1].ordinal) && next.folded == history[..start]
    ensures Faithful(history, next)
  {
    hide Covered;
  }

  /** The turns whose text is in the summary that a context carries: those of the row it would leave,
      whether or not the write goes through. */
  function Told(cfg: Config, history: seq<Turn>, s: Stored, reply: Option<string>): seq<Turn> {
    Prepared(cfg, history, s, reply, true).0.folded
  }

  lemma ToldIsGiven(cfg: Config, history: seq<Turn>, s: Stored, reply: Option<string>, commits: bool)
    ensures Prepared(cfg, history, s, reply, commits).1.summary == Prepared(cfg, history, s, reply, true).0.summary
  {
    hide Strip, Users, Pending, RecentStart;
  }

  /** Summary and verbatim turns together are the history, each turn once. */
  predicate Exact(cfg: Config, history: seq<Turn>, s: Stored, reply: Option<string>) {
    Told(cfg, history, s, reply) + Prepared(cfg, history, s, reply, true).1.turns == history
  }

  /** Whatever the summary model answers, and whether or not the write goes through, a context covers
      the history exactly if and only if the marker is where the window starts, or behind it in a
      conversation past the trigger and the answer is new text. The summary it carries is the one that
      is counted. */
  lemma CoversIff(cfg: Config, history: seq<Turn>, s: Stored, reply: Option<string>, commits: bool)
    requires Faithful(history, s)
    ensures var context := Prepared(cfg, history, s, reply, commits).1;
      && context.summary == Prepared(cfg, history, s, reply, true).0.summary
      && (Exact(cfg, history, s, reply) <==> Told(cfg, history, s, reply) + context.turns == history)
    ensures var start, n := RecentStart(|history|, cfg.Window()), Covered(history, s.marker);
      Exact(cfg, history, s, reply)
      <==> || n == start
           || (n < start && Users(history) > cfg.triggerTurns && Fresh(Summarized(s.summary, reply), s.summary))
  {
    hide Strip, Users, Covered, Pending, Fresh, Prepared, RecentStart;
    var start, n := RecentStart(|history|, cfg.Window()), Covered(history, s.marker);
    ToldIsGiven(cfg, history, s, reply, commits);
    PreparedKeeps(cfg, history, s, reply, commits);
    PreparedKeeps(cfg, history, s, reply, true);
    MovesIff(cfg, history, s, reply);
    var (next, context) := Prepared(cfg, history, s, reply, true);
    var m := Covered(history, next.marker);
    assert next.folded == history[..m];
    assert |next.folded + context.turns| == m + |history| - start;
    assert history[..start] + history[start..] == history;
  }

  lemma MovesIff(cfg: Config, history: seq<Turn>, s: Stored, reply: Option<string>)
    requires Faithful(history, s)
    ensures var start, n := RecentStart(|history|, cfg.Window()), Covered(history, s.marker);
      && (Idle(cfg, history, s) <==> n >= start || Users(history) <= cfg.triggerTurns)
      && (Prepared(cfg, history, s, reply, true).0 != s
          <==> n < start && Users(history) > cfg.triggerTurns && Fresh(Summarized(s.summary, reply), s.summary))
  {
    hide Strip, Users, Covered, RecentStart;
    var start, n := RecentStart(|history|, cfg.Window()), Covered(history, s.marker);
    assert Pending(history[..start], s.marker) == if n <= start then history[n..start] else [] by {
      PendingIs(history, start, s.marker);
    }
    hide Pending;
    assert n < start ==> history[n..start] != [];
  }

  // --- Over whole conversations ---------------------------------------------------------------------------

  datatype Event = Said(turn: Turn) | Prepare(reply: Option<string>, commits: bool)

  datatype Life = Life(history: seq<Turn>, stored: Stored)

  function Live(cfg: Config, life: Life, event: Event): Life {
    match event
    case Said(turn) => Life(life.history + [turn], life.stored)
    case Prepare(reply, commits) => Life(life.history, Prepared(cfg, life.history, life.stored, reply, commits).0)
  }

  function Lived(cfg: Config, events: seq<Event>): Life
    decreases |events|
  {
    if events == [] then Life([], Stored(None, None, []))
    else Live(cfg, Lived(cfg, events[..|events| - 1]), events[|events| - 1])
  }

  /** Turns arrive in order; contexts are prepared at any time, the summary model answers anything or
      nothing, and any write may fail. */
  ghost predicate InOrder(cfg: Config, events: seq<Event>)
    decreases |events|
  {
    events == [] ||
    (&& InOrder(cfg, events[..|events| - 1])
     && var last := events[|events| - 1];
        (last.Said? ==> Ascending(Lived(cfg, events[..|events| - 1]).history + [last.turn])))
  }

  /** `later` has every turn of `earlier`, folded the same ones first, and moved its marker back over
      none. */
  ghost predicate Grows(earlier: Life, later: Life) {
    && earlier.history <= later.history
    && earlier.stored.folded <= later.stored.folded
    && Covered(earlier.history, earlier.stored.marker) <= Covered(later.history, later.stored.marker)
  }

  lemma GrowsFrom(a: Life, b: Life, c: Life)
    ensures Grows(a, a) && (Grows(a, b) && Grows(b, c) ==> Grows(a, c))
  {
    hide Covered;
  }

  lemma LiveGrows(cfg: Config, life: Life, event: Event)
    requires Faithful(life.history, life.stored)
    requires event.Said? ==> Ascending(life.history + [event.turn])
    ensures Faithful(Live(cfg, life, event).history, Live(cfg, life, event).stored)
    ensures Grows(life, Live(cfg, life, event))
  {
    hide Prepared, Covered, Faithful, Ascending, RecentStart;
    match event
    case Said(turn) => SaidKeeps(life.history, life.stored, turn);
    case Prepare(reply, commits) => PreparedKeeps(cfg, life.history, life.stored, reply, commits);
  }

  /** Over every conversation: the stored summary covers exactly the turns up to the marker, each of
      them folded in once and in order, and from any moment to any later one both only grow. */
  lemma {:induction false} LifeKeeps(cfg: Config, events: seq<Event>, m: nat)
    requires InOrder(cfg, events) && m <= |events|
    ensures var life := Lived(cfg, events);
      && Faithful(life.history, life.stored) && Ascending(life.stored.folded)
      && Grows(Lived(cfg, events[..m]), life)
    decreases |events|
  {
    hide Covered, Live, Grows;
    if events == [] {
      StartFaithful();
      assert events[..m] == events;
      GrowsFrom(Lived(cfg, events), Lived(cfg, events), Lived(cfg, events));
    } else {
      var last := |events| - 1;
      var before, life := Lived(cfg, events[..last]), Lived(cfg, events);
      LifeKeeps(cfg, events[..last], if m <= last then m else last);
      LiveGrows(cfg, before, events[last]);
      if m <= last { assert events[..last][..m] == events[..m]; } else { assert events[..m] == events; }
      GrowsFrom(life, life, life);
      GrowsFrom(Lived(cfg, events[..m]), before, life);
      assert forall j :: 0 <= j < |life.stored.folded| ==> life.stored.folded[j] == life.history[j];
    }
  }

  // --- Where the window is whole ----------------------------------------------------------------------------

  /** Lengths at which slicing from a negative index does not cut the window short. */
  predicate Whole(n: nat, window: nat) { 2 * n <= window || n >= window }

  /** What lies before the window, when it is not cut short. */
  function Before(n: nat, window: nat): nat { if n >= window then n - window else 0 }

  predicate Balanced(history: seq<Turn>) { 2 * Users(history) >= |history| }

  /** Contexts are prepared when there are no more answers than questions, and before the trigger is
      passed unless the window is whole. */
  ghost predicate Smooth(cfg: Config, events: seq<Event>)
    decreases |events|
  {
    events == [] ||
    (&& Smooth(cfg, events[..|events| - 1])
     && var history := Lived(cfg, events[..|events| - 1]).history;
        match events[|events| - 1]
        case Said(turn) => Ascending(history + [turn])
        case Prepare(_, _) =>
          Balanced(history) && (Whole(|history|, cfg.Window()) || Users(history) <= cfg.triggerTurns))
  }

  ghost predicate Behind(cfg: Config, life: Life) {
    Faithful(life.history, life.stored)
    && Covered(life.history, life.stored.marker) <= Before(|life.history|, cfg.Window())
  }

  lemma PrepareStaysBehind(cfg: Config, life: Life, reply: Option<string>, commits: bool)
    requires Behind(cfg, life)
    requires Whole(|life.history|, cfg.Window()) || Users(life.history) <= cfg.triggerTurns
    ensures Behind(cfg, Live(cfg, life, Prepare(reply, commits)))
  {
    hide Covered, Fresh, Users, Faithful;
    if Users(life.history) > cfg.triggerTurns {
      hide Prepared;
      PreparedKeeps(cfg, life.history, life.stored, reply, commits);
    }
  }

  lemma {:induction false} SmoothStaysBehind(cfg: Config, events: seq<Event>)
    requires Smooth(cfg, events)
    ensures Behind(cfg, Lived(cfg, events))
    decreases |events|
  {
    hide Prepared, Covered, Faithful, Ascending, Balanced, Whole, Users;
    if events == [] {
      StartFaithful();
      NothingCovered();
    } else {
      var life, event := Lived(cfg, events[..|events| - 1]), events[|events| - 1];
      SmoothStaysBehind(cfg, events[..|events| - 1]);
      match event
      case Said(turn) => SaidKeeps(life.history, life.stored, turn);
      case Prepare(reply, commits) => PrepareStaysBehind(cfg, life, reply, commits);
    }
  }

  lemma NothingCovered()
    ensures Covered([], None) == 0
  {
  }

  /** With the trigger no later than the window, a context prepared where the window is whole covers
      every message exactly once if and only if nothing is left to fold or the summary model answers
      with new text; stale answers and failed writes before it do no harm. */
  lemma SmoothCoversExactly(cfg: Config, events: seq<Event>, reply: Option<string>, commits: bool)
    requires cfg.triggerTurns <= cfg.historyTurns && Smooth(cfg, events + [Prepare(reply, commits)])
    requires Whole(|Lived(cfg, events).history|, cfg.Window())
    ensures var life := Lived(cfg, events);
      Exact(cfg, life.history, life.stored, reply)
      <==> || Covered(life.history, life.stored.marker) == Before(|life.history|, cfg.Window())
           || Fresh(Summarized(life.stored.summary, reply), life.stored.summary)
  {
    hide Prepared, Covered, Fresh, Exact, Users, Lived;
    var all := events + [Prepare(reply, commits)];
    assert all[..|all| - 1] == events && all[|all| - 1] == Prepare(reply, commits);
    SmoothStaysBehind(cfg, events);
    var life := Lived(cfg, events);
    CoversIff(cfg, life.history, life.stored, reply, commits);
  }

  // --- Ordinary conversations -------------------------------------------------------------------------------

  /** Question, answer, question, and so on. */
  predicate Alternating(history: seq<Turn>) {
    Ascending(history) && forall i :: 0 <= i < |history| ==> (history[i].role.User? <==> i % 2 == 0)
  }

  lemma {:induction false} UsersAlternate(history: seq<Turn>)
    requires Alternating(history)
    ensures Users(history) == (|history| + 1) / 2
    decreases |history|
  {
    if |history| >= 2 {
      assert history[0].role.User? && !history[1].role.User?;
      assert history[1..][0] == history[1] && history[1..][1..] == history[2..];
      assert forall i :: 0 <= i < |history[2..]| ==> history[2..][i] == history[i + 2];
      UsersAlternate(history[2..]);
      assert Users(history) == 1 + Users(history[1..]) == 1 + Users(history[2..]);
    } else if |history| == 1 {
      assert Users(history) == 1 + Users(history[1..]);
    }
  }

  /** The row after a context was prepared, and kept, at each of the first `k` questions. */
  function Asked(cfg: Config, history: seq<Turn>, replies: seq<Option<string>>, k: nat): Stored
    requires 2 * k <= |history| + 1 && k <= |replies|
  {
    if k == 0 then Stored(None, None, [])
    else Prepared(cfg, history[..2 * k - 1], Asked(cfg, history, replies, k - 1), replies[k - 1], true).0
  }

  predicate ExactAt(cfg: Config, history: seq<Turn>, replies: seq<Option<string>>, k: nat)
    requires 0 < k && 2 * k <= |history| + 1 && k <= |replies|
  {
    Exact(cfg, history[..2 * k - 1], Asked(cfg, history, replies, k - 1), replies[k - 1])
  }

  /** Every summarization of the first `k` questions yields new text. */
  predicate AllNew(cfg: Config, history: seq<Turn>, replies: seq<Option<string>>, k: nat)
    requires 2 * k <= |history| + 1 && k <= |replies|
  {
    forall i {:trigger Asked(cfg, history, replies, i)} :: 0 <= i < k ==>
      var s := Asked(cfg, history, replies, i);
      Idle(cfg, history[..2 * i + 1], s) || Fresh(Summarized(s.summary, replies[i]), s.summary)
  }

  /** Where the window starts at the `k`th question. */
  function StartAt(cfg: Config, k: nat): nat
    requires k > 0
  {
    RecentStart(2 * k - 1, cfg.Window())
  }

  /** Where the marker stands after the `k`th question. */
  function MarkerAt(cfg: Config, k: nat): nat {
    if k == 0 then 0
    else if k > cfg.triggerTurns && StartAt(cfg, k) > MarkerAt(cfg, k - 1) then StartAt(cfg, k)
    else MarkerAt(cfg, k - 1)
  }

  lemma SaidTwice(history: seq<Turn>, k: nat, s: Stored)
    requires Alternating(history) && 0 < k && 2 * k + 1 <= |history|
    requires Faithful(history[..2 * k - 1], s)
    ensures Faithful(history[..2 * k + 1], s)
    ensures Covered(history[..2 * k + 1], s.marker) == Covered(history[..2 * k - 1], s.marker)
  {
    hide Covered, Faithful;
    var h := history[..2 * k - 1];
    assert h + [history[2 * k - 1]] == history[..2 * k];
    assert history[..2 * k] + [history[2 * k]] == history[..2 * k + 1];
    SaidKeeps(h, s, history[2 * k - 1]);
    SaidKeeps(history[..2 * k], s, history[2 * k]);
  }

  lemma FirstAllNew(cfg: Config, history: seq<Turn>, replies: seq<Option<string>>, k: nat, questions: nat)
    requires k <= questions && 2 * questions <= |history| + 1 && questions <= |replies|
    requires AllNew(cfg, history, replies, questions)
    ensures AllNew(cfg, history, replies, k)
  {
    hide Idle, Fresh, Asked;
  }

  /** The preparation at question `k` moves the marker as `MarkerAt` says. */
  lemma PreparedMarker(cfg: Config, h: seq<Turn>, before: Stored, reply: Option<string>, k: nat)
    requires k > 0 && |h| == 2 * k - 1 && Users(h) == k && Faithful(h, before)
    requires Covered(h, before.marker) == MarkerAt(cfg, k - 1)
    requires Idle(cfg, h, before) || Fresh(Summarized(before.summary, reply), before.summary)
    ensures var s := Prepared(cfg, h, before, reply, true).0;
      Faithful(h, s) && Covered(h, s.marker) == MarkerAt(cfg, k)
  {
    hide Prepared, Idle, Fresh, Users, Pending, Covered, Faithful, RecentStart;
    PreparedKeeps(cfg, h, before, reply, true);
    MovesIff(cfg, h, before, reply);
  }

  lemma {:induction false} AskedMarker(cfg: Config, history: seq<Turn>, replies: seq<Option<string>>, k: nat)
    requires Alternating(history) && 2 * k + 1 <= |history| && k <= |replies|
    requires AllNew(cfg, history, replies, k)
    ensures var s := Asked(cfg, history, replies, k);
      Faithful(history[..2 * k + 1], s) && Covered(history[..2 * k + 1], s.marker) == MarkerAt(cfg, k)
  {
    hide Prepared, Idle, Fresh, Users, Pending;
    if k == 0 {
      assert history[..1] == [history[0]];
    } else {
      var h, before := history[..2 * k - 1], Asked(cfg, history, replies, k - 1);
      FirstAllNew(cfg, history, replies, k - 1, k);
      AskedMarker(cfg, history, replies, k - 1);
      assert Idle(cfg, h, before) || Fresh(Summarized(before.summary, replies[k - 1]), before.summary);
      PrefixAlternates(history, 2 * k - 1);
      UsersAlternate(h);
      hide Covered, Faithful, Alternating, AllNew, MarkerAt;
      PreparedMarker(cfg, h, before, replies[k - 1], k);
      SaidTwice(history, k, Asked(cfg, history, replies, k));
    }
  }

  lemma PrefixAlternates(history: seq<Turn>, n: nat)
    requires Alternating(history) && n <= |history|
    ensures Alternating(history[..n])
  {
  }

  lemma ExactAtIff(cfg: Config, history: seq<Turn>, replies: seq<Option<string>>, k: nat)
    requires Alternating(history) && 0 < k && 2 * k <= |history| + 1 && k <= |replies|
    requires AllNew(cfg, history, replies, k)
    ensures var start, n := StartAt(cfg, k), MarkerAt(cfg, k - 1);
      ExactAt(cfg, history, replies, k) <==> n == start || (n < start && k > cfg.triggerTurns)
  {
    hide Prepared, Idle, Fresh, Users, Pending, Covered, Faithful, Exact;
    var h, before := history[..2 * k - 1], Asked(cfg, history, replies, k - 1);
    FirstAllNew(cfg, history, replies, k - 1, k);
    AskedMarker(cfg, history, replies, k - 1);
    assert Idle(cfg, h, before) || Fresh(Summarized(before.summary, replies[k - 1]), before.summary);
    PrefixAlternates(history, 2 * k - 1);
    UsersAlternate(h);
    hide AllNew, Alternating, Asked;
    CoversIff(cfg, h, before, replies[k - 1], true);
    MovesIff(cfg, h, before, replies[k - 1]);
  }

  lemma {:induction false} NoMarkerYet(cfg: Config, k: nat)
    requires k <= cfg.triggerTurns
    ensures MarkerAt(cfg, k) == 0
  {
    if k > 0 { NoMarkerYet(cfg, k - 1); }
  }

  lemma {:induction false} MarkerKeepsUp(cfg: Config, k: nat)
    requires cfg.historyTurns <= 1
    ensures MarkerAt(cfg, k) <= if k == 0 then 0 else StartAt(cfg, k)
  {
    if k > 0 { MarkerKeepsUp(cfg, k - 1); }
  }

  /** The settings with which every context does; the first is never prepared in a job, as
      `JobsGivenAllIff` takes into account. */
  predicate KeepsAll(cfg: Config) {
    (cfg.historyTurns == 0 && cfg.triggerTurns == 0) || (cfg.historyTurns == 1 && cfg.triggerTurns <= 1)
  }

  /** An ordinary conversation that outgrows its window, every summarization yielding new text and
      every write going through: each of its contexts covers every message exactly once if and only if
      the settings replay one turn with a trigger of at most one, or none with a trigger of none. */
  lemma OrdinaryIff(cfg: Config, history: seq<Turn>, replies: seq<Option<string>>, questions: nat)
    requires Alternating(history) && 2 * questions <= |history| + 1 && questions <= |replies|
    requires AllNew(cfg, history, replies, questions) && questions > cfg.historyTurns
    ensures (forall k :: 0 < k <= questions ==> ExactAt(cfg, history, replies, k)) <==> KeepsAll(cfg)
  {
    hide ExactAt, AllNew, Alternating, Asked;
    if KeepsAll(cfg) {
      forall k | 0 < k <= questions ensures ExactAt(cfg, history, replies, k) {
        FirstAllNew(cfg, history, replies, k, questions);
        ExactAtIff(cfg, history, replies, k);
        MarkerKeepsUp(cfg, k - 1);
        if k <= cfg.triggerTurns { NoMarkerYet(cfg, k - 1); }
      }
    } else {
      var k := Failing(cfg);
      FirstAllNew(cfg, history, replies, k, questions);
      ExactAtIff(cfg, history, replies, k);
    }
  }

  /** With any other settings one of the questions up to the one past the window goes wrong. */
  lemma Failing(cfg: Config) returns (k: nat)
    requires !KeepsAll(cfg)
    ensures 0 < k <= cfg.historyTurns + 1
    ensures var start, n := StartAt(cfg, k), MarkerAt(cfg, k - 1); n > start || (n < start && k <= cfg.triggerTurns)
  {
    if cfg.historyTurns <= 1 {
      k := cfg.historyTurns + 1;
      NoMarkerYet(cfg, k - 1);
    } else if cfg.triggerTurns >= cfg.historyTurns {
      k := cfg.historyTurns;
      NoMarkerYet(cfg, k - 1);
    } else {
      k := cfg.historyTurns + 1;
      assert MarkerAt(cfg, k - 1) >= StartAt(cfg, k - 1);
    }
  }

  // --- In a job -------------------------------------------------------------------------------------------

  /** conversation_history: with no turns to replay nothing is prepared and nothing is given. */
  function Recalled(cfg: Config, history: seq<Turn>, s: Stored, reply: Option<string>,
                    commits: bool): (Stored, Context) {
    if cfg.historyTurns == 0 then (s, Context(None, [])) else Prepared(cfg, history, s, reply, commits)
  }

  /** The row after the first `k` questions of jobs. */
  function AskedInJobs(cfg: Config, history: seq<Turn>, replies: seq<Option<string>>, k: nat): Stored
    requires 2 * k <= |history| + 1 && k <= |replies|
  {
    if k == 0 then Stored(None, None, [])
    else Recalled(cfg, history[..2 * k - 1], AskedInJobs(cfg, history, replies, k - 1), replies[k - 1], true).0
  }

  /** What the job at the `k`th question is given, summary and verbatim turns, is the history. */
  predicate GivenAll(cfg: Config, history: seq<Turn>, replies: seq<Option<string>>, k: nat)
    requires 0 < k && 2 * k <= |history| + 1 && k <= |replies|
  {
    var h, s := history[..2 * k - 1], AskedInJobs(cfg, history, replies, k - 1);
    var (next, context) := Recalled(cfg, h, s, replies[k - 1], true);
    (if context.summary.Some? then next.folded else []) + context.turns == h
  }

  lemma {:induction false} SameAsked(cfg: Config, history: seq<Turn>, replies: seq<Option<string>>, k: nat)
    requires cfg.historyTurns > 0 && 2 * k <= |history| + 1 && k <= |replies|
    ensures AskedInJobs(cfg, history, replies, k) == Asked(cfg, history, replies, k)
    ensures var s := Asked(cfg, history, replies, k); s.summary.None? ==> s.folded == []
  {
    hide Idle, Strip, Pending;
    if k > 0 { SameAsked(cfg, history, replies, k - 1); }
  }

  lemma GivenIff(cfg: Config, history: seq<Turn>, replies: seq<Option<string>>, k: nat)
    requires 0 < k && 2 * k <= |history| + 1 && k <= |replies|
    ensures GivenAll(cfg, history, replies, k) <==> cfg.historyTurns > 0 && ExactAt(cfg, history, replies, k)
  {
    hide Idle, Strip, Pending, Asked, AskedInJobs, RecentStart;
    if cfg.historyTurns > 0 {
      var s := Asked(cfg, history, replies, k - 1);
      SameAsked(cfg, history, replies, k - 1);
      ToldIsGiven(cfg, history[..2 * k - 1], s, replies[k - 1], true);
    }
  }

  /** So over the jobs of such a conversation: each is given every message exactly once if and only if
      one turn is replayed and the trigger is at most one. */
  lemma JobsGivenAllIff(cfg: Config, history: seq<Turn>, replies: seq<Option<string>>, questions: nat)
    requires Alternating(history) && 2 * questions <= |history| + 1 && questions <= |replies|
    requires AllNew(cfg, history, replies, questions) && questions > cfg.historyTurns
    ensures (forall k :: 0 < k <= questions ==> GivenAll(cfg, history, replies, k))
            <==> cfg.historyTurns == 1 && cfg.triggerTurns <= 1
  {
    hide ExactAt, GivenAll, AllNew, Alternating;
    OrdinaryIff(cfg, history, replies, questions);
    forall k | 0 < k <= questions
      ensures GivenAll(cfg, history, replies, k) <==> cfg.historyTurns > 0 && ExactAt(cfg, history, replies, k)
    {
      GivenIff(cfg, history, replies, k);
    }
    assert cfg.historyTurns == 0 ==> !GivenAll(cfg, history, replies, 1);
  }

  // --- A short slice --------------------------------------------------------------------------------------

  /** At the other lengths the slice takes fewer turns than the window has room for, and while the
      trigger is not passed what it leaves out is in no summary either. */
  lemma ShortSliceLoses(cfg: Config, history: seq<Turn>, reply: Option<string>, commits: bool)
    requires !Whole(|history|, cfg.Window()) && Users(history) <= cfg.triggerTurns
    ensures var lost := 2 * |history| - cfg.Window();
      && lost > 0
      && Prepared(cfg, history, Stored(None, None, []), reply, commits)
         == (Stored(None, None, []), Context(None, history[lost..]))
  {
  }

  /** So it is with the configured three turns of history and a trigger of three: at the third
      question the context is that question alone. */
  lemma ThirdQuestionAlone(history: seq<Turn>, reply: Option<string>)
    requires |history| == 5 && Users(history) == 3
    ensures Prepared(Config(3, 3), history, Stored(None, None, []), reply, true).1 == Context(None, [history[4]])
  {
    ShortSliceLoses(Config(3, 3), history, reply, true);
    assert history[4..] == [history[4]];
  }
}
