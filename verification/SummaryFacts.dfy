/** What one preparation of a context replays, folds and stores, said of the turns themselves. */
module SummaryFacts {
  import opened Options
  import opened Strings
  import opened Summarization

  /** How many of `n` turns are replayed: the window's worth, or what slicing from a negative index
      leaves of a conversation that is shorter. */
  predicate Replays(n: nat, window: nat, r: int) {
    if window == 0 then r == 0
    else if window <= n then r == window
    else if window < 2 * n then r == window - n
    else r == n
  }

  function Questions(history: seq<Turn>): set<nat> { set k: nat | k < |history| && history[k].role.User? }

  /** The turns that left the window since the marker was set. */
  predicate Fallen(older: seq<Turn>, marker: Option<int>, pending: seq<Turn>) {
    if older == [] then pending == []
    else if marker.Some? && older[0].ordinal <= marker.value then Fallen(older[1..], marker, pending)
    else pending != [] && pending[0] == older[0] && Fallen(older[1..], marker, pending[1..])
  }

  /** The text of a reply: what it is between whitespace, when that is something. */
  ghost predicate Yields(reply: Option<string>, text: string) {
    && reply.Some? && text != "" && Stripped(text)
    && exists before, after :: Blank(before) && Blank(after) && reply.value == before + text + after
  }

  /** A summary is asked for when the questions are past the trigger and something has fallen out. */
  ghost predicate Wanted(cfg: Config, history: seq<Turn>, pending: seq<Turn>) {
    |Questions(history)| > cfg.triggerTurns && pending != []
  }

  /** The context replays the last turns; a text that is wanted and got is the summary it gives, and a
      new one is stored, with the last turn it covers as the marker, if the write goes through. */
  ghost predicate PreparationIs(cfg: Config, history: seq<Turn>, s: Stored, reply: Option<string>, commits: bool,
                                after: Stored, context: Context) {
    exists r: nat, pending: seq<Turn> ::
      && r <= |history| && Replays(|history|, 2 * cfg.historyTurns, r)
      && Fallen(history[..|history| - r], s.marker, pending)
      && context.turns == history[|history| - r..]
      && SummaryIs(cfg, history, r, pending, s, reply, commits, after, context.summary)
  }

  ghost predicate SummaryIs(cfg: Config, history: seq<Turn>, r: nat, pending: seq<Turn>, s: Stored,
                            reply: Option<string>, commits: bool, after: Stored, summary: Option<string>)
    requires r <= |history|
  {
    if Wanted(cfg, history, pending) && r < |history| && exists text :: Yields(reply, text) then
      exists text :: Yields(reply, text) && summary == Some(text)
        && after == if s.summary == Some(text) || !commits then s
                    else Stored(Some(text), Some(history[|history| - r - 1].ordinal), s.folded + pending)
    else summary == s.summary && after == s
  }

  lemma {:induction false} UsersCount(history: seq<Turn>)
    ensures Users(history) == |Questions(history)|
    decreases |history|
  {
    if history != [] {
      var n := |history| - 1;
      var rest := history[..n];
      assert history == rest + [history[n]];
      UsersMore(rest, history[n]);
      UsersCount(rest);
      hide Users;
      QuestionsMore(rest, history[n]);
    }
  }

  lemma QuestionsMore(history: seq<Turn>, turn: Turn)
    ensures |Questions(history + [turn])| == |Questions(history)| + if turn.role.User? then 1 else 0
  {
    var last: set<nat> := if turn.role.User? then {|history|} else {};
    assert Questions(history + [turn]) == Questions(history) + last;
    assert |history| !in Questions(history);
  }

  lemma {:induction false} UsersMore(history: seq<Turn>, turn: Turn)
    ensures Users(history + [turn]) == Users(history) + if turn.role.User? then 1 else 0
    decreases |history|
  {
    if history == [] {
      assert history + [turn] == [turn] && [turn][1..] == [];
    } else {
      assert (history + [turn])[1..] == history[1..] + [turn];
      UsersMore(history[1..], turn);
    }
  }

  lemma {:induction false} PendingFallen(older: seq<Turn>, marker: Option<int>)
    ensures Fallen(older, marker, Pending(older, marker))
    decreases |older|
  {
    if older != [] {
      PendingFallen(older[1..], marker);
      var rest := Pending(older[1..], marker);
      assert ([older[0]] + rest)[1..] == rest && [] + rest == rest;
    }
  }

  lemma StripYields(reply: string)
    ensures Strip(reply) != "" ==> Yields(Some(reply), Strip(reply))
  {
    hide IsSpace, Blank, Strip, Stripped;
    var from, end := StripParts(reply);
    assert reply == reply[..from] + reply[from..end] + reply[end..];
  }

  /** The text is one: what whitespace surrounds it does not matter. */
  lemma YieldsOnce(reply: Option<string>, text: string)
    requires Yields(reply, text)
    ensures Strip(reply.value) == text
  {
    var before, after :| Blank(before) && Blank(after) && reply.value == before + text + after;
    StripIs(before, text, after);
  }

  lemma EveryPreparation(cfg: Config, history: seq<Turn>, s: Stored, reply: Option<string>, commits: bool)
    ensures var (after, context) := Prepared(cfg, history, s, reply, commits);
      PreparationIs(cfg, history, s, reply, commits, after, context)
  {
    hide Strip, Users, Pending, Questions, Fallen, Yields;
    var start := RecentStart(|history|, cfg.Window());
    var r, older := |history| - start, history[..start];
    assert Replays(|history|, 2 * cfg.historyTurns, r) && history[..|history| - r] == older;
    UsersCount(history);
    PendingFallen(older, s.marker);
    NothingPending(s.marker);
    if reply.Some? { StripYields(reply.value); }
    forall text | Yields(reply, text) ensures reply.Some? && text != "" && Strip(reply.value) == text {
      YieldsOnce(reply, text);
      YieldsText(reply, text);
    }
    var (after, context) := Prepared(cfg, history, s, reply, commits);
    var pending := Pending(older, s.marker);
    if start > 0 { assert older[|older| - 1] == history[start - 1]; }
    assert SummaryIs(cfg, history, r, pending, s, reply, commits, after, context.summary);
  }

  lemma YieldsText(reply: Option<string>, text: string)
    requires Yields(reply, text)
    ensures reply.Some? && text != ""
  {
  }

  lemma NothingPending(marker: Option<int>)
    ensures Pending([], marker) == []
  {
  }
}
