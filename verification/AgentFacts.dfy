/** What holds of every turn of the agent, whatever the model and the tools do. */
module AgentFacts {
  import opened Options
  import opened Evidence
  import opened Grounding
  import opened AgentLoop

  // --- The tool-call protocol ---------------------------------------------------------------------------

  predicate RepliesTo(call: Fields, reply: Message, lib: Library) {
    && PartsOf(call, lib).Some? && reply.ToolReply?
    && reply.callId == PartsOf(call, lib).value.id && reply.name == PartsOf(call, lib).value.name
  }

  predicate AllReplied(calls: seq<Fields>, replies: seq<Message>, lib: Library) {
    |calls| == |replies| && forall k :: 0 <= k < |calls| ==> RepliesTo(calls[k], replies[k], lib)
  }

  /** Messages of the model, each followed by one reply to each of its tool calls, in order. */
  ghost predicate Replied(s: seq<Message>, lib: Library)
    decreases |s|
  {
    s == [] || exists n: nat :: n < |s| && RoundAt(s, n, lib) && Replied(s[n + 1..], lib)
  }

  predicate RoundAt(s: seq<Message>, n: nat, lib: Library)
    requires n < |s|
  {
    && s[0].FromModel? && CallsOf(s[0].message).Some?
    && AllReplied(CallsOf(s[0].message).value, s[1..n + 1], lib)
  }

  lemma {:induction false} RepliedAppend(a: seq<Message>, b: seq<Message>, lib: Library)
    requires Replied(a, lib) && Replied(b, lib)
    ensures Replied(a + b, lib)
    decreases |a|
  {
    hide RoundAt;
    if a == [] {
      assert a + b == b;
    } else {
      var n: nat :| n < |a| && RoundAt(a, n, lib) && Replied(a[n + 1..], lib);
      RepliedAppend(a[n + 1..], b, lib);
      RoundAtMore(a, b, n, lib);
      assert (a + b)[n + 1..] == a[n + 1..] + b;
    }
  }

  lemma RoundAtMore(a: seq<Message>, b: seq<Message>, n: nat, lib: Library)
    requires n < |a| && RoundAt(a, n, lib)
    ensures RoundAt(a + b, n, lib)
  {
    hide AllReplied, CallsOf;
    assert (a + b)[1..n + 1] == a[1..n + 1] && (a + b)[0] == a[0];
  }

  lemma OneRound(message: Fields, replies: seq<Message>, lib: Library)
    requires CallsOf(message).Some? && AllReplied(CallsOf(message).value, replies, lib)
    ensures Replied([FromModel(message)] + replies, lib)
  {
    hide RepliesTo, CallsOf;
    var s := [FromModel(message)] + replies;
    assert s[1..|replies| + 1] == replies && s[|replies| + 1..] == [];
    assert RoundAt(s, |replies|, lib) && Replied(s[|replies| + 1..], lib);
  }

  /** A request: the opening, fully replied rounds, and perhaps a note to the model. */
  ghost predicate RequestOk(opening: seq<Message>, request: seq<Message>, lib: Library) {
    exists body, notes :: request == opening + body + notes && Replied(body, lib)
      && (notes == [] || notes == [TOOLS_ENDED] || notes == [NOT_LOAD_BEARING])
  }

  // --- One call, and the calls of one message --------------------------------------------------------------

  ghost predicate Counts(env: Env, st: State) {
    && st.toolCalls == |st.outputs| <= env.limits.maxToolCalls
    && |st.queryForms| == 1 + st.rewrites && st.rewrites <= env.limits.maxRewrites
  }

  lemma SearchedCounts(st: State, query: string)
    requires |st.queryForms| == 1 + st.rewrites
    ensures var next := Searched(st, query);
      && |next.queryForms| == 1 + next.rewrites
      && next == st.(queryForms := next.queryForms, rewrites := next.rewrites)
      && next.rewrites == st.rewrites + if query != "" && query !in st.queryForms then 1 else 0
  {
  }

  lemma ExecuteKeeps(env: Env, st: State, call: Call)
    requires Counts(env, st) && st.toolCalls < env.limits.maxToolCalls
    ensures var (next, error) := Execute(env, st, call);
      && Counts(env, next) && next.requests == st.requests && next.tokens == st.tokens
      && (error.None? ==> exists body :: next.conversation == st.conversation + [ToolReply(call.id, call.name, body)])
      && (error.Some? ==> next.conversation == st.conversation)
  {
  }

  lemma OnCallKeeps(env: Env, st: State, raw: Fields)
    requires Counts(env, st)
    ensures var (next, error) := OnCall(env, st, raw);
      && Counts(env, next) && next.requests == st.requests && next.tokens == st.tokens
      && (error.None?
          ==> exists reply :: next.conversation == st.conversation + [reply] && RepliesTo(raw, reply, env.lib))
      && (error.Some? ==> next.conversation == st.conversation)
  {
    hide QueryOf, PartsOf, Searched, Execute;
    if PartsOf(raw, env.lib).Some? {
      var call := PartsOf(raw, env.lib).value;
      var query := QueryOf(call.arguments, env.lib);
      SearchedCounts(st, query);
      if Counts(env, Searched(st, query)) && st.toolCalls < env.limits.maxToolCalls {
        ExecuteKeeps(env, Searched(st, query), call);
      }
      forall body ensures RepliesTo(raw, ToolReply(call.id, call.name, body), env.lib) { }
    }
  }

  lemma {:induction false} OnCallsKeep(env: Env, st: State, calls: seq<Fields>) returns (replies: seq<Message>)
    requires Counts(env, st)
    ensures var (next, error) := OnCalls(env, st, calls);
      && Counts(env, next) && next.requests == st.requests && next.tokens == st.tokens
      && (error.None? ==> next.conversation == st.conversation + replies && AllReplied(calls, replies, env.lib))
    decreases |calls|
  {
    hide OnCall, RepliesTo, Counts;
    replies := [];
    if calls != [] {
      OnCallKeeps(env, st, calls[0]);
      var (next, error) := OnCall(env, st, calls[0]);
      if error.None? {
        var reply :| next.conversation == st.conversation + [reply] && RepliesTo(calls[0], reply, env.lib);
        var rest := OnCallsKeep(env, next, calls[1..]);
        replies := [reply] + rest;
        assert st.conversation + [reply] + rest == st.conversation + replies;
      }
    }
  }

  // --- What every turn keeps ------------------------------------------------------------------------------

  ghost predicate RequestsOk(env: Env, opening: seq<Message>, requests: seq<seq<Message>>) {
    forall k :: 0 <= k < |requests| ==> RequestOk(opening, requests[k], env.lib)
  }

  /** Between rounds. */
  ghost predicate Going(env: Env, opening: seq<Message>, st: State) {
    && Counts(env, st)
    && (exists body :: st.conversation == opening + body && Replied(body, env.lib))
    && RequestsOk(env, opening, st.requests)
    && |st.requests| <= env.limits.maxToolCalls
    && (st.limit.None? ==> |st.requests| <= st.toolCalls)
  }

  /** The result of a turn: an abstention, a question the evidence bears out, or an answer with
      citations and images from the evidence. */
  ghost predicate GroundedResult(env: Env, r: TurnResult, outputs: seq<Json>) {
    var g := EvidenceOf(outputs);
    if r.clarificationField.Some? then
      && r.citations == [] && r.images == []
      && Grounded(Verdict.Ask(r.content, r.clarificationField.value), g, env.limits.docsBase, env.lib)
    else if r.errorCode == Some(NO_EVIDENCE) then r.citations == [] && r.images == []
    else Grounded(Verdict.Answer(r.content, r.citations, r.images), g, env.limits.docsBase, env.lib)
  }

  /** At the end. */
  ghost predicate Ended(env: Env, opening: seq<Message>, st: State, outcome: Outcome) {
    && Counts(env, st)
    && RequestsOk(env, opening, st.requests)
    && |st.requests| <= env.limits.maxToolCalls + 1
    && (outcome.Done? ==>
          && outcome.result.toolCalls == st.toolCalls && outcome.result.rewrites == st.rewrites
          && outcome.result.totalTokens == st.tokens <= env.limits.tokenBudget
          && outcome.result.messages == st.conversation
          && GroundedResult(env, outcome.result, st.outputs))
  }

  lemma EvidenceFiled(outputs: seq<Json>)
    ensures Filed(EvidenceOf(outputs))
  {
    hide EvidenceOf, Citable;
    EvidenceIsSourced(outputs);
    var g := EvidenceOf(outputs);
    forall id | id in g.citations ensures g.citations[id].evidenceId == id {
      var item :| Among(item, outputs) && Says(item, g, id);
    }
  }

  lemma ResultGrounded(env: Env, st: State, raw: Json, limit: Option<string>, allow: bool)
    ensures GroundedResult(env, FinalResult(env, st, raw, limit, allow), st.outputs)
  {
    hide EvidenceOf, VerdictOf, Grounded;
    EvidenceFiled(st.outputs);
    VerdictIsGrounded(raw, EvidenceOf(st.outputs), env.limits.docsBase, allow, env.lib);
  }

  lemma RequestAdds(env: Env, opening: seq<Message>, requests: seq<seq<Message>>, body: seq<Message>,
                    notes: seq<Message>)
    requires RequestsOk(env, opening, requests) && Replied(body, env.lib)
    requires notes == [] || notes == [TOOLS_ENDED] || notes == [NOT_LOAD_BEARING]
    ensures RequestsOk(env, opening, requests + [opening + body + notes])
  {
    hide Replied;
    assert RequestOk(opening, opening + body + notes, env.lib);
  }

  lemma RaisedEnds(env: Env, opening: seq<Message>, st: State, error: ErrorCode)
    requires Counts(env, st) && RequestsOk(env, opening, st.requests) && |st.requests| <= env.limits.maxToolCalls + 1
    ensures Ended(env, opening, st, Failed(error))
  {
  }

  lemma DoneEnds(env: Env, opening: seq<Message>, st: State, raw: Json, limit: Option<string>, allow: bool)
    requires Counts(env, st) && RequestsOk(env, opening, st.requests) && |st.requests| <= env.limits.maxToolCalls + 1
    requires st.tokens <= env.limits.tokenBudget
    ensures Ended(env, opening, st, Done(FinalResult(env, st, raw, limit, allow)))
  {
    hide EvidenceOf, VerdictOf, GroundedResult, Counts, RequestsOk;
    ResultGrounded(env, st, raw, limit, allow);
  }

  /** A reply without tool calls ends the turn; the correction is one request more. */
  lemma AnswerEnds(env: Env, opening: seq<Message>, st: State, message: Fields, body: seq<Message>)
    requires Counts(env, st) && RequestsOk(env, opening, st.requests) && st.tokens <= env.limits.tokenBudget
    requires |st.requests| <= env.limits.maxToolCalls
    requires st.conversation == opening + body && Replied(body, env.lib) && CallsOf(message) == Some([])
    ensures var step := OnAnswer(env, st, message); step.Stop? && Ended(env, opening, step.st, step.outcome)
  {
    hide EvidenceOf, Counts, RequestsOk, FinalResult, ClarificationParts, LoadBearing, Replied, CallsOf, Ended;
    var said := st.(conversation := st.conversation + [FromModel(message)]);
    var raw, more := Get(message, "content"), body + [FromModel(message)];
    CountsOf(env, st, said);
    OneRound(message, [], env.lib);
    assert [FromModel(message)] + [] == [FromModel(message)];
    RepliedAppend(body, [FromModel(message)], env.lib);
    DoneEnds(env, opening, said, raw, None, true);
    RequestAdds(env, opening, st.requests, more, [NOT_LOAD_BEARING]);
    var request := said.conversation + [NOT_LOAD_BEARING];
    assert request == opening + more + [NOT_LOAD_BEARING];
    match env.model(request, false)
    case ModelFails(error) =>
      CountsOf(env, said, Asked(said, request, 0));
      RaisedEnds(env, opening, Asked(said, request, 0), error);
    case Completed(corrected, tokens) =>
      var asked := Asked(said, request, tokens);
      var last := asked.(conversation := asked.conversation + [FromModel(corrected)]);
      CountsOf(env, said, asked);
      CountsOf(env, said, last);
      RaisedEnds(env, opening, asked, AGENT_LIMIT_REACHED);
      if asked.tokens <= env.limits.tokenBudget {
        DoneEnds(env, opening, last, Get(corrected, "content"), None, false);
      }
  }

  lemma CountsOf(env: Env, a: State, b: State)
    requires Counts(env, a) && a.toolCalls == b.toolCalls && a.outputs == b.outputs
    requires a.queryForms == b.queryForms && a.rewrites == b.rewrites
    ensures Counts(env, b)
  {
  }

  ghost predicate StepOk(env: Env, opening: seq<Message>, step: Round) {
    match step
    case Continue(next) => Going(env, opening, next)
    case Stop(last, outcome) => Ended(env, opening, last, outcome)
  }

  lemma MessageKeeps(env: Env, opening: seq<Message>, st: State, message: Fields, body: seq<Message>)
    requires Counts(env, st) && RequestsOk(env, opening, st.requests) && st.tokens <= env.limits.tokenBudget
    requires st.conversation == opening + body && Replied(body, env.lib)
    requires |st.requests| <= env.limits.maxToolCalls + 1
    requires !Forced(env, st) ==> |st.requests| <= st.toolCalls + 1
    ensures StepOk(env, opening, OnMessage(env, st, message))
  {
    hide EvidenceOf, Counts, RequestsOk, FinalResult, Replied, Ended, OnCalls, OnAnswer, CallsOf;
    var said := st.(conversation := st.conversation + [FromModel(message)]);
    CountsOf(env, st, said);
    match CallsOf(message)
    case None => RaisedEnds(env, opening, st, INVALID_REQUEST);
    case Some(calls) =>
      if Forced(env, st) {
        DoneEnds(env, opening, said, Get(message, "content"), st.limit, true);
      } else if calls == [] {
        AnswerEnds(env, opening, st, message, body);
      } else {
        CallsKeep(env, opening, said, message, body, calls);
      }
  }

  lemma CallsKeep(env: Env, opening: seq<Message>, said: State, message: Fields, body: seq<Message>, calls: seq<Fields>)
    requires Counts(env, said) && RequestsOk(env, opening, said.requests)
    requires said.conversation == opening + body + [FromModel(message)] && Replied(body, env.lib)
    requires CallsOf(message) == Some(calls) && calls != []
    requires !Forced(env, said) && |said.requests| <= said.toolCalls + 1
    ensures var (next, error) := OnCalls(env, said, calls);
      if error.Some? then Ended(env, opening, next, Failed(error.value)) else Going(env, opening, next)
  {
    hide EvidenceOf, RequestsOk, Replied, OnCalls, CallsOf;
    var (next, error) := OnCalls(env, said, calls);
    OnCallsMove(env, said, calls);
    var replies := OnCallsKeep(env, said, calls);
    if error.None? {
      OneRound(message, replies, env.lib);
      RepliedAppend(body, [FromModel(message)] + replies, env.lib);
      var more := body + ([FromModel(message)] + replies);
      assert next.conversation == opening + more && Replied(more, env.lib);
    }
  }

  /** Each round keeps the invariant, or ends the turn as it should. */
  lemma RoundKeeps(env: Env, opening: seq<Message>, st: State)
    requires Going(env, opening, st)
    ensures StepOk(env, opening, RoundOf(env, st))
  {
    hide EvidenceOf, Counts, RequestsOk, Replied, Ended, OnMessage, StepOk;
    var body :| st.conversation == opening + body && Replied(body, env.lib);
    var limited := st.(limit := LimitNow(env, st));
    var notes := if Forced(env, limited) then [TOOLS_ENDED] else [];
    var request := limited.conversation + notes;
    CountsOf(env, st, limited);
    assert request == opening + body + notes;
    RequestAdds(env, opening, st.requests, body, notes);
    RaisedEnds(env, opening, limited, AGENT_LIMIT_REACHED);
    StopOk(env, opening, limited, Failed(AGENT_LIMIT_REACHED));
    match env.model(request, !Forced(env, limited))
    case ModelFails(error) =>
      CountsOf(env, limited, Asked(limited, request, 0));
      RaisedEnds(env, opening, Asked(limited, request, 0), error);
      StopOk(env, opening, Asked(limited, request, 0), Failed(error));
    case Completed(message, tokens) =>
      var asked := Asked(limited, request, tokens);
      CountsOf(env, limited, asked);
      RaisedEnds(env, opening, asked, AGENT_LIMIT_REACHED);
      StopOk(env, opening, asked, Failed(AGENT_LIMIT_REACHED));
      if asked.tokens <= env.limits.tokenBudget { MessageKeeps(env, opening, asked, message, body); }
  }

  lemma StopOk(env: Env, opening: seq<Message>, st: State, outcome: Outcome)
    requires Ended(env, opening, st, outcome)
    ensures StepOk(env, opening, Stop(st, outcome))
  {
  }

  lemma {:induction false} RunKeeps(env: Env, opening: seq<Message>, st: State)
    requires Going(env, opening, st)
    ensures var (last, outcome) := RunFrom(env, st); Ended(env, opening, last, outcome)
    decreases RoundsLeft(env, st)
  {
    hide Going, Ended, RoundOf;
    RoundKeeps(env, opening, st);
    match RoundOf(env, st)
    case Stop(last, outcome) =>
    case Continue(next) =>
      RoundsDecrease(env, st);
      RunKeeps(env, opening, next);
  }

  /** For every model and every tools: the turn ends within one model call more than the tool-call
      limit; executed tools and rewrites keep to their limits; a returned result keeps to the token
      budget and is grounded in what the executed tools returned; and in every request each
      earlier tool call has exactly one reply, in order. */
  lemma EveryTurn(env: Env, question: string, opening: seq<Message>)
    ensures var (last, outcome) := RunFrom(env, Start(env, question, opening));
      Ended(env, opening, last, outcome) && Sourced(EvidenceOf(last.outputs), last.outputs)
  {
    hide Ended, Sourced, EvidenceOf, RunFrom;
    var st := Start(env, question, opening);
    assert st.conversation == opening + [] && Replied([], env.lib);
    assert Going(env, opening, st);
    RunKeeps(env, opening, st);
    EvidenceIsSourced(RunFrom(env, st).0.outputs);
  }
}
