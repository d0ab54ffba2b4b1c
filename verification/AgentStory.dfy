/** A whole turn of the agent, told from its log: what the model is asked each time, when the turn stops,
    and with what. */
module AgentStory {
  import opened Options
  import opened Evidence
  import opened Grounding
  import opened VerdictFacts
  import opened AgentLoop
  import opened AgentCalls

  /** A message of the model, and its calls as they were handled. */
  datatype Exchange = Exchange(message: Fields, handled: seq<Handled>)

  function Replies(log: seq<Handled>): (replies: seq<Message>)
    ensures |replies| == |log|
    ensures forall k :: 0 <= k < |log| ==> replies[k] == ToolReply(log[k].call.id, log[k].call.name, log[k].reply)
  {
    seq(|log|, k requires 0 <= k < |log| => ToolReply(log[k].call.id, log[k].call.name, log[k].reply))
  }

  /** The exchanges as the conversation has them: each message, then a reply to each of its calls. */
  function Body(xs: seq<Exchange>): seq<Message> {
    if xs == [] then []
    else
      var last := xs[|xs| - 1];
      Body(xs[..|xs| - 1]) + [FromModel(last.message)] + Replies(last.handled)
  }

  function Log(xs: seq<Exchange>): seq<Handled> {
    if xs == [] then [] else Log(xs[..|xs| - 1]) + xs[|xs| - 1].handled
  }

  /** `part` handles exactly the calls of the message, in order. */
  ghost predicate Handles(message: Fields, part: seq<Handled>, lib: Library) {
    exists calls :: Carries(message, calls) && Made(calls, part, lib)
  }

  ghost predicate Made(calls: seq<Fields>, part: seq<Handled>, lib: Library) {
    |calls| == |part| && forall k :: 0 <= k < |calls| ==> Makes(calls[k], part[k].call, lib)
  }

  /** Tools are still offered: no call was refused, and fewer than the limit ran. */
  predicate Open(env: Env, log: seq<Handled>) { AllRan(log) && |log| < env.limits.maxToolCalls }

  function TokensOf(c: Completion): int { if c.Completed? then c.tokens else 0 }

  /** What the requests before the `n`th cost. */
  function Cost(env: Env, opening: seq<Message>, xs: seq<Exchange>): int {
    if xs == [] then 0
    else
      var before := xs[..|xs| - 1];
      Cost(env, opening, before) + TokensOf(env.model(opening + Body(before), true))
  }

  /** The exchange answers a request with all that was said before it, made with tools offered and the
      budget not used up; it has calls, and they are the ones handled. */
  ghost predicate ExchangeOk(env: Env, opening: seq<Message>, before: seq<Exchange>, x: Exchange) {
    && Open(env, Log(before)) && Cost(env, opening, before) < env.limits.tokenBudget
    && var answer := env.model(opening + Body(before), true);
       && answer.Completed? && answer.message == x.message
       && Cost(env, opening, before) + answer.tokens <= env.limits.tokenBudget
       && x.handled != [] && Handles(x.message, x.handled, env.lib)
  }

  /** So for each, and each call is handled as it should be after those before it. */
  ghost predicate Exchanged(env: Env, question: string, opening: seq<Message>, xs: seq<Exchange>) {
    LogOk(env, question, Log(xs)) && forall k :: 0 <= k < |xs| ==> ExchangeOk(env, opening, xs[..k], xs[k])
  }

  /** The requests that the exchanges answer. */
  ghost predicate RequestsAre(opening: seq<Message>, xs: seq<Exchange>, requests: seq<seq<Message>>) {
    |requests| == |xs| && forall k :: 0 <= k < |xs| ==> requests[k] == opening + Body(xs[..k])
  }

  /** Between rounds, the loop's state is the story so far. */
  ghost predicate Told(env: Env, question: string, opening: seq<Message>, xs: seq<Exchange>, st: State) {
    && Exchanged(env, question, opening, xs) && Tallied(env, question, st, Log(xs))
    && RequestsAre(opening, xs, st.requests)
    && st.conversation == opening + Body(xs) && st.tokens == Cost(env, opening, xs)
  }

  // --- How a turn ends ------------------------------------------------------------------------------

  /** The limit that closed the tools. */
  ghost predicate ClosedBy(log: seq<Handled>, limit: string) {
    if AllRan(log) then limit == "tool_calls" else forall h <- log :: h.reply.Refused? ==> h.reply.limit == limit
  }

  /** The result says what the verdict on the message is, and what the turn took. */
  ghost predicate Results(env: Env, st: State, message: Fields, limit: Option<string>, allow: bool, r: TurnResult) {
    && r.messages == st.conversation && r.totalTokens == st.tokens
    && r.toolCalls == st.toolCalls && r.rewrites == st.rewrites && r.limitReason == limit
    && var content := if "content" in message then message["content"] else Null;
       match VerdictOf(content, EvidenceOf(st.outputs), env.limits.docsBase, allow, env.lib)
       case Abstain =>
         && r.content == NO_EVIDENCE_REPLY && r.citations == [] && r.images == []
         && r.clarificationField == None && r.errorCode == Some(NO_EVIDENCE)
       case Ask(text, field) =>
         && r.content == text && r.citations == [] && r.images == []
         && r.clarificationField == Some(field) && r.errorCode == None
       case Answer(text, citations, images) =>
         && r.content == text && r.citations == citations && r.images == images && r.clarificationField == None
         && r.errorCode == if limit == None || limit == Some("") then None else Some(AGENT_LIMIT_REACHED)
  }

  /** The message asks for a detail that the evidence is not divided over. */
  ghost predicate AsksIdly(env: Env, outputs: seq<Json>, message: Fields) {
    var said := Said(if "content" in message then message["content"] else Null, env.lib);
    && said.Some? && Clarifies(said.value)
    && !Divided(said.value["required_field"].s, EvidenceOf(outputs).metadata, env.lib)
  }

  /** The last request: everything said so far, and once tools are closed, a note that they are. */
  function LastRequest(env: Env, opening: seq<Message>, xs: seq<Exchange>): seq<Message> {
    opening + Body(xs) + if Open(env, Log(xs)) then [] else [TOOLS_ENDED]
  }

  /** The end after the exchanges: the budget is used up, or one more request is made. */
  ghost predicate Ends(env: Env, question: string, opening: seq<Message>, xs: seq<Exchange>, st: State,
                       outcome: Outcome) {
    var log, cost := Log(xs), Cost(env, opening, xs);
    if cost >= env.limits.tokenBudget then
      && RequestsAre(opening, xs, st.requests) && st.tokens == cost && outcome == Failed(AGENT_LIMIT_REACHED)
    else
      && |st.requests| > |xs| && RequestsAre(opening, xs, st.requests[..|xs|])
      && st.requests[|xs|] == LastRequest(env, opening, xs)
      && match env.model(LastRequest(env, opening, xs), Open(env, log))
         case ModelFails(error) => |st.requests| == |xs| + 1 && st.tokens == cost && outcome == Failed(error)
         case Completed(message, tokens) =>
           if cost + tokens > env.limits.tokenBudget then
             |st.requests| == |xs| + 1 && st.tokens == cost + tokens && outcome == Failed(AGENT_LIMIT_REACHED)
           else Closes(env, question, opening, xs, message, cost + tokens, st, outcome)
  }

  /** The end with the last message: no call is taken up once tools are closed; a malformed message or
      call, or a tool that raises, fails the turn; and a message without calls is the last word, unless it
      asks idly, when it is sent back once. */
  ghost predicate Closes(env: Env, question: string, opening: seq<Message>, xs: seq<Exchange>, message: Fields,
                         tokens: int, st: State, outcome: Outcome) {
    var log, said := Log(xs), opening + Body(xs) + [FromModel(message)];
    if forall calls :: !Carries(message, calls) then
      |st.requests| == |xs| + 1 && st.tokens == tokens && outcome == Failed(INVALID_REQUEST)
    else if !Open(env, log) then
      && |st.requests| == |xs| + 1 && Settled(env, st, log, said, tokens)
      && outcome.Done?
      && exists limit :: ClosedBy(log, limit) && Results(env, st, message, Some(limit), true, outcome.result)
    else if Carries(message, []) then
      if !AsksIdly(env, Outputs(log), message) then
        && |st.requests| == |xs| + 1 && Settled(env, st, log, said, tokens)
        && outcome.Done? && Results(env, st, message, None, true, outcome.result)
      else
        && |st.requests| == |xs| + 2 && st.requests[|xs| + 1] == said + [NOT_LOAD_BEARING]
        && Corrected(env, log, said, tokens, st, outcome)
    else
      && |st.requests| == |xs| + 1 && st.tokens == tokens
      && exists calls, more, error :: Carries(message, calls) && outcome == Failed(error)
           && BreaksOff(env, question, log, calls, more, st, error)
  }

  /** The first calls are handled as they should be, and the next one fails. */
  ghost predicate BreaksOff(env: Env, question: string, log: seq<Handled>, calls: seq<Fields>, more: seq<Handled>,
                            st: State, error: ErrorCode) {
    && |more| < |calls| && Made(calls[..|more|], more, env.lib) && LogOk(env, question, log + more)
    && st.outputs == Outputs(log + more) && Breaks(env, |st.outputs|, calls[|more|], error)
  }

  ghost predicate Corrected(env: Env, log: seq<Handled>, said: seq<Message>, tokens: int, st: State,
                            outcome: Outcome) {
    match env.model(said + [NOT_LOAD_BEARING], false)
    case ModelFails(error) => st.tokens == tokens && outcome == Failed(error)
    case Completed(last, more) =>
      if tokens + more > env.limits.tokenBudget then
        st.tokens == tokens + more && outcome == Failed(AGENT_LIMIT_REACHED)
      else
        && Settled(env, st, log, said + [FromModel(last)], tokens + more)
        && outcome.Done? && Results(env, st, last, None, false, outcome.result)
  }

  /** The counters at the end of a turn that comes to a result. */
  ghost predicate Settled(env: Env, st: State, log: seq<Handled>, conversation: seq<Message>, tokens: int) {
    && st.conversation == conversation && st.tokens == tokens
    && st.outputs == Outputs(log) && st.toolCalls == |Outputs(log)|
  }

  // --- The story of every turn ----------------------------------------------------------------------

  lemma {:induction false} ManyCalls(env: Env, question: string, st: State, log: seq<Handled>, calls: seq<Fields>)
    returns (more: seq<Handled>)
    requires Tallied(env, question, st, log)
    ensures var (next, error) := OnCalls(env, st, calls);
      && next.requests == st.requests && next.tokens == st.tokens
      && (error.None? ==>
            && Tallied(env, question, next, log + more) && |more| == |calls| && Made(calls, more, env.lib)
            && next.conversation == st.conversation + Replies(more))
      && (error.Some? ==>
            && |more| < |calls| && Made(calls[..|more|], more, env.lib) && LogOk(env, question, log + more)
            && next.outputs == Outputs(log + more) && Breaks(env, |next.outputs|, calls[|more|], error.value))
    decreases |calls|
  {
    hide OnCall, OnCalls, Tallied, Makes, Breaks, LogOk, Outputs, Made, Replies;
    CallsStep(env, st, calls);
    more := [];
    assert log + [] == log;
    TalliedSays(env, question, st, log);
    TalliedOutputs(env, question, st, log);
    MadeNone(calls, env.lib);
    if calls == [] {
      assert Replies([]) == [] && st.conversation + [] == st.conversation;
    } else {
      var h := OneCall(env, question, st, log, calls[0]);
      var (next, error) := OnCall(env, st, calls[0]);
      if error.None? {
        var rest := ManyCalls(env, question, next, log + [h], calls[1..]);
        more := [h] + rest;
        assert log + [h] + rest == log + more;
        RepliesMore(st.conversation, h, rest);
        if OnCalls(env, next, calls[1..]).1.None? { assert calls[1..][..|rest|] == calls[1..]; }
        MadeMore(calls, h, rest, env.lib);
      }
    }
  }

  lemma CallsStep(env: Env, st: State, calls: seq<Fields>)
    ensures calls == [] ==> OnCalls(env, st, calls) == (st, None)
    ensures calls != [] ==>
      var (next, error) := OnCall(env, st, calls[0]);
      OnCalls(env, st, calls) == if error.Some? then (next, error) else OnCalls(env, next, calls[1..])
  {
    hide OnCall;
  }

  lemma MadeNone(calls: seq<Fields>, lib: Library)
    ensures Made(calls[..0], [], lib) && Made([], [], lib)
  {
  }

  lemma MadeMore(calls: seq<Fields>, h: Handled, rest: seq<Handled>, lib: Library)
    requires calls != [] && |rest| <= |calls| - 1
    requires Makes(calls[0], h.call, lib) && Made(calls[1..][..|rest|], rest, lib)
    ensures Made(calls[..|[h] + rest|], [h] + rest, lib)
    ensures |rest| == |calls| - 1 ==> Made(calls, [h] + rest, lib)
  {
    hide Makes;
    var more := [h] + rest;
    forall k | 0 <= k < |more| ensures Makes(calls[k], more[k].call, lib) {
      if k > 0 { assert calls[k] == calls[1..][..|rest|][k - 1] && more[k] == rest[k - 1]; }
    }
  }

  lemma RepliesMore(said: seq<Message>, h: Handled, rest: seq<Handled>)
    ensures said + [ToolReply(h.call.id, h.call.name, h.reply)] + Replies(rest) == said + Replies([h] + rest)
    ensures Replies([]) == []
  {
    assert [ToolReply(h.call.id, h.call.name, h.reply)] + Replies(rest) == Replies([h] + rest);
  }

  lemma TalliedOutputs(env: Env, question: string, st: State, log: seq<Handled>)
    requires Tallied(env, question, st, log)
    ensures st.outputs == Outputs(log) && st.toolCalls == |Outputs(log)|
  {
  }

  /** Tools are closed exactly when the log says so, and by what it says. */
  lemma ForcedIff(env: Env, question: string, st: State, log: seq<Handled>)
    requires Tallied(env, question, st, log)
    ensures Forced(env, st) <==> !Open(env, log)
    ensures LimitNow(env, st).Some? <==> !Open(env, log)
    ensures Tallied(env, question, st.(limit := LimitNow(env, st)), log)
    ensures LimitNow(env, st).Some? ==> ClosedBy(log, LimitNow(env, st).value)
  {
    hide LogOk, Outputs, Rewrites;
  }

  lemma ResultTold(env: Env, st: State, message: Fields, limit: Option<string>, allow: bool)
    ensures Results(env, st, message, limit, allow,
                    FinalResult(env, st, Get(message, "content"), limit, allow))
  {
    hide VerdictOf, EvidenceOf;
  }

  lemma IdlyIff(env: Env, outputs: seq<Json>, message: Fields)
    ensures var parts := ClarificationParts(Get(message, "content"), env.lib);
      AsksIdly(env, outputs, message)
      <==> parts.Some? && !LoadBearing(parts.value.1, EvidenceOf(outputs).metadata, env.lib)
  {
    hide EvidenceOf, Divided, LoadBearing, Clarifies, ClarificationParts;
    var raw := Get(message, "content");
    PartsIff(raw, env.lib);
    if ClarificationParts(raw, env.lib).Some? {
      DividedIff(ClarificationParts(raw, env.lib).value.1, EvidenceOf(outputs).metadata, env.lib);
    }
  }

  /** The last word, and its correction. */
  lemma {:induction false} AnswerTold(env: Env, question: string, opening: seq<Message>, xs: seq<Exchange>, st: State,
                                      message: Fields)
    requires Tallied(env, question, st, Log(xs)) && st.conversation == opening + Body(xs)
    requires |st.requests| == |xs| + 1 && Open(env, Log(xs)) && CallsOf(message) == Some([])
    ensures var step := OnAnswer(env, st, message);
      && step.Stop? && |step.st.requests| > |xs| && step.st.requests[..|xs| + 1] == st.requests
      && Closes(env, question, opening, xs, message, st.tokens, step.st, step.outcome)
  {
    hide Carries, Tallied, Outputs, Open, FinalResult, Results, AsksIdly, ClarificationParts, LoadBearing, EvidenceOf;
    hide Body, Log, CallsOf, Corrected;
    CarriesIff(message, []);
    IdlyIff(env, st.outputs, message);
    TalliedOutputs(env, question, st, Log(xs));
    var said := st.(conversation := st.conversation + [FromModel(message)]);
    ResultTold(env, said, message, None, true);
    if AsksIdly(env, st.outputs, message) {
      CorrectionTold(env, question, opening, xs, st, message);
    }
  }

  lemma {:induction false} CorrectionTold(env: Env, question: string, opening: seq<Message>, xs: seq<Exchange>,
                                          st: State, message: Fields)
    requires Tallied(env, question, st, Log(xs)) && st.conversation == opening + Body(xs)
    requires |st.requests| == |xs| + 1
    requires var parts := ClarificationParts(Get(message, "content"), env.lib);
      parts.Some? && !LoadBearing(parts.value.1, EvidenceOf(st.outputs).metadata, env.lib)
    ensures var step, said := OnAnswer(env, st, message), opening + Body(xs) + [FromModel(message)];
      && step.Stop? && step.st.requests == st.requests + [said + [NOT_LOAD_BEARING]]
      && Corrected(env, Log(xs), said, st.tokens, step.st, step.outcome)
  {
    hide Tallied, Outputs, FinalResult, Results, ClarificationParts, LoadBearing, EvidenceOf, Body, Log;
    TalliedOutputs(env, question, st, Log(xs));
    var said := st.(conversation := st.conversation + [FromModel(message)]);
    var request := said.conversation + [NOT_LOAD_BEARING];
    match env.model(request, false)
    case ModelFails(_) =>
    case Completed(last, tokens) =>
      var asked := Asked(said, request, tokens);
      ResultTold(env, asked.(conversation := asked.conversation + [FromModel(last)]), last, None, false);
  }

  lemma Unfolds(env: Env, opening: seq<Message>, xs: seq<Exchange>, x: Exchange)
    ensures Log(xs + [x]) == Log(xs) + x.handled
    ensures Body(xs + [x]) == Body(xs) + [FromModel(x.message)] + Replies(x.handled)
    ensures Cost(env, opening, xs + [x])
         == Cost(env, opening, xs) + TokensOf(env.model(opening + Body(xs), true))
  {
    assert (xs + [x])[..|xs|] == xs;
  }

  lemma {:induction false} StoryMore(env: Env, question: string, opening: seq<Message>, xs: seq<Exchange>, x: Exchange)
    requires Exchanged(env, question, opening, xs) && LogOk(env, question, Log(xs) + x.handled)
    requires ExchangeOk(env, opening, xs, x)
    ensures Exchanged(env, question, opening, xs + [x])
  {
    hide ExchangeOk, LogOk, Log, Body, Cost;
    Unfolds(env, opening, xs, x);
    var more := xs + [x];
    forall k | 0 <= k < |more| ensures ExchangeOk(env, opening, more[..k], more[k]) {
      assert more[..k] == xs[..k];
      if k == |xs| { assert xs[..k] == xs; }
    }
  }

  lemma {:induction false} RequestsMore(opening: seq<Message>, xs: seq<Exchange>, x: Exchange,
                                        requests: seq<seq<Message>>)
    requires |requests| == |xs| + 1 && RequestsAre(opening, xs, requests[..|xs|])
    requires requests[|xs|] == opening + Body(xs)
    ensures RequestsAre(opening, xs + [x], requests)
  {
    hide Body;
    var more := xs + [x];
    forall k | 0 <= k < |more| ensures requests[k] == opening + Body(more[..k]) {
      assert more[..k] == xs[..k] && xs[..|xs|] == xs;
      if k < |xs| { assert requests[k] == requests[..|xs|][k]; }
    }
  }

  /** Where a message is taken up: after the exchanges, with one request more. */
  ghost predicate Answering(env: Env, question: string, opening: seq<Message>, xs: seq<Exchange>, st: State,
                            message: Fields) {
    && Exchanged(env, question, opening, xs) && Tallied(env, question, st, Log(xs))
    && st.conversation == opening + Body(xs) && |st.requests| == |xs| + 1
    && RequestsAre(opening, xs, st.requests[..|xs|]) && st.requests[|xs|] == LastRequest(env, opening, xs)
    && Cost(env, opening, xs) < env.limits.tokenBudget
    && var answer := env.model(LastRequest(env, opening, xs), Open(env, Log(xs)));
       && answer.Completed? && answer.message == message
       && st.tokens == Cost(env, opening, xs) + answer.tokens <= env.limits.tokenBudget
  }

  /** The calls of a message, taken up. */
  lemma {:induction false} CallsTold(env: Env, question: string, opening: seq<Message>, xs: seq<Exchange>, st: State,
                                     message: Fields, calls: seq<Fields>) returns (x: Exchange)
    requires Answering(env, question, opening, xs, st, message) && Open(env, Log(xs))
    requires Carries(message, calls) && calls != []
    ensures var said := st.(conversation := st.conversation + [FromModel(message)]);
      var (next, error) := OnCalls(env, said, calls);
      && next.requests == st.requests
      && (error.None? ==> Told(env, question, opening, xs + [x], next))
      && (error.Some? ==>
            next.tokens == st.tokens && BreaksOff(env, question, Log(xs), calls, x.handled, next, error.value))
  {
    hide Exchanged, OnCalls, Tallied, Carries, CallsOf, Made, Outputs, LogOk, RequestsAre, Body, Cost, Log, Breaks;
    hide Open;
    hide Replies;
    var said := st.(conversation := st.conversation + [FromModel(message)]);
    SaidTallied(env, question, st, said, Log(xs));
    var more := ManyCalls(env, question, said, Log(xs), calls);
    x := Exchange(message, more);
    var (next, error) := OnCalls(env, said, calls);
    if error.None? {
      TalliedSays(env, question, next, Log(xs) + more);
      assert Handles(message, more, env.lib);
      assert opening + Body(xs) + [] == opening + Body(xs);
      StoryMore(env, question, opening, xs, x);
      Unfolds(env, opening, xs, x);
      RequestsMore(opening, xs, x, st.requests);
      assert next.conversation == opening + Body(xs + [x]);
    }
  }

  lemma SaidTallied(env: Env, question: string, a: State, b: State, log: seq<Handled>)
    requires Tallied(env, question, a, log) && b == a.(conversation := b.conversation, requests := b.requests,
                                                       tokens := b.tokens)
    ensures Tallied(env, question, b, log)
  {
    hide LogOk, Outputs, Rewrites;
  }

  lemma {:induction false} MessageTold(env: Env, question: string, opening: seq<Message>, xs: seq<Exchange>, st: State,
                                       message: Fields)
    requires Answering(env, question, opening, xs, st, message)
    requires Forced(env, st) <==> !Open(env, Log(xs))
    requires Forced(env, st) ==> st.limit.Some? && ClosedBy(Log(xs), st.limit.value)
    ensures match OnMessage(env, st, message)
      case Stop(last, outcome) =>
        && |last.requests| > |xs| && last.requests[..|xs| + 1] == st.requests
        && Closes(env, question, opening, xs, message, st.tokens, last, outcome)
      case Continue(next) => exists x :: Told(env, question, opening, xs + [x], next)
  {
    hide Exchanged, OnCalls, Tallied, Carries, CallsOf, Made, Outputs, LogOk, RequestsAre, Body, Cost, Log, Breaks;
    hide Open;
    hide OnAnswer, FinalResult, Results, Corrected, AsksIdly, ClosedBy, Forced, LastRequest, Told, BreaksOff;
    forall calls ensures CallsOf(message) == Some(calls) <==> Carries(message, calls) { CarriesIff(message, calls); }
    if CallsOf(message).Some? {
      var calls := CallsOf(message).value;
      var said := st.(conversation := st.conversation + [FromModel(message)]);
      TalliedOutputs(env, question, st, Log(xs));
      if Forced(env, st) {
        ResultTold(env, said, message, Some(st.limit.value), true);
        assert st.limit == Some(st.limit.value);
      } else if calls == [] {
        AnswerTold(env, question, opening, xs, st, message);
      } else {
        var x := CallsTold(env, question, opening, xs, st, message, calls);
        var (next, error) := OnCalls(env, said, calls);
        assert !Carries(message, []);
      }
    }
  }

  lemma {:induction false} RoundTold(env: Env, question: string, opening: seq<Message>, xs: seq<Exchange>, st: State)
    requires Told(env, question, opening, xs, st)
    ensures match RoundOf(env, st)
      case Stop(last, outcome) => Ends(env, question, opening, xs, last, outcome)
      case Continue(next) => exists x :: Told(env, question, opening, xs + [x], next)
  {
    hide Exchanged, Tallied, RequestsAre, Body, Cost, Log, Open, OnMessage, Closes, ClosedBy;
    ForcedIff(env, question, st, Log(xs));
    var limited := st.(limit := LimitNow(env, st));
    SameForced(env, st);
    hide Forced, LimitNow;
    assert st.requests[..|xs|] == st.requests by { AsManyRequests(opening, xs, st.requests); }
    var request := LastRequest(env, opening, xs);
    assert limited.conversation + (if Forced(env, limited) then [TOOLS_ENDED] else []) == request;
    if st.tokens < env.limits.tokenBudget && env.model(request, Open(env, Log(xs))).Completed? {
      var answer := env.model(request, Open(env, Log(xs)));
      var asked := Asked(limited, request, answer.tokens);
      if asked.tokens <= env.limits.tokenBudget {
        SaidTallied(env, question, limited, asked, Log(xs));
        SameForced(env, st);
        assert asked.requests[..|xs|] == st.requests && asked.requests[|xs|] == request;
        AskedForced(env, limited, asked);
        MessageTold(env, question, opening, xs, asked, answer.message);
        hide LastRequest;
        PrefixRequests(env, question, opening, xs, st, asked, answer.message);
      }
    }
  }

  lemma AsManyRequests(opening: seq<Message>, xs: seq<Exchange>, requests: seq<seq<Message>>)
    requires RequestsAre(opening, xs, requests)
    ensures |requests| == |xs| && requests[..|xs|] == requests
  {
  }

  lemma SameForced(env: Env, st: State)
    ensures Forced(env, st.(limit := LimitNow(env, st))) <==> Forced(env, st)
  {
  }

  lemma AskedForced(env: Env, a: State, b: State)
    requires a.limit == b.limit && a.toolCalls == b.toolCalls
    ensures Forced(env, a) <==> Forced(env, b)
  {
  }

  /** A message leaves the requests before it alone. */
  lemma PrefixRequests(env: Env, question: string, opening: seq<Message>, xs: seq<Exchange>, st: State, asked: State,
                       message: Fields)
    requires |st.requests| == |xs| && asked.requests == st.requests + [LastRequest(env, opening, xs)]
    requires OnMessage(env, asked, message).Stop? ==>
      var last := OnMessage(env, asked, message).st;
      |last.requests| > |xs| && last.requests[..|xs| + 1] == asked.requests
    ensures OnMessage(env, asked, message).Stop? ==>
      var last := OnMessage(env, asked, message).st;
      last.requests[..|xs|] == st.requests && last.requests[|xs|] == LastRequest(env, opening, xs)
  {
    hide OnMessage, LastRequest;
    var step := OnMessage(env, asked, message);
    if step.Stop? {
      assert step.st.requests[..|xs|] == step.st.requests[..|xs| + 1][..|xs|];
      assert step.st.requests[|xs|] == step.st.requests[..|xs| + 1][|xs|];
    }
  }

  lemma {:induction false} RunTold(env: Env, question: string, opening: seq<Message>, xs: seq<Exchange>, st: State)
    returns (all: seq<Exchange>)
    requires Told(env, question, opening, xs, st)
    ensures var (last, outcome) := RunFrom(env, st);
      Exchanged(env, question, opening, all) && Ends(env, question, opening, all, last, outcome)
    decreases RoundsLeft(env, st)
  {
    hide Tallied, RequestsAre, Body, Cost, Exchanged, Ends, RoundOf, Told;
    RoundTold(env, question, opening, xs, st);
    match RoundOf(env, st)
    case Stop(_, _) =>
      all := xs;
      ToldExchanged(env, question, opening, xs, st);
    case Continue(next) =>
      RoundsDecrease(env, st);
      var x :| Told(env, question, opening, xs + [x], next);
      all := RunTold(env, question, opening, xs + [x], next);
  }

  lemma ToldExchanged(env: Env, question: string, opening: seq<Message>, xs: seq<Exchange>, st: State)
    requires Told(env, question, opening, xs, st)
    ensures Exchanged(env, question, opening, xs)
  {
  }

  /** For every model and every tools, the whole turn: each exchange answers everything said before it,
      with tools offered while they are open and the budget not used up; its calls are handled each as the
      log before it has it; and the turn ends as what follows the last exchange makes it end. */
  lemma EveryTurnTold(env: Env, question: string, opening: seq<Message>) returns (xs: seq<Exchange>)
    ensures var (last, outcome) := RunFrom(env, Start(env, question, opening));
      Exchanged(env, question, opening, xs) && Ends(env, question, opening, xs, last, outcome)
  {
    hide Exchanged, Ends, RunFrom;
    StartTold(env, question, opening);
    xs := RunTold(env, question, opening, [], Start(env, question, opening));
  }

  lemma StartTold(env: Env, question: string, opening: seq<Message>)
    ensures Told(env, question, opening, [], Start(env, question, opening))
  {
    hide Rightly;
    assert opening + [] == opening && Rewrites(env, question, []) == {};
  }

  /** A turn starts from the system prompt, what is known of the user's setup if anything is, and the
      history; the question stands alone when there is none. */
  lemma OpeningIs(question: string, history: seq<Message>, profile: Option<string>)
    ensures var opening := Opening(question, history, profile);
      var first := if profile.Some? then 2 else 1;
      && |opening| == first + (if |history| > 0 then |history| else 1)
      && opening[0] == Message.Given("system", "prompt")
      && (profile.Some? ==> opening[1] == Message.Given("system", profile.value))
      && (history == [] ==> opening[first] == Message.Given("user", question))
      && forall k :: 0 <= k < |history| ==> opening[first + k] == history[k]
  {
    var head := [Message.Given("system", "prompt")]
      + if profile.Some? then [Message.Given("system", profile.value)] else [];
    var rest := if history == [] then [Message.Given("user", question)] else history;
    assert Opening(question, history, profile) == head + rest;
  }
}
