/** The bounded agent loop, against any model and any tools. */
module AgentLoop {
  import opened Options
  import opened Evidence
  import opened Grounding

  datatype ErrorCode = AGENT_LIMIT_REACHED | INVALID_REQUEST | NO_EVIDENCE | Other(code: string)

  datatype Limits = Limits(maxToolCalls: nat, maxRewrites: nat, tokenBudget: int, docsBase: string)

  /** The body of a tool message: what the tool returned, or which limit refused it. */
  datatype Reply = Refused(limit: string) | Result(output: Json)

  datatype Message =
    | Given(role: string, content: string)
    | FromModel(message: Fields)
    | ToolReply(callId: string, name: string, body: Reply)
    | Note(text: string)

  datatype Completion = Completed(message: Fields, tokens: int) | ModelFails(error: ErrorCode)

  datatype ToolResult = ToolReturns(output: Json) | ToolFails(error: ErrorCode)

  /** The adversaries: what the model answers to a request, with or without tools offered, and what
      the nth executed tool does. */
  datatype Env = Env(
    limits: Limits,
    lib: Library,
    model: (seq<Message>, bool) -> Completion,
    tools: (nat, string, string) -> ToolResult)

  const TOOLS_ENDED := Note(
    "Tool access has ended at the configured limit. Answer only from evidence already returned, "
    + "or abstain if it is insufficient.")
  const NOT_LOAD_BEARING := Note(
    "The requested detail does not change the answer across the retrieved evidence. "
    + "Do not ask a clarification; answer now with retrieved citation IDs, or abstain.")
  const NO_EVIDENCE_REPLY := "no evidence"

  const TOOL_NAMES := ["search_docs", "read_doc", "search_related_questions"]

  datatype TurnResult = TurnResult(
    content: string, messages: seq<Message>, toolCalls: nat, rewrites: nat, totalTokens: int,
    citations: seq<Citation>, images: seq<Image>,
    clarificationField: Option<string>, limitReason: Option<string>, errorCode: Option<ErrorCode>)

  datatype Outcome = Done(result: TurnResult) | Failed(error: ErrorCode)

  /** The loop's variables. `outputs` are what the executed tools returned and `requests` what the
      model was asked, in order. */
  datatype State = State(
    conversation: seq<Message>, toolCalls: nat, rewrites: nat, tokens: int,
    queryForms: set<string>, limit: Option<string>, outputs: seq<Json>, requests: seq<seq<Message>>)

  // --- Reading what the model returned ------------------------------------------------------------------

  predicate AllObjects(items: seq<Json>) { forall k :: 0 <= k < |items| ==> items[k].Obj? }

  function CallsOf(message: Fields): Option<seq<Fields>> {
    var raw := Get(message, "tool_calls");
    if !Truthy(raw) then Some([]) else if raw.Arr? && AllObjects(raw.items) then Some(Objects(raw.items)) else None
  }

  datatype Call = Call(id: string, name: string, arguments: string)

  function PartsOf(call: Fields, lib: Library): Option<Call> {
    if "id" !in call || "function" !in call || !call["function"].Obj? then None
    else
      var f := call["function"].fields;
      if "name" !in f || "arguments" !in f then None
      else Some(Call(lib.render(call["id"]), lib.render(f["name"]), lib.render(f["arguments"])))
  }

  /** The query a tool call searches for, normalised, when it has one. */
  function QueryOf(arguments: string, lib: Library): string {
    var raw := lib.parse(arguments);
    if raw.None? || !raw.value.Obj? || !Get(raw.value.fields, "query").Str? then ""
    else lib.normalize(Get(raw.value.fields, "query").s)
  }

  // --- One tool call --------------------------------------------------------------------------------------

  function Answered(st: State, call: Call, body: Reply): State {
    st.(conversation := st.conversation + [ToolReply(call.id, call.name, body)])
  }

  function Limited(st: State, call: Call, limit: string): State {
    Answered(st.(limit := Some(limit)), call, Refused(limit))
  }

  /** The query forms after a call that may be a rewrite of the question. */
  function Searched(st: State, query: string): State {
    if query != "" && query !in st.queryForms then
      st.(queryForms := st.queryForms + {query}, rewrites := st.rewrites + 1)
    else st
  }

  function Execute(env: Env, st: State, call: Call): (State, Option<ErrorCode>) {
    match env.tools(st.toolCalls, call.name, call.arguments)
    case ToolFails(error) => (st, Some(error))
    case ToolReturns(output) =>
      (Answered(st.(toolCalls := st.toolCalls + 1, outputs := st.outputs + [output]), call, Result(output)), None)
  }

  /** The turn after one tool call, and the error that ends it, if one does. */
  function OnCall(env: Env, st: State, raw: Fields): (State, Option<ErrorCode>) {
    match PartsOf(raw, env.lib)
    case None => (st, Some(INVALID_REQUEST))
    case Some(call) =>
      if st.limit.Some? then (Answered(st, call, Refused(st.limit.value)), None)
      else if st.toolCalls >= env.limits.maxToolCalls then (Limited(st, call, "tool_calls"), None)
      else if call.name !in TOOL_NAMES then (st, Some(INVALID_REQUEST))
      else
        var query := QueryOf(call.arguments, env.lib);
        if query != "" && query !in st.queryForms && st.rewrites >= env.limits.maxRewrites then
          (Limited(st, call, "rewrites"), None)
        else Execute(env, Searched(st, query), call)
  }

  function OnCalls(env: Env, st: State, calls: seq<Fields>): (State, Option<ErrorCode>)
    decreases |calls|
  {
    if calls == [] then (st, None)
    else
      var (next, error) := OnCall(env, st, calls[0]);
      if error.Some? then (next, error) else OnCalls(env, next, calls[1..])
  }

  // --- One round of the loop ------------------------------------------------------------------------------

  datatype Round = Continue(st: State) | Stop(st: State, outcome: Outcome)

  function FinalResult(env: Env, st: State, raw: Json, limitReason: Option<string>,
                       allowClarification: bool): TurnResult {
    var r := TurnResult(NO_EVIDENCE_REPLY, st.conversation, st.toolCalls, st.rewrites, st.tokens,
                        [], [], None, limitReason, Some(NO_EVIDENCE));
    match VerdictOf(raw, EvidenceOf(st.outputs), env.limits.docsBase, allowClarification, env.lib)
    case Abstain => r
    case Ask(question, field) => r.(content := question, clarificationField := Some(field), errorCode := None)
    case Answer(text, citations, images) =>
      r.(content := text, citations := citations, images := images,
         errorCode := if limitReason.Some? && limitReason.value != "" then Some(AGENT_LIMIT_REACHED) else None)
  }

  predicate Forced(env: Env, st: State) {
    st.limit.Some? || st.toolCalls >= env.limits.maxToolCalls
  }

  function LimitNow(env: Env, st: State): Option<string> {
    if st.limit.Some? then st.limit else if Forced(env, st) then Some("tool_calls") else None
  }

  function Asked(st: State, request: seq<Message>, tokens: int): State {
    st.(requests := st.requests + [request], tokens := st.tokens + tokens)
  }

  /** A reply without tool calls: a clarification the evidence does not bear out is sent back once. */
  function OnAnswer(env: Env, st: State, message: Fields): Round {
    var said := st.(conversation := st.conversation + [FromModel(message)]);
    var raw := Get(message, "content");
    var parts := ClarificationParts(raw, env.lib);
    if parts.None? || LoadBearing(parts.value.1, EvidenceOf(st.outputs).metadata, env.lib) then
      Stop(said, Done(FinalResult(env, said, raw, None, true)))
    else
      var request := said.conversation + [NOT_LOAD_BEARING];
      match env.model(request, false)
      case ModelFails(error) => Stop(Asked(said, request, 0), Failed(error))
      case Completed(corrected, tokens) =>
        var asked := Asked(said, request, tokens);
        if asked.tokens > env.limits.tokenBudget then Stop(asked, Failed(AGENT_LIMIT_REACHED))
        else
          var last := asked.(conversation := asked.conversation + [FromModel(corrected)]);
          Stop(last, Done(FinalResult(env, last, Get(corrected, "content"), None, false)))
  }

  function OnMessage(env: Env, st: State, message: Fields): Round {
    match CallsOf(message)
    case None => Stop(st, Failed(INVALID_REQUEST))
    case Some(calls) =>
      var said := st.(conversation := st.conversation + [FromModel(message)]);
      if Forced(env, st) then Stop(said, Done(FinalResult(env, said, Get(message, "content"), st.limit, true)))
      else if calls == [] then OnAnswer(env, st, message)
      else
        var (next, error) := OnCalls(env, said, calls);
        if error.Some? then Stop(next, Failed(error.value)) else Continue(next)
  }

  function RoundOf(env: Env, before: State): Round {
    var st := before.(limit := LimitNow(env, before));
    if st.tokens >= env.limits.tokenBudget then Stop(st, Failed(AGENT_LIMIT_REACHED))
    else
      var force := Forced(env, st);
      var request := st.conversation + if force then [TOOLS_ENDED] else [];
      match env.model(request, !force)
      case ModelFails(error) => Stop(Asked(st, request, 0), Failed(error))
      case Completed(message, tokens) =>
        var asked := Asked(st, request, tokens);
        if asked.tokens > env.limits.tokenBudget then Stop(asked, Failed(AGENT_LIMIT_REACHED))
        else OnMessage(env, asked, message)
  }

  /** Rounds left at most: none more than one once a limit is reached. */
  function RoundsLeft(env: Env, st: State): nat {
    if st.limit.Some? then 0
    else if st.toolCalls < env.limits.maxToolCalls then 1 + env.limits.maxToolCalls - st.toolCalls else 1
  }

  lemma OnCallMoves(env: Env, st: State, raw: Fields)
    ensures var (next, error) := OnCall(env, st, raw);
      && next.toolCalls >= st.toolCalls
      && (st.limit.Some? ==> next.limit == st.limit && next.toolCalls == st.toolCalls)
      && (error.None? && st.limit.None? ==> next.limit.Some? || next.toolCalls == st.toolCalls + 1)
      && (st.toolCalls <= env.limits.maxToolCalls ==> next.toolCalls <= env.limits.maxToolCalls)
  {
  }

  lemma {:induction false} OnCallsMove(env: Env, st: State, calls: seq<Fields>)
    ensures var (next, error) := OnCalls(env, st, calls);
      && next.toolCalls >= st.toolCalls
      && (st.limit.Some? ==> next.limit == st.limit && next.toolCalls == st.toolCalls)
      && (error.None? && st.limit.None? && calls != [] ==> next.limit.Some? || next.toolCalls > st.toolCalls)
      && (st.toolCalls <= env.limits.maxToolCalls ==> next.toolCalls <= env.limits.maxToolCalls)
    decreases |calls|
  {
    hide OnCall;
    if calls != [] {
      OnCallMoves(env, st, calls[0]);
      OnCallsMove(env, OnCall(env, st, calls[0]).0, calls[1..]);
    }
  }

  /** Every round that goes on has executed a tool or reached a limit. */
  lemma RoundsDecrease(env: Env, st: State)
    requires RoundOf(env, st).Continue?
    ensures RoundsLeft(env, RoundOf(env, st).st) < RoundsLeft(env, st)
    ensures st.limit.None? && st.toolCalls < env.limits.maxToolCalls
  {
    hide OnMessage;
    var limited := st.(limit := LimitNow(env, st));
    var request := limited.conversation + if Forced(env, limited) then [TOOLS_ENDED] else [];
    var completion := env.model(request, !Forced(env, limited));
    var asked := Asked(limited, request, completion.tokens);
    MessageMoves(env, asked, completion.message);
  }

  lemma MessageMoves(env: Env, st: State, message: Fields)
    requires OnMessage(env, st, message).Continue?
    ensures st.limit.None? && st.toolCalls < env.limits.maxToolCalls
    ensures var next := OnMessage(env, st, message).st;
      next.toolCalls <= env.limits.maxToolCalls && (next.limit.Some? || next.toolCalls > st.toolCalls)
  {
    hide OnCalls, OnAnswer, CallsOf, FinalResult;
    AnswerStops(env, st, message);
    var said := st.(conversation := st.conversation + [FromModel(message)]);
    OnCallsMove(env, said, CallsOf(message).value);
    assert OnMessage(env, st, message).st == OnCalls(env, said, CallsOf(message).value).0;
  }

  lemma AnswerStops(env: Env, st: State, message: Fields)
    ensures OnAnswer(env, st, message).Stop?
  {
  }

  function RunFrom(env: Env, st: State): (State, Outcome)
    decreases RoundsLeft(env, st)
  {
    match RoundOf(env, st)
    case Stop(last, outcome) => (last, outcome)
    case Continue(next) =>
      RoundsDecrease(env, st);
      RunFrom(env, next)
  }

  /** The conversation a turn starts from: the system prompt, what is known of the user's setup, the
      history, and the question when there is no history. */
  function Opening(question: string, history: seq<Message>, profile: Option<string>): seq<Message> {
    [Given("system", "prompt")]
    + (if profile.Some? then [Given("system", profile.value)] else [])
    + (if history == [] then [Given("user", question)] else history)
  }

  function Start(env: Env, question: string, opening: seq<Message>): State {
    State(opening, 0, 0, 0, {env.lib.normalize(question)}, None, [], [])
  }

  // --- The loop -------------------------------------------------------------------------------------------

  /** A turn in progress: the conversation, the counters, the evidence, and what has been asked. */
  class AgentTurn {
    const env: Env
    var conversation: seq<Message>
    var toolCallsUsed: nat
    var rewritesUsed: nat
    var totalTokens: int
    var queryForms: set<string>
    var limitReason: Option<string>
    const evidence: EvidenceStore
    ghost var outputs: seq<Json>
    ghost var requests: seq<seq<Message>>

    constructor (env: Env, question: string, opening: seq<Message>)
      ensures this.env == env && fresh(evidence)
      ensures Valid() && Now() == Start(env, question, opening)
    {
      this.env := env;
      conversation := opening;
      toolCallsUsed, rewritesUsed, totalTokens := 0, 0, 0;
      queryForms := {env.lib.normalize(question)};
      limitReason := None;
      evidence := new EvidenceStore();
      outputs, requests := [], [];
    }

    ghost predicate Valid()
      reads this, evidence
    {
      evidence.Value() == EvidenceOf(outputs)
    }

    ghost function Now(): State
      reads this
    {
      State(conversation, toolCallsUsed, rewritesUsed, totalTokens, queryForms, limitReason, outputs, requests)
    }

    method Reply(call: Call, body: Reply)
      modifies this
      ensures Now() == Answered(old(Now()), call, body) && outputs == old(outputs)
    {
      conversation := conversation + [ToolReply(call.id, call.name, body)];
    }

    method HandleCall(raw: Fields) returns (error: Option<ErrorCode>)
      requires Valid()
      modifies this, evidence
      ensures Valid() && (Now(), error) == OnCall(env, old(Now()), raw)
    {
      var parts := PartsOf(raw, env.lib);
      if parts.None? { return Some(INVALID_REQUEST); }
      var call := parts.value;
      if limitReason.Some? {
        Reply(call, Refused(limitReason.value));
        return None;
      }
      if toolCallsUsed >= env.limits.maxToolCalls {
        limitReason := Some("tool_calls");
        Reply(call, Refused("tool_calls"));
        return None;
      }
      if call.name !in TOOL_NAMES { return Some(INVALID_REQUEST); }
      var query := QueryOf(call.arguments, env.lib);
      if query != "" && query !in queryForms {
        if rewritesUsed >= env.limits.maxRewrites {
          limitReason := Some("rewrites");
          Reply(call, Refused("rewrites"));
          return None;
        }
        queryForms := queryForms + {query};
        rewritesUsed := rewritesUsed + 1;
      }
      error := RunTool(call);
    }

    method RunTool(call: Call) returns (error: Option<ErrorCode>)
      requires Valid()
      modifies this, evidence
      ensures Valid() && (Now(), error) == Execute(env, old(Now()), call)
    {
      var result := env.tools(toolCallsUsed, call.name, call.arguments);
      if result.ToolFails? { return Some(result.error); }
      evidence.Collect(result.output);
      outputs := outputs + [result.output];
      assert outputs[..|outputs| - 1] == old(outputs);
      toolCallsUsed := toolCallsUsed + 1;
      Reply(call, Result(result.output));
      error := None;
    }

    method HandleCalls(calls: seq<Fields>) returns (error: Option<ErrorCode>)
      requires Valid()
      modifies this, evidence
      ensures Valid() && (Now(), error) == OnCalls(env, old(Now()), calls)
    {
      hide OnCall;
      error := None;
      assert calls[0..] == calls;
      for i := 0 to |calls|
        invariant Valid() && error == None
        invariant OnCalls(env, Now(), calls[i..]) == OnCalls(env, old(Now()), calls)
      {
        assert calls[i..][0] == calls[i] && calls[i..][1..] == calls[i + 1..];
        error := HandleCall(calls[i]);
        if error.Some? { return; }
      }
    }

    method Finish(raw: Json, limit: Option<string>, allowClarification: bool) returns (result: TurnResult)
      requires Valid()
      ensures result == FinalResult(env, Now(), raw, limit, allowClarification)
    {
      hide VerdictOf;
      var verdict := Judge(raw, evidence.Value(), env.limits.docsBase, allowClarification, env.lib);
      result := TurnResult(NO_EVIDENCE_REPLY, conversation, toolCallsUsed, rewritesUsed, totalTokens,
                           [], [], None, limit, Some(NO_EVIDENCE));
      match verdict
      case Abstain =>
      case Ask(question, field) =>
        result := result.(content := question, clarificationField := Some(field), errorCode := None);
      case Answer(text, citations, images) =>
        var code := if limit.Some? && limit.value != "" then Some(AGENT_LIMIT_REACHED) else None;
        result := result.(content := text, citations := citations, images := images, errorCode := code);
    }

    /** One call of the model; none of its tokens are counted when it fails. */
    method Ask(request: seq<Message>, tools: bool) returns (completion: Completion)
      modifies this
      ensures completion == env.model(request, tools)
      ensures Now() == Asked(old(Now()), request, if completion.Completed? then completion.tokens else 0)
      ensures outputs == old(outputs)
    {
      completion := env.model(request, tools);
      requests := requests + [request];
      if completion.Completed? { totalTokens := totalTokens + completion.tokens; }
    }

    /** A reply without tool calls. */
    method HandleAnswer(message: Fields) returns (outcome: Outcome)
      requires Valid()
      modifies this
      ensures Valid() && Stop(Now(), outcome) == OnAnswer(env, old(Now()), message)
    {
      hide FinalResult, ClarificationParts, LoadBearing, EvidenceOf;
      conversation := conversation + [FromModel(message)];
      var last := message;
      var clarification := ClarificationParts(Get(message, "content"), env.lib);
      var rejected := clarification.Some? && !LoadBearing(clarification.value.1, evidence.Value().metadata, env.lib);
      if rejected {
        var completion := Ask(conversation + [NOT_LOAD_BEARING], false);
        if completion.ModelFails? { return Failed(completion.error); }
        if totalTokens > env.limits.tokenBudget { return Failed(AGENT_LIMIT_REACHED); }
        last := completion.message;
        conversation := conversation + [FromModel(last)];
      }
      var result := Finish(Get(last, "content"), None, !rejected);
      outcome := Done(result);
    }

    /** One round of the loop; nothing when the loop goes on. */
    method RunRound() returns (outcome: Option<Outcome>)
      requires Valid()
      modifies this, evidence
      ensures Valid()
      ensures RoundOf(env, old(Now())) == if outcome.Some? then Stop(Now(), outcome.value) else Continue(Now())
    {
      hide FinalResult, OnCalls, OnAnswer, CallsOf, EvidenceOf;
      var force := limitReason.Some? || toolCallsUsed >= env.limits.maxToolCalls;
      if force && limitReason.None? { limitReason := Some("tool_calls"); }
      if totalTokens >= env.limits.tokenBudget { return Some(Failed(AGENT_LIMIT_REACHED)); }
      var completion := Ask(conversation + (if force then [TOOLS_ENDED] else []), !force);
      if completion.ModelFails? { return Some(Failed(completion.error)); }
      if totalTokens > env.limits.tokenBudget { return Some(Failed(AGENT_LIMIT_REACHED)); }
      outcome := HandleMessage(completion.message);
    }

    method HandleMessage(message: Fields) returns (outcome: Option<Outcome>)
      requires Valid()
      modifies this, evidence
      ensures Valid()
      ensures OnMessage(env, old(Now()), message)
          == if outcome.Some? then Stop(Now(), outcome.value) else Continue(Now())
    {
      hide FinalResult, OnCalls, OnAnswer, CallsOf, EvidenceOf;
      var calls := CallsOf(message);
      if calls.None? { return Some(Failed(INVALID_REQUEST)); }
      if limitReason.Some? || toolCallsUsed >= env.limits.maxToolCalls {
        conversation := conversation + [FromModel(message)];
        var result := Finish(Get(message, "content"), limitReason, true);
        return Some(Done(result));
      }
      if calls.value == [] {
        var answer := HandleAnswer(message);
        return Some(answer);
      }
      conversation := conversation + [FromModel(message)];
      var error := HandleCalls(calls.value);
      outcome := if error.Some? then Some(Failed(error.value)) else None;
    }

    /** The turn, to its end. */
    method Run() returns (outcome: Outcome)
      requires Valid()
      modifies this, evidence
      ensures (Now(), outcome) == RunFrom(env, old(Now()))
    {
      hide RoundOf, EvidenceOf;
      while true
        invariant Valid() && RunFrom(env, Now()) == RunFrom(env, old(Now()))
        decreases RoundsLeft(env, Now())
      {
        ghost var before := Now();
        var step := RunRound();
        if step.Some? { return step.value; }
        RoundsDecrease(env, before);
      }
    }
  }

  /** A turn from a question, the history as it is replayed, and what is known of the user's setup. */
  method RunTurn(env: Env, question: string, history: seq<Message>, profile: Option<string>) returns (outcome: Outcome)
    ensures outcome == RunFrom(env, Start(env, question, Opening(question, history, profile))).1
  {
    var conversation := [Given("system", "prompt")];
    conversation := conversation + history;
    if history == [] { conversation := conversation + [Given("user", question)]; }
    if profile.Some? { conversation := conversation[..1] + [Given("system", profile.value)] + conversation[1..]; }
    assert conversation == Opening(question, history, profile);
    var turn := new AgentTurn(env, question, conversation);
    outcome := turn.Run();
  }
}
