/** Which tool calls of a turn run, what the model is shown of them, what it is asked, and what it all
    costs. */
module AgentCalls {
  import opened Options
  import opened Evidence
  import opened Grounding
  import opened AgentLoop

  // --- What the model's calls say -------------------------------------------------------------------

  /** The call that a decoded object makes. */
  ghost predicate Makes(raw: Fields, call: Call, lib: Library) {
    && "id" in raw && call.id == lib.render(raw["id"])
    && "function" in raw && raw["function"].Obj?
    && var f := raw["function"].fields;
       && "name" in f && call.name == lib.render(f["name"])
       && "arguments" in f && call.arguments == lib.render(f["arguments"])
  }

  lemma MakesIff(raw: Fields, call: Call, lib: Library)
    ensures PartsOf(raw, lib) == Some(call) <==> Makes(raw, call, lib)
  {
  }

  /** The calls of a message: none when nothing is given, else the objects of a list. */
  ghost predicate Carries(message: Fields, calls: seq<Fields>) {
    if "tool_calls" !in message
       || message["tool_calls"] in {Null, Bool(false), Int(0), Float(0.0), Str(""), Arr([]), Obj(map[])} then
      calls == []
    else
      && message["tool_calls"].Arr? && |message["tool_calls"].items| == |calls|
      && forall k :: 0 <= k < |calls| ==> message["tool_calls"].items[k] == Obj(calls[k])
  }

  lemma {:induction false} ObjectsAre(items: seq<Json>, calls: seq<Fields>)
    requires |items| == |calls| && forall k :: 0 <= k < |calls| ==> items[k] == Obj(calls[k])
    ensures Objects(items) == calls
    decreases |items|
  {
    if items != [] {
      ObjectsAre(items[1..], calls[1..]);
      assert [calls[0]] + calls[1..] == calls;
    }
  }

  lemma {:induction false} AreObjects(items: seq<Json>)
    requires AllObjects(items)
    ensures |Objects(items)| == |items| && forall k :: 0 <= k < |items| ==> items[k] == Obj(Objects(items)[k])
    decreases |items|
  {
    if items != [] {
      assert forall k :: 0 <= k < |items[1..]| ==> items[1..][k] == items[k + 1];
      AreObjects(items[1..]);
    }
  }

  lemma CarriesIff(message: Fields, calls: seq<Fields>)
    ensures CallsOf(message) == Some(calls) <==> Carries(message, calls)
  {
    var raw := Get(message, "tool_calls");
    if Truthy(raw) && raw.Arr? {
      if AllObjects(raw.items) { AreObjects(raw.items); }
      if Carries(message, calls) { ObjectsAre(raw.items, calls); }
      if CallsOf(message) == Some(calls) { assert AllObjects(raw.items); }
    }
  }

  /** What a call searches for, normalised; nothing when its arguments are no object with a query. */
  function Seeks(call: Call, lib: Library): string {
    match lib.parse(call.arguments)
    case Some(Obj(fields)) => if "query" in fields && fields["query"].Str? then lib.normalize(fields["query"].s) else ""
    case _ => ""
  }

  lemma SeeksIs(call: Call, lib: Library)
    ensures QueryOf(call.arguments, lib) == Seeks(call, lib)
  {
  }

  // --- The calls of a turn, in order ------------------------------------------------------------------

  /** A tool call and what the model was shown for it. */
  datatype Handled = Handled(call: Call, reply: Reply)

  /** The searches of the calls that are not the question over again. */
  function Rewrites(env: Env, question: string, log: seq<Handled>): set<string> {
    (set h | h in log :: Seeks(h.call, env.lib)) - {"", env.lib.normalize(question)}
  }

  predicate AllRan(log: seq<Handled>) { forall h <- log :: h.reply.Result? }

  /** The call would be one rewrite of the question too many. */
  predicate Excess(env: Env, question: string, before: seq<Handled>, call: Call) {
    var query := Seeks(call, env.lib);
    && query !in {"", env.lib.normalize(question)} && query !in Rewrites(env, question, before)
    && |Rewrites(env, question, before)| >= env.limits.maxRewrites
  }

  predicate KnownTool(name: string) { name in {"search_docs", "read_doc", "search_related_questions"} }

  /** A call runs exactly when no earlier one was refused, fewer than the limit ran, and it is not a
      rewrite too many; then the model is shown what the tool returned. Otherwise it is shown which limit
      was reached, the same ever after. */
  ghost predicate Rightly(env: Env, question: string, before: seq<Handled>, h: Handled) {
    match h.reply
    case Result(output) =>
      && AllRan(before) && |before| < env.limits.maxToolCalls && KnownTool(h.call.name)
      && !Excess(env, question, before, h.call)
      && env.tools(|before|, h.call.name, h.call.arguments) == ToolReturns(output)
    case Refused(limit) =>
      if !AllRan(before) then forall b <- before :: b.reply.Refused? ==> b.reply.limit == limit
      else if |before| >= env.limits.maxToolCalls then limit == "tool_calls"
      else KnownTool(h.call.name) && Excess(env, question, before, h.call) && limit == "rewrites"
  }

  ghost predicate LogOk(env: Env, question: string, log: seq<Handled>) {
    forall k :: 0 <= k < |log| ==> Rightly(env, question, log[..k], log[k])
  }

  function Outputs(log: seq<Handled>): seq<Json> {
    if log == [] then []
    else
      var rest, last := Outputs(log[..|log| - 1]), log[|log| - 1];
      if last.reply.Result? then rest + [last.reply.output] else rest
  }

  /** The counters of the loop, and its limit, are those of the log. */
  ghost predicate Tallied(env: Env, question: string, st: State, log: seq<Handled>) {
    && LogOk(env, question, log)
    && st.outputs == Outputs(log) && st.toolCalls == |Outputs(log)|
    && (st.limit.None? ==> AllRan(log))
    && (AllRan(log) ==>
          && st.toolCalls == |log|
          && st.queryForms == {env.lib.normalize(question)} + Rewrites(env, question, log)
          && st.rewrites == |Rewrites(env, question, log)|)
    && (st.limit.Some? && AllRan(log) ==> st.limit == Some("tool_calls") && st.toolCalls >= env.limits.maxToolCalls)
    && forall h <- log :: h.reply.Refused? ==> st.limit == Some(h.reply.limit)
  }

  lemma LogMore(env: Env, question: string, log: seq<Handled>, h: Handled)
    requires LogOk(env, question, log) && Rightly(env, question, log, h)
    ensures LogOk(env, question, log + [h])
  {
    hide Rightly;
    var more := log + [h];
    forall k | 0 <= k < |more| ensures Rightly(env, question, more[..k], more[k]) {
      assert more[..k] == log[..k];
      if k == |log| { assert log[..k] == log; }
    }
  }

  lemma OutputsMore(log: seq<Handled>, h: Handled)
    ensures Outputs(log + [h]) == Outputs(log) + if h.reply.Result? then [h.reply.output] else []
  {
    assert (log + [h])[..|log|] == log;
    assert Outputs(log) + [] == Outputs(log);
  }

  lemma RewritesMore(env: Env, question: string, log: seq<Handled>, h: Handled)
    ensures Rewrites(env, question, log + [h])
         == Rewrites(env, question, log) + ({Seeks(h.call, env.lib)} - {"", env.lib.normalize(question)})
  {
    hide Seeks;
    var more := log + [h];
    var a, b := set g | g in log :: Seeks(g.call, env.lib), set g | g in more :: Seeks(g.call, env.lib);
    assert b == a + {Seeks(h.call, env.lib)} by {
      assert h in more;
      forall s | s in b ensures s in a + {Seeks(h.call, env.lib)} {
        var g :| g in more && Seeks(g.call, env.lib) == s;
        assert g in log || g == h;
      }
      forall s | s in a ensures s in b {
        var g :| g in log && Seeks(g.call, env.lib) == s;
        assert g in more;
      }
    }
  }

  /** A call that is refused. */
  lemma Refuses(env: Env, question: string, st: State, log: seq<Handled>, call: Call, limit: string)
    requires Tallied(env, question, st, log) && Rightly(env, question, log, Handled(call, Refused(limit)))
    requires st.limit == Some(limit) || (st.limit.None? && AllRan(log))
    ensures Tallied(env, question, Limited(st, call, limit), log + [Handled(call, Refused(limit))])
    ensures st.limit == Some(limit) ==> Limited(st, call, limit) == Answered(st, call, Refused(limit))
  {
    hide Rightly, LogOk, Outputs, Rewrites;
    var h := Handled(call, Refused(limit));
    LogMore(env, question, log, h);
    OutputsMore(log, h);
    assert h in log + [h];
    assert forall g <- log + [h] :: g in log || g == h;
  }

  lemma FormsMore(norm: string, before: set<string>, query: string)
    requires "" !in before && norm !in before
    ensures var after := before + ({query} - {"", norm});
      if query != "" && query !in {norm} + before then
        after == before + {query} && |after| == |before| + 1 && {norm} + before + {query} == {norm} + after
      else after == before
  {
  }

  lemma RewritesAre(env: Env, question: string, log: seq<Handled>)
    ensures "" !in Rewrites(env, question, log) && env.lib.normalize(question) !in Rewrites(env, question, log)
  {
  }

  /** The query forms and rewrites after a call that searches. */
  lemma SearchedIs(env: Env, question: string, st: State, log: seq<Handled>, h: Handled)
    requires st.queryForms == {env.lib.normalize(question)} + Rewrites(env, question, log)
    requires st.rewrites == |Rewrites(env, question, log)|
    ensures var next, more := Searched(st, Seeks(h.call, env.lib)), Rewrites(env, question, log + [h]);
      && next.queryForms == {env.lib.normalize(question)} + more && next.rewrites == |more|
      && next == st.(queryForms := next.queryForms, rewrites := next.rewrites)
  {
    hide Seeks, Rewrites;
    RewritesMore(env, question, log, h);
    RewritesAre(env, question, log);
    FormsMore(env.lib.normalize(question), Rewrites(env, question, log), Seeks(h.call, env.lib));
  }

  /** A call that runs. */
  lemma Runs(env: Env, question: string, st: State, log: seq<Handled>, call: Call, output: Json)
    requires Tallied(env, question, st, log) && st.limit.None?
    requires Rightly(env, question, log, Handled(call, Result(output)))
    ensures var searched := Searched(st, Seeks(call, env.lib));
      Tallied(env, question,
              Answered(searched.(toolCalls := searched.toolCalls + 1, outputs := searched.outputs + [output]),
                       call, Result(output)),
              log + [Handled(call, Result(output))])
  {
    hide Rightly, LogOk, Outputs, Seeks, Rewrites, Searched;
    var h := Handled(call, Result(output));
    SearchedIs(env, question, st, log, h);
    LogMore(env, question, log, h);
    OutputsMore(log, h);
    assert forall g <- log + [h] :: g in log || g == h;
  }

  /** Why a call ends the turn: it is malformed, the tool does not exist, or the tool raises. */
  ghost predicate Breaks(env: Env, ran: nat, raw: Fields, error: ErrorCode) {
    || (error == INVALID_REQUEST
        && ((forall call: Call :: !Makes(raw, call, env.lib))
            || exists call: Call :: Makes(raw, call, env.lib) && !KnownTool(call.name)))
    || exists call: Call :: Makes(raw, call, env.lib) && env.tools(ran, call.name, call.arguments) == ToolFails(error)
  }

  lemma OneCall(env: Env, question: string, st: State, log: seq<Handled>, raw: Fields) returns (h: Handled)
    requires Tallied(env, question, st, log)
    ensures var (next, error) := OnCall(env, st, raw);
      && next.requests == st.requests && next.tokens == st.tokens
      && (error.None? ==>
            && Makes(raw, h.call, env.lib) && Tallied(env, question, next, log + [h])
            && next.conversation == st.conversation + [ToolReply(h.call.id, h.call.name, h.reply)])
      && (error.Some? ==> Breaks(env, |st.outputs|, raw, error.value) && next.outputs == st.outputs)
  {
    hide LogOk, Outputs, Makes, PartsOf, QueryOf, Seeks;
    h := *;
    match PartsOf(raw, env.lib)
    case None =>
      forall call: Call ensures !Makes(raw, call, env.lib) { MakesIff(raw, call, env.lib); }
    case Some(call) =>
      MakesIff(raw, call, env.lib);
      SeeksIs(call, env.lib);
      h := CallOf(env, question, st, log, raw, call);
  }

  lemma CallOf(env: Env, question: string, st: State, log: seq<Handled>, raw: Fields, call: Call) returns (h: Handled)
    requires Tallied(env, question, st, log) && PartsOf(raw, env.lib) == Some(call)
    requires Makes(raw, call, env.lib) && QueryOf(call.arguments, env.lib) == Seeks(call, env.lib)
    ensures var (next, error) := OnCall(env, st, raw);
      && next.requests == st.requests && next.tokens == st.tokens
      && (error.None? ==>
            && h.call == call && Tallied(env, question, next, log + [h])
            && next.conversation == st.conversation + [ToolReply(h.call.id, h.call.name, h.reply)])
      && (error.Some? ==> Breaks(env, |st.outputs|, raw, error.value) && next.outputs == st.outputs)
  {
    hide LogOk, Outputs, Makes, PartsOf, QueryOf, Seeks, Tallied, Rewrites;
    var limits := env.limits;
    TalliedSays(env, question, st, log);
    if st.limit.Some? {
      h := Handled(call, Refused(st.limit.value));
      Refuses(env, question, st, log, call, st.limit.value);
    } else if st.toolCalls >= limits.maxToolCalls {
      h := Handled(call, Refused("tool_calls"));
      Refuses(env, question, st, log, call, "tool_calls");
    } else if call.name !in TOOL_NAMES {
      h := *;
      assert !KnownTool(call.name);
    } else {
      var query := Seeks(call, env.lib);
      if query != "" && query !in st.queryForms && st.rewrites >= limits.maxRewrites {
        h := Handled(call, Refused("rewrites"));
        Refuses(env, question, st, log, call, "rewrites");
      } else {
        match env.tools(st.toolCalls, call.name, call.arguments)
        case ToolFails(error) => h := *;
        case ToolReturns(output) =>
          h := Handled(call, Result(output));
          Runs(env, question, st, log, call, output);
      }
    }
  }

  /** What the tally says where the limit stands. */
  lemma TalliedSays(env: Env, question: string, st: State, log: seq<Handled>)
    requires Tallied(env, question, st, log)
    ensures LogOk(env, question, log) && st.toolCalls == |st.outputs|
    ensures st.limit.None? ==> AllRan(log)
    ensures AllRan(log) ==>
      && st.toolCalls == |log| && st.rewrites == |Rewrites(env, question, log)|
      && st.queryForms == {env.lib.normalize(question)} + Rewrites(env, question, log)
    ensures st.limit.Some? && AllRan(log) ==> st.limit == Some("tool_calls") && |log| >= env.limits.maxToolCalls
    ensures forall h <- log :: h.reply.Refused? ==> st.limit == Some(h.reply.limit)
  {
    hide LogOk, Outputs, Rewrites;
  }
}
