/** The function-calling agent loop. The model and the tools are arbitrary oracles, so every statement here holds
    whatever they answer. */
module AgentLoop {
  import opened AgentContexts
  import opened Common

  datatype ToolCall = ToolCall(id: string, name: string, arguments: string)

  datatype Msg = Msg(role: string, content: string, toolCalls: Option<seq<ToolCall>>, toolCallId: Option<string>,
                     name: Option<string>, reasoning: Option<string>)

  datatype Reply = Reply(content: string, reasoning: Option<string>, toolCalls: Option<seq<ToolCall>>)

  datatype ToolOutcome = ToolOk(result: string) | ToolFailed(error: string)

  /** What the model answers to its k-th call, what the j-th tool call of that answer yields, and how argument texts
      parse. Error texts are turned into the JSON shown to the model. */
  datatype Oracle = Oracle(
    hasTools: bool,
    llm: nat -> Result<Reply, string>,
    tool: (nat, nat) -> ToolOutcome,
    parse: string -> Result<string, string>,
    errorJson: string -> string)

  datatype Made = Made(name: string, arguments: string, result: string, id: string)

  datatype Response = Response(content: string, made: seq<Made>, iterations: nat, success: bool, error: Option<string>)

  /** The error of a turn that reached its limit. */
  function MaxExceeded(limit: nat): string {
    "max_iterations_exceeded:" + Decimal(limit)
  }

  function User(text: string): Msg {
    Msg("user", text, None, None, None, None)
  }

  function Assistant(r: Reply, calls: Option<seq<ToolCall>>): Msg {
    Msg("assistant", r.content, calls, None, None, r.reasoning)
  }

  function ToolResult(call: ToolCall, text: string): Msg {
    Msg("tool", text, None, Some(call.id), Some(call.name), None)
  }

  // ----- the transcript that the oracle determines -----

  /** The reply to call k; the plain chat request, used without tools, never carries tool calls. */
  function ReplyAt(o: Oracle, k: nat): Result<Reply, string> {
    match o.llm(k)
    case Err(e) => Err(e)
    case Ok(r) => Ok(if o.hasTools then r else r.(reasoning := None, toolCalls := None))
  }

  predicate CallsTools(o: Oracle, k: nat) {
    var r := ReplyAt(o, k);
    r.Ok? && r.value.toolCalls.Some? && r.value.toolCalls.value != []
  }

  function CallsAt(o: Oracle, k: nat): seq<ToolCall> {
    if CallsTools(o, k) then ReplyAt(o, k).value.toolCalls.value else []
  }

  /** The text shown to the model for the j-th tool call of reply k. */
  function ToolText(o: Oracle, k: nat, j: nat, call: ToolCall): string {
    match o.parse(call.arguments)
    case Err(e) => o.errorJson(e)
    case Ok(_) => match o.tool(k, j) case ToolOk(result) => result case ToolFailed(e) => o.errorJson(e)
  }

  function Results(o: Oracle, k: nat, calls: seq<ToolCall>): seq<Msg> {
    seq(|calls|, j requires 0 <= j < |calls| => ToolResult(calls[j], ToolText(o, k, j, calls[j])))
  }

  /** The successful executions among the first n tool calls of reply k. */
  function MadeIn(o: Oracle, k: nat, calls: seq<ToolCall>): seq<Made> {
    if calls == [] then []
    else
      var j := |calls| - 1;
      var before := MadeIn(o, k, calls[..j]);
      match (o.parse(calls[j].arguments), o.tool(k, j))
      case (Ok(arguments), ToolOk(result)) => before + [Made(calls[j].name, arguments, result, calls[j].id)]
      case _ => before
  }

  /** One assistant message with its tool calls, then their results. */
  function Block(o: Oracle, k: nat): seq<Msg> {
    if CallsTools(o, k) then [Assistant(ReplyAt(o, k).value, Some(CallsAt(o, k)))] + Results(o, k, CallsAt(o, k))
    else []
  }

  ghost predicate Rounds(o: Oracle, n: nat) {
    forall k: nat :: k < n ==> CallsTools(o, k)
  }

  /** The first n rounds. */
  function Transcript(o: Oracle, n: nat): seq<Msg> {
    if n == 0 then [] else Transcript(o, n - 1) + Block(o, n - 1)
  }

  function MadeBy(o: Oracle, n: nat): seq<Made> {
    if n == 0 then [] else MadeBy(o, n - 1) + MadeIn(o, n - 1, CallsAt(o, n - 1))
  }

  // ----- the loop -----

  /** Execute the tool calls of one reply, one after another. */
  method RunTools(o: Oracle, k: nat, calls: seq<ToolCall>, context: AgentContext<Msg>) returns (made: seq<Made>)
    modifies context
    ensures context.messages == old(context.messages) + Results(o, k, calls)
    ensures made == MadeIn(o, k, calls)
  {
    made := [];
    for j := 0 to |calls|
      invariant context.messages == old(context.messages) + Results(o, k, calls)[..j]
      invariant made == MadeIn(o, k, calls[..j])
    {
      assert calls[..j + 1][..j] == calls[..j];
      match o.parse(calls[j].arguments)
      case Ok(arguments) =>
        match o.tool(k, j) {
          case ToolOk(result) =>
            made := made + [Made(calls[j].name, arguments, result, calls[j].id)];
            context.Add(ToolResult(calls[j], result));
          case ToolFailed(e) =>
            context.Add(ToolResult(calls[j], o.errorJson(e)));
        }
      case Err(e) =>
        context.Add(ToolResult(calls[j], o.errorJson(e)));
    }
    assert calls[..|calls|] == calls;
  }

  /** The assistant message of reply k and the results of its tool calls. */
  method ToolRound(o: Oracle, k: nat, context: AgentContext<Msg>) returns (made: seq<Made>)
    requires CallsTools(o, k)
    modifies context
    ensures context.messages == old(context.messages) + Block(o, k) && made == MadeIn(o, k, CallsAt(o, k))
  {
    var reply := ReplyAt(o, k).value;
    context.Add(Assistant(reply, reply.toolCalls));
    made := RunTools(o, k, reply.toolCalls.value, context);
  }

  /** The model's k-th call sees the start context and the rounds before it. */
  ghost predicate SeenAreRounds(o: Oracle, start: seq<Msg>, seen: seq<seq<Msg>>) {
    forall k: nat :: k < |seen| ==> seen[k] == start + Transcript(o, k)
  }

  lemma SeenOneMore(o: Oracle, start: seq<Msg>, seen: seq<seq<Msg>>, context: seq<Msg>)
    requires SeenAreRounds(o, start, seen) && context == start + Transcript(o, |seen|)
    ensures SeenAreRounds(o, start, seen + [context])
  {
    forall k: nat | k < |seen| + 1
      ensures (seen + [context])[k] == start + Transcript(o, k)
    {
      if k < |seen| {
        assert (seen + [context])[k] == seen[k];
      } else {
        assert k == |seen|;
      }
    }
  }

  lemma OneMoreRound(o: Oracle, start: seq<Msg>, n: nat)
    ensures start + Transcript(o, n) + Block(o, n) == start + Transcript(o, n + 1)
  {
  }

  /** The state between rounds: n rounds are done and nothing else. */
  ghost predicate Rested(o: Oracle, n: nat, start: seq<Msg>, now: seq<Msg>, made: seq<Made>) {
    Rounds(o, n) && now == start + Transcript(o, n) && made == MadeBy(o, n)
  }

  lemma OneMoreRest(o: Oracle, n: nat, start: seq<Msg>, now: seq<Msg>, made: seq<Made>)
    requires Rested(o, n, start, now, made) && CallsTools(o, n)
    ensures Rested(o, n + 1, start, now + Block(o, n), made + MadeIn(o, n, CallsAt(o, n)))
  {
    OneMoreRound(o, start, n);
  }

  /** How a turn that made n tool rounds ends. */
  predicate Ends(o: Oracle, limit: nat, n: nat, r: Response) {
    if r.success then
      && r.iterations == n + 1 <= limit && ReplyAt(o, n).Ok? && !CallsTools(o, n)
      && r.content == ReplyAt(o, n).value.content && r.error == None
    else if n == limit then
      r.iterations == n && r.content == "" && r.error == Some(MaxExceeded(limit))
    else
      r.iterations == n + 1 <= limit && r.content == "" && ReplyAt(o, n).Err? && r.error == Some(ReplyAt(o, n).error)
  }

  function Final(o: Oracle, n: nat, success: bool): seq<Msg> {
    if success && ReplyAt(o, n).Ok? then [Assistant(ReplyAt(o, n).value, None)] else []
  }

  datatype CallOutcome = Broken(error: string) | Answered(content: string) | Continues(made: seq<Made>)

  /** The model's call k, with the tool round if it asks for one. */
  method CallModel(o: Oracle, k: nat, context: AgentContext<Msg>) returns (c: CallOutcome)
    modifies context
    ensures match c
            case Broken(e) => ReplyAt(o, k) == Err(e) && context.messages == old(context.messages)
            case Answered(content) =>
              ReplyAt(o, k).Ok? && !CallsTools(o, k) && content == ReplyAt(o, k).value.content
              && context.messages == old(context.messages) + [Assistant(ReplyAt(o, k).value, None)]
            case Continues(made) =>
              CallsTools(o, k) && made == MadeIn(o, k, CallsAt(o, k))
              && context.messages == old(context.messages) + Block(o, k)
  {
    var reply := ReplyAt(o, k);
    if reply.Err? {
      return Broken(reply.error);
    }
    if reply.value.toolCalls.None? || reply.value.toolCalls.value == [] {
      context.Add(Assistant(reply.value, None));
      return Answered(reply.value.content);
    }
    var made := ToolRound(o, k, context);
    return Continues(made);
  }

  /** A whole turn of n tool rounds, from the context `start` to the context `now`. */
  ghost predicate Turn(o: Oracle, limit: nat, start: seq<Msg>, now: seq<Msg>, r: Response,
                       seen: seq<seq<Msg>>, n: nat) {
    && Rounds(o, n) && r.made == MadeBy(o, n) && Ends(o, limit, n, r)
    && |seen| == r.iterations && SeenAreRounds(o, start, seen)
    && now == start + Transcript(o, n) + Final(o, n, r.success)
  }

  lemma TurnAtLimit(o: Oracle, limit: nat, start: seq<Msg>, now: seq<Msg>, made: seq<Made>, seen: seq<seq<Msg>>)
    requires Rested(o, limit, start, now, made) && |seen| == limit && SeenAreRounds(o, start, seen)
    ensures Turn(o, limit, start, now, Response("", made, limit, false, Some(MaxExceeded(limit))), seen, limit)
  {
  }

  lemma TurnBroken(o: Oracle, limit: nat, start: seq<Msg>, now: seq<Msg>, made: seq<Made>,
                   seen: seq<seq<Msg>>, n: nat, e: string)
    requires Rested(o, n, start, now, made) && n < limit && |seen| == n + 1 && SeenAreRounds(o, start, seen)
    requires ReplyAt(o, n) == Err(e)
    ensures Turn(o, limit, start, now, Response("", made, n + 1, false, Some(e)), seen, n)
  {
  }

  lemma TurnAnswered(o: Oracle, limit: nat, start: seq<Msg>, now: seq<Msg>, made: seq<Made>,
                     seen: seq<seq<Msg>>, n: nat)
    requires Rested(o, n, start, now, made) && n < limit && |seen| == n + 1 && SeenAreRounds(o, start, seen)
    requires ReplyAt(o, n).Ok? && !CallsTools(o, n)
    ensures Turn(o, limit, start, now + [Assistant(ReplyAt(o, n).value, None)],
                 Response(ReplyAt(o, n).value.content, made, n + 1, true, None), seen, n)
  {
  }

  /** What holds between rounds: n are done, and each model call saw the rounds before it. */
  ghost predicate Between(o: Oracle, n: nat, start: seq<Msg>, now: seq<Msg>, made: seq<Made>, seen: seq<seq<Msg>>) {
    Rested(o, n, start, now, made) && |seen| == n && SeenAreRounds(o, start, seen)
  }

  /** One pass of the loop: the turn ends here, or one more round is done. */
  method OneCall(o: Oracle, limit: nat, n: nat, context: AgentContext<Msg>, made: seq<Made>,
                 ghost start: seq<Msg>, ghost seen: seq<seq<Msg>>)
    returns (r: Option<Response>, made': seq<Made>, ghost seen': seq<seq<Msg>>)
    requires n < limit && Between(o, n, start, context.messages, made, seen)
    modifies context
    ensures r.Some? ==> Turn(o, limit, start, context.messages, r.value, seen', n)
    ensures r.None? ==> Between(o, n + 1, start, context.messages, made', seen')
  {
    ghost var before := context.messages;
    SeenOneMore(o, start, seen, before);
    seen' := seen + [before];
    made' := made;
    var outcome := CallModel(o, n, context);
    match outcome
    case Broken(e) =>
      TurnBroken(o, limit, start, before, made, seen', n, e);
      r := Some(Response("", made, n + 1, false, Some(e)));
    case Answered(content) =>
      TurnAnswered(o, limit, start, before, made, seen', n);
      r := Some(Response(content, made, n + 1, true, None));
    case Continues(round) =>
      OneMoreRest(o, n, start, before, made);
      made' := made + round;
      r := None;
  }

  method Iterate(o: Oracle, limit: nat, context: AgentContext<Msg>)
    returns (r: Response, ghost seen: seq<seq<Msg>>, ghost n: nat)
    modifies context
    ensures Turn(o, limit, old(context.messages), context.messages, r, seen, n)
  {
    ghost var start := context.messages;
    var made: seq<Made> := [];
    var iterations := 0;
    seen := [];
    NothingYet(o, start);
    while iterations < limit
      invariant iterations <= limit && Between(o, iterations, start, context.messages, made, seen)
    {
      var ended;
      ended, made, seen := OneCall(o, limit, iterations, context, made, start, seen);
      if ended.Some? {
        return ended.value, seen, iterations;
      }
      iterations := iterations + 1;
    }
    TurnAtLimit(o, limit, start, context.messages, made, seen);
    return Response("", made, iterations, false, Some(MaxExceeded(limit))), seen, iterations;
  }

  lemma NothingYet(o: Oracle, start: seq<Msg>)
    ensures Between(o, 0, start, start, [], [])
  {
    assert start + Transcript(o, 0) == start;
  }

  /** One agent turn. `seen` records the context at each model call, `n` the number of tool rounds: the context ends as
      the start context, the user message, n rounds, and on success one final assistant message; the model is called
      `iterations` times, never more than the limit. */
  method Run(o: Oracle, limit: nat, input: string, context: AgentContext<Msg>)
    returns (r: Response, ghost seen: seq<seq<Msg>>, ghost n: nat)
    modifies context
    ensures Rounds(o, n) && r.made == MadeBy(o, n) && Ends(o, limit, n, r)
    ensures var start := old(context.messages) + [Msg("user", input, None, None, None, None)];
            && |seen| == r.iterations && SeenAreRounds(o, start, seen)
            && context.messages == start + Transcript(o, n) + Final(o, n, r.success)
  {
    context.Add(User(input));
    r, seen, n := Iterate(o, limit, context);
  }

  // ----- what such a transcript is good for -----

  predicate Answers(m: Msg, call: ToolCall) {
    m.role == "tool" && m.toolCallId == Some(call.id) && m.name == Some(call.name) && m.toolCalls.None?
  }

  /** A sequence of blocks: an assistant message with n > 0 tool calls, then exactly n tool messages that answer them in
      order. This is the shape that function-calling APIs demand. */
  predicate WellFormed(messages: seq<Msg>) {
    messages == [] ||
    (&& messages[0].role == "assistant" && messages[0].toolCalls.Some?
     && var calls := messages[0].toolCalls.value;
        && 0 < |calls| < |messages|
        && (forall j :: 0 <= j < |calls| ==> Answers(messages[1 + j], calls[j]))
        && WellFormed(messages[1 + |calls|..]))
  }

  lemma {:induction false} WellFormedConcat(a: seq<Msg>, b: seq<Msg>)
    requires WellFormed(a) && WellFormed(b)
    ensures WellFormed(a + b)
  {
    if a == [] {
      assert a + b == b;
    } else {
      var n := 1 + |a[0].toolCalls.value|;
      WellFormedConcat(a[n..], b);
      assert (a + b)[n..] == a[n..] + b;
      assert forall j :: 0 <= j < n ==> (a + b)[j] == a[j];
    }
  }

  lemma AppendWellFormed(o: Oracle, k: nat, before: seq<Msg>) returns (after: seq<Msg>)
    requires WellFormed(before)
    ensures WellFormed(after) && after == before + Block(o, k)
  {
    BlockWellFormed(o, k);
    WellFormedConcat(before, Block(o, k));
    after := before + Block(o, k);
  }

  lemma TranscriptWellFormed(o: Oracle, n: nat)
    ensures WellFormed(Transcript(o, n))
  {
    var messages: seq<Msg> := [];
    for k := 0 to n
      invariant messages == Transcript(o, k) && WellFormed(messages)
    {
      messages := AppendWellFormed(o, k, messages);
    }
  }

  lemma BlockWellFormed(o: Oracle, k: nat)
    ensures WellFormed(Block(o, k))
  {
    if CallsTools(o, k) {
      var block, calls := Block(o, k), CallsAt(o, k);
      assert block[0].toolCalls == Some(calls) && |block| == 1 + |calls|;
      assert forall j :: 0 <= j < |calls| ==> block[1 + j] == ToolResult(calls[j], ToolText(o, k, j, calls[j]));
      assert block[1 + |calls|..] == [];
    }
  }

  lemma {:induction false} TranscriptGrows(o: Oracle, k: nat, n: nat)
    requires k <= n
    ensures Transcript(o, k) <= Transcript(o, n)
  {
    if k < n {
      TranscriptGrows(o, k, n - 1);
    }
  }

  /** Whatever the model and the tools return, what the model sees at each of its calls is the start context and then
      well-formed blocks, and a later call only sees more. */
  lemma ModelSeesWellFormed(o: Oracle, start: seq<Msg>, seen: seq<seq<Msg>>, j: nat, k: nat)
    requires SeenAreRounds(o, start, seen) && j <= k < |seen|
    ensures start <= seen[j] <= seen[k] && WellFormed(seen[k][|start|..])
  {
    TranscriptWellFormed(o, k);
    TranscriptGrows(o, j, k);
    assert seen[k][|start|..] == Transcript(o, k);
  }

  /** The j-th tool call of reply k succeeded, and this is its report. */
  predicate ReportOf(o: Oracle, k: nat, calls: seq<ToolCall>, j: nat, m: Made) {
    && j < |calls| && calls[j].id == m.id && calls[j].name == m.name
    && o.parse(calls[j].arguments) == Ok(m.arguments) && o.tool(k, j) == ToolOk(m.result)
  }

  lemma {:induction false} MadeInReports(o: Oracle, k: nat, calls: seq<ToolCall>, m: Made) returns (j: nat)
    requires m in MadeIn(o, k, calls)
    ensures ReportOf(o, k, calls, j, m)
  {
    var last := |calls| - 1;
    if m in MadeIn(o, k, calls[..last]) {
      j := MadeInReports(o, k, calls[..last], m);
    } else {
      j := last;
    }
  }

  predicate Shows(messages: seq<Msg>, i: nat, m: Made) {
    && i < |messages| && messages[i].role == "tool" && messages[i].toolCallId == Some(m.id)
    && messages[i].name == Some(m.name) && messages[i].content == m.result
  }

  lemma ShownInBlock(o: Oracle, k: nat, m: Made) returns (i: nat)
    requires m in MadeIn(o, k, CallsAt(o, k))
    ensures Shows(Block(o, k), i, m)
  {
    var calls := CallsAt(o, k);
    var j := MadeInReports(o, k, calls, m);
    i := 1 + j;
    assert Block(o, k)[i] == ToolResult(calls[j], m.result);
  }

  lemma ShowsAppended(before: seq<Msg>, block: seq<Msg>, i: nat, m: Made)
    ensures Shows(before, i, m) ==> Shows(before + block, i, m)
    ensures Shows(block, i, m) ==> Shows(before + block, |before| + i, m)
  {
  }

  /** Every reported tool execution really succeeded, and its result is the text of a tool message in the transcript. */
  lemma {:induction false} ReportedCallsAreShown(o: Oracle, n: nat, m: Made) returns (i: nat)
    requires m in MadeBy(o, n)
    ensures Shows(Transcript(o, n), i, m)
  {
    var before := Transcript(o, n - 1);
    if m in MadeBy(o, n - 1) {
      i := ReportedCallsAreShown(o, n - 1, m);
      ShowsAppended(before, Block(o, n - 1), i, m);
    } else {
      var j := ShownInBlock(o, n - 1, m);
      ShowsAppended(before, Block(o, n - 1), j, m);
      i := |before| + j;
    }
  }
}
