/** The tool loop of the two CLI agents (gemini and codex): the model answers with text, at most one tool call is read
    from it, and when the iteration limit is reached one last answer is fetched. Model and tools are arbitrary
    oracles. */
module CliLoop {
  import opened AgentContexts
  import opened Common
  import opened SessionModel
  import opened ToolCallTag

  datatype Msg = Msg(role: string, content: string, toolCallId: Option<string>, name: Option<string>)

  /** A tool result kept for the next prompts. */
  datatype Pending = Pending(id: string, name: string, result: string)

  datatype Made = Made(name: string, arguments: Json, result: string, id: string)

  datatype ToolOutcome = ToolOk(result: string) | ToolFailed(error: string)

  datatype Oracle = Oracle(
    codec: Codec, cli: nat -> Result<string, string>, tool: nat -> ToolOutcome, errorJson: string -> string)

  datatype Response = Response(content: string, made: seq<Made>, iterations: nat, success: bool, error: Option<string>)

  // ----- call ids -----

  const ID_PREFIX := "cli_tc_"

  function CallId(iteration: nat, name: string): string {
    ID_PREFIX + (Decimal(iteration) + ("_" + name))
  }

  lemma {:induction false} DecimalIsDigits(n: nat)
    ensures Decimal(n) != "" && forall i :: 0 <= i < |Decimal(n)| ==> '0' <= Decimal(n)[i] <= '9'
  {
    if n >= 10 {
      DecimalIsDigits(n / 10);
    }
  }

  lemma {:induction false} DecimalInjective(m: nat, n: nat)
    requires Decimal(m) == Decimal(n)
    ensures m == n
  {
    DecimalIsDigits(m / 10);
    DecimalIsDigits(n / 10);
    if m >= 10 && n >= 10 {
      assert Decimal(m)[..|Decimal(m)| - 1] == Decimal(m / 10) && Decimal(n)[..|Decimal(n)| - 1] == Decimal(n / 10);
      assert Decimal(m)[|Decimal(m)| - 1] == Decimal(n)[|Decimal(n)| - 1];
      DecimalInjective(m / 10, n / 10);
    } else {
      assert |Decimal(m)| == |Decimal(n)|;
      assert m < 10 && n < 10 && Decimal(m)[0] == Decimal(n)[0];
    }
  }

  lemma {:induction false} DigitsThenMark(a: string, x: string, b: string, y: string)
    requires forall i :: 0 <= i < |a| ==> '0' <= a[i] <= '9'
    requires forall i :: 0 <= i < |b| ==> '0' <= b[i] <= '9'
    requires a + ("_" + x) == b + ("_" + y)
    ensures a == b
  {
    var s, t := a + ("_" + x), b + ("_" + y);
    assert s[0] == (if a == "" then '_' else a[0]) && t[0] == (if b == "" then '_' else b[0]);
    if a != "" {
      assert s[1..] == a[1..] + ("_" + x) && t[1..] == b[1..] + ("_" + y);
      DigitsThenMark(a[1..], x, b[1..], y);
    }
  }

  /** Call ids of different iterations differ, whatever the tool names are, even names with digits and underscores. */
  lemma CallIdsDistinct(i: nat, x: string, j: nat, y: string)
    ensures CallId(i, x) == CallId(j, y) ==> i == j
  {
    if CallId(i, x) == CallId(j, y) {
      assert CallId(i, x)[|ID_PREFIX|..] == Decimal(i) + ("_" + x);
      assert CallId(j, y)[|ID_PREFIX|..] == Decimal(j) + ("_" + y);
      DecimalIsDigits(i);
      DecimalIsDigits(j);
      DigitsThenMark(Decimal(i), x, Decimal(j), y);
      DecimalInjective(i, j);
    }
  }

  // ----- the transcript that the oracle determines; iteration k is the model's call number k - 1 -----

  function CallAt(o: Oracle, k: nat): Option<Call> {
    match o.cli(k) case Err(_) => None case Ok(text) => ParseToolCall(o.codec, text).1
  }

  function VisibleAt(o: Oracle, k: nat): string {
    match o.cli(k) case Err(_) => "" case Ok(text) => ParseToolCall(o.codec, text).0
  }

  function ResultAt(o: Oracle, k: nat): string {
    match o.tool(k) case ToolOk(result) => result case ToolFailed(e) => o.errorJson(e)
  }

  function PendingAt(o: Oracle, k: nat): seq<Pending> {
    match CallAt(o, k)
    case None => []
    case Some(call) => [Pending(CallId(k + 1, call.name), call.name, ResultAt(o, k))]
  }

  function MadeAt(o: Oracle, k: nat): seq<Made> {
    match (CallAt(o, k), o.tool(k))
    case (Some(call), ToolOk(result)) => [Made(call.name, call.arguments, result, CallId(k + 1, call.name))]
    case _ => []
  }

  function Assistant(text: string): Msg {
    Msg("assistant", text, None, None)
  }

  function ToolMessage(p: Pending): Msg {
    Msg("tool", p.result, Some(p.id), Some(p.name))
  }

  /** What round k adds: the visible text if there is any, then the tool's answer. */
  function Block(o: Oracle, k: nat): seq<Msg> {
    match CallAt(o, k)
    case None => []
    case Some(call) =>
      (if VisibleAt(o, k) == "" then [] else [Assistant(VisibleAt(o, k))]) + [ToolMessage(PendingAt(o, k)[0])]
  }

  function Transcript(o: Oracle, n: nat): seq<Msg> {
    if n == 0 then [] else Transcript(o, n - 1) + Block(o, n - 1)
  }

  function Results(o: Oracle, n: nat): seq<Pending> {
    if n == 0 then [] else Results(o, n - 1) + PendingAt(o, n - 1)
  }

  function MadeBy(o: Oracle, n: nat): seq<Made> {
    if n == 0 then [] else MadeBy(o, n - 1) + MadeAt(o, n - 1)
  }

  ghost predicate Rounds(o: Oracle, n: nat) {
    forall k: nat :: k < n ==> CallAt(o, k).Some?
  }

  // ----- the loop -----

  /** A prompt is built from the context and the pending results. */
  datatype Prompt = Prompt(context: seq<Msg>, pending: seq<Pending>)

  ghost predicate PromptsAreRounds(o: Oracle, start: seq<Msg>, prompts: seq<Prompt>) {
    forall k: nat :: k < |prompts| ==> prompts[k] == Prompt(start + Transcript(o, k), Results(o, k))
  }

  lemma OneMorePrompt(o: Oracle, start: seq<Msg>, prompts: seq<Prompt>, p: Prompt)
    requires PromptsAreRounds(o, start, prompts) && p == Prompt(start + Transcript(o, |prompts|), Results(o, |prompts|))
    ensures PromptsAreRounds(o, start, prompts + [p])
  {
  }

  lemma OneMoreRound(o: Oracle, start: seq<Msg>, n: nat)
    ensures start + Transcript(o, n) + Block(o, n) == start + Transcript(o, n + 1)
  {
  }

  datatype CallOutcome =
    Broken(error: string) | Answered(content: string) | Continues(pending: Pending, made: seq<Made>)

  /** Iteration k + 1: one model call, and the tool if the answer calls one. */
  method CallModel(o: Oracle, k: nat, context: AgentContext<Msg>) returns (c: CallOutcome)
    modifies context
    ensures match c
            case Broken(e) => o.cli(k) == Err(e) && context.messages == old(context.messages)
            case Answered(content) =>
              o.cli(k) == Ok(content) && CallAt(o, k).None?
              && context.messages == old(context.messages) + [Assistant(content)]
            case Continues(pending, made) =>
              CallAt(o, k).Some? && [pending] == PendingAt(o, k) && made == MadeAt(o, k)
              && context.messages == old(context.messages) + Block(o, k)
  {
    if o.cli(k).Err? {
      return Broken(o.cli(k).error);
    }
    var content := o.cli(k).value;
    var (visible, call) := ParseToolCall(o.codec, content);
    if call.None? {
      context.Add(Assistant(content));
      return Answered(content);
    }
    if visible != "" {
      context.Add(Assistant(visible));
    }
    var id := CallId(k + 1, call.value.name);
    match o.tool(k)
    case ToolOk(result) =>
      context.Add(ToolMessage(Pending(id, call.value.name, result)));
      return Continues(Pending(id, call.value.name, result), [Made(call.value.name, call.value.arguments, result, id)]);
    case ToolFailed(e) =>
      context.Add(ToolMessage(Pending(id, call.value.name, o.errorJson(e))));
      return Continues(Pending(id, call.value.name, o.errorJson(e)), []);
  }

  function Final(r: Response): seq<Msg> {
    if r.success then [Assistant(r.content)] else []
  }

  /** How a turn that made n tool rounds ends. At the limit one more answer is fetched and taken as it is. */
  ghost predicate Ends(o: Oracle, limit: nat, n: nat, r: Response) {
    && n <= limit && r.iterations == (if n == limit then n else n + 1)
    && (r.success ==> o.cli(n) == Ok(r.content) && r.error == None && (n < limit ==> CallAt(o, n).None?))
    && (!r.success ==> r.content == "" && r.error.Some? && o.cli(n) == Err(r.error.value))
  }

  ghost predicate Rested(o: Oracle, n: nat, start: seq<Msg>, now: seq<Msg>, made: seq<Made>, pending: seq<Pending>) {
    Rounds(o, n) && now == start + Transcript(o, n) && made == MadeBy(o, n) && pending == Results(o, n)
  }

  lemma OneMoreRest(o: Oracle, n: nat, start: seq<Msg>, now: seq<Msg>, made: seq<Made>, pending: seq<Pending>)
    requires Rested(o, n, start, now, made, pending) && CallAt(o, n).Some?
    ensures Rested(o, n + 1, start, now + Block(o, n), made + MadeAt(o, n), pending + PendingAt(o, n))
  {
    OneMoreRound(o, start, n);
  }

  /** The rounds under the limit: either the turn ends here, or the limit is reached with all rounds done. */
  method Iterate(o: Oracle, limit: nat, context: AgentContext<Msg>)
    returns (r: Option<Response>, made: seq<Made>, pending: seq<Pending>, ghost prompts: seq<Prompt>, ghost n: nat)
    modifies context
    ensures PromptsAreRounds(o, old(context.messages), prompts) && n <= limit
    ensures r.None? ==> n == |prompts| == limit && Rested(o, n, old(context.messages), context.messages, made, pending)
    ensures r.Some? ==> n < limit && |prompts| == n + 1 && Rounds(o, n) && Ends(o, limit, n, r.value)
    ensures r.Some? ==> r.value.made == MadeBy(o, n)
    ensures r.Some? ==> context.messages == old(context.messages) + Transcript(o, n) + Final(r.value)
  {
    made, pending, prompts, n := [], [], [], 0;
    var iteration := 0;
    while iteration < limit
      invariant n == iteration == |prompts| <= limit
      invariant Rested(o, n, old(context.messages), context.messages, made, pending)
      invariant PromptsAreRounds(o, old(context.messages), prompts)
    {
      iteration := iteration + 1;
      OneMorePrompt(o, old(context.messages), prompts, Prompt(context.messages, pending));
      prompts := prompts + [Prompt(context.messages, pending)];
      ghost var before := context.messages;
      var outcome := CallModel(o, iteration - 1, context);
      match outcome
      case Broken(e) =>
        return Some(Response("", made, iteration, false, Some(e))), made, pending, prompts, n;
      case Answered(content) =>
        return Some(Response(content, made, iteration, true, None)), made, pending, prompts, n;
      case Continues(result, ok) =>
        OneMoreRest(o, n, old(context.messages), before, made, pending);
        made := made + ok;
        pending := pending + [result];
        n := n + 1;
    }
    return None, made, pending, prompts, n;
  }

  /** One agent turn. `prompts` records what each model call is asked, `n` the number of tool rounds: the model is
      called n + 1 times, at most one time more than the limit; the context ends as start, user message, n rounds, and
      on success the final text. */
  method Run(o: Oracle, limit: nat, input: string, context: AgentContext<Msg>)
    returns (r: Response, ghost prompts: seq<Prompt>, ghost n: nat)
    modifies context
    ensures Rounds(o, n) && Ends(o, limit, n, r) && r.made == MadeBy(o, n)
    ensures |prompts| == n + 1 <= limit + 1
    ensures PromptsAreRounds(o, old(context.messages) + [Msg("user", input, None, None)], prompts)
    ensures context.messages == old(context.messages) + [Msg("user", input, None, None)] + Transcript(o, n)
                                  + Final(r)
  {
    context.Add(Msg("user", input, None, None));
    ghost var start := context.messages;
    var ended, made, pending;
    ended, made, pending, prompts, n := Iterate(o, limit, context);
    if ended.Some? {
      return ended.value, prompts, n;
    }
    OneMorePrompt(o, start, prompts, Prompt(context.messages, pending));
    prompts := prompts + [Prompt(context.messages, pending)];
    match o.cli(limit)
    case Err(e) =>
      r := Response("", made, limit, false, Some(e));
    case Ok(content) =>
      context.Add(Assistant(content));
      r := Response(content, made, limit, true, None);
  }

  // ----- properties of the transcript -----

  function ToolMessages(messages: seq<Msg>): seq<Msg> {
    if messages == [] then []
    else (if messages[0].role == "tool" then [messages[0]] else []) + ToolMessages(messages[1..])
  }

  lemma {:induction false} ToolMessagesConcat(a: seq<Msg>, b: seq<Msg>)
    ensures ToolMessages(a + b) == ToolMessages(a) + ToolMessages(b)
  {
    if a == [] {
      assert a + b == b;
    } else {
      var all := a + b;
      assert all[0] == a[0] && all[1..] == a[1..] + b;
      ToolMessagesConcat(a[1..], b);
      var head := if a[0].role == "tool" then [a[0]] else [];
      assert ToolMessages(all) == head + (ToolMessages(a[1..]) + ToolMessages(b));
      assert ToolMessages(a) == head + ToolMessages(a[1..]);
    }
  }

  function AsMessages(results: seq<Pending>): seq<Msg> {
    seq(|results|, i requires 0 <= i < |results| => ToolMessage(results[i]))
  }

  lemma AsMessagesConcat(a: seq<Pending>, b: seq<Pending>)
    ensures AsMessages(a + b) == AsMessages(a) + AsMessages(b)
  {
  }

  lemma BlockTools(o: Oracle, k: nat)
    ensures ToolMessages(Block(o, k)) == AsMessages(PendingAt(o, k))
  {
    if CallAt(o, k).Some? {
      var tool := [ToolMessage(PendingAt(o, k)[0])];
      assert ToolMessages(tool) == tool by { assert tool[1..] == []; }
      if VisibleAt(o, k) != "" {
        ToolMessagesConcat([Assistant(VisibleAt(o, k))], tool);
        assert [Assistant(VisibleAt(o, k))][1..] == [];
      } else {
        assert [] + tool == tool;
      }
    }
  }

  /** The pending results are, in order, exactly the tool messages that the turn added. */
  lemma {:induction false} PendingAreToolMessages(o: Oracle, n: nat)
    ensures ToolMessages(Transcript(o, n)) == AsMessages(Results(o, n))
  {
    if n > 0 {
      PendingAreToolMessages(o, n - 1);
      ToolMessagesConcat(Transcript(o, n - 1), Block(o, n - 1));
      BlockTools(o, n - 1);
      AsMessagesConcat(Results(o, n - 1), PendingAt(o, n - 1));
    }
  }

  lemma {:induction false} ResultOfRound(o: Oracle, n: nat, k: nat)
    requires Rounds(o, n) && k < n
    ensures |Results(o, n)| == n && [Results(o, n)[k]] == PendingAt(o, k)
  {
    assert |PendingAt(o, n - 1)| == 1 by { assert CallAt(o, n - 1).Some?; }
    if k < n - 1 {
      ResultOfRound(o, n - 1, k);
    } else if n > 1 {
      ResultOfRound(o, n - 1, 0);
    }
  }

  /** A turn of n rounds adds n tool messages, and no two of them carry the same id. */
  lemma ToolIdsDistinct(o: Oracle, n: nat, i: nat, j: nat)
    requires Rounds(o, n) && i < j < n
    ensures var tools := ToolMessages(Transcript(o, n));
            |tools| == n && tools[i].toolCallId != tools[j].toolCallId
  {
    PendingAreToolMessages(o, n);
    ResultOfRound(o, n, i);
    ResultOfRound(o, n, j);
    CallIdsDistinct(i + 1, CallAt(o, i).value.name, j + 1, CallAt(o, j).value.name);
    assert PendingAt(o, i)[0].id == CallId(i + 1, CallAt(o, i).value.name);
    assert PendingAt(o, j)[0].id == CallId(j + 1, CallAt(o, j).value.name);
  }

  /** No assistant text that the turn shows next to a tool call contains an opening tag. */
  lemma {:induction false} ShownTextHasNoTag(o: Oracle, n: nat, m: Msg)
    requires Rounds(o, n) && m in Transcript(o, n) && m.role == "assistant"
    ensures m.content != "" && !Occurs(m.content, OPEN)
  {
    if m in Transcript(o, n - 1) {
      ShownTextHasNoTag(o, n - 1, m);
    } else {
      assert m in Block(o, n - 1);
      ParsedCallIsFramed(o.codec, o.cli(n - 1).value);
    }
  }
}
