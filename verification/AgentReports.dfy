/** The function-calling turn against what the model and the tools answered: every message and every report, told from
    the oracles alone. */
module AgentReports {
  import opened Common
  import opened AgentLoop

  /** The tool calls that reply k asks for; a request without tools is a plain chat request. */
  function Asked(o: Oracle, k: nat): seq<ToolCall> {
    match o.llm(k)
    case Err(_) => []
    case Ok(r) => if o.hasTools && r.toolCalls.Some? then r.toolCalls.value else []
  }

  lemma AskedAreCalls(o: Oracle, k: nat)
    ensures CallsAt(o, k) == Asked(o, k) && (CallsTools(o, k) <==> Asked(o, k) != [])
  {
  }

  // ----- reports -----

  predicate Succeeds(o: Oracle, k: nat, calls: seq<ToolCall>, j: nat) {
    j < |calls| && o.parse(calls[j].arguments).Ok? && o.tool(k, j).ToolOk?
  }

  /** The report of the j-th tool call of reply k. */
  predicate Reports(o: Oracle, k: nat, calls: seq<ToolCall>, j: nat, m: Made) {
    && j < |calls| && m.id == calls[j].id && m.name == calls[j].name
    && o.parse(calls[j].arguments) == Ok(m.arguments) && o.tool(k, j) == ToolOk(m.result)
  }

  /** The reports of one reply are those of its successes, one each, in the order of the calls. */
  ghost predicate ReportsOfReply(o: Oracle, k: nat, calls: seq<ToolCall>, made: seq<Made>, at: seq<nat>) {
    && |made| == |at|
    && (forall i :: 0 <= i < |at| ==> Reports(o, k, calls, at[i], made[i]))
    && (forall i, j :: 0 <= i < j < |at| ==> at[i] < at[j])
    && (forall j: nat :: Succeeds(o, k, calls, j) ==> j in at)
  }

  lemma {:induction false} ReplyReported(o: Oracle, k: nat, calls: seq<ToolCall>) returns (at: seq<nat>)
    ensures ReportsOfReply(o, k, calls, MadeIn(o, k, calls), at)
  {
    at := [];
    if calls != [] {
      var last := |calls| - 1;
      at := ReplyReported(o, k, calls[..last]);
      assert forall i :: 0 <= i < |at| ==> at[i] < last;
      forall j: nat | Succeeds(o, k, calls, j) && j < last
        ensures j in at
      {
        assert Succeeds(o, k, calls[..last], j);
      }
      if Succeeds(o, k, calls, last) {
        at := at + [last];
      }
    }
  }

  predicate Earlier(p: (nat, nat), q: (nat, nat)) {
    p.0 < q.0 || (p.0 == q.0 && p.1 < q.1)
  }

  ghost predicate EachReports(o: Oracle, n: nat, made: seq<Made>, at: seq<(nat, nat)>) {
    && |made| == |at|
    && forall i :: 0 <= i < |at| ==> at[i].0 < n && Reports(o, at[i].0, Asked(o, at[i].0), at[i].1, made[i])
  }

  ghost predicate InOrder(at: seq<(nat, nat)>) {
    forall i, j :: 0 <= i < j < |at| ==> Earlier(at[i], at[j])
  }

  ghost predicate CoversAll(o: Oracle, n: nat, at: seq<(nat, nat)>) {
    forall k: nat, j: nat :: k < n && Succeeds(o, k, Asked(o, k), j) ==> (k, j) in at
  }

  /** The reports of n replies are those of all successful calls of these replies, one each, in the order of replies and
      of calls within a reply. */
  ghost predicate ReportsOfTurn(o: Oracle, n: nat, made: seq<Made>, at: seq<(nat, nat)>) {
    EachReports(o, n, made, at) && InOrder(at) && CoversAll(o, n, at)
  }

  function Placed(n: nat, js: seq<nat>): seq<(nat, nat)> {
    seq(|js|, i requires 0 <= i < |js| => (n, js[i]))
  }

  lemma {:induction false} MoreInOrder(n: nat, at: seq<(nat, nat)>, js: seq<nat>)
    requires InOrder(at) && (forall i :: 0 <= i < |at| ==> at[i].0 < n)
    requires forall i, j :: 0 <= i < j < |js| ==> js[i] < js[j]
    ensures InOrder(at + Placed(n, js))
  {
  }

  lemma {:induction false} MoreCovered(o: Oracle, n: nat, at: seq<(nat, nat)>, js: seq<nat>)
    requires CoversAll(o, n, at) && forall j: nat :: Succeeds(o, n, Asked(o, n), j) ==> j in js
    ensures CoversAll(o, n + 1, at + Placed(n, js))
  {
    forall k: nat, j: nat | k < n + 1 && Succeeds(o, k, Asked(o, k), j)
      ensures (k, j) in at + Placed(n, js)
    {
      if k == n {
        var i :| 0 <= i < |js| && js[i] == j;
        assert Placed(n, js)[i] == (k, j);
      } else {
        assert (k, j) in at;
      }
    }
  }

  lemma {:induction false} MoreReported(o: Oracle, n: nat, made: seq<Made>, at: seq<(nat, nat)>, more: seq<Made>,
                                        js: seq<nat>)
    requires EachReports(o, n, made, at) && |more| == |js|
    requires forall i :: 0 <= i < |js| ==> Reports(o, n, Asked(o, n), js[i], more[i])
    ensures EachReports(o, n + 1, made + more, at + Placed(n, js))
  {
    var all, reports := at + Placed(n, js), made + more;
    forall i | 0 <= i < |all|
      ensures all[i].0 < n + 1 && Reports(o, all[i].0, Asked(o, all[i].0), all[i].1, reports[i])
    {
      if i >= |at| {
        assert all[i] == (n, js[i - |at|]) && reports[i] == more[i - |at|];
      } else {
        assert all[i] == at[i] && reports[i] == made[i];
      }
    }
  }

  /** Every successful tool call of every reply is reported exactly once, in order, with its id, name, parsed arguments
      and result, and nothing else is. */
  lemma {:induction false} AllSuccessesReported(o: Oracle, n: nat) returns (at: seq<(nat, nat)>)
    ensures ReportsOfTurn(o, n, MadeBy(o, n), at)
  {
    at := [];
    if n > 0 {
      var before := AllSuccessesReported(o, n - 1);
      AskedAreCalls(o, n - 1);
      var js := ReplyReported(o, n - 1, Asked(o, n - 1));
      MoreReported(o, n - 1, MadeBy(o, n - 1), before, MadeIn(o, n - 1, Asked(o, n - 1)), js);
      MoreInOrder(n - 1, before, js);
      MoreCovered(o, n - 1, before, js);
      at := before + Placed(n - 1, js);
    }
  }

  // ----- messages -----

  /** The text that the model is shown for a tool call: the result, or the error of the parser or of the tool. */
  predicate ShownText(o: Oracle, k: nat, j: nat, call: ToolCall, text: string) {
    if o.parse(call.arguments).Err? then text == o.errorJson(o.parse(call.arguments).error)
    else if o.tool(k, j).ToolFailed? then text == o.errorJson(o.tool(k, j).error)
    else text == o.tool(k, j).result
  }

  /** Reply k and the answers to its calls, as messages from position p on. */
  ghost predicate RoundAt(o: Oracle, k: nat, messages: seq<Msg>, p: nat) {
    && o.llm(k).Ok?
    && var r, calls := o.llm(k).value, Asked(o, k);
       && calls != [] && p + 1 + |calls| <= |messages|
       && messages[p] == Msg("assistant", r.content, Some(calls), None, None, r.reasoning)
       && forall j :: 0 <= j < |calls| ==>
            var m := messages[p + 1 + j];
            && m == Msg("tool", m.content, None, Some(calls[j].id), Some(calls[j].name), None)
            && ShownText(o, k, j, calls[j], m.content)
  }

  lemma BlockIsRound(o: Oracle, k: nat)
    requires CallsTools(o, k)
    ensures RoundAt(o, k, Block(o, k), 0) && |Block(o, k)| == 1 + |Asked(o, k)|
  {
    AskedAreCalls(o, k);
    var calls := Asked(o, k);
    forall j | 0 <= j < |calls|
      ensures Block(o, k)[1 + j] == ToolResult(calls[j], ToolText(o, k, j, calls[j]))
    {
    }
  }

  lemma RoundShifted(o: Oracle, k: nat, before: seq<Msg>, block: seq<Msg>, after: seq<Msg>)
    requires RoundAt(o, k, block, 0)
    ensures RoundAt(o, k, before + block + after, |before|)
  {
    var all := before + block + after;
    assert forall i :: 0 <= i < |block| ==> all[|before| + i] == block[i];
  }

  /** The messages of a turn of n rounds: the reply of each round with its reasoning and its calls, and behind it one
      tool message for each call, with the result or the error; nothing between the rounds. */
  lemma {:induction false} RoundsAreShown(o: Oracle, n: nat) returns (at: seq<nat>)
    requires Rounds(o, n)
    ensures |at| == n + 1 && at[0] == 0 && at[n] == |Transcript(o, n)|
    ensures forall k: nat :: k < n ==> at[k + 1] == at[k] + 1 + |Asked(o, k)| && RoundAt(o, k, Transcript(o, n), at[k])
  {
    at := [0];
    if n > 0 {
      at := RoundsAreShown(o, n - 1);
      var before := Transcript(o, n - 1);
      assert CallsTools(o, n - 1);
      BlockIsRound(o, n - 1);
      RoundShifted(o, n - 1, before, Block(o, n - 1), []);
      assert before + Block(o, n - 1) + [] == Transcript(o, n);
      forall k: nat | k < n - 1
        ensures RoundAt(o, k, Transcript(o, n), at[k])
      {
        RoundKept(o, k, before, Block(o, n - 1), at[k]);
      }
      at := at + [|Transcript(o, n)|];
    }
  }

  lemma RoundKept(o: Oracle, k: nat, before: seq<Msg>, block: seq<Msg>, p: nat)
    requires RoundAt(o, k, before, p)
    ensures RoundAt(o, k, before + block, p)
  {
    var all := before + block;
    assert forall i :: 0 <= i < |before| ==> all[i] == before[i];
  }

  /** How a turn ends, told from the model's answers: the first n replies ask for tools; then there is a reply that does
      not, whose text is the answer and the last message, or an error of the model, or the limit is reached. */
  lemma TurnEndsAsAnswered(o: Oracle, limit: nat, n: nat, r: Response)
    requires Rounds(o, n) && Ends(o, limit, n, r)
    ensures forall k: nat :: k < n ==> Asked(o, k) != []
    ensures !o.hasTools ==> n == 0
    ensures r.success ==>
      && n < limit && o.llm(n).Ok? && Asked(o, n) == [] && r.content == o.llm(n).value.content && r.error == None
      && Final(o, n, true)
      == [Msg("assistant", r.content, None, None, None, if o.hasTools then o.llm(n).value.reasoning else None)]
    ensures !r.success ==>
      && r.content == "" && Final(o, n, false) == []
      && (if n == limit then r.error == Some("max_iterations_exceeded:" + Decimal(limit))
          else o.llm(n).Err? && r.error == Some(o.llm(n).error))
    ensures r.iterations == (if n == limit then n else n + 1) <= limit
  {
    forall k: nat | k < n
      ensures Asked(o, k) != []
    {
      AskedAreCalls(o, k);
    }
    if n > 0 {
      assert Asked(o, 0) != [];
    }
    AskedAreCalls(o, n);
  }
}
