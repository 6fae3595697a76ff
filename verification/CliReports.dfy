/** The turn of a CLI agent against what the model and the tools answered, told from the oracles alone. */
module CliReports {
  import opened Common
  import opened SessionModel
  import opened ToolCallTag
  import opened CliLoop

  /** What is read from an answer that calls a tool: the visible text and the call, with the id of its iteration. */
  datatype Parsed = Parsed(visible: string, call: Call, id: string)

  predicate ParsedAt(o: Oracle, k: nat, p: Parsed) {
    && o.cli(k).Ok? && ParseToolCall(o.codec, o.cli(k).value) == (p.visible, Some(p.call))
    && p.id == CallId(k + 1, p.call.name)
  }

  /** These are the calls of the first rounds. */
  ghost predicate ParsedRounds(o: Oracle, parsed: seq<Parsed>) {
    forall k: nat :: k < |parsed| ==> ParsedAt(o, k, parsed[k])
  }

  /** All rounds of a turn have such calls. */
  lemma {:induction false} RoundsAreParsed(o: Oracle, n: nat) returns (parsed: seq<Parsed>)
    requires Rounds(o, n)
    ensures |parsed| == n && ParsedRounds(o, parsed)
  {
    parsed := [];
    for k := 0 to n
      invariant |parsed| == k && ParsedRounds(o, parsed)
    {
      assert CallAt(o, k).Some?;
      parsed := parsed + [Parsed(VisibleAt(o, k), CallAt(o, k).value, CallId(k + 1, CallAt(o, k).value.name))];
    }
  }

  // ----- messages -----

  /** The text shown for the tool of round k: its result or its error. */
  predicate ShownText(o: Oracle, k: nat, text: string) {
    if o.tool(k).ToolOk? then text == o.tool(k).result else text == o.errorJson(o.tool(k).error)
  }

  /** Round k as messages: the model's text around the call, if there is any, and the answer of the tool under the id of
      its iteration. */
  predicate IsRound(o: Oracle, k: nat, parsed: Parsed, messages: seq<Msg>) {
    && messages != []
    && var last := messages[|messages| - 1];
       && messages == (if parsed.visible == "" then [] else [Msg("assistant", parsed.visible, None, None)]) + [last]
       && last == Msg("tool", last.content, Some(parsed.id), Some(parsed.call.name))
       && ShownText(o, k, last.content)
  }

  lemma BlockIsRound(o: Oracle, k: nat, parsed: Parsed)
    requires ParsedAt(o, k, parsed)
    ensures IsRound(o, k, parsed, Block(o, k))
  {
    assert CallAt(o, k) == Some(parsed.call) && VisibleAt(o, k) == parsed.visible;
  }

  lemma {:induction false} NextBlock(o: Oracle, parsed: seq<Parsed>, n: nat) returns (block: seq<Msg>)
    requires ParsedRounds(o, parsed) && n < |parsed|
    ensures IsRound(o, n, parsed[n], block) && Transcript(o, n + 1) == Transcript(o, n) + block
  {
    assert ParsedAt(o, n, parsed[n]);
    BlockIsRound(o, n, parsed[n]);
    block := Block(o, n);
  }

  function Concat(blocks: seq<seq<Msg>>): seq<Msg> {
    if blocks == [] then [] else Concat(blocks[..|blocks| - 1]) + blocks[|blocks| - 1]
  }

  ghost predicate AreRounds(o: Oracle, parsed: seq<Parsed>, blocks: seq<seq<Msg>>) {
    |blocks| <= |parsed| && forall k: nat :: k < |blocks| ==> IsRound(o, k, parsed[k], blocks[k])
  }

  lemma {:induction false} OneMoreRound(o: Oracle, parsed: seq<Parsed>, blocks: seq<seq<Msg>>, block: seq<Msg>)
    requires AreRounds(o, parsed, blocks) && |blocks| < |parsed|
    requires IsRound(o, |blocks|, parsed[|blocks|], block)
    ensures AreRounds(o, parsed, blocks + [block]) && Concat(blocks + [block]) == Concat(blocks) + block
  {
    assert (blocks + [block])[..|blocks|] == blocks;
  }

  /** The messages of the rounds are these rounds, one behind the other. */
  lemma {:induction false} RoundsAreShown(o: Oracle, parsed: seq<Parsed>) returns (blocks: seq<seq<Msg>>)
    requires ParsedRounds(o, parsed)
    ensures |blocks| == |parsed| && AreRounds(o, parsed, blocks) && Transcript(o, |parsed|) == Concat(blocks)
  {
    blocks := [];
    for n := 0 to |parsed|
      invariant |blocks| == n && AreRounds(o, parsed, blocks) && Transcript(o, n) == Concat(blocks)
    {
      var block := NextBlock(o, parsed, n);
      OneMoreRound(o, parsed, blocks, block);
      blocks := blocks + [block];
    }
  }

  // ----- reports -----

  predicate IsReport(o: Oracle, k: nat, parsed: Parsed, m: Made) {
    && o.tool(k) == ToolOk(m.result) && m.name == parsed.call.name && m.arguments == parsed.call.arguments
    && m.id == parsed.id
  }

  lemma RoundReported(o: Oracle, k: nat, parsed: Parsed)
    requires ParsedAt(o, k, parsed)
    ensures if o.tool(k).ToolOk? then |MadeAt(o, k)| == 1 && IsReport(o, k, parsed, MadeAt(o, k)[0])
            else MadeAt(o, k) == []
  {
    assert CallAt(o, k) == Some(parsed.call);
  }

  /** Report i is that of round at[i]; these are the rounds whose tool succeeded, in order. */
  ghost predicate ReportsOfRounds(o: Oracle, n: nat, parsed: seq<Parsed>, made: seq<Made>, at: seq<nat>) {
    && n <= |parsed| && |at| == |made|
    && (forall i :: 0 <= i < |at| ==> at[i] < n && IsReport(o, at[i], parsed[at[i]], made[i]))
    && (forall i, j :: 0 <= i < j < |at| ==> at[i] < at[j])
    && (forall k: nat :: k < n && o.tool(k).ToolOk? ==> k in at)
  }

  /** The reports after one more round. */
  ghost predicate Grows(o: Oracle, n: nat, parsed: Parsed, made: seq<Made>, next: seq<Made>) {
    if o.tool(n).ToolOk? then |next| == |made| + 1 && next[..|made|] == made && IsReport(o, n, parsed, next[|made|])
    else next == made
  }

  lemma {:induction false} MadeGrows(o: Oracle, parsed: seq<Parsed>, n: nat)
    requires ParsedRounds(o, parsed) && n < |parsed|
    ensures Grows(o, n, parsed[n], MadeBy(o, n), MadeBy(o, n + 1))
  {
    assert ParsedAt(o, n, parsed[n]);
    RoundReported(o, n, parsed[n]);
  }

  lemma {:induction false} OneMoreReport(o: Oracle, n: nat, parsed: seq<Parsed>, made: seq<Made>, next: seq<Made>,
                                         at: seq<nat>)
    returns (more: seq<nat>)
    requires ReportsOfRounds(o, n, parsed, made, at) && n < |parsed| && Grows(o, n, parsed[n], made, next)
    ensures ReportsOfRounds(o, n + 1, parsed, next, more)
  {
    more := if o.tool(n).ToolOk? then at + [n] else at;
    forall i | 0 <= i < |more|
      ensures more[i] < n + 1 && IsReport(o, more[i], parsed[more[i]], next[i])
    {
      assert i < |at| ==> more[i] == at[i] && next[i] == next[..|made|][i] == made[i];
    }
  }

  /** Every round whose tool succeeded is reported exactly once, in order, and nothing else is. */
  lemma {:induction false} AllSuccessesReported(o: Oracle, parsed: seq<Parsed>) returns (at: seq<nat>)
    requires ParsedRounds(o, parsed)
    ensures ReportsOfRounds(o, |parsed|, parsed, MadeBy(o, |parsed|), at)
  {
    at := [];
    for n := 0 to |parsed|
      invariant ReportsOfRounds(o, n, parsed, MadeBy(o, n), at)
    {
      MadeGrows(o, parsed, n);
      at := OneMoreReport(o, n, parsed, MadeBy(o, n), MadeBy(o, n + 1), at);
    }
  }

  /** How a turn ends: the first n answers call tools, the next one does not or is the one behind the limit, and its
      whole text is the answer. */
  lemma TurnEndsAsAnswered(o: Oracle, limit: nat, n: nat, r: Response)
    requires Rounds(o, n) && Ends(o, limit, n, r)
    ensures forall k: nat :: k < n ==> o.cli(k).Ok? && ParseToolCall(o.codec, o.cli(k).value).1.Some?
    ensures r.success <==> o.cli(n).Ok?
    ensures r.success ==>
      && r.content == o.cli(n).value && Final(r) == [Msg("assistant", o.cli(n).value, None, None)] && r.error == None
      && (n < limit ==> ParseToolCall(o.codec, o.cli(n).value).1.None?)
    ensures !r.success ==> r.content == "" && Final(r) == [] && r.error == Some(o.cli(n).error)
  {
    forall k: nat | k < n
      ensures o.cli(k).Ok? && ParseToolCall(o.codec, o.cli(k).value).1.Some?
    {
      assert CallAt(o, k).Some?;
    }
  }
}
