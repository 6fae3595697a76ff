/** The text of a gemini prompt, piece by piece. */
module PromptText {
  import opened Common
  import opened Utf8
  import opened PromptBudget

  /** The lines of the history are those of the messages that have content, one each, in order. */
  ghost predicate LinesOf(messages: seq<Msg>, lines: seq<string>, at: seq<nat>) {
    && |lines| == |at|
    && (forall i :: 0 <= i < |at| ==>
          && at[i] < |messages| && messages[at[i]].content != ""
          && lines[i] == messages[at[i]].speaker + ": " + messages[at[i]].content + "\n\n")
    && (forall i, j :: 0 <= i < j < |at| ==> at[i] < at[j])
    && (forall k: nat :: k < |messages| && messages[k].content != "" ==> k in at)
  }

  lemma {:induction false} OneMoreMessage(before: seq<Msg>, m: Msg, lines: seq<string>, at: seq<nat>)
    requires LinesOf(before, lines, at)
    ensures m.content == "" ==> LinesOf(before + [m], lines, at)
    ensures m.content != "" ==> LinesOf(before + [m], lines + [m.speaker + ": " + m.content + "\n\n"], at + [|before|])
  {
    var all := before + [m];
    assert all[|before|] == m && forall k :: 0 <= k < |before| ==> all[k] == before[k];
  }

  lemma {:induction false} NextMessage(messages: seq<Msg>, n: nat, at: seq<nat>) returns (more: seq<nat>)
    requires n < |messages| && LinesOf(messages[..n], Lines(messages[..n]), at)
    ensures LinesOf(messages[..n + 1], Lines(messages[..n + 1]), more)
  {
    var before, m := messages[..n], messages[n];
    assert messages[..n + 1] == before + [m] && messages[..n + 1][..n] == before;
    OneMoreMessage(before, m, Lines(before), at);
    more := if m.content == "" then at else at + [n];
  }

  lemma {:induction false} HistoryLines(messages: seq<Msg>) returns (at: seq<nat>)
    ensures LinesOf(messages, Lines(messages), at)
  {
    at := [];
    for n := 0 to |messages|
      invariant LinesOf(messages[..n], Lines(messages[..n]), at)
    {
      at := NextMessage(messages, n, at);
    }
    assert messages[..|messages|] == messages;
  }

  /** A text that is too long is cut behind the longest prefix of whole characters that fits, and marked. */
  lemma TruncatedMeaning(s: string, max: nat) returns (k: nat)
    ensures |Bytes(s)| <= max ==> Truncated(s, max) == s
    ensures |Bytes(s)| > max ==>
      && k < |s| && Truncated(s, max) == s[..k] + "…[内容过长已截断]"
      && |Bytes(s[..k])| <= max < |Bytes(s[..k + 1])|
  {
    k := Fitting(s, max);
    FittingMeaning(s, max);
    if |Bytes(s)| > max {
      assert s[..|s|] == s;
      assert s[..k + 1] == s[..k] + [s[k]];
      BytesConcat(s[..k], [s[k]]);
      BytesCons(s[k], "");
      assert [s[k]] + "" == [s[k]];
    }
  }

  function ResultLine(r: ToolResult): string {
    "TOOL[" + r.name + "]: " + Truncated(r.text, 6_000) + "\n\n"
  }

  /** Each tool result is one line with the tool's name and its text, cut to 6000 bytes, in order. */
  lemma {:induction false} ResultsShown(results: seq<ToolResult>)
    ensures ResultLines(results) == Joined(seq(|results|, i requires 0 <= i < |results| => ResultLine(results[i])))
  {
    if results != [] {
      var n := |results| - 1;
      var before, last := results[..n], results[n];
      var lines := seq(n, i requires 0 <= i < n => ResultLine(before[i]));
      ResultsShown(before);
      assert seq(|results|, i requires 0 <= i < |results| => ResultLine(results[i])) == lines + [ResultLine(last)];
      JoinedConcat(lines, [ResultLine(last)]);
      assert [ResultLine(last)][1..] == [];
      LineBuilt(ResultLines(before), last);
    }
  }

  lemma LineBuilt(start: string, r: ToolResult)
    ensures start + "TOOL[" + r.name + "]: " + Truncated(r.text, MAX_TOOL_RESULT_BYTES) + "\n\n"
         == start + ResultLine(r)
  {
    var cut := Truncated(r.text, MAX_TOOL_RESULT_BYTES);
    assert start + "TOOL[" + r.name + "]: " + cut + "\n\n" == start + ("TOOL[" + r.name + "]: " + cut + "\n\n");
  }

  /** In front of the history stand the system prompt, if there is one, and the tools, if there are any; behind it the
      tool results, if there are any, and the output requirements. */
  lemma FixedParts(s: Setup, results: seq<ToolResult>)
    ensures Head(s) ==
            (if s.system == "" then "" else "### System Instructions ###\n" + s.system + "\n\n")
            + (if s.tools.None? then "" else "### Available Tools ###\n" + s.protocol + s.tools.value + "\n\n")
            + "### Conversation History ###\n"
    ensures Tail(results) ==
            (if results == [] then "" else "### Tool Results ###\n" + ResultLines(results)) + TAIL_REQUIREMENTS
  {
  }

  /** The history has what the fixed parts leave of 150000 bytes. */
  lemma BudgetLeft(s: Setup, results: seq<ToolResult>)
    ensures var fixed := |Bytes(Head(s))| + |Bytes(Tail(results))|;
            Budget(FixedBytes(Head(s), results)) == if fixed <= 150_000 then 150_000 - fixed else 0
  {
  }
}
