/** The byte budget of the gemini prompt, over UTF-8 text. */
module PromptBudget {
  import opened Common
  import opened Utf8

  // ----- cutting text -----

  /** `is_char_boundary`. */
  predicate IsBoundary(b: seq<Byte>, i: nat) {
    i == 0 || i == |b| || (i < |b| && !Continuation(b[i]))
  }

  /** The number of leading characters whose encoding fits into `max` bytes. */
  function Fitting(s: string, max: nat): (k: nat)
    ensures k <= |s|
  {
    if s == "" || |Encode(s[0])| > max then 0 else 1 + Fitting(s[1..], max - |Encode(s[0])|)
  }

  lemma TakeCons(s: string, k: nat)
    requires k < |s|
    ensures s[..k + 1] == [s[0]] + s[1..][..k]
  {
  }

  lemma {:induction false} FittingMeaning(s: string, max: nat)
    ensures var k := Fitting(s, max);
            && |Bytes(s[..k])| <= max && Bytes(s[..k]) <= Bytes(s)
            && (k == |s| || |Bytes(s[..k])| + |Encode(s[k])| > max)
  {
    if s != "" && |Encode(s[0])| <= max {
      var k := Fitting(s[1..], max - |Encode(s[0])|);
      FittingMeaning(s[1..], max - |Encode(s[0])|);
      TakeCons(s, k);
      BytesCons(s[0], s[1..][..k]);
    }
  }

  /** Between the end of the fitting characters and the limit there are only continuation bytes, and at most three. */
  lemma BoundaryBelow(s: string, max: nat)
    requires max < |Bytes(s)|
    ensures var end := |Bytes(s[..Fitting(s, max)])|;
            && end <= max <= end + 3 && IsBoundary(Bytes(s), end)
            && forall i :: end < i <= max ==> !IsBoundary(Bytes(s), i)
  {
    var k := Fitting(s, max);
    FittingMeaning(s, max);
    assert s[..|s|] == s;
    if k < |s| {
      var head, rest := s[..k], s[k..];
      assert s == head + rest;
      BytesConcat(head, rest);
      EncodeShape(s[k]);
      var end := |Bytes(head)|;
      assert rest[0] == s[k];
      assert forall i :: 0 <= i < |Encode(s[k])| ==> Bytes(s)[end + i] == Encode(s[k])[i];
      forall i | end < i <= max
        ensures !IsBoundary(Bytes(s), i)
      {
        assert Bytes(s)[end + (i - end)] == Encode(s[k])[i - end];
      }
      assert Bytes(s)[end + 0] == Encode(s[k])[0];
    }
  }

  const CUT_NOTE := "…[内容过长已截断]"

  /** What truncation to `max` bytes yields: the text itself, or its longest fitting prefix and a note. */
  function Truncated(s: string, max: nat): string {
    if |Bytes(s)| <= max then s else s[..Fitting(s, max)] + CUT_NOTE
  }

  /** `truncate_to_bytes`: step back from the limit to a character boundary. The slice that is kept is the encoding of
      the longest prefix that fits, and the loop steps back at most three times. */
  method TruncateToBytes(s: string, max: nat) returns (r: string, end: nat)
    ensures r == Truncated(s, max)
    ensures |Bytes(s)| > max ==> end <= max <= end + 3 && Bytes(s)[..end] == Bytes(s[..Fitting(s, max)])
  {
    var b := Bytes(s);
    if |b| <= max {
      return s, |b|;
    }
    end := max;
    BoundaryBelow(s, max);
    FittingMeaning(s, max);
    ghost var stop := |Bytes(s[..Fitting(s, max)])|;
    while end > 0 && !IsBoundary(b, end)
      invariant stop <= end <= max
    {
      end := end - 1;
    }
    assert end == stop;
    r := s[..Fitting(s, end)] + CUT_NOTE;
    FittingAtEnd(s, max);
  }

  /** The prefix that fits into `max` bytes is also the one that fits into its own length. */
  lemma {:induction false} FittingAtEnd(s: string, max: nat)
    ensures Fitting(s, |Bytes(s[..Fitting(s, max)])|) == Fitting(s, max)
  {
    if s != "" && |Encode(s[0])| <= max {
      var k := Fitting(s[1..], max - |Encode(s[0])|);
      FittingAtEnd(s[1..], max - |Encode(s[0])|);
      assert s[..k + 1][1..] == s[1..][..k] && s[..k + 1][0] == s[0];
    } else if s != "" {
      EncodeShape(s[0]);
    }
  }

  // ----- the prompt -----

  const MAX_PROMPT_BYTES: nat := 150_000
  const MAX_TOOL_RESULT_BYTES: nat := 6_000

  /** A message with its role in upper case. */
  datatype Msg = Msg(speaker: string, content: string)

  function Line(m: Msg): string {
    m.speaker + ": " + m.content + "\n\n"
  }

  /** The lines of the messages that have content, oldest first. */
  function Lines(messages: seq<Msg>): seq<string> {
    if messages == [] then []
    else
      var last := messages[|messages| - 1];
      Lines(messages[..|messages| - 1]) + (if last.content == "" then [] else [Line(last)])
  }

  function Joined(lines: seq<string>): string {
    if lines == [] then "" else lines[0] + Joined(lines[1..])
  }

  /** The history shown is the newest lines from `from` on: they fit, and one line more would not. */
  ghost predicate LongestRecentRun(lines: seq<string>, budget: nat, from: nat) {
    && from <= |lines|
    && |Bytes(Joined(lines[from..]))| <= budget
    && (from > 0 ==> |Bytes(Joined(lines[from - 1..]))| > budget)
  }

  lemma {:induction false} JoinedConcat(a: seq<string>, b: seq<string>)
    ensures Joined(a + b) == Joined(a) + Joined(b)
  {
    if a == [] {
      assert a + b == b;
    } else {
      assert (a + b)[1..] == a[1..] + b;
      JoinedConcat(a[1..], b);
    }
  }

  lemma JoinedBytes(line: string, rest: seq<string>)
    ensures Joined([line] + rest) == line + Joined(rest)
    ensures |Bytes(Joined([line] + rest))| == |Bytes(line)| + |Bytes(Joined(rest))|
  {
    assert ([line] + rest)[1..] == rest;
    BytesConcat(line, Joined(rest));
  }

  /** The lines split at message i: those before it, its own, and the chosen ones behind it. */
  lemma LinesSplit(messages: seq<Msg>, i: nat, chosen: seq<string>)
    requires i < |messages| && Lines(messages) == Lines(messages[..i + 1]) + chosen
    ensures messages[i].content == "" ==> Lines(messages) == Lines(messages[..i]) + chosen
    ensures messages[i].content != "" ==> Lines(messages) == Lines(messages[..i]) + ([Line(messages[i])] + chosen)
    ensures messages[i].content != "" ==> Lines(messages)[|Lines(messages[..i])|..] == [Line(messages[i])] + chosen
  {
    assert messages[..i + 1][..i] == messages[..i];
  }

  /** The loop over the messages from newest to oldest, which stops at the first line that does not fit. */
  method SelectHistory(messages: seq<Msg>, budget: nat) returns (chosen: seq<string>, ghost from: nat)
    ensures from <= |Lines(messages)| && chosen == Lines(messages)[from..]
    ensures LongestRecentRun(Lines(messages), budget, from)
  {
    var used := 0;
    chosen := [];
    var i := |messages|;
    from := |Lines(messages)|;
    assert messages[..i] == messages;
    while i > 0
      invariant 0 <= i <= |messages| && from == |Lines(messages[..i])|
      invariant Lines(messages) == Lines(messages[..i]) + chosen
      invariant used == |Bytes(Joined(chosen))| <= budget
    {
      i := i - 1;
      LinesSplit(messages, i, chosen);
      if messages[i].content != "" {
        var line := Line(messages[i]);
        JoinedBytes(line, chosen);
        if used + |Bytes(line)| > budget {
          return;
        }
        used := used + |Bytes(line)|;
        chosen := [line] + chosen;
      }
      from := |Lines(messages[..i])|;
    }
  }

  datatype ToolResult = ToolResult(name: string, text: string)

  const RESULTS_HEADER := "### Tool Results ###\n"
  const TAIL_REQUIREMENTS := "### Output Requirements ###\nRespond in Chinese. If you need a tool, "
                             + "output the <tool_call> block as instructed above.\n"

  function ResultLines(results: seq<ToolResult>): string {
    if results == [] then ""
    else ResultLines(results[..|results| - 1]) + "TOOL[" + results[|results| - 1].name + "]: "
         + Truncated(results[|results| - 1].text, MAX_TOOL_RESULT_BYTES) + "\n\n"
  }

  /** Tool results and output requirements. */
  function Tail(results: seq<ToolResult>): string {
    if results == [] then TAIL_REQUIREMENTS else RESULTS_HEADER + ResultLines(results) + TAIL_REQUIREMENTS
  }

  method BuildTail(results: seq<ToolResult>) returns (tail: string)
    ensures tail == Tail(results)
  {
    if results == [] {
      return TAIL_REQUIREMENTS;
    }
    var lines := "";
    for i := 0 to |results|
      invariant lines == ResultLines(results[..i])
    {
      var cut, _ := TruncateToBytes(results[i].text, MAX_TOOL_RESULT_BYTES);
      assert results[..i + 1][..i] == results[..i];
      lines := lines + "TOOL[" + results[i].name + "]: " + cut + "\n\n";
    }
    assert results[..|results|] == results;
    return RESULTS_HEADER + lines + TAIL_REQUIREMENTS;
  }

  function FixedBytes(head: string, results: seq<ToolResult>): nat {
    |Bytes(head)| + |Bytes(Tail(results))|
  }

  function Budget(fixed: nat): nat {
    if fixed <= MAX_PROMPT_BYTES then MAX_PROMPT_BYTES - fixed else 0
  }

  method AppendLines(start: string, lines: seq<string>) returns (text: string)
    ensures text == start + Joined(lines)
  {
    text := start;
    for i := 0 to |lines|
      invariant text == start + Joined(lines[..i])
    {
      assert lines[..i + 1] == lines[..i] + [lines[i]];
      JoinedConcat(lines[..i], [lines[i]]);
      assert Joined([lines[i]]) == lines[i] by { assert [lines[i]][1..] == []; }
      text := text + lines[i];
    }
    assert lines[..|lines|] == lines;
  }

  method Assemble(head: string, chosen: seq<string>, tail: string) returns (prompt: string)
    ensures prompt == head + Joined(chosen) + tail
    ensures |Bytes(prompt)| == |Bytes(head)| + |Bytes(tail)| + |Bytes(Joined(chosen))|
  {
    prompt := AppendLines(head, chosen);
    prompt := prompt + tail;
    BytesConcat(head + Joined(chosen), tail);
    BytesConcat(head, Joined(chosen));
  }

  const SYSTEM_HEADER := "### System Instructions ###\n"
  const TOOLS_HEADER := "### Available Tools ###\n"
  const HISTORY_HEADER := "### Conversation History ###\n"

  /** What the agent brings along: its system prompt, the schema of its tools if it has any, and the protocol text that
      explains tool calls. */
  datatype Setup = Setup(system: string, tools: Option<string>, protocol: string)

  function SystemPart(system: string): string {
    if system == "" then "" else SYSTEM_HEADER + system + "\n\n"
  }

  function ToolsPart(tools: Option<string>, protocol: string): string {
    match tools case None => "" case Some(schema) => TOOLS_HEADER + protocol + schema + "\n\n"
  }

  /** Everything in front of the history. */
  function Head(s: Setup): string {
    SystemPart(s.system) + ToolsPart(s.tools, s.protocol) + HISTORY_HEADER
  }

  method BuildHead(s: Setup) returns (head: string)
    ensures head == Head(s)
  {
    head := "";
    if s.system != "" {
      head := SYSTEM_HEADER + s.system + "\n\n";
    }
    ghost var system := SystemPart(s.system);
    assert head == system;
    match s.tools
    case None =>
      assert system + "" == system;
      head := head + HISTORY_HEADER;
    case Some(schema) =>
      head := head + (TOOLS_HEADER + s.protocol + schema + "\n\n") + HISTORY_HEADER;
  }

  /** `build_prompt`. The prompt shows the longest run of newest non-empty messages that fits, in order, and is never
      longer than the limit or, beyond it, than its fixed parts. */
  method BuildPrompt(s: Setup, messages: seq<Msg>, results: seq<ToolResult>) returns (prompt: string, ghost from: nat)
    ensures LongestRecentRun(Lines(messages), Budget(FixedBytes(Head(s), results)), from)
    ensures prompt == Head(s) + Joined(Lines(messages)[from..]) + Tail(results)
    ensures |Bytes(prompt)| <= MAX_PROMPT_BYTES || |Bytes(prompt)| == FixedBytes(Head(s), results)
  {
    var head := BuildHead(s);
    var tail := BuildTail(results);
    var fixed := |Bytes(head)| + |Bytes(tail)|;
    var chosen;
    chosen, from := SelectHistory(messages, Budget(fixed));
    prompt := Assemble(head, chosen, tail);
    Fits(prompt, Budget(fixed), fixed, |Bytes(Joined(chosen))|);
  }

  lemma Fits(prompt: string, budget: nat, fixed: nat, history: nat)
    requires |Bytes(prompt)| == fixed + history && history <= budget == Budget(fixed)
    ensures |Bytes(prompt)| <= MAX_PROMPT_BYTES || |Bytes(prompt)| == fixed
  {
  }
}
