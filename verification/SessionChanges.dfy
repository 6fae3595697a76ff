/** What a whole sequence of locked operations leaves in a session document, field by field, read off the operations. */
module SessionChanges {
  import opened Common
  import opened SessionModel

  // ----- when an operation writes, and what it stamps -----

  function NowOf(m: Mutation): string {
    match m
    case AddMessage(_, _, _, _, now) => now
    case RemoveLast(_, _, now) => now
    case EnsurePrompt(_, now) => now
    case ReplaceMessages(_, now) => now
    case ReplaceWithSummary(_, _, now) => now
    case Append(_, now) => now
    case UpdateMetadata(_, now) => now
  }

  /** Only two operations may return without writing: a removal, unless the last message has the role and, apart from
      outer white space, the text; and the prompt state, unless its time is blank and changes. */
  lemma WritesIff(codec: Codec, m: Mutation, s: Session)
    ensures Apply(codec, m, s).Some? <==>
            match m
            case RemoveLast(role, content, _) =>
              && s.messages != [] && s.messages[|s.messages| - 1].role == role
              && Trim(MessageText(codec, s.messages[|s.messages| - 1])) == Trim(content)
            case EnsurePrompt(frozen, _) => Trim(s.frozenTime) == "" && frozen != s.frozenTime
            case _ => true
  {
  }

  lemma Unfold(codec: Codec, s: Session, log: seq<Mutation>)
    requires log != []
    ensures Fold(codec, s, log) == After(codec, log[|log| - 1], Fold(codec, s, log[..|log| - 1]))
  {
  }

  ghost predicate Writes(codec: Codec, s: Session, log: seq<Mutation>, i: nat) {
    i < |log| && Apply(codec, log[i], Fold(codec, s, log[..i])).Some?
  }

  lemma OneMoreOperation(codec: Codec, s: Session, log: seq<Mutation>, j: nat)
    requires j < |log| - 1
    ensures Writes(codec, s, log, j) == Writes(codec, s, log[..|log| - 1], j)
  {
    assert log[..|log| - 1][..j] == log[..j];
  }

  lemma WriteStamps(codec: Codec, m: Mutation, s: Session)
    ensures if Apply(codec, m, s).Some? then After(codec, m, s).version == 4 && After(codec, m, s).updatedAt == NowOf(m)
            else After(codec, m, s) == s
  {
  }

  /** When no operation wrote, the document is the old one. */
  lemma {:induction false} NoWriteNoChange(codec: Codec, s: Session, log: seq<Mutation>)
    requires forall j: nat :: !Writes(codec, s, log, j)
    ensures Fold(codec, s, log) == s
  {
    if log != [] {
      var n := |log| - 1;
      forall j: nat
        ensures !Writes(codec, s, log[..n], j)
      {
        if j < n {
          OneMoreOperation(codec, s, log, j);
        }
      }
      NoWriteNoChange(codec, s, log[..n]);
      Unfold(codec, s, log);
      assert !Writes(codec, s, log, n);
    }
  }

  /** Version and update time are those of the last operation that wrote. */
  lemma LastWriteStamps(codec: Codec, s: Session, before: seq<Mutation>, m: Mutation, later: seq<Mutation>)
    requires Apply(codec, m, Fold(codec, s, before)).Some?
    requires forall j: nat :: !Writes(codec, Fold(codec, s, before + [m]), later, j)
    ensures var t := Fold(codec, s, before + [m] + later); t.version == 4 && t.updatedAt == NowOf(m)
  {
    FoldSnoc(codec, s, before, m);
    WriteStamps(codec, m, Fold(codec, s, before));
    FoldConcat(codec, s, before + [m], later);
    NoWriteNoChange(codec, Fold(codec, s, before + [m]), later);
  }

  // ----- fields -----

  /** Id, actor, identity and creation time never change. */
  lemma {:induction false} IdentityKept(codec: Codec, s: Session, log: seq<Mutation>)
    ensures var t := Fold(codec, s, log);
            t.id == s.id && t.actor == s.actor && t.identity == s.identity && t.createdAt == s.createdAt
  {
    if log != [] {
      IdentityKept(codec, s, log[..|log| - 1]);
    }
  }

  /** The summary that the last replacement with a summary brought. */
  function SummaryTold(base: Option<Summary>, log: seq<Mutation>): Option<Summary> {
    if log == [] then base
    else match log[|log| - 1]
         case ReplaceWithSummary(_, summary, _) => summary
         case _ => SummaryTold(base, log[..|log| - 1])
  }

  /** The value that the last update with this key brought. */
  function EntryTold(base: Option<Json>, log: seq<Mutation>, key: string): Option<Json> {
    if log == [] then base
    else match log[|log| - 1]
         case UpdateMetadata(entries, _) =>
           if key in entries then Some(entries[key]) else EntryTold(base, log[..|log| - 1], key)
         case _ => EntryTold(base, log[..|log| - 1], key)
  }

  function EntryOf(metadata: Metadata, key: string): Option<Json> {
    if key in metadata then Some(metadata[key]) else None
  }

  lemma {:induction false} SummaryIsLast(codec: Codec, s: Session, log: seq<Mutation>)
    ensures Fold(codec, s, log).summary == SummaryTold(s.summary, log)
  {
    if log != [] {
      SummaryIsLast(codec, s, log[..|log| - 1]);
    }
  }

  lemma {:induction false} EntryIsLast(codec: Codec, s: Session, log: seq<Mutation>, key: string)
    ensures EntryOf(Fold(codec, s, log).metadata, key) == EntryTold(EntryOf(s.metadata, key), log, key)
  {
    if log != [] {
      EntryIsLast(codec, s, log[..|log| - 1], key);
    }
  }

  ghost predicate NoPrompt(log: seq<Mutation>) {
    forall m :: m in log ==> !m.EnsurePrompt?
  }

  lemma {:induction false} FrozenKept(codec: Codec, s: Session, log: seq<Mutation>)
    requires NoPrompt(log) || Trim(s.frozenTime) != ""
    ensures Fold(codec, s, log).frozenTime == s.frozenTime
  {
    if log != [] {
      FrozenKept(codec, s, log[..|log| - 1]);
    }
  }

  /** The frozen time is the first that is not blank, and then stays whatever is called later. */
  lemma FrozenIsFirst(codec: Codec, s: Session, before: seq<Mutation>, frozen: string, now: string,
                      later: seq<Mutation>)
    requires Trim(Fold(codec, s, before).frozenTime) == "" && Trim(frozen) != ""
    ensures Fold(codec, s, before + [EnsurePrompt(frozen, now)] + later).frozenTime == frozen
  {
    var log := before + [EnsurePrompt(frozen, now)];
    FoldSnoc(codec, s, before, EnsurePrompt(frozen, now));
    FoldConcat(codec, s, log, later);
    FrozenKept(codec, Fold(codec, s, log), later);
  }

  // ----- messages -----

  /** What an operation that only adds brings. */
  function Brought(codec: Codec, m: Mutation): seq<Message> {
    match m
    case AddMessage(role, content, metadata, stamp, _) =>
      [Message(role, PartsFromText(codec, role, content, metadata), Some("completed"), stamp, metadata)]
    case Append(messages, _) => messages
    case _ => []
  }

  function Added(codec: Codec, log: seq<Mutation>): seq<Message> {
    if log == [] then [] else Added(codec, log[..|log| - 1]) + Brought(codec, log[|log| - 1])
  }

  /** Operations that only add put their messages behind the old ones, in order, and leave these as they are. */
  lemma {:induction false} MessagesAreAdded(codec: Codec, s: Session, log: seq<Mutation>)
    requires OnlyAdds(log)
    ensures Fold(codec, s, log).messages == s.messages + Added(codec, log)
  {
    if log != [] {
      MessagesAreAdded(codec, s, log[..|log| - 1]);
      Unfold(codec, s, log);
    }
  }

  lemma Replaced(codec: Codec, s: Session, m: Mutation)
    requires m.ReplaceMessages? || m.ReplaceWithSummary?
    ensures After(codec, m, s).messages == m.messages
  {
  }

  /** After a replacement of the messages, whatever came before, there are the new ones and those added since. */
  lemma MessagesAreReplaced(codec: Codec, s: Session, before: seq<Mutation>, m: Mutation, later: seq<Mutation>)
    requires (m.ReplaceMessages? || m.ReplaceWithSummary?) && OnlyAdds(later)
    ensures Fold(codec, s, before + [m] + later).messages == m.messages + Added(codec, later)
  {
    FoldSnoc(codec, s, before, m);
    Replaced(codec, Fold(codec, s, before), m);
    FoldConcat(codec, s, before + [m], later);
    MessagesAreAdded(codec, Fold(codec, s, before + [m]), later);
  }

  /** A removal takes the last message or none. */
  lemma RemovalTakesLast(codec: Codec, s: Session, role: string, content: string, now: string)
    ensures var t := After(codec, RemoveLast(role, content, now), s);
            if Apply(codec, RemoveLast(role, content, now), s).Some?
            then s.messages != [] && t.messages == s.messages[..|s.messages| - 1]
            else t == s
  {
  }

  // ----- what a text becomes -----

  /** A blank text has no part; another is one part with the trimmed text. */
  ghost predicate IsTextPart(parts: seq<Part>, kind: string, content: string, metadata: Option<Metadata>) {
    if Trim(content) == "" then parts == []
    else parts == [Part(kind, Some(Trim(content)), None, None, None, None, metadata)]
  }

  lemma PlainParts(codec: Codec, role: string, content: string, metadata: Option<Metadata>)
    requires role != "assistant" && role != "tool"
    ensures IsTextPart(PartsFromText(codec, role, content, metadata), "text", content, metadata)
  {
  }

  /** The calls of an assistant message are one part each, in order, in front of its text, which is then final. */
  lemma AssistantParts(codec: Codec, content: string, metadata: Metadata, calls: seq<Json>)
    requires "assistant.tool_calls" in metadata && metadata["assistant.tool_calls"] == JArr(calls)
    ensures var parts := PartsFromText(codec, "assistant", content, Some(metadata));
            && |calls| <= |parts|
            && (forall i :: 0 <= i < |calls| ==> parts[i] == ToolCallPart(codec, calls[i]))
            && IsTextPart(parts[|calls|..], if calls == [] then "text" else "final", content, Some(metadata))
  {
  }

  lemma AssistantWithoutCalls(codec: Codec, content: string, metadata: Option<Metadata>)
    requires metadata.None? || "assistant.tool_calls" !in metadata.value
             || !metadata.value["assistant.tool_calls"].JArr?
    ensures IsTextPart(PartsFromText(codec, "assistant", content, metadata), "text", content, metadata)
  {
    assert [] + TextPart("text", content, metadata) == TextPart("text", content, metadata);
  }

  /** A text as a value: what it parses to, or itself; outer white space does not matter. */
  predicate IsValueOf(codec: Codec, text: string, value: Json) {
    if Trim(text) == "" then value == JStr("")
    else if codec.parse(Trim(text)).Some? then value == codec.parse(Trim(text)).value
    else value == JStr(Trim(text))
  }

  /** The part of a call in the form of the model's API. */
  lemma CallPart(codec: Codec, call: map<string, Json>, f: map<string, Json>)
    requires "function" in call && call["function"] == JObj(f)
    ensures var p := ToolCallPart(codec, JObj(call));
            && p.kind == "tool_call" && p.text == None && p.result == None && p.metadata == None
            && p.id == (if "id" in call && call["id"].JStr? then Some(call["id"].text) else None)
            && p.name == (if "name" in f && f["name"].JStr? then Some(f["name"].text) else None)
            && (p.args.Some? <==> "arguments" in f)
            && ("arguments" in f ==>
                  if f["arguments"].JStr? then IsValueOf(codec, f["arguments"].text, p.args.value)
                  else p.args.value == f["arguments"])
  {
  }

  /** A tool message is one result, with the call's id and the tool's name from the metadata. */
  lemma ToolParts(codec: Codec, content: string, metadata: Metadata)
    ensures var parts := PartsFromText(codec, "tool", content, Some(metadata));
            && |parts| == 1 && parts[0].kind == "tool_result" && parts[0].text == None && parts[0].args == None
            && parts[0].id == (if "tool_call_id" in metadata && metadata["tool_call_id"].JStr?
                               then Some(metadata["tool_call_id"].text) else None)
            && parts[0].name == (if "tool_name" in metadata && metadata["tool_name"].JStr?
                                 then Some(metadata["tool_name"].text) else None)
            && parts[0].result.Some? && IsValueOf(codec, content, parts[0].result.value)
            && parts[0].metadata == Some(metadata)
  {
  }

  // ----- what a message shows -----

  function TextOf(p: Part): string {
    if p.text.Some? then Trim(p.text.value) else ""
  }

  lemma {:induction false} JoinedSnoc(parts: seq<Part>, p: Part)
    ensures JoinedText(parts + [p]) ==
            if TextOf(p) == "" then JoinedText(parts)
            else if JoinedText(parts) == "" then TextOf(p)
            else JoinedText(parts) + "\n" + TextOf(p)
  {
    var all := parts + [p];
    if parts == [] {
      assert all[1..] == [];
    } else {
      assert all[1..] == parts[1..] + [p];
      JoinedSnoc(parts[1..], p);
      var head, rest, text := TextOf(parts[0]), JoinedText(parts[1..]), TextOf(p);
      assert head + "\n" + (rest + "\n" + text) == (head + "\n" + rest) + "\n" + text;
    }
  }

  /** A tool result that is an object is shown as the first of four fields that is a text and not blank, or as JSON. */
  lemma ResultShown(codec: Codec, fields: map<string, Json>, keys: seq<string>, i: nat)
    requires keys == ["formatted_output", "aggregated_output", "stdout", "text"] && i <= 4
    requires forall j :: 0 <= j < i ==>
               keys[j] !in fields || !fields[keys[j]].JStr? || Trim(fields[keys[j]].text) == ""
    requires i < 4 ==> keys[i] in fields && fields[keys[i]].JStr? && Trim(fields[keys[i]].text) != ""
    ensures ResultText(codec, JObj(fields)) == if i < 4 then fields[keys[i]].text else codec.show(JObj(fields))
  {
    FirstOutputAt(fields, keys, i);
  }

  lemma {:induction false} FirstOutputAt(fields: map<string, Json>, keys: seq<string>, i: nat)
    requires i <= |keys|
    requires forall j :: 0 <= j < i ==>
               keys[j] !in fields || !fields[keys[j]].JStr? || Trim(fields[keys[j]].text) == ""
    requires i < |keys| ==> keys[i] in fields && fields[keys[i]].JStr? && Trim(fields[keys[i]].text) != ""
    ensures FirstOutput(fields, keys) == if i < |keys| then Some(fields[keys[i]].text) else None
  {
    if i > 0 {
      FirstOutputAt(fields, keys[1..], i - 1);
    }
  }

  lemma OtherResultsShown(codec: Codec, result: Json)
    ensures result.JStr? ==> ResultText(codec, result) == result.text
    ensures !result.JStr? && !result.JObj? ==> ResultText(codec, result) == codec.show(result)
  {
  }

  /** A message without text shows its first tool result. */
  lemma FirstResultShown(codec: Codec, m: Message, i: nat)
    requires i < |m.content| && m.content[i].kind == "tool_result"
    requires forall j :: 0 <= j < i ==> m.content[j].kind != "tool_result"
    ensures MessageText(codec, m) ==
            if JoinedText(m.content) != "" then JoinedText(m.content)
            else if m.content[i].result.Some? then ResultText(codec, m.content[i].result.value) else ""
  {
    FirstResultAt(codec, m.content, i);
  }

  lemma {:induction false} FirstResultAt(codec: Codec, parts: seq<Part>, i: nat)
    requires i < |parts| && parts[i].kind == "tool_result"
    requires forall j :: 0 <= j < i ==> parts[j].kind != "tool_result"
    ensures FirstToolResult(codec, parts) == ToolResultText(codec, parts[i])
  {
    if i > 0 {
      FirstResultAt(codec, parts[1..], i - 1);
    }
  }

  // ----- ids and file stems -----

  lemma {:induction false} FirstComponentIs(s: string, rest: string)
    requires '/' !in s && (rest == "" || rest[0] == '/')
    ensures FirstComponent(s + rest) == s
  {
    var all := s + rest;
    if s != "" {
      assert all[0] == s[0] && all[1..] == s[1..] + rest;
      FirstComponentIs(s[1..], rest);
      assert s == [s[0]] + s[1..];
    } else {
      assert all == rest;
    }
  }

  /** An id that is one plain name, apart from outer white space, is its own stem; "", "." and ".." are refused. */
  lemma PlainNameIsStem(id: string)
    requires '/' !in Trim(id)
    ensures Path(id) == if Trim(id) == "" || Trim(id) == "." || Trim(id) == ".." then None else Some(Trim(id))
  {
    FirstComponentIs(Trim(id), "");
    assert Trim(id) + "" == Trim(id) && Trim(id)[|Trim(id)|..] == "";
  }

  /** An id with a second name, or with a step up, behind a separator is refused. */
  lemma SecondNameIsRefused(id: string, first: string, second: string)
    requires Trim(id) == first + ("/" + second) && '/' !in first
    requires second != "" && second[0] != '/' && (second[0] != '.' || (|second| > 1 && second[1] != '/'))
    ensures Path(id) == None
  {
    FirstComponentIs(first, "/" + second);
    var rest := "/" + second;
    assert Trim(id)[|first|..] == rest;
    assert rest[1..] == second && rest[2..] == second[1..];
    assert !OnlyDots(second);
    assert second[0] == '.' ==> !OnlyDots(second[1..]);
    assert !OnlyDots(rest);
  }

  /** A separator in front, and nothing else than names, separators and "." behind, is refused or ignored. */
  lemma SeparatorsBehind(id: string, name: string, rest: string)
    requires Trim(id) == name + rest && '/' !in name && name != "" && name != "." && name != ".."
    requires rest == "/" || rest == "/." || rest == "//" || rest == "/./"
    ensures Path(id) == Some(name)
  {
    FirstComponentIs(name, rest);
    assert Trim(id)[|name|..] == rest;
    assert OnlyDots("");
    assert rest[1..] == "" || rest[1..] == "." || rest[1..] == "/" || rest[1..] == "./";
    assert OnlyDots("/") by { assert "/"[1..] == ""; }
    if rest == "/." || rest == "./" {
      assert rest[2..] == "";
    } else if rest == "/./" {
      assert rest[2..] == "/";
    }
  }

  lemma LeadingSeparatorIsRefused(id: string)
    requires Trim(id) != "" && Trim(id)[0] == '/'
    ensures Path(id) == None
  {
  }
}
