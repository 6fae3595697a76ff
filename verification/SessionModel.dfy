/** Session documents, their messages, and the changes that the locked session operations make to them. */
module SessionModel {
  import opened Common
  import AK = ActorKey

  datatype Json =
    | JNull | JBool(flag: bool) | JNum(n: int) | JStr(text: string) | JArr(items: seq<Json>)
    | JObj(fields: map<string, Json>)

  type Metadata = map<string, Json>

  /** The JSON parser and printer of serde_json, as arbitrary functions. */
  datatype Codec = Codec(parse: string -> Option<Json>, show: Json -> string)

  datatype Part = Part(kind: string, text: Option<string>, id: Option<string>, name: Option<string>,
                       args: Option<Json>, result: Option<Json>, metadata: Option<Metadata>)

  datatype Message = Message(
    role: string, content: seq<Part>, status: Option<string>, timestamp: string, metadata: Option<Metadata>)

  datatype Summary = Summary(content: string, updatedAt: string)

  datatype Kind = Direct | Group

  datatype Identity = Identity(channel: string, kind: Kind, userId: Option<string>, scope: Option<string>)

  datatype Session = Session(
    version: nat, id: string, actor: Option<AK.Actor>, identity: Option<Identity>, createdAt: string, updatedAt: string,
    messages: seq<Message>, metadata: Metadata, frozenTime: string, summary: Option<Summary>)

  const VERSION := 4

  // ----- ids and files -----

  type Id = string

  /** What may follow the one normal component of a path: separators, and "." components, which paths drop. */
  predicate OnlyDots(rest: string) {
    rest == "" || (rest[0] == '/' && (OnlyDots(rest[1..]) || (|rest| > 1 && rest[1] == '.' && OnlyDots(rest[2..]))))
  }

  function FirstComponent(s: string): string {
    if s == "" || s[0] == '/' then "" else [s[0]] + FirstComponent(s[1..])
  }

  /** `validate_storage_component`: the file stem for an id, when its trimmed form is a single normal path component. */
  function Path(id: Id): Option<Id> {
    var trimmed := Trim(id);
    var first := FirstComponent(trimmed);
    if first == "" || first == "." || first == ".." || |first| > |trimmed| || !OnlyDots(trimmed[|first|..]) then None
    else Some(first)
  }

  ghost predicate NamesMatch(docs: map<Id, Session>) {
    forall p :: p in docs ==> docs[p].id == p
  }

  // ----- text to message and back -----

  function StringAt(metadata: Option<Metadata>, key: string): Option<string> {
    if metadata.Some? && key in metadata.value && metadata.value[key].JStr? then Some(metadata.value[key].text)
    else None
  }

  function Field(v: Json, key: string): Option<Json> {
    if v.JObj? && key in v.fields then Some(v.fields[key]) else None
  }

  function AsString(v: Option<Json>): Option<string> {
    if v.Some? && v.value.JStr? then Some(v.value.text) else None
  }

  function ParseOrString(codec: Codec, input: string): Json {
    var trimmed := Trim(input);
    if trimmed == "" then JStr("")
    else match codec.parse(trimmed) case Some(v) => v case None => JStr(trimmed)
  }

  function TextPart(kind: string, text: string, metadata: Option<Metadata>): seq<Part> {
    var trimmed := Trim(text);
    if trimmed == "" then [] else [Part(kind, Some(trimmed), None, None, None, None, metadata)]
  }

  function ToolCalls(metadata: Option<Metadata>): seq<Json> {
    if metadata.Some? && "assistant.tool_calls" in metadata.value && metadata.value["assistant.tool_calls"].JArr?
    then metadata.value["assistant.tool_calls"].items else []
  }

  function ToolCallPart(codec: Codec, call: Json): Part {
    var f := Field(call, "function");
    var arguments := if f.Some? then Field(f.value, "arguments") else None;
    Part("tool_call", None, AsString(Field(call, "id")), if f.Some? then AsString(Field(f.value, "name")) else None,
         if arguments.None? then None
         else if arguments.value.JStr? then Some(ParseOrString(codec, arguments.value.text)) else arguments,
         None, None)
  }

  function PartsFromText(codec: Codec, role: string, content: string, metadata: Option<Metadata>): seq<Part> {
    if role == "assistant" then
      var list := ToolCalls(metadata);
      var calls := seq(|list|, i requires 0 <= i < |list| => ToolCallPart(codec, list[i]));
      calls + TextPart(if calls == [] then "text" else "final", content, metadata)
    else if role == "tool" then
      [Part("tool_result", None, StringAt(metadata, "tool_call_id"), StringAt(metadata, "tool_name"), None,
            Some(ParseOrString(codec, content)), metadata)]
    else TextPart("text", content, metadata)
  }

  function MessageFromText(codec: Codec, role: string, content: string, timestamp: string,
                           metadata: Option<Metadata>): Message {
    Message(role, PartsFromText(codec, role, content, metadata), Some("completed"), timestamp, metadata)
  }

  function FirstOutput(fields: Metadata, keys: seq<string>): Option<string> {
    if keys == [] then None
    else if keys[0] in fields && fields[keys[0]].JStr? && Trim(fields[keys[0]].text) != "" then
      Some(fields[keys[0]].text)
    else FirstOutput(fields, keys[1..])
  }

  /** The text of a tool's result: a string itself, a known output field of an object, or else its JSON. */
  function ResultText(codec: Codec, result: Json): string {
    match result
    case JStr(text) => text
    case JObj(fields) =>
      (match FirstOutput(fields, ["formatted_output", "aggregated_output", "stdout", "text"])
       case Some(text) => text
       case None => codec.show(result))
    case _ => codec.show(result)
  }

  function ToolResultText(codec: Codec, part: Part): string {
    if part.result.Some? then ResultText(codec, part.result.value) else ""
  }

  /** The non-blank texts of the parts, trimmed, one per line. */
  function JoinedText(parts: seq<Part>): string {
    if parts == [] then ""
    else
      var head := if parts[0].text.Some? then Trim(parts[0].text.value) else "";
      var rest := JoinedText(parts[1..]);
      if head == "" then rest else if rest == "" then head else head + "\n" + rest
  }

  function FirstToolResult(codec: Codec, parts: seq<Part>): string {
    if parts == [] then ""
    else if parts[0].kind == "tool_result" then ToolResultText(codec, parts[0])
    else FirstToolResult(codec, parts[1..])
  }

  function MessageText(codec: Codec, m: Message): string {
    var text := JoinedText(m.content);
    if text != "" then text else FirstToolResult(codec, m.content)
  }

  // ----- the locked operations as changes of one document -----

  datatype Mutation =
    | AddMessage(role: string, content: string, metadata: Option<Metadata>, stamp: string, now: string)
    | RemoveLast(role: string, content: string, now: string)
    | EnsurePrompt(frozen: string, now: string)
    | ReplaceMessages(messages: seq<Message>, now: string)
    | ReplaceWithSummary(messages: seq<Message>, summary: Option<Summary>, now: string)
    | Append(messages: seq<Message>, now: string)
    | UpdateMetadata(entries: Metadata, now: string)

  predicate LastMatches(codec: Codec, s: Session, role: string, content: string) {
    && s.messages != []
    && var last := s.messages[|s.messages| - 1];
       last.role == role && Trim(MessageText(codec, last)) == Trim(content)
  }

  /** The document that the operation writes; None when it returns without writing. */
  function Apply(codec: Codec, m: Mutation, s: Session): Option<Session> {
    match m
    case AddMessage(role, content, metadata, stamp, now) =>
      Some(s.(messages := s.messages + [MessageFromText(codec, role, content, stamp, metadata)],
              updatedAt := now, version := VERSION))
    case RemoveLast(role, content, now) =>
      if !LastMatches(codec, s, role, content) then None
      else Some(s.(messages := s.messages[..|s.messages| - 1], updatedAt := now, version := VERSION))
    case EnsurePrompt(frozen, now) =>
      if Trim(s.frozenTime) != "" || frozen == s.frozenTime then None
      else Some(s.(frozenTime := frozen, version := VERSION, updatedAt := now))
    case ReplaceMessages(messages, now) =>
      Some(s.(messages := messages, updatedAt := now, version := VERSION))
    case ReplaceWithSummary(messages, summary, now) =>
      Some(s.(messages := messages, summary := summary, updatedAt := now, version := VERSION))
    case Append(messages, now) =>
      Some(s.(messages := s.messages + messages, updatedAt := now, version := VERSION))
    case UpdateMetadata(entries, now) =>
      Some(s.(metadata := s.metadata + entries, updatedAt := now, version := VERSION))
  }

  /** The document after an operation, written or not. */
  function After(codec: Codec, m: Mutation, s: Session): Session {
    match Apply(codec, m, s) case Some(t) => t case None => s
  }

  function Fold(codec: Codec, s: Session, log: seq<Mutation>): Session {
    if log == [] then s else After(codec, log[|log| - 1], Fold(codec, s, log[..|log| - 1]))
  }

  lemma AfterKeepsId(codec: Codec, m: Mutation, s: Session)
    ensures After(codec, m, s).id == s.id
  {
  }

  lemma FoldSnoc(codec: Codec, s: Session, log: seq<Mutation>, m: Mutation)
    ensures Fold(codec, s, log + [m]) == After(codec, m, Fold(codec, s, log))
  {
    assert (log + [m])[..|log + [m]| - 1] == log;
  }

  // ----- adding and taking back a message -----

  lemma {:induction false} TextlessPrefix(calls: seq<Part>, rest: seq<Part>)
    requires forall p :: p in calls ==> p.text.None?
    ensures JoinedText(calls + rest) == JoinedText(rest)
  {
    if calls == [] {
      assert calls + rest == rest;
    } else {
      assert (calls + rest)[1..] == calls[1..] + rest;
      TextlessPrefix(calls[1..], rest);
    }
  }

  lemma {:induction false} NoToolResult(codec: Codec, parts: seq<Part>)
    requires forall p :: p in parts ==> p.kind != "tool_result"
    ensures FirstToolResult(codec, parts) == ""
  {
    if parts != [] {
      NoToolResult(codec, parts[1..]);
    }
  }

  lemma OneTextPart(kind: string, content: string, metadata: Option<Metadata>)
    ensures JoinedText(TextPart(kind, content, metadata)) == Trim(content)
  {
    TrimIdempotent(content);
    var parts := TextPart(kind, content, metadata);
    if parts != [] {
      assert parts[1..] == [];
    }
  }

  lemma CallPartShape(codec: Codec, call: Json)
    ensures var p := ToolCallPart(codec, call); p.text.None? && p.kind != "tool_result"
  {
  }

  /** Textless parts and then one text part: the text is the trimmed content, blank or not. */
  lemma PartsText(codec: Codec, m: Message, calls: seq<Part>, kind: string, content: string, metadata: Option<Metadata>)
    requires m.content == calls + TextPart(kind, content, metadata) && kind != "tool_result"
    requires forall p :: p in calls ==> p.text.None? && p.kind != "tool_result"
    ensures MessageText(codec, m) == Trim(content)
  {
    TextlessPrefix(calls, TextPart(kind, content, metadata));
    OneTextPart(kind, content, metadata);
    NoToolResult(codec, m.content);
  }

  /** The text of a converted message is the trimmed content, even behind tool-call parts. */
  lemma TextRoundTrip(codec: Codec, role: string, content: string, timestamp: string, metadata: Option<Metadata>)
    requires role != "tool"
    ensures MessageText(codec, MessageFromText(codec, role, content, timestamp, metadata)) == Trim(content)
  {
    var m := MessageFromText(codec, role, content, timestamp, metadata);
    if role == "assistant" {
      var list := ToolCalls(metadata);
      var calls := seq(|list|, i requires 0 <= i < |list| => ToolCallPart(codec, list[i]));
      forall p | p in calls
        ensures p.text.None? && p.kind != "tool_result"
      {
        var i :| 0 <= i < |list| && p == ToolCallPart(codec, list[i]);
        CallPartShape(codec, list[i]);
      }
      PartsText(codec, m, calls, if calls == [] then "text" else "final", content, metadata);
    } else {
      assert m.content == [] + TextPart("text", content, metadata);
      PartsText(codec, m, [], "text", content, metadata);
    }
  }

  /** `add_message` followed by `remove_last_message_if_matches` with the same role and content writes, and restores
      the message list, for every role other than tool. */
  lemma AddThenRemove(codec: Codec, s: Session, role: string, content: string, metadata: Option<Metadata>,
                      stamp: string, now: string, later: string)
    requires role != "tool"
    ensures var added := Apply(codec, AddMessage(role, content, metadata, stamp, now), s).value;
            var removed := Apply(codec, RemoveLast(role, content, later), added);
            removed.Some? && removed.value.messages == s.messages
  {
    TextRoundTrip(codec, role, content, stamp, metadata);
    TrimIdempotent(content);
  }

  /** The content is blank, or no JSON, or JSON whose text is the content again. */
  predicate KeepsItsText(codec: Codec, content: string) {
    var trimmed := Trim(content);
    || trimmed == "" || codec.parse(trimmed).None?
    || Trim(ResultText(codec, codec.parse(trimmed).value)) == trimmed
  }

  lemma ToolMessageText(codec: Codec, content: string, stamp: string, metadata: Option<Metadata>)
    ensures MessageText(codec, MessageFromText(codec, "tool", content, stamp, metadata))
         == ResultText(codec, ParseOrString(codec, content))
  {
    var parts := PartsFromText(codec, "tool", content, metadata);
    assert parts[1..] == [];
    assert JoinedText(parts) == "";
  }

  lemma TextKeptIff(codec: Codec, content: string)
    ensures Trim(ResultText(codec, ParseOrString(codec, content))) == Trim(content) <==> KeepsItsText(codec, content)
  {
    TrimIdempotent(content);
  }

  /** A tool message is taken back again exactly when its content keeps its text, and then the list is restored. */
  lemma ToolMessageTakenBackIff(codec: Codec, s: Session, content: string, metadata: Option<Metadata>,
                                stamp: string, now: string, later: string)
    ensures var added := Apply(codec, AddMessage("tool", content, metadata, stamp, now), s).value;
            var removed := Apply(codec, RemoveLast("tool", content, later), added);
            && (removed.Some? <==> KeepsItsText(codec, content))
            && (removed.Some? ==> removed.value.messages == s.messages)
  {
    ToolMessageText(codec, content, stamp, metadata);
    TextKeptIff(codec, content);
  }

  /** So a JSON string, which loses its quotes, is not taken back. */
  lemma ToolMessageMayStay(codec: Codec, s: Session)
    requires codec.parse("\"a\"") == Some(JStr("a"))
    ensures var added := Apply(codec, AddMessage("tool", "\"a\"", None, "", ""), s).value;
            Apply(codec, RemoveLast("tool", "\"a\"", ""), added) == None
  {
    ToolMessageTakenBackIff(codec, s, "\"a\"", None, "", "", "");
    assert Trim("\"a\"") == "\"a\"" by { var _, _ := TrimIsSlice("\"a\""); }
    assert Trim("a") == "a" by { var _, _ := TrimIsSlice("a"); }
  }

  // ----- appended batches stay together -----

  predicate OnlyAdds(log: seq<Mutation>) {
    forall m :: m in log ==> m.AddMessage? || m.Append? || m.UpdateMetadata? || m.EnsurePrompt?
  }

  lemma {:induction false} AddsKeepPrefix(codec: Codec, s: Session, log: seq<Mutation>)
    requires OnlyAdds(log)
    ensures s.messages <= Fold(codec, s, log).messages
  {
    if log != [] {
      AddsKeepPrefix(codec, s, log[..|log| - 1]);
    }
  }

  lemma {:induction false} FoldConcat(codec: Codec, s: Session, a: seq<Mutation>, b: seq<Mutation>)
    ensures Fold(codec, s, a + b) == Fold(codec, Fold(codec, s, a), b)
  {
    if b == [] {
      assert a + b == a;
    } else {
      assert (a + b)[..|a + b| - 1] == a + b[..|b| - 1];
      FoldConcat(codec, s, a, b[..|b| - 1]);
    }
  }

  /** A batch appended at any point of a history is one contiguous slice of the message list, right behind what was
      there, for as long as the later operations only add. */
  lemma BatchStaysTogether(codec: Codec, s: Session, before: seq<Mutation>, batch: seq<Message>, now: string,
                           later: seq<Mutation>)
    requires OnlyAdds(later)
    ensures var start := |Fold(codec, s, before).messages|;
            var all := Fold(codec, s, before + [Append(batch, now)] + later).messages;
            start + |batch| <= |all| && all[start..start + |batch|] == batch
            && all[..start] == Fold(codec, s, before).messages
  {
    var log := before + [Append(batch, now)];
    assert log[..|log| - 1] == before;
    FoldConcat(codec, s, log, later);
    AddsKeepPrefix(codec, Fold(codec, s, log), later);
    var start := |Fold(codec, s, before).messages|;
    var all := Fold(codec, s, log + later).messages;
    assert Fold(codec, s, log).messages == Fold(codec, s, before).messages + batch;
    assert all[..start + |batch|] == Fold(codec, s, before).messages + batch;
  }
}
