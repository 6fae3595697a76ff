/** Finding one `<tool_call>` block in the text that a CLI model returned. */
module ToolCallTag {
  import opened Common
  import opened SessionModel

  const OPEN := "<tool_call>"
  const CLOSE := "</tool_call>"

  datatype Call = Call(name: string, arguments: Json, reasoning: Option<string>)

  predicate OccursAt(text: string, tag: string, i: nat) {
    i + |tag| <= |text| && forall j :: 0 <= j < |tag| ==> text[i + j] == tag[j]
  }

  ghost predicate Occurs(text: string, tag: string) {
    exists i: nat :: OccursAt(text, tag, i)
  }

  lemma OccursInRest(text: string, tag: string, lo: nat, i: nat)
    requires lo <= |text|
    ensures OccursAt(text[lo..], tag, i) <==> OccursAt(text, tag, lo + i)
  {
    var rest := text[lo..];
    if OccursAt(rest, tag, i) {
      forall j | 0 <= j < |tag|
        ensures text[lo + i + j] == tag[j]
      {
        assert text[lo + i + j] == rest[i + j];
      }
    }
    if OccursAt(text, tag, lo + i) {
      forall j | 0 <= j < |tag|
        ensures rest[i + j] == tag[j]
      {
        assert text[lo + i + j] == rest[i + j];
      }
    }
  }

  /** `str::find`. */
  function Find(text: string, tag: string): Option<nat> {
    if OccursAt(text, tag, 0) then Some(0)
    else if text == "" then None
    else match Find(text[1..], tag)
         case Some(i) => Some(i + 1)
         case None => None
  }

  /** Find gives the first occurrence, or there is none. */
  lemma {:induction false} FindIsFirst(text: string, tag: string)
    ensures match Find(text, tag)
            case Some(i) => OccursAt(text, tag, i) && forall k: nat :: k < i ==> !OccursAt(text, tag, k)
            case None => !Occurs(text, tag)
  {
    if !OccursAt(text, tag, 0) && text != "" {
      FindIsFirst(text[1..], tag);
      forall k: nat | k > 0
        ensures OccursAt(text, tag, k) <==> OccursAt(text[1..], tag, k - 1)
      {
        OccursInRest(text, tag, 1, k - 1);
      }
    }
  }

  lemma FindDetermined(text: string, tag: string, i: nat)
    requires OccursAt(text, tag, i) && forall k: nat :: k < i ==> !OccursAt(text, tag, k)
    ensures Find(text, tag) == Some(i)
  {
    FindIsFirst(text, tag);
  }

  /** The call that a JSON text names, if it parses and its name is a non-empty string. */
  function NamedCall(codec: Codec, json: string): Option<Call> {
    match codec.parse(json)
    case None => None
    case Some(v) =>
      var name := AsString(Field(v, "name"));
      if name.None? || name.value == "" then None
      else
        var arguments := Field(v, "arguments");
        var given := if arguments.Some? then arguments.value else JObj(map[]);
        Some(Call(name.value, given, AsString(Field(v, "reasoning"))))
  }

  lemma TagShapes()
    ensures forall j :: 0 < j < |OPEN| ==> OPEN[j] != '<'
    ensures forall j :: 0 < j < |CLOSE| ==> CLOSE[j] != '<'
    ensures OPEN[0] == CLOSE[0] == '<' && OPEN[1] != CLOSE[1]
  {
  }

  /** A closing tag behind an opening one starts behind its end: the two cannot overlap. */
  lemma ClosesBehindOpening(text: string, end: nat)
    requires OccursAt(text, OPEN, 0) && OccursAt(text, CLOSE, end)
    ensures |OPEN| <= end
  {
    TagShapes();
    assert text[end + 0] == CLOSE[0] && text[end + 1] == CLOSE[1];
    assert text[0 + 1] == OPEN[1];
    var j := if end < |OPEN| then end else 0;
    assert text[0 + j] == OPEN[j];
  }

  /** What stands between the tags decides: a named call, or no call at all. */
  function ParseBetween(codec: Codec, text: string, start: nat, end: nat): (string, Option<Call>)
    requires |OPEN| <= end && start + end <= |text|
  {
    match NamedCall(codec, text[start + |OPEN|..start + end])
    case Some(call) => (Trim(text[..start]), Some(call))
    case None => (text, None)
  }

  /** `parse_tool_call`: the visible text, and the call if there is one. The slice between the tags is in range. */
  function ParseToolCall(codec: Codec, text: string): (string, Option<Call>) {
    FindIsFirst(text, OPEN);
    match Find(text, OPEN)
    case None => (text, None)
    case Some(start) =>
      FindIsFirst(text[start..], CLOSE);
      OccursInRest(text, OPEN, start, 0);
      match Find(text[start..], CLOSE)
      case None => (text, None)
      case Some(end) =>
        ClosesBehindOpening(text[start..], end);
        ParseBetween(codec, text, start, end)
  }

  /** A tag whose first character does not recur in it is found right behind any text that does not contain it. */
  lemma FoundBehind(before: string, tag: string, rest: string)
    requires tag != "" && (forall j :: 0 < j < |tag| ==> tag[j] != tag[0]) && !Occurs(before, tag)
    ensures Find(before + tag + rest, tag) == Some(|before|)
  {
    var text := before + tag + rest;
    assert OccursAt(text, tag, |before|);
    forall i: nat | i < |before|
      ensures !OccursAt(text, tag, i)
    {
      if i + |tag| <= |before| {
        assert !OccursAt(before, tag, i);
        var j :| 0 <= j < |tag| && before[i + j] != tag[j];
        assert text[i + j] == before[i + j];
      } else {
        var j := |before| - i;
        assert text[i + j] == tag[0];
        assert j < |tag| ==> tag[j] != tag[0];
      }
    }
    FindDetermined(text, tag, |before|);
  }

  lemma NoCloseInOpening(json: string)
    requires !Occurs(json, CLOSE)
    ensures !Occurs(OPEN + json, CLOSE)
  {
    TagShapes();
    var text := OPEN + json;
    forall i: nat
      ensures !OccursAt(text, CLOSE, i)
    {
      if i == 0 {
        assert |text| > 1 && text[i + 1] == OPEN[1];
      } else if i < |OPEN| {
        assert text[i + 0] == OPEN[i];
      } else if i + |CLOSE| <= |text| {
        assert !OccursAt(json, CLOSE, i - |OPEN|);
        var j :| 0 <= j < |CLOSE| && json[i - |OPEN| + j] != CLOSE[j];
        assert text[i + j] == json[i - |OPEN| + j];
      }
    }
  }

  /** Any prefix without the opening tag, then a text without the closing tag between the tags, then anything: the text
      between the tags decides. */
  lemma FrameDecides(codec: Codec, prefix: string, json: string, suffix: string)
    requires !Occurs(prefix, OPEN) && !Occurs(json, CLOSE)
    ensures var text := prefix + OPEN + (json + CLOSE + suffix);
            ParseToolCall(codec, text)
            == if NamedCall(codec, json).Some? then (Trim(prefix), NamedCall(codec, json)) else (text, None)
  {
    TagShapes();
    var rest := json + CLOSE + suffix;
    var text := prefix + OPEN + rest;
    FoundBehind(prefix, OPEN, rest);
    assert text[|prefix|..] == (OPEN + json) + CLOSE + suffix;
    NoCloseInOpening(json);
    FoundBehind(OPEN + json, CLOSE, suffix);
    assert text[|prefix| + |OPEN|..] == rest;
    assert text[|prefix| + |OPEN|..|prefix| + |OPEN + json|] == rest[..|json|] == json;
    assert text[..|prefix|] == prefix;
  }

  /** In such a frame, a JSON object whose "name" is a text that is not empty is parsed: the visible text is the trimmed
      prefix, and the call has that name, the value of "arguments" or else the empty object, and the text of
      "reasoning", if it is one. */
  lemma FramedCallIsParsed(codec: Codec, prefix: string, json: string, suffix: string, fields: map<string, Json>)
    requires !Occurs(prefix, OPEN) && !Occurs(json, CLOSE) && codec.parse(json) == Some(JObj(fields))
    requires "name" in fields && fields["name"].JStr? && fields["name"].text != ""
    ensures var (visible, call) := ParseToolCall(codec, prefix + OPEN + (json + CLOSE + suffix));
            && visible == Trim(prefix) && call.Some? && call.value.name == fields["name"].text
            && call.value.arguments == (if "arguments" in fields then fields["arguments"] else JObj(map[]))
            && call.value.reasoning == (if "reasoning" in fields && fields["reasoning"].JStr?
                                        then Some(fields["reasoning"].text) else None)
  {
    FrameDecides(codec, prefix, json, suffix);
  }

  /** And there is no call, and the whole text stays visible, when the text between the tags does not parse, or is no
      object, or its name is absent, no text, or empty. */
  lemma FramedNonsenseIsText(codec: Codec, prefix: string, json: string, suffix: string)
    requires !Occurs(prefix, OPEN) && !Occurs(json, CLOSE)
    requires codec.parse(json).Some? && codec.parse(json).value.JObj? ==>
      var fields := codec.parse(json).value.fields;
      "name" !in fields || !fields["name"].JStr? || fields["name"].text == ""
    ensures var text := prefix + OPEN + (json + CLOSE + suffix); ParseToolCall(codec, text) == (text, None)
  {
    FrameDecides(codec, prefix, json, suffix);
  }

  lemma NoneInSlice(text: string, tag: string, lo: nat, hi: nat)
    requires lo <= hi <= |text| && forall i: nat :: lo <= i && i + |tag| <= hi ==> !OccursAt(text, tag, i)
    ensures !Occurs(text[lo..hi], tag)
  {
    var slice := text[lo..hi];
    forall i: nat
      ensures !OccursAt(slice, tag, i)
    {
      if i + |tag| <= |slice| {
        assert !OccursAt(text, tag, lo + i);
        var j :| 0 <= j < |tag| && text[lo + i + j] != tag[j];
        assert slice[i + j] == text[lo + i + j];
      }
    }
  }

  lemma NoneInSliceOf(text: string, tag: string, lo: nat, hi: nat)
    requires lo <= hi <= |text| && !Occurs(text, tag)
    ensures !Occurs(text[lo..hi], tag)
  {
    NoneInSlice(text, tag, lo, hi);
  }

  lemma SplitAtTags(text: string, start: nat, end: nat)
    requires OccursAt(text, OPEN, start) && OccursAt(text[start..], CLOSE, end) && |OPEN| <= end
    ensures text == text[..start] + OPEN + (text[start + |OPEN|..start + end] + CLOSE + text[start + end + |CLOSE|..])
  {
    OccursInRest(text, CLOSE, start, end);
    assert text[start..start + |OPEN|] == OPEN;
    assert text[start + end..start + end + |CLOSE|] == CLOSE;
  }

  /** The text is this frame around this JSON, and the JSON names this call. */
  ghost predicate Framed(codec: Codec, text: string, prefix: string, json: string, suffix: string, call: Call) {
    && text == prefix + OPEN + (json + CLOSE + suffix) && !Occurs(prefix, OPEN) && !Occurs(json, CLOSE)
    && NamedCall(codec, json) == Some(call)
  }

  lemma NoneBefore(text: string, tag: string, start: nat)
    requires tag != "" && Find(text, tag) == Some(start)
    ensures start <= |text| && !Occurs(text[..start], tag) && OccursAt(text, tag, start)
  {
    FindIsFirst(text, tag);
    NoneInSlice(text, tag, 0, start);
    assert text[0..start] == text[..start];
  }

  lemma NoneBetween(text: string, tag: string, lo: nat, end: nat)
    requires tag != "" && Find(text, tag) == Some(end) && lo <= end
    ensures end <= |text| && !Occurs(text[lo..end], tag)
  {
    FindIsFirst(text, tag);
    NoneInSlice(text, tag, lo, end);
  }

  lemma ClosesInRest(text: string, start: nat, end: nat)
    requires start <= |text| && OccursAt(text, OPEN, start) && OccursAt(text[start..], CLOSE, end)
    ensures |OPEN| <= end && start + end + |CLOSE| <= |text|
  {
    OccursInRest(text, OPEN, start, 0);
    ClosesBehindOpening(text[start..], end);
  }

  lemma SliceOfRest(text: string, start: nat, lo: nat, end: nat)
    requires start <= |text| && lo <= end && start + end <= |text|
    ensures text[start..][lo..end] == text[start + lo..start + end]
  {
  }

  lemma FrameFound(text: string, start: nat, end: nat)
    requires start <= |text| && Find(text, OPEN) == Some(start) && Find(text[start..], CLOSE) == Some(end)
    ensures |OPEN| <= end && start + end + |CLOSE| <= |text|
    ensures !Occurs(text[..start], OPEN) && !Occurs(text[start + |OPEN|..start + end], CLOSE)
    ensures OccursAt(text, OPEN, start) && OccursAt(text[start..], CLOSE, end)
  {
    NoneBefore(text, OPEN, start);
    NoneBefore(text[start..], CLOSE, end);
    ClosesInRest(text, start, end);
    NoneBetween(text[start..], CLOSE, |OPEN|, end);
    SliceOfRest(text, start, |OPEN|, end);
  }

  lemma ParsedFrom(codec: Codec, text: string)
    requires ParseToolCall(codec, text).1.Some?
    ensures Find(text, OPEN).Some? && Find(text, OPEN).value <= |text|
    ensures Find(text[Find(text, OPEN).value..], CLOSE).Some?
    ensures ParseToolCall(codec, text).0 == Trim(text[..Find(text, OPEN).value])
  {
    FindIsFirst(text, OPEN);
  }

  lemma CallFrom(codec: Codec, text: string, start: nat, end: nat)
    requires start <= |text| && Find(text, OPEN) == Some(start) && Find(text[start..], CLOSE) == Some(end)
    requires |OPEN| <= end && start + end <= |text|
    ensures ParseToolCall(codec, text).1 == NamedCall(codec, text[start + |OPEN|..start + end])
  {
    assert ParseToolCall(codec, text) == ParseBetween(codec, text, start, end);
  }

  lemma TrimShowsNoTag(text: string, tag: string)
    requires !Occurs(text, tag)
    ensures !Occurs(Trim(text), tag)
  {
    var lo, hi := TrimIsSlice(text);
    NoneInSliceOf(text, tag, lo, hi);
  }

  lemma FrameOfCall(codec: Codec, text: string) returns (prefix: string, json: string, suffix: string)
    requires ParseToolCall(codec, text).1.Some?
    ensures Framed(codec, text, prefix, json, suffix, ParseToolCall(codec, text).1.value)
    ensures ParseToolCall(codec, text).0 == Trim(prefix)
  {
    ParsedFrom(codec, text);
    var start := Find(text, OPEN).value;
    var end := Find(text[start..], CLOSE).value;
    FrameFound(text, start, end);
    CallFrom(codec, text, start, end);
    SplitAtTags(text, start, end);
    prefix, json, suffix := text[..start], text[start + |OPEN|..start + end], text[start + end + |CLOSE|..];
  }

  ghost predicate HasFrame(codec: Codec, text: string, visible: string, call: Call) {
    exists prefix, json, suffix :: Framed(codec, text, prefix, json, suffix, call) && visible == Trim(prefix)
  }

  /** Conversely a returned call always comes from such a frame, and the visible text then shows no opening tag; without
      a call the whole text is visible. */
  lemma ParsedCallIsFramed(codec: Codec, text: string)
    ensures var (visible, call) := ParseToolCall(codec, text);
            if call.Some? then HasFrame(codec, text, visible, call.value) && !Occurs(visible, OPEN) else visible == text
  {
    if ParseToolCall(codec, text).1.Some? {
      var prefix, json, suffix := FrameOfCall(codec, text);
      TrimShowsNoTag(prefix, OPEN);
    }
  }
}
