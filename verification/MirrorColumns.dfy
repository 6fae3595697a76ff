/** The columns of the SQLite session index against the documents they are made of. */
module MirrorColumns {
  import opened Common
  import opened SessionModel
  import opened SessionMirror

  /** The text under a key of the metadata, or NULL. */
  predicate IsEntry(metadata: Option<Metadata>, key: string, cell: Option<string>) {
    if metadata.Some? && key in metadata.value && metadata.value[key].JStr? then cell == Some(metadata.value[key].text)
    else cell == None
  }

  /** A message row has the message's own fields and nine texts of its metadata. */
  lemma MessageColumns(m: Message)
    ensures var row := MessageRowOf(m);
            && row.role == m.role && row.content == m.content && row.timestamp == m.timestamp
            && row.metadata == m.metadata
            && IsEntry(m.metadata, "message_id", row.messageId) && IsEntry(m.metadata, "tool_name", row.toolName)
            && IsEntry(m.metadata, "tool_call_id", row.toolCallId) && IsEntry(m.metadata, "channel", row.channel)
            && IsEntry(m.metadata, "open_id", row.openId) && IsEntry(m.metadata, "mobile", row.mobile)
            && IsEntry(m.metadata, "chat_id", row.chatId) && IsEntry(m.metadata, "chat_type", row.chatType)
            && IsEntry(m.metadata, "message_type", row.messageType)
  {
  }

  /** The columns on actor and identity are NULL without them. */
  lemma OwnerColumns(codec: Codec, path: string, s: Session)
    ensures var row := RowOf(codec, path, s);
            && row.sourcePath == path && row.document == s && row.version == s.version && row.createdAt == s.createdAt
            && row.updatedAt == s.updatedAt && row.frozenTime == s.frozenTime
            && (if s.actor.None? then row.actorChannel == row.actorUserId == row.actorScope == None
                else row.actorChannel == Some(s.actor.value.channel) && row.actorUserId == Some(s.actor.value.userId)
                     && row.actorScope == s.actor.value.scope)
            && (if s.identity.None? then
                  row.sessionChannel == row.sessionKind == row.sessionUserId == row.sessionScope == None
                else
                  && row.sessionChannel == Some(s.identity.value.channel)
                  && row.sessionKind == Some(match s.identity.value.kind case Direct => "direct" case Group => "group")
                  && row.sessionUserId == s.identity.value.userId && row.sessionScope == s.identity.value.scope)
  {
  }

  /** The columns on messages are their number, and time, role and preview of the last. */
  lemma MessageSummaryColumns(codec: Codec, path: string, s: Session)
    ensures var row := RowOf(codec, path, s);
            && row.messageCount == |s.messages|
            && (s.messages == [] ==> row.lastAt == row.lastRole == row.lastPreview == None)
            && (s.messages != [] ==>
                  var last := s.messages[|s.messages| - 1];
                  && row.lastAt == Some(last.timestamp) && row.lastRole == Some(last.role)
                  && row.lastPreview == Preview(MessageText(codec, last)))
  {
  }

  // ----- previews -----

  /** The characters that are no white space, in order. */
  function Dense(s: string): string {
    if s == "" then "" else (if IsSpace(s[0]) then "" else [s[0]]) + Dense(s[1..])
  }

  /** White space is single blanks, with text behind each. */
  ghost predicate SingleBlanks(s: string) {
    forall i :: 0 <= i < |s| && IsSpace(s[i]) ==> s[i] == ' ' && i + 1 < |s| && !IsSpace(s[i + 1])
  }

  lemma {:induction false} CollapseMeaning(s: string)
    ensures Dense(Collapse(s)) == Dense(s) && SingleBlanks(Collapse(s))
    ensures s != "" && !IsSpace(s[0]) ==> Collapse(s) != "" && Collapse(s)[0] == s[0]
  {
    if s != "" {
      CollapseMeaning(s[1..]);
      var rest := Collapse(s[1..]);
      if !IsSpace(s[0]) {
        assert ([s[0]] + rest)[1..] == rest;
      } else if |s| > 1 && !IsSpace(s[1]) {
        assert (" " + rest)[1..] == rest;
      }
    }
  }

  lemma {:induction false} GapIsBlank(gap: string, b: string)
    requires gap != "" && (forall i :: 0 <= i < |gap| ==> IsSpace(gap[i])) && b != "" && !IsSpace(b[0])
    ensures Collapse(gap + b) == " " + Collapse(b)
  {
    var all := gap + b;
    assert all[0] == gap[0] && all[1..] == gap[1..] + b;
    if |gap| > 1 {
      assert all[1] == gap[1];
      GapIsBlank(gap[1..], b);
    } else {
      assert gap[1..] + b == b;
    }
  }

  /** What the first character of a text brings. */
  function First(s: string): string
    requires s != ""
  {
    if !IsSpace(s[0]) then [s[0]] else if |s| > 1 && !IsSpace(s[1]) then " " else ""
  }

  lemma FirstThenRest(s: string)
    requires s != ""
    ensures Collapse(s) == First(s) + Collapse(s[1..])
  {
  }

  lemma FirstKept(a: string, rest: string)
    requires a != "" && !IsSpace(a[|a| - 1])
    ensures First(a + rest) == First(a) && (a + rest)[1..] == a[1..] + rest
  {
    assert |a| > 1 ==> (a + rest)[1] == a[1];
  }

  /** White space between two words becomes one blank. */
  lemma {:induction false} GapCollapses(a: string, gap: string, b: string)
    requires a != "" ==> !IsSpace(a[|a| - 1])
    requires gap != "" && (forall i :: 0 <= i < |gap| ==> IsSpace(gap[i])) && b != "" && !IsSpace(b[0])
    ensures Collapse(a + (gap + b)) == Collapse(a) + (" " + Collapse(b))
  {
    if a == "" {
      assert a + (gap + b) == gap + b;
      GapIsBlank(gap, b);
    } else {
      GapCollapses(a[1..], gap, b);
      FirstKept(a, gap + b);
      FirstThenRest(a + (gap + b));
      FirstThenRest(a);
      Assoc(First(a), Collapse(a[1..]), " " + Collapse(b));
    }
  }

  lemma {:induction false} DenseConcat(a: string, b: string)
    ensures Dense(a + b) == Dense(a) + Dense(b)
  {
    if a == "" {
      assert a + b == b;
    } else {
      assert (a + b)[1..] == a[1..] + b;
      DenseConcat(a[1..], b);
    }
  }

  lemma {:induction false} DenseBlank(s: string)
    ensures Dense(s) == "" <==> forall i :: 0 <= i < |s| ==> IsSpace(s[i])
  {
    if s != "" {
      DenseBlank(s[1..]);
      assert forall i :: 0 < i < |s| ==> s[i] == s[1..][i - 1];
    }
  }

  lemma {:induction false} TrimStartDense(s: string)
    ensures Dense(TrimStart(RustSpaces, s)) == Dense(s)
  {
    if s != "" && IsSpace(s[0]) {
      TrimStartDense(s[1..]);
    }
  }

  lemma {:induction false} TrimEndDense(s: string)
    ensures Dense(TrimEnd(RustSpaces, s)) == Dense(s)
  {
    if s != "" && IsSpace(s[|s| - 1]) {
      TrimEndDense(s[..|s| - 1]);
      DenseConcat(s[..|s| - 1], [s[|s| - 1]]);
      assert s == s[..|s| - 1] + [s[|s| - 1]] && [s[|s| - 1]][1..] == "";
    }
  }

  lemma TrimDense(s: string)
    ensures Dense(Trim(s)) == Dense(s)
  {
    TrimStartDense(s);
    TrimEndDense(TrimStart(RustSpaces, s));
  }

  /** The text of a preview: all characters of the content that are no white space, in order, with single blanks between
      words and none outside. */
  ghost predicate IsLine(content: string, text: string) {
    Dense(text) == Dense(content) && SingleBlanks(text) && Trimmed(text)
  }

  lemma SliceOfLine(s: string, lo: nat, hi: nat)
    requires lo <= hi <= |s| && SingleBlanks(s) && Trimmed(s[lo..hi])
    ensures SingleBlanks(s[lo..hi])
  {
    var text := s[lo..hi];
    forall i | 0 <= i < |text| && IsSpace(text[i])
      ensures text[i] == ' ' && i + 1 < |text| && !IsSpace(text[i + 1])
    {
      assert text[i] == s[lo + i];
      assert i + 1 < |text| ==> text[i + 1] == s[lo + i + 1];
    }
  }

  /** A preview is that text, if there is any; of a longer one it shows 159 characters and an ellipsis. */
  lemma PreviewMeaning(content: string) returns (text: string)
    ensures IsLine(content, text)
    ensures Preview(content) == if text == "" then None
                                else if |text| <= 160 then Some(text) else Some(text[..159] + "…")
    ensures text == "" <==> forall i :: 0 <= i < |content| ==> IsSpace(content[i])
  {
    CollapseMeaning(content);
    text := Trim(Collapse(content));
    TrimDense(Collapse(content));
    DenseBlank(content);
    DenseBlank(text);
    var lo, hi := TrimIsSlice(Collapse(content));
    SliceOfLine(Collapse(content), lo, hi);
  }
}
