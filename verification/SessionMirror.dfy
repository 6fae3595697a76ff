/** The SQLite session index: three tables that an upsert rewrites row by row for one session. */
module SessionMirror {
  import opened Common
  import opened SessionModel
  import Timestamps

  // ----- rows -----

  datatype SessionRow = SessionRow(
    sourcePath: string, version: nat,
    actorChannel: Option<string>, actorUserId: Option<string>, actorScope: Option<string>,
    sessionChannel: Option<string>, sessionKind: Option<string>,
    sessionUserId: Option<string>, sessionScope: Option<string>,
    createdAt: string, updatedAt: string, frozenTime: string,
    messageCount: nat, lastAt: Option<string>, lastRole: Option<string>, lastPreview: Option<string>,
    document: Session)

  datatype MessageRow = MessageRow(
    role: string, content: seq<Part>, timestamp: string, metadata: Option<Metadata>,
    messageId: Option<string>, toolName: Option<string>, toolCallId: Option<string>, channel: Option<string>,
    openId: Option<string>, mobile: Option<string>, chatId: Option<string>,
    chatType: Option<string>, messageType: Option<string>)

  datatype Tables = Tables(
    sessions: map<Id, SessionRow>,
    entries: map<(Id, string), Json>,
    messages: map<(Id, nat), MessageRow>)

  /** White space runs become one space. */
  function Collapse(s: string): string {
    if s == "" then ""
    else if !IsSpace(s[0]) then [s[0]] + Collapse(s[1..])
    else if |s| > 1 && !IsSpace(s[1]) then " " + Collapse(s[1..])
    else Collapse(s[1..])
  }

  function Preview(content: string): Option<string> {
    var text := Trim(Collapse(content));
    if text == "" then None else if |text| <= 160 then Some(text) else Some(text[..159] + "…")
  }

  function LastOf(s: Session): Option<Message> {
    if s.messages == [] then None else Some(s.messages[|s.messages| - 1])
  }

  function RowOf(codec: Codec, path: string, s: Session): SessionRow {
    var last := LastOf(s);
    SessionRow(
      path, s.version,
      if s.actor.Some? then Some(s.actor.value.channel) else None,
      if s.actor.Some? then Some(s.actor.value.userId) else None,
      if s.actor.Some? then s.actor.value.scope else None,
      if s.identity.Some? then Some(s.identity.value.channel) else None,
      if s.identity.Some? then Some(if s.identity.value.kind.Direct? then "direct" else "group") else None,
      if s.identity.Some? then s.identity.value.userId else None,
      if s.identity.Some? then s.identity.value.scope else None,
      s.createdAt, s.updatedAt, s.frozenTime, |s.messages|,
      if last.Some? then Some(last.value.timestamp) else None,
      if last.Some? then Some(last.value.role) else None,
      if last.Some? then Preview(MessageText(codec, last.value)) else None,
      s)
  }

  function MessageRowOf(m: Message): MessageRow {
    MessageRow(m.role, m.content, m.timestamp, m.metadata,
               StringAt(m.metadata, "message_id"), StringAt(m.metadata, "tool_name"),
               StringAt(m.metadata, "tool_call_id"),
               StringAt(m.metadata, "channel"), StringAt(m.metadata, "open_id"), StringAt(m.metadata, "mobile"),
               StringAt(m.metadata, "chat_id"), StringAt(m.metadata, "chat_type"), StringAt(m.metadata, "message_type"))
  }

  // ----- what the tables should hold -----

  /** A stored document and the file it came from. */
  datatype Source = Source(path: string, doc: Session)

  ghost predicate MessagesAgree(t: Tables, docs: map<Id, Source>) {
    && (forall k: (Id, nat) :: k in t.messages <==> k.0 in docs && k.1 < |docs[k.0].doc.messages|)
    && (forall k: (Id, nat) :: k in t.messages ==> t.messages[k] == MessageRowOf(docs[k.0].doc.messages[k.1]))
  }

  ghost predicate EntriesAgree(t: Tables, docs: map<Id, Source>) {
    && (forall k :: k in t.entries <==> k.0 in docs && k.1 in docs[k.0].doc.metadata)
    && (forall k :: k in t.entries ==> t.entries[k] == docs[k.0].doc.metadata[k.1])
  }

  ghost predicate SessionsAgree(codec: Codec, t: Tables, docs: map<Id, Source>) {
    t.sessions == map id | id in docs :: RowOf(codec, docs[id].path, docs[id].doc)
  }

  /** The tables show exactly these documents: each message at its ordinal, each metadata entry, and one derived row. */
  ghost predicate Agrees(codec: Codec, t: Tables, docs: map<Id, Source>) {
    SessionsAgree(codec, t, docs) && EntriesAgree(t, docs) && MessagesAgree(t, docs)
  }

  predicate PathTaken(t: Tables, id: Id, path: string) {
    exists other :: other in t.sessions && other != id && t.sessions[other].sourcePath == path
  }

  ghost predicate Claimed(docs: map<Id, Source>, id: Id, path: string) {
    exists other :: other in docs && other != id && docs[other].path == path
  }

  lemma PathTakenIsClaimed(codec: Codec, t: Tables, docs: map<Id, Source>, id: Id, path: string)
    requires SessionsAgree(codec, t, docs)
    ensures PathTaken(t, id, path) <==> Claimed(docs, id, path)
  {
    assert t.sessions.Keys == docs.Keys;
    if other :| other in docs && other != id && docs[other].path == path {
      assert t.sessions[other].sourcePath == path;
    }
  }

  /** The rows of one session replaced, all others kept. */
  ghost predicate EntriesRewritten(before: Tables, after: Tables, s: Session) {
    && (forall k :: k in after.entries <==> if k.0 == s.id then k.1 in s.metadata else k in before.entries)
    && (forall k :: k in after.entries ==>
          after.entries[k] == if k.0 == s.id then s.metadata[k.1] else before.entries[k])
  }

  ghost predicate MessagesRewritten(before: Tables, after: Tables, s: Session) {
    && (forall k: (Id, nat) ::
          k in after.messages <==> if k.0 == s.id then k.1 < |s.messages| else k in before.messages)
    && (forall k: (Id, nat) :: k in after.messages ==>
          after.messages[k] == if k.0 == s.id then MessageRowOf(s.messages[k.1]) else before.messages[k])
  }

  lemma EntriesRewriteAgrees(before: Tables, docs: map<Id, Source>, path: string, s: Session, after: Tables)
    requires EntriesAgree(before, docs) && EntriesRewritten(before, after, s)
    ensures EntriesAgree(after, docs[s.id := Source(path, s)])
  {
  }

  lemma MessagesRewriteAgrees(before: Tables, docs: map<Id, Source>, path: string, s: Session, after: Tables)
    requires MessagesAgree(before, docs) && MessagesRewritten(before, after, s)
    ensures MessagesAgree(after, docs[s.id := Source(path, s)])
  {
  }

  lemma SessionsRewriteAgrees(codec: Codec, before: Tables, docs: map<Id, Source>, path: string, s: Session,
                              after: Tables)
    requires SessionsAgree(codec, before, docs)
    requires after.sessions == (before.sessions - {s.id})[s.id := RowOf(codec, path, s)]
    ensures SessionsAgree(codec, after, docs[s.id := Source(path, s)])
  {
  }

  // ----- upsert -----

  class SqliteSessionMirror {
    const codec: Codec
    var sessions: map<Id, SessionRow>
    var entries: map<(Id, string), Json>
    var messages: map<(Id, nat), MessageRow>

    ghost function Db(): Tables
      reads this
    {
      Tables(sessions, entries, messages)
    }

    constructor (codec: Codec)
      ensures this.codec == codec && Agrees(codec, Db(), map[])
    {
      this.codec := codec;
      sessions, entries, messages := map[], map[], map[];
    }

    method DeleteSession(id: Id)
      modifies this
      ensures sessions == old(sessions) - {id}
      ensures entries == map k | k in old(entries) && k.0 != id :: old(entries)[k]
      ensures messages == map k | k in old(messages) && k.0 != id :: old(messages)[k]
    {
      entries := map k | k in entries && k.0 != id :: entries[k];
      messages := map k | k in messages && k.0 != id :: messages[k];
      sessions := sessions - {id};
    }

    method InsertEntries(id: Id, metadata: Metadata)
      modifies this`entries
      ensures forall k :: k in entries <==> k in old(entries) || (k.0 == id && k.1 in metadata)
      ensures forall k :: k in entries ==>
        entries[k] == if k.0 == id && k.1 in metadata then metadata[k.1] else old(entries)[k]
    {
      var todo := metadata.Keys;
      while todo != {}
        invariant todo <= metadata.Keys
        invariant forall k :: k in entries <==> k in old(entries) || (k.0 == id && k.1 in metadata && k.1 !in todo)
        invariant forall k :: k in entries ==>
          entries[k] == if k.0 == id && k.1 in metadata && k.1 !in todo then metadata[k.1] else old(entries)[k]
        decreases todo
      {
        var key :| key in todo;
        entries := entries[(id, key) := metadata[key]];
        todo := todo - {key};
      }
    }

    method InsertMessages(id: Id, list: seq<Message>)
      requires forall k: (Id, nat) :: k in messages ==> k.0 != id
      modifies this`messages
      ensures forall k: (Id, nat) :: k in messages <==> if k.0 == id then k.1 < |list| else k in old(messages)
      ensures forall k: (Id, nat) :: k in messages ==>
        messages[k] == if k.0 == id then MessageRowOf(list[k.1]) else old(messages)[k]
    {
      for ordinal := 0 to |list|
        invariant forall k: (Id, nat) :: k in messages <==> if k.0 == id then k.1 < ordinal else k in old(messages)
        invariant forall k: (Id, nat) :: k in messages ==>
          messages[k] == if k.0 == id then MessageRowOf(list[k.1]) else old(messages)[k]
      {
        messages := messages[(id, ordinal) := MessageRowOf(list[ordinal])];
      }
    }

    /** One transaction. It fails, and leaves the tables alone, exactly when the file cannot be inspected or another
        session already has this source path. Otherwise the tables show the new document in place of the old one. */
    method UpsertSession(path: string, readable: bool, s: Session, ghost docs: map<Id, Source>) returns (ok: bool)
      requires Agrees(codec, Db(), docs)
      modifies this
      ensures ok <==> readable && !Claimed(docs, s.id, path)
      ensures !ok ==> Db() == old(Db())
      ensures ok ==> Agrees(codec, Db(), docs[s.id := Source(path, s)])
    {
      PathTakenIsClaimed(codec, Db(), docs, s.id, path);
      if !readable || PathTaken(Tables(sessions, entries, messages), s.id, path) {
        return false;
      }
      DeleteSession(s.id);
      sessions := sessions[s.id := RowOf(codec, path, s)];
      InsertEntries(s.id, s.metadata);
      InsertMessages(s.id, s.messages);
      SessionsRewriteAgrees(codec, old(Db()), docs, path, s, Db());
      EntriesRewriteAgrees(old(Db()), docs, path, s, Db());
      MessagesRewriteAgrees(old(Db()), docs, path, s, Db());
      return true;
    }

    /** Upsert one file after another. */
    method UpsertAll(files: seq<Source>, ghost docs: map<Id, Source>) returns (failed: nat)
      requires Agrees(codec, Db(), docs)
      modifies this
      ensures Agrees(codec, Db(), Absorbed(docs, files)) && failed == Refused(docs, files)
    {
      failed := 0;
      for i := 0 to |files|
        invariant Agrees(codec, Db(), Absorbed(docs, files[..i])) && failed == Refused(docs, files[..i])
      {
        assert files[..i + 1][..i] == files[..i];
        var ok := UpsertSession(files[i].path, true, files[i].doc, Absorbed(docs, files[..i]));
        if !ok {
          failed := failed + 1;
        }
      }
      assert files[..|files|] == files;
    }

    method LoadSession(id: Id, ghost docs: map<Id, Source>) returns (doc: Option<Session>)
      requires Agrees(codec, Db(), docs)
      ensures doc == if id in docs then Some(docs[id].doc) else None
    {
      if id in sessions {
        return Some(sessions[id].document);
      }
      return None;
    }
  }

  // ----- sequences of upserts -----

  /** What the tables show after upserts of these files: one whose path another session has is refused. */
  ghost function Absorbed(docs: map<Id, Source>, files: seq<Source>): map<Id, Source> {
    if files == [] then docs
    else
      var before := Absorbed(docs, files[..|files| - 1]);
      var f := files[|files| - 1];
      if Claimed(before, f.doc.id, f.path) then before else before[f.doc.id := f]
  }

  ghost function Refused(docs: map<Id, Source>, files: seq<Source>): nat {
    if files == [] then 0
    else
      var f := files[|files| - 1];
      Refused(docs, files[..|files| - 1])
      + if Claimed(Absorbed(docs, files[..|files| - 1]), f.doc.id, f.path) then 1 else 0
  }

  /** Files of different sessions have different paths. */
  ghost predicate DistinctPaths(files: seq<Source>) {
    forall i, j :: 0 <= i < |files| && 0 <= j < |files| && files[i].path == files[j].path ==>
                     files[i].doc.id == files[j].doc.id
  }

  /** File i is the last of its session. */
  ghost predicate LastOfSession(files: seq<Source>, i: nat, id: Id) {
    i < |files| && files[i].doc.id == id && forall j :: i < j < |files| ==> files[j].doc.id != id
  }

  /** Exactly the last file of each session. */
  ghost predicate ShowsLast(files: seq<Source>, shown: map<Id, Source>) {
    && (forall id :: id in shown ==> exists i: nat :: LastOfSession(files, i, id))
    && (forall i: nat, id :: LastOfSession(files, i, id) ==> id in shown && shown[id] == files[i])
  }

  lemma LastOneMore(files: seq<Source>, f: Source, i: nat, id: Id)
    ensures LastOfSession(files + [f], i, id)
       <==> (i == |files| && id == f.doc.id) || (id != f.doc.id && LastOfSession(files, i, id))
  {
    var all := files + [f];
    assert all[|files|] == f && forall j :: 0 <= j < |files| ==> all[j] == files[j];
  }

  lemma ShowsOneMore(files: seq<Source>, shown: map<Id, Source>, f: Source)
    requires ShowsLast(files, shown)
    ensures ShowsLast(files + [f], shown[f.doc.id := f])
  {
    var all, after := files + [f], shown[f.doc.id := f];
    forall i: nat, id | LastOfSession(all, i, id)
      ensures id in after && after[id] == all[i]
    {
      LastOneMore(files, f, i, id);
    }
    forall id | id in after
      ensures exists i: nat :: LastOfSession(all, i, id)
    {
      var i: nat := |files|;
      if id != f.doc.id {
        i :| LastOfSession(files, i, id);
      }
      LastOneMore(files, f, i, id);
    }
  }

  lemma PathIsFree(files: seq<Source>, shown: map<Id, Source>, f: Source)
    requires ShowsLast(files, shown) && DistinctPaths(files + [f])
    ensures !Claimed(shown, f.doc.id, f.path)
  {
    forall other | other in shown && other != f.doc.id
      ensures shown[other].path != f.path
    {
      var i: nat :| LastOfSession(files, i, other);
      assert (files + [f])[i] == files[i] && (files + [f])[|files|] == f;
    }
  }

  /** With distinct source paths no upsert is refused, and the tables show exactly the last file of each session. */
  lemma {:induction false} LastFilesAreShown(files: seq<Source>)
    requires DistinctPaths(files)
    ensures Refused(map[], files) == 0
    ensures ShowsLast(files, Absorbed(map[], files))
  {
    if files != [] {
      var init, f := files[..|files| - 1], files[|files| - 1];
      LastFilesAreShown(init);
      assert files == init + [f];
      PathIsFree(init, Absorbed(map[], init), f);
      ShowsOneMore(init, Absorbed(map[], init), f);
    }
  }

  /** No two sessions have the same source path, whatever is upserted. */
  lemma {:induction false} PathsStayUnique(files: seq<Source>, a: Id, b: Id)
    requires a in Absorbed(map[], files) && b in Absorbed(map[], files)
    requires Absorbed(map[], files)[a].path == Absorbed(map[], files)[b].path
    ensures a == b
  {
    if files != [] {
      var before, f := Absorbed(map[], files[..|files| - 1]), files[|files| - 1];
      if Claimed(before, f.doc.id, f.path) || (a != f.doc.id && b != f.doc.id) {
        PathsStayUnique(files[..|files| - 1], a, b);
      }
    }
  }

  // ----- interrupted sessions -----

  datatype Interrupted = Interrupted(sessionId: Id, actorUserId: Option<string>, actorScope: Option<string>)

  /** The WHERE clause, over the columns. */
  predicate RowMatches(row: SessionRow, channel: string, after: string, before: string) {
    && row.actorChannel == Some(channel) && row.sessionKind == Some("direct") && row.lastRole == Some("user")
    && Timestamps.Less(after, row.updatedAt) && Timestamps.Less(row.updatedAt, before)
  }

  /** An answer of the query: the matching rows, each once, newest first. Ties may come in any order. */
  ghost predicate QueryAnswer(t: Tables, channel: string, after: string, before: string, out: seq<Interrupted>) {
    && (forall i :: 0 <= i < |out| ==> (
          && out[i].sessionId in t.sessions && RowMatches(t.sessions[out[i].sessionId], channel, after, before)
          && out[i].actorUserId == t.sessions[out[i].sessionId].actorUserId
          && out[i].actorScope == t.sessions[out[i].sessionId].actorScope))
    && (forall id :: id in t.sessions && RowMatches(t.sessions[id], channel, after, before) ==>
          exists i :: 0 <= i < |out| && out[i].sessionId == id)
    && (forall i, j :: 0 <= i < j < |out| ==> (
          && out[i].sessionId != out[j].sessionId
          && !Timestamps.Less(t.sessions[out[i].sessionId].updatedAt, t.sessions[out[j].sessionId].updatedAt)))
  }

  /** The last message is the user's, nobody has answered. */
  predicate AwaitsReply(s: Session) {
    s.messages != [] && s.messages[|s.messages| - 1].role == "user"
  }

  /** A direct session of the channel, waiting for a reply, changed strictly inside the window. */
  predicate IsInterrupted(s: Session, channel: string, after: string, before: string) {
    && s.actor.Some? && s.actor.value.channel == channel && s.identity.Some? && s.identity.value.kind.Direct?
    && AwaitsReply(s) && Timestamps.Less(after, s.updatedAt) && Timestamps.Less(s.updatedAt, before)
  }

  function InfoOf(s: Session): Interrupted {
    Interrupted(s.id,
                if s.actor.Some? then Some(s.actor.value.userId) else None,
                if s.actor.Some? then s.actor.value.scope else None)
  }

  /** The answer computed from the documents alone. */
  ghost predicate DocumentAnswer(docs: map<Id, Source>, channel: string, after: string, before: string,
                                 out: seq<Interrupted>) {
    && (forall i :: 0 <= i < |out| ==> (
          && out[i].sessionId in docs && out[i] == InfoOf(docs[out[i].sessionId].doc)
          && IsInterrupted(docs[out[i].sessionId].doc, channel, after, before)))
    && (forall id :: id in docs && IsInterrupted(docs[id].doc, channel, after, before) ==>
          exists i :: 0 <= i < |out| && out[i].sessionId == id)
    && (forall i, j :: 0 <= i < j < |out| ==> (
          && out[i].sessionId != out[j].sessionId
          && !Timestamps.Less(docs[out[i].sessionId].doc.updatedAt, docs[out[j].sessionId].doc.updatedAt)))
  }

  lemma RowMatchesDocument(codec: Codec, path: string, s: Session, channel: string, after: string, before: string)
    ensures RowMatches(RowOf(codec, path, s), channel, after, before) <==> IsInterrupted(s, channel, after, before)
  {
  }

  /** Querying the columns gives the same answers as filtering and sorting the stored documents. */
  lemma QueryIsFilter(codec: Codec, t: Tables, docs: map<Id, Source>, channel: string, after: string, before: string,
                      out: seq<Interrupted>)
    requires Agrees(codec, t, docs) && forall id :: id in docs ==> docs[id].doc.id == id
    ensures QueryAnswer(t, channel, after, before, out) <==> DocumentAnswer(docs, channel, after, before, out)
  {
    forall id | id in docs
      ensures t.sessions[id].updatedAt == docs[id].doc.updatedAt
      ensures RowMatches(t.sessions[id], channel, after, before)
         <==> IsInterrupted(docs[id].doc, channel, after, before)
    {
      RowMatchesDocument(codec, docs[id].path, docs[id].doc, channel, after, before);
    }
  }

  /** For rendered timestamps the window is a window of time. */
  lemma WindowIsTime(s: Session, channel: string, at: int, after: int, before: int)
    requires Timestamps.InRange(at) && Timestamps.InRange(after) && Timestamps.InRange(before)
    requires s.updatedAt == Timestamps.Stamp(at)
    ensures IsInterrupted(s, channel, Timestamps.Stamp(after), Timestamps.Stamp(before)) <==>
            && s.actor.Some? && s.actor.value.channel == channel && s.identity.Some? && s.identity.value.kind.Direct?
            && AwaitsReply(s) && after < at < before
  {
    Timestamps.StampOrder(after, at);
    Timestamps.StampOrder(at, before);
  }
}
