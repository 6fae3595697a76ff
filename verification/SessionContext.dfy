/** Which stored messages are shown to the model: the newest conversation messages since the last compaction. */
module SessionContext {
  import opened Common
  import opened SessionModel

  predicate IsBoundary(m: Message) {
    && m.metadata.Some? && "session.compact_boundary" in m.metadata.value
    && m.metadata.value["session.compact_boundary"] == JBool(true)
  }

  predicate InContext(m: Message) {
    m.role == "user" || m.role == "assistant" || m.role == "tool"
  }

  function Conversation(messages: seq<Message>): (r: seq<Message>)
    ensures |r| <= |messages|
  {
    if messages == [] then []
    else (if InContext(messages[0]) then [messages[0]] else []) + Conversation(messages[1..])
  }

  function Reverse(s: seq<Message>): (r: seq<Message>)
    ensures |r| == |s| && forall i :: 0 <= i < |s| ==> r[i] == s[|s| - 1 - i]
  {
    if s == [] then [] else Reverse(s[1..]) + [s[0]]
  }

  function Take(s: seq<Message>, n: nat): seq<Message> {
    if n < |s| then s[..n] else s
  }

  /** `select_context_messages`. */
  function SelectContext(messages: seq<Message>, limit: Option<nat>): seq<Message> {
    var filtered := Conversation(messages);
    match limit
    case Some(n) => if |filtered| > n then Reverse(Take(Reverse(filtered), n)) else filtered
    case None => filtered
  }

  /** `rposition`. */
  function LastBoundary(messages: seq<Message>): (r: Option<nat>)
    ensures r.Some? ==> r.value < |messages| && IsBoundary(messages[r.value])
    ensures r.Some? ==> forall i :: r.value < i < |messages| ==> !IsBoundary(messages[i])
    ensures r.None? ==> forall i :: 0 <= i < |messages| ==> !IsBoundary(messages[i])
  {
    if messages == [] then None
    else if IsBoundary(messages[|messages| - 1]) then Some(|messages| - 1)
    else LastBoundary(messages[..|messages| - 1])
  }

  /** `select_messages_after_compact_boundary`. */
  function SelectAfterBoundary(messages: seq<Message>, limit: Option<nat>): seq<Message> {
    match LastBoundary(messages)
    case Some(i) => SelectContext(messages[i..], limit)
    case None => SelectContext(messages, limit)
  }

  function Last(s: seq<Message>, limit: Option<nat>): seq<Message> {
    if limit.Some? && limit.value < |s| then s[|s| - limit.value..] else s
  }

  lemma SelectIsSuffix(messages: seq<Message>, limit: Option<nat>)
    ensures SelectContext(messages, limit) == Last(Conversation(messages), limit)
  {
    var all := Conversation(messages);
    if limit.Some? && limit.value < |all| {
      assert SelectContext(messages, limit) == all[|all| - limit.value..];
    }
  }

  lemma LastCons(m: Message, rest: seq<Message>, limit: Option<nat>)
    ensures Last([m] + rest, limit) == if limit.Some? && limit.value <= |rest| then Last(rest, limit) else [m] + rest
  {
    var all := [m] + rest;
    if limit.Some? && limit.value <= |rest| {
      assert all[|all| - limit.value..] == rest[|rest| - limit.value..];
    }
  }

  lemma LastOfLast(s: seq<Message>, narrow: nat, wide: Option<nat>)
    requires wide.Some? ==> narrow <= wide.value
    ensures Last(Last(s, wide), Some(narrow)) == Last(s, Some(narrow))
  {
    if wide.Some? && wide.value < |s| {
      var w := s[|s| - wide.value..];
      if narrow < |w| {
        assert w[|w| - narrow..] == s[|s| - narrow..];
      }
    }
  }

  /** How many conversation messages there are at or after a position. */
  function CountFrom(messages: seq<Message>, i: nat): nat
    requires i <= |messages|
    decreases |messages| - i
  {
    if i == |messages| then 0 else (if InContext(messages[i]) then 1 else 0) + CountFrom(messages, i + 1)
  }

  /** A position is kept when it holds a conversation message that is among the newest `limit` ones. */
  predicate Keeps(messages: seq<Message>, i: nat, limit: Option<nat>)
    requires i < |messages|
  {
    InContext(messages[i]) && (limit.Some? ==> CountFrom(messages, i) <= limit.value)
  }

  /** The messages at the kept positions, in order. */
  function KeptFrom(messages: seq<Message>, from: nat, limit: Option<nat>): seq<Message>
    requires from <= |messages|
    decreases |messages| - from
  {
    if from == |messages| then []
    else (if Keeps(messages, from, limit) then [messages[from]] else []) + KeptFrom(messages, from + 1, limit)
  }

  lemma ConversationFrom(messages: seq<Message>, from: nat)
    requires from < |messages|
    ensures Conversation(messages[from..])
         == (if InContext(messages[from]) then [messages[from]] else []) + Conversation(messages[from + 1..])
  {
    assert messages[from..][1..] == messages[from + 1..];
  }

  lemma {:induction false} CountIsLength(messages: seq<Message>, from: nat)
    requires from <= |messages|
    ensures CountFrom(messages, from) == |Conversation(messages[from..])|
    decreases |messages| - from
  {
    if from < |messages| {
      CountIsLength(messages, from + 1);
      ConversationFrom(messages, from);
    }
  }

  lemma {:induction false} KeptIsLast(messages: seq<Message>, from: nat, limit: Option<nat>)
    requires from <= |messages|
    ensures KeptFrom(messages, from, limit) == Last(Conversation(messages[from..]), limit)
    decreases |messages| - from
  {
    if from < |messages| {
      KeptIsLast(messages, from + 1, limit);
      CountIsLength(messages, from);
      ConversationFrom(messages, from);
      KeptStep(messages, from, limit, Conversation(messages[from + 1..]));
    }
  }

  lemma KeptStep(messages: seq<Message>, from: nat, limit: Option<nat>, rest: seq<Message>)
    requires from < |messages| && KeptFrom(messages, from + 1, limit) == Last(rest, limit)
    requires CountFrom(messages, from) == (if InContext(messages[from]) then 1 else 0) + |rest|
    ensures KeptFrom(messages, from, limit)
         == Last((if InContext(messages[from]) then [messages[from]] else []) + rest, limit)
  {
    LastCons(messages[from], rest, limit);
    assert [] + rest == rest && [] + Last(rest, limit) == Last(rest, limit);
    if InContext(messages[from]) && limit.Some? && limit.value <= |rest| {
      assert !Keeps(messages, from, limit);
    } else if InContext(messages[from]) {
      assert Keeps(messages, from, limit) && Last(rest, limit) == rest;
    }
  }

  /** The selection is exactly the newest `limit` user, assistant and tool messages at or after the last boundary:
      position by position, a message is shown if and only if it is one of them. */
  lemma SelectionIsExact(messages: seq<Message>, limit: Option<nat>)
    ensures SelectAfterBoundary(messages, limit) ==
            KeptFrom(messages, if LastBoundary(messages).Some? then LastBoundary(messages).value else 0, limit)
  {
    var b := if LastBoundary(messages).Some? then LastBoundary(messages).value else 0;
    assert messages[0..] == messages;
    SelectIsSuffix(messages[b..], limit);
    KeptIsLast(messages, b, limit);
  }

  /** Narrowing the limit takes a suffix of the wider answer. */
  lemma NarrowerIsSuffix(messages: seq<Message>, narrow: nat, wide: Option<nat>)
    requires wide.Some? ==> narrow <= wide.value
    ensures SelectAfterBoundary(messages, Some(narrow)) == Last(SelectAfterBoundary(messages, wide), Some(narrow))
  {
    var from := if LastBoundary(messages).Some? then messages[LastBoundary(messages).value..] else messages;
    SelectIsSuffix(from, Some(narrow));
    SelectIsSuffix(from, wide);
    LastOfLast(Conversation(from), narrow, wide);
  }

  lemma {:induction false} BoundaryInTail(a: seq<Message>, tail: seq<Message>)
    requires LastBoundary(tail).Some?
    ensures LastBoundary(a + tail) == Some(|a| + LastBoundary(tail).value)
  {
    var all := a + tail;
    assert all[|all| - 1] == tail[|tail| - 1];
    if !IsBoundary(tail[|tail| - 1]) {
      assert all[..|all| - 1] == a + tail[..|tail| - 1];
      BoundaryInTail(a, tail[..|tail| - 1]);
    }
  }

  lemma BoundaryFound(boundary: Message, later: seq<Message>)
    requires IsBoundary(boundary)
    ensures LastBoundary([boundary] + later).Some?
  {
    assert ([boundary] + later)[0] == boundary;
  }

  lemma HistoryUnused(earlier: seq<Message>, tail: seq<Message>, limit: Option<nat>)
    requires LastBoundary(tail).Some?
    ensures SelectAfterBoundary(earlier + tail, limit) == SelectAfterBoundary(tail, limit)
  {
    BoundaryInTail(earlier, tail);
    var i := LastBoundary(tail).value;
    assert (earlier + tail)[|earlier| + i..] == tail[i..];
  }

  /** Once a boundary is appended, no earlier message is selected again, whatever is appended later and with whatever
      limit: the selection does not depend on the earlier messages at all. */
  lemma BoundaryHidesHistory(earlier: seq<Message>, boundary: Message, later: seq<Message>, limit: Option<nat>)
    requires IsBoundary(boundary)
    ensures SelectAfterBoundary(earlier + [boundary] + later, limit) == SelectAfterBoundary([boundary] + later, limit)
  {
    BoundaryFound(boundary, later);
    Assoc(earlier, [boundary], later);
    HistoryUnused(earlier, [boundary] + later, limit);
  }

  /** Boundaries and conversation messages, by their marks. */
  lemma Marks(m: Message)
    ensures IsBoundary(m) <==>
            m.metadata.Some? && ("session.compact_boundary", JBool(true)) in m.metadata.value.Items
    ensures InContext(m) <==> m.role in {"user", "assistant", "tool"}
  {
  }

  /** With neither limit nor boundary exactly the user, assistant and tool messages are selected. */
  lemma {:induction false} ConversationIs(messages: seq<Message>, m: Message)
    ensures m in Conversation(messages) <==> m in messages && m.role in {"user", "assistant", "tool"}
  {
    if messages != [] {
      ConversationIs(messages[1..], m);
      assert messages == [messages[0]] + messages[1..];
    }
  }
}
