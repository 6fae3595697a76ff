/** The migration of session files to version 2, and how often it has to run until the data no longer change. */
module SessionMigration {
  import opened Common
  import opened PyJson
  import AK = ActorKey

  /** What one pass reads besides the file: the file's stem and the clock, at two places that may ask for the time. */
  datatype Pass = Pass(stem: string, frozenNow: string, summaryNow: string)

  ghost predicate Proper(p: Pass) {
    Strip(p.stem) != "" && Strip(p.frozenNow) != "" && Strip(p.summaryNow) != ""
  }

  // ----- id, version, metadata and runtime -----

  /** Python's `v == 2`. */
  predicate IsTwo(v: Json) {
    v == Int(2) || v == Float(2.0)
  }

  function Fields(v: Json): Object {
    if v.Dict? then v.fields else map[]
  }

  /** `choose_frozen_time`. */
  function ChooseFrozenTime(s: Object, now: string): string {
    var frozen := Get(Fields(Get(Fields(Get(s, Runtime)), Prompt)), FrozenTime);
    if Nonblank(frozen) then frozen.text
    else if Nonblank(Get(s, CreatedAt)) then Get(s, CreatedAt).text
    else if Nonblank(Get(s, UpdatedAt)) then Get(s, UpdatedAt).text
    else now
  }

  function WithRuntime(s: Object, now: string): Object {
    var runtime := Fields(Get(s, Runtime));
    var prompt := Fields(Get(runtime, Prompt));
    s[Runtime := Dict(runtime[Prompt := Dict(prompt[FrozenTime := Str(ChooseFrozenTime(s, now))])])]
  }

  function Headed(s: Object, stem: string): Object {
    var s1 := if Nonblank(Get(s, Id)) then s else s[Id := Str(stem)];
    var s2 := if IsTwo(Get(s1, Version)) then s1 else s1[Version := Int(2)];
    if Get(s2, Metadata).Dict? then s2 else s2[Metadata := Dict(map[])]
  }

  function Shaped(s: Object, p: Pass): Object {
    WithRuntime(Headed(s, p.stem), p.frozenNow)
  }

  ghost predicate ShapeOk(s: Object) {
    var runtime := Get(s, Runtime);
    && Nonblank(Get(s, Id)) && IsTwo(Get(s, Version)) && Get(s, Metadata).Dict?
    && runtime.Dict? && Get(runtime.fields, Prompt).Dict?
    && Nonblank(Get(Get(runtime.fields, Prompt).fields, FrozenTime))
  }

  lemma ShapedIsOk(s: Object, p: Pass)
    requires Proper(p)
    ensures ShapeOk(Shaped(s, p))
  {
  }

  lemma OkIsShaped(s: Object, p: Pass)
    requires ShapeOk(s)
    ensures Shaped(s, p) == s
  {
    var runtime := Get(s, Runtime).fields;
    var prompt := Get(runtime, Prompt).fields;
    assert prompt[FrozenTime := prompt[FrozenTime]] == prompt;
    assert runtime[Prompt := runtime[Prompt]] == runtime;
    assert s[Runtime := s[Runtime]] == s;
  }

  // ----- the summary -----

  /** Python's `v or now`. */
  function Or(v: Json, now: string): Json {
    if Truthy(v) then v else Str(now)
  }

  /** A system message marked as summary, with a text. */
  predicate IsSummaryMessage(m: Json) {
    && m.Dict? && Get(m.fields, Role) == Str("system")
    && Get(Fields(Get(m.fields, Metadata)), IsSummary) == Bool(true)
    && Nonblank(Get(m.fields, Content))
  }

  function FirstSummary(items: seq<Json>): (r: Option<nat>)
    ensures r.Some? ==> r.value < |items| && IsSummaryMessage(items[r.value])
  {
    if items == [] then None
    else if IsSummaryMessage(items[0]) then Some(0)
    else match FirstSummary(items[1..]) case Some(i) => Some(i + 1) case None => None
  }

  lemma {:induction false} FirstSummaryIs(items: seq<Json>, i: nat)
    requires i <= |items| && (i < |items| ==> IsSummaryMessage(items[i]))
    requires forall k :: 0 <= k < i ==> !IsSummaryMessage(items[k])
    ensures FirstSummary(items) == if i == |items| then None else Some(i)
  {
    if i > 0 {
      forall k | 0 <= k < i - 1
        ensures !IsSummaryMessage(items[1..][k])
      {
        assert items[1..][k] == items[k + 1];
      }
      FirstSummaryIs(items[1..], i - 1);
    }
  }

  /** The summary message that would be extracted. */
  function Extractable(s: Object): Option<nat> {
    if Get(s, Messages).List? then FirstSummary(Get(s, Messages).items) else None
  }

  function SummaryOf(s: Object, m: Object, now: string): Json {
    var timestamp := Get(m, Timestamp);
    Dict(map[Content := Get(m, Content),
             UpdatedAt := if Truthy(timestamp) then timestamp else Or(Get(s, UpdatedAt), now)])
  }

  function Without<T>(items: seq<T>, i: nat): seq<T>
    requires i < |items|
  {
    items[..i] + items[i + 1..]
  }

  /** The session after the summary has been normalized, taken from a message, or cleared. */
  function Summarized(s: Object, now: string): Object {
    var summary := Get(s, Summary);
    if summary.Dict? then
      if !Nonblank(Get(summary.fields, Content)) then s[Summary := Null]
      else if Nonblank(Get(summary.fields, UpdatedAt)) then s
      else s[Summary := Dict(summary.fields[UpdatedAt := Or(Get(s, UpdatedAt), now)])]
    else if summary.Str? then s[Summary := Dict(map[Content := summary, UpdatedAt := Or(Get(s, UpdatedAt), now)])]
    else
      match Extractable(s)
      case Some(i) =>
        var items := Get(s, Messages).items;
        s[Messages := List(Without(items, i))][Summary := SummaryOf(s, items[i].fields, now)]
      case None => if summary == Null then s else s[Summary := Null]
  }

  /** What `migrate_session` does when no summary came back. */
  function Cleared(s: Object, summary: Json): Object {
    if summary == Null && Get(s, Summary) != Null then s[Summary := Null] else s
  }

  /** The loop over the messages: the first summary message is taken out, all others are kept. */
  method ScanMessages(s: Object, items: seq<Json>, now: string) returns (migrated: seq<Json>, summary: Json)
    ensures FirstSummary(items).None? ==> migrated == items && summary == Null
    ensures FirstSummary(items).Some? ==>
      var i := FirstSummary(items).value; migrated == Without(items, i) && summary == SummaryOf(s, items[i].fields, now)
  {
    migrated, summary := [], Null;
    ghost var found := 0;
    for i := 0 to |items|
      invariant summary == Null ==> found == i && migrated == items[..i]
      invariant summary != Null ==>
        && found < i && IsSummaryMessage(items[found]) && migrated == items[..found] + items[found + 1..i]
        && summary == SummaryOf(s, items[found].fields, now)
      invariant forall k :: 0 <= k < found ==> !IsSummaryMessage(items[k])
    {
      if summary == Null && IsSummaryMessage(items[i]) {
        summary := SummaryOf(s, items[i].fields, now);
      } else {
        migrated := migrated + [items[i]];
        if summary == Null {
          found := i + 1;
        }
      }
    }
    FirstSummaryIs(items, found);
    if summary != Null {
      assert items[found + 1..|items|] == items[found + 1..];
    }
  }

  /** The summary is reported as changed: an object without a text or a time, a text, or a message. */
  predicate SummaryReported(s: Object) {
    var summary := Get(s, Summary);
    if summary.Dict? then !(Nonblank(Get(summary.fields, Content)) && Nonblank(Get(summary.fields, UpdatedAt)))
    else summary.Str? || Extractable(s).Some?
  }

  /** `extract_summary`. */
  method ExtractSummary(s: Object, now: string) returns (session: Object, summary: Json, changed: bool)
    ensures Cleared(session, summary) == Summarized(s, now)
    ensures !changed ==> session == s
    ensures changed <==> SummaryReported(s)
    ensures summary == Null && Get(session, Summary) != Null
       <==> !changed && Get(s, Summary) != Null && !Get(s, Summary).Dict?
    ensures summary != Null ==> summary.Dict? && Get(session, Summary) == summary
  {
    session, changed := s, false;
    var old_summary := Get(s, Summary);
    if old_summary.Dict? {
      var content, updatedAt := Get(old_summary.fields, Content), Get(old_summary.fields, UpdatedAt);
      if Nonblank(content) {
        summary := old_summary;
        if !Nonblank(updatedAt) {
          summary := Dict(old_summary.fields[UpdatedAt := Or(Get(s, UpdatedAt), now)]);
          session, changed := s[Summary := summary], true;
        }
        return;
      }
      session := s[Summary := Null];
      return session, Null, true;
    }
    if old_summary.Str? {
      summary := Dict(map[Content := old_summary, UpdatedAt := Or(Get(s, UpdatedAt), now)]);
      return s[Summary := summary], summary, true;
    }
    if !Get(s, Messages).List? {
      return s, Null, false;
    }
    var items, found := ScanMessages(s, Get(s, Messages).items, now);
    summary, changed := found, found != Null;
    if changed {
      session := s[Messages := List(items)][Summary := summary];
    }
  }

  // ----- how many passes the summary takes -----

  function MessageStage(s: Object): nat {
    match Extractable(s)
    case None => 0
    case Some(i) =>
      var timestamp := Get(Get(s, Messages).items[i].fields, Timestamp);
      if Truthy(timestamp) && !Nonblank(timestamp) && timestamp != Get(s, UpdatedAt) then 2 else 1
  }

  /** The number of passes after which the summary no longer changes. */
  function Stage(s: Object): nat {
    var summary := Get(s, Summary);
    if summary.Dict? then
      if !Nonblank(Get(summary.fields, Content)) then 1 + MessageStage(s)
      else
        var updatedAt := Get(summary.fields, UpdatedAt);
        if Nonblank(updatedAt) || (Truthy(updatedAt) && updatedAt == Get(s, UpdatedAt)) then 0 else 1
    else if summary.Str? then if Nonblank(summary) then 1 else 2 + MessageStage(s)
    else if MessageStage(s) > 0 then MessageStage(s)
    else if summary == Null then 0 else 1
  }

  function Less1(n: nat): nat {
    if n == 0 then 0 else n - 1
  }

  /** Each pass takes exactly one stage, and a session at stage 0 is left alone. */
  lemma StageFalls(s: Object, now: string)
    requires Strip(now) != ""
    ensures Stage(Summarized(s, now)) == Less1(Stage(s))
    ensures Summarized(s, now) == s <==> Stage(s) == 0
  {
    var summary, t := Get(s, Summary), Summarized(s, now);
    if summary.Dict? {
      DictStageFalls(s, now);
    } else if summary.Str? {
      assert MessageStage(t) == MessageStage(s);
    } else if Extractable(s).None? {
      assert MessageStage(t) == 0;
    } else {
      var m := Get(s, Messages).items[Extractable(s).value].fields;
      assert Get(t, Summary) == SummaryOf(s, m, now) && Get(t, UpdatedAt) == Get(s, UpdatedAt);
      assert Get(SummaryOf(s, m, now).fields, Content) == Get(m, Content);
    }
  }

  lemma DictStageFalls(s: Object, now: string)
    requires Strip(now) != "" && Get(s, Summary).Dict?
    ensures Stage(Summarized(s, now)) == Less1(Stage(s))
    ensures Summarized(s, now) == s <==> Stage(s) == 0
  {
    var d, t := Get(s, Summary).fields, Summarized(s, now);
    if !Nonblank(Get(d, Content)) {
      assert MessageStage(t) == MessageStage(s);
    } else if Stage(s) == 0 && !Nonblank(Get(d, UpdatedAt)) {
      assert d[UpdatedAt := d[UpdatedAt]] == d;
      assert s[Summary := s[Summary]] == s;
    }
  }

  lemma StageFrame(s: Object, t: Object)
    requires Get(s, Summary) == Get(t, Summary) && Get(s, Messages) == Get(t, Messages)
    requires Get(s, UpdatedAt) == Get(t, UpdatedAt)
    ensures Stage(s) == Stage(t)
  {
  }

  /** Four passes always suffice; three do, unless a blank string summary hides a summary message whose timestamp is
      truthy but no text. */
  lemma StageBounds(s: Object)
    ensures Stage(s) <= 4
    ensures Stage(s) == 4 <==> Get(s, Summary).Str? && !Nonblank(Get(s, Summary)) && MessageStage(s) == 2
    ensures Stage(s) == 3
       <==> || (Get(s, Summary).Str? && !Nonblank(Get(s, Summary)) && MessageStage(s) == 1)
            || (Get(s, Summary).Dict? && !Nonblank(Get(Get(s, Summary).fields, Content)) && MessageStage(s) == 2)
  {
  }

  // ----- the actor and the id -----

  datatype Decoded = Crash | NoActor | Found(actor: AK.Actor)

  const ACTOR_PREFIX := "Actor_"

  /** `actor_session_id`. */
  function SessionId(a: AK.Actor): string {
    ACTOR_PREFIX + StorageKey(a)
  }

  /** `decode_actor_from_session_id`. */
  function DecodeActor(id: string): Decoded {
    if !(ACTOR_PREFIX <= id) then NoActor else DecodeKey(id[|ACTOR_PREFIX|..])
  }

  function DecodeKey(key: string): Decoded {
    var parts := AK.SplitAll(key);
    if |parts| != 3 then NoActor
    else
      match (AK.PyDecode(parts[0]), AK.PyDecode(parts[1]), AK.PyDecode(parts[2]))
      case (Some(channel), Some(scope), Some(userId)) =>
        if NormalizeChannel(channel) == "" || userId == "" then NoActor
        else Found(AK.Actor(NormalizeChannel(channel), if scope == AK.DIRECT then None else Some(scope), userId))
      case _ => Crash
  }

  /** The actor of a session: read from its actor object, or else decoded from its id or the file's stem. */
  function Identity(show: Json -> string, s: Object, stem: string): Decoded {
    match ReadActor(show, Get(s, Actor))
    case Some(a) => Found(a)
    case None => DecodeActor(if Nonblank(Get(s, Id)) then Get(s, Id).text else stem)
  }

  function Named(s: Object, a: AK.Actor): Object {
    s[Actor := ToJson(a)][Id := Str(SessionId(a))]
  }

  function Identified(show: Json -> string, s: Object, stem: string): Option<Object> {
    match Identity(show, s, stem)
    case Crash => None
    case NoActor => Some(s)
    case Found(a) => Some(Named(s, a))
  }

  method SetNames(s: Object, a: AK.Actor) returns (session: Object, changed: bool)
    ensures session == Named(s, a) && (!changed ==> session == s)
    ensures changed <==> Get(s, Actor) != ToJson(a) || Get(s, Id) != Str(SessionId(a))
  {
    session, changed := s, false;
    if Get(s, Actor) != ToJson(a) {
      session, changed := s[Actor := ToJson(a)], true;
    }
    assert session == s[Actor := ToJson(a)];
    var id := Str(SessionId(a));
    if Get(session, Id) != id {
      session, changed := session[Id := id], true;
    }
  }

  /** Actor and id are reported as changed: the actor was decoded, or one of them differs. */
  predicate NamesReported(show: Json -> string, s: Object, stem: string) {
    match Identity(show, s, stem)
    case Found(a) =>
      ReadActor(show, Get(s, Actor)).None? || Get(s, Actor) != ToJson(a) || Get(s, Id) != Str(SessionId(a))
    case _ => false
  }

  /** `normalize_actor`; None is the exception of a part that is no UTF-8. */
  method NormalizeActor(show: Json -> string, s: Object, stem: string)
    returns (session: Option<Object>, actor: Option<AK.Actor>, changed: bool)
    ensures session == Identified(show, s, stem)
    ensures session.Some? && !changed ==> session == Some(s)
    ensures session.Some? ==> (actor.Some? <==> Identity(show, s, stem).Found?)
    ensures changed <==> NamesReported(show, s, stem)
  {
    actor, changed := ReadActor(show, Get(s, Actor)), false;
    if actor.None? {
      var source := Get(s, Id);
      match DecodeActor(if Nonblank(source) then source.text else stem) {
        case Crash => return None, None, false;
        case NoActor => return Some(s), None, false;
        case Found(a) => actor, changed := Some(a), true;
      }
    }
    var named, renamed := SetNames(s, actor.value);
    session, changed := Some(named), changed || renamed;
  }

  // ----- a pass -----

  function Migrated(show: Json -> string, s: Object, p: Pass): Option<Object> {
    Identified(show, Summarized(Shaped(s, p), p.summaryNow), p.stem)
  }

  datatype Change =
    | SetId | SetVersion | NormalizedMetadata | AddedRuntime | AddedPrompt | SetFrozenTime | NormalizedSummary
    | ClearedSummary | NormalizedActor | ManualActor

  /** The first changes of a report, in order: each exactly when its part of the file is not in shape. */
  function HeadReport(s: Object): seq<Change> {
    (if Nonblank(Get(s, Id)) then [] else [SetId])
    + (if IsTwo(Get(s, Version)) then [] else [SetVersion])
    + (if Get(s, Metadata).Dict? then [] else [NormalizedMetadata])
  }

  function RuntimeReport(runtime: Json): seq<Change> {
    var prompt := Get(Fields(runtime), Prompt);
    (if runtime.Dict? then [] else [AddedRuntime])
    + (if prompt.Dict? then [] else [AddedPrompt])
    + (if Nonblank(Get(Fields(prompt), FrozenTime)) then [] else [SetFrozenTime])
  }

  /** The first part of `migrate_session`: id, version and metadata. */
  method ShapeHead(payload: Object, stem: string) returns (session: Object, changes: seq<Change>)
    ensures session == Headed(payload, stem) && changes == HeadReport(payload)
    ensures changes == [] ==> session == payload
  {
    session, changes := payload, [];
    if !Nonblank(Get(session, Id)) {
      session, changes := session[Id := Str(stem)], changes + [SetId];
    }
    if !IsTwo(Get(session, Version)) {
      session, changes := session[Version := Int(2)], changes + [SetVersion];
    }
    if !Get(session, Metadata).Dict? {
      session, changes := session[Metadata := Dict(map[])], changes + [NormalizedMetadata];
    }
  }

  /** The second: the runtime. */
  method ShapeRuntime(payload: Object, now: string) returns (session: Object, changes: seq<Change>)
    ensures session == WithRuntime(payload, now) && changes == RuntimeReport(Get(payload, Runtime))
    ensures changes == [] ==> session == payload
  {
    session, changes := payload, [];
    var runtime := Fields(Get(session, Runtime));
    if !Get(session, Runtime).Dict? {
      session, changes := session[Runtime := Dict(runtime)], changes + [AddedRuntime];
    }
    var prompt := Fields(Get(runtime, Prompt));
    if !Get(runtime, Prompt).Dict? {
      runtime := runtime[Prompt := Dict(prompt)];
      session, changes := session[Runtime := Dict(runtime)], changes + [AddedPrompt];
    }
    RuntimeInPlace(payload, session, runtime, prompt, now);
    if !Nonblank(Get(prompt, FrozenTime)) {
      prompt := prompt[FrozenTime := Str(ChooseFrozenTime(session, now))];
      runtime := runtime[Prompt := Dict(prompt)];
      session, changes := session[Runtime := Dict(runtime)], changes + [SetFrozenTime];
    }
  }

  /** Adding the missing objects first, and a frozen time if there is none, writes the runtime of `WithRuntime`. */
  lemma RuntimeInPlace(before: Object, session: Object, runtime: Object, prompt: Object, now: string)
    requires prompt == Fields(Get(Fields(Get(before, Runtime)), Prompt))
    requires Runtime in session && session == before[Runtime := session[Runtime]] && session[Runtime] == Dict(runtime)
    requires Prompt in runtime && runtime == Fields(Get(before, Runtime))[Prompt := runtime[Prompt]]
    requires runtime[Prompt] == Dict(prompt)
    ensures Nonblank(Get(prompt, FrozenTime)) ==> session == WithRuntime(before, now)
    ensures session[Runtime := Dict(runtime[Prompt := Dict(prompt[FrozenTime := Str(ChooseFrozenTime(session, now))])])]
         == WithRuntime(before, now)
  {
    assert ChooseFrozenTime(session, now) == ChooseFrozenTime(before, now);
    var written := Dict(prompt[FrozenTime := Str(ChooseFrozenTime(before, now))]);
    assert runtime[Prompt := written] == Fields(Get(before, Runtime))[Prompt := written];
    assert session[Runtime := Dict(runtime[Prompt := written])] == before[Runtime := Dict(runtime[Prompt := written])];
    if Nonblank(Get(prompt, FrozenTime)) {
      assert prompt[FrozenTime := prompt[FrozenTime]] == prompt;
    }
  }

  function SummaryReport(s: Object): seq<Change> {
    if SummaryReported(s) then [NormalizedSummary]
    else if Get(s, Summary) != Null && !Get(s, Summary).Dict? then [ClearedSummary]
    else []
  }

  /** The third part of `migrate_session`: the summary. */
  method MigrateSummary(payload: Object, now: string) returns (session: Object, changes: seq<Change>)
    ensures session == Summarized(payload, now) && changes == SummaryReport(payload)
    ensures changes == [] ==> session == payload
  {
    var next, summary, summaryChanged := ExtractSummary(payload, now);
    session := next;
    changes := if summaryChanged then [NormalizedSummary] else [];
    if summary == Null && Get(session, Summary) != Null {
      session, changes := session[Summary := Null], changes + [ClearedSummary];
    }
  }

  function NameReport(show: Json -> string, s: Object, stem: string): seq<Change> {
    (if NamesReported(show, s, stem) then [NormalizedActor] else [])
    + (if Identity(show, s, stem).Found? then [] else [ManualActor])
  }

  /** What a pass reports. */
  function Report(show: Json -> string, s: Object, p: Pass): seq<Change> {
    HeadReport(s) + RuntimeReport(Get(s, Runtime)) + SummaryReport(Shaped(s, p))
    + NameReport(show, Summarized(Shaped(s, p), p.summaryNow), p.stem)
  }

  /** `migrate_session`. A pass that reports nothing has changed nothing. */
  method MigrateSession(show: Json -> string, payload: Object, p: Pass)
    returns (r: Option<Object>, changes: seq<Change>)
    ensures r == Migrated(show, payload, p)
    ensures r.Some? ==> changes == Report(show, payload, p)
    ensures r.Some? && changes == [] ==> r == Some(payload)
  {
    var headed, head := ShapeHead(payload, p.stem);
    assert Get(headed, Runtime) == Get(payload, Runtime);
    var shaped, runtime := ShapeRuntime(headed, p.frozenNow);
    var summarized, summary := MigrateSummary(shaped, p.summaryNow);
    var named, actor, actorChanged := NormalizeActor(show, summarized, p.stem);
    var names := (if actorChanged then [NormalizedActor] else []) + (if actor.None? then [ManualActor] else []);
    r, changes := named, head + runtime + summary + names;
    EmptyParts(head, runtime, summary, names);
  }

  lemma EmptyParts(a: seq<Change>, b: seq<Change>, c: seq<Change>, d: seq<Change>)
    ensures a + b + c + d == [] ==> a == b == c == d == []
  {
    assert |a + b + c + d| == |a| + |b| + |c| + |d|;
  }
}
