/** What one pass of the session migration writes, field by field of the file it reads. */
module SessionOutcome {
  import opened Common
  import opened PyJson
  import opened SessionMigration
  import opened SessionFixpoint
  import AK = ActorKey

  /** A text that is not blank. */
  predicate HasText(v: Json) {
    v.Str? && Strip(v.text) != ""
  }

  /** Python takes exactly these values for false. */
  lemma TruthyIff(v: Json)
    ensures Truthy(v) <==>
            && v != Null && v != Bool(false) && v != Int(0) && v != Float(0.0) && v != Str("") && v != List([])
            && v != Dict(map[])
  {
  }

  predicate Untouched(key: Key) {
    && key != Id && key != Version && key != Metadata && key != Runtime && key != Summary && key != Messages
    && key != Actor
  }

  /** A pass changes no other field of the file. */
  lemma OthersUntouched(show: Json -> string, s: Object, p: Pass, key: Key)
    requires Migrated(show, s, p).Some? && Untouched(key)
    ensures Get(Migrated(show, s, p).value, key) == Get(s, key)
  {
    ShapedFrame(s, p, key);
    SummarizedFrame(Shaped(s, p), p.summaryNow, key);
    IdentifiedFrame(show, Summarized(Shaped(s, p), p.summaryNow), p.stem, key);
  }

  lemma LaterKept(show: Json -> string, s: Object, p: Pass, key: Key)
    requires Migrated(show, s, p).Some? && key != Summary && key != Messages && key != Actor && key != Id
    ensures Get(Migrated(show, s, p).value, key) == Get(Shaped(s, p), key)
  {
    SummarizedFrame(Shaped(s, p), p.summaryNow, key);
    IdentifiedFrame(show, Summarized(Shaped(s, p), p.summaryNow), p.stem, key);
  }

  function FieldsOf(v: Json): Object {
    if v.Dict? then v.fields else map[]
  }

  /** Where a frozen time may come from, in this order: the prompt state, the creation, the last update. */
  function FrozenSources(s: Object): seq<Json> {
    [Get(FieldsOf(Get(FieldsOf(Get(s, Runtime)), Prompt)), FrozenTime), Get(s, CreatedAt), Get(s, UpdatedAt)]
  }

  /** The frozen time is the first of its sources that is a text and not blank, or else the clock. */
  lemma FrozenTimeIsFirst(s: Object, p: Pass) returns (i: nat)
    ensures i <= 3 && (forall j :: 0 <= j < i ==> !HasText(FrozenSources(s)[j]))
    ensures i < 3 ==> HasText(FrozenSources(s)[i]) && Str(ChooseFrozenTime(s, p.frozenNow)) == FrozenSources(s)[i]
    ensures i == 3 ==> ChooseFrozenTime(s, p.frozenNow) == p.frozenNow
  {
    var sources := FrozenSources(s);
    i := if HasText(sources[0]) then 0 else if HasText(sources[1]) then 1 else if HasText(sources[2]) then 2 else 3;
  }

  lemma {:induction false} ShapedRuntime(s: Object, p: Pass)
    ensures var runtime := Get(Shaped(s, p), Runtime);
            && runtime.Dict? && Get(runtime.fields, Prompt).Dict?
            && Get(Get(runtime.fields, Prompt).fields, FrozenTime) == Str(ChooseFrozenTime(s, p.frozenNow))
            && (forall key :: key != Prompt ==> Get(runtime.fields, key) == Get(FieldsOf(Get(s, Runtime)), key))
            && (forall key :: key != FrozenTime ==>
                  Get(Get(runtime.fields, Prompt).fields, key)
                  == Get(FieldsOf(Get(FieldsOf(Get(s, Runtime)), Prompt)), key))
  {
  }

  /** Version, metadata and runtime after a pass: version 2, an object for metadata, and a prompt state whose frozen
      time is the first non-blank text of its old value, the creation time and the update time, or else the clock;
      everything else in runtime and prompt state is kept. */
  lemma ShapeWritten(show: Json -> string, s: Object, p: Pass) returns (i: nat)
    requires Migrated(show, s, p).Some?
    ensures var x := Migrated(show, s, p).value;
            && Get(x, Version) == (if Get(s, Version) == Float(2.0) then Float(2.0) else Int(2))
            && Get(x, Metadata) == (if Get(s, Metadata).Dict? then Get(s, Metadata) else Dict(map[]))
    ensures var runtime := Get(Migrated(show, s, p).value, Runtime);
            && runtime.Dict? && Get(runtime.fields, Prompt).Dict?
            && (forall key :: key != Prompt ==> Get(runtime.fields, key) == Get(FieldsOf(Get(s, Runtime)), key))
            && (forall key :: key != FrozenTime ==>
                  Get(Get(runtime.fields, Prompt).fields, key)
                  == Get(FieldsOf(Get(FieldsOf(Get(s, Runtime)), Prompt)), key))
            && i <= 3 && (forall j :: 0 <= j < i ==> !HasText(FrozenSources(s)[j]))
            && (i < 3 ==> HasText(FrozenSources(s)[i]))
            && Get(Get(runtime.fields, Prompt).fields, FrozenTime)
            == if i < 3 then FrozenSources(s)[i] else Str(p.frozenNow)
  {
    LaterKept(show, s, p, Version);
    LaterKept(show, s, p, Metadata);
    LaterKept(show, s, p, Runtime);
    ShapedRuntime(s, p);
    i := FrozenTimeIsFirst(s, p);
  }

  // ----- summary and messages -----

  /** A message that holds a summary: from the system, marked, with a text. */
  predicate HoldsSummary(m: Json) {
    && m.Dict? && Get(m.fields, Role) == Str("system") && HasText(Get(m.fields, Content))
    && Get(m.fields, Metadata).Dict? && Get(Get(m.fields, Metadata).fields, IsSummary) == Bool(true)
  }

  /** Message i is the first that holds a summary. */
  ghost predicate FirstSummaryAt(messages: Json, i: nat) {
    && messages.List? && i < |messages.items| && HoldsSummary(messages.items[i])
    && forall j :: 0 <= j < i ==> !HoldsSummary(messages.items[j])
  }

  function TimeOr(v: Json, s: Object, now: string): Json {
    if Truthy(v) then v else if Truthy(Get(s, UpdatedAt)) then Get(s, UpdatedAt) else Str(now)
  }

  lemma {:induction false} FirstSummaryFound(items: seq<Json>)
    ensures match FirstSummary(items)
            case Some(i) => FirstSummaryAt(List(items), i)
            case None => forall j :: 0 <= j < |items| ==> !HoldsSummary(items[j])
  {
    if items != [] && !HoldsSummary(items[0]) {
      FirstSummaryFound(items[1..]);
      forall j | 1 <= j < |items|
        ensures items[j] == items[1..][j - 1]
      {
      }
    }
  }

  /** Message i has moved into the summary. */
  ghost predicate MovedFrom(s: Object, now: string, i: nat, summary: Json, messages: Json)
    requires FirstSummaryAt(Get(s, Messages), i)
  {
    var items := Get(s, Messages).items;
    && messages == List(items[..i] + items[i + 1..])
    && summary == Dict(map[Content := Get(items[i].fields, Content),
                           UpdatedAt := TimeOr(Get(items[i].fields, Timestamp), s, now)])
  }

  ghost predicate FromMessages(s: Object, now: string, summary: Json, messages: Json) {
    if exists i: nat :: FirstSummaryAt(Get(s, Messages), i) then
      exists i: nat :: FirstSummaryAt(Get(s, Messages), i) && MovedFrom(s, now, i, summary, messages)
    else messages == Get(s, Messages) && summary == Null
  }

  /** The summary and the messages that one normalization leaves. */
  ghost predicate SummaryWritten(s: Object, now: string, summary: Json, messages: Json) {
    var before := Get(s, Summary);
    if before.Dict? then
      && messages == Get(s, Messages)
      && summary == if !HasText(Get(before.fields, Content)) then Null
                    else if HasText(Get(before.fields, UpdatedAt)) then before
                    else Dict(before.fields[UpdatedAt := TimeOr(Null, s, now)])
    else if before.Str? then
      messages == Get(s, Messages) && summary == Dict(map[Content := before, UpdatedAt := TimeOr(Null, s, now)])
    else FromMessages(s, now, summary, messages)
  }

  lemma MovedIs(s: Object, now: string)
    requires !Get(s, Summary).Dict? && !Get(s, Summary).Str?
    ensures FromMessages(s, now, Get(Summarized(s, now), Summary), Get(Summarized(s, now), Messages))
  {
    if Get(s, Messages).List? {
      FirstSummaryFound(Get(s, Messages).items);
      match Extractable(s)
      case None =>
      case Some(i) =>
        assert FirstSummaryAt(Get(s, Messages), i);
        assert MovedFrom(s, now, i, Get(Summarized(s, now), Summary), Get(Summarized(s, now), Messages));
    }
  }

  lemma SummarizedIs(s: Object, now: string)
    ensures SummaryWritten(s, now, Get(Summarized(s, now), Summary), Get(Summarized(s, now), Messages))
  {
    if !Get(s, Summary).Dict? && !Get(s, Summary).Str? {
      MovedIs(s, now);
    }
  }

  lemma MovedFrame(s: Object, t: Object, now: string, summary: Json, messages: Json)
    requires Get(s, Messages) == Get(t, Messages) && Get(s, UpdatedAt) == Get(t, UpdatedAt)
    ensures FromMessages(s, now, summary, messages) ==> FromMessages(t, now, summary, messages)
  {
    if FromMessages(s, now, summary, messages) && exists i: nat :: FirstSummaryAt(Get(s, Messages), i) {
      var i: nat :| FirstSummaryAt(Get(s, Messages), i) && MovedFrom(s, now, i, summary, messages);
      assert FirstSummaryAt(Get(t, Messages), i) && MovedFrom(t, now, i, summary, messages);
    }
  }

  lemma SummaryFrame(s: Object, t: Object, now: string, summary: Json, messages: Json)
    requires SummaryWritten(s, now, summary, messages) && Get(s, Summary) == Get(t, Summary)
    requires Get(s, Messages) == Get(t, Messages) && Get(s, UpdatedAt) == Get(t, UpdatedAt)
    ensures SummaryWritten(t, now, summary, messages)
  {
    MovedFrame(s, t, now, summary, messages);
  }

  /** After a pass a summary object with a text has a time, one without text is gone, a text has become an object, and
      otherwise the first message that holds a summary has moved into it, out of the messages, with its time, or else
      that of the session, or else the clock. */
  lemma SummaryIsWritten(show: Json -> string, s: Object, p: Pass)
    requires Migrated(show, s, p).Some?
    ensures var x := Migrated(show, s, p).value; SummaryWritten(s, p.summaryNow, Get(x, Summary), Get(x, Messages))
  {
    var shaped := Shaped(s, p);
    ShapedFrame(s, p, Summary);
    ShapedFrame(s, p, Messages);
    ShapedFrame(s, p, UpdatedAt);
    SummarizedIs(shaped, p.summaryNow);
    var after := Summarized(shaped, p.summaryNow);
    SummaryFrame(shaped, s, p.summaryNow, Get(after, Summary), Get(after, Messages));
    IdentifiedFrame(show, after, p.stem, Summary);
    IdentifiedFrame(show, after, p.stem, Messages);
  }

  // ----- actor and id -----

  /** The id that an actor is decoded from: the session's own, or the file's stem. */
  function SourceId(s: Object, stem: string): string {
    if HasText(Get(s, Id)) then Get(s, Id).text else stem
  }

  /** Actor and id after a pass: of the actor object if it can be read, or else of the actor that the id stands for; an
      id that stands for none is kept, and the pass fails on one that cannot be decoded. */
  lemma NamesWritten(show: Json -> string, s: Object, p: Pass)
    requires Strip(p.stem) != ""
    ensures var read, decoded := ReadActor(show, Get(s, Actor)), DecodeActor(SourceId(s, p.stem));
            match Migrated(show, s, p)
            case None => read.None? && decoded.Crash?
            case Some(x) =>
              if read.Some? then
                Get(x, Actor) == ToJson(read.value) && Get(x, Id) == Str("Actor_" + StorageKey(read.value))
              else match decoded
                   case Crash => false
                   case NoActor => Get(x, Actor) == Get(s, Actor) && Get(x, Id) == Str(SourceId(s, p.stem))
                   case Found(a) => Get(x, Actor) == ToJson(a) && Get(x, Id) == Str("Actor_" + StorageKey(a))
  {
    var shaped := Shaped(s, p);
    ShapedFrame(s, p, Actor);
    SummarizedFrame(shaped, p.summaryNow, Actor);
    SummarizedFrame(shaped, p.summaryNow, Id);
    assert Get(shaped, Id) == Str(SourceId(s, p.stem));
  }

  /** An id without the prefix of session ids stands for no actor. */
  lemma OtherIds(id: string)
    requires !("Actor_" <= id)
    ensures DecodeActor(id) == NoActor
  {
  }

  // ----- reports -----

  lemma HeadReported(s: Object)
    ensures SetId in HeadReport(s) <==> !HasText(Get(s, Id))
    ensures SetVersion in HeadReport(s) <==> Get(s, Version) != Int(2) && Get(s, Version) != Float(2.0)
    ensures NormalizedMetadata in HeadReport(s) <==> !Get(s, Metadata).Dict?
    ensures forall c :: c in HeadReport(s) ==> c == SetId || c == SetVersion || c == NormalizedMetadata
  {
  }

  lemma RuntimeReported(runtime: Json)
    ensures AddedRuntime in RuntimeReport(runtime) <==> !runtime.Dict?
    ensures AddedPrompt in RuntimeReport(runtime) <==> !Get(FieldsOf(runtime), Prompt).Dict?
    ensures SetFrozenTime in RuntimeReport(runtime)
       <==> !HasText(Get(FieldsOf(Get(FieldsOf(runtime), Prompt)), FrozenTime))
    ensures forall c :: c in RuntimeReport(runtime) ==> c == AddedRuntime || c == AddedPrompt || c == SetFrozenTime
  {
  }

  /** A summary object that lacks a text or a time, a text, and a message that holds a summary are reported as
      normalized, and what is none of these as cleared. */
  lemma SummaryIsReported(s: Object)
    ensures var summary := Get(s, Summary);
            var found := !summary.Dict? && !summary.Str? && exists i: nat :: FirstSummaryAt(Get(s, Messages), i);
            SummaryReport(s) ==
            if summary.Str? || found
               || (summary.Dict? && !(HasText(Get(summary.fields, Content)) && HasText(Get(summary.fields, UpdatedAt))))
            then [NormalizedSummary]
            else if summary != Null && !summary.Dict? then [ClearedSummary]
            else []
  {
    if Get(s, Messages).List? {
      FirstSummaryFound(Get(s, Messages).items);
      if Extractable(s).Some? {
        assert FirstSummaryAt(Get(s, Messages), Extractable(s).value);
      }
    }
  }

  /** The names are reported as changed when an actor was decoded from the id, or read and not written like this; and a
      session without actor asks for manual work. */
  lemma NamesAreReported(show: Json -> string, s: Object, stem: string)
    ensures var read, decoded := ReadActor(show, Get(s, Actor)), DecodeActor(SourceId(s, stem));
            NameReport(show, s, stem) ==
            if read.Some? then
              if Get(s, Actor) == ToJson(read.value) && Get(s, Id) == Str("Actor_" + StorageKey(read.value)) then []
              else [NormalizedActor]
            else if decoded.Found? then [NormalizedActor] else [ManualActor]
  {
  }

  predicate OfShape(c: Change) {
    || c == SetId || c == SetVersion || c == NormalizedMetadata
    || c == AddedRuntime || c == AddedPrompt || c == SetFrozenTime
  }

  lemma SummaryOnly(s: Object)
    ensures forall c :: c in SummaryReport(s) ==> !OfShape(c)
  {
  }

  lemma NamesOnly(show: Json -> string, s: Object, stem: string)
    ensures forall c :: c in NameReport(show, s, stem) ==> !OfShape(c)
  {
  }

  lemma ShapeInReport(a: seq<Change>, b: seq<Change>, c: seq<Change>, d: seq<Change>)
    requires forall x :: x in c || x in d ==> !OfShape(x)
    ensures forall x :: OfShape(x) ==> (x in a + b + c + d <==> x in a || x in b)
  {
    assert forall x :: x in a + b + c + d <==> x in a || x in b || x in c || x in d;
  }

  lemma ShapeReported(show: Json -> string, s: Object, p: Pass)
    ensures forall x :: OfShape(x) ==>
      (x in Report(show, s, p) <==> x in HeadReport(s) || x in RuntimeReport(Get(s, Runtime)))
  {
    SummaryOnly(Shaped(s, p));
    NamesOnly(show, Summarized(Shaped(s, p), p.summaryNow), p.stem);
    ShapeInReport(HeadReport(s), RuntimeReport(Get(s, Runtime)), SummaryReport(Shaped(s, p)),
                  NameReport(show, Summarized(Shaped(s, p), p.summaryNow), p.stem));
  }

  /** The report names exactly the parts of the file that are not in shape. */
  ghost predicate ReportsShape(report: seq<Change>, s: Object) {
    && (SetId in report <==> !HasText(Get(s, Id)))
    && (SetVersion in report <==> Get(s, Version) != Int(2) && Get(s, Version) != Float(2.0))
    && (NormalizedMetadata in report <==> !Get(s, Metadata).Dict?)
    && (AddedRuntime in report <==> !Get(s, Runtime).Dict?)
    && (AddedPrompt in report <==> !Get(FieldsOf(Get(s, Runtime)), Prompt).Dict?)
    && (SetFrozenTime in report <==> !HasText(FrozenSources(s)[0]))
  }

  lemma HeadMeaning(report: seq<Change>, s: Object)
    requires forall x :: OfShape(x) ==> (x in report <==> x in HeadReport(s) || x in RuntimeReport(Get(s, Runtime)))
    ensures SetId in report <==> SetId in HeadReport(s)
    ensures SetVersion in report <==> SetVersion in HeadReport(s)
    ensures NormalizedMetadata in report <==> NormalizedMetadata in HeadReport(s)
  {
    RuntimeReported(Get(s, Runtime));
  }

  lemma RuntimeMeaning(report: seq<Change>, s: Object)
    requires forall x :: OfShape(x) ==> (x in report <==> x in HeadReport(s) || x in RuntimeReport(Get(s, Runtime)))
    ensures AddedRuntime in report <==> AddedRuntime in RuntimeReport(Get(s, Runtime))
    ensures AddedPrompt in report <==> AddedPrompt in RuntimeReport(Get(s, Runtime))
    ensures SetFrozenTime in report <==> SetFrozenTime in RuntimeReport(Get(s, Runtime))
  {
    HeadReported(s);
  }

  /** What a pass reports about the parts of the file. */
  lemma ReportMeaning(show: Json -> string, s: Object, p: Pass)
    ensures ReportsShape(Report(show, s, p), s)
  {
    ShapeReported(show, s, p);
    HeadMeaning(Report(show, s, p), s);
    RuntimeMeaning(Report(show, s, p), s);
    HeadReported(s);
    RuntimeReported(Get(s, Runtime));
  }
}
