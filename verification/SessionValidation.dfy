/** The validation of session files, and what it says of sessions that the migration leaves alone. */
module SessionValidation {
  import opened Common
  import opened PyJson
  import opened SessionMigration
  import opened SessionFixpoint
  import AK = ActorKey

  function RuntimeFindings(runtime: Json): seq<Finding> {
    if !runtime.Dict? then [NoRuntime]
    else if !Get(runtime.fields, Prompt).Dict? then [NoPrompt]
    else if !Nonblank(Get(Get(runtime.fields, Prompt).fields, FrozenTime)) then [NoFrozenTime]
    else []
  }

  function SummaryFindings(summary: Json): seq<Finding> {
    if summary == Null then []
    else if !summary.Dict? then [NoSummaryObject]
    else
      (if Get(summary.fields, Content).Str? then [] else [NoSummaryContent])
      + (if Get(summary.fields, UpdatedAt).Str? then [] else [NoSummaryTime])
  }

  /** The id is compared only when channel and user are texts, so nothing is rendered. */
  function IdFindings(s: Object, actor: Json): seq<Finding>
    requires actor.Dict?
  {
    if Nonblank(Get(actor.fields, Channel)) && Nonblank(Get(actor.fields, UserId))
       && WrongIdFor(s, ReadActor(_ => "", actor))
    then [WrongId] else []
  }

  function ActorFindings(s: Object): seq<Finding> {
    var actor := Get(s, Actor);
    if !actor.Dict? then []
    else ChannelFindings(Get(actor.fields, Channel)) + UserFindings(Get(actor.fields, UserId)) + IdFindings(s, actor)
  }

  predicate WrongIdFor(s: Object, a: Option<AK.Actor>) {
    a.Some? && Get(s, Id) != Str(SessionId(a.value))
  }

  function HeadFindings(s: Object, stem: string): seq<Finding> {
    (if IsTwo(Get(s, Version)) then [] else [WrongVersion])
    + (if !Nonblank(Get(s, Id)) then [NoId] else if Get(s, Id).text != stem then [WrongName] else [])
    + (if Get(s, Messages).List? then [] else [NoMessageList])
    + (if Get(s, Metadata).Dict? then [] else [NoMetadata])
  }

  /** `validate_session`, for a file with that stem. */
  function Findings(s: Object, stem: string): seq<Finding> {
    HeadFindings(s, stem) + RuntimeFindings(Get(s, Runtime)) + SummaryFindings(Get(s, Summary)) + ActorFindings(s)
  }

  lemma NoFindingsIff(s: Object, stem: string, actorPasses: bool)
    requires actorPasses <==> ActorFindings(s) == []
    ensures Findings(s, stem) == []
       <==> && HeadFindings(s, stem) == [] && RuntimeFindings(Get(s, Runtime)) == []
            && SummaryFindings(Get(s, Summary)) == [] && actorPasses
  {
    var a, b := HeadFindings(s, stem), RuntimeFindings(Get(s, Runtime));
    var c, d := SummaryFindings(Get(s, Summary)), ActorFindings(s);
    assert |a + b + c + d| == |a| + |b| + |c| + |d|;
  }

  /** Channel and user that are texts are read alike by every rendering, so validation needs none. */
  lemma ReadActorOfTexts(show: Json -> string, raw: Json)
    requires raw.Dict? && Nonblank(Get(raw.fields, Channel)) && Nonblank(Get(raw.fields, UserId))
    ensures ReadActor(show, raw) == ReadActor(_ => "", raw) && ReadActor(show, raw).Some?
  {
    NormalizeChannelSettles(Get(raw.fields, Channel).text);
  }

  lemma ActorFindingsIff(show: Json -> string, s: Object)
    requires NamesSettled(show, s)
    ensures ActorFindings(s) == [] <==> Get(s, Actor).Dict? ==> ReadActor(show, Get(s, Actor)).Some?
  {
    var actor := Get(s, Actor);
    if actor.Dict? {
      if ReadActor(show, actor).Some? {
        var a := ReadActor(show, actor).value;
        ReadActorSettles(show, actor);
        SettledActorPasses(show, s, a);
      } else {
        NormalizeChannelSettles(Shown(show, actor.fields, Channel));
        assert !Nonblank(Get(actor.fields, UserId));
        assert NoUser in ActorFindings(s);
      }
    }
  }

  lemma SettledTexts(show: Json -> string, a: AK.Actor)
    requires Settled(a)
    ensures var o := ToJson(a).fields;
            && ChannelFindings(Get(o, Channel)) == [] && UserFindings(Get(o, UserId)) == []
            && ReadActor(_ => "", ToJson(a)) == Some(a)
  {
    var o := ToJson(a).fields;
    assert Get(o, Channel) == Str(a.channel) && Get(o, UserId) == Str(a.userId);
    ReadActorOfJson(show, a);
    ReadActorOfTexts(show, ToJson(a));
  }

  lemma RightId(s: Object, a: AK.Actor)
    requires HasNames(s, a)
    ensures !WrongIdFor(s, Some(a))
  {
  }

  lemma SettledActorPasses(show: Json -> string, s: Object, a: AK.Actor)
    requires Settled(a) && HasNames(s, a)
    ensures ActorFindings(s) == []
  {
    SettledTexts(show, a);
    RightId(s, a);
    assert IdFindings(s, ToJson(a)) == [];
  }

  lemma SummaryFindingsIff(s: Object)
    requires Stage(s) == 0
    ensures SummaryFindings(Get(s, Summary)) == []
       <==> Get(s, Summary) == Null || Get(Get(s, Summary).fields, UpdatedAt).Str?
  {
  }

  /** Data that a pass leaves alone are in shape, their summary is at stage 0, and their names are settled. */
  lemma FixpointIsSettled(show: Json -> string, x: Object, p: Pass)
    requires Proper(p) && Migrated(show, x, p) == Some(x)
    ensures ShapeOk(x) && Stage(x) == 0 && NamesSettled(show, x)
  {
    PassEffect(show, x, p);
    OkIsShaped(x, p);
    var y := Summarized(x, p.summaryNow);
    SummarizedFrame(x, p.summaryNow, Actor);
    SummarizedFrame(x, p.summaryNow, Id);
    IdentityFrame(show, x, y, p.stem);
    StemIsUnused(show, x, p.stem);
    if Identity(show, y, p.stem).Found? {
      FoundIsNamed(show, y, p.stem, Identity(show, y, p.stem).actor);
    }
  }

  /** They are valid under their own id exactly when the messages are a list, the summary has a text for its time, and
      an actor object, if there is one, can be read. */
  lemma FixpointIsValidIff(show: Json -> string, x: Object, p: Pass)
    requires Proper(p) && Migrated(show, x, p) == Some(x)
    ensures Nonblank(Get(x, Id)) && (Get(x, Summary) == Null || Get(x, Summary).Dict?)
    ensures Findings(x, Get(x, Id).text) == []
       <==> && Get(x, Messages).List?
            && (Get(x, Summary) != Null ==> Get(Get(x, Summary).fields, UpdatedAt).Str?)
            && (Get(x, Actor).Dict? ==> ReadActor(show, Get(x, Actor)).Some?)
  {
    FixpointIsSettled(show, x, p);
    SummaryFindingsIff(x);
    ActorFindingsIff(show, x);
    HeadFindingsIff(x);
    NoFindingsIff(x, Get(x, Id).text, Get(x, Actor).Dict? ==> ReadActor(show, Get(x, Actor)).Some?);
  }

  lemma HeadFindingsIff(x: Object)
    requires ShapeOk(x)
    ensures HeadFindings(x, Get(x, Id).text) == [] <==> Get(x, Messages).List?
    ensures RuntimeFindings(Get(x, Runtime)) == []
  {
  }

  // ----- which sessions are valid -----

  predicate HasText(v: Json) {
    v.Str? && Strip(v.text) != ""
  }

  /** The actor that such texts name, in normal form. */
  function NamedActor(channel: Json, userId: Json, scope: Json): AK.Actor
    requires channel.Str? && userId.Str?
  {
    AK.Actor(NormalizeChannel(channel.text),
             if HasText(scope) && Strip(scope.text) != "direct" then Some(Strip(scope.text)) else None,
             Strip(userId.text))
  }

  lemma NamedActorIsRead(o: Object)
    requires HasText(Get(o, Channel)) && HasText(Get(o, UserId))
    ensures ReadActor(_ => "", Dict(o)) == Some(NamedActor(Get(o, Channel), Get(o, UserId), Get(o, ChannelScope)))
  {
    NormalizeChannelSettles(Get(o, Channel).text);
  }

  /** Channel and user are texts, the channel is no legacy one, and the id is that of the actor in normal form. */
  ghost predicate ValidActor(s: Object, o: Object) {
    && HasText(Get(o, Channel)) && Get(o, Channel).text != "web_test" && HasText(Get(o, UserId))
    && Get(s, Id) == Str("Actor_" + StorageKey(NamedActor(Get(o, Channel), Get(o, UserId), Get(o, ChannelScope))))
  }

  /** What a session needs to pass validation in a file with that stem. */
  ghost predicate Valid(s: Object, stem: string) {
    && (Get(s, Version) == Int(2) || Get(s, Version) == Float(2.0))
    && Get(s, Id) == Str(stem) && Strip(stem) != "" && Get(s, Messages).List? && Get(s, Metadata).Dict?
    && Get(s, Runtime).Dict? && Get(Get(s, Runtime).fields, Prompt).Dict?
    && HasText(Get(Get(Get(s, Runtime).fields, Prompt).fields, FrozenTime))
    && (Get(s, Summary) == Null || (
          && Get(s, Summary).Dict? && Get(Get(s, Summary).fields, Content).Str?
          && Get(Get(s, Summary).fields, UpdatedAt).Str?))
    && (Get(s, Actor).Dict? ==> ValidActor(s, Get(s, Actor).fields))
  }

  lemma HeadValid(s: Object, stem: string)
    ensures HeadFindings(s, stem) == [] <==>
            && (Get(s, Version) == Int(2) || Get(s, Version) == Float(2.0))
            && Get(s, Id) == Str(stem) && Strip(stem) != "" && Get(s, Messages).List? && Get(s, Metadata).Dict?
  {
  }

  lemma RestValid(s: Object)
    ensures RuntimeFindings(Get(s, Runtime)) == [] <==>
            && Get(s, Runtime).Dict? && Get(Get(s, Runtime).fields, Prompt).Dict?
            && HasText(Get(Get(Get(s, Runtime).fields, Prompt).fields, FrozenTime))
    ensures SummaryFindings(Get(s, Summary)) == [] <==>
            (Get(s, Summary) == Null || (
             && Get(s, Summary).Dict? && Get(Get(s, Summary).fields, Content).Str?
             && Get(Get(s, Summary).fields, UpdatedAt).Str?))
  {
  }

  lemma ActorValid(s: Object)
    requires Get(s, Actor).Dict?
    ensures ActorFindings(s) == [] <==> ValidActor(s, Get(s, Actor).fields)
  {
    var actor := Get(s, Actor);
    var o := actor.fields;
    var a, b, c := ChannelFindings(Get(o, Channel)), UserFindings(Get(o, UserId)), IdFindings(s, actor);
    assert |a + b + c| == |a| + |b| + |c|;
    assert Strip("") == "";
    if HasText(Get(o, Channel)) && HasText(Get(o, UserId)) {
      NamedActorIsRead(o);
    }
  }

  /** Validation finds nothing exactly in valid sessions. */
  lemma ValidIff(s: Object, stem: string)
    ensures Findings(s, stem) == [] <==> Valid(s, stem)
  {
    HeadValid(s, stem);
    RestValid(s);
    if Get(s, Actor).Dict? {
      ActorValid(s);
    }
    NoFindingsIff(s, stem, ActorFindings(s) == []);
  }
}
