/** JSON values with Python's meaning, and the actor objects that both migration scripts normalize. */
module PyJson {
  import opened Common
  import AK = ActorKey

  /** The object keys that the scripts name; all others are `Other`. */
  datatype Key =
    | Id | Version | Metadata | Runtime | Prompt | FrozenTime | CreatedAt | UpdatedAt | Summary | Content | Messages
    | Role | IsSummary | Timestamp | Actor | Channel | UserId | ChannelScope | Jobs | Other(name: string)

  type Object = map<Key, Json>

  datatype Json = Null | Bool(flag: bool) | Int(n: int) | Float(x: real) | Str(text: string) | List(items: seq<Json>)
                | Dict(fields: map<Key, Json>)

  /** `o.get(key)`: None for an absent key as for a null. */
  function Get(o: Object, key: Key): Json {
    if key in o then o[key] else Null
  }

  predicate Truthy(v: Json) {
    match v
    case Null => false
    case Bool(b) => b
    case Int(n) => n != 0
    case Float(x) => x != 0.0
    case Str(t) => t != ""
    case List(l) => l != []
    case Dict(d) => d != map[]
  }

  /** `isinstance(v, str) and v.strip()`. */
  predicate Nonblank(v: Json) {
    v.Str? && Strip(v.text) != ""
  }

  /** `str(o.get(key, ""))`, where `show` is Python's rendering of everything but strings. */
  function Shown(show: Json -> string, o: Object, key: Key): string {
    if key !in o then "" else if o[key].Str? then o[key].text else show(o[key])
  }

  // ----- channels -----

  const WEB := "web"
  const WEB_TEST := "web_test"

  predicate LegacyWeb(channel: string) {
    channel == "" || channel == WEB_TEST
  }

  function NormalizeChannel(channel: string): string {
    if LegacyWeb(Strip(channel)) then WEB else Strip(channel)
  }

  /** A normalized channel is a text that normalizing leaves alone. */
  lemma NormalizeChannelSettles(channel: string)
    ensures var c := NormalizeChannel(channel);
            c != "" && !LegacyWeb(c) && Strip(c) == c && NormalizeChannel(c) == c
  {
    StripStrips(channel);
    assert |WEB| == 3 && |WEB_TEST| == 8;
    assert Stripped(WEB);
    StripStrips(WEB);
  }

  /** A channel is taken without outer white space, and a blank or test channel is the web. */
  lemma NormalizeChannelMeaning(channel: string)
    ensures NormalizeChannel(channel)
         == if Strip(channel) == "" || Strip(channel) == "web_test" then "web" else Strip(channel)
    ensures NormalizeChannel(Strip(channel)) == NormalizeChannel(channel)
  {
    StripStrips(channel);
  }

  // ----- actors -----

  /** The object for an actor. */
  function ToJson(a: AK.Actor): Json {
    var base: Object := map[Channel := Str(a.channel), UserId := Str(a.userId)];
    Dict(if a.scope.Some? then base[ChannelScope := Str(a.scope.value)] else base)
  }

  /** The actor that both scripts read from an actor object: None when its user is blank, or when it is no object. */
  function ReadActor(show: Json -> string, raw: Json): Option<AK.Actor> {
    if !raw.Dict? then None
    else
      var channel := NormalizeChannel(Shown(show, raw.fields, Channel));
      var userId := Strip(Shown(show, raw.fields, UserId));
      if channel == "" || userId == "" then None
      else
        var scope := Get(raw.fields, ChannelScope);
        var own := if Nonblank(scope) && Strip(scope.text) != AK.DIRECT then Some(Strip(scope.text)) else None;
        Some(AK.Actor(channel, own, userId))
  }

  /** Nothing left to normalize. */
  ghost predicate Settled(a: AK.Actor) {
    && a.channel != "" && NormalizeChannel(a.channel) == a.channel
    && !LegacyWeb(a.channel) && Strip(a.channel) == a.channel
    && a.userId != "" && Strip(a.userId) == a.userId
    && (a.scope.Some? ==> a.scope.value != "" && Strip(a.scope.value) == a.scope.value && a.scope.value != AK.DIRECT)
  }

  lemma ReadActorSettles(show: Json -> string, raw: Json)
    ensures ReadActor(show, raw).Some? ==> Settled(ReadActor(show, raw).value)
  {
    if ReadActor(show, raw).Some? {
      NormalizeChannelSettles(Shown(show, raw.fields, Channel));
      StripStrips(Shown(show, raw.fields, UserId));
      if Nonblank(Get(raw.fields, ChannelScope)) {
        StripStrips(Get(raw.fields, ChannelScope).text);
      }
    }
  }

  /** A text, without outer white space. */
  function Text(show: Json -> string, o: Object, key: Key): string {
    if key !in o then "" else Strip(if o[key].Str? then o[key].text else show(o[key]))
  }

  /** An actor is read exactly from an object with a user that is not blank: that user, the channel in normal form, and
      the scope if it is a text, not blank and not "direct". */
  lemma ReadActorIff(show: Json -> string, raw: Json)
    ensures ReadActor(show, raw).Some? <==> raw.Dict? && Text(show, raw.fields, UserId) != ""
    ensures ReadActor(show, raw).Some? ==>
      var a, channel := ReadActor(show, raw).value, Text(show, raw.fields, Channel);
      && a.userId == Text(show, raw.fields, UserId)
      && a.channel == (if channel == "" || channel == "web_test" then "web" else channel)
      && forall x :: a.scope == Some(x) <==>
           && ChannelScope in raw.fields && raw.fields[ChannelScope].Str? && x == Strip(raw.fields[ChannelScope].text)
           && x != "" && x != "direct"
  {
    assert Strip("") == "";
    if raw.Dict? {
      NormalizeChannelMeaning(Shown(show, raw.fields, Channel));
      NormalizeChannelSettles(Shown(show, raw.fields, Channel));
    }
  }

  /** What reading the object of an actor gives: the actor with its user and scope stripped. */
  lemma ReadActorOfJson(show: Json -> string, a: AK.Actor)
    requires NormalizeChannel(a.channel) == a.channel && a.channel != ""
    ensures ReadActor(show, ToJson(a)).Some? <==> Strip(a.userId) != ""
    ensures Settled(a) ==> ReadActor(show, ToJson(a)) == Some(a)
  {
    var o := ToJson(a).fields;
    assert Shown(show, o, Channel) == a.channel && Shown(show, o, UserId) == a.userId;
    assert Get(o, ChannelScope) == if a.scope.Some? then Str(a.scope.value) else Null;
  }

  /** `actor_storage_key`. */
  function StorageKey(a: AK.Actor): string {
    AK.StorageKey(AK.Python, a)
  }

  // ----- what the validations report -----

  datatype Finding =
    // of either script
    | NoChannel | LegacyChannel | NoUser | WrongName
    // of cron job files
    | NoActorObject | NoJobList | JobNotObject(job: nat) | JobWithoutChannel(job: nat) | JobWithLegacyChannel(job: nat)
    // of session files
    | WrongVersion | NoId | NoMessageList | NoMetadata | NoRuntime | NoPrompt | NoFrozenTime | NoSummaryObject
    | NoSummaryContent | NoSummaryTime | WrongId

  function ChannelFindings(channel: Json): seq<Finding> {
    if !Nonblank(channel) then [NoChannel] else if LegacyWeb(channel.text) then [LegacyChannel] else []
  }

  function UserFindings(userId: Json): seq<Finding> {
    if !Nonblank(userId) then [NoUser] else []
  }
}
