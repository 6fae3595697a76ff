/** Repeated session migration: after how many passes the data stay the same, and which final data are valid. */
module SessionFixpoint {
  import opened Common
  import opened PyJson
  import opened SessionMigration
  import opened UnreadableText
  import AK = ActorKey
  import Utf8

  // ----- ids that the script can read back -----

  /** What the script makes of an id that it cannot always read back: an actor with a normalized channel. */
  ghost predicate Readable(a: AK.Actor) {
    && a.channel != "" && NormalizeChannel(a.channel) == a.channel && a.userId != ""
    && Restorable(a.channel) && Restorable(AK.ScopeText(AK.Python, a.scope)) && Restorable(a.userId)
  }

  /** An empty scope, or one that spells the default, is read back as none. */
  function ReadBack(a: AK.Actor): AK.Actor {
    var scope := AK.ScopeText(AK.Python, a.scope);
    a.(scope := if scope == AK.DIRECT then None else Some(scope))
  }

  lemma KeyReadBack(a: AK.Actor)
    requires Readable(a)
    ensures DecodeKey(StorageKey(a)) == Found(ReadBack(a))
  {
    AK.KeyParts(AK.Python, a);
    AK.PythonRestoresIff(AK.Python, a.channel);
    AK.PythonRestoresIff(AK.Python, AK.ScopeText(AK.Python, a.scope));
    AK.PythonRestoresIff(AK.Python, a.userId);
    var parts := AK.SplitAll(StorageKey(a));
    assert AK.PyDecode(parts[0]) == Some(a.channel) && AK.PyDecode(parts[2]) == Some(a.userId);
    assert AK.PyDecode(parts[1]) == Some(AK.ScopeText(AK.Python, a.scope));
  }

  lemma PrefixDrops(prefix: string, rest: string)
    ensures prefix <= prefix + rest && (prefix + rest)[|prefix|..] == rest
  {
  }

  /** The session id of an actor reads back as the actor, and reading back changes neither id nor actor again. */
  lemma SessionIdReadBack(a: AK.Actor)
    requires Readable(a)
    ensures DecodeActor(SessionId(a)) == Found(ReadBack(a))
    ensures SessionId(ReadBack(a)) == SessionId(a) && Readable(ReadBack(a)) && ReadBack(ReadBack(a)) == ReadBack(a)
  {
    KeyReadBack(a);
    PrefixDrops(ACTOR_PREFIX, StorageKey(a));
    ReadBackKeepsKey(a);
  }

  lemma ReadBackKeepsKey(a: AK.Actor)
    ensures AK.ScopeText(AK.Python, ReadBack(a).scope) == AK.ScopeText(AK.Python, a.scope)
    ensures StorageKey(ReadBack(a)) == StorageKey(a)
  {
  }

  lemma SessionIdNotBlank(a: AK.Actor)
    ensures Nonblank(Str(SessionId(a)))
  {
    var id := SessionId(a);
    assert id[0] == ACTOR_PREFIX[0] == 'A';
    TrimEndKeepsFirst(id);
  }

  // ----- how the actor settles -----

  ghost predicate HasNames(s: Object, a: AK.Actor) {
    Get(s, Actor) == ToJson(a) && Get(s, Id) == Str(SessionId(a))
  }

  /** The next pass finds no actor, or the one that is there. */
  ghost predicate NamesSettled(show: Json -> string, s: Object) {
    && Nonblank(Get(s, Id))
    && (Identity(show, s, "").NoActor? || (Identity(show, s, "").Found? && HasNames(s, Identity(show, s, "").actor)))
  }

  /** The names are those of an actor decoded from an id, whose user is not blank or whose parts can be read back. */
  ghost predicate NamesDecoded(s: Object, a: AK.Actor) {
    && HasNames(s, a) && a.channel != "" && NormalizeChannel(a.channel) == a.channel && a.userId != ""
    && (Strip(a.userId) == "" ==> Readable(a))
  }

  lemma StemIsUnused(show: Json -> string, s: Object, stem: string)
    requires Nonblank(Get(s, Id))
    ensures Identity(show, s, stem) == Identity(show, s, "")
  {
  }

  lemma NamedHasNames(s: Object, a: AK.Actor)
    ensures HasNames(Named(s, a), a)
  {
  }

  lemma SettledNames(show: Json -> string, t: Object, a: AK.Actor)
    requires Settled(a) && HasNames(t, a)
    ensures NamesSettled(show, t)
  {
    SessionIdNotBlank(a);
    ReadActorOfJson(show, a);
  }

  lemma FoundIsNamed(show: Json -> string, s: Object, stem: string, a: AK.Actor)
    requires Identity(show, s, stem) == Found(a)
    ensures Identified(show, s, stem).Some? && HasNames(Identified(show, s, stem).value, a)
  {
    NamedHasNames(s, a);
  }

  /** An actor object that can be read settles the names in one pass. */
  lemma ReadNamesSettle(show: Json -> string, s: Object, stem: string)
    requires ReadActor(show, Get(s, Actor)).Some?
    ensures Identified(show, s, stem).Some? && NamesSettled(show, Identified(show, s, stem).value)
  {
    var a := ReadActor(show, Get(s, Actor)).value;
    ReadActorSettles(show, Get(s, Actor));
    FoundIsNamed(show, s, stem, a);
    SettledNames(show, Identified(show, s, stem).value, a);
  }

  lemma BlankUserNames(show: Json -> string, t: Object, a: AK.Actor)
    requires Readable(a) && Strip(a.userId) == "" && ReadBack(a) == a && HasNames(t, a)
    ensures NamesSettled(show, t)
  {
    SessionIdNotBlank(a);
    ReadActorOfJson(show, a);
    SessionIdReadBack(a);
  }

  lemma DecodedNamesSettle(show: Json -> string, s: Object, stem: string, a: AK.Actor)
    requires NamesDecoded(s, a)
    ensures Identified(show, s, stem).Some? && NamesSettled(show, Identified(show, s, stem).value)
  {
    ReadActorOfJson(show, a);
    if Strip(a.userId) != "" {
      ReadNamesSettle(show, s, stem);
    } else {
      SessionIdNotBlank(a);
      SessionIdReadBack(a);
      var b := ReadBack(a);
      FoundIsNamed(show, s, stem, b);
      BlankUserNames(show, Identified(show, s, stem).value, b);
    }
  }

  /** Settled names stay as they are. */
  lemma SettledNamesStay(show: Json -> string, s: Object, stem: string)
    requires NamesSettled(show, s)
    ensures Identified(show, s, stem) == Some(s)
  {
    StemIsUnused(show, s, stem);
    if Identity(show, s, stem).Found? {
      SameNames(s, Identity(show, s, stem).actor);
    }
  }

  lemma SameNames(s: Object, a: AK.Actor)
    requires HasNames(s, a)
    ensures Named(s, a) == s
  {
    assert s[Actor := s[Actor]][Id := s[Id]] == s;
  }

  /** What the first pass needs: an actor that it decodes from an id or file name has a user that is not blank,
      or parts that the script can read back, as it can all ASCII parts. */
  ghost predicate Recoverable(show: Json -> string, s: Object, stem: string) {
    match Identity(show, s, stem)
    case Crash => false
    case NoActor => true
    case Found(a) => ReadActor(show, Get(s, Actor)).Some? || (Strip(a.userId) == "" ==> Readable(a))
  }

  lemma FirstNames(show: Json -> string, s: Object, stem: string)
    requires Recoverable(show, s, stem) && Nonblank(Get(s, Id))
    ensures Identified(show, s, stem).Some?
    ensures var t := Identified(show, s, stem).value;
            NamesSettled(show, t) || exists a :: NamesDecoded(t, a)
  {
    StemIsUnused(show, s, stem);
    match Identity(show, s, stem) {
      case NoActor =>
      case Found(a) =>
        if ReadActor(show, Get(s, Actor)).Some? {
          ReadNamesSettle(show, s, stem);
        } else {
          FoundIsNamed(show, s, stem, a);
          DecodedChannel(Get(s, Id).text);
          assert NamesDecoded(Identified(show, s, stem).value, a);
        }
    }
  }

  lemma DecodedChannel(id: string)
    ensures DecodeActor(id).Found? ==>
              var a := DecodeActor(id).actor;
              a.channel != "" && NormalizeChannel(a.channel) == a.channel && a.userId != ""
  {
    if DecodeActor(id).Found? {
      var parts := AK.SplitAll(id[|ACTOR_PREFIX|..]);
      NormalizeChannelSettles(AK.PyDecode(parts[0]).value);
    }
  }

  // ----- one pass -----

  lemma SummarizedFrame(s: Object, now: string, key: Key)
    requires key != Summary && key != Messages
    ensures Get(Summarized(s, now), key) == Get(s, key)
  {
  }

  lemma IdentifiedFrame(show: Json -> string, s: Object, stem: string, key: Key)
    requires key != Actor && key != Id && Identified(show, s, stem).Some?
    ensures Get(Identified(show, s, stem).value, key) == Get(s, key)
  {
  }

  lemma ShapedFrame(s: Object, p: Pass, key: Key)
    requires key != Id && key != Version && key != Metadata && key != Runtime
    ensures Get(Shaped(s, p), key) == Get(s, key)
  {
  }

  lemma ShapeFrame(s: Object, t: Object)
    requires ShapeOk(s) && Nonblank(Get(t, Id)) && Get(t, Version) == Get(s, Version)
    requires Get(t, Metadata) == Get(s, Metadata) && Get(t, Runtime) == Get(s, Runtime)
    ensures ShapeOk(t)
  {
  }

  lemma IdKept(show: Json -> string, s: Object, stem: string)
    requires Nonblank(Get(s, Id)) && Identified(show, s, stem).Some?
    ensures Nonblank(Get(Identified(show, s, stem).value, Id))
  {
    if Identity(show, s, stem).Found? {
      var a := Identity(show, s, stem).actor;
      SessionIdNotBlank(a);
      FoundIsNamed(show, s, stem, a);
    }
  }

  lemma ShapeKept(show: Json -> string, s: Object, now: string, stem: string)
    requires ShapeOk(s) && Identified(show, Summarized(s, now), stem).Some?
    ensures ShapeOk(Identified(show, Summarized(s, now), stem).value)
  {
    var t := Summarized(s, now);
    SummarizedFrame(s, now, Id);
    SummarizedFrame(s, now, Version);
    SummarizedFrame(s, now, Metadata);
    SummarizedFrame(s, now, Runtime);
    ShapeFrame(s, t);
    IdentifiedFrame(show, t, stem, Version);
    IdentifiedFrame(show, t, stem, Metadata);
    IdentifiedFrame(show, t, stem, Runtime);
    IdKept(show, t, stem);
    ShapeFrame(t, Identified(show, t, stem).value);
  }

  /** A pass puts the shape right and takes one stage off the summary. */
  lemma PassEffect(show: Json -> string, s: Object, p: Pass)
    requires Proper(p) && Migrated(show, s, p).Some?
    ensures ShapeOk(Migrated(show, s, p).value)
    ensures Stage(Migrated(show, s, p).value) == Less1(Stage(s))
  {
    var s1 := Shaped(s, p);
    var s2 := Summarized(s1, p.summaryNow);
    var s3 := Identified(show, s2, p.stem).value;
    ShapedIsOk(s, p);
    ShapeKept(show, s1, p.summaryNow, p.stem);
    ShapedFrame(s, p, Summary);
    ShapedFrame(s, p, Messages);
    ShapedFrame(s, p, UpdatedAt);
    StageFrame(s, s1);
    StageFalls(s1, p.summaryNow);
    IdentifiedFrame(show, s2, p.stem, Summary);
    IdentifiedFrame(show, s2, p.stem, Messages);
    IdentifiedFrame(show, s2, p.stem, UpdatedAt);
    StageFrame(s2, s3);
  }

  lemma IdentityFrame(show: Json -> string, s: Object, t: Object, stem: string)
    requires Get(s, Actor) == Get(t, Actor) && Get(s, Id) == Get(t, Id)
    ensures Identity(show, s, stem) == Identity(show, t, stem)
  {
  }

  lemma NamesFrame(show: Json -> string, s: Object, now: string)
    ensures NamesSettled(show, s) ==> NamesSettled(show, Summarized(s, now))
    ensures forall a :: NamesDecoded(s, a) ==> NamesDecoded(Summarized(s, now), a)
  {
    SummarizedFrame(s, now, Actor);
    SummarizedFrame(s, now, Id);
    IdentityFrame(show, s, Summarized(s, now), "");
  }

  /** A session in shape with settled names stays as it is in a pass exactly at summary stage 0. */
  lemma StaysIff(show: Json -> string, x: Object, p: Pass)
    requires Proper(p) && ShapeOk(x) && NamesSettled(show, x)
    ensures Migrated(show, x, p).Some? && NamesSettled(show, Migrated(show, x, p).value)
    ensures Migrated(show, x, p) == Some(x) <==> Stage(x) == 0
  {
    OkIsShaped(x, p);
    NamesFrame(show, x, p.summaryNow);
    SettledNamesStay(show, Summarized(x, p.summaryNow), p.stem);
    StageFalls(x, p.summaryNow);
  }

  // ----- many passes -----

  function Run(show: Json -> string, s: Object, passes: seq<Pass>): Option<Object> {
    if passes == [] then Some(s)
    else match Run(show, s, passes[..|passes| - 1])
         case None => None
         case Some(x) => Migrated(show, x, passes[|passes| - 1])
  }

  ghost predicate AllProper(passes: seq<Pass>) {
    forall i :: 0 <= i < |passes| ==> Proper(passes[i])
  }

  function Minus(a: nat, b: nat): nat {
    if a <= b then 0 else a - b
  }

  ghost predicate FirstPassSafe(show: Json -> string, s: Object, p: Pass) {
    Recoverable(show, Shaped(s, p), p.stem)
  }

  lemma FirstPass(show: Json -> string, s: Object, p: Pass)
    requires Proper(p) && FirstPassSafe(show, s, p)
    ensures Migrated(show, s, p).Some?
    ensures var x := Migrated(show, s, p).value;
            && ShapeOk(x) && Stage(x) == Less1(Stage(s))
            && (NamesSettled(show, x) || exists a :: NamesDecoded(x, a))
    ensures ReadActor(show, Get(s, Actor)).Some? ==> NamesSettled(show, Migrated(show, s, p).value)
  {
    var s1 := Shaped(s, p);
    var s2 := Summarized(s1, p.summaryNow);
    ShapedIsOk(s, p);
    ShapedFrame(s, p, Actor);
    SummarizedFrame(s1, p.summaryNow, Actor);
    SummarizedFrame(s1, p.summaryNow, Id);
    IdentityFrame(show, s1, s2, p.stem);
    FirstNames(show, s2, p.stem);
    PassEffect(show, s, p);
    if ReadActor(show, Get(s, Actor)).Some? {
      ReadNamesSettle(show, s2, p.stem);
    }
  }

  lemma NextPass(show: Json -> string, x: Object, p: Pass)
    requires Proper(p) && ShapeOk(x) && (NamesSettled(show, x) || exists a :: NamesDecoded(x, a))
    ensures Migrated(show, x, p).Some?
    ensures var y := Migrated(show, x, p).value;
            ShapeOk(y) && Stage(y) == Less1(Stage(x)) && NamesSettled(show, y)
  {
    OkIsShaped(x, p);
    if NamesSettled(show, x) {
      StaysIff(show, x, p);
    } else {
      var a :| NamesDecoded(x, a);
      NamesFrame(show, x, p.summaryNow);
      DecodedNamesSettle(show, Summarized(x, p.summaryNow), p.stem, a);
    }
    PassEffect(show, x, p);
  }

  /** What a run of n passes leaves, after a safe first one. */
  ghost predicate Passed(show: Json -> string, s: Object, n: nat, x: Object) {
    && ShapeOk(x) && Stage(x) == Minus(Stage(s), n)
    && (NamesSettled(show, x) || exists a :: NamesDecoded(x, a))
    && (n >= 2 || ReadActor(show, Get(s, Actor)).Some? ==> NamesSettled(show, x))
  }

  lemma OnePassed(show: Json -> string, s: Object, p: Pass)
    requires Proper(p) && FirstPassSafe(show, s, p)
    ensures Migrated(show, s, p).Some? && Passed(show, s, 1, Migrated(show, s, p).value)
  {
    FirstPass(show, s, p);
  }

  lemma OneMorePassed(show: Json -> string, s: Object, n: nat, x: Object, p: Pass)
    requires n > 0 && Proper(p) && Passed(show, s, n, x)
    ensures Migrated(show, x, p).Some? && Passed(show, s, n + 1, Migrated(show, x, p).value)
  {
    NextPass(show, x, p);
  }

  lemma RunSnoc(show: Json -> string, s: Object, passes: seq<Pass>)
    requires passes != []
    ensures var before := Run(show, s, passes[..|passes| - 1]);
            Run(show, s, passes)
            == if before.Some? then Migrated(show, before.value, passes[|passes| - 1]) else None
  {
  }

  lemma {:induction false} RunEffect(show: Json -> string, s: Object, passes: seq<Pass>)
    requires passes != [] && AllProper(passes) && FirstPassSafe(show, s, passes[0])
    ensures Run(show, s, passes).Some? && Passed(show, s, |passes|, Run(show, s, passes).value)
  {
    var n := |passes|;
    RunSnoc(show, s, passes);
    if n == 1 {
      assert passes[..0] == [];
      OnePassed(show, s, passes[0]);
    } else {
      RunEffect(show, s, passes[..n - 1]);
      OneMorePassed(show, s, n - 1, Run(show, s, passes[..n - 1]).value, passes[n - 1]);
    }
  }

  // ----- names that never settle -----

  /** The names are those of an actor with a blank user, and some part of them cannot be read back. */
  ghost predicate NamesUnread(s: Object, a: AK.Actor) {
    && HasNames(s, a) && a.channel != "" && NormalizeChannel(a.channel) == a.channel
    && a.userId != "" && Strip(a.userId) == "" && !Readable(a)
  }

  lemma DecodeOfUnread(a: AK.Actor)
    ensures DecodeActor(SessionId(a)) == DecodeKey(StorageKey(a))
    ensures AK.SplitAll(StorageKey(a))
         == [Written(a.channel), Written(AK.ScopeText(AK.Python, a.scope)), Written(a.userId)]
  {
    AK.KeyParts(AK.Python, a);
    PrefixDrops(ACTOR_PREFIX, StorageKey(a));
  }

  /** What a channel decodes to: itself, or another channel that cannot be read back either. */
  lemma DecodedChannelMoves(channel: string, read: string)
    requires channel != "" && NormalizeChannel(channel) == channel && AK.PyDecode(Written(channel)) == Some(read)
    ensures Restorable(channel) ==> NormalizeChannel(read) == channel
    ensures !Restorable(channel) ==> NormalizeChannel(read) == read != channel && !Restorable(read)
  {
    AK.PythonRestoresIff(AK.Python, channel);
    if !Restorable(channel) {
      NormalizeChannelSettles(channel);
      StripStrips(channel);
      DecodedIsStripped(channel, read);
      StripStrips(read);
      StaysUnreadable(channel, read);
      LegacyIsRestorable();
    }
  }

  lemma LegacyIsRestorable()
    ensures Restorable(WEB_TEST) && Restorable("") && Restorable(AK.DIRECT)
  {
    AK.DirectIsAscii();
    AsciiIsRestorable(AK.DIRECT);
    AsciiIsRestorable("");
    AsciiIsRestorable(WEB_TEST);
  }

  /** What a scope decodes to, in the same way. */
  lemma DecodedScopeMoves(scope: string, read: string)
    requires AK.PyDecode(Written(scope)) == Some(read)
    ensures Restorable(scope) ==> read == scope
    ensures !Restorable(scope) ==> read != scope && !Restorable(read) && read != AK.DIRECT && read != ""
  {
    AK.PythonRestoresIff(AK.Python, scope);
    if !Restorable(scope) {
      StaysUnreadable(scope, read);
      LegacyIsRestorable();
    }
  }

  lemma BlankUserReread(user: string)
    requires Strip(user) == "" && AK.PyDecode(Written(user)).Some?
    ensures Restorable(user) && AK.PyDecode(Written(user)) == Some(user)
  {
    if !Restorable(user) {
      BlankUnreadableFails(user);
    }
    AK.PythonRestoresIff(AK.Python, user);
  }

  /** The next decoding fails, or finds another such actor. */
  lemma UnreadDecoded(a: AK.Actor)
    requires a.channel != "" && NormalizeChannel(a.channel) == a.channel
    requires a.userId != "" && Strip(a.userId) == "" && !Readable(a)
    ensures var d := DecodeActor(SessionId(a));
            && !d.NoActor?
            && (d.Found? ==>
                  && d.actor != a && !Readable(d.actor) && d.actor.channel != "" && d.actor.userId == a.userId
                  && NormalizeChannel(d.actor.channel) == d.actor.channel)
  {
    DecodeOfUnread(a);
    var scope := AK.ScopeText(AK.Python, a.scope);
    var c, s, u := AK.PyDecode(Written(a.channel)), AK.PyDecode(Written(scope)), AK.PyDecode(Written(a.userId));
    if c.Some? && s.Some? && u.Some? {
      BlankUserReread(a.userId);
      DecodedChannelMoves(a.channel, c.value);
      DecodedScopeMoves(scope, s.value);
      NormalizeChannelSettles(c.value);
    }
  }

  lemma ToJsonInjective(a: AK.Actor, b: AK.Actor)
    requires ToJson(a) == ToJson(b)
    ensures a == b
  {
    var o, p := ToJson(a).fields, ToJson(b).fields;
    assert Get(o, Channel) == Str(a.channel) && Get(p, Channel) == Str(b.channel);
    assert Get(o, UserId) == Str(a.userId) && Get(p, UserId) == Str(b.userId);
    assert Get(o, ChannelScope) == if a.scope.Some? then Str(a.scope.value) else Null;
    assert Get(p, ChannelScope) == if b.scope.Some? then Str(b.scope.value) else Null;
  }

  lemma UnreadNamesMove(show: Json -> string, s: Object, stem: string, a: AK.Actor)
    requires NamesUnread(s, a)
    ensures Identified(show, s, stem).Some? ==>
      exists b :: NamesUnread(Identified(show, s, stem).value, b) && b != a
  {
    SessionIdNotBlank(a);
    ReadActorOfJson(show, a);
    UnreadDecoded(a);
    assert Identity(show, s, stem) == DecodeActor(SessionId(a));
    if DecodeActor(SessionId(a)).Found? {
      var b := DecodeActor(SessionId(a)).actor;
      FoundIsNamed(show, s, stem, b);
      assert NamesUnread(Identified(show, s, stem).value, b);
    }
  }

  ghost predicate Unread(s: Object) {
    ShapeOk(s) && exists a :: NamesUnread(s, a)
  }

  /** A pass over such a session fails, or changes it into another one. */
  lemma UnreadPass(show: Json -> string, x: Object, p: Pass)
    requires Proper(p) && Unread(x)
    ensures Migrated(show, x, p) != Some(x)
    ensures Migrated(show, x, p).Some? ==> Unread(Migrated(show, x, p).value)
  {
    var a :| NamesUnread(x, a);
    OkIsShaped(x, p);
    SummarizedFrame(x, p.summaryNow, Actor);
    SummarizedFrame(x, p.summaryNow, Id);
    var y := Summarized(x, p.summaryNow);
    assert NamesUnread(y, a);
    UnreadNamesMove(show, y, p.stem, a);
    if Migrated(show, x, p).Some? {
      var z := Migrated(show, x, p).value;
      PassEffect(show, x, p);
      var b :| NamesUnread(z, b) && b != a;
      assert Get(z, Actor) != Get(x, Actor) by {
        if ToJson(a) == ToJson(b) {
          ToJsonInjective(a, b);
        }
      }
    }
  }

  /** A first pass that is not safe fails, or leaves such a session. */
  lemma UnsafeFirstPass(show: Json -> string, s: Object, p: Pass)
    requires Proper(p) && !FirstPassSafe(show, s, p)
    ensures Migrated(show, s, p).Some? ==> Unread(Migrated(show, s, p).value)
  {
    var s1 := Shaped(s, p);
    var s2 := Summarized(s1, p.summaryNow);
    ShapedIsOk(s, p);
    SummarizedFrame(s1, p.summaryNow, Actor);
    SummarizedFrame(s1, p.summaryNow, Id);
    IdentityFrame(show, s1, s2, p.stem);
    if Migrated(show, s, p).Some? {
      PassEffect(show, s, p);
      var a := Identity(show, s2, p.stem).actor;
      FoundIsNamed(show, s2, p.stem, a);
      DecodedChannel(Get(s2, Id).text);
      assert NamesUnread(Migrated(show, s, p).value, a);
    }
  }

  lemma {:induction false} UnsafeRun(show: Json -> string, s: Object, passes: seq<Pass>)
    requires passes != [] && AllProper(passes) && !FirstPassSafe(show, s, passes[0])
    ensures Run(show, s, passes).Some? ==> Unread(Run(show, s, passes).value)
  {
    var n := |passes|;
    if n == 1 {
      assert Run(show, s, passes[..0]) == Some(s);
      UnsafeFirstPass(show, s, passes[0]);
    } else {
      UnsafeRun(show, s, passes[..n - 1]);
      if Run(show, s, passes).Some? {
        UnreadPass(show, Run(show, s, passes[..n - 1]).value, passes[n - 1]);
      }
    }
  }

  // ----- main results -----

  /** All passes succeed, and so does the next, which changes nothing. */
  ghost predicate Settles(show: Json -> string, s: Object, passes: seq<Pass>, next: Pass) {
    Run(show, s, passes).Some? && Migrated(show, Run(show, s, passes).value, next) == Run(show, s, passes)
  }

  lemma UnsafeNeverSettles(show: Json -> string, s: Object, passes: seq<Pass>, next: Pass)
    requires passes != [] && AllProper(passes) && Proper(next) && !FirstPassSafe(show, s, passes[0])
    ensures !Settles(show, s, passes, next)
  {
    UnsafeRun(show, s, passes);
    if Run(show, s, passes).Some? {
      UnreadPass(show, Run(show, s, passes).value, next);
    }
  }

  /** After two or more passes (one, when the actor object could be read) the data are final exactly when the first pass
      was safe and there have been as many passes as the summary had stages. */
  lemma FixpointIff(show: Json -> string, s: Object, passes: seq<Pass>, next: Pass)
    requires AllProper(passes) && Proper(next)
    requires |passes| >= 2 || (|passes| == 1 && ReadActor(show, Get(s, Actor)).Some?)
    ensures Settles(show, s, passes, next) <==> FirstPassSafe(show, s, passes[0]) && Stage(s) <= |passes|
    ensures FirstPassSafe(show, s, passes[0]) ==> Run(show, s, passes).Some?
  {
    if FirstPassSafe(show, s, passes[0]) {
      RunEffect(show, s, passes);
      StaysIff(show, Run(show, s, passes).value, next);
    } else {
      UnsafeNeverSettles(show, s, passes, next);
    }
  }

  /** Three passes are enough when no summary message has a truthy timestamp that is no text, and four always are:
      then the data are final exactly when the first pass was safe. */
  lemma PassesThatSuffice(show: Json -> string, s: Object, passes: seq<Pass>, next: Pass)
    requires AllProper(passes) && Proper(next) && |passes| >= 3
    requires |passes| >= 4 || MessageStage(s) <= 1
    ensures Settles(show, s, passes, next) <==> FirstPassSafe(show, s, passes[0])
  {
    FixpointIff(show, s, passes, next);
    StageBounds(s);
  }

  /** Some number of passes beginning with p reaches a fixpoint exactly when p is safe as the first pass. */
  lemma FixpointReachedIff(show: Json -> string, s: Object, p: Pass)
    requires Proper(p)
    ensures FirstPassSafe(show, s, p)
       <==> exists passes, next :: StartsWith(passes, p) && Proper(next) && Settles(show, s, passes, next)
  {
    if FirstPassSafe(show, s, p) {
      var _ := FourPassesSettle(show, s, p);
    } else {
      forall passes, next | StartsWith(passes, p) && Proper(next)
        ensures !Settles(show, s, passes, next)
      {
        UnsafeNeverSettles(show, s, passes, next);
      }
    }
  }

  lemma FourPasses(p: Pass) returns (passes: seq<Pass>)
    requires Proper(p)
    ensures |passes| == 4 && StartsWith(passes, p)
  {
    passes := [p, p, p, p];
  }

  lemma FourPassesSettle(show: Json -> string, s: Object, p: Pass) returns (passes: seq<Pass>)
    requires Proper(p) && FirstPassSafe(show, s, p)
    ensures StartsWith(passes, p) && Settles(show, s, passes, p)
  {
    passes := FourPasses(p);
    PassesThatSuffice(show, s, passes, p);
  }

  ghost predicate StartsWith(passes: seq<Pass>, p: Pass) {
    passes != [] && passes[0] == p && AllProper(passes)
  }

  /** A session with a blank text for a summary, and one summary message with the given timestamp. */
  function BlankSummary(timestamp: Json): Object {
    var message := Dict(map[Role := Str("system"), Content := Str("a"), Timestamp := timestamp,
                            Metadata := Dict(map[IsSummary := Bool(true)])]);
    map[Summary := Str(""), Messages := List([message])]
  }

  lemma BlankStage(timestamp: Json)
    ensures Stage(BlankSummary(timestamp)) == 2 + MessageStage(BlankSummary(timestamp))
  {
    StripStrips("");
  }

  /** Both bounds are reached. */
  lemma BoundsAreReached()
    ensures Stage(BlankSummary(Str("a"))) == 3 && Stage(BlankSummary(Int(5))) == 4
  {
    BlankStage(Str("a"));
    BlankStage(Int(5));
    assert Stripped("a");
    StripStrips("a");
  }

  // ----- safe and unsafe first passes -----

  /** ASCII parts can be read back. */
  lemma AsciiIsReadable(a: AK.Actor)
    requires AK.AsciiActor(a) && a.channel != "" && NormalizeChannel(a.channel) == a.channel && a.userId != ""
    ensures Readable(a)
  {
    AK.DirectIsAscii();
    AsciiIsRestorable(a.channel);
    AsciiIsRestorable(AK.ScopeText(AK.Python, a.scope));
    AsciiIsRestorable(a.userId);
  }

  lemma UnreadableChannelFails(show: Json -> string, s: Object, stem: string, a: AK.Actor)
    requires NamesUnread(s, a) && AK.PyDecode(Written(a.channel)) == None
    ensures Identified(show, s, stem) == None
  {
    SessionIdNotBlank(a);
    ReadActorOfJson(show, a);
    DecodeOfUnread(a);
  }
}
