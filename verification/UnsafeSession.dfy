/** A session whose first migration pass succeeds and whose second fails. */
module UnsafeSession {
  import opened Common
  import opened PyJson
  import opened SessionMigration
  import opened SessionFixpoint
  import opened UnreadableText
  import AK = ActorKey
  import Utf8

  /** The actor that Python decodes. */
  function AsRead(a: AK.Actor): AK.Actor {
    var scope := AK.ScopeText(AK.Rust, a.scope);
    AK.Actor(NormalizeChannel(a.channel), if scope == AK.DIRECT then None else Some(scope), a.userId)
  }

  /** Python decodes every key that Rust wrote, up to the channel's normal form and a default scope. */
  lemma RustKeyDecodes(a: AK.Actor)
    requires a.userId != ""
    ensures DecodeKey(AK.StorageKey(AK.Rust, a)) == Found(AsRead(a))
  {
    var scope := AK.ScopeText(AK.Rust, a.scope);
    AK.KeyParts(AK.Rust, a);
    AK.PythonRestoresRust(a.channel);
    AK.PythonRestoresRust(scope);
    AK.PythonRestoresRust(a.userId);
    NormalizeChannelSettles(a.channel);
    var parts := AK.SplitAll(AK.StorageKey(AK.Rust, a));
    assert AK.PyDecode(parts[0]) == Some(a.channel) && AK.PyDecode(parts[2]) == Some(a.userId);
    assert AK.PyDecode(parts[1]) == Some(scope);
  }

  // ----- spelling the id -----

  function Acute(): string {
    [0xE9 as char]
  }

  function UnsafeActor(): AK.Actor {
    AK.Actor(Acute(), None, [' '])
  }

  lemma AcuteBytes()
    ensures Utf8.Bytes(Acute()) == [0xC3, 0xA9]
  {
    Utf8.BytesCons(0xE9 as char, "");
    assert [0xE9 as char] + "" == Acute();
  }

  lemma AcuteSpelled()
    ensures AK.Component(AK.Rust, Acute()) == ['_', 'c', '3', '_', 'a', '9']
  {
    AcuteBytes();
    var b: seq<Utf8.Byte> := [0xC3, 0xA9];
    assert b[1..] == [0xA9] && b[1..][1..] == [];
    assert AK.Escaped(AK.Rust, b[1..]) == AK.Escape(AK.Rust, 0xA9);
  }

  lemma SpaceSpelled()
    ensures AK.Component(AK.Rust, [' ']) == ['_', '2', '0']
  {
    Utf8.BytesCons(' ', "");
    assert [' '] + "" == [' '];
    var b: seq<Utf8.Byte> := [0x20];
    assert Utf8.Bytes([' ']) == b && b[1..] == [];
  }

  lemma {:induction false} LettersAreKept(b: seq<Utf8.Byte>, s: string)
    requires |b| == |s| && forall i :: 0 <= i < |s| ==> 'a' <= s[i] <= 'z' && b[i] == s[i] as int
    ensures AK.Escaped(AK.Rust, b) == s
  {
    if s != "" {
      LettersAreKept(b[1..], s[1..]);
      assert s == [s[0]] + s[1..];
    }
  }

  lemma DirectSpelled()
    ensures AK.Component(AK.Rust, AK.DIRECT) == AK.DIRECT
  {
    AK.DirectIsAscii();
    Utf8.AsciiByLength(AK.DIRECT);
    LettersAreKept(Utf8.Bytes(AK.DIRECT), AK.DIRECT);
  }

  const UNSAFE_KEY := "_c3_a9__direct___20"

  lemma KeySpelled()
    ensures AK.StorageKey(AK.Rust, UnsafeActor()) == UNSAFE_KEY
  {
    AcuteSpelled();
    SpaceSpelled();
    DirectSpelled();
    JoinSpelled(AK.Component(AK.Rust, Acute()), AK.Component(AK.Rust, AK.DIRECT), AK.Component(AK.Rust, [' ']));
  }

  lemma JoinSpelled(a: string, b: string, c: string)
    requires a == ['_', 'c', '3', '_', 'a', '9'] && b == AK.DIRECT && c == ['_', '2', '0']
    ensures AK.Join(a, b, c) == UNSAFE_KEY
  {
  }

  const UNSAFE_ID := "Actor__c3_a9__direct___20"

  lemma UnsafeIdSpelled()
    ensures ACTOR_PREFIX + UNSAFE_KEY == UNSAFE_ID
  {
  }

  lemma AcuteIsSettled()
    ensures NormalizeChannel(Acute()) == Acute() && Acute() != ""
  {
    assert Stripped(Acute());
    StripStrips(Acute());
    assert |WEB_TEST| == 8;
  }

  lemma UnsafeIdDecodes(id: string)
    requires id == ACTOR_PREFIX + UNSAFE_KEY
    ensures DecodeActor(id) == Found(UnsafeActor())
  {
    KeySpelled();
    PrefixDrops(ACTOR_PREFIX, UNSAFE_KEY);
    RustKeyDecodes(UnsafeActor());
    AcuteIsSettled();
  }

  // ----- two passes -----

  /** The component of "é" keeps the first byte as a letter and escapes the second. */
  lemma AcuteIsUnreadable()
    ensures AK.PyDecode(Written(Acute())) == None && !Restorable(Acute())
  {
    var b: seq<Utf8.Byte> := [0xC3, 0xA9];
    AcuteBytes();
    AK.DecodersReadAlike(AK.Python, b);
    assert b[1..] == [0xA9] && b[1..][1..] == [];
    assert AK.Reread(AK.Python, b[1..]) == [0xA9];
    assert AK.Reread(AK.Python, b) == Utf8.Encode(0xC3 as char) + [0xA9];
    DecodeBehind(0xC3 as char, [0xA9]);
    ContinuationFails([0xA9]);
    AK.PythonRestoresIff(AK.Python, Acute());
  }

  lemma SpaceIsBlank()
    ensures Strip([' ']) == ""
  {
    assert [' '][1..] == "";
  }

  function UnsafeSession(id: string): Object {
    map[Id := Str(id)]
  }

  lemma FirstPassSucceeds(show: Json -> string, id: string, p: Pass)
    requires Proper(p) && DecodeActor(id) == Found(UnsafeActor()) && Nonblank(Str(id))
    ensures var r := Migrated(show, UnsafeSession(id), p);
            r.Some? && ShapeOk(r.value) && NamesUnread(r.value, UnsafeActor())
  {
    var s1 := Shaped(UnsafeSession(id), p);
    ShapedFrame(UnsafeSession(id), p, Actor);
    SummarizedFrame(s1, p.summaryNow, Actor);
    SummarizedFrame(s1, p.summaryNow, Id);
    var s2 := Summarized(s1, p.summaryNow);
    assert Identity(show, s2, p.stem) == Found(UnsafeActor());
    FoundIsNamed(show, s2, p.stem, UnsafeActor());
    PassEffect(show, UnsafeSession(id), p);
    AcuteIsSettled();
    AcuteIsUnreadable();
    SpaceIsBlank();
  }

  lemma NextPassFails(show: Json -> string, x: Object, q: Pass)
    requires Proper(q) && ShapeOk(x) && NamesUnread(x, UnsafeActor())
    ensures Migrated(show, x, q) == None
  {
    OkIsShaped(x, q);
    SummarizedFrame(x, q.summaryNow, Actor);
    SummarizedFrame(x, q.summaryNow, Id);
    AcuteIsUnreadable();
    UnreadableChannelFails(show, Summarized(x, q.summaryNow), q.stem, UnsafeActor());
  }

  /** The first pass over this session writes the actor ("é", " "), and the second cannot read its own id. */
  lemma SecondPassFails(show: Json -> string, p: Pass, q: Pass)
    requires Proper(p) && Proper(q)
    ensures Run(show, UnsafeSession(UNSAFE_ID), [p]).Some? && Run(show, UnsafeSession(UNSAFE_ID), [p, q]) == None
  {
    var s := UnsafeSession(UNSAFE_ID);
    UnsafeIdSpelled();
    UnsafeIdDecodes(UNSAFE_ID);
    IdNotBlank(UNSAFE_ID);
    FirstPassSucceeds(show, UNSAFE_ID, p);
    TwoPasses(show, s, p, q);
    NextPassFails(show, Migrated(show, s, p).value, q);
  }

  lemma IdNotBlank(id: string)
    requires id != "" && id[0] == 'A'
    ensures Nonblank(Str(id))
  {
    TrimEndKeepsFirst(id);
  }

  lemma TwoPasses(show: Json -> string, s: Object, p: Pass, q: Pass)
    ensures Run(show, s, [p]) == Migrated(show, s, p)
    ensures Migrated(show, s, p).Some? ==> Run(show, s, [p, q]) == Migrated(show, Migrated(show, s, p).value, q)
  {
    assert [p][..0] == [] && [p, q][..1] == [p];
  }
}
