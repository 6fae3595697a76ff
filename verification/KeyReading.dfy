/** Which actors Rust reads back from the keys made for them. Reading trims the decoded parts, so that a part might be
    restored although its decoding is longer; it never is. */
module KeyReading {
  import opened Common
  import opened ActorKey
  import Utf8

  lemma {:induction false} RereadConcat(lang: Language, x: seq<Byte>, y: seq<Byte>)
    ensures Reread(lang, x + y) == Reread(lang, x) + Reread(lang, y)
  {
    if x == [] {
      assert x + y == y;
    } else {
      assert (x + y)[1..] == x[1..] + y;
      RereadConcat(lang, x[1..], y);
      var head := if Kept(lang, x[0]) then Utf8.Encode(x[0] as char) else [x[0]];
      Assoc(head, Reread(lang, x[1..]), Reread(lang, y));
    }
  }

  /** The decoded bytes of a text. */
  function Read(lang: Language, s: string): seq<Byte> {
    Reread(lang, Utf8.Bytes(s))
  }

  lemma DecodedIsRead(lang: Language, s: string)
    ensures RustDecode(Component(lang, s)) == Latin(Read(lang, s))
  {
    DecodersReadAlike(lang, Utf8.Bytes(s));
  }

  lemma ReadConcat(lang: Language, s: string, t: string)
    ensures Read(lang, s + t) == Read(lang, s) + Read(lang, t)
  {
    Utf8.BytesConcat(s, t);
    RereadConcat(lang, Utf8.Bytes(s), Utf8.Bytes(t));
  }

  lemma ReadCons(lang: Language, c: char, t: string)
    ensures Read(lang, [c] + t) == Reread(lang, Utf8.Encode(c)) + Read(lang, t)
  {
    Utf8.BytesCons(c, t);
    RereadConcat(lang, Utf8.Encode(c), Utf8.Bytes(t));
  }

  lemma ReadLength(lang: Language, s: string)
    ensures |Read(lang, s)| >= |s| && (|Read(lang, s)| == |s| ==> Utf8.Ascii(s))
  {
    RereadLength(lang, Utf8.Bytes(s));
    Utf8.AsciiByLength(s);
  }

  /** The codes that reading can only reproduce: ASCII, and four that are read as one another. */
  predicate Closed(n: int) {
    n < 128 || n == 0x82 || n == 0x83 || n == 0xC2 || n == 0xC3
  }

  ghost predicate AllClosed(b: seq<Byte>) {
    forall i :: 0 <= i < |b| ==> Closed(b[i])
  }

  lemma OneRead(lang: Language, c: char)
    requires c as int < 128
    ensures Reread(lang, Utf8.Encode(c)) == [c as int]
  {
    assert Utf8.Encode(c)[1..] == [];
  }

  /** The first byte read for a character beyond ASCII; for one of Latin-1 it is C2 or C3. */
  lemma WideRead(lang: Language, c: char)
    requires c as int >= 128
    ensures var r := Reread(lang, Utf8.Encode(c)); r != [] && r[0] >= 0xC2
    ensures c as int < 256 ==> Reread(lang, Utf8.Encode(c))[0] == 0xC2 || Reread(lang, Utf8.Encode(c))[0] == 0xC3
  {
    var e := Utf8.Encode(c);
    var head := if Kept(lang, e[0]) then Utf8.Encode(e[0] as char) else [e[0]];
    assert e[0] >= 0xC2;
    assert Reread(lang, e)[0] == head[0];
  }

  lemma TwoBytes(lang: Language, x: Byte, y: Byte)
    requires (x == 0xC2 || x == 0xC3) && (y == 0x82 || y == 0x83)
    ensures AllClosed(Reread(lang, [x, y])) && Reread(lang, [x, y])[|Reread(lang, [x, y])| - 1] == y
  {
    assert [x, y][1..] == [y] && [y][1..] == [];
    assert Reread(lang, [y]) == [y];
    var head := if Kept(lang, x) then Utf8.Encode(x as char) else [x];
    assert Reread(lang, [x, y]) == head + [y];
  }

  lemma ClosedRead(lang: Language, c: char)
    requires Closed(c as int) && c as int >= 128
    ensures var r := Reread(lang, Utf8.Encode(c));
            AllClosed(r) && r != [] && (r[|r| - 1] == 0x82 || r[|r| - 1] == 0x83)
  {
    var e := Utf8.Encode(c);
    assert e == [e[0], e[1]];
    TwoBytes(lang, e[0], e[1]);
  }

  ghost predicate ClosedText(s: string) {
    forall i :: 0 <= i < |s| ==> Closed(s[i] as int)
  }

  lemma {:induction false} ClosedTextRead(lang: Language, s: string)
    requires ClosedText(s)
    ensures AllClosed(Read(lang, s))
  {
    if s != "" {
      assert s == [s[0]] + s[1..];
      ReadCons(lang, s[0], s[1..]);
      ClosedTextRead(lang, s[1..]);
      if s[0] as int < 128 {
        OneRead(lang, s[0]);
      } else {
        ClosedRead(lang, s[0]);
      }
    }
  }

  /** The text is a prefix of its own reading, as characters. */
  ghost predicate Prefixed(lang: Language, s: string) {
    |s| <= |Read(lang, s)| && forall i :: 0 <= i < |s| ==> s[i] as int == Read(lang, s)[i]
  }

  /** Such a text has closed characters only: each is either read from earlier ones, or reads as itself. */
  lemma {:induction false} PrefixedIsClosed(lang: Language, s: string, j: nat)
    requires Prefixed(lang, s) && j <= |s|
    ensures ClosedText(s[..j])
  {
    if j > 0 {
      var i := j - 1;
      PrefixedIsClosed(lang, s, i);
      var before, c, rest := s[..i], s[i], s[i + 1..];
      assert s == before + ([c] + rest);
      ReadConcat(lang, before, [c] + rest);
      ReadCons(lang, c, rest);
      ReadLength(lang, before);
      ClosedTextRead(lang, before);
      NextIsClosed(lang, Read(lang, before), c, Read(lang, rest), i);
      assert s[..j] == before + [c];
    }
  }

  lemma NextIsClosed(lang: Language, before: seq<Byte>, c: char, rest: seq<Byte>, i: nat)
    requires AllClosed(before) && i <= |before|
    requires i < |before + (Reread(lang, Utf8.Encode(c)) + rest)|
    requires c as int == (before + (Reread(lang, Utf8.Encode(c)) + rest))[i]
    ensures Closed(c as int)
  {
    var mid := Reread(lang, Utf8.Encode(c));
    if i < |before| {
      assert (before + (mid + rest))[i] == before[i];
    } else if c as int >= 128 {
      WideRead(lang, c);
      assert (before + (mid + rest))[i] == mid[0];
    }
  }

  // ----- trimming -----

  lemma FirstRead(lang: Language, s: string)
    requires s != ""
    ensures var r := Read(lang, s);
            r != [] && (if s[0] as int < 128 then r[0] == s[0] as int else r[0] >= 0xC2)
  {
    assert s == [s[0]] + s[1..];
    ReadCons(lang, s[0], s[1..]);
    if s[0] as int < 128 {
      OneRead(lang, s[0]);
    } else {
      WideRead(lang, s[0]);
    }
  }

  lemma LastRead(lang: Language, s: string)
    requires s != "" && Closed(s[|s| - 1] as int)
    ensures var r, c := Read(lang, s), s[|s| - 1] as int;
            r != [] && (if c < 128 then r[|r| - 1] == c else r[|r| - 1] == 0x82 || r[|r| - 1] == 0x83)
  {
    var init, c := s[..|s| - 1], s[|s| - 1];
    assert s == init + [c];
    ReadConcat(lang, init, [c]);
    ReadCons(lang, c, "");
    assert [c] + "" == [c] && Read(lang, "") == [];
    if c as int < 128 {
      OneRead(lang, c);
    } else {
      ClosedRead(lang, c);
    }
  }

  lemma TrimKeepsStart(d: string)
    requires d != "" && !IsSpace(d[0])
    ensures |Trim(d)| <= |d| && Trim(d) == d[..|Trim(d)|]
  {
    TrimEndKeepsStart(RustSpaces, d);
  }

  lemma StartOfReading(lang: Language, s: string)
    requires s != "" && Trimmed(s)
    ensures var d := Latin(Read(lang, s)); d != "" && !IsSpace(d[0])
  {
    FirstRead(lang, s);
  }

  lemma EndOfReading(lang: Language, s: string)
    requires s != "" && Trimmed(s) && Closed(s[|s| - 1] as int)
    ensures var d := Latin(Read(lang, s)); d != "" && !IsSpace(d[|d| - 1])
  {
    LastRead(lang, s);
  }

  /** Reading and trimming restores a trimmed text exactly when it is ASCII. */
  lemma TrimmedReadingIff(lang: Language, s: string)
    requires s != "" && Trimmed(s)
    ensures Trim(RustDecode(Component(lang, s))) == s <==> Utf8.Ascii(s)
  {
    DecodedIsRead(lang, s);
    if Utf8.Ascii(s) {
      RustRestoresIff(lang, s);
      var _, _ := TrimIsSlice(s);
    } else if Trim(Latin(Read(lang, s))) == s {
      RestoredIsAscii(lang, s);
    }
  }

  lemma RestoredIsPrefixed(lang: Language, s: string)
    requires s != "" && Trimmed(s) && Trim(Latin(Read(lang, s))) == s
    ensures Prefixed(lang, s)
  {
    var d := Latin(Read(lang, s));
    StartOfReading(lang, s);
    TrimKeepsStart(d);
    assert forall i :: 0 <= i < |s| ==> s[i] == d[i];
  }

  lemma NothingTrimmed(d: string)
    requires d != "" && !IsSpace(d[0]) && !IsSpace(d[|d| - 1])
    ensures Trim(d) == d
  {
  }

  lemma RestoredIsAscii(lang: Language, s: string)
    requires s != "" && Trimmed(s) && Trim(Latin(Read(lang, s))) == s
    ensures Utf8.Ascii(s)
  {
    RestoredIsPrefixed(lang, s);
    PrefixedIsClosed(lang, s, |s|);
    assert s[..|s|] == s;
    StartOfReading(lang, s);
    EndOfReading(lang, s);
    NothingTrimmed(Latin(Read(lang, s)));
    ReadLength(lang, s);
  }

  // ----- keys -----

  lemma ProperParts(a: Actor)
    requires ProperActor(a)
    ensures a.channel != "" && Trim(a.channel) == a.channel && a.userId != "" && Trim(a.userId) == a.userId
  {
    var _, _ := TrimIsSlice(a.channel);
    var _, _ := TrimIsSlice(a.userId);
  }

  /** A proper actor is read back from its key, written in either language, exactly when its parts are ASCII and its
      scope does not spell the default. */
  lemma KeyReadBackIff(lang: Language, a: Actor)
    requires ProperActor(a)
    ensures ActorFromKey(StorageKey(lang, a)) == Some(a) <==> AsciiActor(a) && a.scope != Some(DIRECT)
  {
    if AsciiActor(a) {
      KeyRoundTrip(lang, a);
    } else if ActorFromKey(StorageKey(lang, a)) == Some(a) {
      ReadBackIsAscii(lang, a);
    }
  }

  lemma ReadBackIsAscii(lang: Language, a: Actor)
    requires ProperActor(a) && ActorFromKey(StorageKey(lang, a)) == Some(a)
    ensures AsciiActor(a)
  {
    KeyParts(lang, a);
    TrimmedReadingIff(lang, a.channel);
    TrimmedReadingIff(lang, a.userId);
    if a.scope.Some? {
      TrimmedReadingIff(lang, a.scope.value);
    }
  }

  /** Scope and user are read back from the two-part key under the same condition. */
  lemma ScopedKeyReadBackIff(a: Actor)
    requires ProperActor(a)
    ensures ScopeAndUser(ScopedKey(a)) == Some((a.scope, a.userId))
       <==> Utf8.Ascii(a.userId) && (a.scope.Some? ==> Utf8.Ascii(a.scope.value)) && a.scope != Some(DIRECT)
  {
    var scope := ScopeText(Rust, a.scope);
    EscapedIsClean(Rust, Utf8.Bytes(scope));
    SplitAtJoin(Component(Rust, scope), Component(Rust, a.userId));
    RustRestoresIff(Rust, scope);
    RustRestoresIff(Rust, a.userId);
    DirectIsAscii();
    ProperParts(a);
  }
}
