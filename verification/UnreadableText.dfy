/** Texts that Python's decoder does not restore: what they decode to, if they decode at all. */
module UnreadableText {
  import opened Common
  import AK = ActorKey
  import Utf8

  /** The condition under which Python reads a component of its own back. */
  ghost predicate Restorable(s: string) {
    AK.EscapesNonAscii(AK.Python, Utf8.Bytes(s))
  }

  function Written(s: string): string {
    AK.Component(AK.Python, s)
  }

  lemma DecodedBytes(s: string, t: string)
    requires AK.PyDecode(Written(s)) == Some(t)
    ensures Utf8.Bytes(t) == AK.Reread(AK.Python, Utf8.Bytes(s))
  {
    AK.DecodersReadAlike(AK.Python, Utf8.Bytes(s));
    Utf8.DecodeIff(AK.PyBytes(Written(s)), t);
  }

  lemma AsciiIsRestorable(s: string)
    requires Utf8.Ascii(s)
    ensures Restorable(s)
  {
    AK.AsciiIsEscaped(AK.Python, s);
  }

  // ----- an unreadable text stays unreadable -----

  lemma {:induction false} RereadKeepsLead(b: seq<Utf8.Byte>, x: Utf8.Byte)
    requires x in b && AK.Kept(AK.Python, x) && x >= 128
    ensures (0xC0 + x / 0x40) in AK.Reread(AK.Python, b)
  {
    var r := AK.Reread(AK.Python, b);
    if b[0] == x {
      assert Utf8.Encode(x as char)[0] == 0xC0 + x / 0x40;
      assert r[0] == 0xC0 + x / 0x40;
    } else {
      assert b == [b[0]] + b[1..];
      RereadKeepsLead(b[1..], x);
    }
  }

  /** An unreadable text, if it decodes at all, decodes to another unreadable text. */
  lemma StaysUnreadable(s: string, t: string)
    requires !Restorable(s) && AK.PyDecode(Written(s)) == Some(t)
    ensures t != s && t != "" && !Restorable(t)
  {
    AK.PythonRestoresIff(AK.Python, s);
    DecodedBytes(s, t);
    var b := Utf8.Bytes(s);
    var x :| x in b && AK.Kept(AK.Python, x) && x >= 128;
    RereadKeepsLead(b, x);
    assert 0xC0 + x / 0x40 == 0xC2 || 0xC0 + x / 0x40 == 0xC3;
  }

  // ----- a decoded text has no white space beyond ASCII -----

  /** No byte begins the encoding of a white space character beyond ASCII. */
  ghost predicate Tame(r: seq<Utf8.Byte>) {
    && (forall x :: x in r ==> x < 0xE1 || 0xE3 < x)
    && (forall i :: 0 <= i < |r| && r[i] == 0xC2 ==> i + 1 < |r| && r[i + 1] != 0x85 && r[i + 1] != 0xA0)
  }

  lemma TameConcat(a: seq<Utf8.Byte>, b: seq<Utf8.Byte>)
    requires Tame(a) && Tame(b)
    ensures Tame(a + b)
  {
    var r := a + b;
    forall i | 0 <= i < |r| && r[i] == 0xC2
      ensures i + 1 < |r| && r[i + 1] != 0x85 && r[i + 1] != 0xA0
    {
      if i < |a| {
        assert a[i] == 0xC2 && r[i + 1] == a[i + 1];
      } else {
        assert b[i - |a|] == 0xC2 && r[i + 1] == b[i - |a| + 1];
      }
    }
  }

  lemma {:induction false} RereadIsTame(b: seq<Utf8.Byte>)
    ensures Tame(AK.Reread(AK.Python, b))
  {
    if b != [] {
      RereadIsTame(b[1..]);
      var head := if AK.Kept(AK.Python, b[0]) then Utf8.Encode(b[0] as char) else [b[0]];
      assert Tame(head);
      TameConcat(head, AK.Reread(AK.Python, b[1..]));
    }
  }

  lemma WideSpaceBytes(c: char)
    requires c as int >= 128 && IsPySpace(c)
    ensures var e := Utf8.Encode(c);
            && |e| >= 2 && AK.Kept(AK.Python, e[0]) && !AK.Kept(AK.Python, e[1]) && 0x80 <= e[1] < 0xC0
            && (0xE1 <= e[0] <= 0xE3 || (e[0] == 0xC2 && (e[1] == 0x85 || e[1] == 0xA0)))
  {
  }

  /** Where the encoding of one character begins. */
  lemma BytesOfCharAt(t: string, i: nat) returns (k: nat)
    requires i < |t|
    ensures var r, e := Utf8.Bytes(t), Utf8.Encode(t[i]);
            k + |e| <= |r| && |e| >= 1 && r[k] == e[0] && (|e| >= 2 ==> r[k + 1] == e[1])
  {
    var u, v := t[..i], t[i + 1..];
    assert t == u + ([t[i]] + v);
    Utf8.BytesConcat(u, [t[i]] + v);
    Utf8.BytesCons(t[i], v);
    Utf8.EncodeShape(t[i]);
    k := |Utf8.Bytes(u)|;
  }

  lemma NoWideSpace(t: string, i: nat)
    requires i < |t| && Tame(Utf8.Bytes(t)) && t[i] as int >= 128
    ensures !IsPySpace(t[i])
  {
    var k := BytesOfCharAt(t, i);
    var x := Utf8.Bytes(t)[k];
    assert x in Utf8.Bytes(t);
    if IsPySpace(t[i]) {
      WideSpaceBytes(t[i]);
    }
  }

  // ----- a stripped text decodes to a stripped text -----

  lemma FirstByte(s: string)
    requires s != ""
    ensures var b := Utf8.Bytes(s);
            b != [] && (b[0] < 128 <==> s[0] as int < 128) && (s[0] as int < 128 ==> b[0] == s[0] as int)
  {
    Utf8.EncodeShape(s[0]);
  }

  lemma LastByte(s: string)
    requires s != ""
    ensures var b, c := Utf8.Bytes(s), s[|s| - 1] as int;
            b != [] && (b[|b| - 1] < 128 <==> c < 128) && (c < 128 ==> b[|b| - 1] == c)
  {
    var init, c := s[..|s| - 1], s[|s| - 1];
    assert s == init + [c];
    Utf8.BytesConcat(init, [c]);
    Utf8.BytesCons(c, "");
    assert [c] + "" == [c];
    assert Utf8.Bytes(s) == Utf8.Bytes(init) + Utf8.Encode(c);
    Utf8.EncodeShape(c);
  }

  lemma {:induction false} RereadEnds(b: seq<Utf8.Byte>)
    requires b != []
    ensures var r := AK.Reread(AK.Python, b);
            && r != [] && (r[0] < 128 <==> b[0] < 128) && (b[0] < 128 ==> r[0] == b[0])
            && (r[|r| - 1] < 128 <==> b[|b| - 1] < 128) && (b[|b| - 1] < 128 ==> r[|r| - 1] == b[|b| - 1])
  {
    var head := if AK.Kept(AK.Python, b[0]) then Utf8.Encode(b[0] as char) else [b[0]];
    Utf8.EncodeShape(b[0] as char);
    if |b| == 1 {
      assert AK.Reread(AK.Python, b) == head + [] == head;
    } else {
      RereadEnds(b[1..]);
    }
  }

  lemma DecodedIsStripped(s: string, t: string)
    requires s != "" && Stripped(s) && AK.PyDecode(Written(s)) == Some(t)
    ensures t != "" && Stripped(t)
  {
    var b := Utf8.Bytes(s);
    DecodedBytes(s, t);
    FirstByte(s);
    LastByte(s);
    RereadEnds(b);
    RereadIsTame(b);
    FirstByte(t);
    LastByte(t);
    if t[0] as int >= 128 {
      NoWideSpace(t, 0);
    }
    if t[|t| - 1] as int >= 128 {
      NoWideSpace(t, |t| - 1);
    }
  }

  // ----- a blank unreadable text does not decode -----

  ghost predicate AllSpaces(s: string) {
    forall i :: 0 <= i < |s| ==> IsPySpace(s[i])
  }

  lemma {:induction false} TrimEndKeepsFirst(s: string)
    requires s != "" && !IsPySpace(s[0])
    ensures TrimEnd(PySpaces, s) != ""
  {
    if Blanks(PySpaces, s[|s| - 1]) {
      TrimEndKeepsFirst(s[..|s| - 1]);
    }
  }

  lemma {:induction false} TrimmedAway(s: string)
    requires TrimStart(PySpaces, s) == ""
    ensures AllSpaces(s)
  {
    if s != "" {
      TrimmedAway(s[1..]);
      assert forall i :: 0 < i < |s| ==> s[i] == s[1..][i - 1];
    }
  }

  lemma BlankIsSpaces(s: string)
    requires Strip(s) == ""
    ensures AllSpaces(s)
  {
    TrimStartKeepsEnd(PySpaces, s);
    if TrimStart(PySpaces, s) != "" {
      TrimEndKeepsFirst(TrimStart(PySpaces, s));
    }
    TrimmedAway(s);
  }

  lemma ContinuationFails(r: seq<Utf8.Byte>)
    requires r != [] && 0x80 <= r[0] < 0xC0
    ensures Utf8.Decode(r) == None
  {
    if Utf8.First(r).Some? {
      Utf8.EncodeShape(Utf8.First(r).value);
    }
  }

  /** Decoding goes on behind a first character. */
  lemma DecodeBehind(c: char, rest: seq<Utf8.Byte>)
    ensures Utf8.Decode(Utf8.Encode(c) + rest).Some? <==> Utf8.Decode(rest).Some?
  {
    Utf8.EncodeShape(c);
    Utf8.FirstOfEncoding(c, rest);
    assert (Utf8.Encode(c) + rest)[|Utf8.Encode(c)|..] == rest;
  }

  /** A white space character beyond ASCII leaves a stray continuation byte behind its lead byte. */
  lemma WideSpaceFails(c: char, rest: seq<Utf8.Byte>)
    requires c as int >= 128 && IsPySpace(c)
    ensures Utf8.Decode(AK.Reread(AK.Python, Utf8.Encode(c) + rest)) == None
  {
    WideSpaceBytes(c);
    var e := Utf8.Encode(c);
    var b := e + rest;
    var tail := AK.Reread(AK.Python, b[1..]);
    assert b[0] == e[0] && b[1..][0] == e[1];
    assert tail[0] == e[1];
    ContinuationFails(tail);
    DecodeBehind(e[0] as char, tail);
  }

  lemma {:induction false} SpacesFail(s: string)
    requires AllSpaces(s) && !Utf8.Ascii(s)
    ensures Utf8.Decode(AK.Reread(AK.Python, Utf8.Bytes(s))) == None
  {
    if s[0] as int >= 128 {
      WideSpaceFails(s[0], Utf8.Bytes(s[1..]));
    } else {
      assert forall i :: 0 < i < |s| ==> s[i] == s[1..][i - 1];
      SpacesFail(s[1..]);
      var b := Utf8.Bytes(s);
      assert b == [s[0] as int] + Utf8.Bytes(s[1..]);
      assert b[1..] == Utf8.Bytes(s[1..]);
      assert Utf8.Encode(s[0]) == [s[0] as int];
      DecodeBehind(s[0], AK.Reread(AK.Python, b[1..]));
    }
  }

  lemma BlankUnreadableFails(s: string)
    requires Strip(s) == "" && !Restorable(s)
    ensures AK.PyDecode(Written(s)) == None
  {
    BlankIsSpaces(s);
    if Utf8.Ascii(s) {
      AsciiIsRestorable(s);
    } else {
      SpacesFail(s);
    }
    AK.DecodersReadAlike(AK.Python, Utf8.Bytes(s));
  }
}
