/** UTF-8, as in section 3 of RFC 3629. */
module Utf8 {
  import opened Common

  type Byte = n: int | 0 <= n < 256

  function Encode(c: char): seq<Byte> {
    var n := c as int;
    if n < 0x80 then [n]
    else if n < 0x800 then [0xC0 + n / 0x40, 0x80 + n % 0x40]
    else if n < 0x10000 then [0xE0 + n / 0x1000, 0x80 + n / 0x40 % 0x40, 0x80 + n % 0x40]
    else [0xF0 + n / 0x40000, 0x80 + n / 0x1000 % 0x40, 0x80 + n / 0x40 % 0x40, 0x80 + n % 0x40]
  }

  function Bytes(s: string): seq<Byte> {
    if s == "" then [] else Encode(s[0]) + Bytes(s[1..])
  }

  predicate Continuation(b: Byte) {
    0x80 <= b < 0xC0
  }

  ghost predicate Ascii(s: string) {
    forall i :: 0 <= i < |s| ==> s[i] as int < 128
  }

  lemma EncodeShape(c: char)
    ensures 1 <= |Encode(c)| <= 4 && !Continuation(Encode(c)[0])
    ensures forall i :: 0 < i < |Encode(c)| ==> Continuation(Encode(c)[i])
  {
  }

  lemma {:induction false} BytesConcat(a: string, b: string)
    ensures Bytes(a + b) == Bytes(a) + Bytes(b)
  {
    if a == "" {
      assert a + b == b;
    } else {
      assert (a + b)[1..] == a[1..] + b;
      BytesConcat(a[1..], b);
      assert Encode(a[0]) + (Bytes(a[1..]) + Bytes(b)) == Encode(a[0]) + Bytes(a[1..]) + Bytes(b);
    }
  }

  // ----- strict decoding -----

  function Width(lead: Byte): (n: nat)
    ensures 1 <= n <= 4
  {
    if lead < 0x80 then 1 else if lead < 0xE0 then 2 else if lead < 0xF0 then 3 else 4
  }

  /** The six bits that a continuation byte carries. */
  function Low(b: Byte): int {
    b as int - 0x80
  }

  /** The code point that the first bytes spell. */
  function Code(b: seq<Byte>): int
    requires b != [] && |b| >= Width(b[0])
  {
    var lead: int := b[0];
    match Width(b[0])
    case 1 => lead
    case 2 => (lead - 0xC0) * 0x40 + Low(b[1])
    case 3 => (lead - 0xE0) * 0x1000 + Low(b[1]) * 0x40 + Low(b[2])
    case _ => (lead - 0xF0) * 0x40000 + Low(b[1]) * 0x1000 + Low(b[2]) * 0x40 + Low(b[3])
  }

  /** The first character, unless the bytes are truncated, not minimal, or spell no Unicode scalar value. */
  function First(b: seq<Byte>): (r: Option<char>)
    ensures r.Some? ==> |Encode(r.value)| <= |b| && Encode(r.value) == b[..|Encode(r.value)|]
  {
    if b == [] || |b| < Width(b[0]) then None
    else
      var n := Code(b);
      if (0 <= n < 0xD800 || 0xE000 <= n < 0x11_0000) && Encode(n as char) == b[..Width(b[0])] then Some(n as char)
      else None
  }

  function Decode(b: seq<Byte>): Option<string>
    decreases |b|
  {
    if b == [] then Some("")
    else match First(b)
         case None => None
         case Some(c) =>
           EncodeShape(c);
           match Decode(b[|Encode(c)|..]) case None => None case Some(s) => Some([c] + s)
  }

  lemma SixBits(n: nat)
    ensures n / 0x40 * 0x40 + n % 0x40 == n && n / 0x40 / 0x40 == n / 0x1000 && n / 0x1000 / 0x40 == n / 0x40000
  {
  }

  lemma CodeOfEncoding(c: char, rest: seq<Byte>)
    ensures var b := Encode(c) + rest;
            Width(b[0]) == |Encode(c)| && Code(b) == c as int
  {
    var n, b := c as int, Encode(c) + rest;
    SixBits(n);
    SixBits(n / 0x40);
    SixBits(n / 0x1000);
    assert forall i :: 0 <= i < |Encode(c)| ==> b[i] == Encode(c)[i];
  }

  lemma FirstOfEncoding(c: char, rest: seq<Byte>)
    ensures First(Encode(c) + rest) == Some(c)
  {
    CodeOfEncoding(c, rest);
    assert (Encode(c) + rest)[..|Encode(c)|] == Encode(c);
  }

  lemma {:induction false} DecodeOfBytes(s: string)
    ensures Decode(Bytes(s)) == Some(s)
  {
    if s != "" {
      var rest := Bytes(s[1..]);
      EncodeShape(s[0]);
      FirstOfEncoding(s[0], rest);
      assert (Encode(s[0]) + rest)[|Encode(s[0])|..] == rest;
      DecodeOfBytes(s[1..]);
      assert [s[0]] + s[1..] == s;
    }
  }

  lemma BytesCons(c: char, t: string)
    ensures Bytes([c] + t) == Encode(c) + Bytes(t)
  {
    assert ([c] + t)[1..] == t;
  }

  lemma {:induction false} DecodedHasBytes(b: seq<Byte>)
    ensures Decode(b).Some? ==> Bytes(Decode(b).value) == b
    decreases |b|
  {
    if Decode(b).Some? && b != [] {
      var c, rest := DecodeSteps(b);
      DecodedHasBytes(rest);
      BytesCons(c, Decode(rest).value);
    }
  }

  lemma DecodeSteps(b: seq<Byte>) returns (c: char, rest: seq<Byte>)
    requires Decode(b).Some? && b != []
    ensures |rest| < |b| && b == Encode(c) + rest
    ensures Decode(rest).Some? && Decode(b).value == [c] + Decode(rest).value
  {
    c := First(b).value;
    EncodeShape(c);
    rest := b[|Encode(c)|..];
  }

  /** Decoding succeeds with s on exactly the encoding of s. */
  lemma DecodeIff(b: seq<Byte>, s: string)
    ensures Decode(b) == Some(s) <==> Bytes(s) == b
  {
    DecodeOfBytes(s);
    DecodedHasBytes(b);
  }

  lemma BytesInjective(s: string, t: string)
    requires Bytes(s) == Bytes(t)
    ensures s == t
  {
    DecodeIff(Bytes(s), s);
    DecodeIff(Bytes(s), t);
  }

  /** A text has as many bytes as characters when it is ASCII, and more otherwise. */
  lemma {:induction false} AsciiByLength(s: string)
    ensures |Bytes(s)| >= |s| && (|Bytes(s)| == |s| <==> Ascii(s))
    ensures Ascii(s) ==> forall i :: 0 <= i < |s| ==> Bytes(s)[i] == s[i] as int
  {
    if s != "" {
      AsciiByLength(s[1..]);
      EncodeShape(s[0]);
      var b := Bytes(s);
      if Ascii(s) {
        AsciiTail(s);
        assert Encode(s[0]) == [s[0] as int];
        forall i | 0 <= i < |s|
          ensures b[i] == s[i] as int
        {
          if i > 0 {
            assert b[i] == Bytes(s[1..])[i - 1] && s[i] == s[1..][i - 1];
          }
        }
      } else if s[0] as int < 128 {
        if Ascii(s[1..]) {
          forall i | 0 <= i < |s|
            ensures s[i] as int < 128
          {
            if i > 0 {
              assert s[i] == s[1..][i - 1];
            }
          }
        }
      }
    }
  }

  lemma AsciiTail(s: string)
    requires Ascii(s) && s != ""
    ensures Ascii(s[1..])
  {
    forall i | 0 <= i < |s[1..]|
      ensures s[1..][i] as int < 128
    {
      assert s[1..][i] == s[i + 1];
    }
  }
}
