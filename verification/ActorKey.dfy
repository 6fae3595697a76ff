/** Storage keys of actors: three escaped components joined by "__", written and read back in Python and in Rust. */
module ActorKey {
  import opened Common
  import Utf8

  type Byte = Utf8.Byte

  datatype Language = Rust | Python

  // ----- escaping -----

  predicate AsciiAlnum(b: Byte) {
    'a' as int <= b <= 'z' as int || 'A' as int <= b <= 'Z' as int || '0' as int <= b <= '9' as int
  }

  /** The bytes from 128 on whose Latin-1 character is `isalnum` for Python. */
  predicate LatinAlnum(b: Byte) {
    || b == 0xAA || b == 0xB2 || b == 0xB3 || b == 0xB5 || b == 0xB9 || b == 0xBA || 0xBC <= b <= 0xBE
    || 0xC0 <= b <= 0xD6 || 0xD8 <= b <= 0xF6 || 0xF8 <= b
  }

  /** The bytes that an encoder keeps as characters. Python tests the Latin-1 character, Rust the ASCII one. */
  predicate Kept(lang: Language, b: Byte) {
    AsciiAlnum(b) || b == '-' as int || (lang.Python? && LatinAlnum(b))
  }

  function HexDigit(n: nat): char
    requires n < 16
  {
    if n < 10 then ('0' as int + n) as char else ('a' as int + n - 10) as char
  }

  function Escape(lang: Language, b: Byte): string {
    if Kept(lang, b) then [b as char] else ['_', HexDigit(b / 16), HexDigit(b % 16)]
  }

  function Escaped(lang: Language, b: seq<Byte>): string {
    if b == [] then "" else Escape(lang, b[0]) + Escaped(lang, b[1..])
  }

  function Component(lang: Language, s: string): string {
    Escaped(lang, Utf8.Bytes(s))
  }

  lemma {:induction false} EscapedSnoc(lang: Language, b: seq<Byte>, x: Byte)
    ensures Escaped(lang, b + [x]) == Escaped(lang, b) + Escape(lang, x)
  {
    if b == [] {
      assert Escaped(lang, [x]) == Escape(lang, x) + Escaped(lang, [x][1..]);
    } else {
      assert (b + [x])[1..] == b[1..] + [x];
      EscapedSnoc(lang, b[1..], x);
    }
  }

  /** `encode_component`. */
  method EncodeComponent(lang: Language, raw: string) returns (out: string)
    ensures out == Component(lang, raw)
  {
    var bytes := Utf8.Bytes(raw);
    out := "";
    for i := 0 to |bytes|
      invariant out == Escaped(lang, bytes[..i])
    {
      EscapedSnoc(lang, bytes[..i], bytes[i]);
      assert bytes[..i + 1] == bytes[..i] + [bytes[i]];
      if Kept(lang, bytes[i]) {
        out := out + [bytes[i] as char];
      } else {
        out := out + ['_', HexDigit(bytes[i] / 16), HexDigit(bytes[i] % 16)];
      }
    }
    assert bytes[..|bytes|] == bytes;
  }

  // ----- unescaping in Rust, over bytes -----

  function HexValue(c: int): Option<nat> {
    if '0' as int <= c <= '9' as int then Some(c - '0' as int)
    else if 'a' as int <= c <= 'f' as int then Some(c - 'a' as int + 10)
    else if 'A' as int <= c <= 'F' as int then Some(c - 'A' as int + 10)
    else None
  }

  function HexPair(a: int, b: int): (r: Option<Byte>) {
    if HexValue(a).Some? && HexValue(b).Some? then Some(HexValue(a).value * 16 + HexValue(b).value) else None
  }

  function RustEscape(b: seq<Byte>): Option<Byte> {
    if |b| > 2 && b[0] == '_' as int then HexPair(b[1], b[2]) else None
  }

  function RustBytes(b: seq<Byte>): seq<Byte> {
    if b == [] then []
    else match RustEscape(b)
         case Some(n) => [n] + RustBytes(b[3..])
         case None => [b[0]] + RustBytes(b[1..])
  }

  /** Each byte as the character of that number: `char::from`. */
  function Latin(b: seq<Byte>): string {
    seq(|b|, i requires 0 <= i < |b| => b[i] as char)
  }

  function RustDecode(s: string): string {
    Latin(RustBytes(Utf8.Bytes(s)))
  }

  lemma RustStep(b: seq<Byte>, i: nat)
    requires i < |b|
    ensures RustBytes(b[i..]) == (match RustEscape(b[i..])
                                  case Some(n) => [n] + RustBytes(b[i + 3..])
                                  case None => [b[i]] + RustBytes(b[i + 1..]))
  {
    assert b[i..][1..] == b[i + 1..];
    if RustEscape(b[i..]).Some? {
      assert b[i..][3..] == b[i + 3..];
    }
  }

  /** `decode_component` of the actors and the portfolio store, and `decode_fs_component` of the importer. */
  method DecodeComponent(encoded: string) returns (out: string)
    ensures out == RustDecode(encoded)
  {
    var bytes := Utf8.Bytes(encoded);
    out := "";
    ghost var read: seq<Byte> := [];
    var i := 0;
    while i < |bytes|
      invariant 0 <= i <= |bytes| && out == Latin(read) && RustBytes(bytes) == read + RustBytes(bytes[i..])
    {
      RustStep(bytes, i);
      var n := RustEscape(bytes[i..]);
      if n.Some? {
        Assoc(read, [n.value], RustBytes(bytes[i + 3..]));
        read := read + [n.value];
        out := out + [n.value as char];
        i := i + 3;
      } else {
        Assoc(read, [bytes[i]], RustBytes(bytes[i + 1..]));
        read := read + [bytes[i]];
        out := out + [bytes[i] as char];
        i := i + 1;
      }
    }
  }

  // ----- unescaping in Python, over characters -----

  predicate PyIntSpace(c: char) {
    0x09 <= c as int <= 0x0D || c == ' '
  }

  /** `int(candidate, 16)` on two ASCII characters, when its value is a byte: besides two hex digits it accepts one
      digit with white space or a sign. */
  function AsciiInt(a: char, b: char): Option<Byte> {
    match (HexValue(a as int), HexValue(b as int))
    case (Some(h), Some(l)) => HexPair(a as int, b as int)
    case (Some(h), None) => if PyIntSpace(b) then Some(h) else None
    case (None, Some(l)) => if PyIntSpace(a) || a == '+' || (a == '-' && l == 0) then Some(l) else None
    case (None, None) => None
  }

  /** The zeros of Unicode's decimal digits beyond ASCII (version 14.0) in the range of a character; nine more digits
      follow each. */
  function Zeros(c: char): seq<int> {
    if c as int < 0x1000 then
      [0x660, 0x6F0, 0x7C0, 0x966, 0x9E6, 0xA66, 0xAE6, 0xB66, 0xBE6, 0xC66, 0xCE6, 0xD66, 0xDE6, 0xE50,
       0xED0, 0xF20]
    else if c as int < 0x1_0000 then
      [0x1040, 0x1090, 0x17E0, 0x1810, 0x1946, 0x19D0, 0x1A80, 0x1A90, 0x1B50, 0x1BB0, 0x1C40, 0x1C50,
       0xA620, 0xA8D0, 0xA900, 0xA9D0, 0xA9F0, 0xAA50, 0xABF0, 0xFF10]
    else
      [0x104A0, 0x10D30, 0x11066, 0x110F0, 0x11136, 0x111D0, 0x112F0, 0x11450, 0x114D0, 0x11650, 0x116C0,
       0x11730, 0x118E0, 0x11950, 0x11C50, 0x11D50, 0x11DA0, 0x16A60, 0x16AC0, 0x16B50, 0x1D7CE, 0x1D7D8,
       0x1D7E2, 0x1D7EC, 0x1D7F6, 0x1E140, 0x1E2F0, 0x1E950, 0x1FBF0]
  }

  function DigitIn(n: int, zeros: seq<int>): (r: Option<nat>)
    ensures r.Some? ==> r.value < 10
  {
    if zeros == [] then None
    else if zeros[0] <= n < zeros[0] + 10 then Some(n - zeros[0])
    else DigitIn(n, zeros[1..])
  }

  /** What Python's `int` takes a character for: any white space for a blank, any decimal digit for its value. */
  function PyFold(c: char): char {
    if c as int < 128 then c
    else if IsPySpace(c) then ' '
    else match DigitIn(c as int, Zeros(c))
         case Some(d) => ('0' as int + d) as char
         case None => '?'
  }

  function PyInt(a: char, b: char): Option<Byte> {
    if a as int < 128 && b as int < 128 then AsciiInt(a, b) else AsciiInt(PyFold(a), PyFold(b))
  }

  function PyEscape(s: string): Option<Byte> {
    if |s| > 2 && s[0] == '_' then PyInt(s[1], s[2]) else None
  }

  function PyBytes(s: string): seq<Byte> {
    if s == "" then []
    else match PyEscape(s)
         case Some(n) => [n] + PyBytes(s[3..])
         case None => Utf8.Encode(s[0]) + PyBytes(s[1..])
  }

  /** None is a UnicodeDecodeError. */
  function PyDecode(s: string): Option<string> {
    Utf8.Decode(PyBytes(s))
  }

  lemma PyStep(s: string, i: nat)
    requires i < |s|
    ensures PyBytes(s[i..]) == (match PyEscape(s[i..])
                                case Some(n) => [n] + PyBytes(s[i + 3..])
                                case None => Utf8.Encode(s[i]) + PyBytes(s[i + 1..]))
  {
    assert s[i..][1..] == s[i + 1..];
    if PyEscape(s[i..]).Some? {
      assert s[i..][3..] == s[i + 3..];
    }
  }

  /** Python's `decode_component`. */
  method DecodeComponentPython(raw: string) returns (text: Option<string>)
    ensures text == PyDecode(raw)
  {
    var out: seq<Byte> := [];
    var i := 0;
    while i < |raw|
      invariant 0 <= i <= |raw| && PyBytes(raw) == out + PyBytes(raw[i..])
    {
      PyStep(raw, i);
      var n := PyEscape(raw[i..]);
      var read, next := if n.Some? then [n.value] else Utf8.Encode(raw[i]), if n.Some? then i + 3 else i + 1;
      Assoc(out, read, PyBytes(raw[next..]));
      out, i := out + read, next;
    }
    assert out == PyBytes(raw);
    text := Utf8.Decode(out);
  }

  // ----- decoding undoes encoding -----

  /** What either decoder reads for a byte: the byte itself, but the encoding of a character that was kept. */
  function Reread(lang: Language, b: seq<Byte>): seq<Byte> {
    if b == [] then []
    else (if Kept(lang, b[0]) then Utf8.Encode(b[0] as char) else [b[0]]) + Reread(lang, b[1..])
  }

  lemma HexRoundTrip(b: Byte)
    ensures HexPair(HexDigit(b / 16) as int, HexDigit(b % 16) as int) == Some(b)
    ensures HexDigit(b / 16) != '_' && HexDigit(b % 16) != '_' && HexDigit(b / 16) != ':' && HexDigit(b % 16) != ':'
    ensures HexDigit(b / 16) as int < 128 && HexDigit(b % 16) as int < 128
  {
  }

  lemma PyHexRoundTrip(b: Byte)
    ensures PyInt(HexDigit(b / 16), HexDigit(b % 16)) == Some(b)
  {
    HexRoundTrip(b);
  }

  lemma BytesOfEscape(lang: Language, b: Byte, rest: string)
    ensures Utf8.Bytes(Escape(lang, b) + rest)
         == (if Kept(lang, b) then Utf8.Encode(b as char)
             else ['_' as int, HexDigit(b / 16) as int, HexDigit(b % 16) as int])
            + Utf8.Bytes(rest)
  {
    HexRoundTrip(b);
    Utf8.BytesConcat(Escape(lang, b), rest);
    if Kept(lang, b) {
      Utf8.BytesCons(b as char, "");
    } else {
      var h, l := HexDigit(b / 16), HexDigit(b % 16);
      Utf8.BytesCons('_', [h, l]);
      Utf8.BytesCons(h, [l]);
      Utf8.BytesCons(l, "");
      assert ['_'] + ([h] + [l]) == ['_', h, l] && [h] + [l] == [h, l] && [l] + "" == [l];
    }
  }

  /** The Rust decoder passes over the two bytes of a kept Latin-1 character, or the one of an ASCII character. */
  lemma RustPasses(b: Byte, rest: seq<Byte>)
    requires b != '_' as int
    ensures RustBytes(Utf8.Encode(b as char) + rest) == Utf8.Encode(b as char) + RustBytes(rest)
  {
    var e := Utf8.Encode(b as char);
    var s := e + rest;
    if b < 128 {
      assert s[1..] == rest;
    } else {
      assert s[0] == e[0] && s[1] == e[1] && e[0] != '_' as int && e[1] != '_' as int;
      assert s[1..][1..] == rest;
      assert RustBytes(s) == [e[0]] + RustBytes(s[1..]);
      assert RustBytes(s[1..]) == [e[1]] + RustBytes(rest);
      assert e == [e[0]] + [e[1]];
    }
  }

  lemma RustReads(lang: Language, b: Byte, rest: string)
    ensures RustBytes(Utf8.Bytes(Escape(lang, b) + rest))
         == (if Kept(lang, b) then Utf8.Encode(b as char) else [b]) + RustBytes(Utf8.Bytes(rest))
  {
    BytesOfEscape(lang, b, rest);
    if Kept(lang, b) {
      RustPasses(b, Utf8.Bytes(rest));
    } else {
      HexRoundTrip(b);
      var s := ['_' as int, HexDigit(b / 16) as int, HexDigit(b % 16) as int] + Utf8.Bytes(rest);
      assert s[3..] == Utf8.Bytes(rest);
    }
  }

  lemma PyReads(lang: Language, b: Byte, rest: string)
    ensures PyBytes(Escape(lang, b) + rest)
         == (if Kept(lang, b) then Utf8.Encode(b as char) else [b]) + PyBytes(rest)
  {
    var s := Escape(lang, b) + rest;
    if Kept(lang, b) {
      assert s[1..] == rest && s[0] == b as char;
    } else {
      PyHexRoundTrip(b);
      assert s[3..] == rest && s[0] == '_' && s[1] == HexDigit(b / 16) && s[2] == HexDigit(b % 16);
    }
  }

  /** Both decoders read the same bytes from every component that either encoder wrote. */
  lemma {:induction false} DecodersReadAlike(lang: Language, b: seq<Byte>)
    ensures PyBytes(Escaped(lang, b)) == Reread(lang, b)
    ensures RustBytes(Utf8.Bytes(Escaped(lang, b))) == Reread(lang, b)
  {
    if b != [] {
      DecodersReadAlike(lang, b[1..]);
      PyReads(lang, b[0], Escaped(lang, b[1..]));
      RustReads(lang, b[0], Escaped(lang, b[1..]));
    }
  }

  /** No byte of the text is a Latin-1 character that the encoder keeps. */
  ghost predicate EscapesNonAscii(lang: Language, b: seq<Byte>) {
    forall x :: x in b && Kept(lang, x) ==> x < 128
  }

  lemma {:induction false} RereadLength(lang: Language, b: seq<Byte>)
    ensures |Reread(lang, b)| >= |b|
    ensures Reread(lang, b) == b <==> EscapesNonAscii(lang, b)
    ensures |Reread(lang, b)| == |b| <==> EscapesNonAscii(lang, b)
  {
    if b != [] {
      RereadLength(lang, b[1..]);
      assert b == [b[0]] + b[1..];
      assert EscapesNonAscii(lang, b) <==> (Kept(lang, b[0]) ==> b[0] < 128) && EscapesNonAscii(lang, b[1..]);
    }
  }

  /** Python restores exactly the texts whose UTF-8 bytes are escaped wherever they are not ASCII. */
  lemma PythonRestoresIff(lang: Language, s: string)
    ensures PyDecode(Component(lang, s)) == Some(s) <==> EscapesNonAscii(lang, Utf8.Bytes(s))
  {
    DecodersReadAlike(lang, Utf8.Bytes(s));
    RereadLength(lang, Utf8.Bytes(s));
    Utf8.DecodeIff(PyBytes(Component(lang, s)), s);
  }

  /** So it restores everything that Rust wrote. */
  lemma PythonRestoresRust(s: string)
    ensures PyDecode(Component(Rust, s)) == Some(s)
  {
    PythonRestoresIff(Rust, s);
  }

  /** Rust restores exactly the ASCII texts, whoever wrote them. */
  lemma RustRestoresIff(lang: Language, s: string)
    ensures RustDecode(Component(lang, s)) == s <==> Utf8.Ascii(s)
  {
    var b := Utf8.Bytes(s);
    DecodersReadAlike(lang, b);
    RereadLength(lang, b);
    Utf8.AsciiByLength(s);
    if Utf8.Ascii(s) {
      AsciiIsEscaped(lang, s);
    }
  }

  lemma AsciiIsEscaped(lang: Language, s: string)
    requires Utf8.Ascii(s)
    ensures EscapesNonAscii(lang, Utf8.Bytes(s))
  {
    Utf8.AsciiByLength(s);
  }

  /** On ASCII texts everything agrees: the two encoders, and both decoders with the text itself. */
  lemma AsciiRoundTrip(lang: Language, s: string)
    requires Utf8.Ascii(s)
    ensures Component(Rust, s) == Component(Python, s)
    ensures RustDecode(Component(lang, s)) == s && PyDecode(Component(lang, s)) == Some(s)
  {
    RustRestoresIff(lang, s);
    AsciiIsEscaped(lang, s);
    PythonRestoresIff(lang, s);
    Utf8.AsciiByLength(s);
    EncodersAgree(Utf8.Bytes(s));
  }

  lemma {:induction false} EncodersAgree(b: seq<Byte>)
    requires forall i :: 0 <= i < |b| ==> b[i] < 128
    ensures Escaped(Rust, b) == Escaped(Python, b)
  {
    if b != [] {
      EncodersAgree(b[1..]);
    }
  }

  /** Different texts have different components. */
  lemma ComponentInjective(lang: Language, s: string, t: string)
    requires Component(lang, s) == Component(lang, t)
    ensures s == t
  {
    EscapedInjective(lang, Utf8.Bytes(s), Utf8.Bytes(t));
    Utf8.BytesInjective(s, t);
  }

  lemma {:induction false} EscapedInjective(lang: Language, b: seq<Byte>, c: seq<Byte>)
    requires Escaped(lang, b) == Escaped(lang, c)
    ensures b == c
  {
    if b != [] && c != [] {
      EscapeIsPrefixFree(lang, b[0], Escaped(lang, b[1..]), c[0], Escaped(lang, c[1..]));
      EscapedInjective(lang, b[1..], c[1..]);
      assert b == [b[0]] + b[1..] && c == [c[0]] + c[1..];
    }
  }

  lemma EscapeIsPrefixFree(lang: Language, b: Byte, s: string, c: Byte, t: string)
    requires Escape(lang, b) + s == Escape(lang, c) + t
    ensures b == c && s == t
  {
    PyReads(lang, b, s);
    PyReads(lang, c, t);
    HexRoundTrip(b);
    HexRoundTrip(c);
    var u, v := Escape(lang, b) + s, Escape(lang, c) + t;
    assert u[0] == Escape(lang, b)[0] && v[0] == Escape(lang, c)[0];
    if Kept(lang, b) {
      assert u[1..] == s && v[1..] == t;
    } else {
      assert u[1] == HexDigit(b / 16) && u[2] == HexDigit(b % 16);
      assert v[1] == HexDigit(c / 16) && v[2] == HexDigit(c % 16);
      assert u[3..] == s && v[3..] == t;
    }
  }

  // ----- splitting undoes joining -----

  /** No "__" inside, no "_" at the end. */
  predicate Clean(s: string) {
    s == "" || (s[0] != '_' && |s| == 1) || (|s| > 1 && !(s[0] == '_' && s[1] == '_') && Clean(s[1..]))
  }

  lemma {:induction false} CleanConcat(a: string, b: string)
    requires Clean(a) && Clean(b)
    ensures Clean(a + b)
  {
    if a == "" {
      assert a + b == b;
    } else {
      assert (a + b)[1..] == a[1..] + b;
      CleanConcat(a[1..], b);
    }
  }

  /** An encoded component neither contains "__" nor ends in "_"; nor does it contain a colon. */
  lemma {:induction false} EscapedIsClean(lang: Language, b: seq<Byte>)
    ensures Clean(Escaped(lang, b)) && ':' !in Escaped(lang, b)
  {
    if b != [] {
      EscapedIsClean(lang, b[1..]);
      HexRoundTrip(b[0]);
      var head := Escape(lang, b[0]);
      if !Kept(lang, b[0]) {
        assert head[1..] == [head[1], head[2]] && head[1..][1..] == [head[2]];
      }
      CleanConcat(head, Escaped(lang, b[1..]));
    }
  }

  /** `split_once("__")`: at the first occurrence. */
  function SplitOnce(s: string): Option<(string, string)> {
    if |s| < 2 then None
    else if s[0] == '_' && s[1] == '_' then Some(("", s[2..]))
    else match SplitOnce(s[1..]) case Some((a, b)) => Some(([s[0]] + a, b)) case None => None
  }

  /** Python's `split("__")`. */
  function SplitAll(s: string): seq<string>
    decreases |s|
  {
    match SplitOnce(s)
    case None => [s]
    case Some((a, b)) => SplitShrinks(s); [a] + SplitAll(b)
  }

  /** Rust's `splitn(3, "__")`. */
  function SplitThree(s: string): seq<string> {
    match SplitOnce(s)
    case None => [s]
    case Some((a, b)) => match SplitOnce(b) case None => [a, b] case Some((c, d)) => [a, c, d]
  }

  lemma {:induction false} SplitShrinks(s: string)
    ensures SplitOnce(s).Some? ==> |SplitOnce(s).value.1| < |s|
  {
    if |s| >= 2 && !(s[0] == '_' && s[1] == '_') {
      SplitShrinks(s[1..]);
    }
  }

  const SEPARATOR := ['_', '_']

  lemma {:induction false} SplitAtJoin(a: string, rest: string)
    requires Clean(a)
    ensures SplitOnce(a + (SEPARATOR + rest)) == Some((a, rest))
  {
    var s := a + (SEPARATOR + rest);
    if a == "" {
      assert s == SEPARATOR + rest && s[0] == '_' && s[1] == '_';
      assert s[2..] == rest;
    } else {
      SplitAtJoin(a[1..], rest);
      assert s[1..] == a[1..] + (SEPARATOR + rest);
      assert s[0] == a[0] && (|a| > 1 ==> s[1] == a[1]);
      assert [a[0]] + a[1..] == a;
    }
  }

  lemma {:induction false} CleanHasNoSplit(a: string)
    requires Clean(a)
    ensures SplitOnce(a) == None
  {
    if |a| >= 2 {
      CleanHasNoSplit(a[1..]);
    }
  }

  function Join(a: string, b: string, c: string): string {
    a + (SEPARATOR + (b + (SEPARATOR + c)))
  }

  /** A joined key splits back into exactly its three parts, in Python and in Rust. */
  lemma SplitUndoesJoin(a: string, b: string, c: string)
    requires Clean(a) && Clean(b) && Clean(c)
    ensures SplitAll(Join(a, b, c)) == [a, b, c] && SplitThree(Join(a, b, c)) == [a, b, c]
  {
    SplitAtJoin(a, b + (SEPARATOR + c));
    SplitAtJoin(b, c);
    CleanHasNoSplit(c);
    assert SplitAll(c) == [c];
    assert SplitAll(b + (SEPARATOR + c)) == [b] + [c];
  }

  // ----- keys -----

  datatype Actor = Actor(channel: string, scope: Option<string>, userId: string)

  const DIRECT := "direct"

  /** What a key writes for the scope. Python also writes the default for an empty scope. */
  function ScopeText(lang: Language, scope: Option<string>): string {
    if scope.None? || (lang.Python? && scope.value == "") then DIRECT else scope.value
  }

  function StorageKey(lang: Language, a: Actor): string {
    Join(Component(lang, a.channel), Component(lang, ScopeText(lang, a.scope)), Component(lang, a.userId))
  }

  lemma KeyParts(lang: Language, a: Actor)
    ensures var scope := ScopeText(lang, a.scope);
            var parts := [Component(lang, a.channel), Component(lang, scope), Component(lang, a.userId)];
            SplitAll(StorageKey(lang, a)) == parts && SplitThree(StorageKey(lang, a)) == parts
  {
    EscapedIsClean(lang, Utf8.Bytes(a.channel));
    EscapedIsClean(lang, Utf8.Bytes(ScopeText(lang, a.scope)));
    EscapedIsClean(lang, Utf8.Bytes(a.userId));
    SplitUndoesJoin(Component(lang, a.channel), Component(lang, ScopeText(lang, a.scope)), Component(lang, a.userId));
  }

  /** Different (channel, scope or direct, user) triples have different keys, over every text. */
  lemma KeysDistinct(lang: Language, a: Actor, b: Actor)
    ensures StorageKey(lang, a) == StorageKey(lang, b)
       <==> a.channel == b.channel && ScopeText(lang, a.scope) == ScopeText(lang, b.scope) && a.userId == b.userId
  {
    if StorageKey(lang, a) == StorageKey(lang, b) {
      KeyParts(lang, a);
      KeyParts(lang, b);
      var p, q := SplitThree(StorageKey(lang, a)), SplitThree(StorageKey(lang, b));
      assert p[0] == q[0] && p[1] == q[1] && p[2] == q[2];
      ComponentInjective(lang, a.channel, b.channel);
      ComponentInjective(lang, ScopeText(lang, a.scope), ScopeText(lang, b.scope));
      ComponentInjective(lang, a.userId, b.userId);
    }
  }

  /** `ActorIdentity::new` trims its parts, refuses blank ones and drops a blank scope. */
  function NewActor(channel: string, userId: string, scope: Option<string>): Option<Actor> {
    if Trim(channel) == "" || Trim(userId) == "" then None
    else
      var trimmed := if scope.Some? && Trim(scope.value) != "" then Some(Trim(scope.value)) else None;
      Some(Actor(Trim(channel), trimmed, Trim(userId)))
  }

  /** Rust's `actor_from_storage_key`. */
  function ActorFromKey(key: string): Option<Actor> {
    var parts := SplitThree(key);
    if |parts| != 3 then None
    else
      var channel, scope, user := RustDecode(parts[0]), RustDecode(parts[1]), RustDecode(parts[2]);
      if channel == "" || user == "" then None
      else NewActor(channel, user, if scope == DIRECT then None else Some(scope))
  }

  /** What `ActorIdentity::new` produces. */
  ghost predicate ProperActor(a: Actor) {
    && a.channel != "" && Trimmed(a.channel) && a.userId != "" && Trimmed(a.userId)
    && (a.scope.Some? ==> a.scope.value != "" && Trimmed(a.scope.value))
  }

  ghost predicate AsciiActor(a: Actor) {
    Utf8.Ascii(a.channel) && Utf8.Ascii(a.userId) && (a.scope.Some? ==> Utf8.Ascii(a.scope.value))
  }

  lemma NewKeepsProper(a: Actor)
    requires ProperActor(a)
    ensures NewActor(a.channel, a.userId, a.scope) == Some(a)
  {
    var _, _ := TrimIsSlice(a.channel);
    var _, _ := TrimIsSlice(a.userId);
    if a.scope.Some? {
      var _, _ := TrimIsSlice(a.scope.value);
    }
  }

  lemma DirectIsAscii()
    ensures Utf8.Ascii(DIRECT)
  {
  }

  lemma PartsRestored(lang: Language, a: Actor)
    requires AsciiActor(a)
    ensures RustDecode(Component(lang, a.channel)) == a.channel && RustDecode(Component(lang, a.userId)) == a.userId
    ensures RustDecode(Component(lang, ScopeText(lang, a.scope))) == ScopeText(lang, a.scope)
  {
    DirectIsAscii();
    RustRestoresIff(lang, a.channel);
    RustRestoresIff(lang, ScopeText(lang, a.scope));
    RustRestoresIff(lang, a.userId);
  }

  /** Reading back the key of a proper actor, written in either language, gives the actor; a scope that spells the
      default is read as none. */
  lemma KeyRoundTrip(lang: Language, a: Actor)
    requires AsciiActor(a) && ProperActor(a)
    ensures ActorFromKey(StorageKey(lang, a)) == Some(if a.scope == Some(DIRECT) then a.(scope := None) else a)
  {
    KeyParts(lang, a);
    PartsRestored(lang, a);
    var read := if a.scope == Some(DIRECT) then a.(scope := None) else a;
    var parts := SplitThree(StorageKey(lang, a));
    assert RustDecode(parts[0]) == a.channel && RustDecode(parts[2]) == a.userId;
    assert read.scope == if RustDecode(parts[1]) == DIRECT then None else Some(RustDecode(parts[1]));
    NewKeepsProper(read);
  }

  /** `actor_scope_and_user_from_scoped_key`. */
  function ScopeAndUser(key: string): Option<(Option<string>, string)> {
    match SplitOnce(key)
    case None => None
    case Some((scopeRaw, userRaw)) =>
      var scope, user := RustDecode(scopeRaw), RustDecode(userRaw);
      if Trim(user) == "" then None else Some((if scope == DIRECT then None else Some(scope), user))
  }

  /** `scoped_user_fs_key`. */
  function ScopedKey(a: Actor): string {
    Component(Rust, ScopeText(Rust, a.scope)) + (SEPARATOR + Component(Rust, a.userId))
  }

  // ----- the lock keys built on storage keys -----

  lemma {:induction false} MarkSplits(a: string, x: string, b: string, y: string)
    requires ':' !in a && ':' !in b
    requires a + ([':', ':'] + x) == b + ([':', ':'] + y)
    ensures a == b && x == y
  {
    var s, t := a + ([':', ':'] + x), b + ([':', ':'] + y);
    assert s[0] == (if a == "" then ':' else a[0]) && t[0] == (if b == "" then ':' else b[0]);
    if a == "" {
      assert s[2..] == x && t[2..] == y;
    } else {
      assert s[1..] == a[1..] + ([':', ':'] + x) && t[1..] == b[1..] + ([':', ':'] + y);
      MarkSplits(a[1..], x, b[1..], y);
      assert a == [a[0]] + a[1..] && b == [b[0]] + b[1..];
    }
  }

  /** The quota lock key `key::date` determines the actor's storage key and the date, whatever the date's text. */
  lemma QuotaLockKeysDistinct(a: Actor, x: string, b: Actor, y: string)
    requires StorageKey(Rust, a) + ([':', ':'] + x) == StorageKey(Rust, b) + ([':', ':'] + y)
    ensures StorageKey(Rust, a) == StorageKey(Rust, b) && x == y
  {
    NoColon(a);
    NoColon(b);
    MarkSplits(StorageKey(Rust, a), x, StorageKey(Rust, b), y);
  }

  lemma NoColon(a: Actor)
    ensures ':' !in StorageKey(Rust, a)
  {
    EscapedIsClean(Rust, Utf8.Bytes(a.channel));
    EscapedIsClean(Rust, Utf8.Bytes(ScopeText(Rust, a.scope)));
    EscapedIsClean(Rust, Utf8.Bytes(a.userId));
  }
}
