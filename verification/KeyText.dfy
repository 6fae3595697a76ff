/** How key components read as text. */
module KeyText {
  import opened Common
  import opened ActorKey
  import Utf8

  /** An ASCII letter or digit, or a dash. */
  predicate PlainChar(c: char) {
    'a' <= c <= 'z' || 'A' <= c <= 'Z' || '0' <= c <= '9' || c == '-'
  }

  ghost predicate PlainText(s: string) {
    forall i :: 0 <= i < |s| ==> PlainChar(s[i])
  }

  lemma {:induction false} EscapedConcat(lang: Language, a: seq<Byte>, b: seq<Byte>)
    ensures Escaped(lang, a + b) == Escaped(lang, a) + Escaped(lang, b)
  {
    if a == [] {
      assert a + b == b;
    } else {
      assert (a + b)[1..] == a[1..] + b;
      EscapedConcat(lang, a[1..], b);
    }
  }

  lemma {:induction false} EscapedLength(lang: Language, b: seq<Byte>)
    ensures |Escaped(lang, b)| >= |b|
  {
    if b != [] {
      EscapedLength(lang, b[1..]);
    }
  }

  lemma CharLength(lang: Language, c: char)
    ensures |Escaped(lang, Utf8.Encode(c))| >= 1
    ensures |Escaped(lang, Utf8.Encode(c))| == 1 <==> PlainChar(c)
    ensures PlainChar(c) ==> Escaped(lang, Utf8.Encode(c)) == [c]
  {
    var b := Utf8.Encode(c);
    EscapedLength(lang, b);
    if c as int < 128 {
      assert b == [c as int] && b[1..] == [];
      assert Escaped(lang, b) == Escape(lang, b[0]) + "";
    }
  }

  lemma {:induction false} ComponentLength(lang: Language, s: string)
    ensures |Component(lang, s)| >= |s|
    ensures |Component(lang, s)| == |s| <==> PlainText(s)
    ensures PlainText(s) ==> Component(lang, s) == s
  {
    if s != "" {
      CharLength(lang, s[0]);
      EscapedConcat(lang, Utf8.Encode(s[0]), Utf8.Bytes(s[1..]));
      ComponentLength(lang, s[1..]);
      assert s == [s[0]] + s[1..];
      assert PlainText(s) <==> PlainChar(s[0]) && PlainText(s[1..]);
    }
  }

  /** A text is its own component exactly when it consists of ASCII letters, digits and dashes, in both languages. */
  lemma PlainTextsKept(lang: Language, s: string)
    ensures Component(lang, s) == s <==> PlainText(s)
  {
    ComponentLength(lang, s);
  }

  lemma HexDigits(n: nat)
    requires n < 16
    ensures HexDigit(n) == "0123456789abcdef"[n]
  {
  }

  /** Any other ASCII character is an underscore and two hexadecimal digits, in lower case. */
  lemma EscapedChar(lang: Language, c: char)
    requires c as int < 128 && !PlainChar(c)
    ensures var digits := "0123456789abcdef";
            Component(lang, [c]) == ['_', digits[c as int / 16], digits[c as int % 16]]
  {
    assert [c][1..] == "" && Utf8.Encode(c) + [] == [c as int];
    assert Utf8.Bytes([c]) == [c as int];
    assert [c as int][1..] == [];
    HexDigits(c as int / 16);
    HexDigits(c as int % 16);
    assert Escaped(lang, [c as int]) == Escape(lang, c as int) + "";
  }
}
