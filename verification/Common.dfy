/** Options, results and the few sequence and string operations that several components share. */
module Common {

  datatype Option<+T> = None | Some(value: T)

  datatype Result<+T, +E> = Ok(value: T) | Err(error: E)

  lemma Assoc<T>(a: seq<T>, b: seq<T>, c: seq<T>)
    ensures a + (b + c) == (a + b) + c
  {
  }

  lemma {:induction false} DistinctCount(s: seq<string>, all: set<string>)
    requires (forall i, j :: 0 <= i < j < |s| ==> s[i] != s[j]) && (forall x :: x in s <==> x in all)
    ensures |s| == |all|
  {
    if s == [] {
      assert all == {};
    } else {
      forall x
        ensures x in s[1..] <==> x in all - {s[0]}
      {
        assert s == [s[0]] + s[1..];
        if x in s[1..] {
          var i :| 0 <= i < |s[1..]| && s[1..][i] == x;
          assert s[0] != s[i + 1];
        }
      }
      DistinctCount(s[1..], all - {s[0]});
    }
  }

  /** A number as text. */
  function Decimal(n: nat): string {
    if n < 10 then [('0' as int + n) as char] else Decimal(n / 10) + [('0' as int + n % 10) as char]
  }

  /** The Unicode White_Space property, which Rust's `char::is_whitespace` and `str::trim` use. */
  predicate IsSpace(c: char) {
    var n := c as int;
    || 0x09 <= n <= 0x0D || n == 0x20 || n == 0x85 || n == 0xA0 || n == 0x1680
    || 0x2000 <= n <= 0x200A || n == 0x2028 || n == 0x2029 || n == 0x202F || n == 0x205F || n == 0x3000
  }

  /** Python's `str.isspace`, which also counts four ASCII separators. */
  predicate IsPySpace(c: char) {
    IsSpace(c) || 0x1C <= c as int <= 0x1F
  }

  datatype Spaces = RustSpaces | PySpaces

  predicate Blanks(spaces: Spaces, c: char) {
    if spaces.RustSpaces? then IsSpace(c) else IsPySpace(c)
  }

  function TrimStart(spaces: Spaces, s: string): string {
    if s != "" && Blanks(spaces, s[0]) then TrimStart(spaces, s[1..]) else s
  }

  function TrimEnd(spaces: Spaces, s: string): string {
    if s != "" && Blanks(spaces, s[|s| - 1]) then TrimEnd(spaces, s[..|s| - 1]) else s
  }

  /** Rust's `str::trim`. */
  function Trim(s: string): string {
    TrimEnd(RustSpaces, TrimStart(RustSpaces, s))
  }

  /** Python's `str.strip`. */
  function Strip(s: string): string {
    TrimEnd(PySpaces, TrimStart(PySpaces, s))
  }

  ghost predicate NoOuter(spaces: Spaces, s: string) {
    s == "" || (!Blanks(spaces, s[0]) && !Blanks(spaces, s[|s| - 1]))
  }

  ghost predicate Trimmed(s: string) {
    NoOuter(RustSpaces, s)
  }

  ghost predicate Stripped(s: string) {
    NoOuter(PySpaces, s)
  }

  lemma {:induction false} TrimEndKeepsStart(spaces: Spaces, s: string)
    ensures |TrimEnd(spaces, s)| <= |s| && TrimEnd(spaces, s) == s[..|TrimEnd(spaces, s)|]
    ensures TrimEnd(spaces, s) == "" || !Blanks(spaces, TrimEnd(spaces, s)[|TrimEnd(spaces, s)| - 1])
  {
    if s != "" && Blanks(spaces, s[|s| - 1]) {
      TrimEndKeepsStart(spaces, s[..|s| - 1]);
    }
  }

  lemma {:induction false} TrimStartKeepsEnd(spaces: Spaces, s: string)
    ensures |TrimStart(spaces, s)| <= |s| && TrimStart(spaces, s) == s[|s| - |TrimStart(spaces, s)|..]
    ensures TrimStart(spaces, s) == "" || !Blanks(spaces, TrimStart(spaces, s)[0])
  {
    if s != "" && Blanks(spaces, s[0]) {
      TrimStartKeepsEnd(spaces, s[1..]);
    }
  }

  /** Trimming gives a trimmed slice of the text, and a trimmed text is left alone. */
  lemma TrimIsSlice(s: string) returns (lo: nat, hi: nat)
    ensures lo <= hi <= |s| && Trim(s) == s[lo..hi] && Trimmed(Trim(s))
    ensures Trimmed(s) ==> Trim(s) == s
  {
    TrimStartKeepsEnd(RustSpaces, s);
    TrimEndKeepsStart(RustSpaces, TrimStart(RustSpaces, s));
    lo := |s| - |TrimStart(RustSpaces, s)|;
    hi := lo + |Trim(s)|;
  }

  lemma TrimIdempotent(s: string)
    ensures Trim(Trim(s)) == Trim(s)
  {
    var _, _ := TrimIsSlice(s);
    var _, _ := TrimIsSlice(Trim(s));
  }

  lemma StripStrips(s: string)
    ensures Stripped(Strip(s)) && (Stripped(s) ==> Strip(s) == s) && Strip(Strip(s)) == Strip(s)
  {
    TrimStartKeepsEnd(PySpaces, s);
    TrimEndKeepsStart(PySpaces, TrimStart(PySpaces, s));
  }
}
