/**
 * Character classes and string helpers shared by the Python script and the
 * Java bridge: ASCII case mapping, Python's whitespace, Java's `trim()`,
 * hexadecimal and decimal formatting, and `str.join`.
 */
module Text {

  // ---------------------------------------------------------------- letters

  predicate IsUpperLetter(c: char) { 'A' <= c <= 'Z' }

  predicate IsLowerLetter(c: char) { 'a' <= c <= 'z' }

  predicate IsAsciiLetter(c: char) { IsUpperLetter(c) || IsLowerLetter(c) }

  /** Every character of `s` is one of 'A'..'Z' (`string.ascii_uppercase`). */
  predicate AllUpper(s: string) {
    forall i :: 0 <= i < |s| ==> IsUpperLetter(s[i])
  }

  /** `str.upper()` restricted to ASCII: 'a'..'z' map to 'A'..'Z', everything else is kept. */
  function UpperChar(c: char): (u: char)
    ensures IsAsciiLetter(c) <==> IsUpperLetter(u)
    ensures !IsLowerLetter(c) ==> u == c
  {
    if IsLowerLetter(c) then (c as int - 32) as char else c
  }

  /** `str.lower()` restricted to ASCII. */
  function LowerChar(c: char): (l: char)
    ensures IsAsciiLetter(c) <==> IsLowerLetter(l)
    ensures !IsUpperLetter(c) ==> l == c
  {
    if IsUpperLetter(c) then (c as int + 32) as char else c
  }

  function Upper(s: string): (r: string)
    ensures |r| == |s|
  {
    seq(|s|, i requires 0 <= i < |s| => UpperChar(s[i]))
  }

  function Lower(s: string): (r: string)
    ensures |r| == |s|
  {
    seq(|s|, i requires 0 <= i < |s| => LowerChar(s[i]))
  }

  lemma LowerAppend(a: string, b: string)
    ensures Lower(a + b) == Lower(a) + Lower(b)
  {
    assert forall i :: 0 <= i < |a + b| ==> Lower(a + b)[i] == (Lower(a) + Lower(b))[i];
  }

  lemma UpperAppend(a: string, b: string)
    ensures Upper(a + b) == Upper(a) + Upper(b)
  {
    assert forall i :: 0 <= i < |a + b| ==> Upper(a + b)[i] == (Upper(a) + Upper(b))[i];
  }

  // ------------------------------------------------------------- whitespace

  /** Python 3's `str.isspace()`: the characters `str.strip()` removes. */
  predicate IsPyWhitespace(c: char): (b: bool)
    ensures b ==> !IsAsciiLetter(c) && c != '\0'
  {
    ('\t' <= c <= '\r') || ('\U{1C}' <= c <= '\U{1F}') || c == ' ' || c == '\U{85}' || c == '\U{A0}'
    || c == '\U{1680}' || ('\U{2000}' <= c <= '\U{200A}') || c == '\U{2028}' || c == '\U{2029}'
    || c == '\U{202F}' || c == '\U{205F}' || c == '\U{3000}'
  }

  /** Python's `not s or not s.strip()`: `s` is empty or holds only whitespace. */
  predicate IsBlank(s: string): (b: bool)
    ensures b ==> forall i :: 0 <= i < |s| ==> !IsAsciiLetter(s[i])
  {
    forall i :: 0 <= i < |s| ==> IsPyWhitespace(s[i])
  }

  // ------------------------------------------------------------ Java trim()

  /** Java's `trim()` treats every character up to U+0020 as removable. */
  predicate IsJavaTrimmable(c: char) { c <= ' ' }

  function TrimStart(s: string): (r: string)
    ensures |r| <= |s| && r == s[|s| - |r|..]
    ensures r == [] || !IsJavaTrimmable(r[0])
    ensures forall i :: 0 <= i < |s| - |r| ==> IsJavaTrimmable(s[i])
  {
    if s != [] && IsJavaTrimmable(s[0]) then TrimStart(s[1..]) else s
  }

  function TrimEnd(s: string): (r: string)
    ensures |r| <= |s| && r == s[..|r|]
    ensures r == [] || !IsJavaTrimmable(r[|r| - 1])
    ensures forall i :: |r| <= i < |s| ==> IsJavaTrimmable(s[i])
  {
    if s != [] && IsJavaTrimmable(s[|s| - 1]) then TrimEnd(s[..|s| - 1]) else s
  }

  /** Java's `String.trim()`. */
  function Trim(s: string): (r: string)
    ensures r == [] || (!IsJavaTrimmable(r[0]) && !IsJavaTrimmable(r[|r| - 1]))
    ensures (forall i :: 0 <= i < |s| ==> IsJavaTrimmable(s[i])) ==> r == []
  {
    TrimStart(TrimEnd(s))
  }

  /** A string that already starts and ends with a visible character is left as it is. */
  lemma TrimKeeps(s: string)
    requires s != [] && !IsJavaTrimmable(s[0]) && !IsJavaTrimmable(s[|s| - 1])
    ensures Trim(s) == s
  {
  }

  /** Trailing characters up to U+0020 (a newline, say) never survive a trim. */
  lemma TrimIgnoresTrailing(s: string, tail: string)
    requires forall i :: 0 <= i < |tail| ==> IsJavaTrimmable(tail[i])
    ensures Trim(s + tail) == Trim(s)
  {
    TrimEndIgnoresTrailing(s, tail);
  }

  lemma {:induction false} TrimEndIgnoresTrailing(s: string, tail: string)
    requires forall i :: 0 <= i < |tail| ==> IsJavaTrimmable(tail[i])
    ensures TrimEnd(s + tail) == TrimEnd(s)
  {
    if tail != [] {
      var shorter := tail[..|tail| - 1];
      var whole := s + tail;
      assert whole[..|whole| - 1] == s + shorter;
      assert IsJavaTrimmable(whole[|whole| - 1]);
      TrimEndIgnoresTrailing(s, shorter);
    } else {
      assert s + tail == s;
    }
  }

  /** Trimming twice is trimming once. */
  lemma TrimIdempotent(s: string)
    ensures Trim(Trim(s)) == Trim(s)
  {
    var r := Trim(s);
    if r != [] {
      TrimKeeps(r);
    }
  }

  // -------------------------------------------------------------- formatting

  /** One hexadecimal digit, upper- or lower-case. */
  function HexDigit(d: nat, upper: bool): (c: char)
    requires d < 16
  {
    if d < 10 then ('0' as int + d) as char
    else if upper then ('A' as int + d - 10) as char
    else ('a' as int + d - 10) as char
  }

  /** Four hexadecimal digits, most significant first (`:04X` and `\uXXXX`). */
  function Hex4(n: nat, upper: bool): (r: string)
    requires n < 0x1_0000
    ensures |r| == 4
  {
    [HexDigit(n / 0x1000, upper), HexDigit(n / 0x100 % 16, upper),
     HexDigit(n / 0x10 % 16, upper), HexDigit(n % 16, upper)]
  }

  /** Hexadecimal digits of `n` without padding, most significant first. */
  function HexDigits(n: nat, upper: bool): (r: string)
    ensures r != [] && (n >= 0x10 ==> |r| >= 2) && (n >= 0x100 ==> |r| >= 3)
    ensures (n >= 0x1000 ==> |r| >= 4) && (n >= 0x1_0000 ==> |r| >= 5)
  {
    if n < 16 then [HexDigit(n, upper)] else HexDigits(n / 16, upper) + [HexDigit(n % 16, upper)]
  }

  /** `:04X` / `:04x`: at least four hexadecimal digits, zero-padded. */
  function Hex4OrMore(n: nat, upper: bool): (r: string)
    ensures |r| >= 4 && (n < 0x1_0000 ==> |r| == 4)
  {
    if n < 0x1_0000 then Hex4(n, upper) else HexDigits(n, upper)
  }

  function DecimalDigit(d: nat): (c: char)
    requires d < 10
    ensures '0' <= c <= '9'
  {
    ('0' as int + d) as char
  }

  /** Decimal notation of a natural number, without leading zeros. */
  function NatToString(n: nat): (r: string)
    ensures r != [] && forall i :: 0 <= i < |r| ==> '0' <= r[i] <= '9'
    ensures (r[0] == '0') <==> n == 0
  {
    if n < 10 then [DecimalDigit(n)] else NatToString(n / 10) + [DecimalDigit(n % 10)]
  }

  /** Decimal notation of an integer, as Java's string concatenation and Python's `str` print it. */
  function IntToString(n: int): (r: string)
    ensures r != [] && (r[0] == '-' <==> n < 0)
  {
    if n < 0 then "-" + NatToString(-n) else NatToString(n)
  }

  /** `sep.join(parts)`. */
  function Join(sep: string, parts: seq<string>): (r: string)
    ensures forall i :: 0 <= i < |parts| ==> |parts[i]| <= |r|
  {
    if parts == [] then ""
    else if |parts| == 1 then parts[0]
    else parts[0] + sep + Join(sep, parts[1..])
  }
}
