/**
 * The string helpers the relay relies on: Rust's `str::trim` (whitespace as
 * `char::is_whitespace` defines it), ASCII lowercasing of header names, and the
 * decimal rendering of a port number used by `format!("{}:{}", host, port)`.
 */
module Text {
  import opened Wrappers

  /** Rust's `char::is_whitespace`: the Unicode White_Space property. */
  predicate IsWhitespace(c: char) {
    var n := c as int;
    (0x09 <= n <= 0x0D) || n == 0x20 || n == 0x85 || n == 0xA0 || n == 0x1680
    || (0x2000 <= n <= 0x200A) || n == 0x2028 || n == 0x2029 || n == 0x202F
    || n == 0x205F || n == 0x3000
  }

  /** A name that `trim()` reduces to the empty string. */
  predicate IsBlank(s: string) {
    forall i | 0 <= i < |s| :: IsWhitespace(s[i])
  }

  /** `trim_start`: drop leading whitespace. */
  function TrimStart(s: string): (r: string)
    ensures |r| <= |s| && r == s[|s| - |r|..]
    ensures forall i | 0 <= i < |s| - |r| :: IsWhitespace(s[i])
    ensures r != [] ==> !IsWhitespace(r[0])
    ensures r == [] <==> IsBlank(s)
  {
    if s == [] || !IsWhitespace(s[0]) then s
    else
      var r := TrimStart(s[1..]);
      assert forall j | 1 <= j < |s| :: s[j] == s[1..][j - 1];
      r
  }

  /** `trim_end`: drop trailing whitespace. */
  function TrimEnd(s: string): (r: string)
    ensures |r| <= |s| && r == s[..|r|]
    ensures forall i | |r| <= i < |s| :: IsWhitespace(s[i])
    ensures r != [] ==> !IsWhitespace(r[|r| - 1])
    ensures r == [] <==> IsBlank(s)
  {
    if s == [] || !IsWhitespace(s[|s| - 1]) then s
    else
      var r := TrimEnd(s[..|s| - 1]);
      assert forall j | 0 <= j < |s| - 1 :: s[j] == s[..|s| - 1][j];
      r
  }

  /**
   * `str::trim`: drop leading and trailing whitespace. Nothing is left exactly
   * when the string is all whitespace, so `trim().is_empty()` is `IsBlank`.
   */
  function Trim(s: string): (r: string)
    ensures |r| <= |s|
    ensures r != [] ==> !IsWhitespace(r[0]) && !IsWhitespace(r[|r| - 1])
    ensures r == [] <==> IsBlank(s)
  {
    TrimEnd(TrimStart(s))
  }

  /** ASCII lowercasing of one character; every other character is kept. */
  function LowerChar(c: char): (r: char)
    ensures !('A' <= r <= 'Z')
    ensures 'a' <= r <= 'z' ==> c == r || c as int == r as int - 32
  {
    if 'A' <= c <= 'Z' then (c as int + 32) as char else c
  }

  /** `to_lowercase` restricted to ASCII letters. */
  function Lower(s: string): (r: string)
    ensures |r| == |s|
    ensures forall i | 0 <= i < |s| :: r[i] == LowerChar(s[i])
  {
    seq(|s|, i requires 0 <= i < |s| => LowerChar(s[i]))
  }

  predicate IsDigit(c: char) {
    '0' <= c <= '9'
  }

  predicate AllDigits(s: string) {
    forall i | 0 <= i < |s| :: IsDigit(s[i])
  }

  function DigitChar(d: nat): (c: char)
    requires d < 10
    ensures IsDigit(c)
  {
    ('0' as int + d) as char
  }

  /** The decimal text of `n`, as Rust's `Display` for an unsigned integer writes it. */
  function Decimal(n: nat): (r: string)
    ensures r != [] && AllDigits(r)
    ensures |r| > 1 ==> r[0] != '0'
    decreases n
  {
    if n < 10 then [DigitChar(n)] else Decimal(n / 10) + [DigitChar(n % 10)]
  }

  /** The number a string of decimal digits denotes. */
  function DigitsValue(s: string): nat
    requires AllDigits(s)
  {
    if s == [] then 0 else DigitsValue(s[..|s| - 1]) * 10 + (s[|s| - 1] as int - '0' as int)
  }

  /** Reading back the decimal text of a number gives the number. */
  lemma {:induction false} DecimalRoundTrip(n: nat)
    ensures DigitsValue(Decimal(n)) == n
    decreases n
  {
    if n >= 10 {
      var d := Decimal(n / 10);
      DecimalRoundTrip(n / 10);
      assert (d + [DigitChar(n % 10)])[..|d|] == d;
    }
  }

  /** No ':' at or after position `from`. */
  predicate NoColonFrom(s: string, from: nat) {
    forall j | from <= j < |s| :: s[j] != ':'
  }

  /** The position of the last ':' in `s`. */
  function LastColon(s: string): (r: Option<nat>)
    ensures r.None? <==> NoColonFrom(s, 0)
    ensures r.Some? ==> r.value < |s| && s[r.value] == ':' && NoColonFrom(s, r.value + 1)
  {
    if s == [] then None
    else if s[|s| - 1] == ':' then Some(|s| - 1)
    else
      var r := LastColon(s[..|s| - 1]);
      assert forall j | 0 <= j < |s| - 1 :: s[..|s| - 1][j] == s[j];
      r
  }

  /** The last ':' is the one with no ':' after it. */
  lemma LastColonAt(s: string, i: nat)
    requires i < |s| && s[i] == ':' && NoColonFrom(s, i + 1)
    ensures LastColon(s) == Some(i)
  {
    var r := LastColon(s);
    assert r.Some?;
    assert !(r.value < i);
  }

  /** In `host:port` with a decimal port, the ':' before the port is the last one. */
  lemma ColonBeforeDigits(host: string, digits: string)
    requires AllDigits(digits)
    ensures (host + ":" + digits)[|host|] == ':'
    ensures NoColonFrom(host + ":" + digits, |host| + 1)
  {
    var prefix := host + ":";
    var s := prefix + digits;
    assert |prefix| == |host| + 1 && s[|host|] == prefix[|host|] == ':';
    forall k | |prefix| <= k < |s| ensures s[k] != ':' {
      assert s[k] == digits[k - |prefix|];
    }
  }
}
