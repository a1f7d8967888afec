/** String helpers with Python's meaning: `startswith`, `endswith`, `in`,
    `split(c)[0]`, slicing `s[:n]`, `strip()`, `isdigit()`/`int()`, `str(int)`.
    Strings are sequences of characters. Whitespace is Python's full set;
    case and digits follow the ASCII rules only. */
module Text {

  predicate StartsWith(s: string, prefix: string) {
    |prefix| <= |s| && s[..|prefix|] == prefix
  }

  predicate EndsWith(s: string, suffix: string) {
    |suffix| <= |s| && s[|s| - |suffix|..] == suffix
  }

  /** `sub` occurs in `s` at position `i`. */
  ghost predicate OccursAt(s: string, sub: string, i: int) {
    0 <= i && i + |sub| <= |s| && s[i..i + |sub|] == sub
  }

  /** Python's `sub in s`. */
  function Contains(s: string, sub: string): (b: bool)
    ensures b <==> exists i :: OccursAt(s, sub, i)
  {
    ContainsFrom(s, sub, 0)
  }

  function ContainsFrom(s: string, sub: string, k: nat): (b: bool)
    requires k <= |s| + 1
    ensures b <==> exists i :: k <= i && OccursAt(s, sub, i)
    decreases |s| + 1 - k
  {
    if k + |sub| > |s| then
      assert forall i :: k <= i ==> !OccursAt(s, sub, i);
      false
    else if s[k..k + |sub|] == sub then
      assert OccursAt(s, sub, k);
      true
    else
      var r := ContainsFrom(s, sub, k + 1);
      assert !OccursAt(s, sub, k);
      assert (exists i :: k <= i && OccursAt(s, sub, i)) ==> (exists i :: k + 1 <= i && OccursAt(s, sub, i));
      r
  }

  /** Python's `s[:n]` for `n >= 0`. */
  function Take(s: string, n: nat): (r: string)
    ensures |r| <= n && |r| <= |s|
    ensures r == s[..|r|]
    ensures |s| <= n ==> r == s
  {
    if |s| <= n then s else s[..n]
  }

  /** Python's `s.split(c)[0]`: everything before the first `c`, or all of `s`. */
  function BeforeFirst(s: string, c: char): (r: string)
    ensures StartsWith(s, r)
    ensures c !in r
    ensures |r| < |s| ==> s[|r|] == c
  {
    if s == [] then []
    else if s[0] == c then []
    else [s[0]] + BeforeFirst(s[1..], c)
  }

  /** The characters Python's `str.isspace()` accepts, which `str.strip()`
      and `int()` remove: ASCII whitespace, the separators U+001C..U+001F,
      NEL, no-break space, and the Unicode space and line separators. */
  predicate IsSpace(c: char) {
    ('\t' <= c <= '\r') || ('\U{1C}' <= c <= ' ')
    || c == '\U{85}' || c == '\U{A0}' || c == '\U{1680}'
    || ('\U{2000}' <= c <= '\U{200A}')
    || c == '\U{2028}' || c == '\U{2029}' || c == '\U{202F}' || c == '\U{205F}' || c == '\U{3000}'
  }

  /** Characters removed by `strip()` (any whitespace) or by SQL `TRIM`
      (blanks only). */
  predicate Removable(c: char, blanksOnly: bool) {
    if blanksOnly then c == ' ' else IsSpace(c)
  }

  function StripLeft(s: string, blanksOnly: bool): (r: string)
    ensures |r| <= |s| && r == s[|s| - |r|..]
    ensures r != [] ==> !Removable(r[0], blanksOnly)
    ensures forall i :: 0 <= i < |s| - |r| ==> Removable(s[i], blanksOnly)
  {
    if s != [] && Removable(s[0], blanksOnly) then StripLeft(s[1..], blanksOnly) else s
  }

  function StripRight(s: string, blanksOnly: bool): (r: string)
    ensures |r| <= |s| && r == s[..|r|]
    ensures r != [] ==> !Removable(r[|r| - 1], blanksOnly)
    ensures forall i :: |r| <= i < |s| ==> Removable(s[i], blanksOnly)
  {
    if s != [] && Removable(s[|s| - 1], blanksOnly) then StripRight(s[..|s| - 1], blanksOnly) else s
  }

  /** Python's `s.strip()`. */
  function Strip(s: string): string {
    StripRight(StripLeft(s, false), false)
  }

  /** SQL `TRIM(s)`, which removes blanks only. */
  function TrimSpaces(s: string): string {
    StripRight(StripLeft(s, true), true)
  }

  predicate IsAsciiUpper(c: char) { 'A' <= c <= 'Z' }

  /** Python's `c.lower()` on ASCII letters. */
  function LowerChar(c: char): (d: char)
    ensures IsAsciiUpper(c) ==> d as int == c as int + 32
    ensures !IsAsciiUpper(c) ==> d == c
  {
    if IsAsciiUpper(c) then (c as int + 32) as char else c
  }

  /** Python's `s.lower()` on ASCII letters. */
  function Lower(s: string): (r: string)
    ensures |r| == |s| && forall i :: 0 <= i < |s| ==> r[i] == LowerChar(s[i])
  {
    seq(|s|, i requires 0 <= i < |s| => LowerChar(s[i]))
  }

  predicate IsDigit(c: char) { '0' <= c <= '9' }

  /** Python's `s.isdigit()` on ASCII: non-empty and all digits. */
  predicate IsDigits(s: string) {
    s != [] && forall i :: 0 <= i < |s| ==> IsDigit(s[i])
  }

  /** Python's `int(s)` on a string of ASCII digits. */
  function DigitsValue(s: string): (n: nat)
    requires forall i :: 0 <= i < |s| ==> IsDigit(s[i])
  {
    if s == [] then 0
    else
      assert IsDigit(s[|s| - 1]);
      DigitsValue(s[..|s| - 1]) * 10 + (s[|s| - 1] as int - '0' as int)
  }

  function DigitChar(d: nat): (c: char)
    requires d < 10
    ensures IsDigit(c) && c as int - '0' as int == d
  {
    ('0' as int + d) as char
  }

  /** Python's `str(n)` for a natural number. */
  function NatToString(n: nat): (s: string)
    ensures forall i :: 0 <= i < |s| ==> IsDigit(s[i])
    ensures s != []
  {
    if n < 10 then [DigitChar(n)] else NatToString(n / 10) + [DigitChar(n % 10)]
  }

  /** Python's `str(i)` for an integer. */
  function IntToString(i: int): string {
    if i < 0 then "-" + NatToString(-i) else NatToString(i)
  }

  /** Reading back the decimal digits `str(n)` writes gives `n`. */
  lemma {:induction false} NatToStringRoundTrip(n: nat)
    ensures IsDigits(NatToString(n)) && DigitsValue(NatToString(n)) == n
  {
    var s := NatToString(n);
    if n >= 10 {
      NatToStringRoundTrip(n / 10);
      assert s[..|s| - 1] == NatToString(n / 10);
    }
  }
}
