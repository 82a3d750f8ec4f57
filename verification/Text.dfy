/** The string operations the router, the PAC script and the proxy build on. */
module Text {
  import opened Options

  predicate IsDigit(c: char) { '0' <= c <= '9' }
  predicate IsUpper(c: char) { 'A' <= c <= 'Z' }
  predicate IsAlphanumeric(c: char) { IsDigit(c) || IsUpper(c) || 'a' <= c <= 'z' }

  /** Unicode White_Space, which is what `char::is_whitespace` tests. */
  predicate IsWhitespace(c: char) {
    var n := c as int;
    || 0x9 <= n <= 0xD || n == 0x20 || n == 0x85 || n == 0xA0 || n == 0x1680
    || 0x2000 <= n <= 0x200A || n == 0x2028 || n == 0x2029 || n == 0x202F || n == 0x205F || n == 0x3000
  }

  /** What a trimming call takes away. */
  datatype CharClass = Dots | Brackets | Whitespace

  predicate In(k: CharClass, c: char) {
    match k
    case Dots => c == '.'
    case Brackets => c == '[' || c == ']'
    case Whitespace => IsWhitespace(c)
  }

  predicate IsAscii(s: string) {
    forall i :: 0 <= i < |s| ==> s[i] as int < 0x80
  }

  function LowerChar(c: char): (r: char) {
    if IsUpper(c) then (c as int + 0x20) as char else c
  }

  /** `to_ascii_lowercase`. */
  function Lower(s: string): (r: string)
    ensures |r| == |s| && forall i :: 0 <= i < |s| ==> r[i] == LowerChar(s[i])
  {
    seq(|s|, i requires 0 <= i < |s| => LowerChar(s[i]))
  }

  predicate EndsWith(s: string, tail: string) {
    |tail| <= |s| && s[|s| - |tail|..] == tail
  }

  lemma EndsWithTail(s: string, t: string, u: string)
    requires EndsWith(s, t) && EndsWith(t, u)
    ensures EndsWith(s, u)
  {
    assert s[|s| - |t|..][|t| - |u|..] == s[|s| - |u|..];
  }

  /** The first position from `i` on that trimming keeps. */
  function Kept(s: string, k: CharClass, i: nat): (n: nat)
    requires i <= |s|
    ensures i <= n <= |s| && (n < |s| ==> !In(k, s[n]))
    ensures forall j :: i <= j < n ==> In(k, s[j])
    decreases |s| - i
  {
    if i < |s| && In(k, s[i]) then Kept(s, k, i + 1) else i
  }

  /** The end of what trimming the first `n` characters keeps. */
  function KeptEnd(s: string, k: CharClass, n: nat): (e: nat)
    requires n <= |s|
    ensures e <= n && (e > 0 ==> !In(k, s[e - 1]))
    ensures forall j :: e <= j < n ==> In(k, s[j])
  {
    if n > 0 && In(k, s[n - 1]) then KeptEnd(s, k, n - 1) else n
  }

  function TrimStart(s: string, k: CharClass): (r: string) {
    s[Kept(s, k, 0)..]
  }

  function TrimEnd(s: string, k: CharClass): (r: string) {
    s[..KeptEnd(s, k, |s|)]
  }

  /** `trim_matches`, and `trim` for whitespace. */
  function Trim(s: string, k: CharClass): (r: string) {
    TrimStart(TrimEnd(s, k), k)
  }

  /** `replace(c, "")`. */
  function Without(s: string, c: char): (r: string)
    ensures forall x :: x in r <==> x in s && x != c
  {
    if s == "" then ""
    else (if s[0] == c then "" else [s[0]]) + Without(s[1..], c)
  }

  /** The first `c` from `i` on, or the length. */
  function IndexFrom(s: string, c: char, i: nat): (n: nat)
    requires i <= |s|
    ensures i <= n <= |s| && (n < |s| ==> s[n] == c)
    ensures forall j :: i <= j < n ==> s[j] != c
    decreases |s| - i
  {
    if i < |s| && s[i] != c then IndexFrom(s, c, i + 1) else i
  }

  /** The position behind the last `c` among the first `n` characters, or 0. */
  function LastIndexBefore(s: string, c: char, n: nat): (e: nat)
    requires n <= |s|
    ensures e <= n && (e > 0 ==> s[e - 1] == c)
    ensures forall j :: e <= j < n ==> s[j] != c
  {
    if n > 0 && s[n - 1] != c then LastIndexBefore(s, c, n - 1) else n
  }

  /** The pieces between the separators from `i` on, at least one. */
  function SplitFrom(s: string, c: char, i: nat): (parts: seq<string>)
    requires i <= |s|
    ensures parts != []
    decreases |s| - i
  {
    var n := IndexFrom(s, c, i);
    if n == |s| then [s[i..n]] else [s[i..n]] + SplitFrom(s, c, n + 1)
  }

  function Split(s: string, c: char): (parts: seq<string>)
    ensures parts != []
  {
    SplitFrom(s, c, 0)
  }

  /** The number a string of decimal digits writes. */
  function Decimal(s: string): (n: nat)
    requires forall i :: 0 <= i < |s| ==> IsDigit(s[i])
  {
    if s == "" then 0
    else
      assert IsDigit(s[|s| - 1]);
      Decimal(s[..|s| - 1]) * 10 + (s[|s| - 1] as int - '0' as int)
  }

  predicate AllDigits(s: string) {
    s != "" && forall i :: 0 <= i < |s| ==> IsDigit(s[i])
  }

  /** `parse::<u16>`, which also takes one leading plus sign. */
  function ParseU16(s: string): (r: Option<nat>)
    ensures r.Some? ==> r.value < 0x1_0000
  {
    var digits := if s != "" && s[0] == '+' then s[1..] else s;
    if AllDigits(digits) && Decimal(digits) < 0x1_0000 then Some(Decimal(digits)) else None
  }

  lemma LowerStays(s: string)
    requires forall i :: 0 <= i < |s| ==> !IsUpper(s[i])
    ensures Lower(s) == s
  {
  }

  lemma {:induction false} WithoutNothing(s: string, c: char)
    requires c !in s
    ensures Without(s, c) == s
  {
    if s != "" { WithoutNothing(s[1..], c); }
  }
}
