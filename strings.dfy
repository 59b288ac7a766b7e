/** The JavaScript string operations the source relies on (`split`, `join`,
    `indexOf`, `includes`, `trim`, `toLowerCase`, `substring`, digit runs,
    `Number.prototype.toString`), written over `seq<char>`. */
module Strings {
  import opened Wrappers

  /** JavaScript truthiness of an optional string: absent and `""` are both false. */
  predicate Truthy(s: Option<string>) {
    s.Some? && s.value != ""
  }

  /** The characters that JavaScript's `\s` and `String.prototype.trim` treat as white space. */
  predicate IsSpace(c: char) {
    || c == ' ' || c == '\t' || c == '\n' || c == '\r' || c == '\U{000B}' || c == '\U{000C}'
    || c == '\U{00A0}' || c == '\U{1680}' || ('\U{2000}' <= c <= '\U{200A}')
    || c == '\U{2028}' || c == '\U{2029}' || c == '\U{202F}' || c == '\U{205F}'
    || c == '\U{3000}' || c == '\U{FEFF}'
  }

  /** The characters a JavaScript regular-expression `.` does not match. */
  predicate IsLineTerminator(c: char) {
    c == '\n' || c == '\r' || c == '\U{2028}' || c == '\U{2029}'
  }

  predicate IsDigit(c: char) { '0' <= c <= '9' }

  /** JavaScript's `\w`. */
  predicate IsWordChar(c: char) {
    ('a' <= c <= 'z') || ('A' <= c <= 'Z') || IsDigit(c) || c == '_'
  }

  function LowerChar(c: char): char {
    if 'A' <= c <= 'Z' then (c as int + 32) as char else c
  }

  /** `toLowerCase`, on the ASCII letters. */
  function ToLower(s: string): (r: string)
    ensures |r| == |s|
    ensures forall i :: 0 <= i < |s| ==> r[i] == LowerChar(s[i])
  {
    seq(|s|, i requires 0 <= i < |s| => LowerChar(s[i]))
  }

  /** JavaScript's `substring(from, to)` for `from <= to`: both ends are clamped to the length. */
  function Substring(s: string, from: nat, to: nat): (r: string)
    requires from <= to
    ensures |r| <= to - from
    ensures to <= |s| ==> r == s[from..to]
  {
    var a := if from < |s| then from else |s|;
    var b := if to < |s| then to else |s|;
    s[a..b]
  }

  predicate OccursAt(s: string, p: string, j: int) {
    0 <= j && j + |p| <= |s| && s[j..j + |p|] == p
  }

  /** `indexOf(p, from)`: the first occurrence of `p` at or after `from`. */
  function IndexOfFrom(s: string, p: string, from: nat): (r: Option<nat>)
    decreases |s| - from
    ensures r.Some? ==> from <= r.value && OccursAt(s, p, r.value)
    ensures r.Some? && |p| > 0 ==> r.value < |s| && s[r.value] == p[0]
    ensures r.Some? ==> forall j :: from <= j < r.value ==> !OccursAt(s, p, j)
    ensures r.None? ==> forall j :: from <= j ==> !OccursAt(s, p, j)
  {
    if from + |p| > |s| then None
    else if s[from..from + |p|] == p then
      assert |p| > 0 ==> s[from] == s[from..from + |p|][0];
      Some(from)
    else IndexOfFrom(s, p, from + 1)
  }

  function IndexOf(s: string, p: string): Option<nat> {
    IndexOfFrom(s, p, 0)
  }

  /** `includes(p)`. */
  predicate Contains(s: string, p: string) {
    IndexOf(s, p).Some?
  }

  lemma ContainsAt(s: string, p: string, j: nat)
    requires OccursAt(s, p, j)
    ensures Contains(s, p)
  {
  }

  /** `includes` on the lower-cased text, the source's case-insensitive test. */
  predicate ContainsCI(s: string, p: string) {
    Contains(ToLower(s), p)
  }

  /** `split(sep)` for a one-character separator: every piece, in order. */
  function Split(s: string, sep: char): (parts: seq<string>)
    decreases |s|
    ensures |parts| >= 1
    ensures forall k :: 0 <= k < |parts| ==> sep !in parts[k]
    ensures Join(parts, sep) == s
  {
    match IndexOf(s, [sep])
    case None =>
      assert forall j :: 0 <= j < |s| ==> !OccursAt(s, [sep], j) && s[j..j + 1] == [s[j]];
      [s]
    case Some(i) =>
      assert s == s[..i] + [sep] + s[i + 1..];
      assert forall j :: 0 <= j < i ==> !OccursAt(s, [sep], j) && s[j..j + 1] == [s[j]];
      [s[..i]] + Split(s[i + 1..], sep)
  }

  /** The first occurrence of a character is where it stands when the text
      before it does not contain it. */
  lemma IndexOfCharAt(s: string, c: char, k: nat)
    requires k < |s| && s[k] == c && c !in s[..k]
    ensures IndexOf(s, [c]) == Some(k)
  {
    assert OccursAt(s, [c], k) by { assert s[k..k + 1] == [s[k]]; }
  }

  lemma IndexOfCharAbsent(s: string, c: char)
    requires c !in s
    ensures IndexOf(s, [c]) == None
  {
  }

  /** Splitting text that starts with a separator-free piece and a separator. */
  lemma SplitCons(a: string, c: char, b: string)
    requires c !in a
    ensures Split(a + [c] + b, c) == [a] + Split(b, c)
  {
    var s := a + [c] + b;
    assert s[..|a|] == a;
    IndexOfCharAt(s, c, |a|);
    assert s[|a| + 1..] == b;
  }

  lemma SplitNone(a: string, c: char)
    requires c !in a
    ensures Split(a, c) == [a]
  {
    IndexOfCharAbsent(a, c);
  }

  /** `join(sep)` for a one-character separator. */
  function Join(parts: seq<string>, sep: char): string
  {
    if |parts| == 0 then ""
    else if |parts| == 1 then parts[0]
    else parts[0] + [sep] + Join(parts[1..], sep)
  }

  /** `split(sep)[0]`: the text before the first occurrence of `sep`, or all of it. */
  function Before(s: string, sep: string): (r: string)
    ensures |r| <= |s|
  {
    match IndexOf(s, sep)
    case None => s
    case Some(i) => s[..i]
  }

  /** `split(sep)[1]`: the text between the first and the second occurrence of
      `sep`, or `undefined` when `sep` does not occur. */
  function SecondPiece(s: string, sep: string): Option<string>
    requires |sep| > 0
  {
    match IndexOf(s, sep)
    case None => None
    case Some(i) => Some(Before(s[i + |sep|..], sep))
  }

  function TrimStart(s: string): string {
    if |s| > 0 && IsSpace(s[0]) then TrimStart(s[1..]) else s
  }

  function TrimEnd(s: string): string {
    if |s| > 0 && IsSpace(s[|s| - 1]) then TrimEnd(s[..|s| - 1]) else s
  }

  /** `trim()`. */
  function Trim(s: string): string {
    TrimEnd(TrimStart(s))
  }

  /** `x?.trim() || fallback`: a missing or blank piece gives the fallback. */
  function TrimOr(x: Option<string>, fallback: string): string {
    match x
    case None => fallback
    case Some(t) => if Trim(t) == "" then fallback else Trim(t)
  }

  predicate AllDigits(s: string) {
    forall i :: 0 <= i < |s| ==> IsDigit(s[i])
  }

  /** The value of a run of decimal digits, as `parseInt` reads it. */
  function DigitsValue(ds: string): nat
    requires AllDigits(ds)
  {
    if |ds| == 0 then 0
    else 10 * DigitsValue(ds[..|ds| - 1]) + (ds[|ds| - 1] as int - '0' as int)
  }

  /** The end of the run of digits that starts at `i`. */
  function DigitRunEnd(s: string, i: nat): (j: nat)
    requires i <= |s|
    decreases |s| - i
    ensures i <= j <= |s|
    ensures AllDigits(s[i..j])
    ensures j == |s| || !IsDigit(s[j])
  {
    if i < |s| && IsDigit(s[i]) then DigitRunEnd(s, i + 1) else i
  }

  /** The first match of `/\d+/` at or after `from`. */
  function FirstDigitRunFrom(s: string, from: nat): (r: Option<string>)
    decreases |s| - from
    ensures r.Some? ==> |r.value| > 0 && AllDigits(r.value)
  {
    if from >= |s| then None
    else if IsDigit(s[from]) then Some(s[from..DigitRunEnd(s, from)])
    else FirstDigitRunFrom(s, from + 1)
  }

  /** `parseInt(s.match(/\d+/)?.[0] || '0')`. */
  function FirstNumber(s: string): nat {
    match FirstDigitRunFrom(s, 0)
    case None => 0
    case Some(ds) => DigitsValue(ds)
  }

  function DigitChar(d: nat): char
    requires d < 10
  {
    ('0' as int + d) as char
  }

  /** `n.toString()` for a non-negative integer. */
  function NatToDecimal(n: nat): (r: string)
    ensures |r| > 0 && AllDigits(r)
  {
    if n < 10 then [DigitChar(n)] else NatToDecimal(n / 10) + [DigitChar(n % 10)]
  }

  /** Reading back the decimal text of a number gives the number. */
  lemma {:induction false} DecimalRoundTrip(n: nat)
    ensures DigitsValue(NatToDecimal(n)) == n
  {
    if n >= 10 {
      DecimalRoundTrip(n / 10);
      var r := NatToDecimal(n);
      assert r[..|r| - 1] == NatToDecimal(n / 10);
    }
  }
}
