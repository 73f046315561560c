/** Character-level helpers shared by the string builders of the model:
    decimal rendering, padding, search and .NET's white-space test. */
module Text {

  type String = seq<char>

  /** `Environment.NewLine` and `StringBuilder.AppendLine` on the Linux host. */
  const NewLine: String := "\n"

  function DigitChar(d: nat): (c: char)
    requires d < 10
    ensures '0' <= c <= '9'
  {
    "0123456789"[d]
  }

  predicate IsDigits(s: String) {
    forall i :: 0 <= i < |s| ==> '0' <= s[i] <= '9'
  }

  /** Decimal rendering of a natural number, as `int.ToString()` prints it. */
  function NatToString(n: nat): (s: String)
    ensures |s| >= 1 && IsDigits(s)
  {
    if n < 10 then [DigitChar(n)] else NatToString(n / 10) + [DigitChar(n % 10)]
  }

  /** Decimal rendering of an integer with a leading '-' when negative. */
  function IntToString(n: int): (s: String)
    ensures |s| >= 1
    ensures n >= 0 <==> IsDigits(s)
  {
    if n < 0 then
      var digits := NatToString(-n);
      assert ("-" + digits)[0] == '-';
      "-" + digits
    else NatToString(n)
  }

  /** `n` printed with at least `width` digits, zero-filled on the left. */
  function PadNumber(n: int, width: nat): (s: String)
    ensures |s| >= 1
  {
    if n < 0 then "-" + PadNat(-n, width) else PadNat(n, width)
  }

  function PadNat(n: nat, width: nat): (s: String)
    ensures |s| >= 1 && |s| >= width && IsDigits(s)
  {
    var digits := NatToString(n);
    if |digits| >= width then digits else seq(width - |digits|, _ => '0') + digits
  }

  predicate StartsWith(s: String, prefix: String) {
    |prefix| <= |s| && s[..|prefix|] == prefix
  }

  predicate EndsWith(s: String, suffix: String) {
    |suffix| <= |s| && s[|s| - |suffix|..] == suffix
  }

  /** `s.Contains(sub)`: `sub` occurs at some position of `s`. */
  predicate Contains(s: String, sub: String) {
    exists i :: 0 <= i <= |s| - |sub| && OccursAt(s, sub, i)
  }

  predicate OccursAt(s: String, sub: String, i: int) {
    0 <= i <= |s| - |sub| && s[i..i + |sub|] == sub
  }

  /** `char.IsWhiteSpace` on the characters the model distinguishes: the ASCII
      control white space, the space and the two Latin-1 spaces. */
  predicate IsWhiteSpace(c: char) {
    c == ' ' || ('\t' <= c <= '\r') || c == '\U{0085}' || c == '\U{00A0}'
  }

  /** `string.IsNullOrWhiteSpace`. */
  predicate IsBlank(s: String) {
    forall i :: 0 <= i < |s| ==> IsWhiteSpace(s[i])
  }

  /** `string.Trim()`: without leading and trailing white space. */
  function Trim(s: String): (r: String)
    ensures |r| <= |s|
    ensures r == [] || (!IsWhiteSpace(r[0]) && !IsWhiteSpace(r[|r| - 1]))
    ensures exists i, j :: 0 <= i <= j <= |s| && r == s[i..j]
  {
    var t := TrimStart(s);
    var r := TrimEnd(t);
    assert r == s[|s| - |t|..|s| - |t| + |r|];
    r
  }

  function TrimStart(s: String): (r: String)
    ensures |r| <= |s|
    ensures r == [] || !IsWhiteSpace(r[0])
    ensures EndsWith(s, r)
  {
    if s != [] && IsWhiteSpace(s[0]) then TrimStart(s[1..]) else s
  }

  function TrimEnd(s: String): (r: String)
    ensures |r| <= |s|
    ensures r == [] || !IsWhiteSpace(r[|r| - 1])
    ensures StartsWith(s, r)
    ensures s != [] && !IsWhiteSpace(s[0]) ==> r != [] && r[0] == s[0]
  {
    if s != [] && IsWhiteSpace(s[|s| - 1]) then TrimEnd(s[..|s| - 1]) else s
  }

  /** A concatenation starts with its left part and ends with its right part. */
  lemma ConcatAffixes(a: String, b: String)
    ensures StartsWith(a + b, a) && EndsWith(a + b, b)
  {
    assert (a + b)[..|a|] == a;
    assert (a + b)[|a + b| - |b|..] == b;
  }

  /** Appending is associative. */
  lemma AppendAssociative<T>(x: seq<T>, y: seq<T>, z: seq<T>)
    ensures (x + y) + z == x + (y + z)
  {
  }

  /** A suffix of a suffix is a suffix. */
  lemma EndsWithTransitive(a: String, b: String, c: String)
    requires EndsWith(a, b) && EndsWith(b, c)
    ensures EndsWith(a, c)
  {
    assert a[|a| - |c|..] == b[|b| - |c|..];
  }

  /** `string.Join(separator, parts)`. */
  function Join(separator: String, parts: seq<String>): String {
    if |parts| == 0 then []
    else if |parts| == 1 then parts[0]
    else parts[0] + separator + Join(separator, parts[1..])
  }
}
