/** String operations the recipe gateway relies on, as JavaScript defines
    them: rendering an integer in a template literal (as JavaScript does for
    integers below 10^21, which it prints without an exponent),
    `Array.prototype.join` and `String.prototype.trim`. */
module Text {

  function Digit(d: nat): (c: char)
    requires d < 10
    ensures '0' <= c <= '9' && c as int - '0' as int == d
  {
    "0123456789"[d]
  }

  predicate IsDigits(s: string) {
    forall i :: 0 <= i < |s| ==> '0' <= s[i] <= '9'
  }

  /** The decimal rendering of a natural number: digits only, no leading zero. */
  function NatToString(n: nat): (s: string)
    ensures |s| >= 1 && IsDigits(s)
    ensures s[0] == '0' ==> n == 0
    decreases n
  {
    if n < 10 then [Digit(n)] else NatToString(n / 10) + [Digit(n % 10)]
  }

  /** An integer as a template literal renders it: a minus sign exactly for
      a negative number, then the digits of its magnitude. */
  function IntToString(i: int): (s: string)
    ensures i < 0 <==> (|s| > 0 && s[0] == '-')
    ensures var d := if i < 0 then s[1..] else s;
      IsDigits(d) && DigitsValue(d) as int == (if i < 0 then -i else i)
  {
    if i < 0 then
      NatToStringRoundTrip(-i);
      var s := "-" + NatToString(-i);
      assert s[1..] == NatToString(-i);
      s
    else
      NatToStringRoundTrip(i);
      NatToString(i)
  }

  /** The number a string of decimal digits denotes. */
  function DigitsValue(s: string): nat
    requires IsDigits(s)
  {
    if s == [] then 0
    else DigitsValue(s[..|s| - 1]) * 10 + (s[|s| - 1] as int - '0' as int)
  }

  /** Rendering is undone by reading the digits back. */
  lemma {:induction false} NatToStringRoundTrip(n: nat)
    ensures DigitsValue(NatToString(n)) == n
    decreases n
  {
    var s := NatToString(n);
    if n >= 10 {
      NatToStringRoundTrip(n / 10);
      assert s[..|s| - 1] == NatToString(n / 10);
    }
  }

  /** Distinct numbers render differently. */
  lemma NatToStringInjective(a: nat, b: nat)
    requires NatToString(a) == NatToString(b)
    ensures a == b
  {
    NatToStringRoundTrip(a);
    NatToStringRoundTrip(b);
  }

  /** `parts.join(sep)`: the parts in order, one separator between each two. */
  function Join(parts: seq<string>, sep: string): (r: string)
    ensures parts != [] ==> |r| == TotalLength(parts) + (|parts| - 1) * |sep|
    ensures parts != [] ==> r[..|parts[0]|] == parts[0]
  {
    if parts == [] then ""
    else if |parts| == 1 then parts[0]
    else
      var r := parts[0] + sep + Join(parts[1..], sep);
      assert r[..|parts[0]|] == parts[0];
      r
  }

  /** Joining two non-empty lists puts one separator between their joins. */
  lemma {:induction false} JoinAppend(a: seq<string>, b: seq<string>, sep: string)
    requires a != [] && b != []
    ensures Join(a + b, sep) == Join(a, sep) + sep + Join(b, sep)
  {
    if |a| == 1 {
      assert (a + b)[1..] == b;
    } else {
      assert (a + b)[1..] == a[1..] + b;
      JoinAppend(a[1..], b, sep);
    }
  }

  function TotalLength(parts: seq<string>): nat {
    if parts == [] then 0 else |parts[0]| + TotalLength(parts[1..])
  }

  /** The characters `String.prototype.trim` removes: the white space and
      line terminators of section 12.2 and 12.3 of ECMA-262. */
  predicate IsWhitespace(c: char) {
    c == '\t' || c == '\n' || c == '\U{000B}' || c == '\U{000C}' || c == '\r' || c == ' ' ||
    c == '\U{00A0}' || c == '\U{1680}' || ('\U{2000}' <= c <= '\U{200A}') ||
    c == '\U{2028}' || c == '\U{2029}' || c == '\U{202F}' || c == '\U{205F}' ||
    c == '\U{3000}' || c == '\U{FEFF}'
  }

  predicate AllWhitespace(s: string) {
    forall i :: 0 <= i < |s| ==> IsWhitespace(s[i])
  }

  /** The length of the white-space run that starts `s`. */
  function LeadingWhitespace(s: string): (k: nat)
    ensures k <= |s|
    ensures forall m :: 0 <= m < k ==> IsWhitespace(s[m])
    ensures k < |s| ==> !IsWhitespace(s[k])
  {
    if s != [] && IsWhitespace(s[0]) then
      var k := LeadingWhitespace(s[1..]);
      assert forall m :: 1 <= m < k + 1 ==> s[m] == s[1..][m - 1];
      k + 1
    else 0
  }

  /** Where the white-space run that ends `s` begins. */
  function TrailingWhitespace(s: string): (k: nat)
    ensures k <= |s|
    ensures forall m :: k <= m < |s| ==> IsWhitespace(s[m])
    ensures k > 0 ==> !IsWhitespace(s[k - 1])
  {
    if s != [] && IsWhitespace(s[|s| - 1]) then
      var k := TrailingWhitespace(s[..|s| - 1]);
      assert forall m :: k <= m < |s| - 1 ==> s[m] == s[..|s| - 1][m];
      k
    else |s|
  }

  /** `s.trim()`: drop leading and trailing white space. */
  function Trim(s: string): (r: string)
    ensures r == [] || (!IsWhitespace(r[0]) && !IsWhitespace(r[|r| - 1]))
    ensures |r| <= |s|
    ensures var a := LeadingWhitespace(s);
      a + |r| <= |s| && s[a..a + |r|] == r && AllWhitespace(s[..a]) && AllWhitespace(s[a + |r|..])
  {
    var t := s[LeadingWhitespace(s)..];
    t[..TrailingWhitespace(t)]
  }

  /** Trimming yields the empty string exactly for all-white-space input. */
  lemma TrimEmpty(s: string)
    ensures Trim(s) == [] <==> AllWhitespace(s)
  {
    var k := LeadingWhitespace(s);
    var t := s[k..];
    var j := TrailingWhitespace(t);
    if !AllWhitespace(s) {
      var i :| 0 <= i < |s| && !IsWhitespace(s[i]);
      assert k <= i;
      assert t[i - k] == s[i];
      assert i - k < j;
    }
  }

  /** A string with no white space at either end is its own trim. */
  lemma TrimIdentity(s: string)
    requires s == [] || (!IsWhitespace(s[0]) && !IsWhitespace(s[|s| - 1]))
    ensures Trim(s) == s
  {
  }
}
