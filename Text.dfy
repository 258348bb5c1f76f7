/** String helpers with the meaning the source's JavaScript built-ins give them:
    `toLowerCase`, `endsWith`, `trim`, `Array.prototype.join` and the decimal
    rendering of an integer inside a template literal. */
module Text {

  /** `toLowerCase` on one character, restricted to ASCII letters. */
  function LowerChar(c: char): char {
    if 'A' <= c <= 'Z' then (c as int + 32) as char else c
  }

  function ToLower(s: string): (r: string)
    ensures |r| == |s|
    ensures forall i :: 0 <= i < |s| ==> r[i] == LowerChar(s[i])
  {
    seq(|s|, i requires 0 <= i < |s| => LowerChar(s[i]))
  }

  lemma ToLowerIdempotent(s: string)
    ensures ToLower(ToLower(s)) == ToLower(s)
  {
    var t := ToLower(s);
    assert forall i :: 0 <= i < |t| ==> ToLower(t)[i] == t[i];
  }

  predicate EndsWith(s: string, suffix: string) {
    |suffix| <= |s| && s[|s| - |suffix|..] == suffix
  }

  /** The characters `String.prototype.trim` removes: ECMAScript WhiteSpace and
      LineTerminator code points. */
  predicate IsWhitespace(c: char) {
    c == ' ' || c == '\t' || c == '\n' || c == '\r' || c == '\U{000B}' || c == '\U{000C}'
    || c == '\U{00A0}' || c == '\U{1680}' || ('\U{2000}' <= c <= '\U{200A}')
    || c == '\U{2028}' || c == '\U{2029}' || c == '\U{202F}' || c == '\U{205F}'
    || c == '\U{3000}' || c == '\U{FEFF}'
  }

  predicate AllWhitespace(s: string) {
    forall k :: 0 <= k < |s| ==> IsWhitespace(s[k])
  }

  /** How many whitespace characters open the string. */
  function LeadingWhitespace(s: string): (n: nat)
    ensures n <= |s|
    ensures forall k :: 0 <= k < n ==> IsWhitespace(s[k])
    ensures n < |s| ==> !IsWhitespace(s[n])
    decreases |s|
  {
    if |s| > 0 && IsWhitespace(s[0]) then
      var m := LeadingWhitespace(s[1..]);
      assert forall k :: 1 <= k < 1 + m ==> s[k] == s[1..][k - 1];
      1 + m
    else 0
  }

  /** How many whitespace characters close the string. */
  function TrailingWhitespace(s: string): (n: nat)
    ensures n <= |s|
    ensures forall k :: |s| - n <= k < |s| ==> IsWhitespace(s[k])
    ensures n < |s| ==> !IsWhitespace(s[|s| - n - 1])
    decreases |s|
  {
    if |s| > 0 && IsWhitespace(s[|s| - 1]) then
      var m := TrailingWhitespace(s[..|s| - 1]);
      assert forall k :: |s| - 1 - m <= k < |s| - 1 ==> s[k] == s[..|s| - 1][k];
      1 + m
    else 0
  }

  /** `String.prototype.trim`: the leading whitespace goes first, then the
      trailing whitespace of what is left. */
  function Trim(s: string): string {
    var t := s[LeadingWhitespace(s)..];
    t[..|t| - TrailingWhitespace(t)]
  }

  /** `trim` returns a contiguous slice of its input, and every character it
      removes is whitespace. */
  lemma TrimIsSlice(s: string)
    ensures var i := LeadingWhitespace(s); var j := i + |Trim(s)|;
      j <= |s| && Trim(s) == s[i..j] && AllWhitespace(s[..i]) && AllWhitespace(s[j..])
  {
    TrimKeepsMiddle(s);
    TrimDropsTrailing(s);
  }

  /** What `trim` keeps is the run that starts after the leading whitespace. */
  lemma TrimKeepsMiddle(s: string)
    ensures var i := LeadingWhitespace(s); var j := i + |Trim(s)|; j <= |s| && Trim(s) == s[i..j]
  {
    var i := LeadingWhitespace(s);
    var t := s[i..];
    var u := t[..|t| - TrailingWhitespace(t)];
    assert Trim(s) == u;
    assert forall k :: 0 <= k < |u| ==> u[k] == s[i + k];
  }

  /** Everything after what `trim` keeps is whitespace. */
  lemma TrimDropsTrailing(s: string)
    ensures var i := LeadingWhitespace(s); var j := i + |Trim(s)|; j <= |s| && AllWhitespace(s[j..])
  {
    var i := LeadingWhitespace(s);
    var t := s[i..];
    var m := TrailingWhitespace(t);
    var j := |s| - m;
    assert forall k :: 0 <= k < m ==> s[j..][k] == t[|t| - m + k];
  }

  /** What `trim` returns neither starts nor ends with whitespace. */
  lemma TrimEdges(s: string)
    ensures Trim(s) != [] ==> !IsWhitespace(Trim(s)[0]) && !IsWhitespace(Trim(s)[|Trim(s)| - 1])
  {
    var i := LeadingWhitespace(s);
    var t := s[i..];
    var m := TrailingWhitespace(t);
    if Trim(s) != [] {
      assert Trim(s)[0] == s[i];
      assert Trim(s)[|Trim(s)| - 1] == t[|t| - m - 1];
    }
  }

  /** `trim` yields the empty string exactly when the input is all whitespace. */
  lemma TrimEmptyIff(s: string)
    ensures Trim(s) == [] <==> AllWhitespace(s)
  {
    var i := LeadingWhitespace(s);
    if Trim(s) != [] {
      assert Trim(s)[0] == s[i];
    }
  }

  /** `items.join(sep)`: the empty list joins to the empty string. */
  function Join(items: seq<string>, sep: string): string
    decreases |items|
  {
    if |items| == 0 then ""
    else if |items| == 1 then items[0]
    else items[0] + sep + Join(items[1..], sep)
  }

  function DigitChar(d: nat): (c: char)
    requires d < 10
  {
    ('0' as int + d) as char
  }

  /** The decimal text of a non-negative integer, as a template literal prints it. */
  function NatToString(n: nat): (r: string)
    ensures |r| >= 1
    ensures n >= 10 ==> |r| >= 2
    ensures forall k :: 0 <= k < |r| ==> '0' <= r[k] <= '9'
    decreases n
  {
    if n < 10 then [DigitChar(n)] else NatToString(n / 10) + [DigitChar(n % 10)]
  }

  /** Different numbers print differently. */
  lemma {:induction false} NatToStringInjective(a: nat, b: nat)
    requires a != b
    ensures NatToString(a) != NatToString(b)
    decreases a
  {
    if a < 10 && b < 10 {
      assert NatToString(a)[0] != NatToString(b)[0];
    } else if a < 10 || b < 10 {
      assert |NatToString(a)| != |NatToString(b)|;
    } else if a % 10 != b % 10 {
      var sa, sb := NatToString(a), NatToString(b);
      assert sa[|sa| - 1] == DigitChar(a % 10);
      assert sb[|sb| - 1] == DigitChar(b % 10);
    } else {
      NatToStringInjective(a / 10, b / 10);
      var sa, sb := NatToString(a), NatToString(b);
      assert sa[..|sa| - 1] == NatToString(a / 10);
      assert sb[..|sb| - 1] == NatToString(b / 10);
    }
  }

  /** `<p1>_<i>` and `<p2>_<j>` differ whenever `i != j`, whatever the two
      prefixes: digits contain no `_`, so the text after the last `_` is the
      index. This is the shape of every question id in the source, whose prefix
      holds its own clock reading. */
  lemma SeparatedNamesDistinct(p1: string, p2: string, i: nat, j: nat)
    requires i != j
    ensures p1 + "_" + NatToString(i) != p2 + "_" + NatToString(j)
  {
    var a, b := NatToString(i), NatToString(j);
    if |a| == |b| {
      NatToStringInjective(i, j);
      var x, y := p1 + "_" + a, p2 + "_" + b;
      assert x[|x| - |a|..] == a;
      assert y[|y| - |b|..] == b;
    } else if |a| < |b| {
      ShorterIndexDiffers(p1, p2, i, j);
    } else {
      ShorterIndexDiffers(p2, p1, j, i);
    }
  }

  /** With a shorter index on the left, the left name has its `_` where the right
      name still has a digit. */
  lemma ShorterIndexDiffers(p1: string, p2: string, i: nat, j: nat)
    requires |NatToString(i)| < |NatToString(j)|
    ensures p1 + "_" + NatToString(i) != p2 + "_" + NatToString(j)
  {
    var a, b := NatToString(i), NatToString(j);
    var x, y := p1 + "_" + a, p2 + "_" + b;
    assert x[|x| - |a| - 1] == '_';
    assert y[|y| - |a| - 1] == b[|b| - |a| - 1];
  }
}
