/** Character and string operations the backend relies on: Python's
    `str.isspace`, `str.lower`, `str.strip` and `str(int)`. */
module Text {

  /** The characters Python's `str.isspace()` accepts, hence the ones
      `str.strip()` removes when called without arguments. */
  predicate IsSpace(c: char) {
    || c == ' '
    || ('\t' <= c <= '\r')            // \t \n \x0b \x0c \r
    || ('\U{1c}' <= c <= '\U{1f}')    // file, group, record and unit separators
    || c == '\U{85}' || c == '\U{a0}' || c == '\U{1680}'
    || ('\U{2000}' <= c <= '\U{200a}')
    || c == '\U{2028}' || c == '\U{2029}' || c == '\U{202f}' || c == '\U{205f}'
    || c == '\U{3000}'
  }

  predicate AllSpace(s: string) {
    forall i :: 0 <= i < |s| ==> IsSpace(s[i])
  }

  /** Upper-case letters `str.lower()` maps one-to-one onto a lower-case
      letter 32 code points further: ASCII A-Z and Latin-1 À-Þ except ×. */
  predicate IsUpper(c: char) {
    ('A' <= c <= 'Z') || ('\U{c0}' <= c <= '\U{d6}') || ('\U{d8}' <= c <= '\U{de}')
  }

  function LowerChar(c: char): (r: char)
    ensures !IsUpper(r)
    ensures IsSpace(c) ==> r == c
    ensures !IsUpper(c) ==> r == c
  {
    if IsUpper(c) then (c as int + 32) as char else c
  }

  /** `s.lower()`, character by character. */
  function Lower(s: string): (r: string)
    ensures |r| == |s|
    ensures forall i :: 0 <= i < |s| ==> r[i] == LowerChar(s[i])
  {
    if s == [] then [] else [LowerChar(s[0])] + Lower(s[1..])
  }

  /** `a` and `b` differ at most in the case of their letters. */
  predicate SameUpToCase(a: string, b: string) {
    |a| == |b| && forall i :: 0 <= i < |a| ==> LowerChar(a[i]) == LowerChar(b[i])
  }

  /** Lowering works character by character, so it distributes over
      concatenation. */
  lemma LowerOfConcat(a: string, b: string)
    ensures Lower(a + b) == Lower(a) + Lower(b)
  {
    assert forall i :: 0 <= i < |a + b| ==> Lower(a + b)[i] == (Lower(a) + Lower(b))[i];
  }

  /** White space has no case. */
  lemma LowerKeepsSpace(ws: string)
    requires AllSpace(ws)
    ensures Lower(ws) == ws
  {
    assert forall i :: 0 <= i < |ws| ==> Lower(ws)[i] == ws[i];
  }

  /** Lowering never makes white space: a string that lowers to white
      space was white space already. */
  lemma SpaceOnlyFromSpace(x: string)
    requires AllSpace(Lower(x))
    ensures AllSpace(x)
  {
    forall i | 0 <= i < |x| ensures IsSpace(x[i]) {
      assert IsSpace(Lower(x)[i]);
    }
  }

  /** The length of the longest all-space prefix. */
  function LeadingSpace(s: string): (n: nat)
    ensures n <= |s|
    ensures forall i :: 0 <= i < n ==> IsSpace(s[i])
    ensures n < |s| ==> !IsSpace(s[n])
  {
    if s != [] && IsSpace(s[0]) then 1 + LeadingSpace(s[1..]) else 0
  }

  /** The length of the longest all-space suffix. */
  function TrailingSpace(s: string): (n: nat)
    ensures n <= |s|
    ensures forall i :: |s| - n <= i < |s| ==> IsSpace(s[i])
    ensures n < |s| ==> !IsSpace(s[|s| - 1 - n])
  {
    if s != [] && IsSpace(s[|s| - 1]) then 1 + TrailingSpace(s[..|s| - 1]) else 0
  }

  /** `s.lstrip()`. */
  function StripLeading(s: string): (r: string)
    ensures r != [] ==> !IsSpace(r[0])
  {
    s[LeadingSpace(s)..]
  }

  /** `s.rstrip()`. */
  function StripTrailing(s: string): (r: string)
    ensures r != [] ==> !IsSpace(r[|r| - 1])
  {
    s[..|s| - TrailingSpace(s)]
  }

  /** `s.strip()`. */
  function Strip(s: string): (r: string)
    ensures r != [] ==> !IsSpace(r[0]) && !IsSpace(r[|r| - 1])
  {
    var t := StripLeading(s);
    var r := StripTrailing(t);
    assert r != [] ==> r[0] == t[0];
    r
  }

  /** Space in front adds to the leading run and to nothing else. */
  lemma {:induction false} LeadingSpaceOfPrefix(ws: string, x: string)
    requires AllSpace(ws)
    ensures LeadingSpace(ws + x) == |ws| + LeadingSpace(x)
  {
    if ws == [] {
      assert ws + x == x;
    } else {
      assert (ws + x)[0] == ws[0];
      assert (ws + x)[1..] == ws[1..] + x;
      LeadingSpaceOfPrefix(ws[1..], x);
    }
  }

  /** Space at the back adds to the trailing run and to nothing else. */
  lemma {:induction false} TrailingSpaceOfSuffix(x: string, ws: string)
    requires AllSpace(ws)
    ensures TrailingSpace(x + ws) == TrailingSpace(x) + |ws|
  {
    if ws == [] {
      assert x + ws == x;
    } else {
      var n := |ws| - 1;
      assert (x + ws)[|x + ws| - 1] == ws[n];
      assert (x + ws)[..|x + ws| - 1] == x + ws[..n];
      TrailingSpaceOfSuffix(x, ws[..n]);
    }
  }

  /** What follows the first non-space character does not change the
      leading run. */
  lemma {:induction false} LeadingSpaceOfExtension(x: string, y: string)
    requires LeadingSpace(x) < |x|
    ensures LeadingSpace(x + y) == LeadingSpace(x)
  {
    if IsSpace(x[0]) {
      assert (x + y)[1..] == x[1..] + y;
      LeadingSpaceOfExtension(x[1..], y);
    }
  }

  lemma StripLeadingSkipsSpace(ws: string, x: string)
    requires AllSpace(ws)
    ensures StripLeading(ws + x) == StripLeading(x)
  {
    LeadingSpaceOfPrefix(ws, x);
    assert (ws + x)[|ws| + LeadingSpace(x)..] == x[LeadingSpace(x)..];
  }

  lemma StripTrailingSkipsSpace(x: string, ws: string)
    requires AllSpace(ws)
    ensures StripTrailing(x + ws) == StripTrailing(x)
  {
    TrailingSpaceOfSuffix(x, ws);
    var k := |x| - TrailingSpace(x);
    assert |x + ws| - TrailingSpace(x + ws) == k;
    assert (x + ws)[..k] == x[..k];
  }

  /** A string of white space strips to nothing. */
  lemma StripAllSpace(ws: string)
    requires AllSpace(ws)
    ensures Strip(ws) == []
  {
    LeadingSpaceOfPrefix(ws, []);
    assert ws + [] == ws;
  }

  /** Trailing white space never affects what `strip()` keeps. */
  lemma StripIgnoresTrailing(x: string, ws: string)
    requires AllSpace(ws)
    ensures Strip(x + ws) == Strip(x)
  {
    var n := LeadingSpace(x);
    if n < |x| {
      LeadingSpaceOfExtension(x, ws);
      assert StripLeading(x + ws) == StripLeading(x) + ws;
      StripTrailingSkipsSpace(StripLeading(x), ws);
    } else {
      assert AllSpace(x + ws);
      StripAllSpace(x + ws);
      StripAllSpace(x);
    }
  }

  /** Two strings that differ only in surrounding white space strip to the
      same string. */
  lemma StripIgnoresSurroundingSpace(lead: string, x: string, trail: string)
    requires AllSpace(lead) && AllSpace(trail)
    ensures Strip(lead + x + trail) == Strip(x)
  {
    assert lead + x + trail == lead + (x + trail);
    StripLeadingSkipsSpace(lead, x + trail);
    StripIgnoresTrailing(x, trail);
  }

  /** Stripping a stripped string changes nothing. */
  lemma StripIdempotent(s: string)
    ensures Strip(Strip(s)) == Strip(s)
  {
    var u := Strip(s);
    if u != [] {
      assert LeadingSpace(u) == 0 && StripLeading(u) == u;
      assert TrailingSpace(u) == 0;
    }
  }

  /** A string with no white space at either end strips to itself. */
  lemma StripKeepsUnpadded(x: string)
    requires x != [] ==> !IsSpace(x[0]) && !IsSpace(x[|x| - 1])
    ensures Strip(x) == x
  {
    if x != [] {
      assert LeadingSpace(x) == 0;
      assert StripLeading(x) == x;
      assert TrailingSpace(x) == 0;
    }
  }

  /** Cutting a string in three and gluing the parts gives it back. */
  lemma Recompose(s: string, i: nat, j: nat)
    requires i <= j <= |s|
    ensures s == s[..i] + s[i..j] + s[j..]
  {
    assert s[i..] == s[i..j] + s[j..];
    assert s == s[..i] + s[i..];
  }

  /** The three parts of a concatenation are slices of it. */
  lemma PartsOfThree(s: string, a: string, b: string, c: string)
    requires s == a + b + c
    ensures a == s[..|a|] && b == s[|a|..|a| + |b|] && c == s[|a| + |b|..]
  {
    assert s == a + (b + c);
    assert s[|a|..] == b + c;
  }

  /** Lowering works on each piece of a string cut in three. */
  lemma LowerOfParts(s: string, i: nat, j: nat)
    requires i <= j <= |s|
    ensures Lower(s[..i]) == Lower(s)[..i]
    ensures Lower(s[i..j]) == Lower(s)[i..j]
    ensures Lower(s[j..]) == Lower(s)[j..]
  {
    var a, b, c := s[..i], s[i..j], s[j..];
    Recompose(s, i, j);
    LowerOfConcat(a + b, c);
    LowerOfConcat(a, b);
    PartsOfThree(Lower(s), Lower(a), Lower(b), Lower(c));
  }

  /** `strip()` removes white space only: the string is what it keeps, with
      white space in front of it and behind it. */
  lemma StripSplits(s: string) returns (lead: string, trail: string)
    ensures AllSpace(lead) && AllSpace(trail)
    ensures s == lead + Strip(s) + trail
  {
    var n := LeadingSpace(s);
    var t := s[n..];
    var k := |t| - TrailingSpace(t);
    lead, trail := s[..n], s[n + k..];
    assert Strip(s) == s[n..n + k];
    Recompose(s, n, n + k);
    forall i | 0 <= i < |lead| ensures IsSpace(lead[i]) {
      assert lead[i] == s[i];
    }
    forall i | 0 <= i < |trail| ensures IsSpace(trail[i]) {
      assert trail[i] == s[n + k + i] == t[k + i];
    }
  }

  predicate IsLowered(s: string) {
    forall i :: 0 <= i < |s| ==> !IsUpper(s[i])
  }

  lemma LowerOfLowered(s: string)
    requires IsLowered(s)
    ensures Lower(s) == s
  {
  }

  lemma StripKeepsLowered(s: string)
    requires IsLowered(s)
    ensures IsLowered(Strip(s))
  {
    var t := StripLeading(s);
    assert IsLowered(t);
  }

  /** One decimal digit. */
  function DigitChar(d: nat): (c: char)
    requires d < 10
    ensures '0' <= c <= '9'
    ensures c as int - '0' as int == d
  {
    (d + '0' as int) as char
  }

  /** `str(n)` for a non-negative integer: decimal digits, no leading zero. */
  function Decimal(n: nat): (s: string)
    ensures |s| >= 1
    ensures forall i :: 0 <= i < |s| ==> '0' <= s[i] <= '9'
    ensures n < 10 <==> |s| == 1
  {
    if n < 10 then [DigitChar(n)] else Decimal(n / 10) + [DigitChar(n % 10)]
  }

  /** Different numbers print differently. */
  lemma {:induction false} DecimalInjective(a: nat, b: nat)
    requires Decimal(a) == Decimal(b)
    ensures a == b
  {
    if a >= 10 && b >= 10 {
      var sa, sb := Decimal(a), Decimal(b);
      assert sa[|sa| - 1] == DigitChar(a % 10);
      assert sb[|sb| - 1] == DigitChar(b % 10);
      assert Decimal(a / 10) == sa[..|sa| - 1] == sb[..|sb| - 1] == Decimal(b / 10);
      DecimalInjective(a / 10, b / 10);
    } else {
      assert Decimal(a)[0] == Decimal(b)[0];
    }
  }
}
