/** The parts of Python's str that the core relies on: strip(), lower(),
    the substring test `sub in s`, rstrip("/"), isdigit(), int(s) and str(n). */
module Text {
  import opened Wrappers

  /** str.isspace() for one character: the characters str.strip() removes. */
  predicate IsSpace(c: char) {
    || c == ' '
    || ('\t' <= c <= '\r')
    || ('\U{1C}' <= c <= '\U{1F}')
    || c == '\U{85}' || c == '\U{A0}' || c == '\U{1680}'
    || ('\U{2000}' <= c <= '\U{200A}')
    || c == '\U{2028}' || c == '\U{2029}' || c == '\U{202F}' || c == '\U{205F}' || c == '\U{3000}'
  }

  /** bytes.isspace() for one byte: the six ASCII whitespace characters. */
  predicate IsAsciiSpace(c: char) {
    c == ' ' || ('\t' <= c <= '\r')
  }

  predicate AllSpace(s: string) {
    forall i :: 0 <= i < |s| ==> IsSpace(s[i])
  }

  /** Neither end of s is whitespace (true of the empty string). */
  predicate Trimmed(s: string) {
    s == [] || (!IsSpace(s[0]) && !IsSpace(s[|s| - 1]))
  }

  /** Length of the longest all-whitespace prefix of s. */
  function LeadingSpaces(s: string): (n: nat)
    ensures n <= |s|
    ensures forall i :: 0 <= i < n ==> IsSpace(s[i])
    ensures n < |s| ==> !IsSpace(s[n])
  {
    if s != [] && IsSpace(s[0]) then 1 + LeadingSpaces(s[1..]) else 0
  }

  /** Length of the longest all-whitespace suffix of s. */
  function TrailingSpaces(s: string): (n: nat)
    ensures n <= |s|
    ensures forall i :: |s| - n <= i < |s| ==> IsSpace(s[i])
    ensures n < |s| ==> !IsSpace(s[|s| - 1 - n])
  {
    if s != [] && IsSpace(s[|s| - 1]) then 1 + TrailingSpaces(s[..|s| - 1]) else 0
  }

  /** s.strip() */
  function Strip(s: string): string {
    var t := s[LeadingSpaces(s)..];
    t[..|t| - TrailingSpaces(t)]
  }

  /** Whatever whitespace surrounds a trimmed word, strip() returns exactly the word. */
  lemma StripExact(a: string, w: string, b: string)
    requires AllSpace(a) && AllSpace(b) && Trimmed(w)
    ensures Strip(a + w + b) == w
  {
    var x := a + w + b;
    var n := LeadingSpaces(x);
    if w == [] {
      assert forall i :: 0 <= i < |x| ==> IsSpace(x[i]);
      assert n == |x|;
    } else {
      assert x[|a|] == w[0];
      assert n == |a|;
      var t := x[n..];
      assert t == w + b;
      var m := TrailingSpaces(t);
      assert t[|t| - 1 - |b|] == w[|w| - 1];
      assert m == |b|;
      assert t[..|t| - m] == w;
    }
  }

  lemma LeadingSpacesPrefix(s: string)
    ensures AllSpace(s[..LeadingSpaces(s)])
  {
    var n := LeadingSpaces(s);
    forall i | 0 <= i < n ensures IsSpace(s[..n][i]) {
      assert s[..n][i] == s[i];
    }
  }

  lemma TrailingSpacesSuffix(t: string)
    ensures AllSpace(t[|t| - TrailingSpaces(t)..])
  {
    var m := TrailingSpaces(t);
    var u := t[|t| - m..];
    forall i | 0 <= i < |u| ensures IsSpace(u[i]) {
      assert u[i] == t[|t| - m + i];
    }
  }

  /** strip() leaves no whitespace at either end. */
  lemma StripTrimmed(s: string)
    ensures Trimmed(Strip(s))
  {
    var n := LeadingSpaces(s);
    var t := s[n..];
    var m := TrailingSpaces(t);
    var w := t[..|t| - m];
    if w != [] {
      assert w[0] == s[n];
      assert w[|w| - 1] == t[|t| - 1 - m];
    }
  }

  /** Cutting n characters off the front and then m off the back leaves three pieces that join back up. */
  lemma CutInThree<T>(s: seq<T>, n: nat, m: nat)
    requires n <= |s| && m <= |s| - n
    ensures var t := s[n..]; s == s[..n] + t[..|t| - m] + t[|t| - m..]
  {
    var t := s[n..];
    assert t == t[..|t| - m] + t[|t| - m..];
  }

  /** Every string is its stripped form with whitespace on either side. */
  lemma StripSplits(s: string) returns (a: string, b: string)
    ensures AllSpace(a) && AllSpace(b) && Trimmed(Strip(s))
    ensures s == a + Strip(s) + b
  {
    var n := LeadingSpaces(s);
    var t := s[n..];
    var m := TrailingSpaces(t);
    a, b := s[..n], t[|t| - m..];
    LeadingSpacesPrefix(s);
    TrailingSpacesSuffix(t);
    StripTrimmed(s);
    CutInThree(s, n, m);
  }

  lemma AppendAssoc<T>(p: seq<T>, q: seq<T>, r: seq<T>)
    ensures p + (q + r) == (p + q) + r
  {
  }

  lemma Regroup<T>(p: seq<T>, q: seq<T>, r: seq<T>, u: seq<T>, v: seq<T>)
    ensures p + (q + r + u) + v == (p + q) + r + (u + v)
  {
  }

  lemma AllSpaceAppend(x: string, y: string)
    requires AllSpace(x) && AllSpace(y)
    ensures AllSpace(x + y)
  {
    forall i | 0 <= i < |x + y| ensures IsSpace((x + y)[i]) {
      if i < |x| {
        assert (x + y)[i] == x[i];
      } else {
        assert (x + y)[i] == y[i - |x|];
      }
    }
  }

  /** strip() ignores any extra whitespace around its argument. */
  lemma {:induction false} StripPadding(a: string, s: string, b: string)
    requires AllSpace(a) && AllSpace(b)
    ensures Strip(a + s + b) == Strip(s)
  {
    var a', b' := StripSplits(s);
    var w := Strip(s);
    AllSpaceAppend(a, a');
    AllSpaceAppend(b', b);
    Regroup(a, a', w, b', b);
    StripExact(a + a', w, b' + b);
  }

  /** str.lower() on one character; only the ASCII letters change. */
  function LowerChar(c: char): char {
    if 'A' <= c <= 'Z' then (c as int - 'A' as int + 'a' as int) as char else c
  }

  /** s.lower() */
  function Lower(s: string): (r: string)
    ensures |r| == |s|
    ensures forall i :: 0 <= i < |s| ==> r[i] == LowerChar(s[i])
  {
    seq(|s|, i requires 0 <= i < |s| => LowerChar(s[i]))
  }

  lemma LowerAppend(x: string, y: string)
    ensures Lower(x + y) == Lower(x) + Lower(y)
  {
  }

  lemma LowerSlice(s: string, i: nat, j: nat)
    requires i <= j <= |s|
    ensures Lower(s[i..j]) == Lower(s)[i..j]
  {
  }

  /** Lower-casing and stripping commute, because no letter is whitespace. */
  lemma StripLower(s: string)
    ensures Strip(Lower(s)) == Lower(Strip(s))
  {
    var a, b := StripSplits(s);
    var w := Strip(s);
    LowerAppend(a + w, b);
    LowerAppend(a, w);
    assert Lower(s) == Lower(a) + Lower(w) + Lower(b);
    StripExact(Lower(a), Lower(w), Lower(b));
  }

  /** sub occurs in s starting at position i. */
  ghost predicate OccursAt(s: string, sub: string, i: int) {
    0 <= i && i + |sub| <= |s| && s[i..i + |sub|] == sub
  }

  lemma OccursShift(s: string, sub: string)
    requires s != []
    ensures forall k :: 0 <= k ==> (OccursAt(s[1..], sub, k) <==> OccursAt(s, sub, k + 1))
  {
    forall k | 0 <= k ensures OccursAt(s[1..], sub, k) <==> OccursAt(s, sub, k + 1) {
      if 0 <= k && k + |sub| <= |s| - 1 {
        assert s[1..][k..k + |sub|] == s[k + 1..k + 1 + |sub|];
      }
    }
  }

  /** Python's `sub in s` for two strings. */
  function Contains(s: string, sub: string): (r: bool)
    ensures r <==> exists i :: OccursAt(s, sub, i)
  {
    if sub <= s then
      assert OccursAt(s, sub, 0);
      true
    else if s == [] then
      false
    else
      OccursShift(s, sub);
      assert !OccursAt(s, sub, 0);
      assert forall i :: OccursAt(s, sub, i) ==> OccursAt(s[1..], sub, i - 1);
      Contains(s[1..], sub)
  }

  /** Contains in terms of a witness position. */
  lemma ContainsAt(s: string, sub: string, i: nat)
    requires i + |sub| <= |s| && s[i..i + |sub|] == sub
    ensures Contains(s, sub)
  {
    assert OccursAt(s, sub, i);
  }

  /** A text that lacks one of the characters of sub does not contain sub. */
  lemma NotContainsMissingChar(s: string, sub: string, k: nat)
    requires k < |sub| && sub[k] !in s
    ensures !Contains(s, sub)
  {

  }

  /** s.rstrip("/") */
  function RStripSlash(s: string): (r: string)
    ensures r <= s
    ensures r == [] || r[|r| - 1] != '/'
    ensures forall i :: |r| <= i < |s| ==> s[i] == '/'
  {
    if s != [] && s[|s| - 1] == '/' then RStripSlash(s[..|s| - 1]) else s
  }

  /** A trailing slash makes no difference to rstrip("/"). */
  lemma RStripSlashAppend(s: string)
    ensures RStripSlash(s + "/") == RStripSlash(s)
  {
    assert (s + "/")[..|s|] == s;
  }

  /** rstrip("/") removes every trailing slash at once, so applying it again changes nothing. */
  lemma RStripSlashIdempotent(s: string)
    ensures RStripSlash(RStripSlash(s)) == RStripSlash(s)
  {
  }

  predicate IsDigit(c: char) {
    '0' <= c <= '9'
  }

  predicate AllDigits(s: string) {
    forall i :: 0 <= i < |s| ==> IsDigit(s[i])
  }

  /** s.isdigit() for ASCII text: non-empty and digits only. */
  predicate IsDigits(s: string) {
    s != [] && AllDigits(s)
  }

  function DigitValue(c: char): nat
    requires IsDigit(c)
  {
    c as int - '0' as int
  }

  function DigitChar(d: nat): (c: char)
    requires d < 10
    ensures IsDigit(c) && DigitValue(c) == d
  {
    ('0' as int + d) as char
  }

  /** The number a string of decimal digits denotes. */
  function DigitsValue(s: string): nat
    requires AllDigits(s)
  {
    if s == [] then 0 else 10 * DigitsValue(s[..|s| - 1]) + DigitValue(s[|s| - 1])
  }

  /** str(n) for n >= 0: decimal digits without leading zeros. */
  function NatToString(n: nat): (r: string)
    ensures IsDigits(r)
    ensures DigitsValue(r) == n
    ensures r[0] == '0' ==> r == "0"
  {
    if n < 10 then
      [DigitChar(n)]
    else
      var p := NatToString(n / 10);
      var r := p + [DigitChar(n % 10)];
      assert r[..|r| - 1] == p;
      r
  }

  /** str(i) for any int. */
  function IntToString(i: int): string {
    if i < 0 then "-" + NatToString(-i) else NatToString(i)
  }

  /** Digits in which single underscores may separate two digits (PEP 515), as int() accepts. */
  predicate IsGroupedDigits(s: string) {
    && s != []
    && IsDigit(s[0])
    && IsDigit(s[|s| - 1])
    && (forall i :: 0 <= i < |s| ==> IsDigit(s[i]) || s[i] == '_')
    && (forall i :: 0 <= i < |s| - 1 ==> s[i] == '_' ==> s[i + 1] != '_')
  }

  function DropUnderscores(s: string): (r: string)
    requires forall i :: 0 <= i < |s| ==> IsDigit(s[i]) || s[i] == '_'
    ensures AllDigits(r)
    ensures AllDigits(s) ==> r == s
  {
    if s == [] then [] else (if s[0] == '_' then [] else [s[0]]) + DropUnderscores(s[1..])
  }

  /** The whitespace int() skips around a number: the six ASCII whitespace characters,
      and the non-ASCII characters str.isspace() accepts (int() turns those into
      spaces first). The separators U+001C to U+001F are not among them. */
  predicate IsIntSpace(c: char) {
    IsAsciiSpace(c) || (c as int >= 127 && IsSpace(c))
  }

  /** Length of the longest prefix of s that int() skips. */
  function LeadingIntSpaces(s: string): (n: nat)
    ensures n <= |s|
  {
    if s != [] && IsIntSpace(s[0]) then 1 + LeadingIntSpaces(s[1..]) else 0
  }

  /** Length of the longest suffix of s that int() skips. */
  function TrailingIntSpaces(s: string): (n: nat)
    ensures n <= |s|
  {
    if s != [] && IsIntSpace(s[|s| - 1]) then 1 + TrailingIntSpaces(s[..|s| - 1]) else 0
  }

  /** s without the whitespace int() skips at either end. */
  function IntStrip(s: string): string {
    var t := s[LeadingIntSpaces(s)..];
    t[..|t| - TrailingIntSpaces(t)]
  }

  /** int(s) in base 10 for a str s: surrounding whitespace, an optional sign and
      underscore-grouped digits; None where Python raises ValueError. */
  function ParseInt(s: string): Option<int> {
    ParseSigned(IntStrip(s))
  }

  /** int() on text that has already been stripped. */
  function ParseSigned(t: string): Option<int> {
    if t != [] && t[0] == '-' then
      match ParseUnsigned(t[1..])
      case Some(n) => Some(-(n as int))
      case None => None
    else if t != [] && t[0] == '+' then ParseUnsigned(t[1..])
    else ParseUnsigned(t)
  }

  /** int() on the digits after any sign. */
  function ParseUnsigned(digits: string): Option<nat> {
    if IsGroupedDigits(digits) then Some(DigitsValue(DropUnderscores(digits))) else None
  }

  lemma DigitsAreGrouped(s: string)
    requires IsDigits(s)
    ensures ParseUnsigned(s) == Some(DigitsValue(s))
  {
  }

  /** Text without surrounding whitespace is what int() parses. */
  lemma ParseIntTrimmed(s: string)
    requires Trimmed(s)
    ensures ParseInt(s) == ParseSigned(s)
  {
    if s != [] {
      assert !IsIntSpace(s[0]) && !IsIntSpace(s[|s| - 1]);
    }
    assert LeadingIntSpaces(s) == 0 && TrailingIntSpaces(s) == 0;
    assert s[0..][..|s|] == s;
    assert IntStrip(s) == s;
  }

  /** int() does not skip the separator U+001C, which str.strip() removes: "\u001c5"
      strips to "5" but is not a number. */
  lemma IntKeepsSeparators()
    ensures Strip("\U{1C}5") == "5"
    ensures ParseInt("\U{1C}5") == None
  {
    StripExact("\U{1C}", "5", []);
    assert "\U{1C}" + "5" + [] == "\U{1C}5";
    assert LeadingIntSpaces("\U{1C}5") == 0;
    assert "\U{1C}5"[0..] == "\U{1C}5";
    assert TrailingIntSpaces("\U{1C}5") == 0;
    assert !IsDigit('\U{1C}');
  }

  /** A digit string parses to its value. */
  lemma ParseSignedDigits(d: string)
    requires IsDigits(d)
    ensures ParseSigned(d) == Some(DigitsValue(d))
  {
    assert IsDigit(d[0]);
    DigitsAreGrouped(d);
  }

  /** A digit string after a minus sign parses to the negated value. */
  lemma ParseSignedNegative(d: string)
    requires IsDigits(d)
    ensures ParseSigned("-" + d) == Some(-(DigitsValue(d) as int))
  {
    var t := "-" + d;
    assert t != [] && t[0] == '-' && t[1..] == d;
    DigitsAreGrouped(d);
    assert ParseUnsigned(t[1..]) == Some(DigitsValue(d));
  }

  /** int(str(i)) == i */
  lemma ParseIntRoundTrip(i: int)
    ensures ParseInt(IntToString(i)) == Some(i)
  {
    if i < 0 {
      var d := NatToString(-i);
      var s := "-" + d;
      assert s[0] == '-' && s[|s| - 1] == d[|d| - 1];
      assert IsDigit(d[|d| - 1]);
      assert Trimmed(s);
      ParseIntTrimmed(s);
      ParseSignedNegative(d);
    } else {
      var d := NatToString(i);
      assert IsDigit(d[0]) && IsDigit(d[|d| - 1]);
      assert Trimmed(d);
      ParseIntTrimmed(d);
      ParseSignedDigits(d);
    }
  }

  /** For text that isdigit() accepts, int() returns the value of its digits. */
  lemma ParseIntDigits(s: string)
    requires IsDigits(s)
    ensures ParseInt(s) == Some(DigitsValue(s))
  {
    assert IsDigit(s[0]) && IsDigit(s[|s| - 1]);
    assert Trimmed(s);
    ParseIntTrimmed(s);
    ParseSignedDigits(s);
  }
}
