/** ASCII text as the source handles it: strip, lower, substring tests and decimal numerals. */
module Text {
  import opened Prelude

  predicate IsSpace(c: char) {
    var n := c as int;
    9 <= n <= 13 || 28 <= n <= 32
  }

  function LowerChar(c: char): char {
    if 'A' <= c <= 'Z' then (c as int + 32) as char else c
  }

  function Lower(s: string): string {
    seq(|s|, i requires 0 <= i < |s| => LowerChar(s[i]))
  }

  /** Python's `str.strip()`: no blank is left at either end. */
  function Strip(s: string): (r: string)
    ensures Stripped(r)
  {
    if s != "" && IsSpace(s[0]) then Strip(s[1..])
    else if s != "" && IsSpace(s[|s| - 1]) then Strip(s[..|s| - 1])
    else s
  }

  predicate Stripped(s: string) {
    s == [] || (!IsSpace(s[0]) && !IsSpace(s[|s| - 1]))
  }

  lemma StripFixed(s: string)
    requires Stripped(s)
    ensures Strip(s) == s
  {}

  lemma StripIdempotent(s: string)
    ensures Strip(Strip(s)) == Strip(s)
  {
    StripFixed(Strip(s));
  }

  // ---- blanks ----

  /** Space, tab, line ends and the four separators. */
  predicate Blank(c: char) {
    c == ' ' || c == '\t' || c == '\n' || c == '\r' || c as int == 11 || c as int == 12 || 28 <= c as int <= 31
  }

  predicate AllBlank(s: string) { forall i :: 0 <= i < |s| ==> Blank(s[i]) }

  /** Stripping takes the blanks off both ends and nothing else. */
  lemma StripTakesBlanks(s: string) returns (before: string, after: string)
    ensures s == before + Strip(s) + after && AllBlank(before) && AllBlank(after)
    ensures Strip(s) != "" ==> !Blank(Strip(s)[0]) && !Blank(Strip(s)[|Strip(s)| - 1])
  {
    before, after := StripSplits(s);
    hide Strip;
  }

  lemma {:induction false} StripSplits(s: string) returns (before: string, after: string)
    ensures s == before + Strip(s) + after && AllBlank(before) && AllBlank(after)
    decreases |s|
  {
    hide Stripped;
    before, after := "", "";
    if s != "" && IsSpace(s[0]) {
      var b;
      b, after := StripSplits(s[1..]);
      before := [s[0]] + b;
      assert s == [s[0]] + (b + Strip(s[1..]) + after) == before + Strip(s[1..]) + after;
    } else if s != "" && IsSpace(s[|s| - 1]) {
      var a;
      before, a := StripSplits(s[..|s| - 1]);
      after := a + [s[|s| - 1]];
      assert s == (before + Strip(s[..|s| - 1]) + a) + [s[|s| - 1]] == before + Strip(s[..|s| - 1]) + after;
    }
  }

  lemma StripEmptyIff(s: string)
    ensures Strip(s) == "" <==> AllBlank(s)
  {
    var before, after := StripTakesBlanks(s);
    if Strip(s) != "" { assert s[|before|] == Strip(s)[0]; }
  }

  lemma LowerKeepsStripped(s: string)
    requires Stripped(s)
    ensures Stripped(Lower(s))
  {}

  lemma LowerIdempotent(s: string)
    ensures Lower(Lower(s)) == Lower(s)
  {}

  // ---- letter case ----

  /** `b` is `a`, or the small letter of the capital `a`. */
  predicate SmallOf(a: char, b: char) { a == b || ('A' <= a <= 'Z' && b as int == a as int + 32) }

  /** Each text may have capitals where the other has the small letter. */
  predicate CaseVariant(s: string, t: string) {
    |s| == |t| && forall i :: 0 <= i < |s| ==> SmallOf(s[i], t[i]) || SmallOf(t[i], s[i])
  }

  lemma {:induction false} StripVariant(s: string, t: string)
    requires CaseVariant(s, t)
    ensures CaseVariant(Strip(s), Strip(t))
    decreases |s|
  {
    if s != "" {
      assert SmallOf(s[0], t[0]) || SmallOf(t[0], s[0]);
      assert SmallOf(s[|s| - 1], t[|s| - 1]) || SmallOf(t[|s| - 1], s[|s| - 1]);
      if IsSpace(s[0]) { StripVariant(s[1..], t[1..]); }
      else if IsSpace(s[|s| - 1]) { StripVariant(s[..|s| - 1], t[..|s| - 1]); }
    }
  }

  lemma LowerVariant(s: string, t: string)
    requires CaseVariant(s, t)
    ensures Lower(s) == Lower(t)
  {
    forall i | 0 <= i < |s| ensures Lower(s)[i] == Lower(t)[i] {
      assert SmallOf(s[i], t[i]) || SmallOf(t[i], s[i]);
    }
    assert Lower(s) == Lower(t);
  }

  predicate StartsWith(s: string, prefix: string) {
    prefix <= s
  }

  predicate EndsWith(s: string, suffix: string) {
    |suffix| <= |s| && s[|s| - |suffix|..] == suffix
  }

  /** Python's `needle in hay`. */
  predicate Contains(hay: string, needle: string) {
    exists i :: 0 <= i <= |hay| && needle <= hay[i..]
  }

  lemma ContainsPrefix(hay: string, needle: string)
    requires needle <= hay
    ensures Contains(hay, needle)
  {
    assert hay[0..] == hay;
  }

  /** `needle in hay`, by position. */
  lemma ContainsAt(hay: string, w: string, i: nat)
    requires i + |w| <= |hay| && hay[i..i + |w|] == w
    ensures Contains(hay, w)
  {
    assert w <= hay[i..] by { assert hay[i..][..|w|] == hay[i..i + |w|]; }
  }

  lemma ContainsWhere(hay: string, w: string) returns (i: nat)
    requires Contains(hay, w)
    ensures i + |w| <= |hay| && hay[i..i + |w|] == w
  {
    i :| 0 <= i <= |hay| && w <= hay[i..];
    assert hay[i..][..|w|] == hay[i..i + |w|];
  }

  lemma ContainsLeft(a: string, b: string, w: string)
    requires Contains(a, w)
    ensures Contains(a + b, w)
  {
    var i := ContainsWhere(a, w);
    assert (a + b)[i..i + |w|] == a[i..i + |w|];
    ContainsAt(a + b, w, i);
  }

  lemma ContainsRight(a: string, b: string, w: string)
    requires Contains(b, w)
    ensures Contains(a + b, w)
  {
    var i := ContainsWhere(b, w);
    assert (a + b)[|a| + i..|a| + i + |w|] == b[i..i + |w|];
    ContainsAt(a + b, w, |a| + i);
  }

  lemma ContainsNested(hay: string, part: string, needle: string)
    requires Contains(hay, part) && Contains(part, needle)
    ensures Contains(hay, needle)
  {
    hide Contains;
    var i := ContainsWhere(hay, part);
    assert hay == hay[..i] + (part + hay[i + |part|..]);
    ContainsLeft(part, hay[i + |part|..], needle);
    ContainsRight(hay[..i], part + hay[i + |part|..], needle);
  }

  /** Taking outer blanks away takes nothing from what has none. */
  lemma StripKeepsPart(s: string, part: string)
    requires Contains(s, part) && Stripped(part)
    ensures Contains(Strip(s), part)
  {
    hide Contains, Strip, AllBlank;
    if part == "" {
      ContainsAt(Strip(s), "", 0);
    } else {
      var before, after := StripTakesBlanks(s);
      var i := ContainsWhere(s, part);
      assert s[i] == part[0] && s[i + |part| - 1] == part[|part| - 1];
      PlaceWithin(before, Strip(s), after, i, |part|);
      ContainsAt(Strip(s), part, i - |before|);
    }
  }

  lemma PlaceWithin(before: string, middle: string, after: string, i: nat, n: nat)
    requires AllBlank(before) && AllBlank(after) && n > 0 && i + n <= |before + middle + after|
    requires !Blank((before + middle + after)[i]) && !Blank((before + middle + after)[i + n - 1])
    ensures |before| <= i && i + n <= |before| + |middle|
    ensures middle[i - |before|..i - |before| + n] == (before + middle + after)[i..i + n]
  {}

  // ---- decimal numerals ----

  predicate IsDigit(c: char) { '0' <= c <= '9' }

  predicate AllDigits(s: string) {
    forall i :: 0 <= i < |s| ==> IsDigit(s[i])
  }

  function DigitChar(d: nat): (c: char)
    requires d < 10
    ensures IsDigit(c) && c as int - '0' as int == d
  {
    (d + '0' as int) as char
  }

  /** Decimal numeral of `n`, as `str(n)` prints it. */
  function ToDec(n: nat): (s: string)
    ensures s != [] && AllDigits(s)
  {
    if n < 10 then [DigitChar(n)] else ToDec(n / 10) + [DigitChar(n % 10)]
  }

  /** Value of a digit string, leading zeros allowed, as `int(s)` reads it. */
  function ParseNat(s: string): nat
    requires AllDigits(s)
  {
    if s == [] then 0
    else 10 * ParseNat(s[..|s| - 1]) + (s[|s| - 1] as int - '0' as int)
  }

  lemma {:induction false} DecimalRoundTrip(n: nat)
    ensures ParseNat(ToDec(n)) == n
  {
    if n >= 10 {
      DecimalRoundTrip(n / 10);
      var s := ToDec(n);
      assert s[..|s| - 1] == ToDec(n / 10);
    } else {
      assert ToDec(n)[..0] == [];
    }
  }
}
