/** Entity names: the normal form that the registry and the resolver share, and sorted alias lists. */
module EntityNames {
  import opened Prelude
  import opened Text

  // ---- `_normalized` ----

  /** Everything outside [a-z0-9\s_-] goes, and an underscore becomes a space. */
  function NameChar(c: char): string {
    if c == '_' then " " else if NormalChar(c) then [c] else ""
  }

  function NameChars(s: string): string {
    if s == "" then "" else NameChar(s[0]) + NameChars(s[1..])
  }

  predicate NormalChar(c: char) { 'a' <= c <= 'z' || IsDigit(c) || IsSpace(c) || c == '-' }

  lemma {:induction false} NameCharsNormal(s: string)
    ensures forall i :: 0 <= i < |NameChars(s)| ==> NormalChar(NameChars(s)[i])
  {
    if s != "" { NameCharsNormal(s[1..]); }
  }

  /** Each run of blanks becomes one space. */
  function Collapse(s: string): string {
    if s == "" then ""
    else
      var rest := Collapse(s[1..]);
      if !IsSpace(s[0]) then [s[0]] + rest
      else if |s| > 1 && IsSpace(s[1]) then rest
      else " " + rest
  }

  lemma {:induction false} CollapseSpacing(s: string)
    ensures var r := Collapse(s);
            SingleSpaced(r) && (r == "" <==> s == "") && (r != "" ==> r[0] == if IsSpace(s[0]) then ' ' else s[0])
  {
    if s != "" { CollapseSpacing(s[1..]); }
  }

  predicate SingleSpaced(s: string) {
    && (forall i :: 0 <= i < |s| && IsSpace(s[i]) ==> s[i] == ' ')
    && (forall i :: 0 < i < |s| ==> !(IsSpace(s[i - 1]) && IsSpace(s[i])))
  }

  function Normalize(s: string): string {
    Strip(Collapse(NameChars(Lower(Strip(s)))))
  }

  predicate CanonicalChar(c: char) { 'a' <= c <= 'z' || IsDigit(c) || c == ' ' || c == '-' }

  predicate Canonical(s: string) {
    Stripped(s) && SingleSpaced(s) && forall i :: 0 <= i < |s| ==> CanonicalChar(s[i])
  }

  lemma {:induction false} CollapseChars(s: string)
    requires forall i :: 0 <= i < |s| ==> NormalChar(s[i])
    ensures forall i :: 0 <= i < |Collapse(s)| ==> CanonicalChar(Collapse(s)[i])
  {
    if s != "" { CollapseChars(s[1..]); }
  }

  /** Stripping takes a piece out of the middle. */
  lemma {:induction false} StripIsSlice(s: string) returns (from: nat, to: nat)
    ensures from <= to <= |s| && Strip(s) == s[from..to]
  {
    from, to := 0, |s|;
    if s != "" && IsSpace(s[0]) {
      var f, t := StripIsSlice(s[1..]);
      from, to := f + 1, t + 1;
    } else if s != "" && IsSpace(s[|s| - 1]) {
      from, to := StripIsSlice(s[..|s| - 1]);
    }
  }

  /** `_normalized` yields canonical text, and leaves canonical text alone. */
  lemma NormalizeCanonical(s: string)
    ensures Canonical(Normalize(s))
  {
    hide Strip, Lower, Collapse, NameChars, NormalChar;
    var named := NameChars(Lower(Strip(s)));
    NameCharsNormal(Lower(Strip(s)));
    CollapseChars(named);
    CollapseSpacing(named);
    var from, to := StripIsSlice(Collapse(named));
    SliceKeeps(Collapse(named), from, to);
  }

  lemma SliceKeeps(s: string, from: nat, to: nat)
    requires from <= to <= |s| && SingleSpaced(s) && forall i :: 0 <= i < |s| ==> CanonicalChar(s[i])
    ensures SingleSpaced(s[from..to]) && forall i :: 0 <= i < to - from ==> CanonicalChar(s[from..to][i])
  {
    var r := s[from..to];
    forall i | 0 < i < |r| ensures !(IsSpace(r[i - 1]) && IsSpace(r[i])) {
      assert !(IsSpace(s[from + i - 1]) && IsSpace(s[from + i]));
    }
  }

  lemma {:induction false} KeepAll(s: string)
    requires forall i :: 0 <= i < |s| ==> NormalChar(s[i])
    ensures NameChars(s) == s
  {
    if s != "" {
      KeepAll(s[1..]);
      assert s == [s[0]] + s[1..];
    }
  }

  lemma {:induction false} CollapseFixed(s: string)
    requires SingleSpaced(s)
    ensures Collapse(s) == s
  {
    if s != "" {
      CollapseFixed(s[1..]);
      assert s == [s[0]] + s[1..];
      if |s| > 1 { assert !(IsSpace(s[1 - 1]) && IsSpace(s[1])); }
    }
  }

  lemma CanonicalFixed(s: string)
    requires Canonical(s)
    ensures Normalize(s) == s
  {
    StripFixed(s);
    assert Lower(s) == s;
    KeepAll(s);
    CollapseFixed(s);
  }

  lemma NormalizeIdempotent(s: string)
    ensures Normalize(Normalize(s)) == Normalize(s)
  {
    NormalizeCanonical(s);
    CanonicalFixed(Normalize(s));
  }

  lemma NormalizeStripped(s: string)
    ensures Normalize(Strip(s)) == Normalize(s)
  {
    StripIdempotent(s);
  }

  // ---- sorted(set(...)) ----

  predicate Less(a: string, b: string) {
    b != "" && (a == "" || a[0] < b[0] || (a[0] == b[0] && Less(a[1..], b[1..])))
  }

  lemma {:induction false} LessTransitive(a: string, b: string, c: string)
    requires Less(a, b) && Less(b, c)
    ensures Less(a, c)
  {
    if a != "" && a[0] == b[0] && b[0] == c[0] { LessTransitive(a[1..], b[1..], c[1..]); }
  }

  lemma {:induction false} LessTotal(a: string, b: string)
    ensures a == b || Less(a, b) || Less(b, a)
  {
    if a != "" && b != "" && a[0] == b[0] {
      LessTotal(a[1..], b[1..]);
      assert a == [a[0]] + a[1..] && b == [b[0]] + b[1..];
    }
  }

  predicate Increasing(xs: seq<string>) {
    forall i :: 0 < i < |xs| ==> Less(xs[i - 1], xs[i])
  }

  /** Add one element to a sorted duplicate-free list. */
  function Insert(xs: seq<string>, x: string): (r: seq<string>)
    ensures forall y :: y in r <==> y in xs || y == x
  {
    if xs == [] then [x]
    else if x == xs[0] then xs
    else if Less(x, xs[0]) then [x] + xs
    else [xs[0]] + Insert(xs[1..], x)
  }

  lemma {:induction false} InsertIncreasing(xs: seq<string>, x: string)
    requires Increasing(xs)
    ensures Increasing(Insert(xs, x))
    ensures Insert(xs, x) != [] && (Insert(xs, x)[0] == x || (xs != [] && Insert(xs, x)[0] == xs[0]))
  {
    if xs != [] && x != xs[0] && !Less(x, xs[0]) {
      LessTotal(x, xs[0]);
      assert Increasing(xs[1..]) by {
        forall i | 0 < i < |xs[1..]| ensures Less(xs[1..][i - 1], xs[1..][i]) { assert Less(xs[i + 1 - 1], xs[i + 1]); }
      }
      InsertIncreasing(xs[1..], x);
      var r := Insert(xs, x);
      if |xs| > 1 { assert Less(xs[1 - 1], xs[1]); }
      forall i | 0 < i < |r| ensures Less(r[i - 1], r[i]) {
        if i > 1 { assert Less(Insert(xs[1..], x)[i - 1 - 1], Insert(xs[1..], x)[i - 1]); }
      }
    }
  }

  /** `sorted({*xs, *ys})` for a list `xs` that is sorted already: fold the rest in. */
  function InsertAll(xs: seq<string>, ys: seq<string>): (r: seq<string>)
    ensures forall y :: y in r <==> y in xs || y in ys
  {
    if ys == [] then xs else Insert(InsertAll(xs, ys[..|ys| - 1]), ys[|ys| - 1])
  }

  lemma {:induction false} InsertAllIncreasing(xs: seq<string>, ys: seq<string>)
    requires Increasing(xs)
    ensures Increasing(InsertAll(xs, ys))
  {
    if ys != [] {
      InsertAllIncreasing(xs, ys[..|ys| - 1]);
      InsertIncreasing(InsertAll(xs, ys[..|ys| - 1]), ys[|ys| - 1]);
    }
  }
}
