/** What the normal form of a name forgets and what it keeps, and so which texts name the same entity. */
module NameMatching {
  import opened Prelude
  import opened Text
  import opened EntityNames
  import opened ContextTypes
  import opened EntityRegistryManager
  import opened ReferenceResolver
  import opened EntityProofs

  // ---- letter case ----

  /** Names are matched without regard to case. */
  lemma CaseIsForgotten(s: string, t: string)
    requires CaseVariant(s, t)
    ensures Normalize(s) == Normalize(t)
  {
    hide Strip, Lower, CaseVariant, Collapse, NameChars;
    StripVariant(s, t);
    LowerVariant(Strip(s), Strip(t));
  }

  // ---- what is kept ----

  /** The letters, digits and hyphens of a text, letters small, in order. */
  function Marks(s: string): string {
    if s == "" then ""
    else MarkOf(s[0]) + Marks(s[1..])
  }

  function MarkOf(c: char): string {
    if 'A' <= c <= 'Z' then [(c as int + 32) as char]
    else if 'a' <= c <= 'z' || '0' <= c <= '9' || c == '-' then [c]
    else ""
  }

  lemma {:induction false} MarksConcat(a: string, b: string)
    ensures Marks(a + b) == Marks(a) + Marks(b)
  {
    if a == "" {
      assert a + b == b;
    } else {
      assert (a + b)[1..] == a[1..] + b;
      MarksConcat(a[1..], b);
    }
  }

  lemma {:induction false} NoMarks(s: string)
    requires AllBlank(s)
    ensures Marks(s) == ""
  {
    if s != "" { NoMarks(s[1..]); }
  }

  lemma StripKeepsMarks(s: string)
    ensures Marks(Strip(s)) == Marks(s)
  {
    var before, after := StripTakesBlanks(s);
    hide Strip, Blank;
    NoMarks(before);
    NoMarks(after);
    MarksConcat(before, Strip(s));
    MarksConcat(before + Strip(s), after);
  }

  lemma {:induction false} LowerKeepsMarks(s: string)
    ensures Marks(Lower(s)) == Marks(s)
    ensures forall i :: 0 <= i < |Lower(s)| ==> !('A' <= Lower(s)[i] <= 'Z')
  {
    if s != "" {
      LowerKeepsMarks(s[1..]);
      assert Lower(s)[1..] == Lower(s[1..]);
    }
  }

  lemma {:induction false} NameCharsKeepMarks(s: string)
    requires forall i :: 0 <= i < |s| ==> !('A' <= s[i] <= 'Z')
    ensures Marks(NameChars(s)) == Marks(s)
  {
    if s != "" {
      NameCharsKeepMarks(s[1..]);
      MarksConcat(NameChar(s[0]), NameChars(s[1..]));
      MarkOfNameChar(s[0]);
    }
  }

  lemma MarkOfNameChar(c: char)
    requires !('A' <= c <= 'Z')
    ensures Marks(NameChar(c)) == MarkOf(c)
  {
    var r := NameChar(c);
    if r != "" { assert r[1..] == ""; }
  }

  lemma {:induction false} CollapseKeepsMarks(s: string)
    ensures Marks(Collapse(s)) == Marks(s)
  {
    if s != "" {
      CollapseKeepsMarks(s[1..]);
      var rest := Collapse(s[1..]);
      if !IsSpace(s[0]) {
        MarksConcat([s[0]], rest);
        assert [s[0]][1..] == "";
      } else {
        MarksConcat(" ", rest);
        assert " "[1..] == "";
      }
    }
  }

  /** Normalizing loses no letter, digit or hyphen and keeps their order. */
  lemma MarksAreKept(s: string)
    ensures Marks(Normalize(s)) == Marks(s)
  {
    hide Strip, Lower, NameChars, Collapse;
    StripKeepsMarks(s);
    LowerKeepsMarks(Strip(s));
    NameCharsKeepMarks(Lower(Strip(s)));
    CollapseKeepsMarks(NameChars(Lower(Strip(s))));
    StripKeepsMarks(Collapse(NameChars(Lower(Strip(s)))));
  }

  // ---- words ----

  lemma {:induction false} NameCharsConcat(a: string, b: string)
    ensures NameChars(a + b) == NameChars(a) + NameChars(b)
  {
    if a == "" {
      assert a + b == b;
    } else {
      assert (a + b)[1..] == a[1..] + b;
      NameCharsConcat(a[1..], b);
    }
  }

  lemma LowerConcat(a: string, b: string)
    ensures Lower(a + b) == Lower(a) + Lower(b)
  {}

  /** Two words stay two words, whichever blank or underscore stands between them, and no matter how many. */
  lemma {:induction false} SeparatorsAreOneSpace(a: string, gap: string, b: string)
    requires PlainWord(a) && PlainWord(b) && gap != "" && forall i :: 0 <= i < |gap| ==> Blank(gap[i]) || gap[i] == '_'
    ensures Normalize(a + gap + b) == a + " " + b
  {
    var s := a + gap + b;
    EndsAreLetters(a, gap, b);
    StripFixed(s);
    LowerOfWords(a, gap, b);
    var blanks := NameChars(gap);
    NameCharsConcat(a + gap, b);
    NameCharsConcat(a, gap);
    WordChars(a);
    WordChars(b);
    GapChars(gap);
    CollapseGap(a, blanks, b);
    StripFixed(a + " " + b);
    hide Strip, Lower, NameChars, Collapse;
    assert NameChars(s) == a + blanks + b;
  }

  lemma EndsAreLetters(a: string, gap: string, b: string)
    requires PlainWord(a) && PlainWord(b)
    ensures Stripped(a + gap + b) && Stripped(a + " " + b)
  {}

  lemma LowerOfWords(a: string, gap: string, b: string)
    requires PlainWord(a) && PlainWord(b) && forall i :: 0 <= i < |gap| ==> Blank(gap[i]) || gap[i] == '_'
    ensures Lower(a + gap + b) == a + gap + b
  {
    var s := a + gap + b;
    forall i | 0 <= i < |s| ensures Lower(s)[i] == s[i] {
      if i < |a| { assert s[i] == a[i]; }
      else if i < |a| + |gap| { assert s[i] == gap[i - |a|]; }
      else { assert s[i] == b[i - |a| - |gap|]; }
    }
    assert Lower(s) == s;
  }

  lemma {:induction false} WordChars(a: string)
    requires forall i :: 0 <= i < |a| ==> 'a' <= a[i] <= 'z'
    ensures NameChars(a) == a
  {
    if a != "" {
      WordChars(a[1..]);
      assert a == [a[0]] + a[1..];
    }
  }

  lemma {:induction false} GapChars(gap: string)
    requires forall i :: 0 <= i < |gap| ==> Blank(gap[i]) || gap[i] == '_'
    ensures |NameChars(gap)| == |gap| && AllBlank(NameChars(gap))
  {
    if gap != "" { GapChars(gap[1..]); }
  }

  lemma CollapseGap(a: string, gap: string, b: string)
    requires PlainWord(b) && AllBlank(gap) && gap != "" && forall i :: 0 <= i < |a| ==> 'a' <= a[i] <= 'z'
    ensures Collapse(a + gap + b) == a + " " + b
  {
    hide Collapse;
    CollapseWord(a, gap + b);
    GapIsSpace(gap, b);
    assert a + (gap + b) == a + gap + b && a + (" " + b) == a + " " + b;
  }

  lemma {:induction false} CollapseWord(a: string, rest: string)
    requires forall i :: 0 <= i < |a| ==> 'a' <= a[i] <= 'z'
    ensures Collapse(a + rest) == a + Collapse(rest)
  {
    if a == "" {
      assert a + rest == rest;
    } else {
      assert (a + rest)[1..] == a[1..] + rest;
      CollapseWord(a[1..], rest);
    }
  }

  lemma {:induction false} GapIsSpace(gap: string, b: string)
    requires PlainWord(b) && AllBlank(gap) && gap != ""
    ensures Collapse(gap + b) == " " + b
  {
    assert (gap + b)[1..] == gap[1..] + b;
    if |gap| > 1 {
      GapIsSpace(gap[1..], b);
    } else {
      assert gap[1..] + b == b;
      SingleWord(b);
      CollapseFixed(b);
    }
  }

  lemma SingleWord(b: string)
    requires PlainWord(b)
    ensures SingleSpaced(b)
  {}

  // ---- resolving ----

  /** Only the normal form of what was said counts. */
  lemma SameNormalSameAnswer(value: string, other: string, r: EntityRegistry, domain: string, entityType: string,
                             deicticOnly: bool, clock: Clock)
    requires Normalize(value) == Normalize(other)
    ensures Resolve(value, r, domain, entityType, deicticOnly, clock)
              == Resolve(other, r, domain, entityType, deicticOnly, clock)
    ensures IsDeictic(value, entityType) == IsDeictic(other, entityType)
  {
    hide Normalize, Best, Scan, AliasHit, Words, StripListWords;
  }

  /** Read your write, in any spelling of the case: every variant of an upserted name finds the upserted entity. */
  lemma {:induction false} VariantResolves(r: EntityRegistry, p: Payload, value: string, clock: Clock)
    requires Usable(p) && CaseVariant(p.displayName, value)
    requires Marks(p.displayName) != "" && !IsDeictic(p.displayName, CleanType(p))
    ensures Resolve(value, Upsert(r, p).0, CleanDomain(p), CleanType(p), false, clock)
              == Some(Resolved(TargetOf(r, p), ExactName))
  {
    hide Usable, CaseVariant, IsDeictic, CleanType, CleanDomain, Resolve, Upsert, TargetOf, Normalize;
    CaseIsForgotten(p.displayName, value);
    MarksAreKept(p.displayName);
    UpsertResolves(r, p, clock);
    SameNormalSameAnswer(value, p.displayName, Upsert(r, p).0, CleanDomain(p), CleanType(p), false, clock);
  }

  /** Texts that differ in a letter, digit or hyphen are different names. */
  lemma DifferentMarksDiffer(s: string, t: string)
    requires Marks(s) != Marks(t)
    ensures Normalize(s) != Normalize(t)
  {
    hide Normalize;
    MarksAreKept(s);
    MarksAreKept(t);
  }
}
