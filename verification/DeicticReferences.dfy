/** Which phrases point at something instead of naming it, stated over their words. */
module DeicticReferences {
  import opened Prelude
  import opened Text
  import opened Values
  import opened ContextTypes
  import opened EntityNames
  import opened EntityRegistryManager
  import opened ReferenceResolver
  import opened EntityProofs

  /** Plain words with one space between them. */
  function Spaced(ws: seq<string>): string {
    if ws == [] then "" else if |ws| == 1 then ws[0] else ws[0] + " " + Spaced(ws[1..])
  }

  predicate PlainWords(ws: seq<string>) { ws != [] && forall w :: w in ws ==> PlainWord(w) }

  lemma {:induction false} SpacedIsNormal(ws: seq<string>)
    requires PlainWords(ws)
    ensures var s := Spaced(ws); Canonical(s) && s != "" && 'a' <= s[0] <= 'z'
    ensures Normalize(Spaced(ws)) == Spaced(ws)
  {
    hide Normalize;
    assert ws[0] in ws;
    if |ws| > 1 {
      PlainTail(ws);
      SpacedIsNormal(ws[1..]);
      CanonicalWords(ws[0], Spaced(ws[1..]));
    }
    CanonicalFixed(Spaced(ws));
  }

  lemma PlainTail(ws: seq<string>)
    requires PlainWords(ws) && |ws| > 1
    ensures PlainWords(ws[1..]) && PlainWord(ws[0])
  {
    hide PlainWord;
    forall w | w in ws[1..] ensures PlainWord(w) { assert w in ws; }
  }

  lemma CanonicalWords(a: string, b: string)
    requires PlainWord(a) && Canonical(b) && b != "" && 'a' <= b[0] <= 'z'
    ensures Canonical(a + " " + b)
  {
    var s := a + " " + b;
    forall i | 0 < i < |s| ensures !(IsSpace(s[i - 1]) && IsSpace(s[i])) {
      if i > |a| + 1 { assert s[i] == b[i - |a| - 1] && s[i - 1] == b[i - 1 - |a| - 1]; }
    }
  }

  lemma {:induction false} WordFirst(w: string, rest: string)
    requires PlainWord(w) && (rest == "" || rest[0] == ' ')
    ensures Words(w + rest) == [w] + Words(rest)
  {
    var s := w + rest;
    if |w| > 1 {
      assert s[1..] == w[1..] + rest;
      WordFirst(w[1..], rest);
      assert [s[0]] + w[1..] == w;
    } else {
      assert s[1..] == rest && [s[0]] == w;
    }
  }

  lemma BlankSkipped(t: string)
    ensures Words("") == [] && Words(" " + t) == Words(t)
  {
    assert (" " + t)[1..] == t;
  }

  /** Splitting undoes the spacing. */
  lemma {:induction false} WordsOfSpaced(ws: seq<string>)
    requires PlainWords(ws)
    ensures Words(Spaced(ws)) == ws
  {
    hide Words, PlainWord;
    assert ws[0] in ws;
    if |ws| > 1 {
      PlainTail(ws);
      WordsOfSpaced(ws[1..]);
      var tail := Spaced(ws[1..]);
      BlankSkipped(tail);
      WordFirst(ws[0], " " + tail);
      assert ws[0] + (" " + tail) == Spaced(ws) && [ws[0]] + ws[1..] == ws;
    } else {
      BlankSkipped("");
      WordFirst(ws[0], "");
      assert ws[0] + "" == ws[0] && [ws[0]] + [] == ws;
    }
  }

  /** Of a switch, a phrase of plain words is deictic exactly if it is a set phrase, or a pronoun with nothing but
      trailing words behind it. */
  lemma SwitchDeicticIff(ws: seq<string>)
    requires PlainWords(ws)
    ensures IsDeictic(Spaced(ws), "switch") <==>
              Spaced(ws) in SWITCH_PHRASES
              || (ws[0] in {"it", "that", "this"} && forall k :: 1 <= k < |ws| ==> ws[k] in SWITCH_TRAILING)
  {
    hide Normalize, Words, Spaced, SWITCH_PHRASES, SWITCH_TRAILING, PlainWords;
    SpacedIsNormal(ws);
    WordsOfSpaced(ws);
    assert "switch" != "list" by { assert |"switch"| != |"list"|; }
    assert ws != [] by { hide *; PlainNotEmpty(ws); }
  }

  lemma PlainNotEmpty(ws: seq<string>)
    requires PlainWords(ws)
    ensures ws != []
  {}

  /** Of a list, an article before the word and "list" behind it make no difference. */
  lemma ListWordsForgotten(w: string)
    requires PlainWord(w) && w != "my" && w != "the" && w != "our"
    ensures IsDeictic("the " + w, "list") == IsDeictic(w, "list")
    ensures IsDeictic("my " + w, "list") == IsDeictic(w, "list")
    ensures IsDeictic("our " + w, "list") == IsDeictic(w, "list")
    ensures IsDeictic(w + " list", "list") == IsDeictic(w, "list")
    ensures IsDeictic("the " + w + " list", "list") == IsDeictic(w, "list")
  {
    hide Normalize, StripListWords, LIST_WORDS, PlainWord;
    PlainNames();
    NormalPhrases(w);
    Shortened(w);
  }

  lemma PlainNames()
    ensures PlainWord("the") && PlainWord("my") && PlainWord("our") && PlainWord("list")
  {}

  lemma NormalPhrases(w: string)
    requires PlainWord(w)
    ensures forall s :: s in {w, "the " + w, "my " + w, "our " + w, w + " list", "the " + w + " list"} ==>
                          Normalize(s) == s && s != ""
  {
    hide Normalize, PlainWord;
    PlainNames();
    OneAndTwo("the", w);
    OneAndTwo("my", w);
    OneAndTwo("our", w);
    OneAndTwo(w, "list");
    Three("the", w, "list");
    assert "the" + " " == "the " && "my" + " " == "my " && "our" + " " == "our ";
    assert w + " " + "list" == w + " list" && "the" + " " + w + " " + "list" == "the " + w + " list";
    assert "the" + " " + w == "the " + w && "my" + " " + w == "my " + w && "our" + " " + w == "our " + w;
  }

  lemma OneAndTwo(a: string, b: string)
    requires PlainWord(a) && PlainWord(b)
    ensures Normalize(a) == a != "" && Normalize(b) == b != "" && Normalize(a + " " + b) == a + " " + b
  {
    hide Normalize, PlainWord;
    SpacedIsNormal([a]);
    SpacedIsNormal([b]);
    SpacedIsNormal([a, b]);
    assert [a, b][1..] == [b];
  }

  lemma Three(a: string, b: string, c: string)
    requires PlainWord(a) && PlainWord(b) && PlainWord(c)
    ensures Normalize(a + " " + b + " " + c) == a + " " + b + " " + c
  {
    hide Normalize, PlainWord;
    SpacedIsNormal([a, b, c]);
    assert [a, b, c][1..] == [b, c] && [b, c][1..] == [c];
    assert Spaced([b, c]) == b + " " + c && Spaced([a, b, c]) == a + " " + Spaced([b, c]);
    assert a + " " + (b + " " + c) == a + " " + b + " " + c;
  }

  lemma Shortened(w: string)
    requires PlainWord(w) && w != "my" && w != "the" && w != "our"
    ensures StripListWords(w) == w && StripListWords("the " + w) == w && StripListWords("my " + w) == w
    ensures StripListWords("our " + w) == w && StripListWords(w + " list") == w
    ensures StripListWords("the " + w + " list") == w
  {
    AloneShort(w);
    hide StripListWords, PlainWord;
    ArticleShort("the ", w);
    ArticleShort("my ", w);
    ArticleShort("our ", w);
    BehindShort(w);
    BothShort(w);
  }

  /** No part of a plain word has a blank in it. */
  lemma NoBlankPart(w: string, part: string, k: nat)
    requires PlainWord(w) && k < |part| && part[k] == ' '
    ensures !StartsWith(w, part) && !EndsWith(w, part)
  {
    if |part| <= |w| {
      assert w[..|part|][k] == w[k] != part[k];
      assert w[|w| - |part|..][k] == w[|w| - |part| + k] != part[k];
    }
  }

  lemma AloneShort(w: string)
    requires PlainWord(w)
    ensures StripListWords(w) == w && Strip(w) == w && DropArticle(w) == w
    ensures !EndsWith(w, " list")
  {
    hide Strip;
    StripFixed(w);
    NoBlankPart(w, " list", 0);
    NoBlankPart(w, "my ", 2);
    NoBlankPart(w, "the ", 3);
    NoBlankPart(w, "our ", 3);
  }

  lemma ArticleShort(article: string, w: string)
    requires PlainWord(w) && article in {"the ", "my ", "our "}
    ensures StripListWords(article + w) == w
  {
    hide Strip;
    AloneShort(w);
    StripFixed(article + w);
    assert (article + w)[|article|..] == w;
  }

  /** "list" behind the word. */
  lemma BehindShort(w: string)
    requires PlainWord(w) && w != "my" && w != "the" && w != "our"
    ensures StripListWords(w + " list") == w && DropArticle(w + " list") == w + " list"
  {
    hide Strip;
    AloneShort(w);
    var s := w + " list";
    StripFixed(s);
    assert s[..|s| - 5] == w && s[|s| - 5..] == " list";
    NoArticleBefore(w, "my");
    NoArticleBefore(w, "the");
    NoArticleBefore(w, "our");
  }

  lemma NoArticleBefore(w: string, article: string)
    requires PlainWord(w) && PlainWord(article) && w != article
    ensures !StartsWith(w + " list", article + " ")
  {
    var s, n := w + " list", |article|;
    if n < |w| {
      assert s[..n + 1][n] == w[n] != ' ' == (article + " ")[n];
    } else if n == |w| {
      assert s[..n] == w && (article + " ")[..n] == article;
      assert s[..n + 1][..n] == s[..n];
    } else if n + 1 <= |s| {
      assert s[..n + 1][|w|] == ' ' != article[|w|] == (article + " ")[|w|];
    }
  }

  lemma BothShort(w: string)
    requires PlainWord(w)
    ensures StripListWords("the " + w + " list") == w
  {
    hide Strip;
    AloneShort(w);
    var s := "the " + w + " list";
    StripFixed(s);
    assert s[4..] == w + " list" && (w + " list")[..|w|] == w && (w + " list")[|w|..] == " list";
  }
}
