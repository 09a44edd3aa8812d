/** JSON pointers (RFC 6901) and wildcard patterns, as approved transfers use them. */
module JsonPointer {
  import opened Prelude
  import opened Text
  import opened Values

  // ---- splitting on "/" ----

  function Split(s: string): (r: seq<string>)
    ensures |r| >= 1
    ensures forall i :: 0 <= i < |r| ==> '/' !in r[i]
  {
    if s == "" then [""]
    else
      var r := Split(s[1..]);
      if s[0] == '/' then [""] + r else [[s[0]] + r[0]] + r[1..]
  }

  function Join(parts: seq<string>): string
    requires parts != []
  {
    if |parts| == 1 then parts[0] else parts[0] + "/" + Join(parts[1..])
  }

  lemma {:induction false} SplitConcat(a: string, b: string)
    ensures Split(a + "/" + b) == Split(a) + Split(b)
  {
    if a == "" {
      assert ("" + "/" + b)[1..] == b;
    } else {
      assert (a + "/" + b)[1..] == a[1..] + "/" + b;
      SplitConcat(a[1..], b);
    }
  }

  lemma {:induction false} SplitPlain(a: string)
    requires '/' !in a
    ensures Split(a) == [a]
  {
    if a != "" {
      SplitPlain(a[1..]);
      assert [a[0]] + a[1..] == a;
    }
  }

  lemma {:induction false} SplitJoin(parts: seq<string>)
    requires parts != [] && forall p :: p in parts ==> '/' !in p
    ensures Split(Join(parts)) == parts
  {
    SplitPlain(parts[0]);
    if |parts| > 1 {
      SplitConcat(parts[0], Join(parts[1..]));
      SplitJoin(parts[1..]);
    }
  }

  lemma {:induction false} JoinSplit(s: string)
    ensures Join(Split(s)) == s
  {
    if s != "" {
      JoinSplit(s[1..]);
      var r := Split(s[1..]);
      if s[0] == '/' {
        assert ([""] + r)[1..] == r;
      } else {
        assert ([[s[0]] + r[0]] + r[1..])[1..] == r[1..];
      }
    }
  }

  // ---- escaping ----

  /** `s.replace([a, b], [c])`: left to right, matches never overlap. */
  function Replace(s: string, a: char, b: char, c: char): string {
    if |s| >= 2 && s[0] == a && s[1] == b then [c] + Replace(s[2..], a, b, c)
    else if s == "" then ""
    else [s[0]] + Replace(s[1..], a, b, c)
  }

  /** The code's decoding: "~1" first, then "~0". */
  function Decode(segment: string): string {
    Replace(Replace(segment, '~', '1', '/'), '~', '0', '~')
  }

  /** Section 3 of RFC 6901. */
  function Escape(s: string): (r: string)
    ensures '/' !in r
  {
    if s == "" then ""
    else (if s[0] == '~' then "~0" else if s[0] == '/' then "~1" else [s[0]]) + Escape(s[1..])
  }

  /** Only the tildes escaped: what is left after the first replacement. */
  function EscapeTildes(s: string): string {
    if s == "" then "" else (if s[0] == '~' then "~0" else [s[0]]) + EscapeTildes(s[1..])
  }

  lemma {:induction false} FirstReplacement(s: string)
    ensures Replace(Escape(s), '~', '1', '/') == EscapeTildes(s)
  {
    if s != "" {
      FirstReplacement(s[1..]);
      var e, rest := Escape(s), Escape(s[1..]);
      if s[0] == '~' {
        assert e == ['~', '0'] + rest && e[1..] == ['0'] + rest && e[1..][1..] == rest;
        assert Replace(e[1..], '~', '1', '/') == ['0'] + Replace(rest, '~', '1', '/');
        assert Replace(e, '~', '1', '/') == ['~'] + Replace(e[1..], '~', '1', '/');
      } else if s[0] == '/' {
        assert e == ['~', '1'] + rest && e[2..] == rest;
      } else {
        assert e == [s[0]] + rest && e[1..] == rest;
      }
    }
  }

  lemma {:induction false} SecondReplacement(s: string)
    ensures Replace(EscapeTildes(s), '~', '0', '~') == s
  {
    if s != "" {
      SecondReplacement(s[1..]);
      var e, rest := EscapeTildes(s), EscapeTildes(s[1..]);
      if s[0] == '~' {
        assert e == ['~', '0'] + rest && e[2..] == rest;
      } else {
        assert e == [s[0]] + rest && e[1..] == rest;
      }
      assert [s[0]] + s[1..] == s;
    }
  }

  /** Decoding in the order "~1" then "~0" inverts the escaping of every segment. */
  lemma DecodeEscape(s: string)
    ensures Decode(Escape(s)) == s
  {
    FirstReplacement(s);
    SecondReplacement(s);
  }

  /** The other order would not: "~1" is escaped as "~01". */
  lemma OtherOrderFails()
    ensures Replace(Replace(Escape("~1"), '~', '0', '~'), '~', '1', '/') != "~1"
  {
    assert Escape("1") == "1" by { assert "1"[1..] == ""; }
    assert "~1"[1..] == "1";
    var e := Escape("~1");
    assert e == "~01";
    assert e[2..] == "1" && "1"[1..] == "";
    assert Replace("1", '~', '0', '~') == "1";
    assert Replace(e, '~', '0', '~') == "~1";
    assert "~1"[2..] == "";
  }

  // ---- evaluation ----

  predicate IsIndex(segment: string) { segment != "" && AllDigits(segment) }

  /** One step of the evaluation loop. Arrays accept leading zeros, which section 4 of RFC 6901 does not. */
  function Enter(v: Value, segment: string): Option<Value> {
    if v.VDict? && Has(v.d, segment) then Some(v.d.vals[segment])
    else if v.VList? && IsIndex(segment) && ParseNat(segment) < |v.items| then Some(v.items[ParseNat(segment)])
    else None
  }

  function Follow(v: Value, segments: seq<string>): Option<Value> {
    if segments == [] then Some(v)
    else
      match Enter(v, Decode(segments[0]))
      case None => None
      case Some(w) => Follow(w, segments[1..])
  }

  function Evaluate(v: Value, pointer: string): Option<Value> {
    if pointer == "" then Some(v)
    else if !StartsWith(pointer, "/") then None
    else Follow(v, Split(pointer[1..]))
  }

  /** `_pointer_value`. */
  method PointerValue(value: Value, pointer: string) returns (found: bool, result: Value)
    ensures found <==> Evaluate(value, pointer).Some?
    ensures found ==> Evaluate(value, pointer) == Some(result)
    ensures !found ==> result == VNull
  {
    if pointer == "" { return true, value; }
    if !StartsWith(pointer, "/") { return false, VNull; }
    var segments := Split(pointer[1..]);
    var current := value;
    for i := 0 to |segments|
      invariant Follow(value, segments) == Follow(current, segments[i..])
    {
      assert segments[i..][1..] == segments[i + 1..];
      var segment := Decode(segments[i]);
      if current.VDict? && Has(current.d, segment) {
        current := current.d.vals[segment];
        continue;
      }
      if current.VList? && IsIndex(segment) {
        var index := ParseNat(segment);
        if index < |current.items| {
          current := current.items[index];
          continue;
        }
      }
      return false, VNull;
    }
    return true, current;
  }

  // ---- every node has a pointer ----

  datatype Key = Name(name: string) | Index(index: nat)

  function Child(v: Value, key: Key): Option<Value> {
    match key
    case Name(k) => if v.VDict? && Has(v.d, k) then Some(v.d.vals[k]) else None
    case Index(i) => if v.VList? && i < |v.items| then Some(v.items[i]) else None
  }

  function NodeAt(v: Value, path: seq<Key>): Option<Value> {
    if path == [] then Some(v)
    else
      match Child(v, path[0])
      case None => None
      case Some(w) => NodeAt(w, path[1..])
  }

  function Spell(key: Key): string {
    match key
    case Name(k) => k
    case Index(i) => ToDec(i)
  }

  function Encode(path: seq<Key>): string {
    if path == [] then "" else "/" + Escape(Spell(path[0])) + Encode(path[1..])
  }

  lemma {:induction false} EncodeSplits(path: seq<Key>)
    requires path != []
    ensures Split(Encode(path)[1..]) == seq(|path|, i requires 0 <= i < |path| => Escape(Spell(path[i])))
  {
    hide Escape, Spell;
    var first := Escape(Spell(path[0]));
    SplitPlain(first);
    if |path| == 1 {
      assert Encode(path)[1..] == first;
    } else {
      assert Encode(path)[1..] == first + "/" + Encode(path[1..])[1..];
      SplitConcat(first, Encode(path[1..])[1..]);
      EncodeSplits(path[1..]);
    }
  }

  lemma EnterSpelled(v: Value, key: Key, w: Value)
    requires Child(v, key) == Some(w)
    ensures Enter(v, Decode(Escape(Spell(key)))) == Some(w)
  {
    DecodeEscape(Spell(key));
    if key.Index? { DecimalRoundTrip(key.index); }
  }

  lemma {:induction false} FollowSpelled(v: Value, path: seq<Key>, segments: seq<string>)
    requires |segments| == |path| && forall i :: 0 <= i < |path| ==> segments[i] == Escape(Spell(path[i]))
    requires NodeAt(v, path).Some?
    ensures Follow(v, segments) == NodeAt(v, path)
  {
    if path != [] {
      var w := Child(v, path[0]).value;
      EnterSpelled(v, path[0], w);
      FollowSpelled(w, path[1..], segments[1..]);
    }
  }

  /** Pointer round trip: the escaped spelling of any path evaluates to the node at that path. */
  lemma {:induction false} PointerRoundTrip(v: Value, path: seq<Key>)
    requires NodeAt(v, path).Some?
    ensures Evaluate(v, Encode(path)) == NodeAt(v, path)
  {
    if path != [] {
      EncodeSplits(path);
      FollowSpelled(v, path, Split(Encode(path)[1..]));
    }
  }

  /** Whatever a pointer finds is a node of the tree, one level down per segment. */
  lemma {:induction false} FoundIsNode(v: Value, segments: seq<string>) returns (path: seq<Key>)
    requires Follow(v, segments).Some?
    ensures |path| == |segments| && NodeAt(v, path) == Follow(v, segments)
    ensures forall i :: 0 <= i < |path| ==>
              match path[i]
              case Name(k) => k == Decode(segments[i])
              case Index(n) => IsIndex(Decode(segments[i])) && n == ParseNat(Decode(segments[i]))
  {
    if segments == [] {
      path := [];
    } else {
      var segment := Decode(segments[0]);
      var rest := FoundIsNode(Enter(v, segment).value, segments[1..]);
      path := [if v.VDict? then Name(segment) else Index(ParseNat(segment))] + rest;
      assert path[1..] == rest;
    }
  }

  // ---- wildcard patterns ----

  predicate Covers(pattern: seq<string>, pointer: seq<string>) {
    && |pattern| <= |pointer|
    && forall i :: 0 <= i < |pattern| ==> pattern[i] == "*" || pattern[i] == pointer[i]
  }

  /** `_pointer_pattern_matches`. */
  predicate PatternMatches(pattern: string, pointer: string) {
    && StartsWith(pattern, "/") && StartsWith(pointer, "/")
    && Covers(Split(pattern[1..]), Split(pointer[1..]))
  }

  /** A match means that the pointer has at least as many segments as the pattern, and that each segment of the
      pattern is a star or the pointer's segment at its place. */
  lemma PatternMatchMeans(pattern: seq<string>, pointer: seq<string>)
    requires pattern != [] && pointer != []
    requires (forall p :: p in pattern ==> '/' !in p) && forall p :: p in pointer ==> '/' !in p
    ensures PatternMatches("/" + Join(pattern), "/" + Join(pointer)) <==>
              |pattern| <= |pointer| && forall i :: 0 <= i < |pattern| ==> pattern[i] == "*" || pattern[i] == pointer[i]
  {
    SplitJoin(pattern);
    SplitJoin(pointer);
    assert ("/" + Join(pattern))[1..] == Join(pattern) && ("/" + Join(pointer))[1..] == Join(pointer);
  }

  /** Texts that do not start with a slash match nothing and are matched by nothing. */
  lemma OnlySlashedMatch(pattern: string, pointer: string)
    requires pattern == "" || pattern[0] != '/' || pointer == "" || pointer[0] != '/'
    ensures !PatternMatches(pattern, pointer)
  {}

  /** A pattern that matches a pointer matches every extension of it. */
  lemma PatternCoversExtensions(pattern: string, pointer: string, rest: string)
    requires PatternMatches(pattern, pointer)
    ensures PatternMatches(pattern, pointer + "/" + rest)
  {
    assert (pointer + "/" + rest)[1..] == pointer[1..] + "/" + rest;
    SplitConcat(pointer[1..], rest);
  }

  lemma {:induction false} FollowConcat(v: Value, a: seq<string>, b: seq<string>)
    ensures Follow(v, a + b) ==
            match Follow(v, a) case None => None case Some(w) => Follow(w, b)
  {
    if a == [] {
      assert a + b == b;
    } else {
      assert (a + b)[1..] == a[1..] + b;
      match Enter(v, Decode(a[0]))
      case None =>
      case Some(w) => FollowConcat(w, a[1..], b);
    }
  }

  /** A pattern approves a subtree: a value found under a matching pointer lies inside the value found
      at an ancestor pointer exactly as deep as the pattern, which the pattern matches too. */
  lemma PatternSelectsSubtree(v: Value, pattern: string, pointer: string) returns (ancestor: string, below: seq<string>)
    requires PatternMatches(pattern, pointer) && Evaluate(v, pointer).Some?
    ensures PatternMatches(pattern, ancestor)
    ensures |Split(ancestor[1..])| == |Split(pattern[1..])|
    ensures Split(ancestor[1..]) + below == Split(pointer[1..])
    ensures Evaluate(v, ancestor).Some?
    ensures Follow(Evaluate(v, ancestor).value, below) == Evaluate(v, pointer)
  {
    var segments := Split(pointer[1..]);
    var n := |Split(pattern[1..])|;
    ancestor := "/" + Join(segments[..n]);
    below := segments[n..];
    assert ancestor[1..] == Join(segments[..n]);
    SplitJoin(segments[..n]);
    assert segments[..n] + below == segments;
    FollowConcat(v, segments[..n], below);
  }
}
