/** The translation of browser-name wildcards into regular expressions
    (convert_browscap_pattern in configuration-parser.tab.c). */
module Browscap {

  // ----- what a wildcard pattern means

  /** `*` stands for any text, `?` for any one character, anything else for itself. */
  predicate WildMatch(p: string, s: string)
    decreases |p| + |s|
  {
    if p == "" then s == ""
    else if p[0] == '*' then WildMatch(p[1..], s) || (s != "" && WildMatch(p, s[1..]))
    else s != "" && (p[0] == '?' || p[0] == s[0]) && WildMatch(p[1..], s[1..])
  }

  // ----- what a regular expression means

  datatype Atom = Any | Lit(c: char)

  predicate AtomMatch(a: Atom, c: char) {
    a.Any? || a.c == c
  }

  /** The first atom of a regular expression and what is left after it. */
  function FirstAtom(t: string): (r: (Atom, string))
    requires t != ""
    ensures |r.1| < |t|
  {
    if t[0] == '.' then (Any, t[1..])
    else if t[0] == '\\' && |t| > 1 then (Lit(t[1]), t[2..])
    else (Lit(t[0]), t[1..])
  }

  /** A regular expression made of atoms, each of which may be starred, against a whole string. */
  predicate RegexMatch(t: string, s: string)
    decreases |t| + |s|
  {
    if t == "" then s == ""
    else
      var (a, rest) := FirstAtom(t);
      if rest != "" && rest[0] == '*' then
        RegexMatch(rest[1..], s) || (s != "" && AtomMatch(a, s[0]) && RegexMatch(t, s[1..]))
      else s != "" && AtomMatch(a, s[0]) && RegexMatch(rest, s[1..])
  }

  /** The characters that mean something in a regular expression and are copied unchanged. */
  predicate Meta(c: char) {
    c in {'\\', '^', '$', '+', '|', '(', ')', '[', ']', '{', '}'}
  }

  predicate Plain(p: string) {
    forall i :: 0 <= i < |p| ==> !Meta(p[i])
  }

  // ----- the translation

  function Piece(c: char): (r: string)
    ensures 1 <= |r| <= 2
  {
    if c == '?' then "." else if c == '*' then ".*" else if c == '.' then "\\." else [c]
  }

  function Translate(p: string): string {
    if p == "" then "" else Piece(p[0]) + Translate(p[1..])
  }

  predicate HasWildcard(p: string) {
    exists i :: 0 <= i < |p| && (p[i] == '*' || p[i] == '?')
  }

  /** What the pattern becomes; one without wildcards is left as it is, dots and all. */
  function Convert(p: string): string {
    if HasWildcard(p) then Translate(p) else p
  }

  function CountWide(p: string): nat {
    if p == "" then 0 else (if p[0] == '*' || p[0] == '.' then 1 else 0) + CountWide(p[1..])
  }

  // ----- it keeps the meaning

  lemma {:induction false} TranslationKeepsMeaning(p: string, s: string)
    requires Plain(p)
    ensures RegexMatch(Translate(p), s) <==> WildMatch(p, s)
    decreases |p| + |s|
  {
    if p != "" {
      var t, t1 := Translate(p), Translate(p[1..]);
      assert !Meta(p[0]);
      NoLeadingStar(p[1..]);
      if p[0] == '*' {
        assert t == ".*" + t1 && t[1..] == "*" + t1;
        assert ("*" + t1)[1..] == t1;
        TranslationKeepsMeaning(p[1..], s);
        if s != "" {
          TranslationKeepsMeaning(p, s[1..]);
        }
      } else {
        assert FirstAtom(t) == (if p[0] == '?' then Any else Lit(p[0]), t1);
        if s != "" {
          TranslationKeepsMeaning(p[1..], s[1..]);
        }
      }
    }
  }

  /** The translation goes character by character: `*`, `?` and `.` become what stands for them, and
      every other character, parentheses and the like included, is copied in its place. */
  lemma {:induction false} TranslateIsPiecewise(p: string, c: char, q: string)
    ensures Translate(p + [c] + q) ==
            Translate(p)
            + (if c == '*' then ".*" else if c == '?' then "." else if c == '.' then "\\." else [c])
            + Translate(q)
    decreases |p|
  {
    var t := p + [c] + q;
    if p == "" {
      assert t[0] == c && t[1..] == q;
    } else {
      assert t[0] == p[0] && t[1..] == p[1..] + [c] + q;
      TranslateIsPiecewise(p[1..], c, q);
    }
  }

  lemma NoLeadingStar(p: string)
    ensures Translate(p) != "" ==> Translate(p)[0] != '*'
  {
  }

  lemma {:induction false} TranslatedLength(p: string)
    ensures |Translate(p)| == |p| + CountWide(p)
    ensures CountWide(p) <= |p|
    ensures CountWide(p) == |p| <==> forall i :: 0 <= i < |p| ==> p[i] == '*' || p[i] == '.'
  {
    if p != "" {
      TranslatedLength(p[1..]);
      assert forall i :: 1 <= i < |p| ==> p[i] == p[1..][i - 1];
    }
  }

  /** The whole operation: a plain pattern that has a wildcard keeps its meaning. */
  lemma ConvertKeepsMeaning(p: string, s: string)
    requires Plain(p) && HasWildcard(p)
    ensures RegexMatch(Convert(p), s) <==> WildMatch(p, s)
    ensures |Convert(p)| == |p| + CountWide(p)
  {
    TranslationKeepsMeaning(p, s);
    TranslatedLength(p);
  }

  lemma {:induction false} PlainRegex(p: string, s: string)
    requires Plain(p) && !HasWildcard(p) && |p| == |s|
    ensures RegexMatch(p, s) <==> forall i :: 0 <= i < |p| ==> p[i] == '.' || p[i] == s[i]
    decreases |p|
  {
    if p != "" {
      assert !Meta(p[0]) && p[0] != '*';
      assert |p| > 1 ==> p[1] != '*';
      PlainRegex(p[1..], s[1..]);
      assert forall i :: 1 <= i < |p| ==> p[i] == p[1..][i - 1] && s[i] == s[1..][i - 1];
    }
  }

  lemma {:induction false} NoWildcardIsEquality(p: string, s: string)
    requires !HasWildcard(p)
    ensures WildMatch(p, s) <==> p == s
    decreases |p|
  {
    if p != "" {
      assert p[0] != '*' && p[0] != '?';
      if s != "" {
        assert forall i :: 0 <= i < |p| - 1 ==> p[1..][i] == p[i + 1];
        NoWildcardIsEquality(p[1..], s[1..]);
        assert p == [p[0]] + p[1..] && s == [s[0]] + s[1..];
      }
    }
  }

  /** A plain pattern without wildcards is not translated, so as a regular expression it keeps its
      meaning for every string if and only if it has no dot. */
  lemma UntranslatedKeepsMeaningIffNoDot(p: string)
    requires Plain(p) && !HasWildcard(p)
    ensures (forall s :: RegexMatch(Convert(p), s) <==> WildMatch(p, s)) <==> '.' !in p
  {
    if '.' in p {
      var i :| 0 <= i < |p| && p[i] == '.';
      var s := p[i := 'x'];
      PlainRegex(p, s);
      NoWildcardIsEquality(p, s);
      assert s[i] != p[i];
      assert RegexMatch(Convert(p), s) && !WildMatch(p, s);
    } else {
      forall s ensures RegexMatch(Convert(p), s) <==> WildMatch(p, s) {
        NoWildcardIsEquality(p, s);
        if RegexMatch(p, s) {
          SameLength(p, s);
          PlainRegex(p, s);
        } else if p == s {
          PlainRegex(p, s);
        }
      }
    }
  }

  lemma {:induction false} SameLength(p: string, s: string)
    requires Plain(p) && !HasWildcard(p) && RegexMatch(p, s)
    ensures |p| == |s|
    decreases |p|
  {
    if p != "" {
      assert !Meta(p[0]) && p[0] != '*';
      assert |p| > 1 ==> p[1] != '*';
      assert forall i :: 0 <= i < |p| - 1 ==> p[1..][i] == p[i + 1];
      SameLength(p[1..], s[1..]);
    }
  }

  // ----- the two loops

  /** Fills a buffer of twice the length with two indices, and tells whether the terminator that goes
      behind the text still lies inside the buffer. */
  method ConvertPattern(p: string) returns (r: string, inside: bool)
    ensures r == Convert(p)
    ensures inside <==> (HasWildcard(p) ==> |Convert(p)| < 2 * |p|)
  {
    hide Translate, Piece;
    var i := 0;
    while i < |p| && p[i] != '*' && p[i] != '?'
      invariant i <= |p|
      invariant forall k :: 0 <= k < i ==> p[k] != '*' && p[k] != '?'
    {
      i := i + 1;
    }
    if i == |p| {
      return p, true;
    }
    var t := new char[2 * |p|](_ => '\0');
    i := 0;
    var j := 0;
    assert p[0..] == p;
    while i < |p|
      invariant i <= |p| && j <= 2 * i
      invariant t[..j] + Translate(p[i..]) == Translate(p)
      decreases |p| - i
    {
      TranslateFrom(p, i);
      ghost var before := t[..j];
      j := PutPiece(t, j, p[i]);
      assert t[..j] + Translate(p[i + 1..]) == before + (Piece(p[i]) + Translate(p[i + 1..]));
      i := i + 1;
    }
    inside := j < t.Length;
    if inside {
      t[j] := '\0';
    }
    r := t[..j];
    TranslateFrom(p, |p|);
  }

  lemma TranslateFrom(p: string, i: nat)
    requires i <= |p|
    ensures Translate(p[i..]) == if i == |p| then "" else Piece(p[i]) + Translate(p[i + 1..])
  {
    if i < |p| {
      assert p[i..][1..] == p[i + 1..];
    }
  }

  /** The switch in the loop: one or two characters go into the buffer. */
  method PutPiece(t: array<char>, j: nat, c: char) returns (j': nat)
    requires j + 2 <= t.Length
    modifies t
    ensures j < j' <= j + 2
    ensures t[..j'] == old(t[..j]) + Piece(c)
  {
    j' := j;
    if c == '?' {
      t[j'] := '.';
    } else if c == '*' {
      t[j'] := '.';
      j' := j' + 1;
      t[j'] := '*';
    } else if c == '.' {
      t[j'] := '\\';
      j' := j' + 1;
      t[j'] := '.';
    } else {
      t[j'] := c;
    }
    j' := j' + 1;
  }

  /** The translated text leaves room for its terminator in the buffer if and only if some
      character of the pattern is neither `*` nor `.`. */
  lemma TerminatorFits(p: string)
    requires HasWildcard(p)
    ensures |Convert(p)| < 2 * |p| <==> exists i :: 0 <= i < |p| && p[i] != '*' && p[i] != '.'
  {
    TranslatedLength(p);
  }

  /** It does not for a single star: the text alone fills the buffer. */
  lemma StarFillsBuffer()
    ensures HasWildcard("*") && Convert("*") == ".*" && |Convert("*")| == 2 * |"*"|
  {
    assert "*"[0] == '*';
    assert Translate("*"[1..]) == "";
  }

  /** A dot in a pattern without wildcards: as a regular expression "a.b" also matches "axb". */
  lemma DotMatchesAnything()
    ensures !HasWildcard("a.b") && RegexMatch(Convert("a.b"), "axb") && !WildMatch("a.b", "axb")
  {
    assert Plain("a.b") && !HasWildcard("a.b");
    PlainRegex("a.b", "axb");
    NoWildcardIsEquality("a.b", "axb");
    assert "a.b"[1] != "axb"[1];
  }
}
