/** What configuration and browser files leave behind, stated without the functions that do it. */
module ConfigEffects {
  import Browscap
  import opened ConfigGrammar

  lemma {:induction false} FoldAppend(c: Conf, xs: seq<Statement>, ys: seq<Statement>)
    ensures Fold(c, xs + ys) == Fold(Fold(c, xs), ys)
    decreases |xs|
  {
    if xs == [] {
      assert xs + ys == ys;
    } else {
      assert (xs + ys)[1..] == xs[1..] + ys;
      FoldAppend(Apply(c, xs[0]), xs[1..], ys);
    }
  }

  // ----- extensions

  /** The files of the extensions a list of statements asks for. */
  function LoadTexts(ss: seq<Statement>): seq<string> {
    if ss == [] then [] else (if ss[0].Load? then [ss[0].file.text] else []) + LoadTexts(ss[1..])
  }

  /** In either kind of file the extensions are asked for in order, and nothing else is. */
  lemma {:induction false} LoadsInOrder(c: Conf, ss: seq<Statement>)
    ensures Fold(c, ss).loads == c.loads + LoadTexts(ss) && Fold(c, ss).browscap == c.browscap
    decreases |ss|
  {
    hide Apply;
    if ss != [] {
      var first := if ss[0].Load? then [ss[0].file.text] else [];
      OneLoad(c, ss[0]);
      LoadsInOrder(Apply(c, ss[0]), ss[1..]);
      assert c.loads + first + LoadTexts(ss[1..]) == c.loads + (first + LoadTexts(ss[1..]));
    }
  }

  lemma OneLoad(c: Conf, s: Statement)
    ensures Apply(c, s).loads == c.loads + (if s.Load? then [s.file.text] else []) && Apply(c, s).browscap == c.browscap
  {
  }

  // ----- the case of letters

  predicate Upper(c: char) { 'A' <= c <= 'Z' }

  predicate Letter(c: char) { 'a' <= c <= 'z' || Upper(c) }

  /** The same character, or the two cases of one letter. */
  predicate SameChar(c: char, d: char) {
    c == d || (Letter(c) && Letter(d) && ((c as int) - (d as int) == 32 || (d as int) - (c as int) == 32))
  }

  predicate SameWord(s: string, t: string) {
    |s| == |t| && forall i :: 0 <= i < |s| ==> SameChar(s[i], t[i])
  }

  predicate NoUpper(s: string) {
    forall i :: 0 <= i < |s| ==> !Upper(s[i])
  }

  /** Lower-casing gives the one spelling of the word that has no capital. */
  lemma {:induction false} LowerIs(s: string, t: string)
    ensures NoUpper(Lower(s)) && SameWord(s, Lower(s))
    ensures NoUpper(t) ==> (Lower(s) == t <==> SameWord(s, t))
  {
    if NoUpper(t) && SameWord(s, t) {
      forall i | 0 <= i < |s| ensures Lower(s)[i] == t[i] {
        assert SameChar(s[i], t[i]) && !Upper(t[i]);
      }
      assert Lower(s) == t;
    }
  }

  // ----- browser files

  /** In the section n of a browser file. */
  predicate InSection(c: Conf, n: string) {
    c.browscap && c.section == n && n in c.hash && c.hash[n].Fields?
  }

  predicate NoHeader(ss: seq<Statement>) {
    forall i :: 0 <= i < |ss| ==> !ss[i].Header?
  }

  /** The statement assigns the field k: one without capitals, whatever the case of the statement. */
  predicate AssignsField(s: Statement, k: string) {
    s.Assign? && NoUpper(k) && SameWord(s.key.text, k)
  }

  predicate FieldUnassigned(ss: seq<Statement>, k: string) {
    forall i :: 0 <= i < |ss| ==> !AssignsField(ss[i], k)
  }

  /** The value of a field of a section, if it has one. */
  function Field(c: Conf, n: string, k: string): seq<string> {
    if n in c.hash && c.hash[n].Fields? && k in c.hash[n].fields then [c.hash[n].fields[k]] else []
  }

  /** The text of a value: what is written, or nothing if the line ends there. */
  function Written(v: Lexeme): string {
    if v.code == 10 then "" else v.text
  }

  lemma {:induction false} OneStatement(c: Conf, n: string, s: Statement, k: string, m: string)
    requires InSection(c, n) && !s.Header?
    ensures InSection(Apply(c, s), n)
    ensures Field(Apply(c, s), n, k) == if AssignsField(s, k) then [Written(s.value)] else Field(c, n, k)
    ensures m != n ==> Lookup(Apply(c, s), m) == Lookup(c, m)
  {
    if s.Assign? {
      LowerIs(s.key.text, k);
    }
  }

  lemma {:induction false} SectionKeeps(c: Conf, n: string, ss: seq<Statement>, k: string)
    requires InSection(c, n) && NoHeader(ss)
    ensures InSection(Fold(c, ss), n)
    ensures FieldUnassigned(ss, k) ==> Field(Fold(c, ss), n, k) == Field(c, n, k)
    ensures forall m :: m != n ==> Lookup(Fold(c, ss), m) == Lookup(c, m)
    decreases |ss|
  {
    if ss != [] {
      OneStatement(c, n, ss[0], k, "");
      assert FieldUnassigned(ss, k) ==> !AssignsField(ss[0], k) && FieldUnassigned(ss[1..], k);
      SectionKeeps(Apply(c, ss[0]), n, ss[1..], k);
      forall m | m != n ensures Lookup(Fold(c, ss), m) == Lookup(c, m) {
        OneStatement(c, n, ss[0], k, m);
      }
    }
  }

  /** A header opens a section that holds nothing but the pattern its name stands for; the other
      sections stay. */
  lemma {:induction false} HeaderOpens(c: Conf, h: Statement, k: string)
    requires c.browscap && h.Header?
    ensures var n := h.name.text;
            && InSection(Apply(c, h), n)
            && Field(Apply(c, h), n, k) == (if k == "browser_name_pattern" then [Browscap.Convert(n)] else [])
            && (forall m :: m != n ==> Lookup(Apply(c, h), m) == Lookup(c, m))
  {
  }

  /** A section of a browser file: a field that is assigned has the value of its last assignment. */
  lemma {:induction false} SectionHolds(c: Conf, h: Statement, before: seq<Statement>, s: Statement,
                                        after: seq<Statement>, k: string)
    requires c.browscap && h.Header? && NoHeader(before) && NoHeader(after)
    requires AssignsField(s, k) && FieldUnassigned(after, k)
    ensures Field(Fold(c, [h] + before + [s] + after), h.name.text, k) == [Written(s.value)]
  {
    hide Fold, Field, InSection;
    var n := h.name.text;
    assert [h] + before + [s] + after == [h] + (before + ([s] + after));
    FoldAppend(c, [h], before + ([s] + after));
    FoldAppend(Fold(c, [h]), before, [s] + after);
    HeaderOpens(c, h, k);
    FoldOne(c, h);
    SectionKeeps(Apply(c, h), n, before, k);
    var c2 := Fold(Apply(c, h), before);
    FoldAppend(c2, [s], after);
    FoldOne(c2, s);
    OneStatement(c2, n, s, k, "");
    SectionKeeps(Apply(c2, s), n, after, k);
  }

  /** One that is not has none, but for the pattern, and the other sections are as they were. */
  lemma {:induction false} SectionHoldsNothingElse(c: Conf, h: Statement, ss: seq<Statement>, k: string, m: string)
    requires c.browscap && h.Header? && NoHeader(ss)
    ensures var n, c' := h.name.text, Fold(c, [h] + ss);
            && c'.section == n
            && (FieldUnassigned(ss, k) ==>
                  Field(c', n, k) == if k == "browser_name_pattern" then [Browscap.Convert(n)] else [])
            && (m != n ==> Lookup(c', m) == Lookup(c, m))
  {
    hide Fold;
    FoldAppend(c, [h], ss);
    FoldOne(c, h);
    HeaderOpens(c, h, k);
    SectionKeeps(Apply(c, h), h.name.text, ss, k);
  }

  lemma FoldOne(c: Conf, s: Statement)
    ensures Fold(c, [s]) == Apply(c, s)
  {
    assert [s][1..] == [];
  }
}
