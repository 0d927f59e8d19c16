/** The configuration file grammar and what its statements do, with no tables and no stack. */
module ConfigGrammar {
  import Browscap

  // ----- tokens, by the codes the scanner returns

  const NEWLINE := 10
  const EQUALS := 61
  const STRING := 257
  const ENCAPSULATED := 258
  const SECTION := 259
  const CFG_TRUE := 260
  const CFG_FALSE := 261
  const EXTENSION := 262

  datatype Lexeme = Lexeme(code: int, text: string)

  predicate IsString(l: Lexeme) {
    l.code == STRING || l.code == ENCAPSULATED
  }

  /** string_or_value. */
  predicate IsValue(l: Lexeme) {
    IsString(l) || l.code == CFG_TRUE || l.code == CFG_FALSE || l.code == NEWLINE
  }

  // ----- statements

  datatype Statement =
    | Assign(key: Lexeme, eq: Lexeme, value: Lexeme)
    | Bare(name: Lexeme)
    | Load(ext: Lexeme, eq: Lexeme, file: Lexeme)
    | Header(name: Lexeme)
    | Blank(nl: Lexeme)

  predicate WellFormed(s: Statement) {
    match s
    case Assign(k, e, v) => IsString(k) && e.code == EQUALS && IsValue(v)
    case Bare(n) => IsString(n)
    case Load(x, e, f) => x.code == EXTENSION && e.code == EQUALS && IsString(f)
    case Header(n) => n.code == SECTION
    case Blank(n) => n.code == NEWLINE
  }

  predicate AllWellFormed(ss: seq<Statement>) {
    forall i :: 0 <= i < |ss| ==> WellFormed(ss[i])
  }

  function Words(s: Statement): (r: seq<Lexeme>)
    ensures 1 <= |r| <= 3
  {
    match s
    case Assign(k, e, v) => [k, e, v]
    case Bare(n) => [n]
    case Load(x, e, f) => [x, e, f]
    case Header(n) => [n]
    case Blank(n) => [n]
  }

  function Sentence(ss: seq<Statement>): seq<Lexeme> {
    if ss == [] then [] else Words(ss[0]) + Sentence(ss[1..])
  }

  /** The token strings of the grammar. */
  ghost predicate Grammatical(toks: seq<Lexeme>) {
    exists ss :: AllWellFormed(ss) && Sentence(ss) == toks
  }

  /** The beginnings of token strings of the grammar. */
  ghost predicate Viable(toks: seq<Lexeme>) {
    exists more: seq<Lexeme> :: Grammatical(toks + more)
  }

  lemma {:induction false} SentenceSnoc(ss: seq<Statement>, s: Statement)
    ensures Sentence(ss + [s]) == Sentence(ss) + Words(s)
  {
    if ss == [] {
      assert [s][1..] == [];
    } else {
      assert (ss + [s])[1..] == ss[1..] + [s];
      SentenceSnoc(ss[1..], s);
    }
  }

  // ----- what stands for the start of a statement

  predicate StartsStatement(l: Lexeme) {
    IsString(l) || l.code == EXTENSION || l.code == SECTION || l.code == NEWLINE
  }

  /** What follows statements is not the `=` of an assignment to the last of them. */
  predicate NotCut(done: seq<Statement>, rest: seq<Lexeme>) {
    done != [] && rest != [] && done[|done| - 1].Bare? ==> rest[0].code != EQUALS
  }

  lemma PeelFirst(ss: seq<Statement>, done: seq<Statement>, rest: seq<Lexeme>)
    requires AllWellFormed(ss) && AllWellFormed(done) && done != [] && NotCut(done, rest)
    requires Sentence(ss) == Sentence(done) + rest
    ensures ss != [] && ss[0] == done[0] && Sentence(ss[1..]) == Sentence(done[1..]) + rest
    ensures NotCut(done[1..], rest)
  {
    hide Sentence, Words, AllWellFormed, IsString, WellFormed;
    Unfold(ss);
    Unfold(done);
    var tail := done[1..];
    Unfold(tail);
    TailWellFormed(done);
    var r := Sentence(tail) + rest;
    Assoc(Words(done[0]), Sentence(tail), rest);
    assert ss != [];
    TailWellFormed(ss);
    if tail != [] {
      FirstWord(tail);
      assert r[0] == Sentence(tail)[0];
      StartIsNotEquals(r[0]);
      assert done[|done| - 1] == tail[|tail| - 1];
    } else {
      assert r == rest;
    }
    SameFirst(ss[0], Sentence(ss[1..]), done[0], r, ss[1..]);
  }

  lemma Assoc(x: seq<Lexeme>, y: seq<Lexeme>, z: seq<Lexeme>)
    ensures x + y + z == x + (y + z)
  {
  }

  lemma StartIsNotEquals(l: Lexeme)
    requires StartsStatement(l)
    ensures l.code != EQUALS
  {
  }

  lemma TailWellFormed(ss: seq<Statement>)
    requires AllWellFormed(ss) && ss != []
    ensures WellFormed(ss[0]) && AllWellFormed(ss[1..])
  {
  }

  /** Statements read off the front of a sentence are the statements of the sentence. */
  lemma {:induction false} Peel(ss: seq<Statement>, done: seq<Statement>, rest: seq<Lexeme>)
    requires AllWellFormed(ss) && AllWellFormed(done) && NotCut(done, rest)
    requires Sentence(ss) == Sentence(done) + rest
    ensures |done| <= |ss| && ss[..|done|] == done
    ensures AllWellFormed(ss[|done|..]) && Sentence(ss[|done|..]) == rest
    decreases |done|
  {
    hide Sentence, NotCut;
    if done == [] {
      Unfold(done);
      assert ss[0..] == ss && [] + rest == rest;
    } else {
      PeelFirst(ss, done, rest);
      var ss1, done1 := ss[1..], done[1..];
      Peel(ss1, done1, rest);
      assert ss1[|done1|..] == ss[|done|..];
      assert ss[..|done|] == [ss[0]] + ss1[..|done1|] == done;
    }
  }

  /** The grammar is unambiguous. */
  lemma SentenceIsUnambiguous(ss: seq<Statement>, ss': seq<Statement>)
    requires AllWellFormed(ss) && AllWellFormed(ss') && Sentence(ss) == Sentence(ss')
    ensures ss == ss'
  {
    assert Sentence(ss') == Sentence(ss') + [];
    Peel(ss, ss', []);
    if |ss'| < |ss| {
      FirstWord(ss[|ss'|..]);
      assert false;
    }
  }

  lemma Unfold(ss: seq<Statement>)
    ensures Sentence(ss) == if ss == [] then [] else Words(ss[0]) + Sentence(ss[1..])
    ensures ss != [] ==> Sentence(ss) != []
  {
  }

  lemma FirstWord(ss: seq<Statement>)
    requires AllWellFormed(ss) && ss != []
    ensures Sentence(ss) != [] && Sentence(ss)[0] == Words(ss[0])[0] && StartsStatement(Sentence(ss)[0])
  {
    assert WellFormed(ss[0]);
  }

  /** Two ways to read the first statement agree. */
  lemma SameFirst(s: Statement, more: seq<Lexeme>, d: Statement, r: seq<Lexeme>, tail: seq<Statement>)
    requires WellFormed(s) && WellFormed(d) && AllWellFormed(tail) && more == Sentence(tail)
    requires Words(s) + more == Words(d) + r
    requires d.Bare? && r != [] ==> r[0].code != EQUALS
    ensures s == d && more == r
  {
    var w := Words(s) + more;
    assert w[0] == Words(s)[0] == Words(d)[0];
    if tail != [] {
      FirstWord(tail);
    }
    if |w| > 1 {
      assert w[1] == if |Words(s)| == 3 then Words(s)[1] else more[0];
      assert w[1] == if |Words(d)| == 3 then Words(d)[1] else r[0];
    }
    var n := |Words(s)|;
    assert n == |Words(d)|;
    assert Words(s) == w[..n] == Words(d);
    assert more == w[n..] == r;
  }

  // ----- where a statement list cannot go on

  /** The tokens of a statement that has begun, must go on, and whose key or name is known. */
  predicate Partial(p: seq<Lexeme>) {
    || p == []
    || (|p| == 1 && p[0].code == EXTENSION)
    || (|p| == 2 && (p[0].code == EXTENSION || IsString(p[0])) && p[1].code == EQUALS)
  }

  /** The tokens that may come after such a beginning. */
  predicate MayFollow(p: seq<Lexeme>, l: Lexeme)
    requires Partial(p)
  {
    if p == [] then StartsStatement(l)
    else if |p| == 1 then l.code == EQUALS
    else if IsString(p[0]) then IsValue(l)
    else IsString(l)
  }

  lemma FollowsIn(ss: seq<Statement>, p: seq<Lexeme>, l: Lexeme, more: seq<Lexeme>)
    requires AllWellFormed(ss) && Partial(p) && Sentence(ss) == p + [l] + more
    ensures MayFollow(p, l)
  {
    var w := p + [l] + more;
    assert w[|p|] == l;
    FirstWord(ss);
    assert WellFormed(ss[0]);
    if p != [] {
      var tail := ss[1..];
      if tail != [] {
        FirstWord(tail);
      }
      assert w[1] == (Words(ss[0]) + Sentence(tail))[1];
      assert |Words(ss[0])| == 3;
      assert w[..3] == Words(ss[0]);
    }
  }

  /** After complete statements and such a beginning, the input can only go on with those tokens. */
  lemma OnlyTheseFollow(done: seq<Statement>, p: seq<Lexeme>, l: Lexeme)
    requires AllWellFormed(done) && Partial(p) && !MayFollow(p, l)
    requires p == [] && done != [] && done[|done| - 1].Bare? ==> l.code != EQUALS
    ensures !Viable(Sentence(done) + p + [l])
  {
    hide Sentence;
    if Viable(Sentence(done) + p + [l]) {
      var more :| Grammatical(Sentence(done) + p + [l] + more);
      var ss :| AllWellFormed(ss) && Sentence(ss) == Sentence(done) + p + [l] + more;
      var rest := p + [l] + more;
      assert Sentence(ss) == Sentence(done) + rest;
      assert rest[0] == if p != [] then p[0] else l;
      Peel(ss, done, rest);
      FollowsIn(ss[|done|..], p, l, more);
      assert false;
    }
  }

  /** The input cannot end inside a statement. */
  lemma CannotStop(done: seq<Statement>, p: seq<Lexeme>)
    requires AllWellFormed(done) && Partial(p) && p != []
    ensures !Grammatical(Sentence(done) + p)
  {
    if Grammatical(Sentence(done) + p) {
      var ss :| AllWellFormed(ss) && Sentence(ss) == Sentence(done) + p;
      Peel(ss, done, p);
      NotPartial(ss[|done|..]);
      assert false;
    }
  }

  lemma NotPartial(ss: seq<Statement>)
    requires AllWellFormed(ss) && ss != []
    ensures !Partial(Sentence(ss))
  {
    var w := Sentence(ss);
    assert WellFormed(ss[0]);
    assert w == Words(ss[0]) + Sentence(ss[1..]);
    if |w| == 2 {
      assert WellFormed(ss[1]);
      assert w[1] == Words(ss[1])[0];
    }
  }

  /** Complete statements followed by such a beginning can always be completed. */
  lemma CanGoOn(done: seq<Statement>, p: seq<Lexeme>)
    requires AllWellFormed(done) && Partial(p)
    ensures Viable(Sentence(done) + p)
  {
    var eq, str := Lexeme(EQUALS, ""), Lexeme(STRING, "");
    if p == [] {
      assert Grammatical(Sentence(done) + p + []) by {
        assert Sentence(done) == Sentence(done) + p + [];
      }
    } else {
      var s := if IsString(p[0]) then Assign(p[0], p[1], str) else Load(p[0], if |p| == 2 then p[1] else eq, str);
      var more := if |p| == 2 then [str] else [eq, str];
      SentenceSnoc(done, s);
      assert Words(s) == p + more;
      assert Sentence(done + [s]) == Sentence(done) + p + more;
      assert Grammatical(Sentence(done) + p + more);
    }
  }

  // ----- what the statements do

  datatype Entry = Text(s: string) | Fields(fields: map<string, string>)

  /** The hash being filled, the section it is in (browscap mode), and the extensions asked for. */
  datatype Conf = Conf(browscap: bool, hash: map<string, Entry>, section: string, loads: seq<string>)

  function LowerChar(c: char): char {
    if 'A' <= c <= 'Z' then c - 'A' + 'a' else c
  }

  function Lower(s: string): string {
    seq(|s|, i requires 0 <= i < |s| => LowerChar(s[i]))
  }

  /** The text an assigned value stands for: nothing, if the line ends there. */
  function ValueText(v: Lexeme): string {
    if v.code == NEWLINE then "" else v.text
  }

  function SetField(c: Conf, key: string, value: string): Conf {
    if c.section in c.hash && c.hash[c.section].Fields? then
      c.(hash := c.hash[c.section := Fields(c.hash[c.section].fields[key := value])])
    else c
  }

  function OpenSection(c: Conf, name: string): Conf {
    c.(hash := c.hash[name := Fields(map["browser_name_pattern" := Browscap.Convert(name)])], section := name)
  }

  function Apply(c: Conf, s: Statement): Conf {
    match s
    case Assign(k, _, v) =>
      if c.browscap then SetField(c, Lower(k.text), ValueText(v))
      else c.(hash := c.hash[k.text := Text(ValueText(v))])
    case Load(_, _, f) => c.(loads := c.loads + [f.text])
    case Header(n) => if c.browscap then OpenSection(c, n.text) else c
    case _ => c
  }

  /** The statements one after the other. */
  function Fold(c: Conf, ss: seq<Statement>): Conf
    decreases |ss|
  {
    if ss == [] then c else Fold(Apply(c, ss[0]), ss[1..])
  }

  lemma {:induction false} FoldSnoc(c: Conf, ss: seq<Statement>, s: Statement)
    ensures Fold(c, ss + [s]) == Apply(Fold(c, ss), s)
    decreases |ss|
  {
    if ss == [] {
      assert [s][1..] == [];
    } else {
      assert (ss + [s])[1..] == ss[1..] + [s];
      FoldSnoc(Apply(c, ss[0]), ss[1..], s);
    }
  }

  predicate Assigns(s: Statement, key: string) {
    s.Assign? && s.key.text == key
  }

  predicate Unassigned(ss: seq<Statement>, key: string) {
    forall i :: 0 <= i < |ss| ==> !Assigns(ss[i], key)
  }

  /** The value of a name, if it has one. */
  function Lookup(c: Conf, key: string): seq<Entry> {
    if key in c.hash then [c.hash[key]] else []
  }

  lemma {:induction false} UnassignedKeeps(c: Conf, ss: seq<Statement>, key: string)
    requires !c.browscap && Unassigned(ss, key)
    ensures Lookup(Fold(c, ss), key) == Lookup(c, key)
    decreases |ss|
  {
    if ss != [] {
      assert !Assigns(ss[0], key);
      UnassignedKeeps(Apply(c, ss[0]), ss[1..], key);
    }
  }

  /** In a configuration file the last assignment to a name wins, whatever the other statements; a line
      that ends behind the `=` assigns nothing. */
  lemma {:induction false} LastAssignmentWins(c: Conf, before: seq<Statement>, s: Statement, after: seq<Statement>)
    requires !c.browscap && s.Assign? && Unassigned(after, s.key.text)
    ensures Lookup(Fold(c, before + [s] + after), s.key.text) ==
            [Text(if s.value.code == 10 then "" else s.value.text)]
    decreases |before|
  {
    var ss := before + [s] + after;
    if before == [] {
      assert ss[1..] == after;
      UnassignedKeeps(Apply(c, s), after, s.key.text);
    } else {
      assert ss[1..] == before[1..] + [s] + after;
      LastAssignmentWins(Apply(c, before[0]), before[1..], s, after);
    }
  }
}
