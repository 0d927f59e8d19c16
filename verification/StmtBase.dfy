/** How the run of the machine over a statement is described. */
module StmtBase {
  import opened Values
  import opened Syntax
  import opened Machine
  import opened Semantics
  import opened Walk
  import opened ExprProof
  import opened Frames

  // ----- before

  /** A pending break or continue names a loop around the code being parsed. */
  predicate Inert(c: Ctl) {
    c.change != DO_NOTHING ==> c.level <= c.nest
  }

  /** The machine is about to parse nt. The entry on top of for_stack, if any, belongs to a
      loop that started earlier in the token stream. */
  predicate Begins(w: World, s0: M, n: nat, m: M, nt: Nt) {
    && Reached(w, s0, n, m, N(nt))
    && Settled(m.c) && Inert(m.c) && 0 <= m.c.nest
    && IntTop(m.c.fors) < m.pos
  }

  /** The token after a statement does not make it go on. */
  predicate Follows(toks: seq<Token>, i: nat, s: Stmt) {
    && i < |toks|
    && toks[i].kind !in {CONTINUED_WHILE, CONTINUED_DOWHILE, CONTINUED_FOR}
    && (EndsOpen(s) ==> toks[i].kind != ELSE && toks[i].kind != ELSEIF)
  }

  /** The token after a statement list closes it. */
  predicate EndsList(toks: seq<Token>, i: nat) {
    i < |toks| && toks[i].kind in {RBRACE, CASE, DEFAULT, END}
  }

  // ----- after

  /** The control globals after code that ended with `out`. Code that is skipped changes
      nothing at all. A level may be left behind by a switch that has ended. */
  predicate CtlAfter(c: Ctl, c': Ctl, out: Outcome) {
    if !c.exec then c' == c
    else
      match out
      case Normal => c' == c.(level := c'.level)
      case Jumped(op, k) =>
        1 <= k <= c.nest && c' == c.(exec := false, change := ChangeOf(op), level := c.nest - k + 1)
      case Returned(v) =>
        && c' == c.(exec := false, returned := true, result := v, flag := c'.flag, level := c'.level)
        && (c'.flag == EXECUTE || c'.flag == DONT_EXECUTE)
      case Fatal => false
  }

  /** The parser has gone past len tokens and left one value on top of r. */
  ghost predicate After(m: M, m': M, r: Stack<Cell>, len: nat, out: Outcome, store: Store) {
    && m'.status == Running && m.work.Push? && m'.work == m.work.rest && m'.pos == m.pos + len
    && m'.vs.Push? && m'.vs.rest == r
    && m'.store == store
    && Framed(m.toks, m'.toks, m.pos, m.pos + len)
    && CtlAfter(m.c, m'.c, out)
  }

  /** The run from m, reached after n steps, to m', reached after n', has result res. */
  ghost predicate Ends(m: M, n: nat, m': M, n': nat, r: Stack<Cell>, len: nat, res: Res, fuel: nat) {
    match res
    case Timeout => n' >= n + fuel && !Done(m')
    case Res(out, store) =>
      if out == Fatal then m'.status == Failed && m'.store == store
      else n' > n && After(m, m', r, len, out, store)
  }

  predicate Completes(res: Res) {
    res.Res? && res.out != Fatal
  }

  // ----- frames

  lemma FrameTrans(t: seq<Token>, u: seq<Token>, v: seq<Token>, a1: nat, b1: nat, a2: nat, b2: nat, lo: nat, hi: nat)
    requires Framed(t, u, a1, b1) && Framed(u, v, a2, b2)
    requires lo <= a1 && b1 <= hi && lo <= a2 && b2 <= hi
    ensures Framed(t, v, lo, hi)
  {
    forall i {:trigger t[i]} {:trigger v[i]} | 0 <= i < |t| && !(lo <= i < hi) ensures v[i] == t[i] {
      assert u[i] == t[i];
    }
  }

  lemma FrameWiden(t: seq<Token>, u: seq<Token>, a: nat, b: nat, lo: nat, hi: nat)
    requires Framed(t, u, a, b) && lo <= a && b <= hi
    ensures Framed(t, u, lo, hi)
  {
  }

  lemma FrameTok(t: seq<Token>, u: seq<Token>, a: nat, b: nat, i: nat)
    requires Framed(t, u, a, b) && i < |t| && !(a <= i < b)
    ensures |u| == |t| && u[i] == t[i]
  {
  }

  /** A stretch that the frame does not touch, and that lies inside the cache. */
  lemma FrameSame(t: seq<Token>, u: seq<Token>, a: nat, b: nat, x: nat, len: nat)
    requires Framed(t, u, a, b) && x + len <= |t| && (x + len <= a || b <= x)
    ensures Same(t, x, u, x, len)
  {
    forall i {:trigger t[i]} | x <= i < x + len ensures u[i - x + x] == t[i] {
      assert i - x + x == i;
    }
  }

  lemma KeepE(t: seq<Token>, u: seq<Token>, a: nat, b: nat, x: nat, e: Expr)
    requires Framed(t, u, a, b) && SpellsE(t, x, e) && x + LenE(e) <= |t| && (x + LenE(e) <= a || b <= x)
    ensures SpellsE(u, x, e)
  {
    hide Framed, Same, SpellsE, LenE;
    FrameSame(t, u, a, b, x, LenE(e));
    MoveE(t, x, u, x, e);
  }

  lemma KeepS(t: seq<Token>, u: seq<Token>, a: nat, b: nat, x: nat, s: Stmt)
    requires Framed(t, u, a, b) && Spells(t, x, s) && x + Len(s) <= |t| && (x + Len(s) <= a || b <= x)
    ensures Spells(u, x, s)
  {
    hide Framed, Same, Spells, Len;
    FrameSame(t, u, a, b, x, Len(s));
    MoveS(t, x, u, x, s);
  }

  lemma KeepSS(t: seq<Token>, u: seq<Token>, a: nat, b: nat, x: nat, ss: Stmts)
    requires Framed(t, u, a, b) && SpellsSS(t, x, ss) && x + LenSS(ss) <= |t| && (x + LenSS(ss) <= a || b <= x)
    ensures SpellsSS(u, x, ss)
  {
    hide Framed, Same, SpellsSS, LenSS;
    FrameSame(t, u, a, b, x, LenSS(ss));
    MoveSS(t, x, u, x, ss);
  }

  lemma KeepElifs(t: seq<Token>, u: seq<Token>, a: nat, b: nat, x: nat, el: Elifs)
    requires Framed(t, u, a, b) && SpellsElifs(t, x, el)
    requires x + LenElifs(el) <= |t| && (x + LenElifs(el) <= a || b <= x)
    ensures SpellsElifs(u, x, el)
  {
    hide Framed, Same, SpellsElifs, LenElifs;
    FrameSame(t, u, a, b, x, LenElifs(el));
    MoveElifs(t, x, u, x, el);
  }

  lemma KeepCases(t: seq<Token>, u: seq<Token>, a: nat, b: nat, x: nat, cs: Cases)
    requires Framed(t, u, a, b) && SpellsCases(t, x, cs)
    requires x + LenCases(cs) <= |t| && (x + LenCases(cs) <= a || b <= x)
    ensures SpellsCases(u, x, cs)
  {
    hide Framed, Same, SpellsCases, LenCases;
    FrameSame(t, u, a, b, x, LenCases(cs));
    MoveCases(t, x, u, x, cs);
  }

  // ----- first tokens

  /** The first token of a statement starts a statement and does not continue another. */
  lemma FirstToken(t: seq<Token>, a: nat, s: Stmt)
    requires Spells(t, a, s)
    ensures a < |t| && StartsStatement(t[a].kind)
    ensures forall s' :: Follows(t, a, s')
  {
    hide SpellsE, SpellsSS, SpellsElifs, SpellsCases, SpellsWhileRest, SpellsDoRest, SpellsForRest, EndsOpen;
    if s.Run? {
      FirstTokenE(t, a, s.expr);
    }
  }

  // ----- one stretch of code after another

  /** Code that ended with out1, then code that ended with out2, or was skipped. */
  lemma CtlThen(c: Ctl, c1: Ctl, c2: Ctl, out1: Outcome, out2: Outcome)
    requires Settled(c) && CtlAfter(c, c1, out1) && CtlAfter(c1, c2, out2)
    requires !c1.exec ==> out2 == Normal
    ensures Settled(c1) && c1.css == c.css && c1.fors == c.fors && c1.switches == c.switches && c1.nest == c.nest
    ensures c1.exec <==> c.exec && out1 == Normal
    ensures CtlAfter(c, c2, if c1.exec then out2 else out1)
  {
  }

  /** What code that has ended leaves the machine fit for. */
  lemma CtlKept(c: Ctl, c': Ctl, out: Outcome)
    requires Settled(c) && Inert(c) && CtlAfter(c, c', out)
    ensures Settled(c') && Inert(c')
    ensures c'.css == c.css && c'.fors == c.fors && c'.switches == c.switches && c'.nest == c.nest
    ensures c'.exec <==> c.exec && out == Normal
  {
  }
}
