/** Every statement is spelled by some tokens, so the results about caches that spell a
    statement speak about every statement. */
module Spelling {
  import opened Syntax

  function Tok(k: Kind): Token { Token(k, 0, false) }

  // ----- the tokens

  function ToksE(e: Expr): (t: seq<Token>)
    ensures |t| == LenE(e)
    decreases e, 0
  {
    match e
    case Leaf(id) => [Token(LEAF, id, false)]
    case Or(l, r) => ToksP(l) + [Tok(OROR)] + ToksP(r)
    case And(l, r) => ToksP(l) + [Tok(ANDAND)] + ToksP(r)
    case Cond(c, y, n) => ToksP(c) + [Tok(QMARK)] + ToksP(y) + [Tok(COLON)] + ToksP(n)
  }

  function ToksP(e: Expr): (t: seq<Token>)
    ensures |t| == LenP(e)
    decreases e, 1
  {
    if e.Leaf? then [Token(LEAF, e.id, false)] else [Tok(LPAREN)] + ToksE(e) + [Tok(RPAREN)]
  }

  function ToksX(xs: Exprs): (t: seq<Token>)
    ensures |t| == LenX(xs)
  {
    match xs
    case NoExprs => []
    case MoreExprs(e, tl) => ToksE(e) + ToksXMore(tl)
  }

  function ToksXMore(xs: Exprs): (t: seq<Token>)
    ensures |t| == LenXMore(xs)
  {
    match xs
    case NoExprs => []
    case MoreExprs(e, tl) => [Tok(COMMA)] + ToksE(e) + ToksXMore(tl)
  }

  function ToksO(o: OptExpr): (t: seq<Token>)
    ensures |t| == LenO(o)
  {
    match o
    case NoExpr => []
    case SomeExpr(e) => ToksE(e)
  }

  function Toks(s: Stmt): (t: seq<Token>)
    ensures |t| == Len(s)
  {
    match s
    case Empty => [Tok(SEMI)]
    case Run(e) => ToksE(e) + [Tok(SEMI)]
    case Block(ss) => [Tok(LBRACE)] + ToksSS(ss) + [Tok(RBRACE)]
    case If(c, thn, rest) => [Tok(IF), Tok(LPAREN)] + ToksE(c) + [Tok(RPAREN)] + Toks(thn) + ToksElifs(rest)
    case While(c, body) => [Tok(WHILE), Tok(LPAREN)] + ToksE(c) + [Tok(RPAREN)] + Toks(body)
    case DoWhile(body, c) =>
      [Tok(DO)] + Toks(body) + [Tok(WHILE), Tok(LPAREN)] + ToksE(c) + [Tok(RPAREN), Tok(SEMI)]
    case For(init, cond, inc, body) =>
      [Tok(FOR), Tok(LPAREN)] + ToksX(init) + [Tok(SEMI)] + ToksX(cond) + [Tok(SEMI)] + ToksX(inc) + [Tok(RPAREN)] +
          Toks(body)
    case Switch(e, cases) =>
      [Tok(SWITCH), Tok(LPAREN)] + ToksE(e) + [Tok(RPAREN), Tok(LBRACE)] + ToksCases(cases) + [Tok(RBRACE)]
    case Jump(op, o) => [Tok(JumpKind(op))] + ToksO(o) + [Tok(SEMI)]
    case Return(o) => [Tok(RETURN)] + ToksO(o) + [Tok(SEMI)]
  }

  function ToksSS(ss: Stmts): (t: seq<Token>)
    ensures |t| == LenSS(ss)
  {
    match ss
    case NoStmts => []
    case MoreStmts(s, tl) => Toks(s) + ToksSS(tl)
  }

  function ToksElifs(el: Elifs): (t: seq<Token>)
    ensures |t| == LenElifs(el)
  {
    match el
    case NoElse => []
    case ElsePart(body) => [Tok(ELSE)] + Toks(body)
    case Elif(c, body, tl) => [Tok(ELSEIF), Tok(LPAREN)] + ToksE(c) + [Tok(RPAREN)] + Toks(body) + ToksElifs(tl)
  }

  function ToksCases(cs: Cases): (t: seq<Token>)
    ensures |t| == LenCases(cs)
  {
    match cs
    case NoCases => []
    case Case(e, body, tl) => [Tok(CASE)] + ToksE(e) + [Tok(COLON)] + ToksSS(body) + ToksCases(tl)
    case Default(body) => [Tok(DEFAULT), Tok(COLON)] + ToksSS(body)
  }

  // ----- they spell what they are made from

  lemma {:induction false} SpelledE(a: seq<Token>, e: Expr, b: seq<Token>)
    ensures SpellsE(a + ToksE(e) + b, |a|, e)
    decreases e, 1
  {
    hide ToksP, SpellsP, LenP;
    var t := a + ToksE(e) + b;
    match e
    case Leaf(_) =>
    case Or(l, r) =>
      assert t == (a) + ToksP(l) + ([Tok(OROR)] + ToksP(r) + b);
      SpelledP(a, l, [Tok(OROR)] + ToksP(r) + b);
      assert t == (a + ToksP(l) + [Tok(OROR)]) + ToksP(r) + (b);
      SpelledP(a + ToksP(l) + [Tok(OROR)], r, b);
    case And(l, r) =>
      assert t == (a) + ToksP(l) + ([Tok(ANDAND)] + ToksP(r) + b);
      SpelledP(a, l, [Tok(ANDAND)] + ToksP(r) + b);
      assert t == (a + ToksP(l) + [Tok(ANDAND)]) + ToksP(r) + (b);
      SpelledP(a + ToksP(l) + [Tok(ANDAND)], r, b);
    case Cond(_, _, _) => SpelledCond(a, e, b);
  }

  lemma {:induction false} SpelledCond(a: seq<Token>, e: Expr, b: seq<Token>)
    requires e.Cond?
    ensures SpellsE(a + ToksE(e) + b, |a|, e)
    decreases e, 0
  {
    hide ToksP, SpellsP, LenP;
    var c, y, n := ToksP(e.test), ToksP(e.yes), ToksP(e.no);
    var a2 := a + c + [Tok(QMARK)];
    SpelledP(a, e.test, [Tok(QMARK)] + y + ([Tok(COLON)] + n + b));
    SpelledP(a2, e.yes, [Tok(COLON)] + n + b);
    SpelledP(a2 + y + [Tok(COLON)], e.no, b);
    CondCuts(a, c, y, n, b);
  }

  lemma CondCuts(a: seq<Token>, c: seq<Token>, y: seq<Token>, n: seq<Token>, b: seq<Token>)
    ensures var a2, b2 := a + c + [Tok(QMARK)], [Tok(COLON)] + n + b;
            var t := a + (c + [Tok(QMARK)] + y + [Tok(COLON)] + n) + b;
            t == a + c + ([Tok(QMARK)] + y + b2) && t == a2 + y + b2 && t == a2 + y + [Tok(COLON)] + n + b
            && t[|a| + |c|] == Tok(QMARK) && t[|a2| + |y|] == Tok(COLON)
  {
    Recut(a, c, Tok(QMARK), y, [Tok(COLON)] + n + b);
    Recut(a + c + [Tok(QMARK)], y, Tok(COLON), n, b);
  }

  lemma {:induction false} SpelledP(a: seq<Token>, e: Expr, b: seq<Token>)
    ensures SpellsP(a + ToksP(e) + b, |a|, e)
    decreases e, 2
  {
    hide ToksE, SpellsE, LenE;
    var t := a + ToksP(e) + b;
    if !e.Leaf? {
      assert t == (a + [Tok(LPAREN)]) + ToksE(e) + ([Tok(RPAREN)] + b);
      SpelledE(a + [Tok(LPAREN)], e, [Tok(RPAREN)] + b);
    }
  }

  lemma {:induction false} SpelledX(a: seq<Token>, xs: Exprs, b: seq<Token>)
    ensures SpellsX(a + ToksX(xs) + b, |a|, xs)
  {
    hide ToksE, SpellsE, LenE, ToksXMore, SpellsXMore, LenXMore;
    var t := a + ToksX(xs) + b;
    if xs.MoreExprs? {
      assert t == (a) + ToksE(xs.head) + (ToksXMore(xs.tail) + b);
      SpelledE(a, xs.head, ToksXMore(xs.tail) + b);
      assert t == (a + ToksE(xs.head)) + ToksXMore(xs.tail) + (b);
      SpelledXMore(a + ToksE(xs.head), xs.tail, b);
    }
  }

  lemma {:induction false} SpelledXMore(a: seq<Token>, xs: Exprs, b: seq<Token>)
    ensures SpellsXMore(a + ToksXMore(xs) + b, |a|, xs)
    decreases xs
  {
    hide ToksE, SpellsE, LenE;
    var t := a + ToksXMore(xs) + b;
    if xs.MoreExprs? {
      assert t == (a + [Tok(COMMA)]) + ToksE(xs.head) + (ToksXMore(xs.tail) + b);
      SpelledE(a + [Tok(COMMA)], xs.head, ToksXMore(xs.tail) + b);
      assert t == (a + [Tok(COMMA)] + ToksE(xs.head)) + ToksXMore(xs.tail) + (b);
      SpelledXMore(a + [Tok(COMMA)] + ToksE(xs.head), xs.tail, b);
    }
  }

  lemma {:induction false} SpelledRun(a: seq<Token>, s: Stmt, b: seq<Token>)
    requires s.Run?
    ensures Spells(a + Toks(s) + b, |a|, s)
    decreases s, 0
  {
    hide ToksE, SpellsE, LenE, ToksX, SpellsX, LenX, ToksSS, SpellsSS, LenSS, ToksElifs, SpellsElifs, LenElifs,
      ToksCases, SpellsCases, LenCases;
    var t := a + Toks(s) + b;
    assert t == (a) + ToksE(s.expr) + ([Tok(SEMI)] + b);
    SpelledE(a, s.expr, [Tok(SEMI)] + b);
  }

  lemma {:induction false} SpelledBlock(a: seq<Token>, s: Stmt, b: seq<Token>)
    requires s.Block?
    ensures Spells(a + Toks(s) + b, |a|, s)
    decreases s, 0
  {
    hide ToksE, SpellsE, LenE, ToksX, SpellsX, LenX, ToksSS, SpellsSS, LenSS, ToksElifs, SpellsElifs, LenElifs,
      ToksCases, SpellsCases, LenCases;
    var t := a + Toks(s) + b;
    assert t == (a + [Tok(LBRACE)]) + ToksSS(s.stmts) + ([Tok(RBRACE)] + b);
    SpelledSS(a + [Tok(LBRACE)], s.stmts, [Tok(RBRACE)] + b);
  }

  lemma {:induction false} SpelledIf(a: seq<Token>, s: Stmt, b: seq<Token>)
    requires s.If?
    ensures Spells(a + Toks(s) + b, |a|, s)
    decreases s, 0
  {
    hide ToksE, SpellsE, LenE, ToksX, SpellsX, LenX, ToksSS, SpellsSS, LenSS, ToksElifs, SpellsElifs, LenElifs,
      ToksCases, SpellsCases, LenCases;
    var a1, b2 := a + [Tok(IF), Tok(LPAREN)], ToksElifs(s.rest) + b;
    var a2 := a1 + ToksE(s.test) + [Tok(RPAREN)];
    SpelledE(a1, s.test, [Tok(RPAREN)] + Toks(s.thn) + b2);
    Spelled(a2, s.thn, b2);
    SpelledElifs(a2 + Toks(s.thn), s.rest, b);
    IfCuts(a, ToksE(s.test), Toks(s.thn), ToksElifs(s.rest), b);
  }

  lemma IfCuts(a: seq<Token>, x: seq<Token>, y: seq<Token>, z: seq<Token>, b: seq<Token>)
    ensures var a1, b2 := a + [Tok(IF), Tok(LPAREN)], z + b;
            var a2 := a1 + x + [Tok(RPAREN)];
            var t := a + ([Tok(IF), Tok(LPAREN)] + x + [Tok(RPAREN)] + y + z) + b;
            t == a1 + x + ([Tok(RPAREN)] + y + b2) && t == a2 + y + b2 && t == a2 + y + z + b
            && t[|a|] == Tok(IF) && t[|a| + 1] == Tok(LPAREN) && t[|a1| + |x|] == Tok(RPAREN)
  {
    var a1, b2 := a + [Tok(IF), Tok(LPAREN)], z + b;
    Recut(a1, x, Tok(RPAREN), y, b2);
    Join(a1 + x + [Tok(RPAREN)], y, z, b);
  }

  lemma {:induction false} SpelledWhile(a: seq<Token>, s: Stmt, b: seq<Token>)
    requires s.While?
    ensures Spells(a + Toks(s) + b, |a|, s)
    decreases s, 0
  {
    hide ToksE, SpellsE, LenE, ToksX, SpellsX, LenX, ToksSS, SpellsSS, LenSS, ToksElifs, SpellsElifs, LenElifs,
      ToksCases, SpellsCases, LenCases;
    var t := a + Toks(s) + b;
    assert t == (a + [Tok(WHILE), Tok(LPAREN)]) + ToksE(s.test) + ([Tok(RPAREN)] + Toks(s.body) + b);
    SpelledE(a + [Tok(WHILE), Tok(LPAREN)], s.test, [Tok(RPAREN)] + Toks(s.body) + b);
    assert t == (a + [Tok(WHILE), Tok(LPAREN)] + ToksE(s.test) + [Tok(RPAREN)]) + Toks(s.body) + (b);
    Spelled(a + [Tok(WHILE), Tok(LPAREN)] + ToksE(s.test) + [Tok(RPAREN)], s.body, b);
  }

  lemma {:induction false} SpelledDo(a: seq<Token>, s: Stmt, b: seq<Token>)
    requires s.DoWhile?
    ensures Spells(a + Toks(s) + b, |a|, s)
    decreases s, 0
  {
    hide ToksE, SpellsE, LenE, ToksX, SpellsX, LenX, ToksSS, SpellsSS, LenSS, ToksElifs, SpellsElifs, LenElifs,
      ToksCases, SpellsCases, LenCases;
    var a1, b2 := a + [Tok(DO)], [Tok(RPAREN), Tok(SEMI)] + b;
    Spelled(a1, s.body, [Tok(WHILE), Tok(LPAREN)] + ToksE(s.test) + b2);
    SpelledE(a1 + Toks(s.body) + [Tok(WHILE), Tok(LPAREN)], s.test, b2);
    DoCuts(a, Toks(s.body), ToksE(s.test), b);
  }

  lemma DoCuts(a: seq<Token>, x: seq<Token>, y: seq<Token>, b: seq<Token>)
    ensures var a1, b2 := a + [Tok(DO)], [Tok(RPAREN), Tok(SEMI)] + b;
            var a2 := a1 + x + [Tok(WHILE), Tok(LPAREN)];
            var t := a + ([Tok(DO)] + x + [Tok(WHILE), Tok(LPAREN)] + y + [Tok(RPAREN), Tok(SEMI)]) + b;
            t == a1 + x + ([Tok(WHILE), Tok(LPAREN)] + y + b2) && t == a2 + y + b2
            && t[|a|] == Tok(DO) && t[|a1| + |x|] == Tok(WHILE) && t[|a1| + |x| + 1] == Tok(LPAREN)
            && t[|a2| + |y|] == Tok(RPAREN) && t[|a2| + |y| + 1] == Tok(SEMI)
  {
  }

  function ToksForHead(x1: Exprs, x2: Exprs, x3: Exprs): (t: seq<Token>)
    ensures |t| == 5 + LenX(x1) + LenX(x2) + LenX(x3)
  {
    [Tok(FOR), Tok(LPAREN)] + ToksX(x1) + [Tok(SEMI)] + ToksX(x2) + [Tok(SEMI)] + ToksX(x3) + [Tok(RPAREN)]
  }

  /** The same tokens, cut before or after the one in the middle. */
  lemma Recut(a: seq<Token>, x: seq<Token>, k: Token, y: seq<Token>, b: seq<Token>)
    ensures a + x + ([k] + y + b) == (a + x + [k]) + y + b
  {
  }

  lemma Join(a: seq<Token>, x: seq<Token>, y: seq<Token>, b: seq<Token>)
    ensures a + x + (y + b) == (a + x) + y + b
  {
  }

  lemma SpelledForHead(a: seq<Token>, x1: Exprs, x2: Exprs, x3: Exprs, b: seq<Token>)
    ensures var t := a + ToksForHead(x1, x2, x3) + b;
            t[|a|] == Tok(FOR) && SpellsForHead(t, |a|, x1, x2, x3)
  {
    hide ToksX, SpellsX, LenX;
    var b3 := [Tok(RPAREN)] + b;
    var b2 := [Tok(SEMI)] + ToksX(x3) + b3;
    var b1 := [Tok(SEMI)] + ToksX(x2) + b2;
    var a1 := a + [Tok(FOR), Tok(LPAREN)];
    var a2 := a1 + ToksX(x1) + [Tok(SEMI)];
    var a3 := a2 + ToksX(x2) + [Tok(SEMI)];
    SpelledX(a1, x1, b1);
    SpelledX(a2, x2, b2);
    SpelledX(a3, x3, b3);
    Recut(a1, ToksX(x1), Tok(SEMI), ToksX(x2), b2);
    Recut(a2, ToksX(x2), Tok(SEMI), ToksX(x3), b3);
    ForHeadEnds(a, x1, x2, x3, b);
  }

  lemma ForHeadEnds(a: seq<Token>, x1: Exprs, x2: Exprs, x3: Exprs, b: seq<Token>)
    ensures var a3 := a + [Tok(FOR), Tok(LPAREN)] + ToksX(x1) + [Tok(SEMI)] + ToksX(x2) + [Tok(SEMI)];
            a + ToksForHead(x1, x2, x3) + b == a3 + ToksX(x3) + ([Tok(RPAREN)] + b)
  {
    hide ToksX, LenX;
  }

  lemma {:induction false} SpelledFor(a: seq<Token>, s: Stmt, b: seq<Token>)
    requires s.For?
    ensures Spells(a + Toks(s) + b, |a|, s)
    decreases s, 0
  {
    hide ToksX, SpellsX, LenX, ToksForHead, SpellsForHead, ToksE, SpellsE, LenE, ToksSS, SpellsSS, LenSS,
      ToksElifs, SpellsElifs, LenElifs, ToksCases, SpellsCases, LenCases;
    var t := a + Toks(s) + b;
    var head := ToksForHead(s.init, s.cond, s.inc);
    ForToks(s);
    assert t == a + head + (Toks(s.body) + b);
    SpelledForHead(a, s.init, s.cond, s.inc, Toks(s.body) + b);
    assert t == (a + head) + Toks(s.body) + b;
    Spelled(a + head, s.body, b);
  }

  lemma ForToks(s: Stmt)
    requires s.For?
    ensures Toks(s) == ToksForHead(s.init, s.cond, s.inc) + Toks(s.body)
  {
    hide ToksX, LenX;
  }

  lemma {:induction false} SpelledSwitch(a: seq<Token>, s: Stmt, b: seq<Token>)
    requires s.Switch?
    ensures Spells(a + Toks(s) + b, |a|, s)
    decreases s, 0
  {
    hide ToksE, SpellsE, LenE, ToksX, SpellsX, LenX, ToksSS, SpellsSS, LenSS, ToksElifs, SpellsElifs, LenElifs,
      ToksCases, SpellsCases, LenCases;
    var t := a + Toks(s) + b;
    assert t == (a + [Tok(SWITCH), Tok(LPAREN)]) + ToksE(s.subject) +
        ([Tok(RPAREN), Tok(LBRACE)] + ToksCases(s.cases) + [Tok(RBRACE)] + b);
    SpelledE(a + [Tok(SWITCH), Tok(LPAREN)], s.subject, [Tok(RPAREN), Tok(LBRACE)] + ToksCases(s.cases) +
        [Tok(RBRACE)] + b);
    assert t == (a + [Tok(SWITCH), Tok(LPAREN)] + ToksE(s.subject) + [Tok(RPAREN), Tok(LBRACE)]) +
        ToksCases(s.cases) + ([Tok(RBRACE)] + b);
    SpelledCases(a + [Tok(SWITCH), Tok(LPAREN)] + ToksE(s.subject) + [Tok(RPAREN), Tok(LBRACE)], s.cases,
        [Tok(RBRACE)] + b);
  }

  lemma {:induction false} SpelledJump(a: seq<Token>, s: Stmt, b: seq<Token>)
    requires s.Jump?
    ensures Spells(a + Toks(s) + b, |a|, s)
    decreases s, 0
  {
    hide ToksE, SpellsE, LenE, ToksX, SpellsX, LenX, ToksSS, SpellsSS, LenSS, ToksElifs, SpellsElifs, LenElifs,
      ToksCases, SpellsCases, LenCases;
    var t := a + Toks(s) + b;
    if s.levels.SomeExpr? {
      assert t == (a + [Tok(JumpKind(s.op))]) + ToksE(s.levels.expr) + ([Tok(SEMI)] + b);
      SpelledE(a + [Tok(JumpKind(s.op))], s.levels.expr, [Tok(SEMI)] + b);
    }
  }

  lemma {:induction false} SpelledReturn(a: seq<Token>, s: Stmt, b: seq<Token>)
    requires s.Return?
    ensures Spells(a + Toks(s) + b, |a|, s)
    decreases s, 0
  {
    hide ToksE, SpellsE, LenE, ToksX, SpellsX, LenX, ToksSS, SpellsSS, LenSS, ToksElifs, SpellsElifs, LenElifs,
      ToksCases, SpellsCases, LenCases;
    var t := a + Toks(s) + b;
    if s.result.SomeExpr? {
      assert t == (a + [Tok(RETURN)]) + ToksE(s.result.expr) + ([Tok(SEMI)] + b);
      SpelledE(a + [Tok(RETURN)], s.result.expr, [Tok(SEMI)] + b);
    }
  }

  /** Every statement is spelled by its tokens, whatever surrounds them. */
  lemma {:induction false} Spelled(a: seq<Token>, s: Stmt, b: seq<Token>)
    ensures Spells(a + Toks(s) + b, |a|, s)
    decreases s, 1
  {
    match s
    case Empty =>
    case Run(_) => SpelledRun(a, s, b);
    case Block(_) => SpelledBlock(a, s, b);
    case If(_, _, _) => SpelledIf(a, s, b);
    case While(_, _) => SpelledWhile(a, s, b);
    case DoWhile(_, _) => SpelledDo(a, s, b);
    case For(_, _, _, _) => SpelledFor(a, s, b);
    case Switch(_, _) => SpelledSwitch(a, s, b);
    case Jump(_, _) => SpelledJump(a, s, b);
    case Return(_) => SpelledReturn(a, s, b);
  }

  lemma {:induction false} SpelledSS(a: seq<Token>, ss: Stmts, b: seq<Token>)
    ensures SpellsSS(a + ToksSS(ss) + b, |a|, ss)
    decreases ss
  {
    hide Toks, Spells, Len;
    var t := a + ToksSS(ss) + b;
    if ss.MoreStmts? {
      assert t == (a) + Toks(ss.head) + (ToksSS(ss.tail) + b);
      Spelled(a, ss.head, ToksSS(ss.tail) + b);
      assert t == (a + Toks(ss.head)) + ToksSS(ss.tail) + (b);
      SpelledSS(a + Toks(ss.head), ss.tail, b);
    }
  }

  lemma {:induction false} SpelledElif(a: seq<Token>, el: Elifs, b: seq<Token>)
    requires el.Elif?
    ensures SpellsElifs(a + ToksElifs(el) + b, |a|, el)
    decreases el, 0
  {
    hide ToksE, SpellsE, LenE, Toks, Spells, Len;
    var c, body, tl := el.test, el.body, el.tail;
    var a2 := a + [Tok(ELSEIF), Tok(LPAREN)] + ToksE(c) + [Tok(RPAREN)];
    SpelledE(a + [Tok(ELSEIF), Tok(LPAREN)], c, [Tok(RPAREN)] + Toks(body) + (ToksElifs(tl) + b));
    Spelled(a2, body, ToksElifs(tl) + b);
    SpelledElifs(a2 + Toks(body), tl, b);
    ElifCuts(a, ToksE(c), Toks(body), ToksElifs(tl), b);
  }

  lemma ElifCuts(a: seq<Token>, x: seq<Token>, y: seq<Token>, z: seq<Token>, b: seq<Token>)
    ensures var a1, b2 := a + [Tok(ELSEIF), Tok(LPAREN)], z + b;
            var a2 := a1 + x + [Tok(RPAREN)];
            var t := a + ([Tok(ELSEIF), Tok(LPAREN)] + x + [Tok(RPAREN)] + y + z) + b;
            t == a1 + x + ([Tok(RPAREN)] + y + b2) && t == a2 + y + b2 && t == a2 + y + z + b
            && t[|a|] == Tok(ELSEIF) && t[|a| + 1] == Tok(LPAREN) && t[|a1| + |x|] == Tok(RPAREN)
  {
    var a1, b2 := a + [Tok(ELSEIF), Tok(LPAREN)], z + b;
    Recut(a1, x, Tok(RPAREN), y, b2);
    Join(a1 + x + [Tok(RPAREN)], y, z, b);
  }

  lemma {:induction false} SpelledElifs(a: seq<Token>, el: Elifs, b: seq<Token>)
    ensures SpellsElifs(a + ToksElifs(el) + b, |a|, el)
    decreases el, 1
  {
    hide ToksE, SpellsE, LenE, Toks, Spells, Len;
    var t := a + ToksElifs(el) + b;
    match el
    case NoElse =>
    case ElsePart(body) =>
      assert t == (a + [Tok(ELSE)]) + Toks(body) + (b);
      Spelled(a + [Tok(ELSE)], body, b);
    case Elif(_, _, _) => SpelledElif(a, el, b);
  }

  lemma {:induction false} SpelledCases(a: seq<Token>, cs: Cases, b: seq<Token>)
    ensures SpellsCases(a + ToksCases(cs) + b, |a|, cs)
    decreases cs, 1
  {
    hide ToksE, SpellsE, LenE, ToksSS, SpellsSS, LenSS;
    var t := a + ToksCases(cs) + b;
    match cs
    case NoCases =>
    case Case(_, _, _) => SpelledCase(a, cs, b);
    case Default(body) =>
      assert t == (a + [Tok(DEFAULT), Tok(COLON)]) + ToksSS(body) + (b);
      SpelledSS(a + [Tok(DEFAULT), Tok(COLON)], body, b);
  }

  lemma {:induction false} SpelledCase(a: seq<Token>, cs: Cases, b: seq<Token>)
    requires cs.Case?
    ensures SpellsCases(a + ToksCases(cs) + b, |a|, cs)
    decreases cs, 0
  {
    hide ToksE, SpellsE, LenE, ToksSS, SpellsSS, LenSS;
    var e, body, tl := cs.value, cs.body, cs.tail;
    var a2 := a + [Tok(CASE)] + ToksE(e) + [Tok(COLON)];
    SpelledE(a + [Tok(CASE)], e, [Tok(COLON)] + ToksSS(body) + (ToksCases(tl) + b));
    SpelledSS(a2, body, ToksCases(tl) + b);
    SpelledCases(a2 + ToksSS(body), tl, b);
    CaseCuts(a, ToksE(e), ToksSS(body), ToksCases(tl), b);
  }

  lemma CaseCuts(a: seq<Token>, x: seq<Token>, y: seq<Token>, z: seq<Token>, b: seq<Token>)
    ensures var a1, b2 := a + [Tok(CASE)], z + b;
            var a2 := a1 + x + [Tok(COLON)];
            var t := a + ([Tok(CASE)] + x + [Tok(COLON)] + y + z) + b;
            t == a1 + x + ([Tok(COLON)] + y + b2) && t == a2 + y + b2 && t == a2 + y + z + b && t[|a|] == Tok(CASE)
            && t[|a1| + |x|] == Tok(COLON)
  {
    var a1, b2 := a + [Tok(CASE)], z + b;
    Recut(a1, x, Tok(COLON), y, b2);
    Join(a1 + x + [Tok(COLON)], y, z, b);
  }
}
