/** What spells a statement still spells it after tokens elsewhere have changed, and after
    being copied to another place. */
module Frames {
  import opened Syntax

  /** The len tokens of t from a on are the len tokens of u from b on. */
  ghost predicate Same(t: seq<Token>, a: nat, u: seq<Token>, b: nat, len: nat) {
    && a + len <= |t| && b + len <= |u|
    && forall i {:trigger t[i]} :: a <= i < a + len ==> u[i - a + b] == t[i]
  }

  /** Only tokens from a up to b may differ. */
  ghost predicate Framed(t: seq<Token>, u: seq<Token>, a: nat, b: nat) {
    |t| == |u| && forall i {:trigger t[i]} {:trigger u[i]} :: 0 <= i < |t| && !(a <= i < b) ==> u[i] == t[i]
  }

  /** One of the copied tokens. */
  lemma Copied(t: seq<Token>, a: nat, u: seq<Token>, b: nat, len: nat, i: nat)
    requires Same(t, a, u, b, len) && i < len
    ensures a + i < |t| && b + i < |u| && u[b + i] == t[a + i]
  {
    assert u[a + i - a + b] == t[a + i];
  }

  /** Part of the copied tokens. */
  lemma Part(t: seq<Token>, a: nat, u: seq<Token>, b: nat, len: nat, d: nat, l: nat)
    requires Same(t, a, u, b, len) && d + l <= len
    ensures Same(t, a + d, u, b + d, l)
  {
    forall i {:trigger t[i]} | a + d <= i < a + d + l ensures u[i - (a + d) + (b + d)] == t[i] {
      assert u[i - a + b] == t[i];
    }
  }

  lemma {:induction false} MoveE(t: seq<Token>, a: nat, u: seq<Token>, b: nat, e: Expr)
    requires SpellsE(t, a, e) && Same(t, a, u, b, LenE(e))
    ensures SpellsE(u, b, e)
    decreases e, 0
  {
    hide Same, SpellsP, LenP;
    match e
    case Leaf(_) =>
      Copied(t, a, u, b, 1, 0);
    case Or(l, r) =>
      Part(t, a, u, b, LenE(e), 0, LenP(l));
      MoveP(t, a, u, b, l);
      Copied(t, a, u, b, LenE(e), LenP(l));
      Part(t, a, u, b, LenE(e), (LenP(l) + 1), LenP(r));
      MoveP(t, a + (LenP(l) + 1), u, b + (LenP(l) + 1), r);
    case And(l, r) =>
      Part(t, a, u, b, LenE(e), 0, LenP(l));
      MoveP(t, a, u, b, l);
      Copied(t, a, u, b, LenE(e), LenP(l));
      Part(t, a, u, b, LenE(e), (LenP(l) + 1), LenP(r));
      MoveP(t, a + (LenP(l) + 1), u, b + (LenP(l) + 1), r);
    case Cond(c, y, n) =>
      Part(t, a, u, b, LenE(e), 0, LenP(c));
      MoveP(t, a, u, b, c);
      Copied(t, a, u, b, LenE(e), LenP(c));
      Part(t, a, u, b, LenE(e), (LenP(c) + 1), LenP(y));
      MoveP(t, a + (LenP(c) + 1), u, b + (LenP(c) + 1), y);
      Copied(t, a, u, b, LenE(e), LenP(c) + 1 + LenP(y));
      Part(t, a, u, b, LenE(e), (LenP(c) + 1 + LenP(y) + 1), LenP(n));
      MoveP(t, a + (LenP(c) + 1 + LenP(y) + 1), u, b + (LenP(c) + 1 + LenP(y) + 1), n);
  }

  lemma {:induction false} MoveP(t: seq<Token>, a: nat, u: seq<Token>, b: nat, e: Expr)
    requires SpellsP(t, a, e) && Same(t, a, u, b, LenP(e))
    ensures SpellsP(u, b, e)
    decreases e, 1
  {
    hide Same, SpellsE, LenE;
    Copied(t, a, u, b, LenP(e), 0);
    if !e.Leaf? {
      Copied(t, a, u, b, LenP(e), LenE(e) + 1);
      Part(t, a, u, b, LenP(e), 1, LenE(e));
      MoveE(t, a + 1, u, b + 1, e);
    }
  }

  lemma {:induction false} MoveX(t: seq<Token>, a: nat, u: seq<Token>, b: nat, xs: Exprs)
    requires SpellsX(t, a, xs) && Same(t, a, u, b, LenX(xs))
    ensures SpellsX(u, b, xs)
  {
    hide Same, SpellsE, LenE, SpellsXMore, LenXMore;
    if xs.MoreExprs? {
      Part(t, a, u, b, LenX(xs), 0, LenE(xs.head));
      MoveE(t, a, u, b, xs.head);
      Part(t, a, u, b, LenX(xs), LenE(xs.head), LenXMore(xs.tail));
      MoveXMore(t, a + LenE(xs.head), u, b + LenE(xs.head), xs.tail);
    }
  }

  lemma {:induction false} MoveXMore(t: seq<Token>, a: nat, u: seq<Token>, b: nat, xs: Exprs)
    requires SpellsXMore(t, a, xs) && Same(t, a, u, b, LenXMore(xs))
    ensures SpellsXMore(u, b, xs)
    decreases xs
  {
    hide Same, SpellsE, LenE;
    if xs.MoreExprs? {
      Copied(t, a, u, b, LenXMore(xs), 0);
      Part(t, a, u, b, LenXMore(xs), 1, LenE(xs.head));
      MoveE(t, a + 1, u, b + 1, xs.head);
      Part(t, a, u, b, LenXMore(xs), (1 + LenE(xs.head)), LenXMore(xs.tail));
      MoveXMore(t, a + (1 + LenE(xs.head)), u, b + (1 + LenE(xs.head)), xs.tail);
    }
  }

  lemma {:induction false} MoveForHead(t: seq<Token>, a: nat, u: seq<Token>, b: nat, x1: Exprs, x2: Exprs, x3: Exprs)
    requires SpellsForHead(t, a, x1, x2, x3) && Same(t, a, u, b, 5 + LenX(x1) + LenX(x2) + LenX(x3))
    ensures SpellsForHead(u, b, x1, x2, x3)
  {
    hide Same, SpellsX, LenX;
    var len := 5 + LenX(x1) + LenX(x2) + LenX(x3);
    Copied(t, a, u, b, len, 1);
    Part(t, a, u, b, len, 2, LenX(x1));
    MoveX(t, a + 2, u, b + 2, x1);
    Copied(t, a, u, b, len, 2 + LenX(x1));
    Part(t, a, u, b, len, (3 + LenX(x1)), LenX(x2));
    MoveX(t, a + (3 + LenX(x1)), u, b + (3 + LenX(x1)), x2);
    Copied(t, a, u, b, len, 3 + LenX(x1) + LenX(x2));
    Part(t, a, u, b, len, (4 + LenX(x1) + LenX(x2)), LenX(x3));
    MoveX(t, a + (4 + LenX(x1) + LenX(x2)), u, b + (4 + LenX(x1) + LenX(x2)), x3);
    Copied(t, a, u, b, len, 4 + LenX(x1) + LenX(x2) + LenX(x3));
  }

  lemma {:induction false} MoveS(t: seq<Token>, a: nat, u: seq<Token>, b: nat, s: Stmt)
    requires Spells(t, a, s) && Same(t, a, u, b, Len(s))
    ensures Spells(u, b, s)
    decreases s, 1
  {
    hide Same, SpellsE, LenE, SpellsX, LenX, SpellsForHead, SpellsSS, LenSS, SpellsElifs, LenElifs, SpellsCases,
      LenCases, SpellsWhileRest, SpellsDoRest, SpellsForRest;
    match s
    case Empty => Copied(t, a, u, b, 1, 0);
    case Run(e) => MoveSimple(t, a, u, b, s);
    case Block(ss) => MoveSimple(t, a, u, b, s);
    case If(_, _, _) => MoveIf(t, a, u, b, s);
    case While(_, _) => MoveWhile(t, a, u, b, s);
    case DoWhile(_, _) => MoveDo(t, a, u, b, s);
    case For(_, _, _, _) => MoveFor(t, a, u, b, s);
    case Switch(_, _) => MoveSwitch(t, a, u, b, s);
    case Jump(_, _) => MoveJump(t, a, u, b, s);
    case Return(_) => MoveJump(t, a, u, b, s);
  }

  lemma {:induction false} MoveSimple(t: seq<Token>, a: nat, u: seq<Token>, b: nat, s: Stmt)
    requires (s.Run? || s.Block?) && Spells(t, a, s) && Same(t, a, u, b, Len(s))
    ensures Spells(u, b, s)
    decreases s, 0
  {
    hide Same, SpellsE, LenE, SpellsX, LenX, SpellsForHead, SpellsSS, LenSS, SpellsElifs, LenElifs, SpellsCases,
      LenCases;
    var len := Len(s);
    match s
    case Run(e) =>
      Part(t, a, u, b, len, 0, LenE(e));
      MoveE(t, a, u, b, e);
      Copied(t, a, u, b, len, LenE(e));
    case Block(ss) =>
      Copied(t, a, u, b, len, 0);
      Part(t, a, u, b, len, 1, LenSS(ss));
      MoveSS(t, a + 1, u, b + 1, ss);
      Copied(t, a, u, b, len, 1 + LenSS(ss));
  }

  lemma {:induction false} MoveWhile(t: seq<Token>, a: nat, u: seq<Token>, b: nat, s: Stmt)
    requires s.While? && Spells(t, a, s) && Same(t, a, u, b, Len(s))
    ensures Spells(u, b, s)
    decreases s, 0
  {
    hide Same, SpellsE, LenE, SpellsX, LenX, SpellsForHead, SpellsSS, LenSS, SpellsElifs, LenElifs, SpellsCases,
      LenCases;
    var len, c, body := Len(s), s.test, s.body;
    Copied(t, a, u, b, len, 0);
    Copied(t, a, u, b, len, 1);
    Part(t, a, u, b, len, 2, LenE(c));
    MoveE(t, a + 2, u, b + 2, c);
    Copied(t, a, u, b, len, 2 + LenE(c));
    Part(t, a, u, b, len, (3 + LenE(c)), Len(body));
    MoveS(t, a + (3 + LenE(c)), u, b + (3 + LenE(c)), body);
  }

  lemma {:induction false} MoveDo(t: seq<Token>, a: nat, u: seq<Token>, b: nat, s: Stmt)
    requires s.DoWhile? && Spells(t, a, s) && Same(t, a, u, b, Len(s))
    ensures Spells(u, b, s)
    decreases s, 0
  {
    hide Same, SpellsE, LenE, SpellsX, LenX, SpellsForHead, SpellsSS, LenSS, SpellsElifs, LenElifs, SpellsCases,
      LenCases, SpellsWhileRest, SpellsForRest;
    var len, c, body := Len(s), s.test, s.body;
    Copied(t, a, u, b, len, 0);
    Part(t, a, u, b, len, 1, Len(body));
    MoveS(t, a + 1, u, b + 1, body);
    Copied(t, a, u, b, len, 1 + Len(body));
    Copied(t, a, u, b, len, 2 + Len(body));
    Part(t, a, u, b, len, (3 + Len(body)), LenE(c));
    MoveE(t, a + (3 + Len(body)), u, b + (3 + Len(body)), c);
    Copied(t, a, u, b, len, 3 + Len(body) + LenE(c));
    Copied(t, a, u, b, len, 4 + Len(body) + LenE(c));
  }

  lemma {:induction false} MoveFor(t: seq<Token>, a: nat, u: seq<Token>, b: nat, s: Stmt)
    requires s.For? && Spells(t, a, s) && Same(t, a, u, b, Len(s))
    ensures Spells(u, b, s)
    decreases s, 0
  {
    hide Same, SpellsE, LenE, SpellsX, LenX, SpellsForHead, SpellsSS, LenSS, SpellsElifs, LenElifs, SpellsCases,
      LenCases;
    var len, d := Len(s), 5 + LenX(s.init) + LenX(s.cond) + LenX(s.inc);
    Copied(t, a, u, b, len, 0);
    var x2, x3 := if t[a].switched then s.inc else s.cond, if t[a].switched then s.cond else s.inc;
    Part(t, a, u, b, len, 0, d);
    MoveForHead(t, a, u, b, s.init, x2, x3);
    Part(t, a, u, b, len, d, Len(s.body));
    MoveS(t, a + d, u, b + d, s.body);
  }

  lemma {:induction false} MoveJump(t: seq<Token>, a: nat, u: seq<Token>, b: nat, s: Stmt)
    requires (s.Jump? || s.Return?) && Spells(t, a, s) && Same(t, a, u, b, Len(s))
    ensures Spells(u, b, s)
    decreases s, 0
  {
    hide Same, SpellsE, LenE, SpellsX, LenX, SpellsForHead, SpellsSS, LenSS, SpellsElifs, LenElifs, SpellsCases,
      LenCases;
    var len, o := Len(s), if s.Jump? then s.levels else s.result;
    Copied(t, a, u, b, len, 0);
    if o.SomeExpr? {
      Part(t, a, u, b, len, 1, LenE(o.expr));
      MoveE(t, a + 1, u, b + 1, o.expr);
    }
    Copied(t, a, u, b, len, 1 + LenO(o));
  }

  lemma IfUnfolds(t: seq<Token>, a: nat, s: Stmt)
    requires s.If?
    ensures Len(s) == 3 + LenE(s.test) + Len(s.thn) + LenElifs(s.rest)
    ensures Spells(t, a, s) <==>
            && At(t, a, IF) && At(t, a + 1, LPAREN) && SpellsE(t, a + 2, s.test) && At(t, a + 2 + LenE(s.test), RPAREN)
            && Spells(t, a + 3 + LenE(s.test), s.thn) && SpellsElifs(t, a + 3 + LenE(s.test) + Len(s.thn), s.rest)
  {
    hide SpellsE, LenE, SpellsX, LenX, SpellsForHead, SpellsSS, LenSS, SpellsElifs, LenElifs, SpellsCases,
      LenCases;
  }

  lemma {:induction false} MoveIf(t: seq<Token>, a: nat, u: seq<Token>, b: nat, s: Stmt)
    requires s.If? && Spells(t, a, s) && Same(t, a, u, b, Len(s))
    ensures Spells(u, b, s)
    decreases s, 0
  {
    hide Same, Spells, Len, SpellsE, LenE, SpellsElifs, LenElifs;
    IfUnfolds(t, a, s);
    IfUnfolds(u, b, s);
    var len, c, thn := Len(s), s.test, s.thn;
    Copied(t, a, u, b, len, 0);
    Copied(t, a, u, b, len, 1);
    Part(t, a, u, b, len, 2, LenE(c));
    MoveE(t, a + 2, u, b + 2, c);
    Copied(t, a, u, b, len, 2 + LenE(c));
    var d := 3 + LenE(c);
    Part(t, a, u, b, len, d, Len(thn));
    MoveS(t, a + d, u, b + d, thn);
    Part(t, a, u, b, len, (d + Len(thn)), LenElifs(s.rest));
    MoveElifs(t, a + (d + Len(thn)), u, b + (d + Len(thn)), s.rest);
  }

  lemma {:induction false} MoveSwitch(t: seq<Token>, a: nat, u: seq<Token>, b: nat, s: Stmt)
    requires s.Switch? && Spells(t, a, s) && Same(t, a, u, b, Len(s))
    ensures Spells(u, b, s)
    decreases s, 0
  {
    hide Same, SpellsE, LenE, SpellsX, LenX, SpellsForHead, SpellsSS, LenSS, SpellsElifs, LenElifs, SpellsCases,
      LenCases;
    var len, e := Len(s), s.subject;
    Copied(t, a, u, b, len, 0);
    Copied(t, a, u, b, len, 1);
    Part(t, a, u, b, len, 2, LenE(e));
    MoveE(t, a + 2, u, b + 2, e);
    Copied(t, a, u, b, len, 2 + LenE(e));
    Copied(t, a, u, b, len, 3 + LenE(e));
    Part(t, a, u, b, len, (4 + LenE(e)), LenCases(s.cases));
    MoveCases(t, a + (4 + LenE(e)), u, b + (4 + LenE(e)), s.cases);
    Copied(t, a, u, b, len, 4 + LenE(e) + LenCases(s.cases));
  }

  lemma {:induction false} MoveSS(t: seq<Token>, a: nat, u: seq<Token>, b: nat, ss: Stmts)
    requires SpellsSS(t, a, ss) && Same(t, a, u, b, LenSS(ss))
    ensures SpellsSS(u, b, ss)
    decreases ss
  {
    hide Same, Spells, Len;
    if ss.MoreStmts? {
      Part(t, a, u, b, LenSS(ss), 0, Len(ss.head));
      MoveS(t, a, u, b, ss.head);
      Part(t, a, u, b, LenSS(ss), Len(ss.head), LenSS(ss.tail));
      MoveSS(t, a + Len(ss.head), u, b + Len(ss.head), ss.tail);
    }
  }

  lemma {:induction false} MoveElifs(t: seq<Token>, a: nat, u: seq<Token>, b: nat, el: Elifs)
    requires SpellsElifs(t, a, el) && Same(t, a, u, b, LenElifs(el))
    ensures SpellsElifs(u, b, el)
    decreases el
  {
    hide Same, Spells, Len, SpellsE, LenE;
    match el
    case NoElse =>
    case ElsePart(body) =>
      Copied(t, a, u, b, LenElifs(el), 0);
      Part(t, a, u, b, LenElifs(el), 1, Len(body));
      MoveS(t, a + 1, u, b + 1, body);
    case Elif(c, body, tl) =>
      Copied(t, a, u, b, LenElifs(el), 0);
      Copied(t, a, u, b, LenElifs(el), 1);
      Part(t, a, u, b, LenElifs(el), 2, LenE(c));
      MoveE(t, a + 2, u, b + 2, c);
      Copied(t, a, u, b, LenElifs(el), 2 + LenE(c));
      var d := 3 + LenE(c);
      Part(t, a, u, b, LenElifs(el), d, Len(body));
      MoveS(t, a + d, u, b + d, body);
      Part(t, a, u, b, LenElifs(el), (d + Len(body)), LenElifs(tl));
      MoveElifs(t, a + (d + Len(body)), u, b + (d + Len(body)), tl);
  }

  lemma {:induction false} MoveCases(t: seq<Token>, a: nat, u: seq<Token>, b: nat, cs: Cases)
    requires SpellsCases(t, a, cs) && Same(t, a, u, b, LenCases(cs))
    ensures SpellsCases(u, b, cs)
    decreases cs
  {
    hide Same, SpellsSS, LenSS, SpellsE, LenE;
    match cs
    case NoCases =>
    case Case(e, body, tl) =>
      Copied(t, a, u, b, LenCases(cs), 0);
      Part(t, a, u, b, LenCases(cs), 1, LenE(e));
      MoveE(t, a + 1, u, b + 1, e);
      Copied(t, a, u, b, LenCases(cs), 1 + LenE(e));
      var d := 2 + LenE(e);
      Part(t, a, u, b, LenCases(cs), d, LenSS(body));
      MoveSS(t, a + d, u, b + d, body);
      Part(t, a, u, b, LenCases(cs), (d + LenSS(body)), LenCases(tl));
      MoveCases(t, a + (d + LenSS(body)), u, b + (d + LenSS(body)), tl);
    case Default(body) =>
      Copied(t, a, u, b, LenCases(cs), 0);
      Copied(t, a, u, b, LenCases(cs), 1);
      Part(t, a, u, b, LenCases(cs), 2, LenSS(body));
      MoveSS(t, a + 2, u, b + 2, body);
  }
}
