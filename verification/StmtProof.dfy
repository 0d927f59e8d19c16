/** The machine runs every statement as the structured semantics says, and leaves every
    statement it skips without effect. */
module StmtProof {
  import opened Values
  import opened Syntax
  import opened Machine
  import opened Semantics
  import opened Walk
  import opened ExprProof
  import opened Frames
  import opened StmtBase
  import opened Segments

  /** What running a statement, or skipping it, should come to. */
  function Expect(w: World, m: M, s: Stmt, fuel: nat): Res
    requires 0 <= m.c.nest
  {
    if m.c.exec then Exec(w, s, m.c.nest, m.store, fuel) else Res(Normal, m.store)
  }

  function ExpectSS(w: World, m: M, ss: Stmts, fuel: nat): Res
    requires 0 <= m.c.nest
  {
    if m.c.exec then ExecSS(w, ss, m.c.nest, m.store, fuel) else Res(Normal, m.store)
  }

  ghost predicate BeginsStmt(w: World, s0: M, n: nat, m: M, s: Stmt) {
    Begins(w, s0, n, m, StmtN) && Spells(m.toks, m.pos, s) && Parsed(s) && Follows(m.toks, m.pos + Len(s), s)
  }

  ghost predicate EndsStmt(w: World, s0: M, n: nat, m: M, s: Stmt, fuel: nat, n': nat, m': M)
    requires 0 <= m.c.nest
  {
    && Steps(w, s0, n') == m'
    && Ends(m, n, m', n', m.vs, Len(s), Expect(w, m, s, fuel), fuel)
    && (Completes(Expect(w, m, s, fuel)) ==> Spells(m'.toks, m.pos, s))
  }

  // ----- simple statements

  lemma PassEmpty(w: World, s0: M, n: nat, m: M, s: Stmt, fuel: nat) returns (n': nat, m': M)
    requires BeginsStmt(w, s0, n, m, s) && s.Empty?
    ensures EndsStmt(w, s0, n, m, s, fuel, n', m')
  {
    hide Steps;
    EmptySteps(w, m);
    Then(w, s0, n, m, 3);
    n', m' := n + 3, Steps(w, s0, n + 3);
  }

  lemma PassRun(w: World, s0: M, n: nat, m: M, s: Stmt, fuel: nat) returns (n': nat, m': M)
    requires BeginsStmt(w, s0, n, m, s) && s.Run?
    ensures EndsStmt(w, s0, n, m, s, fuel, n', m')
  {
    hide Steps, EvalE, SpellsE, LenE, Framed, Parsed, Exec, Spells, Len, Follows, Inert, StartsExpr;
    Parts(m.toks, m.pos, s);
    FirstTokenE(m.toks, m.pos, s.expr);
    RunOpen(w, m);
    var m1 := Steps(w, m, 1);
    var n2, cell, store := ThenExpr(w, s0, n, m, 1, s.expr);
    RunClose(w, Passed(m1, LenE(s.expr), cell, store), cell, m.vs, m.work.rest);
    Then(w, s0, n2, Passed(m1, LenE(s.expr), cell, store), 2);
    n', m' := n2 + 2, Steps(w, s0, n2 + 2);
    ExecSimple(w, s, m.c.nest, m.store, fuel);
    FrameRefl(m.toks, m.pos, m.pos + Len(s));
  }

  /** An expression that comes p steps after m. */
  lemma ThenExpr(w: World, s0: M, n: nat, m: M, p: nat, e: Expr) returns (n': nat, cell: Cell, store: Store)
    requires Steps(w, s0, n) == m && Handles(Steps(w, m, p), N(ExprN))
    requires var m1 := Steps(w, m, p);
             Settled(m1.c) && SpellsE(m1.toks, m1.pos, e) && NoOperator(m1.toks, m1.pos + LenE(e))
    ensures n' > n && Steps(w, s0, n') == Passed(Steps(w, m, p), LenE(e), cell, store)
    ensures Computed(w, Steps(w, m, p), e, cell, store)
  {
    hide Steps, SpellsE, LenE, Computed;
    Then(w, s0, n, m, p);
    n', cell, store := PassExpr(w, s0, n + p, Steps(w, m, p), e);
  }

  /** What spells the simple statements. */
  lemma Parts(t: seq<Token>, a: nat, s: Stmt)
    requires Spells(t, a, s)
    ensures s.Run? ==> Len(s) == LenE(s.expr) + 1 && SpellsE(t, a, s.expr) && At(t, a + LenE(s.expr), SEMI)
    ensures s.Jump? && s.levels.SomeExpr? ==>
              && Len(s) == LenE(s.levels.expr) + 2 && At(t, a, JumpKind(s.op))
              && SpellsE(t, a + 1, s.levels.expr) && At(t, a + 1 + LenE(s.levels.expr), SEMI)
    ensures s.Return? && s.result.SomeExpr? ==>
              && Len(s) == LenE(s.result.expr) + 2 && At(t, a, RETURN)
              && SpellsE(t, a + 1, s.result.expr) && At(t, a + 1 + LenE(s.result.expr), SEMI)
  {
  }

  /** What the simple statements mean. */
  lemma ExecSimple(w: World, s: Stmt, nest: nat, st: Store, fuel: nat)
    ensures s.Run? ==> Exec(w, s, nest, st, fuel) == Res(Normal, EvalE(w, s.expr, st).1)
    ensures s.Jump? ==> var (k, st1) := Levels(w, s.levels, st);
                        Exec(w, s, nest, st, fuel) == Res(if 1 <= k <= nest then Jumped(s.op, k) else Fatal, st1)
    ensures s.Return? && s.result.NoExpr? ==> Exec(w, s, nest, st, fuel) == Res(Returned(Unset), st)
    ensures s.Return? && s.result.SomeExpr? ==>
              var (v, st1) := EvalE(w, s.result.expr, st); Exec(w, s, nest, st, fuel) == Res(Returned(v), st1)
  {
  }

  lemma FrameRefl(t: seq<Token>, a: nat, b: nat)
    ensures Framed(t, t, a, b)
  {
  }

  lemma PassJump(w: World, s0: M, n: nat, m: M, s: Stmt, fuel: nat) returns (n': nat, m': M)
    requires BeginsStmt(w, s0, n, m, s) && s.Jump?
    ensures EndsStmt(w, s0, n, m, s, fuel, n', m')
  {
    hide Steps, EvalE, SpellsE, LenE, Framed, EndsOpen, Parsed, Exec;
    ExecSimple(w, s, m.c.nest, m.store, fuel);
    FrameRefl(m.toks, m.pos, m.pos + Len(s));
    if s.levels.NoExpr? {
      PlainJumpOpen(w, m, s.op);
      Then(w, s0, n, m, 3);
      var m1 := Steps(w, s0, n + 3);
      PlainJumpClose(w, m1, s.op, m1.vs.top, m.vs, m.work.rest);
      Then(w, s0, n + 3, m1, 2);
      n', m' := n + 5, Steps(w, s0, n + 3 + 2);
    } else {
      var n1, t, v, store := PassJumpLevels(w, s0, n, m, s.op, s.levels.expr);
      n', m' := n1, Steps(w, s0, n1);
    }
  }

  lemma JumpThrough(w: World, s0: M, n: nat, m: M, op: JumpOp, e: Expr) returns (n2: nat, y: M, cell: Cell)
    requires Reached(w, s0, n, m, N(StmtN)) && Settled(m.c) && At(m.toks, m.pos, JumpKind(op))
    requires SpellsE(m.toks, m.pos + 1, e) && At(m.toks, m.pos + 1 + LenE(e), SEMI)
    ensures n2 > n && Steps(w, s0, n2) == y && Computed(w, m, e, cell, y.store)
    ensures y == m.(pos := m.pos + 1 + LenE(e), vs := Push(cell, Push(TokenCell(m.toks, m.pos), m.vs)), yyval := cell,
                    store := y.store, work := Seq2(T(SEMI), R(3, JumpLevels(op)), m.work.rest))
  {
    hide Steps, EvalE, SpellsE, LenE, ShouldExecute, JumpKind, StartsExpr;
    FirstTokenE(m.toks, m.pos + 1, e);
    JumpOpen(w, m, op);
    var m1 := Steps(w, m, 3);
    var store;
    n2, cell, store := ThenExpr(w, s0, n, m, 3, e);
    y := Passed(m1, LenE(e), cell, store);
  }

  lemma PassJumpLevels(w: World, s0: M, n: nat, m: M, op: JumpOp, e: Expr)
    returns (n': nat, t: Cell, v: Value, store: Store)
    requires Reached(w, s0, n, m, N(StmtN)) && Settled(m.c) && At(m.toks, m.pos, JumpKind(op))
    requires SpellsE(m.toks, m.pos + 1, e) && At(m.toks, m.pos + 1 + LenE(e), SEMI)
    ensures n' > n && Steps(w, s0, n') == CsBreakContinue(Passed(m, LenE(e) + 2, t, store), op, ToLong(w, v))
    ensures if m.c.exec then (v, store) == EvalE(w, e, m.store) else store == m.store
  {
    hide Steps, EvalE, SpellsE, LenE, CsBreakContinue, ToLong, ShouldExecute, JumpKind, StartsExpr, Settled;
    var n2, y, cell := JumpThrough(w, s0, n, m, op, e);
    t, v, store := TokenCell(m.toks, m.pos), cell.val, y.store;
    JumpClose(w, y, op, cell, t, m.vs, m.work.rest);
    Then(w, s0, n2, y, 2);
    n' := n2 + 2;
  }

  lemma PassReturn(w: World, s0: M, n: nat, m: M, s: Stmt, fuel: nat) returns (n': nat, m': M)
    requires BeginsStmt(w, s0, n, m, s) && s.Return?
    ensures EndsStmt(w, s0, n, m, s, fuel, n', m')
  {
    hide Steps, EvalE, SpellsE, LenE, Framed, EndsOpen, Parsed, Exec;
    ExecSimple(w, s, m.c.nest, m.store, fuel);
    FrameRefl(m.toks, m.pos, m.pos + Len(s));
    if s.result.NoExpr? {
      PlainReturnOpen(w, m);
      Then(w, s0, n, m, 3);
      var m1 := Steps(w, m, 3);
      PlainReturnClose(w, m1, m1.vs.top, m.vs, m.work.rest);
      Then(w, s0, n + 3, m1, 2);
      n', m' := n + 5, Steps(w, s0, n + 5);
    } else {
      var n1, t, v, store := PassReturnValue(w, s0, n, m, s.result.expr);
      n', m' := n1, Steps(w, s0, n1);
    }
  }

  lemma ReturnThrough(w: World, s0: M, n: nat, m: M, e: Expr) returns (n2: nat, y: M, cell: Cell)
    requires Reached(w, s0, n, m, N(StmtN)) && Settled(m.c) && At(m.toks, m.pos, RETURN)
    requires SpellsE(m.toks, m.pos + 1, e) && At(m.toks, m.pos + 1 + LenE(e), SEMI)
    ensures n2 > n && Steps(w, s0, n2) == y && Computed(w, m, e, cell, y.store)
    ensures y == m.(pos := m.pos + 1 + LenE(e), vs := Push(cell, Push(TokenCell(m.toks, m.pos), m.vs)), yyval := cell,
                    store := y.store, work := Seq2(T(SEMI), R(3, ReturnValue), m.work.rest))
  {
    hide Steps, EvalE, SpellsE, LenE, ShouldExecute, StartsExpr;
    FirstTokenE(m.toks, m.pos + 1, e);
    ReturnOpen(w, m);
    var m1 := Steps(w, m, 3);
    var store;
    n2, cell, store := ThenExpr(w, s0, n, m, 3, e);
    y := Passed(m1, LenE(e), cell, store);
  }

  lemma PassReturnValue(w: World, s0: M, n: nat, m: M, e: Expr) returns (n': nat, t: Cell, v: Value, store: Store)
    requires Reached(w, s0, n, m, N(StmtN)) && Settled(m.c) && At(m.toks, m.pos, RETURN)
    requires SpellsE(m.toks, m.pos + 1, e) && At(m.toks, m.pos + 1 + LenE(e), SEMI)
    ensures n' > n && Steps(w, s0, n') == CsReturn(Passed(m, LenE(e) + 2, t, store), v)
    ensures if m.c.exec then (v, store) == EvalE(w, e, m.store) else store == m.store
  {
    hide Steps, EvalE, SpellsE, LenE, CsReturn, ShouldExecute, StartsExpr, Settled;
    var n2, y, cell := ReturnThrough(w, s0, n, m, e);
    t, v, store := TokenCell(m.toks, m.pos), cell.val, y.store;
    ReturnClose(w, y, cell, t, m.vs, m.work.rest);
    Then(w, s0, n2, y, 2);
    n' := n2 + 2;
  }

  // ----- lists and blocks

  lemma {:induction false} PassSS(w: World, s0: M, n: nat, m: M, ss: Stmts, fuel: nat) returns (n': nat, m': M)
    requires Begins(w, s0, n, m, ListMore) && m.vs.Push?
    requires SpellsSS(m.toks, m.pos, ss) && ParsedSS(ss) && EndsList(m.toks, m.pos + LenSS(ss))
    ensures Steps(w, s0, n') == m'
    ensures Ends(m, n, m', n', m.vs.rest, LenSS(ss), ExpectSS(w, m, ss, fuel), fuel)
    ensures Completes(ExpectSS(w, m, ss, fuel)) ==> SpellsSS(m'.toks, m.pos, ss)
    decreases ss, fuel, 1
  {
    hide Steps, Exec, Spells, Len, Framed, CtlAfter;
    ListOpen(w, m);
    Then(w, s0, n, m, 1);
    var m1 := Steps(w, s0, n + 1);
    match ss
    case NoStmts =>
      NothingHappened(m);
      n', m' := n + 1, m1;
    case MoreStmts(s, tl) =>
      FirstToken(m.toks, m.pos, s);
      if tl.MoreStmts? {
        FirstToken(m.toks, m.pos + Len(s), tl.head);
      }
      var n2, m2 := PassStmt(w, s0, n + 1, m1, s, fuel);
      if !Completes(Expect(w, m1, s, fuel)) {
        n', m' := n2, m2;
      } else {
        n', m' := PassTail(w, s0, n, m, m1, n2, m2, s, tl, fuel);
      }
  }

  lemma NothingHappened(m: M)
    ensures Framed(m.toks, m.toks, m.pos, m.pos) && CtlAfter(m.c, m.c, Normal)
  {
  }

  lemma {:induction false} PassTail(w: World, s0: M, n: nat, m: M, m1: M, n2: nat, m2: M, s: Stmt, tl: Stmts, fuel: nat)
    returns (n': nat, m': M)
    requires Begins(w, s0, n, m, ListMore) && m.vs.Push?
    requires m1 == m.(work := Seq3(N(StmtN), R(2, Nop), N(ListMore), m.work.rest))
    requires EndsStmt(w, s0, n + 1, m1, s, fuel, n2, m2) && Completes(Expect(w, m1, s, fuel))
    requires SpellsSS(m.toks, m.pos + Len(s), tl) && ParsedSS(tl) && EndsList(m.toks, m.pos + Len(s) + LenSS(tl))
    ensures Steps(w, s0, n') == m'
    ensures Ends(m, n, m', n', m.vs.rest, Len(s) + LenSS(tl), ExpectSS(w, m, MoreStmts(s, tl), fuel), fuel)
    ensures Completes(ExpectSS(w, m, MoreStmts(s, tl), fuel)) ==>
              Spells(m'.toks, m.pos, s) && SpellsSS(m'.toks, m.pos + Len(s), tl)
    decreases tl, fuel, 2
  {
    hide Steps, Exec, Spells, Len, SpellsSS, LenSS, Framed, CtlAfter;
    var out1 := Expect(w, m1, s, fuel).out;
    ListJoin(w, m2, m2.vs.top, m.vs.top, m.vs.rest);
    Then(w, s0, n2, m2, 1);
    var m3 := Steps(w, s0, n2 + 1);
    CtlKept(m.c, m2.c, out1);
    var a, b := m.pos, m.pos + Len(s);
    KeepSS(m.toks, m3.toks, a, b, b, tl);
    FrameTok(m.toks, m3.toks, a, b, b + LenSS(tl));
    n', m' := PassSS(w, s0, n2 + 1, m3, tl, fuel);
    if Completes(ExpectSS(w, m3, tl, fuel)) {
      CtlThen(m.c, m2.c, m'.c, out1, ExpectSS(w, m3, tl, fuel).out);
      FrameTrans(m.toks, m3.toks, m'.toks, a, b, b, b + LenSS(tl), a, b + LenSS(tl));
      KeepS(m3.toks, m'.toks, b, b + LenSS(tl), a, s);
    }
  }

  lemma {:induction false} PassBlock(w: World, s0: M, n: nat, m: M, s: Stmt, fuel: nat) returns (n': nat, m': M)
    requires BeginsStmt(w, s0, n, m, s) && s.Block?
    ensures EndsStmt(w, s0, n, m, s, fuel, n', m')
    decreases s, fuel, 2
  {
    hide Steps, ExecSS, SpellsSS, LenSS, Framed, CtlAfter;
    BlockOpen(w, m);
    Then(w, s0, n, m, 3);
    var m1 := Steps(w, s0, n + 3);
    var n2, m2 := PassSS(w, s0, n + 3, m1, s.stmts, fuel);
    if !Completes(ExpectSS(w, m1, s.stmts, fuel)) {
      n', m' := n2, m2;
    } else {
      var a, b := m.pos + 1, m.pos + 1 + LenSS(s.stmts);
      FrameTok(m.toks, m2.toks, a, b, b);
      FrameTok(m.toks, m2.toks, a, b, m.pos);
      FrameWiden(m.toks, m2.toks, a, b, m.pos, m.pos + Len(s));
      BlockClose(w, m2, m2.vs.top, m1.vs.rest.top, m.vs, m.work.rest);
      Then(w, s0, n2, m2, 2);
      n', m' := n2 + 2, Steps(w, s0, n2 + 2);
    }
  }

  // ----- if

  /** The code after the first branch is still looking for a branch to run. */
  predicate Searching(c: Ctl) {
    c.flag == BEFORE_EXECUTE && !c.exec && !c.returned && c.change == DO_NOTHING && c.css.Push? && c.css.top == EXECUTE
  }

  function ExpectElifs(w: World, m: M, el: Elifs, fuel: nat): Res
    requires 0 <= m.c.nest
  {
    if Searching(m.c) then ExecElifs(w, el, m.c.nest, m.store, fuel) else Res(Normal, m.store)
  }

  predicate FollowsElifs(toks: seq<Token>, i: nat, el: Elifs) {
    && i < |toks|
    && toks[i].kind !in {CONTINUED_WHILE, CONTINUED_DOWHILE, CONTINUED_FOR}
    && (EndsOpenElifs(el) ==> toks[i].kind != ELSE && toks[i].kind != ELSEIF)
  }

  ghost predicate BeginsElifs(w: World, s0: M, n: nat, m: M, el: Elifs) {
    && Begins(w, s0, n, m, ElifMore) && m.work.rest.Push? && m.work.rest.top == N(ElseSingle)
    && m.c.css.Push? && (Searching(m.c) || m.c.flag != BEFORE_EXECUTE)
    && m.vs.Push?
    && SpellsElifs(m.toks, m.pos, el) && ParsedElifs(el) && FollowsElifs(m.toks, m.pos + LenElifs(el), el)
  }

  /** The flag pushed when the `if` began is still on css; what matters is what popping it gives. */
  ghost predicate AfterElifs(m: M, m': M, len: nat, out: Outcome, store: Store) {
    && m'.status == Running && m.work.Push? && m.work.rest.Push? && m'.work == m.work.rest.rest && m'.pos == m.pos + len
    && m.vs.Push? && Tops(m'.vs, 2, m.vs.rest)
    && m'.store == store
    && Framed(m.toks, m'.toks, m.pos, m.pos + len)
    && (if Searching(m.c) then CtlAfter(PopFlag(m.c), PopFlag(m'.c), out) else PopFlag(m'.c) == PopFlag(m.c))
  }

  ghost predicate EndsElifs(w: World, s0: M, n: nat, m: M, el: Elifs, fuel: nat, n': nat, m': M)
    requires 0 <= m.c.nest
  {
    && Steps(w, s0, n') == m'
    && (match ExpectElifs(w, m, el, fuel)
        case Timeout => n' >= n + fuel && !Done(m')
        case Res(out, store) =>
          if out == Fatal then m'.status == Failed && m'.store == store
          else n' > n && AfterElifs(m, m', LenElifs(el), out, store) && SpellsElifs(m'.toks, m.pos, el))
  }

  /** Popping the flag after a branch that ran. */
  lemma PoppedAfter(c: Ctl, c': Ctl, out: Outcome)
    requires Live(c) && c.css.Push? && c.css.top == EXECUTE && CtlAfter(c, c', out)
    ensures CtlAfter(PopFlag(c), PopFlag(c'), out) && c'.css == c.css && c'.flag != BEFORE_EXECUTE
  {
  }

  lemma {:induction false} PassElse(w: World, s0: M, n: nat, m: M, el: Elifs, fuel: nat) returns (n': nat, m': M)
    requires BeginsElifs(w, s0, n, m, el) && el.ElsePart?
    ensures EndsElifs(w, s0, n, m, el, fuel, n', m')
    decreases el, fuel, 1
  {
    hide Steps, Exec, Spells, Len, Framed, CtlAfter, EndsOpen, Parsed;
    ElseOpen(w, m, m.work.rest.rest);
    Then(w, s0, n, m, 4);
    var m1 := Steps(w, m, 4);
    assert m1.c.exec == Searching(m.c);
    var n2, m2 := PassStmt(w, s0, n + 4, m1, el.body, fuel);
    if !Completes(Expect(w, m1, el.body, fuel)) {
      n', m' := n2, m2;
    } else {
      n', m' := PassElseEnd(w, s0, n, m, m1, n2, m2, el, fuel);
    }
  }

  lemma PassElseEnd(w: World, s0: M, n: nat, m: M, m1: M, n2: nat, m2: M, el: Elifs, fuel: nat) returns (n': nat, m': M)
    requires BeginsElifs(w, s0, n, m, el) && el.ElsePart? && m.pos < |m.toks|
    requires m1 == m.(c := CsStartElse(m.c), pos := m.pos + 1, vs := Push(m.yyval, Push(Tok(m), m.vs)),
                      work := Seq2(N(StmtN), R(3, Nop), m.work.rest.rest))
    requires EndsStmt(w, s0, n + 4, m1, el.body, fuel, n2, m2) && Completes(Expect(w, m1, el.body, fuel))
    ensures EndsElifs(w, s0, n, m, el, fuel, n', m')
  {
    hide Steps, Exec, Spells, Len, Framed, CtlAfter, EndsOpen, Parsed, ParsedElifs;
    ElseClose(w, m2, m2.vs.top, m1.vs.top, m1.vs.rest.top, m.vs);
    Then(w, s0, n2, m2, 1);
    n', m' := n2 + 1, Steps(w, m2, 1);
    var a, b := m.pos + 1, m.pos + 1 + Len(el.body);
    FrameTok(m.toks, m2.toks, a, b, m.pos);
    FrameWiden(m.toks, m2.toks, a, b, m.pos, b);
    if Searching(m.c) {
      PoppedAfter(m1.c, m2.c, Expect(w, m1, el.body, fuel).out);
    } else {
      Skipped(m1.c, m2.c);
    }
  }

  lemma Skipped(c: Ctl, c': Ctl)
    requires !c.exec && CtlAfter(c, c', Normal)
    ensures c' == c
  {
  }

  /** The control globals before the branch of an `elseif` whose condition has value v. */
  function ElifCtl(c: Ctl, v: Value): Ctl {
    if Searching(c) then (if IsTrue(v) then c.(flag := EXECUTE, exec := true) else c)
    else c.(flag := if c.flag == EXECUTE then DONT_EXECUTE else c.flag, exec := false)
  }

  /** An `elseif` evaluates its condition only while no branch has been taken. */
  lemma ElifCtlSteps(c: Ctl, v: Value)
    requires Settled(c) && c.css.Push? && (Searching(c) || c.flag != BEFORE_EXECUTE)
    ensures var c1 := CsElseifStartEvaluate(c);
            Settled(c1) && c1.exec == Searching(c) && CsStartElseif(PopFlag(c1), IsTrue(v)) == ElifCtl(c, v)
  {
  }

  /** m1 is in front of the branch of an `elseif`. */
  ghost predicate BeforeBranch(w: World, m: M, el: Elifs, m1: M)
    requires el.Elif? && m.work.Push?
  {
    && m1.status == Running && m1.work == Seq3(N(StmtN), R(9, Nop), N(ElifMore), m.work.rest)
    && m1.pos == m.pos + 3 + LenE(el.test) && m1.toks == m.toks && Tops(m1.vs, 7, m.vs)
    && (if Searching(m.c) then
          m1.store == EvalE(w, el.test, m.store).1 && m1.c == ElifCtl(m.c, EvalE(w, el.test, m.store).0)
        else m1.store == m.store && m1.c == ElifCtl(m.c, Unset))
  }

  lemma PassElifTest(w: World, s0: M, n: nat, m: M, el: Elifs) returns (n1: nat, m1: M)
    requires BeginsElifs(w, s0, n, m, el) && el.Elif?
    ensures n1 > n && Steps(w, s0, n1) == m1 && BeforeBranch(w, m, el, m1)
  {
    hide Steps, EvalE, SpellsE, LenE, Spells, Len, CsElseifStartEvaluate, CsStartElseif, PopFlag, ElifCtl,
      FollowsElifs, ParsedElifs, Inert, IntTop, Searching, ShouldExecute, IsTrue;
    var n2, m2, cell := PassElifExpr(w, s0, n, m, el);
    ElifTest(w, m2, cell, m2.vs.rest, m2.work.rest.rest.rest);
    Then(w, s0, n2, m2, 3);
    n1, m1 := n2 + 3, Steps(w, m2, 3);
    ElifCtlSteps(m.c, cell.val);
    ElifCtlUnread(m.c, cell.val);
  }

  lemma PassElifExpr(w: World, s0: M, n: nat, m: M, el: Elifs) returns (n2: nat, m2: M, cell: Cell)
    requires BeginsElifs(w, s0, n, m, el) && el.Elif?
    ensures n2 > n && Steps(w, s0, n2) == m2
    ensures m2.status == Running && m2.vs.Push? && m2.vs.top == cell && Tops(m2.vs, 4, m.vs)
    ensures m2.work == Seq4(R(0, ElifEndEvaluate), T(RPAREN), R(0, StartElif), N(StmtN),
                            Seq2(R(9, Nop), N(ElifMore), m.work.rest))
    ensures m2.c == CsElseifStartEvaluate(m.c) && m2.toks == m.toks && m2.pos == m.pos + 2 + LenE(el.test)
    ensures if Searching(m.c) then (cell.val, m2.store) == EvalE(w, el.test, m.store) else m2.store == m.store
  {
    hide Steps, EvalE, SpellsE, LenE, Spells, Len, CsElseifStartEvaluate, FollowsElifs, ParsedElifs, Inert,
      IntTop, ShouldExecute, Searching;
    ElifCtlSteps(m.c, Unset);
    ElifOpen(w, m);
    var m1 := Steps(w, m, 4);
    var n', cell', store := ThenExpr(w, s0, n, m, 4, el.test);
    n2, m2, cell := n', Passed(m1, LenE(el.test), cell', store), cell';
  }

  lemma ElifCtlUnread(c: Ctl, v: Value)
    ensures !Searching(c) ==> ElifCtl(c, v) == ElifCtl(c, Unset)
  {
  }

  lemma {:induction false} PassElif(w: World, s0: M, n: nat, m: M, el: Elifs, fuel: nat) returns (n': nat, m': M)
    requires BeginsElifs(w, s0, n, m, el) && el.Elif?
    ensures EndsElifs(w, s0, n, m, el, fuel, n', m')
    decreases el, fuel, 2
  {
    hide Steps, Exec, Spells, Len, SpellsE, LenE, EvalE, Framed, CtlAfter, EndsOpen, Parsed, SpellsElifs,
      LenElifs, ExecElifs, AfterElifs;
    var n1, m1 := PassElifTest(w, s0, n, m, el);
    ElifParts(w, m, el, fuel);
    var n2, m2 := PassStmt(w, s0, n1, m1, el.body, fuel);
    if !Completes(Expect(w, m1, el.body, fuel)) {
      n', m' := n2, m2;
    } else {
      n', m' := PassElifRest(w, s0, n, m, n1, m1, n2, m2, el, fuel);
    }
  }

  /** What an `elseif` is spelled by and what it means, in terms of its parts. */
  lemma ElifParts(w: World, m: M, el: Elifs, fuel: nat)
    requires el.Elif? && SpellsElifs(m.toks, m.pos, el) && FollowsElifs(m.toks, m.pos + LenElifs(el), el)
            && ParsedElifs(el)
    requires 0 <= m.c.nest
    ensures var p := m.pos + 3 + LenE(el.test);
            && LenElifs(el) == 3 + LenE(el.test) + Len(el.body) + LenElifs(el.tail)
            && Spells(m.toks, p, el.body) && SpellsElifs(m.toks, p + Len(el.body), el.tail)
            && Parsed(el.body) && ParsedElifs(el.tail)
            && Follows(m.toks, p + Len(el.body), el.body)
            && FollowsElifs(m.toks, p + Len(el.body) + LenElifs(el.tail), el.tail)
    ensures var (v, st) := EvalE(w, el.test, m.store);
            ExecElifs(w, el, m.c.nest, m.store, fuel) ==
              if IsTrue(v) then Exec(w, el.body, m.c.nest, st, fuel) else ExecElifs(w, el.tail, m.c.nest, st, fuel)
  {
    hide SpellsE, LenE, Spells, Len, Exec, EvalE, Parsed;
    var p := m.pos + 3 + LenE(el.test) + Len(el.body);
    match el.tail
    case NoElse => assert EndsOpenElifs(el.tail); assert EndsOpenElifs(el);
    case ElsePart(_) => assert At(m.toks, p, ELSE);
    case Elif(_, _, _) => assert At(m.toks, p, ELSEIF);
  }

  lemma {:induction false} PassElifRest(w: World, s0: M, n: nat, m: M, n1: nat, m1: M, n2: nat, m2: M, el: Elifs,
      fuel: nat)
    returns (n': nat, m': M)
    requires BeginsElifs(w, s0, n, m, el) && el.Elif? && n1 > n && BeforeBranch(w, m, el, m1)
    requires EndsStmt(w, s0, n1, m1, el.body, fuel, n2, m2) && Completes(Expect(w, m1, el.body, fuel))
    ensures EndsElifs(w, s0, n, m, el, fuel, n', m')
    decreases el, fuel, 1
  {
    hide Steps, Exec, Spells, Len, SpellsE, LenE, EvalE, Framed, CtlAfter, EndsOpen, Parsed, SpellsElifs,
      LenElifs, ExecElifs, ParsedElifs;
    ElifParts(w, m, el, fuel);
    ElifClose(w, m2, m.vs.rest);
    Then(w, s0, n2, m2, 1);
    var m3 := Steps(w, m2, 1);
    var out := Expect(w, m1, el.body, fuel).out;
    BranchCtl(m.c, EvalE(w, el.test, m.store).0, m1.c, m2.c, out);
    var a, b, c := m1.pos, m1.pos + Len(el.body), m.pos + LenElifs(el);
    KeepElifs(m.toks, m2.toks, a, b, b, el.tail);
    FrameTok(m.toks, m2.toks, a, b, c);
    n', m' := PassElifs(w, s0, n2 + 1, m3, el.tail, fuel);
    if Completes(ExpectElifs(w, m3, el.tail, fuel)) {
      var out' := ExpectElifs(w, m3, el.tail, fuel).out;
      ElifAssembled(m, m2.toks, m'.toks, el);
    }
  }

  /** After a branch: it was taken and the rest is to be skipped, or the search goes on, or the
      whole `if` is being skipped. */
  lemma BranchCtl(c: Ctl, v: Value, c1: Ctl, c2: Ctl, out: Outcome)
    requires Settled(c) && Inert(c) && c.css.Push? && (Searching(c) || c.flag != BEFORE_EXECUTE)
    requires c1 == (if Searching(c) then ElifCtl(c, v) else ElifCtl(c, Unset)) && CtlAfter(c1, c2, out)
    requires !c1.exec ==> out == Normal
    ensures Settled(c1) && Inert(c1)
    ensures Settled(c2) && Inert(c2) && c2.css == c.css && c2.fors == c.fors && c2.nest == c.nest
    ensures c1.exec <==> Searching(c) && IsTrue(v)
    ensures Searching(c2) <==> Searching(c) && !IsTrue(v)
    ensures Searching(c2) ==> c2 == c
    ensures !Searching(c2) ==> c2.flag != BEFORE_EXECUTE
    ensures !Searching(c) ==> PopFlag(c2) == PopFlag(c)
    ensures Searching(c) && IsTrue(v) ==> CtlAfter(PopFlag(c), PopFlag(c2), out)
  {
  }

  lemma ElifAssembled(m: M, t: seq<Token>, u: seq<Token>, el: Elifs)
    requires el.Elif? && SpellsElifs(m.toks, m.pos, el) && m.pos + LenElifs(el) <= |m.toks|
    requires var p := m.pos + 3 + LenE(el.test);
             && Framed(m.toks, t, p, p + Len(el.body)) && Spells(t, p, el.body)
             && Framed(t, u, p + Len(el.body), m.pos + LenElifs(el)) && SpellsElifs(u, p + Len(el.body), el.tail)
    ensures Framed(m.toks, u, m.pos, m.pos + LenElifs(el)) && SpellsElifs(u, m.pos, el)
  {
    hide SpellsE, LenE, Spells, Len, Framed;
    var p, end := m.pos + 3 + LenE(el.test), m.pos + LenElifs(el);
    var q := p + Len(el.body);
    FrameTrans(m.toks, t, u, p, q, q, end, p, end);
    FrameTok(m.toks, t, p, q, m.pos);
    FrameTok(m.toks, u, p, end, m.pos);
    FrameTok(m.toks, u, p, end, m.pos + 1);
    FrameTok(m.toks, u, p, end, p - 1);
    KeepE(m.toks, u, p, end, m.pos + 2, el.test);
    KeepS(t, u, q, end, p, el.body);
    FrameWiden(m.toks, u, p, end, m.pos, end);
  }

  lemma PassNoElse(w: World, s0: M, n: nat, m: M, el: Elifs, fuel: nat) returns (n': nat, m': M)
    requires BeginsElifs(w, s0, n, m, el) && el.NoElse?
    ensures EndsElifs(w, s0, n, m, el, fuel, n', m')
  {
    hide Steps, Spells, Len, SpellsE, LenE, EvalE, Exec;
    NoElseSteps(w, m, m.work.rest.rest);
    Then(w, s0, n, m, 3);
    n', m' := n + 3, Steps(w, m, 3);
  }

  lemma {:induction false} PassElifs(w: World, s0: M, n: nat, m: M, el: Elifs, fuel: nat) returns (n': nat, m': M)
    requires BeginsElifs(w, s0, n, m, el)
    ensures EndsElifs(w, s0, n, m, el, fuel, n', m')
    decreases el, fuel, 3
  {
    hide BeginsElifs, EndsElifs;
    ElifsNest(w, s0, n, m, el);
    match el
    case NoElse => n', m' := PassNoElse(w, s0, n, m, el, fuel);
    case ElsePart(_) => n', m' := PassElse(w, s0, n, m, el, fuel);
    case Elif(_, _, _) => n', m' := PassElif(w, s0, n, m, el, fuel);
  }

  lemma ElifsNest(w: World, s0: M, n: nat, m: M, el: Elifs)
    requires BeginsElifs(w, s0, n, m, el)
    ensures 0 <= m.c.nest
  {
  }

  /** m1 is in front of the first branch of an `if`. */
  ghost predicate BeforeThen(w: World, m: M, s: Stmt, m1: M)
    requires s.If? && m.work.Push?
  {
    && m1.status == Running
    && m1.work == Seq4(N(StmtN), R(0, Nop), N(ElifMore), N(ElseSingle), Seq1(R(8, EndIf), m.work.rest))
    && m1.pos == m.pos + 3 + LenE(s.test) && m1.toks == m.toks && Tops(m1.vs, 5, m.vs)
    && (if m.c.exec then
          m1.store == EvalE(w, s.test, m.store).1 && m1.c == CsStartIf(m.c, IsTrue(EvalE(w, s.test, m.store).0))
        else m1.store == m.store && m1.c == CsStartIf(m.c, false))
  }

  lemma PassIfTest(w: World, s0: M, n: nat, m: M, s: Stmt) returns (n1: nat, m1: M)
    requires BeginsStmt(w, s0, n, m, s) && s.If?
    ensures n1 > n && Steps(w, s0, n1) == m1 && BeforeThen(w, m, s, m1)
  {
    hide Steps, EvalE, SpellsE, LenE, Spells, Len, CsStartIf, Parsed, Follows, Inert, IntTop, ShouldExecute,
      IsTrue;
    IfSpelled(m.toks, m.pos, s);
    IfOpen(w, m);
    var m2 := Steps(w, m, 3);
    var n3, cell, store := ThenExpr(w, s0, n, m, 3, s.test);
    var m3 := Passed(m2, LenE(s.test), cell, store);
    IfTest(w, m3, cell, m2.vs, m3.work.rest.rest);
    Then(w, s0, n3, m3, 2);
    n1, m1 := n3 + 2, Steps(w, m3, 2);
    StartIfUnread(m.c, IsTrue(cell.val));
  }

  lemma StartIfUnread(c: Ctl, truth: bool)
    ensures !c.exec ==> CsStartIf(c, truth) == CsStartIf(c, false)
  {
  }

  /** What an `if` is spelled by and what it means, in terms of its parts. */
  lemma IfSpelled(t: seq<Token>, a: nat, s: Stmt)
    requires s.If? && Spells(t, a, s) && Follows(t, a + Len(s), s) && Parsed(s)
    ensures var p := a + 3 + LenE(s.test);
            && Len(s) == 3 + LenE(s.test) + Len(s.thn) + LenElifs(s.rest)
            && At(t, a, IF) && At(t, a + 1, LPAREN) && SpellsE(t, a + 2, s.test) && At(t, a + 2 + LenE(s.test), RPAREN)
            && Spells(t, p, s.thn) && SpellsElifs(t, p + Len(s.thn), s.rest)
            && Parsed(s.thn) && ParsedElifs(s.rest)
            && Follows(t, p + Len(s.thn), s.thn)
            && FollowsElifs(t, p + Len(s.thn) + LenElifs(s.rest), s.rest)
  {
    hide SpellsE, LenE, SpellsSS, SpellsCases, SpellsX, SpellsForHead, LenSS, LenCases, LenX, SpellsWhileRest,
      SpellsDoRest, SpellsForRest, ParsedSS, ParsedCases;
    var p := a + 3 + LenE(s.test) + Len(s.thn);
    match s.rest
    case NoElse => assert EndsOpenElifs(s.rest);
    case ElsePart(_) => assert At(t, p, ELSE);
    case Elif(_, _, _) => assert At(t, p, ELSEIF);
  }

  lemma IfExec(w: World, m: M, s: Stmt, fuel: nat)
    requires s.If? && 0 <= m.c.nest
    ensures var (v, st) := EvalE(w, s.test, m.store);
            Exec(w, s, m.c.nest, m.store, fuel) ==
              if IsTrue(v) then Exec(w, s.thn, m.c.nest, st, fuel) else ExecElifs(w, s.rest, m.c.nest, st, fuel)
  {
    hide EvalE;
  }

  lemma {:induction false} PassIf(w: World, s0: M, n: nat, m: M, s: Stmt, fuel: nat) returns (n': nat, m': M)
    requires BeginsStmt(w, s0, n, m, s) && s.If?
    ensures EndsStmt(w, s0, n, m, s, fuel, n', m')
    decreases s, fuel, 2
  {
    hide Steps, Exec, Spells, Len, SpellsE, LenE, EvalE, Framed, CtlAfter, EndsOpen, Parsed, SpellsElifs,
      LenElifs, ExecElifs, After;
    var n1, m1 := PassIfTest(w, s0, n, m, s);
    IfSpelled(m.toks, m.pos, s);
    IfExec(w, m, s, fuel);
    var n2, m2 := PassStmt(w, s0, n1, m1, s.thn, fuel);
    if !Completes(Expect(w, m1, s.thn, fuel)) {
      n', m' := n2, m2;
    } else {
      var n3, m3 := PassIfRest(w, s0, n, m, n1, m1, n2, m2, s, fuel);
      if !Completes(Expect(w, m, s, fuel)) {
        n', m' := n3, m3;
      } else {
        n', m' := PassIfEnd(w, s0, n, m, n3, m3, s, fuel);
      }
    }
  }

  /** After the first branch: it was taken and the rest is to be skipped, or the search begins,
      or the whole `if` is being skipped. */
  lemma ThenCtl(c: Ctl, truth: bool, c1: Ctl, c2: Ctl, out: Outcome)
    requires Settled(c) && Inert(c) && 0 <= c.nest
    requires c1 == (if c.exec then CsStartIf(c, truth) else CsStartIf(c, false)) && CtlAfter(c1, c2, out)
    requires !c1.exec ==> out == Normal
    ensures Settled(c1) && Inert(c1) && c1.fors == c.fors && c1.nest == c.nest
    ensures Settled(c2) && Inert(c2) && c2.css.Push? && c2.fors == c.fors && c2.nest == c.nest
    ensures c1.exec <==> c.exec && truth
    ensures Searching(c2) <==> c.exec && !truth
    ensures Searching(c2) ==> PopFlag(c2) == c
    ensures !Searching(c2) ==> c2.flag != BEFORE_EXECUTE
    ensures !c.exec ==> PopFlag(c2) == c
    ensures c.exec && truth ==> CtlAfter(c, PopFlag(c2), out)
  {
  }

  /** The machine has passed all branches; only the pushed flag is still to be popped. */
  ghost predicate AllBranches(m: M, m3: M, len: nat, out: Outcome, store: Store) {
    && m3.status == Running && m.work.Push? && m3.work == Seq1(R(8, EndIf), m.work.rest) && m3.pos == m.pos + len
    && Tops(m3.vs, 8, m.vs) && m3.store == store
    && Framed(m.toks, m3.toks, m.pos, m.pos + len)
    && CtlAfter(m.c, PopFlag(m3.c), out)
  }

  lemma IfRestSpelled(m: M, u: seq<Token>, s: Stmt)
    requires s.If? && Spells(m.toks, m.pos, s) && Follows(m.toks, m.pos + Len(s), s) && Parsed(s)
    requires var p := m.pos + 3 + LenE(s.test); Framed(m.toks, u, p, p + Len(s.thn))
    ensures var q := m.pos + 3 + LenE(s.test) + Len(s.thn);
            SpellsElifs(u, q, s.rest) && ParsedElifs(s.rest) && FollowsElifs(u, q + LenElifs(s.rest), s.rest)
  {
    hide Spells, Len, SpellsE, LenE, Framed, EndsOpen, Parsed, SpellsElifs, LenElifs, ParsedElifs;
    IfSpelled(m.toks, m.pos, s);
    var p := m.pos + 3 + LenE(s.test);
    var q := p + Len(s.thn);
    KeepElifs(m.toks, u, p, q, q, s.rest);
    FrameTok(m.toks, u, p, q, m.pos + Len(s));
  }

  /** The first branch has been passed; the others come next. */
  lemma {:induction false} IfThenDone(w: World, s0: M, n: nat, m: M, n1: nat, m1: M, n2: nat, m2: M, s: Stmt,
      fuel: nat) returns (m4: M)
    requires BeginsStmt(w, s0, n, m, s) && s.If? && n1 > n && BeforeThen(w, m, s, m1)
    requires EndsStmt(w, s0, n1, m1, s.thn, fuel, n2, m2) && Completes(Expect(w, m1, s.thn, fuel))
    ensures BeginsElifs(w, s0, n2 + 1, m4, s.rest) && n2 > n1 && 0 <= m1.c.nest
    ensures m2.work.Push? && m4 == m2.(vs := Push(m2.yyval, m2.vs), work := m2.work.rest)
  {
    hide Steps, Exec, Spells, Len, SpellsE, LenE, EvalE, Framed, CtlAfter, EndsOpen, Parsed, SpellsElifs,
      LenElifs, ExecElifs, ParsedElifs, ShouldExecute, IsTrue, ToBooleanLong, IntTop, PopFlag;
    IfRestSpelled(m, m2.toks, s);
    MidNop(w, m2);
    Then(w, s0, n2, m2, 1);
    m4 := Steps(w, m2, 1);
    ThenCtl(m.c, IsTrue(EvalE(w, s.test, m.store).0), m1.c, m2.c, Expect(w, m1, s.thn, fuel).out);
  }

  lemma {:induction false} TopsAdd(vs: Stack<Cell>, n1: nat, vs1: Stack<Cell>, n2: nat, r: Stack<Cell>)
    requires Tops(vs, n1, vs1)
    requires n2 > 0 && vs1.Push? && Tops(vs1.rest, n2 - 1, r)
    ensures Tops(vs, n1 + n2, r)
    decreases n1
  {
    if n1 > 0 {
      TopsAdd(vs.rest, n1 - 1, vs1, n2, r);
    }
  }

  /** What an `if` comes to after its first branch: that branch, if it ran or nothing is to run, and
      the others if they are still being searched. */
  lemma IfExpected(w: World, m: M, m1: M, c2: Ctl, s: Stmt, fuel: nat)
    requires s.If? && m.work.Push? && BeforeThen(w, m, s, m1) && Settled(m.c) && Inert(m.c) && 0 <= m.c.nest
    requires 0 <= m1.c.nest && Completes(Expect(w, m1, s.thn, fuel))
            && CtlAfter(m1.c, c2, Expect(w, m1, s.thn, fuel).out)
    ensures c2.nest == m.c.nest
    ensures Searching(c2) ==>
              && Expect(w, m, s, fuel) == ExecElifs(w, s.rest, m.c.nest, Expect(w, m1, s.thn, fuel).store, fuel)
              && PopFlag(c2) == m.c
    ensures !Searching(c2) ==>
              Expect(w, m, s, fuel) == Expect(w, m1, s.thn, fuel)
                  && CtlAfter(m.c, PopFlag(c2), Expect(w, m1, s.thn, fuel).out)
  {
    hide Exec, EvalE, ExecElifs, IsTrue, CtlAfter, Tops, LenE, CsStartIf, Searching, PopFlag, Inert,
      ShouldExecute;
    ThenCtl(m.c, IsTrue(EvalE(w, s.test, m.store).0), m1.c, c2, Expect(w, m1, s.thn, fuel).out);
    IfExec(w, m, s, fuel);
    CtlAfterNothing(m.c);
  }

  lemma {:induction false} PassIfRest(w: World, s0: M, n: nat, m: M, n1: nat, m1: M, n2: nat, m2: M, s: Stmt, fuel: nat)
    returns (n3: nat, m3: M)
    requires BeginsStmt(w, s0, n, m, s) && s.If? && n1 > n && BeforeThen(w, m, s, m1)
    requires EndsStmt(w, s0, n1, m1, s.thn, fuel, n2, m2) && Completes(Expect(w, m1, s.thn, fuel))
    ensures Steps(w, s0, n3) == m3
    ensures match Expect(w, m, s, fuel)
            case Timeout => n3 >= n + fuel && !Done(m3)
            case Res(out, store) =>
              if out == Fatal then m3.status == Failed && m3.store == store
              else n3 > n && AllBranches(m, m3, Len(s), out, store) && Spells(m3.toks, m.pos, s)
    decreases s, fuel, 1
  {
    hide Steps, Exec, Spells, Len, SpellsE, LenE, EvalE, Framed, CtlAfter, EndsOpen, Parsed, SpellsElifs,
      LenElifs, ExecElifs, ParsedElifs, BeginsElifs, FollowsElifs, ShouldExecute, IsTrue, ToBooleanLong, IntTop,
      PopFlag, Tops, Searching, CsStartIf;
    var m4 := IfThenDone(w, s0, n, m, n1, m1, n2, m2, s, fuel);
    IfSpelled(m.toks, m.pos, s);
    IfExpected(w, m, m1, m2.c, s, fuel);
    n3, m3 := PassElifs(w, s0, n2 + 1, m4, s.rest, fuel);
    if Completes(ExpectElifs(w, m4, s.rest, fuel)) {
      IfAssembled(m, m2.toks, m3.toks, s);
      TopsAdd(m3.vs, 2, m2.vs, 6, m.vs);
    }
  }

  lemma CtlAfterNothing(c: Ctl)
    ensures CtlAfter(c, c, Normal)
  {
  }

  lemma IfAssembled(m: M, t: seq<Token>, u: seq<Token>, s: Stmt)
    requires s.If? && Spells(m.toks, m.pos, s) && m.pos + Len(s) <= |m.toks|
    requires var p := m.pos + 3 + LenE(s.test);
             && Framed(m.toks, t, p, p + Len(s.thn)) && Spells(t, p, s.thn)
             && Framed(t, u, p + Len(s.thn), m.pos + Len(s)) && SpellsElifs(u, p + Len(s.thn), s.rest)
    ensures Framed(m.toks, u, m.pos, m.pos + Len(s)) && Spells(u, m.pos, s)
  {
    hide Spells, Len, SpellsE, LenE, SpellsElifs, LenElifs, Framed;
    IfUnfolds(m.toks, m.pos, s);
    IfUnfolds(u, m.pos, s);
    var p, end := m.pos + 3 + LenE(s.test), m.pos + Len(s);
    var q := p + Len(s.thn);
    FrameTrans(m.toks, t, u, p, q, q, end, p, end);
    FrameTok(m.toks, t, p, q, m.pos);
    FrameTok(m.toks, u, p, end, m.pos);
    FrameTok(m.toks, u, p, end, m.pos + 1);
    FrameTok(m.toks, u, p, end, p - 1);
    KeepE(m.toks, u, p, end, m.pos + 2, s.test);
    KeepS(t, u, q, end, p, s.thn);
    FrameWiden(m.toks, u, p, end, m.pos, end);
  }

  lemma {:induction false} PassIfEnd(w: World, s0: M, n: nat, m: M, n3: nat, m3: M, s: Stmt, fuel: nat)
    returns (n': nat, m': M)
    requires BeginsStmt(w, s0, n, m, s) && s.If? && Completes(Expect(w, m, s, fuel))
    requires Steps(w, s0, n3) == m3 && n3 > n && Spells(m3.toks, m.pos, s)
    requires AllBranches(m, m3, Len(s), Expect(w, m, s, fuel).out, Expect(w, m, s, fuel).store)
    ensures EndsStmt(w, s0, n, m, s, fuel, n', m')
  {
    hide Steps, Exec, Spells, Len, Framed, CtlAfter, PopFlag, Parsed, Follows;
    IfClose(w, m3, m.vs);
    Then(w, s0, n3, m3, 1);
    n', m' := n3 + 1, Steps(w, m3, 1);
  }

  // ----- loops in general

  /** The loop goes on after a body that ended with `out`. */
  predicate Again(c: Ctl, truth: bool, out: Outcome) {
    c.exec && truth && GoesOn(out)
  }

  /** How the loop ends if it does not go on. */
  function LoopOut(c: Ctl, truth: bool, out: Outcome): Outcome {
    if c.exec && truth then Outside(out) else Normal
  }

  lemma LoopOutSound(c: Ctl, truth: bool, out: Outcome)
    ensures out != Fatal ==> LoopOut(c, truth, out) != Fatal
  {
  }

  lemma LoopBegins(c: Ctl, truth: bool)
    requires Settled(c) && Inert(c)
    ensures var c1 := LoopCtl(c, truth);
            && Settled(c1) && Inert(c1) && c1.nest == c.nest + 1 && c1.fors == c.fors
            && (c1.exec <==> c.exec && truth)
  {
  }

  /** The actions that end a loop look at the flags only, and read off them exactly whether the
      loop goes on, and otherwise how it ended. */
  lemma LoopEnds(c: Ctl, truth: bool, c': Ctl, out: Outcome)
    requires Settled(c) && Inert(c) && 0 <= c.nest
    requires CtlAfter(LoopCtl(c, truth), c', out) && (!LoopCtl(c, truth).exec ==> out == Normal)
    ensures LoopGoes(c') <==> Again(c, truth, out)
    ensures Again(c, truth, out) ==> CtlAfter(c, LoopLeft(c'), Normal)
    ensures !Again(c, truth, out) ==> CtlAfter(c, LoopLeft(c'), LoopOut(c, truth, out))
  {
  }

  // ----- while

  /** The value of the condition, if it is evaluated at all, and the store after it. */
  function Tested(w: World, m: M, e: Expr): (bool, Store) {
    if m.c.exec then (IsTrue(EvalE(w, e, m.store).0), EvalE(w, e, m.store).1) else (true, m.store)
  }

  ghost predicate BeginsWhile(w: World, s0: M, n: nat, m: M, head: Kind, last: Stack<Sym>, s: Stmt) {
    && Steps(w, s0, n) == m && m.status == Running && m.work == WhilePass(head, last) && last.Push?
    && Settled(m.c) && Inert(m.c) && 0 <= m.c.nest && IntTop(m.c.fors) < m.pos
    && s.While? && At(m.toks, m.pos, head) && SpellsWhileRest(m.toks, m.pos, s.test, s.body)
    && (head == WHILE || (head == CONTINUED_WHILE && m.c.exec))
    && Parsed(s) && Follows(m.toks, m.pos + Len(s), s)
  }

  /** m1 is in front of the body. */
  ghost predicate BeforeBody(w: World, m: M, last: Stack<Sym>, s: Stmt, m1: M)
    requires s.While?
  {
    && m1.status == Running && m1.work == Push(N(StmtN), last) && m1.pos == m.pos + 3 + LenE(s.test)
    && Tops(m1.vs, 5, m.vs) && Nth(m1.vs, 4).off == m.pos
    && m1.c == LoopCtl(m.c, Tested(w, m, s.test).0) && m1.store == Tested(w, m, s.test).1
    && Framed(m.toks, m1.toks, m.pos, m.pos + 1) && At(m1.toks, m.pos, WHILE)
  }

  lemma PassWhileTest(w: World, s0: M, n: nat, m: M, head: Kind, last: Stack<Sym>, s: Stmt) returns (n1: nat, m1: M)
    requires BeginsWhile(w, s0, n, m, head, last, s)
    ensures n1 > n && Steps(w, s0, n1) == m1 && BeforeBody(w, m, last, s, m1)
  {
    hide Steps, EvalE, SpellsE, LenE, Spells, Len, LoopCtl, Parsed, Follows, Inert, IntTop, IsTrue;
    WhileOpen(w, m, head, last);
    var m2 := Steps(w, m, 2);
    var n3, cell, store := ThenExpr(w, s0, n, m, 2, s.test);
    var m3 := Passed(m2, LenE(s.test), cell, store);
    WhileTest(w, m3, cell, m2.vs.top, m2.vs.rest.top, m.vs, m3.work.rest.rest);
    Then(w, s0, n3, m3, 2);
    n1, m1 := n3 + 2, Steps(w, m3, 2);
    LoopUnread(m.c, IsTrue(cell.val));
    TokenSet(m.toks, m.pos, WHILE);
  }

  lemma LoopUnread(c: Ctl, truth: bool)
    ensures !c.exec ==> LoopCtl(c, truth) == LoopCtl(c, true)
  {
  }

  lemma TokenSet(t: seq<Token>, a: nat, k: Kind)
    requires a < |t|
    ensures Framed(t, TcSetToken(t, a, k), a, a + 1) && At(TcSetToken(t, a, k), a, k)
    ensures Framed(t, t, a, a + 1)
    ensures TcSetToken(t, a, k)[a].switched == t[a].switched
  {
  }

  /** What the body of a `while` comes to, if it runs. */
  function ExpectBody(w: World, m: M, s: Stmt, fuel: nat): Res
    requires s.While? && 0 <= m.c.nest
  {
    var (truth, st) := Tested(w, m, s.test);
    if m.c.exec && truth then Exec(w, s.body, m.c.nest + 1, st, fuel) else Res(Normal, st)
  }

  /** One pass over a loop has come to the action that ends it; `depth` values are on top of
      those that were there, the loop's own token lowest. */
  ghost predicate BodyDone(m: M, m2: M, last: Stack<Sym>, depth: nat, s: Stmt, truth: bool, out: Outcome,
      store: Store) {
    && m2.status == Running && m2.work == last && m2.pos == m.pos + Len(s)
    && depth > 0 && Tops(m2.vs, depth, m.vs) && Nth(m2.vs, depth - 1).off == m.pos
    && m2.store == store
    && Framed(m.toks, m2.toks, m.pos, m.pos + Len(s)) && Spells(m2.toks, m.pos, s)
    && CtlAfter(LoopCtl(m.c, truth), m2.c, out)
  }

  lemma {:induction false} PassWhileBody(w: World, s0: M, n: nat, m: M, head: Kind, last: Stack<Sym>, s: Stmt,
      fuel: nat)
    returns (n2: nat, m2: M)
    requires BeginsWhile(w, s0, n, m, head, last, s)
    ensures Steps(w, s0, n2) == m2
    ensures match ExpectBody(w, m, s, fuel)
            case Timeout => n2 >= n + fuel && !Done(m2)
            case Res(out, store) =>
              if out == Fatal then m2.status == Failed && m2.store == store
              else n2 > n && BodyDone(m, m2, last, 6, s, Tested(w, m, s.test).0, out, store)
    decreases s, fuel, 0
  {
    hide Steps, Exec, EvalE, SpellsE, LenE, Spells, LoopCtl, Parsed, EndsOpen, CtlAfter, Framed;
    var n1, m1 := PassWhileTest(w, s0, n, m, head, last, s);
    LoopBegins(m.c, Tested(w, m, s.test).0);
    var p := m.pos + 3 + LenE(s.test);
    WhileParts(s);
    KeepS(m.toks, m1.toks, m.pos, m.pos + 1, p, s.body);
    FrameTok(m.toks, m1.toks, m.pos, m.pos + 1, m.pos + Len(s));
    n2, m2 := PassStmt(w, s0, n1, m1, s.body, fuel);
    if Completes(ExpectBody(w, m, s, fuel)) {
      WhileAssembled(m.toks, m1.toks, m2.toks, m.pos, s);
    }
  }

  lemma WhileParts(s: Stmt)
    requires s.While?
    ensures Parsed(s) ==> Parsed(s.body)
    ensures EndsOpen(s) == EndsOpen(s.body)
  {
  }

  lemma WhileAssembled(t: seq<Token>, t1: seq<Token>, t2: seq<Token>, a: nat, s: Stmt)
    requires s.While? && SpellsWhileRest(t, a, s.test, s.body) && a + Len(s) <= |t|
    requires Framed(t, t1, a, a + 1) && At(t1, a, WHILE)
    requires var p := a + 3 + LenE(s.test); Framed(t1, t2, p, p + Len(s.body)) && Spells(t2, p, s.body)
    ensures Framed(t, t2, a, a + Len(s)) && Spells(t2, a, s)
  {
    hide SpellsE, LenE, SpellsElifs, LenElifs, SpellsSS, SpellsCases, SpellsX, SpellsForHead, Framed;
    var p, end := a + 3 + LenE(s.test), a + Len(s);
    FrameTrans(t, t1, t2, a, a + 1, p, end, a, end);
    FrameTok(t, t1, a, a + 1, a + 1);
    FrameTok(t, t1, a, a + 1, p - 1);
    FrameTok(t1, t2, p, end, a);
    FrameTok(t1, t2, p, end, a + 1);
    FrameTok(t1, t2, p, end, p - 1);
    KeepE(t, t1, a, a + 1, a + 2, s.test);
    KeepE(t1, t2, p, end, a + 2, s.test);
  }

  /** While a `for` is iterating, its own token is on top of for_stack. */
  function OwnFors(fors: Stack<int>, s: Stmt, a: int): Stack<int> {
    if s.For? then Push(a, fors) else fors
  }

  /** After the action that ends a loop: back at its token, or past the loop. Here m is the
      machine before the loop, as far as its control globals are concerned. */
  ghost predicate Turned(m: M, m3: M, nt: Nt, k: Stack<Sym>, below: Stack<Cell>, s: Stmt, again: bool, mark: Kind,
                         out: Outcome, store: Store) {
    && m3.status == Running && m3.work == Push(N(nt), k) && m3.vs.Push? && m3.vs.rest == below
    && m3.store == store
    && Framed(m.toks, m3.toks, m.pos, m.pos + Len(s))
    && (if again then
          && m3.pos == m.pos && At(m3.toks, m.pos, mark) && SpellsLoopRest(m3.toks, m.pos, s)
          && m3.c.fors == OwnFors(m.c.fors, s, m.pos) && CtlAfter(m.c, m3.c.(fors := m.c.fors), Normal)
        else
          m3.pos == m.pos + Len(s) && Spells(m3.toks, m.pos, s) && CtlAfter(m.c, m3.c, out))
  }

  /** A loop but for the kind of its first token. */
  ghost predicate SpellsLoopRest(toks: seq<Token>, a: nat, s: Stmt) {
    match s
    case While(c, body) => SpellsWhileRest(toks, a, c, body)
    case DoWhile(body, c) => SpellsDoRest(toks, a, body, c)
    case For(init, cond, inc, body) =>
      a < |toks| && toks[a].switched && SpellsForRest(toks, a, init, cond, inc, body)
    case _ => false
  }

  lemma MarkedWhile(t: seq<Token>, u: seq<Token>, a: nat, s: Stmt)
    requires s.While? && Spells(t, a, s) && a + Len(s) <= |t| && Framed(t, u, a, a + 1)
    ensures SpellsLoopRest(u, a, s)
  {
    hide SpellsE, LenE, SpellsElifs, LenElifs, SpellsSS, SpellsCases, SpellsX, LenX, SpellsForHead, Framed;
    FrameTok(t, u, a, a + 1, a + 1);
    FrameTok(t, u, a, a + 1, a + 2 + LenE(s.test));
    KeepE(t, u, a, a + 1, a + 2, s.test);
    KeepS(t, u, a, a + 1, a + 3 + LenE(s.test), s.body);
  }

  lemma DoSpelled(t: seq<Token>, a: nat, s: Stmt)
    requires s.DoWhile? && Spells(t, a, s)
    ensures SpellsDoRest(t, a, s.body, s.test) && Len(s) == 5 + Len(s.body) + LenE(s.test)
  {
    hide SpellsE, LenE, SpellsElifs, SpellsSS, SpellsCases, SpellsX, SpellsForHead, LenSS, LenCases;
  }

  lemma MarkedDo(t: seq<Token>, u: seq<Token>, a: nat, s: Stmt)
    requires s.DoWhile? && Spells(t, a, s) && a + Len(s) <= |t| && Framed(t, u, a, a + 1)
    ensures SpellsLoopRest(u, a, s)
  {
    hide Spells, Len, SpellsE, LenE, SpellsX, LenX, SpellsForHead, Framed;
    DoSpelled(t, a, s);
    var p := a + 1 + Len(s.body);
    KeepS(t, u, a, a + 1, a + 1, s.body);
    FrameTok(t, u, a, a + 1, p);
    FrameTok(t, u, a, a + 1, p + 1);
    KeepE(t, u, a, a + 1, p + 2, s.test);
    FrameTok(t, u, a, a + 1, p + 2 + LenE(s.test));
    FrameTok(t, u, a, a + 1, p + 3 + LenE(s.test));
  }

  lemma MarkedFor(t: seq<Token>, u: seq<Token>, a: nat, s: Stmt)
    requires s.For? && Spells(t, a, s) && a + Len(s) <= |t| && t[a].switched
    requires Framed(t, u, a, a + 1) && u[a].switched
    ensures SpellsLoopRest(u, a, s)
  {
    hide SpellsE, LenE, SpellsElifs, LenElifs, SpellsSS, SpellsCases, SpellsX, LenX, Framed, SpellsForHead;
    KeepForHead(t, u, a, a + 1, a, s.init, s.inc, s.cond);
    KeepS(t, u, a, a + 1, a + 5 + LenX(s.init) + LenX(s.cond) + LenX(s.inc), s.body);
  }

  lemma KeepX(t: seq<Token>, u: seq<Token>, a: nat, b: nat, x: nat, xs: Exprs)
    requires Framed(t, u, a, b) && SpellsX(t, x, xs) && x + LenX(xs) <= |t| && (x + LenX(xs) <= a || b <= x)
    ensures SpellsX(u, x, xs)
  {
    hide Framed, Same, SpellsX, LenX;
    FrameSame(t, u, a, b, x, LenX(xs));
    MoveX(t, x, u, x, xs);
  }

  /** The head of a `for` without its first token. */
  lemma KeepForHead(t: seq<Token>, u: seq<Token>, x: nat, y: nat, a: nat, x1: Exprs, x2: Exprs, x3: Exprs)
    requires SpellsForHead(t, a, x1, x2, x3) && Framed(t, u, x, y)
    requires var end := a + 5 + LenX(x1) + LenX(x2) + LenX(x3); end <= |t| && (y <= a + 1 || end <= x)
    ensures SpellsForHead(u, a, x1, x2, x3)
  {
    hide SpellsX, LenX, Framed;
    var p := a + 2 + LenX(x1);
    var q := p + 1 + LenX(x2);
    FrameTok(t, u, x, y, a + 1);
    KeepX(t, u, x, y, a + 2, x1);
    FrameTok(t, u, x, y, p);
    KeepX(t, u, x, y, p + 1, x2);
    FrameTok(t, u, x, y, q);
    KeepX(t, u, x, y, q + 1, x3);
    FrameTok(t, u, x, y, q + 1 + LenX(x3));
  }

  /** The same tokens with the first one marked. */
  lemma LoopMarked(t: seq<Token>, a: nat, s: Stmt, mark: Kind)
    requires (s.While? || s.DoWhile? || (s.For? && a < |t| && t[a].switched)) && Spells(t, a, s) && a + Len(s) <= |t|
    ensures SpellsLoopRest(TcSetToken(t, a, mark), a, s) && At(TcSetToken(t, a, mark), a, mark)
    ensures Framed(t, TcSetToken(t, a, mark), a, a + Len(s))
  {
    hide Spells, SpellsLoopRest, Framed, TcSetToken;
    LongEnough(s);
    var u := TcSetToken(t, a, mark);
    TokenSet(t, a, mark);
    FrameWiden(t, u, a, a + 1, a, a + Len(s));
    match s
    case While(_, _) => MarkedWhile(t, u, a, s);
    case DoWhile(_, _) => MarkedDo(t, u, a, s);
    case For(_, _, _, _) => MarkedFor(t, u, a, s);
  }

  lemma LongEnough(s: Stmt)
    ensures Len(s) >= 1
  {
  }

  /** x is the machine m2 at the end of a pass, but for the parser's own stacks. */
  predicate AtTurn(m2: M, x: M, nt: Nt, k: Stack<Sym>, below: Stack<Cell>) {
    && x.status == Running && x.work == Push(N(nt), k) && x.vs.Push? && x.vs.rest == below
    && x.c == m2.c && x.toks == m2.toks && x.pos == m2.pos && x.store == m2.store
  }

  /** The two ways a loop action can turn out, in terms of how the body ended. */
  lemma LoopTurned(m: M, m2: M, x: M, last: Stack<Sym>, depth: nat, nt: Nt, k: Stack<Sym>, below: Stack<Cell>,
                   s: Stmt, truth: bool, mark: Kind, out: Outcome, store: Store)
    requires BodyDone(m, m2, last, depth, s, truth, out, store) && AtTurn(m2, x, nt, k, below)
    requires s.While? || s.DoWhile?
    requires Settled(m.c) && Inert(m.c) && 0 <= m.c.nest && (!LoopCtl(m.c, truth).exec ==> out == Normal)
    requires m.pos + Len(s) <= |m.toks|
    ensures Turned(m, LoopTurn(x, LoopGoes(m2.c), m.pos, mark), nt, k, below, s, Again(m.c, truth, out), mark,
                   LoopOut(m.c, truth, out), store)
  {
    hide Spells, Len, LoopCtl, CtlAfter, Framed, SpellsLoopRest, LoopLeft, LoopGoes, Nth, Tops, LoopTurn, Again,
      LoopOut, Inert, ShouldExecute, Turned, AtTurn;
    LoopEnds(m.c, truth, m2.c, out);
    if Again(m.c, truth, out) {
      TurnsBack(m, m2, x, nt, k, below, s, mark, LoopOut(m.c, truth, out));
    } else {
      TurnsAway(m, m2, x, nt, k, below, s, mark, LoopOut(m.c, truth, out));
    }
  }

  lemma TurnsBack(m: M, m2: M, x: M, nt: Nt, k: Stack<Sym>, below: Stack<Cell>, s: Stmt, mark: Kind, out: Outcome)
    requires AtTurn(m2, x, nt, k, below) && Framed(m.toks, m2.toks, m.pos, m.pos + Len(s)) && Spells(m2.toks, m.pos, s)
    requires (s.While? || s.DoWhile?) && m.pos + Len(s) <= |m.toks| && CtlAfter(m.c, LoopLeft(m2.c), Normal)
    ensures Turned(m, LoopTurn(x, true, m.pos, mark), nt, k, below, s, true, mark, out, m2.store)
  {
    hide Spells, Len, CtlAfter, Framed, SpellsLoopRest, LoopLeft, LoopTurn, TcSetToken;
    FrameTok0(m.toks, m2.toks, m.pos, m.pos + Len(s));
    LoopTurnIs(x, m.pos, mark);
    SameFors(m.c, LoopLeft(m2.c), Normal);
    GoesBack(m.toks, m2.toks, m.pos, s, mark);
  }

  lemma TurnsAway(m: M, m2: M, x: M, nt: Nt, k: Stack<Sym>, below: Stack<Cell>, s: Stmt, mark: Kind, out: Outcome)
    requires AtTurn(m2, x, nt, k, below) && Framed(m.toks, m2.toks, m.pos, m.pos + Len(s)) && Spells(m2.toks, m.pos, s)
    requires m2.pos == m.pos + Len(s) && m.pos + Len(s) <= |m.toks| && CtlAfter(m.c, LoopLeft(m2.c), out)
    ensures Turned(m, LoopTurn(x, false, m.pos, mark), nt, k, below, s, false, mark, out, m2.store)
  {
    hide Spells, Len, CtlAfter, Framed, SpellsLoopRest, LoopLeft, LoopTurn, TcSetToken;
    FrameTok0(m.toks, m2.toks, m.pos, m.pos + Len(s));
    LoopTurnIs(x, m.pos, mark);
  }

  lemma LoopTurnIs(x: M, a: nat, mark: Kind)
    requires a <= |x.toks|
    ensures LoopTurn(x, true, a, mark) == x.(c := LoopLeft(x.c), toks := TcSetToken(x.toks, a, mark), pos := a)
    ensures LoopTurn(x, false, a, mark) == x.(c := LoopLeft(x.c))
  {
  }

  lemma GoesBack(t: seq<Token>, u: seq<Token>, a: nat, s: Stmt, mark: Kind)
    requires Framed(t, u, a, a + Len(s)) && a + Len(s) <= |u| && Spells(u, a, s)
    requires s.While? || s.DoWhile? || (s.For? && a < |u| && u[a].switched)
    ensures var v := TcSetToken(u, a, mark); At(v, a, mark) && SpellsLoopRest(v, a, s) && Framed(t, v, a, a + Len(s))
  {
    hide Spells, SpellsLoopRest, Framed, TcSetToken;
    LoopMarked(u, a, s, mark);
    FrameTrans(t, u, TcSetToken(u, a, mark), a, a + Len(s), a, a + Len(s), a, a + Len(s));
  }

  lemma SameFors(c: Ctl, c': Ctl, out: Outcome)
    requires CtlAfter(c, c', out)
    ensures c'.fors == c.fors && c'.(fors := c.fors) == c'
  {
  }

  lemma FrameTok0(t: seq<Token>, u: seq<Token>, a: nat, b: nat)
    requires Framed(t, u, a, b)
    ensures |u| == |t|
  {
  }

  // ----- iteration

  /** One pass over a loop: not enough fuel, or what it came to. */
  datatype PassRes = PassTimeout | PassDone(again: bool, out: Outcome, store: Store)

  predicate IsLoop(s: Stmt) { s.While? || s.DoWhile? || s.For? }

  function BodyPass(r: Res): PassRes {
    match r
    case Timeout => PassTimeout
    case Res(out, st) => PassDone(GoesOn(out), Outside(out), st)
  }

  /** The first pass over a `for` begins with its initialisation, later ones with its increment. */
  function OnePass(w: World, s: Stmt, nest: nat, st: Store, fuel: nat, first: bool): PassRes
    requires IsLoop(s)
  {
    match s
    case While(c, body) =>
      var (v, st1) := EvalE(w, c, st);
      if IsTrue(v) then BodyPass(Exec(w, body, nest + 1, st1, fuel)) else PassDone(false, Normal, st1)
    case DoWhile(body, c) =>
      (match Exec(w, body, nest + 1, st, fuel)
       case Timeout => PassTimeout
       case Res(out, st1) =>
         if !GoesOn(out) then PassDone(false, Outside(out), st1)
         else var (v, st2) := EvalE(w, c, st1); PassDone(IsTrue(v), Normal, st2))
    case For(init, cond, inc, body) =>
      var st1 := EvalX(w, if first then init else inc, st).1;
      var (v, st2) := EvalX(w, cond, st1);
      if IsTrue(v) then BodyPass(Exec(w, body, nest + 1, st2, fuel)) else PassDone(false, Normal, st2)
  }

  /** What is left of a loop after a pass that goes on. */
  function Remainder(w: World, s: Stmt, nest: nat, st: Store, fuel: nat): Res
    requires IsLoop(s)
  {
    match s
    case While(_, _) => ExecWhile(w, s, nest, st, fuel)
    case DoWhile(_, _) => ExecDo(w, s, nest, st, fuel)
    case For(_, _, inc, _) => ExecFor(w, s, nest, EvalX(w, inc, st).1, fuel)
  }

  function Onward(w: World, s: Stmt, nest: nat, p: PassRes, fuel: nat): Res
    requires IsLoop(s)
  {
    match p
    case PassTimeout => Timeout
    case PassDone(again, out, st) => if again then Remainder(w, s, nest, st, fuel) else Res(out, st)
  }

  /** A loop is a pass and what is left of it. */
  lemma LoopUnfolds(w: World, s: Stmt, nest: nat, st: Store, fuel: nat)
    requires IsLoop(s)
    ensures fuel == 0 ==> Exec(w, s, nest, st, fuel) == Timeout && Remainder(w, s, nest, st, fuel) == Timeout
    ensures fuel > 0 ==> Exec(w, s, nest, st, fuel) == Onward(w, s, nest, OnePass(w, s, nest, st, fuel, true), fuel - 1)
    ensures fuel > 0 ==> Remainder(w, s, nest, st, fuel) == Onward(w, s, nest, OnePass(w, s, nest, st, fuel, false),
            fuel - 1)
  {
    hide EvalE, EvalX;
  }

  function ItersNt(s: Stmt): Nt
    requires IsLoop(s)
  {
    match s
    case While(_, _) => WhileIters
    case DoWhile(_, _) => DoIters
    case For(_, _, _, _) => ForIters
  }

  function Mark(s: Stmt): Kind
    requires IsLoop(s)
  {
    match s
    case While(_, _) => CONTINUED_WHILE
    case DoWhile(_, _) => CONTINUED_DOWHILE
    case For(_, _, _, _) => CONTINUED_FOR
  }

  function LoopLen(s: Stmt): nat
    requires IsLoop(s)
  {
    match s
    case While(_, _) => 8
    case DoWhile(_, _) => 11
    case For(_, _, _, _) => 15
  }

  function ExpectPass(w: World, m: M, s: Stmt, fuel: nat, first: bool): PassRes
    requires IsLoop(s) && 0 <= m.c.nest
  {
    if m.c.exec then OnePass(w, s, m.c.nest, m.store, fuel, first) else PassDone(false, Normal, m.store)
  }

  /** A pass from m on has ended at m3, where the parser decides whether to iterate. */
  ghost predicate PassEnds(m: M, n: nat, m3: M, n3: nat, k: Stack<Sym>, s: Stmt, p: PassRes, fuel: nat)
    requires IsLoop(s)
  {
    match p
    case PassTimeout => n3 >= n + fuel && !Done(m3)
    case PassDone(again, out, store) =>
      if !again && out == Fatal then m3.status == Failed && m3.store == store
      else
        && n3 > n && m3.status == Running && m3.vs.Push?
        && Turned(m, m3, ItersNt(s), k, m3.vs.rest, s, again, Mark(s), out, store)
  }

  /** Back at the token of a loop that goes on. A `for` has its own token on top of for_stack. */
  ghost predicate BeginsLater(w: World, s0: M, n: nat, m: M, s: Stmt) {
    && IsLoop(s) && Reached(w, s0, n, m, N(ItersNt(s))) && m.vs.Push?
    && Live(m.c) && 0 <= m.c.nest && ForsLater(m, s)
    && At(m.toks, m.pos, Mark(s)) && SpellsLoopRest(m.toks, m.pos, s)
    && Parsed(s) && Follows(m.toks, m.pos + Len(s), s)
  }

  predicate ForsLater(m: M, s: Stmt) {
    if s.For? then m.c.fors.Push? && m.c.fors.top == m.pos && IntTop(m.c.fors.rest) < m.pos
    else IntTop(m.c.fors) < m.pos
  }

  /** The machine as it was before the loop it is iterating, as far as for_stack is concerned. */
  function Base(m: M, s: Stmt): M {
    if s.For? then m.(c := m.c.(fors := DelTop(m.c.fors))) else m
  }

  /** How a pass over a `while` follows from its test and its body. */
  lemma WhilePassIs(w: World, m: M, s: Stmt, fuel: nat, first: bool)
    requires s.While? && 0 <= m.c.nest
    ensures var (truth, _) := Tested(w, m, s.test);
            ExpectPass(w, m, s, fuel, first) ==
              match ExpectBody(w, m, s, fuel)
              case Timeout => PassTimeout
              case Res(out, store) => PassDone(Again(m.c, truth, out), LoopOut(m.c, truth, out), store)
    ensures !(m.c.exec && Tested(w, m, s.test).0) ==>
              ExpectBody(w, m, s, fuel).Res? && ExpectBody(w, m, s, fuel).out == Normal
  {
    hide Exec, EvalE;
  }

  lemma {:induction false} FirstWhile(w: World, s0: M, n: nat, m: M, s: Stmt, fuel: nat) returns (n3: nat, m3: M)
    requires BeginsStmt(w, s0, n, m, s) && s.While?
    ensures Steps(w, s0, n3) == m3
    ensures PassEnds(m, n, m3, n3, Seq1(R(8, Nop), m.work.rest), s, ExpectPass(w, m, s, fuel, true), fuel)
    ensures ExpectPass(w, m, s, fuel, true).PassDone? && m3.status == Running ==> Tops(m3.vs, 8, m.vs)
    decreases s, fuel, 1
  {
    hide Steps, Exec, EvalE, SpellsE, LenE, Parsed, EndsOpen, CtlAfter, Framed, OnePass, Turned, Len, LoopCtl,
      LoopGoes, LoopTurn;
    WhileHead(m, s);
    StmtOpens(w, m, WHILE);
    Then(w, s0, n, m, 1);
    var m1 := Steps(w, m, 1);
    var last := Seq4(R(0, EndWhile), R(0, Nop), N(WhileIters), R(8, Nop), m.work.rest);
    var n2, m2 := PassWhileBody(w, s0, n + 1, m1, WHILE, last, s, fuel);
    WhilePassIs(w, m, s, fuel, true);
    if !Completes(ExpectBody(w, m, s, fuel)) {
      n3, m3 := n2, m2;
    } else {
      n3, m3 := FirstWhileEnd(w, s0, n, m, m1, n2, m2, last, s, fuel);
    }
  }

  lemma FirstWhileEnd(w: World, s0: M, n: nat, m: M, m1: M, n2: nat, m2: M, last: Stack<Sym>, s: Stmt, fuel: nat)
    returns (n3: nat, m3: M)
    requires BeginsStmt(w, s0, n, m, s) && s.While? && Completes(ExpectBody(w, m, s, fuel))
    requires last == Seq4(R(0, EndWhile), R(0, Nop), N(WhileIters), R(8, Nop), m.work.rest)
    requires m1.c == m.c && m1.toks == m.toks && m1.pos == m.pos && m1.vs == m.vs
    requires n2 > n && Steps(w, s0, n2) == m2
    requires BodyDone(m1, m2, last, 6, s, Tested(w, m, s.test).0, ExpectBody(w, m, s, fuel).out,
            ExpectBody(w, m, s, fuel).store)
    ensures Steps(w, s0, n3) == m3
    ensures PassEnds(m, n, m3, n3, Seq1(R(8, Nop), m.work.rest), s, ExpectPass(w, m, s, fuel, true), fuel)
    ensures Tops(m3.vs, 8, m.vs)
  {
    hide Steps, Exec, EvalE, Spells, Parsed, Follows, CtlAfter, Framed, OnePass, Len, LoopCtl, LoopGoes,
      LoopTurn, Again, LoopOut, Inert, IntTop, ShouldExecute, ExpectPass, ExpectBody, Tested, SpellsLoopRest;
    var truth, body := Tested(w, m, s.test).0, ExpectBody(w, m, s, fuel);
    WhilePassIs(w, m, s, fuel, true);
    LoopBegins(m.c, truth);
    LoopOutSound(m.c, truth, body.out);
    WhileEndFirst(w, m2);
    Then(w, s0, n2, m2, 2);
    var x := m2.(vs := Push(m2.yyval, Push(m2.yyval, m2.vs)), work := m2.work.rest.rest);
    n3, m3 := n2 + 2, Steps(w, m2, 2);
    LoopTurnKeeps(x, LoopGoes(m2.c), m.pos, CONTINUED_WHILE);
    EndInside(m, s);
    LoopTurned(m1, m2, x, last, 6, WhileIters, Seq1(R(8, Nop), m.work.rest), x.vs.rest, s, truth, CONTINUED_WHILE,
        body.out,
               body.store);
  }

  lemma EndInside(m: M, s: Stmt)
    requires Follows(m.toks, m.pos + Len(s), s)
    ensures m.pos + Len(s) <= |m.toks|
  {
  }

  lemma LoopTurnKeeps(x: M, goes: bool, off: int, mark: Kind)
    ensures LoopTurn(x, goes, off, mark).vs == x.vs && LoopTurn(x, goes, off, mark).status == x.status
  {
  }

  lemma {:induction false} LaterWhile(w: World, s0: M, n: nat, m: M, s: Stmt, fuel: nat) returns (n3: nat, m3: M)
    requires BeginsLater(w, s0, n, m, s) && s.While?
    ensures Steps(w, s0, n3) == m3
    ensures PassEnds(m, n, m3, n3, m.work.rest, s, ExpectPass(w, m, s, fuel, false), fuel)
    ensures ExpectPass(w, m, s, fuel, false).PassDone? && m3.status == Running ==>
              m3.vs.Push? && m3.vs.rest == m.vs.rest
    decreases s, fuel, 1
  {
    hide Steps, Exec, EvalE, SpellsE, LenE, Parsed, EndsOpen, CtlAfter, Framed, OnePass, Turned, Len, LoopCtl,
      LoopGoes, LoopTurn, SpellsWhileRest;
    ItersOpen(w, m);
    Then(w, s0, n, m, 1);
    var m1 := Steps(w, m, 1);
    var last := Seq2(R(7, EndWhile), N(WhileIters), m.work.rest);
    var n2, m2 := PassWhileBody(w, s0, n + 1, m1, CONTINUED_WHILE, last, s, fuel);
    WhilePassIs(w, m, s, fuel, false);
    if !Completes(ExpectBody(w, m, s, fuel)) {
      n3, m3 := n2, m2;
    } else {
      n3, m3 := LaterWhileEnd(w, s0, n, m, m1, n2, m2, last, s, fuel);
    }
  }

  lemma LaterWhileEnd(w: World, s0: M, n: nat, m: M, m1: M, n2: nat, m2: M, last: Stack<Sym>, s: Stmt, fuel: nat)
    returns (n3: nat, m3: M)
    requires BeginsLater(w, s0, n, m, s) && s.While? && Completes(ExpectBody(w, m, s, fuel))
    requires last == Seq2(R(7, EndWhile), N(WhileIters), m.work.rest)
    requires m1.c == m.c && m1.toks == m.toks && m1.pos == m.pos && m1.vs == m.vs
    requires n2 > n && Steps(w, s0, n2) == m2
    requires BodyDone(m1, m2, last, 6, s, Tested(w, m, s.test).0, ExpectBody(w, m, s, fuel).out,
            ExpectBody(w, m, s, fuel).store)
    ensures Steps(w, s0, n3) == m3
    ensures PassEnds(m, n, m3, n3, m.work.rest, s, ExpectPass(w, m, s, fuel, false), fuel)
    ensures m3.vs.Push? && m3.vs.rest == m.vs.rest
  {
    hide Steps, Exec, EvalE, Spells, Parsed, Follows, CtlAfter, Framed, OnePass, Len, LoopCtl, LoopGoes,
      LoopTurn, Again, LoopOut, IntTop, ExpectPass, ExpectBody, Tested, SpellsLoopRest;
    var truth, body := Tested(w, m, s.test).0, ExpectBody(w, m, s, fuel);
    WhilePassIs(w, m, s, fuel, false);
    LoopBegins(m.c, truth);
    LoopOutSound(m.c, truth, body.out);
    WhileEndLater(w, m2, m.vs.rest);
    Then(w, s0, n2, m2, 1);
    var y := Nth(m2.vs, 6);
    var x := m2.(vs := Push(y, m.vs.rest), yyval := y, work := m2.work.rest);
    n3, m3 := n2 + 1, Steps(w, m2, 1);
    LoopTurnKeeps(x, LoopGoes(m2.c), m.pos, CONTINUED_WHILE);
    EndInside(m, s);
    LoopTurned(m1, m2, x, last, 6, WhileIters, m.work.rest, m.vs.rest, s, truth, CONTINUED_WHILE, body.out, body.store);
  }

  lemma WhileHead(m: M, s: Stmt)
    requires s.While? && Spells(m.toks, m.pos, s)
    ensures At(m.toks, m.pos, WHILE) && SpellsWhileRest(m.toks, m.pos, s.test, s.body)
  {
  }

  // ----- do while

  ghost predicate BeginsDo(w: World, s0: M, n: nat, m: M, head: Kind, last: Stack<Sym>, s: Stmt) {
    && Steps(w, s0, n) == m && m.status == Running && m.work == DoPass(head, last) && last.Push?
    && Settled(m.c) && Inert(m.c) && 0 <= m.c.nest && IntTop(m.c.fors) < m.pos
    && s.DoWhile? && At(m.toks, m.pos, head) && SpellsDoRest(m.toks, m.pos, s.body, s.test)
    && (head == DO || (head == CONTINUED_DOWHILE && m.c.exec))
    && Parsed(s) && Follows(m.toks, m.pos + Len(s), s)
  }

  function ExpectDoBody(w: World, m: M, s: Stmt, fuel: nat): Res
    requires s.DoWhile? && 0 <= m.c.nest
  {
    if m.c.exec then Exec(w, s.body, m.c.nest + 1, m.store, fuel) else Res(Normal, m.store)
  }

  /** The body of a `do` has been passed; its condition comes next. */
  ghost predicate DoBodyDone(m: M, m2: M, last: Stack<Sym>, s: Stmt, out: Outcome, store: Store)
    requires s.DoWhile?
  {
    && m2.status == Running && m2.work == DoRest(last) && m2.pos == m.pos + 1 + Len(s.body)
    && Tops(m2.vs, 3, m.vs) && Nth(m2.vs, 2).off == m.pos && m2.store == store
    && Framed(m.toks, m2.toks, m.pos, m.pos + Len(s)) && Spells(m2.toks, m.pos, s)
    && CtlAfter(LoopCtl(m.c, true), m2.c, out)
  }

  lemma DoEnter(w: World, s0: M, n: nat, m: M, head: Kind, last: Stack<Sym>, s: Stmt) returns (m1: M)
    requires BeginsDo(w, s0, n, m, head, last, s)
    ensures BeginsStmt(w, s0, n + 2, m1, s.body) && 0 <= m1.c.nest
    ensures m1.status == Running && m1.work == Push(N(StmtN), DoRest(last)) && m1.pos == m.pos + 1
            && m1.store == m.store
    ensures m1.vs == Push(m.yyval, Push(TokenCell(m.toks, m.pos), m.vs))
    ensures m1.c == LoopCtl(m.c, true) && m1.c.nest == m.c.nest + 1 && m1.c.exec == m.c.exec
    ensures Framed(m.toks, m1.toks, m.pos, m.pos + 1) && At(m1.toks, m.pos, DO)
    ensures m.pos + Len(s) <= |m.toks|
  {
    hide Steps, EvalE, SpellsE, LenE, Spells, LoopCtl, Parsed, EndsOpen, Framed, DoRest, Len, ShouldExecute;
    DoOpen(w, m, head, last);
    Then(w, s0, n, m, 2);
    m1 := Steps(w, m, 2);
    LoopBegins(m.c, true);
    TokenSet(m.toks, m.pos, DO);
    DoBodySpelled(m.toks, m1.toks, m.pos, s);
  }

  lemma DoBodySpelled(t: seq<Token>, u: seq<Token>, a: nat, s: Stmt)
    requires s.DoWhile? && SpellsDoRest(t, a, s.body, s.test) && Parsed(s) && Follows(t, a + Len(s), s)
    requires Framed(t, u, a, a + 1)
    ensures Spells(u, a + 1, s.body) && Parsed(s.body) && Follows(u, a + 1 + Len(s.body), s.body)
    ensures a + Len(s) <= |t|
  {
    hide SpellsE, LenE, Spells, Parsed, EndsOpen, Framed, Len;
    DoParts(t, a, s);
    KeepS(t, u, a, a + 1, a + 1, s.body);
    FrameTok(t, u, a, a + 1, a + 1 + Len(s.body));
  }

  lemma {:induction false} PassDoBody(w: World, s0: M, n: nat, m: M, head: Kind, last: Stack<Sym>, s: Stmt, fuel: nat)
    returns (n2: nat, m2: M)
    requires BeginsDo(w, s0, n, m, head, last, s)
    ensures Steps(w, s0, n2) == m2
    ensures match ExpectDoBody(w, m, s, fuel)
            case Timeout => n2 >= n + fuel && !Done(m2)
            case Res(out, store) =>
              if out == Fatal then m2.status == Failed && m2.store == store
              else n2 > n && DoBodyDone(m, m2, last, s, out, store)
    decreases s, fuel, 0
  {
    hide Steps, Exec, EvalE, SpellsE, LenE, Spells, LoopCtl, Parsed, EndsOpen, CtlAfter, Framed, DoRest, Len,
      ShouldExecute, BeginsStmt;
    var m1 := DoEnter(w, s0, n, m, head, last, s);
    n2, m2 := PassStmt(w, s0, n + 2, m1, s.body, fuel);
    if Completes(ExpectDoBody(w, m, s, fuel)) {
      DoAssembled(m.toks, m1.toks, m2.toks, m.pos, s);
    }
  }

  lemma DoParts(t: seq<Token>, a: nat, s: Stmt)
    requires s.DoWhile? && SpellsDoRest(t, a, s.body, s.test) && Parsed(s)
    ensures Parsed(s.body) && Follows(t, a + 1 + Len(s.body), s.body)
    ensures Len(s) == 5 + Len(s.body) + LenE(s.test)
  {
    hide SpellsE, LenE, Spells;
  }

  lemma DoAssembled(t: seq<Token>, t1: seq<Token>, t2: seq<Token>, a: nat, s: Stmt)
    requires s.DoWhile? && SpellsDoRest(t, a, s.body, s.test) && a + Len(s) <= |t|
    requires Framed(t, t1, a, a + 1) && At(t1, a, DO)
    requires Framed(t1, t2, a + 1, a + 1 + Len(s.body)) && Spells(t2, a + 1, s.body)
    ensures Framed(t, t2, a, a + Len(s)) && Spells(t2, a, s)
  {
    hide SpellsE, LenE, SpellsElifs, LenElifs, SpellsSS, SpellsCases, SpellsX, SpellsForHead, Framed, LenSS,
      LenCases, SpellsWhileRest, SpellsForRest;
    var p, end := a + 1 + Len(s.body), a + Len(s);
    FrameTrans(t, t1, t2, a, a + 1, a + 1, p, a, p);
    FrameWiden(t, t2, a, p, a, end);
    FrameTok(t1, t2, a + 1, p, a);
    FrameTok(t, t2, a, p, p);
    FrameTok(t, t2, a, p, p + 1);
    KeepE(t, t2, a, p, p + 2, s.test);
    FrameTok(t, t2, a, p, p + 2 + LenE(s.test));
    FrameTok(t, t2, a, p, p + 3 + LenE(s.test));
  }

  /** A pending `continue` of this loop is dropped before the condition, so that the condition
      is evaluated exactly if the loop may go on. */
  lemma DoForced(c: Ctl, c': Ctl, out: Outcome)
    requires Settled(c) && Inert(c) && 0 <= c.nest
    requires CtlAfter(LoopCtl(c, true), c', out) && (!c.exec ==> out == Normal)
    ensures var c3 := CsForceEvalDoWhile(c');
            && Settled(c3) && (c3.exec <==> c.exec && GoesOn(out))
            && CtlAfter(c, LoopLeft(c3), if c.exec && !GoesOn(out) then Outside(out) else Normal)
  {
  }

  /** One pass over a `do` has come to the action that ends it, with the value of the condition. */
  ghost predicate DoDone(w: World, m: M, m3: M, last: Stack<Sym>, s: Stmt, out: Outcome, store: Store)
    requires s.DoWhile?
  {
    && m3.status == Running && m3.work == last && m3.pos == m.pos + Len(s)
    && Tops(m3.vs, 9, m.vs) && Nth(m3.vs, 8).off == m.pos
    && Framed(m.toks, m3.toks, m.pos, m.pos + Len(s)) && Spells(m3.toks, m.pos, s)
    && Settled(m3.c) && (m3.c.exec <==> m.c.exec && GoesOn(out))
    && CtlAfter(m.c, LoopLeft(m3.c), if m.c.exec && !GoesOn(out) then Outside(out) else Normal)
    && (if m3.c.exec then (Nth(m3.vs, 2).val, m3.store) == EvalE(w, s.test, store) else m3.store == store)
  }

  lemma DoCondition(w: World, s0: M, n2: nat, m2: M, last: Stack<Sym>, e: Expr)
    returns (n4: nat, y: M, cell: Cell, lp: Cell, mid: Cell, wh: Cell)
    requires Steps(w, s0, n2) == m2 && m2.status == Running && m2.work == DoRest(last)
            && Settled(CsForceEvalDoWhile(m2.c))
    requires At(m2.toks, m2.pos, WHILE) && At(m2.toks, m2.pos + 1, LPAREN) && SpellsE(m2.toks, m2.pos + 2, e)
    requires At(m2.toks, m2.pos + 2 + LenE(e), RPAREN)
    ensures n4 > n2 && Steps(w, s0, n4) == y
    ensures y == m2.(c := CsForceEvalDoWhile(m2.c), pos := m2.pos + 2 + LenE(e), work := Seq2(T(RPAREN), T(SEMI), last),
                     vs := Push(cell, Push(lp, Push(mid, Push(wh, m2.vs)))), yyval := cell, store := y.store)
    ensures if y.c.exec then (cell.val, y.store) == EvalE(w, e, m2.store) else y.store == m2.store
  {
    hide Steps, EvalE, SpellsE, LenE, CsForceEvalDoWhile, ShouldExecute;
    DoMiddle(w, m2, last);
    var x := Steps(w, m2, 3);
    var st;
    n4, cell, st := ThenExpr(w, s0, n2, m2, 3, e);
    y := Passed(x, LenE(e), cell, st);
    lp, mid, wh := x.vs.top, x.vs.rest.top, x.vs.rest.rest.top;
  }

  lemma PassDoTest(w: World, s0: M, n: nat, m: M, n2: nat, m2: M, last: Stack<Sym>, s: Stmt, out: Outcome, store: Store)
    returns (n3: nat, m3: M)
    requires s.DoWhile? && n2 > n && Steps(w, s0, n2) == m2 && DoBodyDone(m, m2, last, s, out, store)
    requires Settled(m.c) && Inert(m.c) && 0 <= m.c.nest && (!m.c.exec ==> out == Normal)
    ensures n3 > n && Steps(w, s0, n3) == m3 && DoDone(w, m, m3, last, s, out, store)
  {
    hide Steps, Exec, EvalE, SpellsE, LenE, Spells, Len, LoopCtl, CtlAfter, Framed, LoopLeft,
      CsForceEvalDoWhile, Inert, GoesOn, Outside, ShouldExecute, Tops, Nth, DoRest;
    DoForced(m.c, m2.c, out);
    DoPieces(m2.toks, m.pos, s);
    var n4, y, cell, lp, mid, wh := DoCondition(w, s0, n2, m2, last, s.test);
    DoClose(w, y, last);
    Then(w, s0, n4, y, 2);
    n3, m3 := n4 + 2, Steps(w, y, 2);
    SixOnTop(m3.vs.top, m3.vs.rest.top, cell, lp, mid, wh, m2.vs, m.vs);
  }

  lemma SixOnTop(a: Cell, b: Cell, c: Cell, d: Cell, e: Cell, f: Cell, vs: Stack<Cell>, r: Stack<Cell>)
    requires Tops(vs, 3, r)
    ensures var vs' := Push(a, Push(b, Push(c, Push(d, Push(e, Push(f, vs))))));
            Tops(vs', 9, r) && Nth(vs', 8) == Nth(vs, 2) && Nth(vs', 2) == c
  {
  }

  lemma DoPieces(t: seq<Token>, a: nat, s: Stmt)
    requires s.DoWhile? && Spells(t, a, s)
    ensures var p := a + 1 + Len(s.body);
            && Len(s) == 5 + Len(s.body) + LenE(s.test)
            && At(t, p, WHILE) && At(t, p + 1, LPAREN) && SpellsE(t, p + 2, s.test)
            && At(t, p + 2 + LenE(s.test), RPAREN) && At(t, p + 3 + LenE(s.test), SEMI)
  {
    hide SpellsE, LenE, SpellsElifs, SpellsSS, SpellsCases, SpellsX, SpellsForHead;
  }

  /** How a pass over a `do` follows from its body and its test. */
  function DoPassFrom(w: World, m: M, s: Stmt, body: Res): PassRes
    requires s.DoWhile?
  {
    match body
    case Timeout => PassTimeout
    case Res(out, store) =>
      if !m.c.exec then PassDone(false, Normal, store)
      else if !GoesOn(out) then PassDone(false, Outside(out), store)
      else PassDone(IsTrue(EvalE(w, s.test, store).0), Normal, EvalE(w, s.test, store).1)
  }

  lemma DoPassIs(w: World, m: M, s: Stmt, fuel: nat, first: bool)
    requires s.DoWhile? && 0 <= m.c.nest
    ensures ExpectPass(w, m, s, fuel, first) == DoPassFrom(w, m, s, ExpectDoBody(w, m, s, fuel))
    ensures !m.c.exec ==> ExpectDoBody(w, m, s, fuel) == Res(Normal, m.store)
    ensures !GoesOn(Fatal) && Outside(Fatal) == Fatal
  {
    hide Exec, EvalE;
  }

  lemma OutsideSound(out: Outcome)
    ensures out != Fatal ==> Outside(out) != Fatal
  {
  }

  lemma DoHead(m: M, s: Stmt)
    requires s.DoWhile? && Spells(m.toks, m.pos, s)
    ensures At(m.toks, m.pos, DO) && SpellsDoRest(m.toks, m.pos, s.body, s.test)
  {
  }

  lemma {:induction false} FirstDo(w: World, s0: M, n: nat, m: M, s: Stmt, fuel: nat) returns (n3: nat, m3: M)
    requires BeginsStmt(w, s0, n, m, s) && s.DoWhile?
    ensures Steps(w, s0, n3) == m3
    ensures PassEnds(m, n, m3, n3, Seq1(R(11, Nop), m.work.rest), s, ExpectPass(w, m, s, fuel, true), fuel)
    ensures ExpectPass(w, m, s, fuel, true).PassDone? && m3.status == Running ==> Tops(m3.vs, 11, m.vs)
    decreases s, fuel, 1
  {
    hide Steps, Exec, EvalE, SpellsE, LenE, Parsed, EndsOpen, CtlAfter, Framed, OnePass, Turned, Len, LoopCtl,
      LoopGoes, LoopTurn, LoopLeft, SpellsDoRest;
    DoHead(m, s);
    StmtOpens(w, m, DO);
    Then(w, s0, n, m, 1);
    var m1 := Steps(w, m, 1);
    var last := Seq4(R(0, EndDo), R(0, Nop), N(DoIters), R(11, Nop), m.work.rest);
    var n2, m2 := PassDoBody(w, s0, n + 1, m1, DO, last, s, fuel);
    DoPassIs(w, m, s, fuel, true);
    var body := ExpectDoBody(w, m, s, fuel);
    if !Completes(body) {
      n3, m3 := n2, m2;
    } else {
      var n4, m4 := PassDoTest(w, s0, n, m1, n2, m2, last, s, body.out, body.store);
      n3, m3 := FirstDoEnd(w, s0, n, m, m1, n4, m4, last, s, fuel);
    }
  }

  lemma FirstDoEnd(w: World, s0: M, n: nat, m: M, m1: M, n2: nat, m2: M, last: Stack<Sym>, s: Stmt, fuel: nat)
    returns (n3: nat, m3: M)
    requires BeginsStmt(w, s0, n, m, s) && s.DoWhile? && Completes(ExpectDoBody(w, m, s, fuel))
    requires last == Seq4(R(0, EndDo), R(0, Nop), N(DoIters), R(11, Nop), m.work.rest)
    requires m1.c == m.c && m1.toks == m.toks && m1.pos == m.pos && m1.vs == m.vs
    requires n2 > n && Steps(w, s0, n2) == m2
    requires DoDone(w, m1, m2, last, s, ExpectDoBody(w, m, s, fuel).out, ExpectDoBody(w, m, s, fuel).store)
    ensures Steps(w, s0, n3) == m3
    ensures PassEnds(m, n, m3, n3, Seq1(R(11, Nop), m.work.rest), s, ExpectPass(w, m, s, fuel, true), fuel)
    ensures Tops(m3.vs, 11, m.vs)
  {
    hide Steps, Exec, EvalE, Spells, Parsed, Follows, CtlAfter, Framed, OnePass, Len, LoopLeft, LoopTurn, Inert,
      IntTop, ShouldExecute, ExpectPass, ExpectDoBody, SpellsLoopRest, GoesOn, Outside, IsTrue, Turned,
      SpellsDoRest;
    var body := ExpectDoBody(w, m, s, fuel);
    DoPassIs(w, m, s, fuel, true);
    DoEndFirst(w, m2);
    Then(w, s0, n2, m2, 2);
    var x := m2.(vs := Push(m2.yyval, Push(m2.yyval, m2.vs)), work := m2.work.rest.rest);
    n3, m3 := n2 + 2, Steps(w, m2, 2);
    var goes := m2.c.exec && IsTrue(Nth(m2.vs, 2).val);
    LoopTurnKeeps(x, goes, m.pos, CONTINUED_DOWHILE);
    EndInside(m, s);
    var out := if m.c.exec && !GoesOn(body.out) then Outside(body.out) else Normal;
    OutsideSound(body.out);
    if goes {
      TurnsBack(m, m2, x, DoIters, Seq1(R(11, Nop), m.work.rest), x.vs.rest, s, CONTINUED_DOWHILE, Normal);
    } else {
      TurnsAway(m, m2, x, DoIters, Seq1(R(11, Nop), m.work.rest), x.vs.rest, s, CONTINUED_DOWHILE, out);
    }
  }

  lemma {:induction false} LaterDo(w: World, s0: M, n: nat, m: M, s: Stmt, fuel: nat) returns (n3: nat, m3: M)
    requires BeginsLater(w, s0, n, m, s) && s.DoWhile?
    ensures Steps(w, s0, n3) == m3
    ensures PassEnds(m, n, m3, n3, m.work.rest, s, ExpectPass(w, m, s, fuel, false), fuel)
    ensures ExpectPass(w, m, s, fuel, false).PassDone? && m3.status == Running ==>
              m3.vs.Push? && m3.vs.rest == m.vs.rest
    decreases s, fuel, 1
  {
    hide Steps, Exec, EvalE, SpellsE, LenE, Parsed, EndsOpen, CtlAfter, Framed, OnePass, Turned, Len, LoopCtl,
      LoopGoes, LoopTurn, LoopLeft, SpellsDoRest;
    ItersOpen(w, m);
    Then(w, s0, n, m, 1);
    var m1 := Steps(w, m, 1);
    var last := Seq2(R(10, EndDo), N(DoIters), m.work.rest);
    var n2, m2 := PassDoBody(w, s0, n + 1, m1, CONTINUED_DOWHILE, last, s, fuel);
    DoPassIs(w, m, s, fuel, false);
    var body := ExpectDoBody(w, m, s, fuel);
    if !Completes(body) {
      n3, m3 := n2, m2;
    } else {
      var n4, m4 := PassDoTest(w, s0, n, m1, n2, m2, last, s, body.out, body.store);
      n3, m3 := LaterDoEnd(w, s0, n, m, m1, n4, m4, last, s, fuel);
    }
  }

  lemma {:induction false} LaterDoEnd(w: World, s0: M, n: nat, m: M, m1: M, n2: nat, m2: M, last: Stack<Sym>,
      s: Stmt, fuel: nat)
    returns (n3: nat, m3: M)
    requires BeginsLater(w, s0, n, m, s) && s.DoWhile? && Completes(ExpectDoBody(w, m, s, fuel))
    requires last == Seq2(R(10, EndDo), N(DoIters), m.work.rest)
    requires m1.c == m.c && m1.toks == m.toks && m1.pos == m.pos && m1.vs == m.vs
    requires n2 > n && Steps(w, s0, n2) == m2
    requires DoDone(w, m1, m2, last, s, ExpectDoBody(w, m, s, fuel).out, ExpectDoBody(w, m, s, fuel).store)
    ensures Steps(w, s0, n3) == m3
    ensures PassEnds(m, n, m3, n3, m.work.rest, s, ExpectPass(w, m, s, fuel, false), fuel)
    ensures m3.vs.Push? && m3.vs.rest == m.vs.rest
  {
    hide Steps, Exec, EvalE, Spells, Parsed, Follows, CtlAfter, Framed, OnePass, Len, LoopLeft, LoopTurn, Inert,
      IntTop, ShouldExecute, ExpectPass, ExpectDoBody, SpellsLoopRest, GoesOn, Outside, IsTrue, Turned,
      SpellsDoRest;
    var body := ExpectDoBody(w, m, s, fuel);
    DoPassIs(w, m, s, fuel, false);
    DoEndLater(w, m2, m.vs.rest);
    Then(w, s0, n2, m2, 1);
    var y := Nth(m2.vs, 9);
    var x := m2.(vs := Push(y, m.vs.rest), yyval := y, work := m2.work.rest);
    n3, m3 := n2 + 1, Steps(w, m2, 1);
    var goes := m2.c.exec && IsTrue(Nth(m2.vs, 2).val);
    LoopTurnKeeps(x, goes, m.pos, CONTINUED_DOWHILE);
    EndInside(m, s);
    var out := if m.c.exec && !GoesOn(body.out) then Outside(body.out) else Normal;
    OutsideSound(body.out);
    if goes {
      TurnsBack(m, m2, x, DoIters, m.work.rest, x.vs.rest, s, CONTINUED_DOWHILE, Normal);
    } else {
      TurnsAway(m, m2, x, DoIters, m.work.rest, x.vs.rest, s, CONTINUED_DOWHILE, out);
    }
  }

  // ----- for

  /** The loop is not yet on for_stack. */
  predicate IsFirst(m: M) { IntTop(m.c.fors) != m.pos }

  ghost predicate BeginsFor(w: World, s0: M, n: nat, m: M, head: Kind, last: Stack<Sym>, s: Stmt) {
    && Steps(w, s0, n) == m && m.status == Running && m.work == ForPass(head, last) && last.Push?
    && Settled(m.c) && Inert(m.c) && 0 <= m.c.nest && IntTop(m.c.fors) <= m.pos
    && s.For? && At(m.toks, m.pos, head) && SpellsForRest(m.toks, m.pos, s.init, s.cond, s.inc, s.body)
    && (if IsFirst(m) then head == FOR else head == CONTINUED_FOR && m.c.exec && m.toks[m.pos].switched)
    && Parsed(s) && Follows(m.toks, m.pos + Len(s), s)
  }

  /** The three lists in the order in which they are spelled. */
  function Second(s: Stmt, switched: bool): Exprs
    requires s.For?
  {
    if switched then s.inc else s.cond
  }

  function Third(s: Stmt, switched: bool): Exprs
    requires s.For?
  {
    if switched then s.cond else s.inc
  }

  /** Which of the three lists are evaluated: the initialisation on the first pass, the
      increment on the others, the condition always, wherever the two are spelled. */
  lemma ForCtls(c: Ctl, t: Cell)
    requires Settled(c)
    ensures var first := IntTop(c.fors) != t.off;
            var c1 := ForCtl1(c, t.off);
            var c2 := ForPre2(c1, t);
            var c3 := ForPre3(c2, t);
            && Settled(c1) && (c1.exec <==> c.exec && first)
            && Settled(c2) && (c2.exec <==> c.exec && !(t.switched && first))
            && Settled(c3) && (c3.exec <==> c.exec && t.switched)
            && forall v2, v3 :: ForPreStmt(c3, t, v2, v3) ==
                                LoopCtl(c, if c.exec then IsTrue(if t.switched then v3 else v2) else true)
  {
  }

  /** A list that is evaluated or not. */
  function RunX(w: World, run: bool, xs: Exprs, st: Store): (Value, Store) {
    if run then EvalX(w, xs, st) else (Unset, st)
  }

  /** Before the second list of a `for`. */
  ghost predicate ForAt2(w: World, m: M, last: Stack<Sym>, s: Stmt, m2: M)
    requires s.For? && m.pos < |m.toks|
  {
    var t := TokenCell(m.toks, m.pos);
    && m2.status == Running && m2.work == Push(N(ForExpr), ForRest2(last)) && m2.pos == m.pos + 3 + LenX(s.init)
    && Framed(m.toks, m2.toks, m.pos, m.pos + 1) && At(m2.toks, m.pos, FOR) && m2.toks[m.pos].switched == t.switched
    && m2.c == ForPre2(ForCtl1(m.c, m.pos), t)
    && Tops(m2.vs, 6, m.vs) && Nth(m2.vs, 5) == t && Nth(m2.vs, 0).off == m.pos + 2 + LenX(s.init)
    && m2.store == RunX(w, m.c.exec && IsFirst(m), s.init, m.store).1
  }

  lemma ForHead1(w: World, s0: M, n: nat, m: M, head: Kind, last: Stack<Sym>, s: Stmt) returns (n2: nat, m2: M)
    requires BeginsFor(w, s0, n, m, head, last, s)
    ensures n2 > n && Steps(w, s0, n2) == m2 && ForAt2(w, m, last, s, m2)
  {
    hide Steps, EvalX, SpellsX, LenX, Spells, Len, Parsed, Follows, Inert, ForRest1, ForRest2, ForCtl1, ForPre2,
      Framed, ShouldExecute, EndsX;
    var t := TokenCell(m.toks, m.pos);
    ForCtls(m.c, t);
    ForPieces(m.toks, m.pos, s);
    TokenSet(m.toks, m.pos, FOR);
    ForOpen(w, m, head, last);
    Then(w, s0, n, m, 3);
    var x := Steps(w, m, 3);
    KeepX(m.toks, x.toks, m.pos, m.pos + 1, m.pos + 2, s.init);
    FrameTok(m.toks, x.toks, m.pos, m.pos + 1, m.pos + 2 + LenX(s.init));
    EndsHere(x.toks, m.pos + 2 + LenX(s.init));
    var n3, cell, st := PassX(w, s0, n + 3, x, s.init);
    var y := Passed(x, LenX(s.init), cell, st);
    ForSemi1(w, y, last);
    Then(w, s0, n3, y, 2);
    n2, m2 := n3 + 2, Steps(w, y, 2);
  }

  lemma EndsHere(t: seq<Token>, i: nat)
    requires At(t, i, SEMI) || At(t, i, RPAREN)
    ensures EndsX(t, i)
  {
  }

  /** The parts of a `for` in the order in which they are spelled. */
  lemma ForPieces(t: seq<Token>, a: nat, s: Stmt)
    requires s.For? && SpellsForRest(t, a, s.init, s.cond, s.inc, s.body)
    ensures var x2, x3 := Second(s, t[a].switched), Third(s, t[a].switched);
            var p := a + 2 + LenX(s.init);
            && LenX(x2) + LenX(x3) == LenX(s.cond) + LenX(s.inc)
            && Len(s) == 5 + LenX(s.init) + LenX(x2) + LenX(x3) + Len(s.body)
            && At(t, a + 1, LPAREN) && SpellsX(t, a + 2, s.init) && At(t, p, SEMI)
            && SpellsX(t, p + 1, x2) && At(t, p + 1 + LenX(x2), SEMI)
            && SpellsX(t, p + 2 + LenX(x2), x3) && At(t, p + 2 + LenX(x2) + LenX(x3), RPAREN)
            && Spells(t, p + 3 + LenX(x2) + LenX(x3), s.body)
  {
    hide SpellsX, LenX, Spells;
  }

  /** Before the third list of a `for`. */
  ghost predicate ForAt3(w: World, m: M, last: Stack<Sym>, s: Stmt, m3: M)
    requires s.For? && m.pos < |m.toks|
  {
    var t := TokenCell(m.toks, m.pos);
    var x2 := Second(s, t.switched);
    var semi1 := m.pos + 2 + LenX(s.init);
    var st1 := RunX(w, m.c.exec && IsFirst(m), s.init, m.store).1;
    && m3.status == Running && m3.work == Push(N(ForExpr), ForRest3(last)) && m3.pos == semi1 + 2 + LenX(x2)
    && Framed(m.toks, m3.toks, m.pos, m.pos + 1) && At(m3.toks, m.pos, FOR) && m3.toks[m.pos].switched == t.switched
    && m3.c == ForPre3(ForPre2(ForCtl1(m.c, m.pos), t), t)
    && Tops(m3.vs, 9, m.vs) && Nth(m3.vs, 8) == t
    && Nth(m3.vs, 3).off == semi1 && Nth(m3.vs, 0).off == semi1 + 1 + LenX(x2)
    && (if m.c.exec && !(t.switched && IsFirst(m)) then (Nth(m3.vs, 2).val, m3.store) == EvalX(w, x2, st1)
        else m3.store == st1)
  }

  lemma {:induction false} ForHead2(w: World, s0: M, n: nat, m: M, head: Kind, last: Stack<Sym>, s: Stmt, n2: nat,
      m2: M)
    returns (n3: nat, m3: M)
    requires BeginsFor(w, s0, n, m, head, last, s)
    requires n2 > n && Steps(w, s0, n2) == m2 && ForAt2(w, m, last, s, m2)
    ensures n3 > n && Steps(w, s0, n3) == m3 && ForAt3(w, m, last, s, m3)
  {
    hide Steps, EvalX, SpellsX, LenX, Spells, Len, Parsed, Follows, Inert, ForRest2, ForRest3, ForCtl1, ForPre2,
      ForPre3, Framed, ShouldExecute, EndsX, SpellsForRest, Second, Third, IntTop;
    var t := TokenCell(m.toks, m.pos);
    var x2 := Second(s, t.switched);
    ForCtls(m.c, t);
    ForPieces(m.toks, m.pos, s);
    EndInside(m, s);
    KeepX(m.toks, m2.toks, m.pos, m.pos + 1, m2.pos, x2);
    FrameTok(m.toks, m2.toks, m.pos, m.pos + 1, m2.pos + LenX(x2));
    EndsHere(m2.toks, m2.pos + LenX(x2));
    var n4, cell, st := PassX(w, s0, n2, m2, x2);
    var y := Passed(m2, LenX(x2), cell, st);
    ForSemi2(w, y, last);
    Then(w, s0, n4, y, 2);
    n3, m3 := n4 + 2, Steps(w, y, 2);
  }

  /** The truth of the condition, if it is evaluated at all, and the store after it. */
  function ForTested(w: World, m: M, s: Stmt): (bool, Store)
    requires s.For?
  {
    if m.c.exec then
      var st1 := EvalX(w, if IsFirst(m) then s.init else s.inc, m.store).1;
      var (v, st2) := EvalX(w, s.cond, st1);
      (IsTrue(v), st2)
    else (true, m.store)
  }

  /** Before the body of a `for`. */
  ghost predicate ForAt4(w: World, m: M, last: Stack<Sym>, s: Stmt, m4: M)
    requires s.For? && m.pos < |m.toks|
  {
    var t := TokenCell(m.toks, m.pos);
    && m4.status == Running && m4.work == Push(N(StmtN), last)
    && m4.pos == m.pos + 5 + LenX(s.init) + LenX(s.cond) + LenX(s.inc)
    && Framed(m.toks, m4.toks, m.pos, m.pos + 1) && At(m4.toks, m.pos, FOR) && m4.toks[m.pos].switched == t.switched
    && Tops(m4.vs, 12, m.vs) && ForCells(m, s, Nth(m4.vs, 11), Nth(m4.vs, 6), Nth(m4.vs, 3), Nth(m4.vs, 0))
    && m4.c == LoopCtl(m.c, ForTested(w, m, s).0) && m4.store == ForTested(w, m, s).1
  }

  /** The cells the last action of a `for` looks at. */
  predicate ForCells(m: M, s: Stmt, t: Cell, semi1: Cell, semi2: Cell, close: Cell)
    requires s.For? && m.pos < |m.toks|
  {
    && t == TokenCell(m.toks, m.pos)
    && semi1.off == m.pos + 2 + LenX(s.init)
    && semi2.off == semi1.off + 1 + LenX(Second(s, t.switched))
    && close.off == m.pos + 4 + LenX(s.init) + LenX(s.cond) + LenX(s.inc)
  }

  lemma ForThirdSpelled(m: M, u: seq<Token>, s: Stmt)
    requires s.For? && m.pos < |m.toks| && SpellsForRest(m.toks, m.pos, s.init, s.cond, s.inc, s.body)
    requires Follows(m.toks, m.pos + Len(s), s) && Framed(m.toks, u, m.pos, m.pos + 1)
    ensures var x2, x3 := Second(s, m.toks[m.pos].switched), Third(s, m.toks[m.pos].switched);
            var p := m.pos + 4 + LenX(s.init) + LenX(x2);
            SpellsX(u, p, x3) && EndsX(u, p + LenX(x3)) && At(u, p + LenX(x3), RPAREN)
            && LenX(x2) + LenX(x3) == LenX(s.cond) + LenX(s.inc)
  {
    hide SpellsX, LenX, Spells, Len, Parsed, Follows, Framed, EndsX, SpellsForRest, Second, Third;
    var x2, x3 := Second(s, m.toks[m.pos].switched), Third(s, m.toks[m.pos].switched);
    var p := m.pos + 4 + LenX(s.init) + LenX(x2);
    ForPieces(m.toks, m.pos, s);
    EndInside(m, s);
    KeepX(m.toks, u, m.pos, m.pos + 1, p, x3);
    FrameTok(m.toks, u, m.pos, m.pos + 1, p + LenX(x3));
    EndsHere(u, p + LenX(x3));
  }

  lemma ForHead3(w: World, s0: M, n: nat, m: M, head: Kind, last: Stack<Sym>, s: Stmt, n3: nat, m3: M)
    returns (n4: nat, m4: M)
    requires BeginsFor(w, s0, n, m, head, last, s)
    requires n3 > n && Steps(w, s0, n3) == m3 && ForAt3(w, m, last, s, m3)
    ensures n4 > n && Steps(w, s0, n4) == m4 && ForAt4(w, m, last, s, m4)
  {
    hide Steps, EvalX, SpellsX, LenX, Spells, Len, Parsed, Follows, Inert, ForRest3, ForCtl1, ForPre2, ForPre3,
      LoopCtl, ForPreStmt, Framed, ShouldExecute, EndsX, SpellsForRest, Second, Third, IntTop, IsTrue,
      ForTested;
    var t := TokenCell(m.toks, m.pos);
    var x3 := Third(s, t.switched);
    ForCtls(m.c, t);
    ForThirdSpelled(m, m3.toks, s);
    var n5, cell, st := PassX(w, s0, n3, m3, x3);
    var y := Passed(m3, LenX(x3), cell, st);
    ForParen(w, y, last);
    Then(w, s0, n5, y, 2);
    n4, m4 := n5 + 2, Steps(w, y, 2);
    ForTestedIs(w, m, s, Nth(m3.vs, 2).val, m3.store, cell.val, st);
  }

  /** However the lists are spelled, the condition is the one that decides. */
  lemma ForTestedIs(w: World, m: M, s: Stmt, v2: Value, st2: Store, v3: Value, st3: Store)
    requires s.For? && m.pos < |m.toks| && (IsFirst(m) || m.toks[m.pos].switched)
    requires var sw := m.toks[m.pos].switched;
             var st1 := RunX(w, m.c.exec && IsFirst(m), s.init, m.store).1;
             && (if m.c.exec && !(sw && IsFirst(m)) then (v2, st2) == EvalX(w, Second(s, sw), st1) else st2 == st1)
             && (if m.c.exec && sw then (v3, st3) == EvalX(w, Third(s, sw), st2) else st3 == st2)
    ensures ForTested(w, m, s) == (if m.c.exec then IsTrue(if m.toks[m.pos].switched then v3 else v2) else true, st3)
  {
    hide EvalX, IsTrue;
  }

  function ExpectForBody(w: World, m: M, s: Stmt, fuel: nat): Res
    requires s.For? && 0 <= m.c.nest
  {
    var (truth, st) := ForTested(w, m, s);
    if m.c.exec && truth then Exec(w, s.body, m.c.nest + 1, st, fuel) else Res(Normal, st)
  }

  /** One pass over a `for` has come to its last action. */
  ghost predicate ForBodyDone(m: M, m5: M, last: Stack<Sym>, s: Stmt, truth: bool, out: Outcome, store: Store)
    requires s.For? && m.pos < |m.toks|
  {
    && m5.status == Running && m5.work == last && m5.pos == m.pos + Len(s)
    && Tops(m5.vs, 13, m.vs) && ForCells(m, s, Nth(m5.vs, 12), Nth(m5.vs, 7), Nth(m5.vs, 4), Nth(m5.vs, 1))
    && m5.store == store
    && Framed(m.toks, m5.toks, m.pos, m.pos + Len(s)) && Spells(m5.toks, m.pos, s)
    && |m5.toks| == |m.toks| && m5.toks[m.pos].switched == m.toks[m.pos].switched
    && CtlAfter(LoopCtl(m.c, truth), m5.c, out)
  }

  lemma PassForHead(w: World, s0: M, n: nat, m: M, head: Kind, last: Stack<Sym>, s: Stmt) returns (n4: nat, m4: M)
    requires BeginsFor(w, s0, n, m, head, last, s)
    ensures n4 > n && Steps(w, s0, n4) == m4 && ForAt4(w, m, last, s, m4)
  {
    hide Steps, ForAt2, ForAt3, ForAt4;
    var n2, m2 := ForHead1(w, s0, n, m, head, last, s);
    var n3, m3 := ForHead2(w, s0, n, m, head, last, s, n2, m2);
    n4, m4 := ForHead3(w, s0, n, m, head, last, s, n3, m3);
  }

  lemma ForEnter(w: World, s0: M, n: nat, m: M, head: Kind, last: Stack<Sym>, s: Stmt, n4: nat, m4: M)
    requires BeginsFor(w, s0, n, m, head, last, s) && Steps(w, s0, n4) == m4 && ForAt4(w, m, last, s, m4)
    ensures BeginsStmt(w, s0, n4, m4, s.body) && m4.c.nest == m.c.nest + 1
    ensures m4.c.exec <==> m.c.exec && ForTested(w, m, s).0
    ensures m.pos + Len(s) <= |m.toks| && m4.pos + Len(s.body) == m.pos + Len(s)
  {
    hide Steps, SpellsX, LenX, Spells, LoopCtl, Parsed, EndsOpen, Framed, ForTested, SpellsForRest, Len,
      ShouldExecute, Tops, Nth;
    LoopBegins(m.c, ForTested(w, m, s).0);
    ForParts(m.toks, m.pos, s);
    KeepS(m.toks, m4.toks, m.pos, m.pos + 1, m4.pos, s.body);
    FrameTok(m.toks, m4.toks, m.pos, m.pos + 1, m.pos + Len(s));
  }

  lemma {:induction false} PassForBody(w: World, s0: M, n: nat, m: M, head: Kind, last: Stack<Sym>, s: Stmt, fuel: nat)
    returns (n5: nat, m5: M)
    requires BeginsFor(w, s0, n, m, head, last, s)
    ensures Steps(w, s0, n5) == m5
    ensures match ExpectForBody(w, m, s, fuel)
            case Timeout => n5 >= n + fuel && !Done(m5)
            case Res(out, store) =>
              if out == Fatal then m5.status == Failed && m5.store == store
              else n5 > n && ForBodyDone(m, m5, last, s, ForTested(w, m, s).0, out, store)
    decreases s, fuel, 0
  {
    hide Steps, Exec, SpellsX, LenX, Spells, LoopCtl, Parsed, EndsOpen, CtlAfter, Framed, ForTested,
      SpellsForRest, Len, BeginsStmt, ShouldExecute;
    var n4, m4 := PassForHead(w, s0, n, m, head, last, s);
    ForEnter(w, s0, n, m, head, last, s, n4, m4);
    n5, m5 := PassStmt(w, s0, n4, m4, s.body, fuel);
    if Completes(ExpectForBody(w, m, s, fuel)) {
      ForAssembled(m.toks, m4.toks, m5.toks, m.pos, s);
    }
  }

  lemma ForParts(t: seq<Token>, a: nat, s: Stmt)
    requires s.For? && SpellsForRest(t, a, s.init, s.cond, s.inc, s.body) && Parsed(s)
    ensures Parsed(s.body) && EndsOpen(s) == EndsOpen(s.body)
    ensures Len(s) == 5 + LenX(s.init) + LenX(s.cond) + LenX(s.inc) + Len(s.body)
    ensures Spells(t, a + 5 + LenX(s.init) + LenX(s.cond) + LenX(s.inc), s.body)
  {
    hide SpellsX, LenX, Spells, SpellsForHead;
  }

  lemma ForAssembled(t: seq<Token>, t1: seq<Token>, t2: seq<Token>, a: nat, s: Stmt)
    requires s.For? && SpellsForRest(t, a, s.init, s.cond, s.inc, s.body) && a + Len(s) <= |t|
    requires Framed(t, t1, a, a + 1) && At(t1, a, FOR) && t1[a].switched == t[a].switched
    requires var p := a + 5 + LenX(s.init) + LenX(s.cond) + LenX(s.inc);
             Framed(t1, t2, p, p + Len(s.body)) && Spells(t2, p, s.body)
    ensures Framed(t, t2, a, a + Len(s)) && Spells(t2, a, s) && |t2| == |t| && t2[a].switched == t[a].switched
  {
    hide SpellsE, LenE, SpellsElifs, LenElifs, SpellsSS, SpellsCases, SpellsX, LenX, SpellsForHead, Framed;
    var p, end := a + 5 + LenX(s.init) + LenX(s.cond) + LenX(s.inc), a + Len(s);
    var x2, x3 := Second(s, t[a].switched), Third(s, t[a].switched);
    FrameTrans(t, t1, t2, a, a + 1, p, end, a, end);
    FrameTok(t1, t2, p, end, a);
    FrameTok0(t, t1, a, a + 1);
    KeepForHead(t, t1, a, a + 1, a, s.init, x2, x3);
    KeepForHead(t1, t2, p, end, a, s.init, x2, x3);
  }

  // ----- swapping

  /** Where the tokens are after tc_switch. */
  lemma TcSwitchMoves(t: seq<Token>, start: nat, end: nat, middle: nat)
    requires start <= middle <= end < |t|
    ensures var u := TcSwitch(t, start, end, middle);
            var l1, l2 := middle - start, end - middle;
            && Framed(t, u, start, end + 1)
            && Same(t, middle + 1, u, start, l2)
            && u[start + l2] == t[middle]
            && Same(t, start, u, start + l2 + 1, l1)
  {
    var u := TcSwitch(t, start, end, middle);
    assert |u| == |t|;
  }

  /** Once swapped and marked as such, the same `for` is spelled by the cache. */
  lemma SwapSpells(t: seq<Token>, a: nat, s: Stmt)
    requires s.For? && Spells(t, a, s) && a + Len(s) <= |t| && !t[a].switched
    ensures var semi1 := a + 2 + LenX(s.init);
            var semi2 := semi1 + 1 + LenX(s.cond);
            var close := semi2 + 1 + LenX(s.inc);
            var u := TcSetSwitched(TcSwitch(t, semi1 + 1, close - 1, semi2), a);
            |u| == |t| && Framed(t, u, a, a + Len(s)) && Spells(u, a, s) && u[a].switched
  {
    hide Spells, Len, SpellsForRest, SpellsX, LenX, Framed, Same, TcSwitch, TcSetSwitched;
    var semi1 := a + 2 + LenX(s.init);
    var semi2 := semi1 + 1 + LenX(s.cond);
    var close := semi2 + 1 + LenX(s.inc);
    var v := TcSwitch(t, semi1 + 1, close - 1, semi2);
    ForSpelled(t, a, s);
    ForPieces(t, a, s);
    TcSwitchMoves(t, semi1 + 1, close - 1, semi2);
    FrameTok0(t, v, semi1 + 1, close);
    KeepX(t, v, semi1 + 1, close, a + 2, s.init);
    FrameTok(t, v, semi1 + 1, close, a);
    FrameTok(t, v, semi1 + 1, close, a + 1);
    FrameTok(t, v, semi1 + 1, close, semi1);
    FrameTok(t, v, semi1 + 1, close, close);
    MoveX(t, semi2 + 1, v, semi1 + 1, s.inc);
    MoveX(t, semi1 + 1, v, semi1 + 2 + LenX(s.inc), s.cond);
    KeepS(t, v, semi1 + 1, close, close + 1, s.body);
    assert SpellsForHead(v, a, s.init, s.inc, s.cond);
    FrameWiden(t, v, semi1 + 1, close, a, a + Len(s));
    SetSwitched(t, v, a, s);
  }

  lemma ForSpelled(t: seq<Token>, a: nat, s: Stmt)
    requires s.For? && Spells(t, a, s)
    ensures At(t, a, FOR) && SpellsForRest(t, a, s.init, s.cond, s.inc, s.body)
  {
  }

  lemma SetSwitched(t: seq<Token>, v: seq<Token>, a: nat, s: Stmt)
    requires s.For? && Framed(t, v, a, a + Len(s)) && a + Len(s) <= |v| && At(v, a, FOR)
    requires SpellsForHead(v, a, s.init, s.inc, s.cond)
    requires Spells(v, a + 5 + LenX(s.init) + LenX(s.cond) + LenX(s.inc), s.body)
    ensures var u := TcSetSwitched(v, a);
            |u| == |t| && Framed(t, u, a, a + Len(s)) && Spells(u, a, s) && u[a].switched
  {
    hide SpellsX, LenX, SpellsE, LenE, SpellsElifs, LenElifs, SpellsSS, SpellsCases, Framed, SpellsForHead;
    var u := TcSetSwitched(v, a);
    SwitchedFrame(v, a);
    FrameTok0(t, v, a, a + Len(s));
    FrameTrans(t, v, u, a, a + Len(s), a, a + 1, a, a + Len(s));
    KeepForHead(v, u, a, a + 1, a, s.init, s.inc, s.cond);
    KeepS(v, u, a, a + 1, a + 5 + LenX(s.init) + LenX(s.cond) + LenX(s.inc), s.body);
  }

  lemma SwitchedFrame(t: seq<Token>, a: nat)
    requires a < |t|
    ensures var u := TcSetSwitched(t, a);
            Framed(t, u, a, a + 1) && |u| == |t| && u[a].switched && u[a].kind == t[a].kind
  {
  }

  // ----- the last action of a `for`

  /** for_stack and the other control globals, with and without the loop's own token. */
  lemma ForCtlTurn(c: Ctl, b: Ctl, a: nat, truth: bool, c': Ctl, out: Outcome)
    requires Settled(c) && Inert(c) && 0 <= c.nest
    requires CtlAfter(LoopCtl(c, truth), c', out) && (!LoopCtl(c, truth).exec ==> out == Normal)
    requires b == c.(fors := b.fors) && IntTop(b.fors) < a && (c.fors == b.fors || c.fors == Push(a, b.fors))
    ensures LoopGoes(c') <==> Again(b, truth, out)
    ensures var d := LoopLeft(c'.(fors := ForsTurned(c', a)));
            if Again(b, truth, out) then d.fors == Push(a, b.fors) && CtlAfter(b, d.(fors := b.fors), Normal)
            else CtlAfter(b, d, LoopOut(b, truth, out))
  {
    var c0 := c'.(fors := b.fors);
    assert CtlAfter(LoopCtl(b, truth), c0, out);
    LoopEnds(b, truth, c0, out);
    assert LoopGoes(c0) == LoopGoes(c');
    assert ForsTurned(c', a) == if LoopGoes(c') then Push(a, b.fors) else b.fors;
  }

  lemma ForToksTurn(m: M, t: seq<Token>, s: Stmt, token: Cell, semi1: Cell, semi2: Cell, close: Cell)
    requires s.For? && m.pos + Len(s) <= |m.toks| && m.pos < |m.toks|
    requires Framed(m.toks, t, m.pos, m.pos + Len(s)) && Spells(t, m.pos, s)
    requires |t| == |m.toks| && t[m.pos].switched == m.toks[m.pos].switched
    requires ForCells(m, s, token, semi1, semi2, close)
    ensures var u := ForSwapped(t, token, semi1, semi2, close);
            |u| == |m.toks| && Framed(m.toks, u, m.pos, m.pos + Len(s)) && Spells(u, m.pos, s) && u[m.pos].switched
  {
    hide Spells, Len, Framed, TcSwitch, TcSetSwitched, LenX;
    if !t[m.pos].switched {
      SwapSpells(t, m.pos, s);
      FrameTrans(m.toks, t, ForSwapped(t, token, semi1, semi2, close), m.pos, m.pos + Len(s), m.pos, m.pos + Len(s),
                 m.pos, m.pos + Len(s));
    }
  }

  lemma {:induction false} ForTurned(b: M, m: M, m5: M, x: M, vs: Stack<Cell>, last: Stack<Sym>, k: Stack<Sym>,
      s: Stmt, truth: bool,
                  out: Outcome, store: Store)
    requires s.For? && m.pos < |m.toks| && ForBodyDone(m, m5, last, s, truth, out, store)
    requires Settled(m.c) && Inert(m.c) && 0 <= m.c.nest && (!LoopCtl(m.c, truth).exec ==> out == Normal)
    requires b.toks == m.toks && b.pos == m.pos && m.pos + Len(s) <= |m.toks|
    requires b.c == m.c.(fors := b.c.fors) && IntTop(b.c.fors) < m.pos
    requires m.c.fors == b.c.fors || m.c.fors == Push(m.pos, b.c.fors)
    requires x.status == Running && x.work == Push(N(ForIters), k) && vs.Push?
    requires x.vs == m5.vs && x.c == m5.c && x.toks == m5.toks && x.pos == m5.pos && x.store == m5.store
    ensures var token := Nth(x.vs, 12);
            var y := x.(c := x.c.(fors := ForsTurned(x.c, m.pos)),
                        toks := ForSwapped(x.toks, token, Nth(x.vs, 7), Nth(x.vs, 4), Nth(x.vs, 1)));
            Turned(b, LoopTurn(y, LoopGoes(x.c), m.pos, CONTINUED_FOR).(vs := vs), ForIters, k, vs.rest, s,
                   Again(b.c, truth, out), CONTINUED_FOR, LoopOut(b.c, truth, out), store)
  {
    hide Spells, Len, LoopCtl, CtlAfter, Framed, SpellsLoopRest, LoopLeft, LoopGoes, Nth, Tops, LoopTurn, Again,
      LoopOut, Inert, ShouldExecute, ForsTurned, ForSwapped, TcSetToken, ForCells;
    ForCtlTurn(m.c, b.c, m.pos, truth, m5.c, out);
    ForToksTurn(m, m5.toks, s, Nth(x.vs, 12), Nth(x.vs, 7), Nth(x.vs, 4), Nth(x.vs, 1));
    var y := x.(c := x.c.(fors := ForsTurned(x.c, m.pos)),
                toks := ForSwapped(x.toks, Nth(x.vs, 12), Nth(x.vs, 7), Nth(x.vs, 4), Nth(x.vs, 1)));
    LoopTurnIs(y, m.pos, CONTINUED_FOR);
    if Again(b.c, truth, out) {
      GoesBack(m.toks, y.toks, m.pos, s, CONTINUED_FOR);
    }
  }

  /** How a pass over a `for` follows from its test and its body. */
  lemma ForPassIs(w: World, m: M, s: Stmt, fuel: nat)
    requires s.For? && 0 <= m.c.nest
    ensures var truth := ForTested(w, m, s).0;
            var body := ExpectForBody(w, m, s, fuel);
            ExpectPass(w, m, s, fuel, IsFirst(m)) ==
              if body.Timeout? then PassTimeout
              else PassDone(Again(m.c, truth, body.out), LoopOut(m.c, truth, body.out), body.store)
    ensures !(m.c.exec && ForTested(w, m, s).0) ==>
              ExpectForBody(w, m, s, fuel).Res? && ExpectForBody(w, m, s, fuel).out == Normal
  {
    hide Exec, EvalX;
  }

  lemma ForHeads(m: M, s: Stmt)
    requires s.For? && Spells(m.toks, m.pos, s)
    ensures At(m.toks, m.pos, FOR) && SpellsForRest(m.toks, m.pos, s.init, s.cond, s.inc, s.body)
  {
  }

  lemma {:induction false} FirstFor(w: World, s0: M, n: nat, m: M, s: Stmt, fuel: nat) returns (n3: nat, m3: M)
    requires BeginsStmt(w, s0, n, m, s) && s.For?
    ensures Steps(w, s0, n3) == m3
    ensures PassEnds(m, n, m3, n3, Seq1(R(15, Nop), m.work.rest), s, ExpectPass(w, m, s, fuel, true), fuel)
    ensures ExpectPass(w, m, s, fuel, true).PassDone? && m3.status == Running ==> Tops(m3.vs, 15, m.vs)
    decreases s, fuel, 1
  {
    hide Steps, Exec, Parsed, EndsOpen, CtlAfter, Framed, OnePass, Turned, Len, LoopCtl, LoopGoes, LoopTurn,
      SpellsForRest, ForTested, ForBodyDone, Base;
    ForHeads(m, s);
    StmtOpens(w, m, FOR);
    Then(w, s0, n, m, 1);
    var m1 := Steps(w, m, 1);
    var last := Seq4(R(0, ForPostStatement), R(0, Nop), N(ForIters), R(15, Nop), m.work.rest);
    var n2, m2 := PassForBody(w, s0, n + 1, m1, FOR, last, s, fuel);
    ForPassIs(w, m1, s, fuel);
    if !Completes(ExpectForBody(w, m1, s, fuel)) {
      n3, m3 := n2, m2;
    } else {
      n3, m3 := FirstForEnd(w, s0, n, m, m1, n2, m2, last, s, fuel);
    }
  }

  lemma FirstForEnd(w: World, s0: M, n: nat, m: M, m1: M, n2: nat, m2: M, last: Stack<Sym>, s: Stmt, fuel: nat)
    returns (n3: nat, m3: M)
    requires BeginsStmt(w, s0, n, m, s) && s.For?
    requires last == Seq4(R(0, ForPostStatement), R(0, Nop), N(ForIters), R(15, Nop), m.work.rest)
    requires m1 == m.(work := m1.work) && m1.pos < |m1.toks| && Completes(ExpectForBody(w, m1, s, fuel))
    requires n2 > n && Steps(w, s0, n2) == m2
    requires var body := ExpectForBody(w, m1, s, fuel);
             ForBodyDone(m1, m2, last, s, ForTested(w, m1, s).0, body.out, body.store)
    ensures Steps(w, s0, n3) == m3
    ensures PassEnds(m, n, m3, n3, Seq1(R(15, Nop), m.work.rest), s, ExpectPass(w, m, s, fuel, true), fuel)
    ensures Tops(m3.vs, 15, m.vs)
  {
    hide Steps, Exec, Spells, Parsed, Follows, CtlAfter, Framed, OnePass, Len, LoopCtl, LoopGoes, LoopTurn,
      GoesOn, Outside, ExpectForBody, ForTested, SpellsLoopRest, ForPost, ForsTurned, ForSwapped, LenX, Inert,
      ShouldExecute;
    var truth, body := ForTested(w, m1, s).0, ExpectForBody(w, m1, s, fuel);
    ForPassIs(w, m1, s, fuel);
    LoopBegins(m.c, truth);
    LoopOutSound(m.c, truth, body.out);
    ForEndFirst(w, m2);
    Then(w, s0, n2, m2, 2);
    var x := m2.(work := m2.work.rest.rest);
    var vs := Push(m2.yyval, Push(m2.yyval, m2.vs));
    n3, m3 := n2 + 2, Steps(w, m2, 2);
    ForPostIs(x);
    EndInside(m, s);
    ForTurned(m, m1, m2, x, vs, last, Seq1(R(15, Nop), m.work.rest), s, truth, body.out, body.store);
  }

  lemma {:induction false} LaterFor(w: World, s0: M, n: nat, m: M, s: Stmt, fuel: nat) returns (n3: nat, m3: M)
    requires BeginsLater(w, s0, n, m, s) && s.For?
    ensures Steps(w, s0, n3) == m3
    ensures PassEnds(Base(m, s), n, m3, n3, m.work.rest, s, ExpectPass(w, m, s, fuel, false), fuel)
    ensures ExpectPass(w, m, s, fuel, false).PassDone? && m3.status == Running ==>
              m3.vs.Push? && m3.vs.rest == m.vs.rest
    decreases s, fuel, 1
  {
    hide Steps, Exec, Parsed, EndsOpen, CtlAfter, Framed, OnePass, Turned, Len, LoopCtl, LoopGoes, LoopTurn,
      SpellsForRest, ForTested, ForBodyDone, Base;
    ItersOpen(w, m);
    Then(w, s0, n, m, 1);
    var m1 := Steps(w, m, 1);
    var last := Seq2(R(14, ForPostStatement), N(ForIters), m.work.rest);
    var n2, m2 := PassForBody(w, s0, n + 1, m1, CONTINUED_FOR, last, s, fuel);
    ForPassIs(w, m1, s, fuel);
    if !Completes(ExpectForBody(w, m1, s, fuel)) {
      n3, m3 := n2, m2;
    } else {
      n3, m3 := LaterForEnd(w, s0, n, m, m1, n2, m2, last, s, fuel);
    }
  }

  lemma LaterForEnd(w: World, s0: M, n: nat, m: M, m1: M, n2: nat, m2: M, last: Stack<Sym>, s: Stmt, fuel: nat)
    returns (n3: nat, m3: M)
    requires BeginsLater(w, s0, n, m, s) && s.For?
    requires last == Seq2(R(14, ForPostStatement), N(ForIters), m.work.rest)
    requires m1 == m.(work := m1.work) && m1.pos < |m1.toks| && Completes(ExpectForBody(w, m1, s, fuel))
    requires n2 > n && Steps(w, s0, n2) == m2
    requires var body := ExpectForBody(w, m1, s, fuel);
             ForBodyDone(m1, m2, last, s, ForTested(w, m1, s).0, body.out, body.store)
    ensures Steps(w, s0, n3) == m3
    ensures PassEnds(Base(m, s), n, m3, n3, m.work.rest, s, ExpectPass(w, m, s, fuel, false), fuel)
    ensures m3.vs.Push? && m3.vs.rest == m.vs.rest
  {
    hide Steps, Exec, Spells, Parsed, Follows, CtlAfter, Framed, OnePass, Len, LoopCtl, LoopGoes, LoopTurn,
      GoesOn, Outside, ExpectForBody, ForTested, SpellsLoopRest, ForPost, ForsTurned, ForSwapped, LenX;
    var truth, body := ForTested(w, m1, s).0, ExpectForBody(w, m1, s, fuel);
    ForPassIs(w, m1, s, fuel);
    LoopBegins(m.c, truth);
    LoopOutSound(m.c, truth, body.out);
    TopsMore(m2.vs, 13, m.vs);
    ForEndLater(w, m2, m.vs.rest);
    Then(w, s0, n2, m2, 1);
    var x := m2.(yyval := Nth(m2.vs, 13), work := m2.work.rest);
    var vs := Push(Nth(m2.vs, 13), m.vs.rest);
    n3, m3 := n2 + 1, Steps(w, m2, 1);
    ForPostIs(x);
    EndInside(m, s);
    ForTurned(Base(m, s), m1, m2, x, vs, last, m.work.rest, s, truth, body.out, body.store);
  }

  lemma NestStmt(w: World, s0: M, n: nat, m: M, s: Stmt)
    requires BeginsStmt(w, s0, n, m, s)
    ensures 0 <= m.c.nest && m.work.Push?
  {
  }

  lemma NestLater(w: World, s0: M, n: nat, m: M, s: Stmt)
    requires BeginsLater(w, s0, n, m, s)
    ensures 0 <= m.c.nest && m.work.Push? && m.vs.Push? && IsLoop(s)
  {
  }

  lemma {:induction false} PassLater(w: World, s0: M, n: nat, m: M, s: Stmt, fuel: nat) returns (n3: nat, m3: M)
    requires BeginsLater(w, s0, n, m, s)
    ensures Steps(w, s0, n3) == m3
    ensures PassEnds(Base(m, s), n, m3, n3, m.work.rest, s, ExpectPass(w, m, s, fuel, false), fuel)
    ensures ExpectPass(w, m, s, fuel, false).PassDone? && m3.status == Running ==>
              m3.vs.Push? && m3.vs.rest == m.vs.rest
    decreases s, fuel, 2
  {
    hide BeginsStmt, BeginsLater, PassEnds, ExpectPass, Steps, Tops;
    NestLater(w, s0, n, m, s);
    match s
    case While(_, _) => n3, m3 := LaterWhile(w, s0, n, m, s, fuel);
    case DoWhile(_, _) => n3, m3 := LaterDo(w, s0, n, m, s, fuel);
    case For(_, _, _, _) => n3, m3 := LaterFor(w, s0, n, m, s, fuel);
  }

  lemma {:induction false} PassFirst(w: World, s0: M, n: nat, m: M, s: Stmt, fuel: nat) returns (n3: nat, m3: M)
    requires BeginsStmt(w, s0, n, m, s) && IsLoop(s)
    ensures Steps(w, s0, n3) == m3
    ensures PassEnds(m, n, m3, n3, Seq1(R(LoopLen(s), Nop), m.work.rest), s, ExpectPass(w, m, s, fuel, true), fuel)
    ensures ExpectPass(w, m, s, fuel, true).PassDone? && m3.status == Running ==> Tops(m3.vs, LoopLen(s), m.vs)
    decreases s, fuel, 2
  {
    hide BeginsStmt, BeginsLater, PassEnds, ExpectPass, Steps, Tops;
    NestStmt(w, s0, n, m, s);
    match s
    case While(_, _) => n3, m3 := FirstWhile(w, s0, n, m, s, fuel);
    case DoWhile(_, _) => n3, m3 := FirstDo(w, s0, n, m, s, fuel);
    case For(_, _, _, _) => n3, m3 := FirstFor(w, s0, n, m, s, fuel);
  }

  /** Whatever is left to do at the point where the parser decides whether to iterate. */
  lemma {:induction false} FromTurn(w: World, s0: M, n: nat, b: M, n3: nat, m3: M, k: Stack<Sym>, s: Stmt, p: PassRes,
                                    fuel: nat) returns (n': nat, m': M)
    requires IsLoop(s) && Settled(b.c) && Inert(b.c) && 0 <= b.c.nest && IntTop(b.c.fors) < b.pos
    requires Parsed(s) && Follows(b.toks, b.pos + Len(s), s)
    requires p.PassDone? && (p.again ==> b.c.exec) && (p.again || p.out != Fatal)
    requires Steps(w, s0, n3) == m3 && PassEnds(b, n, m3, n3, k, s, p, fuel + 1)
    ensures Steps(w, s0, n') == m'
    ensures Ends(b.(work := Push(N(ItersNt(s)), k)), n, m', n', m3.vs.rest, Len(s), Onward(w, s, b.c.nest, p, fuel),
            fuel + 1)
    ensures Completes(Onward(w, s, b.c.nest, p, fuel)) ==> Spells(m'.toks, b.pos, s)
    decreases s, fuel, 4
  {
    hide Steps, Exec, Spells, Len, SpellsLoopRest, Parsed, EndsOpen, CtlAfter, Framed, Remainder, Production;
    var b' := b.(work := Push(N(ItersNt(s)), k));
    FrameTok(b.toks, m3.toks, b.pos, b.pos + Len(s), b.pos + Len(s));
    if p.again {
      StillLive(b.c, m3.c);
      n', m' := IterateLoop(w, s0, n3, m3, s, fuel);
      if Completes(Remainder(w, s, b.c.nest, p.store, fuel)) {
        CtlThen(b.c, m3.c.(fors := b.c.fors), m'.c, Normal, Remainder(w, s, b.c.nest, p.store, fuel).out);
        FrameTrans(b.toks, m3.toks, m'.toks, b.pos, b.pos + Len(s), b.pos, b.pos + Len(s), b.pos, b.pos + Len(s));
      }
    } else {
      LoopExit(w, m3, s);
      Then(w, s0, n3, m3, 1);
      n', m' := n3 + 1, Steps(w, m3, 1);
    }
  }

  lemma LoopExit(w: World, m: M, s: Stmt)
    requires IsLoop(s) && Handles(m, N(ItersNt(s))) && Follows(m.toks, m.pos, s)
    ensures Steps(w, m, 1) == m.(work := m.work.rest)
  {
    ItersOpen(w, m);
  }

  lemma StillLive(c: Ctl, c': Ctl)
    requires c.exec && Settled(c) && CtlAfter(c, c'.(fors := c.fors), Normal)
    ensures Live(c') && c'.nest == c.nest
  {
  }

  lemma {:induction false} IterateLoop(w: World, s0: M, n: nat, m: M, s: Stmt, fuel: nat) returns (n': nat, m': M)
    requires BeginsLater(w, s0, n, m, s)
    ensures Steps(w, s0, n') == m'
    ensures Ends(Base(m, s), n, m', n', m.vs.rest, Len(s), Remainder(w, s, m.c.nest, m.store, fuel), fuel)
    ensures Completes(Remainder(w, s, m.c.nest, m.store, fuel)) ==> Spells(m'.toks, m.pos, s)
    decreases s, fuel, 3
  {
    hide Steps, Exec, Spells, Len, SpellsLoopRest, Parsed, EndsOpen, CtlAfter, Framed, Remainder, OnePass,
      Turned, After;
    LoopUnfolds(w, s, m.c.nest, m.store, fuel);
    if fuel == 0 {
      n', m' := n, m;
    } else {
      var n3, m3 := PassLater(w, s0, n, m, s, fuel);
      var p := ExpectPass(w, m, s, fuel, false);
      if p.PassTimeout? || (!p.again && p.out == Fatal) {
        n', m' := n3, m3;
      } else {
        BaseFit(m, s);
        n', m' := FromTurn(w, s0, n, Base(m, s), n3, m3, m.work.rest, s, p, fuel - 1);
      }
    }
  }

  lemma BaseFit(m: M, s: Stmt)
    requires Live(m.c) && ForsLater(m, s)
    ensures Settled(Base(m, s).c) && Inert(Base(m, s).c) && IntTop(Base(m, s).c.fors) < m.pos
  {
  }

  /** Every loop, from its first token to past its end. */
  lemma {:induction false} PassLoop(w: World, s0: M, n: nat, m: M, s: Stmt, fuel: nat) returns (n': nat, m': M)
    requires BeginsStmt(w, s0, n, m, s) && IsLoop(s)
    ensures EndsStmt(w, s0, n, m, s, fuel, n', m')
    decreases s, fuel, 5
  {
    hide Steps, Exec, Spells, Len, SpellsLoopRest, Parsed, EndsOpen, CtlAfter, Framed, Remainder, OnePass,
      Turned;
    LoopUnfolds(w, s, m.c.nest, m.store, fuel);
    if m.c.exec && fuel == 0 {
      n', m' := n, m;
    } else {
      var n3, m3 := PassFirst(w, s0, n, m, s, fuel);
      var p := ExpectPass(w, m, s, fuel, true);
      if p.PassTimeout? || (!p.again && p.out == Fatal) {
        n', m' := n3, m3;
      } else {
        var f := if fuel == 0 then 0 else fuel - 1;
        var n4, m4 := FromTurn(w, s0, n, m, n3, m3, Seq1(R(LoopLen(s), Nop), m.work.rest), s, p, f);
        if !Completes(Onward(w, s, m.c.nest, p, f)) {
          n', m' := n4, m4;
        } else {
          DropAll(w, m4, LoopLen(s), m.vs);
          Then(w, s0, n4, m4, 1);
          n', m' := n4 + 1, Steps(w, m4, 1);
        }
      }
    }
  }

  // ----- switch

  /** Between two cases: ExecuteFlag is what it was when the switch began. */
  predicate InSwitch(c: Ctl) {
    c.css.Push? && c.flag == c.css.top && c.switches.Push?
  }

  function ExpectCases(w: World, m: M, cs: Cases, fuel: nat): Res
    requires 0 <= m.c.nest && m.c.switches.Push?
  {
    var se := m.c.switches.top;
    if m.c.exec then ExecCases(w, cs, se.expr, se.offset == -1, m.c.nest, m.store, fuel) else Res(Normal, m.store)
  }

  ghost predicate BeginsCases(w: World, s0: M, n: nat, m: M, cs: Cases) {
    && Begins(w, s0, n, m, CaseList) && InSwitch(m.c)
    && SpellsCases(m.toks, m.pos, cs) && ParsedCases(cs) && At(m.toks, m.pos + LenCases(cs), RBRACE)
  }

  /** The control globals after cases; the entry of this switch may have been marked. */
  predicate CtlAfterCases(c: Ctl, c': Ctl, out: Outcome) {
    c.switches.Push? && c'.switches.Push? && c'.switches.rest == c.switches.rest
    && CtlAfter(c, c'.(switches := c.switches), out)
  }

  ghost predicate EndsCases(w: World, s0: M, n: nat, m: M, cs: Cases, fuel: nat, n': nat, m': M)
    requires 0 <= m.c.nest && m.c.switches.Push?
  {
    && Steps(w, s0, n') == m'
    && (match ExpectCases(w, m, cs, fuel)
        case Timeout => n' >= n + fuel && !Done(m')
        case Res(out, store) =>
          if out == Fatal then m'.status == Failed && m'.store == store
          else n' > n && AfterCases(m, m', LenCases(cs), out, store) && SpellsCases(m'.toks, m.pos, cs))
  }

  ghost predicate AfterCases(m: M, m': M, len: nat, out: Outcome, store: Store) {
    && m'.status == Running && m.work.Push? && m'.work == m.work.rest && m'.pos == m.pos + len
    && m'.vs.Push? && m'.vs.rest == m.vs && m'.store == store
    && Framed(m.toks, m'.toks, m.pos, m.pos + len)
    && CtlAfterCases(m.c, m'.c, out)
  }

  /** Whether the statements of a case are run. */
  predicate CaseRuns(w: World, c: Ctl, isDefault: bool, v: Value)
    requires c.switches.Push?
  {
    c.exec && (c.switches.top.offset == -1 || isDefault || w.equal(c.switches.top.expr, v))
  }

  /** From one case to the next. */
  lemma CaseCtl(w: World, c: Ctl, isDefault: bool, v: Value, c2: Ctl, out: Outcome)
    requires Settled(c) && Inert(c) && 0 <= c.nest && InSwitch(c)
    requires CtlAfter(CsSwitchCasePre(w, c, isDefault, v), c2, out)
    requires !CaseRuns(w, c, isDefault, v) ==> out == Normal
    ensures var c3 := PeekFlag(c2);
            && Settled(c3) && Inert(c3) && c3.nest == c.nest && c3.fors == c.fors && InSwitch(c3)
            && CtlAfterCases(c, c3, out)
            && (c3.exec <==> c.exec && out == Normal)
            && c3.switches.top.expr == c.switches.top.expr
            && (c.exec ==> (c3.switches.top.offset == -1 <==> CaseRuns(w, c, isDefault, v)))
  {
  }

  lemma CaseBegins(w: World, c: Ctl, isDefault: bool, v: Value)
    requires Settled(c) && Inert(c) && 0 <= c.nest && InSwitch(c)
    ensures var c1 := CsSwitchCasePre(w, c, isDefault, v);
            && Settled(c1) && Inert(c1) && c1.nest == c.nest && c1.fors == c.fors
            && (c1.exec <==> CaseRuns(w, c, isDefault, v))
  {
  }

  lemma CasesThen(c: Ctl, c3: Ctl, c4: Ctl, out1: Outcome, out2: Outcome)
    requires Settled(c) && CtlAfterCases(c, c3, out1) && CtlAfterCases(c3, c4, out2) && (!c3.exec ==> out2 == Normal)
    ensures CtlAfterCases(c, c4, if c3.exec then out2 else out1)
  {
    var d, e := c3.(switches := c.switches), c4.(switches := c.switches);
    assert CtlAfter(d, e, out2);
    CtlThen(c, d, e, out1, out2);
  }

  lemma PassNoCases(w: World, s0: M, n: nat, m: M, cs: Cases, fuel: nat) returns (n': nat, m': M)
    requires BeginsCases(w, s0, n, m, cs) && cs.NoCases?
    ensures EndsCases(w, s0, n, m, cs, fuel, n', m')
  {
    hide Steps, SpellsE, LenE, SpellsSS, LenSS, Exec, EvalE;
    NoCasesSteps(w, m);
    Then(w, s0, n, m, 2);
    n', m' := n + 2, Steps(w, m, 2);
  }

  // default

  lemma {:induction false} PassDefault(w: World, s0: M, n: nat, m: M, cs: Cases, fuel: nat) returns (n': nat, m': M)
    requires BeginsCases(w, s0, n, m, cs) && cs.Default?
    ensures EndsCases(w, s0, n, m, cs, fuel, n', m')
    decreases cs, fuel, 1
  {
    hide Steps, SpellsSS, LenSS, ExecSS, ParsedSS, CsSwitchCasePre, AfterCases, CtlAfter, After, ShouldExecute,
      Inert;
    DefaultOpen(w, m);
    Then(w, s0, n, m, 3);
    var m1 := Steps(w, m, 3);
    DefaultTest(w, m1);
    Then(w, s0, n + 3, m1, 2);
    var m2 := Steps(w, m1, 2);
    CaseBegins(w, m.c, true, Unset);
    ListEnd(m.toks, m2.pos + LenSS(cs.body));
    var n3, m3 := PassSS(w, s0, n + 5, m2, cs.body, fuel);
    if !Completes(ExpectSS(w, m2, cs.body, fuel)) {
      n', m' := n3, m3;
    } else {
      n', m' := PassDefaultEnd(w, s0, n, m, m2, n3, m3, cs, fuel);
    }
  }

  lemma ListEnd(t: seq<Token>, i: nat)
    requires At(t, i, RBRACE) || At(t, i, CASE) || At(t, i, DEFAULT)
    ensures EndsList(t, i)
  {
  }

  lemma PassDefaultEnd(w: World, s0: M, n: nat, m: M, m2: M, n3: nat, m3: M, cs: Cases, fuel: nat)
    returns (n': nat, m': M)
    requires BeginsCases(w, s0, n, m, cs) && cs.Default? && n3 > n && Steps(w, s0, n3) == m3
    requires m2.c == CsSwitchCasePre(w, m.c, true, Unset) && m2.toks == m.toks && m2.pos == m.pos + 2
    requires m2.store == m.store && m2.vs.Push? && Tops(m2.vs.rest, 3, m.vs) && 0 <= m2.c.nest
    requires m2.work == Seq3(N(ListMore), R(0, CasePost), R(5, Nop), m.work.rest)
    requires Completes(ExpectSS(w, m2, cs.body, fuel)) && SpellsSS(m3.toks, m2.pos, cs.body)
    requires After(m2, m3, m2.vs.rest, LenSS(cs.body), ExpectSS(w, m2, cs.body, fuel).out,
            ExpectSS(w, m2, cs.body, fuel).store)
    ensures EndsCases(w, s0, n, m, cs, fuel, n', m')
  {
    hide Steps, SpellsSS, LenSS, ExecSS, ParsedSS, CsSwitchCasePre, CtlAfter, ShouldExecute, Inert, PeekFlag,
      Framed, CtlAfterCases;
    CaseBegins(w, m.c, true, Unset);
    CaseMid(w, m3);
    Then(w, s0, n3, m3, 1);
    var m4 := Steps(w, m3, 1);
    DropAll(w, m4, 5, m.vs);
    Then(w, s0, n3 + 1, m4, 1);
    n', m' := n3 + 2, Steps(w, m4, 1);
    CaseCtl(w, m.c, true, Unset, m3.c, ExpectSS(w, m2, cs.body, fuel).out);
    var p, end := m.pos + 2, m.pos + LenCases(cs);
    FrameTok(m.toks, m3.toks, p, end, m.pos);
    FrameTok(m.toks, m3.toks, p, end, m.pos + 1);
    FrameWiden(m.toks, m3.toks, p, end, m.pos, end);
  }

  // case

  /** m2 is in front of the statements of a case. */
  ghost predicate BeforeCase(w: World, m: M, cs: Cases, m2: M)
    requires cs.Case? && m.work.Push?
  {
    && m2.status == Running && m2.work == Push(N(ListMore), CaseTail(m.work.rest))
    && m2.pos == m.pos + 2 + LenE(cs.value) && m2.toks == m.toks && m2.vs.Push? && Tops(m2.vs.rest, 4, m.vs)
    && (if m.c.exec then
          && m2.store == EvalE(w, cs.value, m.store).1
          && m2.c == CsSwitchCasePre(w, m.c, false, EvalE(w, cs.value, m.store).0)
        else m2.store == m.store && m2.c == CsSwitchCasePre(w, m.c, false, Unset))
  }

  lemma CaseValue(w: World, s0: M, n: nat, m: M, cs: Cases) returns (n3: nat, y: M, cell: Cell)
    requires BeginsCases(w, s0, n, m, cs) && cs.Case? && m.pos < |m.toks|
    ensures n3 > n && Steps(w, s0, n3) == y && Computed(w, m, cs.value, cell, y.store)
    ensures y == m.(pos := m.pos + 1 + LenE(cs.value), vs := Push(cell, Push(TokenCell(m.toks, m.pos), m.vs)),
                    yyval := cell, store := y.store,
                    work := Seq3(T(COLON), R(0, CasePre), R(0, Nop), Push(N(ListMore), CaseTail(m.work.rest))))
  {
    hide Steps, EvalE, SpellsE, LenE, SpellsSS, LenSS, ParsedCases, Inert, IntTop, ShouldExecute, CaseTail;
    CaseOpen(w, m);
    var m1 := Steps(w, m, 2);
    var store;
    n3, cell, store := ThenExpr(w, s0, n, m, 2, cs.value);
    y := Passed(m1, LenE(cs.value), cell, store);
  }

  lemma PassCaseTest(w: World, s0: M, n: nat, m: M, cs: Cases) returns (n2: nat, m2: M)
    requires BeginsCases(w, s0, n, m, cs) && cs.Case?
    ensures n2 > n && Steps(w, s0, n2) == m2 && BeforeCase(w, m, cs, m2)
  {
    hide Steps, EvalE, SpellsE, LenE, SpellsSS, LenSS, CsSwitchCasePre, ParsedCases, Inert, IntTop,
      ShouldExecute, CaseTail, Tops;
    var n3, y, cell := CaseValue(w, s0, n, m, cs);
    CaseTest(w, y, cell, y.vs.rest, Push(N(ListMore), CaseTail(m.work.rest)));
    Then(w, s0, n3, y, 3);
    n2, m2 := n3 + 3, Steps(w, y, 3);
    FourPushed(m2.vs.rest, m.vs);
    CaseUnread(w, m.c, cell.val);
  }

  lemma FourPushed(vs: Stack<Cell>, r: Stack<Cell>)
    requires vs.Push? && vs.rest.Push? && vs.rest.rest.Push? && vs.rest.rest.rest.Push? && vs.rest.rest.rest.rest == r
    ensures Tops(vs, 4, r)
  {
  }

  lemma CaseUnread(w: World, c: Ctl, v: Value)
    ensures !c.exec ==> CsSwitchCasePre(w, c, false, v) == CsSwitchCasePre(w, c, false, Unset)
  {
  }

  /** What a case is spelled by and what it means, in terms of its parts. */
  lemma CaseParts(w: World, m: M, cs: Cases, fuel: nat)
    requires cs.Case? && SpellsCases(m.toks, m.pos, cs) && ParsedCases(cs) && At(m.toks, m.pos + LenCases(cs), RBRACE)
    requires 0 <= m.c.nest && m.c.switches.Push?
    ensures var p := m.pos + 2 + LenE(cs.value);
            && LenCases(cs) == 2 + LenE(cs.value) + LenSS(cs.body) + LenCases(cs.tail)
            && SpellsSS(m.toks, p, cs.body) && SpellsCases(m.toks, p + LenSS(cs.body), cs.tail)
            && ParsedSS(cs.body) && ParsedCases(cs.tail) && EndsList(m.toks, p + LenSS(cs.body))
    ensures var (v, st) := EvalE(w, cs.value, m.store);
            var se := m.c.switches.top;
            m.c.exec ==>
            ExecCases(w, cs, se.expr, se.offset == -1, m.c.nest, m.store, fuel) ==
              if !CaseRuns(w, m.c, false, v) then ExecCases(w, cs.tail, se.expr, false, m.c.nest, st, fuel)
              else
                var r := ExecSS(w, cs.body, m.c.nest, st, fuel);
                if r.Res? && r.out == Normal then ExecCases(w, cs.tail, se.expr, true, m.c.nest, r.store, fuel) else r
  {
    hide SpellsE, LenE, SpellsSS, LenSS, ExecSS, EvalE, ParsedSS;
    var p := m.pos + 2 + LenE(cs.value) + LenSS(cs.body);
    match cs.tail
    case NoCases =>
    case Case(_, _, _) => assert At(m.toks, p, CASE);
    case Default(_) => assert At(m.toks, p, DEFAULT);
  }

  lemma {:induction false} PassCase(w: World, s0: M, n: nat, m: M, cs: Cases, fuel: nat) returns (n': nat, m': M)
    requires BeginsCases(w, s0, n, m, cs) && cs.Case?
    ensures EndsCases(w, s0, n, m, cs, fuel, n', m')
    decreases cs, fuel, 2
  {
    hide Steps, EvalE, SpellsE, LenE, SpellsSS, LenSS, SpellsCases, LenCases, ExecSS, ExecCases, ParsedSS,
      ParsedCases, CsSwitchCasePre, AfterCases, CtlAfter, After, ShouldExecute, Inert;
    var n2, m2 := PassCaseTest(w, s0, n, m, cs);
    CaseParts(w, m, cs, fuel);
    CaseBegins(w, m.c, false, if m.c.exec then EvalE(w, cs.value, m.store).0 else Unset);
    var n3, m3 := PassSS(w, s0, n2, m2, cs.body, fuel);
    if !Completes(ExpectSS(w, m2, cs.body, fuel)) {
      n', m' := n3, m3;
    } else {
      n', m' := PassCaseRest(w, s0, n, m, m2, n3, m3, cs, fuel);
    }
  }

  lemma {:induction false} PassCaseRest(w: World, s0: M, n: nat, m: M, m2: M, n3: nat, m3: M, cs: Cases, fuel: nat)
    returns (n': nat, m': M)
    requires BeginsCases(w, s0, n, m, cs) && cs.Case? && n3 > n && Steps(w, s0, n3) == m3
    requires BeforeCase(w, m, cs, m2) && 0 <= m2.c.nest
    requires Completes(ExpectSS(w, m2, cs.body, fuel)) && SpellsSS(m3.toks, m2.pos, cs.body)
    requires After(m2, m3, m2.vs.rest, LenSS(cs.body), ExpectSS(w, m2, cs.body, fuel).out,
            ExpectSS(w, m2, cs.body, fuel).store)
    ensures EndsCases(w, s0, n, m, cs, fuel, n', m')
    decreases cs, fuel, 1
  {
    hide Steps, EvalE, SpellsE, LenE, SpellsSS, LenSS, SpellsCases, LenCases, ExecSS, ExecCases, ParsedSS,
      ParsedCases, CsSwitchCasePre, CtlAfter, ShouldExecute, Inert, PeekFlag, Framed, CtlAfterCases;
    var v := if m.c.exec then EvalE(w, cs.value, m.store).0 else Unset;
    var out1 := ExpectSS(w, m2, cs.body, fuel).out;
    CaseParts(w, m, cs, fuel);
    CaseBegins(w, m.c, false, v);
    CaseMid(w, m3);
    Then(w, s0, n3, m3, 1);
    var m4 := Steps(w, m3, 1);
    CaseCtl(w, m.c, false, v, m3.c, out1);
    var p, q, end := m2.pos, m2.pos + LenSS(cs.body), m.pos + LenCases(cs);
    KeepCases(m.toks, m3.toks, p, q, q, cs.tail);
    FrameTok(m.toks, m3.toks, p, q, end);
    var n5, m5 := PassCases(w, s0, n3 + 1, m4, cs.tail, fuel);
    if !Completes(ExpectCases(w, m4, cs.tail, fuel)) {
      n', m' := n5, m5;
    } else {
      CasesThen(m.c, m4.c, m5.c, out1, ExpectCases(w, m4, cs.tail, fuel).out);
      DropAll(w, m5, 7, m.vs);
      Then(w, s0, n5, m5, 1);
      n', m' := n5 + 1, Steps(w, m5, 1);
      CaseAssembled(m, m3.toks, m5.toks, cs);
    }
  }

  lemma CaseAssembled(m: M, t: seq<Token>, u: seq<Token>, cs: Cases)
    requires cs.Case? && SpellsCases(m.toks, m.pos, cs) && m.pos + LenCases(cs) <= |m.toks|
    requires var p := m.pos + 2 + LenE(cs.value);
             && Framed(m.toks, t, p, p + LenSS(cs.body)) && SpellsSS(t, p, cs.body)
             && Framed(t, u, p + LenSS(cs.body), m.pos + LenCases(cs)) && SpellsCases(u, p + LenSS(cs.body), cs.tail)
    ensures Framed(m.toks, u, m.pos, m.pos + LenCases(cs)) && SpellsCases(u, m.pos, cs)
  {
    hide SpellsE, LenE, SpellsSS, LenSS, Framed;
    var p, end := m.pos + 2 + LenE(cs.value), m.pos + LenCases(cs);
    var q := p + LenSS(cs.body);
    FrameTrans(m.toks, t, u, p, q, q, end, p, end);
    FrameTok(m.toks, t, p, q, m.pos);
    FrameTok(m.toks, u, p, end, m.pos);
    FrameTok(m.toks, u, p, end, p - 1);
    KeepE(m.toks, u, p, end, m.pos + 1, cs.value);
    KeepSS(t, u, q, end, p, cs.body);
    FrameWiden(m.toks, u, p, end, m.pos, end);
  }

  lemma {:induction false} PassCases(w: World, s0: M, n: nat, m: M, cs: Cases, fuel: nat) returns (n': nat, m': M)
    requires BeginsCases(w, s0, n, m, cs)
    ensures EndsCases(w, s0, n, m, cs, fuel, n', m')
    decreases cs, fuel, 3
  {
    hide BeginsCases, EndsCases;
    CasesFit(w, s0, n, m, cs);
    match cs
    case NoCases => n', m' := PassNoCases(w, s0, n, m, cs, fuel);
    case Case(_, _, _) => n', m' := PassCase(w, s0, n, m, cs, fuel);
    case Default(_) => n', m' := PassDefault(w, s0, n, m, cs, fuel);
  }

  lemma CasesFit(w: World, s0: M, n: nat, m: M, cs: Cases)
    requires BeginsCases(w, s0, n, m, cs)
    ensures 0 <= m.c.nest && m.c.switches.Push?
  {
  }

  /** m2 is in front of the cases of a switch. */
  ghost predicate BeforeCases(w: World, m: M, s: Stmt, m2: M, v: Value)
    requires s.Switch? && m.work.Push? && m.pos < |m.toks|
  {
    && m2.status == Running && m2.work == SwitchTail(m.work.rest)
    && m2.pos == m.pos + 4 + LenE(s.subject) && m2.toks == m.toks && Tops(m2.vs, 6, m.vs)
    && m2.c == CsSwitchStart(m.c, TokenCell(m.toks, m.pos), v)
    && (if m.c.exec then (v, m2.store) == EvalE(w, s.subject, m.store) else m2.store == m.store)
  }

  lemma SwitchSpelled(t: seq<Token>, a: nat, s: Stmt)
    requires s.Switch? && Spells(t, a, s)
    ensures At(t, a, SWITCH) && At(t, a + 1, LPAREN) && SpellsE(t, a + 2, s.subject)
    ensures At(t, a + 2 + LenE(s.subject), RPAREN) && At(t, a + 3 + LenE(s.subject), LBRACE)
  {
    hide SpellsE, LenE, SpellsSS, SpellsCases, SpellsX, SpellsForHead, SpellsElifs;
  }

  lemma SwitchSubject(w: World, s0: M, n: nat, m: M, s: Stmt) returns (n3: nat, y: M, cell: Cell, lp: Cell)
    requires BeginsStmt(w, s0, n, m, s) && s.Switch? && m.pos < |m.toks|
    ensures n3 > n && Steps(w, s0, n3) == y && Computed(w, m, s.subject, cell, y.store)
    ensures y == m.(pos := m.pos + 2 + LenE(s.subject),
            vs := Push(cell, Push(lp, Push(TokenCell(m.toks, m.pos), m.vs))),
                    yyval := cell, store := y.store,
                    work := Seq3(T(RPAREN), R(0, SwitchStart), T(LBRACE), SwitchTail(m.work.rest)))
  {
    hide Steps, EvalE, SpellsE, LenE, Spells, Len, Parsed, Follows, Inert, IntTop, ShouldExecute, SwitchTail,
      LenCases, SpellsCases;
    SwitchSpelled(m.toks, m.pos, s);
    SwitchOpen(w, m);
    var m1 := Steps(w, m, 3);
    var store;
    n3, cell, store := ThenExpr(w, s0, n, m, 3, s.subject);
    y, lp := Passed(m1, LenE(s.subject), cell, store), m1.vs.top;
  }

  lemma PassSwitchTest(w: World, s0: M, n: nat, m: M, s: Stmt) returns (n2: nat, m2: M, v: Value)
    requires BeginsStmt(w, s0, n, m, s) && s.Switch? && m.pos < |m.toks|
    ensures n2 > n && Steps(w, s0, n2) == m2 && BeforeCases(w, m, s, m2, v)
  {
    hide Steps, EvalE, SpellsE, LenE, Spells, Len, CsSwitchStart, Parsed, Follows, Inert, IntTop, ShouldExecute,
      SwitchTail, LenCases, SpellsCases, Tops;
    SwitchSpelled(m.toks, m.pos, s);
    var n3, y, cell, lp := SwitchSubject(w, s0, n, m, s);
    SwitchTest(w, y, cell, lp, TokenCell(m.toks, m.pos), m.vs, SwitchTail(m.work.rest));
    Then(w, s0, n3, y, 3);
    n2, m2, v := n3 + 3, Steps(w, y, 3), cell.val;
    SixPushed(m2.vs, m.vs);
  }

  lemma SixPushed(vs: Stack<Cell>, r: Stack<Cell>)
    requires vs.Push? && vs.rest.Push? && vs.rest.rest.Push? && vs.rest.rest.rest.Push? && vs.rest.rest.rest.rest.Push?
    requires vs.rest.rest.rest.rest.rest.Push? && vs.rest.rest.rest.rest.rest.rest == r
    ensures Tops(vs, 6, r)
  {
  }

  /** What a switch is spelled by and what it means, in terms of its parts. */
  lemma SwitchParts(w: World, m: M, s: Stmt, fuel: nat)
    requires s.Switch? && Spells(m.toks, m.pos, s) && Parsed(s) && 0 <= m.c.nest
    ensures var p := m.pos + 4 + LenE(s.subject);
            && Len(s) == 5 + LenE(s.subject) + LenCases(s.cases)
            && At(m.toks, m.pos, SWITCH) && At(m.toks, m.pos + 1, LPAREN) && SpellsE(m.toks, m.pos + 2, s.subject)
            && At(m.toks, p - 2, RPAREN) && At(m.toks, p - 1, LBRACE)
            && SpellsCases(m.toks, p, s.cases) && ParsedCases(s.cases) && At(m.toks, p + LenCases(s.cases), RBRACE)
    ensures var (v, st) := EvalE(w, s.subject, m.store);
            var r := ExecCases(w, s.cases, v, false, m.c.nest + 1, st, fuel);
            Exec(w, s, m.c.nest, m.store, fuel) == if r.Timeout? then Timeout else Res(Outside(r.out), r.store)
  {
    hide SpellsE, LenE, EvalE, SpellsSS, SpellsCases, LenCases, SpellsX, SpellsForHead, SpellsElifs, ExecCases,
      ParsedCases;
  }

  lemma SwitchBegins(c: Ctl, t: Cell, v: Value)
    requires Settled(c) && Inert(c) && t.off >= 0
    ensures var c1 := CsSwitchStart(c, t, v);
            && Settled(c1) && Inert(c1) && c1.nest == c.nest + 1 && c1.fors == c.fors && InSwitch(c1)
            && c1.exec == c.exec && c1.switches.top.expr == v && c1.switches.top.offset != -1
  {
  }

  /** A switch ends a pending break or continue that names it, whichever it is. */
  lemma SwitchEnds(c: Ctl, t: Cell, v: Value, c': Ctl, out: Outcome)
    requires Settled(c) && Inert(c) && 0 <= c.nest
    requires CtlAfterCases(CsSwitchStart(c, t, v), c', out) && (!c.exec ==> out == Normal)
    ensures CtlAfter(c, CsSwitchEnd(c'), Outside(out))
  {
  }

  lemma {:induction false} PassSwitch(w: World, s0: M, n: nat, m: M, s: Stmt, fuel: nat) returns (n': nat, m': M)
    requires BeginsStmt(w, s0, n, m, s) && s.Switch?
    ensures EndsStmt(w, s0, n, m, s, fuel, n', m')
    decreases s, fuel, 2
  {
    hide Steps, EvalE, SpellsE, LenE, Spells, Len, SpellsCases, LenCases, Exec, ExecCases, Parsed, ParsedCases,
      CsSwitchStart, AfterCases, CtlAfter, After, ShouldExecute, Inert, Outside;
    SwitchParts(w, m, s, fuel);
    var n2, m2, v := PassSwitchTest(w, s0, n, m, s);
    SwitchBegins(m.c, TokenCell(m.toks, m.pos), v);
    var n3, m3 := PassCases(w, s0, n2, m2, s.cases, fuel);
    FatalOutside();
    if !Completes(ExpectCases(w, m2, s.cases, fuel)) {
      n', m' := n3, m3;
    } else {
      n', m' := PassSwitchEnd(w, s0, n, m, m2, v, n3, m3, s, fuel);
    }
  }

  lemma FatalOutside()
    ensures Outside(Fatal) == Fatal
  {
  }

  lemma {:induction false} PassSwitchEnd(w: World, s0: M, n: nat, m: M, m2: M, v: Value, n3: nat, m3: M, s: Stmt,
      fuel: nat)
    returns (n': nat, m': M)
    requires BeginsStmt(w, s0, n, m, s) && s.Switch? && m.pos < |m.toks| && n3 > n && Steps(w, s0, n3) == m3
    requires BeforeCases(w, m, s, m2, v)
    requires 0 <= m2.c.nest && m2.c.switches.Push? && Completes(ExpectCases(w, m2, s.cases, fuel))
    requires var r := ExpectCases(w, m2, s.cases, fuel);
             AfterCases(m2, m3, LenCases(s.cases), r.out, r.store) && SpellsCases(m3.toks, m2.pos, s.cases)
    ensures EndsStmt(w, s0, n, m, s, fuel, n', m')
  {
    hide Steps, EvalE, SpellsE, LenE, Spells, Len, SpellsCases, LenCases, Exec, ExecCases, Parsed, ParsedCases,
      CsSwitchStart, CsSwitchEnd, CtlAfter, CtlAfterCases, ShouldExecute, Inert, Outside, Framed, Follows,
      IntTop, Tops;
    var r := ExpectCases(w, m2, s.cases, fuel);
    SwitchParts(w, m, s, fuel);
    SwitchBegins(m.c, TokenCell(m.toks, m.pos), v);
    OutsideSound(r.out);
    NormalOutside();
    SwitchEnds(m.c, TokenCell(m.toks, m.pos), v, m3.c, r.out);
    var p, end := m2.pos, m2.pos + LenCases(s.cases);
    FrameTok(m.toks, m3.toks, p, end, end);
    TopsUp(m3.vs, 6, m.vs);
    n', m' := SwitchThroughEnd(w, s0, n3, m3, m.vs, m.work.rest);
    SwitchAssembled(m, m3.toks, s);
  }

  lemma TopsUp(vs: Stack<Cell>, n: nat, r: Stack<Cell>)
    requires vs.Push? && Tops(vs.rest, n, r)
    ensures Tops(vs, n + 1, r)
  {
  }

  lemma SwitchThroughEnd(w: World, s0: M, n3: nat, m3: M, r: Stack<Cell>, k: Stack<Sym>) returns (n': nat, m': M)
    requires Steps(w, s0, n3) == m3 && m3.status == Running && m3.work == Seq3(T(RBRACE), R(3, Nop), R(6, SwitchEnd), k)
    requires At(m3.toks, m3.pos, RBRACE) && Tops(m3.vs, 7, r)
    ensures n' > n3 && Steps(w, s0, n') == m'
    ensures m'.vs.Push? && m'.vs.rest == r && m'.status == Running && m'.work == k && m'.pos == m3.pos + 1
    ensures m'.c == CsSwitchEnd(m3.c) && m'.store == m3.store && m'.toks == m3.toks
  {
    hide Steps, CsSwitchEnd, Tops;
    SwitchClose(w, m3, r, k);
    Then(w, s0, n3, m3, 3);
    n', m' := n3 + 3, Steps(w, m3, 3);
  }

  lemma NormalOutside()
    ensures Outside(Normal) == Normal
  {
  }

  lemma SwitchAssembled(m: M, t: seq<Token>, s: Stmt)
    requires s.Switch? && Spells(m.toks, m.pos, s) && m.pos + Len(s) <= |m.toks|
    requires var p := m.pos + 4 + LenE(s.subject);
             Framed(m.toks, t, p, p + LenCases(s.cases)) && SpellsCases(t, p, s.cases)
    ensures Framed(m.toks, t, m.pos, m.pos + Len(s)) && Spells(t, m.pos, s)
  {
    hide SpellsE, LenE, SpellsSS, SpellsCases, LenCases, SpellsX, SpellsForHead, SpellsElifs, Framed;
    var p := m.pos + 4 + LenE(s.subject);
    var end := p + LenCases(s.cases);
    FrameTok(m.toks, t, p, end, m.pos);
    FrameTok(m.toks, t, p, end, m.pos + 1);
    KeepE(m.toks, t, p, end, m.pos + 2, s.subject);
    FrameTok(m.toks, t, p, end, p - 2);
    FrameTok(m.toks, t, p, end, p - 1);
    FrameTok(m.toks, t, p, end, end);
    FrameWiden(m.toks, t, p, end, m.pos, m.pos + Len(s));
  }

  lemma {:induction false} PassStmt(w: World, s0: M, n: nat, m: M, s: Stmt, fuel: nat) returns (n': nat, m': M)
    requires BeginsStmt(w, s0, n, m, s)
    ensures EndsStmt(w, s0, n, m, s, fuel, n', m')
    decreases s, fuel, 6
  {
    hide BeginsStmt, EndsStmt;
    NestStmt(w, s0, n, m, s);
    match s
    case Empty => n', m' := PassEmpty(w, s0, n, m, s, fuel);
    case Run(_) => n', m' := PassRun(w, s0, n, m, s, fuel);
    case Block(_) => n', m' := PassBlock(w, s0, n, m, s, fuel);
    case If(_, _, _) => n', m' := PassIf(w, s0, n, m, s, fuel);
    case While(_, _) => n', m' := PassLoop(w, s0, n, m, s, fuel);
    case DoWhile(_, _) => n', m' := PassLoop(w, s0, n, m, s, fuel);
    case For(_, _, _, _) => n', m' := PassLoop(w, s0, n, m, s, fuel);
    case Switch(_, _) => n', m' := PassSwitch(w, s0, n, m, s, fuel);
    case Jump(_, _) => n', m' := PassJump(w, s0, n, m, s, fuel);
    case Return(_) => n', m' := PassReturn(w, s0, n, m, s, fuel);
  }
}
