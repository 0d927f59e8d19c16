/** Stretches of parsing between two expressions or statements: a fixed number of shifts,
    expansions and actions, computed outright. In all of them m is about to handle the symbol
    named first, k is what follows the stretch, and r is the value stack below it. */
module Segments {
  import opened Values
  import opened Syntax
  import opened Machine
  import opened Walk

  function Tok(m: M): Cell
    requires m.pos < |m.toks|
  {
    TokenCell(m.toks, m.pos)
  }

  /** There are n values on top of r. */
  predicate Tops(vs: Stack<Cell>, n: nat, r: Stack<Cell>)
    decreases n
  {
    if n == 0 then vs == r else vs.Push? && Tops(vs.rest, n - 1, r)
  }

  // ----- simple statements and lists

  lemma EmptySteps(w: World, m: M)
    requires Handles(m, N(StmtN)) && At(m.toks, m.pos, SEMI)
    ensures Steps(w, m, 3) == m.(pos := m.pos + 1, vs := Push(Tok(m), m.vs), yyval := Tok(m), work := m.work.rest)
  {
  }

  lemma RunOpen(w: World, m: M)
    requires Handles(m, N(StmtN)) && StartsExpr(m.toks, m.pos)
    ensures Steps(w, m, 1) == m.(work := Seq3(N(ExprN), T(SEMI), R(2, Nop), m.work.rest))
  {
  }

  lemma RunClose(w: World, m: M, e: Cell, r: Stack<Cell>, k: Stack<Sym>)
    requires m.status == Running && m.work == Seq2(T(SEMI), R(2, Nop), k)
    requires At(m.toks, m.pos, SEMI) && m.vs == Push(e, r)
    ensures Steps(w, m, 2) == m.(pos := m.pos + 1, vs := Push(e, r), yyval := e, work := k)
  {
  }

  lemma BlockOpen(w: World, m: M)
    requires Handles(m, N(StmtN)) && At(m.toks, m.pos, LBRACE)
    ensures Steps(w, m, 3) == m.(pos := m.pos + 1, vs := Push(m.yyval, Push(Tok(m), m.vs)),
                                 work := Seq3(N(ListMore), T(RBRACE), R(3, Nop), m.work.rest))
  {
  }

  lemma BlockClose(w: World, m: M, list: Cell, brace: Cell, r: Stack<Cell>, k: Stack<Sym>)
    requires m.status == Running && m.work == Seq2(T(RBRACE), R(3, Nop), k)
    requires At(m.toks, m.pos, RBRACE) && m.vs == Push(list, Push(brace, r))
    ensures Steps(w, m, 2) == m.(pos := m.pos + 1, vs := Push(brace, r), yyval := brace, work := k)
  {
  }

  lemma ListOpen(w: World, m: M)
    requires Handles(m, N(ListMore)) && m.pos < |m.toks|
    ensures Steps(w, m, 1) ==
            if StartsStatement(m.toks[m.pos].kind) then m.(work := Seq3(N(StmtN), R(2, Nop), N(ListMore), m.work.rest))
            else m.(work := m.work.rest)
  {
  }

  lemma ListJoin(w: World, m: M, stmt: Cell, list: Cell, r: Stack<Cell>)
    requires Handles(m, R(2, Nop)) && m.vs == Push(stmt, Push(list, r))
    ensures Steps(w, m, 1) == m.(vs := Push(list, r), yyval := list, work := m.work.rest)
  {
  }

  lemma PlainJumpOpen(w: World, m: M, op: JumpOp)
    requires Handles(m, N(StmtN)) && At(m.toks, m.pos, JumpKind(op)) && At(m.toks, m.pos + 1, SEMI)
    ensures Steps(w, m, 3) == m.(pos := m.pos + 1, vs := Push(Tok(m), m.vs),
                                 work := Seq2(T(SEMI), R(2, JumpNow(op)), m.work.rest))
  {
  }

  lemma PlainJumpClose(w: World, m: M, op: JumpOp, t: Cell, r: Stack<Cell>, k: Stack<Sym>)
    requires m.status == Running && m.work == Seq2(T(SEMI), R(2, JumpNow(op)), k)
    requires At(m.toks, m.pos, SEMI) && m.vs == Push(t, r)
    ensures Steps(w, m, 2) == CsBreakContinue(m.(pos := m.pos + 1, vs := Push(t, r), yyval := t, work := k), op, 1)
  {
    hide ToLong, IsTrue, TcSwitch, TcSetToken, TcSetSwitched, SetVal;
  }

  lemma JumpOpen(w: World, m: M, op: JumpOp)
    requires Handles(m, N(StmtN)) && At(m.toks, m.pos, JumpKind(op))
    requires StartsExpr(m.toks, m.pos + 1)
    ensures Steps(w, m, 3) == m.(pos := m.pos + 1, vs := Push(Tok(m), m.vs),
                                 work := Seq3(N(ExprN), T(SEMI), R(3, JumpLevels(op)), m.work.rest))
  {
  }

  lemma JumpClose(w: World, m: M, op: JumpOp, e: Cell, t: Cell, r: Stack<Cell>, k: Stack<Sym>)
    requires m.status == Running && m.work == Seq2(T(SEMI), R(3, JumpLevels(op)), k)
    requires At(m.toks, m.pos, SEMI) && m.vs == Push(e, Push(t, r))
    ensures Steps(w, m, 2) ==
            CsBreakContinue(m.(pos := m.pos + 1, vs := Push(t, r), yyval := t, work := k), op, ToLong(w, e.val))
  {
  }

  lemma PlainReturnOpen(w: World, m: M)
    requires Handles(m, N(StmtN)) && At(m.toks, m.pos, RETURN) && At(m.toks, m.pos + 1, SEMI)
    ensures Steps(w, m, 3) == m.(pos := m.pos + 1, vs := Push(Tok(m), m.vs),
                                 work := Seq2(T(SEMI), R(2, ReturnNothing), m.work.rest))
  {
  }

  lemma PlainReturnClose(w: World, m: M, t: Cell, r: Stack<Cell>, k: Stack<Sym>)
    requires m.status == Running && m.work == Seq2(T(SEMI), R(2, ReturnNothing), k)
    requires At(m.toks, m.pos, SEMI) && m.vs == Push(t, r)
    ensures Steps(w, m, 2) == CsReturn(m.(pos := m.pos + 1, vs := Push(t, r), yyval := t, work := k), Unset)
  {
  }

  lemma ReturnOpen(w: World, m: M)
    requires Handles(m, N(StmtN)) && At(m.toks, m.pos, RETURN)
    requires StartsExpr(m.toks, m.pos + 1)
    ensures Steps(w, m, 3) == m.(pos := m.pos + 1, vs := Push(Tok(m), m.vs),
                                 work := Seq3(N(ExprN), T(SEMI), R(3, ReturnValue), m.work.rest))
  {
  }

  lemma ReturnClose(w: World, m: M, e: Cell, t: Cell, r: Stack<Cell>, k: Stack<Sym>)
    requires m.status == Running && m.work == Seq2(T(SEMI), R(3, ReturnValue), k)
    requires At(m.toks, m.pos, SEMI) && m.vs == Push(e, Push(t, r))
    ensures Steps(w, m, 2) == CsReturn(m.(pos := m.pos + 1, vs := Push(t, r), yyval := t, work := k), e.val)
  {
  }

  // ----- if

  lemma IfOpen(w: World, m: M)
    requires Handles(m, N(StmtN)) && At(m.toks, m.pos, IF) && At(m.toks, m.pos + 1, LPAREN)
    ensures Steps(w, m, 3) == m.(pos := m.pos + 2, vs := Push(TokenCell(m.toks, m.pos + 1), Push(Tok(m), m.vs)),
              work := Seq4(N(ExprN), T(RPAREN), R(0, StartIf), N(StmtN),
                        Seq4(R(0, Nop), N(ElifMore), N(ElseSingle), R(8, EndIf), m.work.rest)))
  {
  }

  lemma IfTest(w: World, m: M, e: Cell, r: Stack<Cell>, k: Stack<Sym>)
    requires m.status == Running && m.work == Seq2(T(RPAREN), R(0, StartIf), k)
    requires At(m.toks, m.pos, RPAREN) && m.vs == Push(e, r)
    ensures Steps(w, m, 2) == m.(c := CsStartIf(m.c, IsTrue(e.val)), pos := m.pos + 1,
                                 vs := Push(m.yyval, Push(Tok(m), Push(e, r))), work := k)
  {
  }

  lemma MidNop(w: World, m: M)
    requires Handles(m, R(0, Nop))
    ensures Steps(w, m, 1) == m.(vs := Push(m.yyval, m.vs), work := m.work.rest)
  {
  }

  lemma IfClose(w: World, m: M, r: Stack<Cell>)
    requires Handles(m, R(8, EndIf)) && Tops(m.vs, 8, r)
    ensures var m' := Steps(w, m, 1);
            m' == m.(c := PopFlag(m.c), vs := Push(m'.yyval, r), yyval := m'.yyval, work := m.work.rest)
  {
  }

  lemma NoElseSteps(w: World, m: M, k: Stack<Sym>)
    requires m.status == Running && m.work == Seq2(N(ElifMore), N(ElseSingle), k)
    requires m.pos < |m.toks| && m.toks[m.pos].kind != ELSE && m.toks[m.pos].kind != ELSEIF
    ensures Steps(w, m, 3) == m.(vs := Push(m.yyval, m.vs), work := k)
  {
  }

  lemma ElseOpen(w: World, m: M, k: Stack<Sym>)
    requires m.status == Running && m.work == Seq2(N(ElifMore), N(ElseSingle), k)
    requires At(m.toks, m.pos, ELSE)
    ensures Steps(w, m, 4) == m.(c := CsStartElse(m.c), pos := m.pos + 1, vs := Push(m.yyval, Push(Tok(m), m.vs)),
                                 work := Seq2(N(StmtN), R(3, Nop), k))
  {
  }

  lemma ElseClose(w: World, m: M, stmt: Cell, mid: Cell, t: Cell, r: Stack<Cell>)
    requires Handles(m, R(3, Nop)) && m.vs == Push(stmt, Push(mid, Push(t, r)))
    ensures Steps(w, m, 1) == m.(vs := Push(t, r), yyval := t, work := m.work.rest)
  {
  }

  lemma ElifOpen(w: World, m: M)
    requires Handles(m, N(ElifMore)) && At(m.toks, m.pos, ELSEIF) && At(m.toks, m.pos + 1, LPAREN)
    ensures Steps(w, m, 4) == m.(c := CsElseifStartEvaluate(m.c), pos := m.pos + 2,
              vs := Push(m.yyval, Push(TokenCell(m.toks, m.pos + 1), Push(Tok(m), m.vs))),
              work := Seq4(N(ExprN), R(0, ElifEndEvaluate), T(RPAREN), R(0, StartElif),
                        Seq3(N(StmtN), R(9, Nop), N(ElifMore), m.work.rest)))
  {
    hide CsElseifStartEvaluate;
  }

  lemma ElifTest(w: World, m: M, e: Cell, r: Stack<Cell>, k: Stack<Sym>)
    requires m.status == Running && m.work == Seq3(R(0, ElifEndEvaluate), T(RPAREN), R(0, StartElif), k)
    requires At(m.toks, m.pos, RPAREN) && m.vs == Push(e, r)
    ensures Steps(w, m, 3) == m.(c := CsStartElseif(PopFlag(m.c), IsTrue(e.val)), pos := m.pos + 1,
                                 vs := Push(m.yyval, Push(Tok(m), Push(m.yyval, Push(e, r)))), work := k)
  {
  }

  lemma ElifClose(w: World, m: M, r: Stack<Cell>)
    requires Handles(m, R(9, Nop)) && Tops(m.vs, 9, r)
    ensures var m' := Steps(w, m, 1);
            m' == m.(vs := Push(m'.yyval, r), yyval := m'.yyval, work := m.work.rest)
  {
  }

  // ----- while

  lemma WhileOpen(w: World, m: M, head: Kind, last: Stack<Sym>)
    requires m.status == Running && m.work == WhilePass(head, last)
    requires At(m.toks, m.pos, head) && At(m.toks, m.pos + 1, LPAREN)
    ensures Steps(w, m, 2) == m.(pos := m.pos + 2, vs := Push(TokenCell(m.toks, m.pos + 1), Push(Tok(m), m.vs)),
                                 work := Seq4(N(ExprN), T(RPAREN), R(0, StartWhile), N(StmtN), last))
  {
  }

  /** The control globals inside a loop whose condition has the given truth. */
  function LoopCtl(c: Ctl, truth: bool): Ctl {
    SetFlag(PushFlag(c.(nest := c.nest + 1)), if !c.exec then c.flag else if truth then EXECUTE else DONT_EXECUTE)
  }

  lemma WhileTest(w: World, m: M, e: Cell, lp: Cell, t: Cell, r: Stack<Cell>, k: Stack<Sym>)
    requires m.status == Running && m.work == Seq2(T(RPAREN), R(0, StartWhile), k)
    requires At(m.toks, m.pos, RPAREN) && m.vs == Push(e, Push(lp, Push(t, r))) && m.c.exec == ShouldExecute(m.c)
    ensures Steps(w, m, 2) == m.(c := LoopCtl(m.c, IsTrue(e.val)), pos := m.pos + 1,
              toks := if m.c.exec then TcSetToken(m.toks, t.off, WHILE) else m.toks,
              vs := Push(m.yyval, Push(Tok(m), m.vs)), work := k)
  {
  }

  /** The end of a loop body makes the parser go back. */
  predicate LoopGoes(c: Ctl) {
    c.exec || (PendingHere(c) && c.change == DO_CONTINUE)
  }

  function LoopLeft(c: Ctl): Ctl {
    LeaveLoop(if !c.exec && PendingHere(c) then ClearPending(c) else c)
  }

  /** What an action that ends a loop does: it leaves the loop, and goes back to its token,
      marked, if there is to be another iteration. */
  function LoopTurn(m: M, goes: bool, off: int, mark: Kind): M {
    if goes then SeekToken(m.(c := LoopLeft(m.c), toks := TcSetToken(m.toks, off, mark)), off)
    else m.(c := LoopLeft(m.c))
  }

  lemma WhileEndFirst(w: World, m: M)
    requires Handles(m, R(0, EndWhile)) && m.work.rest.Push? && m.work.rest.top == R(0, Nop)
    ensures Steps(w, m, 2) == LoopTurn(m.(vs := Push(m.yyval, Push(m.yyval, m.vs)), work := m.work.rest.rest),
                                       LoopGoes(m.c), Nth(m.vs, 5).off, CONTINUED_WHILE)
  {
  }

  lemma WhileEndLater(w: World, m: M, r: Stack<Cell>)
    requires Handles(m, R(7, EndWhile)) && Tops(m.vs, 7, r)
    ensures var y := Nth(m.vs, 6);
            Steps(w, m, 1) == LoopTurn(m.(vs := Push(y, r), yyval := y, work := m.work.rest),
                                       LoopGoes(m.c), Nth(m.vs, 5).off, CONTINUED_WHILE)
  {
  }

  lemma StmtOpens(w: World, m: M, k: Kind)
    requires Handles(m, N(StmtN)) && At(m.toks, m.pos, k)
    ensures Steps(w, m, 1) == m.(work := StmtProduction(k, m.work.rest))
  {
  }

  lemma ItersOpen(w: World, m: M)
    requires m.status == Running && m.work.Push? && m.pos < |m.toks|
    requires m.work.top == N(WhileIters) || m.work.top == N(DoIters) || m.work.top == N(ForIters)
    ensures Steps(w, m, 1) == m.(work := Production(m.work.top.nt, m.toks[m.pos].kind, m.work.rest))
  {
  }

  lemma DropAll(w: World, m: M, len: nat, r: Stack<Cell>)
    requires Handles(m, R(len, Nop)) && len > 0 && Tops(m.vs, len, r)
    ensures var m' := Steps(w, m, 1);
            m' == m.(vs := Push(m'.yyval, r), yyval := m'.yyval, work := m.work.rest)
  {
    TopsDropped(m.vs, len, r);
  }

  lemma {:induction false} TopsMore(vs: Stack<Cell>, n: nat, r: Stack<Cell>)
    requires Tops(vs, n, r) && r.Push?
    ensures Tops(vs, n + 1, r.rest)
    decreases n
  {
    if n > 0 {
      TopsMore(vs.rest, n - 1, r);
    }
  }

  lemma {:induction false} TopsDropped(vs: Stack<Cell>, n: nat, r: Stack<Cell>)
    requires Tops(vs, n, r)
    ensures Drop(vs, n) == r
    decreases n
  {
    if n > 0 {
      TopsDropped(vs.rest, n - 1, r);
    }
  }

  // ----- do while

  lemma DoOpen(w: World, m: M, head: Kind, last: Stack<Sym>)
    requires m.status == Running && m.work == DoPass(head, last) && m.c.exec == ShouldExecute(m.c)
    requires At(m.toks, m.pos, head)
    ensures Steps(w, m, 2) == m.(c := LoopCtl(m.c, true), pos := m.pos + 1,
              toks := if m.c.exec then TcSetToken(m.toks, m.pos, DO) else m.toks,
              vs := Push(m.yyval, Push(Tok(m), m.vs)), work := Push(N(StmtN), DoRest(last)))
  {
  }

  function DoRest(last: Stack<Sym>): Stack<Sym> {
    Seq3(T(WHILE), R(0, ForceEvalDo), T(LPAREN), DoTail(last))
  }

  function DoTail(last: Stack<Sym>): Stack<Sym> {
    Seq3(N(ExprN), T(RPAREN), T(SEMI), last)
  }

  lemma DoMiddle(w: World, m: M, last: Stack<Sym>)
    requires m.status == Running && m.work == DoRest(last)
    requires At(m.toks, m.pos, WHILE) && At(m.toks, m.pos + 1, LPAREN)
    ensures Steps(w, m, 3) == m.(c := CsForceEvalDoWhile(m.c), pos := m.pos + 2, work := DoTail(last),
              vs := Push(TokenCell(m.toks, m.pos + 1), Push(m.yyval, Push(Tok(m), m.vs))))
  {
  }

  lemma DoClose(w: World, m: M, last: Stack<Sym>)
    requires m.status == Running && m.work == Seq2(T(RPAREN), T(SEMI), last)
    requires At(m.toks, m.pos, RPAREN) && At(m.toks, m.pos + 1, SEMI)
    ensures Steps(w, m, 2) == m.(pos := m.pos + 2, work := last,
                                 vs := Push(TokenCell(m.toks, m.pos + 1), Push(Tok(m), m.vs)))
  {
  }

  lemma DoEndFirst(w: World, m: M)
    requires Handles(m, R(0, EndDo)) && m.work.rest.Push? && m.work.rest.top == R(0, Nop)
            && m.c.exec == ShouldExecute(m.c)
    ensures Steps(w, m, 2) == LoopTurn(m.(vs := Push(m.yyval, Push(m.yyval, m.vs)), work := m.work.rest.rest),
                                       m.c.exec && IsTrue(Nth(m.vs, 2).val), Nth(m.vs, 8).off, CONTINUED_DOWHILE)
  {
  }

  lemma DoEndLater(w: World, m: M, r: Stack<Cell>)
    requires Handles(m, R(10, EndDo)) && Tops(m.vs, 10, r) && m.c.exec == ShouldExecute(m.c)
    ensures var y := Nth(m.vs, 9);
            Steps(w, m, 1) == LoopTurn(m.(vs := Push(y, r), yyval := y, work := m.work.rest),
                                       m.c.exec && IsTrue(Nth(m.vs, 2).val), Nth(m.vs, 8).off, CONTINUED_DOWHILE)
  {
  }

  // ----- for

  function ForRest1(last: Stack<Sym>): Stack<Sym> {
    Seq2(R(0, ForPreExpr2), T(SEMI), Push(N(ForExpr), ForRest2(last)))
  }

  function ForRest2(last: Stack<Sym>): Stack<Sym> {
    Seq2(R(0, ForPreExpr3), T(SEMI), Push(N(ForExpr), ForRest3(last)))
  }

  function ForRest3(last: Stack<Sym>): Stack<Sym> {
    Seq2(R(0, ForPreStatement), T(RPAREN), Push(N(StmtN), last))
  }

  /** The control globals after for_pre_expr1: the initialisation is run on the first pass only. */
  function ForCtl1(c: Ctl, off: int): Ctl {
    var c1 := PushFlag(c.(nest := c.nest + 1));
    if c1.exec && IntTop(c1.fors) == off then SetFlag(c1, DONT_EXECUTE) else c1
  }

  lemma ForOpen(w: World, m: M, head: Kind, last: Stack<Sym>)
    requires m.status == Running && m.work == ForPass(head, last)
    requires At(m.toks, m.pos, head) && At(m.toks, m.pos + 1, LPAREN)
    ensures Steps(w, m, 3) == m.(c := ForCtl1(m.c, m.pos), pos := m.pos + 2,
              toks := if m.c.exec then TcSetToken(m.toks, m.pos, FOR) else m.toks,
              vs := Push(TokenCell(m.toks, m.pos + 1), Push(m.yyval, Push(Tok(m), m.vs))),
              work := Push(N(ForExpr), ForRest1(last)))
  {
  }

  lemma ForSemi1(w: World, m: M, last: Stack<Sym>)
    requires m.status == Running && m.work == ForRest1(last) && At(m.toks, m.pos, SEMI)
    ensures Steps(w, m, 2) == m.(c := ForPre2(m.c, Nth(m.vs, 3)), pos := m.pos + 1,
                                 vs := Push(Tok(m), Push(m.yyval, m.vs)), work := Push(N(ForExpr), ForRest2(last)))
  {
  }

  lemma ForSemi2(w: World, m: M, last: Stack<Sym>)
    requires m.status == Running && m.work == ForRest2(last) && At(m.toks, m.pos, SEMI)
    ensures Steps(w, m, 2) == m.(c := ForPre3(m.c, Nth(m.vs, 6)), pos := m.pos + 1,
                                 vs := Push(Tok(m), Push(m.yyval, m.vs)), work := Push(N(ForExpr), ForRest3(last)))
  {
  }

  lemma ForParen(w: World, m: M, last: Stack<Sym>)
    requires m.status == Running && m.work == ForRest3(last) && At(m.toks, m.pos, RPAREN)
    ensures Steps(w, m, 2) == m.(c := ForPreStmt(m.c, Nth(m.vs, 9), Nth(m.vs, 3).val, Nth(m.vs, 0).val),
            pos := m.pos + 1,
                                 vs := Push(Tok(m), Push(m.yyval, m.vs)), work := Push(N(StmtN), last))
  {
  }

  /** for_stack after the last action of a `for`: its token is on top exactly if it goes on. */
  function ForsTurned(c: Ctl, off: int): Stack<int> {
    var fors := if IntTop(c.fors) != off then Push(off, c.fors) else c.fors;
    if LoopGoes(c) then fors else DelTop(fors)
  }

  /** The token cache after the last action of a `for`: swapped once and for all. */
  function ForSwapped(toks: seq<Token>, token: Cell, semi1: Cell, semi2: Cell, close: Cell): seq<Token> {
    if token.switched then toks
    else TcSetSwitched(TcSwitch(toks, semi1.off + 1, close.off - 1, semi2.off), token.off)
  }

  lemma ForPostIs(m: M)
    requires Nth(m.vs, 12).off >= 0
    ensures var token := Nth(m.vs, 12);
            ForPost(m) == LoopTurn(m.(c := m.c.(fors := ForsTurned(m.c, token.off)),
                                      toks := ForSwapped(m.toks, token, Nth(m.vs, 7), Nth(m.vs, 4), Nth(m.vs, 1))),
                                   LoopGoes(m.c), token.off, CONTINUED_FOR)
  {
    hide Nth, TcSwitch, TcSetSwitched, TcSetToken;
  }

  lemma ForEndFirst(w: World, m: M)
    requires Handles(m, R(0, ForPostStatement)) && m.work.rest.Push? && m.work.rest.top == R(0, Nop)
    ensures var m' := ForPost(m.(work := m.work.rest.rest));
            Steps(w, m, 2) == m'.(vs := Push(m.yyval, Push(m.yyval, m.vs)))
  {
    hide ForPost;
    var m1 := m.(work := m.work.rest);
    ForPostKeeps(m1);
    ForPostWork(m1, m.work.rest.rest);
    assert Step(w, m) == ForPost(m1).(vs := Push(m.yyval, m.vs));
  }

  lemma ForPostKeeps(m: M)
    ensures var m' := ForPost(m); m'.vs == m.vs && m'.yyval == m.yyval && m'.status == m.status && m'.work == m.work
  {
  }

  lemma ForPostWork(m: M, k: Stack<Sym>)
    ensures ForPost(m.(work := k)) == ForPost(m).(work := k)
  {
  }

  lemma ForEndLater(w: World, m: M, r: Stack<Cell>)
    requires Handles(m, R(14, ForPostStatement)) && Tops(m.vs, 14, r)
    ensures var y := Nth(m.vs, 13);
            var m' := ForPost(m.(yyval := y, work := m.work.rest));
            Steps(w, m, 1) == m'.(vs := Push(y, r))
  {
    hide ForPost;
    ForPostKeeps(m.(yyval := Nth(m.vs, 13), work := m.work.rest));
    TopsDropped(m.vs, 14, r);
  }

  // ----- switch

  function SwitchTail(k: Stack<Sym>): Stack<Sym> {
    Seq4(N(CaseList), T(RBRACE), R(3, Nop), R(6, SwitchEnd), k)
  }

  lemma SwitchOpen(w: World, m: M)
    requires Handles(m, N(StmtN)) && At(m.toks, m.pos, SWITCH) && At(m.toks, m.pos + 1, LPAREN)
    ensures Steps(w, m, 3) == m.(pos := m.pos + 2, vs := Push(TokenCell(m.toks, m.pos + 1), Push(Tok(m), m.vs)),
              work := Seq4(N(ExprN), T(RPAREN), R(0, SwitchStart), T(LBRACE), SwitchTail(m.work.rest)))
  {
  }

  lemma SwitchTest(w: World, m: M, e: Cell, lp: Cell, t: Cell, r: Stack<Cell>, k: Stack<Sym>)
    requires m.status == Running && m.work == Seq3(T(RPAREN), R(0, SwitchStart), T(LBRACE), k)
    requires At(m.toks, m.pos, RPAREN) && At(m.toks, m.pos + 1, LBRACE) && m.vs == Push(e, Push(lp, Push(t, r)))
    ensures Steps(w, m, 3) == m.(c := CsSwitchStart(m.c, t, e.val), pos := m.pos + 2, work := k,
              vs := Push(TokenCell(m.toks, m.pos + 1), Push(m.yyval, Push(Tok(m), m.vs))))
  {
  }

  lemma SwitchClose(w: World, m: M, r: Stack<Cell>, k: Stack<Sym>)
    requires m.status == Running && m.work == Seq3(T(RBRACE), R(3, Nop), R(6, SwitchEnd), k)
    requires At(m.toks, m.pos, RBRACE) && Tops(m.vs, 7, r)
    ensures var m' := Steps(w, m, 3);
            m' == m.(c := CsSwitchEnd(m.c), pos := m.pos + 1, vs := Push(m'.yyval, r), yyval := m'.yyval, work := k)
  {
  }

  lemma NoCasesSteps(w: World, m: M)
    requires Handles(m, N(CaseList)) && At(m.toks, m.pos, RBRACE)
    ensures Steps(w, m, 2) == m.(vs := Push(m.yyval, m.vs), work := m.work.rest)
  {
  }

  function CaseTail(k: Stack<Sym>): Stack<Sym> {
    Seq3(R(0, CasePost), N(CaseList), R(7, Nop), k)
  }

  lemma CaseOpen(w: World, m: M)
    requires Handles(m, N(CaseList)) && At(m.toks, m.pos, CASE)
    ensures Steps(w, m, 2) == m.(pos := m.pos + 1, vs := Push(Tok(m), m.vs),
              work := Seq4(N(ExprN), T(COLON), R(0, CasePre), R(0, Nop), Push(N(ListMore), CaseTail(m.work.rest))))
  {
  }

  lemma CaseTest(w: World, m: M, e: Cell, r: Stack<Cell>, k: Stack<Sym>)
    requires m.status == Running && m.work == Seq3(T(COLON), R(0, CasePre), R(0, Nop), k)
    requires At(m.toks, m.pos, COLON) && m.vs == Push(e, r)
    ensures Steps(w, m, 3) == m.(c := CsSwitchCasePre(w, m.c, false, e.val), pos := m.pos + 1, work := k,
              vs := Push(m.yyval, Push(m.yyval, Push(Tok(m), m.vs))))
  {
    hide CsSwitchCasePre;
  }

  lemma CaseMid(w: World, m: M)
    requires Handles(m, R(0, CasePost))
    ensures Steps(w, m, 1) == m.(c := PeekFlag(m.c), vs := Push(m.yyval, m.vs), work := m.work.rest)
  {
  }

  lemma DefaultOpen(w: World, m: M)
    requires Handles(m, N(CaseList)) && At(m.toks, m.pos, DEFAULT) && At(m.toks, m.pos + 1, COLON)
    ensures Steps(w, m, 3) == m.(pos := m.pos + 2, vs := Push(TokenCell(m.toks, m.pos + 1), Push(Tok(m), m.vs)),
              work := Seq4(R(0, DefaultPre), R(0, Nop), N(ListMore), R(0, CasePost), Seq1(R(5, Nop), m.work.rest)))
  {
  }

  lemma DefaultTest(w: World, m: M)
    requires Handles(m, R(0, DefaultPre)) && m.work.rest.Push? && m.work.rest.top == R(0, Nop)
    ensures Steps(w, m, 2) == m.(c := CsSwitchCasePre(w, m.c, true, Unset), vs := Push(m.yyval, Push(m.yyval, m.vs)),
                                 work := m.work.rest.rest)
  {
  }
}
