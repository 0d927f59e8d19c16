/** Running the machine over an expression: it evaluates exactly what short-circuit
    semantics evaluates when Execute is set, and nothing at all when it is not. */
module ExprProof {
  import opened Values
  import opened Syntax
  import opened Machine
  import opened Semantics
  import opened Walk

  /** Execute agrees with SHOULD_EXECUTE. */
  predicate Settled(c: Ctl) { c.exec == ShouldExecute(c) }

  /** Execute is set, and rightly so. */
  predicate Live(c: Ctl) { c.exec && ShouldExecute(c) }

  /** Execute is clear, and rightly so. */
  predicate Dead(c: Ctl) { !c.exec && !ShouldExecute(c) }

  predicate NoOperator(toks: seq<Token>, i: nat) {
    i < |toks| && toks[i].kind != OROR && toks[i].kind != ANDAND && toks[i].kind != QMARK
  }

  /** m after passing over `len` tokens, leaving one value and the given store. */
  function Passed(m: M, len: nat, cell: Cell, store: Store): M
    requires m.work.Push?
  {
    m.(pos := m.pos + len, work := m.work.rest, vs := Push(cell, m.vs), yyval := cell, store := store)
  }

  /** What the machine leaves for an expression: its value and its effect when Execute is set,
      an unspecified value and no effect otherwise. */
  predicate Computed(w: World, m: M, e: Expr, cell: Cell, store: Store) {
    if m.c.exec then cell.val == EvalE(w, e, m.store).0 && store == EvalE(w, e, m.store).1
    else store == m.store
  }

  // ----- short stretches of parsing, each a fixed number of steps

  lemma LeafSteps(w: World, m: M, e: Expr)
    requires Handles(m, N(Primary))
    requires e.Leaf? && SpellsP(m.toks, m.pos, e)
    ensures var m' := Steps(w, m, 3);
            m' == Passed(m, 1, m'.yyval, m'.store) && Computed(w, m, e, m'.yyval, m'.store)
  {
  }

  lemma ParenOpenSteps(w: World, m: M)
    requires Handles(m, N(Primary))
    requires At(m.toks, m.pos, LPAREN)
    ensures Steps(w, m, 2) == m.(pos := m.pos + 1, vs := Push(TokenCell(m.toks, m.pos), m.vs),
                                 work := Seq3(N(ExprN), T(RPAREN), R(3, Paren), m.work.rest))
  {
  }

  lemma ParenCloseSteps(w: World, m: M, e: Cell, lp: Cell, r: Stack<Cell>, k: Stack<Sym>)
    requires m.status == Running && m.work == Seq2(T(RPAREN), R(3, Paren), k)
    requires At(m.toks, m.pos, RPAREN) && m.vs == Push(e, Push(lp, r))
    ensures var cell := if m.c.exec then e else lp;
            Steps(w, m, 2) == m.(pos := m.pos + 1, vs := Push(cell, r), yyval := cell, work := k)
  {
  }

  lemma ExprOpenSteps(w: World, m: M)
    requires Handles(m, N(ExprN))
    ensures Steps(w, m, 1) == m.(work := Seq2(N(Primary), N(OpTail), m.work.rest))
  {
  }

  lemma NoOperatorSteps(w: World, m: M)
    requires Handles(m, N(OpTail))
    requires NoOperator(m.toks, m.pos)
    ensures Steps(w, m, 1) == m.(work := m.work.rest)
  {
  }

  function OpKind(isOr: bool): Kind { if isOr then OROR else ANDAND }

  /** Execute is cleared for the right operand when the left one decides the result. */
  lemma BooleanOpenSteps(w: World, m: M, isOr: bool, left: Cell, r: Stack<Cell>)
    requires Handles(m, N(OpTail))
    requires At(m.toks, m.pos, OpKind(isOr)) && m.vs == Push(left, r)
    requires Settled(m.c)
    ensures var left' := if m.c.exec then left.(val := ToBooleanLong(left.val)) else left;
            var flag := if m.c.exec && IsTrue(left.val) == isOr then DONT_EXECUTE else m.c.flag;
            Steps(w, m, 3) == m.(c := SetFlag(PushFlag(m.c), flag), pos := m.pos + 1,
                                 vs := Push(m.yyval, Push(TokenCell(m.toks, m.pos), Push(left', r))),
                                 work := Seq2(N(Primary), R(4, if isOr then PostOr else PostAnd), m.work.rest))
  {
  }

  lemma BooleanCloseSteps(w: World, m: M, isOr: bool, right: Cell, mid: Cell, op: Cell, left: Cell, r: Stack<Cell>)
    requires Handles(m, R(4, if isOr then PostOr else PostAnd))
    requires m.vs == Push(right, Push(mid, Push(op, Push(left, r))))
    ensures var c' := PopFlag(m.c);
            var v := if isOr then BooleanOr(left.val, right.val) else BooleanAnd(left.val, right.val);
            var cell := if c'.exec then left.(val := v) else left;
            Steps(w, m, 1) == m.(c := c', vs := Push(cell, r), yyval := cell, work := m.work.rest)
  {
  }

  lemma QuestionOpenSteps(w: World, m: M, truth: Cell, r: Stack<Cell>)
    requires Handles(m, N(OpTail))
    requires At(m.toks, m.pos, QMARK) && m.vs == Push(truth, r)
    requires Settled(m.c)
    ensures var truth' := if m.c.exec then truth.(val := ToBooleanLong(truth.val)) else truth;
            var flag := if m.c.exec && !IsTrue(truth.val) then DONT_EXECUTE else m.c.flag;
            Steps(w, m, 3) == m.(c := SetFlag(PushFlag(m.c), flag), pos := m.pos + 1,
                                 vs := Push(m.yyval, Push(TokenCell(m.toks, m.pos), Push(truth', r))),
                                 work := Seq4(N(Primary), T(COLON), R(0, Question2), N(Primary),
                                              Seq1(R(7, Question3), m.work.rest)))
  {
  }

  lemma QuestionMiddleSteps(w: World, m: M, yes: Cell, mid: Cell, op: Cell, truth: Cell, r: Stack<Cell>, k: Stack<Sym>)
    requires m.status == Running && m.work == Seq2(T(COLON), R(0, Question2), k)
    requires At(m.toks, m.pos, COLON) && m.vs == Push(yes, Push(mid, Push(op, Push(truth, r))))
    ensures var c1 := PeekFlag(m.c);
            var truth' := if c1.exec then truth.(val := ToBooleanLong(truth.val)) else truth;
            var c' := if c1.exec && IsTrue(truth.val) then SetFlag(c1, DONT_EXECUTE) else c1;
            var colon := TokenCell(m.toks, m.pos);
            Steps(w, m, 2) == m.(c := c', pos := m.pos + 1, work := k,
                                 vs := Push(m.yyval, Push(colon, Push(yes, Push(mid, Push(op, Push(truth', r)))))))
  {
  }

  lemma QuestionCloseSteps(w: World, m: M, no: Cell, mid2: Cell, colon: Cell, yes: Cell, mid: Cell, op: Cell,
                           truth: Cell, r: Stack<Cell>)
    requires Handles(m, R(7, Question3))
    requires m.vs == Push(no, Push(mid2, Push(colon, Push(yes, Push(mid, Push(op, Push(truth, r)))))))
    ensures var c' := PopFlag(m.c);
            var cell := if c'.exec then (if IsTrue(truth.val) then yes else no) else truth;
            Steps(w, m, 1) == m.(c := c', vs := Push(cell, r), yyval := cell, work := m.work.rest)
  {
  }

  // ----- whole expressions

  /** || and && at once: the right operand counts only if the left one does not decide. */
  function EvalBoolean(w: World, isOr: bool, l: Expr, r: Expr, st: Store): (Value, Store) {
    var (lv, st1) := EvalE(w, l, st);
    if IsTrue(lv) == isOr then (Long(if isOr then 1 else 0), st1)
    else
      var (rv, st2) := EvalE(w, r, st1);
      (Long(if IsTrue(rv) then 1 else 0), st2)
  }

  function EvalCond(w: World, c: Expr, y: Expr, z: Expr, st: Store): (Value, Store) {
    var (cv, st1) := EvalE(w, c, st);
    if IsTrue(cv) then EvalE(w, y, st1) else EvalE(w, z, st1)
  }

  /** The meaning of a compound expression in terms of its parts. */
  lemma EvalParts(w: World, e: Expr, st: Store)
    ensures e.Or? ==> EvalE(w, e, st) == EvalBoolean(w, true, e.left, e.right, st)
    ensures e.And? ==> EvalE(w, e, st) == EvalBoolean(w, false, e.left, e.right, st)
    ensures e.Cond? ==> EvalE(w, e, st) == EvalCond(w, e.test, e.yes, e.no, st)
  {
  }

  lemma {:induction false} PassPrimary(w: World, s: M, n: nat, m: M, e: Expr)
    returns (n': nat, cell: Cell, store: Store)
    requires Reached(w, s, n, m, N(Primary)) && Settled(m.c)
    requires SpellsP(m.toks, m.pos, e)
    ensures n' > n && Steps(w, s, n') == Passed(m, LenP(e), cell, store)
    ensures Computed(w, m, e, cell, store)
    decreases e, 3
  {
    hide Steps, Computed, SpellsE, LenE;
    if e.Leaf? {
      LeafSteps(w, m, e);
      Then(w, s, n, m, 3);
      n', cell, store := n + 3, Steps(w, s, n + 3).yyval, Steps(w, s, n + 3).store;
    } else {
      n', cell, store := PassParen(w, s, n, m, e);
    }
  }

  lemma ParenOpened(w: World, s: M, n: nat, m: M, e: Expr) returns (m1: M)
    requires Reached(w, s, n, m, N(Primary)) && Settled(m.c)
    requires At(m.toks, m.pos, LPAREN) && SpellsE(m.toks, m.pos + 1, e) && At(m.toks, m.pos + 1 + LenE(e), RPAREN)
    ensures Reached(w, s, n + 2, m1, N(ExprN)) && NoOperator(m1.toks, m1.pos + LenE(e))
    ensures m1.vs.Push? && m1 == m.(pos := m.pos + 1, vs := Push(m1.vs.top, m.vs),
                                    work := Push(N(ExprN), Seq2(T(RPAREN), R(3, Paren), m.work.rest)))
  {
    hide Steps, SpellsE, LenE;
    ParenOpenSteps(w, m);
    Then(w, s, n, m, 2);
    m1 := Steps(w, s, n + 2);
  }

  lemma {:induction false} PassParen(w: World, s: M, n: nat, m: M, e: Expr)
    returns (n': nat, cell: Cell, store: Store)
    requires Reached(w, s, n, m, N(Primary)) && Settled(m.c)
    requires At(m.toks, m.pos, LPAREN) && SpellsE(m.toks, m.pos + 1, e) && At(m.toks, m.pos + 1 + LenE(e), RPAREN)
    ensures n' > n && Steps(w, s, n') == Passed(m, LenE(e) + 2, cell, store)
    ensures Computed(w, m, e, cell, store)
    decreases e, 3, 0
  {
    hide Steps, Computed, SpellsE, LenE, NoOperator, ShouldExecute;
    var m1 := ParenOpened(w, s, n, m, e);
    var n2, cell2, store2 := PassExpr(w, s, n + 2, m1, e);
    var m2 := Passed(m1, LenE(e), cell2, store2);
    ParenCloseSteps(w, m2, cell2, m1.vs.top, m.vs, m.work.rest);
    Then(w, s, n2, m2, 2);
    n', cell, store := n2 + 2, if m.c.exec then cell2 else m1.vs.top, store2;
    ComputedAlike(w, m1, m, e, cell2, cell, store);
  }

  lemma ComputedAlike(w: World, m1: M, m2: M, e: Expr, cell1: Cell, cell2: Cell, store: Store)
    requires m1.c == m2.c && m1.store == m2.store && (m1.c.exec ==> cell1 == cell2)
    ensures Computed(w, m1, e, cell1, store) == Computed(w, m2, e, cell2, store)
  {
  }

  /** Any expression, where no operator follows it: one value is left, everything else is as
      it was, and the effects are those of EvalE or none at all. */
  lemma {:induction false} PassExpr(w: World, s: M, n: nat, m: M, e: Expr)
    returns (n': nat, cell: Cell, store: Store)
    requires Reached(w, s, n, m, N(ExprN)) && Settled(m.c)
    requires SpellsE(m.toks, m.pos, e) && NoOperator(m.toks, m.pos + LenE(e))
    ensures n' > n && Steps(w, s, n') == Passed(m, LenE(e), cell, store)
    ensures Computed(w, m, e, cell, store)
    decreases e, 2
  {
    hide Steps, EvalE, SpellsP, LenP;
    ExprOpenSteps(w, m);
    Then(w, s, n, m, 1);
    var m1 := Steps(w, s, n + 1);
    EvalParts(w, e, m.store);
    match e
    case Leaf(_) =>
      LeafSteps(w, m1, e);
      Then(w, s, n + 1, m1, 3);
      var m2 := Steps(w, s, n + 1 + 3);
      NoOperatorSteps(w, m2);
      Then(w, s, n + 4, m2, 1);
      n', cell, store := n + 5, m2.yyval, m2.store;
    case Or(l, r) =>
      n', cell, store := PassBoolean(w, s, n + 1, m1, e, true, l, r);
    case And(l, r) =>
      n', cell, store := PassBoolean(w, s, n + 1, m1, e, false, l, r);
    case Cond(c, y, z) =>
      n', cell, store := PassCond(w, s, n + 1, m1, e);
  }

  lemma {:induction false} PassBoolean(w: World, s: M, n: nat, m: M, e: Expr, isOr: bool, l: Expr, r: Expr)
    returns (n': nat, cell: Cell, store: Store)
    requires Reached(w, s, n, m, N(Primary)) && Settled(m.c)
    requires m.work.rest.Push? && m.work.rest.top == N(OpTail)
    requires if isOr then e == Or(l, r) else e == And(l, r)
    requires SpellsP(m.toks, m.pos, l) && SpellsP(m.toks, m.pos + LenP(l) + 1, r)
    requires At(m.toks, m.pos + LenP(l), OpKind(isOr))
    ensures n' > n && Steps(w, s, n') == Passed(m.(work := m.work.rest), LenP(l) + 1 + LenP(r), cell, store)
    ensures if m.c.exec then (cell.val, store) == EvalBoolean(w, isOr, l, r, m.store) else store == m.store
    decreases e, 1
  {
    hide Steps, EvalE, SpellsP, LenP;
    var n1, left, store1 := PassPrimary(w, s, n, m, l);
    var m1 := Steps(w, s, n1);
    BooleanOpenSteps(w, m1, isOr, left, m.vs);
    Then(w, s, n1, m1, 3);
    var m2 := Steps(w, s, n1 + 3);
    var n3, right, store3 := PassPrimary(w, s, n1 + 3, m2, r);
    var m3 := Steps(w, s, n3);
    BooleanCloseSteps(w, m3, isOr, right, m2.vs.top, m2.vs.rest.top, m2.vs.rest.rest.top, m.vs);
    Then(w, s, n3, m3, 1);
    n', cell, store := n3 + 1, Steps(w, s, n3 + 1).yyval, store3;
    ConversionIsStable(left.val);
  }

  /** `c ? y : z` up to the first branch: Execute stays set only if the condition is true. */
  lemma {:induction false} PassCondTest(w: World, s: M, n: nat, m: M, e: Expr)
    returns (n2: nat, m2: M, truth: Cell, mid: Cell, op: Cell)
    requires Reached(w, s, n, m, N(Primary)) && Settled(m.c)
    requires m.work.rest.Push? && m.work.rest.top == N(OpTail)
    requires e.Cond? && SpellsP(m.toks, m.pos, e.test) && At(m.toks, m.pos + LenP(e.test), QMARK)
    ensures n2 > n && Steps(w, s, n2) == m2 && Settled(m2.c)
    ensures m2 == m.(c := m2.c, pos := m.pos + LenP(e.test) + 1, vs := Push(mid, Push(op, Push(truth, m.vs))),
            yyval := m2.yyval,
                     store := m2.store, work := Seq4(N(Primary), T(COLON), R(0, Question2), N(Primary),
                                                     Seq1(R(7, Question3), m.work.rest.rest)))
    ensures m2.c == SetFlag(PushFlag(m.c), if m.c.exec && !IsTrue(truth.val) then DONT_EXECUTE else m.c.flag)
    ensures if m.c.exec then IsTrue(truth.val) == IsTrue(EvalE(w, e.test, m.store).0)
            && m2.store == EvalE(w, e.test, m.store).1
            else m2.store == m.store
    decreases e, 0
  {
    hide Steps, EvalE, SpellsP, LenP;
    var n1, t1, store1 := PassPrimary(w, s, n, m, e.test);
    var m1 := Steps(w, s, n1);
    QuestionOpenSteps(w, m1, t1, m.vs);
    Then(w, s, n1, m1, 3);
    n2, m2 := n1 + 3, Steps(w, s, n1 + 3);
    mid, op, truth := m2.vs.top, m2.vs.rest.top, m2.vs.rest.rest.top;
    ConversionIsStable(t1.val);
  }

  /** The first branch, up to the second: Execute is set again only if the condition is false. */
  lemma {:induction false} PassCondYes(w: World, s: M, n: nat, m: M, y: Expr, truth: Cell, mid: Cell, op: Cell,
      r: Stack<Cell>,
                                       k: Stack<Sym>)
    returns (n4: nat, m4: M, yes: Cell, mid4: Cell, colon: Cell, truth4: Cell)
    requires Reached(w, s, n, m, N(Primary)) && Settled(m.c) && m.vs == Push(mid, Push(op, Push(truth, r)))
    requires m.work == Seq4(N(Primary), T(COLON), R(0, Question2), N(Primary), Seq1(R(7, Question3), k))
    requires SpellsP(m.toks, m.pos, y) && At(m.toks, m.pos + LenP(y), COLON)
    ensures n4 > n && Steps(w, s, n4) == m4 && Settled(m4.c) && Computed(w, m, y, yes, m4.store)
    ensures var c1 := PeekFlag(m.c);
            m4 == m.(c := if c1.exec && IsTrue(truth.val) then SetFlag(c1, DONT_EXECUTE) else c1,
                     pos := m.pos + LenP(y) + 1,
                     vs := Push(mid4, Push(colon, Push(yes, Push(mid, Push(op, Push(truth4, r)))))), yyval := m4.yyval,
                     store := m4.store, work := Push(N(Primary), Seq1(R(7, Question3), k)))
    ensures IsTrue(truth4.val) == IsTrue(truth.val)
    decreases y, 4
  {
    hide Steps, EvalE, SpellsP, LenP;
    var n3, cell, store3 := PassPrimary(w, s, n, m, y);
    var m3 := Passed(m, LenP(y), cell, store3);
    QuestionMiddleSteps(w, m3, cell, mid, op, truth, r, m3.work.rest.rest);
    Then(w, s, n3, m3, 2);
    n4, m4, yes := n3 + 2, Steps(w, s, n3 + 2), cell;
    mid4, colon, truth4 := m4.vs.top, m4.vs.rest.top, m4.vs.rest.rest.rest.rest.rest.top;
    ConversionIsStable(truth.val);
  }

  lemma {:induction false} PassCond(w: World, s: M, n: nat, m: M, e: Expr)
    returns (n': nat, cell: Cell, store: Store)
    requires Reached(w, s, n, m, N(Primary)) && Settled(m.c)
    requires m.work.rest.Push? && m.work.rest.top == N(OpTail)
    requires e.Cond? && SpellsE(m.toks, m.pos, e)
    ensures n' > n && Steps(w, s, n') == Passed(m.(work := m.work.rest), LenE(e), cell, store)
    ensures if m.c.exec then (cell.val, store) == EvalCond(w, e.test, e.yes, e.no, m.store) else store == m.store
    decreases e, 1
  {
    hide Steps, EvalE, SpellsP, LenP;
    var n2, m2, truth2, mid, op := PassCondTest(w, s, n, m, e);
    var n4, m4, yes, mid4, colon, truth4 := PassCondYes(w, s, n2, m2, e.yes, truth2, mid, op, m.vs, m.work.rest.rest);
    var n5, no, store5 := PassPrimary(w, s, n4, m4, e.no);
    var m5 := Steps(w, s, n5);
    QuestionCloseSteps(w, m5, no, mid4, colon, yes, mid, op, truth4, m.vs);
    Then(w, s, n5, m5, 1);
    n', cell, store := n5 + 1, Steps(w, s, n5 + 1).yyval, store5;
  }

  // ----- comma lists in the head of a `for`

  predicate ComputedX(w: World, m: M, xs: Exprs, cell: Cell, store: Store) {
    if m.c.exec then (cell.val, store) == EvalX(w, xs, m.store) else store == m.store
  }

  predicate ComputedXMore(w: World, m: M, xs: Exprs, last: Value, cell: Cell, store: Store) {
    if m.c.exec then (cell.val, store) == EvalXMore(w, xs, last, m.store) else store == m.store
  }

  /** The token after such a list. */
  predicate EndsX(toks: seq<Token>, i: nat) {
    At(toks, i, SEMI) || At(toks, i, RPAREN)
  }

  lemma ListStartSteps(w: World, m: M)
    requires Handles(m, N(ForExpr)) && StartsExpr(m.toks, m.pos)
    ensures Steps(w, m, 1) == m.(work := Seq3(N(ExprN), R(1, Nop), N(ForExprMore), m.work.rest))
  {
  }

  lemma ListEmptySteps(w: World, m: M)
    requires Handles(m, N(ForExpr)) && EndsX(m.toks, m.pos)
    ensures Steps(w, m, 2) == Passed(m, 0, m.yyval.(val := Long(1)), m.store)
  {
  }

  lemma UnitSteps(w: World, m: M)
    requires Handles(m, R(1, Nop)) && m.vs.Push?
    ensures Steps(w, m, 1) == m.(yyval := m.vs.top, work := m.work.rest)
  {
  }

  lemma CommaOpenSteps(w: World, m: M)
    requires Handles(m, N(ForExprMore)) && At(m.toks, m.pos, COMMA)
    ensures Steps(w, m, 2) == m.(pos := m.pos + 1, vs := Push(TokenCell(m.toks, m.pos), m.vs),
                                 work := Seq3(N(ExprN), R(3, ForExprComma), N(ForExprMore), m.work.rest))
  {
  }

  lemma CommaCloseSteps(w: World, m: M, e: Cell, comma: Cell, last: Cell, r: Stack<Cell>)
    requires Handles(m, R(3, ForExprComma)) && m.vs == Push(e, Push(comma, Push(last, r)))
    ensures var cell := if m.c.exec then e else last;
            Steps(w, m, 1) == m.(vs := Push(cell, r), yyval := cell, work := m.work.rest)
  {
  }

  lemma ListEndSteps(w: World, m: M)
    requires Handles(m, N(ForExprMore)) && EndsX(m.toks, m.pos)
    ensures Steps(w, m, 1) == m.(work := m.work.rest)
  {
  }

  lemma FirstTokenE(t: seq<Token>, a: nat, e: Expr)
    requires SpellsE(t, a, e)
    ensures StartsExpr(t, a)
  {
  }

  lemma AfterExpr(t: seq<Token>, a: nat, xs: Exprs)
    requires SpellsXMore(t, a, xs) && EndsX(t, a + LenXMore(xs))
    ensures NoOperator(t, a)
  {
    hide SpellsE, LenE;
  }

  lemma {:induction false} PassXMore(w: World, s: M, n: nat, m: M, xs: Exprs)
    returns (n': nat, cell: Cell, store: Store)
    requires Reached(w, s, n, m, N(ForExprMore)) && Settled(m.c) && m.vs.Push? && m.yyval == m.vs.top
    requires SpellsXMore(m.toks, m.pos, xs) && EndsX(m.toks, m.pos + LenXMore(xs))
    ensures n' > n && Steps(w, s, n') == m.(pos := m.pos + LenXMore(xs), work := m.work.rest,
            vs := Push(cell, m.vs.rest),
                                            yyval := cell, store := store)
    ensures ComputedXMore(w, m, xs, m.vs.top.val, cell, store)
    decreases xs
  {
    hide Steps, SpellsE, LenE, EvalE, EndsX, ShouldExecute;
    match xs
    case NoExprs =>
      ListEndSteps(w, m);
      Then(w, s, n, m, 1);
      n', cell, store := n + 1, m.vs.top, m.store;
    case MoreExprs(e, tl) =>
      AfterExpr(m.toks, m.pos + 1 + LenE(e), tl);
      var n2, m2 := PassComma(w, s, n, m, e);
      n', cell, store := PassXMore(w, s, n2, m2, tl);
  }

  lemma PassComma(w: World, s: M, n: nat, m: M, e: Expr) returns (n': nat, m': M)
    requires Reached(w, s, n, m, N(ForExprMore)) && Settled(m.c) && m.vs.Push?
    requires At(m.toks, m.pos, COMMA) && SpellsE(m.toks, m.pos + 1, e) && NoOperator(m.toks, m.pos + 1 + LenE(e))
    ensures n' > n && Steps(w, s, n') == m'
    ensures m'.vs.Push? && m' == m.(pos := m.pos + 1 + LenE(e), vs := Push(m'.vs.top, m.vs.rest), yyval := m'.vs.top,
                                    store := m'.store)
    ensures if m.c.exec then (m'.vs.top.val, m'.store) == EvalE(w, e, m.store) else m'.store == m.store
  {
    hide Steps, SpellsE, LenE, EvalE, ShouldExecute, NoOperator;
    CommaOpenSteps(w, m);
    Then(w, s, n, m, 2);
    var m1 := Steps(w, m, 2);
    var n2, cell, store := PassExpr(w, s, n + 2, m1, e);
    var m2 := Passed(m1, LenE(e), cell, store);
    CommaCloseSteps(w, m2, cell, m1.vs.top, m.vs.top, m.vs.rest);
    Then(w, s, n2, m2, 1);
    n', m' := n2 + 1, Steps(w, m2, 1);
  }

  /** A comma list: its expressions in order, and the value of the last. */
  lemma PassX(w: World, s: M, n: nat, m: M, xs: Exprs) returns (n': nat, cell: Cell, store: Store)
    requires Reached(w, s, n, m, N(ForExpr)) && Settled(m.c)
    requires SpellsX(m.toks, m.pos, xs) && EndsX(m.toks, m.pos + LenX(xs))
    ensures n' > n && Steps(w, s, n') == Passed(m, LenX(xs), cell, store)
    ensures ComputedX(w, m, xs, cell, store)
  {
    hide Steps, SpellsE, LenE, EvalE, EndsX, ShouldExecute, SpellsXMore, LenXMore, EvalXMore, StartsExpr;
    match xs
    case NoExprs =>
      ListEmptySteps(w, m);
      Then(w, s, n, m, 2);
      n', cell, store := n + 2, m.yyval.(val := Long(1)), m.store;
    case MoreExprs(e, tl) =>
      FirstTokenE(m.toks, m.pos, e);
      AfterExpr(m.toks, m.pos + LenE(e), tl);
      n', cell, store := PassMoreX(w, s, n, m, e, tl);
  }

  lemma PassMoreX(w: World, s: M, n: nat, m: M, e: Expr, tl: Exprs) returns (n': nat, cell: Cell, store: Store)
    requires Reached(w, s, n, m, N(ForExpr)) && Settled(m.c) && StartsExpr(m.toks, m.pos)
    requires SpellsE(m.toks, m.pos, e) && NoOperator(m.toks, m.pos + LenE(e))
    requires SpellsXMore(m.toks, m.pos + LenE(e), tl) && EndsX(m.toks, m.pos + LenE(e) + LenXMore(tl))
    ensures n' > n && Steps(w, s, n') == Passed(m, LenE(e) + LenXMore(tl), cell, store)
    ensures if m.c.exec then
              var (v, st) := EvalE(w, e, m.store); (cell.val, store) == EvalXMore(w, tl, v, st)
            else store == m.store
  {
    hide Steps, SpellsE, LenE, EvalE, EndsX, ShouldExecute, SpellsXMore, LenXMore, EvalXMore, StartsExpr,
      NoOperator;
    ListStartSteps(w, m);
    Then(w, s, n, m, 1);
    var m1 := Steps(w, m, 1);
    var n2, cell2, store2 := PassExpr(w, s, n + 1, m1, e);
    var m2 := Passed(m1, LenE(e), cell2, store2);
    UnitSteps(w, m2);
    Then(w, s, n2, m2, 1);
    n', cell, store := PassXMore(w, s, n2 + 1, Steps(w, m2, 1), tl);
  }
}
