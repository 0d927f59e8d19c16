/** The parse-and-execute machine. The parser walks the token cache; its semantic actions
    decide, through a handful of globals, whether the code being parsed takes effect, and
    make loops by moving the read position back. Every action below is one function of
    control_structures_inline.h; the productions and the stack offsets the actions use are
    those of language-parser.tab.c.

    The LALR automaton is replaced by a predictive one that performs the same shifts and
    reductions in the same order on the same value stack. */
module Machine {
  import opened Values
  import opened Syntax

  const EXECUTE := 0
  const BEFORE_EXECUTE := 1
  const DONT_EXECUTE := 2

  datatype Stack<T> = Nil | Push(top: T, rest: Stack<T>)

  /** php3i_stack_int_top: FAILURE, which is -1, when there is nothing on the stack. */
  function IntTop(s: Stack<int>): int {
    if s.Nil? then -1 else s.top
  }

  /** php3i_stack_del_top. */
  function DelTop<T>(s: Stack<T>): Stack<T> {
    if s.Nil? then Nil else s.rest
  }

  // ----- the control globals

  datatype Change = DO_NOTHING | DO_BREAK | DO_CONTINUE

  datatype SwitchExpr = SwitchExpr(expr: Value, offset: int, execute: bool)

  /** ExecuteFlag, Execute, the control stacks and the loop fields of function_state. */
  datatype Ctl = Ctl(
    flag: int,
    exec: bool,
    css: Stack<int>,
    fors: Stack<int>,
    switches: Stack<SwitchExpr>,
    nest: int,
    change: Change,
    level: int,
    returned: bool,
    result: Value)

  /** SHOULD_EXECUTE. */
  predicate ShouldExecute(c: Ctl) {
    c.flag == EXECUTE && !c.returned && c.change == DO_NOTHING
  }

  /** Execute = SHOULD_EXECUTE, after setting ExecuteFlag. */
  function SetFlag(c: Ctl, flag: int): Ctl {
    var c1 := c.(flag := flag);
    c1.(exec := ShouldExecute(c1))
  }

  function PushFlag(c: Ctl): Ctl {
    c.(css := Push(c.flag, c.css))
  }

  /** ExecuteFlag from the top of css, which is kept. */
  function PeekFlag(c: Ctl): Ctl {
    SetFlag(c, IntTop(c.css))
  }

  function PopFlag(c: Ctl): Ctl {
    SetFlag(c.(css := DelTop(c.css)), IntTop(c.css))
  }

  predicate PendingHere(c: Ctl) {
    c.change != DO_NOTHING && c.level == c.nest
  }

  function ClearPending(c: Ctl): Ctl {
    c.(change := DO_NOTHING, level := 0)
  }

  /** The common tail of the loop-ending actions. */
  function LeaveLoop(c: Ctl): Ctl {
    var c1 := PopFlag(c);
    c1.(nest := c1.nest - 1)
  }

  // ----- the parser

  /** A semantic value: what the scanner or an action left on the value stack. */
  datatype Cell = Cell(val: Value, off: int, switched: bool, leaf: nat)

  const JUNK := Cell(Unset, -1, false, 0)

  /** yyvsp[-k]. */
  function Nth(vs: Stack<Cell>, k: nat): Cell
    decreases k
  {
    if vs.Nil? then JUNK else if k == 0 then vs.top else Nth(vs.rest, k - 1)
  }

  function SetVal(vs: Stack<Cell>, k: nat, v: Value): Stack<Cell>
    decreases k
  {
    if vs.Nil? then Nil
    else if k == 0 then Push(vs.top.(val := v), vs.rest)
    else Push(vs.top, SetVal(vs.rest, k - 1, v))
  }

  /** yyvsp -= n. */
  function Drop(vs: Stack<Cell>, n: nat): Stack<Cell>
    decreases n
  {
    if n == 0 || vs.Nil? then vs else Drop(vs.rest, n - 1)
  }

  datatype Nt =
    | StmtN | ListMore | ExprN | Primary | OpTail | ForExpr | ForExprMore
    | WhileIters | DoIters | ForIters | ElifMore | ElseSingle | CaseList
    | JumpTail(op: JumpOp) | ReturnTail

  datatype Act =
    | Nop | Eval | Paren | PreOr | PostOr | PreAnd | PostAnd | Question1 | Question2 | Question3
    | ForExprEmpty | ForExprComma
    | StartIf | EndIf | ElifStartEvaluate | ElifEndEvaluate | StartElif | StartElse
    | StartWhile | EndWhile | StartDo | ForceEvalDo | EndDo
    | ForPreExpr1 | ForPreExpr2 | ForPreExpr3 | ForPreStatement | ForPostStatement
    | SwitchStart | CasePre | DefaultPre | CasePost | SwitchEnd
    | JumpNow(op: JumpOp) | JumpLevels(op: JumpOp) | ReturnNothing | ReturnValue

  /** What the parser still expects: a token, a nonterminal, or a reduction of `len` symbols
      (a mid-rule action is a reduction of none). */
  datatype Sym = T(kind: Kind) | N(nt: Nt) | R(len: nat, act: Act)

  datatype Status = Running | SyntaxError | Failed

  datatype M = M(
    c: Ctl,
    toks: seq<Token>,
    pos: nat,
    vs: Stack<Cell>,
    yyval: Cell,
    work: Stack<Sym>,
    store: Store,
    status: Status)

  /** The lookahead. seek_token clears the one the parser may hold, so the token looked at is
      always the one at the read position. */
  function Peek(m: M): Kind {
    if m.pos < |m.toks| then m.toks[m.pos].kind else END
  }

  // ----- the token cache

  function TcSetToken(toks: seq<Token>, off: int, k: Kind): seq<Token> {
    if 0 <= off < |toks| then toks[off := toks[off].(kind := k)] else toks
  }

  function TcSetSwitched(toks: seq<Token>, off: int): seq<Token> {
    if 0 <= off < |toks| then toks[off := toks[off].(switched := true)] else toks
  }

  /** tc_switch: the tokens start..middle-1 trade places with those at middle+1..end. */
  function TcSwitch(toks: seq<Token>, start: int, end: int, middle: int): seq<Token> {
    if start < 0 || end >= |toks| || middle < start || middle > end then toks
    else toks[..start] + toks[middle + 1..end + 1] + [toks[middle]] + toks[start..middle] + toks[end + 1..]
  }

  function SeekToken(m: M, off: int): M {
    if 0 <= off <= |m.toks| then m.(pos := off) else m
  }

  // ----- actions on the control globals

  function CsStartWhile(m: M): M {
    var token, expr := Nth(m.vs, 3), Nth(m.vs, 1);
    var c1 := PushFlag(m.c.(nest := m.c.nest + 1));
    if !c1.exec then m.(c := c1)
    else m.(c := SetFlag(c1, if IsTrue(expr.val) then EXECUTE else DONT_EXECUTE),
            toks := TcSetToken(m.toks, token.off, WHILE))
  }

  function CsEndWhile(m: M): M {
    var token := Nth(m.vs, 5);
    if m.c.exec then
      SeekToken(m.(c := LeaveLoop(m.c), toks := TcSetToken(m.toks, token.off, CONTINUED_WHILE)), token.off)
    else if PendingHere(m.c) then
      var c1 := LeaveLoop(ClearPending(m.c));
      if m.c.change == DO_CONTINUE then
        SeekToken(m.(c := c1, toks := TcSetToken(m.toks, token.off, CONTINUED_WHILE)), token.off)
      else m.(c := c1)
    else m.(c := LeaveLoop(m.c))
  }

  function CsStartDoWhile(m: M): M {
    var token := Nth(m.vs, 0);
    var c1 := PushFlag(m.c.(nest := m.c.nest + 1));
    if c1.exec then m.(c := c1, toks := TcSetToken(m.toks, token.off, DO)) else m.(c := c1)
  }

  function CsForceEvalDoWhile(c: Ctl): Ctl {
    if c.level == c.nest && c.change == DO_CONTINUE then SetFlag(ClearPending(c), EXECUTE) else c
  }

  function CsEndDoWhile(m: M): M {
    var token, expr := Nth(m.vs, 8), Nth(m.vs, 2);
    if m.c.exec && IsTrue(expr.val) then
      SeekToken(m.(c := LeaveLoop(m.c), toks := TcSetToken(m.toks, token.off, CONTINUED_DOWHILE)), token.off)
    else
      m.(c := LeaveLoop(if PendingHere(m.c) then ClearPending(m.c) else m.c))
  }

  function CsStartIf(c: Ctl, truth: bool): Ctl {
    var c1 := PushFlag(c);
    if c1.exec then SetFlag(c1, if truth then EXECUTE else BEFORE_EXECUTE)
    else c1.(flag := DONT_EXECUTE)
  }

  function CsElseifStartEvaluate(c: Ctl): Ctl {
    var c1 := if c.flag == EXECUTE then SetFlag(c, DONT_EXECUTE) else c;
    var below := IntTop(c1.css);
    var c2 := PushFlag(c1);
    if c2.flag == BEFORE_EXECUTE && below == EXECUTE then SetFlag(c2, EXECUTE) else c2
  }

  function CsStartElseif(c: Ctl, truth: bool): Ctl {
    var c1 := if c.flag == EXECUTE then SetFlag(c, DONT_EXECUTE) else c;
    if c1.flag == BEFORE_EXECUTE && truth then SetFlag(c1, EXECUTE) else c1
  }

  function CsStartElse(c: Ctl): Ctl {
    var c1 := if c.flag == EXECUTE then SetFlag(c, DONT_EXECUTE) else c;
    if c1.flag == BEFORE_EXECUTE then SetFlag(c1, EXECUTE) else c1
  }

  function ChangeOf(op: JumpOp): Change {
    match op
    case BreakOp => DO_BREAK
    case ContinueOp => DO_CONTINUE
  }

  /** cs_break_continue out of `n` loops. A level outside 1..nest is fatal: DO_OR_DIE makes the
      parser return, with the level already overwritten. */
  function CsBreakContinue(m: M, op: JumpOp, n: int): M {
    if !m.c.exec then m
    else
      var level := m.c.nest - n + 1;
      if level <= 0 || level > m.c.nest then m.(c := m.c.(level := level), status := Failed)
      else m.(c := m.c.(level := level, change := ChangeOf(op), exec := false))
  }

  function ForPre1(m: M): M {
    var token := Nth(m.vs, 0);
    var c1 := PushFlag(m.c.(nest := m.c.nest + 1));
    if !c1.exec then m.(c := c1)
    else m.(c := if IntTop(c1.fors) == token.off then SetFlag(c1, DONT_EXECUTE) else c1,
            toks := TcSetToken(m.toks, token.off, FOR))
  }

  function ForPre2(c: Ctl, token: Cell): Ctl {
    var c1 := PeekFlag(c);
    if token.switched && IntTop(c1.fors) != token.off then SetFlag(c1, DONT_EXECUTE) else c1
  }

  /** The reset of expr2 is not modelled: nothing reads it afterwards. */
  function ForPre3(c: Ctl, token: Cell): Ctl {
    var c1 := PeekFlag(c);
    if c1.exec && !token.switched then SetFlag(c1, DONT_EXECUTE) else c1
  }

  function ForPreStmt(c: Ctl, token: Cell, expr2: Value, expr3: Value): Ctl {
    var c1 := PeekFlag(c);
    if c1.exec then
      SetFlag(c1, if IsTrue(if token.switched then expr3 else expr2) then EXECUTE else DONT_EXECUTE)
    else c1
  }

  function ForPost(m: M): M {
    var token, semi1, semi2, close := Nth(m.vs, 12), Nth(m.vs, 7), Nth(m.vs, 4), Nth(m.vs, 1);
    var fors1 := if IntTop(m.c.fors) != token.off then Push(token.off, m.c.fors) else m.c.fors;
    var toks1 := if token.switched then m.toks
                 else TcSetSwitched(TcSwitch(m.toks, semi1.off + 1, close.off - 1, semi2.off), token.off);
    var again := m.c.exec || (PendingHere(m.c) && m.c.change == DO_CONTINUE);
    var c1 := m.c.(fors := if again || IntTop(fors1) != token.off then fors1 else DelTop(fors1));
    var c2 := if !m.c.exec && PendingHere(m.c) then ClearPending(c1) else c1;
    if again then
      SeekToken(m.(c := LeaveLoop(c2), toks := TcSetToken(toks1, token.off, CONTINUED_FOR)), token.off)
    else m.(c := LeaveLoop(c2), toks := toks1)
  }

  /** cs_return inside a function. */
  function CsReturn(m: M, v: Value): M {
    if m.c.exec then m.(c := SetFlag(m.c.(result := v, returned := true), DONT_EXECUTE)) else m
  }

  function CsSwitchStart(c: Ctl, token: Cell, expr: Value): Ctl {
    var c1 := PushFlag(c.(nest := c.nest + 1));
    c1.(switches := Push(SwitchExpr(expr, token.off, c1.exec), c1.switches))
  }

  /** cs_switch_case_pre; `isDefault` is the call without a case expression. */
  function CsSwitchCasePre(w: World, c: Ctl, isDefault: bool, v: Value): Ctl {
    if !c.exec || c.switches.Nil? then c
    else
      var se := c.switches.top;
      if se.offset == -1 then c
      else if isDefault || w.equal(se.expr, v) then
        SetFlag(c.(switches := Push(se.(offset := -1), c.switches.rest)), EXECUTE)
      else SetFlag(c, DONT_EXECUTE)
  }

  /** A pending change is dropped whichever it is, and its level is left behind. */
  function CsSwitchEnd(c: Ctl): Ctl {
    var c1 := if !c.exec && c.level == c.nest then c.(change := DO_NOTHING) else c;
    var c2 := PopFlag(c1);
    c2.(switches := DelTop(c2.switches), nest := c2.nest - 1)
  }

  // ----- expressions

  function CsPreBoolean(m: M, skipIf: bool): M {
    var left := Nth(m.vs, 1).val;
    var c1 := PushFlag(m.c);
    if !c1.exec then m.(c := c1)
    else m.(c := if IsTrue(left) == skipIf then SetFlag(c1, DONT_EXECUTE) else c1,
            vs := SetVal(m.vs, 1, ToBooleanLong(left)))
  }

  function CsPostBoolean(m: M, isOr: bool): M {
    var c1 := PopFlag(m.c);
    if !c1.exec then m.(c := c1)
    else
      var left, right := Nth(m.vs, 3).val, Nth(m.vs, 0).val;
      m.(c := c1, yyval := m.yyval.(val := if isOr then BooleanOr(left, right) else BooleanAnd(left, right)))
  }

  function CsQuestion1(m: M): M {
    var truth := Nth(m.vs, 1).val;
    var c1 := PushFlag(m.c);
    if !c1.exec then m.(c := c1)
    else m.(c := if !IsTrue(truth) then SetFlag(c1, DONT_EXECUTE) else c1,
            vs := SetVal(m.vs, 1, ToBooleanLong(truth)))
  }

  function CsQuestion2(m: M): M {
    var truth := Nth(m.vs, 4).val;
    var c1 := PeekFlag(m.c);
    if !c1.exec then m.(c := c1)
    else m.(c := if IsTrue(truth) then SetFlag(c1, DONT_EXECUTE) else c1,
            vs := SetVal(m.vs, 4, ToBooleanLong(truth)))
  }

  function CsQuestion3(m: M): M {
    var c1 := PopFlag(m.c);
    if !c1.exec then m.(c := c1)
    else m.(c := c1, yyval := if IsTrue(Nth(m.vs, 6).val) then Nth(m.vs, 3) else Nth(m.vs, 0))
  }

  /** A leaf expression takes effect only while Execute is set. */
  function EvalLeaf(w: World, m: M): M {
    if !m.c.exec then m
    else
      var (v, store) := w.eval(Nth(m.vs, 0).leaf, m.store);
      m.(yyval := m.yyval.(val := v), store := store)
  }

  function Perform(w: World, act: Act, m: M): M {
    match act
    case Nop => m
    case Eval => EvalLeaf(w, m)
    case Paren => if m.c.exec then m.(yyval := Nth(m.vs, 1)) else m
    case PreOr => CsPreBoolean(m, true)
    case PostOr => CsPostBoolean(m, true)
    case PreAnd => CsPreBoolean(m, false)
    case PostAnd => CsPostBoolean(m, false)
    case Question1 => CsQuestion1(m)
    case Question2 => CsQuestion2(m)
    case Question3 => CsQuestion3(m)
    case ForExprEmpty => m.(yyval := m.yyval.(val := Long(1)))
    case ForExprComma => if m.c.exec then m.(yyval := Nth(m.vs, 0)) else m
    case StartIf => m.(c := CsStartIf(m.c, IsTrue(Nth(m.vs, 1).val)))
    case EndIf => m.(c := PopFlag(m.c))
    case ElifStartEvaluate => m.(c := CsElseifStartEvaluate(m.c))
    case ElifEndEvaluate => m.(c := PopFlag(m.c))
    case StartElif => m.(c := CsStartElseif(m.c, IsTrue(Nth(m.vs, 2).val)))
    case StartElse => m.(c := CsStartElse(m.c))
    case StartWhile => CsStartWhile(m)
    case EndWhile => CsEndWhile(m)
    case StartDo => CsStartDoWhile(m)
    case ForceEvalDo => m.(c := CsForceEvalDoWhile(m.c))
    case EndDo => CsEndDoWhile(m)
    case ForPreExpr1 => ForPre1(m)
    case ForPreExpr2 => m.(c := ForPre2(m.c, Nth(m.vs, 3)))
    case ForPreExpr3 => m.(c := ForPre3(m.c, Nth(m.vs, 6)))
    case ForPreStatement => m.(c := ForPreStmt(m.c, Nth(m.vs, 9), Nth(m.vs, 3).val, Nth(m.vs, 0).val))
    case ForPostStatement => ForPost(m)
    case SwitchStart => m.(c := CsSwitchStart(m.c, Nth(m.vs, 3), Nth(m.vs, 1).val))
    case CasePre => m.(c := CsSwitchCasePre(w, m.c, false, Nth(m.vs, 1).val))
    case DefaultPre => m.(c := CsSwitchCasePre(w, m.c, true, Unset))
    case CasePost => m.(c := PeekFlag(m.c))
    case SwitchEnd => m.(c := CsSwitchEnd(m.c))
    case JumpNow(op) => CsBreakContinue(m, op, 1)
    case JumpLevels(op) => CsBreakContinue(m, op, ToLong(w, Nth(m.vs, 1).val))
    case ReturnNothing => CsReturn(m, Unset)
    case ReturnValue => CsReturn(m, Nth(m.vs, 1).val)
  }

  // ----- productions

  function Seq1(a: Sym, k: Stack<Sym>): Stack<Sym> { Push(a, k) }
  function Seq2(a: Sym, b: Sym, k: Stack<Sym>): Stack<Sym> { Push(a, Push(b, k)) }
  function Seq3(a: Sym, b: Sym, c: Sym, k: Stack<Sym>): Stack<Sym> { Push(a, Push(b, Push(c, k))) }
  function Seq4(a: Sym, b: Sym, c: Sym, d: Sym, k: Stack<Sym>): Stack<Sym> {
    Push(a, Push(b, Push(c, Push(d, k))))
  }

  function WhilePass(head: Kind, last: Stack<Sym>): Stack<Sym> {
    Seq4(T(head), T(LPAREN), N(ExprN), T(RPAREN), Seq2(R(0, StartWhile), N(StmtN), last))
  }

  function DoPass(head: Kind, last: Stack<Sym>): Stack<Sym> {
    Seq4(T(head), R(0, StartDo), N(StmtN), T(WHILE),
      Seq4(R(0, ForceEvalDo), T(LPAREN), N(ExprN), T(RPAREN), Seq1(T(SEMI), last)))
  }

  function ForPass(head: Kind, last: Stack<Sym>): Stack<Sym> {
    Seq4(T(head), R(0, ForPreExpr1), T(LPAREN), N(ForExpr),
      Seq4(R(0, ForPreExpr2), T(SEMI), N(ForExpr), R(0, ForPreExpr3),
        Seq4(T(SEMI), N(ForExpr), R(0, ForPreStatement), T(RPAREN), Seq1(N(StmtN), last))))
  }

  function StmtProduction(look: Kind, k: Stack<Sym>): Stack<Sym> {
    match look
    case SEMI => Seq2(T(SEMI), R(1, Nop), k)
    case LBRACE => Seq4(T(LBRACE), R(0, Nop), N(ListMore), T(RBRACE), Seq1(R(3, Nop), k))
    case IF =>
      Seq4(T(IF), T(LPAREN), N(ExprN), T(RPAREN),
        Seq4(R(0, StartIf), N(StmtN), R(0, Nop), N(ElifMore), Seq2(N(ElseSingle), R(8, EndIf), k)))
    case WHILE => WhilePass(WHILE, Seq4(R(0, EndWhile), R(0, Nop), N(WhileIters), R(8, Nop), k))
    case DO => DoPass(DO, Seq4(R(0, EndDo), R(0, Nop), N(DoIters), R(11, Nop), k))
    case FOR => ForPass(FOR, Seq4(R(0, ForPostStatement), R(0, Nop), N(ForIters), R(15, Nop), k))
    case SWITCH =>
      Seq4(T(SWITCH), T(LPAREN), N(ExprN), T(RPAREN),
        Seq4(R(0, SwitchStart), T(LBRACE), N(CaseList), T(RBRACE), Seq2(R(3, Nop), R(6, SwitchEnd), k)))
    case BREAK => Seq2(T(BREAK), N(JumpTail(BreakOp)), k)
    case CONTINUE => Seq2(T(CONTINUE), N(JumpTail(ContinueOp)), k)
    case RETURN => Seq2(T(RETURN), N(ReturnTail), k)
    case _ => Seq3(N(ExprN), T(SEMI), R(2, Nop), k)
  }

  predicate StartsStatement(look: Kind) {
    look in {SEMI, LBRACE, IF, WHILE, DO, FOR, SWITCH, BREAK, CONTINUE, RETURN, LEAF, LPAREN}
  }

  function Production(nt: Nt, look: Kind, k: Stack<Sym>): Stack<Sym> {
    match nt
    case StmtN => StmtProduction(look, k)
    case ListMore => if StartsStatement(look) then Seq3(N(StmtN), R(2, Nop), N(ListMore), k) else k
    case ExprN => Seq2(N(Primary), N(OpTail), k)
    case Primary =>
      if look == LPAREN then Seq4(T(LPAREN), N(ExprN), T(RPAREN), R(3, Paren), k)
      else Seq2(T(LEAF), R(1, Eval), k)
    case OpTail =>
      (match look
       case OROR => Seq4(T(OROR), R(0, PreOr), N(Primary), R(4, PostOr), k)
       case ANDAND => Seq4(T(ANDAND), R(0, PreAnd), N(Primary), R(4, PostAnd), k)
       case QMARK =>
         Seq4(T(QMARK), R(0, Question1), N(Primary), T(COLON),
           Seq3(R(0, Question2), N(Primary), R(7, Question3), k))
       case _ => k)
    case ForExpr =>
      if look == LEAF || look == LPAREN then Seq3(N(ExprN), R(1, Nop), N(ForExprMore), k)
      else Seq1(R(0, ForExprEmpty), k)
    case ForExprMore =>
      if look == COMMA then Seq4(T(COMMA), N(ExprN), R(3, ForExprComma), N(ForExprMore), k) else k
    case WhileIters =>
      if look == CONTINUED_WHILE then WhilePass(CONTINUED_WHILE, Seq2(R(7, EndWhile), N(WhileIters), k)) else k
    case DoIters =>
      if look == CONTINUED_DOWHILE then DoPass(CONTINUED_DOWHILE, Seq2(R(10, EndDo), N(DoIters), k)) else k
    case ForIters =>
      if look == CONTINUED_FOR then ForPass(CONTINUED_FOR, Seq2(R(14, ForPostStatement), N(ForIters), k)) else k
    case ElifMore =>
      if look == ELSEIF then
        Seq4(T(ELSEIF), T(LPAREN), R(0, ElifStartEvaluate), N(ExprN),
          Seq4(R(0, ElifEndEvaluate), T(RPAREN), R(0, StartElif), N(StmtN),
            Seq2(R(9, Nop), N(ElifMore), k)))
      else k
    case ElseSingle =>
      if look == ELSE then Seq4(T(ELSE), R(0, StartElse), N(StmtN), R(3, Nop), k)
      else Seq1(R(0, Nop), k)
    case CaseList =>
      (match look
       case CASE =>
         Seq4(T(CASE), N(ExprN), T(COLON), R(0, CasePre),
           Seq4(R(0, Nop), N(ListMore), R(0, CasePost), N(CaseList), Seq1(R(7, Nop), k)))
       case DEFAULT =>
         Seq4(T(DEFAULT), T(COLON), R(0, DefaultPre), R(0, Nop),
           Seq3(N(ListMore), R(0, CasePost), R(5, Nop), k))
       case _ => Seq1(R(0, Nop), k))
    case JumpTail(op) =>
      if look == SEMI then Seq2(T(SEMI), R(2, JumpNow(op)), k)
      else Seq3(N(ExprN), T(SEMI), R(3, JumpLevels(op)), k)
    case ReturnTail =>
      if look == SEMI then Seq2(T(SEMI), R(2, ReturnNothing), k)
      else Seq3(N(ExprN), T(SEMI), R(3, ReturnValue), k)
  }

  // ----- steps and runs

  function Shift(m: M, k: Kind): M {
    if m.pos < |m.toks| && m.toks[m.pos].kind == k then
      var t := m.toks[m.pos];
      m.(vs := Push(Cell(Unset, m.pos, t.switched, t.leaf), m.vs), pos := m.pos + 1)
    else m.(status := SyntaxError)
  }

  /** $$ starts out as $1; a reduction of nothing leaves it as it was. */
  function Begin(m: M, len: nat): M {
    if len > 0 then m.(yyval := Nth(m.vs, len - 1)) else m
  }

  function Finish(m: M, len: nat): M {
    m.(vs := Push(m.yyval, Drop(m.vs, len)))
  }

  predicate Done(m: M) {
    m.status != Running || m.work.Nil?
  }

  /** One shift, expansion or reduction. */
  function Step(w: World, m: M): M {
    if Done(m) then m
    else
      var m1 := m.(work := m.work.rest);
      match m.work.top
      case T(k) => Shift(m1, k)
      case N(nt) => m1.(work := Production(nt, Peek(m1), m1.work))
      case R(len, act) => Finish(Perform(w, act, Begin(m1, len)), len)
  }

  function Steps(w: World, m: M, n: nat): M
    decreases n
  {
    if n == 0 then m else Steps(w, Step(w, m), n - 1)
  }

  lemma {:induction false} StepsAdd(w: World, m: M, n1: nat, n2: nat)
    ensures Steps(w, m, n1 + n2) == Steps(w, Steps(w, m, n1), n2)
    decreases n1
  {
    if n1 > 0 {
      StepsAdd(w, Step(w, m), n1 - 1, n2);
    }
  }

  lemma {:induction false} DoneStays(w: World, m: M, n: nat)
    requires Done(m)
    ensures Steps(w, m, n) == m
    decreases n
  {
    if n > 0 {
      DoneStays(w, m, n - 1);
    }
  }
}
