/** The parse-and-execute machine in the form the program has it: one object whose fields are
    the interpreter's globals and whose methods are the semantic actions. Each method is tied,
    through View, to the action of the same name in module Machine, so every theorem about runs
    of the machine is a theorem about runs of this object. */
module Interpreter {
  import opened Values
  import opened Syntax
  import opened Machine
  import opened TokenCache
  import opened Semantics
  import opened ControlTheorem

  /** for_post_statement after the swap. */
  function ForEnd(m: M, off: int): M {
    if m.c.exec then SeekToken(m.(c := LeaveLoop(m.c), toks := TcSetToken(m.toks, off, CONTINUED_FOR)), off)
    else if PendingHere(m.c) && m.c.change == DO_CONTINUE then
      SeekToken(m.(c := LeaveLoop(ClearPending(m.c)), toks := TcSetToken(m.toks, off, CONTINUED_FOR)), off)
    else
      var c1 := if IntTop(m.c.fors) == off then m.c.(fors := DelTop(m.c.fors)) else m.c;
      m.(c := LeaveLoop(if PendingHere(m.c) then ClearPending(c1) else c1))
  }

  lemma {:induction false} ForPostSplits(m: M)
    ensures var token, semi1, semi2, close := Nth(m.vs, 12), Nth(m.vs, 7), Nth(m.vs, 4), Nth(m.vs, 1);
            var fors1 := if IntTop(m.c.fors) != token.off then Push(token.off, m.c.fors) else m.c.fors;
            var toks1 := if token.switched then m.toks
                         else TcSetSwitched(TcSwitch(m.toks, semi1.off + 1, close.off - 1, semi2.off), token.off);
            ForPost(m) == ForEnd(m.(c := m.c.(fors := fors1), toks := toks1), token.off)
  {
    hide Nth, TcSwitch, TcSetToken, TcSetSwitched, LeaveLoop, SeekToken;
  }

  class Interp {
    // the control globals
    var executeFlag: int
    var execute: bool
    var css: Stack<int>
    var forStack: Stack<int>
    var switchStack: Stack<SwitchExpr>
    // the loop fields of function_state
    var loopNestLevel: int
    var loopChangeType: Change
    var loopChangeLevel: int
    var returned: bool
    var returnValue: Value
    // the token cache and the parser
    const tokens: array<Token>
    var pos: nat
    var vs: Stack<Cell>
    var yyval: Cell
    var work: Stack<Sym>
    var status: Status
    // the symbol tables and the output
    var store: Store

    constructor (tokens: array<Token>, store: Store)
      ensures this.tokens == tokens
      ensures View() == Start(tokens[..], store)
    {
      this.tokens := tokens;
      this.store := store;
      executeFlag, execute := EXECUTE, true;
      css, forStack, switchStack := Nil, Nil, Nil;
      loopNestLevel, loopChangeType, loopChangeLevel := 0, DO_NOTHING, 0;
      returned, returnValue := false, Unset;
      pos, vs, yyval, work, status := 0, Nil, JUNK, Push(N(StmtN), Nil), Running;
    }

    ghost function Control(): Ctl
      reads this
    {
      Ctl(executeFlag, execute, css, forStack, switchStack,
          loopNestLevel, loopChangeType, loopChangeLevel, returned, returnValue)
    }

    ghost function View(): M
      reads this, tokens
    {
      M(Control(), tokens[..], pos, vs, yyval, work, store, status)
    }

    // ----- pieces shared by the actions

    predicate ShouldRun()
      reads this
    {
      executeFlag == EXECUTE && !returned && loopChangeType == DO_NOTHING
    }

    method SetExecuteFlag(flag: int)
      modifies this
      ensures View() == old(View()).(c := SetFlag(old(Control()), flag))
    {
      executeFlag := flag;
      execute := ShouldRun();
    }

    method PushExecuteFlag()
      modifies this
      ensures View() == old(View()).(c := PushFlag(old(Control())))
    {
      css := Push(executeFlag, css);
    }

    method PeekExecuteFlag()
      modifies this
      ensures View() == old(View()).(c := PeekFlag(old(Control())))
    {
      SetExecuteFlag(IntTop(css));
    }

    method PopExecuteFlag()
      modifies this
      ensures View() == old(View()).(c := PopFlag(old(Control())))
    {
      executeFlag := IntTop(css);
      css := DelTop(css);
      execute := ShouldRun();
    }

    method EndLoop()
      modifies this
      ensures View() == old(View()).(c := LeaveLoop(old(Control())))
    {
      PopExecuteFlag();
      loopNestLevel := loopNestLevel - 1;
    }

    method Seek(off: int)
      modifies this
      ensures View() == SeekToken(old(View()), off)
    {
      if 0 <= off <= tokens.Length {
        pos := off;
      }
    }

    /** Mark the loop's first token for another pass and go back to it. */
    method GoBack(off: int, k: Kind)
      modifies this, tokens
      ensures View() == old(View()).(toks := TcSetToken(old(tokens[..]), off, k),
                                     pos := if 0 <= off <= tokens.Length then off else old(pos))
    {
      TcSetTokenInPlace(tokens, off, k);
      Seek(off);
    }

    // ----- while and do

    method CsStartWhile()
      modifies this, tokens
      ensures View() == Machine.CsStartWhile(old(View()))
    {
      hide IsTrue, Nth;
      var token, expr := Nth(vs, 3), Nth(vs, 1);
      loopNestLevel := loopNestLevel + 1;
      PushExecuteFlag();
      if execute {
        TcSetTokenInPlace(tokens, token.off, WHILE);
        SetExecuteFlag(if IsTrue(expr.val) then EXECUTE else DONT_EXECUTE);
      }
    }

    method CsEndWhile()
      modifies this, tokens
      ensures View() == Machine.CsEndWhile(old(View()))
    {
      hide IsTrue, Nth, TcSetToken;
      var token := Nth(vs, 5);
      if execute {
        GoBack(token.off, CONTINUED_WHILE);
      } else if loopChangeType != DO_NOTHING && loopChangeLevel == loopNestLevel {
        if loopChangeType == DO_CONTINUE {
          GoBack(token.off, CONTINUED_WHILE);
        }
        loopChangeType := DO_NOTHING;
        loopChangeLevel := 0;
      }
      EndLoop();
    }

    method CsStartDoWhile()
      modifies this, tokens
      ensures View() == Machine.CsStartDoWhile(old(View()))
    {
      hide IsTrue, Nth, TcSetToken;
      var token := Nth(vs, 0);
      loopNestLevel := loopNestLevel + 1;
      PushExecuteFlag();
      if execute {
        TcSetTokenInPlace(tokens, token.off, DO);
      }
    }

    method CsForceEvalDoWhile()
      modifies this
      ensures View() == old(View()).(c := Machine.CsForceEvalDoWhile(old(Control())))
    {
      if loopChangeLevel == loopNestLevel && loopChangeType == DO_CONTINUE {
        loopChangeType := DO_NOTHING;
        loopChangeLevel := 0;
        SetExecuteFlag(EXECUTE);
      }
    }

    method CsEndDoWhile()
      modifies this, tokens
      ensures View() == Machine.CsEndDoWhile(old(View()))
    {
      hide IsTrue, Nth, TcSetToken;
      var token, expr := Nth(vs, 8), Nth(vs, 2);
      if execute && IsTrue(expr.val) {
        GoBack(token.off, CONTINUED_DOWHILE);
      } else if loopChangeType != DO_NOTHING && loopChangeLevel == loopNestLevel {
        loopChangeType := DO_NOTHING;
        loopChangeLevel := 0;
      }
      EndLoop();
    }

    // ----- if

    method CsStartIf(truth: bool)
      modifies this
      ensures View() == old(View()).(c := Machine.CsStartIf(old(Control()), truth))
    {
      PushExecuteFlag();
      if execute {
        SetExecuteFlag(if truth then EXECUTE else BEFORE_EXECUTE);
      } else {
        executeFlag := DONT_EXECUTE;
      }
    }

    method CsElseifStartEvaluate()
      modifies this
      ensures View() == old(View()).(c := Machine.CsElseifStartEvaluate(old(Control())))
    {
      if executeFlag == EXECUTE {
        SetExecuteFlag(DONT_EXECUTE);
      }
      var localStackTop := IntTop(css);
      PushExecuteFlag();
      if executeFlag == BEFORE_EXECUTE && localStackTop == EXECUTE {
        SetExecuteFlag(EXECUTE);
      }
    }

    method CsStartElseif(truth: bool)
      modifies this
      ensures View() == old(View()).(c := Machine.CsStartElseif(old(Control()), truth))
    {
      if executeFlag == EXECUTE {
        SetExecuteFlag(DONT_EXECUTE);
      }
      if executeFlag == BEFORE_EXECUTE && truth {
        SetExecuteFlag(EXECUTE);
      }
    }

    method CsStartElse()
      modifies this
      ensures View() == old(View()).(c := Machine.CsStartElse(old(Control())))
    {
      if executeFlag == EXECUTE {
        SetExecuteFlag(DONT_EXECUTE);
      }
      if executeFlag == BEFORE_EXECUTE {
        SetExecuteFlag(EXECUTE);
      }
    }

    // ----- for

    method ForPreExpr1()
      modifies this, tokens
      ensures View() == ForPre1(old(View()))
    {
      hide Nth, TcSetToken;
      var token := Nth(vs, 0);
      loopNestLevel := loopNestLevel + 1;
      PushExecuteFlag();
      if execute {
        TcSetTokenInPlace(tokens, token.off, FOR);
        if IntTop(forStack) == token.off {
          SetExecuteFlag(DONT_EXECUTE);
        }
      }
    }

    method ForPreExpr2(token: Cell)
      modifies this
      ensures View() == old(View()).(c := ForPre2(old(Control()), token))
    {
      PeekExecuteFlag();
      if token.switched && IntTop(forStack) != token.off {
        SetExecuteFlag(DONT_EXECUTE);
      }
    }

    method ForPreExpr3(token: Cell)
      modifies this
      ensures View() == old(View()).(c := ForPre3(old(Control()), token))
    {
      PeekExecuteFlag();
      if execute && !token.switched {
        SetExecuteFlag(DONT_EXECUTE);
      }
    }

    method ForPreStatement(token: Cell, expr2: Value, expr3: Value)
      modifies this
      ensures View() == old(View()).(c := ForPreStmt(old(Control()), token, expr2, expr3))
    {
      hide IsTrue;
      PeekExecuteFlag();
      if execute && token.switched {
        SetExecuteFlag(if IsTrue(expr3) then EXECUTE else DONT_EXECUTE);
      } else if execute {
        SetExecuteFlag(if IsTrue(expr2) then EXECUTE else DONT_EXECUTE);
      }
    }

    /** The swap of a first pass. */
    method SwapFor(token: Cell, semi1: Cell, semi2: Cell, close: Cell)
      modifies this, tokens
      ensures View() == old(View()).(toks := if token.switched then old(tokens[..])
                else TcSetSwitched(TcSwitch(old(tokens[..]), semi1.off + 1, close.off - 1, semi2.off), token.off))
    {
      hide TcSwitch, TcSetSwitched;
      if !token.switched {
        TcSwitchInPlace(tokens, semi1.off + 1, close.off - 1, semi2.off);
        TcSetSwitchedInPlace(tokens, token.off);
      }
    }

    method ForPostStatement()
      modifies this, tokens
      ensures View() == ForPost(old(View()))
    {
      hide Nth, TcSwitch, TcSetToken, TcSetSwitched, ForEnd, ForPost;
      ForPostSplits(View());
      var token, semi1, semi2, close := Nth(vs, 12), Nth(vs, 7), Nth(vs, 4), Nth(vs, 1);
      if IntTop(forStack) != token.off {
        forStack := Push(token.off, forStack);
      }
      SwapFor(token, semi1, semi2, close);
      EndForPass(token.off);
    }

    method EndForPass(off: int)
      modifies this, tokens
      ensures View() == ForEnd(old(View()), off)
    {
      hide TcSetToken, LeaveLoop;
      if execute {
        GoBack(off, CONTINUED_FOR);
      } else if loopChangeType != DO_NOTHING && loopChangeLevel == loopNestLevel {
        if loopChangeType == DO_CONTINUE {
          GoBack(off, CONTINUED_FOR);
        } else if IntTop(forStack) == off {
          forStack := DelTop(forStack);
        }
        loopChangeType := DO_NOTHING;
        loopChangeLevel := 0;
      } else if IntTop(forStack) == off {
        forStack := DelTop(forStack);
      }
      EndLoop();
    }

    // ----- break, continue, return

    method CsBreakContinue(op: JumpOp, n: int)
      modifies this
      ensures View() == Machine.CsBreakContinue(old(View()), op, n)
    {
      if execute {
        loopChangeLevel := loopNestLevel - n + 1;
        if loopChangeLevel <= 0 || loopChangeLevel > loopNestLevel {
          status := Failed;
          return;
        }
        loopChangeType := ChangeOf(op);
        execute := false;
      }
    }

    method CsReturn(v: Value)
      modifies this
      ensures View() == Machine.CsReturn(old(View()), v)
    {
      if execute {
        returnValue := v;
        returned := true;
        SetExecuteFlag(DONT_EXECUTE);
      }
    }

    // ----- switch

    method CsSwitchStart(token: Cell, expr: Value)
      modifies this
      ensures View() == old(View()).(c := Machine.CsSwitchStart(old(Control()), token, expr))
    {
      loopNestLevel := loopNestLevel + 1;
      PushExecuteFlag();
      switchStack := Push(SwitchExpr(expr, token.off, execute), switchStack);
    }

    method CsSwitchCasePre(w: World, isDefault: bool, v: Value)
      modifies this
      ensures View() == old(View()).(c := Machine.CsSwitchCasePre(w, old(Control()), isDefault, v))
    {
      if execute && switchStack.Push? {
        var se := switchStack.top;
        if se.offset != -1 {
          if isDefault || w.equal(se.expr, v) {
            switchStack := Push(se.(offset := -1), switchStack.rest);
            SetExecuteFlag(EXECUTE);
          } else {
            SetExecuteFlag(DONT_EXECUTE);
          }
        }
      }
    }

    method CsSwitchEnd()
      modifies this
      ensures View() == old(View()).(c := Machine.CsSwitchEnd(old(Control())))
    {
      if !execute && loopChangeLevel == loopNestLevel {
        loopChangeType := DO_NOTHING;
      }
      PopExecuteFlag();
      switchStack := DelTop(switchStack);
      loopNestLevel := loopNestLevel - 1;
    }

    // ----- boolean and ternary operators

    method CsPreBoolean(skipIf: bool)
      modifies this
      ensures View() == Machine.CsPreBoolean(old(View()), skipIf)
    {
      hide IsTrue, Nth, SetVal, ToBooleanLong;
      var left := Nth(vs, 1).val;
      PushExecuteFlag();
      if execute {
        vs := SetVal(vs, 1, ToBooleanLong(left));
        if IsTrue(left) == skipIf {
          SetExecuteFlag(DONT_EXECUTE);
        }
      }
    }

    method CsPostBoolean(isOr: bool)
      modifies this
      ensures View() == Machine.CsPostBoolean(old(View()), isOr)
    {
      hide IsTrue, Nth, BooleanOr, BooleanAnd;
      PopExecuteFlag();
      if execute {
        var left, right := Nth(vs, 3).val, Nth(vs, 0).val;
        yyval := yyval.(val := if isOr then BooleanOr(left, right) else BooleanAnd(left, right));
      }
    }

    method CsQuestion1()
      modifies this
      ensures View() == Machine.CsQuestion1(old(View()))
    {
      hide IsTrue, Nth, SetVal, ToBooleanLong;
      var truth := Nth(vs, 1).val;
      PushExecuteFlag();
      if execute {
        vs := SetVal(vs, 1, ToBooleanLong(truth));
        if !IsTrue(truth) {
          SetExecuteFlag(DONT_EXECUTE);
        }
      }
    }

    method CsQuestion2()
      modifies this
      ensures View() == Machine.CsQuestion2(old(View()))
    {
      hide IsTrue, Nth, SetVal, ToBooleanLong;
      var truth := Nth(vs, 4).val;
      PeekExecuteFlag();
      if execute {
        vs := SetVal(vs, 4, ToBooleanLong(truth));
        if IsTrue(truth) {
          SetExecuteFlag(DONT_EXECUTE);
        }
      }
    }

    method CsQuestion3()
      modifies this
      ensures View() == Machine.CsQuestion3(old(View()))
    {
      hide IsTrue, Nth;
      PopExecuteFlag();
      if execute {
        yyval := if IsTrue(Nth(vs, 6).val) then Nth(vs, 3) else Nth(vs, 0);
      }
    }

    method Evaluate(w: World)
      modifies this
      ensures View() == EvalLeaf(w, old(View()))
    {
      hide Nth;
      if execute {
        var (v, store') := w.eval(Nth(vs, 0).leaf, store);
        yyval := yyval.(val := v);
        store := store';
      }
    }

    // ----- the parser

    /** The action switch of the parser. */
    method PerformAction(w: World, act: Act)
      modifies this, tokens
      ensures View() == Perform(w, act, old(View()))
    {
      hide IsTrue, Nth, SetVal, TcSetToken, TcSwitch, TcSetSwitched, ToLong;
      hide Machine.CsStartWhile, Machine.CsEndWhile, Machine.CsStartDoWhile, Machine.CsForceEvalDoWhile,
        Machine.CsEndDoWhile, Machine.CsStartIf, Machine.CsElseifStartEvaluate, Machine.CsStartElseif,
        Machine.CsStartElse, ForPre1, ForPre2, ForPre3, ForPreStmt, ForPost, Machine.CsBreakContinue,
        Machine.CsReturn, Machine.CsSwitchStart, Machine.CsSwitchCasePre, Machine.CsSwitchEnd,
        Machine.CsPreBoolean, Machine.CsPostBoolean, Machine.CsQuestion1, Machine.CsQuestion2,
        Machine.CsQuestion3, EvalLeaf, PopFlag, PeekFlag;
      match act
      case Nop =>
      case Eval => Evaluate(w);
      case Paren => if execute { yyval := Nth(vs, 1); }
      case PreOr => CsPreBoolean(true);
      case PostOr => CsPostBoolean(true);
      case PreAnd => CsPreBoolean(false);
      case PostAnd => CsPostBoolean(false);
      case Question1 => CsQuestion1();
      case Question2 => CsQuestion2();
      case Question3 => CsQuestion3();
      case ForExprEmpty => yyval := yyval.(val := Long(1));
      case ForExprComma => if execute { yyval := Nth(vs, 0); }
      case StartIf => CsStartIf(IsTrue(Nth(vs, 1).val));
      case EndIf => PopExecuteFlag();
      case ElifStartEvaluate => CsElseifStartEvaluate();
      case ElifEndEvaluate => PopExecuteFlag();
      case StartElif => CsStartElseif(IsTrue(Nth(vs, 2).val));
      case StartElse => CsStartElse();
      case StartWhile => CsStartWhile();
      case EndWhile => CsEndWhile();
      case StartDo => CsStartDoWhile();
      case ForceEvalDo => CsForceEvalDoWhile();
      case EndDo => CsEndDoWhile();
      case ForPreExpr1 => ForPreExpr1();
      case ForPreExpr2 => ForPreExpr2(Nth(vs, 3));
      case ForPreExpr3 => ForPreExpr3(Nth(vs, 6));
      case ForPreStatement => ForPreStatement(Nth(vs, 9), Nth(vs, 3).val, Nth(vs, 0).val);
      case ForPostStatement => ForPostStatement();
      case SwitchStart => CsSwitchStart(Nth(vs, 3), Nth(vs, 1).val);
      case CasePre => CsSwitchCasePre(w, false, Nth(vs, 1).val);
      case DefaultPre => CsSwitchCasePre(w, true, Unset);
      case CasePost => PeekExecuteFlag();
      case SwitchEnd => CsSwitchEnd();
      case JumpNow(op) => CsBreakContinue(op, 1);
      case JumpLevels(op) => CsBreakContinue(op, ToLong(w, Nth(vs, 1).val));
      case ReturnNothing => CsReturn(Unset);
      case ReturnValue => CsReturn(Nth(vs, 1).val);
    }

    method ParserStep(w: World)
      requires status == Running && work.Push?
      modifies this, tokens
      ensures View() == Step(w, old(View()))
    {
      hide Perform, Production, Nth, Drop;
      var sym := work.top;
      work := work.rest;
      match sym
      case T(k) =>
        if pos < tokens.Length && tokens[pos].kind == k {
          var t := tokens[pos];
          vs := Push(Cell(Unset, pos, t.switched, t.leaf), vs);
          pos := pos + 1;
        } else {
          status := SyntaxError;
        }
      case N(nt) =>
        work := Production(nt, if pos < tokens.Length then tokens[pos].kind else END, work);
      case R(len, act) =>
        if len > 0 {
          yyval := Nth(vs, len - 1);
        }
        PerformAction(w, act);
        vs := Push(yyval, Drop(vs, len));
    }

    /** The parser's loop, for at most `limit` steps: a body may run forever. */
    method Parse(w: World, limit: nat) returns (steps: nat)
      modifies this, tokens
      ensures steps <= limit
      ensures View() == Steps(w, old(View()), steps)
      ensures steps < limit ==> Done(View())
    {
      hide Step;
      steps := 0;
      while steps < limit && status == Running && work.Push?
        invariant steps <= limit
        invariant View() == Steps(w, old(View()), steps)
      {
        ghost var m := View();
        ParserStep(w);
        assert Steps(w, m, 1) == Step(w, m);
        StepsAdd(w, old(View()), steps, 1);
        steps := steps + 1;
      }
    }
  }

  /** Running a function body on this interpreter. It finishes exactly if the machine is done within
      the steps it is given; then the structured semantics has a result, and it is the one the
      interpreter shows. */
  method RunBody(w: World, tokens: array<Token>, ghost s: Stmt, store: Store, limit: nat)
    returns (ip: Interp, finished: bool)
    requires Holds(tokens[..], s)
    modifies tokens
    ensures finished <==> Done(Steps(w, Start(old(tokens[..]), store), limit))
    ensures ip.View() == Steps(w, Start(old(tokens[..]), store), limit)
    ensures finished ==> exists fuel: nat :: Exec(w, s, 0, store, fuel).Res?
    ensures finished ==> forall fuel: nat :: Exec(w, s, 0, store, fuel).Res? ==>
                           Shows(ip.View(), Exec(w, s, 0, store, fuel).out, Exec(w, s, 0, store, fuel).store)
  {
    hide Exec, Holds, Steps, Shows;
    ip := new Interp(tokens, store);
    ghost var toks := tokens[..];
    var steps := ip.Parse(w, limit);
    finished := ip.status != Running || ip.work.Nil?;
    if finished {
      SameEnd(w, Start(toks, store), steps, limit);
      MachineRefinesSemantics(w, toks, s, store);
    }
  }

  /** If the structured semantics has a result, there is a number of steps from which on the
      interpreter finishes. */
  lemma {:induction false} BodyFinishes(w: World, toks: seq<Token>, s: Stmt, store: Store, fuel: nat) returns (n: nat)
    requires Holds(toks, s) && Exec(w, s, 0, store, fuel).Res?
    ensures forall limit: nat :: limit >= n ==> Done(Steps(w, Start(toks, store), limit))
  {
    hide Exec, Holds, Steps, Shows;
    n := MachineFollows(w, toks, s, store, fuel);
    forall limit: nat | limit >= n ensures Done(Steps(w, Start(toks, store), limit)) {
      SameEnd(w, Start(toks, store), n, limit);
    }
  }
}
