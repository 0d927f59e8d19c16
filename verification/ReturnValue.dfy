/** The return value is a global that calls overwrite. Nothing in the control machine looks at it, so
    machines that differ in nothing else stay so. */
module ReturnValue {
  import opened Values
  import opened Syntax
  import opened Machine

  /** The same machine, but for a return value that nobody has set yet. */
  predicate Alike(m1: M, m2: M) {
    m2 == m1.(c := m1.c.(result := m2.c.result)) && (m1.c.returned ==> m1 == m2)
  }

  // ----- the actions

  lemma StartWhileAlike(m1: M, m2: M)
    requires Alike(m1, m2)
    ensures Alike(CsStartWhile(m1), CsStartWhile(m2))
  {
    hide TcSetToken, Nth, IsTrue;
  }

  lemma EndWhileAlike(m1: M, m2: M)
    requires Alike(m1, m2)
    ensures Alike(CsEndWhile(m1), CsEndWhile(m2))
  {
    hide TcSetToken, Nth;
  }

  lemma StartDoAlike(m1: M, m2: M)
    requires Alike(m1, m2)
    ensures Alike(CsStartDoWhile(m1), CsStartDoWhile(m2))
  {
    hide TcSetToken, Nth;
  }

  lemma ForceEvalAlike(m1: M, m2: M)
    requires Alike(m1, m2)
    ensures Alike(m1.(c := CsForceEvalDoWhile(m1.c)), m2.(c := CsForceEvalDoWhile(m2.c)))
  {
  }

  lemma EndDoAlike(m1: M, m2: M)
    requires Alike(m1, m2)
    ensures Alike(CsEndDoWhile(m1), CsEndDoWhile(m2))
  {
    hide TcSetToken, Nth, IsTrue;
  }

  lemma StartIfAlike(m1: M, m2: M, truth: bool)
    requires Alike(m1, m2)
    ensures Alike(m1.(c := CsStartIf(m1.c, truth)), m2.(c := CsStartIf(m2.c, truth)))
  {
  }

  lemma ElifStartAlike(m1: M, m2: M)
    requires Alike(m1, m2)
    ensures Alike(m1.(c := CsElseifStartEvaluate(m1.c)), m2.(c := CsElseifStartEvaluate(m2.c)))
  {
  }

  lemma StartElifAlike(m1: M, m2: M, truth: bool)
    requires Alike(m1, m2)
    ensures Alike(m1.(c := CsStartElseif(m1.c, truth)), m2.(c := CsStartElseif(m2.c, truth)))
  {
  }

  lemma StartElseAlike(m1: M, m2: M)
    requires Alike(m1, m2)
    ensures Alike(m1.(c := CsStartElse(m1.c)), m2.(c := CsStartElse(m2.c)))
  {
  }

  lemma PopAlike(m1: M, m2: M)
    requires Alike(m1, m2)
    ensures Alike(m1.(c := PopFlag(m1.c)), m2.(c := PopFlag(m2.c)))
  {
  }

  lemma PeekAlike(m1: M, m2: M)
    requires Alike(m1, m2)
    ensures Alike(m1.(c := PeekFlag(m1.c)), m2.(c := PeekFlag(m2.c)))
  {
  }

  lemma ForPre1Alike(m1: M, m2: M)
    requires Alike(m1, m2)
    ensures Alike(ForPre1(m1), ForPre1(m2))
  {
    hide TcSetToken, Nth;
  }

  lemma ForPre2Alike(m1: M, m2: M, token: Cell)
    requires Alike(m1, m2)
    ensures Alike(m1.(c := ForPre2(m1.c, token)), m2.(c := ForPre2(m2.c, token)))
  {
  }

  lemma ForPre3Alike(m1: M, m2: M, token: Cell)
    requires Alike(m1, m2)
    ensures Alike(m1.(c := ForPre3(m1.c, token)), m2.(c := ForPre3(m2.c, token)))
  {
  }

  lemma ForPreStmtAlike(m1: M, m2: M, token: Cell, x: Value, y: Value)
    requires Alike(m1, m2)
    ensures Alike(m1.(c := ForPreStmt(m1.c, token, x, y)), m2.(c := ForPreStmt(m2.c, token, x, y)))
  {
    hide IsTrue;
  }

  lemma ForPostAlike(m1: M, m2: M)
    requires Alike(m1, m2)
    ensures Alike(ForPost(m1), ForPost(m2))
  {
    hide TcSwitch, TcSetSwitched, TcSetToken, Nth;
  }

  lemma BreakContinueAlike(m1: M, m2: M, op: JumpOp, n: int)
    requires Alike(m1, m2)
    ensures Alike(CsBreakContinue(m1, op, n), CsBreakContinue(m2, op, n))
  {
  }

  lemma ReturnAlike(m1: M, m2: M, v: Value)
    requires Alike(m1, m2)
    ensures Alike(CsReturn(m1, v), CsReturn(m2, v))
  {
  }

  lemma SwitchStartAlike(m1: M, m2: M, token: Cell, x: Value)
    requires Alike(m1, m2)
    ensures Alike(m1.(c := CsSwitchStart(m1.c, token, x)), m2.(c := CsSwitchStart(m2.c, token, x)))
  {
  }

  lemma CasePreAlike(m1: M, m2: M, w: World, isDefault: bool, v: Value)
    requires Alike(m1, m2)
    ensures Alike(m1.(c := CsSwitchCasePre(w, m1.c, isDefault, v)), m2.(c := CsSwitchCasePre(w, m2.c, isDefault, v)))
  {
  }

  lemma SwitchEndAlike(m1: M, m2: M)
    requires Alike(m1, m2)
    ensures Alike(m1.(c := CsSwitchEnd(m1.c)), m2.(c := CsSwitchEnd(m2.c)))
  {
  }

  lemma PreBooleanAlike(m1: M, m2: M, skipIf: bool)
    requires Alike(m1, m2)
    ensures Alike(CsPreBoolean(m1, skipIf), CsPreBoolean(m2, skipIf))
  {
    hide Nth, SetVal, IsTrue, ToBooleanLong;
  }

  lemma PostBooleanAlike(m1: M, m2: M, isOr: bool)
    requires Alike(m1, m2)
    ensures Alike(CsPostBoolean(m1, isOr), CsPostBoolean(m2, isOr))
  {
    hide Nth, BooleanOr, BooleanAnd;
  }

  lemma Question1Alike(m1: M, m2: M)
    requires Alike(m1, m2)
    ensures Alike(CsQuestion1(m1), CsQuestion1(m2))
  {
    hide Nth, SetVal, IsTrue, ToBooleanLong;
  }

  lemma Question2Alike(m1: M, m2: M)
    requires Alike(m1, m2)
    ensures Alike(CsQuestion2(m1), CsQuestion2(m2))
  {
    hide Nth, SetVal, IsTrue, ToBooleanLong;
  }

  lemma Question3Alike(m1: M, m2: M)
    requires Alike(m1, m2)
    ensures Alike(CsQuestion3(m1), CsQuestion3(m2))
  {
    hide Nth, IsTrue;
  }

  lemma EvalAlike(w: World, m1: M, m2: M)
    requires Alike(m1, m2)
    ensures Alike(EvalLeaf(w, m1), EvalLeaf(w, m2))
  {
    hide Nth;
  }

  lemma ActionsAlike(w: World, act: Act, m1: M, m2: M)
    requires Alike(m1, m2)
    ensures Alike(Perform(w, act, m1), Perform(w, act, m2))
  {
    hide Nth, IsTrue, ToLong, CsStartWhile, CsEndWhile, CsStartDoWhile, CsForceEvalDoWhile, CsEndDoWhile,
      CsStartIf, CsElseifStartEvaluate, CsStartElseif, CsStartElse, PopFlag, PeekFlag, ForPre1, ForPre2,
      ForPre3, ForPreStmt, ForPost, CsBreakContinue, CsReturn, CsSwitchStart, CsSwitchCasePre, CsSwitchEnd,
      CsPreBoolean, CsPostBoolean, CsQuestion1, CsQuestion2, CsQuestion3, EvalLeaf;
    match act
    case Nop =>
    case Eval => EvalAlike(w, m1, m2);
    case Paren =>
    case PreOr => PreBooleanAlike(m1, m2, true);
    case PostOr => PostBooleanAlike(m1, m2, true);
    case PreAnd => PreBooleanAlike(m1, m2, false);
    case PostAnd => PostBooleanAlike(m1, m2, false);
    case Question1 => Question1Alike(m1, m2);
    case Question2 => Question2Alike(m1, m2);
    case Question3 => Question3Alike(m1, m2);
    case ForExprEmpty =>
    case ForExprComma =>
    case StartIf => StartIfAlike(m1, m2, IsTrue(Nth(m1.vs, 1).val));
    case EndIf => PopAlike(m1, m2);
    case ElifStartEvaluate => ElifStartAlike(m1, m2);
    case ElifEndEvaluate => PopAlike(m1, m2);
    case StartElif => StartElifAlike(m1, m2, IsTrue(Nth(m1.vs, 2).val));
    case StartElse => StartElseAlike(m1, m2);
    case StartWhile => StartWhileAlike(m1, m2);
    case EndWhile => EndWhileAlike(m1, m2);
    case StartDo => StartDoAlike(m1, m2);
    case ForceEvalDo => ForceEvalAlike(m1, m2);
    case EndDo => EndDoAlike(m1, m2);
    case ForPreExpr1 => ForPre1Alike(m1, m2);
    case ForPreExpr2 => ForPre2Alike(m1, m2, Nth(m1.vs, 3));
    case ForPreExpr3 => ForPre3Alike(m1, m2, Nth(m1.vs, 6));
    case ForPreStatement => ForPreStmtAlike(m1, m2, Nth(m1.vs, 9), Nth(m1.vs, 3).val, Nth(m1.vs, 0).val);
    case ForPostStatement => ForPostAlike(m1, m2);
    case SwitchStart => SwitchStartAlike(m1, m2, Nth(m1.vs, 3), Nth(m1.vs, 1).val);
    case CasePre => CasePreAlike(m1, m2, w, false, Nth(m1.vs, 1).val);
    case DefaultPre => CasePreAlike(m1, m2, w, true, Unset);
    case CasePost => PeekAlike(m1, m2);
    case SwitchEnd => SwitchEndAlike(m1, m2);
    case JumpNow(op) => BreakContinueAlike(m1, m2, op, 1);
    case JumpLevels(op) => BreakContinueAlike(m1, m2, op, ToLong(w, Nth(m1.vs, 1).val));
    case ReturnNothing => ReturnAlike(m1, m2, Unset);
    case ReturnValue => ReturnAlike(m1, m2, Nth(m1.vs, 1).val);
  }

  // ----- steps

  lemma StepsAlike(w: World, m1: M, m2: M)
    requires Alike(m1, m2)
    ensures Alike(Step(w, m1), Step(w, m2))
  {
    hide Perform, Production, Nth, Drop;
    if !Done(m1) && m1.work.top.R? {
      var r1, r2 := m1.(work := m1.work.rest), m2.(work := m2.work.rest);
      ActionsAlike(w, m1.work.top.act, Begin(r1, m1.work.top.len), Begin(r2, m1.work.top.len));
    }
  }

  /** Runs that begin alike stay alike. */
  lemma {:induction false} ManyStepsAlike(w: World, m1: M, m2: M, k: nat)
    requires Alike(m1, m2)
    ensures Alike(Steps(w, m1, k), Steps(w, m2, k))
    decreases k
  {
    hide Step, Alike;
    if k > 0 {
      StepsAlike(w, m1, m2);
      ManyStepsAlike(w, Step(w, m1), Step(w, m2), k - 1);
    }
  }
}
