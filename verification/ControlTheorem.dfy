/** The main results about the control machine. */
module ControlTheorem {
  import opened Values
  import opened Syntax
  import opened Machine
  import opened Semantics
  import opened Walk
  import opened ExprProof
  import opened Frames
  import opened StmtBase
  import opened StmtProof
  import opened Spelling

  // ----- whole runs

  /** The control globals when a function body begins to run. */
  function FreshCtl(css: Stack<int>, fors: Stack<int>, switches: Stack<SwitchExpr>): Ctl {
    Ctl(EXECUTE, true, css, fors, switches, 0, DO_NOTHING, 0, false, Unset)
  }

  /** The parser in front of a function body. */
  function Start(toks: seq<Token>, store: Store): M {
    M(FreshCtl(Nil, Nil, Nil), toks, 0, Nil, JUNK, Push(N(StmtN), Nil), store, Running)
  }

  /** The cache holds the body and what ends it. Any of its `for` loops may already be swapped. */
  ghost predicate Holds(toks: seq<Token>, s: Stmt) {
    Parsed(s) && Spells(toks, 0, s) && At(toks, Len(s), END)
  }

  /** Every statement the parser can build has such a cache. */
  lemma {:induction false} EveryBodyIsHeld(s: Stmt)
    requires Parsed(s)
    ensures Holds(Toks(s) + [Tok(END)], s)
  {
    hide Toks, Spells, Parsed;
    Spelled([], s, [Tok(END)]);
    assert [] + Toks(s) + [Tok(END)] == Toks(s) + [Tok(END)];
  }

  /** The machine, now finished, shows this result. */
  predicate Shows(m: M, out: Outcome, store: Store) {
    && m.store == store
    && (match out
        case Normal => m.status == Running && m.work == Nil && !m.c.returned && m.c.change == DO_NOTHING
        case Returned(v) => m.status == Running && m.work == Nil && m.c.returned && m.c.result == v
        case Fatal => m.status == Failed
        case Jumped(_, _) => false)
  }

  /** What is on every stack after a run that was not cut short is what was there before. */
  predicate StacksRestored(m: M, m': M) {
    m'.c.css == m.c.css && m'.c.fors == m.c.fors && m'.c.switches == m.c.switches && m'.c.nest == m.c.nest
  }

  /** If the structured semantics gives a result, the machine stops with that result. */
  lemma {:induction false} MachineFollows(w: World, toks: seq<Token>, s: Stmt, store: Store, fuel: nat) returns (n: nat)
    requires Holds(toks, s)
    ensures var r := Exec(w, s, 0, store, fuel);
            var m' := Steps(w, Start(toks, store), n);
            if r.Timeout? then n >= fuel && !Done(m')
            else Done(m') && Shows(m', r.out, r.store) && (r.out != Fatal ==> StacksRestored(Start(toks, store), m'))
  {
    hide Exec, Spells, Len, Parsed, EndsOpen, Framed;
    var m := Start(toks, store);
    assert Steps(w, m, 0) == m;
    var n', m' := PassStmt(w, m, 0, m, s, fuel);
    n := n';
  }

  /** The refinement, both ways: the machine stops if and only if the structured semantics gives
      a result for some fuel, and the results agree. */
  lemma {:induction false} MachineRefinesSemantics(w: World, toks: seq<Token>, s: Stmt, store: Store)
    requires Holds(toks, s)
    ensures (exists n: nat :: Done(Steps(w, Start(toks, store), n))) <==>
            (exists fuel: nat :: Exec(w, s, 0, store, fuel).Res?)
    ensures forall n: nat, fuel: nat :: Done(Steps(w, Start(toks, store), n)) && Exec(w, s, 0, store, fuel).Res? ==>
              Shows(Steps(w, Start(toks, store), n), Exec(w, s, 0, store, fuel).out, Exec(w, s, 0, store, fuel).store)
  {
    hide Exec, Spells, Len, Parsed, Steps, Holds, Shows;
    var m := Start(toks, store);
    if exists n: nat :: Done(Steps(w, m, n)) {
      var n: nat :| Done(Steps(w, m, n));
      var n' := MachineFollows(w, toks, s, store, n + 1);
      if Exec(w, s, 0, store, n + 1).Timeout? {
        SameEnd(w, m, n, n');
        assert false;
      }
    }
    if exists fuel: nat :: Exec(w, s, 0, store, fuel).Res? {
      var fuel: nat :| Exec(w, s, 0, store, fuel).Res?;
      var n' := MachineFollows(w, toks, s, store, fuel);
    }
    forall n: nat, fuel: nat | Done(Steps(w, m, n)) && Exec(w, s, 0, store, fuel).Res?
      ensures Shows(Steps(w, m, n), Exec(w, s, 0, store, fuel).out, Exec(w, s, 0, store, fuel).store)
    {
      var n' := MachineFollows(w, toks, s, store, fuel);
      SameEnd(w, m, n, n');
    }
  }

  /** A machine that has finished stays as it is. */
  lemma {:induction false} SameEnd(w: World, m: M, n1: nat, n2: nat)
    requires Done(Steps(w, m, n1))
    ensures n1 <= n2 ==> Steps(w, m, n2) == Steps(w, m, n1)
    ensures n2 <= n1 && Done(Steps(w, m, n2)) ==> Steps(w, m, n2) == Steps(w, m, n1)
  {
    hide Steps;
    if n1 <= n2 {
      StepsAdd(w, m, n1, n2 - n1);
      DoneStays(w, Steps(w, m, n1), n2 - n1);
    } else {
      StepsAdd(w, m, n2, n1 - n2);
      if Done(Steps(w, m, n2)) {
        DoneStays(w, Steps(w, m, n2), n1 - n2);
      }
    }
  }

  /** Two finished machines with the same result. */
  predicate Agree(m1: M, m2: M) {
    && Done(m1) && Done(m2) && m1.store == m2.store && m1.status == m2.status
    && (m1.status == Running ==> m1.c.returned == m2.c.returned && (m1.c.returned ==> m1.c.result == m2.c.result))
  }

  /** The result does not depend on which `for` loops happen to be swapped already. */
  lemma {:induction false} SwappingIsInvisible(w: World, toks1: seq<Token>, toks2: seq<Token>, s: Stmt, store: Store,
      n1: nat)
    requires Holds(toks1, s) && Holds(toks2, s)
    requires Done(Steps(w, Start(toks1, store), n1))
    ensures exists n2: nat :: Agree(Steps(w, Start(toks1, store), n1), Steps(w, Start(toks2, store), n2))
  {
    hide Exec, Spells, Len, Parsed, Steps, Holds;
    MachineRefinesSemantics(w, toks1, s, store);
    var fuel: nat :| Exec(w, s, 0, store, fuel).Res?;
    var n2 := MachineFollows(w, toks2, s, store, fuel);
    assert Agree(Steps(w, Start(toks1, store), n1), Steps(w, Start(toks2, store), n2));
  }

  // ----- a statement inside any number of loops

  /** Any statement met while Execute is set is run as the structured semantics says, and its outcome
      is what the globals then hold (see CtlAfter): a break or continue out of k of the n loops
      around it is pending at level n - k + 1, a return has set `returned`, and every stack and
      the nest level are as before. */
  lemma {:induction false} StatementFollows(w: World, m: M, s: Stmt, fuel: nat) returns (n: nat, m': M)
    requires m.status == Running && m.work.Push? && m.work.top == N(StmtN)
    requires Live(m.c) && 0 <= m.c.nest && IntTop(m.c.fors) < m.pos
    requires Spells(m.toks, m.pos, s) && Parsed(s) && Follows(m.toks, m.pos + Len(s), s)
    ensures Steps(w, m, n) == m'
    ensures var r := Exec(w, s, m.c.nest, m.store, fuel);
            if r.Timeout? then n >= fuel && !Done(m')
            else if r.out == Fatal then m'.status == Failed && m'.store == r.store
            else CtlAfter(m.c, m'.c, r.out) && m'.store == r.store && m'.work == m.work.rest && m'.pos == m.pos + Len(s)
                 && Framed(m.toks, m'.toks, m.pos, m.pos + Len(s)) && Spells(m'.toks, m.pos, s)
  {
    hide Exec, Spells, Len, Parsed, EndsOpen, Framed, Follows;
    assert Steps(w, m, 0) == m;
    n, m' := PassStmt(w, m, 0, m, s, fuel);
  }

  // ----- code that is skipped

  /** Any statement met while Execute is clear, because of a pending break, continue or return or
      because its branch is not taken, is passed over without any effect: no evaluation, no
      iteration, every control global as before. Only `for` loops may have been swapped. */
  lemma {:induction false} SkippedCodeIsInert(w: World, m: M, s: Stmt) returns (n: nat, m': M)
    requires m.status == Running && m.work.Push? && m.work.top == N(StmtN)
    requires Dead(m.c) && Inert(m.c) && 0 <= m.c.nest && IntTop(m.c.fors) < m.pos
    requires Spells(m.toks, m.pos, s) && Parsed(s) && Follows(m.toks, m.pos + Len(s), s)
    ensures Steps(w, m, n) == m'
    ensures m'.c == m.c && m'.store == m.store && m'.work == m.work.rest && m'.pos == m.pos + Len(s)
    ensures m'.vs.Push? && m'.vs.rest == m.vs
    ensures Framed(m.toks, m'.toks, m.pos, m.pos + Len(s)) && Spells(m'.toks, m.pos, s)
  {
    hide Exec, Spells, Len, Parsed, EndsOpen, Framed, Follows;
    assert Steps(w, m, 0) == m;
    n, m' := PassStmt(w, m, 0, m, s, 0);
  }

  // ----- every reachable state

  /** Execute agrees with SHOULD_EXECUTE, and a pending break or continue names one of the loops
      around the code being parsed. */
  predicate Sound(c: Ctl) {
    Settled(c) && (c.change != DO_NOTHING ==> 1 <= c.level <= c.nest)
  }

  /** No action, whatever the token stream, breaks this. */
  lemma {:induction false} ActionsKeepSound(w: World, act: Act, m: M)
    requires Sound(m.c)
    ensures Sound(Perform(w, act, m).c)
  {
    hide TcSwitch, TcSetSwitched, TcSetToken, Nth, SetVal, IsTrue, ToLong;
  }

  lemma {:induction false} StepKeepsSound(w: World, m: M)
    requires Sound(m.c)
    ensures Sound(Step(w, m).c)
  {
    hide Perform, Production;
    if !Done(m) && m.work.top.R? {
      ActionsKeepSound(w, m.work.top.act, Begin(m.(work := m.work.rest), m.work.top.len));
    }
  }

  lemma {:induction false} RunsKeepSound(w: World, m: M, n: nat)
    requires Sound(m.c)
    ensures Sound(Steps(w, m, n).c)
    decreases n
  {
    hide Step, Sound;
    if n > 0 {
      StepKeepsSound(w, m);
      RunsKeepSound(w, Step(w, m), n - 1);
    }
  }
}
