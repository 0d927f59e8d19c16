/** Laws of the structured semantics that a reader of PHP would expect. */
module Laws {
  import opened Values
  import opened Syntax
  import opened Semantics

  /** A list of one expression is that expression, and a condition left out holds. */
  lemma ListsAre(w: World, e: Expr, st: Store)
    ensures EvalX(w, MoreExprs(e, NoExprs), st) == EvalE(w, e, st)
    ensures EvalX(w, NoExprs, st).1 == st && IsTrue(EvalX(w, NoExprs, st).0)
  {
  }

  function One(e: Expr): Exprs {
    MoreExprs(e, NoExprs)
  }

  /** `{ init; while (cond) { body inc; } }` */
  function WhileFor(init: Expr, cond: Expr, inc: Expr, body: Stmt): Stmt {
    Block(MoreStmts(Run(init), MoreStmts(While(cond, BodyInc(body, inc)), NoStmts)))
  }

  function BodyInc(body: Stmt, inc: Expr): Stmt {
    Block(MoreStmts(body, MoreStmts(Run(inc), NoStmts)))
  }

  /** The body never continues the loop it is the body of. */
  ghost predicate NeverContinues(w: World, body: Stmt, nest: nat) {
    forall st, fuel: nat :: Exec(w, body, nest, st, fuel).Res? ==>
                              Exec(w, body, nest, st, fuel).out != Jumped(ContinueOp, 1)
  }

  lemma BodyIncIs(w: World, body: Stmt, inc: Expr, nest: nat, st: Store, fuel: nat)
    ensures Exec(w, BodyInc(body, inc), nest, st, fuel) ==
            var r := Exec(w, body, nest, st, fuel);
            if r.Res? && r.out == Normal then Res(Normal, EvalE(w, inc, r.store).1) else r
  {
    hide EvalE;
    var r := Exec(w, body, nest, st, fuel);
    var tail := MoreStmts(Run(inc), NoStmts);
    assert ExecSS(w, MoreStmts(body, tail), nest, st, fuel) ==
           if r.Res? && r.out == Normal then ExecSS(w, tail, nest, r.store, fuel) else r;
    if r.Res? && r.out == Normal {
      var st2 := EvalE(w, inc, r.store).1;
      assert Exec(w, Run(inc), nest, r.store, fuel) == Res(Normal, st2);
      assert ExecSS(w, NoStmts, nest, st2, fuel) == Res(Normal, st2);
      assert ExecSS(w, tail, nest, r.store, fuel) == Res(Normal, st2);
    }
  }

  lemma {:induction false} LoopsAgree(w: World, init: Expr, cond: Expr, inc: Expr, body: Stmt, nest: nat, st: Store,
                                      fuel: nat)
    requires NeverContinues(w, body, nest + 1)
    ensures ExecFor(w, For(One(init), One(cond), One(inc), body), nest, st, fuel) ==
            ExecWhile(w, While(cond, BodyInc(body, inc)), nest, st, fuel)
    decreases fuel
  {
    hide EvalE, Exec, EvalX;
    if fuel > 0 {
      ListsAre(w, cond, st);
      var (v, st1) := EvalE(w, cond, st);
      if IsTrue(v) {
        BodyIncIs(w, body, inc, nest + 1, st1, fuel);
        var r := Exec(w, body, nest + 1, st1, fuel);
        if r.Res? && GoesOn(r.out) {
          ListsAre(w, inc, r.store);
          LoopsAgree(w, init, cond, inc, body, nest, EvalE(w, inc, r.store).1, fuel - 1);
        }
      }
    }
  }

  /** A `for` is the `while` it is short for, unless its body continues it: a continue still runs the
      increment of a `for`. */
  lemma {:induction false} ForIsWhile(w: World, init: Expr, cond: Expr, inc: Expr, body: Stmt, nest: nat, st: Store,
                                      fuel: nat)
    requires NeverContinues(w, body, nest + 1)
    ensures Exec(w, For(One(init), One(cond), One(inc), body), nest, st, fuel) ==
            Exec(w, WhileFor(init, cond, inc, body), nest, st, fuel)
  {
    hide EvalE, EvalX, ExecFor, ExecWhile;
    var loop := While(cond, BodyInc(body, inc));
    var st1 := EvalE(w, init, st).1;
    ListsAre(w, init, st);
    LoopsAgree(w, init, cond, inc, body, nest, st1, fuel);
    assert Exec(w, Run(init), nest, st, fuel) == Res(Normal, st1);
    assert Exec(w, loop, nest, st1, fuel) == ExecWhile(w, loop, nest, st1, fuel);
    var r := Exec(w, loop, nest, st1, fuel);
    assert ExecSS(w, MoreStmts(loop, NoStmts), nest, st1, fuel) == r;
  }
}
