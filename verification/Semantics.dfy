/** The structured big-step semantics of statements: what running the code should mean,
    with no flags, no token stream and no seeking. */
module Semantics {
  import opened Values
  import opened Syntax

  // ----- expressions: short-circuit evaluation

  function EvalE(w: World, e: Expr, st: Store): (Value, Store) {
    match e
    case Leaf(id) => w.eval(id, st)
    case Or(l, r) =>
      var (lv, st1) := EvalE(w, l, st);
      if IsTrue(lv) then (Long(1), st1)
      else
        var (rv, st2) := EvalE(w, r, st1);
        (Long(if IsTrue(rv) then 1 else 0), st2)
    case And(l, r) =>
      var (lv, st1) := EvalE(w, l, st);
      if !IsTrue(lv) then (Long(0), st1)
      else
        var (rv, st2) := EvalE(w, r, st1);
        (Long(if IsTrue(rv) then 1 else 0), st2)
    case Cond(c, y, n) =>
      var (cv, st1) := EvalE(w, c, st);
      if IsTrue(cv) then EvalE(w, y, st1) else EvalE(w, n, st1)
  }

  /** A comma list has the value of its last expression; an empty one counts as true. */
  function EvalX(w: World, xs: Exprs, st: Store): (Value, Store) {
    match xs
    case NoExprs => (Long(1), st)
    case MoreExprs(e, tl) =>
      var (v, st1) := EvalE(w, e, st);
      EvalXMore(w, tl, v, st1)
  }

  function EvalXMore(w: World, xs: Exprs, last: Value, st: Store): (Value, Store) {
    match xs
    case NoExprs => (last, st)
    case MoreExprs(e, tl) =>
      var (v, st1) := EvalE(w, e, st);
      EvalXMore(w, tl, v, st1)
  }

  // ----- statements

  /** How a statement ends: by falling through, by a break or continue that still has `levels`
      loops to go, by a return, or by a break or continue out of loops that are not there. */
  datatype Outcome = Normal | Jumped(op: JumpOp, levels: nat) | Returned(value: Value) | Fatal

  /** Timeout: the fuel, which bounds the iterations of every loop, was not enough. */
  datatype Res = Timeout | Res(out: Outcome, store: Store)

  /** After a loop body that ended so, the loop goes on. */
  predicate GoesOn(out: Outcome) {
    out == Normal || out == Jumped(ContinueOp, 1)
  }

  /** How a loop or switch ends when its body ended so and it does not go on. */
  function Outside(out: Outcome): Outcome {
    match out
    case Jumped(op, k) => if k <= 1 then Normal else Jumped(op, k - 1)
    case _ => out
  }

  /** `nest` counts the loops and switches around the statement. */
  function Exec(w: World, s: Stmt, nest: nat, st: Store, fuel: nat): Res
    decreases s, fuel, 1
  {
    match s
    case Empty => Res(Normal, st)
    case Run(e) => Res(Normal, EvalE(w, e, st).1)
    case Block(ss) => ExecSS(w, ss, nest, st, fuel)
    case If(c, thn, rest) =>
      var (v, st1) := EvalE(w, c, st);
      if IsTrue(v) then Exec(w, thn, nest, st1, fuel) else ExecElifs(w, rest, nest, st1, fuel)
    case While(_, _) => ExecWhile(w, s, nest, st, fuel)
    case DoWhile(_, _) => ExecDo(w, s, nest, st, fuel)
    case For(init, _, _, _) => ExecFor(w, s, nest, EvalX(w, init, st).1, fuel)
    case Switch(e, cases) =>
      var (v, st1) := EvalE(w, e, st);
      (match ExecCases(w, cases, v, false, nest + 1, st1, fuel)
       case Timeout => Timeout
       case Res(out, st2) => Res(Outside(out), st2))
    case Jump(op, o) =>
      var (n, st1) := Levels(w, o, st);
      Res(if 1 <= n <= nest then Jumped(op, n) else Fatal, st1)
    case Return(o) =>
      (match o
       case NoExpr => Res(Returned(Unset), st)
       case SomeExpr(e) => var (v, st1) := EvalE(w, e, st); Res(Returned(v), st1))
  }

  /** A plain break or continue is one out of a single loop. */
  function Levels(w: World, o: OptExpr, st: Store): (int, Store) {
    match o
    case NoExpr => (1, st)
    case SomeExpr(e) => var (v, st1) := EvalE(w, e, st); (ToLong(w, v), st1)
  }

  function ExecSS(w: World, ss: Stmts, nest: nat, st: Store, fuel: nat): Res
    decreases ss, fuel, 1
  {
    match ss
    case NoStmts => Res(Normal, st)
    case MoreStmts(s, tl) =>
      (match Exec(w, s, nest, st, fuel)
       case Timeout => Timeout
       case Res(out, st1) => if out == Normal then ExecSS(w, tl, nest, st1, fuel) else Res(out, st1))
  }

  function ExecElifs(w: World, el: Elifs, nest: nat, st: Store, fuel: nat): Res
    decreases el, fuel, 1
  {
    match el
    case NoElse => Res(Normal, st)
    case ElsePart(body) => Exec(w, body, nest, st, fuel)
    case Elif(c, body, tl) =>
      var (v, st1) := EvalE(w, c, st);
      if IsTrue(v) then Exec(w, body, nest, st1, fuel) else ExecElifs(w, tl, nest, st1, fuel)
  }

  function ExecWhile(w: World, s: Stmt, nest: nat, st: Store, fuel: nat): Res
    requires s.While?
    decreases s, fuel, 0
  {
    if fuel == 0 then Timeout
    else
      var (v, st1) := EvalE(w, s.test, st);
      if !IsTrue(v) then Res(Normal, st1)
      else
        match Exec(w, s.body, nest + 1, st1, fuel)
        case Timeout => Timeout
        case Res(out, st2) =>
          if GoesOn(out) then ExecWhile(w, s, nest, st2, fuel - 1) else Res(Outside(out), st2)
  }

  function ExecDo(w: World, s: Stmt, nest: nat, st: Store, fuel: nat): Res
    requires s.DoWhile?
    decreases s, fuel, 0
  {
    if fuel == 0 then Timeout
    else
      match Exec(w, s.body, nest + 1, st, fuel)
      case Timeout => Timeout
      case Res(out, st1) =>
        if GoesOn(out) then
          var (v, st2) := EvalE(w, s.test, st1);
          if IsTrue(v) then ExecDo(w, s, nest, st2, fuel - 1) else Res(Normal, st2)
        else Res(Outside(out), st1)
  }

  /** A `for` from its condition on; the increment runs after the body, before the condition. */
  function ExecFor(w: World, s: Stmt, nest: nat, st: Store, fuel: nat): Res
    requires s.For?
    decreases s, fuel, 0
  {
    if fuel == 0 then Timeout
    else
      var (v, st1) := EvalX(w, s.cond, st);
      if !IsTrue(v) then Res(Normal, st1)
      else
        match Exec(w, s.body, nest + 1, st1, fuel)
        case Timeout => Timeout
        case Res(out, st2) =>
          if GoesOn(out) then ExecFor(w, s, nest, EvalX(w, s.inc, st2).1, fuel - 1) else Res(Outside(out), st2)
  }

  /** The cases of a switch on v. Labels are evaluated in order for as long as nothing has
      jumped, even after one has matched; `default` stands last and always runs when reached. */
  function ExecCases(w: World, cs: Cases, v: Value, matched: bool, nest: nat, st: Store, fuel: nat): Res
    decreases cs, fuel, 1
  {
    match cs
    case NoCases => Res(Normal, st)
    case Case(e, body, tl) =>
      var (lv, st1) := EvalE(w, e, st);
      if !matched && !w.equal(v, lv) then ExecCases(w, tl, v, false, nest, st1, fuel)
      else
        (match ExecSS(w, body, nest, st1, fuel)
         case Timeout => Timeout
         case Res(out, st2) =>
           if out == Normal then ExecCases(w, tl, v, true, nest, st2, fuel) else Res(out, st2))
    case Default(body) => ExecSS(w, body, nest, st, fuel)
  }
}
