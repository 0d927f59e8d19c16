/** Statements and expressions of the language, the tokens that spell them, and when a
    stretch of the token cache spells a statement. */
module Syntax {

  // ----- syntax trees

  datatype Expr =
    | Leaf(id: nat)
    | Or(left: Expr, right: Expr)
    | And(left: Expr, right: Expr)
    | Cond(test: Expr, yes: Expr, no: Expr)

  datatype Exprs = NoExprs | MoreExprs(head: Expr, tail: Exprs)

  datatype OptExpr = NoExpr | SomeExpr(expr: Expr)

  datatype JumpOp = BreakOp | ContinueOp

  datatype Stmt =
    | Empty
    | Run(expr: Expr)
    | Block(stmts: Stmts)
    | If(test: Expr, thn: Stmt, rest: Elifs)
    | While(test: Expr, body: Stmt)
    | DoWhile(body: Stmt, test: Expr)
    | For(init: Exprs, cond: Exprs, inc: Exprs, body: Stmt)
    | Switch(subject: Expr, cases: Cases)
    | Jump(op: JumpOp, levels: OptExpr)
    | Return(result: OptExpr)

  datatype Stmts = NoStmts | MoreStmts(head: Stmt, tail: Stmts)

  /** What may follow the first branch of an `if`. */
  datatype Elifs = NoElse | ElsePart(body: Stmt) | Elif(test: Expr, body: Stmt, tail: Elifs)

  /** `default` is always the last entry: the grammar has no list after it. */
  datatype Cases =
    | NoCases
    | Case(value: Expr, body: Stmts, tail: Cases)
    | Default(body: Stmts)

  // ----- tokens

  datatype Kind =
    | LEAF | LPAREN | RPAREN | LBRACE | RBRACE | SEMI | COMMA | COLON | QMARK | OROR | ANDAND
    | IF | ELSEIF | ELSE | WHILE | CONTINUED_WHILE | DO | CONTINUED_DOWHILE | FOR | CONTINUED_FOR
    | SWITCH | CASE | DEFAULT | BREAK | CONTINUE | RETURN | END

  /** A cached token. `leaf` names the expression behind a LEAF; `switched` is the flag that
      tc_set_switched raises on a FOR. The token's offset is its index in the cache. */
  datatype Token = Token(kind: Kind, leaf: nat, switched: bool)

  predicate At(toks: seq<Token>, i: int, k: Kind) {
    0 <= i < |toks| && toks[i].kind == k
  }

  predicate StartsExpr(toks: seq<Token>, i: int) {
    At(toks, i, LEAF) || At(toks, i, LPAREN)
  }

  // ----- how many tokens a piece of syntax takes

  function LenE(e: Expr): nat
    ensures LenE(e) >= 1
    decreases e, 0
  {
    match e
    case Leaf(_) => 1
    case Or(l, r) => LenP(l) + 1 + LenP(r)
    case And(l, r) => LenP(l) + 1 + LenP(r)
    case Cond(c, y, n) => LenP(c) + 1 + LenP(y) + 1 + LenP(n)
  }

  /** An operand: a leaf stands alone, anything else is parenthesised. */
  function LenP(e: Expr): nat
    ensures LenP(e) >= 1
    decreases e, 1
  {
    if e.Leaf? then 1 else LenE(e) + 2
  }

  function LenX(xs: Exprs): nat {
    match xs
    case NoExprs => 0
    case MoreExprs(e, tl) => LenE(e) + LenXMore(tl)
  }

  /** The expressions after the first, each behind a comma. */
  function LenXMore(xs: Exprs): nat {
    match xs
    case NoExprs => 0
    case MoreExprs(e, tl) => 1 + LenE(e) + LenXMore(tl)
  }

  function LenO(o: OptExpr): nat {
    match o
    case NoExpr => 0
    case SomeExpr(e) => LenE(e)
  }

  function Len(s: Stmt): nat
    ensures Len(s) >= 1
  {
    match s
    case Empty => 1
    case Run(e) => LenE(e) + 1
    case Block(ss) => LenSS(ss) + 2
    case If(c, thn, rest) => 3 + LenE(c) + Len(thn) + LenElifs(rest)
    case While(c, body) => 3 + LenE(c) + Len(body)
    case DoWhile(body, c) => 1 + Len(body) + 2 + LenE(c) + 2
    case For(init, cond, inc, body) => 2 + LenX(init) + 1 + LenX(cond) + 1 + LenX(inc) + 1 + Len(body)
    case Switch(e, cases) => 3 + LenE(e) + 1 + LenCases(cases) + 1
    case Jump(_, o) => 1 + LenO(o) + 1
    case Return(o) => 1 + LenO(o) + 1
  }

  function LenSS(ss: Stmts): nat {
    match ss
    case NoStmts => 0
    case MoreStmts(s, tl) => Len(s) + LenSS(tl)
  }

  function LenElifs(el: Elifs): nat {
    match el
    case NoElse => 0
    case ElsePart(body) => 1 + Len(body)
    case Elif(c, body, tl) => 3 + LenE(c) + Len(body) + LenElifs(tl)
  }

  function LenCases(cs: Cases): nat {
    match cs
    case NoCases => 0
    case Case(e, body, tl) => 2 + LenE(e) + LenSS(body) + LenCases(tl)
    case Default(body) => 2 + LenSS(body)
  }

  // ----- which tokens spell a piece of syntax, starting at index a

  ghost predicate SpellsE(toks: seq<Token>, a: nat, e: Expr)
    decreases e, 0
  {
    match e
    case Leaf(id) => At(toks, a, LEAF) && toks[a].leaf == id
    case Or(l, r) =>
      && SpellsP(toks, a, l)
      && At(toks, a + LenP(l), OROR)
      && SpellsP(toks, a + LenP(l) + 1, r)
    case And(l, r) =>
      && SpellsP(toks, a, l)
      && At(toks, a + LenP(l), ANDAND)
      && SpellsP(toks, a + LenP(l) + 1, r)
    case Cond(c, y, n) =>
      && SpellsP(toks, a, c)
      && At(toks, a + LenP(c), QMARK)
      && SpellsP(toks, a + LenP(c) + 1, y)
      && At(toks, a + LenP(c) + 1 + LenP(y), COLON)
      && SpellsP(toks, a + LenP(c) + 1 + LenP(y) + 1, n)
  }

  ghost predicate SpellsP(toks: seq<Token>, a: nat, e: Expr)
    decreases e, 1
  {
    if e.Leaf? then At(toks, a, LEAF) && toks[a].leaf == e.id
    else At(toks, a, LPAREN) && SpellsE(toks, a + 1, e) && At(toks, a + 1 + LenE(e), RPAREN)
  }

  ghost predicate SpellsX(toks: seq<Token>, a: nat, xs: Exprs)
    decreases xs
  {
    match xs
    case NoExprs => true
    case MoreExprs(e, tl) => SpellsE(toks, a, e) && SpellsXMore(toks, a + LenE(e), tl)
  }

  ghost predicate SpellsXMore(toks: seq<Token>, a: nat, xs: Exprs)
    decreases xs
  {
    match xs
    case NoExprs => true
    case MoreExprs(e, tl) =>
      At(toks, a, COMMA) && SpellsE(toks, a + 1, e) && SpellsXMore(toks, a + 1 + LenE(e), tl)
  }

  ghost predicate SpellsO(toks: seq<Token>, a: nat, o: OptExpr) {
    match o
    case NoExpr => true
    case SomeExpr(e) => SpellsE(toks, a, e)
  }

  function JumpKind(op: JumpOp): Kind {
    match op
    case BreakOp => BREAK
    case ContinueOp => CONTINUE
  }

  /** A statement whose last part is an `if` without `else`: an `else` after it would be
      taken as its own. */
  predicate EndsOpen(s: Stmt) {
    match s
    case If(_, _, rest) => EndsOpenElifs(rest)
    case While(_, body) => EndsOpen(body)
    case For(_, _, _, body) => EndsOpen(body)
    case _ => false
  }

  predicate EndsOpenElifs(el: Elifs) {
    match el
    case NoElse => true
    case ElsePart(body) => EndsOpen(body)
    case Elif(_, _, tl) => EndsOpenElifs(tl)
  }

  /** The trees the parser builds: an `else` or `elseif` belongs to the nearest `if`. */
  predicate Parsed(s: Stmt) {
    match s
    case Block(ss) => ParsedSS(ss)
    case If(_, thn, rest) => Parsed(thn) && (EndsOpen(thn) ==> rest == NoElse) && ParsedElifs(rest)
    case While(_, body) => Parsed(body)
    case DoWhile(body, _) => Parsed(body)
    case For(_, _, _, body) => Parsed(body)
    case Switch(_, cases) => ParsedCases(cases)
    case _ => true
  }

  predicate ParsedSS(ss: Stmts) {
    match ss
    case NoStmts => true
    case MoreStmts(s, tl) => Parsed(s) && ParsedSS(tl)
  }

  predicate ParsedElifs(el: Elifs) {
    match el
    case NoElse => true
    case ElsePart(body) => Parsed(body)
    case Elif(_, body, tl) => Parsed(body) && (EndsOpen(body) ==> tl == NoElse) && ParsedElifs(tl)
  }

  predicate ParsedCases(cs: Cases) {
    match cs
    case NoCases => true
    case Case(_, body, tl) => ParsedSS(body) && ParsedCases(tl)
    case Default(body) => ParsedSS(body)
  }

  /** A `for` may be spelled with its condition first or, once tc_switch has run, with its
      increment first; its `switched` flag says which. */
  ghost predicate Spells(toks: seq<Token>, a: nat, s: Stmt)
    decreases s, 0
  {
    match s
    case Empty => At(toks, a, SEMI)
    case Run(e) => SpellsE(toks, a, e) && At(toks, a + LenE(e), SEMI)
    case Block(ss) =>
      At(toks, a, LBRACE) && SpellsSS(toks, a + 1, ss) && At(toks, a + 1 + LenSS(ss), RBRACE)
    case If(c, thn, rest) =>
      && At(toks, a, IF) && At(toks, a + 1, LPAREN)
      && SpellsE(toks, a + 2, c)
      && At(toks, a + 2 + LenE(c), RPAREN)
      && Spells(toks, a + 3 + LenE(c), thn)
      && SpellsElifs(toks, a + 3 + LenE(c) + Len(thn), rest)
    case While(c, body) =>
      At(toks, a, WHILE) && SpellsWhileRest(toks, a, c, body)
    case DoWhile(body, c) =>
      At(toks, a, DO) && SpellsDoRest(toks, a, body, c)
    case For(init, cond, inc, body) =>
      At(toks, a, FOR) && SpellsForRest(toks, a, init, cond, inc, body)
    case Switch(e, cases) =>
      && At(toks, a, SWITCH) && At(toks, a + 1, LPAREN)
      && SpellsE(toks, a + 2, e)
      && At(toks, a + 2 + LenE(e), RPAREN)
      && At(toks, a + 3 + LenE(e), LBRACE)
      && SpellsCases(toks, a + 4 + LenE(e), cases)
      && At(toks, a + 4 + LenE(e) + LenCases(cases), RBRACE)
    case Jump(op, o) =>
      At(toks, a, JumpKind(op)) && SpellsO(toks, a + 1, o) && At(toks, a + 1 + LenO(o), SEMI)
    case Return(o) =>
      At(toks, a, RETURN) && SpellsO(toks, a + 1, o) && At(toks, a + 1 + LenO(o), SEMI)
  }

  /** Everything of a `while` but its first token, whose kind changes between iterations. */
  ghost predicate SpellsWhileRest(toks: seq<Token>, a: nat, c: Expr, body: Stmt)
    decreases body, 1
  {
    && At(toks, a + 1, LPAREN)
    && SpellsE(toks, a + 2, c)
    && At(toks, a + 2 + LenE(c), RPAREN)
    && Spells(toks, a + 3 + LenE(c), body)
  }

  ghost predicate SpellsDoRest(toks: seq<Token>, a: nat, body: Stmt, c: Expr)
    decreases body, 1
  {
    && Spells(toks, a + 1, body)
    && At(toks, a + 1 + Len(body), WHILE)
    && At(toks, a + 2 + Len(body), LPAREN)
    && SpellsE(toks, a + 3 + Len(body), c)
    && At(toks, a + 3 + Len(body) + LenE(c), RPAREN)
    && At(toks, a + 4 + Len(body) + LenE(c), SEMI)
  }

  ghost predicate SpellsForRest(toks: seq<Token>, a: nat, init: Exprs, cond: Exprs, inc: Exprs, body: Stmt)
    decreases body, 1
  {
    && a < |toks|
    && SpellsForHead(toks, a, init,
                     if toks[a].switched then inc else cond,
                     if toks[a].switched then cond else inc)
    && Spells(toks, a + 5 + LenX(init) + LenX(cond) + LenX(inc), body)
  }

  ghost predicate SpellsForHead(toks: seq<Token>, a: nat, x1: Exprs, x2: Exprs, x3: Exprs) {
    && At(toks, a + 1, LPAREN)
    && SpellsX(toks, a + 2, x1)
    && At(toks, a + 2 + LenX(x1), SEMI)
    && SpellsX(toks, a + 3 + LenX(x1), x2)
    && At(toks, a + 3 + LenX(x1) + LenX(x2), SEMI)
    && SpellsX(toks, a + 4 + LenX(x1) + LenX(x2), x3)
    && At(toks, a + 4 + LenX(x1) + LenX(x2) + LenX(x3), RPAREN)
  }

  ghost predicate SpellsSS(toks: seq<Token>, a: nat, ss: Stmts)
    decreases ss
  {
    match ss
    case NoStmts => true
    case MoreStmts(s, tl) => Spells(toks, a, s) && SpellsSS(toks, a + Len(s), tl)
  }

  ghost predicate SpellsElifs(toks: seq<Token>, a: nat, el: Elifs)
    decreases el
  {
    match el
    case NoElse => true
    case ElsePart(body) => At(toks, a, ELSE) && Spells(toks, a + 1, body)
    case Elif(c, body, tl) =>
      && At(toks, a, ELSEIF) && At(toks, a + 1, LPAREN)
      && SpellsE(toks, a + 2, c)
      && At(toks, a + 2 + LenE(c), RPAREN)
      && Spells(toks, a + 3 + LenE(c), body)
      && SpellsElifs(toks, a + 3 + LenE(c) + Len(body), tl)
  }

  ghost predicate SpellsCases(toks: seq<Token>, a: nat, cs: Cases)
    decreases cs
  {
    match cs
    case NoCases => true
    case Case(e, body, tl) =>
      && At(toks, a, CASE)
      && SpellsE(toks, a + 1, e)
      && At(toks, a + 1 + LenE(e), COLON)
      && SpellsSS(toks, a + 2 + LenE(e), body)
      && SpellsCases(toks, a + 2 + LenE(e) + LenSS(body), tl)
    case Default(body) =>
      && At(toks, a, DEFAULT) && At(toks, a + 1, COLON)
      && SpellsSS(toks, a + 2, body)
  }
}
