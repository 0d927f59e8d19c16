/** Runs of the machine put together from shorter ones. */
module Walk {
  import opened Values
  import opened Syntax
  import opened Machine

  /** The machine has got from s to m in n steps, and is about to handle `top`. */
  predicate Reached(w: World, s: M, n: nat, m: M, top: Sym) {
    Steps(w, s, n) == m && m.status == Running && m.work.Push? && m.work.top == top
  }

  /** m is about to handle `top`. */
  predicate Handles(m: M, top: Sym) {
    m.status == Running && m.work.Push? && m.work.top == top
  }

  lemma Then(w: World, s: M, n: nat, m: M, p: nat)
    requires Steps(w, s, n) == m
    ensures Steps(w, s, n + p) == Steps(w, m, p)
  {
    StepsAdd(w, s, n, p);
  }

  /** The cell that shifting the token at the read position leaves. */
  function TokenCell(toks: seq<Token>, i: nat): Cell
    requires i < |toks|
  {
    Cell(Unset, i, toks[i].switched, toks[i].leaf)
  }
}
