/** The three phases of a function call (cs_functioncall_pre_variable_passing,
    cs_functioncall_post_variable_passing and cs_functioncall_end): the new function's state is
    prepared before the arguments are parsed, put in force after them, and taken down when the
    body has been passed. */
module Calls {
  import opened Values
  import opened Syntax
  import opened Machine
  import opened Semantics
  import opened Walk
  import opened ExprProof
  import opened Frames
  import opened StmtBase
  import opened StmtProof
  import opened ControlTheorem
  import opened ReturnValue

  const NOTABLE := -1

  /** function_type, and function_call_type, which is kept with the function's name on the parser's
      stack. */
  datatype CallType = NoCall | Internal | User

  /** function_state, but for its loop fields: they are part of Ctl. Tables are numbered. */
  datatype Frame = Frame(symbols: int, passing: int, name: string, ftype: CallType, onObject: bool)

  datatype Saved = Saved(frame: Frame, nest: int, change: Change, level: int, returned: bool)

  /** What looking the function up gives: no object to look in, a name that is no string, nothing,
      something else, or a function, called on an object or not. */
  datatype Found =
    | NoObject
    | NotAString
    | Missing
    | NotAFunction
    | Function(user: bool, offset: nat, onObject: bool)

  datatype S = S(
    c: Ctl,
    frame: Frame,
    saved: Stack<Saved>,        // function_state_stack
    active: int,                // active_symbol_table
    tables: set<int>,           // the symbol tables in existence
    next: int,                  // tables with smaller numbers have been made
    pos: nat,
    stopped: bool)              // by a fatal error, or because a body has not come to its end

  // ----- the phases

  /** Before the arguments. A call of something that is not a function is fatal, and may leave the
      caller's state without its symbol table. */
  function Pre(s: S, name: string, found: Found): (r: (S, CallType)) {
    if !s.c.exec then (s, NoCall)
    else
      match found
      case NoObject => (s.(stopped := true), NoCall)
      case NotAString => (s.(stopped := true), NoCall)
      case Missing => (s.(frame := s.frame.(symbols := NOTABLE), stopped := true), NoCall)
      case NotAFunction => (s.(frame := s.frame.(symbols := NOTABLE), stopped := true), NoCall)
      case Function(user, _, onObject) =>
        var ftype := if user then User else Internal;
        (s.(c := s.c.(fors := Push(-1, s.c.fors)),
            saved := Push(Saved(s.frame, s.c.nest, s.c.change, s.c.level, s.c.returned), s.saved),
            frame := s.frame.(passing := s.next, name := name, ftype := ftype, onObject := onObject),
            tables := s.tables + {s.next},
            next := s.next + 1),
         ftype)
  }

  /** Passing an expression where a reference is wanted calls the call off: function_type is cleared,
      and the phases that follow find nothing to run. */
  function CallOff(s: S, kind: CallType, off: bool): S {
    if off && kind != NoCall then s.(frame := s.frame.(ftype := NoCall)) else s
  }

  /** After the arguments. An internal function runs here and sets the return value. */
  function Post(s: S, kind: CallType, offset: nat, internal: Value): S {
    if kind == NoCall then s
    else
      var c1 := s.c.(css := Push(s.c.flag, s.c.css), nest := 0, change := DO_NOTHING, level := 0, result := Unset);
      var s1 := s.(c := c1, frame := s.frame.(symbols := s.frame.passing, passing := NOTABLE));
      match s.frame.ftype
      case User => s1.(active := s1.frame.symbols, pos := offset)
      case Internal => s1.(c := c1.(result := internal))
      case NoCall => s1
  }

  /** The for_stack after everything above, and with, the nearest -1 is gone. */
  function PopFors(fors: Stack<int>): Stack<int> {
    if IntTop(fors) != -1 then PopFors(fors.rest) else DelTop(fors)
  }

  /** After the body; `back` is the place behind the closing parenthesis. */
  function End(s: S, kind: CallType, back: nat): (r: (S, Value)) {
    if kind == NoCall then (s, Unset)
    else
      var result := if s.frame.ftype == User && !s.c.returned then Unset else s.c.result;
      var s1 := s.(tables := s.tables - {s.frame.symbols}, pos := if s.frame.ftype == User then back else s.pos);
      if s.saved.Nil? then (s1.(stopped := true), result)
      else
        var f := s.saved.top;
        var c1 := s.c.(fors := PopFors(s.c.fors), nest := f.nest, change := f.change, level := f.level,
                       returned := f.returned);
        (s1.(frame := f.frame, saved := s.saved.rest, active := f.frame.symbols, c := PopFlag(c1)), result)
  }

  // ----- calls with everything that happens inside them

  /** A call. A user function's body stands in the cache behind its name and parameter list, which
      take `header` tokens from the function's offset on and concern its symbol table only. */
  datatype Call = Call(
    name: string,
    found: Found,
    args: CallList,
    off: bool,                  // whether the arguments call it off
    internal: Value,            // what an internal function returns
    toks: seq<Token>,
    header: nat,
    body: Stmt,
    store: Store,
    script: Script)

  /** The calls made, in order, while an argument list is parsed. */
  datatype CallList = NoCalls | MoreCalls(head: Call, tail: CallList)

  /** The life of a body: steps of the machine that runs it, and calls made between them. */
  datatype Script = Over | Tick(tail: Script) | Invoke(call: Call, tail: Script)

  function BodyAt(call: Call): nat {
    (if call.found.Function? then call.found.offset else 0) + call.header
  }

  /** The machine in front of the body. */
  function BodyStart(c: Ctl, call: Call): M {
    M(c, call.toks, BodyAt(call), Nil, JUNK, Push(N(StmtN), Nil), call.store, Running)
  }

  predicate BodyOver(m: M) {
    m.status == Running && m.work.Nil?
  }

  /** A call expression is a leaf to the machine, so the place behind the closing parenthesis of its
      arguments is the one where the parser stands. */
  function RunCall(w: World, s: S, call: Call): (r: (S, Value))
    decreases call
  {
    if s.stopped then (s, Unset)
    else
      var (s1, kind) := Pre(s, call.name, call.found);
      var s2 := RunCalls(w, s1, call.args);
      if s2.stopped then (s2, Unset)
      else
        var s3 := Post(CallOff(s2, kind, call.off), kind, BodyAt(call), call.internal);
        var s4 := if kind != NoCall && s3.frame.ftype == User then RunBody(w, s3, call) else s3;
        if s4.stopped then (s4, Unset) else End(s4, kind, s.pos)
  }

  function RunCalls(w: World, s: S, calls: CallList): S
    decreases calls
  {
    match calls
    case NoCalls => s
    case MoreCalls(call, tail) => RunCalls(w, RunCall(w, s, call).0, tail)
  }

  function RunBody(w: World, s: S, call: Call): S
    decreases call, 0
  {
    var (s', m') := RunScript(w, s, BodyStart(s.c, call), call.script);
    if !s'.stopped && !BodyOver(m') then s'.(stopped := true) else s'
  }

  /** The machine and the calls share the control globals and the read position. */
  function RunScript(w: World, s: S, m: M, script: Script): (S, M)
    decreases script
  {
    match script
    case Over => (s, m)
    case Tick(tail) =>
      var m1 := Step(w, m);
      RunScript(w, s.(c := m1.c, pos := m1.pos), m1, tail)
    case Invoke(call, tail) =>
      var s1 := RunCall(w, s, call).0;
      if s1.stopped then (s1, m) else RunScript(w, s1, m.(c := s1.c), tail)
  }

  /** The cache holds the bodies of all user functions called. */
  ghost predicate Sensible(call: Call)
    decreases call
  {
    && (call.found.Function? && call.found.user ==>
          && Spells(call.toks, BodyAt(call), call.body) && Parsed(call.body)
          && Follows(call.toks, BodyAt(call) + Len(call.body), call.body))
    && SensibleCalls(call.args) && SensibleScript(call.script)
  }

  ghost predicate SensibleCalls(calls: CallList)
    decreases calls
  {
    calls.MoreCalls? ==> Sensible(calls.head) && SensibleCalls(calls.tail)
  }

  ghost predicate SensibleScript(script: Script)
    decreases script
  {
    match script
    case Over => true
    case Tick(tail) => SensibleScript(tail)
    case Invoke(call, tail) => Sensible(call) && SensibleScript(tail)
  }

  // ----- what every call keeps

  /** The globals between two statements or expressions of a function. */
  predicate Coherent(s: S) {
    Settled(s.c) && s.active == s.frame.symbols && forall t :: t in s.tables ==> t < s.next
  }

  /** The globals that only the phases of a call touch. */
  predicate SameFrame(s: S, s': S) {
    && s'.frame == s.frame && s'.saved == s.saved && s'.active == s.active
    && s'.tables == s.tables && s'.next >= s.next
  }

  /** All that a call must give back. */
  predicate Restored(s: S, s': S) {
    SameFrame(s, s') && s'.c == s.c.(result := s'.c.result) && s'.pos == s.pos && s'.stopped == s.stopped
  }

  lemma {:induction false} RestoredTrans(s: S, s1: S, s2: S)
    requires Coherent(s) && Restored(s, s1) && Restored(s1, s2)
    ensures Restored(s, s2) && Coherent(s1)
  {
  }

  /** The value of a call whose body ended so. */
  function CallValue(out: Outcome): Value {
    if out.Returned? then out.value else Unset
  }

  /** What the structured semantics gives for the body. */
  ghost predicate Yields(w: World, call: Call, fuel: nat, v: Value) {
    var r := Exec(w, call.body, 0, call.store, fuel);
    r.Res? && (r.out == Normal || r.out.Returned?) && v == CallValue(r.out)
  }

  /** A call is made: Execute is set and the function is found. */
  predicate Made(s: S, call: Call) {
    s.c.exec && call.found.Function?
  }

  /** A call that comes back gives everything back, whatever calls its arguments and its body make. A
      user function yields what the structured semantics gives for its body: the value returned, or
      none. An internal one yields what its handler has set, and a call that was called off nothing. */
  lemma {:induction false} CallRestores(w: World, s: S, call: Call)
    requires Coherent(s) && Sensible(call)
    ensures var s' := RunCall(w, s, call).0; !s'.stopped ==> Restored(s, s')
    ensures var (s', v) := RunCall(w, s, call);
            && (!s'.stopped && Made(s, call) && call.found.user && !call.off ==>
                  exists fuel :: Yields(w, call, fuel, v))
            && (!s'.stopped && Made(s, call) && !call.found.user && !call.off ==> v == call.internal)
            && (!s'.stopped && Made(s, call) && call.off ==> v == Unset)
    decreases call
  {
    hide RunCalls, RunBody, PopFors, Spells, Parsed, Follows, Yields, Len;
    if !s.stopped {
      var (s1, kind) := Pre(s, call.name, call.found);
      if s1.stopped {
        StoppedStays(w, s1, call.args);
      } else {
        ArgsCoherent(s, call.name, call.found);
        CallsRestore(w, s1, call.args);
        var s2 := RunCalls(w, s1, call.args);
        if !s2.stopped && kind != NoCall {
          var s3 := Post(CallOff(s2, kind, call.off), kind, BodyAt(call), call.internal);
          if s3.frame.ftype == User {
            PostCoherent(s2, kind, call);
            var fuel, v := BodyEnds(w, s3, call);
            var s4 := RunBody(w, s3, call);
            if !s4.stopped {
              EndRestores(s, s1, s2, s3, s4, kind, call);
              EndValue(s4, kind, s.pos);
              assert Yields(w, call, fuel, RunCall(w, s, call).1);
            }
          } else {
            EndRestores(s, s1, s2, s3, s3, kind, call);
          }
        }
      }
    }
  }

  lemma {:induction false} ArgsCoherent(s: S, name: string, found: Found)
    requires Coherent(s)
    ensures var s1 := Pre(s, name, found).0; !s1.stopped ==> Coherent(s1)
  {
  }

  /** After the second phase the body is in force: live, outside any loop, with its own table. */
  lemma {:induction false} PostCoherent(s2: S, kind: CallType, call: Call)
    requires Coherent(s2) && s2.c.exec && !s2.stopped && kind != NoCall
            && CallOff(s2, kind, call.off).frame.ftype == User
    ensures var s3 := Post(CallOff(s2, kind, call.off), kind, BodyAt(call), call.internal);
            Coherent(s3) && Fresh(s3) && s3.pos == BodyAt(call)
  {
  }

  predicate Fresh(s: S) {
    Live(s.c) && s.c.nest == 0 && s.c.change == DO_NOTHING && !s.stopped
  }

  lemma {:induction false} StoppedStays(w: World, s: S, calls: CallList)
    requires s.stopped
    ensures RunCalls(w, s, calls) == s
    decreases calls
  {
    if calls.MoreCalls? {
      StoppedStays(w, s, calls.tail);
    }
  }

  lemma {:induction false} CallsRestore(w: World, s: S, calls: CallList)
    requires Coherent(s) && SensibleCalls(calls)
    ensures var s' := RunCalls(w, s, calls); !s'.stopped ==> Restored(s, s')
    decreases calls
  {
    hide RunCall, Sensible;
    if calls.MoreCalls? {
      CallRestores(w, s, calls.head);
      var s1 := RunCall(w, s, calls.head).0;
      if s1.stopped {
        StoppedStays(w, s1, calls.tail);
      } else {
        RestoredTrans(s, s1, s1);
        CallsRestore(w, s1, calls.tail);
      }
    }
  }

  /** Where Execute is clear, a call does nothing at all. */
  lemma {:induction false} DeadCall(w: World, s: S, call: Call)
    requires !s.c.exec
    ensures RunCall(w, s, call) == (s, Unset)
    decreases call
  {
    hide RunCalls;
    DeadCalls(w, s, call.args);
  }

  lemma {:induction false} DeadCalls(w: World, s: S, calls: CallList)
    requires !s.c.exec
    ensures RunCalls(w, s, calls) == s
    decreases calls
  {
    hide RunCall;
    if calls.MoreCalls? {
      DeadCall(w, s, calls.head);
      DeadCalls(w, s, calls.tail);
    }
  }

  // ----- a body that makes calls is a run of the machine

  /** In the middle of a body: n steps of the machine alone lead to a machine like this one. */
  ghost predicate Between(w: World, s0: S, m0: M, n: nat, s: S, m: M) {
    && !s.stopped && s.c == m.c && s.pos == m.pos && SameFrame(s0, s)
    && Coherent(s0) && Coherent(s) && Sound(m.c)
    && Alike(Steps(w, m0, n), m)
  }

  lemma {:induction false} ScriptFollows(w: World, s0: S, m0: M, n: nat, s: S, m: M, script: Script) returns (n': nat)
    requires Between(w, s0, m0, n, s, m) && SensibleScript(script)
    ensures var (s', m') := RunScript(w, s, m, script); !s'.stopped ==> Between(w, s0, m0, n', s', m')
    decreases script
  {
    hide Step, Steps, RunCall, Sensible, Alike;
    n' := n;
    match script
    case Over =>
    case Tick(tail) =>
      var m1 := Step(w, m);
      TickBetween(w, s0, m0, n, s, m);
      n' := ScriptFollows(w, s0, m0, n + 1, s.(c := m1.c, pos := m1.pos), m1, tail);
    case Invoke(call, tail) =>
      var s1 := RunCall(w, s, call).0;
      CallRestores(w, s, call);
      if !s1.stopped {
        InvokeBetween(w, s0, m0, n, s, m, call);
        n' := ScriptFollows(w, s0, m0, n, s1, m.(c := s1.c), tail);
      }
  }

  lemma {:induction false} TickBetween(w: World, s0: S, m0: M, n: nat, s: S, m: M)
    requires Between(w, s0, m0, n, s, m)
    ensures var m1 := Step(w, m); Between(w, s0, m0, n + 1, s.(c := m1.c, pos := m1.pos), m1)
  {
    hide Step, Alike;
    StepsAlike(w, Steps(w, m0, n), m);
    StepKeepsSound(w, m);
    StepsAdd(w, m0, n, 1);
    assert Steps(w, Steps(w, m0, n), 1) == Step(w, Steps(w, m0, n));
  }

  lemma {:induction false} InvokeBetween(w: World, s0: S, m0: M, n: nat, s: S, m: M, call: Call)
    requires Between(w, s0, m0, n, s, m) && !RunCall(w, s, call).0.stopped && Restored(s, RunCall(w, s, call).0)
    ensures var s1 := RunCall(w, s, call).0; Between(w, s0, m0, n, s1, m.(c := s1.c))
  {
    hide RunCall, Steps;
    if !s.c.exec {
      DeadCall(w, s, call);
    }
  }

  /** When the script has brought the body to its end, css, for_stack and switch_stack are as at its
      start, and the return value is that of the structured semantics. */
  lemma {:induction false} BodyEnds(w: World, s: S, call: Call) returns (fuel: nat, v: Value)
    requires Coherent(s) && Fresh(s) && s.pos == BodyAt(call) && IntTop(s.c.fors) == -1 && SensibleScript(call.script)
    requires Spells(call.toks, BodyAt(call), call.body) && Parsed(call.body)
    requires Follows(call.toks, BodyAt(call) + Len(call.body), call.body)
    ensures var s' := RunBody(w, s, call);
            !s'.stopped ==>
              && SameFrame(s, s') && s'.c.css == s.c.css && s'.c.fors == s.c.fors && s'.c.switches == s.c.switches
              && v == (if s'.c.returned then s'.c.result else Unset) && Yields(w, call, fuel, v)
    decreases call, 0
  {
    hide Steps, Step, RunScript, Spells, Len, Parsed, EndsOpen, Follows, Exec, Yields;
    var m0 := BodyStart(s.c, call);
    assert Steps(w, m0, 0) == m0 by {
      NoSteps(w, m0);
    }
    var n := ScriptFollows(w, s, m0, 0, s, m0, call.script);
    var (s', m') := RunScript(w, s, m0, call.script);
    fuel, v := n + 1, if s'.c.returned then s'.c.result else Unset;
    if !s'.stopped && BodyOver(m') {
      EndOfBody(w, m0, n, call, fuel);
      YieldsWhat(w, call, fuel, m0.c, Steps(w, m0, n).c, v);
    }
  }

  lemma {:induction false} NoSteps(w: World, m: M)
    ensures Steps(w, m, 0) == m
  {
  }

  /** A machine that has passed the body has passed it as the semantics says. */
  lemma {:induction false} EndOfBody(w: World, m0: M, n: nat, call: Call, fuel: nat)
    requires m0 == BodyStart(m0.c, call) && fuel == n + 1 && BodyOver(Steps(w, m0, n))
    requires Live(m0.c) && m0.c.nest == 0 && IntTop(m0.c.fors) == -1
    requires Spells(call.toks, BodyAt(call), call.body) && Parsed(call.body)
    requires Follows(call.toks, BodyAt(call) + Len(call.body), call.body)
    ensures var r := Exec(w, call.body, 0, call.store, fuel);
            r.Res? && r.out != Fatal && CtlAfter(m0.c, Steps(w, m0, n).c, r.out)
  {
    hide Steps, Spells, Len, Parsed, EndsOpen, Follows, Exec, Framed, CtlAfter;
    NoSteps(w, m0);
    var n2, m2 := PassStmt(w, m0, 0, m0, call.body, fuel);
    SameEnd(w, m0, n, n2);
    var r := Exec(w, call.body, 0, call.store, fuel);
  }

  lemma {:induction false} YieldsWhat(w: World, call: Call, fuel: nat, c: Ctl, c': Ctl, v: Value)
    requires var r := Exec(w, call.body, 0, call.store, fuel); r.Res? && r.out != Fatal && CtlAfter(c, c', r.out)
    requires Live(c) && c.nest == 0 && v == if c'.returned then c'.result else Unset
    ensures Yields(w, call, fuel, v)
    ensures c'.css == c.css && c'.fors == c.fors && c'.switches == c.switches
  {
    hide Exec;
  }

  /** While the body runs, function_state is that of the function called, with a symbol table of its
      own that did not exist before, which is the active one. */
  lemma {:induction false} BodyHasItsOwnTable(w: World, s: S, call: Call)
    requires Coherent(s) && Sensible(call) && !s.stopped && Made(s, call) && call.found.user && !call.off
    requires !RunCalls(w, Pre(s, call.name, call.found).0, call.args).stopped
    ensures var s3 := Entered(w, s, call);
            && s3.frame == Frame(s3.active, NOTABLE, call.name, User, call.found.onObject)
            && s3.active !in s.tables && s3.tables == s.tables + {s3.active}
            && s3.pos == BodyAt(call) && Fresh(s3)
  {
    hide RunCalls, Spells, Parsed, Follows, Len;
    var (s1, kind) := Pre(s, call.name, call.found);
    ArgsCoherent(s, call.name, call.found);
    CallsRestore(w, s1, call.args);
    PostCoherent(RunCalls(w, s1, call.args), kind, call);
  }

  // ----- calls that come back

  function Ticks(k: nat): Script {
    if k == 0 then Over else Tick(Ticks(k - 1))
  }

  /** The script, and then the machine alone for k more steps. */
  function ThenTicks(script: Script, k: nat): Script {
    match script
    case Over => Ticks(k)
    case Tick(tail) => Tick(ThenTicks(tail, k))
    case Invoke(call, tail) => Invoke(call, ThenTicks(tail, k))
  }

  lemma {:induction false} TicksRun(w: World, s: S, m: M, k: nat)
    requires s.c == m.c && s.pos == m.pos
    ensures var m' := Steps(w, m, k); RunScript(w, s, m, Ticks(k)) == (s.(c := m'.c, pos := m'.pos), m')
    decreases k
  {
    hide Step;
    if k > 0 {
      var m1 := Step(w, m);
      TicksRun(w, s.(c := m1.c, pos := m1.pos), m1, k - 1);
    }
  }

  lemma {:induction false} ThenTicksRun(w: World, s: S, m: M, script: Script, k: nat)
    ensures var (s1, m1) := RunScript(w, s, m, script);
            !s1.stopped ==> RunScript(w, s, m, ThenTicks(script, k)) == RunScript(w, s1, m1, Ticks(k))
    decreases script
  {
    hide Step, RunCall, Ticks;
    match script
    case Over =>
    case Tick(tail) =>
      var m1 := Step(w, m);
      ThenTicksRun(w, s.(c := m1.c, pos := m1.pos), m1, tail, k);
    case Invoke(call, tail) =>
      var s1 := RunCall(w, s, call).0;
      if !s1.stopped {
        ThenTicksRun(w, s1, m.(c := s1.c), tail, k);
      }
  }

  /** The globals when the body begins. */
  function Entered(w: World, s: S, call: Call): S {
    var (s1, kind) := Pre(s, call.name, call.found);
    Post(CallOff(RunCalls(w, s1, call.args), kind, call.off), kind, BodyAt(call), call.internal)
  }

  /** The arguments and what has happened of the body so far have not stopped the run. */
  predicate UnderWay(w: World, s: S, call: Call) {
    && !s.stopped && Made(s, call) && call.found.user && !call.off
    && !RunCalls(w, Pre(s, call.name, call.found).0, call.args).stopped
    && (var s3 := Entered(w, s, call); !RunScript(w, s3, BodyStart(s3.c, call), call.script).0.stopped)
  }

  /** If the structured semantics has a result for the body, a call that is under way comes back once
      its machine is given enough steps. */
  lemma {:induction false} CallComesBack(w: World, s: S, call: Call, fuel: nat) returns (k: nat)
    requires Coherent(s) && Sensible(call) && UnderWay(w, s, call)
    requires var r := Exec(w, call.body, 0, call.store, fuel); r.Res? && r.out != Fatal
    ensures !RunCall(w, s, call.(script := ThenTicks(call.script, k))).0.stopped
  {
    hide RunCalls, RunScript, Exec, Spells, Parsed, Follows, Len;
    var (s1, kind) := Pre(s, call.name, call.found);
    ArgsCoherent(s, call.name, call.found);
    CallsRestore(w, s1, call.args);
    var s2 := RunCalls(w, s1, call.args);
    PostCoherent(s2, kind, call);
    k := BodyComesBack(w, Entered(w, s, call), call, fuel);
  }

  lemma {:induction false} BodyComesBack(w: World, s: S, call: Call, fuel: nat) returns (k: nat)
    requires Coherent(s) && Fresh(s) && s.pos == BodyAt(call) && IntTop(s.c.fors) == -1 && SensibleScript(call.script)
    requires Spells(call.toks, BodyAt(call), call.body) && Parsed(call.body)
    requires Follows(call.toks, BodyAt(call) + Len(call.body), call.body)
    requires var r := Exec(w, call.body, 0, call.store, fuel); r.Res? && r.out != Fatal
    requires !RunScript(w, s, BodyStart(s.c, call), call.script).0.stopped
    ensures var s' := RunBody(w, s, call.(script := ThenTicks(call.script, k))); !s'.stopped && s'.saved == s.saved
  {
    hide Steps, Step, RunScript, Spells, Len, Parsed, EndsOpen, Follows, Exec, Framed, CtlAfter;
    var m0 := BodyStart(s.c, call);
    NoSteps(w, m0);
    var n := ScriptFollows(w, s, m0, 0, s, m0, call.script);
    var (s1, m1) := RunScript(w, s, m0, call.script);
    var m2;
    k, m2 := PassStmt(w, m0, 0, m0, call.body, fuel);
    ThenTicksRun(w, s, m0, call.script, k);
    TicksRun(w, s1, m1, k);
    ManyStepsAlike(w, Steps(w, m0, n), m1, k);
    StepsAdd(w, m0, n, k);
    SameEnd(w, m0, k, n + k);
  }

  // ----- the end

  /** for_stack is `base` with token offsets on top. */
  ghost predicate Piled(fors: Stack<int>, base: Stack<int>)
    decreases fors
  {
    fors == base || (fors.Push? && fors.top >= 0 && Piled(fors.rest, base))
  }

  /** The loop that pops for_stack would undo any offsets left above the -1. */
  lemma {:induction false} PopForsPops(fors: Stack<int>, below: Stack<int>)
    requires Piled(fors, Push(-1, below))
    ensures PopFors(fors) == below
    decreases fors
  {
    if fors != Push(-1, below) {
      PopForsPops(fors.rest, below);
    }
  }

  /** The last phase undoes the first two. */
  lemma {:induction false} EndRestores(s: S, s1: S, s2: S, s3: S, s4: S, kind: CallType, call: Call)
    requires Coherent(s) && Made(s, call) && kind == Pre(s, call.name, call.found).1 && !s.stopped
    requires s1 == Pre(s, call.name, call.found).0 && Restored(s1, s2)
    requires s3 == Post(CallOff(s2, kind, call.off), kind, BodyAt(call), call.internal)
    requires SameFrame(s3, s4) && s4.c.css == s3.c.css && Piled(s4.c.fors, s3.c.fors)
    requires s4.c.switches == s3.c.switches && !s4.stopped && (s3.frame.ftype == User || s4.pos == s3.pos)
    ensures Restored(s, End(s4, kind, s.pos).0)
  {
    hide PopFors, Piled;
    PopForsPops(s4.c.fors, s.c.fors);
    assert s4.tables - {s4.frame.symbols} == s.tables;
  }

  lemma {:induction false} EndValue(s: S, kind: CallType, back: nat)
    requires s.frame.ftype == User && kind != NoCall
    ensures End(s, kind, back).1 == if s.c.returned then s.c.result else Unset
  {
  }

  // ----- the phases as updates of the globals

  class Globals {
    var c: Ctl
    var frame: Frame
    var saved: Stack<Saved>
    var active: int
    ghost var tables: set<int>
    var next: int
    var pos: nat
    var stopped: bool

    ghost function View(): S
      reads this
    {
      S(c, frame, saved, active, tables, next, pos, stopped)
    }

    method PreVariablePassing(name: string, found: Found) returns (kind: CallType)
      modifies this
      ensures (View(), kind) == Pre(old(View()), name, found)
    {
      kind := NoCall;
      if c.exec {
        if found.NoObject? || found.NotAString? {
          stopped := true;
          return;
        }
        if !found.Function? {
          frame := frame.(symbols := NOTABLE);
          stopped := true;
          return;
        }
        c := c.(fors := Push(-1, c.fors));
        saved := Push(Saved(frame, c.nest, c.change, c.level, c.returned), saved);
        kind := if found.user then User else Internal;
        frame := frame.(passing := next, name := name, ftype := kind, onObject := found.onObject);
        tables := tables + {next};
        next := next + 1;
      }
    }

    method PostVariablePassing(kind: CallType, offset: nat, internal: Value)
      modifies this
      ensures View() == Post(old(View()), kind, offset, internal)
    {
      if kind != NoCall {
        c := c.(css := Push(c.flag, c.css));
        frame := frame.(symbols := frame.passing, passing := NOTABLE);
        c := c.(nest := 0, change := DO_NOTHING, level := 0);
        c := c.(result := Unset);
        if frame.ftype == User {
          active := frame.symbols;
          pos := offset;
        } else if frame.ftype == Internal {
          c := c.(result := internal);
        }
      }
    }

    method PopForStack()
      modifies this
      ensures View() == old(View()).(c := old(c).(fors := PopFors(old(c).fors)))
    {
      while IntTop(c.fors) != -1
        invariant View() == old(View()).(c := old(c).(fors := c.fors))
        invariant PopFors(c.fors) == PopFors(old(c).fors)
        decreases c.fors
      {
        c := c.(fors := DelTop(c.fors));
      }
      c := c.(fors := DelTop(c.fors));
    }

    method EndCall(kind: CallType, close: nat) returns (result: Value)
      requires kind != NoCall ==> saved.Push?
      modifies this
      ensures (View(), result) == End(old(View()), kind, close + 1)
    {
      hide PopFors;
      result := Unset;
      if kind != NoCall {
        result := c.result;
        if frame.ftype == User && !c.returned {
          result := Unset;
        }
        tables := tables - {frame.symbols};
        PopForStack();
        if frame.ftype == User {
          pos := close + 1;
        }
        var f := saved.top;
        frame := f.frame;
        c := c.(nest := f.nest, change := f.change, level := f.level, returned := f.returned);
        saved := saved.rest;
        active := frame.symbols;
        c := PopFlag(c);
      }
    }
  }
}
