/** The table-driven parser of configuration files (yyparse in configuration-parser.tab.c). */
module ConfigParser {
  import opened ConfigGrammar

  // ----- the tables

  const YYFINAL := 18
  const YYFLAG := -32768
  const YYNTBASE := 11
  const YYLAST := 18
  const YYEMPTY := -2
  const YYEOF := 0
  const YYTERROR := 1
  const YYINITDEPTH := 200

  const yyr1: seq<int> := [0, 11, 11, 12, 12, 12, 12, 12, 13, 13, 14, 14, 14, 14]
  const yyr2: seq<int> := [0, 2, 0, 3, 1, 3, 1, 1, 1, 1, 1, 1, 1, 1]
  const yydefact: seq<int> := [2, 0, 8, 9, 6, 0, 7, 1, 4, 0, 0, 5, 11, 12, 13, 10, 3, 0, 0]
  const yydefgoto: seq<int> := [1, 7, 8, 16]
  const yypact: seq<int> := [YYFLAG, 0, YYFLAG, YYFLAG, YYFLAG, 4, YYFLAG, YYFLAG, 7, -2, 8,
                             YYFLAG, YYFLAG, YYFLAG, YYFLAG, YYFLAG, YYFLAG, 9, YYFLAG]
  const yypgoto: seq<int> := [YYFLAG, YYFLAG, -3, YYFLAG]
  const yytable: seq<int> := [17, 2, 3, 2, 3, 4, 11, 15, 5, 18, 6, 2, 3, 9, 12, 13, 10, 0, 14]
  const yycheck: seq<int> := [0, 3, 4, 3, 4, 5, 9, 10, 8, 0, 10, 3, 4, 9, 6, 7, 9, -1, 10]

  /** YYTRANSLATE for a positive code. */
  function YyTranslate(code: int): (r: int)
    requires code > 0
    ensures 1 <= r <= 10 || r == 15
  {
    if code > 262 then 15
    else if code == NEWLINE then 10
    else if code == EQUALS then 9
    else if code == 256 then 1
    else if code >= 257 then code - 254
    else 2
  }

  /** What the packed tables hold for a state and a translated token: the state to shift to, or
      -1 if there is no entry. */
  function NextState(state: int, tok: int): int {
    match state
    case 1 =>
      if tok == 0 then 17 else if tok == 3 then 2 else if tok == 4 then 3 else if tok == 5 then 4
      else if tok == 8 then 5 else if tok == 10 then 6 else -1
    case 5 => if tok == 9 then 9 else -1
    case 8 => if tok == 9 then 10 else -1
    case 9 => if tok == 3 then 2 else if tok == 4 then 3 else -1
    case 10 =>
      if tok == 3 then 2 else if tok == 4 then 3 else if tok == 6 then 12 else if tok == 7 then 13
      else if tok == 10 then 14 else -1
    case 17 => if tok == 0 then 18 else -1
    case _ => -1
  }

  predicate InTable(state: int, tok: int)
    requires 0 <= state < |yypact|
  {
    var i := yypact[state] + tok;
    0 <= i <= YYLAST && yycheck[i] == tok
  }

  lemma TableEntries(state: int, tok: int)
    requires state in {1, 5, 8, 9, 10, 17}
    requires 0 <= tok <= 10 || tok == 15
    ensures |yypact| == |yytable| == |yycheck| == YYLAST + 1
    ensures InTable(state, tok) <==> NextState(state, tok) != -1
    ensures InTable(state, tok) ==> yytable[yypact[state] + tok] == NextState(state, tok)
  {
  }

  /** The lookup in the packed tables, given the state's row; -1 stands for the jump to the
      default action. No entry is a reduction or an error entry. */
  method Consult(state: int, row: int, tok: int) returns (yyn: int)
    requires state in {1, 5, 8, 9, 10, 17} && row == yypact[state]
    requires 0 <= tok <= 10 || tok == 15
    ensures yyn == NextState(state, tok)
  {
    hide NextState, yytable, yycheck, yypact;
    TableEntries(state, tok);
    yyn := row + tok;
    if yyn < 0 || yyn > YYLAST || yycheck[yyn] != tok {
      return -1;
    }
    yyn := yytable[yyn];
  }

  lemma NoErrorEntries(state: int)
    requires 0 <= state <= 17
    ensures yypact[state] == YYFLAG || !InTable(state, YYTERROR)
  {
  }

  lemma GotoEntries(state: int, nt: int)
    requires nt == 13 ==> state in {1, 9, 10}
    requires nt in {11, 12, 13, 14}
    requires 0 <= state <= 17
    ensures Goto(state, nt) ==
            if nt == 11 then 1 else if nt == 12 then 7 else if nt == 14 then 16
            else if state == 9 then 11 else if state == 10 then 15 else 8
  {
  }

  /** The state after a reduction to `nt` uncovers `state`. */
  function Goto(state: int, nt: int): int
    requires 11 <= nt <= 14
  {
    var i := yypgoto[nt - YYNTBASE] + state;
    if 0 <= i <= YYLAST && yycheck[i] == state then yytable[i] else yydefgoto[nt - YYNTBASE]
  }

  // ----- what a stack stands for

  predicate IsStringState(state: int, l: Lexeme, v: string) {
    v == l.text && ((state == 2 && l.code == STRING) || (state == 3 && l.code == ENCAPSULATED))
  }

  predicate Third(state: int, v: string, p: seq<Lexeme>) {
    if state == 7 || state == 17 then p == []
    else
      && |p| == 1
      && (match state
          case 4 => p[0].code == SECTION && v == p[0].text
          case 5 => p[0].code == EXTENSION
          case 6 => p[0].code == NEWLINE
          case 8 => IsString(p[0]) && v == p[0].text
          case _ => IsStringState(state, p[0], v))
  }

  predicate Fourth(below: int, state: int, v: string, p: seq<Lexeme>) {
    && |p| >= 2 && p[1].code == EQUALS
    && (if below == 5 then state == 9 && p[0].code == EXTENSION
        else below == 8 && state == 10 && IsString(p[0]) && v == p[0].text)
  }

  predicate Fifth(base: int, state: int, v: string, l: Lexeme) {
    if base == 5 then IsStringState(state, l, v) || (state == 11 && IsString(l) && v == l.text)
    else
      match state
      case 12 => l.code == CFG_TRUE && v == l.text
      case 13 => l.code == CFG_FALSE && v == l.text
      case 14 => l.code == NEWLINE
      case 15 => IsString(l) && v == l.text
      case 16 => IsValue(l) && v == ValueText(l)
      case _ => IsStringState(state, l, v)
  }

  /** The states and values on the stacks once the tokens `p` of an unfinished statement have
      been shifted. There are at most five. */
  predicate Shape(ss: seq<int>, vs: seq<string>, p: seq<Lexeme>) {
    && |vs| == |ss| && 1 <= |ss| <= 5 && ss[0] == 0
    && (|ss| >= 2 ==> ss[1] == 1)
    && (|ss| <= 2 ==> p == [])
    && (|ss| == 3 ==> Third(ss[2], vs[2], p))
    && (|ss| == 4 ==> |p| == 2)
    && (|ss| >= 4 ==> Fourth(ss[2], ss[3], vs[2], p))
    && (|ss| == 5 ==> |p| == 3 && Fifth(ss[2], ss[4], vs[4], p[2]))
  }

  /** The tokens before the scanner reports the end of the file. */
  function Significant(input: seq<Lexeme>): (r: seq<Lexeme>)
    ensures |r| <= |input| && r == input[..|r|]
    ensures |r| < |input| ==> input[|r|].code <= 0
    ensures forall i :: 0 <= i < |r| ==> r[i].code > 0
  {
    if input == [] || input[0].code <= 0 then [] else [input[0]] + Significant(input[1..])
  }

  /** What was shifted, and the lookahead if there is one, are the front of the input. */
  predicate Looks(input: seq<Lexeme>, shifted: seq<Lexeme>, pos: nat, yychar: int, yylval: string) {
    var toks, n := Significant(input), |shifted|;
    && n <= |toks| && toks[..n] == shifted
    && (yychar == YYEMPTY || yychar >= 0)
    && (yychar == YYEMPTY ==> pos == n)
    && (yychar > 0 ==> n < |toks| && pos == n + 1 && toks[n] == Lexeme(yychar, yylval))
    && (yychar == YYEOF ==> n == |toks|)
  }

  datatype Label = NewState | Backup | Reduce | ErrLab | ErrHandle | Accepted | Aborted | Overflow

  class Parser {
    const input: seq<Lexeme>
    ghost const conf0: Conf
    var pos: nat
    var yychar: int
    var yychar1: int
    var yylval: string
    var yystate: int
    var yyn: int
    var yyss: seq<int>
    var yyvs: seq<string>
    var yyval: string
    var yyerrstatus: int
    var yynerrs: nat
    var at: Label
    var conf: Conf
    ghost var done: seq<Statement>      // reduced, and applied to conf
    ghost var part: seq<Lexeme>         // shifted since

    constructor (input: seq<Lexeme>, conf: Conf)
      ensures this.input == input && conf0 == conf && at == NewState && Inv()
    {
      this.input, conf0, this.conf := input, conf, conf;
      pos, yychar, yychar1, yylval := 0, YYEMPTY, 0, "";
      yystate, yyn, yyss, yyvs, yyval := 0, 0, [], [""], "";
      yyerrstatus, yynerrs, at := 0, 0, NewState;
      done, part := [], [];
    }

    ghost function Shifted(): seq<Lexeme>
      reads this
    {
      Sentence(done) + part
    }

    /** A string reduced to a statement of its own was seen not to be followed by `=`. */
    ghost predicate BareOk()
      reads this
    {
      part == [] && done != [] && done[|done| - 1].Bare? ==> yychar != YYEMPTY && yychar != EQUALS
    }

    ghost predicate Common()
      reads this
    {
      AllWellFormed(done) && conf == Fold(conf0, done) && Looks(input, Shifted(), pos, yychar, yylval) && BareOk()
          && yyerrstatus in {0, 3}
    }

    /** The lookahead does not fit. */
    ghost predicate Wrong()
      reads this
    {
      && Partial(part) && yychar != YYEMPTY
      && (yychar > 0 ==> !MayFollow(part, Lexeme(yychar, yylval)))
      && (yychar == YYEOF ==> part != [])
    }

    ghost predicate Inv()
      reads this
    {
      && Common()
      && (match at
          case NewState =>
            Shape(yyss + [yystate], yyvs, part) && (yystate == 17 ==> yychar == YYEOF) && yyerrstatus == 0
          case Backup =>
            Shape(yyss, yyvs, part) && yystate == yyss[|yyss| - 1] && (yystate == 17 ==> yychar == YYEOF)
                && yyerrstatus == 0
          case Reduce =>
            && Shape(yyss, yyvs, part) && yystate == yyss[|yyss| - 1] && yyerrstatus == 0
            && 0 <= yystate <= 16 && yyn == yydefact[yystate] && yyn > 0
            && (yystate == 8 ==> yychar != YYEMPTY && yychar != EQUALS)
          case ErrLab => Wrong() && Shape(yyss, yyvs, part) && yystate == yyss[|yyss| - 1] && yystate != 17
              && yyerrstatus == 0
          case ErrHandle =>
            && Wrong() && 1 <= |yyss| == |yyvs| <= 5 && yystate == yyss[|yyss| - 1]
            && (forall i :: 0 <= i < |yyss| ==> 0 <= yyss[i] <= 16)
          case Accepted => part == [] && yychar == YYEOF
          case Aborted => Wrong()
          case Overflow => false)
    }

    /** The tokens still to be shifted, with one for the end of the file. */
    ghost function Left(): nat
      reads this
    {
      var n := |Significant(input)| - |Shifted()|;
      if n < 0 then 0 else if yystate == 17 then n else n + 1
    }

    /** How much can still happen before the next shift. */
    ghost function Rank(): nat
      reads this
    {
      match at
      case NewState => 3 * Stage(yystate) + 2
      case Backup => 3 * Stage(yystate) + 1
      case Reduce => 3 * Stage(yystate)
      case ErrLab => 9
      case ErrHandle => if |yyss| <= 5 then |yyss| else 0
      case _ => 0
    }

    /** cfglex. */
    method Lex()
      requires Common() && yychar == YYEMPTY
      modifies this`pos, this`yychar, this`yylval
      ensures Common() && yychar != YYEMPTY
    {
      if pos < |input| {
        yychar, yylval := input[pos].code, input[pos].text;
        pos := pos + 1;
      } else {
        yychar := YYEOF;
      }
      if yychar <= 0 {
        yychar := YYEOF;
      }
    }

    /** yynewstate. */
    method PushState()
      requires at == NewState && Inv()
      modifies this`yyss, this`at
      ensures at == Backup && Inv() && |yyss| <= 5
    {
      hide Sentence, Significant, Fold;
      yyss := yyss + [yystate];
      at := if |yyss| >= YYINITDEPTH then Overflow else Backup;
    }

    /** yydefault. */
    method DefaultAction()
      requires at == Backup && Inv() && 0 <= yystate <= 17
      requires yydefact[yystate] == 0 ==> Wrong()
      requires yystate == 8 ==> yychar != YYEMPTY && yychar != EQUALS
      modifies this`yyn, this`at
      ensures at in {Reduce, ErrLab} && Inv()
    {
      hide Sentence, Significant, Fold;
      yyn := yydefact[yystate];
      at := if yyn == 0 then ErrLab else Reduce;
    }

    /** yybackup: decide without the lookahead if the state allows it, else with it. */
    method Decide()
      requires at == Backup && Inv()
      modifies this
      ensures at in {NewState, Reduce, ErrLab, Accepted} && Inv()
      ensures at != NewState ==> Shifted() == old(Shifted()) && yystate == old(yystate)
      ensures at == NewState ==> Left() < old(Left())
    {
      hide Sentence, Significant, Fold, Shape, MayFollow, Partial;
      StackTop(yyss, yyvs, part);
      yyn := yypact[yystate];
      if yyn == YYFLAG {
        DefaultAction();
        return;
      }
      if yychar == YYEMPTY {
        Lex();
      }
      UseLookahead();
    }

    method UseLookahead()
      requires at == Backup && Inv() && yychar != YYEMPTY
      requires 0 <= yystate <= 17 && yyn == yypact[yystate] != YYFLAG
      modifies this
      ensures at in {NewState, Reduce, ErrLab, Accepted} && Inv()
      ensures at != NewState ==> Shifted() == old(Shifted()) && yystate == old(yystate)
      ensures at == NewState ==> Left() < old(Left())
    {
      hide Sentence, Significant, Fold, NextState, Shape, MayFollow, Partial, YyTranslate, yydefact, yypact;
      StackTop(yyss, yyvs, part);
      yychar1 := if yychar <= 0 then 0 else YyTranslate(yychar);
      EntriesFit(yyss, yyvs, part, yychar, yylval);
      yyn := Consult(yystate, yyn, yychar1);
      if yyn == -1 {
        DefaultAction();
      } else if yyn == YYFINAL {
        at := Accepted;
      } else {
        Shift();
      }
    }

    method Shift()
      requires at == Backup && Inv() && yychar != YYEMPTY && yystate != 17
      requires yychar > 0 ==> Shape(yyss + [yyn], yyvs + [yylval], part + [Lexeme(yychar, yylval)]) && yyn != 17
      requires yychar == YYEOF ==> Shape(yyss + [yyn], yyvs + [yylval], part) && yyn == 17
      modifies this
      ensures at == NewState && Inv() && Left() < old(Left())
    {
      hide Sentence, Significant, Fold, Shape;
      if yychar != YYEOF {
        part := part + [Lexeme(yychar, yylval)];
        assert Shifted() == old(Shifted()) + [Lexeme(yychar, yylval)];
        yychar := YYEMPTY;
      }
      yyvs := yyvs + [yylval];
      yystate := yyn;
      at := NewState;
    }

    /** The action switch. */
    method Act()
      requires at == Reduce && Inv()
      modifies this`yyval, this`conf
      ensures yyn == 13 ==> yyval == ""
      ensures yyn in {8, 9, 10, 11, 12} ==> yyval == yyvs[|yyvs| - 1]
      ensures |part| == (if yyn == 3 || yyn == 5 then 3 else 1) || !EndsStatement(yyn)
      ensures conf == if EndsStatement(yyn) then Apply(old(conf), Reduced(yyn, part)) else old(conf)
    {
      hide Sentence, Significant, Fold, Shape, SetField, OpenSection;
      RuleLength(yyss, yyvs, part, yyn);
      if EndsStatement(yyn) {
        ReducedFits(yyss, yyvs, part, yyn);
      }
      var top := |yyvs| - 1;
      if yyn == 3 {
        if !conf.browscap {
          conf := conf.(hash := conf.hash[yyvs[top - 2] := Text(yyvs[top])]);
        } else {
          conf := SetField(conf, Lower(yyvs[top - 2]), yyvs[top]);
        }
      } else if yyn == 5 {
        conf := conf.(loads := conf.loads + [yyvs[top]]);
      } else if yyn == 6 {
        if conf.browscap {
          conf := OpenSection(conf, yyvs[top]);
        }
      } else if 8 <= yyn <= 12 {
        yyval := yyvs[top];
      } else if yyn == 13 {
        yyval := "";
      }
    }

    /** Pop the right-hand side and find the state to go to. */
    method Uncover(yylen: nat)
      requires yylen < |yyss| == |yyvs| && 0 <= yyn < |yyr1| && 11 <= yyr1[yyn] <= 14
      modifies this`yyss, this`yyvs, this`yystate, this`at
      ensures yyss == old(yyss)[..old(|yyss|) - yylen] && yyvs == old(yyvs)[..old(|yyvs|) - yylen] + [yyval]
      ensures yystate == Goto(yyss[|yyss| - 1], yyr1[yyn]) && at == NewState
    {
      hide yyr1;
      yyss, yyvs := yyss[..|yyss| - yylen], yyvs[..|yyvs| - yylen] + [yyval];
      var nt := yyr1[yyn] - YYNTBASE;
      var i := yypgoto[nt] + yyss[|yyss| - 1];
      yystate := if 0 <= i <= YYLAST && yycheck[i] == yyss[|yyss| - 1] then yytable[i] else yydefgoto[nt];
      at := NewState;
    }

    /** The action, with the statement it completes, if any, on record. */
    method Commit()
      requires at == Reduce && Inv()
      modifies this`yyval, this`conf, this`done, this`part
      ensures Common() && Shifted() == old(Shifted()) && part == if EndsStatement(yyn) then [] else old(part)
      ensures yyn == 13 ==> yyval == ""
      ensures yyn in {8, 9, 10, 11, 12} ==> yyval == yyvs[|yyvs| - 1]
    {
      hide Sentence, Significant, Fold, Shape, Reduced, yydefact, yyr1, yyr2, Looks, Apply, Words;
      Act();
      if EndsStatement(yyn) {
        ReducedFits(yyss, yyvs, part, yyn);
        StatementDone(conf0, done, part, Reduced(yyn, part));
        done := done + [Reduced(yyn, part)];
        part := [];
      }
      assert Shifted() == old(Shifted());
    }

    /** yyreduce. */
    method ReduceByRule()
      requires at == Reduce && Inv()
      modifies this
      ensures at == NewState && Inv()
      ensures Shifted() == old(Shifted()) && Stage(yystate) < Stage(old(yystate)) && yystate != 17
    {
      hide Sentence, Significant, Fold, Shape, Stage, Goto, yydefact, yyr1, yyr2, Looks, AllWellFormed;
      RuleLength(yyss, yyvs, part, yyn);
      var yylen := yyr2[yyn];
      if yylen > 0 {
        yyval := yyvs[|yyvs| - yylen];
      }
      Commit();
      ReducedShape(yyss, yyvs, old(part), yyn, yyval);
      Uncover(yylen);
    }

    /** yyerrlab and yyerrlab1. */
    method ErrorDetected()
      requires at == ErrLab && Inv()
      modifies this`yynerrs, this`yyerrstatus, this`at
      ensures at == ErrHandle && Inv()
    {
      hide Sentence, Significant, Fold, Looks, MayFollow, Partial;
      StackBelow17(yyss, yyvs, part);
      if yyerrstatus == 0 {
        yynerrs := yynerrs + 1;
      }
      if yyerrstatus == 3 {
        assert false;     // there is no second error: the first one is not recovered from
      }
      yyerrstatus := 3;
      at := ErrHandle;
    }

    /** yyerrhandle, yyerrdefault and yyerrpop: no state takes the error token. */
    method PopForError()
      requires at == ErrHandle && Inv()
      modifies this`yyn, this`yyss, this`yyvs, this`yystate, this`at
      ensures at in {ErrHandle, Aborted} && Inv()
      ensures at == ErrHandle ==> |yyss| < old(|yyss|)
    {
      hide Sentence, Significant, Fold, Looks, MayFollow, Partial;
      NoErrorEntries(yystate);
      yyn := yypact[yystate];
      if yyn != YYFLAG {
        yyn := yyn + YYTERROR;
        if 0 <= yyn <= YYLAST && yycheck[yyn] == YYTERROR {
          assert false;
        }
      }
      if |yyss| == 1 {
        at := Aborted;
        return;
      }
      yyss, yyvs := yyss[..|yyss| - 1], yyvs[..|yyvs| - 1];
      yystate := yyss[|yyss| - 1];
    }

    /** yyparse: 0 if the parse was accepted, 1 if it was aborted, 2 if the stack overflowed. */
    method Run() returns (result: int)
      requires at == NewState && Inv()
      modifies this
      ensures Common()
      ensures result == 0 || result == 1
      ensures result == 0 ==> part == [] && yychar == YYEOF
      ensures result == 1 ==> Wrong()
    {
      hide Sentence, Significant, Fold, Looks, MayFollow, Partial, Shape, Stage, yydefact;
      while at in {NewState, Backup, Reduce, ErrLab, ErrHandle}
        invariant Inv()
        decreases Left(), Rank()
      {
        match at
        case NewState => PushState();
        case Backup => Decide();
        case Reduce => ReduceByRule();
        case ErrLab => ErrorDetected();
        case ErrHandle => PopForError();
      }
      result := if at == Accepted then 0 else if at == Aborted then 1 else 2;
    }
  }

  // ----- reductions

  predicate EndsStatement(rule: int) {
    3 <= rule <= 7
  }

  /** The statement that a reduction by `rule` completes. */
  function Reduced(rule: int, p: seq<Lexeme>): Statement
    requires EndsStatement(rule) && |p| == (if rule == 3 || rule == 5 then 3 else 1)
  {
    match rule
    case 3 => Assign(p[0], p[1], p[2])
    case 4 => Bare(p[0])
    case 5 => Load(p[0], p[1], p[2])
    case 6 => Header(p[0])
    case _ => Blank(p[0])
  }

  lemma StatementDone(c: Conf, done: seq<Statement>, p: seq<Lexeme>, s: Statement)
    requires AllWellFormed(done) && WellFormed(s) && Words(s) == p
    ensures AllWellFormed(done + [s])
    ensures Sentence(done + [s]) + [] == Sentence(done) + p
    ensures Fold(c, done + [s]) == Apply(Fold(c, done), s)
  {
    hide Sentence, Fold, Apply;
    SentenceSnoc(done, s);
    FoldSnoc(c, done, s);
  }

  lemma RuleLength(ss: seq<int>, vs: seq<string>, p: seq<Lexeme>, rule: int)
    requires Shape(ss, vs, p) && rule == yydefact[ss[|ss| - 1]] && rule > 0
    ensures rule < |yyr1| == |yyr2| && 0 <= yyr2[rule] < |ss| == |vs|
    ensures 8 <= rule <= 13 ==> yyr2[rule] == 1
  {
  }

  lemma ReducedFits(ss: seq<int>, vs: seq<string>, p: seq<Lexeme>, rule: int)
    requires Shape(ss, vs, p) && rule == yydefact[ss[|ss| - 1]] && EndsStatement(rule)
    ensures |p| == if rule == 3 || rule == 5 then 3 else 1
    ensures WellFormed(Reduced(rule, p)) && Words(Reduced(rule, p)) == p
    ensures Reduced(rule, p).Bare? <==> ss[|ss| - 1] == 8
    ensures |vs| == yyr2[rule] + 2
    ensures rule == 3 ==> vs[2] == p[0].text && vs[4] == ValueText(p[2])
    ensures rule == 5 ==> vs[4] == p[2].text
    ensures rule == 6 ==> vs[2] == p[0].text
  {
  }

  lemma ReducedShape(ss: seq<int>, vs: seq<string>, p: seq<Lexeme>, rule: int, v: string)
    requires Shape(ss, vs, p) && rule == yydefact[ss[|ss| - 1]] && rule > 0
    requires rule == 13 ==> v == ""
    requires rule in {8, 9, 10, 11, 12} ==> v == vs[|vs| - 1]
    ensures var n := |ss| - yyr2[rule];
            && n >= 1 && 0 <= ss[n - 1] <= 17 && 11 <= yyr1[rule] <= 14
            && Shape(ss[..n] + [Goto(ss[n - 1], yyr1[rule])], vs[..n] + [v], if EndsStatement(rule) then [] else p)
            && Stage(Goto(ss[n - 1], yyr1[rule])) < Stage(ss[|ss| - 1])
            && Goto(ss[n - 1], yyr1[rule]) != 17
  {
    hide yycheck, yytable, yypgoto, yydefgoto, Goto;
    StackTop(ss, vs, p);
    var n := |ss| - yyr2[rule];
    GotoEntries(ss[n - 1], yyr1[rule]);
  }

  /** Reductions lower this, so only shifts can keep the parser going. */
  function Stage(state: int): (r: nat)
    ensures r >= 4
  {
    match state
    case 0 => 12
    case 2 | 3 | 12 | 13 | 14 => 10
    case 15 => 9
    case 11 | 16 => 8
    case 4 | 6 | 8 => 7
    case 7 => 6
    case _ => 4
  }

  lemma StackBelow17(ss: seq<int>, vs: seq<string>, p: seq<Lexeme>)
    requires Shape(ss, vs, p) && ss[|ss| - 1] != 17
    ensures 1 <= |ss| == |vs| <= 5
    ensures forall i :: 0 <= i < |ss| ==> 0 <= ss[i] <= 16
  {
    StackTop(ss, vs, p);
  }

  lemma StackTop(ss: seq<int>, vs: seq<string>, p: seq<Lexeme>)
    requires Shape(ss, vs, p)
    ensures var top := ss[|ss| - 1];
            && 0 <= top <= 17
            && (yypact[top] != YYFLAG <==> top in {1, 5, 8, 9, 10, 17})
            && (yydefact[top] == 0 <==> top in {1, 5, 9, 10, 17})
  {
  }

  /** The entries of the tables are the moves the grammar allows. */
  lemma EntriesFit(ss: seq<int>, vs: seq<string>, p: seq<Lexeme>, code: int, text: string)
    requires Shape(ss, vs, p) && code >= 0
    ensures var top, n := ss[|ss| - 1], NextState(ss[|ss| - 1], if code <= 0 then 0 else YyTranslate(code));
            && (n != -1 && n != YYFINAL && code > 0 ==>
                  n != 17 && Shape(ss + [n], vs + [text], p + [Lexeme(code, text)]))
            && (n != -1 && n != YYFINAL && code == 0 ==> n == 17 && top != 17 && Shape(ss + [n], vs + [text], p))
            && (n == YYFINAL ==> top == 17 && p == [])
            && (n == -1 && top in {1, 5, 9, 10} ==>
                  Partial(p) && if code > 0 then !MayFollow(p, Lexeme(code, text)) else p != [])
            && (n == -1 && top == 8 ==> code != EQUALS)
            && (n == -1 && top == 17 ==> code != 0)
  {
  }

  // ----- the whole parse

  /** Where a rejected input goes wrong. `done` are its complete statements and `p` is the
      beginning of one more: together they can be completed, but not with the token that comes
      next, or not with the end of the file if nothing comes next. */
  ghost predicate GoesWrongAfter(toks: seq<Lexeme>, done: seq<Statement>, p: seq<Lexeme>) {
    var read := Sentence(done) + p;
    && AllWellFormed(done) && Partial(p)
    && |read| <= |toks| && toks[..|read|] == read
    && Viable(read)
    && (if |read| == |toks| then !Grammatical(toks) else !Viable(toks[..|read| + 1]))
  }

  /** The parser accepts exactly the token strings of the grammar. An accepted file has the effect
      of all its statements in order; a rejected one is given up at the first token that no file
      could have there, with the effect of exactly the statements completed before it. The stack
      never overflows. */
  method YyParse(input: seq<Lexeme>, conf: Conf) returns (result: int, conf': Conf)
    ensures result == 0 || result == 1
    ensures result == 0 <==> Grammatical(Significant(input))
    ensures forall ss :: AllWellFormed(ss) && Sentence(ss) == Significant(input) ==> conf' == Fold(conf, ss)
    ensures result == 1 ==> exists done, p :: GoesWrongAfter(Significant(input), done, p) && conf' == Fold(conf, done)
  {
    hide Sentence, Significant, Fold, MayFollow, Partial;
    var parser := new Parser(input, conf);
    result := parser.Run();
    conf' := parser.conf;
    ghost var toks, done, p := Significant(input), parser.done, parser.part;
    if result == 0 {
      assert Sentence(done) == Sentence(done) + [] == toks;
      forall ss | AllWellFormed(ss) && Sentence(ss) == toks ensures conf' == Fold(conf, ss) {
        SentenceIsUnambiguous(ss, done);
      }
    } else {
      Rejected(toks, done, p, parser.yychar, parser.yylval);
    }
  }

  lemma Rejected(toks: seq<Lexeme>, done: seq<Statement>, p: seq<Lexeme>, code: int, text: string)
    requires AllWellFormed(done) && Partial(p) && code >= 0
    requires var read := Sentence(done) + p; |read| <= |toks| && toks[..|read|] == read
    requires code > 0 ==> |Sentence(done) + p| < |toks| && toks[|Sentence(done) + p|] == Lexeme(code, text)
    requires code > 0 ==> !MayFollow(p, Lexeme(code, text))
    requires code == 0 ==> |Sentence(done) + p| == |toks| && p != []
    requires p == [] && done != [] && done[|done| - 1].Bare? ==> code != EQUALS
    ensures GoesWrongAfter(toks, done, p) && !Grammatical(toks)
  {
    hide Sentence, MayFollow, Partial, Grammatical, AllWellFormed;
    var read := Sentence(done) + p;
    CanGoOn(done, p);
    if code == 0 {
      assert toks == read;
      CannotStop(done, p);
    } else {
      OnlyTheseFollow(done, p, Lexeme(code, text));
      assert toks[..|read| + 1] == read + [Lexeme(code, text)];
      assert toks == toks[..|read| + 1] + toks[|read| + 1..];
    }
  }
}
