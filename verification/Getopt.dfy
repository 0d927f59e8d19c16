/** The option scanner (getopt.c). Its state between calls, which argument it is in and where, is
    tied here to the list of options still to come. */
module Getopt {

  datatype Reason = Colon | NotFound | NoArgument

  datatype Item = Flag(c: char) | WithArgument(c: char, arg: string) | Wrong(c: char, why: Reason)

  // ----- the arguments as a list of options

  function Find(optstr: string, c: char): (j: nat)
    ensures j <= |optstr|
    ensures j < |optstr| <==> c in optstr
    ensures j < |optstr| ==> optstr[j] == c
    ensures forall i :: 0 <= i < j ==> optstr[i] != c
  {
    if optstr == "" || optstr[0] == c then 0 else 1 + Find(optstr[1..], c)
  }

  predicate TakesArgument(optstr: string, c: char) {
    var j := Find(optstr, c);
    j + 1 < |optstr| && optstr[j + 1] == ':'
  }

  /** A letter takes an argument if a colon stands behind its first occurrence among the letters. */
  lemma {:induction false} TakesArgumentIs(a: string, c: char, b: string)
    requires c !in a
    ensures TakesArgument(a + [c] + b, c) <==> b != "" && b[0] == ':'
  {
    var s := a + [c] + b;
    assert s[|a|] == c;
    assert Find(s, c) == |a|;
  }

  /** An argument that holds option letters: a dash, and then something other than a dash. */
  predicate IsCluster(a: string) {
    |a| > 1 && a[0] == '-' && a[1] != '-'
  }

  /** The options in the arguments from the i-th on. */
  function Items(argv: seq<string>, i: nat, optstr: string): seq<Item>
    decreases |argv| - i, if i < |argv| then |argv[i]| else 0, 1
  {
    if i < |argv| && IsCluster(argv[i]) then Letters(argv, i, 1, optstr) else []
  }

  /** The options from the k-th letter of the i-th argument on. An option that takes an argument
      takes the whole next one, and a colon or such an option makes the letters after it void. */
  function Letters(argv: seq<string>, i: nat, k: nat, optstr: string): seq<Item>
    requires i < |argv| && k < |argv[i]|
    decreases |argv| - i, |argv[i]| - k, 0
  {
    var c := argv[i][k];
    if c == ':' then [Wrong(c, Colon)] + Items(argv, i + 1, optstr)
    else if c !in optstr then [Wrong(c, NotFound)] + More(argv, i, k, optstr)
    else if !TakesArgument(optstr, c) then [Flag(c)] + More(argv, i, k, optstr)
    else if i + 1 == |argv| then [Wrong(c, NoArgument)]
    else [WithArgument(c, argv[i + 1])] + Items(argv, i + 2, optstr)
  }

  function More(argv: seq<string>, i: nat, k: nat, optstr: string): seq<Item>
    requires i < |argv| && k < |argv[i]|
    decreases |argv| - i, |argv[i]| - k - 1, 1
  {
    if k + 1 < |argv[i]| then Letters(argv, i, k + 1, optstr) else Items(argv, i + 1, optstr)
  }

  /** The first argument from the i-th on that is neither options nor an option's argument. */
  function Stop(argv: seq<string>, i: nat, optstr: string): nat
    decreases |argv| - i, if i < |argv| then |argv[i]| else 0, 1
  {
    if i < |argv| && IsCluster(argv[i]) then StopLetters(argv, i, 1, optstr) else i
  }

  function StopLetters(argv: seq<string>, i: nat, k: nat, optstr: string): nat
    requires i < |argv| && k < |argv[i]|
    decreases |argv| - i, |argv[i]| - k, 0
  {
    var c := argv[i][k];
    if c == ':' then Stop(argv, i + 1, optstr)
    else if c !in optstr || !TakesArgument(optstr, c) then StopMore(argv, i, k, optstr)
    else if i + 1 == |argv| then i + 1
    else Stop(argv, i + 2, optstr)
  }

  function StopMore(argv: seq<string>, i: nat, k: nat, optstr: string): nat
    requires i < |argv| && k < |argv[i]|
    decreases |argv| - i, |argv[i]| - k - 1, 1
  {
    if k + 1 < |argv[i]| then StopLetters(argv, i, k + 1, optstr) else Stop(argv, i + 1, optstr)
  }

  /** There is such an argument only if it is no cluster of options. */
  predicate StopsAt(argv: seq<string>, i: nat) {
    i < |argv| ==> !IsCluster(argv[i])
  }

  lemma {:induction false} StopStops(argv: seq<string>, i: nat, optstr: string)
    ensures Stop(argv, i, optstr) >= i && StopsAt(argv, Stop(argv, i, optstr))
    decreases |argv| - i, if i < |argv| then |argv[i]| else 0, 1
  {
    if i < |argv| && IsCluster(argv[i]) {
      LettersStop(argv, i, 1, optstr);
    }
  }

  lemma {:induction false} LettersStop(argv: seq<string>, i: nat, k: nat, optstr: string)
    requires i < |argv| && k < |argv[i]|
    ensures StopLetters(argv, i, k, optstr) > i && StopsAt(argv, StopLetters(argv, i, k, optstr))
    decreases |argv| - i, |argv[i]| - k, 0
  {
    hide TakesArgument;
    StopStops(argv, i + 1, optstr);
    if i + 1 < |argv| {
      StopStops(argv, i + 2, optstr);
    }
    if k + 1 < |argv[i]| {
      LettersStop(argv, i, k + 1, optstr);
    }
  }

  // ----- writing options and reading them back

  /** An argument's worth of options: letters that take no argument, and behind them perhaps one that
      does, with it. */
  datatype Group = Group(letters: string, last: Last)

  datatype Last = NoLast | Last(c: char, arg: string)

  predicate PlainLetter(optstr: string, c: char) {
    c != ':' && (c in optstr ==> !TakesArgument(optstr, c))
  }

  predicate GroupOk(optstr: string, g: Group) {
    && (forall i :: 0 <= i < |g.letters| ==> PlainLetter(optstr, g.letters[i]))
    && (g.last.Last? ==> g.last.c != ':' && g.last.c in optstr && TakesArgument(optstr, g.last.c))
    && IsCluster(Written(g))
  }

  /** The first argument of a group. */
  function Written(g: Group): string {
    "-" + g.letters + (if g.last.Last? then [g.last.c] else "")
  }

  function Render(gs: seq<Group>): seq<string> {
    if gs == [] then []
    else [Written(gs[0])] + (if gs[0].last.Last? then [gs[0].last.arg] else []) + Render(gs[1..])
  }

  function LetterItem(optstr: string, c: char): Item {
    if c in optstr then Flag(c) else Wrong(c, NotFound)
  }

  function LetterItems(optstr: string, letters: string): seq<Item> {
    if letters == "" then [] else [LetterItem(optstr, letters[0])] + LetterItems(optstr, letters[1..])
  }

  function GroupItems(optstr: string, g: Group): seq<Item> {
    LetterItems(optstr, g.letters) + (if g.last.Last? then [WithArgument(g.last.c, g.last.arg)] else [])
  }

  function AllItems(optstr: string, gs: seq<Group>): seq<Item> {
    if gs == [] then [] else GroupItems(optstr, gs[0]) + AllItems(optstr, gs[1..])
  }

  /** The options of a group, from its k-th letter on, and then those of the arguments behind it. */
  lemma {:induction false} GroupRead(argv: seq<string>, i: nat, k: nat, g: Group, optstr: string)
    requires GroupOk(optstr, g) && i < |argv| && argv[i] == Written(g) && 1 <= k < |argv[i]|
    requires g.last.Last? ==> i + 1 < |argv| && argv[i + 1] == g.last.arg
    ensures var next := if g.last.Last? then i + 2 else i + 1;
            && Letters(argv, i, k, optstr) ==
               GroupItems(optstr, g.(letters := g.letters[k - 1..])) + Items(argv, next, optstr)
            && StopLetters(argv, i, k, optstr) == Stop(argv, next, optstr)
    decreases |argv[i]| - k
  {
    hide Items, Stop, TakesArgument, Find;
    var ls := g.letters[k - 1..];
    if k - 1 < |g.letters| {
      assert argv[i][k] == ls[0] == g.letters[k - 1];
      assert PlainLetter(optstr, g.letters[k - 1]);
      assert g.letters[k..] == ls[1..];
      if k + 1 < |argv[i]| {
        GroupRead(argv, i, k + 1, g, optstr);
      } else {
        assert g.last.NoLast? && ls[1..] == "";
        assert LetterItems(optstr, ls) == [LetterItem(optstr, ls[0])] + LetterItems(optstr, ls[1..]);
        assert LetterItems(optstr, ls[1..]) == [];
      }
    } else {
      assert argv[i][k] == g.last.c && ls == "";
    }
  }

  /** Options written into arguments are read back, all of them and in order, and the scanner stops at
      the first argument behind them. */
  lemma {:induction false} WrittenIsRead(gs: seq<Group>, argv: seq<string>, i: nat, optstr: string)
    requires forall j :: 0 <= j < |gs| ==> GroupOk(optstr, gs[j])
    requires i + |Render(gs)| <= |argv| && argv[i..i + |Render(gs)|] == Render(gs)
    requires StopsAt(argv, i + |Render(gs)|)
    ensures Items(argv, i, optstr) == AllItems(optstr, gs)
    ensures Stop(argv, i, optstr) == i + |Render(gs)|
    decreases |gs|
  {
    hide GroupOk, GroupItems, Letters, StopLetters;
    if gs != [] {
      var g, tail, n := gs[0], Render(gs[1..]), if gs[0].last.Last? then 2 else 1;
      var all := Render(gs);
      assert argv[i] == all[0] == Written(g);
      assert n == 2 ==> argv[i + 1] == all[1] == g.last.arg;
      assert all[n..] == tail;
      assert argv[i + n..i + |all|] == argv[i..i + |all|][n..];
      assert GroupOk(optstr, g);
      Clusters(optstr, g);
      GroupRead(argv, i, 1, g, optstr);
      assert g.letters[0..] == g.letters;
      WrittenIsRead(gs[1..], argv, i + n, optstr);
    }
  }

  lemma Clusters(optstr: string, g: Group)
    requires GroupOk(optstr, g)
    ensures IsCluster(Written(g))
  {
  }

  // ----- the scanner

  datatype Answer = Eof | Option(c: char, arg: string) | Question(optopt: char, why: Reason)

  /** The answer that stands for an item. An option without argument leaves optarg as it was. */
  predicate Says(a: Answer, item: Item) {
    match item
    case Flag(c) => a.Option? && a.c == c
    case WithArgument(c, arg) => a == Option(c, arg)
    case Wrong(c, why) => a == Question(c, why)
  }

  class Scanner {
    const argv: seq<string>
    const optstr: string
    var optind: nat
    var optchr: nat
    var dash: bool
    var optarg: string

    constructor (argv: seq<string>, optstr: string)
      ensures Valid() && this.argv == argv && this.optstr == optstr && optind == 1 && !dash
    {
      this.argv, this.optstr := argv, optstr;
      optind, optchr, dash, optarg := 1, 0, false, "";
    }

    /** Once the dash is seen, optchr is a letter of the current argument. */
    ghost predicate Valid()
      reads this
    {
      dash ==> optind < |argv| && IsCluster(argv[optind]) && 1 <= optchr < |argv[optind]|
    }

    ghost function Pending(): seq<Item>
      reads this
      requires Valid()
    {
      if dash then Letters(argv, optind, optchr, optstr) else Items(argv, optind, optstr)
    }

    ghost function StopAhead(): nat
      reads this
      requires Valid()
    {
      if dash then StopLetters(argv, optind, optchr, optstr) else Stop(argv, optind, optstr)
    }

    /** The letters of the current argument that are still to come. */
    ghost function LettersLeft(): nat
      reads this
      requires Valid()
    {
      if dash then |argv[optind]| - optchr else if optind < |argv| then |argv[optind]| else 0
    }

    /** One call. At the end a double dash is passed over, anything else is left for the program. */
    method Next() returns (a: Answer)
      requires Valid()
      modifies this
      ensures Valid()
      ensures a.Eof? <==> old(Pending()) == []
      ensures !a.Eof? ==> old(Pending()) != [] && Says(a, old(Pending())[0]) && Pending() == old(Pending())[1..]
      ensures a.Option? ==> a.arg == optarg
      ensures !a.Eof? ==> optind > old(optind) || (optind == old(optind) && LettersLeft() < old(LettersLeft()))
      ensures !a.Eof? ==> StopAhead() == old(StopAhead())
      ensures a.Eof? ==> !dash && optind == AfterLast(argv, old(StopAhead()))
    {
      hide Items, Stop;
      ItemsAt(argv, optind, optstr);
      StopAt(argv, optind, optstr);
      if optind >= |argv| {
        return Eof;
      }
      var arg := argv[optind];
      if !dash && (arg == "" || arg[0] != '-') {
        return Eof;
      }
      if !dash && |arg| == 1 {
        return Eof;
      }
      if arg[0] == '-' && arg[1] == '-' {
        optind := optind + 1;
        return Eof;
      }
      if !dash {
        assert arg[0] == '-' && |arg| > 1;
        dash := true;
        optchr := 1;
      }
      a := Letter();
    }

    /** The rest of a call, on a letter. */
    method Letter() returns (a: Answer)
      requires Valid() && dash
      modifies this
      ensures Valid() && !a.Eof?
      ensures old(Pending()) != [] && Says(a, old(Pending())[0]) && Pending() == old(Pending())[1..]
      ensures a.Option? ==> a.arg == optarg
      ensures StopAhead() == old(StopAhead())
      ensures optind > old(optind) || (optind == old(optind) && dash && optchr > old(optchr))
    {
      hide Items, Stop;
      var c := argv[optind][optchr];
      if c == ':' {
        dash := false;
        optind := optind + 1;
        return Question(c, Colon);
      }
      var cp := Find(optstr, c);
      if cp == |optstr| {
        Forward();
        return Question(c, NotFound);
      }
      if cp + 1 < |optstr| && optstr[cp + 1] == ':' {
        dash := false;
        optind := optind + 1;
        if optind == |argv| {
          ItemsAt(argv, optind, optstr);
          StopAt(argv, optind, optstr);
          return Question(c, NoArgument);
        }
        optarg := argv[optind];
        optind := optind + 1;
        return Option(c, optarg);
      }
      Forward();
      a := Option(c, optarg);
    }

    /** To the next letter, or out of the argument. */
    method Forward()
      requires Valid() && dash
      modifies this`dash, this`optind, this`optchr
      ensures Valid() && Pending() == More(argv, old(optind), old(optchr), optstr)
      ensures StopAhead() == StopMore(argv, old(optind), old(optchr), optstr)
      ensures optind > old(optind) || (optind == old(optind) && dash && optchr > old(optchr))
    {
      if optchr + 1 == |argv[optind]| {
        dash := false;
        optind := optind + 1;
      } else {
        optchr := optchr + 1;
      }
    }
  }

  /** A double dash is passed over. */
  function AfterLast(argv: seq<string>, i: nat): nat {
    if i < |argv| && |argv[i]| > 1 && argv[i][0] == '-' && argv[i][1] == '-' then i + 1 else i
  }

  lemma ItemsAt(argv: seq<string>, i: nat, optstr: string)
    ensures Items(argv, i, optstr) == if i < |argv| && IsCluster(argv[i]) then Letters(argv, i, 1, optstr) else []
  {
  }

  lemma StopAt(argv: seq<string>, i: nat, optstr: string)
    ensures Stop(argv, i, optstr) == if i < |argv| && IsCluster(argv[i]) then StopLetters(argv, i, 1, optstr) else i
  {
  }

  /** The loop of the command line: it ends for every argument list, the answers are the options in
      the arguments, in order, and what is left begins behind them, at the first argument that is no
      cluster of options, or behind that one if it is a double dash. */
  method Collect(argv: seq<string>, optstr: string) returns (answers: seq<Answer>, optind: nat)
    ensures |answers| == |Items(argv, 1, optstr)|
    ensures forall i :: 0 <= i < |answers| ==> Says(answers[i], Items(argv, 1, optstr)[i])
    ensures optind == AfterLast(argv, Stop(argv, 1, optstr)) && StopsAt(argv, Stop(argv, 1, optstr))
  {
    hide Items, Letters, Stop, StopLetters;
    var s := new Scanner(argv, optstr);
    ghost var all := Items(argv, 1, optstr);
    answers := [];
    var a := s.Next();
    ghost var left := all;
    while !a.Eof?
      invariant fresh(s) && s.Valid() && s.argv == argv && s.optstr == optstr
      invariant |answers| + |left| == |all| && left == all[|answers|..]
      invariant forall i :: 0 <= i < |answers| ==> Says(answers[i], all[i])
      invariant a.Eof? <==> left == []
      invariant !a.Eof? ==> Says(a, left[0]) && s.Pending() == left[1..] && s.StopAhead() == Stop(argv, 1, optstr)
      invariant a.Eof? ==> s.optind == AfterLast(argv, Stop(argv, 1, optstr))
      decreases |left|
    {
      answers := answers + [a];
      left := left[1..];
      a := s.Next();
    }
    optind := s.optind;
    StopStops(argv, 1, optstr);
  }
}
