/** The scanner's buffer and its matching loop (language-scanner.c), for any tables of the kind
    flex makes. Reads may be cut up in any way; a token that runs into the end of the buffer is
    moved to its front, more text is read behind it, and the token is scanned again. */
module Scanner {

  const NUL := '\0'
  const YY_READ_BUF_SIZE := 8192

  // ----- the automaton

  /** The compressed tables. `rank` is no table: it says why the chain of defaults ends. */
  datatype Tables = Tables(
    base: int -> int, def: int -> int, chk: int -> int, nxt: int -> int, meta: int -> int, ec: char -> int,
    accept: int -> int, classes: int, templates: int, jamBase: int, jam: int, start: int, rank: int -> nat)

  /** The state's own entry for the class, as opposed to that of a default. */
  predicate Own(t: Tables, s: int, c: int) {
    t.chk(t.base(s) + c) == s
  }

  predicate IsClass(t: Tables, c: int) {
    0 <= c < t.classes
  }

  ghost predicate ChainsEnd(t: Tables) {
    && (forall s, c :: IsClass(t, c) && !Own(t, s, c) ==> t.rank(t.def(s)) < t.rank(s))
    && (forall ch :: IsClass(t, t.ec(ch))) && IsClass(t, 1)
    && (forall c :: IsClass(t, c) ==> IsClass(t, t.meta(c)))
  }

  /** The transition on a character class. */
  ghost function Next(t: Tables, s: int, c: int): int
    requires ChainsEnd(t) && IsClass(t, c)
    decreases t.rank(s)
  {
    if Own(t, s, c) then t.nxt(t.base(s) + c)
    else Next(t, t.def(s), if t.def(s) >= t.templates then t.meta(c) else c)
  }

  /** The tables hold the transitions `delta` of an automaton: a state's own entries are its
      transitions, and for the other classes it has those of its default, on the class that stands
      for the class among the templates if the default is one. */
  ghost predicate Compresses(t: Tables, delta: (int, int) -> int) {
    && (forall s, c :: IsClass(t, c) && Own(t, s, c) ==> delta(s, c) == t.nxt(t.base(s) + c))
    && (forall s, c :: IsClass(t, c) && !Own(t, s, c) ==>
          delta(s, c) == delta(t.def(s), if t.def(s) >= t.templates then t.meta(c) else c))
  }

  /** Then following the chain of defaults finds them. */
  lemma {:induction false} NextIsDelta(t: Tables, delta: (int, int) -> int, s: int, c: int)
    requires ChainsEnd(t) && IsClass(t, c) && Compresses(t, delta)
    ensures Next(t, s, c) == delta(s, c)
    decreases t.rank(s)
  {
    if !Own(t, s, c) {
      NextIsDelta(t, delta, t.def(s), if t.def(s) >= t.templates then t.meta(c) else c);
    }
  }

  /** The class of a character; that of NUL is 1, to tell it from the end-of-buffer mark. */
  function ClassOf(t: Tables, ch: char): (c: int)
    ensures ChainsEnd(t) ==> IsClass(t, c)
  {
    if ch == NUL then 1 else t.ec(ch)
  }

  ghost function Step(t: Tables, s: int, ch: char): int
    requires ChainsEnd(t)
  {
    Next(t, s, ClassOf(t, ch))
  }

  /** A character takes the automaton where its class does; a NUL in the text counts as class 1. */
  lemma {:induction false} StepIsDelta(t: Tables, delta: (int, int) -> int, s: int, ch: char)
    requires ChainsEnd(t) && Compresses(t, delta)
    ensures Step(t, s, ch) == delta(s, if ch == '\0' then 1 else t.ec(ch))
  {
    NextIsDelta(t, delta, s, ClassOf(t, ch));
  }

  ghost function Run(t: Tables, x: seq<char>): int
    requires ChainsEnd(t)
  {
    if x == [] then t.start else Step(t, Run(t, x[..|x| - 1]), x[|x| - 1])
  }

  ghost predicate Accepts(t: Tables, x: seq<char>)
    requires ChainsEnd(t)
  {
    t.accept(Run(t, x)) != 0
  }

  /** What flex guarantees: a state with the jam base goes nowhere but to the jam state, which
      does not accept; no rule matches the empty text; and, thanks to the default rule, some rule
      matches any one character. */
  ghost predicate FlexMade(t: Tables) {
    && ChainsEnd(t)
    && t.accept(t.jam) == 0 && t.base(t.jam) == t.jamBase
    && t.accept(t.start) == 0 && t.base(t.start) != t.jamBase
    && (forall s, ch :: t.base(s) == t.jamBase ==> Step(t, s, ch) == t.jam)
    && (forall ch :: t.accept(Step(t, t.start, ch)) != 0)
  }

  /** The first n characters of x are its longest token. */
  ghost predicate Longest(t: Tables, x: seq<char>, n: nat)
    requires ChainsEnd(t)
  {
    1 <= n <= |x| && Accepts(t, x[..n]) && forall m :: n < m <= |x| ==> !Accepts(t, x[..m])
  }

  /** Tables for the rule that matches any one character: state 1 starts, state 2 accepts, state 3 is
      the jam. States 2 and 3 have no entries but through state 4. */
  function AnyCharacter(): Tables {
    Tables(s => if s == 1 then 10 else if s == 4 then 20 else 30, _ => 4,
           i => if 20 <= i < 22 then 4 else 1,
           i => if 10 <= i < 12 then 2 else 3,
           c => c, _ => 1, s => if s == 2 then 1 else 0, 2, 5, 30, 3, 1,
           s => if s == 1 || s == 4 then 0 else 1)
  }

  lemma FlexMadeTablesExist()
    ensures FlexMade(AnyCharacter())
  {
    var t := AnyCharacter();
    forall s, c | IsClass(t, c) && !Own(t, s, c) ensures t.rank(t.def(s)) < t.rank(s) {
    }
    assert ChainsEnd(t);
    forall s, ch | t.base(s) == t.jamBase ensures Step(t, s, ch) == t.jam {
      assert !Own(t, s, 1) && Own(t, 4, 1);
      assert Next(t, s, 1) == Next(t, 4, 1) == 3;
    }
    assert Own(t, 1, 1);
  }

  lemma LongestIsUnique(t: Tables, x: seq<char>, n: nat, n': nat)
    requires ChainsEnd(t) && Longest(t, x, n) && Longest(t, x, n')
    ensures n == n'
  {
  }

  lemma RunStep(t: Tables, x: seq<char>, n: nat)
    requires ChainsEnd(t) && n < |x|
    ensures Run(t, x[..n + 1]) == Step(t, Run(t, x[..n]), x[n])
  {
    assert x[..n + 1][..n] == x[..n];
  }

  lemma {:induction false} Jammed(t: Tables, x: seq<char>, n: nat, m: nat)
    requires FlexMade(t) && n < m <= |x| && t.base(Run(t, x[..n])) == t.jamBase
    ensures Run(t, x[..m]) == t.jam
    decreases m
  {
    hide Run, ChainsEnd;
    assert ChainsEnd(t);
    RunStep(t, x, m - 1);
    if n < m - 1 {
      Jammed(t, x, n, m - 1);
    }
  }

  /** The last length below n at which x was a token; 0 if there is none. */
  ghost function LastAccept(t: Tables, x: seq<char>, n: nat): (k: nat)
    requires ChainsEnd(t) && n <= |x|
    ensures k == 0 || k < n
    ensures k > 0 ==> Accepts(t, x[..k])
    ensures forall m :: k < m < n ==> m > 0 && !Accepts(t, x[..m])
  {
    if n <= 1 then 0 else if Accepts(t, x[..n - 1]) then n - 1 else LastAccept(t, x, n - 1)
  }

  lemma OneCharacterMatches(t: Tables, x: seq<char>)
    requires FlexMade(t) && x != []
    ensures Accepts(t, x[..1])
  {
    RunStep(t, x, 0);
    assert x[..0] == [];
  }

  /** The token found when the automaton cannot go on after n characters. */
  lemma FoundLongest(t: Tables, x: seq<char>, n: nat)
    requires FlexMade(t) && 1 <= n <= |x|
    requires forall m :: n < m <= |x| ==> !Accepts(t, x[..m])
    ensures Longest(t, x, if Accepts(t, x[..n]) then n else LastAccept(t, x, n))
    ensures !Accepts(t, x[..n]) ==> LastAccept(t, x, n) > 0
  {
    OneCharacterMatches(t, x);
  }

  // ----- the scanner

  datatype Refill = EndOfFile | ContinueScan | LastMatch

  class Yy {
    const t: Tables
    ghost const input: seq<char>
    var buf: array<char>          // yy_ch_buf, with two cells for the end-of-buffer marks
    var bufSize: nat
    var nChars: nat
    var bp: nat                   // where the token starts: yytext_ptr
    var cp: nat                   // yy_c_buf_p
    var unread: seq<char>         // what is left of the file
    const chunk: nat -> nat       // how much the n-th read would like to return
    var readCount: nat
    var eofPending: bool
    var state: int
    var lastState: int
    var lastPos: nat
    ghost var past: seq<char>     // the text of the tokens so far

    ghost predicate Shape()
      reads this, buf
    {
      && buf.Length == bufSize + 2 && bufSize > 0
      && bp <= nChars <= bufSize && buf[nChars] == NUL && buf[nChars + 1] == NUL
      && (eofPending ==> unread == [])
    }

    /** The text from the start of the token on. */
    ghost function Rest(): seq<char>
      reads this, buf
      requires Shape()
    {
      buf[bp..nChars] + unread
    }

    ghost predicate Valid()
      reads this, buf
    {
      Shape() && FlexMade(t) && input == past + Rest()
    }

    constructor (t: Tables, input: seq<char>, size: nat, chunk: nat -> nat)
      requires FlexMade(t) && size > 0
      ensures Valid() && past == [] && fresh(buf) && this.t == t && this.input == input && this.chunk == chunk
    {
      this.t, this.input, this.chunk := t, input, chunk;
      bufSize, nChars, bp, cp, unread, readCount, eofPending := size, 0, 0, 0, input, 0, false;
      state, lastState, lastPos, past := t.start, 0, 0, [];
      buf := new char[size + 2](_ => NUL);
    }

    /** YY_INPUT: some of the text, none only at the end of the file. */
    method Input(at: nat, max: nat) returns (k: nat)
      requires 0 < max && at + max <= buf.Length
      modifies this`unread, this`readCount, buf
      ensures k <= max && k <= |old(unread)| && (k == 0 <==> old(unread) == [])
      ensures unread == old(unread)[k..]
      ensures forall i :: 0 <= i < buf.Length ==>
                            buf[i] == if at <= i < at + k then old(unread)[i - at] else old(buf[i])
    {
      var text := unread;
      k := chunk(readCount);
      readCount := readCount + 1;
      if k == 0 {
        k := 1;
      }
      if k > max {
        k := max;
      }
      if k > |text| {
        k := |text|;
      }
      unread := text[k..];
      for i := 0 to k
        invariant unread == text[k..]
        invariant forall j :: 0 <= j < buf.Length ==> buf[j] == if at <= j < at + i then text[j - at] else old(buf[j])
      {
        buf[at + i] := text[i];
      }
    }

    /** The buffer grows until there is room behind the text that is kept. */
    method Grow(keep: nat) returns (room: nat)
      requires buf.Length == bufSize + 2 && 0 < bufSize && keep <= bufSize
      modifies this`buf, this`bufSize
      ensures buf.Length == bufSize + 2 && bufSize > 0 && keep + room + 1 == bufSize && room > 0
      ensures buf == old(buf) || fresh(buf)
      ensures forall i :: 0 <= i < keep ==> buf[i] == old(buf[i])
    {
      while bufSize < keep + 2
        invariant buf.Length == bufSize + 2 && 0 < bufSize && keep <= bufSize
        invariant buf == old(buf) || fresh(buf)
        invariant forall i :: 0 <= i < keep ==> buf[i] == old(buf[i])
        decreases keep + 2 - bufSize
      {
        bufSize := bufSize * 2;
        var b := buf;
        buf := new char[bufSize + 2](i reads b => if 0 <= i < b.Length then b[i] else NUL);
      }
      room := bufSize - keep - 1;
    }

    /** The text of the unfinished token moves to the front of the buffer. */
    method MoveToFront(keep: nat)
      requires bp + keep <= buf.Length
      modifies buf
      ensures forall i :: 0 <= i < keep ==> buf[i] == old(buf[bp + i])
    {
      for i := 0 to keep
        invariant forall j :: 0 <= j < i ==> buf[j] == old(buf[bp + j])
        invariant forall j :: i <= j < buf.Length ==> buf[j] == old(buf[j])
      {
        buf[i] := buf[bp + i];
      }
    }

    /** Read behind the text that is kept. */
    method Fill(keep: nat) returns (n: nat)
      requires buf.Length == bufSize + 2 && 0 < bufSize && keep <= bufSize
      modifies this`buf, this`bufSize, this`unread, this`readCount, buf
      ensures buf.Length == bufSize + 2 && bufSize > 0 && keep + n < bufSize && (buf == old(buf) || fresh(buf))
      ensures n <= |old(unread)| && (n == 0 <==> old(unread) == []) && unread == old(unread)[n..]
      ensures forall i :: 0 <= i < keep ==> buf[i] == old(buf[i])
      ensures forall i :: keep <= i < keep + n ==> buf[i] == old(unread)[i - keep]
    {
      var room := Grow(keep);
      if room > YY_READ_BUF_SIZE {
        room := YY_READ_BUF_SIZE;
      }
      n := Input(keep, room);
    }

    /** yy_get_next_buffer, when the end-of-buffer mark has just been passed. */
    method GetNextBuffer() returns (r: Refill)
      requires Shape() && cp == nChars + 1
      modifies this, buf
      ensures Shape() && Rest() == old(Rest()) && bp == 0 && (buf == old(buf) || fresh(buf))
      ensures past == old(past) && |unread| <= |old(unread)|
      ensures r == EndOfFile <==> Rest() == []
      ensures r == LastMatch ==> unread == [] && nChars == old(nChars) - old(bp)
      ensures r == ContinueScan ==> |unread| < |old(unread)| && nChars > old(nChars) - old(bp)
    {
      var keep := cp - bp - 1;
      ghost var text, file := buf[bp..nChars], unread;
      MoveToFront(keep);
      var n := 0;
      if !eofPending {
        n := Fill(keep);
      }
      if n == 0 {
        r := if keep == 0 then EndOfFile else LastMatch;
        eofPending := keep != 0;
      } else {
        r := ContinueScan;
      }
      nChars := n + keep;
      buf[nChars] := NUL;
      buf[nChars + 1] := NUL;
      bp := 0;
      Refilled(text, file, n, buf[0..nChars], unread);
    }

    // ----- matching

    /** The transition loop. */
    method Advance(s: int, c: int) returns (s': int)
      requires ChainsEnd(t) && IsClass(t, c)
      ensures s' == Next(t, s, c)
    {
      var q, k := s, c;
      while t.chk(t.base(q) + k) != q
        invariant IsClass(t, k) && Next(t, q, k) == Next(t, s, c)
        decreases t.rank(q)
      {
        assert !Own(t, q, k);
        q := t.def(q);
        if q >= t.templates {
          k := t.meta(k);
        }
      }
      assert Own(t, q, k);
      s' := t.nxt(t.base(q) + k);
    }

    /** The automaton has read n characters of x, and the last token among them is on record. */
    ghost predicate Tracks(x: seq<char>, n: nat)
      reads this
      requires ChainsEnd(t) && n <= |x|
    {
      && state == Run(t, x[..n])
      && (var k := LastAccept(t, x, n); k > 0 ==> lastPos == bp + k && lastState == Run(t, x[..k]))
    }

    /** One turn of the loop: put an accepting state on record, then go on to the next. */
    method Take(pos: nat, ch: char, ghost x: seq<char>)
      requires FlexMade(t) && bp <= pos && pos - bp < |x| && x[pos - bp] == ch && Tracks(x, pos - bp)
      modifies this`state, this`lastState, this`lastPos
      ensures Tracks(x, pos - bp + 1)
    {
      hide Run, Next, LastAccept;
      RunStep(t, x, pos - bp);
      LastAcceptStep(t, x, pos - bp);
      if t.accept(state) != 0 {
        lastState := state;
        lastPos := pos;
      }
      state := Advance(state, ClassOf(t, ch));
    }

    /** yy_get_previous_state: the token scanned again up to cp. */
    method GetPreviousState(ghost x: seq<char>)
      requires FlexMade(t) && bp <= cp <= buf.Length && cp - bp <= |x| && buf[bp..cp] == x[..cp - bp]
      modifies this`state, this`lastState, this`lastPos
      ensures Tracks(x, cp - bp)
    {
      hide Run, LastAccept, ChainsEnd;
      assert ChainsEnd(t);
      TracksNothing(t, x);
      state := t.start;
      var pos := bp;
      while pos < cp
        invariant bp <= pos <= cp && Tracks(x, pos - bp)
      {
        assert buf[bp..cp][pos - bp] == x[pos - bp];
        Take(pos, buf[pos], x);
        pos := pos + 1;
      }
    }

    /** The matching loop, to the end-of-buffer mark or a NUL, or to a state that goes nowhere. */
    method Match(ghost x: seq<char>) returns (eob: bool)
      requires Shape() && FlexMade(t) && bp <= cp <= nChars && buf[bp..nChars] <= x && Tracks(x, cp - bp)
      modifies this`cp, this`state, this`lastState, this`lastPos
      ensures old(cp) < cp <= nChars + 1
      ensures eob ==> buf[cp - 1] == NUL
      ensures !eob ==> cp <= nChars && Tracks(x, cp - bp) && t.base(state) == t.jamBase
    {
      hide Run, LastAccept, ChainsEnd;
      assert ChainsEnd(t);
      while true
        invariant old(cp) <= cp <= nChars && Tracks(x, cp - bp)
        decreases nChars - cp
      {
        var ch := buf[cp];
        if ch == NUL {
          cp := cp + 1;
          return true;
        }
        assert x[cp - bp] == buf[bp..nChars][cp - bp] == ch;
        Take(cp, ch, x);
        cp := cp + 1;
        if t.base(state) == t.jamBase {
          return false;
        }
      }
    }

    /** yy_find_action: the action of the state reached, or of the last one on record. */
    method FindAction(ghost x: seq<char>) returns (act: int, leng: nat)
      requires Valid() && x == Rest() && bp < cp <= nChars && Tracks(x, cp - bp)
      requires forall m :: cp - bp < m <= |x| ==> !Accepts(t, x[..m])
      modifies this`cp, this`state, this`bp, this`past
      ensures Valid() && Found(x, old(past), act, leng)
    {
      hide Run, LastAccept, ChainsEnd, FlexMade;
      assert ChainsEnd(t) by {
        Made(t);
      }
      FoundLongest(t, x, cp - bp);
      act := t.accept(state);
      if act == 0 {
        cp := lastPos;
        state := lastState;
        act := t.accept(state);
      }
      leng := cp - bp;
      Consumed(buf[bp..nChars], unread, leng, past);
      assert buf[bp..nChars][leng..] == buf[cp..nChars];
      past := past + x[..leng];
      bp := cp;
    }

    /** The token of x that was found, and where that leaves the scanner. */
    ghost predicate Found(x: seq<char>, before: seq<char>, act: int, leng: nat)
      reads this, buf
    {
      && Valid() && Longest(t, x, leng) && act == t.accept(Run(t, x[..leng])) && act != 0
      && Rest() == x[leng..] && past == before + x[..leng]
    }

    /** In the middle of a token of x. */
    ghost predicate Scanning(x: seq<char>)
      reads this, buf
    {
      Valid() && Rest() == x && bp <= cp <= nChars && cp - bp <= |x| && Tracks(x, cp - bp)
    }

    /** One call of the scanner: 0 at the end of the file, else the action of the longest token of
        the text that is left, however the file was read. */
    method NextToken() returns (act: int, leng: nat)
      requires Valid()
      modifies this, buf
      ensures Valid() && (buf == old(buf) || fresh(buf))
      ensures act == 0 <==> old(Rest()) == []
      ensures act != 0 ==> Found(old(Rest()), old(past), act, leng)
    {
      hide Run, LastAccept, ChainsEnd, FlexMade, Shape;
      ghost var x := Rest();
      Begin(x);
      var done := false;
      act, leng := 0, 0;
      while !done
        invariant buf == old(buf) || fresh(buf)
        invariant !done ==> Scanning(x) && past == old(past)
        invariant done ==> Valid() && (act == 0 <==> x == []) && (act != 0 ==> Found(x, old(past), act, leng))
        decreases !done, |unread|, |x| - (cp - bp)
      {
        done, act, leng := ScanOn(x);
      }
    }

    method Begin(ghost x: seq<char>)
      requires Valid() && Rest() == x
      modifies this`cp, this`state
      ensures Scanning(x)
    {
      hide Run, LastAccept, ChainsEnd;
      TracksNothing(t, x);
      cp := bp;
      state := t.start;
    }

    /** To the next end-of-buffer mark or the end of the token. */
    method ScanOn(ghost x: seq<char>) returns (done: bool, act: int, leng: nat)
      requires Scanning(x)
      modifies this, buf
      ensures buf == old(buf) || fresh(buf)
      ensures !done ==> Scanning(x) && past == old(past)
      ensures !done ==> |unread| < |old(unread)| || (unread == old(unread) && cp - bp > old(cp) - old(bp))
      ensures done ==> Valid() && (act == 0 <==> x == []) && (act != 0 ==> Found(x, old(past), act, leng))
    {
      hide Run, LastAccept, ChainsEnd, FlexMade;
      done, act, leng := true, 0, 0;
      var eob := Match(x);
      if !eob {
        NoneBeyond(t, x, cp - bp);
        act, leng := FindAction(x);
        return;
      }
      if cp <= nChars {
        done, act, leng := AtNul(x);
      } else {
        done, act, leng := AtEnd(x);
      }
    }

    /** The mark is a NUL in the text: it may be part of the token. */
    method AtNul(ghost x: seq<char>) returns (done: bool, act: int, leng: nat)
      requires Valid() && Rest() == x && bp < cp <= nChars && buf[cp - 1] == NUL
      modifies this
      ensures buf == old(buf)
      ensures !done ==> Scanning(x) && past == old(past) && unread == old(unread) && cp == old(cp) && bp == old(bp)
      ensures done ==> act != 0 && Found(x, old(past), act, leng)
    {
      hide Run, LastAccept, ChainsEnd, FlexMade;
      done, act, leng := false, 0, 0;
      cp := cp - 1;
      assert buf[bp..cp] == x[..cp - bp];
      GetPreviousState(x);
      var more := TakeNul(x);
      if !more {
        done := true;
        act, leng := FindAction(x);
      }
    }

    /** The mark is the end of what the buffer holds. */
    method AtEnd(ghost x: seq<char>) returns (done: bool, act: int, leng: nat)
      requires Valid() && Rest() == x && cp == nChars + 1
      modifies this, buf
      ensures buf == old(buf) || fresh(buf)
      ensures !done ==> Scanning(x) && past == old(past) && |unread| < |old(unread)|
      ensures done ==> Valid() && (act == 0 <==> x == []) && (act != 0 ==> Found(x, old(past), act, leng))
    {
      hide Run, LastAccept, ChainsEnd, FlexMade;
      done, act, leng := true, 0, 0;
      var amount := cp - bp - 1;
      var r := GetNextBuffer();
      if r == EndOfFile {
        return;
      }
      cp := if r == LastMatch then nChars else bp + amount;
      assert buf[bp..cp] == x[..cp - bp];
      GetPreviousState(x);
      if r == LastMatch {
        act, leng := FindAction(x);
      } else {
        done := false;
      }
    }

    /** yy_try_NUL_trans, and the move past the NUL if it is part of the token. */
    method TakeNul(ghost x: seq<char>) returns (more: bool)
      requires Valid() && x == Rest() && bp <= cp < nChars && buf[cp] == NUL && Tracks(x, cp - bp)
      modifies this`cp, this`state, this`lastState, this`lastPos
      ensures more ==> cp == old(cp) + 1 && Tracks(x, cp - bp)
      ensures !more ==> cp == old(cp) > bp && Tracks(x, cp - bp)
      ensures !more ==> forall m :: cp - bp < m <= |x| ==> !Accepts(t, x[..m])
    {
      hide Run, LastAccept, ChainsEnd, FlexMade;
      Made(t);
      assert x[cp - bp] == NUL;
      RunStep(t, x, cp - bp);
      var s := Advance(state, ClassOf(t, NUL));
      more := s != t.jam;
      if more {
        Take(cp, NUL, x);
        cp := cp + 1;
      } else {
        JamBeyond(t, x, cp - bp);
      }
    }
  }

  lemma Consumed(text: seq<char>, file: seq<char>, n: nat, before: seq<char>)
    requires n <= |text|
    ensures (text + file)[n..] == text[n..] + file
    ensures before + (text + file) == before + (text + file)[..n] + (text[n..] + file)
  {
  }

  lemma Made(t: Tables)
    requires FlexMade(t)
    ensures ChainsEnd(t) && t.accept(t.start) == 0
  {
  }

  lemma NoneBeyond(t: Tables, x: seq<char>, n: nat)
    requires FlexMade(t) && n <= |x| && t.base(Run(t, x[..n])) == t.jamBase
    ensures forall m :: n < m <= |x| ==> !Accepts(t, x[..m])
  {
    forall m | n < m <= |x| ensures !Accepts(t, x[..m]) {
      Jammed(t, x, n, m);
    }
  }

  lemma JamBeyond(t: Tables, x: seq<char>, n: nat)
    requires FlexMade(t) && n < |x| && Run(t, x[..n + 1]) == t.jam
    ensures n > 0
    ensures forall m :: n < m <= |x| ==> !Accepts(t, x[..m])
  {
    OneCharacterMatches(t, x);
    NoneBeyond(t, x, n + 1);
  }

  lemma LastAcceptStep(t: Tables, x: seq<char>, n: nat)
    requires FlexMade(t) && n < |x|
    ensures n == 0 ==> !Accepts(t, x[..n])
    ensures LastAccept(t, x, n + 1) == if Accepts(t, x[..n]) then n else LastAccept(t, x, n)
  {
  }

  lemma TracksNothing(t: Tables, x: seq<char>)
    requires FlexMade(t)
    ensures Run(t, x[..0]) == t.start && LastAccept(t, x, 0) == 0
  {
  }

  lemma Refilled(text: seq<char>, file: seq<char>, n: nat, text': seq<char>, file': seq<char>)
    requires n <= |file| && |text'| == |text| + n && file' == file[n..]
    requires forall i :: 0 <= i < |text| ==> text'[i] == text[i]
    requires forall i :: |text| <= i < |text'| ==> text'[i] == file[i - |text|]
    ensures text' + file' == text + file
  {
    assert text' == text + file[..n];
  }

  // ----- whole files

  datatype Token = Token(act: int, leng: nat)

  /** The first tokens of x, each the longest there is where it starts, with `rest` left. */
  ghost predicate TokensUpTo(t: Tables, x: seq<char>, toks: seq<Token>, rest: seq<char>)
    requires ChainsEnd(t)
    decreases |toks|
  {
    if toks == [] then x == rest
    else
      var n := toks[0].leng;
      Longest(t, x, n) && toks[0].act == t.accept(Run(t, x[..n])) && TokensUpTo(t, x[n..], toks[1..], rest)
  }

  /** The tokens of x. */
  ghost predicate TokensOf(t: Tables, x: seq<char>, toks: seq<Token>)
    requires ChainsEnd(t)
  {
    TokensUpTo(t, x, toks, [])
  }

  lemma {:induction false} TokensAreUnique(t: Tables, x: seq<char>, toks: seq<Token>, toks': seq<Token>)
    requires ChainsEnd(t) && TokensOf(t, x, toks) && TokensOf(t, x, toks')
    ensures toks == toks'
    decreases |toks|
  {
    hide ChainsEnd, Run;
    if toks != [] && toks' != [] {
      LongestIsUnique(t, x, toks[0].leng, toks'[0].leng);
      TokensAreUnique(t, x[toks[0].leng..], toks[1..], toks'[1..]);
      assert toks == [toks[0]] + toks[1..] && toks' == [toks'[0]] + toks'[1..];
    }
  }

  lemma {:induction false} TokensSnoc(t: Tables, x: seq<char>, rest: seq<char>, toks: seq<Token>, tok: Token)
    requires ChainsEnd(t) && TokensUpTo(t, x, toks, rest)
    requires Longest(t, rest, tok.leng) && tok.act == t.accept(Run(t, rest[..tok.leng]))
    ensures TokensUpTo(t, x, toks + [tok], rest[tok.leng..])
    decreases |toks|
  {
    hide ChainsEnd, Run;
    if toks == [] {
      assert [tok][1..] == [];
    } else {
      assert (toks + [tok])[1..] == toks[1..] + [tok];
      TokensSnoc(t, x[toks[0].leng..], rest, toks[1..], tok);
    }
  }

  /** A file is cut into the same tokens whatever the size of the buffer and however its reads are
      cut up: they are fixed by the text alone. */
  method Tokenize(t: Tables, input: seq<char>, size: nat, chunk: nat -> nat) returns (toks: seq<Token>)
    requires FlexMade(t) && size > 0
    ensures TokensOf(t, input, toks)
    ensures forall toks' :: TokensOf(t, input, toks') ==> toks' == toks
  {
    hide ChainsEnd, Run, FlexMade;
    Made(t);
    var yy := new Yy(t, input, size, chunk);
    toks := [];
    assert input == [] + yy.Rest() == yy.Rest();
    var act, leng := yy.NextToken();
    ghost var rest := input;
    while act != 0
      invariant fresh(yy) && fresh(yy.buf) && yy.t == t && yy.Valid()
      invariant TokensUpTo(t, input, toks, rest)
      invariant act == 0 <==> rest == []
      invariant act != 0 ==> Longest(t, rest, leng) && act == t.accept(Run(t, rest[..leng]))
      invariant act != 0 ==> yy.Rest() == rest[leng..]
      decreases |rest|
    {
      TokensSnoc(t, input, rest, toks, Token(act, leng));
      toks := toks + [Token(act, leng)];
      rest := rest[leng..];
      act, leng := yy.NextToken();
    }
    forall toks' | TokensOf(t, input, toks') ensures toks' == toks {
      TokensAreUnique(t, input, toks, toks');
    }
  }
}
