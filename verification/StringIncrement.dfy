/** Perl-style string increment (increment_string in operators.c). */
module StringIncrement {

  // ----- characters as digits

  datatype Class = Lower | Upper | Numeric | Other

  function ClassOf(c: char): Class {
    if 'a' <= c <= 'z' then Lower else if 'A' <= c <= 'Z' then Upper else if '0' <= c <= '9' then Numeric else Other
  }

  function Zero(k: Class): char {
    match k
    case Lower => 'a'
    case Upper => 'A'
    case _ => '0'
  }

  function Radix(k: Class): nat {
    if k == Numeric then 10 else 26
  }

  function Digit(c: char): (d: nat)
    ensures ClassOf(c) != Other ==> d < Radix(ClassOf(c))
  {
    match ClassOf(c)
    case Other => 0
    case k => (c as int) - (Zero(k) as int)
  }

  /** The character a carry past the front leaves there. */
  function Lead(k: Class): char {
    if k == Numeric then '1' else Zero(k)
  }

  predicate IsLast(c: char) {
    c == 'z' || c == 'Z' || c == '9'
  }

  predicate Alnum(s: string) {
    forall i :: 0 <= i < |s| ==> ClassOf(s[i]) != Other
  }

  // ----- the increment

  /** The string after the loop, and whether a carry went past its front. */
  function Bump(s: string): (r: (string, bool))
    ensures |r.0| == |s|
  {
    if s == "" then ("", true)
    else
      var front, c := s[..|s| - 1], s[|s| - 1];
      if ClassOf(c) == Other then (s, false)
      else if !IsLast(c) then (front + [c + 1 as char], false)
      else
        var (t, carry) := Bump(front);
        (t + [Zero(ClassOf(c))], carry)
  }

  function Increment(s: string): string {
    if s == "" then ""
    else
      var (t, carry) := Bump(s);
      if carry then [Lead(ClassOf(s[0]))] + t else t
  }

  // ----- in general: an odometer

  /** A string of letters and digits as a number in mixed radix. */
  function Value(s: string): nat {
    if s == "" then 0 else Value(s[..|s| - 1]) * Radix(ClassOf(s[|s| - 1])) + Digit(s[|s| - 1])
  }

  function Range(s: string): (r: nat)
    ensures r > 0
  {
    if s == "" then 1 else Range(s[..|s| - 1]) * Radix(ClassOf(s[|s| - 1]))
  }

  predicate SameClasses(s: string, t: string) {
    |t| == |s| && forall i :: 0 <= i < |s| ==> ClassOf(t[i]) == ClassOf(s[i])
  }

  lemma {:induction false} ValueInRange(s: string)
    requires Alnum(s)
    ensures Value(s) < Range(s)
  {
    if s != "" {
      var front, c := s[..|s| - 1], s[|s| - 1];
      assert ClassOf(c) != Other;
      ValueInRange(front);
      var r := Radix(ClassOf(c));
      calc {
        Value(s);
        Value(front) * r + Digit(c);
      <
        Value(front) * r + r;
        (Value(front) + 1) * r;
      <=
        Range(front) * r;
      }
    }
  }

  lemma {:induction false} SameRange(s: string, t: string)
    requires SameClasses(s, t)
    ensures Range(t) == Range(s)
  {
    if s != "" {
      SameRange(s[..|s| - 1], t[..|t| - 1]);
    }
  }

  lemma DigitAfter(c: char)
    requires ClassOf(c) != Other
    ensures IsLast(c) <==> Digit(c) == Radix(ClassOf(c)) - 1
    ensures !IsLast(c) ==> ClassOf(c + 1 as char) == ClassOf(c) && Digit(c + 1 as char) == Digit(c) + 1
    ensures ClassOf(Zero(ClassOf(c))) == ClassOf(c) && Digit(Zero(ClassOf(c))) == 0
  {
  }

  /** On letters and digits the loop adds one, every character keeping its class, and carries
      exactly when the number was the greatest of its kind; it has then come round to zero. */
  lemma {:induction false} BumpAddsOne(s: string)
    requires Alnum(s)
    ensures SameClasses(s, Bump(s).0)
    ensures Bump(s).1 <==> Value(s) == Range(s) - 1
    ensures Value(Bump(s).0) == if Bump(s).1 then 0 else Value(s) + 1
  {
    if s != "" {
      var front, c := s[..|s| - 1], s[|s| - 1];
      assert ClassOf(c) != Other;
      DigitAfter(c);
      ValueInRange(front);
      var t := Bump(s).0;
      var r := Radix(ClassOf(c));
      if !IsLast(c) {
        assert t[..|t| - 1] == front;
        LastDigit(Value(front), Range(front), r, Digit(c));
      } else {
        BumpAddsOne(front);
        assert t[..|t| - 1] == Bump(front).0;
        LastDigit(Value(front), Range(front), r, Digit(c));
      }
    }
  }

  lemma LastDigit(v: nat, range: nat, r: nat, d: nat)
    requires v < range && d < r
    ensures v * r + d == range * r - 1 <==> v == range - 1 && d == r - 1
    ensures (v + 1) * r == v * r + r
  {
    if v < range - 1 {
      assert (v + 2) * r <= range * r;
    }
  }

  /** What comes before a character that is neither letter nor digit stays as it is. */
  lemma {:induction false} BumpStops(s: string, c: char, t: string)
    requires ClassOf(c) == Other && Alnum(t)
    ensures Bump(s + [c] + t) == (s + [c] + Bump(t).0, false)
    decreases |t|
  {
    var w := s + [c] + t;
    if t != "" {
      var front, d := t[..|t| - 1], t[|t| - 1];
      assert ClassOf(d) != Other;
      assert w[..|w| - 1] == s + [c] + front && w[|w| - 1] == d;
      BumpStops(s, c, front);
      var e := if IsLast(d) then Zero(ClassOf(d)) else d + 1 as char;
      assert s + [c] + Bump(front).0 + [e] == s + [c] + (Bump(front).0 + [e]);
      assert s + [c] + front + [e] == s + [c] + (front + [e]);
    }
  }

  /** The whole string is letters and digits: the number goes up by one, or, from the greatest, comes
      round to zero with one more character in front. */
  lemma {:induction false} IncrementWhole(s: string)
    requires Alnum(s) && s != ""
    ensures var r := Increment(s);
            if Value(s) + 1 < Range(s) then SameClasses(s, r) && Value(r) == Value(s) + 1
            else
              && |r| == |s| + 1 && SameClasses(s, r[1..]) && Value(r[1..]) == 0
              && ('0' <= s[0] <= '9' ==> r[0] == '1')
              && ('A' <= s[0] <= 'Z' ==> r[0] == 'A')
              && ('a' <= s[0] <= 'z' ==> r[0] == 'a')
  {
    BumpAddsOne(s);
    ValueInRange(s);
  }

  /** Otherwise the letters and digits at the end go up by one modulo their range, everything
      before them stays, and the length stays. */
  lemma {:induction false} IncrementSuffix(s: string, c: char, t: string)
    requires ClassOf(c) == Other && Alnum(t)
    ensures var r := Increment(s + [c] + t);
            && |r| == |s| + 1 + |t| && r[..|s| + 1] == s + [c]
            && SameClasses(t, r[|s| + 1..]) && Value(r[|s| + 1..]) == (Value(t) + 1) % Range(t)
  {
    hide Bump, Value, Range, SameClasses, Alnum, ClassOf;
    BumpStops(s, c, t);
    BumpAddsOne(t);
    ValueInRange(t);
    var r := Increment(s + [c] + t);
    assert r == s + [c] + Bump(t).0;
    assert r[..|s| + 1] == s + [c] && r[|s| + 1..] == Bump(t).0;
  }

  /** The two lemmas above between them cover every string. */
  lemma {:induction false} EveryString(s: string) returns (k: nat)
    ensures k <= |s| && Alnum(s[k..])
    ensures k > 0 ==> ClassOf(s[k - 1]) == Other && s == s[..k - 1] + [s[k - 1]] + s[k..]
  {
    k := |s|;
    while k > 0 && ClassOf(s[k - 1]) != Other
      invariant k <= |s| && Alnum(s[k..])
    {
      k := k - 1;
      assert forall i :: 0 < i < |s[k..]| ==> s[k..][i] == s[k + 1..][i - 1];
    }
  }

  // ----- numerals

  predicate Numeral(s: string) {
    forall i :: 0 <= i < |s| ==> '0' <= s[i] <= '9'
  }

  /** A numeral read in base ten. */
  function Decimal(s: string): nat
    requires Numeral(s)
  {
    if s == "" then 0 else Decimal(s[..|s| - 1]) * 10 + (s[|s| - 1] as int - '0' as int)
  }

  /** A numeral in front of which a 1 is put when the loop has carried past it. */
  function WithOne(b: (string, bool)): string {
    if b.1 then ['1'] + b.0 else b.0
  }

  lemma {:induction false} BumpDecimal(s: string)
    requires Numeral(s)
    ensures Numeral(WithOne(Bump(s))) && Decimal(WithOne(Bump(s))) == Decimal(s) + 1
  {
    if s == "" {
      assert ['1'] + "" == "" + ['1'];
      NumeralSnoc("", '1');
    } else {
      var front, c := s[..|s| - 1], s[|s| - 1];
      assert '0' <= c <= '9';
      BumpDecimal(front);
      if c == '9' {
        assert WithOne(Bump(s)) == WithOne(Bump(front)) + ['0'];
        NumeralSnoc(WithOne(Bump(front)), '0');
      } else {
        NumeralSnoc(front, c + 1 as char);
      }
    }
  }

  lemma NumeralSnoc(s: string, c: char)
    requires Numeral(s) && '0' <= c <= '9'
    ensures Numeral(s + [c]) && Decimal(s + [c]) == Decimal(s) * 10 + (c as int - '0' as int)
  {
    assert (s + [c])[..|s|] == s;
  }

  /** On numerals the increment is what arithmetic says. */
  lemma IncrementDecimal(s: string)
    requires Numeral(s) && s != ""
    ensures Numeral(Increment(s)) && Decimal(Increment(s)) == Decimal(s) + 1
  {
    assert '0' <= s[0] <= '9';
    BumpDecimal(s);
  }

  // ----- words of one case

  predicate Word(s: string, k: Class) {
    forall i :: 0 <= i < |s| ==> ClassOf(s[i]) == k
  }

  /** The place of a word in bijective base 26. */
  function Rank(s: string): nat {
    if s == "" then 0 else Rank(s[..|s| - 1]) * 26 + Digit(s[|s| - 1]) + 1
  }

  /** The word after the loop, with the character a carry brings in front. */
  function Carried(b: (string, bool), k: Class): string {
    if b.1 then [Zero(k)] + b.0 else b.0
  }

  lemma {:induction false} BumpRank(s: string, k: Class)
    requires Word(s, k) && (k == Lower || k == Upper)
    ensures Word(Carried(Bump(s), k), k) && Rank(Carried(Bump(s), k)) == Rank(s) + 1
  {
    if s != "" {
      var front, c := s[..|s| - 1], s[|s| - 1];
      assert ClassOf(c) == k;
      DigitAfter(c);
      BumpRank(front, k);
      if !IsLast(c) {
        WordSnoc(front, c + 1 as char, k);
      } else {
        WordSnoc(Carried(Bump(front), k), Zero(k), k);
        assert Carried(Bump(s), k) == Carried(Bump(front), k) + [Zero(k)];
      }
    } else {
      WordSnoc("", Zero(k), k);
      assert [Zero(k)] + "" == "" + [Zero(k)];
    }
  }

  lemma WordSnoc(s: string, c: char, k: Class)
    requires Word(s, k) && ClassOf(c) == k
    ensures Word(s + [c], k) && Rank(s + [c]) == Rank(s) * 26 + Digit(c) + 1
  {
    assert (s + [c])[..|s|] == s;
  }

  /** On a word of one case, the increment is the successor. */
  lemma IncrementIsSuccessor(s: string, k: Class)
    requires Word(s, k) && (k == Lower || k == Upper) && s != ""
    ensures Word(Increment(s), k) && Rank(Increment(s)) == Rank(s) + 1
  {
    BumpRank(s, k);
    assert ClassOf(s[0]) == k;
  }

  /** Different words have different ranks. */
  lemma {:induction false} RankIsInjective(s: string, t: string, k: Class)
    requires Word(s, k) && Word(t, k) && (k == Lower || k == Upper) && Rank(s) == Rank(t)
    ensures s == t
  {
    if s != "" && t != "" {
      var c, d := s[|s| - 1], t[|t| - 1];
      assert ClassOf(c) == k && ClassOf(d) == k;
      RankIsInjective(s[..|s| - 1], t[..|t| - 1], k);
      assert s == s[..|s| - 1] + [c] && t == t[..|t| - 1] + [d];
    }
  }

  /** Shorter words first, words of one length as in a dictionary. */
  predicate Before(s: string, t: string) {
    |s| < |t| || (|s| == |t| && Dictionary(s, t))
  }

  predicate Dictionary(s: string, t: string)
    requires |s| == |t|
  {
    s != "" && (Dictionary(s[..|s| - 1], t[..|t| - 1]) || (s[..|s| - 1] == t[..|t| - 1] && s[|s| - 1] < t[|t| - 1]))
  }

  lemma {:induction false} DictionaryRank(s: string, t: string, k: Class)
    requires Word(s, k) && Word(t, k) && (k == Lower || k == Upper) && |s| == |t|
    ensures Dictionary(s, t) <==> Rank(s) < Rank(t)
    decreases |s|
  {
    if s != "" {
      var c, d := s[|s| - 1], t[|t| - 1];
      assert ClassOf(c) == k && ClassOf(d) == k;
      var s', t' := s[..|s| - 1], t[..|t| - 1];
      DictionaryRank(s', t', k);
      if Rank(s') == Rank(t') {
        RankIsInjective(s', t', k);
      }
    }
  }

  function Power(n: nat): nat {
    if n == 0 then 1 else 26 * Power(n - 1)
  }

  /** The ranks of the words of length n. */
  lemma {:induction false} RankByLength(s: string, k: Class)
    requires Word(s, k) && (k == Lower || k == Upper)
    ensures Power(|s|) <= 25 * Rank(s) + 1 <= 26 * Power(|s|) - 25
  {
    if s != "" {
      assert ClassOf(s[|s| - 1]) == k;
      RankByLength(s[..|s| - 1], k);
    }
  }

  lemma {:induction false} PowerGrows(m: nat, n: nat)
    requires m < n
    ensures 26 * Power(m) <= Power(n)
  {
    if m + 1 < n {
      PowerGrows(m, n - 1);
    }
  }

  /** The ranks are the shortlex order. */
  lemma RankIsShortlex(s: string, t: string, k: Class)
    requires Word(s, k) && Word(t, k) && (k == Lower || k == Upper)
    ensures Before(s, t) <==> Rank(s) < Rank(t)
  {
    if |s| == |t| {
      DictionaryRank(s, t, k);
    } else {
      RankByLength(s, k);
      RankByLength(t, k);
      if |s| < |t| {
        PowerGrows(|s|, |t|);
      } else {
        PowerGrows(|t|, |s|);
      }
    }
  }

  /** No word lies between a word and its increment. */
  lemma IncrementIsNext(s: string, t: string, k: Class)
    requires Word(s, k) && Word(t, k) && (k == Lower || k == Upper) && s != ""
    ensures Before(s, Increment(s))
    ensures Before(s, t) ==> t == Increment(s) || Before(Increment(s), t)
  {
    IncrementIsSuccessor(s, k);
    RankIsShortlex(s, Increment(s), k);
    RankIsShortlex(s, t, k);
    RankIsShortlex(Increment(s), t, k);
    if Rank(t) == Rank(s) + 1 {
      RankIsInjective(t, Increment(s), k);
    }
  }

  function Iterate(s: string, n: nat): string {
    if n == 0 then s else Increment(Iterate(s, n - 1))
  }

  lemma {:induction false} IterateRank(n: nat)
    ensures Word(Iterate("a", n), Lower) && Rank(Iterate("a", n)) == n + 1
  {
    if n == 0 {
      assert "a"[..0] == "";
    } else {
      IterateRank(n - 1);
      IncrementIsSuccessor(Iterate("a", n - 1), Lower);
    }
  }

  /** Counting up from "a" visits every lower-case word exactly once. */
  lemma VisitsEveryWordOnce(s: string, n: nat)
    requires Word(s, Lower) && s != ""
    ensures Rank(s) > 0
    ensures Iterate("a", n) == s <==> n == Rank(s) - 1
  {
    IterateRank(n);
    IterateRank(Rank(s) - 1);
    RankIsInjective(Iterate("a", Rank(s) - 1), s, Lower);
  }

  // ----- in place

  /** The loop has brought the characters behind pos round to zero. */
  ghost predicate Midway(s0: string, cur: string, pos: int) {
    && |cur| == |s0| && -1 <= pos < |s0| && cur[..pos + 1] == s0[..pos + 1]
    && Bump(s0).1 == Bump(s0[..pos + 1]).1 && Bump(s0).0 == Bump(s0[..pos + 1]).0 + cur[pos + 1..]
  }

  lemma MidwayStart(s: string)
    ensures Midway(s, s, |s| - 1)
  {
    assert s[..|s|] == s && s[|s|..] == "";
  }

  lemma MidwayEnd(s0: string, cur: string)
    requires Midway(s0, cur, -1)
    ensures Bump(s0) == (cur, true)
  {
    assert s0[..0] == "" && cur[0..] == cur;
    assert Bump("") == ("", true) && "" + cur == cur;
    assert Bump(s0) == (Bump(s0).0, Bump(s0).1);
  }

  /** One turn of the loop: it stops at a character that is no digit, or takes the last step there, or
      goes on. */
  lemma MidwayStep(s0: string, cur: string, pos: int)
    requires Midway(s0, cur, pos) && 0 <= pos
    ensures var ch := s0[pos];
            && cur[pos] == ch
            && (ClassOf(ch) == Other ==> Bump(s0) == (cur, false))
            && (ClassOf(ch) != Other && !IsLast(ch) ==> Bump(s0) == (cur[pos := ch + 1 as char], false))
            && (ClassOf(ch) != Other && IsLast(ch) ==> Midway(s0, cur[pos := Zero(ClassOf(ch))], pos - 1))
  {
    hide Bump, Zero, IsLast;
    var ch, front, tail := s0[pos], s0[..pos], cur[pos + 1..];
    assert s0[..pos + 1] == front + [ch];
    assert cur[pos] == cur[..pos + 1][pos] && cur[..pos] == cur[..pos + 1][..pos];
    BumpAt(s0[..pos + 1], front, ch);
    assert cur == front + [ch] + tail;
    if ClassOf(ch) != Other {
      assert !IsLast(ch) ==> cur[pos := ch + 1 as char] == front + [ch + 1 as char] + tail;
      var z := Zero(ClassOf(ch));
      var next := cur[pos := z];
      assert next[pos..] == [z] + tail && next[..pos] == front;
      assert Bump(front).0 + [z] + tail == Bump(front).0 + ([z] + tail);
    }
  }

  /** The loop works on the string's own buffer; only a carry past the front makes a new one. */
  method IncrementInPlace(s: array<char>) returns (t: array<char>)
    modifies s
    ensures t[..] == Increment(old(s[..]))
    ensures t == s || fresh(t)
  {
    hide Bump, Zero, Lead, IsLast, Midway;
    ghost var s0 := s[..];
    var carry, pos, last := false, s.Length - 1, Other;
    MidwayStart(s0);
    while pos >= 0
      invariant -1 <= pos < s.Length
      invariant carry <==> pos < s.Length - 1
      invariant carry ==> last == ClassOf(s0[pos + 1])
      invariant Midway(s0, s[..], pos)
    {
      ghost var cur := s[..];
      MidwayStep(s0, cur, pos);
      var ch := s[pos];
      if ClassOf(ch) == Other {
        carry := false;
        break;
      }
      last := ClassOf(ch);
      if !IsLast(ch) {
        s[pos] := ch + 1 as char;
        carry := false;
        assert s[..] == cur[pos := ch + 1 as char];
        break;
      }
      s[pos] := Zero(ClassOf(ch));
      assert s[..] == cur[pos := Zero(ClassOf(ch))];
      carry := true;
      pos := pos - 1;
    }
    t := s;
    if carry {
      MidwayEnd(s0, s[..]);
      t := new char[s.Length + 1](i requires 0 <= i < s.Length + 1 reads s => if i == 0 then Lead(last) else s[i - 1]);
      assert t[..] == [Lead(last)] + s[..];
    }
  }

  lemma BumpAt(s: string, front: string, c: char)
    requires s == front + [c]
    ensures ClassOf(c) == Other ==> Bump(s) == (s, false)
    ensures ClassOf(c) != Other && !IsLast(c) ==> Bump(s) == (front + [c + 1 as char], false)
    ensures ClassOf(c) != Other && IsLast(c) ==> Bump(s) == (Bump(front).0 + [Zero(ClassOf(c))], Bump(front).1)
  {
    assert s[..|s| - 1] == front;
  }
}
