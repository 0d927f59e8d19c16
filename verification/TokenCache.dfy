/** The in-place edits of the token cache (token_cache.c). */
module TokenCache {
  import opened Syntax
  import opened Machine

  /** `d` with the tokens from `at` on overwritten by `piece`. */
  function Overlay(d: seq<Token>, at: nat, piece: seq<Token>): (r: seq<Token>)
    requires at + |piece| <= |d|
    ensures |r| == |d|
  {
    d[..at] + piece + d[at + |piece|..]
  }

  /** memcpy between arrays, or within one when the stretches do not overlap. */
  method CopyTokens(dst: array<Token>, at: nat, src: array<Token>, from: nat, n: nat)
    requires at + n <= dst.Length && from + n <= src.Length
    requires dst == src ==> at + n <= from || from + n <= at
    modifies dst
    ensures dst[..] == Overlay(old(dst[..]), at, old(src[..])[from..from + n])
  {
    for i := 0 to n
      invariant forall j :: 0 <= j < dst.Length ==>
                              dst[j] == if at <= j < at + i then old(src[..])[from + j - at] else old(dst[..])[j]
    {
      assert src[from + i] == old(src[..])[from + i];
      dst[at + i] := src[from + i];
    }
  }

  /** A temporary copy. */
  method SaveTokens(src: array<Token>, from: nat, n: nat) returns (temp: array<Token>)
    requires from + n <= src.Length
    ensures fresh(temp) && temp[..] == src[from..from + n]
  {
    temp := new Token[n](_ => Token(END, 0, false));
    CopyTokens(temp, 0, src, from, n);
  }

  /** tc_switch: the shorter stretch is moved straight across, the longer one through a
      temporary copy. */
  method TcSwitchInPlace(tokens: array<Token>, start: int, end: int, middle: int)
    modifies tokens
    ensures tokens[..] == TcSwitch(old(tokens[..]), start, end, middle)
  {
    hide Overlay;
    if start < 0 || end >= tokens.Length || middle < start || middle > end {
      return;
    }
    var first, second := middle - start, end - middle;
    ghost var t := tokens[..];
    if first == 0 && second == 0 {
      assert tokens[..] == TcSwitch(t, start, end, middle);
      return;
    }
    var middleToken := tokens[middle];
    if first < second {
      FirstAcross(tokens, start, end, middle);
    } else {
      SecondAcross(tokens, start, end, middle);
    }
    ghost var t' := tokens[..];
    tokens[start + second] := middleToken;
    assert tokens[..] == t'[start + second := middleToken];
    CrossedIsSwitched(t, start, end, middle);
  }

  method FirstAcross(tokens: array<Token>, start: nat, end: nat, middle: nat)
    requires start <= middle <= end < tokens.Length && middle - start < end - middle
    modifies tokens
    ensures tokens[..] == Overlay(Overlay(old(tokens[..]), end - (middle - start) + 1, old(tokens[..])[start..middle]),
                                  start, old(tokens[..])[middle + 1..end + 1])
  {
    hide Overlay;
    var first, second := middle - start, end - middle;
    var temp := SaveTokens(tokens, middle + 1, second);
    CopyTokens(tokens, end - first + 1, tokens, start, first);
    assert temp[..][0..second] == temp[..];
    CopyTokens(tokens, start, temp, 0, second);
  }

  method SecondAcross(tokens: array<Token>, start: nat, end: nat, middle: nat)
    requires start <= middle <= end < tokens.Length && middle - start >= end - middle
    modifies tokens
    ensures tokens[..] == Overlay(Overlay(old(tokens[..]), start, old(tokens[..])[middle + 1..end + 1]),
                                  end - (middle - start) + 1, old(tokens[..])[start..middle])
  {
    hide Overlay;
    var first, second := middle - start, end - middle;
    var temp := SaveTokens(tokens, start, first);
    CopyTokens(tokens, start, tokens, middle + 1, second);
    assert temp[..][0..first] == temp[..];
    CopyTokens(tokens, end - first + 1, temp, 0, first);
  }

  /** In either order the two copies, with the middle token put back, make the switch. */
  lemma CrossedIsSwitched(t: seq<Token>, start: nat, end: nat, middle: nat)
    requires start <= middle <= end < |t|
    ensures var first, second := t[start..middle], t[middle + 1..end + 1];
            && Overlay(Overlay(t, end - |first| + 1, first), start, second)[start + |second| := t[middle]] ==
                TcSwitch(t, start, end, middle)
            && Overlay(Overlay(t, start, second), end - |first| + 1, first)[start + |second| := t[middle]] ==
                TcSwitch(t, start, end, middle)
  {
    hide TcSwitch, Overlay;
    var first, second := t[start..middle], t[middle + 1..end + 1];
    var gap := start + |second|;
    var t1, t2 := Overlay(Overlay(t, gap + 1, first), start, second),
        Overlay(Overlay(t, start, second), gap + 1, first);
    forall j | 0 <= j < |t|
      ensures t1[gap := t[middle]][j] == TcAt(t, start, end, middle, j) == t2[gap := t[middle]][j]
    {
      OverlayAt(t, gap + 1, first, j);
      OverlayAt(Overlay(t, gap + 1, first), start, second, j);
      OverlayAt(t, start, second, j);
      OverlayAt(Overlay(t, start, second), gap + 1, first, j);
    }
    SwitchAt(t, start, end, middle);
    assert t1[gap := t[middle]] == TcSwitch(t, start, end, middle);
    assert t2[gap := t[middle]] == TcSwitch(t, start, end, middle);
  }

  /** The token at index j after the switch. */
  function TcAt(t: seq<Token>, start: nat, end: nat, middle: nat, j: nat): Token
    requires start <= middle <= end < |t| && j < |t|
  {
    var gap := start + end - middle;
    if j < start || j > end then t[j]
    else if j < gap then t[middle + 1 + j - start]
    else if j == gap then t[middle]
    else t[j - gap - 1 + start]
  }

  lemma SwitchAt(t: seq<Token>, start: nat, end: nat, middle: nat)
    requires start <= middle <= end < |t|
    ensures |TcSwitch(t, start, end, middle)| == |t|
    ensures forall j :: 0 <= j < |t| ==> TcSwitch(t, start, end, middle)[j] == TcAt(t, start, end, middle, j)
  {
  }

  lemma OverlayAt(d: seq<Token>, at: nat, piece: seq<Token>, j: nat)
    requires at + |piece| <= |d| && j < |d|
    ensures Overlay(d, at, piece)[j] == if at <= j < at + |piece| then piece[j - at] else d[j]
  {
  }

  /** tc_set_token. */
  method TcSetTokenInPlace(tokens: array<Token>, off: int, k: Kind)
    modifies tokens
    ensures tokens[..] == TcSetToken(old(tokens[..]), off, k)
  {
    if 0 <= off < tokens.Length {
      tokens[off] := tokens[off].(kind := k);
    }
  }

  /** tc_set_switched. */
  method TcSetSwitchedInPlace(tokens: array<Token>, off: int)
    modifies tokens
    ensures tokens[..] == TcSetSwitched(old(tokens[..]), off)
  {
    if 0 <= off < tokens.Length {
      tokens[off] := tokens[off].(switched := true);
    }
  }
}
