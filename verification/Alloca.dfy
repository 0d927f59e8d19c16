/** Storage that goes away with the procedure that asked for it, kept on an ordinary heap
    (alloca.c): each block remembers how deep in the stack it was asked for, and every call first
    gives back the blocks that come from deeper than itself. */
module Alloca {

  type Ptr = nat
  const NULL: Ptr := 0

  datatype Header = Header(next: Ptr, deep: int)

  /** A stack address lies deeper than another; the stack may grow either way. */
  predicate Deeper(up: bool, a: int, b: int) {
    if up then a > b else a < b
  }

  // ----- the list of headers

  ghost predicate Chain(mem: map<Ptr, Header>, p: Ptr, bs: seq<Ptr>)
    decreases |bs|
  {
    if bs == [] then p == NULL
    else p == bs[0] && p != NULL && p in mem && p !in bs[1..] && Chain(mem, mem[p].next, bs[1..])
  }

  predicate Listed(mem: map<Ptr, Header>, bs: seq<Ptr>) {
    forall i :: 0 <= i < |bs| ==> bs[i] in mem
  }

  /** Deepest first. */
  predicate Sorted(up: bool, mem: map<Ptr, Header>, bs: seq<Ptr>)
    requires Listed(mem, bs)
  {
    forall i, j :: 0 <= i < j < |bs| ==> !Deeper(up, mem[bs[j]].deep, mem[bs[i]].deep)
  }

  /** The list from p on holds exactly the blocks in memory, deepest first. */
  ghost predicate ListOk(up: bool, mem: map<Ptr, Header>, p: Ptr, bs: seq<Ptr>) {
    Chain(mem, p, bs) && Listed(mem, bs) && (forall q :: q in mem <==> q in bs) && Sorted(up, mem, bs)
  }

  lemma {:induction false} ChainIsListed(mem: map<Ptr, Header>, p: Ptr, bs: seq<Ptr>)
    requires Chain(mem, p, bs)
    ensures Listed(mem, bs) && NULL !in bs
    decreases |bs|
  {
    if bs != [] {
      ChainIsListed(mem, mem[p].next, bs[1..]);
      assert forall i :: 1 <= i < |bs| ==> bs[i] == bs[1..][i - 1];
    }
  }

  /** What is not on the list does not matter to it. */
  lemma {:induction false} ChainOfOthers(mem: map<Ptr, Header>, mem': map<Ptr, Header>, p: Ptr, bs: seq<Ptr>)
    requires Chain(mem, p, bs)
    requires forall i :: 0 <= i < |bs| ==> bs[i] in mem && bs[i] in mem' && mem'[bs[i]] == mem[bs[i]]
    ensures Chain(mem', p, bs)
    decreases |bs|
  {
    if bs != [] {
      assert bs[0] in mem && mem'[bs[0]] == mem[bs[0]];
      assert forall i :: 0 <= i < |bs[1..]| ==> bs[1..][i] == bs[i + 1];
      ChainOfOthers(mem, mem', mem[p].next, bs[1..]);
    }
  }

  // ----- procedures and their blocks

  /** A procedure that has not returned: its number and the depth alloca sees when it calls. */
  datatype Frame = Frame(uid: nat, depth: int)

  /** The active procedures lie ever deeper. */
  predicate FramesOk(up: bool, frames: seq<Frame>, nextUid: nat) {
    && (forall i :: 0 <= i < |frames| ==> frames[i].uid < nextUid)
    && (forall i, j :: 0 <= i < j < |frames| ==> Deeper(up, frames[j].depth, frames[i].depth))
  }

  /** Every block records the depth of the procedure that asked for it. */
  predicate OwnersOk(mem: map<Ptr, Header>, owner: map<Ptr, Frame>, nextUid: nat) {
    owner.Keys == mem.Keys && forall p :: p in mem ==> owner[p].depth == mem[p].deep && owner[p].uid < nextUid
  }

  class Machine {
    const up: bool
    var mem: map<Ptr, Header>
    var last: Ptr                       // last_alloca_header
    ghost var frames: seq<Frame>        // innermost last
    ghost var nextUid: nat
    ghost var blocks: seq<Ptr>
    ghost var owner: map<Ptr, Frame>

    ghost predicate Valid()
      reads this
    {
      ListOk(up, mem, last, blocks) && OwnersOk(mem, owner, nextUid) && FramesOk(up, frames, nextUid)
    }

    constructor (up: bool)
      ensures Valid() && this.up == up && frames == [] && mem == map[]
    {
      this.up := up;
      mem, last := map[], NULL;
      frames, nextUid, blocks, owner := [], 0, [], map[];
    }

    /** A procedure is called: it lies deeper than its caller. */
    method Enter(depth: int)
      requires Valid() && (frames != [] ==> Deeper(up, depth, frames[|frames| - 1].depth))
      modifies this
      ensures Valid() && frames == old(frames) + [Frame(old(nextUid), depth)]
      ensures mem == old(mem) && owner == old(owner)
    {
      frames := frames + [Frame(nextUid, depth)];
      nextUid := nextUid + 1;
    }

    /** It returns; its blocks stay for now. */
    method Leave()
      requires Valid() && frames != []
      modifies this
      ensures Valid() && frames == old(frames)[..|old(frames)| - 1]
      ensures mem == old(mem) && owner == old(owner)
    {
      frames := frames[..|frames| - 1];
    }

    /** The loop that gives garbage back. */
    method Reclaim(depth: int)
      requires Valid()
      modifies this
      ensures Valid() && frames == old(frames) && nextUid == old(nextUid)
      ensures forall p :: p in mem <==> p in old(mem) && !Deeper(up, old(mem)[p].deep, depth)
      ensures forall p :: p in mem ==> mem[p] == old(mem)[p] && owner[p] == old(owner)[p]
    {
      hide ListOk, FramesOk;
      var hp := last;
      ghost var bs := blocks;
      ListStart(up, mem, hp, bs);
      while hp != NULL && Deeper(up, mem[hp].deep, depth)
        invariant ListOk(up, mem, hp, bs) && (hp != NULL ==> hp in mem)
        invariant owner.Keys == mem.Keys && frames == old(frames) && nextUid == old(nextUid)
        invariant forall p :: p in mem ==> p in old(mem) && mem[p] == old(mem)[p] && owner[p] == old(owner)[p]
        invariant forall p :: p in old(mem) && p !in mem ==> Deeper(up, old(mem)[p].deep, depth)
        decreases |bs|
      {
        var np := mem[hp].next;
        FreeFirst(up, mem, hp, bs);
        mem := mem - {hp};
        owner := owner - {hp};
        hp := np;
        bs := bs[1..];
        ListStart(up, mem, hp, bs);
      }
      last := hp;
      blocks := bs;
      NoneDeeper(up, mem, hp, bs, depth);
    }

    /** alloca, called by the innermost procedure. Everything from deeper than the caller is gone,
        and nothing else: not a block of any procedure that has not returned. */
    method Alloca(size: nat, depth: int, at: Ptr) returns (p: Ptr)
      requires Valid() && frames != [] && depth == frames[|frames| - 1].depth && at != NULL && at !in mem
      modifies this
      ensures Valid() && frames == old(frames)
      ensures forall q :: q in mem <==> (q in old(mem) && !Deeper(up, old(mem)[q].deep, depth)) || (size > 0 && q == p)
      ensures forall q :: q in old(mem) && old(owner)[q] in frames ==> q in mem
      ensures forall q :: q in old(mem) && q in mem ==> mem[q] == old(mem)[q] && owner[q] == old(owner)[q]
      ensures size == 0 ==> p == NULL
      ensures size > 0 ==> p == at && owner[p] == frames[|frames| - 1]
    {
      hide ListOk, FramesOk;
      ActiveNotDeeper(up, frames, nextUid);
      Reclaim(depth);
      p := NULL;
      if size > 0 {
        p := at;
        PushFirst(up, mem, last, blocks, p, depth);
        mem := mem[p := Header(last, depth)];
        last := p;
        blocks := [p] + blocks;
        owner := owner[p := frames[|frames| - 1]];
      }
    }
  }

  lemma ActiveNotDeeper(up: bool, frames: seq<Frame>, nextUid: nat)
    requires FramesOk(up, frames, nextUid) && frames != []
    ensures forall f :: f in frames ==> !Deeper(up, f.depth, frames[|frames| - 1].depth)
    ensures frames[|frames| - 1].uid < nextUid
  {
  }

  lemma ListStart(up: bool, mem: map<Ptr, Header>, p: Ptr, bs: seq<Ptr>)
    requires ListOk(up, mem, p, bs)
    ensures if p == NULL then bs == [] else bs != [] && p == bs[0] && p in mem
  {
  }

  lemma ChainSteps(mem: map<Ptr, Header>, p: Ptr, bs: seq<Ptr>)
    requires Chain(mem, p, bs) && p != NULL
    ensures bs != [] && p == bs[0] && p in mem && p !in bs[1..] && Chain(mem, mem[p].next, bs[1..])
  {
  }

  /** The first block leaves the list. */
  lemma FreeFirst(up: bool, mem: map<Ptr, Header>, p: Ptr, bs: seq<Ptr>)
    requires ListOk(up, mem, p, bs) && p != NULL
    ensures bs != [] && p in mem && ListOk(up, mem - {p}, mem[p].next, bs[1..])
  {
    hide Chain, Sorted;
    ChainSteps(mem, p, bs);
    var tail := bs[1..];
    assert bs == [p] + tail;
    SortedTail(up, mem, bs);
    ChainOfOthers(mem, mem - {p}, mem[p].next, tail);
  }

  lemma SortedTail(up: bool, mem: map<Ptr, Header>, bs: seq<Ptr>)
    requires bs != [] && bs[0] !in bs[1..] && Listed(mem, bs) && Sorted(up, mem, bs)
    ensures Listed(mem - {bs[0]}, bs[1..]) && Sorted(up, mem - {bs[0]}, bs[1..])
  {
    var tail, mem' := bs[1..], mem - {bs[0]};
    assert forall i :: 0 <= i < |tail| ==> tail[i] == bs[i + 1] && tail[i] in mem';
    forall i, j | 0 <= i < j < |tail| ensures !Deeper(up, mem'[tail[j]].deep, mem'[tail[i]].deep) {
      assert !Deeper(up, mem[bs[j + 1]].deep, mem[bs[i + 1]].deep);
    }
  }

  /** A new block in front. */
  lemma PushFirst(up: bool, mem: map<Ptr, Header>, last: Ptr, bs: seq<Ptr>, p: Ptr, depth: int)
    requires ListOk(up, mem, last, bs)
    requires p != NULL && p !in mem && forall q :: q in mem ==> !Deeper(up, mem[q].deep, depth)
    ensures ListOk(up, mem[p := Header(last, depth)], p, [p] + bs)
  {
    var mem' := mem[p := Header(last, depth)];
    ChainOfOthers(mem, mem', last, bs);
    assert ([p] + bs)[1..] == bs;
  }

  /** If the first block is not deeper, none is. */
  lemma NoneDeeper(up: bool, mem: map<Ptr, Header>, p: Ptr, bs: seq<Ptr>, depth: int)
    requires ListOk(up, mem, p, bs) && (p != NULL ==> p in mem && !Deeper(up, mem[p].deep, depth))
    ensures forall q :: q in mem ==> !Deeper(up, mem[q].deep, depth)
  {
    ListStart(up, mem, p, bs);
  }
}
