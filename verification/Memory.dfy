/** The request-scoped memory manager (alloc.c): every block obtained from malloc is on a doubly
    linked list until it is given back, and freed blocks of small sizes wait on the list, in a
    cache row of their exact size, to be handed out again. */
module Memory {

  const MAX_CACHED_MEMORY := 64
  const MAX_CACHED_ENTRIES := 16
  const WORD := 0x1_0000_0000
  const GRACE := 1048576

  type Ptr = nat              // the address of a header; 0 is NULL
  const NULL: Ptr := 0

  /** A size fits the `int` the header keeps it in. */
  type Size = n: nat | n < 0x8000_0000

  datatype Header = Header(pNext: Ptr, pLast: Ptr, size: Size)

  type Mem = map<Ptr, Header>

  // ----- the list

  function NextOf(bs: seq<Ptr>, i: int): Ptr
    requires -1 <= i < |bs|
  {
    if i + 1 < |bs| then bs[i + 1] else NULL
  }

  function PrevOf(bs: seq<Ptr>, i: nat): Ptr
    requires i < |bs|
  {
    if i > 0 then bs[i - 1] else NULL
  }

  predicate Distinct(bs: seq<Ptr>) {
    forall i, j :: 0 <= i < j < |bs| ==> bs[i] != bs[j]
  }

  predicate LinkedAt(mem: Mem, bs: seq<Ptr>, i: nat)
    requires i < |bs|
  {
    bs[i] != NULL && bs[i] in mem && mem[bs[i]].pNext == NextOf(bs, i) && mem[bs[i]].pLast == PrevOf(bs, i)
  }

  /** From `head`, the links go through exactly the blocks `bs`, in that order, and back. */
  predicate Linked(mem: Mem, head: Ptr, bs: seq<Ptr>) {
    head == NextOf(bs, -1) && Distinct(bs) && forall i :: 0 <= i < |bs| ==> LinkedAt(mem, bs, i)
  }

  function Total(mem: Mem, bs: seq<Ptr>): nat
    requires forall i :: 0 <= i < |bs| ==> bs[i] in mem
  {
    if bs == [] then 0 else mem[bs[0]].size + Total(mem, bs[1..])
  }

  function Without(bs: seq<Ptr>, k: nat): seq<Ptr>
    requires k < |bs|
  {
    bs[..k] + bs[k + 1..]
  }

  /** REMOVE_POINTER_FROM_LIST on the memory: the neighbours of `p` point past it. */
  function Bypass(mem: Mem, head: Ptr, p: Ptr): Mem
    requires p in mem
    requires p != head ==> mem[p].pLast in mem
    requires mem[p].pNext != NULL ==> mem[p].pNext in mem
  {
    var h := mem[p];
    var mem1 := if p == head then mem else mem[h.pLast := mem[h.pLast].(pNext := h.pNext)];
    if h.pNext != NULL then mem1[h.pNext := mem1[h.pNext].(pLast := h.pLast)] else mem1
  }

  lemma NeighboursExist(mem: Mem, head: Ptr, bs: seq<Ptr>, k: nat)
    requires Linked(mem, head, bs) && k < |bs|
    ensures bs[k] in mem && bs[k] != NULL && (bs[k] == head <==> k == 0)
    ensures bs[k] != head ==> mem[bs[k]].pLast in mem
    ensures mem[bs[k]].pNext != NULL ==> mem[bs[k]].pNext in mem
  {
    assert LinkedAt(mem, bs, k);
    if k > 0 {
      assert LinkedAt(mem, bs, k - 1);
    }
    if k + 1 < |bs| {
      assert LinkedAt(mem, bs, k + 1);
    }
  }

  lemma BypassUnlinks(mem: Mem, head: Ptr, bs: seq<Ptr>, k: nat)
    requires Linked(mem, head, bs) && k < |bs|
    ensures NeighboursKnown(mem, head, bs[k])
    ensures Linked(Bypass(mem, head, bs[k]), if k == 0 then mem[bs[k]].pNext else head, Without(bs, k))
    ensures bs[k] !in Without(bs, k)
  {
    NeighboursExist(mem, head, bs, k);
    var mem', bs' := Bypass(mem, head, bs[k]), Without(bs, k);
    assert LinkedAt(mem, bs, k);
    forall i | 0 <= i < |bs'| ensures LinkedAt(mem', bs', i) {
      assert LinkedAt(mem, bs, if i < k then i else i + 1);
    }
  }

  predicate NeighboursKnown(mem: Mem, head: Ptr, p: Ptr) {
    && p in mem
    && (p != head ==> mem[p].pLast in mem)
    && (mem[p].pNext != NULL ==> mem[p].pNext in mem)
  }

  /** Only links differ. */
  predicate SameSizes(mem: Mem, mem': Mem) {
    mem'.Keys == mem.Keys && forall a :: a in mem ==> mem'[a].size == mem[a].size
  }

  lemma BypassKeepsSizes(mem: Mem, head: Ptr, p: Ptr)
    requires NeighboursKnown(mem, head, p)
    ensures SameSizes(mem, Bypass(mem, head, p))
    ensures Bypass(mem, head, p).Keys == mem.Keys
  {
  }

  lemma {:induction false} SameTotal(mem: Mem, mem': Mem, bs: seq<Ptr>)
    requires forall i :: 0 <= i < |bs| ==> bs[i] in mem && bs[i] in mem' && mem'[bs[i]].size == mem[bs[i]].size
    ensures Total(mem', bs) == Total(mem, bs)
  {
    if bs != [] {
      SameTotal(mem, mem', bs[1..]);
    }
  }

  lemma {:induction false} TotalWithout(mem: Mem, bs: seq<Ptr>, k: nat)
    requires k < |bs| && forall i :: 0 <= i < |bs| ==> bs[i] in mem
    ensures Total(mem, bs) == mem[bs[k]].size + Total(mem, Without(bs, k))
  {
    if k == 0 {
      assert Without(bs, 0) == bs[1..];
    } else {
      TotalWithout(mem, bs[1..], k - 1);
      assert Without(bs, k)[1..] == Without(bs[1..], k - 1);
    }
  }

  /** The new block `p` in front of the list. */
  function Prepend(mem: Mem, head: Ptr, p: Ptr, size: Size): Mem
    requires head != NULL ==> head in mem
  {
    var mem1 := mem[p := Header(head, NULL, size)];
    if head != NULL then mem1[head := mem1[head].(pLast := p)] else mem1
  }

  lemma PrependLinks(mem: Mem, head: Ptr, bs: seq<Ptr>, p: Ptr, size: Size)
    requires Linked(mem, head, bs) && p != NULL && p !in bs
    ensures head != NULL ==> head in mem
    ensures Linked(Prepend(mem, head, p, size), p, [p] + bs)
    ensures var mem' := Prepend(mem, head, p, size);
            mem'.Keys == mem.Keys + {p} && mem'[p].size == size
            && forall a :: a in mem && a != p ==> mem'[a].size == mem[a].size
  {
    if |bs| > 0 {
      assert LinkedAt(mem, bs, 0);
    }
    var mem', bs' := Prepend(mem, head, p, size), [p] + bs;
    forall i | 0 <= i < |bs'| ensures LinkedAt(mem', bs', i) {
      if i > 0 {
        assert LinkedAt(mem, bs, i - 1);
      }
    }
  }

  lemma LinkedIsListed(mem: Mem, head: Ptr, bs: seq<Ptr>)
    requires Linked(mem, head, bs)
    ensures Listed(mem, bs) && NULL !in bs
    ensures forall a :: a in bs ==> a in mem
  {
    forall i | 0 <= i < |bs| ensures bs[i] in mem && bs[i] != NULL {
      assert LinkedAt(mem, bs, i);
    }
  }

  lemma TotalWith(mem: Mem, mem': Mem, bs: seq<Ptr>, p: Ptr)
    requires Listed(mem, bs) && Listed(mem', [p] + bs) && p !in bs && p in mem'
    requires forall a :: a in mem && a != p ==> a in mem' && mem'[a].size == mem[a].size
    ensures Total(mem', [p] + bs) == mem'[p].size + Total(mem, bs)
  {
    SameTotal(mem, mem', bs);
    assert ([p] + bs)[1..] == bs;
  }

  lemma Wraps(x: nat, s: int)
    requires x + s >= 0
    ensures (x % WORD + s) % WORD == (x + s) % WORD
  {
    assert x + s == x % WORD + s + (x / WORD) * WORD;
  }

  lemma LinkedWithout(mem: Mem, head: Ptr, bs: seq<Ptr>, p: Ptr)
    requires Linked(mem, head, bs) && p !in bs
    ensures Linked(mem - {p}, head, bs)
  {
    forall i | 0 <= i < |bs| ensures LinkedAt(mem - {p}, bs, i) {
      assert LinkedAt(mem, bs, i);
    }
  }

  /** The sum after block k has left the list. */
  lemma TotalAfter(mem: Mem, mem': Mem, bs: seq<Ptr>, k: nat)
    requires Listed(mem, bs) && k < |bs| && Listed(mem', Without(bs, k)) && bs[k] !in Without(bs, k)
    requires forall a :: a in mem && a in mem' && a != bs[k] ==> mem'[a].size == mem[a].size
    ensures Total(mem, bs) == mem[bs[k]].size + Total(mem', Without(bs, k))
  {
    TotalWithout(mem, bs, k);
    forall i | 0 <= i < |Without(bs, k)| ensures Without(bs, k)[i] in mem {
      assert Without(bs, k)[i] == bs[if i < k then i else i + 1];
    }
    SameTotal(mem, mem', Without(bs, k));
  }

  // ----- who holds a block

  /** A cache row: blocks of exactly the row's size that nobody holds. */
  predicate RowOk(mem: Mem, live: map<Ptr, Size>, size: nat, row: seq<Ptr>) {
    && |row| <= MAX_CACHED_ENTRIES && Distinct(row)
    && forall j :: 0 <= j < |row| ==> row[j] in mem && mem[row[j]].size == size && row[j] !in live
  }

  predicate RowsOk(mem: Mem, live: map<Ptr, Size>, rows: seq<seq<Ptr>>) {
    |rows| == MAX_CACHED_MEMORY && forall s :: 0 <= s < |rows| ==> RowOk(mem, live, s, rows[s])
  }

  predicate Cached(mem: Mem, rows: seq<seq<Ptr>>, a: Ptr)
    requires a in mem
  {
    mem[a].size < |rows| && a in rows[mem[a].size]
  }

  /** Every block is held by the program, with the size it asked for, or waits in the cache. */
  predicate Owned(mem: Mem, live: map<Ptr, Size>, rows: seq<seq<Ptr>>) {
    && live.Keys <= mem.Keys
    && forall a :: a in mem ==> if a in live then live[a] == mem[a].size else Cached(mem, rows, a)
  }

  lemma TakeFromRow(mem: Mem, live: map<Ptr, Size>, rows: seq<seq<Ptr>>, size: Size)
    requires RowsOk(mem, live, rows) && Owned(mem, live, rows)
    requires size < MAX_CACHED_MEMORY && rows[size] != []
    ensures var row := rows[size]; var p, rows' := row[|row| - 1], rows[size := row[..|row| - 1]];
            && p !in live && p in mem && mem[p].size == size
            && RowsOk(mem, live[p := size], rows') && Owned(mem, live[p := size], rows')
  {
    var row := rows[size];
    assert RowOk(mem, live, size, row);
    var p, rows' := row[|row| - 1], rows[size := row[..|row| - 1]];
    var live' := live[p := size];
    forall s | 0 <= s < |rows'| ensures RowOk(mem, live', s, rows'[s]) {
      assert RowOk(mem, live, s, rows[s]);
    }
    forall a | a in mem ensures if a in live' then live'[a] == mem[a].size else Cached(mem, rows', a) {
      if a !in live' {
        assert Cached(mem, rows, a);
        assert row == row[..|row| - 1] + [p];
      }
    }
  }

  lemma PutInRow(mem: Mem, live: map<Ptr, Size>, rows: seq<seq<Ptr>>, p: Ptr)
    requires RowsOk(mem, live, rows) && Owned(mem, live, rows) && p in live
    requires live[p] < MAX_CACHED_MEMORY && |rows[live[p]]| < MAX_CACHED_ENTRIES
    ensures var rows' := rows[live[p] := rows[live[p]] + [p]];
            RowsOk(mem, live - {p}, rows') && Owned(mem, live - {p}, rows')
  {
    var size, live' := live[p], live - {p};
    var rows' := rows[size := rows[size] + [p]];
    forall s | 0 <= s < |rows'| ensures RowOk(mem, live', s, rows'[s]) {
      assert RowOk(mem, live, s, rows[s]);
    }
    forall a | a in mem ensures if a in live' then live'[a] == mem[a].size else Cached(mem, rows', a) {
      if a !in live' && a != p {
        assert Cached(mem, rows, a);
      }
    }
  }

  /** Blocks may come and go as long as those of the cache stay. */
  predicate Changed(mem: Mem, mem': Mem, p: Ptr) {
    && mem'.Keys + {p} == mem.Keys + {p}
    && forall a :: a in mem && a != p ==> mem'[a].size == mem[a].size
  }

  lemma Taken(mem: Mem, mem': Mem, p: Ptr)
    requires mem'.Keys == mem.Keys - {p} && forall a :: a in mem' ==> mem'[a].size == mem[a].size
    ensures Changed(mem, mem', p)
  {
  }

  lemma Added(mem: Mem, mem': Mem, p: Ptr)
    requires mem'.Keys == mem.Keys + {p} && forall a :: a in mem && a != p ==> mem'[a].size == mem[a].size
    ensures Changed(mem, mem', p)
  {
  }

  lemma OwnedAfter(mem: Mem, mem': Mem, live: map<Ptr, Size>, live': map<Ptr, Size>, rows: seq<seq<Ptr>>, p: Ptr)
    requires RowsOk(mem, live, rows) && Owned(mem, live, rows) && Changed(mem, mem', p)
    requires p in mem ==> p in live
    requires p in mem' <==> p in live'
    requires p in mem' ==> live'[p] == mem'[p].size
    requires live' - {p} == live - {p}
    ensures live.Keys <= mem.Keys
    ensures RowsOk(mem', live', rows) && Owned(mem', live', rows)
  {
    forall a | a != p ensures a in live' <==> a in live {
      assert a in live' - {p} <==> a in live';
      assert a in live - {p} <==> a in live;
    }
    forall a | a in mem' && a != p ensures a in mem {
      assert a in mem'.Keys + {p};
    }
    forall a | a in mem && a != p ensures a in mem' {
      assert a in mem.Keys + {p};
    }
    forall s | 0 <= s < |rows| ensures RowOk(mem', live', s, rows[s]) {
      assert RowOk(mem, live, s, rows[s]);
    }
    forall a | a in mem' ensures if a in live' then live'[a] == mem'[a].size else Cached(mem', rows, a) {
      if a != p && a in live' {
        assert (live' - {p})[a] == (live - {p})[a];
      }
    }
  }

  /** The first block of a row leaves the cache and the memory. */
  lemma DropFromRow(mem: Mem, mem': Mem, live: map<Ptr, Size>, rows: seq<seq<Ptr>>, s: nat)
    requires RowsOk(mem, live, rows) && s < |rows| && rows[s] != []
    requires forall a :: a in mem && a != rows[s][0] ==> a in mem' && mem'[a].size == mem[a].size
    ensures rows[s][0] in mem
    ensures RowsOk(mem', live, rows[s := rows[s][1..]])
  {
    var rows' := rows[s := rows[s][1..]];
    assert RowOk(mem, live, s, rows[s]);
    forall s' | 0 <= s' < |rows'| ensures RowOk(mem', live, s', rows'[s']) {
      assert RowOk(mem, live, s', rows[s']);
    }
  }

  /** What erealloc does to the memory: p goes, then `at`, which may be p again, comes. */
  lemma MoveOwned(mem: Mem, mem1: Mem, mem2: Mem, live: map<Ptr, Size>, rows: seq<seq<Ptr>>, p: Ptr, at: Ptr)
    requires RowsOk(mem, live, rows) && Owned(mem, live, rows) && p in live
    requires mem1.Keys == mem.Keys - {p} && forall a :: a in mem1 ==> mem1[a].size == mem[a].size
    requires at !in mem1
    requires mem2.Keys == mem1.Keys + {at} && forall a :: a in mem1 && a != at ==> mem2[a].size == mem1[a].size
    ensures var live2 := (live - {p})[at := mem2[at].size]; RowsOk(mem2, live2, rows) && Owned(mem2, live2, rows)
    ensures at !in live - {p}
  {
    hide RowsOk, Owned;
    var live1 := live - {p};
    HeldIsKnown(mem, live, rows);
    Taken(mem, mem1, p);
    OwnedAfter(mem, mem1, live, live1, rows, p);
    Added(mem1, mem2, at);
    HeldIsKnown(mem1, live1, rows);
    OwnedAfter(mem1, mem2, live1, live1[at := mem2[at].size], rows, at);
  }

  lemma MoveTotal(mem: Mem, mem1: Mem, mem2: Mem, bs: seq<Ptr>, k: nat, at: Ptr)
    requires k < |bs| && Listed(mem, bs) && Listed(mem1, Without(bs, k)) && Listed(mem2, [at] + Without(bs, k))
    requires bs[k] !in Without(bs, k) && at !in Without(bs, k) && at in mem2
    requires mem1.Keys == mem.Keys - {bs[k]} && forall a :: a in mem1 ==> mem1[a].size == mem[a].size
    requires mem2.Keys == mem1.Keys + {at} && forall a :: a in mem1 && a != at ==> mem2[a].size == mem1[a].size
    ensures Total(mem2, [at] + Without(bs, k)) == Total(mem, bs) - mem[bs[k]].size + mem2[at].size
    ensures mem[bs[k]].size <= Total(mem, bs)
  {
    hide Total, Without;
    TotalAfter(mem, mem1, bs, k);
    TotalWith(mem1, mem2, Without(bs, k), at);
  }

  // ----- the books: what can be told without addresses

  /** How many blocks wait in each cache row, and the bytes on the list. */
  datatype Ledger = Ledger(counts: seq<nat>, sum: nat)

  function Waiting(l: Ledger, size: Size): nat {
    if size < |l.counts| then l.counts[size] else 0
  }

  /** What is taken away was there. */
  function Minus(a: nat, b: nat): nat {
    if b <= a then a - b else 0
  }

  function BookAlloc(l: Ledger, size: Size): Ledger {
    if Waiting(l, size) > 0 then l.(counts := l.counts[size := l.counts[size] - 1]) else l.(sum := l.sum + size)
  }

  function BookFree(l: Ledger, size: Size): Ledger {
    if size < |l.counts| && l.counts[size] < MAX_CACHED_ENTRIES then l.(counts := l.counts[size := l.counts[size] + 1])
    else l.(sum := Minus(l.sum, size))
  }

  function BookMove(l: Ledger, was: Size, size: Size): Ledger {
    l.(sum := Minus(l.sum, was) + size)
  }

  /** The counter, which wraps around, is past the limit and its grace. */
  predicate Over(sum: nat, limit: nat) {
    sum % WORD > limit + GRACE
  }

  /** A request for a new block ends the process. */
  predicate AllocExits(l: Ledger, size: Size, fails: bool, limit: nat) {
    Waiting(l, size) == 0 && (fails || Over(l.sum + size, limit))
  }

  predicate MoveExits(l: Ledger, was: Size, size: Size, fails: bool, limit: nat) {
    fails || Over(Minus(l.sum, was) + size, limit)
  }

  function Counts(rows: seq<seq<Ptr>>): seq<nat> {
    seq(|rows|, i requires 0 <= i < |rows| => |rows[i]|)
  }

  // ----- the manager

  class Manager {
    var mem: Mem                      // what malloc has given out and not got back
    var head: Ptr
    var rows: seq<seq<Ptr>>           // cache[size][..cache_count[size]]
    var allocatedMemory: nat          // an unsigned 32-bit counter
    var exhausted: bool
    var exited: bool
    const limit: nat
    ghost var blocks: seq<Ptr>        // the list
    ghost var live: map<Ptr, Size>    // what the program holds
    ghost var mallocs: nat
    ghost var frees: nat

    ghost predicate Valid()
      reads this
    {
      && Linked(mem, head, blocks) && (forall a :: a in mem ==> a in blocks)
      && RowsOk(mem, live, rows) && Owned(mem, live, rows)
      && allocatedMemory == Sum() % WORD
      && mallocs == frees + |blocks|
    }

    ghost function Sum(): nat
      reads this
    {
      if Listed(mem, blocks) then Total(mem, blocks) else 0
    }

    ghost function Books(): Ledger
      reads this
    {
      Ledger(Counts(rows), Sum())
    }

    /** start_memory_manager. */
    constructor (limit: nat)
      ensures Valid() && !exited && this.limit == limit && live == map[] && mem == map[]
      ensures Books() == Ledger(seq(MAX_CACHED_MEMORY, _ => 0), 0)
    {
      mem, head, rows := map[], NULL, seq(MAX_CACHED_MEMORY, _ => []);
      allocatedMemory, exhausted, exited := 0, false, false;
      this.limit := limit;
      blocks, live, mallocs, frees := [], map[], 0, 0;
    }

    /** CHECK_MEMORY_LIMIT: adding an unsigned difference may wrap around. */
    method CheckLimit(s: int, shutdownRequested: bool)
      modifies this`allocatedMemory, this`exhausted, this`exited
      ensures allocatedMemory == (old(allocatedMemory) + s) % WORD
      ensures exited <==> old(exited) || allocatedMemory > limit + GRACE
    {
      allocatedMemory := (allocatedMemory + s) % WORD;
      if limit < allocatedMemory {
        if allocatedMemory > limit + GRACE {
          exited := true;
        } else if !exhausted && !shutdownRequested {
          exhausted := true;
        }
      }
    }

    /** The C library's free: it may only be given what malloc gave out. */
    method Free(p: Ptr)
      requires p in mem
      modifies this`mem, this`frees
      ensures mem == old(mem) - {p} && frees == old(frees) + 1
    {
      mem := mem - {p};
      frees := frees + 1;
    }

    /** REMOVE_POINTER_FROM_LIST. */
    method Unlink(p: Ptr, ghost k: nat)
      requires Linked(mem, head, blocks) && k < |blocks| && blocks[k] == p
      modifies this`mem, this`head, this`blocks
      ensures NeighboursKnown(old(mem), old(head), p) && mem == Bypass(old(mem), old(head), p)
      ensures blocks == Without(old(blocks), k) && Linked(mem, head, blocks) && p !in blocks
      ensures SameSizes(old(mem), mem)
    {
      BypassUnlinks(mem, head, blocks, k);
      BypassKeepsSizes(mem, head, p);
      var h := mem[p];
      if p == head {
        head := h.pNext;
      } else {
        mem := mem[h.pLast := mem[h.pLast].(pNext := h.pNext)];
      }
      if h.pNext != NULL {
        mem := mem[h.pNext := mem[h.pNext].(pLast := h.pLast)];
      }
      blocks := Without(blocks, k);
    }

    /** Put a new block in front. */
    method Link(p: Ptr, size: Size)
      requires Linked(mem, head, blocks) && p != NULL && p !in blocks
      modifies this`mem, this`head, this`blocks
      ensures Linked(mem, head, blocks) && blocks == [p] + old(blocks)
      ensures mem.Keys == old(mem).Keys + {p} && mem[p].size == size
      ensures forall a :: a in old(mem) && a != p ==> mem[a].size == old(mem)[a].size
    {
      PrependLinks(mem, head, blocks, p, size);
      mem := mem[p := Header(head, NULL, size)];
      if head != NULL {
        mem := mem[head := mem[head].(pLast := p)];
      }
      head := p;
      blocks := [p] + blocks;
    }

    /** The size in the block's header. */
    method SizeOf(p: Ptr) returns (size: Size)
      requires Valid() && p in live
      ensures size == live[p]
    {
      HeldIsKnown(mem, live, rows);
      size := mem[p].size;
    }

    /** _emalloc; `at` is what malloc answers, should it be asked. */
    method Emalloc(size: Size, at: Ptr, shutdownRequested: bool) returns (p: Ptr)
      requires Valid() && !exited && at !in mem
      modifies this
      ensures !exited ==> Valid() && p != NULL && p !in old(live) && live == old(live)[p := size]
      ensures !exited ==> p in mem && mem[p].size == size
      ensures exited <==> AllocExits(old(Books()), size, at == NULL, limit)
      ensures !exited ==> Books() == BookAlloc(old(Books()), size)
      ensures |old(rows)| == MAX_CACHED_MEMORY
      ensures size < MAX_CACHED_MEMORY && |old(rows)[size]| > 0 ==>
                !exited && p == old(rows)[size][|old(rows)[size]| - 1] && mem == old(mem)
                    && allocatedMemory == old(allocatedMemory)
    {
      hide Total, RowOk, Owned, Linked;
      LinkedIsListed(mem, head, blocks);
      if size < MAX_CACHED_MEMORY && |rows[size]| > 0 {
        TakeFromRow(mem, live, rows, size);
        var n := |rows[size]|;
        p := rows[size][n - 1];
        rows := rows[size := rows[size][..n - 1]];
        live := live[p := size];
        return;
      }
      p := at;
      if p == NULL {
        exited := true;
        return;
      }
      NewBlock(p, size, shutdownRequested);
    }

    /** A block malloc has just given out joins the list. */
    method NewBlock(p: Ptr, size: Size, shutdownRequested: bool)
      requires Valid() && !exited && p !in mem && p != NULL
      modifies this
      ensures !exited ==> Valid() && p !in old(live) && live == old(live)[p := size]
      ensures !exited ==> p in mem && mem[p].size == size
      ensures exited <==> Over(old(Sum()) + size, limit)
      ensures !exited ==> Sum() == old(Sum()) + size && rows == old(rows)
    {
      hide Total, RowsOk, Owned, Linked;
      LinkedIsListed(mem, head, blocks);
      Link(p, size);
      mallocs := mallocs + 1;
      Wraps(old(Sum()), size);
      CheckLimit(size, shutdownRequested);
      live := live[p := size];
      LinkedIsListed(mem, head, blocks);
      TotalWith(old(mem), mem, old(blocks), p);
      OwnedAfter(old(mem), mem, old(live), live, rows, p);
    }

    /** The block at place k leaves the list and goes back to the C library. */
    method Release(p: Ptr, ghost k: nat)
      requires Linked(mem, head, blocks) && (forall a :: a in mem ==> a in blocks)
      requires k < |blocks| && blocks[k] == p
      modifies this`mem, this`head, this`blocks, this`frees
      ensures Linked(mem, head, blocks) && (forall a :: a in mem ==> a in blocks)
      ensures p in old(mem) && mem.Keys == old(mem).Keys - {p}
      ensures forall a :: a in mem ==> mem[a].size == old(mem)[a].size
      ensures blocks == Without(old(blocks), k) && p !in blocks && frees == old(frees) + 1
    {
      hide Linked, Bypass;
      Unlink(p, k);
      LinkedWithout(mem, head, blocks, p);
      Free(p);
      forall a | a in mem ensures a in blocks {
        assert a in old(blocks);
        InWithout(old(blocks), k, a);
      }
    }

    /** _efree. */
    method Efree(p: Ptr)
      requires Valid() && !exited && p in live
      modifies this
      ensures Valid() && !exited && live == old(live) - {p}
      ensures Books() == BookFree(old(Books()), old(live)[p])
      ensures |rows| == |old(rows)| == MAX_CACHED_MEMORY
      ensures var size := old(live)[p];
              if size < MAX_CACHED_MEMORY && |old(rows)[size]| < MAX_CACHED_ENTRIES then
                mem == old(mem) && allocatedMemory == old(allocatedMemory) && rows[size] == old(rows)[size] + [p]
              else p !in mem && rows == old(rows)
    {
      hide Total, RowOk, Linked, Distinct, Cached;
      LinkedIsListed(mem, head, blocks);
      var size := mem[p].size;
      if size < MAX_CACHED_MEMORY && |rows[size]| < MAX_CACHED_ENTRIES {
        PutInRow(mem, live, rows, p);
        rows := rows[size := rows[size] + [p]];
        live := live - {p};
        return;
      }
      ghost var k :| 0 <= k < |blocks| && blocks[k] == p;
      DropBlock(p, k);
    }

    method DropBlock(p: Ptr, ghost k: nat)
      requires Valid() && !exited && p in live && k < |blocks| && blocks[k] == p
      modifies this
      ensures Valid() && !exited && live == old(live) - {p}
      ensures Sum() == Minus(old(Sum()), old(live)[p]) && rows == old(rows) && p !in mem
    {
      hide Total, RowsOk, Linked, Distinct, Cached, Without;
      LinkedIsListed(mem, head, blocks);
      var size: int := mem[p].size;
      Release(p, k);
      LinkedIsListed(mem, head, blocks);
      TotalAfter(old(mem), mem, old(blocks), k);
      Wraps(old(Sum()), -size);
      allocatedMemory := (allocatedMemory - size) % WORD;
      live := live - {p};
      OwnedAfter(old(mem), mem, old(live), live, rows, p);
      assert |old(blocks)| == |blocks| + 1 by {
        WithoutLength(old(blocks), k);
      }
    }

    /** _erealloc; `at` is what malloc or realloc answers: the same address or one not in use. */
    method Erealloc(p: Ptr, size: Size, at: Ptr, shutdownRequested: bool) returns (p': Ptr)
      requires Valid() && !exited
      requires p == NULL ==> at !in mem
      requires p != NULL ==> p in live && (at == p || at !in mem)
      modifies this
      ensures !exited ==> Valid() && p' != NULL && p' in live && live[p'] == size
      ensures !exited && p == NULL ==> p' !in old(live) && live == old(live)[p' := size]
      ensures !exited && p != NULL ==> p' !in old(live) - {p} && live == (old(live) - {p})[p' := size]
      ensures p == NULL ==> (exited <==> AllocExits(old(Books()), size, at == NULL, limit))
      ensures p != NULL ==> (exited <==> MoveExits(old(Books()), old(live)[p], size, at == NULL, limit))
      ensures !exited && p == NULL ==> Books() == BookAlloc(old(Books()), size)
      ensures !exited && p != NULL ==> Books() == BookMove(old(Books()), old(live)[p], size)
    {
      hide Total, RowsOk, Owned, Linked, Distinct, Cached, Without;
      if p == NULL {
        p' := Emalloc(size, at, shutdownRequested);
        return;
      }
      p' := at;
      if at == NULL {
        exited := true;
        return;
      }
      assert p in mem by {
        HeldIsKnown(mem, live, rows);
      }
      ghost var k :| 0 <= k < |blocks| && blocks[k] == p;
      Move(p, k, size, at, shutdownRequested);
    }

    method Move(p: Ptr, ghost k: nat, size: Size, at: Ptr, shutdownRequested: bool)
      requires Valid() && !exited && p in live && k < |blocks| && blocks[k] == p && at != NULL
      requires at == p || at !in mem
      modifies this
      ensures !exited ==> Valid() && live == (old(live) - {p})[at := size] && at !in old(live) - {p}
      ensures exited <==> Over(Minus(old(Sum()), old(live)[p]) + size, limit)
      ensures !exited ==> Sum() == Minus(old(Sum()), old(live)[p]) + size && rows == old(rows)
    {
      hide Total, RowsOk, Linked, Owned, Listed;
      HeldIsKnown(mem, live, rows);
      var was: int := mem[p].size;
      Relocate(p, k, size, at);
      Wraps(old(Sum()), size - was);
      CheckLimit(size - was, shutdownRequested);
    }

    /** Everything in a move but the counter. */
    method Relocate(p: Ptr, ghost k: nat, size: Size, at: Ptr)
      requires Valid() && p in live && p in mem && k < |blocks| && blocks[k] == p && at != NULL
      requires at == p || at !in mem
      modifies this`mem, this`head, this`blocks, this`live, this`mallocs, this`frees
      ensures Linked(mem, head, blocks) && (forall a :: a in mem ==> a in blocks)
      ensures RowsOk(mem, live, rows) && Owned(mem, live, rows) && mallocs == frees + |blocks|
      ensures live == (old(live) - {p})[at := size] && at !in old(live) - {p}
      ensures Sum() == old(Sum()) - old(mem)[p].size + size && old(mem)[p].size <= old(Sum())
    {
      hide Total, RowsOk, Linked, Distinct, Owned, Without, Listed;
      LinkedIsListed(mem, head, blocks);
      Release(p, k);
      ghost var mem1 := mem;
      LinkedIsListed(mem, head, blocks);
      Link(at, size);
      mallocs := mallocs + 1;
      LinkedIsListed(mem, head, blocks);
      MoveTotal(old(mem), mem1, mem, old(blocks), k, at);
      MoveOwned(old(mem), mem1, mem, old(live), rows, p, at);
      live := (live - {p})[at := size];
      WithoutLength(old(blocks), k);
    }

    /** shutdown_memory_manager: first the cached blocks, row by row, then whatever is left on the
        list. Nothing that malloc gave out stays behind, and nothing is given back twice. */
    method Shutdown()
      requires Valid()
      modifies this
      ensures mem == map[] && mallocs == frees
    {
      hide Linked, RowsOk, Owned, Total, Without, RowOk;
      ghost var rest := rows;
      var i := 0;
      assert |rows| == MAX_CACHED_MEMORY by {
        RowsAre(mem, live, rows);
      }
      while i < MAX_CACHED_MEMORY
        invariant 0 <= i <= MAX_CACHED_MEMORY == |rest| && rows == old(rows) && live == old(live)
        invariant Linked(mem, head, blocks) && (forall a :: a in mem ==> a in blocks)
        invariant RowsOk(mem, live, rest) && forall s :: i <= s < |rest| ==> rest[s] == rows[s]
        invariant mallocs == frees + |blocks|
      {
        var j := 0;
        while j < |rows[i]|
          invariant |rest| == MAX_CACHED_MEMORY && rows == old(rows) && live == old(live)
          invariant 0 <= j <= |rows[i]| && rest[i] == rows[i][j..]
          invariant Linked(mem, head, blocks) && (forall a :: a in mem ==> a in blocks)
          invariant RowsOk(mem, live, rest) && forall s :: i < s < |rest| ==> rest[s] == rows[s]
          invariant mallocs == frees + |blocks|
        {
          rest := FreeCached(rest, i, rows[i][j]);
          j := j + 1;
        }
        i := i + 1;
      }
      FreeList();
    }

    /** The next block of row i. */
    method FreeCached(ghost rest: seq<seq<Ptr>>, ghost i: nat, p: Ptr) returns (ghost rest': seq<seq<Ptr>>)
      requires Linked(mem, head, blocks) && (forall a :: a in mem ==> a in blocks)
      requires RowsOk(mem, live, rest) && i < |rest| && rest[i] != [] && p == rest[i][0]
      requires mallocs == frees + |blocks|
      modifies this`mem, this`head, this`blocks, this`frees
      ensures rest' == rest[i := rest[i][1..]] && RowsOk(mem, live, rest')
      ensures Linked(mem, head, blocks) && (forall a :: a in mem ==> a in blocks)
      ensures mallocs == frees + |blocks|
    {
      hide Linked, RowsOk, RowOk, Without;
      rest' := rest[i := rest[i][1..]];
      DropFromRow(mem, mem, live, rest, i);
      ghost var k :| 0 <= k < |blocks| && blocks[k] == p;
      WithoutLength(blocks, k);
      Release(p, k);
      DropFromRow(old(mem), mem, live, rest, i);
    }

    /** The walk down the list: each block's successor is read before the block is freed. */
    method FreeList()
      requires Linked(mem, head, blocks) && (forall a :: a in mem ==> a in blocks)
      requires mallocs == frees + |blocks|
      modifies this`mem, this`frees
      ensures mem == map[] && mallocs == frees
    {
      hide Linked, Only, Distinct, NextOf;
      LinksAre(mem, head, blocks);
      ghost var mem0, n := mem, 0;
      OnlySteps(mem0, blocks, 0);
      WalkSteps(mem0, head, blocks, 0);
      var t := head;
      while t != NULL
        invariant 0 <= n <= |blocks| && t == NextOf(blocks, n - 1)
        invariant mem == Only(mem0, blocks[n..])
        invariant mallocs == frees + |blocks| - n
        decreases |blocks| - n
      {
        OnlySteps(mem0, blocks, n);
        WalkSteps(mem0, old(head), blocks, n);
        var p := mem[t].pNext;
        Free(t);
        t := p;
        n := n + 1;
      }
      WalkSteps(mem0, head, blocks, n);
      OnlySteps(mem0, blocks, n);
    }
  }

  lemma HeldIsKnown(mem: Mem, live: map<Ptr, Size>, rows: seq<seq<Ptr>>)
    requires Owned(mem, live, rows)
    ensures forall a :: a in live ==> a in mem && mem[a].size == live[a]
  {
  }

  lemma RowsAre(mem: Mem, live: map<Ptr, Size>, rows: seq<seq<Ptr>>)
    requires RowsOk(mem, live, rows)
    ensures |rows| == MAX_CACHED_MEMORY
  {
  }

  lemma LinksAre(mem: Mem, head: Ptr, bs: seq<Ptr>)
    requires Linked(mem, head, bs)
    ensures head == NextOf(bs, -1) && Distinct(bs)
    ensures forall i :: 0 <= i < |bs| ==> bs[i] != NULL && bs[i] in mem && mem[bs[i]].pNext == NextOf(bs, i)
  {
    forall i | 0 <= i < |bs| ensures bs[i] != NULL && bs[i] in mem && mem[bs[i]].pNext == NextOf(bs, i) {
      assert LinkedAt(mem, bs, i);
    }
  }

  /** The part of the memory that the blocks `bs` make up. */
  function Only(mem: Mem, bs: seq<Ptr>): Mem {
    map a | a in mem && a in bs :: mem[a]
  }

  lemma WalkSteps(mem: Mem, head: Ptr, bs: seq<Ptr>, n: nat)
    requires Linked(mem, head, bs) && n <= |bs|
    ensures NextOf(bs, n - 1) != NULL <==> n < |bs|
    ensures n < |bs| ==> NextOf(bs, n - 1) == bs[n] && bs[n] in mem && mem[bs[n]].pNext == NextOf(bs, n)
  {
    LinksAre(mem, head, bs);
  }

  lemma OnlySteps(mem: Mem, bs: seq<Ptr>, n: nat)
    requires Distinct(bs) && n <= |bs| && forall i :: 0 <= i < |bs| ==> bs[i] in mem
    ensures (forall a :: a in mem ==> a in bs) ==> Only(mem, bs[0..]) == mem
    ensures n < |bs| ==> bs[n] in Only(mem, bs[n..]) && Only(mem, bs[n..])[bs[n]] == mem[bs[n]]
    ensures n < |bs| ==> Only(mem, bs[n..]) - {bs[n]} == Only(mem, bs[n + 1..])
    ensures n == |bs| ==> Only(mem, bs[n..]) == map[]
  {
    if n < |bs| {
      assert bs[n..] == [bs[n]] + bs[n + 1..];
      assert bs[n] !in bs[n + 1..];
    }
    assert bs[0..] == bs;
  }

  lemma InWithout(bs: seq<Ptr>, k: nat, a: Ptr)
    requires k < |bs| && a in bs && a != bs[k]
    ensures a in Without(bs, k)
  {
    var i :| 0 <= i < |bs| && bs[i] == a;
    assert Without(bs, k)[if i < k then i else i - 1] == a;
  }

  lemma WithoutLength(bs: seq<Ptr>, k: nat)
    requires k < |bs|
    ensures |Without(bs, k)| == |bs| - 1
  {
  }

  predicate Listed(mem: Mem, bs: seq<Ptr>) {
    forall i :: 0 <= i < |bs| ==> bs[i] in mem
  }

  // ----- whole requests

  /** One call by the program, on the i-th block it holds; whether the C library would refuse it, and
      the address the library would like to answer with. */
  datatype Call =
    | Alloc(size: Size, fails: bool, hint: Ptr)
    | Release(i: nat)
    | Resize(i: nat, size: Size, fails: bool, hint: Ptr)

  /** The sizes held, with a plain allocator. */
  function PlainStep(held: seq<Size>, c: Call): seq<Size> {
    match c
    case Alloc(size, _, _) => held + [size]
    case Release(i) => if i < |held| then held[..i] + held[i + 1..] else held
    case Resize(i, size, _, _) => if i < |held| then held[i := size] else held
  }

  function PlainRun(held: seq<Size>, calls: seq<Call>): seq<Size>
    decreases |calls|
  {
    if calls == [] then held else PlainRun(PlainStep(held, calls[0]), calls[1..])
  }

  /** The books after a call, when these sizes are held. */
  function Book(l: Ledger, held: seq<Size>, c: Call): Ledger {
    match c
    case Alloc(size, _, _) => BookAlloc(l, size)
    case Release(i) => if i < |held| then BookFree(l, held[i]) else l
    case Resize(i, size, _, _) => if i < |held| then BookMove(l, held[i], size) else l
  }

  predicate CallExits(l: Ledger, held: seq<Size>, c: Call, limit: nat) {
    match c
    case Alloc(size, fails, _) => AllocExits(l, size, fails, limit)
    case Release(_) => false
    case Resize(i, size, fails, _) => i < |held| && MoveExits(l, held[i], size, fails, limit)
  }

  /** Some call of the run ends the process. */
  predicate RunExits(l: Ledger, held: seq<Size>, calls: seq<Call>, limit: nat)
    decreases |calls|
  {
    calls != [] &&
    (CallExits(l, held, calls[0], limit) ||
     RunExits(Book(l, held, calls[0]), PlainStep(held, calls[0]), calls[1..], limit))
  }

  const EMPTY_BOOKS := Ledger(seq(MAX_CACHED_MEMORY, _ => 0), 0)

  predicate Fails(c: Call) {
    !c.Release? && c.fails
  }

  function Requested(calls: seq<Call>): nat {
    if calls == [] then 0 else (if calls[0].Release? then 0 else calls[0].size) + Requested(calls[1..])
  }

  /** A run in which the C library refuses nothing, and which asks for no more than the limit and its
      grace in all, does not end the process. */
  lemma {:induction false} EnoughMemory(l: Ledger, held: seq<Size>, calls: seq<Call>, limit: nat)
    requires forall i :: 0 <= i < |calls| ==> !Fails(calls[i])
    requires l.sum + Requested(calls) <= limit + GRACE
    ensures !RunExits(l, held, calls, limit)
    decreases |calls|
  {
    if calls != [] {
      assert !Fails(calls[0]);
      assert forall i :: 0 <= i < |calls[1..]| ==> calls[1..][i] == calls[i + 1];
      EnoughMemory(Book(l, held, calls[0]), PlainStep(held, calls[0]), calls[1..], limit);
    }
  }

  // ----- the cache

  /** The books after a run. */
  function BookRun(l: Ledger, held: seq<Size>, calls: seq<Call>): Ledger
    decreases |calls|
  {
    if calls == [] then l else BookRun(Book(l, held, calls[0]), PlainStep(held, calls[0]), calls[1..])
  }

  /** A run goes on from where its first part has left the books. */
  lemma {:induction false} RunsAppend(l: Ledger, held: seq<Size>, xs: seq<Call>, ys: seq<Call>, limit: nat)
    ensures BookRun(l, held, xs + ys) == BookRun(BookRun(l, held, xs), PlainRun(held, xs), ys)
    ensures PlainRun(held, xs + ys) == PlainRun(PlainRun(held, xs), ys)
    ensures RunExits(l, held, xs + ys, limit) <==>
            RunExits(l, held, xs, limit) || RunExits(BookRun(l, held, xs), PlainRun(held, xs), ys, limit)
    decreases |xs|
  {
    hide Book, PlainStep, CallExits;
    if xs == [] {
      assert xs + ys == ys;
    } else {
      assert (xs + ys)[1..] == xs[1..] + ys;
      RunsAppend(Book(l, held, xs[0]), PlainStep(held, xs[0]), xs[1..], ys, limit);
    }
  }

  /** Giving back a block of fewer than 64 bytes, while fewer than 16 of its size are waiting, and
      asking for as many bytes again, never ends the process, even if malloc would refuse, and
      leaves the books as they were. */
  lemma {:induction false} ReuseIsFree(l: Ledger, held: seq<Size>, before: seq<Call>, i: nat, fails: bool, hint: Ptr,
                                       limit: nat)
    requires i < |PlainRun(held, before)| && |BookRun(l, held, before).counts| == 64
    requires var size := PlainRun(held, before)[i]; size < 64 && BookRun(l, held, before).counts[size] < 16
    ensures var again := before + [Release(i), Alloc(PlainRun(held, before)[i], fails, hint)];
            && (RunExits(l, held, again, limit) <==> RunExits(l, held, before, limit))
            && BookRun(l, held, again) == BookRun(l, held, before)
  {
    var held1, l1 := PlainRun(held, before), BookRun(l, held, before);
    var two := [Release(i), Alloc(held1[i], fails, hint)];
    RunsAppend(l, held, before, two, limit);
    hide PlainRun;
    assert two[1..] == [two[1]] && two[1..][1..] == [];
    var l2, held2 := Book(l1, held1, two[0]), PlainStep(held1, two[0]);
    assert l2.counts[held1[i]] == l1.counts[held1[i]] + 1;
    assert Book(l2, held2, two[1]).counts == l1.counts;
    assert !RunExits(Book(l2, held2, two[1]), PlainStep(held2, two[1]), two[1..][1..], limit);
    assert !RunExits(l2, held2, two[1..], limit);
    assert BookRun(l2, held2, two[1..]) == l1;
  }

  /** In a run the cache always has its 64 rows. */
  lemma {:induction false} RowsStay(l: Ledger, held: seq<Size>, calls: seq<Call>)
    ensures |BookRun(l, held, calls).counts| == |l.counts|
    decreases |calls|
  {
    if calls != [] {
      RowsStay(Book(l, held, calls[0]), PlainStep(held, calls[0]), calls[1..]);
    }
  }

  /** The process ends when more than the limit and a megabyte are listed, as 32 bits count. */
  lemma OverIs(sum: nat, limit: nat)
    ensures Over(sum, limit) <==> sum % 4294967296 > limit + 1048576
  {
  }

  /** The blocks held are distinct, live and of these sizes, and nothing else is live. */
  ghost predicate Holding(live: map<Ptr, Size>, held: seq<Ptr>, sizes: seq<Size>) {
    && Distinct(held) && |sizes| == |held|
    && (forall i :: 0 <= i < |held| ==> held[i] in live && live[held[i]] == sizes[i])
    && (forall a :: a in live ==> a in held)
  }

  lemma HoldingOneMore(live: map<Ptr, Size>, held: seq<Ptr>, sizes: seq<Size>, p: Ptr, size: Size)
    requires Holding(live, held, sizes) && p !in live
    ensures Holding(live[p := size], held + [p], sizes + [size])
  {
  }

  lemma HoldingOneLess(live: map<Ptr, Size>, held: seq<Ptr>, sizes: seq<Size>, i: nat)
    requires Holding(live, held, sizes) && i < |held|
    ensures Holding(live - {held[i]}, Without(held, i), sizes[..i] + sizes[i + 1..])
  {
    var held', sizes', live' := Without(held, i), sizes[..i] + sizes[i + 1..], live - {held[i]};
    forall j | 0 <= j < |held'| ensures held'[j] in live' && live'[held'[j]] == sizes'[j] {
      assert held'[j] == held[if j < i then j else j + 1];
    }
    forall a | a in live' ensures a in held' {
      InWithout(held, i, a);
    }
  }

  lemma HoldingResized(live: map<Ptr, Size>, held: seq<Ptr>, sizes: seq<Size>, i: nat, p: Ptr, size: Size)
    requires Holding(live, held, sizes) && i < |held| && p !in live - {held[i]}
    ensures Holding((live - {held[i]})[p := size], held[i := p], sizes[i := size])
  {
    var held', live' := held[i := p], (live - {held[i]})[p := size];
    forall a | a in live' ensures a in held' {
      if a != p {
        var j :| 0 <= j < |held| && held[j] == a;
        assert held'[j] == a;
      } else {
        assert held'[i] == p;
      }
    }
  }

  /** An address that is not in use: the first one from `a` on. */
  function Unused(mem: Mem, a: Ptr): (r: Ptr)
    requires a != NULL
    ensures r != NULL && r >= a && r !in mem
    decreases |mem|
  {
    if a in mem then Unused(mem - {a}, a + 1) else a
  }

  /** What malloc or realloc answers: nothing, the block's own address, or one not in use. */
  function Answer(mem: Mem, fails: bool, hint: Ptr, own: Ptr): (r: Ptr)
    ensures fails <==> r == NULL
    ensures r == NULL || (r == own && r == hint) || r !in mem
  {
    if fails then NULL
    else if hint == own && hint != NULL then own
    else Unused(mem, if hint == NULL then 1 else hint)
  }

  method Perform(m: Manager, held: seq<Ptr>, ghost sizes: seq<Size>, c: Call) returns (held': seq<Ptr>)
    requires m.Valid() && !m.exited && NULL !in m.mem && Holding(m.live, held, sizes)
    modifies m
    ensures !m.exited ==> m.Valid() && NULL !in m.mem && Holding(m.live, held', PlainStep(sizes, c))
    ensures m.exited <==> CallExits(old(m.Books()), sizes, c, m.limit)
    ensures !m.exited ==> m.Books() == Book(old(m.Books()), sizes, c)
  {
    hide Owned, RowsOk, Linked, Total, Holding;
    HoldingIs(m.live, held, sizes);
    held' := held;
    match c
    case Alloc(size, fails, hint) =>
      var p := m.Emalloc(size, Answer(m.mem, fails, hint, NULL), false);
      if !m.exited {
        held' := held + [p];
        HoldingOneMore(old(m.live), held, sizes, p, size);
        LinkedIsListed(m.mem, m.head, m.blocks);
      }
    case Release(i) =>
      if i < |held| {
        m.Efree(held[i]);
        held' := Without(held, i);
        HoldingOneLess(old(m.live), held, sizes, i);
        LinkedIsListed(m.mem, m.head, m.blocks);
      }
    case Resize(i, size, fails, hint) =>
      if i < |held| {
        HeldIsKnown(m.mem, m.live, m.rows);
        var p := m.Erealloc(held[i], size, Answer(m.mem, fails, hint, held[i]), false);
        if !m.exited {
          held' := held[i := p];
          HoldingResized(old(m.live), held, sizes, i, p, size);
          LinkedIsListed(m.mem, m.head, m.blocks);
        }
      }
  }

  lemma HoldingIs(live: map<Ptr, Size>, held: seq<Ptr>, sizes: seq<Size>)
    requires Holding(live, held, sizes)
    ensures |sizes| == |held| && forall i :: 0 <= i < |held| ==> held[i] in live && live[held[i]] == sizes[i]
  {
  }

  /** Every run of calls. The process exits exactly if the books say so; otherwise the program holds
      blocks of exactly the sizes a plain allocator would have given it, the memory listed never
      passes the limit and its grace, and once the manager is shut down nothing is left. */
  method Session(calls: seq<Call>, limit: nat) returns (exited: bool, sizes: seq<Size>, peak: nat, left: Mem)
    ensures exited <==> RunExits(EMPTY_BOOKS, [], calls, limit)
    ensures !exited ==> sizes == PlainRun([], calls) && left == map[]
    ensures !exited && (forall i :: 0 <= i < |calls| && !calls[i].Release? ==> limit + GRACE + calls[i].size < WORD) ==>
              peak <= limit + GRACE
  {
    hide Holding, PlainStep, Total, Linked, RowsOk, Owned, Book, CallExits;
    var m := new Manager(limit);
    var held: seq<Ptr> := [];
    ghost var plain: seq<Size> := [];
    NothingHeld();
    assert calls[0..] == calls;
    sizes, peak, left := [], 0, map[];
    var n := 0;
    ghost var small := true;
    while n < |calls|
      invariant 0 <= n <= |calls| && fresh(m) && m.limit == limit
      invariant m.Valid() && !m.exited && NULL !in m.mem && Holding(m.live, held, plain)
      invariant PlainRun([], calls) == PlainRun(plain, calls[n..])
      invariant RunExits(EMPTY_BOOKS, [], calls, limit) == RunExits(m.Books(), plain, calls[n..], limit)
      invariant small <==> forall i :: 0 <= i < n && !calls[i].Release? ==> limit + GRACE + calls[i].size < WORD
      invariant small ==> m.Sum() <= limit + GRACE && peak <= limit + GRACE
    {
      assert calls[n..][0] == calls[n] && calls[n..][1..] == calls[n + 1..];
      StaysBelow(m.Books(), plain, calls[n], limit);
      held := Perform(m, held, plain, calls[n]);
      if m.exited {
        return true, [], 0, map[];
      }
      plain := PlainStep(plain, calls[n]);
      small := small && (calls[n].Release? || limit + GRACE + calls[n].size < WORD);
      if m.allocatedMemory > peak {
        peak := m.allocatedMemory;
      }
      n := n + 1;
    }
    assert calls[n..] == [];
    exited := false;
    HoldingIs(m.live, held, plain);
    HeldIsKnown(m.mem, m.live, m.rows);
    sizes := seq(|held|, i requires 0 <= i < |held| && held[i] in m.mem reads m => m.mem[held[i]].size);
    assert sizes == plain;
    m.Shutdown();
    left := m.mem;
  }

  /** A request that fits 32 bits and does not end the process keeps the list below the limit and its
      grace. */
  lemma StaysBelow(l: Ledger, held: seq<Size>, c: Call, limit: nat)
    ensures l.sum <= limit + GRACE && (c.Release? || limit + GRACE + c.size < WORD) && !CallExits(l, held, c, limit) ==>
              Book(l, held, c).sum <= limit + GRACE
  {
  }

  lemma NothingHeld()
    ensures Holding(map[], [], [])
  {
  }

  /** The block itself comes back: freed into a row with room, it stays where it is, and the next
      request for its size gets it without asking malloc. */
  method FreeAndReuse(m: Manager, p: Ptr, at: Ptr) returns (q: Ptr)
    requires m.Valid() && !m.exited && p in m.live && at !in m.mem
    requires m.live[p] < MAX_CACHED_MEMORY && |m.rows| == MAX_CACHED_MEMORY
    requires |m.rows[m.live[p]]| < MAX_CACHED_ENTRIES
    modifies m
    ensures q == p && !m.exited && m.Valid() && m.live == old(m.live)
    ensures m.mem == old(m.mem) && m.allocatedMemory == old(m.allocatedMemory)
  {
    var size := m.SizeOf(p);
    m.Efree(p);
    q := m.Emalloc(size, at, false);
    assert m.live == old(m.live);
  }
}
