/** Assignments through array paths: what is written is found again. */
module ArrayWrites {
  import opened Machine
  import opened ArrayPath

  /** Arrays lie inside one another: there is a rank that rises from every table to the tables of the
      arrays in it, and with the number of a table yet to be made. */
  ghost predicate Nested(st: St, rank: nat -> nat) {
    && (forall id, k :: id in st.tables && k in st.tables[id].cells && st.tables[id].cells[k].Arr? ==>
          rank(id) < rank(st.tables[id].cells[k].id))
    && (forall id: nat, j: nat :: id < j && st.unused <= j ==> rank(id) < rank(j))
  }

  lemma InitNested(st: St, p: Ptr, rank: nat -> nat)
    requires Wf(st) && Nested(st, rank) && p.Slot? && p.ht in st.tables
    ensures Nested(InitArray(st, p), rank)
  {
  }

  lemma PutNested(st: St, p: Ptr, v: V, rank: nat -> nat)
    requires Nested(st, rank) && p.Slot? && p.ht in st.tables && !v.Arr?
    ensures Nested(Put(st, p, v), rank)
  {
  }

  lemma ElementNested(st: St, d: Dim, i: Index, id: nat, rank: nat -> nat)
    requires Nested(st, rank) && id in st.tables
    ensures Nested(Element(st, d, i, id).0, rank)
  {
  }

  /** Where one index leads: to an element of the array in the cell, which the cell then holds. */
  ghost predicate Enters(d: Dim, st1: St, d1: Dim, rank: nat -> nat) {
    && Ok(st1, d1) && Nested(st1, rank) && d.ptr.Slot? && d1.ptr.Slot?
    && Points(st1, d.ptr) && Get(st1, d.ptr) == Arr(d1.ptr.ht) && rank(d.ptr.ht) < rank(d1.ptr.ht)
    && d1.offset == d.offset
  }

  lemma {:induction false} ElementEnters(st: St, d: Dim, i: Index, id: nat, rank: nat -> nat)
    requires Ok(st, d) && Nested(st, rank) && d.ptr.Slot? && Get(st, d.ptr) == Arr(id)
    ensures var (st1, d1) := Element(st, d, i, id);
            d1.ptr.Slot? ==> Enters(d, st1, d1, rank)
  {
    hide Wf, Nested;
    ArrayIsDeeper(st, d.ptr, rank);
    ElementOk(st, d, i, id);
    ElementNested(st, d, i, id, rank);
  }

  lemma ArrayIsDeeper(st: St, p: Ptr, rank: nat -> nat)
    requires Wf(st) && Nested(st, rank) && Points(st, p) && Get(st, p).Arr?
    ensures Get(st, p).id in st.tables && rank(p.ht) < rank(Get(st, p).id)
  {
  }

  lemma {:induction false} FetchEnters(st: St, d: Dim, i: Index, rank: nat -> nat)
    requires Ok(st, d) && Nested(st, rank) && d.ptr.Slot? && !Get(st, d.ptr).Text?
    ensures var (st1, d1) := Fetch(st, d, i);
            d1.ptr.Slot? ==> Enters(d, st1, d1, rank)
  {
    hide Wf, Nested, Enters, Element, InitArray;
    var v := Get(st, d.ptr);
    if v.Arr? {
      ElementEnters(st, d, i, v.id, rank);
    } else if Blank(v) {
      InitOk(st, d.ptr);
      InitNested(st, d.ptr, rank);
      InitHolds(st, d.ptr);
      ElementEnters(InitArray(st, d.ptr), d, i, st.unused, rank);
    }
  }

  // ----- what a lookup leaves as it is

  /** Cells stay, and arrays stay the arrays they are. */
  ghost predicate KeepsArrays(st: St, st': St) {
    && st.unused <= st'.unused
    && (forall p :: Points(st, p) ==> Points(st', p))
    && (forall p :: Points(st, p) && Get(st, p).Arr? ==> Get(st', p) == Get(st, p))
  }

  lemma ElementKeepsArrays(st: St, d: Dim, i: Index, id: nat)
    requires Wf(st) && id in st.tables
    ensures KeepsArrays(st, Element(st, d, i, id).0)
  {
  }

  lemma InitKeepsArrays(st: St, p: Ptr)
    requires Wf(st) && Points(st, p) && !Get(st, p).Arr?
    ensures KeepsArrays(st, InitArray(st, p)) && InitArray(st, p).unused == st.unused + 1
  {
  }

  /** A lookup that goes on from a blank cell makes an array of it. */
  lemma {:induction false} FetchKeepsArrays(st: St, d: Dim, i: Index)
    requires Ok(st, d)
    ensures KeepsArrays(st, Fetch(st, d, i).0)
    ensures d.ptr.Slot? && Blank(Get(st, d.ptr)) ==> Fetch(st, d, i).0.unused > st.unused
    ensures var d1 := Fetch(st, d, i).1;
            d.ptr.Slot? && d1.ptr.Slot? && !Get(st, d.ptr).Text? ==> Get(Fetch(st, d, i).0, d.ptr) == Arr(d1.ptr.ht)
  {
    hide Wf, Element, InitArray;
    if d.ptr.Slot? {
      var v := Get(st, d.ptr);
      if v.Arr? {
        ArrayIsKnown(st, d.ptr);
        ElementKeepsArrays(st, d, i, v.id);
        ElementIsIn(st, d, i, v.id);
      } else if Blank(v) {
        InitOk(st, d.ptr);
        InitHolds(st, d.ptr);
        InitKeepsArrays(st, d.ptr);
        ElementKeepsArrays(InitArray(st, d.ptr), d, i, st.unused);
        ElementIsIn(InitArray(st, d.ptr), d, i, st.unused);
      }
    }
  }

  lemma ArrayIsKnown(st: St, p: Ptr)
    requires Wf(st) && Points(st, p) && Get(st, p).Arr?
    ensures Get(st, p).id in st.tables
  {
  }

  lemma ElementIsIn(st: St, d: Dim, i: Index, id: nat)
    requires id in st.tables
    ensures var d1 := Element(st, d, i, id).1; d1.ptr.Slot? ==> d1.ptr.ht == id
  {
  }

  lemma {:induction false} ProbeKeepsArrays(st: St, d: Dim, path: seq<Index>)
    requires Ok(st, d)
    ensures KeepsArrays(st, Probe(st, d, path).0)
    decreases |path|
  {
    hide Fetch, Wf;
    if path != [] {
      FetchOk(st, d, path[0]);
      FetchKeepsArrays(st, d, path[0]);
      ProbeKeepsArrays(Fetch(st, d, path[0]).0, Fetch(st, d, path[0]).1, path[1..]);
    }
  }

  // ----- the way a path takes

  /** The cells a path goes through before its last one. */
  function Trail(st: St, d: Dim, path: seq<Index>): seq<Ptr>
    requires Ok(st, d)
    decreases |path|
  {
    if path == [] then []
    else
      FetchOk(st, d, path[0]);
      [d.ptr] + Trail(Fetch(st, d, path[0]).0, Fetch(st, d, path[0]).1, path[1..])
  }

  /** Where arrays are nested no path comes back to a cell it has gone through. */
  lemma {:induction false} NestedPathsDoNotReturn(st: St, d: Dim, path: seq<Index>, rank: nat -> nat)
    requires Ok(st, d) && Nested(st, rank) && d.ptr.Slot? && d.offset == -1
    requires var d1 := Probe(st, d, path).1; d1.ptr.Slot? && d1.offset == -1
    ensures var d1 := Probe(st, d, path).1;
            && rank(d.ptr.ht) <= rank(d1.ptr.ht) && (path != [] ==> rank(d.ptr.ht) < rank(d1.ptr.ht))
            && d1.ptr !in Trail(st, d, path)
            && (forall p :: p in Trail(st, d, path) ==> p.Slot? && rank(p.ht) < rank(d1.ptr.ht))
    decreases |path|
  {
    hide Fetch, Wf, Nested;
    if path != [] {
      FetchOk(st, d, path[0]);
      var (sa, da) := Fetch(st, d, path[0]);
      if Get(st, d.ptr).Text? {
        TextIsIndexed(st, d, path);
      } else if da.ptr.Nowhere? {
        NowhereStays(sa, da, path[1..]);
      } else {
        FetchEnters(st, d, path[0], rank);
        NestedPathsDoNotReturn(sa, da, path[1..], rank);
      }
    }
  }

  // ----- the second lookup

  /** The path with every `[]` replaced by the index it was given. */
  function Resolve(st: St, d: Dim, path: seq<Index>): (r: seq<Index>)
    requires Ok(st, d)
    ensures |r| == |path|
    decreases |path|
  {
    if path == [] then []
    else
      FetchOk(st, d, path[0]);
      var (st1, d1) := Fetch(st, d, path[0]);
      [if path[0].Next? && d1.ptr.Slot? && d1.ptr.key.Idx? then At(d1.ptr.key.n) else path[0]]
      + Resolve(st1, d1, path[1..])
  }

  lemma {:induction false} NothingToResolve(st: St, d: Dim, path: seq<Index>)
    requires Ok(st, d) && forall i :: 0 <= i < |path| ==> !path[i].Next?
    ensures Resolve(st, d, path) == path
    decreases |path|
  {
    if path != [] {
      FetchOk(st, d, path[0]);
      assert !path[0].Next?;
      assert forall i :: 0 <= i < |path[1..]| ==> path[1..][i] == path[i + 1];
      NothingToResolve(Fetch(st, d, path[0]).0, Fetch(st, d, path[0]).1, path[1..]);
      assert path == [path[0]] + path[1..];
    }
  }

  /** A string that is indexed is not left through its cell as a whole. */
  lemma {:induction false} TextIsIndexed(st: St, d: Dim, path: seq<Index>)
    requires Ok(st, d) && d.ptr.Slot? && Get(st, d.ptr).Text? && path != []
    ensures var d' := Probe(st, d, path).1; d'.ptr.Slot? ==> d'.offset != -1
    decreases |path|
  {
    var (st1, d1) := Fetch(st, d, path[0]);
    if d1.ptr.Nowhere? {
      NowhereStays(st, d1, path[1..]);
    } else if |path| > 1 {
      TextIsIndexed(st, d1, path[1..]);
    } else {
      assert path[1..] == [];
    }
  }

  /** From any cell on, once the last cell has been written: if the path did not go through it, the
      same path leads there again and changes nothing. */
  lemma {:induction false} WalkedAgain(st: St, d: Dim, path: seq<Index>, v: V, write: bool)
    requires Ok(st, d) && d.ptr.Slot? && d.offset == -1 && !v.Arr?
    requires var d1 := Probe(st, d, path).1; d1.ptr.Slot? && d1.offset == -1 && d1.ptr !in Trail(st, d, path)
    ensures var (st1, d1) := Probe(st, d, path);
            && Ok(st1, d1)
            && (var st2 := Put(st1, d1.ptr, v);
                && Wf(st2) && Points(st2, d.ptr) && (path != [] ==> Get(st2, d.ptr).Arr?)
                && Probe(st2, Dim(d.ptr, write, -1), Resolve(st, d, path)) == (st2, Dim(d1.ptr, write, -1)))
    decreases |path|
  {
    hide Fetch, Wf;
    var (st1, d1) := Probe(st, d, path);
    ProbeOk(st, d, path);
    PutOk(st1, d1.ptr, v);
    var st2 := Put(st1, d1.ptr, v);
    if path != [] {
      FetchOk(st, d, path[0]);
      var (sa, da) := Fetch(st, d, path[0]);
      if Get(st, d.ptr).Text? {
        TextIsIndexed(st, d, path);
      } else if da.ptr.Nowhere? {
        NowhereStays(sa, da, path[1..]);
      } else {
        KeepsOffset(st, d, path[0]);
        WalkedAgain(sa, da, path[1..], v, write);
        StepAgain(st, d, path, v, write);
      }
    }
  }

  /** If the path did go through it, it does not. */
  lemma {:induction false} NotWalkedAgain(st: St, d: Dim, path: seq<Index>, v: V)
    requires Ok(st, d) && d.ptr.Slot? && d.offset == -1 && !v.Arr? && !v.Null?
    requires var d1 := Probe(st, d, path).1; d1.ptr.Slot? && d1.offset == -1 && d1.ptr in Trail(st, d, path)
    ensures var (st1, d1) := Probe(st, d, path);
            && Ok(st1, d1)
            && (var st2 := Put(st1, d1.ptr, v);
                && Wf(st2) && Points(st2, d.ptr)
                && Probe(st2, Dim(d.ptr, false, -1), Resolve(st, d, path)) != (st2, Dim(d1.ptr, false, -1)))
    decreases |path|
  {
    hide Fetch, Wf;
    var (st1, d1) := Probe(st, d, path);
    ProbeOk(st, d, path);
    PutOk(st1, d1.ptr, v);
    var st2 := Put(st1, d1.ptr, v);
    FetchOk(st, d, path[0]);
    var (sa, da) := Fetch(st, d, path[0]);
    ProbeKeepsArrays(st, d, path);
    if Get(st, d.ptr).Text? {
      TextIsIndexed(st, d, path);
    } else if da.ptr.Nowhere? {
      NowhereStays(sa, da, path[1..]);
    } else if d.ptr == d1.ptr {
      Derailed(st2, Dim(d.ptr, false, -1), Resolve(st, d, path));
    } else {
      KeepsOffset(st, d, path[0]);
      NotWalkedAgain(sa, da, path[1..], v);
      StepAgain(st, d, path, v, false);
    }
  }

  /** From a cell that is no array a path does not come to a cell without changing anything. */
  lemma {:induction false} Derailed(st: St, d: Dim, path: seq<Index>)
    requires Ok(st, d) && d.ptr.Slot? && !Get(st, d.ptr).Arr? && path != [] && d.offset == -1
    ensures var (st1, d1) := Probe(st, d, path); st1 != st || d1.ptr.Nowhere? || d1.offset != -1
  {
    hide Fetch, Wf;
    FetchOk(st, d, path[0]);
    var (sa, da) := Fetch(st, d, path[0]);
    FetchKeepsArrays(st, d, path[0]);
    ProbeKeepsArrays(sa, da, path[1..]);
    if Get(st, d.ptr).Text? {
      TextIsIndexed(st, d, path);
    } else if Get(st, d.ptr).Scalar? {
      ScalarLeadsNowhere(st, d, path[0]);
      NowhereStays(sa, da, path[1..]);
    }
  }

  lemma ScalarLeadsNowhere(st: St, d: Dim, i: Index)
    requires Ok(st, d) && d.ptr.Slot? && Get(st, d.ptr).Scalar?
    ensures Fetch(st, d, i) == (st, d.(ptr := Nowhere))
  {
  }

  /** The first step of the second lookup, through a cell other than the one written. */
  lemma {:induction false} StepAgain(st: St, d: Dim, path: seq<Index>, v: V, write: bool)
    requires Ok(st, d) && d.ptr.Slot? && d.offset == -1 && !v.Arr? && path != [] && !Get(st, d.ptr).Text?
    requires Fetch(st, d, path[0]).1.ptr.Slot?
    requires var d1 := Probe(st, d, path).1; d1.ptr.Slot? && d1.ptr != d.ptr
    ensures var (st1, d1) := Probe(st, d, path);
            var (sa, da) := Fetch(st, d, path[0]);
            && Ok(st1, d1) && Ok(sa, da) && da.offset == -1
            && (var st2 := Put(st1, d1.ptr, v);
                && Wf(st2) && Points(st2, d.ptr) && Get(st2, d.ptr).Arr? && Points(st2, da.ptr)
                && Probe(st2, Dim(d.ptr, write, -1), Resolve(st, d, path)) ==
                   Probe(st2, Dim(da.ptr, write, -1), Resolve(sa, da, path[1..])))
  {
    hide Fetch, Wf;
    var (st1, d1) := Probe(st, d, path);
    ProbeOk(st, d, path);
    PutOk(st1, d1.ptr, v);
    var st2 := Put(st1, d1.ptr, v);
    var i := path[0];
    FetchOk(st, d, i);
    var (sa, da) := Fetch(st, d, i);
    FetchKeepsArrays(st, d, i);
    ProbeKeepsArrays(sa, da, path[1..]);
    KeepsOffset(st, d, i);
    assert Resolve(st, d, path)[1..] == Resolve(sa, da, path[1..]);
    FetchedAgain(st, d, i, st2, write);
  }

  lemma KeepsOffset(st: St, d: Dim, i: Index)
    requires Ok(st, d) && d.ptr.Slot? && !Get(st, d.ptr).Text?
    ensures Fetch(st, d, i).1.offset == d.offset
  {
  }

  lemma {:induction false} FetchedAgain(st: St, d: Dim, i: Index, st2: St, write: bool)
    requires Ok(st, d) && d.ptr.Slot? && d.offset == -1 && !Get(st, d.ptr).Text? && Wf(st2)
    requires var da := Fetch(st, d, i).1;
             && da.ptr.Slot? && Points(st2, d.ptr) && Get(st2, d.ptr) == Arr(da.ptr.ht) && Points(st2, da.ptr)
    ensures var da := Fetch(st, d, i).1;
            var j := if i.Next? && da.ptr.key.Idx? then At(da.ptr.key.n) else i;
            Fetch(st2, Dim(d.ptr, write, -1), j) == (st2, Dim(da.ptr, write, -1))
  {
  }

  lemma PutOk(st: St, p: Ptr, v: V)
    requires Wf(st) && Points(st, p) && !v.Arr?
    ensures Wf(Put(st, p, v)) && forall q :: Points(st, q) ==> Points(Put(st, p, v), q)
    ensures forall q :: Points(st, q) && q != p ==> Get(Put(st, p, v), q) == Get(st, q)
  {
  }

  /** What is assigned through a path is found again. If a lookup of at least one index ends at a cell
      and a value is put there, then a second lookup of the path, with the numbers that `[]` was
      given, arrives at the same cell, finds the value and changes nothing, if and only if the path
      does not go through that very cell; isset() then says so too. */
  lemma {:induction false} WriteIsFound(st: St, a: nat, name: string, path: seq<Index>, stale: bool, v: V)
    requires Wf(st) && a in st.tables && path != [] && (v.Text? || v.Scalar? || v.Empty?)
    requires var d := Lookup(st, a, name, path, stale).1; d.ptr.Slot? && d.offset == -1
    ensures var (st', d) := Lookup(st, a, name, path, stale);
            var (st1, d1) := Start(st, a, name, stale);
            && Points(st', d.ptr) && Ok(st1, d1)
            && (var again := Resolve(st1, d1, path);
                var st2 := Put(st', d.ptr, v);
                && Wf(st2) && a in st2.tables && Get(st2, d.ptr) == v
                && (Lookup(st2, a, name, again, false) == (st2, Dim(d.ptr, false, -1)) <==>
                    d.ptr !in Trail(st1, d1, path))
                && (d.ptr !in Trail(st1, d1, path) ==> Leads(st2, a, name, again)))
  {
    hide Fetch, Probe, Resolve, Trail, Wf, LeadsAt;
    StartOk(st, a, name, stale);
    var (st1, d1) := Start(st, a, name, stale);
    ProbeOk(st1, d1, path);
    var (st3, d) := Probe(st1, d1, path);
    if d1.ptr.Nowhere? {
      NowhereStays(st1, d1, path);
    }
    PutTwice(st3, d, v);
    var st2 := Put(st3, d.ptr, v);
    var again := Resolve(st1, d1, path);
    if d.ptr !in Trail(st1, d1, path) {
      WalkedAgain(st1, d1, path, v, false);
      LookupAnswers(st2, a, name, again, false);
    } else {
      NotWalkedAgain(st1, d1, path, v);
      SecondLookup(st2, a, name, again, d.ptr);
    }
  }

  /** A lookup that leaves the tables as they are and ends at a cell is a walk from the variable on. */
  lemma {:induction false} SecondLookup(st: St, a: nat, name: string, path: seq<Index>, p: Ptr)
    requires Wf(st) && a in st.tables && Points(st, Slot(a, Name(name)))
    requires Ok(st, Dim(Slot(a, Name(name)), false, -1)) && p.Slot?
    requires Probe(st, Dim(Slot(a, Name(name)), false, -1), path) != (st, Dim(p, false, -1))
    ensures Lookup(st, a, name, path, false) != (st, Dim(p, false, -1))
  {
    hide Probe, Fetch;
    StartOk(st, a, name, false);
    var (st1, d1) := Start(st, a, name, false);
    ProbeOk(st1, d1, path);
    if d1.ptr.Nowhere? {
      NowhereStays(st1, d1, path);
    } else {
      var f := FateOf(st, d1, path);
      var (st2, d2) := Probe(st1, d1, path);
      if !d2.write && Settle(st2, d2) == st {
        SettledSame(f, st, st2, d2);
      }
    }
  }

  lemma {:induction false} SettledSame(f: Fate, st0: St, st: St, d: Dim)
    requires Ok(st, d) && Went(f, st0, st, d) && !d.write && Settle(st, d) == st0
    ensures st == st0
  {
  }

  /** In nested arrays every write is found again. */
  lemma {:induction false} NestedWriteIsFound(st: St, a: nat, name: string, path: seq<Index>, stale: bool, v: V,
                                              rank: nat -> nat)
    requires Wf(st) && Nested(st, rank) && a in st.tables && path != [] && (v.Text? || v.Scalar? || v.Empty?)
    requires var d := Lookup(st, a, name, path, stale).1; d.ptr.Slot? && d.offset == -1
    requires forall i :: 0 <= i < |path| ==> !path[i].Next?
    ensures var (st', d) := Lookup(st, a, name, path, stale);
            && Points(st', d.ptr)
            && (var st2 := Put(st', d.ptr, v);
                && Wf(st2) && a in st2.tables && Leads(st2, a, name, path)
                && Lookup(st2, a, name, path, false) == (st2, Dim(d.ptr, false, -1)) && Get(st2, d.ptr) == v)
  {
    hide Fetch, Probe, Resolve, Trail, Wf, LeadsAt, Nested;
    StartOk(st, a, name, stale);
    var (st1, d1) := Start(st, a, name, stale);
    if d1.ptr.Nowhere? {
      NowhereStays(st1, d1, path);
    }
    StartNested(st, a, name, stale, rank);
    NestedPathsDoNotReturn(st1, d1, path, rank);
    NothingToResolve(st1, d1, path);
    WriteIsFound(st, a, name, path, stale, v);
  }

  /** An array that holds itself: what is assigned to its element replaces the array. */
  lemma {:induction false} SelfReferenceIsLost()
    ensures var st := St(map[0 := Table(map[Name("a") := Arr(0)], 0)], 1, Nil);
            && Wf(st)
            && (var (st', d) := Lookup(st, 0, "a", [Named("a", 0)], false);
                && d == Dim(Slot(0, Name("a")), false, -1) && Points(st', d.ptr)
                && Put(st', d.ptr, Scalar).tables[0].cells == map[Name("a") := Scalar])
  {
    var st := St(map[0 := Table(map[Name("a") := Arr(0)], 0)], 1, Nil);
    var p := Slot(0, Name("a"));
    assert Points(st, p) && Get(st, p) == Arr(0);
    var d := Dim(p, false, -1);
    FetchOk(st, d, Named("a", 0));
    assert Fetch(st, d, Named("a", 0)) == (st, d);
    assert [Named("a", 0)][1..] == [];
    assert Probe(st, d, [Named("a", 0)]) == (st, d);
  }

  lemma StartNested(st: St, a: nat, name: string, stale: bool, rank: nat -> nat)
    requires Wf(st) && Nested(st, rank) && a in st.tables
    ensures Nested(Start(st, a, name, stale).0, rank)
  {
    InitNested(st, Slot(a, Name(name)), rank);
  }

  lemma PutTwice(st: St, d: Dim, v: V)
    requires Ok(st, d) && d.ptr.Slot?
    ensures Points(Settle(st, d), d.ptr) && Put(Settle(st, d), d.ptr, v) == Put(st, d.ptr, v)
    ensures Points(Put(st, d.ptr, v), d.ptr) && Get(Put(st, d.ptr, v), d.ptr) == v
  {
    if Get(st, d.ptr).Null? {
      var t, k := st.tables[d.ptr.ht], d.ptr.key;
      assert t.cells[k := Empty][k := v] == t.cells[k := v];
    }
  }

  /** Once something has been created, there is nothing yet where the path stands. */
  predicate NothingYet(st: St, d: Dim) {
    d.write && Points(st, d.ptr) ==>
      var v := Get(st, d.ptr);
      v.Null? || (v.Arr? && v.id in st.tables && st.tables[v.id].cells == map[])
  }

  lemma {:induction false} FetchNothingYet(st: St, d: Dim, i: Index)
    requires Ok(st, d) && NothingYet(st, d)
    ensures var (st1, d1) := Fetch(st, d, i);
            d1.write && d1.ptr.Slot? ==> Points(st1, d1.ptr) && Get(st1, d1.ptr).Null?
  {
    FetchOk(st, d, i);
    if d.ptr.Slot? {
      InitHolds(st, d.ptr);
    }
  }

  lemma {:induction false} ProbeNothingYet(st: St, d: Dim, path: seq<Index>)
    requires Ok(st, d) && NothingYet(st, d) && path != []
    ensures var (st1, d1) := Probe(st, d, path);
            d1.write && d1.ptr.Slot? ==> Points(st1, d1.ptr) && Get(st1, d1.ptr).Null?
    decreases |path|
  {
    hide Fetch;
    FetchOk(st, d, path[0]);
    FetchNothingYet(st, d, path[0]);
    if |path| > 1 {
      ProbeNothingYet(Fetch(st, d, path[0]).0, Fetch(st, d, path[0]).1, path[1..]);
    } else {
      assert path[1..] == [];
    }
  }

  /** An element that a lookup has created holds the empty string. */
  lemma {:induction false} NewElementIsEmpty(st: St, a: nat, name: string, path: seq<Index>)
    requires Wf(st) && a in st.tables && path != []
    ensures var (st', d) := Lookup(st, a, name, path, false);
            d.write && d.ptr.Slot? ==> Points(st', d.ptr) && Get(st', d.ptr) == Empty
  {
    hide Fetch, Probe;
    StartOk(st, a, name, false);
    var (st1, d1) := Start(st, a, name, false);
    ProbeOk(st1, d1, path);
    InitHolds(st, Slot(a, Name(name)));
    ProbeNothingYet(st1, d1, path);
  }

  /** `[]` makes an element behind every numbered one. */
  lemma {:induction false} AppendIsLast(st: St, d: Dim, id: nat)
    requires Wf(st) && id in st.tables
    ensures var (st', d') := Element(st, d, Next, id);
            && d'.ptr.Slot? && d'.ptr.ht == id && d'.ptr.key.Idx? && d'.write
            && Points(st', d'.ptr) && d'.ptr.key !in st.tables[id].cells
            && (forall m :: Idx(m) in st.tables[id].cells ==> m < d'.ptr.key.n)
            && st'.tables[id].cells == st.tables[id].cells[d'.ptr.key := Null]
  {
  }

  /** An index into a string is the offset of the character asked for. */
  lemma {:induction false} OffsetIsIndex(st: St, a: nat, name: string, i: Index, stale: bool)
    requires Wf(st) && Points(st, Slot(a, Name(name))) && Get(st, Slot(a, Name(name))).Text?
    requires !i.Next? && 0 <= i.n < |Get(st, Slot(a, Name(name))).s|
    ensures Lookup(st, a, name, [i], stale) == (st, Dim(Slot(a, Name(name)), false, i.n))
  {
    var d := Dim(Slot(a, Name(name)), false, -1);
    assert [i][1..] == [];
    assert Probe(st, d, [i]) == (st, d.(offset := i.n));
  }
}
