/** Looking up an array element by path (start_array_parsing, fetch_array_index,
    end_array_parsing): what is missing on the way is created, the outermost creation is
    remembered, and a probe such as isset() takes it back (clean_unassigned_variable_top). */
module ArrayPath {
  import opened Machine

  // ----- tables of variables and array elements

  datatype Key = Idx(n: int) | Name(s: string)

  /** A cell: IS_NULL, the shared empty string, the shared string of undefined variables, another
      string, another scalar, or an array, which is a table of its own. */
  datatype V = Null | Empty | Undefined | Text(s: string) | Scalar | Arr(id: nat)

  predicate Blank(v: V) {
    v.Null? || v.Empty? || v.Undefined?
  }

  predicate ArrayOrString(v: V) {
    v.Arr? || v.Text? || v.Empty? || v.Undefined?
  }

  /** `next` is the hash table's next free index. */
  datatype Table = Table(cells: map<Key, V>, next: int)

  datatype Ptr = Nowhere | Slot(ht: nat, key: Key)

  /** variable_tracker. */
  datatype Tracker = Tracker(ht: nat, key: Key)

  datatype St = St(tables: map<nat, Table>, unused: nat, trackers: Stack<Tracker>)

  /** The semantic value of a path so far: array_write, the cell, and a string offset if any. */
  datatype Dim = Dim(ptr: Ptr, write: bool, offset: int)

  /** An index: a number, a string (with its number), one of another type, or none, `[]`. */
  datatype Index = At(n: int) | Named(s: string, n: int) | Bad(n: int) | Next

  predicate Points(st: St, p: Ptr) {
    p.Slot? && p.ht in st.tables && p.key in st.tables[p.ht].cells
  }

  function Get(st: St, p: Ptr): V
    requires Points(st, p)
  {
    st.tables[p.ht].cells[p.key]
  }

  function Put(st: St, p: Ptr, v: V): St
    requires p.Slot? && p.ht in st.tables
  {
    var t := st.tables[p.ht];
    st.(tables := st.tables[p.ht := t.(cells := t.cells[p.key := v])])
  }

  /** Tables are numbered as they are made, and every array has one. */
  ghost predicate Wf(st: St) {
    && (forall id :: id in st.tables ==> id < st.unused)
    && (forall id, k :: id in st.tables && k in st.tables[id].cells && st.tables[id].cells[k].Arr? ==>
          st.tables[id].cells[k].id in st.tables)
    && (forall id, n :: id in st.tables && n >= st.tables[id].next ==> Idx(n) !in st.tables[id].cells)
  }

  // ----- the operations

  /** array_init on a cell. */
  function InitArray(st: St, p: Ptr): St
    requires p.Slot? && p.ht in st.tables
  {
    var st1 := Put(st, p, Arr(st.unused));
    st1.(tables := st1.tables[st.unused := Table(map[], 0)], unused := st.unused + 1)
  }

  /** A new element, IS_NULL. */
  function Insert(st: St, id: nat, k: Key): St
    requires id in st.tables
  {
    var t := st.tables[id];
    var next := if k.Idx? && k.n >= t.next then k.n + 1 else t.next;
    st.(tables := st.tables[id := Table(t.cells[k := Null], next)])
  }

  /** start_array_parsing and start_dimensions_parsing in the active table `a`. When the variable is
      neither array nor string, array_write keeps whatever it held before. */
  function Start(st: St, a: nat, name: string, stale: bool): (St, Dim)
    requires a in st.tables
  {
    var p := Slot(a, Name(name));
    if !Points(st, p) then
      (InitArray(st, p).(trackers := Push(Tracker(a, Name(name)), st.trackers)), Dim(p, true, -1))
    else if ArrayOrString(Get(st, p)) then (st, Dim(p, false, -1))
    else (st, Dim(Nowhere, stale, -1))
  }

  /** fetch_array_index. */
  function Fetch(st: St, d: Dim, i: Index): (St, Dim)
    requires Wf(st) && (d.ptr.Slot? ==> Points(st, d.ptr))
  {
    if d.ptr.Nowhere? then (st, d)
    else
      match Get(st, d.ptr)
      case Text(s) =>
        if d.offset != -1 || i.Next? || i.n < 0 || i.n >= |s| then (st, d.(ptr := Nowhere)) else (st, d.(offset := i.n))
      case Scalar => (st, d.(ptr := Nowhere))
      case Arr(id) => Element(st, d, i, id)
      case _ => Element(InitArray(st, d.ptr), d, i, st.unused)
  }

  /** The rest of fetch_array_index, once the cell is known to be the array `id`. */
  function Element(st: St, d: Dim, i: Index, id: nat): (St, Dim)
    requires id in st.tables
  {
    match i
    case At(n) => Member(st, d, id, Idx(n))
    case Named(s, _) => Member(st, d, id, Name(s))
    case Bad(_) => (st, d.(ptr := Nowhere))
    case Next => Create(st, d, id, Idx(st.tables[id].next))
  }

  function Member(st: St, d: Dim, id: nat, k: Key): (St, Dim)
    requires id in st.tables
  {
    if k in st.tables[id].cells then (st, d.(ptr := Slot(id, k))) else Create(st, d, id, k)
  }

  function Create(st: St, d: Dim, id: nat, k: Key): (St, Dim)
    requires id in st.tables
  {
    var st1 := Insert(st, id, k);
    (if d.write then st1 else st1.(trackers := Push(Tracker(id, k), st.trackers)),
        d.(ptr := Slot(id, k), write := true))
  }

  /** end_array_parsing. */
  function Settle(st: St, d: Dim): St
    requires d.ptr.Slot? ==> Points(st, d.ptr)
  {
    if d.ptr.Slot? && Get(st, d.ptr).Null? then Put(st, d.ptr, Empty) else st
  }

  /** clean_unassigned_variable_top with deletion. */
  function Undo(st: St): St {
    if st.trackers.Nil? then st
    else
      var t := st.trackers.top;
      var st1 := st.(trackers := st.trackers.rest);
      if t.ht !in st.tables then st1
      else
        var tab := st.tables[t.ht];
        st1.(tables := st.tables[t.ht := tab.(cells := tab.cells - {t.key})])
  }

  ghost predicate Ok(st: St, d: Dim) {
    Wf(st) && (d.ptr.Slot? ==> Points(st, d.ptr))
  }

  // ----- steps keep the tables in order

  lemma InitOk(st: St, p: Ptr)
    requires Wf(st) && p.Slot? && p.ht in st.tables && (Points(st, p) || p.key.Name?)
    ensures Wf(InitArray(st, p)) && Points(InitArray(st, p), p)
  {
  }

  lemma InitHolds(st: St, p: Ptr)
    requires Wf(st) && p.Slot? && p.ht in st.tables
    ensures st.unused in InitArray(st, p).tables
    ensures Points(InitArray(st, p), p) && Get(InitArray(st, p), p) == Arr(st.unused)
  {
  }

  lemma InsertOk(st: St, id: nat, k: Key)
    requires Wf(st) && id in st.tables
    ensures Wf(Insert(st, id, k)) && Points(Insert(st, id, k), Slot(id, k))
  {
  }

  lemma FetchOk(st: St, d: Dim, i: Index)
    requires Ok(st, d)
    ensures Ok(Fetch(st, d, i).0, Fetch(st, d, i).1)
  {
    if d.ptr.Slot? {
      InitOk(st, d.ptr);
      ElementOk(InitArray(st, d.ptr), d, i, st.unused);
      if Get(st, d.ptr).Arr? {
        ElementOk(st, d, i, Get(st, d.ptr).id);
      }
    }
  }

  lemma ElementOk(st: St, d: Dim, i: Index, id: nat)
    requires Wf(st) && (id in st.tables)
    ensures Ok(Element(st, d, i, id).0, Element(st, d, i, id).1)
  {
    InsertOk(st, id, Idx(st.tables[id].next));
    if i.At? {
      InsertOk(st, id, Idx(i.n));
    } else if i.Named? {
      InsertOk(st, id, Name(i.s));
    }
  }

  function Probe(st: St, d: Dim, path: seq<Index>): (St, Dim)
    requires Ok(st, d)
    decreases |path|
  {
    if path == [] then (st, d)
    else
      FetchOk(st, d, path[0]);
      Probe(Fetch(st, d, path[0]).0, Fetch(st, d, path[0]).1, path[1..])
  }

  // ----- the three things that can have happened, compared with the tables at the start

  /** Nothing. */
  ghost predicate Unchanged(st0: St, st: St, d: Dim) {
    st == st0 && !d.write
  }

  /** In a table made since, or the one cell created in an old table. */
  predicate IsNew(st0: St, t: Tracker, p: Ptr) {
    p.Slot? && (p.ht >= st0.unused || (p.ht == t.ht && p.key == t.key))
  }

  ghost predicate OnlyNewArrays(st0: St, t: Tracker, st: St) {
    forall ht: nat, k :: Points(st, Slot(ht, k)) && IsNew(st0, t, Slot(ht, k)) && Get(st, Slot(ht, k)).Arr? ==>
                      Get(st, Slot(ht, k)).id >= st0.unused
  }

  function CellsBut(st: St, id: nat, t: Tracker): map<Key, V>
    requires id in st.tables
  {
    if id == t.ht then st.tables[id].cells - {t.key} else st.tables[id].cells
  }

  /** One cell was created in an old table; it is on record, and everything else old is as it was. */
  ghost predicate Created(st0: St, st: St, d: Dim, t: Tracker) {
    && d.write && st.trackers == Push(t, st0.trackers)
    && t.ht in st0.tables && t.key !in st0.tables[t.ht].cells && st0.unused <= st.unused
    && (forall id :: id in st0.tables ==> id in st.tables && CellsBut(st, id, t) == st0.tables[id].cells)
    && (d.ptr.Slot? ==> IsNew(st0, t, d.ptr))
    && OnlyNewArrays(st0, t, st)
  }

  /** An old empty cell became an array, which no record tells of. */
  ghost predicate Spoiled(st0: St, st: St, d: Dim, p0: Ptr) {
    && Points(st0, p0) && !Get(st0, p0).Arr? && Points(st, p0) && Get(st, p0).Arr?
    && st0.unused <= st.unused && p0.ht < st0.unused
    && (if d.write then st.trackers.Push? && st.trackers.rest == st0.trackers && st.trackers.top.ht >= st0.unused
        else st.trackers == st0.trackers)
    && (d.ptr.Slot? ==> d.ptr.ht >= st0.unused)
    && (forall ht: nat, k :: Points(st, Slot(ht, k)) && ht >= st0.unused && Get(st, Slot(ht, k)).Arr? ==>
          Get(st, Slot(ht, k)).id >= st0.unused)
  }

  lemma CreatedInit(st0: St, st: St, d: Dim, t: Tracker)
    requires Wf(st0) && Ok(st, d) && Created(st0, st, d, t) && d.ptr.Slot? && !Get(st, d.ptr).Arr?
    ensures Created(st0, InitArray(st, d.ptr), d, t) && st.unused >= st0.unused
  {
  }

  lemma CreatedElement(st0: St, st: St, d: Dim, t: Tracker, i: Index, id: nat)
    requires Wf(st0) && Wf(st) && Created(st0, st, d, t) && id in st.tables && id >= st0.unused
    ensures Created(st0, Element(st, d, i, id).0, Element(st, d, i, id).1, t)
  {
  }

  lemma CreatedStays(st0: St, st: St, d: Dim, t: Tracker, i: Index)
    requires Wf(st0) && Ok(st, d) && Created(st0, st, d, t)
    ensures Created(st0, Fetch(st, d, i).0, Fetch(st, d, i).1, t)
  {
    if d.ptr.Slot? {
      var v := Get(st, d.ptr);
      if v.Arr? {
        CreatedElement(st0, st, d, t, i, v.id);
      } else if Blank(v) {
        CreatedInit(st0, st, d, t);
        InitOk(st, d.ptr);
        CreatedElement(st0, InitArray(st, d.ptr), d, t, i, st.unused);
      }
    }
  }

  lemma SpoiledInit(st0: St, st: St, d: Dim, p0: Ptr)
    requires Wf(st0) && Ok(st, d) && Spoiled(st0, st, d, p0) && d.ptr.Slot?
    ensures Spoiled(st0, InitArray(st, d.ptr), d, p0) && st.unused >= st0.unused
  {
  }

  lemma SpoiledElement(st0: St, st: St, d: Dim, p0: Ptr, i: Index, id: nat)
    requires Wf(st0) && Wf(st) && Spoiled(st0, st, d, p0) && id in st.tables && id >= st0.unused
    ensures Spoiled(st0, Element(st, d, i, id).0, Element(st, d, i, id).1, p0)
  {
  }

  lemma SpoiledStays(st0: St, st: St, d: Dim, p0: Ptr, i: Index)
    requires Wf(st0) && Ok(st, d) && Spoiled(st0, st, d, p0)
    ensures Spoiled(st0, Fetch(st, d, i).0, Fetch(st, d, i).1, p0)
  {
    if d.ptr.Slot? {
      var v := Get(st, d.ptr);
      if v.Arr? {
        SpoiledElement(st0, st, d, p0, i, v.id);
      } else if Blank(v) {
        SpoiledInit(st0, st, d, p0);
        InitOk(st, d.ptr);
        SpoiledElement(st0, InitArray(st, d.ptr), d, p0, i, st.unused);
      }
    }
  }

  // ----- when a probe leaves no trace

  /** A path whose existing part meets no empty cell where it must go on, and no IS_NULL cell. The
      caller can see this before the probe. */
  ghost predicate Clear(st: St, id: nat, path: seq<Index>)
    requires Wf(st) && id in st.tables
    decreases |path|, 0
  {
    path == [] || path[0].Bad? || path[0].Next?
    || (var k := if path[0].At? then Idx(path[0].n) else Name(path[0].s);
        k !in st.tables[id].cells || ClearAt(st, Slot(id, k), path[1..]))
  }

  ghost predicate ClearAt(st: St, p: Ptr, path: seq<Index>)
    requires Wf(st) && Points(st, p)
    decreases |path|, 1
  {
    match Get(st, p)
    case Arr(id) => Clear(st, id, path)
    case Null => false
    case Empty => path == []
    case Undefined => path == []
    case _ => true
  }

  predicate RootIsArrayOrString(st: St, a: nat, name: string) {
    var p := Slot(a, Name(name));
    Points(st, p) ==> ArrayOrString(Get(st, p))
  }

  /** What the tables hold; the next free index is not part of it. */
  predicate SameContents(st0: St, st: St) {
    forall id :: id in st0.tables ==> id in st.tables && st.tables[id].cells == st0.tables[id].cells
  }

  /** isset() and unset() of something that was not there. */
  function TakeBack(st: St, d: Dim): St {
    if d.write then Undo(st) else st
  }

  /** How a probe can have gone: nothing new, stopped at an IS_NULL cell, one creation on record, or
      an empty cell overwritten. */
  datatype Fate = Same | AtNull | Made(t: Tracker) | Spoilt(p0: Ptr)

  ghost predicate Went(f: Fate, st0: St, st: St, d: Dim) {
    match f
    case Same => Unchanged(st0, st, d) && (d.ptr.Slot? ==> Points(st, d.ptr) && !Get(st, d.ptr).Null?)
    case AtNull => Unchanged(st0, st, d) && Points(st, d.ptr) && Get(st, d.ptr).Null?
    case Made(t) => Created(st0, st, d, t)
    case Spoilt(p0) => Spoiled(st0, st, d, p0)
  }

  lemma {:induction false} MadeStays(st0: St, st: St, d: Dim, t: Tracker, path: seq<Index>)
    requires Wf(st0) && Ok(st, d) && Created(st0, st, d, t)
    ensures Created(st0, Probe(st, d, path).0, Probe(st, d, path).1, t)
    decreases |path|
  {
    hide Created, Fetch;
    if path != [] {
      FetchOk(st, d, path[0]);
      CreatedStays(st0, st, d, t, path[0]);
      MadeStays(st0, Fetch(st, d, path[0]).0, Fetch(st, d, path[0]).1, t, path[1..]);
    }
  }

  lemma {:induction false} SpoiltStays(st0: St, st: St, d: Dim, p0: Ptr, path: seq<Index>)
    requires Wf(st0) && Ok(st, d) && Spoiled(st0, st, d, p0)
    ensures Spoiled(st0, Probe(st, d, path).0, Probe(st, d, path).1, p0)
    decreases |path|
  {
    hide Spoiled, Fetch;
    if path != [] {
      FetchOk(st, d, path[0]);
      SpoiledStays(st0, st, d, p0, path[0]);
      SpoiltStays(st0, Fetch(st, d, path[0]).0, Fetch(st, d, path[0]).1, p0, path[1..]);
    }
  }

  lemma {:induction false} NowhereStays(st: St, d: Dim, path: seq<Index>)
    requires Wf(st) && d.ptr.Nowhere?
    ensures Probe(st, d, path) == (st, d)
    decreases |path|
  {
    if path != [] {
      NowhereStays(st, d, path[1..]);
    }
  }

  /** A string is indexed once at most, and never written. */
  lemma {:induction false} TextStays(st: St, d: Dim, path: seq<Index>)
    requires Ok(st, d) && d.ptr.Slot? && Get(st, d.ptr).Text?
    ensures Probe(st, d, path).0 == st && Probe(st, d, path).1.write == d.write
    ensures Probe(st, d, path).1.ptr in {d.ptr, Nowhere}
    decreases |path|
  {
    if path != [] {
      var (st1, d1) := Fetch(st, d, path[0]);
      if d1.ptr.Nowhere? {
        NowhereStays(st, d1, path[1..]);
      } else {
        TextStays(st, d1, path[1..]);
      }
    }
  }

  /** The fate of a path that starts at an old cell can be read off the tables. */
  lemma {:induction false} FateOf(st: St, d: Dim, path: seq<Index>) returns (f: Fate)
    requires Ok(st, d) && d.ptr.Slot? && !d.write
    ensures Went(f, st, Probe(st, d, path).0, Probe(st, d, path).1)
    ensures ClearAt(st, d.ptr, path) <==> f.Same? || f.Made?
    decreases |path|
  {
    hide Created, Spoiled;
    var v := Get(st, d.ptr);
    if path == [] {
      f := if v.Null? then AtNull else Same;
    } else if v.Text? {
      TextStays(st, d, path);
      f := Same;
    } else if v.Scalar? {
      NowhereStays(st, d.(ptr := Nowhere), path[1..]);
      f := Same;
    } else if v.Arr? {
      f := FateIn(st, d, path, v.id);
    } else {
      f := Spoilt(d.ptr);
      var (st1, d1) := Fetch(st, d, path[0]);
      FetchOk(st, d, path[0]);
      Spoils(st, d, path[0]);
      SpoiltStays(st, st1, d1, d.ptr, path[1..]);
    }
  }

  lemma Spoils(st: St, d: Dim, i: Index)
    requires Ok(st, d) && d.ptr.Slot? && !d.write && Blank(Get(st, d.ptr))
    ensures Spoiled(st, Fetch(st, d, i).0, Fetch(st, d, i).1, d.ptr)
  {
    InitOk(st, d.ptr);
    SpoilsInit(st, d);
    var d' := d.(ptr := Nowhere);
    SpoiledElement(st, InitArray(st, d.ptr), d', d.ptr, i, st.unused);
  }

  lemma SpoilsInit(st: St, d: Dim)
    requires Ok(st, d) && d.ptr.Slot? && !d.write && Blank(Get(st, d.ptr))
    ensures Spoiled(st, InitArray(st, d.ptr), d.(ptr := Nowhere), d.ptr)
  {
  }

  lemma {:induction false} FateIn(st: St, d: Dim, path: seq<Index>, id: nat) returns (f: Fate)
    requires Ok(st, d) && d.ptr.Slot? && !d.write && Get(st, d.ptr) == Arr(id) && path != []
    ensures Went(f, st, Probe(st, d, path).0, Probe(st, d, path).1)
    ensures Clear(st, id, path) <==> f.Same? || f.Made?
    decreases |path|, 0
  {
    hide Created, Spoiled;
    var i := path[0];
    FetchOk(st, d, i);
    if i.Bad? {
      NowhereStays(st, d.(ptr := Nowhere), path[1..]);
      f := Same;
    } else {
      var k := if i.Next? then Idx(st.tables[id].next) else if i.At? then Idx(i.n) else Name(i.s);
      if k !in st.tables[id].cells {
        f := Made(Tracker(id, k));
        Makes(st, d, id, k);
        MadeStays(st, Create(st, d, id, k).0, Create(st, d, id, k).1, Tracker(id, k), path[1..]);
      } else {
        f := FateOf(st, d.(ptr := Slot(id, k)), path[1..]);
      }
    }
  }

  lemma Makes(st: St, d: Dim, id: nat, k: Key)
    requires Ok(st, d) && !d.write && id in st.tables && k !in st.tables[id].cells
    ensures Created(st, Create(st, d, id, k).0, Create(st, d, id, k).1, Tracker(id, k))
  {
  }

  // ----- the theorem

  function Lookup(st: St, a: nat, name: string, path: seq<Index>, stale: bool): (r: (St, Dim))
    requires Wf(st) && a in st.tables
  {
    StartOk(st, a, name, stale);
    var (st1, d1) := Start(st, a, name, stale);
    var (st2, d2) := Probe(st1, d1, path);
    ProbeOk(st1, d1, path);
    (Settle(st2, d2), d2)
  }

  lemma StartOk(st: St, a: nat, name: string, stale: bool)
    requires Wf(st) && a in st.tables
    ensures Ok(Start(st, a, name, stale).0, Start(st, a, name, stale).1)
  {
    InitOk(st, Slot(a, Name(name)));
  }

  lemma {:induction false} ProbeOk(st: St, d: Dim, path: seq<Index>)
    requires Ok(st, d)
    ensures Ok(Probe(st, d, path).0, Probe(st, d, path).1)
    decreases |path|
  {
    hide Fetch;
    if path != [] {
      FetchOk(st, d, path[0]);
      ProbeOk(Fetch(st, d, path[0]).0, Fetch(st, d, path[0]).1, path[1..]);
    }
  }

  ghost predicate ClearRoot(st: St, a: nat, name: string, path: seq<Index>)
    requires Wf(st)
  {
    Points(st, Slot(a, Name(name))) && RootIsArrayOrString(st, a, name) ==> ClearAt(st, Slot(a, Name(name)), path)
  }

  /** One creation is on record if array_write is set, and none otherwise. */
  predicate Recorded(st: St, st': St, d: Dim) {
    if d.write then st'.trackers.Push? && st'.trackers.rest == st.trackers else st'.trackers == st.trackers
  }

  /** A variable that is neither array nor string, met while array_write is still set from earlier. */
  predicate Stray(st: St, a: nat, name: string, stale: bool) {
    stale && !RootIsArrayOrString(st, a, name)
  }

  /** The last record names a cell that is there. */
  predicate RecordIsLive(st: St) {
    st.trackers.Push? && Points(st, Slot(st.trackers.top.ht, st.trackers.top.key))
  }

  /** Looking up a path of any depth records at most one creation, exactly when array_write ends up
      set, and taking it back leaves the records as they were, and every table's contents too if and
      only if the path was clear. The exception is the stray flag: nothing is looked up or recorded,
      yet a record is taken back. It is another's, if there is any, and the cell it names is lost. */
  lemma {:induction false} ProbeLeavesNoTrace(st: St, a: nat, name: string, path: seq<Index>, stale: bool)
    requires Wf(st) && a in st.tables
    ensures var (st', d) := Lookup(st, a, name, path, stale);
            && (Recorded(st, st', d) <==> !Stray(st, a, name, stale))
            && (TakeBack(st', d).trackers == st.trackers <==> !Stray(st, a, name, stale) || st.trackers.Nil?)
            && (Stray(st, a, name, stale) ==> st' == st && TakeBack(st', d) == Undo(st))
            && (SameContents(st, TakeBack(st', d)) <==>
                if Stray(st, a, name, stale) then !RecordIsLive(st) else ClearRoot(st, a, name, path))
  {
    hide ClearRoot, Lookup;
    if Stray(st, a, name, stale) {
      StaleWriteFlag(st, a, name, path, stale);
      StackShrinks(st.trackers);
      UndoDeletes(st);
    } else {
      OwnRecordTakenBack(st, a, name, path, stale);
    }
  }

  function Depth(s: Stack<Tracker>): nat {
    if s.Nil? then 0 else 1 + Depth(s.rest)
  }

  lemma {:induction false} StackShrinks(s: Stack<Tracker>)
    ensures s.Push? ==> s.rest != s
  {
    assert s.Push? ==> Depth(s) == 1 + Depth(s.rest);
  }

  lemma {:induction false} UndoDeletes(st: St)
    ensures SameContents(st, Undo(st)) <==> !RecordIsLive(st)
  {
    if RecordIsLive(st) {
      var t := st.trackers.top;
      assert t.key !in Undo(st).tables[t.ht].cells;
    } else if st.trackers.Push? && st.trackers.top.ht in st.tables {
      var t := st.trackers.top;
      assert st.tables[t.ht].cells - {t.key} == st.tables[t.ht].cells;
    }
  }

  /** The stray flag at work: looking for an element of the number `x` deletes the new variable `y`. */
  lemma {:induction false} StrayFlagDeletes()
    ensures var t := Tracker(0, Name("y"));
            var st := St(map[0 := Table(map[Name("x") := Scalar, Name("y") := Empty], 0)], 1, Push(t, Nil));
            && Wf(st)
            && (var (st', d) := Lookup(st, 0, "x", [At(1)], true);
                TakeBack(st', d) == St(map[0 := Table(map[Name("x") := Scalar], 0)], 1, Nil))
  {
    var t := Tracker(0, Name("y"));
    var cells := map[Name("x") := Scalar, Name("y") := Empty];
    var st := St(map[0 := Table(cells, 0)], 1, Push(t, Nil));
    assert Points(st, Slot(0, Name("x"))) && Get(st, Slot(0, Name("x"))) == Scalar;
    StaleWriteFlag(st, 0, "x", [At(1)], true);
    assert cells - {Name("y")} == map[Name("x") := Scalar];
    assert st.tables[0 := Table(map[Name("x") := Scalar], 0)] == map[0 := Table(map[Name("x") := Scalar], 0)];
  }

  lemma OwnRecordTakenBack(st: St, a: nat, name: string, path: seq<Index>, stale: bool)
    requires Wf(st) && a in st.tables && !Stray(st, a, name, stale)
    ensures var (st', d) := Lookup(st, a, name, path, stale);
            && Recorded(st, st', d) && TakeBack(st', d).trackers == st.trackers
            && (SameContents(st, TakeBack(st', d)) <==> ClearRoot(st, a, name, path))
  {
    hide Created, Spoiled, SameContents, ClearAt, Probe, Settle;
    StartOk(st, a, name, stale);
    var (st1, d1) := Start(st, a, name, stale);
    var (st2, d2) := Probe(st1, d1, path);
    ProbeOk(st1, d1, path);
    if d1.write {
      StartMakes(st, a, name);
      MadeStays(st, st1, d1, Tracker(a, Name(name)), path);
      TakenBack(Made(Tracker(a, Name(name))), st, st2, d2);
    } else if d1.ptr.Slot? {
      var f := FateOf(st, d1, path);
      TakenBack(f, st, st2, d2);
    } else {
      NowhereStays(st, d1, path);
      TakenBack(Same, st, st, d1);
    }
  }

  /** A variable that is neither array nor string changes nothing, but lets through an array_write
      left over from earlier, with no creation to go with it. */
  lemma StaleWriteFlag(st: St, a: nat, name: string, path: seq<Index>, stale: bool)
    requires Wf(st) && a in st.tables && !RootIsArrayOrString(st, a, name)
    ensures Lookup(st, a, name, path, stale) == (st, Dim(Nowhere, stale, -1))
  {
    NowhereStays(st, Dim(Nowhere, stale, -1), path);
  }

  lemma StartMakes(st: St, a: nat, name: string)
    requires Wf(st) && a in st.tables && !Points(st, Slot(a, Name(name)))
    ensures Created(st, Start(st, a, name, false).0, Start(st, a, name, false).1, Tracker(a, Name(name)))
    ensures Start(st, a, name, false) == Start(st, a, name, true)
  {
  }

  lemma TakenBack(f: Fate, st0: St, st: St, d: Dim)
    requires Wf(st0) && Ok(st, d) && Went(f, st0, st, d)
    ensures var st' := Settle(st, d);
            && Recorded(st0, st', d)
            && TakeBack(st', d).trackers == st0.trackers
            && (SameContents(st0, TakeBack(st', d)) <==> f.Same? || f.Made?)
  {
    match f
    case Same =>
    case AtNull =>
      assert Settle(st, d).tables[d.ptr.ht].cells[d.ptr.key] != st0.tables[d.ptr.ht].cells[d.ptr.key];
    case Made(t) => MadeTakenBack(t, st0, st, d);
    case Spoilt(p0) => SpoiltTakenBack(p0, st0, st, d);
  }

  lemma MadeTakenBack(t: Tracker, st0: St, st: St, d: Dim)
    requires Wf(st0) && Ok(st, d) && Created(st0, st, d, t)
    ensures SameContents(st0, Undo(Settle(st, d)))
  {
    var st' := Undo(Settle(st, d));
    forall id | id in st0.tables ensures id in st'.tables && st'.tables[id].cells == st0.tables[id].cells {
      assert CellsBut(st, id, t) == st0.tables[id].cells;
    }
  }

  lemma SpoiltTakenBack(p0: Ptr, st0: St, st: St, d: Dim)
    requires Wf(st0) && Ok(st, d) && Spoiled(st0, st, d, p0)
    ensures !SameContents(st0, TakeBack(Settle(st, d), d))
  {
    var st' := TakeBack(Settle(st, d), d);
    assert st'.tables[p0.ht].cells[p0.key] != st0.tables[p0.ht].cells[p0.key];
  }

  /** An example of a path that is not clear: an element of a variable that holds the empty string.
      The probe turns the variable into an array for good. */
  lemma EmptyStringIsSpoilt()
    ensures var st := St(map[0 := Table(map[Name("a") := Empty], 0)], 1, Nil);
            && Wf(st) && !ClearRoot(st, 0, "a", [At(7)])
            && (var (st', d) := Lookup(st, 0, "a", [At(7)], false);
                TakeBack(st', d).tables[0].cells == map[Name("a") := Arr(1)])
  {
    var st := St(map[0 := Table(map[Name("a") := Empty], 0)], 1, Nil);
    var p := Slot(0, Name("a"));
    assert Points(st, p) && Get(st, p) == Empty;
    var d := Dim(p, false, -1);
    FetchOk(st, d, At(7));
    var (st1, d1) := Fetch(st, d, At(7));
    assert [At(7)][1..] == [];
    assert Probe(st, d, [At(7)]) == (st1, d1);
    assert d1 == Dim(Slot(1, Idx(7)), true, -1);
  }

  // ----- what isset() answers

  /** The path leads to a cell that is there and not undefined. Of a string, one character can be
      asked for. */
  ghost predicate LeadsAt(st: St, p: Ptr, path: seq<Index>)
    requires Wf(st) && Points(st, p)
    decreases |path|
  {
    match Get(st, p)
    case Undefined => false
    case Text(s) => path == [] || (|path| == 1 && !path[0].Next? && 0 <= path[0].n < |s|)
    case Arr(id) =>
      path == [] ||
      (!path[0].Bad? && !path[0].Next? &&
       (var k := if path[0].At? then Idx(path[0].n) else Name(path[0].s);
        k in st.tables[id].cells && LeadsAt(st, Slot(id, k), path[1..])))
    case _ => path == []
  }

  /** The same from the variable on; one that is no array or string has no elements. */
  ghost predicate Leads(st: St, a: nat, name: string, path: seq<Index>)
    requires Wf(st)
  {
    var p := Slot(a, Name(name));
    Points(st, p) && ArrayOrString(Get(st, p)) && LeadsAt(st, p, path)
  }

  /** php3_isset: array_write is clear, there is a cell, and it is not undefined. */
  predicate AnswersSet(st: St, d: Dim) {
    !d.write && Points(st, d.ptr) && !Get(st, d.ptr).Undefined?
  }

  lemma {:induction false} WriteStays(st: St, d: Dim, path: seq<Index>)
    requires Ok(st, d) && (d.write || d.ptr.Nowhere?)
    ensures var d' := Probe(st, d, path).1; d'.write || d'.ptr.Nowhere?
    decreases |path|
  {
    if path != [] {
      FetchOk(st, d, path[0]);
      WriteStays(Fetch(st, d, path[0]).0, Fetch(st, d, path[0]).1, path[1..]);
    }
  }

  lemma {:induction false} TextLeads(st: St, d: Dim, path: seq<Index>)
    requires Ok(st, d) && d.ptr.Slot? && Get(st, d.ptr).Text? && !d.write && d.offset >= -1
    ensures var (st', d') := Probe(st, d, path);
            AnswersSet(st', d') <==>
            path == [] || (d.offset == -1 && LeadsAt(st, d.ptr, path))
    decreases |path|
  {
    if path != [] {
      var (st1, d1) := Fetch(st, d, path[0]);
      if d1.ptr.Nowhere? {
        NowhereStays(st, d1, path[1..]);
      } else {
        TextLeads(st, d1, path[1..]);
      }
    }
  }

  lemma {:induction false} ProbeAnswers(st: St, d: Dim, path: seq<Index>)
    requires Ok(st, d) && d.ptr.Slot? && !d.write && d.offset == -1
    ensures var (st', d') := Probe(st, d, path); AnswersSet(st', d') <==> LeadsAt(st, d.ptr, path)
    decreases |path|
  {
    var v := Get(st, d.ptr);
    if path != [] {
      var i := path[0];
      var (st1, d1) := Fetch(st, d, i);
      FetchOk(st, d, i);
      if v.Text? {
        TextLeads(st, d, path);
      } else if v.Arr? && d1.ptr.Slot? && !d1.write {
        ProbeAnswers(st, d1, path[1..]);
      } else {
        WriteStays(st1, d1, path[1..]);
      }
    }
  }

  /** The answer, after the path has been passed and its last cell reset, can be read off the tables. */
  lemma {:induction false} LookupAnswers(st: St, a: nat, name: string, path: seq<Index>, stale: bool)
    requires Wf(st) && a in st.tables
    ensures var (st', d) := Lookup(st, a, name, path, stale); AnswersSet(st', d) <==> Leads(st, a, name, path)
  {
    StartOk(st, a, name, stale);
    var (st1, d1) := Start(st, a, name, stale);
    ProbeOk(st1, d1, path);
    if d1.ptr.Slot? && !d1.write {
      ProbeAnswers(st, d1, path);
    } else {
      WriteStays(st1, d1, path);
    }
  }

  // ----- in place

  class Symbols {
    var tables: map<nat, Table>
    var unused: nat
    var trackers: Stack<Tracker>

    ghost function View(): St
      reads this
    {
      St(tables, unused, trackers)
    }

    method SetCell(p: Ptr, v: V)
      requires p.Slot? && p.ht in tables
      modifies this`tables
      ensures View() == Put(old(View()), p, v)
    {
      var t := tables[p.ht];
      tables := tables[p.ht := t.(cells := t.cells[p.key := v])];
    }

    method MakeArray(p: Ptr) returns (id: nat)
      requires p.Slot? && p.ht in tables
      modifies this`tables, this`unused
      ensures View() == InitArray(old(View()), p) && id == old(unused)
    {
      id := unused;
      SetCell(p, Arr(id));
      tables := tables[id := Table(map[], 0)];
      unused := unused + 1;
    }

    method StartArray(a: nat, name: string, stale: bool) returns (d: Dim)
      requires a in tables
      modifies this
      ensures (View(), d) == Start(old(View()), a, name, stale)
    {
      var p := Slot(a, Name(name));
      if p.key !in tables[a].cells {
        var _ := MakeArray(p);
        trackers := Push(Tracker(a, p.key), trackers);
        return Dim(p, true, -1);
      }
      var v := tables[a].cells[p.key];
      d := if ArrayOrString(v) then Dim(p, false, -1) else Dim(Nowhere, stale, -1);
    }

    method FetchElement(d: Dim, i: Index, id: nat) returns (r: Dim)
      requires id in tables
      modifies this
      ensures (View(), r) == Element(old(View()), d, i, id)
    {
      if i.Bad? {
        return d.(ptr := Nowhere);
      }
      var t := tables[id];
      var k := if i.At? then Idx(i.n) else if i.Named? then Name(i.s) else Idx(t.next);
      r := d.(ptr := Slot(id, k));
      if i.Next? || k !in t.cells {
        tables := tables[id := Table(t.cells[k := Null], if k.Idx? && k.n >= t.next then k.n + 1 else t.next)];
        r := r.(write := true);
        if !d.write {
          trackers := Push(Tracker(id, k), trackers);
        }
      }
    }

    method FetchIndex(d: Dim, i: Index) returns (r: Dim)
      requires Ok(View(), d)
      modifies this
      ensures (View(), r) == Fetch(old(View()), d, i) && Ok(View(), r)
    {
      hide Element, InitArray;
      FetchOk(View(), d, i);
      if d.ptr.Nowhere? {
        return d;
      }
      var v := tables[d.ptr.ht].cells[d.ptr.key];
      if v.Text? {
        if d.offset != -1 || i.Next? || i.n < 0 || i.n >= |v.s| {
          return d.(ptr := Nowhere);
        }
        return d.(offset := i.n);
      }
      if v.Scalar? {
        return d.(ptr := Nowhere);
      }
      if v.Arr? {
        r := FetchElement(d, i, v.id);
      } else {
        InitHolds(View(), d.ptr);
        var id := MakeArray(d.ptr);
        r := FetchElement(d, i, id);
      }
    }

    method EndArray(d: Dim)
      requires d.ptr.Slot? ==> Points(View(), d.ptr)
      modifies this`tables
      ensures View() == Settle(old(View()), d)
    {
      if d.ptr.Slot? && tables[d.ptr.ht].cells[d.ptr.key].Null? {
        SetCell(d.ptr, Empty);
      }
    }

    method CleanTop()
      modifies this
      ensures View() == Undo(old(View()))
    {
      if trackers.Push? {
        var t := trackers.top;
        if t.ht in tables {
          tables := tables[t.ht := tables[t.ht].(cells := tables[t.ht].cells - {t.key})];
        }
        trackers := trackers.rest;
      }
    }

    /** isset() of an element: the lookup, the answer, and the undoing. */
    method Isset(a: nat, name: string, path: seq<Index>, stale: bool) returns (answer: bool)
      requires Wf(View()) && a in tables
      modifies this
      ensures answer <==> Leads(old(View()), a, name, path)
      ensures trackers == old(trackers) <==> !Stray(old(View()), a, name, stale) || old(trackers).Nil?
      ensures SameContents(old(View()), View()) <==>
              if Stray(old(View()), a, name, stale) then !RecordIsLive(old(View()))
              else ClearRoot(old(View()), a, name, path)
    {
      hide Probe, Settle, Undo, ClearRoot, SameContents, Start, Fetch, Stray, RecordIsLive, Leads;
      ProbeLeavesNoTrace(View(), a, name, path, stale);
      LookupAnswers(View(), a, name, path, stale);
      StartOk(View(), a, name, stale);
      var d := StartArray(a, name, stale);
      ghost var st1, d1 := View(), d;
      var n := 0;
      assert path[0..] == path;
      while n < |path|
        invariant 0 <= n <= |path| && Ok(View(), d)
        invariant Probe(st1, d1, path) == Probe(View(), d, path[n..])
      {
        ProbeStep(View(), d, path[n..]);
        assert path[n..][1..] == path[n + 1..];
        d := FetchIndex(d, path[n]);
        n := n + 1;
      }
      ProbeDone(View(), d, path[n..]);
      SettleKeeps(View(), d);
      EndArray(d);
      answer := !d.write && d.ptr.Slot? && !tables[d.ptr.ht].cells[d.ptr.key].Undefined?;
      if d.write {
        CleanTop();
      }
    }
  }

  lemma SettleKeeps(st: St, d: Dim)
    requires Ok(st, d)
    ensures d.ptr.Slot? ==> Points(Settle(st, d), d.ptr)
  {
  }

  lemma ProbeStep(st: St, d: Dim, path: seq<Index>)
    requires Ok(st, d) && path != []
    ensures Ok(Fetch(st, d, path[0]).0, Fetch(st, d, path[0]).1)
    ensures Probe(st, d, path) == Probe(Fetch(st, d, path[0]).0, Fetch(st, d, path[0]).1, path[1..])
  {
    FetchOk(st, d, path[0]);
  }

  lemma ProbeDone(st: St, d: Dim, path: seq<Index>)
    requires Ok(st, d) && path == []
    ensures Probe(st, d, path) == (st, d)
  {
  }
}
