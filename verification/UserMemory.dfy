/** User address spaces over the page tables: mappages, uvmunmap, uvmalloc, uvmdealloc, uvmcopy, freewalk and
    uvmfree (kernel/vm.c). */
module UserMemory {
  import opened Bytes
  import opened PageTable

  datatype Outcome = Done | OutOfMemory | Panic

  // ---------------------------------------------------------------- insert and remove on the flat map

  /** Pages [v0, v0 + n) map to consecutive frames from `ppn` on; every other page is as before. */
  ghost predicate Inserted(m0: Mem, t0: Tree, m: Mem, t: Tree, v0: nat, n: nat, ppn: nat, perm: nat)
  {
    && Within(m0, t0, m, t) && m.data == m0.data
    && forall v: nat :: v < MAXVPN ==>
         PteAt(m, t, v) == if v0 <= v < v0 + n then Pack(ppn + (v - v0), WithV(perm)) else PteAt(m0, t0, v)
  }

  lemma InsertWalk(m0: Mem, t0: Tree, m: Mem, t: Tree, m1: Mem, t1: Tree, v0: nat, n: nat, ppn: nat, perm: nat)
    requires Inserted(m0, t0, m, t, v0, n, ppn, perm) && Walking(m, t, m1, t1)
    ensures Inserted(m0, t0, m1, t1, v0, n, ppn, perm)
  {
    hide Pack, WithV, PteAt, Wf, Sound, Frames, TreeFrames, Within;
    WithinTrans(m0, t0, m, t, m1, t1);
    assert Wf(m0, t0) && Wf(m1, t1) && Wf(m, t) by { WithinWf(m0, t0, m, t); WithinWf(m, t, m1, t1); }
  }

  lemma WithinWf(m0: Mem, t0: Tree, m: Mem, t: Tree)
    requires Within(m0, t0, m, t)
    ensures Wf(m0, t0) && Wf(m, t) && Sound(m0) && Sound(m) && t.root == t0.root && Frames(m) == Frames(m0)
  {
  }

  lemma InsertPut(m0: Mem, t0: Tree, m: Mem, t: Tree, v0: nat, n: nat, ppn: nat, perm: nat)
    requires Inserted(m0, t0, m, t, v0, n, ppn, perm) && v0 + n < MAXVPN && perm < 1024 && IsLeaf(perm)
    requires Path(v0 + n) in t.leaf && t.leaf[Path(v0 + n)] in m.tables
    ensures Inserted(m0, t0, PutPte(m, t.leaf[Path(v0 + n)], Index(0, v0 + n), Pack(ppn + n, WithV(perm))), t,
                     v0, n + 1, ppn, perm)
  {
    hide Pack, WithV, PteAt, Wf, Sound, Frames, TreeFrames, Within, IsV, IsLeaf, PutPte, Path, Index;
    var e := Pack(ppn + n, WithV(perm));
    Packed(ppn + n, perm);
    WithinWf(m0, t0, m, t);
    PutAt(m, t, v0 + n, e);
    var m1 := PutPte(m, t.leaf[Path(v0 + n)], Index(0, v0 + n), e);
    WithinTrans(m0, t0, m, t, m1, t);
    WithinWf(m, t, m1, t);
  }

  /** The entry a walk arrives at is the page's entry in the flat map. */
  lemma SlotIsPte(m0: Mem, t0: Tree, m: Mem, t: Tree, va: nat, alloc: bool, w: Slot)
    requires Walked(m0, t0, m, t, va, alloc, w) && w.At?
    ensures Wf(m, t) && Wf(m0, t0) && w.index < ENTRIES
    ensures m.tables[w.frame][w.index] == PteAt(m, t, va / PGSIZE) == PteAt(m0, t0, va / PGSIZE)
  {
    hide Index, TreeFrames, Frames;
  }

  lemma InsertNothing(m: Mem, t: Tree, v0: nat, ppn: nat, perm: nat)
    requires Sound(m) && Wf(m, t)
    ensures Inserted(m, t, m, t, v0, 0, ppn, perm)
  {
    hide Wf, Sound, Within, PteAt;
    WithinRefl(m, t);
  }

  lemma InsertedWf(m0: Mem, t0: Tree, m: Mem, t: Tree, v0: nat, n: nat, ppn: nat, perm: nat)
    requires Inserted(m0, t0, m, t, v0, n, ppn, perm)
    ensures Wf(m0, t0) && Wf(m, t) && Sound(m0) && Sound(m) && t.root == t0.root
  {
  }

  lemma InsertedAt(m0: Mem, t0: Tree, m: Mem, t: Tree, v0: nat, n: nat, ppn: nat, perm: nat, v: nat)
    requires Inserted(m0, t0, m, t, v0, n, ppn, perm) && v < MAXVPN && !(v0 <= v < v0 + n)
    ensures Wf(m0, t0) && Wf(m, t) && PteAt(m, t, v) == PteAt(m0, t0, v)
  {
  }

  // ---------------------------------------------------------------- how many tables that takes

  /** The places of the tables on the way to pages [v0, v0 + n). */
  ghost function Mids(v0: nat, n: nat): set<nat> { set v | v0 <= v < v0 + n :: Index(2, v) }
  ghost function Leaves(v0: nat, n: nat): set<(nat, nat)> { set v | v0 <= v < v0 + n :: Path(v) }

  /** The number of tables that are missing on the way to pages [v0, v0 + n). */
  ghost function TablesFor(t: Tree, v0: nat, n: nat): nat
  {
    |Mids(v0, n) - t.mid.Keys| + |Leaves(v0, n) - t.leaf.Keys|
  }

  /** The tree has got exactly the tables on the way to pages [v0, v0 + n). */
  ghost predicate Spanned(t0: Tree, t: Tree, v0: nat, n: nat)
  {
    t.mid.Keys == t0.mid.Keys + Mids(v0, n) && t.leaf.Keys == t0.leaf.Keys + Leaves(v0, n)
  }

  lemma OneMore(v0: nat, n: nat)
    ensures Mids(v0, n + 1) == Mids(v0, n) + {Index(2, v0 + n)} && Leaves(v0, n + 1) == Leaves(v0, n) + {Path(v0 + n)}
    ensures Mids(v0, 0) == {} && Leaves(v0, 0) == {}
  {
    hide Index, Path;
  }

  lemma SpannedNothing(t: Tree, v0: nat)
    ensures Spanned(t, t, v0, 0)
  {
    hide Mids, Leaves;
    OneMore(v0, 0);
  }

  lemma SpannedMore(m: Mem, t0: Tree, t: Tree, t1: Tree, v0: nat, n: nat)
    requires Spanned(t0, t, v0, n) && Reaches(t, t1, v0 + n) && Wf(m, t1) && Path(v0 + n) in t1.leaf
    ensures Spanned(t0, t1, v0, n + 1)
  {
    hide Mids, Leaves, Index, RootWf, LeafWf;
    OneMore(v0, n);
    assert Path(v0 + n) == (Index(2, v0 + n), Index(1, v0 + n));
  }

  lemma Joined<T>(a: set<T>, b: set<T>)
    ensures |a + b| == |a| + |b - a|
  {
    assert a + b == a + (b - a);
  }

  lemma JoinedPart<T>(a: set<T>, b: set<T>, c: set<T>)
    requires a <= c <= a + b
    ensures |c| <= |a| + |b - a|
  {
    Joined(a, b);
    SubsetSize(c, a + b);
  }

  lemma JoinedMore<T>(a: set<T>, b: set<T>, x: set<T>)
    ensures |b + x - a| == |b - a| + |x - (a + b)|
  {
    assert b + x - a == (b - a) + (x - (a + b));
  }

  /** What leaves the free list are the missing tables. */
  lemma SpannedCount(m0: Mem, t0: Tree, m: Mem, t: Tree, v0: nat, n: nat)
    requires Within(m0, t0, m, t) && m.data.Keys == m0.data.Keys && Spanned(t0, t, v0, n)
    ensures |m.free| + TablesFor(t0, v0, n) == |m0.free|
  {
    hide Within, Mids, Leaves;
    FramesConserved(m0, t0, m, t);
    Joined(t0.mid.Keys, Mids(v0, n));
    Joined(t0.leaf.Keys, Leaves(v0, n));
  }

  /** The free list is empty and a table is still missing: there were too few frames. */
  lemma ShortCount(m0: Mem, t0: Tree, m: Mem, t: Tree, t1: Tree, v0: nat, n: nat)
    requires Within(m0, t0, m, t1) && m.data.Keys == m0.data.Keys && m.free == []
    requires Spanned(t0, t, v0, n) && Reaches(t, t1, v0 + n) && Path(v0 + n) !in t1.leaf
    ensures |m0.free| < TablesFor(t0, v0, n + 1)
  {
    hide Within, Mids, Leaves, Index, Path;
    FramesConserved(m0, t0, m, t1);
    OneMore(v0, n);
    JoinedPart(t0.mid.Keys, Mids(v0, n + 1), t1.mid.Keys);
    JoinedPart(t0.leaf.Keys, Leaves(v0, n + 1), t1.leaf.Keys + {Path(v0 + n)});
    assert |t1.leaf.Keys + {Path(v0 + n)}| == |t1.leaf.Keys| + 1;
  }

  lemma MoreTables(v0: nat, n: nat)
    ensures Mids(v0, n + 1) == Mids(v0, n) + Mids(v0 + n, 1) && Leaves(v0, n + 1) == Leaves(v0, n) + Leaves(v0 + n, 1)
  {
    hide Mids, Leaves, Index, Path;
    OneMore(v0, n);
    OneMore(v0 + n, 0);
  }

  lemma TablesAdd(t0: Tree, t: Tree, v0: nat, n: nat)
    requires Spanned(t0, t, v0, n)
    ensures TablesFor(t0, v0, n + 1) == TablesFor(t0, v0, n) + TablesFor(t, v0 + n, 1)
  {
    MoreTables(v0, n);
    hide Mids, Leaves;
    JoinedMore(t0.mid.Keys, Mids(v0, n), Mids(v0 + n, 1));
    JoinedMore(t0.leaf.Keys, Leaves(v0, n), Leaves(v0 + n, 1));
  }

  lemma TablesMono(t: Tree, v0: nat, n: nat, k: nat)
    requires n <= k
    ensures TablesFor(t, v0, n) <= TablesFor(t, v0, k)
  {
    hide Index, Path;
    SubsetSize(Mids(v0, n) - t.mid.Keys, Mids(v0, k) - t.mid.Keys);
    SubsetSize(Leaves(v0, n) - t.leaf.Keys, Leaves(v0, k) - t.leaf.Keys);
  }

  lemma {:induction false} SubsetSize<T>(a: set<T>, b: set<T>)
    requires a <= b
    ensures |a| <= |b|
  {
    if a != {} {
      var x :| x in a;
      SubsetSize(a - {x}, b - {x});
    }
  }

  /** mappages has taken exactly the missing tables, or there were too few frames for them. */
  ghost predicate Counted(m0: Mem, t0: Tree, m: Mem, t: Tree, v0: nat, k: nat, r: Outcome)
  {
    && (r.Done? ==> Spanned(t0, t, v0, k) && |m.free| + TablesFor(t0, v0, k) == |m0.free|)
    && (r.OutOfMemory? ==> |m0.free| < TablesFor(t0, v0, k + 1))
  }

  /** mappages: insert `size` bytes of mappings. `k` counts the pages that were mapped. Running out of
      page-table pages leaves the first `k` mapped; the panics are a bad argument, the end of the address
      space, and a page that is mapped already. */
  method MapPages(mem: Memory, ghost t0: Tree, root: nat, va: nat, size: nat, pa: nat, perm: nat)
    returns (r: Outcome, ghost t: Tree, ghost k: nat)
    requires Sound(mem.m) && Wf(mem.m, t0) && root == t0.root && perm < 1024 && IsLeaf(perm)
    modifies mem
    ensures Inserted(old(mem.m), t0, mem.m, t, va / PGSIZE, k, pa / PGSIZE, perm)
    ensures r.Done? ==> size == k * PGSIZE
    ensures r.OutOfMemory? ==> mem.m.free == []
    ensures Counted(old(mem.m), t0, mem.m, t, va / PGSIZE, k, r)
    ensures !r.Done? && size > 0 ==> k * PGSIZE < size
    ensures r.Panic? <==>
              || va % PGSIZE != 0 || size % PGSIZE != 0 || size == 0
              || (k * PGSIZE < size && (va / PGSIZE + k >= MAXVPN || IsV(PteAt(old(mem.m), t0, va / PGSIZE + k))))
    ensures va % PGSIZE == 0 && !r.Panic? ==>
              forall v: nat :: va / PGSIZE <= v < va / PGSIZE + k ==> v < MAXVPN && !IsV(PteAt(old(mem.m), t0, v))
  {
    hide Pack, WithV, PteAt, Wf, Sound, Frames, TreeFrames, Within, IsV, IsLeaf, PutPte, Path, Inserted, Walking, Index,
         Spanned, Reaches, TablesFor;
    t, k := t0, 0;
    ghost var m0, v0, ppn := mem.m, va / PGSIZE, pa / PGSIZE;
    assert Inserted(m0, t0, m0, t0, v0, 0, ppn, perm) by { InsertNothing(m0, t0, v0, ppn, perm); }
    SpannedNothing(t0, v0);
    if va % PGSIZE != 0 || size % PGSIZE != 0 || size == 0 {
      return Panic, t, k;
    }
    var a, last, p := va, va + size - PGSIZE, pa;
    while true
      invariant a == va + k * PGSIZE && p == pa + k * PGSIZE && k * PGSIZE < size
      invariant Inserted(m0, t0, mem.m, t, v0, k, ppn, perm) && Spanned(t0, t, v0, k)
      invariant forall v: nat :: v0 <= v < v0 + k ==> v < MAXVPN && !IsV(PteAt(m0, t0, v))
      decreases last - a
    {
      ghost var m1, t1 := mem.m, t;
      InsertedWf(m0, t0, m1, t1, v0, k, ppn, perm);
      var w, t2 := mem.Walk(t, root, a, true);
      t := t2;
      assert a / PGSIZE == v0 + k && p / PGSIZE == ppn + k;
      InsertWalk(m0, t0, m1, t1, mem.m, t, v0, k, ppn, perm);
      if !w.At? {
        assert w.Absent? ==> !IsV(PteAt(m0, t0, v0 + k)) by {
          if w.Absent? {
            InsertedWf(m0, t0, mem.m, t, v0, k, ppn, perm);
            AbsentInvalid(mem.m, t, v0 + k);
            InsertedAt(m0, t0, mem.m, t, v0, k, ppn, perm, v0 + k);
          }
        }
        if w.Absent? {
          InsertedData(m0, t0, mem.m, t, v0, k, ppn, perm);
          ShortCount(m0, t0, mem.m, t1, t, v0, k);
        }
        return if w.Absent? then OutOfMemory else Panic, t, k;
      }
      SlotIsPte(m1, t1, mem.m, t, a, true, w);
      var pte := mem.m.tables[w.frame][w.index];
      assert pte == PteAt(m0, t0, v0 + k) by { InsertedAt(m0, t0, m1, t1, v0, k, ppn, perm, v0 + k); }
      if IsV(pte) {
        return Panic, t, k;
      }
      InsertPut(m0, t0, mem.m, t, v0, k, ppn, perm);
      SpannedMore(mem.m, t0, t1, t, v0, k);
      mem.m := PutPte(mem.m, w.frame, w.index, Pack(p / PGSIZE, WithV(perm)));
      k := k + 1;
      if a == last {
        break;
      }
      a, p := a + PGSIZE, p + PGSIZE;
    }
    InsertedData(m0, t0, mem.m, t, v0, k, ppn, perm);
    SpannedCount(m0, t0, mem.m, t, v0, k);
    r := Done;
  }

  /** mappages for the one unmapped page `n`: no panic is possible. */
  method MapPage(mem: Memory, ghost t0: Tree, root: nat, a: nat, f: nat, perm: nat, ghost n: nat)
    returns (r: Outcome, ghost t: Tree)
    requires Sound(mem.m) && Wf(mem.m, t0) && root == t0.root && perm < 1024 && IsLeaf(perm)
    requires a == n * PGSIZE && n < MAXVPN && !IsV(PteAt(mem.m, t0, n))
    modifies mem
    ensures !r.Panic? && Inserted(old(mem.m), t0, mem.m, t, n, if r.Done? then 1 else 0, f, perm)
    ensures Counted(old(mem.m), t0, mem.m, t, n, if r.Done? then 1 else 0, r)
  {
    hide Wf, PteAt, IsV, Sound, Inserted, IsLeaf, Counted;
    ghost var k;
    assert n * PGSIZE / PGSIZE == n && f * PGSIZE / PGSIZE == f && n * PGSIZE % PGSIZE == 0;
    r, t, k := MapPages(mem, t0, root, a, PGSIZE, f * PGSIZE, perm);
  }

  ghost function FrameOf(m: Mem, t: Tree, v: nat): nat
    requires Wf(m, t)
  {
    Ppn(PteAt(m, t, v))
  }

  /** The frames behind pages [v0, v0 + n). */
  ghost function FramesOf(m: Mem, t: Tree, v0: nat, n: nat): set<nat>
    requires Wf(m, t)
  {
    set v | v0 <= v < v0 + n :: FrameOf(m, t, v)
  }

  /** The mapped pages of the range have allocated frames of their own. */
  ghost predicate Own(m: Mem, t: Tree, v0: nat, n: nat)
    requires Wf(m, t)
  {
    && (forall v: nat :: v0 <= v < v0 + n && v < MAXVPN && IsV(PteAt(m, t, v)) ==> FrameOf(m, t, v) in m.data)
    && (forall v: nat, w: nat :: v0 <= v < w < v0 + n && w < MAXVPN && IsV(PteAt(m, t, v)) && IsV(PteAt(m, t, w)) ==>
          FrameOf(m, t, v) != FrameOf(m, t, w))
  }

  /** Pages [v0, v0 + n) are unmapped, and their frames free if asked; every other page is as before. */
  ghost predicate Removed(m0: Mem, t: Tree, m: Mem, v0: nat, n: nat, doFree: bool)
  {
    && Within(m0, t, m, t)
    && (forall v: nat :: v < MAXVPN ==> PteAt(m, t, v) == if v0 <= v < v0 + n then 0 else PteAt(m0, t, v))
    && m.data == if doFree then m0.data - FramesOf(m0, t, v0, n) else m0.data
  }

  lemma RemovedWf(m0: Mem, t: Tree, m: Mem, v0: nat, n: nat, doFree: bool)
    requires Removed(m0, t, m, v0, n, doFree)
    ensures Wf(m0, t) && Wf(m, t) && Sound(m0) && Sound(m)
    ensures forall v: nat :: v < MAXVPN && !(v0 <= v < v0 + n) ==> PteAt(m, t, v) == PteAt(m0, t, v)
  {
  }

  lemma RemoveNothing(m: Mem, t: Tree, v0: nat, doFree: bool)
    requires Sound(m) && Wf(m, t)
    ensures Removed(m, t, m, v0, 0, doFree)
  {
    hide Wf, Sound, Within, PteAt, FrameOf;
    WithinRefl(m, t);
    assert FramesOf(m, t, v0, 0) == {};
  }

  /** The frame of the next page is still allocated. */
  lemma NextOwned(m0: Mem, t: Tree, m: Mem, v0: nat, n: nat, npages: nat)
    requires Removed(m0, t, m, v0, n, true) && Wf(m0, t) && Own(m0, t, v0, npages) && n < npages && v0 + n < MAXVPN
    requires AllMapped(m0, t, v0, n + 1)
    ensures FrameOf(m0, t, v0 + n) in m.data
    ensures FramesOf(m0, t, v0, n + 1) == FramesOf(m0, t, v0, n) + {FrameOf(m0, t, v0 + n)}
  {
    hide Wf, Sound, Within, PteAt, FrameOf, IsV;
    forall v: nat | v0 <= v < v0 + n + 1 ensures IsV(PteAt(m0, t, v)) { assert MappedAt(m0, t, v); }
  }

  /** kfree of the page's frame, then clearing its entry. */
  lemma RemoveStep(m0: Mem, t: Tree, m: Mem, v0: nat, n: nat, doFree: bool)
    requires Removed(m0, t, m, v0, n, doFree) && v0 + n < MAXVPN && Path(v0 + n) in t.leaf && Wf(m0, t)
    requires t.leaf[Path(v0 + n)] in m.tables
    requires doFree ==> FrameOf(m0, t, v0 + n) in m.data
    requires doFree ==> FramesOf(m0, t, v0, n + 1) == FramesOf(m0, t, v0, n) + {FrameOf(m0, t, v0 + n)}
    ensures var m1 := if doFree then Release(m, FrameOf(m0, t, v0 + n)) else m;
            && t.leaf[Path(v0 + n)] in m1.tables
            && Removed(m0, t, PutPte(m1, t.leaf[Path(v0 + n)], Index(0, v0 + n), 0), v0, n + 1, doFree)
  {
    hide PteAt, Wf, Sound, Frames, TreeFrames, Within, IsV, PutPte, Path, Index, FrameOf, FramesOf;
    RemovedWf(m0, t, m, v0, n, doFree);
    var f := FrameOf(m0, t, v0 + n);
    var m1 := if doFree then Release(m, f) else m;
    assert m1.tables == m.tables && Sound(m1) && Frames(m1) == Frames(m) by {
      if doFree {
        ReleaseSound(m, f);
        DataNotTable(m, f);
      }
    }
    TablesFrame(m, m1, t);
    ZeroInvalid();
    PutAt(m1, t, v0 + n, 0);
    var m2 := PutPte(m1, t.leaf[Path(v0 + n)], Index(0, v0 + n), 0);
    WithinTrans(m0, t, m, t, m1, t);
    WithinTrans(m0, t, m1, t, m2, t);
    WithinWf(m1, t, m2, t);
  }

  lemma DataNotTable(m: Mem, f: nat)
    requires Sound(m) && f in m.data
    ensures m.tables - {f} == m.tables
  {
  }

  ghost predicate AllMapped(m: Mem, t: Tree, v0: nat, n: nat)
    requires Wf(m, t)
  {
    forall v: nat :: v0 <= v < v0 + n ==> MappedAt(m, t, v)
  }

  ghost predicate MappedAt(m: Mem, t: Tree, v: nat)
    requires Wf(m, t)
  {
    v < MAXVPN && IsV(PteAt(m, t, v))
  }

  /** uvmunmap: remove `npages` mappings, all of which must exist. It panics at the first page that is not mapped,
      and never for "not a leaf". */
  method UvmUnmap(mem: Memory, ghost t: Tree, root: nat, va: nat, npages: nat, doFree: bool)
    returns (r: Outcome, ghost k: nat)
    requires Sound(mem.m) && Wf(mem.m, t) && root == t.root
    requires doFree ==> Own(mem.m, t, va / PGSIZE, npages)
    modifies mem
    ensures Removed(old(mem.m), t, mem.m, va / PGSIZE, k, doFree)
    ensures r.Done? <==> va % PGSIZE == 0 && AllMapped(old(mem.m), t, va / PGSIZE, npages)
    ensures r.Done? ==> k == npages
    ensures r.Panic? ==> va % PGSIZE != 0 || va / PGSIZE + k >= MAXVPN || !IsV(PteAt(old(mem.m), t, va / PGSIZE + k))
    ensures r.Panic? ==> va % PGSIZE != 0 || k < npages
    ensures !r.OutOfMemory?
  {
    hide PteAt, Wf, Sound, Frames, TreeFrames, Within, IsV, IsLeaf, PutPte, Path, Index, FrameOf, FramesOf,
         Removed, Walking, Own, Ppn, Release;
    ghost var m0, v0 := mem.m, va / PGSIZE;
    k := 0;
    RemoveNothing(m0, t, v0, doFree);
    if va % PGSIZE != 0 {
      return Panic, k;
    }
    var a := va;
    while a < va + npages * PGSIZE
      invariant a == va + k * PGSIZE && k <= npages && Removed(m0, t, mem.m, v0, k, doFree)
      invariant AllMapped(m0, t, v0, k)
    {
      assert a / PGSIZE == v0 + k;
      RemovedWf(m0, t, mem.m, v0, k, doFree);
      ghost var m1 := mem.m;
      var w, t2 := mem.Walk(t, root, a, false);
      if !w.At? {
        assert w.Absent? ==> !IsV(PteAt(m0, t, v0 + k)) by { if w.Absent? { AbsentInvalid(m1, t, v0 + k); } }
        assert !MappedAt(m0, t, v0 + k);
        return Panic, k;
      }
      SlotIsPte(m1, t, mem.m, t, a, false, w);
      var pte := mem.m.tables[w.frame][w.index];
      assert pte == PteAt(m0, t, v0 + k);
      assert MappedAt(m0, t, v0 + k) <==> IsV(pte);
      if !IsV(pte) {
        return Panic, k;
      }
      if Flags(pte) == PTE_V {
        MappedIsLeaf(m0, t, v0 + k);
        assert false;
      }
      if doFree {
        var pa := Ppn(pte);
        assert pa == FrameOf(m0, t, v0 + k) by { FrameIs(m0, t, v0 + k); }
        NextOwned(m0, t, m1, v0, k, npages);
        Freeable(mem.m, pa);
        var ok := mem.KFree(pa * PGSIZE);
      }
      RemoveStep(m0, t, m1, v0, k, doFree);
      mem.m := PutPte(mem.m, w.frame, w.index, 0);
      k := k + 1;
      a := a + PGSIZE;
    }
    r := Done;
  }

  lemma FrameIs(m: Mem, t: Tree, v: nat)
    requires Wf(m, t)
    ensures FrameOf(m, t, v) == Ppn(PteAt(m, t, v))
  {
  }

  lemma AbsentInvalid(m: Mem, t: Tree, v: nat)
    requires Wf(m, t) && Path(v) !in t.leaf
    ensures PteAt(m, t, v) == 0 && !IsV(0)
  {
  }

  lemma MappedIsLeaf(m: Mem, t: Tree, v: nat)
    requires Wf(m, t) && IsV(PteAt(m, t, v))
    ensures IsLeaf(PteAt(m, t, v)) && Flags(PteAt(m, t, v)) != PTE_V
  {
    hide Index, Flags, RootWf, MidWf;
    ZeroInvalid();
    if Path(v) in t.leaf { LeafTable(m, t, v); }
  }

  // ---------------------------------------------------------------- user memory

  /** The two pages at the top, TRAMPOLINE and TRAPFRAME, are not user memory. */
  const TRAPVPN: nat := MAXVPN - 2
  /** 128 MiB of physical memory. */
  const MAXFRAMES: nat := 32768

  function PgRoundUp(sz: nat): nat { (sz + PGSIZE - 1) / PGSIZE * PGSIZE }
  function PagesUp(sz: nat): nat { (sz + PGSIZE - 1) / PGSIZE }

  /** User pages [0, n) are mapped, each to an allocated frame of its own; from there up to the trapframe
      nothing is. */
  ghost predicate Dense(m: Mem, t: Tree, n: nat)
  {
    && Wf(m, t) && n <= TRAPVPN
    && (forall v: nat :: v < n ==> IsV(PteAt(m, t, v)))
    && Own(m, t, 0, n)
    && (forall v: nat :: n <= v < TRAPVPN ==> !IsV(PteAt(m, t, v)))
  }

  /** Distinct frames: the pages are no more than the allocated frames. */
  lemma {:induction false} FramesOfSize(m: Mem, t: Tree, n: nat)
    requires Wf(m, t) && n < MAXVPN && Own(m, t, 0, n) && forall v: nat :: v < n ==> IsV(PteAt(m, t, v))
    ensures FramesOf(m, t, 0, n) <= m.data.Keys && |FramesOf(m, t, 0, n)| == n
  {
    hide Wf, PteAt, FrameOf, IsV;
    if n == 0 {
      assert FramesOf(m, t, 0, n) == {};
    } else {
      FramesOfSize(m, t, n - 1);
      assert FramesOf(m, t, 0, n) == FramesOf(m, t, 0, n - 1) + {FrameOf(m, t, n - 1)};
    }
  }

  /** The pigeonhole: dense user memory with a page in hand fits in physical memory. */
  lemma DenseIsSmall(m: Mem, t: Tree, n: nat)
    requires Sound(m) && Dense(m, t, n) && |Frames(m)| <= MAXFRAMES
    ensures n <= MAXFRAMES && (m.free != [] ==> n < MAXFRAMES)
  {
    hide Wf, PteAt, FrameOf, IsV, FramesOf;
    FramesOfSize(m, t, n);
    SubsetSize(FramesOf(m, t, 0, n), m.data.Keys);
    if m.free != [] {
      assert m.free[0] in FreeSet(m);
      SubsetSize(m.data.Keys + {m.free[0]}, Frames(m));
    } else {
      SubsetSize(m.data.Keys, Frames(m));
    }
  }

  /** The part of the dense region from page `p` up is given back. */
  lemma DenseShrunk(m0: Mem, t: Tree, m: Mem, n: nat, p: nat)
    requires Dense(m0, t, n) && p <= n && Removed(m0, t, m, p, n - p, true)
    ensures Dense(m, t, p)
  {
    hide Wf, PteAt, Within, Sound;
    RemovedWf(m0, t, m, p, n - p, true);
    assert !IsV(0) by { ZeroInvalid(); }
    forall v: nat | v < p ensures FrameOf(m, t, v) in m.data {
      assert PteAt(m, t, v) == PteAt(m0, t, v);
      assert FrameOf(m0, t, v) in m0.data;
    }
  }

  lemma OwnPart(m: Mem, t: Tree, n: nat, p: nat)
    requires Wf(m, t) && p <= n && Own(m, t, 0, n)
    ensures Own(m, t, p, n - p)
  {
    hide Wf, PteAt, FrameOf, IsV;
  }

  /** A value stored in a C `int`. */
  function Int32(x: int): int { (x + 0x8000_0000) % 0x1_0000_0000 - 0x8000_0000 }

  /** uvmdealloc: the page count is truncated to `int`, which never matters because user memory is small. */
  method UvmDealloc(mem: Memory, ghost t: Tree, root: nat, oldsz: nat, newsz: nat) returns (sz: nat)
    requires Sound(mem.m) && Dense(mem.m, t, PagesUp(oldsz)) && root == t.root && |Frames(mem.m)| <= MAXFRAMES
    modifies mem
    ensures sz == if newsz >= oldsz then oldsz else newsz
    ensures Dense(mem.m, t, PagesUp(sz))
    ensures Removed(old(mem.m), t, mem.m, PagesUp(sz), PagesUp(oldsz) - PagesUp(sz), true)
  {
    hide Wf, PteAt, FrameOf, FramesOf, IsV, Within, Frames, Sound, Removed, Own, Dense, PagesUp, PgRoundUp;
    assert Wf(mem.m, t) && Own(mem.m, t, 0, PagesUp(oldsz)) by { DenseOwns(mem.m, t, PagesUp(oldsz)); }
    if newsz >= oldsz {
      RemoveNothing(mem.m, t, PagesUp(oldsz), true);
      return oldsz;
    }
    Rounds(oldsz);
    Rounds(newsz);
    if PgRoundUp(newsz) < PgRoundUp(oldsz) {
      DenseIsSmall(mem.m, t, PagesUp(oldsz));
      var npages := Int32((PgRoundUp(oldsz) - PgRoundUp(newsz)) / PGSIZE);
      assert npages == PagesUp(oldsz) - PagesUp(newsz);
      OwnPart(mem.m, t, PagesUp(oldsz), PagesUp(newsz));
      ghost var m0 := mem.m;
      var r, k := UvmUnmap(mem, t, root, PgRoundUp(newsz), npages, true);
      assert r.Done? by { if r.Panic? { DenseMapped(m0, t, PagesUp(oldsz), PagesUp(newsz) + k); } }
      DenseShrunk(m0, t, mem.m, PagesUp(oldsz), PagesUp(newsz));
    } else {
      RemoveNothing(mem.m, t, PagesUp(newsz), true);
    }
    sz := newsz;
  }

  lemma Rounds(sz: nat)
    ensures PgRoundUp(sz) == PagesUp(sz) * PGSIZE && PgRoundUp(sz) / PGSIZE == PagesUp(sz)
    ensures PgRoundUp(sz) % PGSIZE == 0
    ensures sz <= PgRoundUp(sz) < sz + PGSIZE
  {
  }

  lemma DenseOwns(m: Mem, t: Tree, n: nat)
    requires Dense(m, t, n)
    ensures Wf(m, t) && n <= TRAPVPN && Own(m, t, 0, n)
  {
  }

  lemma DenseMapped(m: Mem, t: Tree, n: nat, v: nat)
    requires Dense(m, t, n)
    ensures v < n ==> IsV(PteAt(m, t, v)) && v < MAXVPN
    ensures n <= v < TRAPVPN ==> !IsV(PteAt(m, t, v))
  {
  }

  // ---------------------------------------------------------------- growing

  /** Nothing allocated before has changed, and what was allocated since belongs to pages [p, n). */
  ghost predicate NewData(m0: Mem, m: Mem, t: Tree, p: nat, n: nat)
    requires Wf(m, t) && p <= n
  {
    && m.data.Keys == m0.data.Keys + FramesOf(m, t, p, n - p)
    && FramesOf(m, t, p, n - p) !! m0.data.Keys
    && (forall f :: f in m0.data && f in m.data ==> m.data[f] == m0.data[f])
  }

  /** Pages [p, n) are new, with frames of their own; every other page is as before. */
  ghost predicate Extended(m0: Mem, t0: Tree, m: Mem, t: Tree, p: nat, n: nat)
  {
    && p <= n && Within(m0, t0, m, t) && Dense(m, t, n)
    && (forall v: nat :: v < MAXVPN && !(p <= v < n) ==> PteAt(m, t, v) == PteAt(m0, t0, v))
    && NewData(m0, m, t, p, n)
  }

  lemma ExtendedWf(m0: Mem, t0: Tree, m: Mem, t: Tree, p: nat, n: nat)
    requires Extended(m0, t0, m, t, p, n)
    ensures p <= n <= TRAPVPN && Within(m0, t0, m, t) && Dense(m, t, n)
    ensures Wf(m0, t0) && Wf(m, t) && Sound(m0) && Sound(m) && t.root == t0.root && Frames(m) == Frames(m0)
  {
    hide Wf, PteAt, FrameOf, FramesOf, IsV, Frames, Sound, Own;
  }

  lemma ExtendedNothing(m: Mem, t: Tree, p: nat)
    requires Sound(m) && Dense(m, t, p)
    ensures Extended(m, t, m, t, p, p)
  {
    hide Wf, PteAt, FrameOf, IsV, Sound, Within, Own;
    WithinRefl(m, t);
    assert FramesOf(m, t, p, 0) == {};
  }

  /** kalloc, and then filling the page. */
  function Taken(m: Mem, x: Page): Mem
    requires m.free != []
  {
    Alloc(m).(data := m.data[m.free[0] := x])
  }

  lemma TakenFrame(m: Mem, t: Tree, x: Page)
    requires Sound(m) && Wf(m, t) && m.free != []
    ensures Within(m, t, Taken(m, x), t) && SameMap(m, t, Taken(m, x), t)
    ensures m.free[0] !in m.data
  {
    hide Wf, PteAt, Filled, SameMap, Within;
    AllocSound(m);
    TablesFrame(m, Taken(m, x), t);
  }

  lemma FramesOfSame(m0: Mem, t0: Tree, m: Mem, t: Tree, p: nat, n: nat)
    requires Wf(m0, t0) && Wf(m, t)
    requires forall v: nat :: p <= v < p + n ==> PteAt(m, t, v) == PteAt(m0, t0, v)
    ensures FramesOf(m, t, p, n) == FramesOf(m0, t0, p, n)
  {
    hide Wf, PteAt;
    forall v: nat | p <= v < p + n ensures FrameOf(m, t, v) == FrameOf(m0, t0, v) { }
  }

  /** One more page: a frame holding `x`, mapped at page `n`. */
  ghost predicate NextPage(m: Mem, t: Tree, m1: Mem, t1: Tree, n: nat, perm: nat, x: Page)
  {
    && Wf(m, t) && Wf(m1, t1) && m.free != [] && m1.data == m.data[m.free[0] := x]
    && (forall v: nat :: v < MAXVPN && v != n ==> PteAt(m1, t1, v) == PteAt(m, t, v))
    && FrameOf(m1, t1, n) == m.free[0] && Flags(PteAt(m1, t1, n)) == WithV(perm) && IsV(PteAt(m1, t1, n))
  }

  lemma InsertedNext(m: Mem, t: Tree, m1: Mem, t1: Tree, n: nat, perm: nat, x: Page)
    requires Sound(m) && Wf(m, t) && m.free != [] && n < MAXVPN && perm < 1024
    requires Inserted(Taken(m, x), t, m1, t1, n, 1, m.free[0], perm)
    ensures NextPage(m, t, m1, t1, n, perm, x) && Within(Taken(m, x), t, m1, t1)
  {
    hide Wf, PteAt, IsV, Sound, Within, Pack, WithV, Flags, Ppn, Filled;
    TakenFrame(m, t, x);
    InsertedWf(Taken(m, x), t, m1, t1, n, 1, m.free[0], perm);
    Packed(m.free[0], perm);
    FrameIs(m1, t1, n);
  }

  lemma NextDense(m: Mem, t: Tree, m1: Mem, t1: Tree, n: nat, perm: nat, x: Page)
    requires Sound(m) && Dense(m, t, n) && n + 1 <= TRAPVPN && NextPage(m, t, m1, t1, n, perm, x)
    ensures Dense(m1, t1, n + 1)
  {
    hide Wf, PteAt, IsV, Sound, Ppn, Flags, WithV;
    AllocSound(m);
    forall v: nat | v < n ensures FrameOf(m1, t1, v) == FrameOf(m, t, v) && FrameOf(m, t, v) in m.data { }
  }

  lemma NextData(m0: Mem, m: Mem, t: Tree, m1: Mem, t1: Tree, p: nat, n: nat, perm: nat, x: Page)
    requires Sound(m) && Wf(m, t) && Wf(m1, t1) && p <= n < MAXVPN && NewData(m0, m, t, p, n)
    requires NextPage(m, t, m1, t1, n, perm, x)
    ensures NewData(m0, m1, t1, p, n + 1)
  {
    hide Wf, PteAt, Sound, Ppn, Flags, WithV, IsV;
    AllocSound(m);
    FramesOfSame(m, t, m1, t1, p, n - p);
    assert FramesOf(m1, t1, p, n + 1 - p) == FramesOf(m1, t1, p, n - p) + {m.free[0]};
  }

  lemma ExtendPage(m0: Mem, t0: Tree, m: Mem, t: Tree, m1: Mem, t1: Tree, p: nat, n: nat, perm: nat, x: Page)
    requires Extended(m0, t0, m, t, p, n) && m.free != [] && n + 1 <= TRAPVPN && perm < 1024
    requires Inserted(Taken(m, x), t, m1, t1, n, 1, m.free[0], perm)
    ensures Extended(m0, t0, m1, t1, p, n + 1) && NextPage(m, t, m1, t1, n, perm, x)
  {
    hide Wf, PteAt, IsV, Sound, Within, Own, Dense, Pack, WithV, Flags, Ppn, FramesOf, Inserted, NewData, FrameOf;
    ExtendedWf(m0, t0, m, t, p, n);
    TakenFrame(m, t, x);
    InsertedNext(m, t, m1, t1, n, perm, x);
    WithinTrans(m0, t0, m, t, Taken(m, x), t);
    WithinTrans(m0, t0, Taken(m, x), t, m1, t1);
    NextDense(m, t, m1, t1, n, perm, x);
    NextData(m0, m, t, m1, t1, p, n, perm, x);
  }

  lemma InsertedData(m0: Mem, t0: Tree, m: Mem, t: Tree, v0: nat, n: nat, ppn: nat, perm: nat)
    requires Inserted(m0, t0, m, t, v0, n, ppn, perm)
    ensures m.data == m0.data && Within(m0, t0, m, t)
  {
  }

  lemma DenseSame(m: Mem, t: Tree, m1: Mem, t1: Tree, n: nat)
    requires Dense(m, t, n) && SameMap(m, t, m1, t1) && m1.data == m.data
    ensures Dense(m1, t1, n)
  {
    hide Wf, PteAt, IsV, Ppn;
    forall v: nat | v < n ensures FrameOf(m1, t1, v) == FrameOf(m, t, v) && FrameOf(m, t, v) in m.data { }
  }

  /** Only tables were added. */
  lemma ExtendedSame(m0: Mem, t0: Tree, m: Mem, t: Tree, m1: Mem, t1: Tree, p: nat, n: nat)
    requires Extended(m0, t0, m, t, p, n) && Within(m, t, m1, t1) && SameMap(m, t, m1, t1) && m1.data == m.data
    ensures Extended(m0, t0, m1, t1, p, n)
  {
    hide Wf, PteAt, Sound, Within, Dense, Ppn, FramesOf;
    ExtendedWf(m0, t0, m, t, p, n);
    WithinWf(m, t, m1, t1);
    WithinTrans(m0, t0, m, t, m1, t1);
    FramesOfSame(m, t, m1, t1, p, n - p);
    DenseSame(m, t, m1, t1, n);
  }

  /** mappages found no memory for a table: the page in hand goes back. */
  lemma GiveBack(m: Mem, t: Tree, m1: Mem, t1: Tree, n: nat, perm: nat, x: Page)
    requires Sound(m) && Wf(m, t) && m.free != []
    requires Inserted(Taken(m, x), t, m1, t1, n, 0, m.free[0], perm)
    ensures var m2 := Release(m1, m.free[0]);
            m.free[0] in m1.data && m.free[0] !in FreeSet(m1) && m.free[0] in Frames(m1) && Within(m, t, m2, t1)
              && SameMap(m, t, m2, t1) && m2.data == m.data
  {
    hide Wf, PteAt, Sound, Within, Filled, Pack, WithV;
    var f, m2 := m.free[0], Release(m1, m.free[0]);
    TakenFrame(m, t, x);
    InsertedData(Taken(m, x), t, m1, t1, n, 0, f, perm);
    WithinWf(Taken(m, x), t, m1, t1);
    ReleaseSound(m1, f);
    Freeable(m1, f);
    DataNotTable(m1, f);
    TablesFrame(m1, m2, t1);
    WithinTrans(m, t, Taken(m, x), t, m1, t1);
    WithinTrans(m, t, m1, t1, m2, t1);
  }

  lemma UnmappedIsZero(m: Mem, t: Tree, v: nat)
    requires Wf(m, t) && !IsV(PteAt(m, t, v))
    ensures PteAt(m, t, v) == 0
  {
    hide Index, Flags, RootWf, MidWf;
    if Path(v) in t.leaf { LeafTable(m, t, v); }
  }

  /** Everything grown is taken back: the old mappings and the old data. */
  lemma Ungrown(m0: Mem, t0: Tree, m: Mem, t: Tree, m1: Mem, p: nat, n: nat)
    requires Dense(m0, t0, p) && Extended(m0, t0, m, t, p, n) && Removed(m, t, m1, p, n - p, true)
    ensures Restored(m0, t0, m1, t)
  {
    hide Wf, PteAt, Sound, Within, IsV, FramesOf, Own, FrameOf;
    ExtendedWf(m0, t0, m, t, p, n);
    RemovedWf(m, t, m1, p, n - p, true);
    WithinTrans(m0, t0, m, t, m1, t);
    forall v: nat | v < MAXVPN ensures PteAt(m1, t, v) == PteAt(m0, t0, v) {
      if p <= v < n { UnmappedIsZero(m0, t0, v); }
    }
  }

  /** Pages [p, n) of an extended address space are zeroed and carry `perm`. */
  ghost predicate Grew(m0: Mem, t0: Tree, m: Mem, t: Tree, p: nat, n: nat, perm: nat)
  {
    && Extended(m0, t0, m, t, p, n)
    && (forall v: nat :: p <= v < n ==>
          && Flags(PteAt(m, t, v)) == WithV(perm)
          && FrameOf(m, t, v) in m.data && m.data[FrameOf(m, t, v)] == Filled(0))
  }

  lemma GrewExtended(m0: Mem, t0: Tree, m: Mem, t: Tree, p: nat, n: nat, perm: nat)
    requires Grew(m0, t0, m, t, p, n, perm)
    ensures Extended(m0, t0, m, t, p, n)
  {
  }

  lemma GrewPage(m0: Mem, t0: Tree, m: Mem, t: Tree, m1: Mem, t1: Tree, p: nat, n: nat, perm: nat)
    requires Grew(m0, t0, m, t, p, n, perm) && m.free != [] && n + 1 <= TRAPVPN && perm < 1024
    requires Inserted(Taken(m, Filled(0)), t, m1, t1, n, 1, m.free[0], perm)
    ensures Grew(m0, t0, m1, t1, p, n + 1, perm)
  {
    hide Wf, PteAt, IsV, Sound, Flags, WithV, Inserted, Filled, Extended, Ppn;
    ExtendedWf(m0, t0, m, t, p, n);
    ExtendPage(m0, t0, m, t, m1, t1, p, n, perm, Filled(0));
  }

  ghost predicate Restored(m0: Mem, t0: Tree, m: Mem, t: Tree)
  {
    Within(m0, t0, m, t) && SameMap(m0, t0, m, t) && m.data == m0.data
  }

  /** The frames that pages [p, n) take: their own, and the tables that are missing. */
  ghost function Need(t: Tree, p: nat, n: nat): nat { if n <= p then 0 else n - p + TablesFor(t, p, n - p) }

  lemma NeedMore(t0: Tree, t: Tree, p: nat, n: nat)
    requires p <= n && Spanned(t0, t, p, n - p)
    ensures Need(t0, p, n + 1) == Need(t0, p, n) + 1 + TablesFor(t, n, 1)
  {
    hide Spanned, TablesFor;
    TablesAdd(t0, t, p, n - p);
    NoTables(t0, p);
  }

  lemma NoTables(t: Tree, p: nat)
    ensures TablesFor(t, p, 0) == 0
  {
    hide Mids, Leaves;
    OneMore(p, 0);
    assert {} - t.mid.Keys == {} && {} - t.leaf.Keys == {};
  }

  lemma NeedMono(t: Tree, p: nat, n: nat, k: nat)
    requires p <= n <= k
    ensures Need(t, p, n) <= Need(t, p, k)
  {
    hide TablesFor;
    TablesMono(t, p, n - p, k - p);
  }

  lemma SpannedTwice(t0: Tree, t: Tree, t1: Tree, p: nat, n: nat)
    requires p <= n && Spanned(t0, t, p, n - p) && Spanned(t, t1, n, 1)
    ensures Spanned(t0, t1, p, n + 1 - p)
  {
    hide Mids, Leaves, Index, Path;
    OneMore(p, n - p);
    OneMore(n, 0);
  }

  /** So far pages [p, n) have taken their frames. */
  ghost predicate Spent(m0: Mem, t0: Tree, m: Mem, t: Tree, p: nat, n: nat)
  {
    p <= n && Spanned(t0, t, p, n - p) && |m.free| + Need(t0, p, n) == |m0.free|
  }

  lemma SpentNothing(m: Mem, t: Tree, p: nat)
    ensures Spent(m, t, m, t, p, p)
  {
    hide Spanned;
    SpannedNothing(t, p);
  }

  lemma SpentPage(m0: Mem, t0: Tree, m: Mem, t: Tree, m1: Mem, t1: Tree, p: nat, n: nat, x: Page)
    requires Spent(m0, t0, m, t, p, n) && m.free != [] && Counted(Taken(m, x), t, m1, t1, n, 1, Done)
    ensures Spent(m0, t0, m1, t1, p, n + 1)
  {
    hide Spanned, TablesFor, Need;
    NeedMore(t0, t, p, n);
    SpannedTwice(t0, t, t1, p, n);
  }

  /** No frame for the next page, or none for a table on the way to it. */
  lemma TooFew(m0: Mem, t0: Tree, m: Mem, t: Tree, p: nat, n: nat, k: nat)
    requires Spent(m0, t0, m, t, p, n) && n < k && |m.free| < 1 + TablesFor(t, n, 1)
    ensures |m0.free| < Need(t0, p, k)
  {
    hide Spanned, TablesFor, Need;
    NeedMore(t0, t, p, n);
    NeedMono(t0, p, n + 1, k);
  }

  /** uvmalloc returns the new size with new zeroed pages when the frames suffice, and else 0 with every mapping and
      all data as before. It does not panic. */
  ghost predicate Allocated(m0: Mem, t0: Tree, m: Mem, t: Tree, oldsz: nat, newsz: nat, perm: nat, r: Outcome, sz: nat)
  {
    var p, n := PagesUp(oldsz), PagesUp(newsz);
    if newsz < oldsz then r.Done? && sz == oldsz && m == m0 && t == t0
    else if Need(t0, p, n) <= |m0.free| then r.Done? && sz == newsz && Grew(m0, t0, m, t, p, n, perm)
    else r.OutOfMemory? && sz == 0 && Restored(m0, t0, m, t)
  }

  const PTE_R: nat := 2
  const PTE_W: nat := 4
  const PTE_X: nat := 8
  const PTE_U: nat := 16

  /** uvmalloc neither panics nor reaches the trapframe, whatever size is asked for, and it fails exactly when the free
      frames are too few. */
  method UvmAlloc(mem: Memory, ghost t0: Tree, root: nat, oldsz: nat, newsz: nat, xperm: nat)
    returns (r: Outcome, sz: nat, ghost t: Tree)
    requires Sound(mem.m) && Dense(mem.m, t0, PagesUp(oldsz)) && root == t0.root && |Frames(mem.m)| <= MAXFRAMES
    requires xperm in {0, PTE_W, PTE_X, PTE_W + PTE_X}
    modifies mem
    ensures Allocated(old(mem.m), t0, mem.m, t, oldsz, newsz, PTE_R + PTE_U + xperm, r, sz)
  {
    hide Wf, PteAt, FrameOf, FramesOf, IsV, Within, Frames, Sound, Removed, Own, Dense, PagesUp, PgRoundUp, Extended,
         Inserted, Restored, SameMap, IsLeaf, Alloc, Release, Filled, WithV, Spent, Need, Counted;
    ghost var m0, p := mem.m, PagesUp(oldsz);
    t := t0;
    if newsz < oldsz {
      return Done, oldsz, t;
    }
    var perm := PTE_R + PTE_U + xperm;
    assert IsLeaf(perm) by { PermLeaf(xperm); }
    Rounds(oldsz);
    ExtendedNothing(m0, t0, p);
    SpentNothing(m0, t0, p);
    var a := PgRoundUp(oldsz);
    ghost var n := p;
    while a < newsz
      invariant a == n * PGSIZE && Grew(m0, t0, mem.m, t, p, n, perm) && p <= n && Spent(m0, t0, mem.m, t, p, n)
      invariant n == p || a < newsz + PGSIZE
      decreases newsz - a
    {
      CopyBound(n, newsz);
      r, t := AllocPage(mem, m0, t0, t, root, a, perm, p, n);
      if r.OutOfMemory? {
        NeedMono(t0, p, n + 1, PagesUp(newsz));
        t := UndoGrowth(mem, m0, t0, t, root, PgRoundUp(oldsz), a, p, n);
        return r, 0, t;
      }
      n := n + 1;
      a := a + PGSIZE;
    }
    assert n == PagesUp(newsz) by { GrowthEnds(oldsz, newsz, n); }
    Enough(m0, t0, mem.m, t, p, n);
    r, sz := Done, newsz;
  }

  /** One turn of uvmalloc's loop: a zeroed page at `a`, or no frame for it or for a table. The panics of mappages are
      out of reach, since dense user memory stays far below the trapframe. */
  method AllocPage(mem: Memory, ghost m0: Mem, ghost t0: Tree, ghost t: Tree, root: nat, a: nat, perm: nat,
                   ghost p: nat, ghost n: nat)
    returns (r: Outcome, ghost t1: Tree)
    requires a == n * PGSIZE && Grew(m0, t0, mem.m, t, p, n, perm) && Spent(m0, t0, mem.m, t, p, n)
    requires root == t0.root && |Frames(m0)| <= MAXFRAMES && perm < 1024 && IsLeaf(perm)
    modifies mem
    ensures !r.Panic?
    ensures r.Done? ==> Grew(m0, t0, mem.m, t1, p, n + 1, perm) && Spent(m0, t0, mem.m, t1, p, n + 1)
    ensures r.OutOfMemory? ==> Extended(m0, t0, mem.m, t1, p, n) && |m0.free| < Need(t0, p, n + 1)
  {
    hide Wf, PteAt, FrameOf, FramesOf, IsV, Within, Frames, Sound, Own, Dense, Extended, Inserted, SameMap, IsLeaf,
         Alloc, Release, Filled, WithV, Spent, Need, Counted, Grew, Taken, Restored,
         TreeFrames, FreeSet, Elems, Walking, Path, Index, Flags, Ppn, Reaches, TablesFor, Spanned;
    t1 := t;
    GrewExtended(m0, t0, mem.m, t, p, n, perm);
    ExtendedWf(m0, t0, mem.m, t, p, n);
    DenseIsSmall(mem.m, t, n);
    DenseMapped(mem.m, t, n, n);
    ghost var m1 := mem.m;
    var f := mem.KAlloc();
    if f == 0 {
      assert mem.m == m1 && m1.free == [] by { if m1.free != [] { AllocSound(m1); } }
      TooFew(m0, t0, m1, t, p, n, n + 1);
      return OutOfMemory, t;
    }
    mem.m := mem.m.(data := mem.m.data[f := Filled(0)]);
    assert mem.m == Taken(m1, Filled(0)) by { TakenIs(m1, Filled(0)); }
    TakenFrame(m1, t, Filled(0));
    WithinWf(m1, t, mem.m, t);
    SameAt(m1, t, mem.m, t, n);
    r, t1 := MapPage(mem, t, root, a, f, perm, n);
    if r.OutOfMemory? {
      TooFewTables(m0, t0, m1, t, mem.m, t1, p, n, n + 1, Filled(0));
      GiveBack(m1, t, mem.m, t1, n, perm, Filled(0));
      ghost var m2 := mem.m;
      var freed := mem.KFree(f * PGSIZE);
      ExtendedSame(m0, t0, m1, t, Release(m2, f), t1, p, n);
      return;
    }
    GrewPage(m0, t0, m1, t, mem.m, t1, p, n, perm);
    SpentPage(m0, t0, m1, t, mem.m, t1, p, n, Filled(0));
  }

  lemma Enough(m0: Mem, t0: Tree, m: Mem, t: Tree, p: nat, n: nat)
    requires Spent(m0, t0, m, t, p, n)
    ensures Need(t0, p, n) <= |m0.free|
  {
  }

  lemma TooFewTables(m0: Mem, t0: Tree, m: Mem, t: Tree, m1: Mem, t1: Tree, p: nat, n: nat, k: nat, x: Page)
    requires Spent(m0, t0, m, t, p, n) && n < k && m.free != [] && Counted(Taken(m, x), t, m1, t1, n, 0, OutOfMemory)
    ensures |m0.free| < Need(t0, p, k)
  {
    hide TablesFor, Need, Spanned;
    TooFew(m0, t0, m, t, p, n, k);
  }

  /** The error path of uvmalloc: uvmdealloc back to where it started. */
  method UndoGrowth(mem: Memory, ghost m0: Mem, ghost t0: Tree, ghost t: Tree, root: nat, start: nat, a: nat,
                    ghost p: nat, ghost n: nat)
    returns (ghost t': Tree)
    requires start == p * PGSIZE && a == n * PGSIZE
    requires Extended(m0, t0, mem.m, t, p, n) && Dense(m0, t0, p) && root == t0.root && |Frames(m0)| <= MAXFRAMES
    modifies mem
    ensures Restored(m0, t0, mem.m, t')
  {
    hide Wf, PteAt, FrameOf, FramesOf, IsV, Within, Frames, Sound, Removed, Own, Dense, PagesUp, Extended, SameMap;
    ExtendedWf(m0, t0, mem.m, t, p, n);
    ghost var m1 := mem.m;
    WholePages(n);
    WholePages(p);
    var sz := UvmDealloc(mem, t, root, a, start);
    Ungrown(m0, t0, m1, t, mem.m, p, n);
    t' := t;
  }

  lemma WholePages(n: nat)
    ensures PagesUp(n * PGSIZE) == n
  {
  }

  lemma PermLeaf(xperm: nat)
    requires xperm in {0, PTE_W, PTE_X, PTE_W + PTE_X}
    ensures IsLeaf(PTE_R + PTE_U + xperm)
  {
  }

  lemma TakenIs(m: Mem, x: Page)
    requires m.free != []
    ensures Taken(m, x) == Alloc(m).(data := Alloc(m).data[m.free[0] := x])
  {
  }

  lemma SameAt(m0: Mem, t0: Tree, m: Mem, t: Tree, v: nat)
    requires SameMap(m0, t0, m, t) && v < MAXVPN
    ensures Wf(m0, t0) && Wf(m, t) && PteAt(m, t, v) == PteAt(m0, t0, v)
  {
  }

  lemma GrowthEnds(oldsz: nat, newsz: nat, n: nat)
    requires oldsz <= newsz <= n * PGSIZE && (n == PagesUp(oldsz) || n * PGSIZE < newsz + PGSIZE)
    ensures n == PagesUp(newsz)
  {
  }

  /** A value stored in a uint64. */
  function Uint64(x: int): nat { x % 0x1_0000_0000_0000_0000 }

  /** growproc, for every `int` n: growth succeeds completely or changes nothing, shrinking below zero changes
      nothing, and user memory stays dense. */
  method GrowProc(mem: Memory, ghost t0: Tree, root: nat, sz: nat, n: int) returns (ok: bool, sz': nat, ghost t: Tree)
    requires Sound(mem.m) && Dense(mem.m, t0, PagesUp(sz)) && root == t0.root && |Frames(mem.m)| <= MAXFRAMES
    requires -0x8000_0000 <= n < 0x8000_0000
    modifies mem
    ensures Dense(mem.m, t, PagesUp(sz')) && sz' == if !ok || sz + n < 0 then sz else sz + n
    ensures ok && n > 0 ==> Grew(old(mem.m), t0, mem.m, t, PagesUp(sz), PagesUp(sz'), PTE_R + PTE_U + PTE_W)
    ensures !ok ==> Restored(old(mem.m), t0, mem.m, t)
    ensures ok <==> n <= 0 || Need(t0, PagesUp(sz), PagesUp(sz + n)) <= |old(mem.m).free|
    ensures n <= 0 ==> t == t0 && Removed(old(mem.m), t, mem.m, PagesUp(sz'), PagesUp(sz) - PagesUp(sz'), true)
  {
    hide Wf, PteAt, FrameOf, FramesOf, IsV, Within, Frames, Sound, Removed, Own, Dense, PagesUp, Extended, Restored,
         SameMap, Need;
    ghost var m0 := mem.m;
    SizeBound(m0, t0, sz);
    t := t0;
    if n > 0 {
      var out, r, t1 := UvmAlloc(mem, t0, root, sz, Uint64(sz + n), PTE_W);
      t := t1;
      if r == 0 {
        RestoredDense(m0, t0, mem.m, t, PagesUp(sz));
        return false, sz, t;
      }
      ExtendedWf(m0, t0, mem.m, t, PagesUp(sz), PagesUp(r));
      return true, r, t;
    } else if n < 0 {
      var r := UvmDealloc(mem, t0, root, sz, Uint64(sz + n));
      return true, r, t;
    }
    RemoveNothing(m0, t0, PagesUp(sz), true);
    ok, sz' := true, sz;
  }

  lemma SizeBound(m: Mem, t: Tree, sz: nat)
    requires Sound(m) && Dense(m, t, PagesUp(sz)) && |Frames(m)| <= MAXFRAMES
    ensures Wf(m, t) && sz <= MAXFRAMES * PGSIZE
  {
    hide Wf, PteAt, FrameOf, IsV, Frames, Sound, Own;
    DenseIsSmall(m, t, PagesUp(sz));
    Rounds(sz);
  }

  lemma RestoredDense(m0: Mem, t0: Tree, m: Mem, t: Tree, n: nat)
    requires Dense(m0, t0, n) && Restored(m0, t0, m, t)
    ensures Dense(m, t, n)
  {
    hide Dense, Within;
    DenseSame(m0, t0, m, t, n);
  }

  // ---------------------------------------------------------------- fork

  /** Pages [0, n) of the new tree are copies of the old tree's: same flags, same bytes, other frames. */
  ghost predicate Copied(m0: Mem, parent: Tree, child0: Tree, m: Mem, child: Tree, n: nat)
  {
    && Extended(m0, child0, m, child, 0, n) && Wf(m0, parent)
    && (forall v: nat :: v < n ==>
          && Flags(PteAt(m, child, v)) == Flags(PteAt(m0, parent, v))
          && FrameOf(m, child, v) in m.data && FrameOf(m0, parent, v) in m0.data
          && m.data[FrameOf(m, child, v)] == m0.data[FrameOf(m0, parent, v)])
  }

  /** Work on the new tree leaves the old one alone. */
  lemma OtherTree(m0: Mem, t0: Tree, m: Mem, t: Tree, other: Tree)
    requires Within(m0, t0, m, t) && Wf(m0, other) && TreeFrames(other) !! TreeFrames(t0)
    ensures Wf(m, other) && SameMap(m0, other, m, other)
  {
    hide Wf, Sound, Frames, TreeFrames;
    TreeInTables(m0, other);
    TreeFrame(m0, m, other);
  }

  lemma CopiedPage(m0: Mem, parent: Tree, child0: Tree, m: Mem, t: Tree, m1: Mem, t1: Tree, n: nat, perm: nat, x: Page)
    requires Copied(m0, parent, child0, m, t, n) && m.free != [] && n + 1 <= TRAPVPN && perm < 1024
    requires Inserted(Taken(m, x), t, m1, t1, n, 1, m.free[0], perm)
    requires FrameOf(m0, parent, n) in m0.data && x == m0.data[FrameOf(m0, parent, n)]
    requires WithV(perm) == Flags(PteAt(m0, parent, n))
    ensures Copied(m0, parent, child0, m1, t1, n + 1)
  {
    hide Wf, PteAt, IsV, Sound, Flags, WithV, Inserted, Extended, Ppn;
    ExtendedWf(m0, child0, m, t, 0, n);
    AllocSound(m);
    ExtendPage(m0, child0, m, t, m1, t1, 0, n, perm, x);
  }

  lemma ValidFlags(pte: nat)
    requires IsV(pte)
    ensures WithV(Flags(pte)) == Flags(pte) < 1024 && (IsLeaf(Flags(pte)) <==> IsLeaf(pte))
  {
    assert Flags(Flags(pte)) == Flags(pte) < 1024;
    hide Flags;
  }

  lemma OldData(m0: Mem, t0: Tree, m: Mem, t: Tree, n: nat, f: nat)
    requires Extended(m0, t0, m, t, 0, n) && f in m0.data
    ensures f in m.data && m.data[f] == m0.data[f]
  {
  }

  /** uvmcopy: a copy of the parent's memory, or -1 with the child's mappings and all data as before. The
      parent's tree does not change, and neither of the panics is reachable. */
  method UvmCopy(mem: Memory, ghost parent: Tree, ghost child0: Tree, oldRoot: nat, newRoot: nat, sz: nat)
    returns (r: Outcome, ghost child: Tree)
    requires Sound(mem.m) && Dense(mem.m, parent, PagesUp(sz)) && Dense(mem.m, child0, 0)
    requires oldRoot == parent.root && newRoot == child0.root && TreeFrames(parent) !! TreeFrames(child0)
    requires |Frames(mem.m)| <= MAXFRAMES
    modifies mem
    ensures r == if Need(child0, 0, PagesUp(sz)) <= |old(mem.m).free| then Done else OutOfMemory
    ensures r.Done? ==> Copied(old(mem.m), parent, child0, mem.m, child, PagesUp(sz))
    ensures !r.Done? ==> Restored(old(mem.m), child0, mem.m, child)
    ensures SameMap(old(mem.m), parent, mem.m, parent)
  {
    hide Wf, PteAt, FrameOf, FramesOf, IsV, Within, Frames, Sound, Removed, Own, Dense, PagesUp, Extended,
         Inserted, Restored, SameMap, IsLeaf, Alloc, Release, WithV, Flags, Ppn, TreeFrames, Walking, Path, Index,
         Spent, Need, Counted, Reaches;
    ghost var m0, n, N := mem.m, 0, PagesUp(sz);
    child := child0;
    DenseOwns(m0, parent, N);
    ExtendedNothing(m0, child0, 0);
    CopyStart(m0, parent);
    SpentNothing(m0, child0, 0);
    var i := 0;
    while i < sz
      invariant i == n * PGSIZE && Copied(m0, parent, child0, mem.m, child, n) && n <= N
      invariant SameMap(m0, parent, mem.m, parent) && Spent(m0, child0, mem.m, child, 0, n)
    {
      assert n < N by { CopyBound(n, sz); }
      ExtendedWf(m0, child0, mem.m, child, 0, n);
      DenseIsSmall(mem.m, child, n);
      DenseMapped(mem.m, child, n, n);
      DenseMapped(m0, parent, N, n);
      SameAt(m0, parent, mem.m, parent, n);
      ghost var m1 := mem.m;
      assert i / PGSIZE == n;
      var w, told := mem.Walk(parent, oldRoot, i, false);
      if !w.At? {
        AbsentInvalid(m1, parent, n);
        assert false;
      }
      SlotIsPte(m1, parent, mem.m, parent, i, false, w);
      var pte := mem.m.tables[w.frame][w.index];
      if !IsV(pte) {
        assert false;
      }
      var pa, flags := Ppn(pte), Flags(pte);
      assert pa == FrameOf(m0, parent, n) by { FrameIs(m0, parent, n); }
      DenseFrame(m0, parent, N, n);
      OldData(m0, child0, m1, child, n, pa);
      MappedIsLeaf(m0, parent, n);
      ValidFlags(pte);
      var f := mem.KAlloc();
      if f == 0 {
        assert mem.m == m1 && m1.free == [] by { if m1.free != [] { AllocSound(m1); } }
        TooFew(m0, child0, m1, child, 0, n, N);
        UndoCopy(mem, m0, parent, child0, child, newRoot, i, n);
        return OutOfMemory, child;
      }
      AllocSound(m1);
      AllocData(m1, pa);
      var x := mem.m.data[pa];
      mem.m := mem.m.(data := mem.m.data[f := x]);
      assert mem.m == Taken(m1, x) by { TakenIs(m1, x); }
      TakenFrame(m1, child, x);
      WithinWf(m1, child, mem.m, child);
      SameAt(m1, child, mem.m, child, n);
      ghost var t1;
      r, t1 := MapPage(mem, child, newRoot, i, f, flags, n);
      if r.OutOfMemory? {
        TooFewTables(m0, child0, m1, child, mem.m, t1, 0, n, N, x);
        GiveBack(m1, child, mem.m, t1, n, flags, x);
        ghost var m2 := mem.m;
        var freed := mem.KFree(f * PGSIZE);
        ExtendedSame(m0, child0, m1, child, Release(m2, f), t1, 0, n);
        child := t1;
        UndoCopy(mem, m0, parent, child0, child, newRoot, i, n);
        return OutOfMemory, child;
      }
      CopiedPage(m0, parent, child0, m1, child, mem.m, t1, n, flags, x);
      SpentPage(m0, child0, m1, child, mem.m, t1, 0, n, x);
      child, n := t1, n + 1;
      i := i + PGSIZE;
      ExtendedWf(m0, child0, mem.m, child, 0, n);
      OtherTree(m0, child0, mem.m, child, parent);
    }
    assert n == N by { CopyEnd(n, sz); }
    Enough(m0, child0, mem.m, child, 0, n);
    r := Done;
  }

  /** The error path of uvmcopy. */
  method UndoCopy(mem: Memory, ghost m0: Mem, ghost parent: Tree, ghost child0: Tree, ghost t: Tree, root: nat, i: nat,
                  ghost n: nat)
    requires Extended(m0, child0, mem.m, t, 0, n) && Dense(m0, child0, 0) && root == child0.root && i == n * PGSIZE
    requires Wf(m0, parent) && TreeFrames(parent) !! TreeFrames(child0)
    modifies mem
    ensures Restored(m0, child0, mem.m, t) && SameMap(m0, parent, mem.m, parent)
  {
    hide Wf, PteAt, FrameOf, FramesOf, IsV, Within, Frames, Sound, Removed, Own, Dense, Extended, SameMap, TreeFrames;
    ExtendedWf(m0, child0, mem.m, t, 0, n);
    ghost var m1 := mem.m;
    DenseOwns(m1, t, n);
    var r, k := UvmUnmap(mem, t, root, 0, i / PGSIZE, true);
    assert r.Done? by { if r.Panic? { DenseMapped(m1, t, n, k); } }
    Ungrown(m0, child0, m1, t, mem.m, 0, n);
    OtherTree(m0, child0, mem.m, t, parent);
  }

  lemma CopyStart(m: Mem, t: Tree)
    requires Wf(m, t)
    ensures SameMap(m, t, m, t)
  {
  }

  lemma CopyBound(n: nat, sz: nat)
    requires n * PGSIZE < sz
    ensures n < PagesUp(sz)
  {
  }

  lemma CopyEnd(n: nat, sz: nat)
    requires n <= PagesUp(sz) && sz <= n * PGSIZE
    ensures n == PagesUp(sz)
  {
  }

  lemma DenseFrame(m: Mem, t: Tree, n: nat, v: nat)
    requires Dense(m, t, n) && v < n
    ensures FrameOf(m, t, v) in m.data
  {
  }

  lemma AllocData(m: Mem, f: nat)
    requires m.free != [] && f in m.data && m.free[0] !in m.data
    ensures f in Alloc(m).data && Alloc(m).data[f] == m.data[f]
  {
  }

  // ---------------------------------------------------------------- taking a tree down

  /** The root of a subtree: the whole tree at level 2, middle table `i` at level 1, last-level table `(i, j)`
      at level 0. */
  ghost predicate IsSub(t: Tree, level: nat, i: nat, j: nat)
  {
    level == 2 || (level == 1 && i in t.mid) || (level == 0 && (i, j) in t.leaf)
  }

  ghost function SubRoot(t: Tree, level: nat, i: nat, j: nat): nat
    requires IsSub(t, level, i, j)
  {
    if level == 2 then t.root else if level == 1 then t.mid[i] else t.leaf[(i, j)]
  }

  /** The tables below entries [0, x) of a subtree's root. */
  ghost function Below(t: Tree, level: nat, i: nat, x: nat): set<nat>
  {
    if level == 2 then (set a | a in t.mid && a < x :: t.mid[a]) + (set p | p in t.leaf && p.0 < x :: t.leaf[p])
    else if level == 1 then set p | p in t.leaf && p.0 == i && p.1 < x :: t.leaf[p]
    else {}
  }

  ghost function Sub(t: Tree, level: nat, i: nat, j: nat): set<nat>
    requires IsSub(t, level, i, j)
  {
    {SubRoot(t, level, i, j)} + Below(t, level, i, ENTRIES)
  }

  /** The subtree below entry `x`. */
  ghost predicate HasKid(t: Tree, level: nat, i: nat, x: nat)
  {
    level > 0 && if level == 2 then IsSub(t, 1, x, 0) else IsSub(t, 0, i, x)
  }

  ghost function Kid(t: Tree, level: nat, i: nat, x: nat): set<nat>
  {
    if !HasKid(t, level, i, x) then {}
    else if level == 2 then Sub(t, 1, x, 0)
    else Sub(t, 0, i, x)
  }

  lemma BelowStep(m: Mem, t: Tree, level: nat, i: nat, x: nat)
    requires Wf(m, t) && level <= 2 && x < ENTRIES
    ensures Below(t, level, i, x + 1) == Below(t, level, i, x) + Kid(t, level, i, x)
    ensures Below(t, level, i, x) !! Kid(t, level, i, x)
  {
    hide RootWf, LeafWf, IsV, Pack;
    if level == 2 {
      forall f | f in Below(t, 2, i, x + 1) ensures f in Below(t, 2, i, x) + Kid(t, 2, i, x) {
        if p :| p in t.leaf && p.0 < x + 1 && t.leaf[p] == f {
          var (a, b) := p;
          assert (a, b) in t.leaf;
        }
      }
    }
  }

  lemma BelowNothing(t: Tree, level: nat, i: nat)
    ensures Below(t, level, i, 0) == {}
  {
  }

  lemma RootNotBelow(m: Mem, t: Tree, level: nat, i: nat, j: nat, x: nat)
    requires Wf(m, t) && level <= 2 && IsSub(t, level, i, j)
    ensures SubRoot(t, level, i, j) !in Below(t, level, i, x)
  {
    hide RootWf, LeafWf, MidWf;
  }

  /** All of the tree is below its root. */
  lemma SubIsTree(m: Mem, t: Tree)
    requires Wf(m, t)
    ensures Sub(t, 2, 0, 0) == TreeFrames(t)
  {
    hide LeafWf, IsV, Pack;
    forall f | f in TreeFrames(t) ensures f in Sub(t, 2, 0, 0) {
      if f in t.leaf.Values {
        var p :| p in t.leaf && t.leaf[p] == f;
        var (a, b) := p;
        assert (a, b) in t.leaf;
      }
    }
  }

  /** No last-level entry is valid. */
  ghost predicate Empty(m: Mem, t: Tree)
  {
    forall p, j :: p in t.leaf && t.leaf[p] in m.tables && 0 <= j < ENTRIES ==> m.tables[t.leaf[p]][j] == 0
  }

  /** Entry `x` of a subtree's root leads to the child, or is invalid, or, on the last level, maps a page. */
  lemma KidEntry(m: Mem, t: Tree, level: nat, i: nat, j: nat, x: nat)
    requires Wf(m, t) && level <= 2 && IsSub(t, level, i, j) && x < ENTRIES
    ensures SubRoot(t, level, i, j) in m.tables
    ensures var e := m.tables[SubRoot(t, level, i, j)][x];
            && (IsV(e) && !IsLeaf(e) <==> HasKid(t, level, i, x)) && (IsV(e) && IsLeaf(e) <==> level == 0 && e != 0)
            && (HasKid(t, level, i, x) ==> Ppn(e) == if level == 2 then t.mid[x] else t.leaf[(i, x)])
  {
    hide IsV, IsLeaf, Pack, Ppn;
    ZeroInvalid();
    if level == 2 && x in t.mid { PackedTable(t.mid[x]); }
    if level == 1 && (i, x) in t.leaf { PackedTable(t.leaf[(i, x)]); }
  }

  /** Last-level entry `y` of table `(a, b)` is below entries [0, x) of a subtree's root. */
  ghost predicate Under(level: nat, i: nat, j: nat, x: nat, a: nat, b: nat, y: nat)
  {
    if level == 2 then a < x else if level == 1 then a == i && b < x else a == i && b == j && y < x
  }

  /** Nothing is mapped below entries [0, x) of a subtree's root. */
  ghost predicate Vacant(m: Mem, t: Tree, level: nat, i: nat, j: nat, x: nat)
  {
    forall a: nat, b: nat, y: nat :: Under(level, i, j, x, a, b, y) ==> VacantAt(m, t, a, b, y)
  }

  ghost predicate VacantAt(m: Mem, t: Tree, a: nat, b: nat, y: nat)
  {
    (a, b) in t.leaf && t.leaf[(a, b)] in m.tables && y < ENTRIES ==> m.tables[t.leaf[(a, b)]][y] == 0
  }

  /** The subtree's own entries are what its root entry leads to. */
  lemma VacantKid(m: Mem, t: Tree, level: nat, i: nat, j: nat, x: nat)
    requires Wf(m, t) && 1 <= level <= 2 && IsSub(t, level, i, j) && x < ENTRIES
    ensures var i', j' := if level == 2 then x else i, if level == 2 then 0 else x;
            Vacant(m, t, level, i, j, x + 1) <==>
              Vacant(m, t, level, i, j, x) && (HasKid(t, level, i, x) ==> Vacant(m, t, level - 1, i', j', ENTRIES))
  {
    hide VacantAt, Wf;
    var i', j' := if level == 2 then x else i, if level == 2 then 0 else x;
    if Vacant(m, t, level, i, j, x + 1) {
      forall a: nat, b: nat, y: nat | Under(level, i, j, x, a, b, y) ensures VacantAt(m, t, a, b, y) {
        assert Under(level, i, j, x + 1, a, b, y);
      }
      var lower := level - 1;
      forall a: nat, b: nat, y: nat | Under(lower, i', j', ENTRIES, a, b, y) ensures VacantAt(m, t, a, b, y) {
        assert Under(level, i, j, x + 1, a, b, y);
      }
    }
    if Vacant(m, t, level, i, j, x) && (HasKid(t, level, i, x) ==> Vacant(m, t, level - 1, i', j', ENTRIES)) {
      forall a: nat, b: nat, y: nat | Under(level, i, j, x + 1, a, b, y) ensures VacantAt(m, t, a, b, y) {
        if !Under(level, i, j, x, a, b, y) { VacantEntry(m, t, level, i, x, a, b, y); }
      }
    }
  }

  lemma VacantEntry(m: Mem, t: Tree, level: nat, i: nat, x: nat, a: nat, b: nat, y: nat)
    requires Wf(m, t) && 1 <= level <= 2 && x < ENTRIES && if level == 2 then a == x else a == i && b == x
    requires HasKid(t, level, i, x) ==>
               Vacant(m, t, level - 1, if level == 2 then x else i, if level == 2 then 0 else x, ENTRIES)
    ensures VacantAt(m, t, a, b, y)
  {
    hide RootWf, LeafWf;
    if (a, b) in t.leaf && y < ENTRIES {
      assert HasKid(t, level, i, x);
      assert Under(level - 1, if level == 2 then x else i, if level == 2 then 0 else x, ENTRIES, a, b, y);
    }
  }

  lemma VacantTable(m: Mem, t: Tree, i: nat, j: nat, x: nat)
    requires Wf(m, t) && (i, j) in t.leaf && t.leaf[(i, j)] in m.tables && x < ENTRIES
    ensures Vacant(m, t, 0, i, j, x + 1) <==> Vacant(m, t, 0, i, j, x) && m.tables[t.leaf[(i, j)]][x] == 0
  {
    hide Wf;
    if Vacant(m, t, 0, i, j, x + 1) { assert Under(0, i, j, x + 1, i, j, x); }
    if Vacant(m, t, 0, i, j, x + 1) {
      forall a: nat, b: nat, y: nat | Under(0, i, j, x, a, b, y) ensures VacantAt(m, t, a, b, y) {
        assert Under(0, i, j, x + 1, a, b, y);
      }
    }
  }

  lemma VacantMono(m: Mem, t: Tree, level: nat, i: nat, j: nat, x: nat)
    requires x < ENTRIES && Vacant(m, t, level, i, j, ENTRIES)
    ensures Vacant(m, t, level, i, j, x + 1)
  {
    hide VacantAt;
    forall a: nat, b: nat, y: nat | Under(level, i, j, x + 1, a, b, y) ensures VacantAt(m, t, a, b, y) {
      assert Under(level, i, j, ENTRIES, a, b, y);
    }
  }

  /** One entry of a subtree's root: what is below it decides. */
  lemma VacantStep(m: Mem, t: Tree, level: nat, i: nat, j: nat, x: nat)
    requires Wf(m, t) && level <= 2 && IsSub(t, level, i, j) && x < ENTRIES && SubRoot(t, level, i, j) in m.tables
    ensures Vacant(m, t, level, i, j, ENTRIES) ==> Vacant(m, t, level, i, j, x + 1)
    ensures var i', j' := if level == 2 then x else i, if level == 2 then 0 else x;
            Vacant(m, t, level, i, j, x + 1) <==>
              && Vacant(m, t, level, i, j, x)
              && (HasKid(t, level, i, x) ==> Vacant(m, t, level - 1, i', j', ENTRIES))
              && (level == 0 ==> m.tables[SubRoot(t, level, i, j)][x] == 0)
  {
    hide Vacant, Wf;
    if level == 0 { VacantTable(m, t, i, j, x); } else { VacantKid(m, t, level, i, j, x); }
    if Vacant(m, t, level, i, j, ENTRIES) { VacantMono(m, t, level, i, j, x); }
  }

  /** The subtree still stands as it did in `s`. */
  ghost predicate Intact(s: Mem, m: Mem, fs: set<nat>)
  {
    forall f :: f in fs ==> f in s.tables && f in m.tables && m.tables[f] == s.tables[f]
  }

  /** Exactly the tables `fs` have been freed. */
  ghost predicate Freed(m0: Mem, m: Mem, fs: set<nat>)
  {
    && Sound(m) && Frames(m) == Frames(m0) && m.data == m0.data && m.tables == m0.tables - fs
  }

  /** Freeing the entries [0, x) of a subtree's root, `m0` being the memory when that began. */
  ghost predicate Freeing(s: Mem, m0: Mem, m: Mem, t: Tree, level: nat, i: nat, j: nat, x: nat)
    requires IsSub(t, level, i, j)
  {
    var root := SubRoot(t, level, i, j);
    && Sound(m) && Frames(m) == Frames(m0) && m.data == m0.data
    && m.tables.Keys == m0.tables.Keys - Below(t, level, i, x)
    && (forall f :: f in m.tables && f != root ==> m.tables[f] == m0.tables[f])
    && root in m.tables && root in s.tables
    && (forall y :: x <= y < ENTRIES ==> m.tables[root][y] == s.tables[root][y])
  }

  lemma FreeingStart(s: Mem, m: Mem, t: Tree, level: nat, i: nat, j: nat)
    requires Wf(s, t) && level <= 2 && IsSub(t, level, i, j) && Sound(m) && Intact(s, m, Sub(t, level, i, j))
    ensures Freeing(s, m, m, t, level, i, j, 0)
  {
    hide Wf, Sound, Frames;
    BelowNothing(t, level, i);
  }

  lemma KidIntact(s: Mem, m0: Mem, m: Mem, t: Tree, level: nat, i: nat, j: nat, x: nat)
    requires Wf(s, t) && level <= 2 && IsSub(t, level, i, j) && x < ENTRIES && HasKid(t, level, i, x)
    requires Intact(s, m0, Sub(t, level, i, j)) && Freeing(s, m0, m, t, level, i, j, x)
    ensures Intact(s, m, Kid(t, level, i, x)) && SubRoot(t, level, i, j) !in Kid(t, level, i, x)
  {
    hide Wf, Sound, Frames, Below;
    BelowStep(s, t, level, i, x);
    RootNotBelow(s, t, level, i, j, x + 1);
    BelowMono(t, level, i, x + 1);
  }

  lemma BelowMono(t: Tree, level: nat, i: nat, x: nat)
    requires x <= ENTRIES
    ensures Below(t, level, i, x) <= Below(t, level, i, ENTRIES)
  {
  }

  lemma FreeingKid(s: Mem, m0: Mem, m: Mem, m1: Mem, t: Tree, level: nat, i: nat, j: nat, x: nat)
    requires Wf(s, t) && level <= 2 && IsSub(t, level, i, j) && x < ENTRIES && HasKid(t, level, i, x)
    requires Freeing(s, m0, m, t, level, i, j, x) && Freed(m, m1, Kid(t, level, i, x))
    requires SubRoot(t, level, i, j) !in Kid(t, level, i, x)
    ensures SubRoot(t, level, i, j) in m1.tables
    ensures Freeing(s, m0, PutPte(m1, SubRoot(t, level, i, j), x, 0), t, level, i, j, x + 1)
  {
    hide Wf, Below, Kid, HasKid, IsSub, SubRoot;
    BelowStep(s, t, level, i, x);
  }

  lemma FreeingSkip(s: Mem, m0: Mem, m: Mem, t: Tree, level: nat, i: nat, j: nat, x: nat)
    requires Wf(s, t) && level <= 2 && IsSub(t, level, i, j) && x < ENTRIES && !HasKid(t, level, i, x)
    requires Freeing(s, m0, m, t, level, i, j, x)
    ensures Freeing(s, m0, m, t, level, i, j, x + 1)
  {
    hide Wf, Below, HasKid, IsSub, SubRoot, Sound, Frames;
    BelowStep(s, t, level, i, x);
  }

  lemma FreeingEnd(s: Mem, m0: Mem, m: Mem, t: Tree, level: nat, i: nat, j: nat)
    requires Wf(s, t) && level <= 2 && IsSub(t, level, i, j) && Freeing(s, m0, m, t, level, i, j, ENTRIES)
    ensures Freed(m0, Release(m, SubRoot(t, level, i, j)), Sub(t, level, i, j))
  {
    hide Wf, Below, IsSub, SubRoot, Frames;
    var root := SubRoot(t, level, i, j);
    ReleaseSound(m, root);
    assert Release(m, root).tables == m0.tables - Sub(t, level, i, j);
    assert m.data - {root} == m.data;
  }

  /** freewalk panics exactly when some page is still mapped below the subtree's root; otherwise it frees each table
      of the subtree exactly once. `s` is a state in which the tree was whole. */
  method FreeWalk(mem: Memory, ghost s: Mem, ghost t: Tree, ghost level: nat, ghost i: nat, ghost j: nat, table: nat)
    returns (ok: bool)
    requires Wf(s, t) && level <= 2 && IsSub(t, level, i, j) && table == SubRoot(t, level, i, j)
    requires Sound(mem.m) && Intact(s, mem.m, Sub(t, level, i, j))
    modifies mem
    ensures ok <==> Vacant(s, t, level, i, j, ENTRIES)
    ensures ok ==> Freed(old(mem.m), mem.m, Sub(t, level, i, j))
    decreases level
  {
    hide Wf, Below, Sub, Sound, Frames, Intact, IsV, IsLeaf, Ppn, Kid, Vacant;
    ghost var m0 := mem.m;
    FreeingStart(s, m0, t, level, i, j);
    VacantNothing(s, t, level, i, j);
    var x := 0;
    while x < ENTRIES
      invariant 0 <= x <= ENTRIES && Freeing(s, m0, mem.m, t, level, i, j, x) && Vacant(s, t, level, i, j, x)
    {
      var pte := mem.m.tables[table][x];
      KidEntry(s, t, level, i, j, x);
      VacantStep(s, t, level, i, j, x);
      if IsV(pte) && !IsLeaf(pte) {
        var child := Ppn(pte);
        KidIntact(s, m0, mem.m, t, level, i, j, x);
        KidIs(t, level, i, x);
        ghost var m1 := mem.m;
        ok := FreeWalk(mem, s, t, level - 1, if level == 2 then x else i, if level == 2 then 0 else x, child);
        if !ok {
          return;
        }
        FreeingKid(s, m0, m1, mem.m, t, level, i, j, x);
        mem.m := PutPte(mem.m, table, x, 0);
      } else {
        if IsV(pte) {
          return false;
        }
        FreeingSkip(s, m0, mem.m, t, level, i, j, x);
      }
      x := x + 1;
    }
    FreeingEnd(s, m0, mem.m, t, level, i, j);
    Freeable(mem.m, table);
    ok := mem.KFree(table * PGSIZE);
  }

  lemma VacantNothing(m: Mem, t: Tree, level: nat, i: nat, j: nat)
    ensures Vacant(m, t, level, i, j, 0)
  {
  }

  lemma EmptyVacant(m: Mem, t: Tree)
    requires Empty(m, t)
    ensures Vacant(m, t, 2, 0, 0, ENTRIES)
  {
  }

  lemma KidIs(t: Tree, level: nat, i: nat, x: nat)
    requires level <= 2 && HasKid(t, level, i, x)
    ensures level == 2 ==> IsSub(t, 1, x, 0) && Kid(t, level, i, x) == Sub(t, 1, x, 0)
    ensures level == 1 ==> IsSub(t, 0, i, x) && Kid(t, level, i, x) == Sub(t, 0, i, x)
    ensures level >= 1
  {
  }

  /** Every last-level entry belongs to a page below MAXVA. */
  lemma PageOfEntry(m: Mem, t: Tree, i: nat, j: nat, x: nat) returns (v: nat)
    requires Wf(m, t) && (i, j) in t.leaf && x < ENTRIES
    ensures v < MAXVPN && Path(v) == (i, j) && Index(0, v) == x
  {
    assert i < ENTRIES / 2 && j < ENTRIES;
    v := (i * ENTRIES + j) * ENTRIES + x;
    Digits(i, j, x);
  }

  lemma Digits(i: nat, j: nat, x: nat)
    requires i < ENTRIES / 2 && j < ENTRIES && x < ENTRIES
    ensures var v := (i * ENTRIES + j) * ENTRIES + x;
            v < MAXVPN && Index(2, v) == i && Index(1, v) == j && Index(0, v) == x
  {
    var v := (i * ENTRIES + j) * ENTRIES + x;
    assert v / ENTRIES == i * ENTRIES + j;
    assert v / (ENTRIES * ENTRIES) == i;
  }

  lemma FlatEmpty(m: Mem, t: Tree)
    requires Wf(m, t) && forall v: nat :: v < MAXVPN ==> PteAt(m, t, v) == 0
    ensures Empty(m, t)
  {
    hide Index, RootWf, MidWf, LeafWf;
    forall p, j | p in t.leaf && t.leaf[p] in m.tables && 0 <= j < ENTRIES ensures m.tables[t.leaf[p]][j] == 0 {
      var (a, b) := p;
      assert p == (a, b);
      var v := PageOfEntry(m, t, a, b, j);
      assert PteAt(m, t, v) == 0;
    }
  }

  /** The free list gains exactly the frames that left the other two uses. */
  lemma FreeGains(m0: Mem, m: Mem, fs: set<nat>, gs: set<nat>)
    requires Sound(m0) && Sound(m) && Frames(m) == Frames(m0)
    requires m.tables == m0.tables - fs && m.data == m0.data - gs && fs <= m0.tables.Keys && gs <= m0.data.Keys
    ensures FreeSet(m) == FreeSet(m0) + fs + gs
  {
    assert FreeSet(m) == Frames(m) - m.tables.Keys - m.data.Keys;
    assert FreeSet(m0) == Frames(m0) - m0.tables.Keys - m0.data.Keys;
  }

  /** uvmfree gives every user frame and every table of the tree back, each exactly once. The trampoline and
      the trapframe have been unmapped before. */
  method UvmFree(mem: Memory, ghost t: Tree, root: nat, sz: nat)
    requires Sound(mem.m) && Dense(mem.m, t, PagesUp(sz)) && root == t.root
    requires forall v: nat :: TRAPVPN <= v < MAXVPN ==> !IsV(PteAt(mem.m, t, v))
    modifies mem
    ensures Sound(mem.m) && Frames(mem.m) == Frames(old(mem.m))
    ensures mem.m.tables.Keys == old(mem.m).tables.Keys - TreeFrames(t)
    ensures forall f :: f in mem.m.tables ==> mem.m.tables[f] == old(mem.m).tables[f]
    ensures mem.m.data == old(mem.m).data - FramesOf(old(mem.m), t, 0, PagesUp(sz))
    ensures FreeSet(mem.m) == FreeSet(old(mem.m)) + TreeFrames(t) + FramesOf(old(mem.m), t, 0, PagesUp(sz))
  {
    hide Wf, PteAt, FrameOf, FramesOf, IsV, Within, Frames, Sound, Removed, Own, Dense, PagesUp, PgRoundUp, TreeFrames,
         Below, Sub, Freed, FreeSet, Empty, Vacant;
    ghost var m0, n := mem.m, PagesUp(sz);
    DenseOwns(m0, t, n);
    Rounds(sz);
    if sz > 0 {
      var r, k := UvmUnmap(mem, t, root, 0, PgRoundUp(sz) / PGSIZE, true);
      assert r.Done? by { if r.Panic? { DenseMapped(m0, t, n, k); } }
    } else {
      RemoveNothing(m0, t, 0, true);
    }
    ghost var m1 := mem.m;
    assert Removed(m0, t, m1, 0, n, true);
    RemovedWf(m0, t, m1, 0, n, true);
    assert Empty(m1, t) by { Unmapped(m0, t, m1, n); }
    TreeInTables(m1, t);
    SubIsTree(m1, t);
    assert Intact(m1, m1, Sub(t, 2, 0, 0));
    EmptyVacant(m1, t);
    var freed := FreeWalk(mem, m1, t, 2, 0, 0, root);
    TakenDown(m0, t, m1, mem.m, n);
  }

  lemma Unmapped(m0: Mem, t: Tree, m: Mem, n: nat)
    requires Dense(m0, t, n) && Removed(m0, t, m, 0, n, true)
    requires forall v: nat :: TRAPVPN <= v < MAXVPN ==> !IsV(PteAt(m0, t, v))
    ensures Wf(m, t) && Empty(m, t)
  {
    hide Wf, PteAt, IsV, Own, Within, Empty, FramesOf;
    RemovedWf(m0, t, m, 0, n, true);
    forall v: nat | v < MAXVPN ensures PteAt(m, t, v) == 0 {
      if n <= v { UnmappedIsZero(m0, t, v); }
    }
    FlatEmpty(m, t);
  }

  lemma TakenDown(m0: Mem, t: Tree, m1: Mem, m: Mem, n: nat)
    requires Dense(m0, t, n) && Removed(m0, t, m1, 0, n, true) && Freed(m1, m, Sub(t, 2, 0, 0))
    ensures Wf(m0, t) && Sound(m) && Frames(m) == Frames(m0)
    ensures m.tables.Keys == m0.tables.Keys - TreeFrames(t)
    ensures forall f :: f in m.tables ==> m.tables[f] == m0.tables[f]
    ensures m.data == m0.data - FramesOf(m0, t, 0, n)
    ensures FreeSet(m) == FreeSet(m0) + TreeFrames(t) + FramesOf(m0, t, 0, n)
  {
    hide Wf, PteAt, IsV, FrameOf, FramesOf, TreeFrames, Frames, FreeSet, Sound, Sub, Own;
    RemovedWf(m0, t, m1, 0, n, true);
    SubIsTree(m0, t);
    TreeInTables(m0, t);
    DenseOwns(m0, t, n);
    FramesOfSize(m0, t, n);
    WithinWf(m0, t, m1, t);
    assert m1.tables.Keys == m0.tables.Keys;
    assert m.tables == m0.tables - TreeFrames(t);
    FreeGains(m0, m, TreeFrames(t), FramesOf(m0, t, 0, n));
  }
}
