/** Sv39 page tables and the frame allocator under them (kernel/vm.c, kernel/kalloc.c). Frames are
    physical page numbers. A page-table page holds 512 entries; any other allocated frame holds bytes. */
module PageTable {
  import opened Bytes

  const PGSIZE: nat := 4096
  const ENTRIES: nat := 512
  /** MAXVA in bytes and in pages: one bit less than Sv39 allows. */
  const MAXVA: nat := 0x40_0000_0000
  const MAXVPN: nat := 0x400_0000

  // ---------------------------------------------------------------- page-table entries

  const PTE_V: nat := 1

  predicate IsV(pte: nat) { Flags(pte) % 2 == 1 }
  predicate IsW(pte: nat) { Flags(pte) / 4 % 2 == 1 }
  predicate IsU(pte: nat) { Flags(pte) / 16 % 2 == 1 }
  /** Some of R, W and X is set: the entry maps a page rather than a lower table. */
  predicate IsLeaf(pte: nat) { Flags(pte) / 2 % 8 != 0 }
  function Ppn(pte: nat): nat { pte / 1024 }
  function Flags(pte: nat): nat { pte % 1024 }
  /** The flag bits or-ed with PTE_V. */
  function WithV(flags: nat): nat { if flags % 2 == 0 then flags + PTE_V else flags }
  function Pack(ppn: nat, flags: nat): nat { ppn * 1024 + flags }

  lemma PackFields(ppn: nat, flags: nat)
    requires flags < 1024
    ensures Ppn(Pack(ppn, flags)) == ppn && Flags(Pack(ppn, flags)) == flags == Flags(flags)
  {
  }

  lemma Packed(ppn: nat, flags: nat)
    requires flags < 1024
    ensures var e := Pack(ppn, WithV(flags));
            && Ppn(e) == ppn && Flags(e) == WithV(flags) && IsV(e)
            && (IsLeaf(e) <==> IsLeaf(flags)) && (IsU(e) <==> IsU(flags)) && (IsW(e) <==> IsW(flags))
  {
    hide Pack, Ppn, Flags;
    PackFields(ppn, WithV(flags));
    PackFields(ppn, flags);
  }

  lemma PackedTable(ppn: nat)
    ensures var e := Pack(ppn, PTE_V); Ppn(e) == ppn && Flags(e) == PTE_V && IsV(e) && !IsLeaf(e)
  {
    hide Pack, Ppn, Flags;
    PackFields(ppn, PTE_V);
  }

  // ---------------------------------------------------------------- memory

  type Table = s: seq<nat> | |s| == ENTRIES witness seq(ENTRIES, _ => 0)
  type Page = s: seq<Byte> | |s| == PGSIZE witness seq(PGSIZE, _ => 0)

  function EmptyTable(): (t: Table)
    ensures forall i :: 0 <= i < ENTRIES ==> t[i] == 0
  {
    seq(ENTRIES, _ => 0)
  }

  function Filled(b: Byte): (p: Page)
    ensures forall i :: 0 <= i < PGSIZE ==> p[i] == b
  {
    seq(PGSIZE, _ => b)
  }

  /** The free list, the page-table pages and the other allocated frames. */
  datatype Mem = Mem(free: seq<nat>, tables: map<nat, Table>, data: map<nat, Page>)

  ghost function Elems(s: seq<nat>): set<nat> { set f | f in s }

  ghost function FreeSet(m: Mem): set<nat> { Elems(m.free) }

  ghost function Frames(m: Mem): set<nat> { FreeSet(m) + m.tables.Keys + m.data.Keys }

  /** No frame is listed twice, and no frame has two uses. */
  ghost predicate Sound(m: Mem)
  {
    && (forall i, j :: 0 <= i < j < |m.free| ==> m.free[i] != m.free[j])
    && FreeSet(m) !! m.tables.Keys !! m.data.Keys
    && 0 !in Frames(m)
  }

  // ---------------------------------------------------------------- the tree

  function Index(level: nat, vpn: nat): (i: nat)
    requires level <= 2
    ensures i < ENTRIES
  {
    if level == 0 then vpn % ENTRIES
    else if level == 1 then vpn / ENTRIES % ENTRIES
    else vpn / (ENTRIES * ENTRIES) % ENTRIES
  }

  /** Where the tables of one tree are: the middle tables by their index in the root, the last-level tables
      by their indices in the root and in the middle table. */
  datatype Tree = Tree(root: nat, mid: map<nat, nat>, leaf: map<(nat, nat), nat>)

  ghost function TreeFrames(t: Tree): set<nat> { {t.root} + t.mid.Values + t.leaf.Values }

  ghost predicate Distinct(t: Tree)
  {
    && (forall i, j :: i in t.mid && j in t.mid && i != j ==> t.mid[i] != t.mid[j])
    && (forall i, j :: i in t.leaf && j in t.leaf && i != j ==> t.leaf[i] != t.leaf[j])
    && (forall i :: i in t.mid ==> t.mid[i] != t.root)
    && (forall p :: p in t.leaf ==> t.leaf[p] != t.root)
    && (forall i, p :: i in t.mid && p in t.leaf ==> t.mid[i] != t.leaf[p])
  }

  ghost predicate RootWf(m: Mem, t: Tree)
  {
    && t.root in m.tables
    && (forall i :: i in t.mid ==> i < ENTRIES / 2 && t.mid[i] in m.tables)
    && (forall i :: 0 <= i < ENTRIES ==> (IsV(m.tables[t.root][i]) <==> i in t.mid))
    && (forall i :: i in t.mid ==> m.tables[t.root][i] == Pack(t.mid[i], PTE_V))
  }

  ghost predicate MidWf(m: Mem, t: Tree)
  {
    && (forall i, j :: (i, j) in t.leaf ==> i in t.mid && j < ENTRIES && t.leaf[(i, j)] in m.tables)
    && (forall i, j :: i in t.mid && t.mid[i] in m.tables && 0 <= j < ENTRIES ==>
          (IsV(m.tables[t.mid[i]][j]) <==> (i, j) in t.leaf))
    && (forall i, j :: (i, j) in t.leaf && i in t.mid && t.mid[i] in m.tables && j < ENTRIES ==>
          m.tables[t.mid[i]][j] == Pack(t.leaf[(i, j)], PTE_V))
  }

  predicate LeafEntry(pte: nat) { pte == 0 || (IsV(pte) && IsLeaf(pte)) }

  ghost predicate LeafWf(m: Mem, t: Tree)
  {
    forall p, j :: p in t.leaf && t.leaf[p] in m.tables && 0 <= j < ENTRIES ==>
      LeafEntry(m.tables[t.leaf[p]][j])
  }

  ghost predicate Wf(m: Mem, t: Tree)
  {
    Distinct(t) && RootWf(m, t) && MidWf(m, t) && LeafWf(m, t)
  }

  function Path(vpn: nat): (nat, nat) { (Index(2, vpn), Index(1, vpn)) }

  /** The flat map: the entry for page `vpn`, or 0 where there is no last-level table. */
  ghost function PteAt(m: Mem, t: Tree, vpn: nat): nat
    requires Wf(m, t)
  {
    if Path(vpn) in t.leaf then m.tables[t.leaf[Path(vpn)]][Index(0, vpn)] else 0
  }

  /** Same flat map. */
  ghost predicate SameMap(m0: Mem, t0: Tree, m: Mem, t: Tree)
  {
    Wf(m0, t0) && Wf(m, t) && forall vpn: nat :: vpn < MAXVPN ==> PteAt(m, t, vpn) == PteAt(m0, t0, vpn)
  }

  /** Pages below MAXVA have different positions in the tree. */
  lemma PathUnique(v: nat, w: nat)
    requires v < MAXVPN && w < MAXVPN && Path(v) == Path(w) && Index(0, v) == Index(0, w)
    ensures v == w
  {
    Compose(v);
    Compose(w);
  }

  lemma Compose(v: nat)
    requires v < MAXVPN
    ensures v == (Index(2, v) * ENTRIES + Index(1, v)) * ENTRIES + Index(0, v)
  {
    var q := v / ENTRIES;
    assert v == q * ENTRIES + Index(0, v);
    assert v / (ENTRIES * ENTRIES) == q / ENTRIES < ENTRIES;
    assert q == q / ENTRIES * ENTRIES + q % ENTRIES;
  }

  /** The step works on tree `t0` alone: the tree keeps its root and its tables, frames are conserved, and
      tables outside the tree do not change. */
  ghost predicate Within(m0: Mem, t0: Tree, m: Mem, t: Tree)
  {
    && Sound(m0) && Sound(m) && Wf(m0, t0) && Wf(m, t) && Frames(m) == Frames(m0)
    && t.root == t0.root && TreeFrames(t0) <= TreeFrames(t) && t0.leaf.Keys <= t.leaf.Keys
    && m.tables.Keys == m0.tables.Keys + (TreeFrames(t) - TreeFrames(t0))
    && (TreeFrames(t) - TreeFrames(t0)) !! m0.tables.Keys
    && (forall f :: f in m0.tables && f !in TreeFrames(t0) ==> m.tables[f] == m0.tables[f])
  }

  lemma WithinRefl(m: Mem, t: Tree)
    requires Sound(m) && Wf(m, t)
    ensures Within(m, t, m, t)
  {
  }

  lemma TreeInTables(m: Mem, t: Tree)
    requires Wf(m, t)
    ensures TreeFrames(t) <= m.tables.Keys
  {
  }

  lemma WithinTrans(m0: Mem, t0: Tree, m1: Mem, t1: Tree, m2: Mem, t2: Tree)
    requires Within(m0, t0, m1, t1) && Within(m1, t1, m2, t2)
    ensures Within(m0, t0, m2, t2)
  {
    hide Wf, Sound, Frames, TreeFrames;
    TreeInTables(m0, t0);
    TreeInTables(m1, t1);
    forall f | f in m0.tables && f !in TreeFrames(t0) ensures f in m2.tables && m2.tables[f] == m0.tables[f] {
      assert f in m1.tables && f !in TreeFrames(t1);
    }
  }

  /** A tree none of whose tables changed is the same tree. */
  lemma TreeFrame(m0: Mem, m: Mem, t: Tree)
    requires Wf(m0, t)
    requires forall f :: f in TreeFrames(t) && f in m0.tables ==> f in m.tables && m.tables[f] == m0.tables[f]
    ensures Wf(m, t) && SameMap(m0, t, m, t)
  {
    hide IsV, IsLeaf, Pack;
    TreeInTables(m0, t);
    forall i | i in t.mid ensures t.mid[i] in TreeFrames(t) { }
    forall k | k in t.leaf ensures t.leaf[k] in TreeFrames(t) { }
  }

  // ---------------------------------------------------------------- growing the tree

  /** The table that the walk for page `vpn` visits at `level`. */
  ghost predicate HasNode(t: Tree, level: nat, vpn: nat)
  {
    if level == 0 then Path(vpn) in t.leaf
    else if level == 1 then Index(2, vpn) in t.mid
    else true
  }

  ghost function Node(t: Tree, level: nat, vpn: nat): nat
    requires HasNode(t, level, vpn)
  {
    if level == 0 then t.leaf[Path(vpn)]
    else if level == 1 then t.mid[Index(2, vpn)]
    else t.root
  }

  /** The entry visited at `level` is valid exactly when the next table exists, and then points to it. */
  lemma Descends(m: Mem, t: Tree, level: nat, vpn: nat)
    requires Wf(m, t) && 1 <= level <= 2 && HasNode(t, level, vpn)
    ensures Node(t, level, vpn) in m.tables
    ensures var e := m.tables[Node(t, level, vpn)][Index(level, vpn)];
            && (IsV(e) <==> HasNode(t, level - 1, vpn))
            && (IsV(e) ==> Ppn(e) == Node(t, level - 1, vpn))
  {
    hide IsV, IsLeaf, Pack, Ppn, Index;
    if HasNode(t, level - 1, vpn) { PackedTable(Node(t, level - 1, vpn)); }
  }

  ghost function WithNode(t: Tree, level: nat, vpn: nat, f: nat): Tree
  {
    if level == 0 then t.(leaf := t.leaf[Path(vpn) := f])
    else t.(mid := t.mid[Index(2, vpn) := f])
  }

  /** Frame `f` becomes an empty table, entered in table `at` at index `i`. */
  function LinkTable(m: Mem, f: nat, at: nat, i: nat): Mem
    requires at in m.tables && i < ENTRIES
  {
    m.(data := m.data - {f}, tables := m.tables[f := EmptyTable()][at := m.tables[at][i := Pack(f, PTE_V)]])
  }

  lemma LinkSound(m: Mem, f: nat, at: nat, i: nat)
    requires Sound(m) && f in m.data && at in m.tables && i < ENTRIES
    ensures var m' := LinkTable(m, f, at, i);
            Sound(m') && Frames(m') == Frames(m) && f !in m.tables && m'.tables.Keys == m.tables.Keys + {f}
  {
    hide Pack;
  }

  lemma AddedValue<K>(m: map<K, nat>, k: K, f: nat)
    requires k !in m
    ensures m[k := f].Values == m.Values + {f}
  {
    assert m[k := f][k] == f;
    forall v | v in m.Values ensures v in m[k := f].Values {
      var j :| j in m && m[j] == v;
      assert m[k := f][j] == v;
    }
  }

  lemma WithNodeFrames(t: Tree, level: nat, vpn: nat, f: nat)
    requires Distinct(t) && level <= 1 && !HasNode(t, level, vpn) && f !in TreeFrames(t)
    ensures var t' := WithNode(t, level, vpn, f); Distinct(t') && TreeFrames(t') == TreeFrames(t) + {f}
  {
    hide Index;
    if level == 0 {
      AddedValue(t.leaf, Path(vpn), f);
    } else {
      AddedValue(t.mid, Index(2, vpn), f);
    }
  }

  lemma ZeroInvalid()
    ensures !IsV(0) && LeafEntry(0)
  {
  }

  lemma TopIndex(vpn: nat)
    requires vpn < MAXVPN
    ensures Index(2, vpn) < ENTRIES / 2
  {
  }

  lemma GrowMidRoot(m: Mem, t: Tree, vpn: nat, f: nat)
    requires Sound(m) && Wf(m, t) && !HasNode(t, 1, vpn) && f in m.data && vpn < MAXVPN
    ensures RootWf(LinkTable(m, f, t.root, Index(2, vpn)), WithNode(t, 1, vpn, f))
  {
    hide IsV, IsLeaf, Pack, Ppn, Index, EmptyTable, MidWf, LeafWf;
    PackedTable(f);
    TopIndex(vpn);
  }

  lemma GrowMidBelow(m: Mem, t: Tree, vpn: nat, f: nat)
    requires Sound(m) && Wf(m, t) && !HasNode(t, 1, vpn) && f in m.data
    ensures var m', t' := LinkTable(m, f, t.root, Index(2, vpn)), WithNode(t, 1, vpn, f);
            MidWf(m', t') && LeafWf(m', t')
  {
    hide IsV, LeafEntry, Pack, Ppn, Index, EmptyTable;
    ZeroInvalid();
  }

  lemma GrowLeaf(m: Mem, t: Tree, vpn: nat, f: nat)
    requires Sound(m) && Wf(m, t) && HasNode(t, 1, vpn) && !HasNode(t, 0, vpn) && f in m.data
    ensures var m', t' := LinkTable(m, f, Node(t, 1, vpn), Index(1, vpn)), WithNode(t, 0, vpn, f);
            RootWf(m', t') && MidWf(m', t') && LeafWf(m', t')
  {
    hide IsV, IsLeaf, Pack, Ppn, Index, EmptyTable, LeafWf;
    PackedTable(f);
    ZeroInvalid();
    var m', t' := LinkTable(m, f, Node(t, 1, vpn), Index(1, vpn)), WithNode(t, 0, vpn, f);
    assert RootWf(m', t');
    assert MidWf(m', t');
    GrowLeafLeaf(m, t, vpn, f);
  }

  lemma GrowLeafLeaf(m: Mem, t: Tree, vpn: nat, f: nat)
    requires Sound(m) && Wf(m, t) && HasNode(t, 1, vpn) && !HasNode(t, 0, vpn) && f in m.data
    ensures LeafWf(LinkTable(m, f, Node(t, 1, vpn), Index(1, vpn)), WithNode(t, 0, vpn, f))
  {
    hide LeafEntry, Pack, Ppn, Index, EmptyTable, MidWf;
    ZeroInvalid();
    var m', t' := LinkTable(m, f, Node(t, 1, vpn), Index(1, vpn)), WithNode(t, 0, vpn, f);
    forall p, j | p in t'.leaf && t'.leaf[p] in m'.tables && 0 <= j < ENTRIES
      ensures LeafEntry(m'.tables[t'.leaf[p]][j])
    {
      if p != Path(vpn) {
        assert t.leaf[p] in t.leaf.Values && Node(t, 1, vpn) in t.mid.Values;
        assert t.leaf[p] in m.tables by { assert MidWf(m, t); var (a, b) := p; LeafInTables(m, t, a, b); }
      }
    }
  }

  lemma LeafInTables(m: Mem, t: Tree, i: nat, j: nat)
    requires Wf(m, t) && (i, j) in t.leaf
    ensures t.leaf[(i, j)] in m.tables
  {
  }

  /** Hanging an empty table into the tree changes no mapping. */
  lemma Grow(m: Mem, t: Tree, level: nat, vpn: nat, f: nat)
    requires Sound(m) && Wf(m, t) && 1 <= level <= 2 && HasNode(t, level, vpn) && !HasNode(t, level - 1, vpn)
    requires f in m.data && Node(t, level, vpn) in m.tables && vpn < MAXVPN
    ensures var m', t' := LinkTable(m, f, Node(t, level, vpn), Index(level, vpn)), WithNode(t, level - 1, vpn, f);
            Within(m, t, m', t') && SameMap(m, t, m', t')
  {
    hide IsV, IsLeaf, Pack, Ppn, Index, EmptyTable, Sound, Frames;
    var m', t' := LinkTable(m, f, Node(t, level, vpn), Index(level, vpn)), WithNode(t, level - 1, vpn, f);
    if level == 2 { GrowMidRoot(m, t, vpn, f); GrowMidBelow(m, t, vpn, f); } else { GrowLeaf(m, t, vpn, f); }
    LinkSound(m, f, Node(t, level, vpn), Index(level, vpn));
    TreeInTables(m, t);
    WithNodeFrames(t, level - 1, vpn, f);
    assert Wf(m', t');
    GrowSame(m, t, level, vpn, f);
    assert Node(t, level, vpn) in TreeFrames(t);
  }

  lemma GrowSame(m: Mem, t: Tree, level: nat, vpn: nat, f: nat)
    requires Wf(m, t) && 1 <= level <= 2 && HasNode(t, level, vpn) && !HasNode(t, level - 1, vpn)
    requires f !in m.tables && Node(t, level, vpn) in m.tables
    requires Wf(LinkTable(m, f, Node(t, level, vpn), Index(level, vpn)), WithNode(t, level - 1, vpn, f))
    ensures SameMap(m, t, LinkTable(m, f, Node(t, level, vpn), Index(level, vpn)), WithNode(t, level - 1, vpn, f))
  {
    hide IsV, IsLeaf, Pack, Ppn, Index, EmptyTable, RootWf, LeafWf;
    var m', t' := LinkTable(m, f, Node(t, level, vpn), Index(level, vpn)), WithNode(t, level - 1, vpn, f);
    forall v: nat | v < MAXVPN ensures PteAt(m', t', v) == PteAt(m, t, v) {
      if Path(v) in t.leaf {
        assert t.leaf[Path(v)] in t.leaf.Values;
        LeafInTables(m, t, Index(2, v), Index(1, v));
        assert Node(t, level, vpn) != t.leaf[Path(v)];
      }
    }
  }

  // ---------------------------------------------------------------- writing an entry

  function PutPte(m: Mem, f: nat, i: nat, e: nat): Mem
    requires f in m.tables && i < ENTRIES
  {
    m.(tables := m.tables[f := m.tables[f][i := e]])
  }

  lemma PutWf(m: Mem, t: Tree, p: (nat, nat), i: nat, e: nat)
    requires Wf(m, t) && p in t.leaf && t.leaf[p] in m.tables && i < ENTRIES && LeafEntry(e)
    ensures Wf(PutPte(m, t.leaf[p], i, e), t)
  {
    hide LeafEntry, IsV, Pack;
    assert t.leaf[p] in t.leaf.Values;
  }

  /** Writing a last-level entry changes the flat map at that one page. */
  lemma PutAt(m: Mem, t: Tree, vpn: nat, e: nat)
    requires Sound(m) && Wf(m, t) && Path(vpn) in t.leaf && vpn < MAXVPN && LeafEntry(e)
    requires t.leaf[Path(vpn)] in m.tables
    ensures var m' := PutPte(m, t.leaf[Path(vpn)], Index(0, vpn), e);
            && Within(m, t, m', t) && m'.data == m.data && m'.free == m.free
            && forall v: nat :: v < MAXVPN ==> PteAt(m', t, v) == if v == vpn then e else PteAt(m, t, v)
  {
    hide LeafEntry, IsV, Pack, Index, RootWf, MidWf, LeafWf;
    PutWf(m, t, Path(vpn), Index(0, vpn), e);
    var m' := PutPte(m, t.leaf[Path(vpn)], Index(0, vpn), e);
    assert t.leaf[Path(vpn)] in t.leaf.Values;
    forall v: nat | v < MAXVPN ensures PteAt(m', t, v) == if v == vpn then e else PteAt(m, t, v) {
      if Path(v) in t.leaf {
        LeafTable(m, t, v);
        if v != vpn && Path(v) == Path(vpn) && Index(0, v) == Index(0, vpn) { PathUnique(v, vpn); }
      }
    }
  }

  // ---------------------------------------------------------------- frames

  /** kalloc takes the head of the free list and fills the page with fives. */
  function Alloc(m: Mem): Mem
    requires m.free != []
  {
    m.(free := m.free[1..], data := m.data[m.free[0] := Filled(5)])
  }

  /** kfree puts the frame at the head of the free list. */
  function Release(m: Mem, f: nat): Mem
  {
    Mem([f] + m.free, m.tables - {f}, m.data - {f})
  }

  lemma AllocSound(m: Mem)
    requires Sound(m) && m.free != []
    ensures Sound(Alloc(m)) && Frames(Alloc(m)) == Frames(m)
    ensures m.free[0] !in m.data && m.free[0] !in m.tables && m.free[0] != 0
  {
    assert FreeSet(Alloc(m)) == FreeSet(m) - {m.free[0]};
  }

  lemma ReleaseSound(m: Mem, f: nat)
    requires Sound(m) && (f in m.data || f in m.tables)
    ensures Sound(Release(m, f)) && Frames(Release(m, f)) == Frames(m)
  {
    assert FreeSet(Release(m, f)) == FreeSet(m) + {f};
  }

  /** A frame in use can be given back. */
  lemma Freeable(m: Mem, f: nat)
    requires Sound(m) && (f in m.data || f in m.tables)
    ensures f * PGSIZE % PGSIZE == 0 && f * PGSIZE / PGSIZE == f && f in Frames(m) && f !in FreeSet(m)
  {
  }

  lemma {:induction false} FreeSize(free: seq<nat>)
    requires forall i, j :: 0 <= i < j < |free| ==> free[i] != free[j]
    ensures |Elems(free)| == |free|
  {
    if free != [] {
      FreeSize(free[1..]);
      assert Elems(free) == {free[0]} + Elems(free[1..]);
      assert free[0] !in Elems(free[1..]);
    }
  }

  /** Allocating or releasing a frame that is not a table leaves every tree alone. */
  lemma TablesFrame(m0: Mem, m: Mem, t: Tree)
    requires Sound(m0) && Sound(m) && Wf(m0, t) && m.tables == m0.tables && Frames(m) == Frames(m0)
    ensures Within(m0, t, m, t) && SameMap(m0, t, m, t)
  {
    hide Sound, Frames, IsV, IsLeaf, Pack, Index;
    TreeFrame(m0, m, t);
  }

  // ---------------------------------------------------------------- walk

  datatype Slot = At(frame: nat, index: nat) | Absent | WalkPanic

  /** So far the walk has only hung empty tables into the tree. */
  ghost predicate Walking(m0: Mem, t0: Tree, m: Mem, t: Tree)
  {
    Within(m0, t0, m, t) && SameMap(m0, t0, m, t) && m.data == m0.data
  }

  ghost predicate Walked(m0: Mem, t0: Tree, m: Mem, t: Tree, va: nat, alloc: bool, w: Slot)
  {
    && Walking(m0, t0, m, t)
    && (w.WalkPanic? <==> va >= MAXVA)
    && (w.At? <==> va < MAXVA && Path(va / PGSIZE) in t.leaf)
    && (w.At? ==> w == At(t.leaf[Path(va / PGSIZE)], Index(0, va / PGSIZE)) && w.frame in m.tables)
    && (!alloc ==> m == m0 && t == t0)
    && (w.Absent? && alloc ==> m.free == [])
  }

  lemma WalkGrow(m0: Mem, t0: Tree, m: Mem, t: Tree, level: nat, vpn: nat)
    requires Walking(m0, t0, m, t) && 1 <= level <= 2 && HasNode(t, level, vpn) && !HasNode(t, level - 1, vpn)
    requires Node(t, level, vpn) in m.tables && m.free != [] && vpn < MAXVPN
    ensures Walking(m0, t0, LinkTable(Alloc(m), m.free[0], Node(t, level, vpn), Index(level, vpn)),
                    WithNode(t, level - 1, vpn, m.free[0]))
  {
    hide Sound, Frames, Wf, Index, Pack, EmptyTable, Filled, TreeFrames, HasNode, Node, WithNode;
    AllocSound(m);
    TablesFrame(m, Alloc(m), t);
    Grow(Alloc(m), t, level, vpn, m.free[0]);
    WithinTrans(m0, t0, m, t, Alloc(m), t);
    WithinTrans(m0, t0, Alloc(m), t, LinkTable(Alloc(m), m.free[0], Node(t, level, vpn), Index(level, vpn)),
                WithNode(t, level - 1, vpn, m.free[0]));
  }

  /** Only tables on the way to page `vpn` are new. */
  ghost predicate Reaches(t0: Tree, t: Tree, vpn: nat)
  {
    && t0.mid.Keys <= t.mid.Keys <= t0.mid.Keys + {Index(2, vpn)}
    && t0.leaf.Keys <= t.leaf.Keys <= t0.leaf.Keys + {Path(vpn)}
  }

  lemma ReachesItself(t: Tree, vpn: nat)
    ensures Reaches(t, t, vpn)
  {
  }

  lemma ReachesMore(t0: Tree, t: Tree, level: nat, vpn: nat, f: nat)
    requires Reaches(t0, t, vpn)
    ensures Reaches(t0, WithNode(t, level, vpn, f), vpn)
  {
    hide Index;
  }

  lemma {:induction false} ValuesSize<K>(m: map<K, nat>)
    requires forall i, j :: i in m && j in m && i != j ==> m[i] != m[j]
    ensures |m.Values| == |m|
  {
    if m.Keys == {} {
      assert m == map[];
      assert m.Values == {};
    } else {
      var k :| k in m.Keys;
      var rest := m - {k};
      ValuesSize(rest);
      assert m == rest[k := m[k]];
      AddedValue(rest, k, m[k]);
      assert m[k] !in rest.Values;
      assert |m| == |m.Keys| && |rest| == |rest.Keys| && m.Keys == rest.Keys + {k};
    }
  }

  /** A tree has as many tables as it has places for them. */
  lemma TreeSize(t: Tree)
    requires Distinct(t)
    ensures |TreeFrames(t)| == 1 + |t.mid.Keys| + |t.leaf.Keys|
  {
    ValuesSize(t.mid);
    ValuesSize(t.leaf);
    assert {t.root} !! t.mid.Values !! t.leaf.Values;
    ThreeParts({t.root}, t.mid.Values, t.leaf.Values);
    assert |t.mid| == |t.mid.Keys| && |t.leaf| == |t.leaf.Keys|;
  }

  lemma ThreeParts(a: set<nat>, b: set<nat>, c: set<nat>)
    requires a !! b !! c
    ensures |a + b + c| == |a| + |b| + |c|
  {
  }

  /** Every frame has one use. */
  lemma FramesSize(m: Mem)
    requires Sound(m)
    ensures |Frames(m)| == |m.free| + |m.tables.Keys| + |m.data.Keys|
  {
    FreeSize(m.free);
  }

  /** Frames that leave the free list become tables of the tree or data. */
  lemma FramesConserved(m0: Mem, t0: Tree, m: Mem, t: Tree)
    requires Within(m0, t0, m, t)
    ensures |m.free| + |m.data.Keys| + |t.mid.Keys| + |t.leaf.Keys|
         == |m0.free| + |m0.data.Keys| + |t0.mid.Keys| + |t0.leaf.Keys|
  {
    hide Sound, Wf, Frames, TreeFrames, Distinct;
    FramesSize(m0);
    FramesSize(m);
    WfSize(m0, t0);
    WfSize(m, t);
    SetGrowth(m0.tables.Keys, m.tables.Keys, TreeFrames(t0), TreeFrames(t));
  }

  lemma WfSize(m: Mem, t: Tree)
    requires Wf(m, t)
    ensures |TreeFrames(t)| == 1 + |t.mid.Keys| + |t.leaf.Keys|
  {
    hide RootWf, MidWf, LeafWf, TreeFrames, Distinct;
    TreeSize(t);
  }

  lemma SetGrowth(k0: set<nat>, k: set<nat>, t0: set<nat>, t: set<nat>)
    requires t0 <= t && k == k0 + (t - t0) && (t - t0) !! k0
    ensures |k| - |k0| == |t| - |t0|
  {
    assert t == t0 + (t - t0);
  }

  lemma WalkNothing(m: Mem, t: Tree)
    requires Sound(m) && Wf(m, t)
    ensures Walking(m, t, m, t)
  {
    hide Sound, Wf, Frames;
    WithinRefl(m, t);
  }

  lemma WalkingWf(m0: Mem, t0: Tree, m: Mem, t: Tree)
    requires Walking(m0, t0, m, t)
    ensures Sound(m) && Wf(m, t)
  {
  }

  /** A missing table on the way means a missing last-level table. */
  lemma NoLeaf(m: Mem, t: Tree, level: nat, vpn: nat)
    requires Wf(m, t) && level <= 1 && !HasNode(t, level, vpn)
    ensures Path(vpn) !in t.leaf
  {
    hide IsV, Index, Pack, IsLeaf;
  }

  lemma LeafTable(m: Mem, t: Tree, vpn: nat)
    requires Wf(m, t) && Path(vpn) in t.leaf
    ensures t.leaf[Path(vpn)] in m.tables && t.leaf[Path(vpn)] in TreeFrames(t)
  {
    hide Index;
    LeafInTables(m, t, Index(2, vpn), Index(1, vpn));
  }

  class Memory {
    var m: Mem

    /** kinit: hand the pages from `first` up to `last` to the allocator, one by one. */
    constructor (first: nat, last: nat)
      requires 0 < first <= last
      ensures Sound(m) && m.tables == map[] && m.data == map[]
      ensures (forall f :: f in Frames(m) <==> first <= f < last) && |Frames(m)| == last - first
      ensures |m.free| == last - first && forall i :: 0 <= i < |m.free| ==> m.free[i] == last - 1 - i
    {
      var free := [];
      var p := first;
      while p < last
        invariant first <= p <= last && |free| == p - first
        invariant forall i :: 0 <= i < |free| ==> free[i] == p - 1 - i
      {
        free := [p] + free;
        p := p + 1;
      }
      m := Mem(free, map[], map[]);
      new;
      forall f | first <= f < last ensures f in FreeSet(m) { assert free[last - 1 - f] == f; }
      FreeSize(free);
      assert Frames(m) == Elems(free);
    }

    method KAlloc() returns (f: nat)
      modifies this
      ensures old(m).free == [] ==> f == 0 && m == old(m)
      ensures old(m).free != [] ==> f == old(m).free[0] && m == Alloc(old(m))
    {
      if m.free == [] {
        return 0;
      }
      f := m.free[0];
      m := m.(free := m.free[1..]);
      m := m.(data := m.data[f := Filled(5)]);
    }

    /** kfree panics exactly on an address that is not that of a page handed over by kinit. */
    method KFree(pa: nat) returns (ok: bool)
      requires pa % PGSIZE == 0 ==> pa / PGSIZE !in FreeSet(m)
      modifies this
      ensures ok <==> pa % PGSIZE == 0 && pa / PGSIZE in Frames(old(m))
      ensures m == if ok then Release(old(m), pa / PGSIZE) else old(m)
    {
      var f := pa / PGSIZE;
      if pa % PGSIZE != 0 || !(f in m.free || f in m.tables || f in m.data) {
        return false;
      }
      m := m.(tables := m.tables - {f}, data := m.data - {f});
      m := m.(free := [f] + m.free);
      ok := true;
    }

    method Walk(ghost t0: Tree, root: nat, va: nat, alloc: bool) returns (w: Slot, ghost t: Tree)
      requires Sound(m) && Wf(m, t0) && root == t0.root
      modifies this
      ensures Walked(old(m), t0, m, t, va, alloc, w) && Reaches(t0, t, va / PGSIZE)
    {
      hide Sound, Frames, Wf, Index, Pack, EmptyTable, TreeFrames, Walking, Within, SameMap, IsV, Ppn, IsLeaf, Path,
           Reaches;
      t := t0;
      assert Reaches(t0, t0, va / PGSIZE) by { ReachesItself(t0, va / PGSIZE); }
      assert Walking(old(m), t0, m, t) by { WalkNothing(m, t); }
      if va >= MAXVA {
        return WalkPanic, t;
      }
      var level, cur, vpn := 2, root, va / PGSIZE;
      while level > 0
        invariant 0 <= level <= 2 && Walking(old(m), t0, m, t) && Reaches(t0, t, vpn)
        invariant HasNode(t, level, vpn) && cur == Node(t, level, vpn)
        invariant !alloc ==> m == old(m) && t == t0
      {
        WalkingWf(old(m), t0, m, t);
        Descends(m, t, level, vpn);
        var i := Index(level, vpn);
        var e := m.tables[cur][i];
        if IsV(e) {
          cur := Ppn(e);
        } else {
          NoLeaf(m, t, level - 1, vpn);
          if !alloc {
            return Absent, t;
          }
          assert m.free != [] ==> m.free[0] != 0 by { if m.free != [] { AllocSound(m); } }
          ghost var m1 := m;
          var f := KAlloc();
          if f == 0 {
            return Absent, t;
          }
          WalkGrow(old(m), t0, m1, t, level, vpn);
          ReachesMore(t0, t, level - 1, vpn, f);
          m := LinkTable(m, f, cur, i);
          t := WithNode(t, level - 1, vpn, f);
          cur := f;
        }
        level := level - 1;
      }
      w := At(cur, Index(0, vpn));
      WalkingWf(old(m), t0, m, t);
      LeafTable(m, t, vpn);
    }
  }
}
