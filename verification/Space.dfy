/** What a write costs and logs (kernel/fs.c): which slots it has to fill, how many free blocks that takes, how far it
    gets with them, and which blocks it passes to the log. */
module Space {
  import opened Bytes
  import opened Volume

  // ---------------------------------------------------------------- free blocks

  ghost predicate AllUsed(v: Vol)
    requires Shape(v)
  {
    forall c :: 0 <= c < v.sb.size ==> Used(v, c)
  }

  ghost function FreeBlocks(v: Vol): set<nat>
    requires Shape(v)
  {
    set b | 0 <= b < v.sb.size && b >= v.sb.DataStart() && !Used(v, b)
  }

  ghost function BlocksFrom(a: nat, n: nat): (r: set<nat>)
    ensures |r| == n && forall b :: b in r <==> a <= b < a + n
  {
    if n == 0 then {} else BlocksFrom(a, n - 1) + {a + n - 1}
  }

  /** Conservation: every data block is free or owned, never both, so their number is constant. */
  lemma BlocksConserved(v: Vol, ow: Owners)
    requires Owned(v, ow)
    ensures FreeBlocks(v) !! ow.Keys && |FreeBlocks(v)| + |ow| == v.sb.nblocks
  {
    hide Used, Ptr, BlocksFrom;
    var all := BlocksFrom(v.sb.DataStart(), v.sb.nblocks);
    assert FreeBlocks(v) + ow.Keys == all;
  }

  lemma NoneFree(v: Vol, ow: Owners)
    requires Owned(v, ow) && AllUsed(v)
    ensures |ow| == v.sb.nblocks
  {
    hide Used, Ptr;
    assert FreeBlocks(v) == {};
    BlocksConserved(v, ow);
  }

  // ---------------------------------------------------------------- what filling a slot logs

  /** Every block that changed has been logged. */
  ghost predicate AllLogged(v: Vol, w: Vol, lg: set<nat>)
  {
    |w.blocks| == |v.blocks| && forall b: nat :: b < |v.blocks| && w.blocks[b] != v.blocks[b] ==> b in lg
  }

  lemma AllLoggedTrans(v: Vol, u: Vol, w: Vol, lg: set<nat>, lg': set<nat>)
    requires AllLogged(v, u, lg) && AllLogged(u, w, lg') && lg <= lg'
    ensures AllLogged(v, w, lg')
  {
  }

  /** Slot `k` was filled, if it was empty and a block was free: what changed is logged, and what is logged is a bitmap
      block, the new block, or the indirect block. */
  ghost predicate SlotLogged(v: Vol, ow: Owners, lg: set<nat>, w: Vol, ow': Owners, lg': set<nat>, i: nat, k: nat,
                             addr: nat)
  {
    && Shape(v) && Shape(w) && w.sb == v.sb && i in v.inodes && i in w.inodes && k <= MAXFILE
    && lg <= lg' && AllLogged(v, w, lg')
    && (forall b :: b in lg' && b !in lg ==>
          b < v.sb.DataStart() || (b != 0 && (b == addr || (NDIRECT <= k && b == Ptr(w, i, INDIRECT)))))
    && if Ptr(v, i, k) == 0 && addr != 0 then addr in lg' && addr !in ow && ow' == ow[addr := Slot(i, k)] else ow' == ow
  }

  lemma SlotKeptLogged(v: Vol, ow: Owners, lg: set<nat>, i: nat, k: nat)
    requires Shape(v) && i in v.inodes && k <= MAXFILE
    ensures SlotLogged(v, ow, lg, v, ow, lg, i, k, Ptr(v, i, k))
  {
    hide Ptr;
  }

  lemma SlotAttachedLogged(v: Vol, ow: Owners, lg: set<nat>, i: nat, k: nat, b: nat)
    requires Owned(v, ow) && i in v.inodes && k <= MAXFILE && Ptr(v, i, k) == 0
    requires 0 < b < v.sb.size && !Used(v, b) && (NDIRECT <= k < MAXFILE ==> Ptr(v, i, INDIRECT) != 0)
    ensures Shape(Alloc(v, b)) && Alloc(v, b).sb == v.sb && i in Alloc(v, b).inodes
    ensures var ind := if NDIRECT <= k < MAXFILE then {Ptr(v, i, INDIRECT)} else {};
            SlotLogged(v, ow, lg, SetPtr(Alloc(v, b), i, k, b), ow[b := Slot(i, k)],
                       lg + {v.sb.BBlock(b), b} + ind, i, k, b)
  {
    hide Used, Ptr, Alloc, SetPtr, Super.BBlock, Owned, Shape, AllLogged;
    OwnedShape(v, ow);
    AllocFrame(v, ow, b);
    AllocSuper(v, b);
    Attach(v, ow, i, k, b);
    OwnedShape(SetPtr(Alloc(v, b), i, k, b), ow[b := Slot(i, k)]);
    BBlockRange(v.sb, b);
    SetPtrInodes(Alloc(v, b), i, k, b);
    AttachChanges(v, i, k, b);
    var w, ind := SetPtr(Alloc(v, b), i, k, b), if NDIRECT <= k < MAXFILE then {Ptr(v, i, INDIRECT)} else {};
    assert Ptr(w, i, INDIRECT) == if k == INDIRECT then b else Ptr(v, i, INDIRECT);
    MoreLogged(v, w, {v.sb.BBlock(b), b} + ind, lg + {v.sb.BBlock(b), b} + ind);
  }

  lemma MoreLogged(v: Vol, w: Vol, lg: set<nat>, lg': set<nat>)
    requires AllLogged(v, w, lg) && lg <= lg'
    ensures AllLogged(v, w, lg')
  {
  }

  lemma AllocSuper(v: Vol, b: nat)
    requires Shape(v) && b < v.sb.size
    ensures Alloc(v, b).sb == v.sb && Alloc(v, b).inodes == v.inodes && v.sb.Valid()
  {
  }

  lemma AttachChanges(v: Vol, i: nat, k: nat, b: nat)
    requires Shape(v) && i in v.inodes && k <= MAXFILE && b < v.sb.size && Shape(Alloc(v, b))
    requires Alloc(v, b).sb == v.sb && i in Alloc(v, b).inodes
    ensures var ind := if NDIRECT <= k < MAXFILE then {Ptr(v, i, INDIRECT)} else {};
            AllLogged(v, SetPtr(Alloc(v, b), i, k, b), {v.sb.BBlock(b), b} + ind)
  {
    BBlockRange(v.sb, b);
    hide WithBlockBit, PutWord, ZeroBlock;
  }

  predicate IsBitmap(sb: Super, b: nat) { sb.bmapstart <= b < sb.DataStart() }

  /** Only bitmap blocks have changed, all of them logged, and only bitmap blocks have been logged. */
  ghost predicate BitmapLogged(v0: Vol, lg0: set<nat>, v: Vol, lg: set<nat>)
  {
    && v.sb == v0.sb && |v.blocks| == |v0.blocks| && lg0 <= lg
    && (forall b: nat :: b < |v0.blocks| && v.blocks[b] != v0.blocks[b] ==> b in lg && IsBitmap(v0.sb, b))
    && (forall b :: b in lg && b !in lg0 ==> IsBitmap(v0.sb, b))
  }

  lemma BitmapLoggedFree(v0: Vol, lg0: set<nat>, v: Vol, lg: set<nat>, b: nat)
    requires BitmapLogged(v0, lg0, v, lg) && Shape(v) && b < v.sb.size
    ensures BitmapLogged(v0, lg0, SetUsed(v, b, false), lg + {v.sb.BBlock(b)})
  {
    hide WithBlockBit;
    BBlockRange(v.sb, b);
  }

  lemma BitmapLoggedSame(v0: Vol, lg0: set<nat>, v: Vol, lg: set<nat>, w: Vol)
    requires BitmapLogged(v0, lg0, v, lg) && w.blocks == v.blocks && w.sb == v.sb
    ensures BitmapLogged(v0, lg0, w, lg)
  {
  }

  /** The same for bmap, which may fill the indirect slot first. */
  ghost predicate BlockLogged(v: Vol, ow: Owners, lg: set<nat>, w: Vol, ow': Owners, lg': set<nat>, i: nat, bn: nat,
                              addr: nat)
  {
    && Shape(v) && Shape(w) && w.sb == v.sb && i in v.inodes && i in w.inodes && bn < MAXFILE && addr == Ptr(w, i, bn)
    && lg <= lg' && AllLogged(v, w, lg')
    && (forall b :: b in lg' && b !in lg ==>
          b < v.sb.DataStart() || (b != 0 && (b == addr || (NDIRECT <= bn && b == Ptr(w, i, INDIRECT)))))
    && (Ptr(v, i, bn) == 0 && addr != 0 ==> addr in lg')
    && (forall b :: b in ow ==> b in ow' && ow'[b] == ow[b])
    && |ow'| == |ow| + (if Ptr(v, i, bn) == 0 && addr != 0 then 1 else 0)
                + (if Ptr(v, i, INDIRECT) == 0 && Ptr(w, i, INDIRECT) != 0 then 1 else 0)
    && (bn < NDIRECT ==> Ptr(w, i, INDIRECT) == Ptr(v, i, INDIRECT))
    && (NDIRECT <= bn && addr != 0 ==> Ptr(w, i, INDIRECT) != 0)
    && (Ptr(v, i, bn) != 0 ==> w == v && lg' == lg)
    && (forall l :: 0 <= l < MAXFILE && l != bn ==> Ptr(w, i, l) == Ptr(v, i, l))
    && (Ptr(v, i, INDIRECT) != 0 ==> Ptr(w, i, INDIRECT) == Ptr(v, i, INDIRECT))
    && (addr == 0 ==> AllUsed(w))
  }

  // ---------------------------------------------------------------- how far a write gets

  /** File blocks that a write of `n` bytes at `off` touches. */
  function Touched(off: nat, n: nat): nat
  {
    if n == 0 then 0 else (off + n - 1) / BSIZE - off / BSIZE + 1
  }

  /** Slot `k` is behind bytes [off, off + x): it is that of one of their blocks, or, from block NDIRECT on, that of the
      indirect block. */
  predicate Behind(off: nat, x: nat, k: nat)
  {
    x > 0 && (off / BSIZE <= k <= (off + x - 1) / BSIZE || (k == INDIRECT && NDIRECT <= (off + x - 1) / BSIZE))
  }

  ghost function Missing(v: Vol, i: nat, off: nat, x: nat): set<nat>
    requires Shape(v) && i in v.inodes
  {
    set k | 0 <= k <= MAXFILE && Behind(off, x, k) && Ptr(v, i, k) == 0
  }

  /** There are free blocks for all that is missing behind bytes [off, off + x) of inode `i`. */
  ghost predicate Room(v: Vol, i: nat, off: nat, x: nat)
    requires Shape(v) && i in v.inodes
  {
    |Missing(v, i, off, x)| <= |FreeBlocks(v)|
  }

  /** A write of `n` bytes can end after `x` bytes: at the start, at the end, or at a block boundary. */
  predicate Stop(off: nat, n: nat, x: nat) { x <= n && (x == 0 || x == n || (off + x) % BSIZE == 0) }

  function NextStop(off: nat, n: nat, x: nat): nat
  {
    var y := x + BSIZE - (off + x) % BSIZE;
    if y < n then y else n
  }

  /** A write of `n` bytes whose source is readable up to `readable` ends after `r` bytes: the last point it can stop at
      for which the source can be read and the blocks are there. */
  ghost predicate EndsAt(v: Vol, i: nat, off: nat, n: nat, readable: nat, r: nat)
    requires Shape(v) && i in v.inodes
  {
    && Stop(off, n, r) && r <= readable && Room(v, i, off, r)
    && forall x: nat :: r < x && Stop(off, n, x) ==> readable < x || !Room(v, i, off, x)
  }

  /** At most one point is the last. */
  lemma EndsOnce(v: Vol, i: nat, off: nat, n: nat, readable: nat, r: nat, r': nat)
    requires Shape(v) && i in v.inodes && EndsAt(v, i, off, n, readable, r) && EndsAt(v, i, off, n, readable, r')
    ensures r == r'
  {
    hide Room;
  }

  lemma BehindStep(off: nat, tot: nat, y: nat, k: nat)
    requires tot < y && (tot == 0 || (off + tot) % BSIZE == 0) && (off + tot) % BSIZE + (y - tot) <= BSIZE
    ensures var bn := (off + tot) / BSIZE;
            && (Behind(off, y, k) <==> Behind(off, tot, k) || k == bn || (k == INDIRECT && NDIRECT <= bn))
            && (bn < INDIRECT ==> !Behind(off, tot, bn))
  {
    var a, b := off + tot, off + y - 1;
    assert b / BSIZE == a / BSIZE by { SameBlock(a, b); }
    if tot > 0 { assert (a - 1) / BSIZE == a / BSIZE - 1; }
  }

  /** Writing on where the write stopped touches the rest. */
  lemma BehindJoin(off: nat, k: nat, y: nat, l: nat)
    ensures Behind(off, k + y, l) <==> Behind(off, k, l) || Behind(off + k, y, l)
  {
    if k > 0 && y > 0 {
      var a, b, c, d := off / BSIZE, (off + k - 1) / BSIZE, (off + k) / BSIZE, (off + k + y - 1) / BSIZE;
      assert a <= b <= c <= b + 1 && c <= d;
    }
  }

  lemma RoomMono(v: Vol, i: nat, off: nat, x: nat, y: nat)
    requires Shape(v) && i in v.inodes && x <= y && Room(v, i, off, y)
    ensures Room(v, i, off, x)
  {
    hide Ptr, Behind, FreeBlocks;
    forall k: nat | Behind(off, x, k) ensures Behind(off, y, k) { BehindJoin(off, x, y - x, k); }
    Subset(Missing(v, i, off, x), Missing(v, i, off, y));
  }

  lemma Subset(a: set<nat>, b: set<nat>)
    requires a <= b
    ensures |a| <= |b|
  {
    assert b == a + (b - a);
  }

  // ---------------------------------------------------------------- the state of a write

  /** Exactly the slots behind bytes [off, off + x) have been filled. */
  ghost predicate Filled(v0: Vol, ow0: Owners, w: Vol, ow: Owners, i: nat, off: nat, x: nat)
  {
    && Shape(v0) && Shape(w) && w.sb == v0.sb && i in v0.inodes && i in w.inodes
    && (forall k :: 0 <= k <= MAXFILE ==> (Ptr(w, i, k) == 0 <==> Ptr(v0, i, k) == 0 && !Behind(off, x, k)))
    && |ow| == |ow0| + |Missing(v0, i, off, x)|
  }

  /** What has been logged besides bitmap blocks are blocks behind bytes [off, off + x). */
  ghost predicate LogsOnly(v0: Vol, ow: Owners, lg0: set<nat>, lg: set<nat>, i: nat, off: nat, x: nat)
  {
    forall b :: b in lg && b !in lg0 ==>
      b < v0.sb.DataStart() || (b in ow && ow[b].inum == i && Behind(off, x, ow[b].k))
  }

  /** A write has filled the slots behind its first `x` bytes and logged all its changes. */
  ghost predicate Tracked(v0: Vol, ow0: Owners, lg0: set<nat>, w: Vol, ow: Owners, lg: set<nat>, i: nat, off: nat,
                          x: nat)
  {
    && Owned(v0, ow0) && Owned(w, ow) && Filled(v0, ow0, w, ow, i, off, x)
    && lg0 <= lg && AllLogged(v0, w, lg) && LogsOnly(v0, ow, lg0, lg, i, off, x)
  }

  lemma TrackedStart(v: Vol, ow: Owners, lg: set<nat>, i: nat, off: nat)
    requires Owned(v, ow) && i in v.inodes
    ensures Tracked(v, ow, lg, v, ow, lg, i, off, 0)
  {
    hide Used, Ptr;
    assert Missing(v, i, off, 0) == {};
  }

  /** One more block: the slots that are missing for it. */
  ghost function Lacks(v: Vol, i: nat, off: nat, tot: nat): (r: set<nat>)
    requires Shape(v) && i in v.inodes && (off + tot) / BSIZE < MAXFILE
  {
    var bn := (off + tot) / BSIZE;
    (if Ptr(v, i, bn) == 0 then {bn} else {})
    + if NDIRECT <= bn && !Behind(off, tot, INDIRECT) && Ptr(v, i, INDIRECT) == 0 then {INDIRECT} else {}
  }

  lemma MissingMore(v: Vol, i: nat, off: nat, tot: nat, y: nat)
    requires Shape(v) && i in v.inodes && (off + tot) / BSIZE < MAXFILE
    requires tot < y && (tot == 0 || (off + tot) % BSIZE == 0) && (off + tot) % BSIZE + (y - tot) <= BSIZE
    ensures Missing(v, i, off, y) == Missing(v, i, off, tot) + Lacks(v, i, off, tot)
    ensures Missing(v, i, off, tot) !! Lacks(v, i, off, tot)
  {
    hide Ptr, Behind, Shape;
    BehindStep(off, tot, y, (off + tot) / BSIZE);
    forall k: nat ensures k in Missing(v, i, off, y) <==> k in Missing(v, i, off, tot) + Lacks(v, i, off, tot) {
      BehindStep(off, tot, y, k);
    }
  }

  lemma MissingStep(v: Vol, i: nat, off: nat, tot: nat, y: nat)
    requires Shape(v) && i in v.inodes && (off + tot) / BSIZE < MAXFILE
    requires tot < y && (tot == 0 || (off + tot) % BSIZE == 0) && (off + tot) % BSIZE + (y - tot) <= BSIZE
    ensures var bn := (off + tot) / BSIZE;
            |Missing(v, i, off, y)| == |Missing(v, i, off, tot)|
              + (if Ptr(v, i, bn) == 0 then 1 else 0)
              + (if NDIRECT <= bn && !Behind(off, tot, INDIRECT) && Ptr(v, i, INDIRECT) == 0 then 1 else 0)
  {
    hide Ptr, Behind, Shape, Missing;
    MissingMore(v, i, off, tot, y);
  }

  lemma FilledStep(v0: Vol, ow0: Owners, u: Vol, ow: Owners, lg: set<nat>, w: Vol, ow': Owners, lg': set<nat>,
                   i: nat, off: nat, tot: nat, y: nat, addr: nat)
    requires Filled(v0, ow0, u, ow, i, off, tot) && (off + tot) / BSIZE < MAXFILE && addr != 0
    requires BlockLogged(u, ow, lg, w, ow', lg', i, (off + tot) / BSIZE, addr)
    requires tot < y && (tot == 0 || (off + tot) % BSIZE == 0) && (off + tot) % BSIZE + (y - tot) <= BSIZE
    ensures Filled(v0, ow0, w, ow', i, off, y)
  {
    hide Ptr, Behind, AllUsed, AllLogged, Missing, Shape;
    var bn := (off + tot) / BSIZE;
    MissingStep(v0, i, off, tot, y);
    BehindStep(off, tot, y, bn);
    forall k | 0 <= k <= MAXFILE ensures Ptr(w, i, k) == 0 <==> Ptr(v0, i, k) == 0 && !Behind(off, y, k) {
      BehindStep(off, tot, y, k);
      assert Ptr(u, i, k) == 0 <==> Ptr(v0, i, k) == 0 && !Behind(off, tot, k);
    }
    assert Ptr(u, i, bn) == 0 <==> Ptr(v0, i, bn) == 0;
    assert Ptr(u, i, INDIRECT) == 0 <==> Ptr(v0, i, INDIRECT) == 0 && !Behind(off, tot, INDIRECT);
  }

  /** bmap found no block: there are too few for this block of the file. */
  lemma NoRoom(v0: Vol, ow0: Owners, u: Vol, ow: Owners, lg: set<nat>, w: Vol, ow': Owners, lg': set<nat>,
               i: nat, off: nat, tot: nat, y: nat)
    requires Owned(v0, ow0) && Owned(w, ow') && Filled(v0, ow0, u, ow, i, off, tot) && (off + tot) / BSIZE < MAXFILE
    requires BlockLogged(u, ow, lg, w, ow', lg', i, (off + tot) / BSIZE, 0)
    requires tot < y && (tot == 0 || (off + tot) % BSIZE == 0) && (off + tot) % BSIZE + (y - tot) <= BSIZE
    ensures !Room(v0, i, off, y) && Ptr(v0, i, (off + tot) / BSIZE) == 0
  {
    hide Ptr, Behind, AllUsed, AllLogged, Missing, Used, FreeBlocks, Owned, Shape;
    var bn := (off + tot) / BSIZE;
    MissingStep(v0, i, off, tot, y);
    BehindStep(off, tot, y, bn);
    NoneFree(w, ow');
    BlocksConserved(v0, ow0);
    assert Ptr(u, i, bn) == 0 <==> Ptr(v0, i, bn) == 0;
    assert Ptr(u, i, INDIRECT) == 0 <==> Ptr(v0, i, INDIRECT) == 0 && !Behind(off, tot, INDIRECT);
  }

  lemma TrackedMapped(v0: Vol, ow0: Owners, lg0: set<nat>, u: Vol, ow: Owners, lg: set<nat>, w: Vol, ow': Owners,
                      lg': set<nat>, i: nat, off: nat, tot: nat, y: nat, addr: nat)
    requires Tracked(v0, ow0, lg0, u, ow, lg, i, off, tot) && (off + tot) / BSIZE < MAXFILE && addr != 0
    requires Owned(w, ow') && BlockLogged(u, ow, lg, w, ow', lg', i, (off + tot) / BSIZE, addr)
    requires tot < y && (tot == 0 || (off + tot) % BSIZE == 0) && (off + tot) % BSIZE + (y - tot) <= BSIZE
    ensures Tracked(v0, ow0, lg0, w, ow', lg', i, off, y)
  {
    hide Ptr, Behind, AllUsed, AllLogged, Missing, Used, Filled, LogsOnly, Owned, Shape;
    FilledStep(v0, ow0, u, ow, lg, w, ow', lg', i, off, tot, y, addr);
    AllLoggedTrans(v0, u, w, lg, lg');
    LogsMapped(v0, ow0, u, ow, lg0, lg, w, ow', lg', i, off, tot, y, addr);
  }

  lemma LogsMapped(v0: Vol, ow0: Owners, u: Vol, ow: Owners, lg0: set<nat>, lg: set<nat>, w: Vol, ow': Owners,
                   lg': set<nat>, i: nat, off: nat, tot: nat, y: nat, addr: nat)
    requires Filled(v0, ow0, u, ow, i, off, tot) && LogsOnly(v0, ow, lg0, lg, i, off, tot)
    requires (off + tot) / BSIZE < MAXFILE && addr != 0
    requires Owned(w, ow') && BlockLogged(u, ow, lg, w, ow', lg', i, (off + tot) / BSIZE, addr)
    requires tot < y && (tot == 0 || (off + tot) % BSIZE == 0) && (off + tot) % BSIZE + (y - tot) <= BSIZE
    ensures LogsOnly(v0, ow', lg0, lg', i, off, y)
  {
    hide Ptr, Behind, AllUsed, AllLogged, Missing, Used, Owned, Shape;
    var bn := (off + tot) / BSIZE;
    SlotOwner(w, ow', i, bn);
    if NDIRECT <= bn { SlotOwner(w, ow', i, INDIRECT); }
    forall k: nat ensures Behind(off, tot, k) || k == bn || (k == INDIRECT && NDIRECT <= bn) ==> Behind(off, y, k) {
      BehindStep(off, tot, y, k);
    }
  }

  lemma SlotOwner(v: Vol, ow: Owners, i: nat, k: nat)
    requires Owned(v, ow) && i in v.inodes && k <= MAXFILE && Ptr(v, i, k) != 0
    ensures Ptr(v, i, k) in ow && ow[Ptr(v, i, k)] == Slot(i, k) && v.sb.DataStart() <= Ptr(v, i, k)
  {
    hide Ptr, Used;
  }

  /** A whole copy: the block is stored and logged. */
  lemma TrackedPut(v0: Vol, ow0: Owners, lg0: set<nat>, w: Vol, ow: Owners, lg: set<nat>, i: nat, off: nat, y: nat,
                   bn: nat, o: nat, bytes: seq<Byte>)
    requires Tracked(v0, ow0, lg0, w, ow, lg, i, off, y) && bn < MAXFILE && Ptr(w, i, bn) != 0 && Behind(off, y, bn)
    requires o + |bytes| <= BSIZE
    ensures Ptr(w, i, bn) < w.sb.size
    ensures Tracked(v0, ow0, lg0, PutData(w, Ptr(w, i, bn), o, bytes), ow, lg + {Ptr(w, i, bn)}, i, off, y)
  {
    hide Ptr, Behind, Missing, Used, PutData, Owned, Shape, AllLogged;
    OwnedShape(w, ow);
    PutDataOwned(w, ow, i, bn, o, bytes);
    SlotOwner(w, ow, i, bn);
    PutLogged(v0, w, lg, Ptr(w, i, bn), o, bytes);
    OwnedShape(PutData(w, Ptr(w, i, bn), o, bytes), ow);
    FilledSame(v0, ow0, w, PutData(w, Ptr(w, i, bn), o, bytes), ow, i, off, y);
  }

  lemma PutLogged(v0: Vol, w: Vol, lg: set<nat>, b: nat, o: nat, bytes: seq<Byte>)
    requires Shape(w) && b < w.sb.size && o + |bytes| <= BSIZE && AllLogged(v0, w, lg)
    ensures AllLogged(v0, PutData(w, b, o, bytes), lg + {b})
  {
  }

  lemma FilledSame(v0: Vol, ow0: Owners, w: Vol, z: Vol, ow: Owners, i: nat, off: nat, x: nat)
    requires Filled(v0, ow0, w, ow, i, off, x) && Shape(z) && z.sb == w.sb && i in z.inodes
    requires forall l :: 0 <= l <= MAXFILE ==> Ptr(z, i, l) == Ptr(w, i, l)
    ensures Filled(v0, ow0, z, ow, i, off, x)
  {
    hide Ptr, Behind, Missing, Shape;
  }

  // ---------------------------------------------------------------- where a write ends

  lemma TrackedRoom(v0: Vol, ow0: Owners, lg0: set<nat>, w: Vol, ow: Owners, lg: set<nat>, i: nat, off: nat, x: nat)
    requires Tracked(v0, ow0, lg0, w, ow, lg, i, off, x)
    ensures Shape(v0) && i in v0.inodes && Room(v0, i, off, x)
  {
    hide Used, Ptr, Behind, Missing, FreeBlocks, Owned, Shape;
    BlocksConserved(v0, ow0);
    BlocksConserved(w, ow);
  }

  lemma NextStopLeast(off: nat, n: nat, x: nat, z: nat)
    requires x < z && Stop(off, n, z)
    ensures NextStop(off, n, x) <= z
  {
    var o := (off + x) % BSIZE;
    if z < n && z < x + BSIZE - o {
      var a, b := off + x, off + z;
      assert a % BSIZE + (b - a) < BSIZE;
      SameBlock(a, b);
    }
  }

  lemma NextStopStep(off: nat, n: nat, x: nat)
    requires x < n
    ensures x < NextStop(off, n, x) <= n && (off + x) % BSIZE + (NextStop(off, n, x) - x) <= BSIZE
    ensures NextStop(off, n, x) < n ==> (off + NextStop(off, n, x)) % BSIZE == 0
  {
    var o := (off + x) % BSIZE;
    var y := x + BSIZE - o;
    assert off + y == ((off + x) / BSIZE + 1) * BSIZE;
  }

  /** A block that a faulting copy changed is not logged: it was mapped before, nothing else logged it, and some byte
      that was copied is new. */
  ghost predicate Spoiled(v: Vol, lg0: set<nat>, i: nat, off: nat, src: seq<Byte>, r: nat, readable: nat)
    requires Shape(v) && i in v.inodes
  {
    && r < |src| && readable <= |src| && (off + r) / BSIZE < MAXFILE
    && var b := Ptr(v, i, (off + r) / BSIZE);
       && 0 < b < v.sb.size && b !in lg0 + {v.sb.IBlock(i)}
       && exists x: nat :: r <= x < readable && src[x] != v.blocks[b][(off + x) % BSIZE]
  }

  /** writei's loop has stopped after `tot` bytes, with `hi` bytes stored. */
  ghost predicate Halted(v0: Vol, lg0: set<nat>, w: Vol, lg: set<nat>, i: nat, off: nat, src: seq<Byte>, readable: nat,
                         tot: nat, hi: nat)
  {
    && Shape(v0) && i in v0.inodes && tot < |src| && Stop(off, |src|, tot) && tot <= readable && Room(v0, i, off, tot)
    && lg0 <= lg && (AllLogged(v0, w, lg + {v0.sb.IBlock(i)}) <==> !Spoiled(v0, lg0, i, off, src, tot, readable))
    && var y := NextStop(off, |src|, tot);
       && (readable < y || !Room(v0, i, off, y)) && hi == if Room(v0, i, off, y) then readable else tot
  }

  lemma HaltedFull(v0: Vol, ow0: Owners, lg0: set<nat>, u: Vol, ow: Owners, lg: set<nat>, w: Vol, ow': Owners,
                   lg': set<nat>, i: nat, off: nat, src: seq<Byte>, readable: nat, tot: nat)
    requires Tracked(v0, ow0, lg0, u, ow, lg, i, off, tot) && (off + tot) / BSIZE < MAXFILE && tot < |src|
    requires Owned(w, ow') && BlockLogged(u, ow, lg, w, ow', lg', i, (off + tot) / BSIZE, 0)
    requires Stop(off, |src|, tot) && tot <= readable
    ensures Halted(v0, lg0, w, lg', i, off, src, readable, tot, tot)
  {
    hide Used, Ptr, Behind, FreeBlocks, Owned, Shape, Room, Filled, NextStop, AllUsed, AllLogged, LogsOnly;
    TrackedRoom(v0, ow0, lg0, u, ow, lg, i, off, tot);
    NextStopStep(off, |src|, tot);
    NoRoom(v0, ow0, u, ow, lg, w, ow', lg', i, off, tot, NextStop(off, |src|, tot));
    AllLoggedTrans(v0, u, w, lg, lg' + {v0.sb.IBlock(i)}) by { MoreLogged(u, w, lg', lg' + {v0.sb.IBlock(i)}); }
  }

  /** A block that was mapped before and has not been written yet is as it was. */
  lemma UntouchedBlock(v0: Vol, ow0: Owners, u: Vol, ow: Owners, i: nat, off: nat, src: seq<Byte>, tot: nat)
    requires Written(v0, ow0, u, ow, i, off, src, tot) && i in v0.inodes && (off + tot) / BSIZE < MAXFILE
    requires (tot == 0 || (off + tot) % BSIZE == 0) && Ptr(v0, i, (off + tot) / BSIZE) != 0
    ensures var b := Ptr(v0, i, (off + tot) / BSIZE);
            Ptr(u, i, (off + tot) / BSIZE) == b < |v0.blocks| == |u.blocks| && u.blocks[b] == v0.blocks[b]
  {
    var bn := (off + tot) / BSIZE;
    var b := Ptr(v0, i, bn);
    MappedRange(v0, ow0, i, bn);
    forall z: nat | z < BSIZE ensures u.blocks[b][z] == v0.blocks[b][z] {
      var x := bn * BSIZE + z;
      assert x / BSIZE == bn && x % BSIZE == z;
      assert Mapped(v0, i, x);
      assert !(off <= x < off + tot);
      assert At(u, i, x) == At(v0, i, x);
    }
    hide Ptr, Used, Owned, At, Mapped;
    assert u.blocks[b] == v0.blocks[b];
  }

  lemma PutDiffers(s: Block, o: nat, bytes: seq<Byte>)
    requires o + |bytes| <= BSIZE
    ensures s[..o] + bytes + s[o + |bytes|..] != s <==> exists x: nat :: x < |bytes| && bytes[x] != s[o + x]
  {
    var t := s[..o] + bytes + s[o + |bytes|..];
    assert forall x: nat :: x < |bytes| ==> t[o + x] == bytes[x];
    if forall x: nat :: x < |bytes| ==> bytes[x] == s[o + x] { assert bytes == s[o..o + |bytes|]; }
  }

  /** Storing `bytes` in block `b` leaves exactly that block unlogged, if it is not logged and the bytes are new. */
  lemma PutUnlogged(v0: Vol, w: Vol, lg: set<nat>, b: nat, o: nat, bytes: seq<Byte>)
    requires Shape(w) && b < w.sb.size && o + |bytes| <= BSIZE && AllLogged(v0, w, lg) && w.blocks[b] == v0.blocks[b]
    ensures AllLogged(v0, PutData(w, b, o, bytes), lg) <==>
              b in lg || !exists x: nat :: x < |bytes| && bytes[x] != v0.blocks[b][o + x]
  {
    PutDiffers(w.blocks[b], o, bytes);
    var z := PutData(w, b, o, bytes);
    assert forall c: nat :: c < |w.blocks| && c != b ==> z.blocks[c] == w.blocks[c];
    assert z.blocks[b] == w.blocks[b][..o] + bytes + w.blocks[b][o + |bytes|..];
  }

  lemma SameBytes(v: Vol, b: nat, off: nat, src: seq<Byte>, tot: nat, readable: nat)
    requires b < |v.blocks| && tot <= readable <= |src| && (off + tot) % BSIZE + (readable - tot) <= BSIZE
    ensures (exists x: nat :: x < readable - tot && src[tot..readable][x] != v.blocks[b][(off + tot) % BSIZE + x]) <==>
            exists x: nat :: tot <= x < readable && src[x] != v.blocks[b][(off + x) % BSIZE]
  {
    if x: nat :| x < readable - tot && src[tot..readable][x] != v.blocks[b][(off + tot) % BSIZE + x] {
      SameBlock(off + tot, off + (tot + x));
      assert src[tot + x] != v.blocks[b][(off + (tot + x)) % BSIZE];
    }
    if x: nat :| tot <= x < readable && src[x] != v.blocks[b][(off + x) % BSIZE] {
      SameBlock(off + tot, off + x);
      assert src[tot..readable][x - tot] != v.blocks[b][(off + tot) % BSIZE + (x - tot)];
    }
  }

  /** The faulting block was mapped before the write. */
  lemma FaultOld(v0: Vol, ow0: Owners, lg0: set<nat>, u: Vol, ow: Owners, lg: set<nat>,
                 i: nat, off: nat, src: seq<Byte>, readable: nat, tot: nat)
    requires Tracked(v0, ow0, lg0, u, ow, lg, i, off, tot) && Written(v0, ow0, u, ow, i, off, src, tot)
    requires (off + tot) / BSIZE < MAXFILE && Ptr(v0, i, (off + tot) / BSIZE) != 0 && tot < |src|
    requires (tot == 0 || (off + tot) % BSIZE == 0) && tot <= readable <= |src|
    requires (off + tot) % BSIZE + (readable - tot) <= BSIZE
    ensures var b := Ptr(v0, i, (off + tot) / BSIZE);
            && b < u.sb.size
            && (AllLogged(v0, PutData(u, b, (off + tot) % BSIZE, src[tot..readable]), lg + {v0.sb.IBlock(i)}) <==>
                  !Spoiled(v0, lg0, i, off, src, tot, readable))
  {
    hide Used, Ptr, Behind, Missing, Owned, Shape, AllLogged, PutData, Written;
    var bn, ib := (off + tot) / BSIZE, v0.sb.IBlock(i);
    var b := Ptr(v0, i, bn);
    OwnedShape(v0, ow0);
    OwnedShape(u, ow);
    ShapeSize(v0);
    ShapeSize(u);
    UntouchedBlock(v0, ow0, u, ow, i, off, src, tot);
    SlotOwner(u, ow, i, bn);
    BehindStep(off, tot, tot + 1, bn);
    assert b in lg <==> b in lg0;
    MoreLogged(v0, u, lg, lg + {ib});
    PutUnlogged(v0, u, lg + {ib}, b, (off + tot) % BSIZE, src[tot..readable]);
    SameBytes(v0, b, off, src, tot, readable);
  }

  lemma ShapeSize(v: Vol)
    requires Shape(v)
    ensures |v.blocks| == v.sb.size
  {
  }

  /** The faulting block is new, so that balloc has logged it. */
  lemma FaultNew(v0: Vol, ow0: Owners, lg0: set<nat>, u: Vol, ow: Owners, lg: set<nat>, w: Vol, ow': Owners,
                 lg': set<nat>, i: nat, off: nat, src: seq<Byte>, readable: nat, tot: nat, addr: nat)
    requires Tracked(v0, ow0, lg0, u, ow, lg, i, off, tot) && (off + tot) / BSIZE < MAXFILE && addr != 0
    requires Owned(w, ow') && BlockLogged(u, ow, lg, w, ow', lg', i, (off + tot) / BSIZE, addr)
    requires (tot == 0 || (off + tot) % BSIZE == 0) && Ptr(v0, i, (off + tot) / BSIZE) == 0 && tot <= readable <= |src|
    requires addr < w.sb.size && (off + tot) % BSIZE + (readable - tot) <= BSIZE
    ensures AllLogged(v0, PutData(w, addr, (off + tot) % BSIZE, src[tot..readable]), lg' + {v0.sb.IBlock(i)})
    ensures !Spoiled(v0, lg0, i, off, src, tot, readable)
  {
    hide Used, Ptr, Behind, Missing, Owned, Shape, AllLogged, PutData, AllUsed, LogsOnly;
    var bn, ib := (off + tot) / BSIZE, v0.sb.IBlock(i);
    BehindStep(off, tot, tot + 1, bn);
    assert Ptr(u, i, bn) == 0;
    AllLoggedTrans(v0, u, w, lg, lg');
    PutLogged(v0, w, lg', addr, (off + tot) % BSIZE, src[tot..readable]);
    MoreLogged(v0, PutData(w, addr, (off + tot) % BSIZE, src[tot..readable]), lg' + {addr}, lg' + {ib});
  }

  lemma HaltedFault(v0: Vol, ow0: Owners, lg0: set<nat>, u: Vol, ow: Owners, lg: set<nat>, w: Vol, ow': Owners,
                    lg': set<nat>, i: nat, off: nat, src: seq<Byte>, readable: nat, tot: nat, addr: nat)
    requires Tracked(v0, ow0, lg0, u, ow, lg, i, off, tot) && Written(v0, ow0, u, ow, i, off, src, tot)
    requires (off + tot) / BSIZE < MAXFILE && addr != 0 && tot < |src|
    requires Owned(w, ow') && BlockLogged(u, ow, lg, w, ow', lg', i, (off + tot) / BSIZE, addr)
    requires Stop(off, |src|, tot) && tot <= readable < NextStop(off, |src|, tot)
    ensures Shape(w) && addr < w.sb.size && (off + tot) % BSIZE + (readable - tot) <= BSIZE && readable <= |src|
    ensures Halted(v0, lg0, PutData(w, addr, (off + tot) % BSIZE, src[tot..readable]), lg', i, off, src, readable,
                   tot, readable)
  {
    hide Used, Ptr, Behind, Missing, Owned, Shape, AllLogged, PutData, AllUsed, LogsOnly, Room, NextStop, Spoiled,
         Filled, Written;
    var y := NextStop(off, |src|, tot);
    NextStopStep(off, |src|, tot);
    TrackedRoom(v0, ow0, lg0, u, ow, lg, i, off, tot);
    TrackedMapped(v0, ow0, lg0, u, ow, lg, w, ow', lg', i, off, tot, y, addr);
    TrackedRoom(v0, ow0, lg0, w, ow', lg', i, off, y);
    OwnedShape(w, ow');
    MappedRange(w, ow', i, (off + tot) / BSIZE);
    if Ptr(v0, i, (off + tot) / BSIZE) != 0 {
      WrittenPtr(v0, ow0, u, ow, i, off, src, tot);
      FaultOld(v0, ow0, lg0, u, ow, lg, i, off, src, readable, tot);
    } else {
      FaultNew(v0, ow0, lg0, u, ow, lg, w, ow', lg', i, off, src, readable, tot, addr);
    }
  }

  lemma WrittenPtr(v0: Vol, ow0: Owners, u: Vol, ow: Owners, i: nat, off: nat, src: seq<Byte>, tot: nat)
    requires Written(v0, ow0, u, ow, i, off, src, tot) && i in v0.inodes && (off + tot) / BSIZE < MAXFILE
    requires Ptr(v0, i, (off + tot) / BSIZE) != 0
    ensures Shape(u) && i in u.inodes && Ptr(u, i, (off + tot) / BSIZE) == Ptr(v0, i, (off + tot) / BSIZE)
  {
    hide Used, Ptr, At, Mapped;
  }

  lemma HaltedEnds(v0: Vol, lg0: set<nat>, w: Vol, lg: set<nat>, i: nat, off: nat, src: seq<Byte>, readable: nat,
                   tot: nat, hi: nat)
    requires Halted(v0, lg0, w, lg, i, off, src, readable, tot, hi)
    ensures EndsAt(v0, i, off, |src|, readable, tot)
  {
    hide Room, NextStop, Shape, Spoiled, Stop, AllLogged;
    forall x: nat | tot < x && Stop(off, |src|, x) ensures readable < x || !Room(v0, i, off, x) {
      NextStopLeast(off, |src|, tot, x);
      if Room(v0, i, off, x) { RoomMono(v0, i, off, NextStop(off, |src|, tot), x); }
    }
  }

  /** What writei does exactly, for every result that is not a refusal: where it ends, how much is stored when a copy
      faults, and when every changed block is logged. */
  ghost predicate WriteExact(v0: Vol, ow0: Owners, lg0: set<nat>, v: Vol, ow: Owners, lg: set<nat>,
                             i: nat, src: seq<Byte>, readable: nat, off: nat, r: int, hi: nat)
  {
    r >= 0 ==>
      && Shape(v0) && i in v0.inodes && EndsAt(v0, i, off, |src|, readable, r)
      && hi == (if r < |src| && Room(v0, i, off, NextStop(off, |src|, r)) then readable else r)
      && lg0 + {v0.sb.IBlock(i)} <= lg && (AllLogged(v0, v, lg) <==> !Spoiled(v0, lg0, i, off, src, r, readable))
      && (r == |src| ==> Filled(v0, ow0, v, ow, i, off, |src|))
  }

  /** A write that is not refused is complete if and only if its source is readable and the blocks are there. */
  lemma CompleteIff(v0: Vol, ow0: Owners, lg0: set<nat>, v: Vol, ow: Owners, lg: set<nat>,
                    i: nat, src: seq<Byte>, readable: nat, off: nat, r: nat, hi: nat)
    requires WriteExact(v0, ow0, lg0, v, ow, lg, i, src, readable, off, r, hi)
    ensures r == |src| <==> |src| <= readable && Room(v0, i, off, |src|)
  {
    hide Room, NextStop, Shape, Spoiled, AllLogged, Filled;
    assert Stop(off, |src|, |src|);
  }

  /** With room on the volume, no more is stored than is reported if and only if the source ends with the write, at its
      start, or at a block boundary. */
  lemma PartialIff(v0: Vol, ow0: Owners, lg0: set<nat>, v: Vol, ow: Owners, lg: set<nat>,
                   i: nat, src: seq<Byte>, readable: nat, off: nat, r: nat, hi: nat)
    requires WriteExact(v0, ow0, lg0, v, ow, lg, i, src, readable, off, r, hi) && readable <= |src|
    requires i in v0.inodes && Shape(v0) && Room(v0, i, off, |src|)
    ensures hi == r <==> readable == |src| || readable == 0 || (off + readable) % BSIZE == 0
  {
    hide Room, Shape, Spoiled, AllLogged, Filled;
    RoomMono(v0, i, off, readable, |src|);
    if r < |src| {
      NextStopStep(off, |src|, r);
      RoomMono(v0, i, off, NextStop(off, |src|, r), |src|);
    }
    assert Stop(off, |src|, readable) <==> readable == |src| || readable == 0 || (off + readable) % BSIZE == 0;
  }

  // ---------------------------------------------------------------- writing in pieces

  /** After the first `k` bytes, what is missing for the next `y` is what was missing for all and not for the first. */
  lemma MissingRest(v0: Vol, ow0: Owners, u: Vol, ow: Owners, i: nat, off: nat, k: nat, y: nat)
    requires Filled(v0, ow0, u, ow, i, off, k)
    ensures Missing(v0, i, off, k + y) == Missing(v0, i, off, k) + Missing(u, i, off + k, y)
    ensures Missing(v0, i, off, k) !! Missing(u, i, off + k, y)
  {
    hide Ptr, Behind, Shape;
    var all, rest := Missing(v0, i, off, k + y), Missing(v0, i, off, k) + Missing(u, i, off + k, y);
    forall l: nat ensures l in all <==> l in rest { BehindJoin(off, k, y, l); }
  }

  lemma RoomRest(v0: Vol, ow0: Owners, u: Vol, ow: Owners, i: nat, off: nat, k: nat, y: nat)
    requires Owned(v0, ow0) && Owned(u, ow) && Filled(v0, ow0, u, ow, i, off, k)
    ensures Room(u, i, off + k, y) <==> Room(v0, i, off, k + y)
  {
    hide Ptr, Behind, Shape, Missing, Owned, FreeBlocks;
    MissingRest(v0, ow0, u, ow, i, off, k, y);
    BlocksConserved(v0, ow0);
    BlocksConserved(u, ow);
  }

  lemma FilledJoin(v0: Vol, ow0: Owners, u: Vol, ow: Owners, w: Vol, ow': Owners, i: nat, off: nat, k: nat, y: nat)
    requires Filled(v0, ow0, u, ow, i, off, k) && Filled(u, ow, w, ow', i, off + k, y)
    ensures Filled(v0, ow0, w, ow', i, off, k + y)
  {
    hide Ptr, Behind, Shape, Missing;
    MissingRest(v0, ow0, u, ow, i, off, k, y);
    forall l | 0 <= l <= MAXFILE ensures Ptr(w, i, l) == 0 <==> Ptr(v0, i, l) == 0 && !Behind(off, k + y, l) {
      BehindJoin(off, k, y, l);
    }
  }

  lemma FilledNothing(v: Vol, ow: Owners, i: nat, off: nat)
    requires Shape(v) && i in v.inodes
    ensures Filled(v, ow, v, ow, i, off, 0)
  {
    hide Ptr;
    assert Missing(v, i, off, 0) == {};
  }

  lemma FilledRoom(v0: Vol, ow0: Owners, w: Vol, ow: Owners, i: nat, off: nat, x: nat)
    requires Owned(v0, ow0) && Owned(w, ow) && Filled(v0, ow0, w, ow, i, off, x)
    ensures Room(v0, i, off, x)
  {
    hide Used, Ptr, Behind, Missing, FreeBlocks, Owned, Shape;
    BlocksConserved(v0, ow0);
    BlocksConserved(w, ow);
  }

  // ---------------------------------------------------------------- a write that leaves a block unlogged

  /** Two data blocks, 3 and 4; inode 1 has two bytes in block 3. */
  function SmallVolume(): Vol
  {
    Vol(Super(5, 2, 1, 2), [ZeroBlock(), ZeroBlock(), ZeroBlock()[0 := 15], ZeroBlock(), ZeroBlock()],
        map[1 := Inode([3, 0, 0, 0, 0, 0, 0, 0, 0, 0, 0, 0, 0], 2)])
  }

  lemma SmallShape()
    ensures Shape(SmallVolume())
    ensures forall k :: 0 <= k <= MAXFILE ==> Ptr(SmallVolume(), 1, k) == if k == 0 then 3 else 0
  {
    assert InodeShape(SmallVolume(), 1);
  }

  lemma SmallUsed(b: nat)
    requires b < 5 && Shape(SmallVolume())
    ensures Used(SmallVolume(), b) <==> b <= 3
  {
    assert TestBit(15, 0) && TestBit(15, 1) && TestBit(15, 2) && TestBit(15, 3) && !TestBit(15, 4);
  }

  lemma SmallValid()
    ensures Valid(SmallVolume(), map[3 := Slot(1, 0)])
  {
    SmallShape();
    forall b: nat | b < 5 ensures Used(SmallVolume(), b) <==> b <= 3 { SmallUsed(b); }
    hide Ptr, Used;
  }

  /** Writing two bytes of which one can be read: nothing is reported as written, one byte is stored, and its block is
      not logged. */
  lemma FaultUnlogged(v: Vol, ow: Owners, lg: set<nat>, r: nat, hi: nat)
    requires WriteExact(SmallVolume(), map[3 := Slot(1, 0)], {}, v, ow, lg, 1, [1, 1], 1, 0, r, hi)
    ensures Valid(SmallVolume(), map[3 := Slot(1, 0)])
    ensures r == 0 && hi == 1 && !AllLogged(SmallVolume(), v, lg)
  {
    hide Ptr, Used, AllLogged, Filled;
    SmallValid();
    SmallShape();
    var src: seq<Byte> := [1, 1];
    assert r == 0;
    assert Missing(SmallVolume(), 1, 0, 2) == {};
    assert src[0] != SmallVolume().blocks[3][(0 + 0) % BSIZE];
    assert Spoiled(SmallVolume(), {}, 1, 0, src, 0, 1);
  }
}
