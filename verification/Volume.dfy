/** The file system of kernel/fs.c as a value: the blocks as the buffer cache shows them, and the
    inodes. */
module Volume {
  import opened Bytes

  const NDIRECT: nat := 12
  const NINDIRECT: nat := BSIZE / 4
  const MAXFILE: nat := NDIRECT + NINDIRECT
  const BPB: nat := BSIZE * 8
  const IPB: nat := 16

  /** The slot of an inode that holds its indirect block; slots below MAXFILE are its data blocks. */
  const INDIRECT: nat := MAXFILE

  /** The fields of the super block that the block allocator and the inode code use. */
  datatype Super = Super(size: nat, nblocks: nat, inodestart: nat, bmapstart: nat) {
    function DataStart(): int { size - nblocks }
    function BBlock(b: nat): nat { b / BPB + bmapstart }
    function IBlock(inum: nat): nat { inum / IPB + inodestart }

    /** The layout: inode blocks, then enough bitmap blocks, then data blocks. */
    ghost predicate Valid()
    {
      0 < inodestart < bmapstart < DataStart() <= size < WORD && size <= (DataStart() - bmapstart) * BPB
    }
  }

  datatype Inode = Inode(addrs: seq<nat>, size: nat)

  datatype Vol = Vol(sb: Super, blocks: seq<Block>, inodes: map<nat, Inode>)

  /** Which inode slot owns an allocated data block. */
  datatype Slot = Slot(inum: nat, k: nat)
  type Owners = map<nat, Slot>

  ghost predicate InodeShape(v: Vol, i: nat)
    requires i in v.inodes
  {
    && |v.inodes[i].addrs| == NDIRECT + 1
    && forall k :: 0 <= k <= NDIRECT ==> v.inodes[i].addrs[k] < v.sb.size
  }

  ghost predicate Shape(v: Vol)
  {
    && v.sb.Valid() && |v.blocks| == v.sb.size
    && forall i :: i in v.inodes ==> InodeShape(v, i)
  }

  lemma BBlockRange(sb: Super, b: nat)
    requires sb.Valid() && b < sb.size
    ensures sb.bmapstart <= sb.BBlock(b) < sb.DataStart()
  {
  }

  /** The layout: bit b of the bitmap and inode i of the table are where counting them off from the start of their areas
      puts them, and the inode blocks, the bitmap blocks and the data blocks do not overlap. */
  lemma Layout(sb: Super, b: nat, i: nat)
    requires sb.Valid() && b < sb.size && i < (sb.bmapstart - sb.inodestart) * IPB
    ensures BPB * (sb.BBlock(b) - sb.bmapstart) <= b < BPB * (sb.BBlock(b) - sb.bmapstart + 1)
    ensures IPB * (sb.IBlock(i) - sb.inodestart) <= i < IPB * (sb.IBlock(i) - sb.inodestart + 1)
    ensures sb.inodestart <= sb.IBlock(i) < sb.bmapstart <= sb.BBlock(b) < sb.DataStart()
  {
    BBlockRange(sb, b);
  }

  predicate Used(v: Vol, b: nat)
    requires Shape(v) && b < v.sb.size
  {
    BBlockRange(v.sb, b);
    BlockBit(v.blocks[v.sb.BBlock(b)], b % BPB)
  }

  /** The block number in slot `k` of inode `i`, or 0. */
  function Ptr(v: Vol, i: nat, k: nat): nat
    requires Shape(v) && i in v.inodes && k <= MAXFILE
  {
    assert InodeShape(v, i);
    var addrs := v.inodes[i].addrs;
    if k < NDIRECT then addrs[k]
    else if k == INDIRECT then addrs[NDIRECT]
    else if addrs[NDIRECT] == 0 then 0
    else GetWord(v.blocks[addrs[NDIRECT]], k - NDIRECT)
  }

  // ---------------------------------------------------------------- ownership

  /** Every allocated data block has exactly one owner, and its bitmap bit is set; every other data
      block is free. Blocks before the data area are always marked used. */
  ghost predicate Owned(v: Vol, ow: Owners)
  {
    && Shape(v)
    && (forall i, k :: i in v.inodes && 0 <= k <= MAXFILE && Ptr(v, i, k) != 0 ==>
          Ptr(v, i, k) in ow && ow[Ptr(v, i, k)] == Slot(i, k))
    && (forall b :: b in ow ==>
          && v.sb.DataStart() <= b < v.sb.size && ow[b].inum in v.inodes && ow[b].k <= MAXFILE
          && Ptr(v, ow[b].inum, ow[b].k) == b)
    && (forall b :: 0 <= b < v.sb.size ==> (Used(v, b) <==> b < v.sb.DataStart() || b in ow))
  }

  lemma OwnedShape(v: Vol, ow: Owners)
    requires Owned(v, ow)
    ensures Shape(v)
  {
  }

  /** No two slots hold the same block. */
  lemma SlotsDistinct(v: Vol, ow: Owners, i: nat, k: nat, j: nat, l: nat)
    requires Owned(v, ow) && i in v.inodes && j in v.inodes && k <= MAXFILE && l <= MAXFILE
    requires Ptr(v, i, k) == Ptr(v, j, l) != 0
    ensures i == j && k == l
  {
    hide Ptr, Used;
    assert ow[Ptr(v, i, k)] == Slot(i, k) && ow[Ptr(v, j, l)] == Slot(j, l);
  }

  function SetUsed(v: Vol, b: nat, on: bool): Vol
    requires Shape(v) && b < v.sb.size
  {
    BBlockRange(v.sb, b);
    var m := v.sb.BBlock(b);
    v.(blocks := v.blocks[m := WithBlockBit(v.blocks[m], b % BPB, on)])
  }

  lemma UsedSet(v: Vol, b: nat, on: bool, c: nat)
    requires Shape(v) && b < v.sb.size && c < v.sb.size
    ensures Shape(SetUsed(v, b, on)) && Used(SetUsed(v, b, on), c) == if c == b then on else Used(v, c)
  {
    BBlockRange(v.sb, b);
    BBlockRange(v.sb, c);
    BlockBitWith(v.blocks[v.sb.BBlock(b)], b % BPB, on, c % BPB);
    hide BlockBit, WithBlockBit;
  }

  /** balloc's effect: the bit is set and the block is zeroed. */
  function Alloc(v: Vol, b: nat): Vol
    requires Shape(v) && b < v.sb.size
  {
    var w := SetUsed(v, b, true);
    w.(blocks := w.blocks[b := ZeroBlock()])
  }

  lemma AllocFrame(v: Vol, ow: Owners, b: nat)
    requires Owned(v, ow) && b < v.sb.size && !Used(v, b)
    ensures v.sb.DataStart() <= b && b !in ow && Shape(Alloc(v, b))
    ensures forall c :: 0 <= c < v.sb.size ==> Used(Alloc(v, b), c) == (c == b || Used(v, c))
    ensures forall i, k :: i in v.inodes && 0 <= k <= MAXFILE ==> Ptr(Alloc(v, b), i, k) == Ptr(v, i, k)
    ensures forall c :: 0 <= c < v.sb.size && c != b && c >= v.sb.DataStart() ==> Alloc(v, b).blocks[c] == v.blocks[c]
  {
    var w := Alloc(v, b);
    BBlockRange(v.sb, b);
    forall c | 0 <= c < v.sb.size ensures Used(w, c) == (c == b || Used(v, c)) {
      UsedSet(v, b, true, c);
      BBlockRange(v.sb, c);
    }
    forall i, k | i in v.inodes && 0 <= k <= MAXFILE ensures Ptr(w, i, k) == Ptr(v, i, k) {
      IndirectKept(v, ow, w, b, i, k);
    }
  }

  /** A slot keeps its block when only bitmap blocks and a free block change. */
  lemma IndirectKept(v: Vol, ow: Owners, w: Vol, b: nat, i: nat, k: nat)
    requires Owned(v, ow) && Shape(w) && w.sb == v.sb && w.inodes == v.inodes && b !in ow
    requires forall c :: v.sb.DataStart() <= c < v.sb.size && c != b ==> w.blocks[c] == v.blocks[c]
    requires i in v.inodes && k <= MAXFILE
    ensures Ptr(w, i, k) == Ptr(v, i, k)
  {
    hide Used, GetWord;
    var a := Ptr(v, i, INDIRECT);
    assert a != 0 ==> a in ow;
  }

  /** The stores of bmap: slot `k` of inode `i` now holds block `b`. */
  function SetPtr(v: Vol, i: nat, k: nat, b: nat): Vol
    requires Shape(v) && i in v.inodes && k <= MAXFILE && b < v.sb.size
  {
    assert InodeShape(v, i);
    var ip := v.inodes[i];
    if k < NDIRECT then v.(inodes := v.inodes[i := ip.(addrs := ip.addrs[k := b])])
    else if k == INDIRECT then v.(inodes := v.inodes[i := ip.(addrs := ip.addrs[NDIRECT := b])])
    else
      var a := ip.addrs[NDIRECT];
      v.(blocks := v.blocks[a := PutWord(v.blocks[a], k - NDIRECT, b)])
  }

  lemma SetPtrShape(v: Vol, i: nat, k: nat, b: nat)
    requires Shape(v) && i in v.inodes && k <= MAXFILE && b < v.sb.size
    ensures Shape(SetPtr(v, i, k, b))
  {
    var w := SetPtr(v, i, k, b);
    forall j | j in w.inodes ensures InodeShape(w, j) {
      assert InodeShape(v, j);
    }
  }

  /** The owner of an indirect block is its inode's indirect slot. */
  lemma IndirectOwner(v: Vol, ow: Owners, i: nat)
    requires Owned(v, ow) && i in v.inodes && Ptr(v, i, INDIRECT) != 0
    ensures Ptr(v, i, INDIRECT) in ow && ow[Ptr(v, i, INDIRECT)] == Slot(i, INDIRECT)
    ensures v.sb.DataStart() <= Ptr(v, i, INDIRECT) < v.sb.size
  {
    hide Used;
  }

  lemma SetPtrSlot(u: Vol, i: nat, k: nat, b: nat, j: nat, l: nat)
    requires Shape(u) && i in u.inodes && k <= MAXFILE && b < u.sb.size && j in u.inodes && l <= MAXFILE
    requires k == INDIRECT ==> Ptr(u, i, INDIRECT) == 0 && u.blocks[b] == ZeroBlock()
    requires NDIRECT <= k < MAXFILE ==>
               Ptr(u, i, INDIRECT) != 0 && (j != i ==> Ptr(u, j, INDIRECT) != Ptr(u, i, INDIRECT))
    ensures Shape(SetPtr(u, i, k, b))
    ensures Ptr(SetPtr(u, i, k, b), j, l) == if i == j && k == l then b else Ptr(u, j, l)
  {
    SetPtrShape(u, i, k, b);
    assert InodeShape(u, i) && InodeShape(u, j);
    hide GetWord, PutWord;
    if k == INDIRECT && NDIRECT <= l < MAXFILE {
      ZeroBlockWord(l - NDIRECT);
    } else if NDIRECT <= k < MAXFILE && NDIRECT <= l < MAXFILE && i == j {
      GetPutWord(u.blocks[u.inodes[i].addrs[NDIRECT]], k - NDIRECT, b, l - NDIRECT);
    }
  }

  /** The slots after bmap has given block `b` to an empty slot. */
  lemma AttachPtr(v: Vol, ow: Owners, i: nat, k: nat, b: nat, j: nat, l: nat)
    requires Owned(v, ow) && i in v.inodes && k <= MAXFILE && Ptr(v, i, k) == 0
    requires b < v.sb.size && !Used(v, b)
    requires NDIRECT <= k < MAXFILE ==> Ptr(v, i, INDIRECT) != 0
    requires j in v.inodes && l <= MAXFILE
    ensures Shape(Alloc(v, b)) && Shape(SetPtr(Alloc(v, b), i, k, b))
    ensures Ptr(SetPtr(Alloc(v, b), i, k, b), j, l) == if i == j && k == l then b else Ptr(v, j, l)
  {
    AllocFrame(v, ow, b);
    AllocZero(v, b);
    if NDIRECT <= k < MAXFILE && j != i && Ptr(v, j, INDIRECT) == Ptr(v, i, INDIRECT) {
      SlotsDistinct(v, ow, i, INDIRECT, j, INDIRECT);
    }
    hide Used, Ptr, Alloc, SetPtr;
    SetPtrSlot(Alloc(v, b), i, k, b, j, l);
  }

  lemma AllocZero(v: Vol, b: nat)
    requires Shape(v) && b < v.sb.size
    ensures Alloc(v, b).blocks[b] == ZeroBlock()
  {
  }

  lemma AttachUsed(v: Vol, ow: Owners, i: nat, k: nat, b: nat, c: nat)
    requires Owned(v, ow) && i in v.inodes && k <= MAXFILE && b < v.sb.size && !Used(v, b) && c < v.sb.size
    requires NDIRECT <= k < MAXFILE ==> Ptr(v, i, INDIRECT) != 0
    ensures Shape(Alloc(v, b)) && Shape(SetPtr(Alloc(v, b), i, k, b))
    ensures Used(SetPtr(Alloc(v, b), i, k, b), c) == (c == b || Used(v, c))
  {
    AllocFrame(v, ow, b);
    SetPtrShape(Alloc(v, b), i, k, b);
    BBlockRange(v.sb, c);
    if NDIRECT <= k < MAXFILE {
      IndirectOwner(v, ow, i);
    }
    hide Alloc, BlockBit, PutWord;
  }

  /** Giving a free block to an empty slot keeps ownership exact. */
  lemma Attach(v: Vol, ow: Owners, i: nat, k: nat, b: nat)
    requires Owned(v, ow) && i in v.inodes && k <= MAXFILE && Ptr(v, i, k) == 0
    requires b < v.sb.size && !Used(v, b)
    requires NDIRECT <= k < MAXFILE ==> Ptr(v, i, INDIRECT) != 0
    ensures Shape(Alloc(v, b)) && Owned(SetPtr(Alloc(v, b), i, k, b), ow[b := Slot(i, k)])
    ensures forall j, l :: j in v.inodes && 0 <= l <= MAXFILE ==>
              Ptr(SetPtr(Alloc(v, b), i, k, b), j, l) == if i == j && k == l then b else Ptr(v, j, l)
  {
    AllocFrame(v, ow, b);
    AttachPtr(v, ow, i, k, b, i, k);
    var w := SetPtr(Alloc(v, b), i, k, b);
    forall j, l | j in v.inodes && 0 <= l <= MAXFILE
      ensures Ptr(w, j, l) == if i == j && k == l then b else Ptr(v, j, l)
    {
      AttachPtr(v, ow, i, k, b, j, l);
    }
    forall c | 0 <= c < v.sb.size ensures Used(w, c) == (c == b || Used(v, c)) {
      AttachUsed(v, ow, i, k, b, c);
    }
    assert w.inodes.Keys == v.inodes.Keys;
    OwnedAttach(v, ow, w, i, k, b);
  }

  lemma OwnedAttach(v: Vol, ow: Owners, w: Vol, i: nat, k: nat, b: nat)
    requires Owned(v, ow) && Shape(w) && w.sb == v.sb && w.inodes.Keys == v.inodes.Keys
    requires i in v.inodes && k <= MAXFILE && Ptr(v, i, k) == 0 && v.sb.DataStart() <= b < v.sb.size && b !in ow
    requires forall j, l :: j in v.inodes && 0 <= l <= MAXFILE ==>
               Ptr(w, j, l) == if i == j && k == l then b else Ptr(v, j, l)
    requires forall c :: 0 <= c < v.sb.size ==> Used(w, c) == (c == b || Used(v, c))
    ensures Owned(w, ow[b := Slot(i, k)])
  {
    hide Used, Ptr;
  }

  // ---------------------------------------------------------------- file contents

  function NBlocks(size: nat): nat { (size + BSIZE - 1) / BSIZE }

  /** Every block below an inode's size is mapped. */
  ghost predicate Dense(v: Vol)
    requires Shape(v)
  {
    forall i :: i in v.inodes ==>
      v.inodes[i].size <= MAXFILE * BSIZE
      && forall k :: 0 <= k < NBlocks(v.inodes[i].size) ==> Ptr(v, i, k) != 0
  }

  ghost predicate Valid(v: Vol, ow: Owners)
  {
    Owned(v, ow) && Dense(v)
  }

  /** Byte `x` of the file of inode `i`, when its block is mapped. */
  function At(v: Vol, i: nat, x: nat): Byte
    requires Shape(v) && i in v.inodes && x < MAXFILE * BSIZE && Ptr(v, i, x / BSIZE) < v.sb.size
  {
    v.blocks[Ptr(v, i, x / BSIZE)][x % BSIZE]
  }

  lemma MappedRange(v: Vol, ow: Owners, i: nat, k: nat)
    requires Owned(v, ow) && i in v.inodes && k <= MAXFILE
    ensures Ptr(v, i, k) < v.sb.size
  {
    hide Used, Ptr;
  }

  ghost predicate Mapped(v: Vol, i: nat, x: nat)
    requires Shape(v)
  {
    i in v.inodes && x < MAXFILE * BSIZE && 0 < Ptr(v, i, x / BSIZE) < v.sb.size
  }

  /** `w` is `v` after blocks have been added to inode `i`: nothing mapped before has moved or changed. */
  ghost predicate Grown(v: Vol, ow: Owners, w: Vol, ow': Owners, i: nat)
  {
    && Owned(v, ow) && Owned(w, ow') && w.sb == v.sb && w.inodes.Keys == v.inodes.Keys
    && (forall j :: j in v.inodes ==> w.inodes[j].size == v.inodes[j].size && (j != i ==> w.inodes[j] == v.inodes[j]))
    && (forall j, k :: j in v.inodes && 0 <= k <= MAXFILE && (j != i || Ptr(v, j, k) != 0) ==>
          Ptr(w, j, k) == Ptr(v, j, k))
    && (forall j, x :: Mapped(v, j, x) ==> Mapped(w, j, x) && At(w, j, x) == At(v, j, x))
  }

  lemma GrownRefl(v: Vol, ow: Owners, i: nat)
    requires Owned(v, ow)
    ensures Grown(v, ow, v, ow, i)
  {
    hide Ptr, Used;
  }

  lemma GrownTrans(v: Vol, ow: Owners, u: Vol, ow1: Owners, w: Vol, ow2: Owners, i: nat)
    requires Grown(v, ow, u, ow1, i) && Grown(u, ow1, w, ow2, i)
    ensures Grown(v, ow, w, ow2, i)
  {
    hide Ptr, Used, Owned, At, Shape;
  }

  /** A block other than the new one and the indirect block keeps its contents. */
  lemma AttachBlocks(v: Vol, ow: Owners, i: nat, k: nat, b: nat, c: nat)
    requires Owned(v, ow) && i in v.inodes && k <= MAXFILE && b < v.sb.size && !Used(v, b)
    requires NDIRECT <= k < MAXFILE ==> Ptr(v, i, INDIRECT) != 0
    requires c in ow && ow[c].k != INDIRECT
    ensures Shape(Alloc(v, b)) && c < v.sb.size && SetPtr(Alloc(v, b), i, k, b).blocks[c] == v.blocks[c]
  {
    AllocFrame(v, ow, b);
    if NDIRECT <= k < MAXFILE {
      IndirectOwner(v, ow, i);
    }
    hide Used, Alloc, PutWord;
  }

  lemma AttachAt(v: Vol, ow: Owners, i: nat, k: nat, b: nat, j: nat, x: nat)
    requires Owned(v, ow) && i in v.inodes && k <= MAXFILE && Ptr(v, i, k) == 0
    requires b < v.sb.size && !Used(v, b)
    requires NDIRECT <= k < MAXFILE ==> Ptr(v, i, INDIRECT) != 0
    requires Mapped(v, j, x)
    ensures Shape(Alloc(v, b)) && Shape(SetPtr(Alloc(v, b), i, k, b))
    ensures var w := SetPtr(Alloc(v, b), i, k, b); Mapped(w, j, x) && At(w, j, x) == At(v, j, x)
  {
    var c := Ptr(v, j, x / BSIZE);
    assert c in ow && ow[c] == Slot(j, x / BSIZE);
    AttachPtr(v, ow, i, k, b, j, x / BSIZE);
    AttachBlocks(v, ow, i, k, b, c);
    SetPtrInodes(Alloc(v, b), i, k, b);
    hide Used, Ptr, Alloc, SetPtr, Owned;
  }

  lemma AttachGrown(v: Vol, ow: Owners, i: nat, k: nat, b: nat)
    requires Owned(v, ow) && i in v.inodes && k <= MAXFILE && Ptr(v, i, k) == 0
    requires b < v.sb.size && !Used(v, b)
    requires NDIRECT <= k < MAXFILE ==> Ptr(v, i, INDIRECT) != 0
    ensures Shape(Alloc(v, b)) && Grown(v, ow, SetPtr(Alloc(v, b), i, k, b), ow[b := Slot(i, k)], i)
  {
    Attach(v, ow, i, k, b);
    SetPtrInodes(Alloc(v, b), i, k, b);
    assert Alloc(v, b).inodes == v.inodes;
    var w := SetPtr(Alloc(v, b), i, k, b);
    hide Used, Ptr, Alloc, SetPtr, Owned, At, Mapped;
    forall j, x | Mapped(v, j, x) ensures Mapped(w, j, x) && At(w, j, x) == At(v, j, x) {
      AttachAt(v, ow, i, k, b, j, x);
    }
  }

  lemma SetPtrInodes(u: Vol, i: nat, k: nat, b: nat)
    requires Shape(u) && i in u.inodes && k <= MAXFILE && b < u.sb.size
    ensures var w := SetPtr(u, i, k, b);
            && w.sb == u.sb && w.inodes.Keys == u.inodes.Keys
            && forall j :: j in u.inodes ==>
                 w.inodes[j].size == u.inodes[j].size && (j != i ==> w.inodes[j] == u.inodes[j])
  {
  }

  /** Bytes stored into a data block. */
  function PutData(v: Vol, b: nat, o: nat, bytes: seq<Byte>): Vol
    requires Shape(v) && b < v.sb.size && o + |bytes| <= BSIZE
  {
    var s := v.blocks[b];
    v.(blocks := v.blocks[b := s[..o] + bytes + s[o + |bytes|..]])
  }

  lemma PutDataOwned(v: Vol, ow: Owners, i: nat, k: nat, o: nat, bytes: seq<Byte>)
    requires Owned(v, ow) && i in v.inodes && k < MAXFILE && Ptr(v, i, k) != 0 && o + |bytes| <= BSIZE
    ensures Ptr(v, i, k) < v.sb.size
    ensures var w := PutData(v, Ptr(v, i, k), o, bytes);
            && Owned(w, ow) && w.sb == v.sb && w.inodes == v.inodes
            && (forall j, l :: j in v.inodes && 0 <= l <= MAXFILE ==> Ptr(w, j, l) == Ptr(v, j, l))
  {
    var b := Ptr(v, i, k);
    assert b in ow && ow[b] == Slot(i, k);
    var w := PutData(v, b, o, bytes);
    forall j | j in w.inodes ensures InodeShape(w, j) { assert InodeShape(v, j); }
    forall j, l | j in v.inodes && 0 <= l <= MAXFILE ensures Ptr(w, j, l) == Ptr(v, j, l) {
      if Ptr(v, j, INDIRECT) != 0 { IndirectOwner(v, ow, j); }
      hide Used, GetWord;
    }
    forall c | 0 <= c < v.sb.size ensures Used(w, c) == Used(v, c) {
      BBlockRange(v.sb, c);
      hide BlockBit;
    }
    hide Used, Ptr, PutData;
  }

  lemma PutDataAt(v: Vol, ow: Owners, i: nat, k: nat, o: nat, bytes: seq<Byte>, j: nat, x: nat)
    requires Owned(v, ow) && i in v.inodes && k < MAXFILE && 0 < Ptr(v, i, k) < v.sb.size && o + |bytes| <= BSIZE
    requires Mapped(v, j, x)
    ensures var w := PutData(v, Ptr(v, i, k), o, bytes);
            && Owned(w, ow) && Mapped(w, j, x)
            && At(w, j, x) == if j == i && x / BSIZE == k && o <= x % BSIZE < o + |bytes|
                              then bytes[x % BSIZE - o] else At(v, j, x)
  {
    PutDataOwned(v, ow, i, k, o, bytes);
    var b, c := Ptr(v, i, k), Ptr(v, j, x / BSIZE);
    assert ow[b] == Slot(i, k) && ow[c] == Slot(j, x / BSIZE);
    hide Used, Ptr, Owned;
  }

  /** `w` is `v` after the first `n` bytes of `src` have been stored at offset `off` of inode `i`:
      those bytes read back, every other mapped byte of every file is unchanged, and no block moved. */
  ghost predicate Written(v: Vol, ow: Owners, w: Vol, ow': Owners, i: nat, off: nat, src: seq<Byte>, n: nat)
  {
    && Owned(v, ow) && Owned(w, ow') && w.sb == v.sb && w.inodes.Keys == v.inodes.Keys
    && n <= |src| && off + |src| <= MAXFILE * BSIZE
    && (forall j :: j in v.inodes ==> w.inodes[j].size == v.inodes[j].size && (j != i ==> w.inodes[j] == v.inodes[j]))
    && (forall j, k :: j in v.inodes && 0 <= k <= MAXFILE && (j != i || Ptr(v, j, k) != 0) ==>
          Ptr(w, j, k) == Ptr(v, j, k))
    && (forall j: nat, x: nat :: Mapped(v, j, x) && !(j == i && off <= x < off + n) ==>
          Mapped(w, j, x) && At(w, j, x) == At(v, j, x))
    && (forall x: nat :: off <= x < off + n ==> Mapped(w, i, x) && At(w, i, x) == src[x - off])
  }

  lemma WrittenNone(v: Vol, ow: Owners, i: nat, off: nat, src: seq<Byte>)
    requires Owned(v, ow) && off + |src| <= MAXFILE * BSIZE
    ensures Written(v, ow, v, ow, i, off, src, 0)
  {
    hide Ptr, Used, Owned, At;
  }

  lemma WrittenGrown(v: Vol, ow: Owners, u: Vol, ow1: Owners, w: Vol, ow2: Owners, i: nat, off: nat, src: seq<Byte>,
                     n: nat)
    requires Written(v, ow, u, ow1, i, off, src, n) && Grown(u, ow1, w, ow2, i)
    ensures Written(v, ow, w, ow2, i, off, src, n)
  {
    hide Ptr, Used, Owned, At;
  }

  lemma SameBlock(a: nat, x: nat)
    requires a <= x && a % BSIZE + (x - a) < BSIZE
    ensures x / BSIZE == a / BSIZE && x % BSIZE == a % BSIZE + (x - a)
  {
  }

  lemma WrittenPut(v: Vol, ow: Owners, u: Vol, ow1: Owners, i: nat, off: nat, src: seq<Byte>, n: nat, m: nat)
    requires Written(v, ow, u, ow1, i, off, src, n) && i in v.inodes && n + m <= |src|
    requires 0 < m && (off + n) % BSIZE + m <= BSIZE && Ptr(u, i, (off + n) / BSIZE) != 0
    ensures Ptr(u, i, (off + n) / BSIZE) < u.sb.size
    ensures Written(v, ow, PutData(u, Ptr(u, i, (off + n) / BSIZE), (off + n) % BSIZE, src[n..n + m]), ow1, i, off,
            src, n + m)
  {
    hide Ptr, Used, Owned, At, PutData, Written, Shape;
    var a := off + n;
    WrittenOwned(v, ow, u, ow1, i, off, src, n);
    MappedRange(u, ow1, i, a / BSIZE);
    PutDataOwned(u, ow1, i, a / BSIZE, a % BSIZE, src[n..n + m]);
    var w := PutData(u, Ptr(u, i, a / BSIZE), a % BSIZE, src[n..n + m]);
    assert Shape(w) by { OwnedShape(w, ow1); }
    forall j: nat, x: nat | Mapped(u, j, x)
      ensures Mapped(w, j, x) && At(w, j, x) == if j == i && a <= x < a + m then src[x - off] else At(u, j, x)
    {
      WrittenPutAt(u, ow1, i, off, src, n, m, j, x);
    }
    forall x | a <= x < a + m ensures Mapped(u, i, x) {
      SameBlock(a, x);
    }
    WrittenStep(v, ow, u, ow1, w, i, off, src, n, m);
  }

  lemma WrittenOwned(v: Vol, ow: Owners, w: Vol, ow': Owners, i: nat, off: nat, src: seq<Byte>, n: nat)
    requires Written(v, ow, w, ow', i, off, src, n) && i in v.inodes
    ensures Owned(w, ow') && Shape(w) && i in w.inodes && off + |src| <= MAXFILE * BSIZE
  {
    hide Ptr, Used, At;
  }

  lemma WrittenPutAt(u: Vol, ow: Owners, i: nat, off: nat, src: seq<Byte>, n: nat, m: nat, j: nat, x: nat)
    requires Owned(u, ow) && i in u.inodes && n + m <= |src| && off + |src| <= MAXFILE * BSIZE
    requires 0 < m && (off + n) % BSIZE + m <= BSIZE && 0 < Ptr(u, i, (off + n) / BSIZE) < u.sb.size
    requires Mapped(u, j, x)
    ensures var w := PutData(u, Ptr(u, i, (off + n) / BSIZE), (off + n) % BSIZE, src[n..n + m]);
            && Owned(w, ow) && Mapped(w, j, x)
            && At(w, j, x) == if j == i && off + n <= x < off + n + m then src[x - off] else At(u, j, x)
  {
    hide Ptr, Used, Owned, At, PutData;
    var a := off + n;
    PutDataAt(u, ow, i, a / BSIZE, a % BSIZE, src[n..n + m], j, x);
    if a <= x < a + m {
      SameBlock(a, x);
    }
  }

  lemma WrittenStep(v: Vol, ow: Owners, u: Vol, ow1: Owners, w: Vol, i: nat, off: nat, src: seq<Byte>, n: nat, m: nat)
    requires Written(v, ow, u, ow1, i, off, src, n) && n + m <= |src| && i in v.inodes
    requires Owned(w, ow1) && w.sb == u.sb && w.inodes == u.inodes
    requires forall j, l :: j in u.inodes && 0 <= l <= MAXFILE ==> Ptr(w, j, l) == Ptr(u, j, l)
    requires forall j: nat, x: nat :: Mapped(u, j, x) ==>
               Mapped(w, j, x) && At(w, j, x) == if j == i && off + n <= x < off + n + m then src[x - off]
                 else At(u, j, x)
    requires forall x: nat :: off + n <= x < off + n + m ==> Mapped(u, i, x)
    ensures Written(v, ow, w, ow1, i, off, src, n + m)
  {
    hide Ptr, Used, Owned, At;
  }

  // ---------------------------------------------------------------- sizes

  function Max(a: nat, b: nat): nat { if a < b then b else a }

  function Resize(v: Vol, i: nat, size: nat): Vol
    requires i in v.inodes
  {
    v.(inodes := v.inodes[i := v.inodes[i].(size := size)])
  }

  lemma ResizeFrame(v: Vol, ow: Owners, i: nat, size: nat)
    requires Owned(v, ow) && i in v.inodes
    ensures var w := Resize(v, i, size);
            && Owned(w, ow) && w.inodes.Keys == v.inodes.Keys
            && (forall j, k :: j in v.inodes && 0 <= k <= MAXFILE ==> Ptr(w, j, k) == Ptr(v, j, k))
            && (forall j: nat, x: nat :: Mapped(v, j, x) ==> Mapped(w, j, x) && At(w, j, x) == At(v, j, x))
  {
    var w := Resize(v, i, size);
    forall j | j in w.inodes ensures InodeShape(w, j) { assert InodeShape(v, j); }
    assert Shape(w);
    forall j, k | j in v.inodes && 0 <= k <= MAXFILE ensures Ptr(w, j, k) == Ptr(v, j, k) {}
    forall c | 0 <= c < v.sb.size ensures Used(w, c) == Used(v, c) {}
    hide Ptr, Used;
  }

  lemma BlockIndex(size: nat, k: nat)
    ensures k < NBlocks(size) <==> k * BSIZE < size
    ensures (k * BSIZE) / BSIZE == k
  {
  }

  /** Extending the size to the end of what was written keeps every block below it mapped. */
  lemma WrittenDense(v: Vol, ow: Owners, w: Vol, ow': Owners, i: nat, off: nat, src: seq<Byte>, n: nat, r: nat)
    requires Valid(v, ow) && i in v.inodes && off <= v.inodes[i].size
    requires Written(v, ow, w, ow', i, off, src, n) && r <= n
    ensures Valid(Resize(w, i, Max(v.inodes[i].size, off + r)), ow')
  {
    var size := Max(v.inodes[i].size, off + r);
    ResizeFrame(w, ow', i, size);
    var z := Resize(w, i, size);
    hide Ptr, Used, Owned, At;
    forall k | 0 <= k < NBlocks(size) ensures Ptr(z, i, k) != 0 {
      BlockIndex(size, k);
      BlockIndex(v.inodes[i].size, k);
      if k >= NBlocks(v.inodes[i].size) {
        assert Mapped(w, i, k * BSIZE);
      }
    }
  }

  /** The file of inode `i` as a sequence of bytes. */
  ghost function File(v: Vol, ow: Owners, i: nat): (f: seq<Byte>)
    requires Valid(v, ow) && i in v.inodes
    ensures |f| == v.inodes[i].size
  {
    seq(v.inodes[i].size, x requires 0 <= x < v.inodes[i].size => InFile(v, ow, i, x); At(v, i, x))
  }

  lemma InFile(v: Vol, ow: Owners, i: nat, x: nat)
    requires Valid(v, ow) && i in v.inodes && x < v.inodes[i].size
    ensures Mapped(v, i, x)
  {
    assert x / BSIZE < NBlocks(v.inodes[i].size);
    MappedRange(v, ow, i, x / BSIZE);
    hide Ptr, Owned;
  }

  lemma FileAt(v: Vol, ow: Owners, i: nat, x: nat)
    requires Valid(v, ow) && i in v.inodes && x < v.inodes[i].size
    ensures Mapped(v, i, x) && File(v, ow, i)[x] == At(v, i, x)
  {
    InFile(v, ow, i, x);
    hide Ptr, Owned;
  }

  /** Sequence `f` with the bytes `s` laid over it from `off` on, cut to length `len`. */
  function Spliced(f: seq<Byte>, off: nat, s: seq<Byte>, len: nat): seq<Byte>
    requires off <= |f| && (len <= |f| || len <= off + |s|)
  {
    seq(len, x requires 0 <= x < len => if off <= x < off + |s| then s[x - off] else f[x])
  }

  // ---------------------------------------------------------------- truncation

  /** `w` is `v` after itrunc has freed the slots of inode `i` below `p`: their bits are clear, direct
      slots are zero, and nothing else has changed. Slots run from the direct ones through the entries of
      the indirect block to the indirect block itself, which is the order itrunc frees them in. */
  ghost predicate Truncating(v: Vol, ow: Owners, w: Vol, i: nat, p: nat)
  {
    && Owned(v, ow) && Shape(w) && w.sb == v.sb && w.inodes.Keys == v.inodes.Keys && i in v.inodes
    && (forall j :: j in v.inodes && j != i ==> w.inodes[j] == v.inodes[j])
    && w.inodes[i].size == v.inodes[i].size
    && (forall k :: 0 <= k <= NDIRECT ==> w.inodes[i].addrs[k] == if k < p && k < NDIRECT then 0
          else v.inodes[i].addrs[k])
    && (forall c :: v.sb.DataStart() <= c < v.sb.size ==> w.blocks[c] == v.blocks[c])
    && (forall b :: 0 <= b < v.sb.size ==> (Used(w, b) <==> Used(v, b) && !(b in ow && ow[b].inum == i && ow[b].k < p)))
  }

  lemma TruncatingStart(v: Vol, ow: Owners, i: nat)
    requires Owned(v, ow) && i in v.inodes
    ensures Truncating(v, ow, v, i, 0)
  {
    hide Used, Ptr;
    assert InodeShape(v, i);
  }

  /** A slot that holds nothing frees nothing. */
  lemma TruncatingSkip(v: Vol, ow: Owners, w: Vol, i: nat, p: nat)
    requires Truncating(v, ow, w, i, p) && p <= MAXFILE && Ptr(v, i, p) == 0
    ensures Truncating(v, ow, w, i, p + 1)
  {
    assert p < NDIRECT ==> v.inodes[i].addrs[p] == 0;
    hide Used, Ptr;
    assert forall b :: b in ow ==> ow[b] != Slot(i, p);
  }

  /** The next occupied slot is marked used, so bfree does not panic, and freeing it keeps the state. */
  lemma TruncatingFree(v: Vol, ow: Owners, w: Vol, i: nat, p: nat)
    requires Truncating(v, ow, w, i, p) && p <= MAXFILE && Ptr(v, i, p) != 0
    ensures Ptr(v, i, p) < w.sb.size && Used(w, Ptr(v, i, p)) && i in w.inodes
    ensures Shape(w) && Shape(SetUsed(w, Ptr(v, i, p), false))
    ensures SetUsed(w, Ptr(v, i, p), false).sb == w.sb && SetUsed(w, Ptr(v, i, p), false).inodes == w.inodes
    ensures var u := SetUsed(w, Ptr(v, i, p), false);
            Truncating(v, ow, if p < NDIRECT then SetPtr(u, i, p, 0) else u, i, p + 1)
  {
    hide BlockBit, WithBlockBit, GetWord;
    var b := Ptr(v, i, p);
    assert b in ow && ow[b] == Slot(i, p);
    BBlockRange(v.sb, b);
    var u := SetUsed(w, b, false);
    FreeUsed(w, b);
    SetPtrShape(u, i, if p < NDIRECT then p else INDIRECT, 0);
    var z := if p < NDIRECT then SetPtr(u, i, p, 0) else u;
    TruncatingUsed(v, ow, w, u, z, i, p, b);
    hide Used, Ptr;
  }

  lemma FreeUsed(w: Vol, b: nat)
    requires Shape(w) && b < w.sb.size
    ensures Shape(SetUsed(w, b, false))
    ensures forall c :: 0 <= c < w.sb.size ==> Used(SetUsed(w, b, false), c) == (c != b && Used(w, c))
    ensures forall c :: w.sb.DataStart() <= c < w.sb.size ==> SetUsed(w, b, false).blocks[c] == w.blocks[c]
  {
    BBlockRange(w.sb, b);
    UsedSet(w, b, false, b);
    forall c | 0 <= c < w.sb.size ensures Used(SetUsed(w, b, false), c) == (c != b && Used(w, c)) {
      UsedSet(w, b, false, c);
    }
  }

  lemma TruncatingUsed(v: Vol, ow: Owners, w: Vol, u: Vol, z: Vol, i: nat, p: nat, b: nat)
    requires Truncating(v, ow, w, i, p) && b in ow && ow[b] == Slot(i, p) && b < v.sb.size
    requires Shape(u) && Shape(z) && u.sb == z.sb == w.sb && z.blocks == u.blocks
    requires forall c :: 0 <= c < w.sb.size ==> Used(u, c) == (c != b && Used(w, c))
    ensures forall c :: 0 <= c < v.sb.size ==>
              (Used(z, c) <==> Used(v, c) && !(c in ow && ow[c].inum == i && ow[c].k < p + 1))
  {
    forall c | 0 <= c < v.sb.size ensures Used(z, c) == Used(u, c) {}
    hide Used, Ptr;
    assert forall c :: c in ow && ow[c] == Slot(i, p) ==> c == b;
  }

  function Emptied(w: Vol, i: nat): Vol
    requires i in w.inodes
  {
    w.(inodes := w.inodes[i := Inode(seq(NDIRECT + 1, _ => 0), 0)])
  }

  function Without(ow: Owners, i: nat): Owners
  {
    map b | b in ow && ow[b].inum != i :: ow[b]
  }

  /** `z` is `v` with file `i` emptied: exactly its blocks are freed, its slots are empty, and no other
      inode or file changes. */
  ghost predicate Truncated(v: Vol, ow: Owners, z: Vol, ow': Owners, i: nat)
  {
    && Valid(v, ow) && Valid(z, ow') && z.sb == v.sb && z.inodes.Keys == v.inodes.Keys && i in v.inodes
    && ow' == Without(ow, i) && z.inodes[i] == Inode(seq(NDIRECT + 1, _ => 0), 0)
    && (forall j :: j in v.inodes && j != i ==> z.inodes[j] == v.inodes[j] && File(z, ow', j) == File(v, ow, j))
    && (forall b :: 0 <= b < v.sb.size ==> (Used(z, b) <==> Used(v, b) && !(b in ow && ow[b].inum == i)))
  }

  lemma EmptiedPtr(v: Vol, ow: Owners, w: Vol, i: nat, j: nat, k: nat)
    requires Truncating(v, ow, w, i, MAXFILE + 1) && j in v.inodes && k <= MAXFILE
    ensures Shape(Emptied(w, i)) && Ptr(Emptied(w, i), j, k) == if j == i then 0 else Ptr(v, j, k)
  {
    var z := Emptied(w, i);
    forall l | l in z.inodes ensures InodeShape(z, l) { assert l != i ==> InodeShape(w, l); }
    if j != i && Ptr(v, j, INDIRECT) != 0 {
      IndirectOwner(v, ow, j);
    }
    hide Used, GetWord;
  }

  lemma EmptiedOwned(v: Vol, ow: Owners, w: Vol, i: nat)
    requires Truncating(v, ow, w, i, MAXFILE + 1)
    ensures Owned(Emptied(w, i), Without(ow, i))
    ensures forall j, k :: j in v.inodes && 0 <= k <= MAXFILE ==>
            Ptr(Emptied(w, i), j, k) == if j == i then 0 else Ptr(v, j, k)
    ensures forall b :: 0 <= b < v.sb.size ==> (Used(Emptied(w, i), b) <==> Used(v, b) && !(b in ow && ow[b].inum == i))
  {
    var z := Emptied(w, i);
    EmptiedPtr(v, ow, w, i, i, 0);
    forall j, k | j in v.inodes && 0 <= k <= MAXFILE ensures Ptr(z, j, k) == if j == i then 0 else Ptr(v, j, k) {
      EmptiedPtr(v, ow, w, i, j, k);
    }
    forall b | 0 <= b < v.sb.size ensures Used(z, b) == Used(w, b) {}
    assert z.inodes.Keys == v.inodes.Keys;
    OwnedWithout(v, ow, w, z, i);
  }

  lemma OwnedWithout(v: Vol, ow: Owners, w: Vol, z: Vol, i: nat)
    requires Truncating(v, ow, w, i, MAXFILE + 1) && Shape(z) && z.sb == v.sb && z.inodes.Keys == v.inodes.Keys
    requires forall j, k :: j in v.inodes && 0 <= k <= MAXFILE ==> Ptr(z, j, k) == if j == i then 0 else Ptr(v, j, k)
    requires forall b :: 0 <= b < v.sb.size ==> Used(z, b) == Used(w, b)
    ensures Owned(z, Without(ow, i))
  {
    hide Used, Ptr, Shape;
  }

  lemma EmptiedFile(v: Vol, ow: Owners, w: Vol, i: nat, j: nat)
    requires Valid(v, ow) && Truncating(v, ow, w, i, MAXFILE + 1) && j in v.inodes && j != i
    ensures Valid(Emptied(w, i), Without(ow, i)) && File(Emptied(w, i), Without(ow, i), j) == File(v, ow, j)
  {
    var z, ow' := Emptied(w, i), Without(ow, i);
    EmptiedOwned(v, ow, w, i);
    EmptiedValid(v, ow, w, i);
    hide Ptr, Used;
    forall x | 0 <= x < v.inodes[j].size ensures File(z, ow', j)[x] == File(v, ow, j)[x] {
      FileAt(v, ow, j, x);
      FileAt(z, ow', j, x);
      assert Ptr(v, j, x / BSIZE) in ow;
    }
    hide Valid, File;
    assert |File(z, ow', j)| == |File(v, ow, j)|;
  }

  lemma TruncatingDone(v: Vol, ow: Owners, w: Vol, i: nat)
    requires Valid(v, ow) && Truncating(v, ow, w, i, MAXFILE + 1)
    ensures Truncated(v, ow, Emptied(w, i), Without(ow, i), i)
  {
    hide Ptr, Used, File, Owned, Shape;
    EmptiedOwned(v, ow, w, i);
    EmptiedValid(v, ow, w, i);
    forall j | j in v.inodes && j != i ensures File(Emptied(w, i), Without(ow, i), j) == File(v, ow, j) {
      EmptiedFile(v, ow, w, i, j);
    }
    hide Valid;
  }

  lemma EmptiedValid(v: Vol, ow: Owners, w: Vol, i: nat)
    requires Valid(v, ow) && Truncating(v, ow, w, i, MAXFILE + 1)
    ensures Valid(Emptied(w, i), Without(ow, i))
  {
    EmptiedOwned(v, ow, w, i);
    hide Ptr, Used, Owned;
  }
}
