/** copyin, copyout and copyinstr (kernel/vm.c): page-sized chunks that act like a byte-wise translation. */
module CopyUser {
  import opened Bytes
  import opened PageTable
  import opened UserMemory

  /** The entry for the page of `va` if it is a user page, else 0. */
  ghost predicate Readable(m: Mem, t: Tree, va: nat)
    requires Wf(m, t)
  {
    va < MAXVA && IsV(PteAt(m, t, va / PGSIZE)) && IsU(PteAt(m, t, va / PGSIZE))
  }

  ghost predicate Writable(m: Mem, t: Tree, va: nat)
    requires Wf(m, t)
  {
    Readable(m, t, va) && IsW(PteAt(m, t, va / PGSIZE))
  }

  /** User pages have allocated frames, and different pages have different frames. */
  ghost predicate UserPages(m: Mem, t: Tree)
  {
    && Sound(m) && Wf(m, t)
    && (forall va: nat :: Readable(m, t, va) ==> FrameOf(m, t, va / PGSIZE) in m.data)
    && (forall va: nat, vb: nat :: Readable(m, t, va) && Readable(m, t, vb) && va / PGSIZE != vb / PGSIZE ==>
          FrameOf(m, t, va / PGSIZE) != FrameOf(m, t, vb / PGSIZE))
  }

  ghost function PageAt(m: Mem, t: Tree, va: nat): Page
    requires UserPages(m, t) && Readable(m, t, va)
  {
    m.data[FrameOf(m, t, va / PGSIZE)]
  }

  /** The byte that user code sees at `va`. */
  ghost function ByteAt(m: Mem, t: Tree, va: nat): Byte
    requires UserPages(m, t) && Readable(m, t, va)
  {
    PageAt(m, t, va)[va % PGSIZE]
  }

  // ---------------------------------------------------------------- copyin

  ghost predicate Sees(m: Mem, t: Tree, va: nat, b: Byte)
    requires UserPages(m, t)
  {
    Readable(m, t, va) && ByteAt(m, t, va) == b
  }

  /** `dst` holds the first bytes from `va` on. */
  ghost predicate Reads(m: Mem, t: Tree, va: nat, dst: seq<Byte>)
    requires UserPages(m, t)
  {
    forall i: nat :: i < |dst| ==> Sees(m, t, va + i, dst[i])
  }

  /** All addresses of a page translate alike. */
  lemma SamePage(m: Mem, t: Tree, va: nat, off: nat)
    requires UserPages(m, t) && va % PGSIZE + off < PGSIZE && va < MAXVA
    ensures (va + off) / PGSIZE == va / PGSIZE && (va + off) % PGSIZE == va % PGSIZE + off && va + off < MAXVA
    ensures Readable(m, t, va) <==> Readable(m, t, va + off)
    ensures Writable(m, t, va) <==> Writable(m, t, va + off)
    ensures Readable(m, t, va) ==>
              ByteAt(m, t, va + off) == PageAt(m, t, va)[va % PGSIZE + off]
  {
    hide PteAt, FrameOf, Wf, Sound, IsV, IsU, IsW;
  }

  lemma ReadChunk(m: Mem, t: Tree, va: nat, dst: seq<Byte>, n: nat)
    requires UserPages(m, t) && Reads(m, t, va, dst) && Readable(m, t, va + |dst|)
    requires (va + |dst|) % PGSIZE + n <= PGSIZE
    ensures var off := (va + |dst|) % PGSIZE; Reads(m, t, va, dst + PageAt(m, t, va + |dst|)[off..off + n])
  {
    hide PteAt, FrameOf, Wf, Sound, Readable, UserPages, PageAt;
    UserPagesWf(m, t);
    var at := va + |dst|;
    ReadableBelow(m, t, at);
    var out := dst + PageAt(m, t, at)[at % PGSIZE..at % PGSIZE + n];
    forall i: nat | i < |out| ensures Sees(m, t, va + i, out[i]) {
      if i < |dst| {
        assert out[i] == dst[i];
      } else {
        SamePage(m, t, at, i - |dst|);
        assert at + (i - |dst|) == va + i;
      }
    }
  }

  lemma ReadableBelow(m: Mem, t: Tree, va: nat)
    requires Wf(m, t) && Readable(m, t, va)
    ensures va < MAXVA
  {
  }

  lemma FrameAllocated(m: Mem, t: Tree, va: nat)
    requires UserPages(m, t) && Readable(m, t, va)
    ensures Wf(m, t) && FrameOf(m, t, va / PGSIZE) in m.data && FrameOf(m, t, va / PGSIZE) != 0
    ensures m.data[FrameOf(m, t, va / PGSIZE)] == PageAt(m, t, va)
  {
    hide PteAt, FrameOf, Wf;
  }

  /** walkaddr: the frame of a user page, or 0. */
  method WalkAddr(mem: Memory, ghost t: Tree, root: nat, va: nat) returns (f: nat)
    requires UserPages(mem.m, t) && root == t.root
    modifies mem
    ensures mem.m == old(mem.m)
    ensures f == if Readable(mem.m, t, va) then FrameOf(mem.m, t, va / PGSIZE) else 0
  {
    hide PteAt, FrameOf, Wf, Sound, IsV, IsU, UserPages, Walking, Path, Index, Ppn, Readable;
    assert Sound(mem.m) && Wf(mem.m, t) by { UserPagesWf(mem.m, t); }
    if va >= MAXVA {
      assert !Readable(mem.m, t, va) by { if Readable(mem.m, t, va) { ReadableBelow(mem.m, t, va); } }
      return 0;
    }
    ghost var m0 := mem.m;
    var w, t' := mem.Walk(t, root, va, false);
    ReadableIs(m0, t, va);
    if !w.At? {
      AbsentInvalid(m0, t, va / PGSIZE);
      return 0;
    }
    SlotIsPte(m0, t, mem.m, t, va, false, w);
    var pte := mem.m.tables[w.frame][w.index];
    if !IsV(pte) {
      return 0;
    }
    if !IsU(pte) {
      return 0;
    }
    FrameIs(m0, t, va / PGSIZE);
    f := Ppn(pte);
  }

  lemma UserPagesWf(m: Mem, t: Tree)
    requires UserPages(m, t)
    ensures Sound(m) && Wf(m, t)
  {
  }

  lemma ReadableIs(m: Mem, t: Tree, va: nat)
    requires Wf(m, t)
    ensures Readable(m, t, va) <==> va < MAXVA && IsV(PteAt(m, t, va / PGSIZE)) && IsU(PteAt(m, t, va / PGSIZE))
  {
  }

  function PgRoundDown(va: nat): nat { va / PGSIZE * PGSIZE }

  /** copyin succeeds exactly when every byte is readable, and then returns exactly those bytes; otherwise it
      has copied the bytes before the first unreadable one. */
  method CopyIn(mem: Memory, ghost t: Tree, root: nat, srcva: nat, len: nat) returns (ok: bool, dst: seq<Byte>)
    requires UserPages(mem.m, t) && root == t.root
    modifies mem
    ensures mem.m == old(mem.m) && Reads(mem.m, t, srcva, dst) && |dst| <= len
    ensures ok <==> |dst| == len
    ensures !ok ==> !Readable(mem.m, t, srcva + |dst|)
  {
    hide PteAt, FrameOf, Wf, Sound, UserPages, Readable, ByteAt, PageAt;
    dst := [];
    UserPagesWf(mem.m, t);
    var va, left := srcva, len;
    while left > 0
      invariant mem.m == old(mem.m) && left >= 0 && left + |dst| == len && Reads(mem.m, t, srcva, dst)
      invariant left > 0 ==> va == srcva + |dst|
    {
      var va0 := PgRoundDown(va);
      ChunkBounds(va);
      var f := WalkAddr(mem, t, root, va0);
      assert Readable(mem.m, t, va0) <==> Readable(mem.m, t, va) by { PageStart(mem.m, t, va); }
      if f == 0 {
        assert !Readable(mem.m, t, va) by { if Readable(mem.m, t, va) { FrameAllocated(mem.m, t, va0); } }
        return false, dst;
      }
      var n := PGSIZE - (va - va0);
      if n > left {
        n := left;
      }
      FrameAllocated(mem.m, t, va);
      ReadChunk(mem.m, t, srcva, dst, n);
      dst := dst + mem.m.data[f][va - va0..va - va0 + n];
      left := left - n;
      va := va0 + PGSIZE;
    }
    ok := true;
  }

  lemma ChunkBounds(va: nat)
    ensures PgRoundDown(va) <= va < PgRoundDown(va) + PGSIZE && va - PgRoundDown(va) == va % PGSIZE
    ensures PgRoundDown(va) / PGSIZE == va / PGSIZE
  {
  }

  lemma PageStart(m: Mem, t: Tree, va: nat)
    requires UserPages(m, t)
    ensures Wf(m, t) && (Readable(m, t, PgRoundDown(va)) <==> Readable(m, t, va))
  {
    hide PteAt, Wf, Sound;
    ChunkBounds(va);
    assert PgRoundDown(va) < MAXVA <==> va < MAXVA;
  }

  // ---------------------------------------------------------------- copyout

  ghost predicate Takes(m0: Mem, m: Mem, t: Tree, va: nat, b: Byte)
    requires UserPages(m0, t) && UserPages(m, t)
  {
    Writable(m0, t, va) && Sees(m, t, va, b)
  }

  /** The address space after writing `bytes` at `va`: those bytes change and no other. */
  ghost predicate Wrote(m0: Mem, m: Mem, t: Tree, va: nat, bytes: seq<Byte>)
  {
    && UserPages(m0, t) && UserPages(m, t)
    && m.tables == m0.tables && m.free == m0.free && m.data.Keys == m0.data.Keys
    && (forall i: nat :: i < |bytes| ==> Takes(m0, m, t, va + i, bytes[i]))
    && (forall a: nat :: Readable(m0, t, a) && !(va <= a < va + |bytes|) ==> Sees(m, t, a, ByteAt(m0, t, a)))
  }

  /** memmove into one page. */
  function Stored(m: Mem, f: nat, off: nat, bytes: seq<Byte>): Mem
    requires f in m.data && off + |bytes| <= PGSIZE
  {
    m.(data := m.data[f := m.data[f][..off] + bytes + m.data[f][off + |bytes|..]])
  }

  /** Writing data leaves the page table alone. */
  lemma StoredPages(m: Mem, t: Tree, f: nat, off: nat, bytes: seq<Byte>)
    requires UserPages(m, t) && f in m.data && off + |bytes| <= PGSIZE
    ensures var m' := Stored(m, f, off, bytes);
            && UserPages(m', t) && SameMap(m, t, m', t)
            && (forall a: nat :: Readable(m', t, a) <==> Readable(m, t, a))
  {
    hide PteAt, IsV, IsU;
    var m' := Stored(m, f, off, bytes);
    assert Sound(m') && Frames(m') == Frames(m);
    hide Sound, Frames, Wf;
    TablesFrame(m, m', t);
    forall a: nat ensures Readable(m', t, a) <==> Readable(m, t, a) {
      if a < MAXVA { assert a / PGSIZE < MAXVPN; }
    }
    forall a: nat | Readable(m, t, a) ensures FrameOf(m', t, a / PGSIZE) == FrameOf(m, t, a / PGSIZE) {
      assert a / PGSIZE < MAXVPN;
    }
  }

  /** What one memmove does to the bytes that user code sees. */
  lemma StoredByte(m: Mem, t: Tree, at: nat, bytes: seq<Byte>, a: nat)
    requires UserPages(m, t) && Readable(m, t, at) && Readable(m, t, a) && at % PGSIZE + |bytes| <= PGSIZE
    requires FrameOf(m, t, at / PGSIZE) in m.data
    ensures var m' := Stored(m, FrameOf(m, t, at / PGSIZE), at % PGSIZE, bytes);
            && UserPages(m', t) && Readable(m', t, a)
            && ByteAt(m', t, a) == if at <= a < at + |bytes| then bytes[a - at] else ByteAt(m, t, a)
  {
    hide PteAt, IsV, IsU, Sound, Wf;
    var f, off := FrameOf(m, t, at / PGSIZE), at % PGSIZE;
    var m' := Stored(m, f, off, bytes);
    StoredPages(m, t, f, off, bytes);
    assert a / PGSIZE < MAXVPN;
    assert FrameOf(m', t, a / PGSIZE) == FrameOf(m, t, a / PGSIZE);
    hide FrameOf;
    Within1(at, |bytes|, a);
    if a / PGSIZE != at / PGSIZE {
      assert FrameOf(m, t, a / PGSIZE) != f;
    }
  }

  /** An address is in the chunk exactly when it is in the page and its offset is in the chunk. */
  lemma Within1(at: nat, n: nat, a: nat)
    requires at % PGSIZE + n <= PGSIZE
    ensures at <= a < at + n <==> a / PGSIZE == at / PGSIZE && at % PGSIZE <= a % PGSIZE < at % PGSIZE + n
    ensures a / PGSIZE == at / PGSIZE ==> a % PGSIZE - at % PGSIZE == a - at
  {
  }

  lemma WroteNothing(m: Mem, t: Tree, va: nat)
    requires UserPages(m, t)
    ensures Wrote(m, m, t, va, [])
  {
    hide UserPages, Readable, ByteAt;
  }

  lemma WroteWf(m0: Mem, m: Mem, t: Tree, va: nat, bytes: seq<Byte>)
    requires Wrote(m0, m, t, va, bytes)
    ensures UserPages(m0, t) && UserPages(m, t) && Wf(m0, t) && Wf(m, t) && Sound(m) && SameMap(m0, t, m, t)
    ensures forall a: nat :: Readable(m, t, a) <==> Readable(m0, t, a)
    ensures forall a: nat :: Writable(m, t, a) <==> Writable(m0, t, a)
  {
    hide PteAt, IsV, IsU, IsW, Sound, Wf, ByteAt, Frames;
    TreeInTables(m0, t);
    TreeFrame(m0, m, t);
    forall a: nat ensures (Readable(m, t, a) <==> Readable(m0, t, a)) && (Writable(m, t, a) <==> Writable(m0, t, a)) {
      if a < MAXVA { assert a / PGSIZE < MAXVPN; }
    }
  }

  lemma WriteChunk(m0: Mem, m: Mem, t: Tree, va: nat, done: seq<Byte>, chunk: seq<Byte>)
    requires Wrote(m0, m, t, va, done) && Writable(m0, t, va + |done|)
    requires (va + |done|) % PGSIZE + |chunk| <= PGSIZE
    ensures var at := va + |done|;
            && Wf(m, t) && FrameOf(m, t, at / PGSIZE) in m.data
            && Wrote(m0, Stored(m, FrameOf(m, t, at / PGSIZE), at % PGSIZE, chunk), t, va, done + chunk)
  {
    hide PteAt, IsV, IsU, IsW, Sound, Wf, ByteAt, Frames, UserPages, FrameOf, Readable;
    var at := va + |done|;
    WroteWf(m0, m, t, va, done);
    FrameAllocated(m, t, at);
    var f, off := FrameOf(m, t, at / PGSIZE), at % PGSIZE;
    var m' := Stored(m, f, off, chunk);
    StoredPages(m, t, f, off, chunk);
    var all := done + chunk;
    forall i: nat | i < |all| ensures Takes(m0, m', t, va + i, all[i]) {
      if i < |done| {
        assert Takes(m0, m, t, va + i, done[i]);
      } else {
        ReadableBelow(m0, t, at);
        SamePage(m0, t, at, i - |done|);
        assert at + (i - |done|) == va + i;
      }
      StoredByte(m, t, at, chunk, va + i);
    }
    forall a: nat | Readable(m0, t, a) && !(va <= a < va + |all|) ensures Sees(m', t, a, ByteAt(m0, t, a)) {
      assert Sees(m, t, a, ByteAt(m0, t, a));
      StoredByte(m, t, at, chunk, a);
    }
  }

  /** copyout succeeds exactly when every byte is writable by the user; the bytes written are the first `k`
      of `src`, all of them on success, those before the first unwritable one otherwise. */
  method CopyOut(mem: Memory, ghost t: Tree, root: nat, dstva: nat, src: seq<Byte>) returns (ok: bool, ghost k: nat)
    requires UserPages(mem.m, t) && root == t.root
    modifies mem
    ensures k <= |src| && Wrote(old(mem.m), mem.m, t, dstva, src[..k])
    ensures ok <==> k == |src|
    ensures !ok ==> Wf(old(mem.m), t) && !Writable(old(mem.m), t, dstva + k)
  {
    hide PteAt, IsV, IsU, IsW, Sound, Wf, ByteAt, Frames, UserPages, FrameOf, Wrote, Walking, Path, Index, Ppn;
    ghost var m0 := mem.m;
    WroteNothing(m0, t, dstva);
    UserPagesWf(m0, t);
    var va, done := dstva, 0;
    k := 0;
    assert src[..0] == [];
    while done < |src|
      invariant 0 <= done <= |src| && k == done && Wrote(m0, mem.m, t, dstva, src[..done])
      invariant done < |src| ==> va == dstva + done
    {
      var va0 := PgRoundDown(va);
      ChunkBounds(va);
      WroteWf(m0, mem.m, t, dstva, src[..done]);
      if va0 >= MAXVA {
        return false, k;
      }
      ghost var m1 := mem.m;
      var w, t' := mem.Walk(t, root, va0, false);
      if !w.At? {
        AbsentInvalid(m1, t, va / PGSIZE);
        SameAt(m0, t, m1, t, va / PGSIZE);
        return false, k;
      }
      SlotIsPte(m1, t, mem.m, t, va0, false, w);
      var pte := mem.m.tables[w.frame][w.index];
      SameAt(m0, t, m1, t, va / PGSIZE);
      if !IsV(pte) || !IsU(pte) || !IsW(pte) {
        return false, k;
      }
      var f := Ppn(pte);
      FrameIs(m1, t, va / PGSIZE);
      var n := PGSIZE - (va - va0);
      if n > |src| - done {
        n := |src| - done;
      }
      var chunk := src[done..done + n];
      assert src[..done] + chunk == src[..done + n];
      WriteChunk(m0, m1, t, dstva, src[..done], chunk);
      mem.m := Stored(mem.m, f, va - va0, chunk);
      done, k := done + n, done + n;
      va := va0 + PGSIZE;
    }
    ok := true;
  }

  /** Reading back what copyout wrote. */
  lemma CopyRoundTrip(m0: Mem, m: Mem, t: Tree, va: nat, src: seq<Byte>, ok: bool, dst: seq<Byte>)
    requires Wrote(m0, m, t, va, src)
    requires Reads(m, t, va, dst) && |dst| <= |src| && (ok <==> |dst| == |src|)
    requires !ok ==> Wf(m, t) && !Readable(m, t, va + |dst|)
    ensures ok && dst == src
  {
    hide PteAt, Wf, Sound, ByteAt, UserPages, FrameOf, Readable, Wrote;
    WroteWf(m0, m, t, va, src);
    if |dst| < |src| {
      WroteAt(m0, m, t, va, src, |dst|);
    }
    forall i: nat | i < |dst| ensures dst[i] == src[i] {
      assert Sees(m, t, va + i, dst[i]);
      WroteAt(m0, m, t, va, src, i);
    }
  }

  lemma WroteAt(m0: Mem, m: Mem, t: Tree, va: nat, src: seq<Byte>, i: nat)
    requires Wrote(m0, m, t, va, src) && i < |src|
    ensures UserPages(m, t) && Sees(m, t, va + i, src[i])
  {
    hide UserPages;
    assert Takes(m0, m, t, va + i, src[i]);
  }

  // ---------------------------------------------------------------- copyinstr

  ghost predicate NoNul(s: seq<Byte>) { forall i :: 0 <= i < |s| ==> s[i] != 0 }

  lemma ReadByte(m: Mem, t: Tree, va: nat, dst: seq<Byte>, off: nat)
    requires UserPages(m, t) && Reads(m, t, va, dst) && off <= |dst| && Readable(m, t, va + |dst| - off)
    requires (va + |dst| - off) % PGSIZE + off < PGSIZE
    ensures var at := va + |dst| - off;
            var b := PageAt(m, t, at)[at % PGSIZE + off];
            Sees(m, t, va + |dst|, b) && Reads(m, t, va, dst + [b])
  {
    hide PteAt, FrameOf, Wf, Sound, ByteAt, Readable, UserPages, PageAt;
    UserPagesWf(m, t);
    var at := va + |dst| - off;
    ReadableBelow(m, t, at);
    SamePage(m, t, at, off);
    assert at + off == va + |dst|;
    var b := PageAt(m, t, at)[at % PGSIZE + off];
    forall i: nat | i < |dst + [b]| ensures Sees(m, t, va + i, (dst + [b])[i]) {
      assert i < |dst| ==> (dst + [b])[i] == dst[i];
    }
  }

  /** copyinstr succeeds exactly when a NUL comes within `max` readable bytes, and then returns the string
      before the first NUL. */
  method CopyInStr(mem: Memory, ghost t: Tree, root: nat, srcva: nat, max: nat) returns (ok: bool, dst: seq<Byte>)
    requires UserPages(mem.m, t) && root == t.root
    modifies mem
    ensures mem.m == old(mem.m) && Reads(mem.m, t, srcva, dst) && NoNul(dst) && |dst| <= max
    ensures ok ==> |dst| < max && Sees(mem.m, t, srcva + |dst|, 0)
    ensures !ok ==> |dst| == max || (Wf(mem.m, t) && !Readable(mem.m, t, srcva + |dst|))
  {
    hide PteAt, FrameOf, Wf, Sound, UserPages, Readable, ByteAt, PageAt, Sees;
    UserPagesWf(mem.m, t);
    dst := [];
    var va, left, gotNul := srcva, max, false;
    while !gotNul && left > 0
      invariant mem.m == old(mem.m) && left >= 0 && left + |dst| == max && Reads(mem.m, t, srcva, dst) && NoNul(dst)
      invariant !gotNul && left > 0 ==> va == srcva + |dst|
      invariant gotNul ==> left > 0 && Sees(mem.m, t, srcva + |dst|, 0)
      decreases left, !gotNul
    {
      var va0 := PgRoundDown(va);
      ChunkBounds(va);
      var f := WalkAddr(mem, t, root, va0);
      PageStart(mem.m, t, va);
      if f == 0 {
        assert !Readable(mem.m, t, va) by { if Readable(mem.m, t, va) { FrameAllocated(mem.m, t, va0); } }
        return false, dst;
      }
      var n := PGSIZE - (va - va0);
      if n > left {
        n := left;
      }
      FrameAllocated(mem.m, t, va);
      var p := va - va0;
      ghost var n0, before := n, |dst|;
      while n > 0
        invariant 0 <= n <= n0 && n <= left && mem.m == old(mem.m) && left + |dst| == max
        invariant Reads(mem.m, t, srcva, dst) && NoNul(dst) && !gotNul
        invariant |dst| == before + (n0 - n) && p == va % PGSIZE + (n0 - n)
      {
        ReadByte(mem.m, t, srcva, dst, |dst| - before);
        if mem.m.data[f][p] == 0 {
          gotNul := true;
          break;
        }
        dst := dst + [mem.m.data[f][p]];
        n, left, p := n - 1, left - 1, p + 1;
      }
      va := va0 + PGSIZE;
    }
    ok := gotNul;
  }
}
