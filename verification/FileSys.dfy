/** The block and inode routines of kernel/fs.c, updating the volume in place. */
module FileSys {
  import opened Bytes
  import opened Space
  import opened Volume

  datatype Outcome = Ok | Panic(message: string)

  const MAXOPBLOCKS: nat := 10

  /** The most that filewrite passes to one call of writei. */
  const CHUNK: nat := ((MAXOPBLOCKS - 1 - 1 - 2) / 2) * BSIZE

  lemma UsedAt(vol: Vol, b: nat, bi: nat)
    requires Shape(vol) && b % BPB == 0 && bi < BPB && b + bi < vol.sb.size
    ensures vol.sb.BBlock(b) < vol.sb.size
    ensures Used(vol, b + bi) == BlockBit(vol.blocks[vol.sb.BBlock(b)], bi)
  {
    BBlockRange(vol.sb, b);
    assert vol.sb.BBlock(b + bi) == vol.sb.BBlock(b) && (b + bi) % BPB == bi;
    hide BlockBit;
  }

  /** The search of balloc, bitmap block by bitmap block: the lowest free block, or the size of the
      volume when every block is used. */
  method Scan(vol: Vol) returns (b: nat)
    requires Shape(vol)
    ensures b <= vol.sb.size && (b < vol.sb.size ==> !Used(vol, b))
    ensures forall c :: 0 <= c < b ==> Used(vol, c)
  {
    hide BlockBit, Used, Super.BBlock, Super.Valid, InodeShape;
    b := 0;
    while b < vol.sb.size
      invariant b < vol.sb.size ==> b % BPB == 0
      invariant forall c :: 0 <= c < b && c < vol.sb.size ==> Used(vol, c)
    {
      BBlockRange(vol.sb, b);
      var bp := vol.blocks[vol.sb.BBlock(b)];
      var bi := 0;
      while bi < BPB && b + bi < vol.sb.size
        invariant 0 <= bi <= BPB
        invariant forall c :: b <= c < b + bi && c < vol.sb.size ==> Used(vol, c)
      {
        UsedAt(vol, b, bi);
        if !BlockBit(bp, bi) {
          return b + bi;
        }
        bi := bi + 1;
      }
      b := b + BPB;
    }
    b := vol.sb.size;
  }

  lemma EntryNeedsIndirect(v: Vol, ow: Owners, i: nat, k: nat)
    requires Owned(v, ow) && i in v.inodes && NDIRECT <= k < MAXFILE
    ensures Shape(v)
    ensures Ptr(v, i, INDIRECT) == 0 ==> Ptr(v, i, k) == 0
  {
  }

  /** The change of slot `k` of inode `i` from `v` to `w`: an occupied slot is left alone, an empty one
      gets a new block if there is one. At most one bitmap block is logged, with the new block and,
      for an entry of the indirect block, that block. */
  ghost predicate SlotFilled(v: Vol, ow: Owners, lg: set<nat>, w: Vol, ow': Owners, lg': set<nat>,
                             i: nat, k: nat, addr: nat, maps: set<nat>)
  {
    && Grown(v, ow, w, ow', i) && i in v.inodes && k <= MAXFILE && addr == Ptr(w, i, k)
    && (forall l :: 0 <= l <= MAXFILE && l != k ==> Ptr(w, i, l) == Ptr(v, i, l))
    && (Ptr(v, i, k) != 0 || addr == 0 ==> w == v && lg' == lg && maps == {})
    && (addr == 0 ==> AllUsed(w))
    && lg' <= lg + maps + ({addr, Ptr(w, i, INDIRECT)} - {0})
    && |maps| <= 1
  }

  lemma SlotKept(v: Vol, ow: Owners, lg: set<nat>, i: nat, k: nat)
    requires Owned(v, ow) && i in v.inodes && k <= MAXFILE && (Ptr(v, i, k) != 0 || AllUsed(v))
    ensures SlotFilled(v, ow, lg, v, ow, lg, i, k, Ptr(v, i, k), {})
  {
    GrownRefl(v, ow, i);
    hide Grown, Owned, Used, Ptr;
  }

  lemma SlotAttached(v: Vol, ow: Owners, lg: set<nat>, lg': set<nat>, i: nat, k: nat, b: nat)
    requires Owned(v, ow) && i in v.inodes && k <= MAXFILE && Ptr(v, i, k) == 0
    requires 0 < b < v.sb.size && !Used(v, b)
    requires NDIRECT <= k < MAXFILE ==> Ptr(v, i, INDIRECT) != 0
    requires lg' <= lg + {v.sb.BBlock(b), b} + if NDIRECT <= k < MAXFILE then {Ptr(v, i, INDIRECT)} else {}
    ensures Shape(Alloc(v, b)) && Alloc(v, b).sb == v.sb && i in Alloc(v, b).inodes
    ensures SlotFilled(v, ow, lg, SetPtr(Alloc(v, b), i, k, b), ow[b := Slot(i, k)], lg', i, k, b, {v.sb.BBlock(b)})
  {
    AttachGrown(v, ow, i, k, b);
    Attach(v, ow, i, k, b);
    hide Grown, Alloc, SetPtr, Used, Ptr;
  }

  class FileSystem {
    var v: Vol
    var logged: set<nat>        // blocks passed to log_write since begin_op
    ghost var owner: Owners

    constructor (v: Vol, ghost owner: Owners)
      ensures this.v == v && this.owner == owner && logged == {}
    {
      this.v, this.owner, logged := v, owner, {};
    }

    /** balloc: the lowest free block is marked, zeroed and returned; 0 when none is free. */
    method Balloc() returns (b: nat)
      requires Owned(v, owner)
      modifies this
      ensures owner == old(owner)
      ensures logged == if b == 0 then old(logged) else old(logged) + {old(v).sb.BBlock(b), b}
      ensures b == 0 ==> v == old(v) && forall c :: 0 <= c < v.sb.size ==> Used(v, c)
      ensures b != 0 ==> b < old(v).sb.size && !Used(old(v), b) && v == Alloc(old(v), b)
      ensures forall c :: 0 <= c < b ==> Used(old(v), c)
    {
      b := Scan(v);
      if b == v.sb.size {
        return 0;
      }
      assert b != 0;
      logged := logged + {v.sb.BBlock(b), b};
      v := Alloc(v, b);
    }

    /** bfree: the block's bit is cleared; a block that is already free panics. */
    method Bfree(b: nat) returns (r: Outcome)
      requires Shape(v) && b < v.sb.size
      modifies this
      ensures owner == old(owner)
      ensures r.Panic? <==> !Used(old(v), b)
      ensures v == if r.Ok? then SetUsed(old(v), b, false) else old(v)
      ensures logged == if r.Ok? then old(logged) + {v.sb.BBlock(b)} else old(logged)
    {
      BBlockRange(v.sb, b);
      if !BlockBit(v.blocks[v.sb.BBlock(b)], b % BPB) {
        return Panic("freeing free block");
      }
      logged := logged + {v.sb.BBlock(b)};
      v := SetUsed(v, b, false);
      r := Ok;
    }

    /** The allocation step of bmap: slot `k` is filled with a new block if it is empty. */
    method FillSlot(i: nat, k: nat) returns (addr: nat, ghost maps: set<nat>)
      requires Owned(v, owner) && i in v.inodes && k <= MAXFILE
      requires NDIRECT <= k < MAXFILE ==> Ptr(v, i, INDIRECT) != 0
      modifies this
      ensures SlotFilled(old(v), old(owner), old(logged), v, owner, logged, i, k, addr, maps)
      ensures SlotLogged(old(v), old(owner), old(logged), v, owner, logged, i, k, addr)
    {
      var was, lg, ind := v, logged, Ptr(v, i, INDIRECT);
      ghost var ow := owner;
      addr, maps := Ptr(v, i, k), {};
      hide SlotFilled, SlotLogged, Owned, Alloc, SetPtr, Used, Ptr, Shape, Super.BBlock;
      OwnedShape(was, ow);
      SlotKeptLogged(was, ow, lg, i, k);
      if addr != 0 {
        SlotKept(was, ow, lg, i, k);
        return;
      }
      addr := Balloc();
      if addr == 0 {
        SlotKept(was, ow, lg, i, k);
        return;
      }
      if NDIRECT <= k < MAXFILE {
        logged := logged + {ind};
      }
      SlotAttached(was, ow, lg, logged, i, k, addr);
      SlotAttachedLogged(was, ow, lg, i, k, addr);
      v := SetPtr(v, i, k, addr);
      owner := owner[addr := Slot(i, k)];
      maps := {was.sb.BBlock(addr)};
    }

    /** bmap: the block of file block `bn`, allocated if the slot is empty; 0 when no block is free.
        `maps` holds the bitmap blocks logged on the way. */
    method Bmap(i: nat, bn: nat) returns (addr: nat, ghost maps: set<nat>)
      requires Owned(v, owner) && i in v.inodes && bn < MAXFILE
      modifies this
      ensures BlockMapped(old(v), old(owner), old(logged), v, owner, logged, i, bn, addr, maps)
      ensures BlockLogged(old(v), old(owner), old(logged), v, owner, logged, i, bn, addr)
    {
      ghost var was, ow, lg := v, owner, logged;
      hide SlotFilled, SlotLogged, BlockMapped, BlockLogged, Owned, Used, Ptr, Shape;
      if bn < NDIRECT {
        addr, maps := FillSlot(i, bn);
        MappedDirect(was, ow, lg, v, owner, logged, i, bn, addr, maps);
        LoggedDirect(was, ow, lg, v, owner, logged, i, bn, addr, maps);
        return;
      }
      var ind, maps1 := FillSlot(i, INDIRECT);
      MappedIndirect(was, ow, lg, v, owner, logged, i, bn, ind, maps1);
      LoggedIndirect(was, ow, lg, v, owner, logged, i, bn, ind, maps1);
      if ind == 0 {
        addr, maps := 0, maps1;
        return;
      }
      ghost var mid, ow1, lg1 := v, owner, logged;
      ghost var maps2;
      addr, maps2 := FillSlot(i, bn);
      maps := maps1 + maps2;
      MappedEntry(was, ow, lg, mid, ow1, lg1, v, owner, logged, i, bn, ind, maps1, addr, maps2);
      LoggedEntry(was, ow, lg, mid, ow1, lg1, v, owner, logged, i, bn, ind, maps1, addr, maps2);
    }

    /** writei: `n` bytes of `src` go to offset `off`, block by block. The source can be read up to byte
        `readable`; a copy that reaches further fails and leaves what it copied in the buffer. `hi` says
        how many bytes were stored, `r` is what the call returns. */
    method Writei(i: nat, src: seq<Byte>, readable: nat, off: nat) returns (r: int, ghost hi: nat)
      requires Valid(v, owner) && i in v.inodes && off < WORD && |src| < WORD && readable <= |src|
      modifies this
      ensures WriteResult(old(v), old(owner), old(logged), v, owner, logged, i, src, readable, off, r, hi)
      ensures WriteExact(old(v), old(owner), old(logged), v, owner, logged, i, src, readable, off, r, hi)
    {
      hide AtHead, Storing, Stopped, Valid, WriteResult, Resize, Tracked, Halted, WriteExact, Stop, Super.IBlock;
      var n, size, ib := |src|, v.inodes[i].size, v.sb.IBlock(i);
      ghost var v0, ow0, lg0 := v, owner, logged;
      hi := 0;
      if off > size || off + n >= WORD || off + n > MAXFILE * BSIZE {
        WriteRefused(v0, ow0, lg0, i, src, readable, off);
        return -1, 0;
      }
      var tot, going := 0, true;
      ghost var it, datas: set<nat>, maps: set<nat> := 0, {}, {};
      WritingStart(v0, ow0, lg0, i, off, src);
      TrackedStart(v0, ow0, lg0, i, off) by { ValidOwned(v0, ow0); }
      while tot < n && going
        invariant tot <= n && tot <= readable && i in v.inodes
        invariant going ==> hi == tot && AtHead(v0, ow0, lg0, v, owner, logged, i, off, src, tot, it, datas, maps)
        invariant going ==> Tracked(v0, ow0, lg0, v, owner, logged, i, off, tot)
        invariant !going ==> Stopped(v0, ow0, lg0, v, owner, logged, i, off, src, readable, tot, hi, it, datas, maps)
        invariant !going ==> tot < n && Halted(v0, lg0, v, logged, i, off, src, readable, tot, hi)
        decreases n - tot, going
      {
        tot, going, hi, it, datas, maps := WriteBlock(i, src, readable, off, tot, v0, ow0, lg0, it, datas, maps);
      }
      WritingDone(v0, ow0, lg0, v, owner, logged, i, src, readable, off, tot, hi, it, datas, maps);
      WritingExact(v0, ow0, lg0, v, owner, logged, i, src, readable, off, tot, hi, Max(size, off + tot));
      v := Resize(v, i, Max(size, off + tot));
      logged := logged + {ib};
      r := tot;
    }

    /** One turn of writei's loop: the block of byte `tot` is found or allocated, filled and logged. The
        loop stops when there is no block or the source cannot be read. */
    method WriteBlock(i: nat, src: seq<Byte>, readable: nat, off: nat, tot: nat,
                      ghost v0: Vol, ghost ow0: Owners, ghost lg0: set<nat>, ghost it: nat, ghost datas: set<nat>,
                      ghost maps: set<nat>)
      returns (tot': nat, going: bool, ghost hi: nat, ghost it': nat, ghost datas': set<nat>, ghost maps': set<nat>)
      requires tot < |src| && tot <= readable <= |src|
      requires AtHead(v0, ow0, lg0, v, owner, logged, i, off, src, tot, it, datas, maps)
      requires Tracked(v0, ow0, lg0, v, owner, logged, i, off, tot)
      modifies this
      ensures i in v.inodes && tot' <= |src| && tot' <= readable
      ensures going ==> tot < tot' == hi
      ensures going ==> AtHead(v0, ow0, lg0, v, owner, logged, i, off, src, tot', it', datas', maps')
      ensures going ==> Tracked(v0, ow0, lg0, v, owner, logged, i, off, tot')
      ensures !going ==> tot' == tot && Halted(v0, lg0, v, logged, i, off, src, readable, tot, hi)
      ensures !going ==> Stopped(v0, ow0, lg0, v, owner, logged, i, off, src, readable, tot, hi, it', datas', maps')
    {
      hide AtHead, Storing, Stopped, BlockMapped, BlockLogged, Owned, Ptr, Used, PutData, Shape, AllUsed, Tracked,
           Halted, Written, Stop, NextStop;
      HeadRange(v0, ow0, lg0, v, owner, logged, i, off, src, tot, it, datas, maps);
      ghost var u, ow, lg := v, owner, logged;
      var o := (off + tot) % BSIZE;
      var addr, maps1 := Bmap(i, (off + tot) / BSIZE);
      WritingMapped(v0, ow0, lg0, u, ow, lg, v, owner, logged, i, off, src, tot, it, datas, maps, addr, maps1);
      HeadStops(v0, ow0, lg0, u, ow, lg, i, off, src, tot, it, datas, maps);
      MappedOwned(u, ow, lg, v, owner, logged, i, (off + tot) / BSIZE, addr, maps1);
      it', datas', maps' := it + 1, datas + ({addr} - {0}), maps + maps1;
      tot', going, hi := tot, false, tot;
      if addr == 0 {
        StoppedFull(v0, ow0, lg0, v, owner, logged, i, off, src, readable, tot, it', datas', maps');
        HaltedFull(v0, ow0, lg0, u, ow, lg, v, owner, logged, i, off, src, readable, tot);
        return;
      }
      var m := if |src| - tot < BSIZE - o then |src| - tot else BSIZE - o;
      StopAfter(off, |src|, tot, m);
      if readable < tot + m {
        hi := readable;
        HaltedFault(v0, ow0, lg0, u, ow, lg, v, owner, logged, i, off, src, readable, tot, addr);
        WritingPut(v0, ow0, lg0, v, owner, logged, i, off, src, tot, hi - tot, it', datas', maps', addr);
        v := PutData(v, addr, o, src[tot..readable]);
        StoppedFault(v0, ow0, lg0, v, owner, logged, i, off, src, readable, tot, hi, it', datas', maps');
        return;
      }
      WritingPut(v0, ow0, lg0, v, owner, logged, i, off, src, tot, m, it', datas', maps', addr);
      TrackedBlock(v0, ow0, lg0, u, ow, lg, v, owner, logged, i, off, tot, m, addr, src[tot..tot + m]);
      v := PutData(v, addr, o, src[tot..tot + m]);
      logged := logged + {addr};
      tot', going, hi := tot + m, true, tot + m;
      HeadInodes(v0, ow0, lg0, v, owner, logged, i, off, src, tot', it', datas', maps');
    }

    /** filewrite on an inode: chunks of at most CHUNK bytes, each in its own operation. `peak` is the most
        blocks that one operation logged; `done` bytes were accepted and `hi` stored. */
    method FileWrite(i: nat, src: seq<Byte>, readable: nat, off: nat)
      returns (ret: int, off': nat, ghost peak: nat, ghost done: nat, ghost hi: nat)
      requires Valid(v, owner) && i in v.inodes && off + |src| < WORD && readable <= |src|
      modifies this
      ensures Progress(old(v), old(owner), v, owner, i, off, src, done, hi)
      ensures FileExact(old(v), i, off, src, readable, done, hi)
      ensures off' == off + done && ret == (if done == |src| then |src| else -1) && peak <= MAXOPBLOCKS
    {
      hide Progress, Valid, FileExact, Filled, AtChunk, MaxLogged;
      ghost var v0, ow0 := v, owner;
      var k, n, going := 0, |src|, true;
      off', done, hi, peak := off, 0, 0, 0;
      ProgressNone(v0, ow0, i, off, src);
      FilledNothing(v0, ow0, i, off) by { ValidOwned(v0, ow0); OwnedShape(v0, ow0); }
      assert AtChunk(0, n) by { FirstChunk(n); }
      while k < n && going
        invariant off' == off + done && k <= done <= n && (going ==> k == done == hi <= readable)
                  && (!going ==> done < n)
        invariant Progress(v0, ow0, v, owner, i, off, src, done, hi) && peak <= MAXOPBLOCKS
        invariant going ==> Filled(v0, ow0, v, owner, i, off, k) && AtChunk(k, n)
        invariant going && k > 0 ==> off + k <= MAXFILE * BSIZE
        invariant !going ==> FileExact(v0, i, off, src, readable, done, hi)
        decreases n - k, going
      {
        var n1 := ChunkSize(n, k);
        var r, h := WriteOp(i, src, readable, off, k, n1, v0, ow0);
        done, hi, peak := k + (if r > 0 then r else 0), k + h, Max(peak, |logged|);
        if r > 0 {
          off' := off' + r;
        }
        if r != n1 {
          going := false;
        } else {
          NextChunk(k, n, n1);
          k := k + r;
        }
      }
      if going {
        WroteAll(v0, ow0, v, owner, i, off, src, readable);
      }
      ret := if k == n then n else -1;
    }

    /** One operation of filewrite, from begin_op to end_op. */
    method WriteOp(i: nat, src: seq<Byte>, readable: nat, off: nat, k: nat, n: nat, ghost v0: Vol, ghost ow0: Owners)
      returns (r: int, ghost hi: nat)
      requires Progress(v0, ow0, v, owner, i, off, src, k, k) && 0 < n <= CHUNK && k + n <= |src|
      requires off + |src| < WORD && k <= readable <= |src| && Filled(v0, ow0, v, owner, i, off, k)
      requires AtChunk(k, |src|) && n == ChunkSize(|src|, k)
      modifies this
      ensures r == n ==> Filled(v0, ow0, v, owner, i, off, k + n) && off + k + n <= MAXFILE * BSIZE
      ensures r != n ==> FileExact(v0, i, off, src, readable, k + (if r > 0 then r else 0), k + hi)
      ensures -1 <= r <= n && (r == n ==> hi == n && k + n <= readable) && |logged| <= MAXOPBLOCKS
      ensures Progress(v0, ow0, v, owner, i, off, src, k + (if r > 0 then r else 0), k + hi)
    {
      hide Progress, WriteResult, Valid, WriteExact, Filled, FileExact;
      ghost var u, ow := v, owner;
      ProgressValid(v0, ow0, u, ow, i, off, src, k, k);
      var rd := if readable < k + n then readable - k else n;
      logged := {};
      r, hi := Writei(i, src[k..k + n], rd, off + k);
      ProgressChunk(v0, ow0, u, ow, v, owner, logged, i, off, src, k, n, rd, r, hi);
      ChunkExact(v0, ow0, u, ow, v, owner, logged, i, off, src, readable, k, n, rd, r, hi);
    }

    /** readi: `n` bytes from offset `off`, cut at the end of the file. The destination takes `room`
        bytes; a copy that reaches further fails the call. Reading allocates and logs nothing. */
    method Readi(i: nat, off: nat, n: nat, room: nat) returns (r: int, out: seq<Byte>)
      requires Valid(v, owner) && i in v.inodes && off < WORD && n < WORD
      modifies this
      ensures v == old(v) && owner == old(owner) && logged == old(logged)
      ensures ReadResult(v, owner, i, off, n, room, r, out)
    {
      hide Valid, Ptr, ReadResult, Shape, BlockMapped, BlockLogged, Reading, Owned;
      ghost var v0, ow0, lg0 := v, owner, logged;
      var size, len := v.inodes[i].size, n;
      out := [];
      if off > size || off + n >= WORD {
        ReadNothing(v, owner, i, off, n, room);
        return 0, [];
      }
      if off + n > size {
        len := size - off;
      }
      var tot := 0;
      ReadStart(v, owner, i, off);
      while tot < len
        invariant tot <= len && tot <= room && v == v0 && owner == ow0 && logged == lg0
        invariant off + len <= v0.inodes[i].size && Reading(v0, ow0, i, off, tot, out)
      {
        var a := off + tot;
        ReadMapped(v0, ow0, i, a);
        var addr, maps := Bmap(i, a / BSIZE);
        UnchangedMap(v0, ow0, lg0, v, owner, logged, i, a / BSIZE, addr, maps);
        var m := if len - tot < BSIZE - a % BSIZE then len - tot else BSIZE - a % BSIZE;
        if room < tot + m {
          ReadFault(v0, ow0, i, off, n, room, tot + m);
          return -1, [];
        }
        ReadStep(v0, ow0, i, off, tot, m, out);
        out := out + v.blocks[addr][a % BSIZE..a % BSIZE + m];
        tot := tot + m;
      }
      ReadDone(v0, ow0, i, off, n, room, len, out);
      r := len;
    }

    /** itrunc: the file is emptied. No call of bfree finds a free block. Every bitmap block that changes is logged, and
        so is the block of the inode, and nothing else. */
    method Itrunc(i: nat) returns (ok: bool)
      requires Valid(v, owner) && i in v.inodes
      modifies this
      ensures ok && Truncated(old(v), old(owner), v, owner, i)
      ensures exists lg :: BitmapLogged(old(v), old(logged), v, lg) && logged == lg + {old(v).sb.IBlock(i)}
    {
      hide Valid, Truncating, Truncated, Ptr, Shape, Used, SetPtr, SetUsed, Emptied, BitmapLogged;
      ghost var v0, ow0, lg0 := v, owner, logged;
      assert BitmapLogged(v0, lg0, v, logged) by { NothingLogged(v0, lg0); }
      ok := true;
      TruncStart(v0, ow0, i);
      var k := 0;
      while k < NDIRECT
        invariant 0 <= k <= NDIRECT && ok && owner == ow0 && Truncating(v0, ow0, v, i, k)
        invariant BitmapLogged(v0, lg0, v, logged)
      {
        TruncDirect(v0, ow0, v, i, k);
        var addr := v.inodes[i].addrs[k];
        if addr != 0 {
          TruncatingFree(v0, ow0, v, i, k);
          BitmapLoggedFree(v0, lg0, v, logged, addr);
          var r := Bfree(addr);
          ok := ok && r.Ok?;
          DirectBlocks(v, i, k);
          BitmapLoggedSame(v0, lg0, v, logged, SetPtr(v, i, k, 0));
          v := SetPtr(v, i, k, 0);
        } else {
          TruncatingSkip(v0, ow0, v, i, k);
        }
        k := k + 1;
      }
      TruncIndirect(v0, ow0, v, i, k);
      var ind := v.inodes[i].addrs[NDIRECT];
      if ind == 0 {
        TruncNone(v0, ow0, v, i);
      } else {
        ok := FreeIndirect(i, ind, v0, ow0, lg0);
      }
      TruncatingDone(v0, ow0, v, i);
      TruncKeys(v0, ow0, v, i);
      BitmapLoggedSame(v0, lg0, v, logged, Emptied(v, i)) by { EmptiedBlocks(v, i); }
      v := Emptied(v, i);
      owner := Without(owner, i);
      logged := logged + {v.sb.IBlock(i)};
    }

    /** The second half of itrunc: the blocks listed in the indirect block, then the block itself. */
    method FreeIndirect(i: nat, ind: nat, ghost v0: Vol, ghost ow0: Owners, ghost lg0: set<nat>) returns (ok: bool)
      requires BitmapLogged(v0, lg0, v, logged)
      requires Truncating(v0, ow0, v, i, NDIRECT) && i in v0.inodes && ind != 0 && ind == Ptr(v0, i, INDIRECT)
      modifies this
      ensures ok && owner == old(owner) && Truncating(v0, ow0, v, i, MAXFILE + 1) && BitmapLogged(v0, lg0, v, logged)
    {
      hide Valid, Truncating, Ptr, Shape, Used, SetPtr, SetUsed, BitmapLogged;
      ok := true;
      TruncEntries(v0, ow0, v, i, NDIRECT);
      var bp := v.blocks[ind];
      var j := 0;
      while j < NINDIRECT
        invariant 0 <= j <= NINDIRECT && ok && owner == old(owner) && Truncating(v0, ow0, v, i, NDIRECT + j)
        invariant BitmapLogged(v0, lg0, v, logged)
      {
        TruncEntry(v0, ow0, v, NDIRECT + j, i, j, ind);
        var addr := GetWord(bp, j);
        if addr != 0 {
          TruncatingFree(v0, ow0, v, i, NDIRECT + j);
          BitmapLoggedFree(v0, lg0, v, logged, addr);
          var r := Bfree(addr);
          ok := ok && r.Ok?;
        } else {
          TruncatingSkip(v0, ow0, v, i, NDIRECT + j);
        }
        j := j + 1;
      }
      TruncatingFree(v0, ow0, v, i, INDIRECT);
      BitmapLoggedFree(v0, lg0, v, logged, ind);
      var r := Bfree(ind);
      ok := ok && r.Ok?;
    }
  }

  /** What bmap does to a volume. */
  ghost predicate BlockMapped(v: Vol, ow: Owners, lg: set<nat>, w: Vol, ow': Owners, lg': set<nat>,
                              i: nat, bn: nat, addr: nat, maps: set<nat>)
  {
    && Grown(v, ow, w, ow', i) && i in v.inodes && bn < MAXFILE && addr == Ptr(w, i, bn)
    && (forall l :: 0 <= l < MAXFILE && l != bn ==> Ptr(w, i, l) == Ptr(v, i, l))
    && (Ptr(v, i, bn) != 0 ==> w == v && lg' == lg)
    && (addr == 0 ==> AllUsed(w))
    && lg' <= lg + maps + ({addr, Ptr(w, i, INDIRECT)} - {0})
    && |maps| <= (if Ptr(v, i, bn) == 0 then 1 else 0)
                 + (if Ptr(v, i, INDIRECT) == 0 && Ptr(w, i, INDIRECT) != 0 then 1 else 0)
  }

  lemma MappedDirect(v: Vol, ow: Owners, lg: set<nat>, w: Vol, ow': Owners, lg': set<nat>,
                     i: nat, bn: nat, addr: nat, maps: set<nat>)
    requires bn < NDIRECT && SlotFilled(v, ow, lg, w, ow', lg', i, bn, addr, maps)
    ensures BlockMapped(v, ow, lg, w, ow', lg', i, bn, addr, maps)
  {
    hide Ptr, AllUsed;
  }

  lemma MappedIndirect(v: Vol, ow: Owners, lg: set<nat>, w: Vol, ow': Owners, lg': set<nat>,
                       i: nat, bn: nat, ind: nat, maps: set<nat>)
    requires NDIRECT <= bn < MAXFILE && SlotFilled(v, ow, lg, w, ow', lg', i, INDIRECT, ind, maps)
    ensures Owned(w, ow') && Shape(w) && i in w.inodes && Ptr(w, i, INDIRECT) == ind
    ensures ind == 0 ==> BlockMapped(v, ow, lg, w, ow', lg', i, bn, 0, maps)
  {
    EntryNeedsIndirect(w, ow', i, bn);
    hide Ptr, AllUsed;
  }

  lemma MappedEntry(v: Vol, ow: Owners, lg: set<nat>, u: Vol, ow1: Owners, lg1: set<nat>, w: Vol, ow2: Owners,
                    lg2: set<nat>, i: nat, bn: nat, ind: nat, maps1: set<nat>, addr: nat, maps2: set<nat>)
    requires NDIRECT <= bn < MAXFILE && ind != 0
    requires SlotFilled(v, ow, lg, u, ow1, lg1, i, INDIRECT, ind, maps1)
    requires SlotFilled(u, ow1, lg1, w, ow2, lg2, i, bn, addr, maps2)
    ensures BlockMapped(v, ow, lg, w, ow2, lg2, i, bn, addr, maps1 + maps2)
  {
    EntryNeedsIndirect(v, ow, i, bn);
    GrownTrans(v, ow, u, ow1, w, ow2, i);
    hide Ptr, AllUsed, Owned;
    assert Ptr(w, i, INDIRECT) == ind;
  }

  lemma LoggedDirect(v: Vol, ow: Owners, lg: set<nat>, w: Vol, ow': Owners, lg': set<nat>,
                     i: nat, bn: nat, addr: nat, maps: set<nat>)
    requires bn < NDIRECT && SlotFilled(v, ow, lg, w, ow', lg', i, bn, addr, maps)
    requires SlotLogged(v, ow, lg, w, ow', lg', i, bn, addr)
    ensures BlockLogged(v, ow, lg, w, ow', lg', i, bn, addr)
  {
    hide Ptr, AllUsed, Grown, AllLogged, Shape;
  }

  lemma LoggedIndirect(v: Vol, ow: Owners, lg: set<nat>, w: Vol, ow': Owners, lg': set<nat>,
                       i: nat, bn: nat, ind: nat, maps: set<nat>)
    requires NDIRECT <= bn < MAXFILE && SlotFilled(v, ow, lg, w, ow', lg', i, INDIRECT, ind, maps)
    requires SlotLogged(v, ow, lg, w, ow', lg', i, INDIRECT, ind)
    ensures ind == 0 ==> BlockLogged(v, ow, lg, w, ow', lg', i, bn, 0)
  {
    MappedIndirect(v, ow, lg, w, ow', lg', i, bn, ind, maps);
    EntryNeedsIndirect(w, ow', i, bn);
    hide Ptr, AllUsed, Grown, AllLogged, Shape, Owned;
  }

  lemma LoggedEntry(v: Vol, ow: Owners, lg: set<nat>, u: Vol, ow1: Owners, lg1: set<nat>, w: Vol, ow2: Owners,
                    lg2: set<nat>, i: nat, bn: nat, ind: nat, maps1: set<nat>, addr: nat, maps2: set<nat>)
    requires NDIRECT <= bn < MAXFILE && ind != 0
    requires SlotFilled(v, ow, lg, u, ow1, lg1, i, INDIRECT, ind, maps1)
    requires SlotLogged(v, ow, lg, u, ow1, lg1, i, INDIRECT, ind)
    requires SlotFilled(u, ow1, lg1, w, ow2, lg2, i, bn, addr, maps2)
    requires SlotLogged(u, ow1, lg1, w, ow2, lg2, i, bn, addr)
    ensures BlockLogged(v, ow, lg, w, ow2, lg2, i, bn, addr)
  {
    hide Ptr, AllUsed, AllLogged, Shape, SlotFilled;
    EntryPtrs(v, ow, lg, u, ow1, lg1, w, ow2, lg2, i, bn, ind, maps1, addr, maps2);
    AllLoggedTrans(v, u, w, lg1, lg2);
    EntryOwners(ow, ow1, ow2, Ptr(v, i, INDIRECT) == 0, ind, Slot(i, INDIRECT),
                Ptr(u, i, bn) == 0 && addr != 0, addr, Slot(i, bn));
  }

  lemma EntryOwners(ow: Owners, ow1: Owners, ow2: Owners, x: bool, a: nat, s: Slot, y: bool, b: nat, t: Slot)
    requires if x then a !in ow && ow1 == ow[a := s] else ow1 == ow
    requires if y then b !in ow1 && ow2 == ow1[b := t] else ow2 == ow1
    ensures forall c :: c in ow ==> c in ow2 && ow2[c] == ow[c]
    ensures |ow2| == |ow| + (if x then 1 else 0) + (if y then 1 else 0)
  {
  }

  lemma EntryPtrs(v: Vol, ow: Owners, lg: set<nat>, u: Vol, ow1: Owners, lg1: set<nat>, w: Vol, ow2: Owners,
                  lg2: set<nat>, i: nat, bn: nat, ind: nat, maps1: set<nat>, addr: nat, maps2: set<nat>)
    requires NDIRECT <= bn < MAXFILE && ind != 0
    requires SlotFilled(v, ow, lg, u, ow1, lg1, i, INDIRECT, ind, maps1)
    requires SlotFilled(u, ow1, lg1, w, ow2, lg2, i, bn, addr, maps2)
    ensures Shape(v) && Shape(u) && Shape(w) && w.sb == u.sb == v.sb && i in v.inodes && i in u.inodes && i in w.inodes
    ensures addr == Ptr(w, i, bn) && Ptr(u, i, INDIRECT) == ind == Ptr(w, i, INDIRECT)
    ensures Ptr(u, i, bn) == Ptr(v, i, bn) && (Ptr(v, i, INDIRECT) != 0 ==> Ptr(v, i, INDIRECT) == ind)
    ensures Ptr(v, i, bn) != 0 ==> w == v && lg2 == lg && Ptr(v, i, INDIRECT) != 0
    ensures forall l :: 0 <= l < MAXFILE && l != bn ==> Ptr(w, i, l) == Ptr(v, i, l)
    ensures addr == 0 ==> AllUsed(w)
  {
    EntryNeedsIndirect(v, ow, i, bn);
    hide Ptr, AllUsed, Owned;
  }

  // ---------------------------------------------------------------- writei

  /** What `it` turns of writei's loop have logged: data blocks, bitmap blocks and the indirect block.
      The first block of an unaligned write is already mapped, so it costs no bitmap block. */
  ghost predicate Cost(v0: Vol, w: Vol, i: nat, off: nat, lg0: set<nat>, lg: set<nat>, it: nat, datas: set<nat>,
                       maps: set<nat>)
    requires Shape(v0) && Shape(w) && i in v0.inodes && i in w.inodes
  {
    && lg <= lg0 + datas + maps + ({Ptr(w, i, INDIRECT)} - {0})
    && |datas| <= it
    && |maps| <= it - (if off % BSIZE != 0 && it > 0 then 1 else 0)
                 + (if Ptr(v0, i, INDIRECT) == 0 && Ptr(w, i, INDIRECT) != 0 then 1 else 0)
  }

  /** Inside writei: `tot` bytes are written and logged, `hi` are stored, `it` turns have begun. */
  ghost predicate Storing(v0: Vol, ow0: Owners, lg0: set<nat>, w: Vol, ow: Owners, lg: set<nat>,
                          i: nat, off: nat, src: seq<Byte>, tot: nat, hi: nat, it: nat, datas: set<nat>, maps: set<nat>)
  {
    && Valid(v0, ow0) && i in v0.inodes && off <= v0.inodes[i].size
    && tot <= hi && Written(v0, ow0, w, ow, i, off, src, hi)
    && Cost(v0, w, i, off, lg0, lg, it, datas, maps) && it <= Touched(off, |src|)
  }

  /** The head of writei's loop: each earlier turn finished its block. */
  ghost predicate AtHead(v0: Vol, ow0: Owners, lg0: set<nat>, w: Vol, ow: Owners, lg: set<nat>,
                         i: nat, off: nat, src: seq<Byte>, tot: nat, it: nat, datas: set<nat>, maps: set<nat>)
  {
    && Storing(v0, ow0, lg0, w, ow, lg, i, off, src, tot, tot, it, datas, maps)
    && (tot < |src| ==> it == (off + tot) / BSIZE - off / BSIZE && (tot == 0 || (off + tot) % BSIZE == 0))
  }

  lemma WritingStart(v: Vol, ow: Owners, lg: set<nat>, i: nat, off: nat, src: seq<Byte>)
    requires Valid(v, ow) && i in v.inodes && off <= v.inodes[i].size && off + |src| <= MAXFILE * BSIZE
    ensures AtHead(v, ow, lg, v, ow, lg, i, off, src, 0, 0, {}, {})
  {
    WrittenNone(v, ow, i, off, src);
    hide Written, Valid, Ptr;
  }

  lemma HeadRange(v0: Vol, ow0: Owners, lg0: set<nat>, w: Vol, ow: Owners, lg: set<nat>,
                  i: nat, off: nat, src: seq<Byte>, tot: nat, it: nat, datas: set<nat>, maps: set<nat>)
    requires AtHead(v0, ow0, lg0, w, ow, lg, i, off, src, tot, it, datas, maps) && tot < |src|
    ensures Owned(w, ow) && i in w.inodes && (off + tot) / BSIZE < MAXFILE
  {
    hide Valid, Owned, Ptr, Cost;
  }

  lemma HeadStops(v0: Vol, ow0: Owners, lg0: set<nat>, w: Vol, ow: Owners, lg: set<nat>,
                  i: nat, off: nat, src: seq<Byte>, tot: nat, it: nat, datas: set<nat>, maps: set<nat>)
    requires AtHead(v0, ow0, lg0, w, ow, lg, i, off, src, tot, it, datas, maps) && tot < |src|
    ensures Stop(off, |src|, tot) && Written(v0, ow0, w, ow, i, off, src, tot)
  {
    hide Valid, Owned, Ptr, Cost, Written;
  }

  lemma MappedOwned(v: Vol, ow: Owners, lg: set<nat>, w: Vol, ow': Owners, lg': set<nat>,
                    i: nat, bn: nat, addr: nat, maps: set<nat>)
    requires BlockMapped(v, ow, lg, w, ow', lg', i, bn, addr, maps)
    ensures Owned(w, ow') && Shape(w) && i in w.inodes
  {
    hide Used, Ptr;
  }

  /** The number of bytes that one turn copies ends at the next stop. */
  lemma StopAfter(off: nat, n: nat, tot: nat, m: nat)
    requires tot < n && m == if n - tot < BSIZE - (off + tot) % BSIZE then n - tot else BSIZE - (off + tot) % BSIZE
    ensures NextStop(off, n, tot) == tot + m && 0 < m && (off + tot) % BSIZE + m <= BSIZE
  {
  }

  lemma TrackedBlock(v0: Vol, ow0: Owners, lg0: set<nat>, u: Vol, ow: Owners, lg: set<nat>, w: Vol, ow': Owners,
                     lg': set<nat>, i: nat, off: nat, tot: nat, m: nat, addr: nat, bytes: seq<Byte>)
    requires Tracked(v0, ow0, lg0, u, ow, lg, i, off, tot) && (off + tot) / BSIZE < MAXFILE && addr != 0
    requires Owned(w, ow') && BlockLogged(u, ow, lg, w, ow', lg', i, (off + tot) / BSIZE, addr)
    requires 0 < m && (tot == 0 || (off + tot) % BSIZE == 0) && (off + tot) % BSIZE + m <= BSIZE && |bytes| == m
    ensures Shape(w) && addr < w.sb.size
    ensures Tracked(v0, ow0, lg0, PutData(w, addr, (off + tot) % BSIZE, bytes), ow', lg' + {addr}, i, off, tot + m)
  {
    hide Owned, Ptr, Used, PutData, Shape, Tracked, AllUsed, AllLogged, Behind;
    TrackedMapped(v0, ow0, lg0, u, ow, lg, w, ow', lg', i, off, tot, tot + m, addr);
    BehindStep(off, tot, tot + m, (off + tot) / BSIZE);
    TrackedPut(v0, ow0, lg0, w, ow', lg', i, off, tot + m, (off + tot) / BSIZE, (off + tot) % BSIZE, bytes);
  }

  /** The end of writei: only the size changes, and the inode's block is logged. */
  lemma WritingExact(v0: Vol, ow0: Owners, lg0: set<nat>, w: Vol, ow: Owners, lg: set<nat>,
                     i: nat, src: seq<Byte>, readable: nat, off: nat, tot: nat, hi: nat, size: nat)
    requires i in w.inodes && tot <= readable
    requires if tot == |src| then hi == tot && Tracked(v0, ow0, lg0, w, ow, lg, i, off, tot)
             else Halted(v0, lg0, w, lg, i, off, src, readable, tot, hi)
    ensures i in v0.inodes
    ensures WriteExact(v0, ow0, lg0, Resize(w, i, size), ow, lg + {v0.sb.IBlock(i)}, i, src, readable, off, tot, hi)
  {
    hide Room, Shape, Owned, Ptr, Behind, Missing, Used;
    var v, ib := Resize(w, i, size), v0.sb.IBlock(i);
    assert v.blocks == w.blocks;
    if tot == |src| {
      TrackedRoom(v0, ow0, lg0, w, ow, lg, i, off, tot);
      MoreLogged(v0, w, lg, lg + {ib});
      ResizeFrame(w, ow, i, size);
      OwnedShape(v, ow);
      FilledSame(v0, ow0, w, v, ow, i, off, tot);
    } else {
      HaltedEnds(v0, lg0, w, lg, i, off, src, readable, tot, hi);
    }
  }

  /** An unaligned offset within the file lies in a mapped block. */
  lemma FirstMapped(v: Vol, ow: Owners, i: nat, off: nat)
    requires Valid(v, ow) && i in v.inodes && off <= v.inodes[i].size && off % BSIZE != 0 && off < MAXFILE * BSIZE
    ensures Ptr(v, i, off / BSIZE) != 0
  {
    assert off / BSIZE < NBlocks(v.inodes[i].size);
    hide Owned, Ptr;
  }

  lemma WritingMapped(v0: Vol, ow0: Owners, lg0: set<nat>, u: Vol, ow: Owners, lg: set<nat>, w: Vol, ow': Owners,
                      lg': set<nat>,
                      i: nat, off: nat, src: seq<Byte>, tot: nat, it: nat, datas: set<nat>, maps: set<nat>,
                      addr: nat, maps1: set<nat>)
    requires AtHead(v0, ow0, lg0, u, ow, lg, i, off, src, tot, it, datas, maps) && tot < |src|
    requires (off + tot) / BSIZE < MAXFILE && BlockMapped(u, ow, lg, w, ow', lg', i, (off + tot) / BSIZE, addr, maps1)
    ensures Storing(v0, ow0, lg0, w, ow', lg', i, off, src, tot, tot, it + 1, datas + ({addr} - {0}), maps + maps1)
    ensures Shape(w) && i in w.inodes && addr == Ptr(w, i, (off + tot) / BSIZE) < w.sb.size
    ensures addr == 0 ==> AllUsed(w)
    ensures it == (off + tot) / BSIZE - off / BSIZE && (tot == 0 || (off + tot) % BSIZE == 0)
  {
    var bn := (off + tot) / BSIZE;
    WrittenGrown(v0, ow0, u, ow, w, ow', i, off, src, tot);
    MappedRange(w, ow', i, bn);
    if it == 0 && off % BSIZE != 0 {
      FirstMapped(v0, ow0, i, off);
    }
    CostMapped(v0, u, ow, w, ow', i, off, lg0, lg, lg', bn, it, datas, maps, addr, maps1);
    hide Written, Valid, Owned, Ptr, Cost, AllUsed, Grown;
  }

  lemma CostMapped(v0: Vol, u: Vol, ow: Owners, w: Vol, ow': Owners, i: nat, off: nat, lg0: set<nat>, lg: set<nat>,
                   lg': set<nat>, bn: nat, it: nat, datas: set<nat>, maps: set<nat>, addr: nat, maps1: set<nat>)
    requires Shape(v0) && Shape(u) && Shape(w) && i in v0.inodes && i in u.inodes && i in w.inodes
    requires Cost(v0, u, i, off, lg0, lg, it, datas, maps)
    requires bn < MAXFILE && BlockMapped(u, ow, lg, w, ow', lg', i, bn, addr, maps1)
    requires Ptr(v0, i, INDIRECT) != 0 ==> Ptr(u, i, INDIRECT) != 0
    requires it == 0 && off % BSIZE != 0 ==> Ptr(u, i, bn) != 0
    ensures Cost(v0, w, i, off, lg0, lg', it + 1, datas + ({addr} - {0}), maps + maps1)
  {
    hide Owned, Ptr, AllUsed, Shape;
    var a, b := Ptr(u, i, INDIRECT), Ptr(w, i, INDIRECT);
    assert a != 0 ==> b == a;
    CostSets(lg0, lg, lg', datas, maps, maps1, addr, a, b);
  }

  lemma CostSets(lg0: set<nat>, lg: set<nat>, lg': set<nat>, datas: set<nat>, maps: set<nat>, maps1: set<nat>,
                 addr: nat, a: nat, b: nat)
    requires lg <= lg0 + datas + maps + ({a} - {0}) && lg' <= lg + maps1 + ({addr, b} - {0}) && (a != 0 ==> b == a)
    ensures lg' <= lg0 + (datas + ({addr} - {0})) + (maps + maps1) + ({b} - {0})
    ensures |datas + ({addr} - {0})| <= |datas| + 1 && |maps + maps1| <= |maps| + |maps1|
  {
    assert |maps + maps1| == |maps| + |maps1 - maps|;
  }

  /** One copy of writei: `m` more bytes are stored in the block of byte `tot`. When the copy fills the
      block or ends the write, the loop is back at its head. */
  lemma WritingPut(v0: Vol, ow0: Owners, lg0: set<nat>, u: Vol, ow: Owners, lg: set<nat>,
                   i: nat, off: nat, src: seq<Byte>, tot: nat, m: nat, it: nat, datas: set<nat>, maps: set<nat>,
                   addr: nat)
    requires Storing(v0, ow0, lg0, u, ow, lg, i, off, src, tot, tot, it, datas, maps)
    requires Shape(u) && i in u.inodes && tot + m <= |src| && (off + tot) % BSIZE + m <= BSIZE
    requires tot < |src| && (off + tot) / BSIZE < MAXFILE && 0 != addr == Ptr(u, i, (off + tot) / BSIZE) < u.sb.size
    requires addr in datas && it == (off + tot) / BSIZE - off / BSIZE + 1
    ensures var w := PutData(u, addr, (off + tot) % BSIZE, src[tot..tot + m]);
            && Storing(v0, ow0, lg0, w, ow, lg, i, off, src, tot, tot + m, it, datas, maps)
            && (m > 0 && (tot + m == |src| || (off + tot) % BSIZE + m == BSIZE) ==>
                  AtHead(v0, ow0, lg0, w, ow, lg + {addr}, i, off, src, tot + m, it, datas, maps))
  {
    hide Storing, AtHead, Ptr, PutData, Shape;
    if m == 0 {
      PutNothing(u, addr, (off + tot) % BSIZE, src[tot..tot + m]);
    } else {
      PutSome(v0, ow0, lg0, u, ow, lg, i, off, src, tot, m, it, datas, maps, addr);
    }
  }

  lemma PutSome(v0: Vol, ow0: Owners, lg0: set<nat>, u: Vol, ow: Owners, lg: set<nat>,
                i: nat, off: nat, src: seq<Byte>, tot: nat, m: nat, it: nat, datas: set<nat>, maps: set<nat>, addr: nat)
    requires Storing(v0, ow0, lg0, u, ow, lg, i, off, src, tot, tot, it, datas, maps)
    requires Shape(u) && i in u.inodes && tot + m <= |src| && (off + tot) % BSIZE + m <= BSIZE && m > 0
    requires tot < |src| && (off + tot) / BSIZE < MAXFILE && 0 != addr == Ptr(u, i, (off + tot) / BSIZE) < u.sb.size
    requires addr in datas && it == (off + tot) / BSIZE - off / BSIZE + 1
    ensures var w := PutData(u, addr, (off + tot) % BSIZE, src[tot..tot + m]);
            && Storing(v0, ow0, lg0, w, ow, lg, i, off, src, tot, tot + m, it, datas, maps)
            && (tot + m == |src| || (off + tot) % BSIZE + m == BSIZE ==>
                  AtHead(v0, ow0, lg0, w, ow, lg + {addr}, i, off, src, tot + m, it, datas, maps))
  {
    hide Written, Valid, Owned, Ptr, PutData, Cost, Shape;
    var w := PutData(u, addr, (off + tot) % BSIZE, src[tot..tot + m]);
    StoringParts(v0, ow0, lg0, u, ow, lg, i, off, src, tot, tot, it, datas, maps);
    WrittenPut(v0, ow0, u, ow, i, off, src, tot, m);
    PutDataOwned(u, ow, i, (off + tot) / BSIZE, (off + tot) % BSIZE, src[tot..tot + m]);
    OwnedShape(w, ow);
    CostPut(v0, u, w, i, off, lg0, lg, it, datas, maps, addr);
    if (off + tot) % BSIZE + m == BSIZE {
      NextBlock(off + tot, m);
    }
  }

  lemma PutNothing(v: Vol, b: nat, o: nat, bytes: seq<Byte>)
    requires Shape(v) && b < v.sb.size && o <= BSIZE && bytes == []
    ensures PutData(v, b, o, bytes) == v
  {
    var s := v.blocks[b];
    assert s[..o] + bytes + s[o..] == s;
  }

  lemma StoringParts(v0: Vol, ow0: Owners, lg0: set<nat>, w: Vol, ow: Owners, lg: set<nat>,
                     i: nat, off: nat, src: seq<Byte>, tot: nat, hi: nat, it: nat, datas: set<nat>, maps: set<nat>)
    requires Storing(v0, ow0, lg0, w, ow, lg, i, off, src, tot, hi, it, datas, maps)
    ensures Written(v0, ow0, w, ow, i, off, src, hi) && Owned(w, ow) && Shape(v0) && i in v0.inodes && Shape(w)
    ensures i in w.inodes
    ensures Cost(v0, w, i, off, lg0, lg, it, datas, maps)
  {
  }

  lemma StoringFits(v0: Vol, ow0: Owners, lg0: set<nat>, w: Vol, ow: Owners, lg: set<nat>,
                    i: nat, off: nat, src: seq<Byte>, tot: nat, hi: nat, it: nat, datas: set<nat>, maps: set<nat>)
    requires Storing(v0, ow0, lg0, w, ow, lg, i, off, src, tot, hi, it, datas, maps)
    ensures hi <= |src| && off + |src| <= MAXFILE * BSIZE
  {
  }

  lemma CostPut(v0: Vol, u: Vol, w: Vol, i: nat, off: nat, lg0: set<nat>, lg: set<nat>, it: nat, datas: set<nat>,
                maps: set<nat>, addr: nat)
    requires Shape(v0) && Shape(u) && Shape(w) && i in v0.inodes && i in u.inodes && i in w.inodes
    requires Cost(v0, u, i, off, lg0, lg, it, datas, maps) && Ptr(w, i, INDIRECT) == Ptr(u, i, INDIRECT)
    requires addr in datas
    ensures Cost(v0, w, i, off, lg0, lg, it, datas, maps) && Cost(v0, w, i, off, lg0, lg + {addr}, it, datas, maps)
  {
    hide Ptr, Shape;
  }

  lemma NextBlock(a: nat, m: nat)
    requires a % BSIZE + m == BSIZE
    ensures (a + m) % BSIZE == 0 && (a + m) / BSIZE == a / BSIZE + 1
  {
  }

  /** What a call of writei does, for every result. */
  ghost predicate WriteResult(v0: Vol, ow0: Owners, lg0: set<nat>, v: Vol, ow: Owners, lg: set<nat>,
                              i: nat, src: seq<Byte>, readable: nat, off: nat, r: int, hi: nat)
  {
    && Valid(v0, ow0) && i in v0.inodes && Valid(v, ow)
    && (r == -1 <==> off > v0.inodes[i].size || off + |src| >= WORD || off + |src| > MAXFILE * BSIZE)
    && if r == -1 then v == v0 && ow == ow0 && lg == lg0 && hi == 0
       else
         && 0 <= r <= hi <= |src|
         && (exists w :: Written(v0, ow0, w, ow, i, off, src, hi) && v == Resize(w, i, Max(v0.inodes[i].size, off + r)))
         && r <= readable && (r == |src| || (hi == r && AllUsed(v)) || (hi == readable < |src|))
         && LogBound(lg0, lg, off, |src|)
  }

  lemma WriteRefused(v: Vol, ow: Owners, lg: set<nat>, i: nat, src: seq<Byte>, readable: nat, off: nat)
    requires Valid(v, ow) && i in v.inodes
    requires off > v.inodes[i].size || off + |src| >= WORD || off + |src| > MAXFILE * BSIZE
    ensures WriteResult(v, ow, lg, v, ow, lg, i, src, readable, off, -1, 0)
    ensures WriteExact(v, ow, lg, v, ow, lg, i, src, readable, off, -1, 0)
  {
    hide Valid;
  }

  lemma ValidOwned(v: Vol, ow: Owners)
    requires Valid(v, ow)
    ensures Owned(v, ow)
  {
  }

  function MaxLogged(off: nat, n: nat): int
  {
    2 * Touched(off, n) - (if off % BSIZE != 0 && n > 0 then 1 else 0) + 3
  }

  /** The bound on what the call logs: data blocks, bitmap blocks, the indirect block and the inode's block. */
  ghost predicate LogBound(lg0: set<nat>, lg: set<nat>, off: nat, n: nat)
  {
    |lg - lg0| <= MaxLogged(off, n)
  }

  /** writei's loop has stopped early: no block was left, or the source could not be read. */
  ghost predicate Stopped(v0: Vol, ow0: Owners, lg0: set<nat>, w: Vol, ow: Owners, lg: set<nat>,
                          i: nat, off: nat, src: seq<Byte>, readable: nat, tot: nat, hi: nat, it: nat, datas: set<nat>,
                          maps: set<nat>)
  {
    && Storing(v0, ow0, lg0, w, ow, lg, i, off, src, tot, hi, it, datas, maps)
    && ((hi == tot && AllUsed(w)) || (hi == readable < |src|))
  }

  lemma StoppedFull(v0: Vol, ow0: Owners, lg0: set<nat>, w: Vol, ow: Owners, lg: set<nat>,
                    i: nat, off: nat, src: seq<Byte>, readable: nat, tot: nat, it: nat, datas: set<nat>, maps: set<nat>)
    requires Storing(v0, ow0, lg0, w, ow, lg, i, off, src, tot, tot, it, datas, maps) && Shape(w) && AllUsed(w)
    ensures i in w.inodes && Stopped(v0, ow0, lg0, w, ow, lg, i, off, src, readable, tot, tot, it, datas, maps)
  {
    StoringParts(v0, ow0, lg0, w, ow, lg, i, off, src, tot, tot, it, datas, maps);
  }

  lemma StoppedFault(v0: Vol, ow0: Owners, lg0: set<nat>, w: Vol, ow: Owners, lg: set<nat>,
                     i: nat, off: nat, src: seq<Byte>, readable: nat, tot: nat, hi: nat, it: nat, datas: set<nat>,
                     maps: set<nat>)
    requires Storing(v0, ow0, lg0, w, ow, lg, i, off, src, tot, hi, it, datas, maps) && hi == readable < |src|
    ensures i in w.inodes && Stopped(v0, ow0, lg0, w, ow, lg, i, off, src, readable, tot, hi, it, datas, maps)
  {
    StoringParts(v0, ow0, lg0, w, ow, lg, i, off, src, tot, hi, it, datas, maps);
  }

  lemma HeadInodes(v0: Vol, ow0: Owners, lg0: set<nat>, w: Vol, ow: Owners, lg: set<nat>,
                   i: nat, off: nat, src: seq<Byte>, tot: nat, it: nat, datas: set<nat>, maps: set<nat>)
    requires AtHead(v0, ow0, lg0, w, ow, lg, i, off, src, tot, it, datas, maps)
    ensures i in w.inodes
  {
    StoringParts(v0, ow0, lg0, w, ow, lg, i, off, src, tot, tot, it, datas, maps);
  }

  lemma WritingDone(v0: Vol, ow0: Owners, lg0: set<nat>, w: Vol, ow: Owners, lg: set<nat>,
                    i: nat, src: seq<Byte>, readable: nat, off: nat, tot: nat, hi: nat, it: nat, datas: set<nat>,
                    maps: set<nat>)
    requires off + |src| < WORD && tot <= readable
    requires if tot == |src| then hi == tot && AtHead(v0, ow0, lg0, w, ow, lg, i, off, src, tot, it, datas, maps)
             else Stopped(v0, ow0, lg0, w, ow, lg, i, off, src, readable, tot, hi, it, datas, maps)
    ensures i in w.inodes
    ensures WriteResult(v0, ow0, lg0, Resize(w, i, Max(v0.inodes[i].size, off + tot)), ow, lg + {v0.sb.IBlock(i)},
                        i, src, readable, off, tot, hi)
  {
    hide Valid, Owned, Ptr, Cost, LogBound, AllUsed, Resize, Written;
    StoringParts(v0, ow0, lg0, w, ow, lg, i, off, src, tot, hi, it, datas, maps);
    var v := Resize(w, i, Max(v0.inodes[i].size, off + tot));
    WrittenDense(v0, ow0, w, ow, i, off, src, hi, tot);
    if Shape(w) && AllUsed(w) {
      ResizeUsed(w, ow, i, Max(v0.inodes[i].size, off + tot));
    }
    CostBound(v0, w, i, off, |src|, lg0, lg, it, datas, maps, v0.sb.IBlock(i));
    StoringFits(v0, ow0, lg0, w, ow, lg, i, off, src, tot, hi, it, datas, maps);
  }

  lemma ResizeUsed(w: Vol, ow: Owners, i: nat, size: nat)
    requires Owned(w, ow) && AllUsed(w) && i in w.inodes
    ensures Shape(Resize(w, i, size)) && AllUsed(Resize(w, i, size))
  {
    ResizeFrame(w, ow, i, size);
    hide Ptr;
  }

  lemma CostBound(v0: Vol, w: Vol, i: nat, off: nat, n: nat, lg0: set<nat>, lg: set<nat>, it: nat, datas: set<nat>,
                  maps: set<nat>, ib: nat)
    requires Shape(v0) && Shape(w) && i in v0.inodes && i in w.inodes && Cost(v0, w, i, off, lg0, lg, it, datas, maps)
    requires it <= Touched(off, n)
    ensures LogBound(lg0, lg + {ib}, off, n)
  {
    var a, ind := Ptr(w, i, INDIRECT), {Ptr(w, i, INDIRECT)} - {0};
    assert n > 0 ==> Touched(off, n) >= 1;
    assert n == 0 ==> it == 0;
    hide Ptr, Shape, Touched, LogBound;
    assert |ind| <= 1 by {
      assert ind == if a == 0 then {} else {a};
    }
    CostUnion(lg0, lg, datas, maps, ind, ib, off, n);
  }

  lemma CostUnion(lg0: set<nat>, lg: set<nat>, datas: set<nat>, maps: set<nat>, ind: set<nat>, ib: nat, off: nat,
                  n: nat)
    requires lg <= lg0 + datas + maps + ind && |datas| + |maps| + |ind| + 1 <= MaxLogged(off, n)
    ensures LogBound(lg0, lg + {ib}, off, n)
  {
    UnionCard(datas, maps);
    UnionCard(datas + maps, ind);
    UnionCard(datas + maps + ind, {ib});
    SubsetCard(lg + {ib} - lg0, datas + maps + ind + {ib});
  }

  lemma SubsetCard(a: set<nat>, b: set<nat>)
    requires a <= b
    ensures |a| <= |b|
  {
    assert |b| == |a| + |b - a| by {
      assert b == a + (b - a);
    }
  }

  lemma UnionCard(a: set<nat>, b: set<nat>)
    ensures |a + b| <= |a| + |b|
  {
    assert |a + b| == |a| + |b - a|;
  }

  // ---------------------------------------------------------------- files as byte sequences

  /** `v` is `v0` after `bytes` were laid over file `i` from `off` on, making it `len` long; every other
      file is unchanged. */
  ghost predicate FileWritten(v0: Vol, ow0: Owners, v: Vol, ow: Owners, i: nat, off: nat, bytes: seq<Byte>, len: nat)
  {
    && Valid(v0, ow0) && Valid(v, ow) && v.inodes.Keys == v0.inodes.Keys && i in v0.inodes
    && off <= v0.inodes[i].size && (len <= v0.inodes[i].size || len <= off + |bytes|)
    && File(v, ow, i) == Spliced(File(v0, ow0, i), off, bytes, len)
    && (forall j :: j in v0.inodes && j != i ==> File(v, ow, j) == File(v0, ow0, j))
  }

  lemma WrittenByte(v0: Vol, ow0: Owners, w: Vol, ow: Owners, i: nat, off: nat, src: seq<Byte>, hi: nat, r: nat,
                    j: nat, x: nat)
    requires Valid(v0, ow0) && i in v0.inodes && j in v0.inodes && off <= v0.inodes[i].size && r <= hi
    requires Written(v0, ow0, w, ow, i, off, src, hi) && i in w.inodes
    requires x < if j == i then Max(v0.inodes[i].size, off + r) else v0.inodes[j].size
    ensures Owned(Resize(w, i, Max(v0.inodes[i].size, off + r)), ow)
    ensures var v := Resize(w, i, Max(v0.inodes[i].size, off + r));
            if j == i && off <= x < off + hi then Mapped(v, j, x) && At(v, j, x) == src[x - off]
            else x < v0.inodes[j].size && Mapped(v0, j, x) && Mapped(v, j, x) && At(v, j, x) == At(v0, j, x)
  {
    ResizeFrame(w, ow, i, Max(v0.inodes[i].size, off + r));
    if x < v0.inodes[j].size {
      InFile(v0, ow0, j, x);
    }
    hide Ptr, Owned, At, Valid;
  }

  lemma WrittenFile(v0: Vol, ow0: Owners, w: Vol, ow: Owners, v: Vol, i: nat, off: nat, src: seq<Byte>, hi: nat,
                    r: nat, j: nat)
    requires Valid(v0, ow0) && i in v0.inodes && j in v0.inodes && off <= v0.inodes[i].size && r <= hi
    requires Written(v0, ow0, w, ow, i, off, src, hi) && i in w.inodes
    requires v == Resize(w, i, Max(v0.inodes[i].size, off + r))
    ensures Valid(v, ow) && j in v.inodes && hi <= |src|
    ensures File(v, ow, j) ==
            if j == i then Spliced(File(v0, ow0, i), off, src[..hi], Max(v0.inodes[i].size, off + r))
              else File(v0, ow0, j)
  {
    hide Ptr, Owned, At, Valid, Mapped, File, Spliced;
    var size := Max(v0.inodes[i].size, off + r);
    WrittenDense(v0, ow0, w, ow, i, off, src, hi, r);
    assert v.inodes[j].size == if j == i then size else v0.inodes[j].size;
    assert hi <= |src|;
    hide Resize, Written;
    forall x | 0 <= x < v.inodes[j].size
      ensures File(v, ow, j)[x] == if j == i && off <= x < off + hi then src[x - off] else File(v0, ow0, j)[x]
      ensures (j == i && off <= x < off + hi) || x < v0.inodes[j].size
    {
      WrittenByte(v0, ow0, w, ow, i, off, src, hi, r, j, x);
      FileAt(v, ow, j, x);
      if x < v0.inodes[j].size {
        FileAt(v0, ow0, j, x);
      }
    }
    if j == i {
      SplicedIs(File(v0, ow0, i), off, src[..hi], size, File(v, ow, j));
    } else {
      assert File(v, ow, j) == File(v0, ow0, j);
    }
  }

  lemma SplicedIs(f: seq<Byte>, off: nat, s: seq<Byte>, len: nat, g: seq<Byte>)
    requires off <= |f| && (len <= |f| || len <= off + |s|) && |g| == len
    requires forall x :: 0 <= x < len ==> g[x] == if off <= x < off + |s| then s[x - off] else f[x]
    ensures g == Spliced(f, off, s, len)
  {
  }

  /** writei on files: the stored bytes replace the old ones, the file grows to the end of what was
      written, and no other file changes. */
  lemma WriteiFile(v0: Vol, ow0: Owners, lg0: set<nat>, v: Vol, ow: Owners, lg: set<nat>,
                   i: nat, src: seq<Byte>, readable: nat, off: nat, r: int, hi: nat)
    requires WriteResult(v0, ow0, lg0, v, ow, lg, i, src, readable, off, r, hi) && r >= 0
    ensures FileWritten(v0, ow0, v, ow, i, off, src[..hi], Max(v0.inodes[i].size, off + r))
  {
    var w :| Written(v0, ow0, w, ow, i, off, src, hi) && v == Resize(w, i, Max(v0.inodes[i].size, off + r));
    assert v.inodes.Keys == v0.inodes.Keys;
    hide Valid, Owned, Ptr, File, Spliced, Resize, Written;
    WrittenFile(v0, ow0, w, ow, v, i, off, src, hi, r, i);
    forall j | j in v0.inodes && j != i ensures File(v, ow, j) == File(v0, ow0, j) {
      WrittenFile(v0, ow0, w, ow, v, i, off, src, hi, r, j);
    }
  }

  lemma SplicedTwice(f: seq<Byte>, off: nat, s: seq<Byte>, len1: nat, t: seq<Byte>, len2: nat)
    requires off <= |f| && len1 == Max(|f|, off + |s|)
    requires len2 >= len1 && len2 <= Max(len1, off + |s| + |t|)
    ensures Spliced(Spliced(f, off, s, len1), off + |s|, t, len2) == Spliced(f, off, s + t, len2)
  {
  }

  /** Two writes, the second starting where the first ended, are one write. */
  lemma FileWrittenTwice(v0: Vol, ow0: Owners, u: Vol, ow1: Owners, v: Vol, ow2: Owners, i: nat, off: nat,
                         s: seq<Byte>, t: seq<Byte>, len: nat)
    requires i in v0.inodes && FileWritten(v0, ow0, u, ow1, i, off, s, Max(v0.inodes[i].size, off + |s|))
    requires FileWritten(u, ow1, v, ow2, i, off + |s|, t, len)
    requires Max(v0.inodes[i].size, off + |s|) <= len <= Max(Max(v0.inodes[i].size, off + |s|), off + |s| + |t|)
    ensures FileWritten(v0, ow0, v, ow2, i, off, s + t, len)
  {
    hide Valid;
    SplicedTwice(File(v0, ow0, i), off, s, Max(v0.inodes[i].size, off + |s|), t, len);
  }

  /** A chunk of filewrite logs at most MAXOPBLOCKS blocks: four data blocks, four bitmap blocks, the
      indirect block and the inode's block at worst. */
  lemma ChunkFits(off: nat, n: nat)
    requires n <= CHUNK
    ensures MaxLogged(off, n) <= MAXOPBLOCKS
  {
    if n > 0 {
      var q, o := off / BSIZE, off % BSIZE;
      assert (off + n - 1) / BSIZE <= q + if o == 0 then 2 else 3;
    }
  }

  lemma FileWrittenNone(v: Vol, ow: Owners, i: nat, off: nat)
    requires Valid(v, ow) && i in v.inodes && off <= v.inodes[i].size
    ensures FileWritten(v, ow, v, ow, i, off, [], Max(v.inodes[i].size, off))
  {
    hide Valid, File;
    SplicedIs(File(v, ow, i), off, [], v.inodes[i].size, File(v, ow, i));
  }

  lemma ChunkCost(u: Vol, ow: Owners, v: Vol, ow': Owners, lg: set<nat>, i: nat, src: seq<Byte>, readable: nat,
                  off: nat, r: int, hi: nat)
    requires WriteResult(u, ow, {}, v, ow', lg, i, src, readable, off, r, hi) && |src| <= CHUNK
    ensures Valid(v, ow') && |lg| <= MAXOPBLOCKS && v.inodes.Keys == u.inodes.Keys && i in u.inodes
    ensures -1 <= r <= |src| && (r >= 0 ==> r <= hi <= |src|)
    ensures r == |src| > 0 ==> hi == r && r <= readable
    ensures r == -1 ==> hi == 0
  {
    hide Valid;
    ChunkFits(off, |src|);
    if r >= 0 {
      assert lg - {} == lg;
      var w :| Written(u, ow, w, ow', i, off, src, hi) && v == Resize(w, i, Max(u.inodes[i].size, off + r));
    }
  }

  lemma ChunkWritten(v0: Vol, ow0: Owners, u: Vol, ow: Owners, v: Vol, ow': Owners, lg: set<nat>,
                     i: nat, off: nat, src: seq<Byte>, k: nat, n: nat, readable: nat, r: int, hi: nat)
    requires i in v0.inodes && k + n <= |src|
    requires FileWritten(v0, ow0, u, ow, i, off, src[..k], Max(v0.inodes[i].size, off + k))
    requires WriteResult(u, ow, {}, v, ow', lg, i, src[k..k + n], readable, off + k, r, hi)
    ensures k + hi <= |src|
    ensures FileWritten(v0, ow0, v, ow', i, off, src[..k + hi],
            Max(v0.inodes[i].size, off + k + if r > 0 then r else 0))
  {
    hide Valid, File, Spliced, FileWritten, WriteResult;
    FileWrittenSize(v0, ow0, u, ow, i, off, src[..k], Max(v0.inodes[i].size, off + k));
    WriteResultHi(u, ow, v, ow', lg, i, src[k..k + n], readable, off + k, r, hi);
    if r == -1 {
      assert src[..k + hi] == src[..k];
    } else {
      WriteiFile(u, ow, {}, v, ow', lg, i, src[k..k + n], readable, off + k, r, hi);
      FileWrittenTwice(v0, ow0, u, ow, v, ow', i, off, src[..k], src[k..k + n][..hi],
        Max(u.inodes[i].size, off + k + r));
      assert src[..k] + src[k..k + n][..hi] == src[..k + hi];
      assert Max(u.inodes[i].size, off + k + r) == Max(v0.inodes[i].size, off + k + r);
    }
  }

  lemma WriteResultHi(u: Vol, ow: Owners, v: Vol, ow': Owners, lg: set<nat>, i: nat, src: seq<Byte>, readable: nat,
                      off: nat, r: int, hi: nat)
    requires WriteResult(u, ow, {}, v, ow', lg, i, src, readable, off, r, hi)
    ensures r >= 0 ==> r <= hi <= |src|
    ensures r < 0 ==> r == -1 && hi == 0 && v == u && ow' == ow
  {
    hide Valid;
  }

  lemma FileWrittenSize(v0: Vol, ow0: Owners, v: Vol, ow: Owners, i: nat, off: nat, bytes: seq<Byte>, len: nat)
    requires FileWritten(v0, ow0, v, ow, i, off, bytes, len)
    ensures i in v.inodes && v.inodes[i].size == len
  {
    hide Valid;
    assert |File(v, ow, i)| == |Spliced(File(v0, ow0, i), off, bytes, len)|;
  }

  lemma ChunkRefused(u: Vol, ow: Owners, v: Vol, ow': Owners, lg: set<nat>, i: nat, src: seq<Byte>, readable: nat,
                     off: nat, r: int, hi: nat)
    requires WriteResult(u, ow, {}, v, ow', lg, i, src, readable, off, r, hi) && off > u.inodes[i].size
    ensures r == -1 && hi == 0 && v == u && ow' == ow
  {
  }

  /** filewrite after accepting `done` bytes and storing `hi`. A write that starts past the end of the
      file does nothing. */
  ghost predicate Progress(v0: Vol, ow0: Owners, v: Vol, ow: Owners, i: nat, off: nat, src: seq<Byte>, done: nat,
                           hi: nat)
  {
    && i in v0.inodes && Valid(v0, ow0) && Valid(v, ow) && v.inodes.Keys == v0.inodes.Keys && done <= hi <= |src|
    && if off <= v0.inodes[i].size then
         FileWritten(v0, ow0, v, ow, i, off, src[..hi], Max(v0.inodes[i].size, off + done))
       else done == hi == 0 && v == v0 && ow == ow0
  }

  lemma ProgressNone(v: Vol, ow: Owners, i: nat, off: nat, src: seq<Byte>)
    requires Valid(v, ow) && i in v.inodes
    ensures Progress(v, ow, v, ow, i, off, src, 0, 0)
  {
    hide Valid, FileWritten;
    assert src[..0] == [];
    if off <= v.inodes[i].size {
      FileWrittenNone(v, ow, i, off);
    }
  }

  lemma ProgressValid(v0: Vol, ow0: Owners, v: Vol, ow: Owners, i: nat, off: nat, src: seq<Byte>, done: nat, hi: nat)
    requires Progress(v0, ow0, v, ow, i, off, src, done, hi)
    ensures Valid(v, ow) && i in v.inodes
  {
  }

  lemma ProgressChunk(v0: Vol, ow0: Owners, u: Vol, ow: Owners, v: Vol, ow': Owners, lg: set<nat>,
                      i: nat, off: nat, src: seq<Byte>, k: nat, n: nat, readable: nat, r: int, hi: nat)
    requires Progress(v0, ow0, u, ow, i, off, src, k, k) && 0 < n <= CHUNK && k + n <= |src|
    requires WriteResult(u, ow, {}, v, ow', lg, i, src[k..k + n], readable, off + k, r, hi) && readable <= n
    ensures -1 <= r <= n && (r == n ==> hi == n && n <= readable) && |lg| <= MAXOPBLOCKS
    ensures Progress(v0, ow0, v, ow', i, off, src, k + if r > 0 then r else 0, k + hi)
  {
    hide Valid, FileWritten, WriteResult;
    ChunkCost(u, ow, v, ow', lg, i, src[k..k + n], readable, off + k, r, hi);
    if off <= v0.inodes[i].size {
      ChunkWritten(v0, ow0, u, ow, v, ow', lg, i, off, src, k, n, readable, r, hi);
    } else {
      ChunkRefused(u, ow, v, ow', lg, i, src[k..k + n], readable, off + k, r, hi);
    }
  }

  /** Where the chunk of byte `x` begins. */
  function ChunkFrom(x: nat): (k: nat)
    ensures k <= x
  {
    x - x % CHUNK
  }

  function ChunkSize(n: nat, k: nat): nat
    requires k <= n
  {
    if n - k > CHUNK then CHUNK else n - k
  }

  /** filewrite exactly: all bytes, or up to the last point in its last chunk at which the source can be read and the
      blocks are there. A chunk that starts past the end of the file or ends past the largest file is refused. */
  ghost predicate FileExact(v0: Vol, i: nat, off: nat, src: seq<Byte>, readable: nat, done: nat, hi: nat)
  {
    && Shape(v0) && i in v0.inodes && done <= |src|
    && if done == |src| then
         hi == |src| <= readable && Room(v0, i, off, |src|)
         && (|src| > 0 ==> off <= v0.inodes[i].size && off + |src| <= MAXFILE * BSIZE)
       else
         var k, n := ChunkFrom(done), ChunkSize(|src|, ChunkFrom(done));
         && k <= readable && Room(v0, i, off, k) && (k > 0 ==> off <= v0.inodes[i].size)
         && if off > v0.inodes[i].size || off + k + n > MAXFILE * BSIZE then done == k == hi
            else ChunkEnds(v0, i, off, k, n, readable, done, hi)
  }

  /** A stop of the chunk of `n` bytes that begins at byte `k`. */
  predicate StopIn(off: nat, k: nat, n: nat, x: nat) { k <= x && Stop(off + k, n, x - k) }

  ghost predicate ChunkEnds(v0: Vol, i: nat, off: nat, k: nat, n: nat, readable: nat, done: nat, hi: nat)
    requires Shape(v0) && i in v0.inodes
  {
    && k <= done < k + n && Stop(off + k, n, done - k) && done <= readable && Room(v0, i, off, done)
    && (forall x: nat :: done < x && StopIn(off, k, n, x) ==> readable < x || !Room(v0, i, off, x))
    && hi == if Room(v0, i, off, k + NextStop(off + k, n, done - k)) then readable else done
  }

  /** filewrite returns n if and only if the write starts inside the file, stays below the largest file, can read its
      source, and finds free blocks for all that is missing. */
  lemma FileWriteIff(v0: Vol, i: nat, off: nat, src: seq<Byte>, readable: nat, done: nat, hi: nat)
    requires FileExact(v0, i, off, src, readable, done, hi) && readable <= |src|
    ensures done == |src| <==>
              && |src| <= readable && Room(v0, i, off, |src|)
              && (|src| > 0 ==> off <= v0.inodes[i].size && off + |src| <= MAXFILE * BSIZE)
  {
    hide Room, Shape, NextStop;
    if done < |src| && Room(v0, i, off, |src|) {
      var k, n := ChunkFrom(done), ChunkSize(|src|, ChunkFrom(done));
      RoomMono(v0, i, off, k + n, |src|);
      assert StopIn(off, k, n, k + n);
    }
  }

  lemma WroteAll(v0: Vol, ow0: Owners, v: Vol, ow: Owners, i: nat, off: nat, src: seq<Byte>, readable: nat)
    requires Progress(v0, ow0, v, ow, i, off, src, |src|, |src|) && Filled(v0, ow0, v, ow, i, off, |src|)
    requires |src| <= readable && (|src| > 0 ==> off + |src| <= MAXFILE * BSIZE)
    ensures FileExact(v0, i, off, src, readable, |src|, |src|)
  {
    hide Room, FileWritten, Filled, Shape, Ptr, Used;
    ValidOwned(v0, ow0);
    ValidOwned(v, ow);
    hide Valid, Owned;
    FilledRoom(v0, ow0, v, ow, i, off, |src|);
  }

  lemma ChunkExact(v0: Vol, ow0: Owners, u: Vol, ow: Owners, v: Vol, ow': Owners, lg: set<nat>,
                   i: nat, off: nat, src: seq<Byte>, readable: nat, k: nat, n: nat, rd: nat, r: int, hi: nat)
    requires Progress(v0, ow0, u, ow, i, off, src, k, k) && Filled(v0, ow0, u, ow, i, off, k)
    requires AtChunk(k, |src|) && k < |src| && n == ChunkSize(|src|, k)
    requires off + |src| < WORD && k <= readable <= |src| && rd == if readable < k + n then readable - k else n
    requires WriteResult(u, ow, {}, v, ow', lg, i, src[k..k + n], rd, off + k, r, hi)
    requires WriteExact(u, ow, {}, v, ow', lg, i, src[k..k + n], rd, off + k, r, hi)
    ensures r == n ==> Filled(v0, ow0, v, ow', i, off, k + n) && off + k + n <= MAXFILE * BSIZE
    ensures r != n ==> FileExact(v0, i, off, src, readable, k + (if r > 0 then r else 0), k + hi)
  {
    hide Progress, WriteResult, Filled, FileExact, WriteExact;
    ChunkRefusal(v0, ow0, u, ow, v, ow', lg, i, off, src, k, n, rd, r, hi);
    ProgressOwned(v0, ow0, u, ow, i, off, src, k);
    FilledRoom(v0, ow0, u, ow, i, off, k);
    assert r != -1 ==> r >= 0;
    if r == n {
      ExactFilled(u, ow, v, ow', lg, i, src[k..k + n], rd, off + k, r, hi);
      FilledJoin(v0, ow0, u, ow, v, ow', i, off, k, n);
    } else if r == -1 {
      RefusedExact(v0, i, off, src, readable, k, n);
    } else {
      ExactEnds(u, ow, v, ow', lg, i, src[k..k + n], rd, off + k, r, hi);
      EndsInChunk(v0, ow0, u, ow, i, off, src, readable, k, n, rd, r, hi);
    }
  }

  lemma ExactFilled(u: Vol, ow: Owners, v: Vol, ow': Owners, lg: set<nat>, i: nat, src: seq<Byte>, rd: nat, off: nat,
                    r: int, hi: nat)
    requires WriteExact(u, ow, {}, v, ow', lg, i, src, rd, off, r, hi) && r == |src|
    ensures Filled(u, ow, v, ow', i, off, |src|)
  {
    hide Room, Filled, Spoiled, AllLogged, Shape;
  }

  lemma ExactEnds(u: Vol, ow: Owners, v: Vol, ow': Owners, lg: set<nat>, i: nat, src: seq<Byte>, rd: nat, off: nat,
                  r: int, hi: nat)
    requires WriteExact(u, ow, {}, v, ow', lg, i, src, rd, off, r, hi) && 0 <= r < |src|
    ensures Shape(u) && i in u.inodes && EndsAt(u, i, off, |src|, rd, r)
    ensures hi == if Room(u, i, off, NextStop(off, |src|, r)) then rd else r
  {
    hide Room, Filled, Spoiled, AllLogged, Shape;
  }

  lemma ProgressOwned(v0: Vol, ow0: Owners, v: Vol, ow: Owners, i: nat, off: nat, src: seq<Byte>, k: nat)
    requires Progress(v0, ow0, v, ow, i, off, src, k, k)
    ensures Owned(v0, ow0) && Owned(v, ow) && Shape(v0) && i in v0.inodes
    ensures k > 0 ==> off <= v0.inodes[i].size
  {
    hide Used, Ptr, FileWritten;
  }

  /** When a chunk is refused, in terms of the file that filewrite found. */
  lemma ChunkRefusal(v0: Vol, ow0: Owners, u: Vol, ow: Owners, v: Vol, ow': Owners, lg: set<nat>,
                     i: nat, off: nat, src: seq<Byte>, k: nat, n: nat, rd: nat, r: int, hi: nat)
    requires Progress(v0, ow0, u, ow, i, off, src, k, k) && k + n <= |src| && off + |src| < WORD
    requires WriteResult(u, ow, {}, v, ow', lg, i, src[k..k + n], rd, off + k, r, hi)
    ensures -1 <= r <= n && i in v0.inodes && (r == -1 ==> hi == 0)
    ensures r == -1 <==> off > v0.inodes[i].size || off + k + n > MAXFILE * BSIZE
  {
    hide Valid, FileWritten;
    if off <= v0.inodes[i].size {
      FileWrittenSize(v0, ow0, u, ow, i, off, src[..k], Max(v0.inodes[i].size, off + k));
    }
  }

  /** Chunks begin at multiples of CHUNK. */
  predicate AtChunk(k: nat, n: nat) { k == n || k % CHUNK == 0 }

  lemma FirstChunk(n: nat)
    ensures AtChunk(0, n)
  {
  }

  lemma NextChunk(k: nat, n: nat, n1: nat)
    requires AtChunk(k, n) && k < n && n1 == ChunkSize(n, k)
    ensures AtChunk(k + n1, n)
  {
  }

  lemma ChunkStart(k: nat, n: nat, d: nat)
    requires k % CHUNK == 0 && d < n <= CHUNK
    ensures ChunkFrom(k + d) == k
  {
  }

  lemma RefusedExact(v0: Vol, i: nat, off: nat, src: seq<Byte>, readable: nat, k: nat, n: nat)
    requires Shape(v0) && i in v0.inodes && k % CHUNK == 0 && k < |src| && k <= readable && Room(v0, i, off, k)
    requires n == ChunkSize(|src|, k) && (k > 0 ==> off <= v0.inodes[i].size)
    requires off > v0.inodes[i].size || off + k + n > MAXFILE * BSIZE
    ensures FileExact(v0, i, off, src, readable, k, k)
  {
    hide Room, Shape, ChunkEnds;
    ChunkStart(k, n, 0);
  }

  lemma EndsInChunk(v0: Vol, ow0: Owners, u: Vol, ow: Owners, i: nat, off: nat, src: seq<Byte>, readable: nat,
                    k: nat, n: nat, rd: nat, r: nat, hi: nat)
    requires Owned(v0, ow0) && Owned(u, ow) && Filled(v0, ow0, u, ow, i, off, k)
    requires AtChunk(k, |src|) && k < |src| && n == ChunkSize(|src|, k) && r < n
    requires k <= readable <= |src| && rd == if readable < k + n then readable - k else n
    requires EndsAt(u, i, off + k, n, rd, r) && hi == if Room(u, i, off + k, NextStop(off + k, n, r)) then rd else r
    requires off <= v0.inodes[i].size && off + k + n <= MAXFILE * BSIZE && Room(v0, i, off, k)
    ensures FileExact(v0, i, off, src, readable, k + r, k + hi)
  {
    hide Room, Shape, NextStop, Stop, Owned, Missing, Behind, Ptr;
    ChunkStart(k, n, r);
    var y := NextStop(off + k, n, r);
    RoomRest(v0, ow0, u, ow, i, off, k, r);
    RoomRest(v0, ow0, u, ow, i, off, k, y);
    NextStopStep(off + k, n, r);
    StopLimit(off + k, n, y);
    if Room(u, i, off + k, y) { assert rd < n by { StopsBefore(u, i, off + k, n, rd, r, y); } }
    forall x: nat | k + r < x && StopIn(off, k, n, x) ensures readable < x || !Room(v0, i, off, x) {
      RoomRest(v0, ow0, u, ow, i, off, k, x - k);
      StopLimit(off + k, n, x - k);
    }
    assert ChunkEnds(v0, i, off, k, n, readable, k + r, k + hi);
  }

  lemma StopLimit(off: nat, n: nat, x: nat)
    ensures Stop(off, n, x) ==> x <= n
  {
  }

  lemma StopsBefore(u: Vol, i: nat, off: nat, n: nat, rd: nat, r: nat, y: nat)
    requires Shape(u) && i in u.inodes && EndsAt(u, i, off, n, rd, r) && r < n && y == NextStop(off, n, r)
    requires Room(u, i, off, y)
    ensures rd < y <= n
  {
    hide Room, Shape;
    NextStopStep(off, n, r);
    assert Stop(off, n, y);
  }

  // ---------------------------------------------------------------- readi

  ghost predicate ReadResult(v: Vol, ow: Owners, i: nat, off: nat, n: nat, room: nat, r: int, out: seq<Byte>)
  {
    && Valid(v, ow) && i in v.inodes
    && var size := v.inodes[i].size;
       var len := if off > size || off + n >= WORD then 0 else if off + n > size then size - off else n;
       if r == -1 then out == [] && room < len
       else len <= room && r == len == |out| && (len > 0 ==> out == File(v, ow, i)[off..off + len])
  }

  /** What was written is what a read of the same range returns. */
  lemma WriteReadBack(v0: Vol, ow0: Owners, v: Vol, ow: Owners, i: nat, off: nat, bytes: seq<Byte>, len: nat,
                      room: nat, r: int, out: seq<Byte>)
    requires FileWritten(v0, ow0, v, ow, i, off, bytes, len) && bytes != [] && off + |bytes| <= len
    requires off + |bytes| < WORD
    requires ReadResult(v, ow, i, off, |bytes|, room, r, out)
    ensures r == -1 ==> room < |bytes|
    ensures r != -1 ==> r == |bytes| && out == bytes
  {
    hide Valid, File;
  }

  ghost predicate Reading(v: Vol, ow: Owners, i: nat, off: nat, tot: nat, out: seq<Byte>)
  {
    && Valid(v, ow) && i in v.inodes && off + tot <= v.inodes[i].size && out == File(v, ow, i)[off..off + tot]
  }

  lemma ReadNothing(v: Vol, ow: Owners, i: nat, off: nat, n: nat, room: nat)
    requires Valid(v, ow) && i in v.inodes && (off > v.inodes[i].size || off + n >= WORD)
    ensures ReadResult(v, ow, i, off, n, room, 0, [])
  {
    hide Valid;
  }

  lemma ReadStart(v: Vol, ow: Owners, i: nat, off: nat)
    requires Valid(v, ow) && i in v.inodes && off <= v.inodes[i].size
    ensures Reading(v, ow, i, off, 0, [])
  {
    hide Valid;
  }

  lemma ReadMapped(v: Vol, ow: Owners, i: nat, x: nat)
    requires Valid(v, ow) && i in v.inodes && x < v.inodes[i].size
    ensures Owned(v, ow) && Shape(v) && x / BSIZE < MAXFILE && 0 < Ptr(v, i, x / BSIZE) < |v.blocks|
  {
    InFile(v, ow, i, x);
    hide Ptr;
  }

  lemma UnchangedMap(v0: Vol, ow0: Owners, lg0: set<nat>, v: Vol, ow: Owners, lg: set<nat>, i: nat, bn: nat, addr: nat,
                     maps: set<nat>)
    requires BlockMapped(v0, ow0, lg0, v, ow, lg, i, bn, addr, maps) && Ptr(v0, i, bn) != 0
    ensures v == v0 && lg == lg0 && ow == ow0 && addr == Ptr(v0, i, bn)
  {
    hide Ptr, Used;
    OwnersUnique(v0, ow0, ow);
  }

  /** The owners are determined by the volume. */
  lemma OwnersUnique(v: Vol, ow: Owners, ow': Owners)
    requires Owned(v, ow) && Owned(v, ow')
    ensures ow == ow'
  {
    hide Ptr, Used;
    forall b | b in ow ensures b in ow' && ow'[b] == ow[b] {
      assert Ptr(v, ow[b].inum, ow[b].k) == b;
    }
    forall b | b in ow' ensures b in ow {
      assert Ptr(v, ow'[b].inum, ow'[b].k) == b;
    }
  }

  lemma ReadFault(v: Vol, ow: Owners, i: nat, off: nat, n: nat, room: nat, tot: nat)
    requires Valid(v, ow) && i in v.inodes && off <= v.inodes[i].size && off + n < WORD
    requires room < tot && off + tot <= v.inodes[i].size && tot <= n
    ensures ReadResult(v, ow, i, off, n, room, -1, [])
  {
    hide Valid;
  }

  lemma ReadStep(v: Vol, ow: Owners, i: nat, off: nat, tot: nat, m: nat, out: seq<Byte>)
    requires Reading(v, ow, i, off, tot, out) && off + tot + m <= v.inodes[i].size && 0 < m
    requires (off + tot) % BSIZE + m <= BSIZE
    requires Shape(v) && (off + tot) / BSIZE < MAXFILE && Ptr(v, i, (off + tot) / BSIZE) < |v.blocks|
    ensures Reading(v, ow, i, off, tot + m,
                    out + v.blocks[Ptr(v, i, (off + tot) / BSIZE)][(off + tot) % BSIZE..(off + tot) % BSIZE + m])
  {
    hide Valid, Ptr, File, Shape;
    var a := off + tot;
    var chunk := v.blocks[Ptr(v, i, a / BSIZE)][a % BSIZE..a % BSIZE + m];
    var f := File(v, ow, i);
    forall x | a <= x < a + m ensures File(v, ow, i)[x] == chunk[x - a] {
      SameBlock(a, x);
      FileAt(v, ow, i, x);
    }
    SliceJoin(f, off, a, m, chunk);
  }

  lemma SliceJoin(f: seq<Byte>, off: nat, a: nat, m: nat, chunk: seq<Byte>)
    requires off <= a && a + m <= |f| && |chunk| == m && forall x :: a <= x < a + m ==> f[x] == chunk[x - a]
    ensures f[off..a] + chunk == f[off..a + m]
  {
  }

  lemma ReadDone(v: Vol, ow: Owners, i: nat, off: nat, n: nat, room: nat, len: nat, out: seq<Byte>)
    requires Reading(v, ow, i, off, len, out) && off + n < WORD && off <= v.inodes[i].size && len <= room
    requires len == if off + n > v.inodes[i].size then v.inodes[i].size - off else n
    ensures ReadResult(v, ow, i, off, n, room, len, out)
  {
    hide Valid, File;
  }

  // ---------------------------------------------------------------- itrunc

  lemma NothingLogged(v: Vol, lg: set<nat>)
    ensures BitmapLogged(v, lg, v, lg)
  {
  }

  lemma DirectBlocks(v: Vol, i: nat, k: nat)
    requires Shape(v) && i in v.inodes && k < NDIRECT && 0 < v.sb.size
    ensures SetPtr(v, i, k, 0).blocks == v.blocks && SetPtr(v, i, k, 0).sb == v.sb
  {
  }

  lemma EmptiedBlocks(v: Vol, i: nat)
    requires i in v.inodes
    ensures Emptied(v, i).blocks == v.blocks && Emptied(v, i).sb == v.sb
  {
  }

  lemma TruncStart(v: Vol, ow: Owners, i: nat)
    requires Valid(v, ow) && i in v.inodes
    ensures Truncating(v, ow, v, i, 0)
  {
    TruncatingStart(v, ow, i);
  }

  lemma TruncDirect(v: Vol, ow: Owners, w: Vol, i: nat, k: nat)
    requires Truncating(v, ow, w, i, k) && k < NDIRECT
    ensures Shape(v) && Shape(w) && i in v.inodes && i in w.inodes && |w.inodes[i].addrs| == NDIRECT + 1
    ensures w.inodes[i].addrs[k] == Ptr(v, i, k)
  {
    assert InodeShape(w, i);
  }

  lemma TruncIndirect(v: Vol, ow: Owners, w: Vol, i: nat, p: nat)
    requires Truncating(v, ow, w, i, p)
    ensures Shape(v) && Shape(w) && i in v.inodes && i in w.inodes && |w.inodes[i].addrs| == NDIRECT + 1
    ensures w.inodes[i].addrs[NDIRECT] == Ptr(v, i, INDIRECT)
  {
    assert InodeShape(w, i);
  }

  lemma {:induction false} TruncNoneFrom(v: Vol, ow: Owners, w: Vol, i: nat, p: nat)
    requires NDIRECT <= p <= MAXFILE + 1 && Truncating(v, ow, w, i, p) && Ptr(v, i, INDIRECT) == 0
    ensures Truncating(v, ow, w, i, MAXFILE + 1)
    decreases MAXFILE + 1 - p
  {
    if p <= MAXFILE {
      assert Ptr(v, i, p) == 0;
      hide Truncating, Ptr;
      TruncatingSkip(v, ow, w, i, p);
      TruncNoneFrom(v, ow, w, i, p + 1);
    }
  }

  lemma TruncNone(v: Vol, ow: Owners, w: Vol, i: nat)
    requires Truncating(v, ow, w, i, NDIRECT) && i in v.inodes && Ptr(v, i, INDIRECT) == 0
    ensures Truncating(v, ow, w, i, MAXFILE + 1)
  {
    hide Truncating, Ptr;
    TruncNoneFrom(v, ow, w, i, NDIRECT);
  }

  lemma TruncKeys(v: Vol, ow: Owners, w: Vol, i: nat)
    requires Truncating(v, ow, w, i, MAXFILE + 1)
    ensures i in w.inodes && w.sb == v.sb
  {
  }

  /** The indirect block is still intact when itrunc reads it. */
  lemma TruncEntries(v: Vol, ow: Owners, w: Vol, i: nat, p: nat)
    requires Truncating(v, ow, w, i, p) && Ptr(v, i, INDIRECT) != 0
    ensures Shape(v) && Ptr(v, i, INDIRECT) < |w.blocks| && |w.blocks| == |v.blocks|
    ensures w.blocks[Ptr(v, i, INDIRECT)] == v.blocks[Ptr(v, i, INDIRECT)]
  {
    IndirectOwner(v, ow, i);
    hide Ptr, Used;
  }

  lemma TruncEntry(v: Vol, ow: Owners, w: Vol, p: nat, i: nat, j: nat, ind: nat)
    requires Truncating(v, ow, w, i, p) && j < NINDIRECT && ind == Ptr(v, i, INDIRECT) && ind != 0
    ensures ind < |v.blocks| && Ptr(v, i, NDIRECT + j) == GetWord(v.blocks[ind], j)
  {
    hide Used, GetWord;
  }
}
