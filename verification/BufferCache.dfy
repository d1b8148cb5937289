/** The block cache (kernel/bio.c): buffers on a circular doubly linked list in order of last release. */
module BufferCache {
  import opened Bytes

  const NBUF: nat := 30
  /** The list head, numbered after the buffers. */
  const HEAD: nat := 30

  datatype Key = Key(dev: nat, blockno: nat)

  datatype Buf = Buf(key: Key, refcnt: nat, valid: bool, data: Block)

  // ---------------------------------------------------------------- the ring

  function After(n: nat, i: nat): nat
    requires i < n
  {
    if i + 1 < n then i + 1 else 0
  }

  ghost predicate Link(next: seq<nat>, prev: seq<nat>, r: seq<nat>, i: nat)
    requires i < |r|
  {
    && r[i] < |next| && r[After(|r|, i)] < |prev|
    && next[r[i]] == r[After(|r|, i)] && prev[r[After(|r|, i)]] == r[i]
  }

  /** `r` lists the nodes of one circle, starting at the head, each once. */
  ghost predicate Ring(next: seq<nat>, prev: seq<nat>, r: seq<nat>)
  {
    && |next| == |prev| == NBUF + 1
    && |r| >= 1 && r[0] == HEAD
    && (forall i, j :: 0 <= i < j < |r| ==> r[i] != r[j])
    && (forall i: nat :: i < |r| ==> Link(next, prev, r, i))
  }

  lemma LinkOf(next: seq<nat>, prev: seq<nat>, r: seq<nat>, i: nat)
    requires Ring(next, prev, r) && i < |r|
    ensures r[i] <= NBUF && next[r[i]] == r[After(|r|, i)] && prev[r[i]] == r[if i == 0 then |r| - 1 else i - 1]
  {
    assert Link(next, prev, r, i);
    assert Link(next, prev, r, if i == 0 then |r| - 1 else i - 1);
  }

  function Drop(r: seq<nat>, k: nat): seq<nat>
    requires k < |r|
  {
    r[..k] + r[k + 1..]
  }

  /** Taking node `r[k]` out of the circle. */
  lemma RingDrop(next: seq<nat>, prev: seq<nat>, r: seq<nat>, k: nat)
    requires Ring(next, prev, r) && 1 <= k < |r|
    requires r[k] <= NBUF && next[r[k]] <= NBUF && prev[r[k]] <= NBUF
    ensures Ring(next[prev[r[k]] := next[r[k]]], prev[next[r[k]] := prev[r[k]]], Drop(r, k))
  {
    hide Link;
    LinkOf(next, prev, r, k);
    LinkOf(next, prev, r, k - 1);
    LinkOf(next, prev, r, After(|r|, k));
    var next', prev', q := next[prev[r[k]] := next[r[k]]], prev[next[r[k]] := prev[r[k]]], Drop(r, k);
    forall i: nat | i < |q| ensures Link(next', prev', q, i) {
      var a := if i < k then i else i + 1;
      assert q[i] == r[a];
      LinkOf(next, prev, r, a);
      DropLink(next, prev, r, k, i);
    }
  }

  lemma DropLink(next: seq<nat>, prev: seq<nat>, r: seq<nat>, k: nat, i: nat)
    requires Ring(next, prev, r) && 1 <= k < |r| && i < |r| - 1
    requires r[k] <= NBUF && next[r[k]] <= NBUF && prev[r[k]] <= NBUF
    ensures Link(next[prev[r[k]] := next[r[k]]], prev[next[r[k]] := prev[r[k]]], Drop(r, k), i)
  {
    var q, n := Drop(r, k), |r|;
    var a := if i < k then i else i + 1;
    var j := After(|q|, i);
    var b := if j < k then j else j + 1;
    assert q[i] == r[a] && q[j] == r[b];
    LinkOf(next, prev, r, k);
    LinkOf(next, prev, r, a);
    LinkOf(next, prev, r, b);
  }

  /** Putting node `b` in right after the head. */
  function Push(r: seq<nat>, b: nat): seq<nat>
    requires |r| >= 1
  {
    [r[0], b] + r[1..]
  }

  lemma PushLink(next: seq<nat>, prev: seq<nat>, r: seq<nat>, b: nat, i: nat)
    requires Ring(next, prev, r) && b < NBUF && b !in r && i < |r| + 1 && next[HEAD] <= NBUF
    ensures Link(next[b := next[HEAD]][HEAD := b], prev[b := HEAD][next[HEAD] := b], Push(r, b), i)
  {
    var q := Push(r, b);
    LinkOf(next, prev, r, 0);
    var j := After(|q|, i);
    if 2 <= i { LinkOf(next, prev, r, i - 1); }
    if 2 <= j { LinkOf(next, prev, r, j - 1); }
    if i == 0 || i == 1 { LinkOf(next, prev, r, After(|r|, 0)); }
  }

  lemma RingPush(next: seq<nat>, prev: seq<nat>, r: seq<nat>, b: nat)
    requires Ring(next, prev, r) && b < NBUF && b !in r && next[HEAD] <= NBUF
    ensures Ring(next[b := next[HEAD]][HEAD := b], prev[b := HEAD][next[HEAD] := b], Push(r, b))
  {
    hide Link;
    var next', prev', q := next[b := next[HEAD]][HEAD := b], prev[b := HEAD][next[HEAD] := b], Push(r, b);
    forall i: nat | i < |q| ensures Link(next', prev', q, i) {
      PushLink(next, prev, r, b, i);
    }
  }

  // ---------------------------------------------------------------- keys and contents

  /** At most one buffer holds a given block, unless it is block 0 of device 0, which all buffers name at first. */
  ghost predicate Unique(bufs: seq<Buf>)
  {
    forall i, j :: 0 <= i < j < |bufs| && bufs[i].key != Key(0, 0) ==> bufs[i].key != bufs[j].key
  }

  function Get(m: map<Key, Block>, k: Key): Block { if k in m then m[k] else ZeroBlock() }

  ghost predicate Cached(bufs: seq<Buf>, k: Key) { exists i :: 0 <= i < |bufs| && bufs[i].valid && bufs[i].key == k }

  /** Reads through the cache see `logical`: a valid buffer holds the logical block, and the disk holds it where
      there is no valid buffer. */
  ghost predicate Reads(bufs: seq<Buf>, disk: map<Key, Block>, logical: map<Key, Block>)
  {
    && (forall i :: 0 <= i < |bufs| && bufs[i].valid && bufs[i].key != Key(0, 0) ==>
          bufs[i].data == Get(logical, bufs[i].key))
    && (forall k: Key :: k != Key(0, 0) && !Cached(bufs, k) ==> Get(disk, k) == Get(logical, k))
  }

  ghost predicate IsClean(b: Buf, disk: map<Key, Block>)
  {
    b.valid && b.key != Key(0, 0) ==> Get(disk, b.key) == b.data
  }

  /** No unreferenced buffer is dirty. */
  ghost predicate Clean(bufs: seq<Buf>, disk: map<Key, Block>)
  {
    forall i :: 0 <= i < |bufs| && bufs[i].refcnt == 0 ==> IsClean(bufs[i], disk)
  }

  ghost predicate Coherent(bufs: seq<Buf>, disk: map<Key, Block>, logical: map<Key, Block>)
  {
    Unique(bufs) && Reads(bufs, disk, logical) && Clean(bufs, disk)
  }

  ghost predicate Holds(bufs: seq<Buf>, k: Key) { exists i :: 0 <= i < |bufs| && bufs[i].key == k }

  function Recycled(bufs: seq<Buf>, v: nat, k: Key): seq<Buf>
    requires v < |bufs|
  {
    bufs[v := Buf(k, 1, false, bufs[v].data)]
  }

  /** Recycling a buffer is invisible to readers exactly when the buffer is clean. */
  lemma RecycleIff(bufs: seq<Buf>, disk: map<Key, Block>, logical: map<Key, Block>, v: nat, k: Key)
    requires Unique(bufs) && Reads(bufs, disk, logical) && v < |bufs| && !Holds(bufs, k)
    ensures Unique(Recycled(bufs, v, k))
    ensures Reads(Recycled(bufs, v, k), disk, logical) <==> IsClean(bufs[v], disk)
  {
    var after, was := Recycled(bufs, v, k), bufs[v];
    forall q: Key | q != was.key ensures Cached(after, q) <==> Cached(bufs, q) {
      if i :| 0 <= i < |bufs| && bufs[i].valid && bufs[i].key == q { assert after[i] == bufs[i]; }
      if i :| 0 <= i < |after| && after[i].valid && after[i].key == q { assert after[i] == bufs[i]; }
    }
    if was.valid && was.key != Key(0, 0) {
      assert Cached(bufs, was.key);
      assert !Cached(after, was.key);
    } else if was.key != Key(0, 0) {
      assert !Cached(bufs, was.key);
    }
    assert forall i :: 0 <= i < |after| && after[i].valid ==> after[i] == bufs[i];
  }

  lemma RecycleKeeps(bufs: seq<Buf>, disk: map<Key, Block>, logical: map<Key, Block>, v: nat, k: Key)
    requires Coherent(bufs, disk, logical) && v < |bufs| && !Holds(bufs, k) && bufs[v].refcnt == 0
    ensures Coherent(Recycled(bufs, v, k), disk, logical)
  {
    hide Reads, Unique, Holds;
    RecycleIff(bufs, disk, logical, v, k);
    var after := Recycled(bufs, v, k);
    forall i | 0 <= i < |after| && after[i].refcnt == 0 ensures IsClean(after[i], disk) { assert after[i] == bufs[i]; }
  }

  /** A change of one buffer that keeps its key and that leaves it valid. */
  lemma ChangeKeeps(bufs: seq<Buf>, disk: map<Key, Block>, logical: map<Key, Block>, b: nat, x: Buf,
                    disk': map<Key, Block>, logical': map<Key, Block>)
    requires Coherent(bufs, disk, logical) && b < |bufs| && x.key == bufs[b].key && x.valid == bufs[b].valid
    requires forall k: Key :: k != x.key ==> Get(disk', k) == Get(disk, k) && Get(logical', k) == Get(logical, k)
    requires x.valid && x.key != Key(0, 0) ==> x.data == Get(logical', x.key)
    requires !x.valid ==> Get(disk', x.key) == Get(disk, x.key) && Get(logical', x.key) == Get(logical, x.key)
    requires x.refcnt == 0 ==> IsClean(x, disk')
    ensures Coherent(bufs[b := x], disk', logical')
  {
    var after := bufs[b := x];
    forall k: Key ensures Cached(after, k) <==> Cached(bufs, k) {
      if i :| 0 <= i < |bufs| && bufs[i].valid && bufs[i].key == k { assert after[i].valid && after[i].key == k; }
      if i :| 0 <= i < |after| && after[i].valid && after[i].key == k { assert bufs[i].valid && bufs[i].key == k; }
    }
    forall i | 0 <= i < |after| && after[i].valid && after[i].key != Key(0, 0)
      ensures after[i].data == Get(logical', after[i].key)
    {
      if i != b { assert after[i] == bufs[i] && bufs[i].key != bufs[b].key; }
    }
    forall i | 0 <= i < |after| && after[i].refcnt == 0 ensures IsClean(after[i], disk') {
      if i != b {
        assert IsClean(bufs[i], disk);
        assert bufs[i].key != Key(0, 0) ==> bufs[i].key != bufs[b].key;
      }
    }
    forall k: Key | k != Key(0, 0) && !Cached(after, k) ensures Get(disk', k) == Get(logical', k) {
      assert !Cached(bufs, k);
      assert x.valid ==> Cached(after, x.key) by { if x.valid { assert after[b].valid && after[b].key == x.key; } }
    }
  }

  /** Reading the block from disk into its buffer. */
  lemma LoadKeeps(bufs: seq<Buf>, disk: map<Key, Block>, logical: map<Key, Block>, b: nat)
    requires Coherent(bufs, disk, logical) && b < |bufs| && !bufs[b].valid && bufs[b].refcnt > 0
    ensures Coherent(bufs[b := bufs[b].(valid := true, data := Get(disk, bufs[b].key))], disk, logical)
  {
    var x := bufs[b].(valid := true, data := Get(disk, bufs[b].key));
    var after := bufs[b := x];
    if x.key != Key(0, 0) {
      assert !Cached(bufs, x.key);
    }
    forall k: Key | k != x.key ensures Cached(after, k) <==> Cached(bufs, k) {
      if i :| 0 <= i < |bufs| && bufs[i].valid && bufs[i].key == k { assert after[i] == bufs[i]; }
      if i :| 0 <= i < |after| && after[i].valid && after[i].key == k { assert after[i] == bufs[i]; }
    }
    assert after[b].valid && Cached(after, x.key);
  }

  // ---------------------------------------------------------------- recency

  /** The ring holds every buffer, in descending order of the time of its last release. */
  ghost predicate Recency(r: seq<nat>, stamp: seq<nat>, clock: nat)
  {
    && |r| == NBUF + 1 && |stamp| == NBUF
    && (forall b: nat :: b <= NBUF ==> b in r)
    && (forall i :: 1 <= i < |r| ==> r[i] < NBUF && stamp[r[i]] < clock)
    && (forall i, j :: 1 <= i < j < |r| ==> r[i] < NBUF && r[j] < NBUF && stamp[r[i]] > stamp[r[j]])
  }

  lemma RecencyMoved(r: seq<nat>, stamp: seq<nat>, clock: nat, k: nat)
    requires Recency(r, stamp, clock) && 1 <= k < |r| && r[0] == HEAD
    requires forall i, j :: 0 <= i < j < |r| ==> r[i] != r[j]
    ensures r[k] < NBUF && Recency(Push(Drop(r, k), r[k]), stamp[r[k] := clock], clock + 1)
  {
    var q, b := Push(Drop(r, k), r[k]), r[k];
    forall i | 2 <= i < |q| ensures q[i] == r[if i - 1 < k then i - 1 else i] { }
    forall x: nat | x <= NBUF ensures x in q {
      assert x in r;
      var i :| 0 <= i < |r| && r[i] == x;
      if i == 0 { assert q[0] == x; }
      else if i == k { assert q[1] == x; }
      else { assert q[if i < k then i + 1 else i] == x; }
    }
  }

  datatype Got = Found(b: nat) | NoBuffers

  class Cache {
    var next: seq<nat>
    var prev: seq<nat>
    var bufs: seq<Buf>
    var disk: map<Key, Block>
    /** The ring, the time of each buffer's last release, and the logical contents of the disk. */
    ghost var r: seq<nat>
    ghost var stamp: seq<nat>
    ghost var clock: nat
    ghost var logical: map<Key, Block>

    ghost predicate Valid()
      reads this
    {
      && |bufs| == NBUF && Ring(next, prev, r) && Recency(r, stamp, clock)
      && Coherent(bufs, disk, logical)
    }

    /** binit: the buffers go to the front of the list one by one, so that the last is the most recent. All of
        them name block 0 of device 0. */
    constructor (d: map<Key, Block>)
      ensures Valid() && disk == d && logical == d
      ensures forall i :: 0 <= i < NBUF ==> bufs[i] == Buf(Key(0, 0), 0, false, ZeroBlock())
      ensures forall i, j :: 0 <= i < j < NBUF ==> stamp[i] < stamp[j]
    {
      var nx: seq<nat>, pv: seq<nat> := seq(NBUF + 1, _ => HEAD), seq(NBUF + 1, _ => HEAD);
      ghost var q: seq<nat> := [HEAD];
      assert Ring(nx, pv, q) by { assert Link(nx, pv, q, 0); }
      var b: nat := 0;
      while b < NBUF
        invariant 0 <= b <= NBUF && Ring(nx, pv, q) && |q| == b + 1
        invariant forall i :: 1 <= i < |q| ==> q[i] == b - i
      {
        LinkOf(nx, pv, q, 0);
        assert nx[HEAD] <= NBUF by { LinkOf(nx, pv, q, After(|q|, 0)); }
        RingPush(nx, pv, q, b);
        var first := nx[HEAD];
        nx := nx[b := first];
        pv := pv[b := HEAD];
        pv := pv[first := b];
        nx := nx[HEAD := b];
        q := Push(q, b);
        b := b + 1;
      }
      next, prev, disk, logical, r := nx, pv, d, d, q;
      bufs := seq(NBUF, _ => Buf(Key(0, 0), 0, false, ZeroBlock()));
      stamp, clock := seq(NBUF, i => i), NBUF;
      new;
      forall x: nat | x <= NBUF ensures x in r { if x < NBUF { assert r[NBUF - x] == x; } else { assert r[0] == x; } }
    }

    /** bget: the buffer of the block if there is one, else the unreferenced buffer released longest ago, else
        a panic; in each case no other buffer changes. */
    method Bget(k: Key) returns (g: Got)
      requires Valid()
      modifies this`bufs
      ensures Valid()
      ensures g.Found? ==> g.b < NBUF && bufs == old(bufs)[g.b := bufs[g.b]] && bufs[g.b].key == k
      ensures g.Found? && Holds(old(bufs), k) ==>
                bufs[g.b] == old(bufs)[g.b].(refcnt := old(bufs)[g.b].refcnt + 1)
      ensures g.Found? && !Holds(old(bufs), k) ==>
                && old(bufs)[g.b].refcnt == 0 && bufs[g.b].refcnt == 1 && !bufs[g.b].valid
                && (forall j :: 0 <= j < NBUF && old(bufs)[j].refcnt == 0 ==> stamp[g.b] <= stamp[j])
      ensures g.NoBuffers? <==> !Holds(old(bufs), k) && forall j :: 0 <= j < NBUF ==> old(bufs)[j].refcnt > 0
      ensures g.NoBuffers? ==> bufs == old(bufs)
    {
      hide Coherent, Ring, Recency, Holds, Recycled;
      var b := Search(k);
      if b != HEAD {
        HitKeeps(bufs, disk, logical, b);
        HoldsAt(bufs, b);
        bufs := bufs[b := bufs[b].(refcnt := bufs[b].refcnt + 1)];
        return Found(b);
      }
      b := Victim();
      if b != HEAD {
        RecycleKeeps(bufs, disk, logical, b, k);
        RecycledIs(bufs, b, k);
        bufs := bufs[b := bufs[b].(key := k, valid := false, refcnt := 1)];
        return Found(b);
      }
      g := NoBuffers;
    }

    /** The first scan of bget. */
    method Search(k: Key) returns (b: nat)
      requires Valid()
      ensures b == HEAD <==> !Holds(bufs, k)
      ensures b != HEAD ==> b < NBUF && bufs[b].key == k
    {
      hide Coherent, Link, Holds;
      LinkOf(next, prev, r, 0);
      b := next[HEAD];
      ghost var i := 1;
      while b != HEAD
        invariant 1 <= i <= |r| && b == r[if i < |r| then i else 0]
        invariant forall j :: 1 <= j < i ==> bufs[r[j]].key != k
        decreases |r| - i
      {
        if bufs[b].key == k {
          HoldsAt(bufs, b);
          return;
        }
        LinkOf(next, prev, r, i);
        b := next[b];
        i := i + 1;
      }
      NotInRing(bufs, r, stamp, clock, k);
    }

    /** The second scan of bget, backwards. */
    method Victim() returns (b: nat)
      requires Valid()
      ensures b == HEAD <==> forall j :: 0 <= j < NBUF ==> bufs[j].refcnt > 0
      ensures b != HEAD ==> b < NBUF && bufs[b].refcnt == 0
      ensures b != HEAD ==> forall j :: 0 <= j < NBUF && bufs[j].refcnt == 0 ==> stamp[b] <= stamp[j]
    {
      hide Coherent, Link;
      LinkOf(next, prev, r, 0);
      b := prev[HEAD];
      ghost var i := |r| - 1;
      while b != HEAD
        invariant 0 <= i < |r| && b == r[i]
        invariant forall j :: i < j < |r| ==> bufs[r[j]].refcnt > 0
        decreases i
      {
        if bufs[b].refcnt == 0 {
          OldestFree(bufs, r, stamp, clock, i);
          return;
        }
        LinkOf(next, prev, r, i);
        b := prev[b];
        i := i - 1;
      }
      NoneFree(bufs, r, stamp, clock);
    }

    /** bread: the buffer holds the logical block, from the cache if it is there and from the disk if not, and has one
        more reference; a block that was not in the cache takes the buffer released longest ago. */
    method Bread(k: Key) returns (g: Got)
      requires Valid()
      modifies this`bufs
      ensures Valid()
      ensures g.Found? ==> g.b < NBUF && bufs[g.b].key == k && bufs[g.b].valid && bufs[g.b].refcnt > 0
      ensures g.Found? && k != Key(0, 0) ==> bufs[g.b].data == Get(logical, k)
      ensures g.Found? ==> forall j :: 0 <= j < NBUF && j != g.b ==> bufs[j] == old(bufs)[j]
      ensures g.Found? && Holds(old(bufs), k) ==>
                && bufs[g.b].refcnt == old(bufs)[g.b].refcnt + 1
                && bufs[g.b].data == if old(bufs)[g.b].valid then old(bufs)[g.b].data else Get(disk, k)
      ensures g.Found? && !Holds(old(bufs), k) ==>
                && bufs[g.b] == Buf(k, 1, true, Get(disk, k)) && old(bufs)[g.b].refcnt == 0
                && (forall j :: 0 <= j < NBUF && old(bufs)[j].refcnt == 0 ==> stamp[g.b] <= stamp[j])
      ensures g.NoBuffers? <==> !Holds(old(bufs), k) && forall j :: 0 <= j < NBUF ==> old(bufs)[j].refcnt > 0
      ensures g.NoBuffers? ==> bufs == old(bufs)
    {
      hide Ring, Recency, Unique, Clean;
      g := Bget(k);
      if g.NoBuffers? {
        return;
      }
      if !bufs[g.b].valid {
        LoadKeeps(bufs, disk, logical, g.b);
        bufs := bufs[g.b := bufs[g.b].(valid := true, data := Get(disk, k))];
      }
    }

    /** A client that holds the buffer stores into it. */
    method Store(b: nat, data: Block)
      requires Valid() && b < NBUF && bufs[b].refcnt > 0 && bufs[b].valid
      modifies this`bufs, this`logical
      ensures Valid() && bufs == old(bufs)[b := old(bufs)[b].(data := data)]
      ensures logical == old(logical)[bufs[b].key := data]
    {
      hide Ring, Recency, Unique, Clean;
      ChangeKeeps(bufs, disk, logical, b, bufs[b].(data := data), disk, logical[bufs[b].key := data]);
      logical := logical[bufs[b].key := data];
      bufs := bufs[b := bufs[b].(data := data)];
    }

    /** bwrite: the disk catches up with the buffer. */
    method Bwrite(b: nat)
      requires Valid() && b < NBUF && bufs[b].refcnt > 0 && bufs[b].valid
      modifies this`disk
      ensures Valid() && disk == old(disk)[bufs[b].key := bufs[b].data] && IsClean(bufs[b], disk)
    {
      hide Ring, Recency, Unique, Clean;
      ChangeKeeps(bufs, disk, logical, b, bufs[b], disk[bufs[b].key := bufs[b].data], logical);
      assert bufs[b := bufs[b]] == bufs;
      disk := disk[bufs[b].key := bufs[b].data];
    }

    /** brelse: the last reference moves the buffer to the front. Whoever drops it must have written the
        block, or have left it pinned in the log. */
    method Brelse(b: nat)
      requires Valid() && b < NBUF && bufs[b].refcnt > 0
      requires bufs[b].refcnt == 1 ==> IsClean(bufs[b], disk)
      modifies this`bufs, this`next, this`prev, this`r, this`stamp, this`clock
      ensures Valid() && bufs == old(bufs)[b := old(bufs)[b].(refcnt := old(bufs)[b].refcnt - 1)]
      ensures bufs[b].refcnt > 0 ==> r == old(r) && stamp == old(stamp)
      ensures bufs[b].refcnt == 0 ==> stamp == old(stamp)[b := old(clock)] && r[1] == b
      ensures bufs[b].refcnt == 0 ==> forall j :: 0 <= j < NBUF && j != b ==> stamp[j] < stamp[b]
    {
      hide Coherent, Link;
      DropKeeps(bufs, disk, logical, b);
      bufs := bufs[b := bufs[b].(refcnt := bufs[b].refcnt - 1)];
      if bufs[b].refcnt == 0 {
        ToFront(b);
      }
    }

    /** Unlink the buffer and link it again after the head. */
    method ToFront(b: nat)
      requires Valid() && b < NBUF
      modifies this`next, this`prev, this`r, this`stamp, this`clock
      ensures Valid() && stamp == old(stamp)[b := old(clock)] && r[1] == b
      ensures forall j :: 0 <= j < NBUF && j != b ==> stamp[j] < stamp[b]
    {
      hide Coherent, Ring, Recency;
      RingHead(next, prev, r);
      ghost var k := OnRing(r, stamp, clock, b);
      FrontRing(next, prev, r, k);
      RecencyMoved(r, stamp, clock, k);
      RecencyBound(r, stamp, clock);
      prev := prev[next[b] := prev[b]];
      next := next[prev[b] := next[b]];
      next := next[b := next[HEAD]];
      prev := prev[b := HEAD];
      prev := prev[next[HEAD] := b];
      next := next[HEAD := b];
      r, stamp, clock := Push(Drop(r, k), b), stamp[b := clock], clock + 1;
    }

    /** bpin keeps the buffer from being recycled. */
    method Bpin(b: nat)
      requires Valid() && b < NBUF
      modifies this`bufs
      ensures Valid() && bufs == old(bufs)[b := old(bufs)[b].(refcnt := old(bufs)[b].refcnt + 1)]
    {
      hide Ring, Recency, Coherent;
      HitKeeps(bufs, disk, logical, b);
      bufs := bufs[b := bufs[b].(refcnt := bufs[b].refcnt + 1)];
    }

    /** bunpin does not move the buffer, not even with the last reference. */
    method Bunpin(b: nat)
      requires Valid() && b < NBUF && bufs[b].refcnt > 0
      requires bufs[b].refcnt == 1 ==> IsClean(bufs[b], disk)
      modifies this`bufs
      ensures Valid() && bufs == old(bufs)[b := old(bufs)[b].(refcnt := old(bufs)[b].refcnt - 1)]
    {
      hide Ring, Recency, Coherent;
      DropKeeps(bufs, disk, logical, b);
      bufs := bufs[b := bufs[b].(refcnt := bufs[b].refcnt - 1)];
    }
  }

  lemma HoldsAt(bufs: seq<Buf>, b: nat)
    requires b < |bufs|
    ensures Holds(bufs, bufs[b].key)
  {
  }

  lemma RecycledIs(bufs: seq<Buf>, v: nat, k: Key)
    requires v < |bufs|
    ensures Recycled(bufs, v, k) == bufs[v := bufs[v].(key := k, valid := false, refcnt := 1)]
  {
  }

  lemma DropKeeps(bufs: seq<Buf>, disk: map<Key, Block>, logical: map<Key, Block>, b: nat)
    requires Coherent(bufs, disk, logical) && b < |bufs| && bufs[b].refcnt > 0
    requires bufs[b].refcnt == 1 ==> IsClean(bufs[b], disk)
    ensures Coherent(bufs[b := bufs[b].(refcnt := bufs[b].refcnt - 1)], disk, logical)
  {
    hide Unique, Clean;
    ChangeKeeps(bufs, disk, logical, b, bufs[b].(refcnt := bufs[b].refcnt - 1), disk, logical);
  }

  lemma Around(next: seq<nat>, prev: seq<nat>, r: seq<nat>, k: nat)
    requires Ring(next, prev, r) && 1 <= k < |r|
    ensures r[k] <= NBUF && next[r[k]] <= NBUF && prev[r[k]] <= NBUF && next[r[k]] != r[k] && prev[r[k]] != r[k]
  {
    hide Link;
    LinkOf(next, prev, r, k);
    LinkOf(next, prev, r, k - 1);
    LinkOf(next, prev, r, After(|r|, k));
  }

  lemma RingHead(next: seq<nat>, prev: seq<nat>, r: seq<nat>)
    requires Ring(next, prev, r)
    ensures |r| >= 1 && r[0] == HEAD && |next| == |prev| == NBUF + 1
    ensures forall i, j :: 0 <= i < j < |r| ==> r[i] != r[j]
  {
  }

  /** The pointer updates of brelse, one by one. */
  lemma FrontRing(next: seq<nat>, prev: seq<nat>, r: seq<nat>, k: nat)
    requires Ring(next, prev, r) && 1 <= k < |r|
    ensures var b := r[k];
            && b <= NBUF && |next| == |prev| == NBUF + 1 && next[b] <= NBUF && prev[b] <= NBUF && next[b] != b
               && prev[b] != b
            && var p1 := prev[next[b] := prev[b]];
               p1[b] <= NBUF && var n1 := next[p1[b] := next[b]];
                                n1[HEAD] <= NBUF && n1[HEAD] != b
                                && var n2, p2 := n1[b := n1[HEAD]], p1[b := HEAD];
                                   Ring(n2[HEAD := b], p2[n2[HEAD] := b], Push(Drop(r, k), b))
  {
    hide Link;
    var b := r[k];
    Around(next, prev, r, k);
    LinkOf(next, prev, r, k);
    RingDrop(next, prev, r, k);
    var n1, p1, q := next[prev[b] := next[b]], prev[next[b] := prev[b]], Drop(r, k);
    assert b != HEAD && b !in q;
    LinkOf(n1, p1, q, 0);
    LinkOf(n1, p1, q, After(|q|, 0));
    RingPush(n1, p1, q, b);
  }

  lemma RecencyBound(r: seq<nat>, stamp: seq<nat>, clock: nat)
    requires Recency(r, stamp, clock) && r[0] == HEAD
    ensures |stamp| == NBUF && |r| == NBUF + 1 && forall b :: 0 <= b < NBUF ==> stamp[b] < clock
  {
    forall b: nat | b < NBUF ensures stamp[b] < clock { var i := OnRing(r, stamp, clock, b); }
  }

  ghost predicate AtMostOne(bufs: seq<Buf>, k: Key)
  {
    forall i, j :: 0 <= i < j < |bufs| && bufs[i].key == k ==> bufs[j].key != k
  }

  /** A cache always has at most one buffer of a block if and only if that is not block 0 of device 0, which binit
      leaves in all of them. */
  lemma UniqueIff(k: Key)
    ensures (forall bufs, disk, logical :: |bufs| == NBUF && Coherent(bufs, disk, logical) ==> AtMostOne(bufs, k)) <==>
            k != Key(0, 0)
  {
    hide Reads, Clean;
    if k == Key(0, 0) {
      var bufs := seq(NBUF, _ => Buf(Key(0, 0), 0, false, ZeroBlock()));
      InitialCoherent(bufs, map[]);
      assert bufs[0].key == k && bufs[1].key == k;
      assert !AtMostOne(bufs, k);
    }
  }

  lemma InitialCoherent(bufs: seq<Buf>, disk: map<Key, Block>)
    requires |bufs| == NBUF && forall i :: 0 <= i < NBUF ==> bufs[i] == Buf(Key(0, 0), 0, false, ZeroBlock())
    ensures Coherent(bufs, disk, disk)
  {
  }

  lemma HitKeeps(bufs: seq<Buf>, disk: map<Key, Block>, logical: map<Key, Block>, b: nat)
    requires Coherent(bufs, disk, logical) && b < |bufs|
    ensures Coherent(bufs[b := bufs[b].(refcnt := bufs[b].refcnt + 1)], disk, logical)
  {
    hide Unique, Clean;
    ChangeKeeps(bufs, disk, logical, b, bufs[b].(refcnt := bufs[b].refcnt + 1), disk, logical);
  }

  /** Every buffer is on the ring. */
  lemma OnRing(r: seq<nat>, stamp: seq<nat>, clock: nat, b: nat) returns (i: nat)
    requires Recency(r, stamp, clock) && b < NBUF && r[0] == HEAD
    ensures 1 <= i < |r| && r[i] == b
  {
    assert b in r;
    i :| 0 <= i < |r| && r[i] == b;
  }

  lemma NotInRing(bufs: seq<Buf>, r: seq<nat>, stamp: seq<nat>, clock: nat, k: Key)
    requires |bufs| == NBUF && Recency(r, stamp, clock) && r[0] == HEAD
    requires forall j :: 1 <= j < |r| ==> bufs[r[j]].key != k
    ensures !Holds(bufs, k)
  {
    forall b: nat | b < |bufs| ensures bufs[b].key != k { var i := OnRing(r, stamp, clock, b); }
  }

  lemma NoneFree(bufs: seq<Buf>, r: seq<nat>, stamp: seq<nat>, clock: nat)
    requires |bufs| == NBUF && Recency(r, stamp, clock) && r[0] == HEAD
    requires forall j :: 1 <= j < |r| ==> bufs[r[j]].refcnt > 0
    ensures forall b :: 0 <= b < NBUF ==> bufs[b].refcnt > 0
  {
    forall b: nat | b < NBUF ensures bufs[b].refcnt > 0 { var i := OnRing(r, stamp, clock, b); }
  }

  lemma OldestFree(bufs: seq<Buf>, r: seq<nat>, stamp: seq<nat>, clock: nat, i: nat)
    requires |bufs| == NBUF && Recency(r, stamp, clock) && r[0] == HEAD && 1 <= i < |r|
    requires forall j :: i < j < |r| ==> bufs[r[j]].refcnt > 0
    ensures forall b :: 0 <= b < NBUF && bufs[b].refcnt == 0 ==> stamp[r[i]] <= stamp[b]
  {
    forall b: nat | b < NBUF && bufs[b].refcnt == 0 ensures stamp[r[i]] <= stamp[b] {
      var j := OnRing(r, stamp, clock, b);
      assert j <= i;
    }
  }
}
