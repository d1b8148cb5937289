/** The virtio disk driver and its device (kernel/virtio_disk.c), after sections 2.6 and 5.2 of OASIS VIRTIO
    version 1.1: descriptors in chains of three, an available ring and a used ring with 16-bit indices. */
module Virtio {

  const NUM: nat := 8
  /** Ring indices are 16-bit counters. */
  const WRAP: nat := 0x1_0000

  datatype Stage =
    | Offered    // in the available ring, not yet read by the device
    | Taken      // read by the device
    | Used       // in the used ring, not yet read by the driver
    | Finished   // seen by the interrupt handler

  /** What a descriptor's address points to: the request record of a head, a buffer, or a status byte. */
  datatype Target = Nothing | Request(h: nat) | Data(b: nat) | Status(h: nat)

  /** A descriptor: whether it continues, and where; what it is about, and whether the device writes it. */
  datatype Desc = Desc(more: bool, next: nat, target: Target, write: bool)

  function NoDesc(): Desc { Desc(false, 0, Nothing, false) }

  /** ops[]: the kind of request, and the first of its two sectors. */
  datatype Op = Op(write: bool, sector: nat)

  /** The bytes of a block. */
  type Contents = nat

  datatype Owner = Nobody | Buffer(b: nat)

  /** info[]: the buffer of the request headed here, and the status byte (0xff until the device writes 0). */
  datatype Info = Info(b: Owner, done: bool)

  /** A request: its second and third descriptor, its buffer, block and direction, and how far it has got. */
  datatype Chain = Chain(d1: nat, d2: nat, b: nat, block: nat, write: bool, stage: Stage)

  /** `free` to `busy` are the shared memory of driver and device; `busy` holds the buffers with b->disk set.
      `seen` is the device's and `usedSeen` the driver's read index. `mem` are the contents of the buffers and
      `disk` those of the disk, by first sector. `chains`, `availQ` and `usedQ` record the requests, and the heads
      in each ring not yet read, for the proof. */
  datatype State = State(free: seq<bool>, desc: seq<Desc>, info: seq<Info>, ops: seq<Op>,
                         avail: seq<nat>, availIdx: nat, seen: nat,
                         used: seq<nat>, usedIdx: nat, usedSeen: nat, busy: set<nat>,
                         mem: map<nat, Contents>, disk: map<nat, Contents>,
                         chains: map<nat, Chain>, availQ: seq<nat>, usedQ: seq<nat>)

  predicate Shape(s: State)
  {
    |s.free| == NUM && |s.desc| == NUM && |s.info| == NUM && |s.ops| == NUM && |s.avail| == NUM && |s.used| == NUM
  }

  // ---------------------------------------------------------------- allocating descriptors

  /** The lowest free descriptor from `i` on, or NUM. */
  function FirstFree(free: seq<bool>, i: nat): (k: nat)
    requires i <= |free|
    ensures i <= k <= |free| && (k < |free| ==> free[k]) && forall j :: i <= j < k ==> !free[j]
    decreases |free| - i
  {
    if i == |free| || free[i] then i else FirstFree(free, i + 1)
  }

  /** The free list after `n` allocations. */
  function After(free: seq<bool>, n: nat): (r: seq<bool>)
    ensures |r| == |free|
  {
    if n == 0 then free
    else
      var f := After(free, n - 1);
      var k := FirstFree(f, 0);
      if k < |f| then f[k := false] else f
  }

  /** The descriptor that allocation number `n` takes. */
  function Pick(free: seq<bool>, n: nat): nat { FirstFree(After(free, n), 0) }

  /** alloc_desc: take the lowest free descriptor. */
  method AllocDesc(free: array<bool>) returns (k: int)
    requires free.Length == NUM
    modifies free
    ensures var f := FirstFree(old(free[..]), 0);
            if f == NUM then k == -1 && free[..] == old(free[..]) else k == f && free[..] == old(free[..])[f := false]
  {
    var i := 0;
    while i < NUM
      invariant 0 <= i <= NUM && FirstFree(free[..], 0) == FirstFree(free[..], i) && free[..] == old(free[..])
    {
      if free[i] {
        free[i] := false;
        return i;
      }
      i := i + 1;
    }
    k := -1;
  }

  /** alloc3_desc takes the lowest three free descriptors, or leaves the free list as it was. */
  method Alloc3Desc(free: array<bool>) returns (ok: bool, d: seq<nat>)
    requires free.Length == NUM
    modifies free
    ensures ok <==> Pick(old(free[..]), 2) < NUM
    ensures ok ==> d == [Pick(old(free[..]), 0), Pick(old(free[..]), 1), Pick(old(free[..]), 2)]
    ensures free[..] == if ok then After(old(free[..]), 3) else old(free[..])
  {
    hide FirstFree;
    ghost var f0 := free[..];
    d := [];
    var i := 0;
    while i < 3
      invariant 0 <= i <= 3 && |d| == i && free[..] == After(f0, i)
      invariant forall y :: 0 <= y < i ==> d[y] == Pick(f0, y) < NUM
    {
      var k := AllocDesc(free);
      if k < 0 {
        PickedApart(f0, i);
        MorePicks(f0, i);
        var j := 0;
        while j < i
          invariant 0 <= j <= i
          invariant forall x :: 0 <= x < NUM ==> free[x] == (f0[x] && (forall y :: j <= y < i ==> d[y] != x))
        {
          free[d[j]] := true;
          j := j + 1;
        }
        assert free[..] == f0;
        return false, [];
      }
      d := d + [k];
      i := i + 1;
    }
    ok := true;
  }

  /** The allocations so far are distinct, and were free. */
  lemma {:induction false} PickedApart(free: seq<bool>, n: nat)
    requires |free| == NUM && forall y: nat :: y < n ==> Pick(free, y) < NUM
    ensures forall x :: 0 <= x < NUM ==> After(free, n)[x] == (free[x] && forall y: nat :: y < n ==> Pick(free, y) != x)
    ensures forall y: nat :: y < n ==> free[Pick(free, y)]
    ensures forall y: nat, z: nat :: y < z < n ==> Pick(free, y) != Pick(free, z)
  {
    hide FirstFree;
    if n > 0 {
      PickedApart(free, n - 1);
      assert After(free, n - 1)[Pick(free, n - 1)];
    }
  }

  /** An allocation that fails makes the later ones fail. */
  lemma {:induction false} MorePicks(free: seq<bool>, n: nat)
    requires |free| == NUM && n <= 2 && Pick(free, n) == NUM
    ensures Pick(free, 2) == NUM
    decreases 2 - n
  {
    if n < 2 {
      assert After(free, n + 1) == After(free, n);
      MorePicks(free, n + 1);
    }
  }

  // ---------------------------------------------------------------- rings

  /** The ring slot `i` places after index `seen`. */
  function Slot(seen: nat, i: nat): (r: nat)
    ensures r < NUM
  {
    (seen + i) % NUM
  }

  /** `q` are the heads between the reader's index `seen` and the writer's index `idx`, in order. */
  ghost predicate Queue(ring: seq<nat>, idx: nat, seen: nat, q: seq<nat>)
  {
    && |ring| == NUM && seen < WRAP && |q| <= NUM && idx == (seen + |q|) % WRAP
    && (forall i: nat :: i < |q| ==> ring[Slot(seen, i)] == q[i])
    && (forall i, j :: 0 <= i < j < |q| ==> q[i] != q[j])
  }

  /** Slots do not move when a 16-bit index wraps, because NUM divides 2^16. */
  lemma WrapSlot(x: nat, i: nat)
    ensures Slot(x % WRAP, i) == Slot(x, i)
  {
    var k := x / WRAP;
    assert x == k * WRAP + x % WRAP;
    assert x + i == NUM * (k * (WRAP / NUM)) + (x % WRAP + i);
    ModMultiple(k * (WRAP / NUM), x % WRAP + i);
  }

  lemma {:induction false} ModMultiple(k: nat, y: nat)
    ensures (NUM * k + y) % NUM == y % NUM
  {
    if k > 0 {
      ModMultiple(k - 1, y);
      assert NUM * k + y == NUM * (k - 1) + y + NUM;
    }
  }

  /** The slot written is none of those still to be read. */
  lemma FreshSlot(seen: nat, n: nat, i: nat)
    requires i < n < NUM
    ensures Slot(seen, n) != Slot(seen, i)
  {
  }

  lemma QueuePush(ring: seq<nat>, idx: nat, seen: nat, q: seq<nat>, h: nat)
    requires Queue(ring, idx, seen, q) && |q| < NUM && h !in q
    ensures Queue(ring[idx % NUM := h], (idx + 1) % WRAP, seen, q + [h])
    ensures forall i: nat :: i < |q| ==> Slot(seen, i) != idx % NUM
  {
    WrapSlot(seen + |q|, 0);
    assert idx % NUM == Slot(seen, |q|);
    PushIndex(seen, |q|);
    hide Slot;
    forall i: nat | i < |q| ensures Slot(seen, i) != idx % NUM { FreshSlot(seen, |q|, i); }
    var ring', q' := ring[idx % NUM := h], q + [h];
    forall i: nat | i < |q'| ensures ring'[Slot(seen, i)] == q'[i] { }
  }

  lemma PushIndex(seen: nat, n: nat)
    ensures ((seen + n) % WRAP + 1) % WRAP == (seen + (n + 1)) % WRAP
  {
  }

  lemma QueuePop(ring: seq<nat>, idx: nat, seen: nat, q: seq<nat>)
    requires Queue(ring, idx, seen, q)
    ensures seen != idx <==> q != []
    ensures q != [] ==> ring[seen % NUM] == q[0] && Queue(ring, idx, (seen + 1) % WRAP, q[1..])
  {
    if q != [] {
      assert ring[Slot(seen, 0)] == q[0];
      forall i: nat | i < |q| - 1 ensures ring[Slot((seen + 1) % WRAP, i)] == q[1..][i] {
        WrapSlot(seen + 1, i);
        assert Slot(seen + 1, i) == Slot(seen, i + 1);
        assert ring[Slot(seen, i + 1)] == q[i + 1];
      }
      IndexStep(seen, |q|);
    }
  }

  lemma IndexStep(seen: nat, n: nat)
    requires seen < WRAP && 1 <= n <= NUM
    ensures ((seen + 1) % WRAP + (n - 1)) % WRAP == (seen + n) % WRAP
  {
  }

  // ---------------------------------------------------------------- the invariant

  function Parts(h: nat, c: Chain): set<nat> { {h, c.d1, c.d2} }

  ghost function Owned(chains: map<nat, Chain>): set<nat>
  {
    set h, i | h in chains && i in Parts(h, chains[h]) :: i
  }

  /** Request `h` is a chain of three descriptors, none of them free, and the driver's records are right. */
  ghost predicate ChainOk(s: State, h: nat)
    requires Shape(s) && h in s.chains
  {
    var c := s.chains[h];
    && h < NUM && c.d1 < NUM && c.d2 < NUM && h != c.d1 && h != c.d2 && c.d1 != c.d2
    && s.desc[h] == Desc(true, c.d1, Request(h), false) && s.desc[c.d1] == Desc(true, c.d2, Data(c.b), !c.write)
    && s.desc[c.d2] == Desc(false, 0, Status(h), true) && s.ops[h] == Op(c.write, 2 * c.block)
    && s.info[h].b == Buffer(c.b) && (c.stage.Used? || c.stage.Finished? ==> s.info[h].done)
    && (c.b in s.busy <==> !c.stage.Finished?)
  }

  ghost predicate Apart(s: State, h: nat, g: nat)
    requires h in s.chains && g in s.chains
  {
    h != g ==> Parts(h, s.chains[h]) !! Parts(g, s.chains[g]) && s.chains[h].b != s.chains[g].b
  }

  /** The queue holds exactly the requests in `stage`. */
  ghost predicate Staged(chains: map<nat, Chain>, q: seq<nat>, stage: Stage)
  {
    && (forall h :: h in q ==> h in chains && chains[h].stage == stage)
    && (forall h :: h in chains && chains[h].stage == stage ==> h in q)
  }

  ghost predicate ChainsOk(s: State)
    requires Shape(s)
  {
    forall h :: h in s.chains ==> ChainOk(s, h)
  }

  ghost predicate ChainsApart(s: State)
  {
    forall h, g :: h in s.chains && g in s.chains ==> Apart(s, h, g)
  }

  /** A descriptor is free exactly when it is in no chain. */
  ghost predicate FreeOk(s: State)
    requires Shape(s)
  {
    forall i :: 0 <= i < NUM ==> (s.free[i] <==> i !in Owned(s.chains))
  }

  ghost predicate BusyOk(s: State)
  {
    forall b :: b in s.busy ==> exists h :: h in s.chains && s.chains[h].b == b
  }

  ghost predicate RingsOk(s: State)
  {
    && Queue(s.avail, s.availIdx, s.seen, s.availQ) && Staged(s.chains, s.availQ, Offered)
    && Queue(s.used, s.usedIdx, s.usedSeen, s.usedQ) && Staged(s.chains, s.usedQ, Used)
  }

  ghost predicate Inv(s: State)
  {
    Shape(s) && ChainsOk(s) && ChainsApart(s) && FreeOk(s) && BusyOk(s) && RingsOk(s)
  }

  // ---------------------------------------------------------------- at most two requests

  ghost predicate Disjoint(chains: map<nat, Chain>)
  {
    && (forall h :: h in chains ==> |Parts(h, chains[h])| == 3 && forall i :: i in Parts(h, chains[h]) ==> i < NUM)
    && (forall h, g :: h in chains && g in chains && h != g ==> Parts(h, chains[h]) !! Parts(g, chains[g]))
  }

  lemma OwnedAdd(chains: map<nat, Chain>, h: nat)
    requires h in chains
    ensures Owned(chains) == Owned(chains - {h}) + Parts(h, chains[h])
  {
    hide Parts;
    var rest := chains - {h};
    forall i | i in Owned(chains) ensures i in Owned(rest) + Parts(h, chains[h]) {
      var g :| g in chains && i in Parts(g, chains[g]);
      if g != h { assert g in rest && rest[g] == chains[g]; }
    }
    forall i | i in Owned(rest) ensures i in Owned(chains) {
      var g :| g in rest && i in Parts(g, rest[g]);
      assert g in chains && chains[g] == rest[g];
    }
  }

  lemma {:induction false} OwnedSize(chains: map<nat, Chain>)
    requires Disjoint(chains)
    ensures |Owned(chains)| == 3 * |chains| && forall i :: i in Owned(chains) ==> i < NUM
    decreases |chains|
  {
    hide Parts, Owned, Disjoint;
    if chains == map[] {
      OwnedNothing(chains);
    } else {
      var h :| h in chains;
      var rest := chains - {h};
      OwnedAdd(chains, h);
      OwnedApart(chains, h);
      assert chains.Keys == rest.Keys + {h};
      OwnedSize(rest);
    }
  }

  lemma OwnedNothing(chains: map<nat, Chain>)
    requires chains == map[]
    ensures Owned(chains) == {}
  {
  }

  lemma OwnedApart(chains: map<nat, Chain>, h: nat)
    requires Disjoint(chains) && h in chains
    ensures Owned(chains - {h}) !! Parts(h, chains[h]) && Disjoint(chains - {h})
    ensures |Parts(h, chains[h])| == 3 && forall i :: i in Parts(h, chains[h]) ==> i < NUM
  {
    hide Parts;
  }

  lemma {:induction false} BelowSize(a: set<nat>, n: nat)
    requires forall i :: i in a ==> i < n
    ensures |a| <= n
  {
    if n > 0 {
      BelowSize(a - {n - 1}, n - 1);
    } else {
      assert a == {};
    }
  }

  lemma {:induction false} DistinctSize(q: seq<nat>, a: set<nat>)
    requires (forall i, j :: 0 <= i < j < |q| ==> q[i] != q[j]) && forall i :: 0 <= i < |q| ==> q[i] in a
    ensures |q| <= |a|
  {
    if q != [] {
      DistinctSize(q[1..], a - {q[0]});
    }
  }

  lemma ChainsDisjoint(s: State)
    requires Inv(s)
    ensures Disjoint(s.chains)
  {
    forall h | h in s.chains
      ensures |Parts(h, s.chains[h])| == 3 && forall i :: i in Parts(h, s.chains[h]) ==> i < NUM
    {
      assert ChainOk(s, h);
      assert |{h, s.chains[h].d1}| == 2;
    }
    forall h, g | h in s.chains && g in s.chains && h != g ensures Parts(h, s.chains[h]) !! Parts(g, s.chains[g]) {
      assert Apart(s, h, g);
    }
  }

  lemma FewRequests(s: State)
    requires Inv(s)
    ensures |s.chains| <= 2 && |s.availQ| <= 2 && |s.usedQ| <= 2
  {
    assert Disjoint(s.chains) by { ChainsDisjoint(s); }
    OwnedSize(s.chains);
    BelowSize(Owned(s.chains), NUM);
    DistinctSize(s.availQ, s.chains.Keys);
    DistinctSize(s.usedQ, s.chains.Keys);
  }

  // ---------------------------------------------------------------- steps

  datatype Action =
    | Fill(b: nat, x: Contents)                // whoever has locked buffer b, outside of a request, stores into it
    | Submit(b: nat, block: nat, write: bool)  // virtio_disk_rw, up to the notification
    | Take                                     // the device reads the next available head
    | Complete(h: nat)                         // the device does the transfer, writes the status and the used ring
    | Interrupt                                // one round of the loop in virtio_disk_intr
    | Finish(h: nat)                           // virtio_disk_rw, after b->disk has been cleared

  /** A buffer is locked while it is in a request, so nobody submits it twice. */
  predicate Enabled(s: State, a: Action)
  {
    && Shape(s)
    && match a
       case Fill(b, _) => b !in s.busy && forall h :: h in s.chains ==> s.chains[h].b != b
       case Submit(b, _, _) => Pick(s.free, 2) < NUM && b !in s.busy && forall h :: h in s.chains ==> s.chains[h].b != b
       case Take => s.seen != s.availIdx
       case Complete(h) => h in s.chains && s.chains[h].stage.Taken? && h < NUM
       case Interrupt => s.usedSeen != s.usedIdx && s.used[s.usedSeen % NUM] < NUM
       case Finish(h) => h in s.chains && h < NUM && s.info[h].b.Buffer? && s.info[h].b.b !in s.busy
  }

  function SetStage(chains: map<nat, Chain>, h: nat, stage: Stage): map<nat, Chain>
  {
    if h in chains then chains[h := chains[h].(stage := stage)] else chains
  }

  function At(m: map<nat, Contents>, k: nat): Contents { if k in m then m[k] else 0 }

  /** What the device makes of a head: it follows the three descriptors, the first with the request, the second
      with the buffer, the third with the place of the status byte. */
  datatype Order = Malformed | Transfer(write: bool, sector: nat, b: nat, status: nat)

  function Follow(s: State, h: nat): (x: Order)
    requires Shape(s)
    ensures x.Transfer? ==> x.status < NUM
  {
    if h >= NUM || !s.desc[h].more || s.desc[h].next >= NUM || !s.desc[h].target.Request?
       || s.desc[h].target.h >= NUM then
      Malformed
    else
      var op, d1 := s.ops[s.desc[h].target.h], s.desc[s.desc[h].next];
      if !d1.more || d1.next >= NUM || !d1.target.Data? || d1.write == op.write then Malformed
      else
        var d2 := s.desc[d1.next];
        if d2.more || !d2.write || !d2.target.Status? || d2.target.h >= NUM then Malformed
        else Transfer(op.write, op.sector, d1.target.b, d2.target.h)
  }

  lemma FollowChain(s: State, h: nat)
    requires Shape(s) && h in s.chains && ChainOk(s, h)
    ensures var c := s.chains[h]; Follow(s, h) == Transfer(c.write, 2 * c.block, c.b, h)
  {
  }

  /** free_desc. */
  function Freed(s: State, i: nat): State
    requires Shape(s)
  {
    if i < NUM then s.(free := s.free[i := true], desc := s.desc[i := NoDesc()]) else s
  }

  /** free_chain on a chain of at most three: follow the links as they were. */
  function ChainFreed(s: State, h: nat): State
    requires Shape(s) && h < NUM
  {
    var t := Freed(s, h);
    if !s.desc[h].more || s.desc[h].next >= NUM then t
    else
      var d1 := s.desc[h].next;
      var u := Freed(t, d1);
      if !t.desc[d1].more then u else Freed(u, t.desc[d1].next)
  }

  function Perform(s: State, a: Action): State
    requires Enabled(s, a)
  {
    match a
    case Fill(b, x) => s.(mem := s.mem[b := x])
    case Submit(b, block, write) =>
      var d0, d1, d2 := Pick(s.free, 0), Pick(s.free, 1), Pick(s.free, 2);
      PicksBelow(s.free);
      s.(free := After(s.free, 3),
         desc := s.desc[d0 := Desc(true, d1, Request(d0), false)][d1 := Desc(true, d2, Data(b), !write)]
                       [d2 := Desc(false, 0, Status(d0), true)],
         ops := s.ops[d0 := Op(write, 2 * block)],
         info := s.info[d0 := Info(Buffer(b), false)], busy := s.busy + {b},
         avail := s.avail[s.availIdx % NUM := d0], availIdx := (s.availIdx + 1) % WRAP,
         chains := s.chains[d0 := Chain(d1, d2, b, block, write, Offered)], availQ := s.availQ + [d0])
    case Take =>
      var h := s.avail[s.seen % NUM];
      s.(seen := (s.seen + 1) % WRAP, chains := SetStage(s.chains, h, Taken),
         availQ := if s.availQ == [] then [] else s.availQ[1..])
    case Complete(h) =>
      var x := Follow(s, h);
      s.(mem := if x.Transfer? && !x.write then s.mem[x.b := At(s.disk, x.sector)] else s.mem,
         disk := if x.Transfer? && x.write then s.disk[x.sector := At(s.mem, x.b)] else s.disk,
         info := if x.Transfer? then s.info[x.status := s.info[x.status].(done := true)] else s.info,
         used := s.used[s.usedIdx % NUM := h],
         usedIdx := (s.usedIdx + 1) % WRAP, chains := SetStage(s.chains, h, Used), usedQ := s.usedQ + [h])
    case Interrupt =>
      var h := s.used[s.usedSeen % NUM];
      s.(busy := if s.info[h].b.Buffer? then s.busy - {s.info[h].b.b} else s.busy,
         usedSeen := (s.usedSeen + 1) % WRAP, chains := SetStage(s.chains, h, Finished),
         usedQ := if s.usedQ == [] then [] else s.usedQ[1..])
    case Finish(h) =>
      ChainFreed(s.(info := s.info[h := s.info[h].(b := Nobody)]), h).(chains := s.chains - {h})
  }

  lemma PicksBelow(free: seq<bool>)
    requires |free| == NUM && Pick(free, 2) < NUM
    ensures Pick(free, 0) < NUM && Pick(free, 1) < NUM
  {
    if Pick(free, 0) == NUM { MorePicks(free, 0); }
    if Pick(free, 1) == NUM { MorePicks(free, 1); }
  }

  // ---------------------------------------------------------------- every step keeps the invariant

  /** What a change of stage leaves alone. */
  lemma StageParts(chains: map<nat, Chain>, h: nat, stage: Stage)
    requires h in chains
    ensures Owned(SetStage(chains, h, stage)) == Owned(chains)
  {
    var t := SetStage(chains, h, stage);
    forall g | g in chains ensures g in t && Parts(g, t[g]) == Parts(g, chains[g]) { }
    hide Parts;
    forall i ensures i in Owned(t) <==> i in Owned(chains) {
      if g :| g in t && i in Parts(g, t[g]) { assert g in chains && i in Parts(g, chains[g]); }
      if g :| g in chains && i in Parts(g, chains[g]) { assert g in t && i in Parts(g, t[g]); }
    }
  }

  /** One request moves on to `stage`. */
  ghost predicate Moves(s: State, t: State, h: nat, stage: Stage)
  {
    && h in s.chains && t.chains == SetStage(s.chains, h, stage) && t.free == s.free && t.desc == s.desc
       && t.ops == s.ops
  }

  lemma MoveKeeps(s: State, t: State, h: nat, stage: Stage)
    requires Inv(s) && Shape(t) && Moves(s, t, h, stage) && !s.chains[h].stage.Finished?
    requires t.busy == if stage.Finished? then s.busy - {s.chains[h].b} else s.busy
    requires forall g :: g in s.chains && g < NUM ==> t.info[g].b == s.info[g].b && (s.info[g].done ==> t.info[g].done)
    requires h < NUM && (stage.Used? || stage.Finished? ==> t.info[h].done)
    requires Queue(t.avail, t.availIdx, t.seen, t.availQ) && Staged(t.chains, t.availQ, Offered)
    requires Queue(t.used, t.usedIdx, t.usedSeen, t.usedQ) && Staged(t.chains, t.usedQ, Used)
    ensures Inv(t)
  {
    hide Queue, Staged, Owned, RingsOk, ChainsApart, ChainsOk, BusyOk;
    assert RingsOk(t) by { RingsHold(t); }
    StageParts(s.chains, h, stage);
    assert FreeOk(t);
    hide FreeOk;
    MoveChains(s, t, h, stage);
    MoveBusy(s, t, h, stage);
  }

  lemma RingsHold(t: State)
    requires Queue(t.avail, t.availIdx, t.seen, t.availQ) && Staged(t.chains, t.availQ, Offered)
    requires Queue(t.used, t.usedIdx, t.usedSeen, t.usedQ) && Staged(t.chains, t.usedQ, Used)
    ensures RingsOk(t)
  {
  }

  lemma MoveChains(s: State, t: State, h: nat, stage: Stage)
    requires Shape(s) && ChainsOk(s) && ChainsApart(s) && Shape(t) && Moves(s, t, h, stage)
    requires !s.chains[h].stage.Finished?
    requires t.busy == if stage.Finished? then s.busy - {s.chains[h].b} else s.busy
    requires forall g :: g in s.chains && g < NUM ==> t.info[g].b == s.info[g].b && (s.info[g].done ==> t.info[g].done)
    requires h < NUM && (stage.Used? || stage.Finished? ==> t.info[h].done)
    ensures ChainsOk(t) && ChainsApart(t)
  {
    forall g | g in t.chains ensures ChainOk(t, g) { assert ChainOk(s, g) && Apart(s, g, h); }
    forall g, f | g in t.chains && f in t.chains ensures Apart(t, g, f) { assert Apart(s, g, f); }
  }

  lemma MoveBusy(s: State, t: State, h: nat, stage: Stage)
    requires BusyOk(s) && Moves(s, t, h, stage) && t.busy <= s.busy
    ensures BusyOk(t)
  {
    forall b | b in t.busy ensures exists g :: g in t.chains && t.chains[g].b == b {
      var g :| g in s.chains && s.chains[g].b == b;
      assert t.chains[g].b == b;
    }
  }

  lemma StagePop(chains: map<nat, Chain>, q: seq<nat>, st: Stage, to: Stage)
    requires Staged(chains, q, st) && q != [] && (forall i, j :: 0 <= i < j < |q| ==> q[i] != q[j]) && to != st
    ensures Staged(SetStage(chains, q[0], to), q[1..], st)
  {
  }

  lemma StagePush(chains: map<nat, Chain>, q: seq<nat>, h: nat, to: Stage)
    requires Staged(chains, q, to) && h in chains
    ensures Staged(SetStage(chains, h, to), q + [h], to)
  {
  }

  lemma StageElse(chains: map<nat, Chain>, q: seq<nat>, st: Stage, h: nat, to: Stage)
    requires Staged(chains, q, st) && h in chains && chains[h].stage != st && to != st
    ensures Staged(SetStage(chains, h, to), q, st)
  {
  }

  lemma TakeKeeps(s: State)
    requires Inv(s) && Enabled(s, Take)
    ensures Inv(Perform(s, Take)) && s.avail[s.seen % NUM] in s.chains
  {
    hide Queue, Owned, Staged, ChainOk;
    QueuePop(s.avail, s.availIdx, s.seen, s.availQ);
    QueueDistinct(s.avail, s.availIdx, s.seen, s.availQ);
    var t, h := Perform(s, Take), s.availQ[0];
    StagedIs(s.chains, s.availQ, Offered, h);
    assert ChainOk(s, h);
    assert h < NUM by { InRange(s, h); }
    StagePop(s.chains, s.availQ, Offered, Taken);
    StageElse(s.chains, s.usedQ, Used, h, Taken);
    MoveKeeps(s, t, h, Taken);
  }

  lemma QueueDistinct(ring: seq<nat>, idx: nat, seen: nat, q: seq<nat>)
    requires Queue(ring, idx, seen, q)
    ensures forall i, j :: 0 <= i < j < |q| ==> q[i] != q[j]
  {
  }

  lemma StagedIs(chains: map<nat, Chain>, q: seq<nat>, st: Stage, h: nat)
    requires Staged(chains, q, st) && h in q
    ensures h in chains && chains[h].stage == st
  {
  }

  lemma InRange(s: State, h: nat)
    requires Shape(s) && h in s.chains && ChainOk(s, h)
    ensures h < NUM && s.info[h].b == Buffer(s.chains[h].b)
    ensures s.chains[h].stage.Used? || s.chains[h].stage.Finished? ==> s.info[h].done
    ensures s.chains[h].b in s.busy <==> !s.chains[h].stage.Finished?
  {
  }

  lemma CompleteKeeps(s: State, h: nat)
    requires Inv(s) && Enabled(s, Complete(h))
    ensures Inv(Perform(s, Complete(h)))
  {
    hide Queue, Owned, Staged, ChainOk;
    FewRequests(s);
    var t := Perform(s, Complete(h));
    assert ChainOk(s, h);
    FollowChain(s, h);
    hide Follow;
    assert h !in s.usedQ by { if h in s.usedQ { StagedIs(s.chains, s.usedQ, Used, h); } }
    QueuePush(s.used, s.usedIdx, s.usedSeen, s.usedQ, h);
    StagePush(s.chains, s.usedQ, h, Used);
    StageElse(s.chains, s.availQ, Offered, h, Used);
    MoveKeeps(s, t, h, Used);
  }

  /** The interrupt handler finds the head of a request the device has completed, with a good status, and
      clears b->disk of exactly the buffer submitted under that head. */
  lemma InterruptKeeps(s: State)
    requires Inv(s) && Enabled(s, Interrupt)
    ensures Inv(Perform(s, Interrupt))
    ensures var h := s.used[s.usedSeen % NUM];
            && h in s.chains && s.chains[h].stage.Used? && s.info[h].done && s.info[h].b == Buffer(s.chains[h].b)
            && s.chains[h].b in s.busy && Perform(s, Interrupt).busy == s.busy - {s.chains[h].b}
  {
    hide Queue, Owned, Staged, ChainOk;
    QueuePop(s.used, s.usedIdx, s.usedSeen, s.usedQ);
    QueueDistinct(s.used, s.usedIdx, s.usedSeen, s.usedQ);
    var t, h := Perform(s, Interrupt), s.usedQ[0];
    StagedIs(s.chains, s.usedQ, Used, h);
    assert ChainOk(s, h);
    InRange(s, h);
    StagePop(s.chains, s.usedQ, Used, Finished);
    StageElse(s.chains, s.availQ, Offered, h, Finished);
    MoveKeeps(s, t, h, Finished);
  }

  lemma OwnedHas(chains: map<nat, Chain>, h: nat, i: nat)
    requires h in chains && i in Parts(h, chains[h])
    ensures i in Owned(chains)
  {
  }

  lemma OwnedNew(chains: map<nat, Chain>, h: nat, c: Chain)
    requires h !in chains
    ensures Owned(chains[h := c]) == Owned(chains) + Parts(h, c)
  {
    OwnedAdd(chains[h := c], h);
    assert chains[h := c] - {h} == chains;
  }

  /** The three descriptors taken are distinct and belong to no request. */
  lemma Fresh3(s: State)
    requires Inv(s) && Pick(s.free, 2) < NUM
    ensures var d0, d1, d2 := Pick(s.free, 0), Pick(s.free, 1), Pick(s.free, 2);
            && d0 < NUM && d1 < NUM && d0 != d1 && d0 != d2 && d1 != d2
            && d0 !in Owned(s.chains) && d1 !in Owned(s.chains) && d2 !in Owned(s.chains) && d0 !in s.chains
            && forall i :: 0 <= i < NUM ==> (After(s.free, 3)[i] <==> s.free[i] && i != d0 && i != d1 && i != d2)
  {
    hide Pick, After, Owned, Queue, Staged, ChainOk, Apart;
    PicksBelow(s.free);
    assert forall y: nat :: y < 3 ==> Pick(s.free, y) < NUM by {
      forall y: nat | y < 3 ensures Pick(s.free, y) < NUM { assert y == 0 || y == 1 || y == 2; }
    }
    PickedApart(s.free, 3);
    var d0, d1, d2 := Pick(s.free, 0), Pick(s.free, 1), Pick(s.free, 2);
    assert d0 !in s.chains by { if d0 in s.chains { OwnedHas(s.chains, d0, d0); } }
    forall i: nat | i < NUM ensures After(s.free, 3)[i] <==> s.free[i] && i != d0 && i != d1 && i != d2 {
      if i != d0 && i != d1 && i != d2 {
        forall y: nat | y < 3 ensures Pick(s.free, y) != i { assert y == 0 || y == 1 || y == 2; }
      }
    }
  }

  lemma Fresh3Apart(s: State, h: nat)
    requires Inv(s) && Pick(s.free, 2) < NUM && h in s.chains
    ensures {Pick(s.free, 0), Pick(s.free, 1), Pick(s.free, 2)} !! Parts(h, s.chains[h])
  {
    hide Pick, After, Owned, ChainsOk, ChainsApart, FreeOk, BusyOk, RingsOk;
    Fresh3(s);
    forall i | i in Parts(h, s.chains[h]) ensures i in Owned(s.chains) { OwnedHas(s.chains, h, i); }
  }

  lemma SubmitChains(s: State, b: nat, block: nat, write: bool)
    requires Inv(s) && Enabled(s, Submit(b, block, write))
    ensures Shape(Perform(s, Submit(b, block, write))) && ChainsOk(Perform(s, Submit(b, block, write)))
    ensures ChainsApart(Perform(s, Submit(b, block, write)))
  {
    hide Pick, After, Owned, FreeOk, BusyOk, RingsOk;
    var t := Perform(s, Submit(b, block, write));
    var d0 := Pick(s.free, 0);
    Fresh3(s);
    forall h | h in t.chains ensures ChainOk(t, h) {
      if h != d0 { assert ChainOk(s, h); Fresh3Apart(s, h); }
    }
    forall h, g | h in t.chains && g in t.chains ensures Apart(t, h, g) {
      if h != d0 && g != d0 { assert Apart(s, h, g); }
      else if h != d0 { Fresh3Apart(s, h); }
      else if g != d0 { Fresh3Apart(s, g); }
    }
  }

  lemma SubmitKeeps(s: State, b: nat, block: nat, write: bool)
    requires Inv(s) && Enabled(s, Submit(b, block, write))
    ensures Inv(Perform(s, Submit(b, block, write)))
  {
    hide Pick, After, Owned, Queue, Staged, ChainsOk, ChainsApart;
    var t := Perform(s, Submit(b, block, write));
    var d0, d1, d2 := Pick(s.free, 0), Pick(s.free, 1), Pick(s.free, 2);
    Fresh3(s);
    FewRequests(s);
    SubmitChains(s, b, block, write);
    var c := Chain(d1, d2, b, block, write, Offered);
    OwnedNew(s.chains, d0, c);
    assert FreeOk(t);
    assert d0 !in s.availQ by { if d0 in s.availQ { StagedIs(s.chains, s.availQ, Offered, d0); } }
    QueuePush(s.avail, s.availIdx, s.seen, s.availQ, d0);
    SubmitStaged(s.chains, s.availQ, s.usedQ, d0, c);
    hide FreeOk, RingsOk;
    forall x | x in t.busy ensures exists h :: h in t.chains && t.chains[h].b == x {
      if x == b { assert t.chains[d0].b == b; }
      else {
        var h :| h in s.chains && s.chains[h].b == x;
        assert t.chains[h].b == x;
      }
    }
  }

  lemma SubmitStaged(chains: map<nat, Chain>, availQ: seq<nat>, usedQ: seq<nat>, d0: nat, c: Chain)
    requires Staged(chains, availQ, Offered) && Staged(chains, usedQ, Used) && d0 !in chains && c.stage == Offered
    ensures Staged(chains[d0 := c], availQ + [d0], Offered) && Staged(chains[d0 := c], usedQ, Used)
  {
  }

  lemma FreedParts(s: State, h: nat)
    requires Inv(s) && h in s.chains && h < NUM
    ensures var c := s.chains[h];
            && c.d1 < NUM && c.d2 < NUM
            && ChainFreed(s.(info := s.info[h := s.info[h].(b := Nobody)]), h)
               == s.(info := s.info[h := s.info[h].(b := Nobody)],
                     free := s.free[h := true][c.d1 := true][c.d2 := true],
                     desc := s.desc[h := NoDesc()][c.d1 := NoDesc()][c.d2 := NoDesc()])
  {
    hide Queue, Staged, Owned, Apart;
    assert ChainOk(s, h);
  }

  lemma FinishChains(s: State, h: nat)
    requires Inv(s) && Enabled(s, Finish(h))
    ensures Shape(Perform(s, Finish(h))) && ChainsOk(Perform(s, Finish(h))) && ChainsApart(Perform(s, Finish(h)))
  {
    hide ChainFreed, FreeOk, BusyOk, RingsOk;
    FreedParts(s, h);
    var t := Perform(s, Finish(h));
    forall g | g in t.chains ensures ChainOk(t, g) {
      assert ChainOk(s, g) && ChainOk(s, h) && Apart(s, g, h);
    }
    forall g, f | g in t.chains && f in t.chains ensures Apart(t, g, f) { assert Apart(s, g, f); }
  }

  /** free_chain frees exactly the three descriptors of the request, none of which was free. */
  lemma FinishKeeps(s: State, h: nat)
    requires Inv(s) && Enabled(s, Finish(h))
    ensures Inv(Perform(s, Finish(h)))
    ensures s.chains[h].stage.Finished? && forall i :: i in Parts(h, s.chains[h]) ==> i < NUM && !s.free[i]
  {
    hide Owned, Queue, Staged, ChainFreed, ChainsApart, FreeOk, BusyOk;
    var t := Perform(s, Finish(h));
    assert ChainOk(s, h);
    FreedParts(s, h);
    FinishChains(s, h);
    FinishFree(s, h);
    FinishStaged(s.chains, s.availQ, s.usedQ, h);
    hide RingsOk, ChainsOk;
    FinishBusy(s, t, h);
  }

  lemma FinishFree(s: State, h: nat)
    requires Inv(s) && Enabled(s, Finish(h))
    ensures Shape(Perform(s, Finish(h))) && FreeOk(Perform(s, Finish(h)))
    ensures forall i :: i in Parts(h, s.chains[h]) ==> i < NUM && !s.free[i]
  {
    hide Owned, RingsOk, ChainFreed, ChainsApart, ChainsOk, BusyOk;
    FreedParts(s, h);
    ChainsDisjoint(s);
    OwnedAdd(s.chains, h);
    OwnedApart(s.chains, h);
    forall i | i in Parts(h, s.chains[h]) ensures i in Owned(s.chains) { OwnedHas(s.chains, h, i); }
  }

  lemma FinishBusy(s: State, t: State, h: nat)
    requires BusyOk(s) && h in s.chains && t.chains == s.chains - {h} && t.busy == s.busy && s.chains[h].b !in s.busy
    ensures BusyOk(t)
  {
    forall x | x in t.busy ensures exists g :: g in t.chains && t.chains[g].b == x {
      var g :| g in s.chains && s.chains[g].b == x;
      assert g != h;
      assert t.chains[g].b == x;
    }
  }

  lemma FinishStaged(chains: map<nat, Chain>, availQ: seq<nat>, usedQ: seq<nat>, h: nat)
    requires Staged(chains, availQ, Offered) && Staged(chains, usedQ, Used) && h in chains && chains[h].stage.Finished?
    ensures Staged(chains - {h}, availQ, Offered) && Staged(chains - {h}, usedQ, Used)
  {
  }

  /** free_chain on the arrays: it follows the links and frees the three descriptors. */
  method FreeChain(free: array<bool>, desc: array<Desc>, h: nat, ghost d1: nat, ghost d2: nat)
    requires free.Length == desc.Length == NUM
    requires h < NUM && d1 < NUM && d2 < NUM && h != d1 && h != d2 && d1 != d2 && !free[h] && !free[d1] && !free[d2]
    requires desc[h].more && desc[h].next == d1 && desc[d1].more && desc[d1].next == d2 && !desc[d2].more
    modifies free, desc
    ensures free[..] == old(free[..])[h := true][d1 := true][d2 := true]
    ensures desc[..] == old(desc[..])[h := NoDesc()][d1 := NoDesc()][d2 := NoDesc()]
  {
    ghost var chain, n := [h, d1, d2], 0;
    var i := h;
    while true
      invariant 0 <= n <= 2 && i == chain[n] && (forall k :: n <= k <= 2 ==> !free[chain[k]])
      invariant n == 0 ==> free[..] == old(free[..]) && desc[..] == old(desc[..])
      invariant n == 1 ==> free[..] == old(free[..])[h := true] && desc[..] == old(desc[..])[h := NoDesc()]
      invariant n == 2 ==> free[..] == old(free[..])[h := true][d1 := true]
                           && desc[..] == old(desc[..])[h := NoDesc()][d1 := NoDesc()]
      invariant desc[d2] == old(desc[d2]) && (n <= 1 ==> desc[d1] == old(desc[d1]))
      decreases 2 - n
    {
      var flag, nxt := desc[i].more, desc[i].next;
      if free[i] {
        assert false;
      }
      desc[i] := NoDesc();
      free[i] := true;
      if !flag {
        break;
      }
      i := nxt;
      n := n + 1;
    }
  }

  // ---------------------------------------------------------------- every run

  lemma FillKeeps(s: State, a: Action)
    requires Inv(s) && Enabled(s, a) && a.Fill?
    ensures Inv(Perform(s, a))
  {
    hide Queue, Staged, Owned;
    var t := Perform(s, a);
    forall h | h in t.chains ensures ChainOk(t, h) { assert ChainOk(s, h); }
    forall h, g | h in t.chains && g in t.chains ensures Apart(t, h, g) { assert Apart(s, h, g); }
  }

  lemma Preserved(s: State, a: Action)
    requires Inv(s) && Enabled(s, a)
    ensures Inv(Perform(s, a))
  {
    hide Inv, Perform;
    match a
    case Fill(_, _) => FillKeeps(s, a);
    case Submit(b, block, write) => SubmitKeeps(s, b, block, write);
    case Take => TakeKeeps(s);
    case Complete(h) => CompleteKeeps(s, h);
    case Interrupt => InterruptKeeps(s);
    case Finish(h) => FinishKeeps(s, h);
  }

  /** virtio_disk_init leaves all descriptors free and both rings empty; buffers and disk hold anything. */
  function Initial(mem: map<nat, Contents>, disk: map<nat, Contents>): State
  {
    State(seq(NUM, _ => true), seq(NUM, _ => NoDesc()), seq(NUM, _ => Info(Nobody, false)), seq(NUM, _ => Op(false, 0)),
          seq(NUM, _ => 0), 0, 0, seq(NUM, _ => 0), 0, 0, {}, mem, disk, map[], [], [])
  }

  predicate Booted(s: State) { s == Initial(s.mem, s.disk) }

  lemma BootedInv(s: State)
    requires Booted(s)
    ensures Inv(s)
  {
    OwnedNothing(map[]);
  }

  ghost predicate Legal(s: State, run: seq<Action>)
    decreases |run|
  {
    run == [] || (Enabled(s, run[0]) && Legal(Perform(s, run[0]), run[1..]))
  }

  ghost function Run(s: State, run: seq<Action>): State
    requires Legal(s, run)
    decreases |run|
  {
    if run == [] then s else Run(Perform(s, run[0]), run[1..])
  }

  lemma {:induction false} RunInv(s: State, run: seq<Action>)
    requires Inv(s) && Legal(s, run)
    ensures Inv(Run(s, run))
    decreases |run|
  {
    hide Inv, Enabled, Perform;
    if run != [] {
      Preserved(s, run[0]);
      RunInv(Perform(s, run[0]), run[1..]);
    }
  }

  lemma Reached(s0: State, run: seq<Action>) returns (t: State)
    requires Booted(s0) && Legal(s0, run)
    ensures t == Run(s0, run) && Inv(t)
  {
    hide Inv, Booted;
    BootedInv(s0);
    RunInv(s0, run);
    t := Run(s0, run);
  }

  /** In every run the descriptors are the free ones and the disjoint chains of three. */
  lemma Partition(s0: State, run: seq<Action>, h: nat, g: nat, i: nat)
    requires Booted(s0) && Legal(s0, run) && i < NUM
    ensures var t := Run(s0, run);
            && Shape(t) && (t.free[i] <==> i !in Owned(t.chains)) && |t.chains| <= 2
            && (h in t.chains ==> |Parts(h, t.chains[h])| == 3)
            && (h in t.chains && g in t.chains && h != g ==> Parts(h, t.chains[h]) !! Parts(g, t.chains[g]))
  {
    hide Booted, Run, Legal, ChainsOk, ChainsApart, RingsOk, Parts;
    var t := Reached(s0, run);
    FewRequests(t);
    ChainsDisjoint(t);
  }

  /** In every run the ring slot that is written next holds no head the other side has yet to read. */
  lemma NoOverwrite(s0: State, run: seq<Action>, i: nat)
    requires Booted(s0) && Legal(s0, run)
    ensures var t := Run(s0, run);
            && |t.avail| == |t.used| == NUM
            && (i < |t.availQ| ==> t.avail[Slot(t.seen, i)] == t.availQ[i] && Slot(t.seen, i) != t.availIdx % NUM)
            && (i < |t.usedQ| ==> t.used[Slot(t.usedSeen, i)] == t.usedQ[i] && Slot(t.usedSeen, i) != t.usedIdx % NUM)
  {
    hide Booted, Run, Legal, ChainsOk, ChainsApart, FreeOk, BusyOk, Staged, Slot;
    var t := Reached(s0, run);
    FewRequests(t);
    if i < |t.availQ| { OtherSlot(t.avail, t.availIdx, t.seen, t.availQ, i); }
    if i < |t.usedQ| { OtherSlot(t.used, t.usedIdx, t.usedSeen, t.usedQ, i); }
  }

  lemma OtherSlot(ring: seq<nat>, idx: nat, seen: nat, q: seq<nat>, i: nat)
    requires Queue(ring, idx, seen, q) && i < |q| < NUM
    ensures Slot(seen, i) != idx % NUM
  {
    WrapSlot(seen + |q|, 0);
    FreshSlot(seen, |q|, i);
  }

  /** Calls of virtio_disk_rw that have submitted a request and not returned. */
  function Open(a: Action): int { if a.Submit? then 1 else if a.Finish? then -1 else 0 }

  ghost function Opened(run: seq<Action>): int { if run == [] then 0 else Open(run[0]) + Opened(run[1..]) }

  lemma OpenStep(s: State, a: Action)
    requires Inv(s) && Enabled(s, a)
    ensures |Perform(s, a).chains| == |s.chains| + Open(a)
  {
    hide ChainFreed, FreeOk, BusyOk, RingsOk, ChainsOk, ChainsApart, Follow, After, Pick;
    match a
    case Fill(_, _) =>
    case Submit(_, _, _) => Fresh3(s);
    case Take => TakeKeeps(s); SameSize(s.chains, s.avail[s.seen % NUM], Taken);
    case Complete(h) => SameSize(s.chains, h, Used);
    case Interrupt => InterruptKeeps(s); SameSize(s.chains, s.used[s.usedSeen % NUM], Finished);
    case Finish(h) => FinishChain(s, h); LessSize(s.chains, h);
  }

  lemma SameSize(chains: map<nat, Chain>, h: nat, stage: Stage)
    requires h in chains
    ensures |SetStage(chains, h, stage)| == |chains|
  {
    assert SetStage(chains, h, stage).Keys == chains.Keys;
  }

  lemma LessSize(chains: map<nat, Chain>, h: nat)
    requires h in chains
    ensures |chains - {h}| == |chains| - 1
  {
    assert chains.Keys == (chains - {h}).Keys + {h};
  }

  lemma {:induction false} RunOpen(s: State, run: seq<Action>)
    requires Inv(s) && Legal(s, run)
    ensures |Run(s, run).chains| == |s.chains| + Opened(run)
    decreases |run|
  {
    hide Inv, Enabled, Perform, Open;
    if run != [] {
      OpenStep(s, run[0]);
      Preserved(s, run[0]);
      RunOpen(Perform(s, run[0]), run[1..]);
    }
  }

  ghost function FreeOnes(free: seq<bool>): set<nat> { set i | 0 <= i < |free| && free[i] }

  /** In every run each call in progress has three descriptors and all others are free: none is lost. */
  lemma NothingLost(s0: State, run: seq<Action>)
    requires Booted(s0) && Legal(s0, run)
    ensures |FreeOnes(Run(s0, run).free)| + 3 * Opened(run) == NUM
  {
    assert s0.chains == map[];
    hide Run, Legal, Inv, Booted, Opened, FreeOnes;
    var t := Reached(s0, run);
    BootedInv(s0);
    RunOpen(s0, run);
    FreeCount(t);
  }

  lemma FreeCount(s: State)
    requires Inv(s)
    ensures |FreeOnes(s.free)| + 3 * |s.chains| == NUM
  {
    hide ChainsOk, ChainsApart, RingsOk, BusyOk, Owned, Disjoint, FreeOnes;
    ChainsDisjoint(s);
    OwnedSize(s.chains);
    Complement(s.free, Owned(s.chains));
  }

  lemma Complement(free: seq<bool>, own: set<nat>)
    requires (forall i: nat :: i < |free| ==> (free[i] <==> i !in own)) && forall i :: i in own ==> i < |free|
    ensures |FreeOnes(free)| + |own| == |free|
  {
    assert FreeOnes(free) + own == Below(|free|);
    assert FreeOnes(free) !! own;
  }

  ghost function Below(n: nat): (r: set<nat>)
    ensures |r| == n && forall i: nat :: i in r <==> i < n
  {
    if n == 0 then {} else Below(n - 1) + {n - 1}
  }

  // ---------------------------------------------------------------- what was asked for

  /** A request as virtio_disk_rw was called, how often the device has carried it out, and what it moved. */
  datatype Asked = Asked(block: nat, write: bool, served: nat, moved: Contents)

  /** The requests by buffer, from the calls of virtio_disk_rw and the device's transfers alone. */
  function Note(s: State, m: map<nat, Asked>, a: Action): map<nat, Asked>
    requires Enabled(s, a)
  {
    match a
    case Submit(b, block, write) => m[b := Asked(block, write, 0, 0)]
    case Complete(h) =>
      if s.info[h].b.Buffer? && s.info[h].b.b in m then
        var b := s.info[h].b.b;
        m[b := Asked(m[b].block, m[b].write, m[b].served + 1,
                     if m[b].write then At(s.mem, b) else At(s.disk, 2 * m[b].block))]
      else m
    case _ => m
  }

  ghost function Noted(s: State, run: seq<Action>, m: map<nat, Asked>): map<nat, Asked>
    requires Legal(s, run)
    decreases |run|
  {
    if run == [] then m else Noted(Perform(s, run[0]), run[1..], Note(s, m, run[0]))
  }

  /** The request headed at `h` is the one that was asked for under its buffer, and is served once it is used. A read
      has left its data in the buffer. */
  ghost predicate AsAsked(s: State, m: map<nat, Asked>, h: nat)
    requires h in s.chains
  {
    var c := s.chains[h];
    && c.b in m && m[c.b].block == c.block && m[c.b].write == c.write
    && m[c.b].served == (if c.stage.Used? || c.stage.Finished? then 1 else 0)
    && (m[c.b].served == 1 && !c.write ==> At(s.mem, c.b) == m[c.b].moved)
  }

  ghost predicate AllAsked(s: State, m: map<nat, Asked>) { forall h :: h in s.chains ==> AsAsked(s, m, h) }

  lemma AskedSubmit(s: State, m: map<nat, Asked>, a: Action, h: nat)
    requires Inv(s) && Enabled(s, a) && AllAsked(s, m) && Shape(Perform(s, a)) && h in Perform(s, a).chains
    requires a.Fill? || a.Submit?
    ensures AsAsked(Perform(s, a), Note(s, m, a), h)
  {
    hide Inv, AllAsked, Pick, After;
    if a.Fill? || h != Pick(s.free, 0) { OldAsked(s, m, h); }
  }

  lemma AskedComplete(s: State, m: map<nat, Asked>, a: Action, h: nat)
    requires Inv(s) && Enabled(s, a) && AllAsked(s, m) && Shape(Perform(s, a)) && h in Perform(s, a).chains
    requires a.Complete?
    ensures AsAsked(Perform(s, a), Note(s, m, a), h)
  {
    hide FreeOk, BusyOk, RingsOk, AllAsked, Follow;
    OldAsked(s, m, h);
    OldAsked(s, m, a.h);
    assert ChainOk(s, a.h) && Apart(s, h, a.h);
    FollowChain(s, a.h);
  }

  lemma AskedMove(s: State, m: map<nat, Asked>, a: Action, h: nat)
    requires Inv(s) && Enabled(s, a) && AllAsked(s, m) && Shape(Perform(s, a)) && h in Perform(s, a).chains
    requires a.Take? || a.Interrupt?
    ensures AsAsked(Perform(s, a), Note(s, m, a), h)
  {
    hide Inv, AllAsked;
    OldAsked(s, m, h);
    if a.Take? { TakenStage(s); } else { InterruptKeeps(s); }
  }

  lemma AskedFinish(s: State, m: map<nat, Asked>, a: Action, h: nat)
    requires Inv(s) && Enabled(s, a) && AllAsked(s, m) && Shape(Perform(s, a)) && h in Perform(s, a).chains
    requires a.Finish?
    ensures AsAsked(Perform(s, a), Note(s, m, a), h)
  {
    hide Inv, AllAsked, ChainFreed;
    FinishChain(s, a.h);
    OldAsked(s, m, h);
  }

  lemma AskedStep(s: State, m: map<nat, Asked>, a: Action, h: nat)
    requires Inv(s) && Enabled(s, a) && AllAsked(s, m) && Shape(Perform(s, a)) && h in Perform(s, a).chains
    ensures AsAsked(Perform(s, a), Note(s, m, a), h)
  {
    hide Inv, AllAsked, AsAsked, Note, Perform, Enabled;
    match a
    case Fill(_, _) => AskedSubmit(s, m, a, h);
    case Submit(_, _, _) => AskedSubmit(s, m, a, h);
    case Take => AskedMove(s, m, a, h);
    case Complete(_) => AskedComplete(s, m, a, h);
    case Interrupt => AskedMove(s, m, a, h);
    case Finish(_) => AskedFinish(s, m, a, h);
  }

  lemma OldAsked(s: State, m: map<nat, Asked>, h: nat)
    requires AllAsked(s, m) && h in s.chains
    ensures AsAsked(s, m, h)
  {
  }

  /** The head that the device takes was offered. */
  lemma TakenStage(s: State)
    requires Inv(s) && Enabled(s, Take)
    ensures s.avail[s.seen % NUM] in s.chains && s.chains[s.avail[s.seen % NUM]].stage.Offered?
  {
    hide ChainsOk, ChainsApart, FreeOk, BusyOk;
    QueuePop(s.avail, s.availIdx, s.seen, s.availQ);
    StagedIs(s.chains, s.availQ, Offered, s.availQ[0]);
  }

  lemma FinishChain(s: State, h: nat)
    requires Inv(s) && Enabled(s, Finish(h))
    ensures Perform(s, Finish(h)).chains == s.chains - {h} && Perform(s, Finish(h)).mem == s.mem
  {
    hide ChainFreed, FreeOk, BusyOk, RingsOk;
    FreedParts(s, h);
  }

  lemma {:induction false} RunAsked(s: State, run: seq<Action>, m: map<nat, Asked>)
    requires Inv(s) && Legal(s, run) && AllAsked(s, m)
    ensures Inv(Run(s, run)) && AllAsked(Run(s, run), Noted(s, run, m))
    decreases |run|
  {
    hide Inv, Enabled, Perform, AsAsked, Note;
    if run != [] {
      var t := Perform(s, run[0]);
      Preserved(s, run[0]);
      assert Shape(t) by { InvShape(t); }
      forall h | h in t.chains ensures AsAsked(t, Note(s, m, run[0]), h) { AskedStep(s, m, run[0], h); }
      RunAsked(t, run[1..], Note(s, m, run[0]));
    }
  }

  lemma InvShape(s: State)
    requires Inv(s)
    ensures Shape(s)
  {
  }

  /** The requests of a run from the start. */
  ghost function Requests(s0: State, run: seq<Action>): map<nat, Asked>
    requires Legal(s0, run)
  {
    Noted(s0, run, map[])
  }

  lemma Reaches(s0: State, run: seq<Action>, h: nat) returns (t: State)
    requires Booted(s0) && Legal(s0, run)
    ensures t == Run(s0, run) && Inv(t) && (h in t.chains ==> ChainOk(t, h) && AsAsked(t, Requests(s0, run), h))
  {
    hide Queue, Staged, Owned, FreeOk, BusyOk, RingsOk, ChainOk, AsAsked, Noted, Run, Legal;
    BootedInv(s0);
    assert s0.chains == map[];
    RunAsked(s0, run, map[]);
    t := Run(s0, run);
  }

  /** In every run an interrupt finds the request of a buffer that was submitted, carried out once since then with a
      good status, and completes exactly that buffer. */
  lemma RightBuffer(s0: State, run: seq<Action>)
    requires Booted(s0) && Legal(s0, run) && Enabled(Run(s0, run), Interrupt)
    ensures var t, m := Run(s0, run), Requests(s0, run);
            var x := t.info[t.used[t.usedSeen % NUM]];
            && x.b.Buffer? && x.done && x.b.b in m && m[x.b.b].served == 1 && x.b.b in t.busy
            && Perform(t, Interrupt).busy == t.busy - {x.b.b}
  {
    hide Booted, Run, Legal, ChainsOk, FreeOk, BusyOk, RingsOk, Noted;
    var h := Run(s0, run).used[Run(s0, run).usedSeen % NUM];
    var t := Reaches(s0, run, h);
    InterruptKeeps(t);
  }

  /** In every run the device carries out a request as virtio_disk_rw was called with it, for the first time: a read
      fills its buffer from its block, a write stores its buffer in its block, and nothing else is transferred. */
  lemma RightTransfer(s0: State, run: seq<Action>, h: nat)
    requires Booted(s0) && Legal(s0, run) && Enabled(Run(s0, run), Complete(h))
    ensures var t, m := Run(s0, run), Requests(s0, run);
            && t.info[h].b.Buffer?
            && var b, u := t.info[h].b.b, Perform(t, Complete(h));
               && b in m && m[b].served == 0
               && u.mem == (if m[b].write then t.mem else t.mem[b := At(t.disk, 2 * m[b].block)])
               && u.disk == (if m[b].write then t.disk[2 * m[b].block := At(t.mem, b)] else t.disk)
               && u.info == t.info[h := t.info[h].(done := true)]
  {
    hide Booted, Run, Legal, ChainsApart, FreeOk, BusyOk, RingsOk, Follow, Noted;
    var t := Reaches(s0, run, h);
    FollowChain(t, h);
  }

  /** In every run virtio_disk_rw returns when its request has been carried out exactly once; after a read the buffer
      holds what the disk held then. */
  lemma ReturnsServed(s0: State, run: seq<Action>, h: nat)
    requires Booted(s0) && Legal(s0, run) && Enabled(Run(s0, run), Finish(h))
    ensures var t, m := Run(s0, run), Requests(s0, run);
            var b := t.info[h].b.b;
            && b in m && m[b].served == 1 && t.info[h].done && (!m[b].write ==> At(t.mem, b) == m[b].moved)
  {
    hide Booted, Run, Legal, ChainsApart, FreeOk, BusyOk, RingsOk, Noted;
    var t := Reaches(s0, run, h);
    FinishKeeps(t, h);
  }
}
