/** The user-level storage allocator (user/umalloc.c), after section 8.7 of The C Programming Language,
    second edition. Addresses count 16-byte header units. */
module Umalloc {

  /** A block header: the next free block, and the size of this block in units, header included. */
  datatype Header = Header(ptr: nat, size: nat)

  type Heap = map<nat, Header>

  /** A block of the free list. */
  datatype Block = Block(addr: nat, size: nat) {
    function End(): nat { addr + size }
  }

  /** A unit obtained from sbrk is free or part of an allocated block. */
  datatype Owner = Free | Part(block: nat)

  // ---------------------------------------------------------------- the free list

  ghost function NextAddr(bs: seq<Block>, i: nat): nat
    requires i < |bs|
  {
    if i + 1 < |bs| then bs[i + 1].addr else bs[0].addr
  }

  ghost predicate Link(h: Heap, bs: seq<Block>, i: nat)
    requires i < |bs|
  {
    bs[i].addr in h && h[bs[i].addr] == Header(NextAddr(bs, i), bs[i].size)
  }

  /** The headers chain the blocks in order and back to the first. */
  ghost predicate Linked(h: Heap, bs: seq<Block>)
  {
    forall i: nat :: i < |bs| ==> Link(h, bs, i)
  }

  /** The list starts at `base`, ascends, and is fully coalesced: there is a gap after every block. */
  ghost predicate Ordered(bs: seq<Block>, base: nat)
  {
    && |bs| >= 1 && bs[0] == Block(base, 0) && base > 0
    && (forall i :: 1 <= i < |bs| ==> bs[i].size >= 1)
    && (forall i, j :: 0 <= i < j < |bs| ==> bs[i].End() < bs[j].addr)
  }

  ghost predicate Covers(b: Block, u: nat) { b.addr <= u < b.End() }

  ghost predicate IsFree(bs: seq<Block>, u: nat) { exists i :: 0 <= i < |bs| && Covers(bs[i], u) }

  ghost predicate FreeUnits(bs: seq<Block>, own: map<nat, Owner>)
  {
    forall u: nat :: IsFree(bs, u) <==> u in own && own[u].Free?
  }

  ghost predicate UsedUnits(used: map<nat, nat>, own: map<nat, Owner>)
  {
    && (forall b :: b in used ==> used[b] >= 1)
    && (forall b, u :: b in used && Covers(Block(b, used[b]), u) ==> u in own && own[u] == Part(b))
    && (forall u :: u in own && own[u].Part? ==>
          own[u].block in used && Covers(Block(own[u].block, used[own[u].block]), u))
  }

  ghost predicate Headers(h: Heap, used: map<nat, nat>)
  {
    forall b :: b in used ==> b in h && h[b].size == used[b]
  }

  /** Free and allocated blocks tile the units that sbrk has handed out. */
  ghost predicate Tiled(h: Heap, bs: seq<Block>, used: map<nat, nat>, own: map<nat, Owner>, base: nat)
  {
    FreeUnits(bs, own) && UsedUnits(used, own) && Headers(h, used) && forall u :: u in own ==> u > base
  }

  // ---------------------------------------------------------------- where a block goes

  /** The number of blocks below `b`: the list position of a freed block. */
  ghost function Position(bs: seq<Block>, b: nat): (k: nat)
    ensures k <= |bs|
  {
    if bs == [] || bs[|bs| - 1].addr < b then |bs| else Position(bs[..|bs| - 1], b)
  }

  lemma {:induction false} PositionIs(bs: seq<Block>, base: nat, b: nat)
    requires Ordered(bs, base) && base < b
    ensures var k := Position(bs, b);
            && 1 <= k
            && (forall i :: 0 <= i < k ==> bs[i].addr < b)
            && (forall i :: k <= i < |bs| ==> b <= bs[i].addr)
    decreases |bs|
  {
    if bs[|bs| - 1].addr >= b {
      PositionIs(bs[..|bs| - 1], base, b);
    }
  }

  /** An allocated block lies in a gap of the list. */
  lemma InGap(h: Heap, bs: seq<Block>, used: map<nat, nat>, own: map<nat, Owner>, base: nat, b: nat, i: nat)
    requires Ordered(bs, base) && Tiled(h, bs, used, own, base) && b in used && i < |bs|
    ensures base < b && bs[i].addr != b
    ensures bs[i].addr < b ==> bs[i].End() <= b
    ensures b < bs[i].addr ==> b + used[b] <= bs[i].addr
  {
    assert Covers(Block(b, used[b]), b);
    assert b in own && own[b] == Part(b) && !IsFree(bs, b);
    var u := bs[i].addr;
    if i >= 1 {
      assert Covers(bs[i], u);
      assert IsFree(bs, u);
      assert !Covers(Block(b, used[b]), u);
    }
  }

  // ---------------------------------------------------------------- putting a block back

  ghost predicate JoinsUp(bs: seq<Block>, k: nat, b: Block) { k < |bs| && b.End() == bs[k].addr }

  ghost predicate JoinsDown(bs: seq<Block>, k: nat, b: Block) { 1 <= k <= |bs| && bs[k - 1].End() == b.addr }

  /** The block as the list will hold it, joined with its neighbours where they touch. */
  ghost function Merged(bs: seq<Block>, k: nat, b: Block): Block
  {
    var up := if JoinsUp(bs, k, b) then b.size + bs[k].size else b.size;
    if JoinsDown(bs, k, b) then Block(bs[k - 1].addr, bs[k - 1].size + up) else Block(b.addr, up)
  }

  /** Blocks [lo, hi) of the list replaced by `c`. */
  ghost function Splice(bs: seq<Block>, lo: nat, hi: nat, c: Block): seq<Block>
    requires lo <= hi <= |bs|
  {
    bs[..lo] + [c] + bs[hi..]
  }

  /** Where block `i` of the spliced list comes from. */
  ghost function Origin(lo: nat, hi: nat, i: nat): nat
    requires lo <= hi && i != lo
  {
    if i < lo then i else i - lo - 1 + hi
  }

  lemma SpliceAt(bs: seq<Block>, lo: nat, hi: nat, c: Block, i: nat)
    requires lo <= hi <= |bs| && i < |Splice(bs, lo, hi, c)|
    ensures |Splice(bs, lo, hi, c)| == |bs| - (hi - lo) + 1
    ensures i == lo ==> Splice(bs, lo, hi, c)[i] == c
    ensures i != lo ==> Origin(lo, hi, i) < |bs| && Splice(bs, lo, hi, c)[i] == bs[Origin(lo, hi, i)]
    ensures i < lo ==> Origin(lo, hi, i) == i
  {
  }

  lemma SpliceOrdered(bs: seq<Block>, base: nat, lo: nat, hi: nat, c: Block)
    requires Ordered(bs, base) && 1 <= lo <= hi <= |bs| && c.size >= 1
    requires bs[lo - 1].End() < c.addr && (hi < |bs| ==> c.End() < bs[hi].addr)
    ensures Ordered(Splice(bs, lo, hi, c), base)
  {
    hide Splice;
    var cs := Splice(bs, lo, hi, c);
    SpliceLength(bs, lo, hi, c);
    SpliceAt(bs, lo, hi, c, 0);
    forall i | 1 <= i < |cs| ensures cs[i].size >= 1 { SpliceAt(bs, lo, hi, c, i); }
    forall i, j | 0 <= i < j < |cs| ensures cs[i].End() < cs[j].addr {
      SpliceAt(bs, lo, hi, c, i);
      SpliceAt(bs, lo, hi, c, j);
      if j == lo {
        assert i < lo - 1 ==> bs[i].End() < bs[lo - 1].addr;
      } else if i == lo {
        assert hi < Origin(lo, hi, j) ==> bs[hi].End() < bs[Origin(lo, hi, j)].addr;
      } else {
        assert bs[Origin(lo, hi, i)].End() < bs[Origin(lo, hi, j)].addr;
      }
    }
  }

  lemma SpliceLength(bs: seq<Block>, lo: nat, hi: nat, c: Block)
    requires lo <= hi <= |bs|
    ensures |Splice(bs, lo, hi, c)| == |bs| - (hi - lo) + 1
  {
  }

  /** The units of the spliced list. */
  lemma SpliceUnits(bs: seq<Block>, lo: nat, hi: nat, c: Block, u: nat)
    requires lo <= hi <= |bs|
    ensures IsFree(Splice(bs, lo, hi, c), u) <==>
              || Covers(c, u)
              || exists i :: 0 <= i < |bs| && !(lo <= i < hi) && Covers(bs[i], u)
  {
    hide Splice, Covers;
    var cs := Splice(bs, lo, hi, c);
    SpliceLength(bs, lo, hi, c);
    SpliceAt(bs, lo, hi, c, lo);
    if i :| 0 <= i < |bs| && !(lo <= i < hi) && Covers(bs[i], u) {
      var j := if i < lo then i else i - hi + 1 + lo;
      SpliceAt(bs, lo, hi, c, j);
      assert Covers(cs[j], u);
    }
    if j :| 0 <= j < |cs| && Covers(cs[j], u) && j != lo {
      SpliceAt(bs, lo, hi, c, j);
      assert Covers(bs[Origin(lo, hi, j)], u);
    }
    if Covers(c, u) { assert Covers(cs[lo], u); }
  }

  ghost function Lo(bs: seq<Block>, k: nat, b: Block): (lo: nat)
    ensures lo <= k
  {
    if JoinsDown(bs, k, b) then k - 1 else k
  }

  ghost function Hi(bs: seq<Block>, k: nat, b: Block): (hi: nat)
    ensures hi >= k && (k <= |bs| ==> hi <= |bs|)
  {
    if JoinsUp(bs, k, b) then k + 1 else k
  }

  /** The list with block `b` put back at position `k`. */
  ghost function Insert(bs: seq<Block>, k: nat, b: Block): seq<Block>
    requires k <= |bs|
  {
    Splice(bs, Lo(bs, k, b), Hi(bs, k, b), Merged(bs, k, b))
  }

  /** `b` fits between its neighbours. */
  ghost predicate FitsAt(bs: seq<Block>, base: nat, k: nat, b: Block)
  {
    && Ordered(bs, base) && 1 <= k <= |bs| && b.size >= 1 && base < b.addr
    && (forall i :: 0 <= i < k ==> bs[i].End() <= b.addr)
    && (forall i :: k <= i < |bs| ==> b.End() <= bs[i].addr)
  }

  lemma InsertOrdered(bs: seq<Block>, base: nat, k: nat, b: Block)
    requires FitsAt(bs, base, k, b)
    ensures Ordered(Insert(bs, k, b), base)
  {
    hide Splice;
    SpliceOrdered(bs, base, Lo(bs, k, b), Hi(bs, k, b), Merged(bs, k, b));
  }

  lemma InsertUnits(bs: seq<Block>, base: nat, k: nat, b: Block, u: nat)
    requires FitsAt(bs, base, k, b)
    ensures IsFree(Insert(bs, k, b), u) <==> IsFree(bs, u) || Covers(b, u)
  {
    hide Splice;
    var lo, hi, c := Lo(bs, k, b), Hi(bs, k, b), Merged(bs, k, b);
    SpliceUnits(bs, lo, hi, c, u);
    if i :| 0 <= i < |bs| && lo <= i < hi && Covers(bs[i], u) { assert Covers(c, u); }
    if Covers(c, u) && !Covers(b, u) {
      if u < b.addr { assert Covers(bs[k - 1], u); } else { assert Covers(bs[k], u); }
    }
  }

  // ---------------------------------------------------------------- the links after a splice

  /** In an ordered list the addresses differ. */
  lemma Apart(bs: seq<Block>, base: nat, i: nat, j: nat)
    requires Ordered(bs, base) && i < |bs| && j < |bs| && i != j
    ensures bs[i].addr != bs[j].addr
  {
    if i < j { assert bs[i].End() < bs[j].addr; } else { assert bs[j].End() < bs[i].addr; }
  }

  lemma SpliceLinked(h: Heap, h': Heap, bs: seq<Block>, base: nat, lo: nat, hi: nat, c: Block)
    requires Linked(h, bs) && 1 <= lo <= hi <= |bs| && Ordered(bs, base)
    requires c.addr in h' && h'[c.addr] == Header(if hi < |bs| then bs[hi].addr else bs[0].addr, c.size)
    requires bs[lo - 1].addr in h' && h'[bs[lo - 1].addr] == Header(c.addr, bs[lo - 1].size)
    requires forall i :: 0 <= i < |bs| && (i < lo - 1 || hi <= i) && bs[i].addr in h ==>
               bs[i].addr in h' && h'[bs[i].addr] == h[bs[i].addr]
    ensures Linked(h', Splice(bs, lo, hi, c))
  {
    hide Splice;
    var cs := Splice(bs, lo, hi, c);
    SpliceLength(bs, lo, hi, c);
    forall i: nat | i < |cs| ensures Link(h', cs, i) {
      SpliceAt(bs, lo, hi, c, i);
      SpliceAt(bs, lo, hi, c, 0);
      if i + 1 < |cs| { SpliceAt(bs, lo, hi, c, i + 1); }
      if i != lo {
        var o := Origin(lo, hi, i);
        assert Link(h, bs, o);
      }
    }
  }

  /** The list without block `i`. */
  ghost function Without(bs: seq<Block>, i: nat): seq<Block>
    requires i < |bs|
  {
    bs[..i] + bs[i + 1..]
  }

  lemma WithoutOrdered(bs: seq<Block>, base: nat, i: nat)
    requires Ordered(bs, base) && 1 <= i < |bs|
    ensures Ordered(Without(bs, i), base)
  {
    var cs := Without(bs, i);
    forall a, b | 0 <= a < b < |cs| ensures cs[a].End() < cs[b].addr {
      var a', b' := if a < i then a else a + 1, if b < i then b else b + 1;
      assert bs[a'].End() < bs[b'].addr;
    }
  }

  lemma WithoutUnits(bs: seq<Block>, base: nat, i: nat, u: nat)
    requires Ordered(bs, base) && 1 <= i < |bs|
    ensures IsFree(Without(bs, i), u) <==> IsFree(bs, u) && !Covers(bs[i], u)
  {
    var cs := Without(bs, i);
    if a :| 0 <= a < |cs| && Covers(cs[a], u) {
      var a' := if a < i then a else a + 1;
      assert Covers(bs[a'], u);
      assert if a' < i then bs[a'].End() < bs[i].addr else bs[i].End() < bs[a'].addr;
    }
    if a :| 0 <= a < |bs| && Covers(bs[a], u) && !Covers(bs[i], u) {
      var a' := if a < i then a else a - 1;
      assert Covers(cs[a'], u);
    }
  }

  lemma WithoutLinked(h: Heap, bs: seq<Block>, base: nat, i: nat)
    requires Linked(h, bs) && Ordered(bs, base) && 1 <= i < |bs|
    ensures bs[i - 1].addr in h && Linked(h[bs[i - 1].addr := Header(NextAddr(bs, i), bs[i - 1].size)], Without(bs, i))
  {
    var cs := Without(bs, i);
    assert Link(h, bs, i - 1);
    var h' := h[bs[i - 1].addr := Header(NextAddr(bs, i), bs[i - 1].size)];
    forall a: nat | a < |cs| ensures Link(h', cs, a) {
      var a' := if a < i then a else a + 1;
      assert Link(h, bs, a');
      if a' != i - 1 { Apart(bs, base, a', i - 1); }
    }
  }

  /** Block `i` cut down to its first units. */
  ghost function Cut(bs: seq<Block>, i: nat, n: nat): seq<Block>
    requires i < |bs| && n <= bs[i].size
  {
    bs[i := Block(bs[i].addr, bs[i].size - n)]
  }

  lemma CutOrdered(bs: seq<Block>, base: nat, i: nat, n: nat)
    requires Ordered(bs, base) && 1 <= i < |bs| && n < bs[i].size
    ensures Ordered(Cut(bs, i, n), base)
  {
    var cs := Cut(bs, i, n);
    forall a, b | 0 <= a < b < |cs| ensures cs[a].End() < cs[b].addr { assert bs[a].End() < bs[b].addr; }
  }

  lemma CutUnits(bs: seq<Block>, base: nat, i: nat, n: nat, u: nat)
    requires Ordered(bs, base) && 1 <= i < |bs| && n < bs[i].size
    ensures IsFree(Cut(bs, i, n), u) <==> IsFree(bs, u) && !Covers(Block(bs[i].End() - n, n), u)
  {
    var cs := Cut(bs, i, n);
    if a :| 0 <= a < |cs| && Covers(cs[a], u) {
      assert Covers(bs[a], u);
      assert a < i ==> bs[a].End() < bs[i].addr;
      assert i < a ==> bs[i].End() < bs[a].addr;
    }
    if a :| 0 <= a < |bs| && Covers(bs[a], u) && !Covers(Block(bs[i].End() - n, n), u) {
      assert Covers(cs[a], u);
    }
  }

  lemma CutLinked(h: Heap, bs: seq<Block>, base: nat, i: nat, n: nat, h': Heap)
    requires Linked(h, bs) && Ordered(bs, base) && 1 <= i < |bs| && n < bs[i].size
    requires bs[i].addr in h && bs[i].addr in h' && h'[bs[i].addr] == Header(h[bs[i].addr].ptr, bs[i].size - n)
    requires forall a :: 0 <= a < |bs| && a != i && bs[a].addr in h ==>
             bs[a].addr in h' && h'[bs[a].addr] == h[bs[a].addr]
    ensures Linked(h', Cut(bs, i, n))
  {
    var cs := Cut(bs, i, n);
    forall a: nat | a < |cs| ensures Link(h', cs, a) {
      assert Link(h, bs, a);
    }
  }

  // ---------------------------------------------------------------- free

  /** What the list, the allocated blocks and the units stand for. */
  datatype View = View(bs: seq<Block>, used: map<nat, nat>, own: map<nat, Owner>)

  ghost predicate Inv(h: Heap, base: nat, v: View, at: nat, freep: nat)
  {
    && Ordered(v.bs, base) && Linked(h, v.bs) && Tiled(h, v.bs, v.used, v.own, base)
    && at < |v.bs| && freep == v.bs[at].addr
  }

  /** The units of block `b` become free. */
  ghost function Take(own: map<nat, Owner>, b: nat): map<nat, Owner>
  {
    map u | u in own :: if own[u] == Part(b) then Free else own[u]
  }

  ghost function FreeView(v: View, bp: nat): View
    requires bp in v.used
  {
    View(Insert(v.bs, Position(v.bs, bp), Block(bp, v.used[bp])), v.used - {bp}, Take(v.own, bp))
  }

  /** The header updates of free, `p` being the block below `bp`. */
  function JoinUpper(h: Heap, p: nat, bp: nat): (r: Heap)
    requires p in h && bp in h && h[p].ptr in h
    ensures p in r && bp in r
  {
    var next := h[p].ptr;
    if bp + h[bp].size == next then h[bp := Header(h[next].ptr, h[bp].size + h[next].size)]
    else h[bp := Header(next, h[bp].size)]
  }

  function JoinLower(h: Heap, p: nat, bp: nat): Heap
    requires p in h && bp in h
  {
    if p + h[p].size == bp then h[p := Header(h[bp].ptr, h[p].size + h[bp].size)]
    else h[p := Header(bp, h[p].size)]
  }

  lemma FreeFits(h: Heap, base: nat, v: View, at: nat, freep: nat, bp: nat)
    requires Inv(h, base, v, at, freep) && bp in v.used
    ensures var k := Position(v.bs, bp);
            && FitsAt(v.bs, base, k, Block(bp, v.used[bp])) && bp in h && h[bp].size == v.used[bp]
            && forall i :: 0 <= i < |v.bs| ==> v.bs[i].addr != bp
  {
    hide Linked, Ordered, Tiled;
    var k := Position(v.bs, bp);
    forall i | 0 <= i < |v.bs|
      ensures base < bp && v.bs[i].addr != bp
      ensures v.bs[i].addr < bp ==> v.bs[i].End() <= bp
      ensures bp < v.bs[i].addr ==> bp + v.used[bp] <= v.bs[i].addr
    {
      InGap(h, v.bs, v.used, v.own, base, bp, i);
    }
    UsedHeader(h, base, v, bp);
    PositionIs(v.bs, base, bp);
  }

  lemma UsedHeader(h: Heap, base: nat, v: View, b: nat)
    requires Ordered(v.bs, base) && Tiled(h, v.bs, v.used, v.own, base) && b in v.used
    ensures b in h && h[b].size == v.used[b] >= 1 && base < b && |v.bs| >= 1
  {
    UsedUnit(v.used, v.own, b);
  }

  lemma LinkAt(h: Heap, bs: seq<Block>, i: nat)
    requires Linked(h, bs) && i < |bs|
    ensures bs[i].addr in h && h[bs[i].addr] == Header(if i + 1 < |bs| then bs[i + 1].addr else bs[0].addr, bs[i].size)
  {
    assert Link(h, bs, i);
  }

  lemma FirstIsBase(bs: seq<Block>, base: nat)
    requires Ordered(bs, base)
    ensures |bs| >= 1 && bs[0] == Block(base, 0)
  {
  }

  /** The headers that free writes, in terms of the list. */
  lemma JoinedHeaders(h: Heap, base: nat, bs: seq<Block>, k: nat, b: Block)
    requires Linked(h, bs) && FitsAt(bs, base, k, b) && b.addr in h && h[b.addr].size == b.size
    requires forall i :: 0 <= i < |bs| ==> bs[i].addr != b.addr
    requires bs[k - 1].addr in h && h[bs[k - 1].addr].ptr in h
    ensures var h' := JoinLower(JoinUpper(h, bs[k - 1].addr, b.addr), bs[k - 1].addr, b.addr);
            var lo, hi, c := Lo(bs, k, b), Hi(bs, k, b), Merged(bs, k, b);
            && 1 <= lo && c.addr in h' && h'[c.addr] == Header(if hi < |bs| then bs[hi].addr else bs[0].addr, c.size)
            && bs[lo - 1].addr in h' && h'[bs[lo - 1].addr] == Header(c.addr, bs[lo - 1].size)
  {
    hide Linked, Ordered;
    LinkAt(h, bs, k - 1);
    if k < |bs| { LinkAt(h, bs, k); }
    assert bs[0] == Block(base, 0) && base < b.addr by { assert Ordered(bs, base); FirstIsBase(bs, base); }
    hide FitsAt;
    assert bs[k - 1].addr != b.addr;
    if JoinsDown(bs, k, b) {
      LinkAt(h, bs, k - 2);
      Apart(bs, base, k - 2, k - 1);
    }
  }

  lemma FreeLinked(h: Heap, base: nat, bs: seq<Block>, k: nat, b: Block)
    requires Linked(h, bs) && FitsAt(bs, base, k, b) && b.addr in h && h[b.addr].size == b.size
    requires forall i :: 0 <= i < |bs| ==> bs[i].addr != b.addr
    requires bs[k - 1].addr in h && h[bs[k - 1].addr].ptr in h
    ensures var h' := JoinLower(JoinUpper(h, bs[k - 1].addr, b.addr), bs[k - 1].addr, b.addr);
            && Linked(h', Insert(bs, k, b))
            && forall a :: a in h && a != b.addr && a != bs[k - 1].addr ==> a in h' && h'[a] == h[a]
  {
    hide Splice, Linked, Position, Ordered, Merged;
    var p := bs[k - 1].addr;
    var h' := JoinLower(JoinUpper(h, p, b.addr), p, b.addr);
    JoinedHeaders(h, base, bs, k, b);
    forall i: nat | i < |bs| && i != k - 1 ensures bs[i].addr != p {
      Apart(bs, base, i, k - 1);
    }
    SpliceLinked(h, h', bs, base, Lo(bs, k, b), Hi(bs, k, b), Merged(bs, k, b));
  }

  lemma FreeTiled(h: Heap, h': Heap, base: nat, v: View, at: nat, freep: nat, bp: nat)
    requires Inv(h, base, v, at, freep) && bp in v.used
    requires var k := Position(v.bs, bp);
             1 <= k && forall a :: a in h && a != bp && a != v.bs[k - 1].addr ==> a in h' && h'[a] == h[a]
    ensures var w := FreeView(v, bp); Tiled(h', w.bs, w.used, w.own, base)
  {
    hide Linked, Position, Insert, Ordered, IsFree;
    var k, w := Position(v.bs, bp), FreeView(v, bp);
    FreeFits(h, base, v, at, freep, bp);
    forall u: nat ensures IsFree(w.bs, u) <==> u in w.own && w.own[u].Free? {
      InsertUnits(v.bs, base, k, Block(bp, v.used[bp]), u);
    }
    assert FreeUnits(w.bs, w.own);
    assert UsedUnits(w.used, w.own) by { TakeUsed(v.used, v.own, bp); }
    hide FreeUnits, UsedUnits, Covers;
    forall b | b in w.used ensures b in h' && h'[b].size == w.used[b] {
      InGap(h, v.bs, v.used, v.own, base, b, k - 1);
    }
  }

  lemma TakeUsed(used: map<nat, nat>, own: map<nat, Owner>, b: nat)
    requires UsedUnits(used, own)
    ensures UsedUnits(used - {b}, Take(own, b))
  {
    hide Covers;
  }

  // ---------------------------------------------------------------- malloc

  /** The units [b, b + n) become part of block `b`. */
  ghost function Give(own: map<nat, Owner>, b: nat, n: nat): map<nat, Owner>
  {
    map u | u in own :: if b <= u < b + n then Part(b) else own[u]
  }

  /** The tail of list block `i` is allocated; a block of exactly that size leaves the list. */
  ghost function MallocView(v: View, i: nat, n: nat): View
    requires i < |v.bs| && n <= v.bs[i].size
  {
    var b := v.bs[i].End() - n;
    View(if n == v.bs[i].size then Without(v.bs, i) else Cut(v.bs, i, n), v.used[b := n], Give(v.own, b, n))
  }

  lemma FreeBlockUnit(bs: seq<Block>, own: map<nat, Owner>, i: nat, u: nat)
    requires FreeUnits(bs, own) && i < |bs| && Covers(bs[i], u)
    ensures u in own && own[u].Free?
  {
    assert IsFree(bs, u);
  }

  lemma UsedUnit(used: map<nat, nat>, own: map<nat, Owner>, b: nat)
    requires UsedUnits(used, own) && b in used
    ensures b in own && own[b] == Part(b)
  {
    assert Covers(Block(b, used[b]), b);
  }

  lemma GiveUsed(bs: seq<Block>, used: map<nat, nat>, own: map<nat, Owner>, i: nat, n: nat)
    requires FreeUnits(bs, own) && UsedUnits(used, own) && i < |bs| && 1 <= n <= bs[i].size
    ensures var b := bs[i].End() - n; b !in used && UsedUnits(used[b := n], Give(own, b, n))
  {
    hide IsFree, FreeUnits;
    var b := bs[i].End() - n;
    forall u | b <= u < b + n ensures u in own && own[u].Free? { FreeBlockUnit(bs, own, i, u); }
    assert b in own && own[b].Free?;
    if b in used { UsedUnit(used, own, b); }
    var used', own' := used[b := n], Give(own, b, n);
    forall c, u | c in used' && Covers(Block(c, used'[c]), u) ensures u in own' && own'[u] == Part(c) { }
  }

  lemma GiveFree(bs: seq<Block>, own: map<nat, Owner>, base: nat, i: nat, n: nat)
    requires Ordered(bs, base) && FreeUnits(bs, own) && 1 <= i < |bs| && 1 <= n <= bs[i].size
    ensures FreeUnits(if n == bs[i].size then Without(bs, i) else Cut(bs, i, n), Give(own, bs[i].End() - n, n))
  {
    hide IsFree, Ordered, Without, Cut;
    var cs := if n == bs[i].size then Without(bs, i) else Cut(bs, i, n);
    var own' := Give(own, bs[i].End() - n, n);
    forall u: nat ensures IsFree(cs, u) <==> u in own' && own'[u].Free? {
      if n == bs[i].size { WithoutUnits(bs, base, i, u); } else { CutUnits(bs, base, i, n, u); }
    }
  }

  /** The header updates of malloc at list block `p`, whose predecessor is `prevp`. */
  function MallocHeap(h: Heap, prevp: nat, p: nat, n: nat): Heap
    requires p in h && prevp in h && n <= h[p].size
  {
    if h[p].size == n then h[prevp := h[prevp].(ptr := h[p].ptr)]
    else h[p := h[p].(size := h[p].size - n)][p + h[p].size - n := Header(0, n)]
  }

  lemma MallocLinked(h: Heap, base: nat, bs: seq<Block>, i: nat, n: nat)
    requires Linked(h, bs) && Ordered(bs, base) && 1 <= i < |bs| && 1 <= n <= bs[i].size
    requires bs[i].addr in h && bs[i - 1].addr in h && h[bs[i].addr].size == bs[i].size
    ensures Linked(MallocHeap(h, bs[i - 1].addr, bs[i].addr, n),
                   if n == bs[i].size then Without(bs, i) else Cut(bs, i, n))
  {
    hide Without, Cut, Linked;
    var h' := MallocHeap(h, bs[i - 1].addr, bs[i].addr, n);
    LinkAt(h, bs, i - 1);
    LinkAt(h, bs, i);
    if n == bs[i].size {
      WithoutLinked(h, bs, base, i);
    } else {
      forall a: nat | a < |bs| && a != i && bs[a].addr in h
        ensures bs[a].addr in h' && h'[bs[a].addr] == h[bs[a].addr]
      {
        Apart(bs, base, a, i);
        if a < i { assert bs[a].End() < bs[i].addr; } else { assert bs[i].End() < bs[a].addr; }
      }
      CutLinked(h, bs, base, i, n, h');
    }
  }

  lemma MallocKeeps(h: Heap, base: nat, v: View, at: nat, freep: nat, i: nat, n: nat)
    requires Inv(h, base, v, at, freep) && 1 <= i < |v.bs| && 1 <= n <= v.bs[i].size
    requires v.bs[i].addr in h && v.bs[i - 1].addr in h && h[v.bs[i].addr].size == v.bs[i].size
    ensures var w := MallocView(v, i, n);
            Inv(MallocHeap(h, v.bs[i - 1].addr, v.bs[i].addr, n), base, w, i - 1, v.bs[i - 1].addr)
            && v.bs[i].End() - n !in v.used
  {
    hide Linked, Without, Cut, IsFree, Covers;
    var w, h' := MallocView(v, i, n), MallocHeap(h, v.bs[i - 1].addr, v.bs[i].addr, n);
    MallocLinked(h, base, v.bs, i, n);
    GiveFree(v.bs, v.own, base, i, n);
    GiveUsed(v.bs, v.used, v.own, i, n);
    if n == v.bs[i].size { WithoutOrdered(v.bs, base, i); } else { CutOrdered(v.bs, base, i, n); }
    assert w.bs[i - 1].addr == v.bs[i - 1].addr && i - 1 < |w.bs| by { KeepsBefore(v.bs, i, n); }
    assert Headers(h', w.used) by { MallocHeaders(h, base, v, at, freep, i, n); }
  }

  lemma KeepsBefore(bs: seq<Block>, i: nat, n: nat)
    requires 1 <= i < |bs| && n <= bs[i].size
    ensures var cs := if n == bs[i].size then Without(bs, i) else Cut(bs, i, n); i - 1 < |cs| && cs[i - 1] == bs[i - 1]
  {
  }

  lemma MallocHeaders(h: Heap, base: nat, v: View, at: nat, freep: nat, i: nat, n: nat)
    requires Inv(h, base, v, at, freep) && 1 <= i < |v.bs| && 1 <= n <= v.bs[i].size
    requires v.bs[i].addr in h && v.bs[i - 1].addr in h && h[v.bs[i].addr].size == v.bs[i].size
    ensures Headers(MallocHeap(h, v.bs[i - 1].addr, v.bs[i].addr, n), v.used[v.bs[i].End() - n := n])
  {
    hide Linked, IsFree, Covers, FreeUnits, UsedUnits;
    forall b | b in v.used ensures b != v.bs[i].addr && b != v.bs[i - 1].addr {
      InGap(h, v.bs, v.used, v.own, base, b, i);
      InGap(h, v.bs, v.used, v.own, base, b, i - 1);
    }
  }

  // ---------------------------------------------------------------- more core

  /** The answer of sbrk: the first of the units asked for, or failure. */
  datatype Grant = NoMemory | Core(addr: nat)

  /** sbrk hands out units above `base` that it has not handed out before. */
  ghost predicate Fresh(v: View, base: nat, g: Grant, n: nat)
  {
    g.Core? ==> g.addr > base && v.own.Keys !! UnitsFrom(g.addr, n)
  }

  ghost function UnitsFrom(a: nat, n: nat): (r: set<nat>)
    ensures forall u :: u in r <==> a <= u < a + n
  {
    if n == 0 then {} else UnitsFrom(a, n - 1) + {a + n - 1}
  }

  ghost function Enlarged(v: View, a: nat, n: nat): View
  {
    v.(used := v.used[a := n], own := v.own + map u | u in UnitsFrom(a, n) :: Part(a))
  }

  /** The new core is an allocated block until morecore frees it. */
  lemma CoreKeeps(h: Heap, base: nat, v: View, at: nat, freep: nat, a: nat, n: nat)
    requires Inv(h, base, v, at, freep) && Fresh(v, base, Core(a), n) && n >= 1
    ensures Inv(h[a := Header(0, n)], base, Enlarged(v, a, n), at, freep) && a !in v.used
  {
    hide Ordered, Linked;
    var w, h' := Enlarged(v, a, n), h[a := Header(0, n)];
    assert a in UnitsFrom(a, n);
    assert a !in v.used by { if a in v.used { UsedUnit(v.used, v.own, a); } }
    forall i: nat | i < |v.bs| ensures v.bs[i].addr != a { CoreApart(h, base, v, at, freep, a, n, i); }
    assert Linked(h', v.bs) by { RelinkedElsewhere(h, h', v.bs, a); }
    hide IsFree;
    assert FreeUnits(w.bs, w.own);
    assert UsedUnits(w.used, w.own) by { hide *; CoreUsed(v.used, v.own, a, n); }
  }

  lemma CoreUsed(used: map<nat, nat>, own: map<nat, Owner>, a: nat, n: nat)
    requires UsedUnits(used, own) && own.Keys !! UnitsFrom(a, n) && n >= 1 && a !in used
    ensures UsedUnits(used[a := n], own + map u | u in UnitsFrom(a, n) :: Part(a))
  {
    hide UnitsFrom;
    var us := UnitsFrom(a, n);
    var used', own' := used[a := n], own + map u | u in us :: Part(a);
    forall b, u | b in used' && Covers(Block(b, used'[b]), u) ensures u in own' && own'[u] == Part(b) {
      if b != a { assert Covers(Block(b, used[b]), u); }
    }
  }

  lemma CoreApart(h: Heap, base: nat, v: View, at: nat, freep: nat, a: nat, n: nat, i: nat)
    requires Inv(h, base, v, at, freep) && Fresh(v, base, Core(a), n) && n >= 1 && i < |v.bs|
    ensures v.bs[i].addr != a
  {
    if i >= 1 {
      assert Covers(v.bs[i], v.bs[i].addr);
      FreeBlockUnit(v.bs, v.own, i, v.bs[i].addr);
    }
  }

  lemma RelinkedElsewhere(h: Heap, h': Heap, bs: seq<Block>, a: nat)
    requires Linked(h, bs) && (forall i: nat :: i < |bs| ==> bs[i].addr != a)
    requires forall x :: x in h && x != a ==> x in h' && h'[x] == h[x]
    ensures Linked(h', bs)
  {
    forall i: nat | i < |bs| ensures Link(h', bs, i) { assert Link(h, bs, i); }
  }

  /** After morecore some block is large enough. */
  lemma InsertLarge(bs: seq<Block>, k: nat, b: Block)
    requires k <= |bs|
    ensures Lo(bs, k, b) < |Insert(bs, k, b)| && Insert(bs, k, b)[Lo(bs, k, b)].size >= b.size
  {
  }

  lemma InsertKeepsBelow(bs: seq<Block>, base: nat, k: nat, b: Block)
    requires FitsAt(bs, base, k, b)
    ensures k - 1 < |Insert(bs, k, b)| && Insert(bs, k, b)[k - 1].addr == bs[k - 1].addr
  {
  }

  function Succ(n: nat, i: nat): nat
    requires i < n
  {
    if i + 1 < n then i + 1 else 0
  }

  /** Steps of the list from `i` to `j`. */
  function Distance(n: nat, i: nat, j: nat): nat
    requires i < n && j < n
  {
    if i <= j then j - i else n - i + j
  }

  class Allocator {
    const base: nat
    var hdr: Heap
    /** 0 until the first call of malloc. */
    var freep: nat
    ghost var v: View
    ghost var at: nat

    ghost predicate Valid()
      reads this
    {
      base > 0 && if freep == 0 then v == View([], map[], map[]) else Inv(hdr, base, v, at, freep)
    }

    constructor (b: nat)
      requires b > 0
      ensures Valid() && freep == 0 && base == b
    {
      base, hdr, freep, v, at := b, map[], 0, View([], map[], map[]), 0;
    }

    /** free: the search terminates at the place of the block, and the units of the block become free. */
    method FreeBlock(bp: nat)
      requires Valid() && freep != 0 && bp in v.used
      modifies this
      ensures Valid() && freep != 0 && v == FreeView(old(v), bp)
      ensures at == Position(old(v).bs, bp) - 1
    {
      hide Ordered, Linked, Tiled, Position, Insert, FitsAt, JoinUpper, JoinLower, Take, FreeView;
      ghost var h0, v0, bs := hdr, v, v.bs;
      ghost var k, n := Position(bs, bp), |bs|;
      FreeFits(hdr, base, v, at, freep, bp);
      FitsFacts(bs, base, k, Block(bp, v.used[bp]));
      UsedHeader(hdr, base, v, bp);
      var p := freep;
      ghost var i := at;
      LinkAt(hdr, bs, i);
      while !(bp > p && bp < hdr[p].ptr)
        invariant hdr == h0 && v == v0 && at == old(at) && freep == old(freep)
        invariant 0 <= i < n && p == bs[i].addr && p in hdr && hdr[p].ptr == if i + 1 < n then bs[i + 1].addr
                  else bs[0].addr
        decreases Distance(n, i, k - 1)
      {
        SearchStep(bs, base, k, Block(bp, v.used[bp]), i);
        if p >= hdr[p].ptr && (bp > p || bp < hdr[p].ptr) {
          break;
        }
        p := hdr[p].ptr;
        i := Succ(n, i);
        LinkAt(hdr, bs, i);
      }
      SearchStep(bs, base, k, Block(bp, v.used[bp]), i);
      assert i == k - 1;
      FreeKeeps(h0, base, v0, at, freep, bp);
      hdr := JoinUpper(hdr, p, bp);
      hdr := JoinLower(hdr, p, bp);
      freep := p;
      v := FreeView(v0, bp);
      at := k - 1;
    }

    /** morecore: at least 4096 units from sbrk, freed into the list. The units recorded in the header are
        those asked for, because the request fits in an `int`. */
    method MoreCore(nu: nat, g: Grant) returns (p: nat)
      requires Valid() && freep != 0 && 1 <= nu < INT_UNITS && Fresh(v, base, g, CoreUnits(nu))
      modifies this
      ensures Valid() && freep != 0 && p == if g.Core? then freep else 0
      ensures g.NoMemory? ==> v == old(v) && at == old(at)
      ensures g.Core? ==> v == FreeView(Enlarged(old(v), g.addr, CoreUnits(nu)), g.addr)
      ensures g.Core? ==> at == Position(old(v).bs, g.addr) - 1
      ensures g.Core? ==> exists i :: 0 <= i < |v.bs| && v.bs[i].size >= nu
    {
      hide Ordered, Linked, Tiled, Position, Insert, Take, UnitsFrom, Inv;
      var n := if nu < 4096 then 4096 else nu;
      if g.NoMemory? {
        return 0;
      }
      CoreKeeps(hdr, base, v, at, freep, g.addr, n);
      ghost var v1 := Enlarged(v, g.addr, n);
      hdr := hdr[g.addr := Header(0, n)];
      v := v1;
      FreeBlock(g.addr);
      InsertLarge(v1.bs, Position(v1.bs, g.addr), Block(g.addr, n));
      p := freep;
    }

    /** The degenerate list of the first call. */
    method Start()
      requires Valid()
      modifies this
      ensures Inv(hdr, base, v, at, freep) && freep != 0 && v == Started(old(v), base) && v.own == old(v).own
      ensures at == if old(freep) == 0 then 0 else old(at)
    {
      hide Linked, Tiled, Ordered;
      if freep == 0 {
        freep := base;
        hdr := hdr[base := Header(base, 0)];
        v, at := View([Block(base, 0)], map[], map[]), 0;
        StartInv(hdr, base);
      }
    }

    /** Take `n` units off the end of list block `p`, whose predecessor is `prevp`. */
    method Carve(prevp: nat, p: nat, n: nat, ghost i: nat) returns (ap: nat)
      requires Inv(hdr, base, v, at, freep) && i < |v.bs| && p == v.bs[i].addr && 1 <= n <= v.bs[i].size
      requires i >= 1 ==> prevp == v.bs[i - 1].addr
      modifies this
      ensures 1 <= i && Inv(hdr, base, v, at, freep) && freep != 0
      ensures v == MallocView(old(v), i, n) && ap == old(v).bs[i].End() - n + 1 && at == i - 1
    {
      hide Ordered, Linked, Tiled, MallocView, Inv;
      InvList(hdr, base, v, at, freep);
      InvLink(hdr, base, v, at, freep, i);
      NotNull(v.bs, base, i - 1);
      MallocKeeps(hdr, base, v, at, freep, i, n);
      v := MallocView(v, i, n);
      var q := p;
      if hdr[p].size == n {
        hdr := hdr[prevp := hdr[prevp].(ptr := hdr[p].ptr)];
      } else {
        hdr := hdr[p := hdr[p].(size := hdr[p].size - n)];
        q := q + hdr[p].size;
        hdr := hdr[q := Header(0, n)];
      }
      freep, at := prevp, i - 1;
      ap := q + 1;
    }

    /** The call of morecore in malloc, when the scan has found no block. */
    method Restock(nu: nat, g: Grant) returns (p: nat)
      requires Inv(hdr, base, v, at, freep) && freep != 0 && base > 0
      requires 1 <= nu < INT_UNITS && Fresh(v, base, g, CoreUnits(nu)) && Exhausted(v.bs, nu)
      modifies this
      ensures Inv(hdr, base, v, at, freep) && freep != 0 && at < |v.bs| && freep == v.bs[at].addr
      ensures p == 0 ==> v == old(v) && at == old(at) && Malloced(v, at, v, at, g, nu, 0, false)
      ensures p != 0 ==> p == freep && g.Core? && v == Stocked(old(v), g, nu, true) && !Exhausted(v.bs, nu)
      ensures p != 0 ==> AllSmall(v.bs, at, Succ(|v.bs|, at), nu) && at == StockedAt(old(v), old(at), g, true)
    {
      hide Inv, Exhausted, Stocked, Malloced, AllSmall, Fresh, FreeView, Enlarged, Position;
      ghost var v0 := v;
      p := MoreCore(nu, g);
      InvList(hdr, base, v, at, freep);
      if p == 0 {
        NoBlock(v0, at, g, nu);
      } else {
        StockedIs(v0, g, nu);
        SomeLarge(v.bs, nu);
        NoneVisited(v.bs, at, nu);
      }
    }

    /** malloc: a block from the tail of a list block that is large enough, with morecore called at most once,
        and only when there is none. `ap` is 0 on failure, else one unit above the header. */
    method Malloc(nbytes: nat, g: Grant) returns (ap: nat, ghost called: bool)
      requires Valid() && Fresh(v, base, g, CoreUnits(Units(nbytes)))
      requires nbytes <= 0x7fff_ffe0 || !Exhausted(Started(v, base).bs, Units(nbytes))
      modifies this
      ensures Valid() && freep != 0
      ensures Malloced(Started(old(v), base), if old(freep) == 0 then 0 else old(at), v, at, g,
                       Units(nbytes), ap, called)
      ensures ap != 0 ==> Holds(v, ap, nbytes)
    {
      hide Holds, Started, MallocView, Inv, AllSmall, Exhausted, Stocked, Malloced, Fresh, CoreUnits, Distance,
           Scanning,
           Position;
      var nunits := Units(nbytes);
      assert Fresh(v, base, g, CoreUnits(nunits));
      Start();
      ghost var v0, at0 := v, at;
      assert Fresh(v0, base, g, CoreUnits(nunits)) by { FreshSame(old(v), v0, base, g, CoreUnits(nunits)); }
      StockedNot(v0, g, nunits);
      called := false;
      InvList(hdr, base, v, at, freep);
      var prevp := freep;
      var p := hdr[prevp].ptr;
      ghost var i := Succ(|v.bs|, at);
      NoneVisited(v.bs, at, nunits);
      InScan(hdr, base, v, at, freep, at, i, prevp, p, nunits);
      while true
        invariant 0 <= i < |v.bs| && at < |v.bs|
        invariant Scanning(hdr, base, v, at, freep, i, prevp, p, nunits) && v == Stocked(v0, g, nunits, called)
        invariant called ==> Exhausted(v0.bs, nunits) && g.Core? && !Exhausted(v.bs, nunits)
        invariant at == StockedAt(v0, at0, g, called)
        decreases !called, Distance(|v.bs|, i, at)
      {
        ScanFacts(hdr, base, v, at, freep, i, prevp, p, nunits);
        if hdr[p].size >= nunits {
          ghost var from := at;
          ap := Carve(prevp, p, nunits, i);
          CarvedIs(v0, at0, g, nunits, called, from, i);
          CarvedHolds(Stocked(v0, g, nunits, called), v, i, nbytes, ap);
          return;
        }
        ghost var from := i;
        if p == freep {
          ScanEnds(hdr, base, v, at, freep, i, prevp, p, nunits);
          StockedNot(v0, g, nunits);
          p := Restock(nunits, g);
          if p == 0 {
            return 0, called;
          }
          called, from := true, at;
        } else {
          VisitNext(v.bs, at, i, nunits);
          Nearer(|v.bs|, i, at);
        }
        prevp := p;
        InvLink(hdr, base, v, at, freep, from);
        p := hdr[p].ptr;
        i := Succ(|v.bs|, from);
        InScan(hdr, base, v, at, freep, from, i, prevp, p, nunits);
      }
    }
  }

  /** The block at `ap` has payload for `nbytes` bytes behind its header, and a block with one unit less would not. */
  ghost predicate Holds(v: View, ap: nat, nbytes: nat)
  {
    ap >= 1 && ap - 1 in v.used && var n: int := v.used[ap - 1]; 16 * (n - 2) < nbytes && nbytes <= 16 * (n - 1)
  }

  lemma CarvedHolds(w: View, v: View, i: nat, nbytes: nat, ap: nat)
    requires i < |w.bs| && Units(nbytes) <= w.bs[i].size
    requires v == MallocView(w, i, Units(nbytes)) && ap == w.bs[i].End() - Units(nbytes) + 1
    ensures Holds(v, ap, nbytes)
  {
  }

  /** The scan of malloc is at list block `i`, and every block it has passed is too small. */
  ghost predicate Scanning(h: Heap, base: nat, v: View, at: nat, freep: nat, i: nat, prevp: nat, p: nat, nu: nat)
  {
    && Inv(h, base, v, at, freep) && freep != 0 && base > 0 && i < |v.bs| && p == v.bs[i].addr
    && (i >= 1 ==> prevp == v.bs[i - 1].addr)
    && AllSmall(v.bs, at, i, nu)
  }

  lemma InScan(h: Heap, base: nat, v: View, at: nat, freep: nat, from: nat, i: nat, prevp: nat, p: nat, nu: nat)
    requires Inv(h, base, v, at, freep) && freep != 0 && base > 0 && from < |v.bs| && i == Succ(|v.bs|, from)
    requires prevp == v.bs[from].addr && p == v.bs[i].addr && AllSmall(v.bs, at, i, nu)
    ensures Scanning(h, base, v, at, freep, i, prevp, p, nu)
  {
    hide Inv, AllSmall;
  }

  lemma ScanFacts(h: Heap, base: nat, v: View, at: nat, freep: nat, i: nat, prevp: nat, p: nat, nu: nat)
    requires Scanning(h, base, v, at, freep, i, prevp, p, nu)
    ensures Inv(h, base, v, at, freep) && freep != 0 && base > 0 && i < |v.bs| && p == v.bs[i].addr && at < |v.bs|
    ensures (i >= 1 ==> prevp == v.bs[i - 1].addr) && AllSmall(v.bs, at, i, nu)
    ensures p in h && h[p] == Header(v.bs[Succ(|v.bs|, i)].addr, v.bs[i].size) && (p != freep ==> i != at)
  {
    hide AllSmall, Linked, Ordered, Tiled;
    InvLink(h, base, v, at, freep, i);
  }

  lemma ScanEnds(h: Heap, base: nat, v: View, at: nat, freep: nat, i: nat, prevp: nat, p: nat, nu: nat)
    requires Scanning(h, base, v, at, freep, i, prevp, p, nu) && p == freep && v.bs[i].size < nu
    ensures Exhausted(v.bs, nu)
  {
    hide AllSmall, Inv, Exhausted;
    InvApart(h, base, v, at, freep, i);
    ScanFacts(h, base, v, at, freep, i, prevp, p, nu);
    AllVisited(v.bs, at, nu);
  }

  lemma Nearer(n: nat, i: nat, j: nat)
    requires i < n && j < n && i != j
    ensures Distance(n, Succ(n, i), j) < Distance(n, i, j)
  {
  }

  lemma FreshSame(v: View, w: View, base: nat, g: Grant, n: nat)
    requires Fresh(v, base, g, n) && w.own == v.own
    ensures Fresh(w, base, g, n)
  {
  }

  /** The list that the first call of malloc sets up. */
  ghost function Started(v: View, base: nat): View
  {
    if v.bs == [] then View([Block(base, 0)], map[], map[]) else v
  }

  /** The list after morecore, if it was called. */
  ghost function Stocked(v: View, g: Grant, nu: nat, called: bool): View
  {
    if called && g.Core? && g.addr in Enlarged(v, g.addr, CoreUnits(nu)).used then
      FreeView(Enlarged(v, g.addr, CoreUnits(nu)), g.addr)
    else v
  }

  /** Where freep points after morecore: below the new core. */
  ghost function StockedAt(v: View, at: nat, g: Grant, called: bool): int
  {
    if called && g.Core? then Position(v.bs, g.addr) - 1 else at
  }

  /** No block of the list is large enough. */
  ghost predicate Exhausted(bs: seq<Block>, nu: nat) { forall i :: 0 <= i < |bs| ==> bs[i].size < nu }

  /** The block is the first large enough one after freep, and freep moves to the one below it. */
  ghost predicate Malloced(v0: View, at0: nat, v: View, at: nat, g: Grant, nu: nat, ap: nat, called: bool)
  {
    && (called || ap == 0 ==> Exhausted(v0.bs, nu))
    && if ap == 0 then v == v0 && at == at0 && g.NoMemory?
       else
         && (called ==> g.Core?)
         && exists i: nat ::
              Carved(Stocked(v0, g, nu, called), StockedAt(v0, at0, g, called), i, v, nu, ap) && at == i - 1
  }

  ghost predicate Carved(w: View, from: int, i: nat, v: View, nu: nat, ap: nat)
  {
    && 1 <= i < |w.bs| && nu <= w.bs[i].size && v == MallocView(w, i, nu) && ap == w.bs[i].End() - nu + 1
    && from >= 0 && AllSmall(w.bs, from, i, nu)
  }

  /** Blocks that a scan from the one after `at` has passed before it reaches `i`. */
  ghost predicate Visited(at: nat, i: nat, j: nat) { if i > at then at < j < i else j > at || j < i }

  ghost predicate AllSmall(bs: seq<Block>, at: nat, i: nat, nu: nat)
  {
    forall j: nat :: j < |bs| && Visited(at, i, j) ==> bs[j].size < nu
  }

  function CoreUnits(nu: nat): nat { if nu < 4096 then 4096 else nu }

  lemma StartInv(h: Heap, base: nat)
    requires base > 0 && base in h && h[base] == Header(base, 0)
    ensures Inv(h, base, View([Block(base, 0)], map[], map[]), 0, base)
  {
    assert Link(h, [Block(base, 0)], 0);
  }

  lemma InvList(h: Heap, base: nat, v: View, at: nat, freep: nat)
    requires Inv(h, base, v, at, freep)
    ensures at < |v.bs| && freep == v.bs[at].addr && v.bs[0] == Block(base, 0) && Ordered(v.bs, base)
    ensures freep in h && h[freep].ptr == v.bs[Succ(|v.bs|, at)].addr
  {
    LinkAt(h, v.bs, at);
  }

  lemma InvLink(h: Heap, base: nat, v: View, at: nat, freep: nat, i: nat)
    requires Inv(h, base, v, at, freep) && i < |v.bs|
    ensures v.bs[i].addr in h && h[v.bs[i].addr] == Header(v.bs[Succ(|v.bs|, i)].addr, v.bs[i].size)
    ensures i >= 1 ==> v.bs[i - 1].addr in h
  {
    hide Linked, Ordered, Tiled;
    LinkAt(h, v.bs, i);
    if i >= 1 { LinkAt(h, v.bs, i - 1); }
  }

  lemma InvApart(h: Heap, base: nat, v: View, at: nat, freep: nat, i: nat)
    requires Inv(h, base, v, at, freep) && i < |v.bs| && v.bs[i].addr == freep
    ensures i == at
  {
    hide Linked, Tiled;
    if i != at { Apart(v.bs, base, i, at); }
  }

  lemma CarvedIs(v0: View, at0: nat, g: Grant, nu: nat, called: bool, from: nat, i: nat)
    requires called ==> Exhausted(v0.bs, nu) && g.Core?
    requires var w := Stocked(v0, g, nu, called); 1 <= i < |w.bs| && nu <= w.bs[i].size && AllSmall(w.bs, from, i, nu)
    requires from == StockedAt(v0, at0, g, called)
    ensures var w := Stocked(v0, g, nu, called);
            Malloced(v0, at0, MallocView(w, i, nu), i - 1, g, nu, w.bs[i].End() - nu + 1, called)
  {
    hide MallocView, Stocked, AllSmall;
    var w := Stocked(v0, g, nu, called);
    assert Carved(w, from, i, MallocView(w, i, nu), nu, w.bs[i].End() - nu + 1);
  }

  lemma NoBlock(v0: View, at: nat, g: Grant, nu: nat)
    requires Exhausted(v0.bs, nu) && g.NoMemory?
    ensures Malloced(v0, at, v0, at, g, nu, 0, false)
  {
  }

  lemma StockedIs(v0: View, g: Grant, nu: nat)
    requires g.Core?
    ensures g.addr in Enlarged(v0, g.addr, CoreUnits(nu)).used
    ensures Stocked(v0, g, nu, true) == FreeView(Enlarged(v0, g.addr, CoreUnits(nu)), g.addr)
  {
  }

  lemma StockedNot(v0: View, g: Grant, nu: nat)
    ensures Stocked(v0, g, nu, false) == v0
  {
  }

  lemma SomeLarge(bs: seq<Block>, nu: nat)
    requires exists i :: 0 <= i < |bs| && bs[i].size >= nu
    ensures !Exhausted(bs, nu)
  {
  }

  lemma NoneVisited(bs: seq<Block>, at: nat, nu: nat)
    requires at < |bs|
    ensures AllSmall(bs, at, Succ(|bs|, at), nu)
  {
  }

  lemma VisitNext(bs: seq<Block>, at: nat, i: nat, nu: nat)
    requires at < |bs| && i < |bs| && i != at && AllSmall(bs, at, i, nu) && bs[i].size < nu
    ensures AllSmall(bs, at, Succ(|bs|, i), nu)
  {
    forall j: nat | j < |bs| && Visited(at, Succ(|bs|, i), j) ensures bs[j].size < nu {
      assert j == i || Visited(at, i, j);
    }
  }

  lemma AllVisited(bs: seq<Block>, at: nat, nu: nat)
    requires at < |bs| && AllSmall(bs, at, at, nu) && bs[at].size < nu
    ensures Exhausted(bs, nu)
  {
    forall j: nat | j < |bs| ensures bs[j].size < nu {
      assert j == at || Visited(at, at, j);
    }
  }

  // ---------------------------------------------------------------- the size of the request

  /** Units of 16 bytes; more of them than this overflow the `int` parameter of sbrk. */
  const INT_UNITS: nat := 0x800_0000

  /** A value stored in a C `int`. */
  function Int32(x: int): int { (x + 0x8000_0000) % 0x1_0000_0000 - 0x8000_0000 }

  function Units(nbytes: nat): nat { (nbytes + 15) / 16 + 1 }

  /** morecore asks sbrk for the units it writes in the header exactly when the request is below 2^31 - 31
      bytes; nbytes is a 32-bit number. */
  lemma RequestIff(nbytes: nat)
    requires nbytes < 0x1_0000_0000
    ensures Int32(CoreUnits(Units(nbytes)) * 16) == CoreUnits(Units(nbytes)) * 16 <==> nbytes <= 0x7fff_ffe0
  {
  }

  /** Near 4 GiB sbrk is asked for 16 bytes, and the header claims 2^28 + 1 units. */
  lemma RequestTruncated()
    ensures Units(0xffff_fff1) == 0x1000_0001 && Int32(CoreUnits(Units(0xffff_fff1)) * 16) == 16
  {
  }

  lemma FreeKeeps(h: Heap, base: nat, v: View, at: nat, freep: nat, bp: nat)
    requires Inv(h, base, v, at, freep) && bp in v.used
    ensures var k := Position(v.bs, bp);
            && 1 <= k && v.bs[k - 1].addr in h && bp in h && h[v.bs[k - 1].addr].ptr in h
            && var p := v.bs[k - 1].addr;
               p != 0 && Inv(JoinLower(JoinUpper(h, p, bp), p, bp), base, FreeView(v, bp), k - 1, p)
  {
    hide Ordered, Linked, Tiled, Position, Insert, FitsAt, JoinUpper, JoinLower, Take;
    var k, b := Position(v.bs, bp), Block(bp, v.used[bp]);
    FreeFits(h, base, v, at, freep, bp);
    FitsFacts(v.bs, base, k, b);
    LinkAt(h, v.bs, k - 1);
    LinkAt(h, v.bs, Succ(|v.bs|, k - 1));
    var p := v.bs[k - 1].addr;
    FreeLinked(h, base, v.bs, k, b);
    var h' := JoinLower(JoinUpper(h, p, bp), p, bp);
    FreeTiled(h, h', base, v, at, freep, bp);
    InsertOrdered(v.bs, base, k, b);
    InsertKeepsBelow(v.bs, base, k, b);
    NotNull(v.bs, base, k - 1);
  }

  lemma NotNull(bs: seq<Block>, base: nat, i: nat)
    requires Ordered(bs, base) && i < |bs|
    ensures bs[i].addr != 0
  {
  }

  lemma FitsFacts(bs: seq<Block>, base: nat, k: nat, b: Block)
    requires FitsAt(bs, base, k, b)
    ensures 1 <= k <= |bs| && Ordered(bs, base) && base < b.addr && bs[k - 1].addr <= b.addr
  {
  }

  /** The loop of free stops exactly at the block below the freed one. */
  lemma SearchStep(bs: seq<Block>, base: nat, k: nat, b: Block, i: nat)
    requires FitsAt(bs, base, k, b) && i < |bs| && forall j :: 0 <= j < |bs| ==> bs[j].addr != b.addr
    ensures var p, next := bs[i].addr, if i + 1 < |bs| then bs[i + 1].addr else bs[0].addr;
            i == k - 1 <==> (b.addr > p && b.addr < next) || (p >= next && (b.addr > p || b.addr < next))
  {
  }

  // ---------------------------------------------------------------- what a client sees

  lemma PositionUnique(bs: seq<Block>, base: nat, b: nat, k: nat)
    requires Ordered(bs, base) && base < b && 1 <= k <= |bs|
    requires bs[k - 1].addr < b && (k < |bs| ==> b <= bs[k].addr)
    ensures Position(bs, b) == k
  {
    hide Position;
    PositionIs(bs, base, b);
  }

  lemma WithoutRoundTrip(bs: seq<Block>, base: nat, i: nat)
    requires Ordered(bs, base) && 1 <= i < |bs|
    ensures Insert(Without(bs, i), Position(Without(bs, i), bs[i].addr), bs[i]) == bs
  {
    hide Splice, Position;
    var cs := Without(bs, i);
    assert bs[0].End() < bs[i].addr && bs[i - 1].End() < bs[i].addr;
    WithoutOrdered(bs, base, i);
    PositionUnique(cs, base, bs[i].addr, i);
    assert !JoinsUp(cs, i, bs[i]) && !JoinsDown(cs, i, bs[i]);
    hide Ordered;
    SpliceBack(bs, cs, i, i);
  }

  lemma CutRoundTrip(bs: seq<Block>, base: nat, i: nat, n: nat)
    requires Ordered(bs, base) && 1 <= i < |bs| && 1 <= n < bs[i].size
    ensures var b := Block(bs[i].End() - n, n); Insert(Cut(bs, i, n), Position(Cut(bs, i, n), b.addr), b) == bs
  {
    hide Splice, Position;
    var cs, b := Cut(bs, i, n), Block(bs[i].End() - n, n);
    assert bs[0].End() < bs[i].addr;
    CutOrdered(bs, base, i, n);
    PositionUnique(cs, base, b.addr, i + 1);
    assert !JoinsUp(cs, i + 1, b) && JoinsDown(cs, i + 1, b);
    hide Ordered;
    SpliceBack(bs, cs, i, i + 1);
  }

  lemma SpliceBack(bs: seq<Block>, cs: seq<Block>, i: nat, hi: nat)
    requires i < |bs| && i <= hi <= |cs| && cs[..i] == bs[..i] && cs[hi..] == bs[i + 1..]
    ensures Splice(cs, i, hi, bs[i]) == bs
  {
  }

  /** free undoes malloc: the same list, the same blocks, the same owner for every unit. */
  lemma MallocFreeRoundTrip(h: Heap, base: nat, v: View, at: nat, freep: nat, i: nat, n: nat)
    requires Inv(h, base, v, at, freep) && 1 <= i < |v.bs| && 1 <= n <= v.bs[i].size
    ensures var b := v.bs[i].End() - n;
            b in MallocView(v, i, n).used && FreeView(MallocView(v, i, n), b) == v
  {
    hide Linked, Ordered, IsFree, Position, Insert, Without, Cut, Headers;
    var b := v.bs[i].End() - n;
    if n == v.bs[i].size { WithoutRoundTrip(v.bs, base, i); } else { CutRoundTrip(v.bs, base, i, n); }
    OwnRoundTrip(v.bs, v.used, v.own, i, n);
  }

  lemma OwnRoundTrip(bs: seq<Block>, used: map<nat, nat>, own: map<nat, Owner>, i: nat, n: nat)
    requires FreeUnits(bs, own) && UsedUnits(used, own) && i < |bs| && 1 <= n <= bs[i].size
    ensures var b := bs[i].End() - n; used[b := n] - {b} == used && Take(Give(own, b, n), b) == own
  {
    hide IsFree;
    var b := bs[i].End() - n;
    GiveUsed(bs, used, own, i, n);
    assert used[b := n] - {b} == used;
    forall u | u in own ensures Take(Give(own, b, n), b)[u] == own[u] {
      if b <= u < b + n { FreeBlockUnit(bs, own, i, u); }
    }
    assert Take(Give(own, b, n), b) == own;
  }

  /** The block that malloc returns is made of units that were free, or new; no other unit changes hands. */
  lemma MallocConserves(h: Heap, base: nat, v: View, at: nat, freep: nat, i: nat, n: nat)
    requires Inv(h, base, v, at, freep) && 1 <= i < |v.bs| && 1 <= n <= v.bs[i].size
    ensures var b, w := v.bs[i].End() - n, MallocView(v, i, n);
            && b !in v.used && w.used == v.used[b := n] && w.own.Keys == v.own.Keys
            && (forall u :: b <= u < b + n ==> u in v.own && v.own[u].Free? && w.own[u] == Part(b))
            && (forall u :: u in v.own && !(b <= u < b + n) ==> w.own[u] == v.own[u])
  {
    hide Linked, Ordered, IsFree, Without, Cut, Headers, UsedUnits;
    var b := v.bs[i].End() - n;
    GiveUsed(v.bs, v.used, v.own, i, n);
    forall u | b <= u < b + n ensures u in v.own && v.own[u].Free? { FreeBlockUnit(v.bs, v.own, i, u); }
  }

  /** morecore adds the units of sbrk, all free, and changes no other. */
  lemma CoreConserves(h: Heap, base: nat, v: View, at: nat, freep: nat, g: Grant, nu: nat)
    requires Inv(h, base, v, at, freep) && g.Core? && Fresh(v, base, g, CoreUnits(nu))
    ensures var w := Stocked(v, g, nu, true);
            && w.used == v.used && w.own.Keys == v.own.Keys + UnitsFrom(g.addr, CoreUnits(nu))
            && (forall u :: u in UnitsFrom(g.addr, CoreUnits(nu)) ==> w.own[u].Free?)
            && (forall u :: u in v.own ==> w.own[u] == v.own[u])
  {
    hide Linked, Ordered, FreeUnits, Insert, Position, UnitsFrom;
    var a, n, w := g.addr, CoreUnits(nu), Stocked(v, g, nu, true);
    CoreKeeps(h, base, v, at, freep, a, n);
    StockedIs(v, g, nu);
    assert v.used[a := n] - {a} == v.used;
    forall u | u in v.own ensures v.own[u] != Part(a) { }
  }
}
