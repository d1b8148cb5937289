/** kernel/log.c as it runs: the in-memory header and counters of `struct log`, and the
    block device under it, seen through its buffers. Each routine is tied to the block
    writes that RedoLog proves crash safe. */
module LogDevice {
  import opened Bytes
  import opened RedoLog

  datatype Outcome = Ok | Panic(message: string)

  /** The device as a value: the disk, and the contents of the buffers in memory. */
  datatype Image = Image(disk: Disk, cache: map<nat, Block>) {
    predicate Valid() { forall b :: b in cache ==> b < |disk| }

    /** What a reader of block `b` sees. */
    function View(b: nat): Block
      requires b < |disk|
    {
      if b in cache then cache[b] else disk[b]
    }

    /** No buffer outside `dirty` differs from its disk block. */
    ghost predicate Coherent(dirty: set<nat>)
      requires Valid()
    {
      forall b :: b in cache && b !in dirty ==> cache[b] == disk[b]
    }

    /** Block `src` is read and its contents are written to block `dst`. */
    function Copied(src: nat, dst: nat): Image
      requires src < |disk| && dst < |disk|
    {
      Image(disk[dst := View(src)], cache[src := View(src)][dst := View(src)])
    }
  }

  function Views(im: Image, home: seq<nat>): (s: seq<Block>)
    requires forall i :: 0 <= i < |home| ==> home[i] < |im.disk|
    ensures |s| == |home| && forall i :: 0 <= i < |home| ==> s[i] == im.View(home[i])
  {
    seq(|home|, i requires 0 <= i < |home| => im.View(home[i]))
  }

  /** The transaction after block `b` is logged: each block is listed once, in first-write order. */
  function Absorb(home: seq<nat>, b: nat): seq<nat>
  {
    if b in home then home else home + [b]
  }

  /** The test of begin_op: no commit is running and the log has room for one more operation. */
  predicate CanBegin(committing: bool, n: nat, outstanding: nat)
  {
    !committing && n + (outstanding + 1) * MAXOPBLOCKS <= LOGSIZE
  }

  /** The blocks listed from position `k` on. */
  ghost function From(home: seq<nat>, k: nat): set<nat> { set i | k <= i < |home| :: home[i] }

  ghost function Elems(home: seq<nat>): set<nat> { From(home, 0) }

  /** `im` is `was` after write_log has filled the first `k` slots. */
  ghost predicate Logging(a: Area, home: seq<nat>, was: Image, im: Image, k: nat)
    requires a.Fits(home, |was.disk|) && k <= |home|
  {
    && |im.disk| == |was.disk| && im.Valid() && im.Coherent(Elems(home))
    && (forall i :: 0 <= i < k ==> im.disk[a.start + 1 + i] == was.View(home[i]))
    && im.disk[a.start] == was.disk[a.start]
    && (forall b :: 0 <= b < |was.disk| && !a.Has(b) ==> im.View(b) == was.View(b))
  }

  lemma AbsorbElems(home: seq<nat>, b: nat)
    ensures Elems(Absorb(home, b)) == Elems(home) + {b}
  {
    var next := Absorb(home, b);
    forall x | x in Elems(home) + {b} ensures x in Elems(next) {
      if x == b {
        var i :| 0 <= i < |next| && next[i] == b;
      } else {
        var i :| 0 <= i < |home| && home[i] == x;
        assert next[i] == x;
      }
    }
  }

  lemma CoherentSame(im: Image, s: set<nat>, t: set<nat>)
    requires im.Valid() && im.Coherent(s) && s == t
    ensures im.Coherent(t)
  {
  }

  lemma LoggingStep(a: Area, home: seq<nat>, was: Image, im: Image, k: nat)
    requires a.Fits(home, |was.disk|) && k < |home| && Logging(a, home, was, im, k)
    ensures |im.disk| == |was.disk| && im.View(home[k]) == was.View(home[k])
    ensures Logging(a, home, was, im.Copied(home[k], a.start + 1 + k), k + 1)
  {
  }

  lemma ElemsStep(a: Area, home: seq<nat>, disk: nat, k: nat)
    requires a.Fits(home, disk) && k < |home|
    ensures From(home, k) - {home[k]} == From(home, k + 1)
    ensures k + 1 == |home| ==> From(home, k + 1) == {}
  {
    assert From(home, k) == {home[k]} + From(home, k + 1);
  }

  /** `im` is `was` after install_trans has written the first `k` home blocks. */
  ghost predicate InstallingImage(a: Area, home: seq<nat>, was: Image, im: Image, k: nat)
    requires a.Fits(home, |was.disk|) && k <= |home|
  {
    && |im.disk| == |was.disk| && im.Valid() && im.Coherent(From(home, k))
    && (forall i :: 0 <= i < k ==> im.View(home[i]) == was.disk[a.start + 1 + i])
    && (forall b :: 0 <= b < |was.disk| && b !in home ==> im.View(b) == was.View(b))
    && im.disk[a.start] == was.disk[a.start]
  }

  lemma InstallingImageStep(a: Area, home: seq<nat>, was: Image, im: Image, k: nat)
    requires a.Fits(home, |was.disk|) && was.Valid() && was.Coherent(Elems(home))
    requires k < |home| && InstallingImage(a, home, was, im, k)
    ensures |im.disk| == |was.disk| && im.View(a.start + 1 + k) == was.disk[a.start + 1 + k]
    ensures InstallingImage(a, home, was, im.Copied(a.start + 1 + k, home[k]), k + 1)
  {
    ElemsStep(a, home, |was.disk|, k);
    assert a.start + 1 + k !in Elems(home) && home[k] in From(home, k);
    hide From;
  }

  lemma InstallingDone(a: Area, home: seq<nat>, was: Image, im: Image)
    requires a.Fits(home, |was.disk|) && InstallingImage(a, home, was, im, |home|)
    ensures a.Fits(home, |im.disk|) && im.Valid() && im.Coherent({}) && im.Coherent(Elems(home))
    ensures From(home, |home|) == {}
  {
  }

  /** The writes of a trace, one further. */
  lemma TraceStep(t: seq<Write>, ws: seq<Write>, k: nat)
    requires k < |ws|
    ensures (t + ws[..k]) + [ws[k]] == t + ws[..k + 1]
  {
  }

  /** The loop of write_log after `k` turns: the image and the writes issued so far. */
  ghost predicate LogLoop(a: Area, home: seq<nat>, was: Image, t: seq<Write>, im: Image, trace: seq<Write>, k: nat)
    requires a.Fits(home, |was.disk|) && k <= |home|
  {
    Logging(a, home, was, im, k) && trace == t + LogWrites(a, Views(was, home))[..k]
  }

  lemma LogLoopStart(a: Area, home: seq<nat>, was: Image, t: seq<Write>)
    requires a.Fits(home, |was.disk|) && was.Valid() && was.Coherent(Elems(home))
    ensures LogLoop(a, home, was, t, was, t, 0)
  {
  }

  lemma LogLoopStep(a: Area, home: seq<nat>, was: Image, t: seq<Write>, im: Image, trace: seq<Write>, k: nat)
    requires a.Fits(home, |was.disk|) && k < |home| && LogLoop(a, home, was, t, im, trace, k)
    ensures home[k] < |im.disk| && a.start + 1 + k < |im.disk|
    ensures LogLoop(a, home, was, t, im.Copied(home[k], a.start + 1 + k),
                    trace + [Write(a.start + 1 + k, im.View(home[k]))], k + 1)
  {
    LoggingStep(a, home, was, im, k);
    TraceStep(t, LogWrites(a, Views(was, home)), k);
    hide Logging;
  }

  lemma LogLoopDone(a: Area, home: seq<nat>, was: Image, t: seq<Write>, im: Image, trace: seq<Write>)
    requires a.Fits(home, |was.disk|) && LogLoop(a, home, was, t, im, trace, |home|)
    ensures a.Fits(home, |im.disk|) && im.Valid() && im.Coherent(Elems(home))
    ensures Logging(a, home, was, im, |home|) && trace == t + LogWrites(a, Views(was, home))
  {
    var ws := LogWrites(a, Views(was, home));
    assert ws[..|home|] == ws;
  }

  /** The loop of install_trans after `k` turns. */
  ghost predicate InstallLoop(a: Area, home: seq<nat>, was: Image, t: seq<Write>, im: Image, trace: seq<Write>, k: nat)
    requires a.Fits(home, |was.disk|) && k <= |home|
  {
    && was.Valid() && was.Coherent(Elems(home)) && InstallingImage(a, home, was, im, k)
    && trace == t + InstallWrites(home, Slots(a, was.disk, |home|))[..k]
  }

  lemma InstallLoopStart(a: Area, home: seq<nat>, was: Image, t: seq<Write>)
    requires a.Fits(home, |was.disk|) && was.Valid() && was.Coherent(Elems(home))
    ensures InstallLoop(a, home, was, t, was, t, 0)
  {
  }

  lemma InstallLoopStep(a: Area, home: seq<nat>, was: Image, t: seq<Write>, im: Image, trace: seq<Write>, k: nat)
    requires a.Fits(home, |was.disk|) && k < |home| && InstallLoop(a, home, was, t, im, trace, k)
    ensures home[k] < |im.disk| && a.start + 1 + k < |im.disk|
    ensures InstallLoop(a, home, was, t, im.Copied(a.start + 1 + k, home[k]),
                        trace + [Write(home[k], im.View(a.start + 1 + k))], k + 1)
    ensures From(home, k) - {home[k]} == From(home, k + 1)
  {
    InstallingImageStep(a, home, was, im, k);
    TraceStep(t, InstallWrites(home, Slots(a, was.disk, |home|)), k);
    ElemsStep(a, home, |was.disk|, k);
    hide InstallingImage, Image.Coherent, From;
  }

  lemma InstallLoopDone(a: Area, home: seq<nat>, was: Image, t: seq<Write>, im: Image, trace: seq<Write>)
    requires a.Fits(home, |was.disk|) && InstallLoop(a, home, was, t, im, trace, |home|)
    ensures a.Fits(home, |im.disk|) && im.Valid() && im.Coherent(Elems(home)) && From(home, |home|) == {}
    ensures InstallingImage(a, home, was, im, |home|)
    ensures trace == t + InstallWrites(home, Slots(a, was.disk, |home|))
  {
    var ws := InstallWrites(home, Slots(a, was.disk, |home|));
    assert ws[..|home|] == ws;
  }

  lemma RecoveredImage(a: Area, home: seq<nat>, was: Image, im: Image)
    requires was.Valid() && Replayable(a, was.disk) && home == DecodeHead(was.disk[a.start]) && was.Coherent({})
    requires InstallingImage(a, home, was, im, |home|)
    ensures var d := im.disk[a.start := EncodeHead(was.disk[a.start], [])];
            && Clean(a, d)
            && forall b :: 0 <= b < |d| && !a.Has(b) ==> im.View(b) == d[b] == Durable(a, was.disk, b)
  {
    hide EncodeHead;
    HeadRoundTrip(was.disk[a.start], []);
  }

  lemma CommitTrace(t: seq<Write>, a: Area, hb: Block, home: seq<nat>, data: seq<Block>)
    requires |home| == |data| <= LOGSIZE && forall i :: 0 <= i < |home| ==> home[i] < WORD
    ensures t + LogWrites(a, data) + [Write(a.start, EncodeHead(hb, home))] + InstallWrites(home, data)
              + [Write(a.start, EncodeHead(EncodeHead(hb, home), []))]
            == t + CommitWrites(a, hb, home, data)
  {
  }

  /** write_log leaves the header alone. */
  lemma LoggedHead(a: Area, home: seq<nat>, was: Image, im: Image)
    requires a.Fits(home, |was.disk|) && Logging(a, home, was, im, |home|)
    ensures |im.disk| == |was.disk| && im.disk[a.start] == was.disk[a.start]
  {
  }

  /** Disk and readers agree on what readers saw before, and the log is clear. */
  ghost predicate CommittedViews(a: Area, im0: Image, im: Image)
  {
    && |im.disk| == |im0.disk| && Clean(a, im.disk)
    && forall b :: 0 <= b < |im.disk| && !a.Has(b) ==> im.View(b) == im.disk[b] == im0.View(b)
  }

  /** A coherent image with a clear log. */
  lemma CleanViews(a: Area, im: Image)
    requires im.Valid() && im.Coherent({}) && Clean(a, im.disk)
    ensures CommittedViews(a, im, im)
  {
    hide DecodeHead;
  }

  lemma CommittedImage(a: Area, home: seq<nat>, im0: Image, im1: Image, im2: Image, im3: Image)
    requires im0.Valid() && a.Fits(home, |im0.disk|) && Logging(a, home, im0, im1, |home|)
    requires var hb := EncodeHead(im0.disk[a.start], home);
             im2 == Image(im1.disk[a.start := hb], im1.cache[a.start := hb])
    requires InstallingImage(a, home, im2, im3, |home|)
    ensures Slots(a, im2.disk, |home|) == Views(im0, home)
    ensures im3.disk[a.start] == im2.disk[a.start] && |im3.disk| == |im0.disk|
    ensures im1.disk[a.start] == im0.disk[a.start]
    ensures var hb := EncodeHead(im3.disk[a.start], []);
            CommittedViews(a, im0, Image(im3.disk[a.start := hb], im3.cache[a.start := hb]))
  {
    hide EncodeHead, DecodeHead;
    assert Slots(a, im2.disk, |home|) == Views(im0, home) by {
      forall i | 0 <= i < |home| ensures Slots(a, im2.disk, |home|)[i] == Views(im0, home)[i] { }
    }
    HeadRoundTrip(im3.disk[a.start], []);
    InstalledViews(a, home, EncodeHead(im0.disk[a.start], home), im0, im1, im2, im3);
  }

  lemma InstalledViews(a: Area, home: seq<nat>, hb: Block, im0: Image, im1: Image, im2: Image, im3: Image)
    requires im0.Valid() && a.Fits(home, |im0.disk|) && Logging(a, home, im0, im1, |home|)
    requires im2 == Image(im1.disk[a.start := hb], im1.cache[a.start := hb])
    requires InstallingImage(a, home, im2, im3, |home|)
    ensures forall b :: 0 <= b < |im3.disk| && !a.Has(b) ==> im3.View(b) == im3.disk[b] == im0.View(b)
  {
    forall b | 0 <= b < |im3.disk| && !a.Has(b) ensures im3.View(b) == im3.disk[b] == im0.View(b) {
      assert im2.View(b) == im1.View(b) == im0.View(b);
      if b in home {
        var i :| 0 <= i < |home| && home[i] == b;
        assert im3.View(home[i]) == im2.disk[a.start + 1 + i] == im0.View(home[i]);
      }
    }
  }

  ghost predicate MadeBy(first: Disk, trace: seq<Write>, disk: Disk)
  {
    InRange(trace, |first|) && disk == Apply(first, trace)
  }

  lemma MadeByMore(first: Disk, trace: seq<Write>, disk: Disk, w: Write)
    requires MadeBy(first, trace, disk) && w.bno < |disk|
    ensures MadeBy(first, trace + [w], disk[w.bno := w.data])
  {
    ApplyConcat(first, trace, [w]);
  }

  /** The disk together with the buffers in memory. `trace` lists every block write so far. */
  class Storage {
    var im: Image
    var pinned: set<nat>
    ghost var trace: seq<Write>
    ghost const first: Disk

    /** The disk is what the listed writes have made of the first one. */
    ghost predicate Valid()
      reads this
    {
      im.Valid() && MadeBy(first, trace, im.disk)
    }

    constructor (d: Disk)
      ensures Valid() && im == Image(d, map[]) && pinned == {} && trace == [] && first == d
    {
      im, pinned, trace, first := Image(d, map[]), {}, [], d;
    }

    method Bread(b: nat) returns (data: Block)
      requires Valid() && b < |im.disk|
      modifies this
      ensures Valid() && pinned == old(pinned) && trace == old(trace) && data == old(im.View(b))
      ensures im == old(im).(cache := old(im.cache)[b := data])
    {
      data := im.View(b);
      im := im.(cache := im.cache[b := data]);
    }

    /** Store new bytes in the buffer of block `b`. */
    method Modify(b: nat, data: Block)
      requires Valid() && b in im.cache
      modifies this
      ensures Valid() && pinned == old(pinned) && trace == old(trace)
      ensures im == old(im).(cache := old(im.cache)[b := data])
    {
      im := im.(cache := im.cache[b := data]);
    }

    method Bwrite(b: nat)
      requires Valid() && b in im.cache
      modifies this
      ensures Valid() && pinned == old(pinned) && im == old(im).(disk := old(im.disk)[b := old(im.cache[b])])
      ensures trace == old(trace) + [Write(b, old(im.cache[b]))]
    {
      MadeByMore(first, trace, im.disk, Write(b, im.cache[b]));
      trace := trace + [Write(b, im.cache[b])];
      im := im.(disk := im.disk[b := im.cache[b]]);
    }

    /** The copying step that write_log and install_trans share. */
    method Copy(src: nat, dst: nat)
      requires Valid() && src < |im.disk| && dst < |im.disk|
      modifies this
      ensures Valid() && pinned == old(pinned) && im == old(im.Copied(src, dst))
      ensures trace == old(trace) + [Write(dst, old(im.View(src)))]
    {
      var data := Bread(src);
      var _ := Bread(dst);
      Modify(dst, data);
      Bwrite(dst);
      assert im == old(im.Copied(src, dst));
    }

    method Bpin(b: nat)
      modifies this
      ensures im == old(im) && trace == old(trace) && pinned == old(pinned) + {b}
    {
      pinned := pinned + {b};
    }

    method Bunpin(b: nat)
      modifies this
      ensures im == old(im) && trace == old(trace) && pinned == old(pinned) - {b}
    {
      pinned := pinned - {b};
    }
  }

  /** The in-memory header, stored into the header block. */
  method FillHead(hb: Block, home: seq<nat>) returns (r: Block)
    requires |home| <= LOGSIZE && forall i :: 0 <= i < |home| ==> home[i] < WORD
    ensures r == EncodeHead(hb, home)
  {
    hide PutWord;
    r := PutWord(hb, 0, |home|);
    ghost var h0 := r;
    var i := 0;
    while i < |home|
      invariant 0 <= i <= |home| && r == PutBlocks(h0, home[..i])
    {
      assert home[..i + 1][..i] == home[..i];
      r := PutWord(r, 1 + i, home[i]);
      i := i + 1;
    }
    assert home[..i] == home;
  }

  class Log {
    const dev: Storage
    const area: Area
    var home: seq<nat>      // lh.block[0..lh.n]
    var outstanding: nat
    var committing: bool

    ghost predicate Valid()
      reads this, dev
    {
      && dev.Valid() && area.Fits(home, |dev.im.disk|)
      && dev.im.Coherent(Elems(home))
    }

    constructor (dev: Storage, start: nat, size: nat)
      requires dev.Valid() && dev.im.Coherent({}) && 0 < size && start + size <= |dev.im.disk|
      ensures Valid() && this.dev == dev && area == Area(start, size)
      ensures home == [] && outstanding == 0 && !committing
    {
      this.dev, area := dev, Area(start, size);
      home, outstanding, committing := [], 0, false;
    }

    /** write_head: the in-memory header goes to the disk. */
    method WriteHead()
      requires Valid()
      modifies dev
      ensures Valid() && dev.pinned == old(dev.pinned)
      ensures var hb := EncodeHead(old(dev.im.disk[area.start]), home);
              && dev.trace == old(dev.trace) + [Write(area.start, hb)]
              && dev.im == Image(old(dev.im.disk)[area.start := hb], old(dev.im.cache)[area.start := hb])
    {
      hide MadeBy, EncodeHead, PutBlocks, PutWord;
      var hb := dev.Bread(area.start);
      hb := FillHead(hb, home);
      dev.Modify(area.start, hb);
      dev.Bwrite(area.start);
    }

    /** read_head: the header on the disk becomes the in-memory header. */
    method ReadHead()
      requires Valid() && home == [] && Replayable(area, dev.im.disk)
      modifies this`home, dev
      ensures Valid() && dev.pinned == old(dev.pinned) && dev.trace == old(dev.trace)
      ensures dev.im.disk == old(dev.im.disk) && dev.im.Coherent({})
      ensures home == DecodeHead(dev.im.disk[area.start])
      ensures forall b :: 0 <= b < |dev.im.disk| ==> dev.im.View(b) == old(dev.im.View(b))
    {
      hide MadeBy;
      var hb := dev.Bread(area.start);
      home := [];
      var i := 0;
      while i < GetWord(hb, 0)
        modifies this`home
        invariant 0 <= i <= GetWord(hb, 0) && home == DecodeHead(hb)[..i]
      {
        home := home + [GetWord(hb, 1 + i)];
        i := i + 1;
      }
    }

    /** install_trans: every slot of the log goes to its home block. */
    method InstallTrans(recovering: bool)
      requires Valid() && dev.pinned == if recovering then {} else Elems(home)
      modifies dev
      ensures Valid() && dev.pinned == {} && InstallingImage(area, home, old(dev.im), dev.im, |home|)
      ensures dev.trace == old(dev.trace) + InstallWrites(home, Slots(area, old(dev.im.disk), |home|))
    {
      hide MadeBy, InstallLoop, Area.Fits, Image.Coherent, Image.Valid, From, InstallingImage, InstallWrites, Slots;
      var d, a, lh := dev, area, home;
      ghost var was, t0 := d.im, d.trace;
      var tail := 0;
      InstallLoopStart(a, lh, was, t0);
      while tail < |lh|
        modifies d
        invariant 0 <= tail <= |lh| && d.Valid() && InstallLoop(a, lh, was, t0, d.im, d.trace, tail)
        invariant d.pinned == if recovering then {} else From(lh, tail)
      {
        InstallLoopStep(a, lh, was, t0, d.im, d.trace, tail);
        d.Copy(a.start + 1 + tail, lh[tail]);
        if !recovering {
          d.Bunpin(lh[tail]);
        }
        tail := tail + 1;
      }
      InstallLoopDone(a, lh, was, t0, d.im, d.trace);
    }

    /** write_log: the modified buffers go to the slots of the log. */
    method WriteLog()
      requires Valid()
      modifies dev
      ensures Valid() && dev.pinned == old(dev.pinned) && Logging(area, home, old(dev.im), dev.im, |home|)
      ensures dev.trace == old(dev.trace) + LogWrites(area, Views(old(dev.im), home))
    {
      hide MadeBy, LogLoop, Area.Fits, Image.Coherent, Image.Valid, From, Logging, LogWrites, Views;
      var d, a, lh := dev, area, home;
      ghost var was, t0 := d.im, d.trace;
      var tail := 0;
      LogLoopStart(a, lh, was, t0);
      while tail < |lh|
        modifies d
        invariant 0 <= tail <= |lh| && d.Valid() && LogLoop(a, lh, was, t0, d.im, d.trace, tail)
        invariant d.pinned == old(dev.pinned)
      {
        LogLoopStep(a, lh, was, t0, d.im, d.trace, tail);
        d.Copy(lh[tail], a.start + 1 + tail);
        tail := tail + 1;
      }
      LogLoopDone(a, lh, was, t0, d.im, d.trace);
    }

    /** recover_from_log: the writes are those of RedoLog.RecoverWrites, so a crash among them is safe. */
    method RecoverFromLog()
      requires Valid() && home == [] && dev.pinned == {} && Replayable(area, dev.im.disk)
      modifies this`home, dev
      ensures Valid() && home == [] && dev.pinned == {}
      ensures dev.trace == old(dev.trace) + RecoverWrites(area, old(dev.im.disk))
      ensures Clean(area, dev.im.disk) && |dev.im.disk| == old(|dev.im.disk|)
      ensures forall b :: 0 <= b < |dev.im.disk| && !area.Has(b) ==>
                dev.im.View(b) == dev.im.disk[b] == Durable(area, old(dev.im.disk), b)
    {
      hide MadeBy;
      ghost var d0 := dev.im.disk;
      ReadHead();
      ghost var im1, lh := dev.im, home;
      InstallTrans(true);
      ghost var im2 := dev.im;
      InstallingDone(area, lh, im1, im2);
      home := [];
      WriteHead();
      RecoveredImage(area, lh, im1, im2);
      assert dev.trace == old(dev.trace) + RecoverWrites(area, d0);
    }

    /** commit: the writes are those of RedoLog.CommitWrites, so a crash among them is safe. */
    method Commit()
      requires Valid() && dev.pinned == Elems(home) && Clean(area, dev.im.disk)
      modifies this`home, dev
      ensures Valid() && home == [] && dev.pinned == {}
      ensures dev.trace == old(dev.trace)
                + if old(home) == [] then []
                  else CommitWrites(area, old(dev.im.disk[area.start]), old(home), Views(old(dev.im), old(home)))
      ensures Clean(area, dev.im.disk) && |dev.im.disk| == old(|dev.im.disk|)
      ensures forall b :: 0 <= b < |dev.im.disk| && !area.Has(b) ==>
                dev.im.View(b) == dev.im.disk[b] == old(dev.im.View(b))
    {
      hide MadeBy, EncodeHead, DecodeHead, CommitWrites;
      if home != [] {
        CommitListed();
      } else {
        CleanViews(area, dev.im);
      }
    }

    /** The four phases of commit. */
    method CommitListed()
      requires Valid() && dev.pinned == Elems(home) && home != []
      modifies this`home, dev
      ensures Valid() && home == [] && dev.pinned == {}
      ensures dev.trace == old(dev.trace)
                + CommitWrites(area, old(dev.im.disk[area.start]), old(home), Views(old(dev.im), old(home)))
      ensures CommittedViews(area, old(dev.im), dev.im)
    {
      hide Logging, InstallingImage, EncodeHead, DecodeHead, CommitWrites, InstallWrites, LogWrites, Slots, MadeBy,
           CommittedViews;
      ghost var im0, lh, t0 := dev.im, home, dev.trace;
      WriteLog();
      ghost var im1 := dev.im;
      LoggedHead(area, lh, im0, im1);
      WriteHead();
      ghost var im2 := dev.im;
      InstallTrans(false);
      ghost var im3 := dev.im;
      InstallingDone(area, lh, im2, im3);
      home := [];
      WriteHead();
      CommittedImage(area, lh, im0, im1, im2, im3);
      CommitTrace(t0, area, im0.disk[area.start], lh, Views(im0, lh));
    }

    /** log_write: block `b`, modified in its buffer, joins the transaction once. The capacity
        test comes before the search, so a full log panics even on a block it already holds. */
    method LogWrite(b: nat) returns (r: Outcome)
      requires dev.Valid() && area.Fits(home, |dev.im.disk|) && dev.im.Coherent(Elems(home) + {b})
      requires b in dev.im.cache && !area.Has(b) && b < WORD && dev.pinned == Elems(home)
      modifies this`home, dev
      ensures r.Panic? <==> |old(home)| >= LOGSIZE || |old(home)| >= area.size - 1 || outstanding < 1
      ensures dev.im == old(dev.im) && dev.trace == old(dev.trace)
      ensures r.Panic? ==> home == old(home) && dev.pinned == old(dev.pinned)
      ensures r.Ok? ==> Valid() && home == Absorb(old(home), b) && dev.pinned == Elems(home)
    {
      if |home| >= LOGSIZE || |home| >= area.size - 1 {
        return Panic("too big a transaction");
      }
      if outstanding < 1 {
        return Panic("log_write outside of trans");
      }
      var i := 0;
      while i < |home|
        modifies {}
        invariant 0 <= i <= |home| && b !in home[..i]
      {
        if home[i] == b {
          break;
        }
        i := i + 1;
      }
      AbsorbElems(home, b);
      hide From, Image.Coherent;
      if i == |home| {
        home := home + [b];
        dev.Bpin(b);
      } else {
        home := home[i := b];
        assert home == old(home);
      }
      CoherentSame(dev.im, Elems(old(home)) + {b}, Elems(home));
      r := Ok;
    }

    /** One pass through the loop of begin_op under log.lock; when it does not begin, the caller sleeps. */
    method TryBeginOp() returns (began: bool)
      modifies this`outstanding
      ensures began <==> CanBegin(committing, |home|, old(outstanding))
      ensures outstanding == old(outstanding) + if began then 1 else 0
    {
      if committing {
        return false;
      } else if |home| + (outstanding + 1) * MAXOPBLOCKS > LOGSIZE {
        return false;
      } else {
        outstanding := outstanding + 1;
        return true;
      }
    }

    /** end_op: the last operation out commits everything the group logged. Its writes are those of
        RedoLog.CommitWrites and no others, so a crash among them is safe. */
    method EndOp() returns (r: Outcome)
      requires Valid() && dev.pinned == Elems(home) && outstanding >= 1
      requires !committing ==> Clean(area, dev.im.disk)
      modifies this, dev
      ensures r.Panic? <==> old(committing)
      ensures outstanding == old(outstanding) - 1 && committing == old(committing)
      ensures r.Panic? ==>
                home == old(home) && dev.im == old(dev.im) && dev.trace == old(dev.trace)
                  && dev.pinned == old(dev.pinned)
      ensures r.Ok? ==> Valid() && dev.pinned == Elems(home) && |dev.im.disk| == old(|dev.im.disk|)
      ensures r.Ok? && outstanding > 0 ==> home == old(home) && dev.im == old(dev.im) && dev.trace == old(dev.trace)
      ensures r.Ok? && outstanding == 0 ==>
                dev.trace == old(dev.trace)
                  + if old(home) == [] then []
                    else CommitWrites(area, old(dev.im.disk[area.start]), old(home), Views(old(dev.im), old(home)))
      ensures r.Ok? && outstanding == 0 ==>
                && home == [] && Clean(area, dev.im.disk)
                && forall b :: 0 <= b < |dev.im.disk| && !area.Has(b) ==>
                     dev.im.View(b) == dev.im.disk[b] == old(dev.im.View(b))
    {
      outstanding := outstanding - 1;
      if committing {
        return Panic("log.committing");
      }
      if outstanding == 0 {
        committing := true;
        Commit();
        committing := false;
      }
      r := Ok;
    }
  }
}
