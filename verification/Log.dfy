/** The redo log on the disk: its header block, the block writes that commit and
    recovery issue, and what survives a crash between any two of them. */
module RedoLog {
  import opened Bytes

  const MAXOPBLOCKS: nat := 10
  const LOGSIZE: nat := MAXOPBLOCKS * 3

  type Disk = seq<Block>

  /** One synchronous block write; the disk performs it entirely or not at all. */
  datatype Write = Write(bno: nat, data: Block)

  /** Where the log lies: its header is block `start`, its slots follow. */
  datatype Area = Area(start: nat, size: nat) {
    predicate Has(b: nat) { start <= b < start + size }

    /** A header can list these blocks: they fit the slots, lie outside the log and are distinct. */
    predicate Fits(home: seq<nat>, disk: nat) {
      && start + size <= disk
      && |home| < size
      && |home| <= LOGSIZE
      && (forall i :: 0 <= i < |home| ==> home[i] < disk && !Has(home[i]) && home[i] < WORD)
      && (forall i, j :: 0 <= i < j < |home| ==> home[i] != home[j])
    }
  }

  // ---------------------------------------------------------------- header block

  function PutBlocks(hb: Block, home: seq<nat>): Block
    requires |home| <= LOGSIZE
    requires forall i :: 0 <= i < |home| ==> home[i] < WORD
  {
    if home == [] then hb
    else PutWord(PutBlocks(hb, home[..|home| - 1]), |home|, home[|home| - 1])
  }

  /** The header block with the count and the listed numbers stored; the other bytes of `hb` stay. */
  function EncodeHead(hb: Block, home: seq<nat>): Block
    requires |home| <= LOGSIZE
    requires forall i :: 0 <= i < |home| ==> home[i] < WORD
  {
    PutBlocks(PutWord(hb, 0, |home|), home)
  }

  predicate GoodCount(hb: Block) { GetWord(hb, 0) <= LOGSIZE }

  function DecodeHead(hb: Block): (home: seq<nat>)
    requires GoodCount(hb)
    ensures |home| == GetWord(hb, 0)
  {
    seq(GetWord(hb, 0), i requires 0 <= i < GetWord(hb, 0) => GetWord(hb, 1 + i))
  }

  lemma {:induction false} PutBlocksWord(hb: Block, home: seq<nat>, j: nat)
    requires |home| <= LOGSIZE && j <= LOGSIZE
    requires forall i :: 0 <= i < |home| ==> home[i] < WORD
    ensures GetWord(PutBlocks(hb, home), j) == if 1 <= j <= |home| then home[j - 1] else GetWord(hb, j)
  {
    if home != [] {
      PutBlocksWord(hb, home[..|home| - 1], j);
      GetPutWord(PutBlocks(hb, home[..|home| - 1]), |home|, home[|home| - 1], j);
    }
  }

  lemma HeadRoundTrip(hb: Block, home: seq<nat>)
    requires |home| <= LOGSIZE
    requires forall i :: 0 <= i < |home| ==> home[i] < WORD
    ensures GoodCount(EncodeHead(hb, home)) && DecodeHead(EncodeHead(hb, home)) == home
  {
    var h0 := PutWord(hb, 0, |home|);
    GetPutWord(hb, 0, |home|, 0);
    PutBlocksWord(h0, home, 0);
    forall j | 0 <= j < |home| ensures GetWord(EncodeHead(hb, home), 1 + j) == home[j] {
      PutBlocksWord(h0, home, 1 + j);
    }
  }

  // ---------------------------------------------------------------- write sequences

  predicate InRange(ws: seq<Write>, n: nat) {
    forall i :: 0 <= i < |ws| ==> ws[i].bno < n
  }

  function Apply(d: Disk, ws: seq<Write>): (d': Disk)
    requires InRange(ws, |d|)
    ensures |d'| == |d|
    decreases |ws|
  {
    if ws == [] then d else Apply(d[ws[0].bno := ws[0].data], ws[1..])
  }

  lemma {:induction false} ApplyConcat(d: Disk, u: seq<Write>, v: seq<Write>)
    requires InRange(u, |d|) && InRange(v, |d|)
    ensures InRange(u + v, |d|) && Apply(d, u + v) == Apply(Apply(d, u), v)
    decreases |u|
  {
    if u == [] {
      assert u + v == v;
    } else {
      assert (u + v)[0] == u[0] && (u + v)[1..] == u[1..] + v;
      ApplyConcat(d[u[0].bno := u[0].data], u[1..], v);
    }
  }

  /** write_log: the new contents go to the log slots, in order. */
  function LogWrites(a: Area, data: seq<Block>): seq<Write>
  {
    seq(|data|, i requires 0 <= i < |data| => Write(a.start + 1 + i, data[i]))
  }

  /** install_trans: the log slots are copied to the home blocks, in order. */
  function InstallWrites(home: seq<nat>, data: seq<Block>): seq<Write>
    requires |home| == |data|
  {
    seq(|home|, i requires 0 <= i < |home| => Write(home[i], data[i]))
  }

  function Slots(a: Area, d: Disk, n: nat): (s: seq<Block>)
    requires a.start + n < |d|
    ensures |s| == n
  {
    d[a.start + 1..a.start + 1 + n]
  }

  /** commit: log slots, header, home blocks, cleared header. */
  function CommitWrites(a: Area, hb: Block, home: seq<nat>, data: seq<Block>): seq<Write>
    requires |home| == |data| <= LOGSIZE
    requires forall i :: 0 <= i < |home| ==> home[i] < WORD
  {
    LogWrites(a, data)
    + [Write(a.start, EncodeHead(hb, home))]
    + InstallWrites(home, data)
    + [Write(a.start, EncodeHead(EncodeHead(hb, home), []))]
  }

  /** A disk whose log can be replayed: the header lists a legal transaction. */
  predicate Replayable(a: Area, d: Disk)
  {
    a.start < |d| && GoodCount(d[a.start]) && a.Fits(DecodeHead(d[a.start]), |d|)
  }

  predicate Clean(a: Area, d: Disk)
  {
    Replayable(a, d) && DecodeHead(d[a.start]) == []
  }

  /** recover_from_log: replay the listed slots, then clear the header. */
  function RecoverWrites(a: Area, d: Disk): seq<Write>
    requires Replayable(a, d)
  {
    var home := DecodeHead(d[a.start]);
    InstallWrites(home, Slots(a, d, |home|)) + [Write(a.start, EncodeHead(d[a.start], []))]
  }

  // ---------------------------------------------------------------- what the disk durably holds

  /** The position of block `b` in the header's list, or the list's length. */
  function IndexOf(home: seq<nat>, b: nat): (i: nat)
    ensures i <= |home|
    ensures i < |home| ==> home[i] == b
    ensures i == |home| ==> b !in home
  {
    if home == [] then 0 else if home[0] == b then 0 else 1 + IndexOf(home[1..], b)
  }

  /** The contents that block `b` will have once the log has been replayed. */
  function Durable(a: Area, d: Disk, b: nat): Block
    requires Replayable(a, d) && b < |d|
  {
    var home := DecodeHead(d[a.start]);
    var i := IndexOf(home, b);
    if i < |home| then d[a.start + 1 + i] else d[b]
  }

  /** Two disks that hold the same file system, whatever their logs say. */
  ghost predicate SameDurable(a: Area, d: Disk, e: Disk)
    requires Replayable(a, d) && Replayable(a, e)
  {
    |d| == |e| && forall b :: 0 <= b < |d| && !a.Has(b) ==> Durable(a, d, b) == Durable(a, e, b)
  }

  lemma IndexOfAt(home: seq<nat>, i: nat)
    requires i < |home|
    requires forall i, j :: 0 <= i < j < |home| ==> home[i] != home[j]
    ensures IndexOf(home, home[i]) == i
  {
    var k := IndexOf(home, home[i]);
    assert home[k] == home[i];
  }

  // ---------------------------------------------------------------- single writes

  /** A slot write while the header is clear is invisible. */
  lemma SlotWriteInvisible(a: Area, d: Disk, w: Write)
    requires Clean(a, d) && a.Has(w.bno) && w.bno != a.start
    ensures w.bno < |d| && Clean(a, d[w.bno := w.data])
    ensures SameDurable(a, d[w.bno := w.data], d)
  {
    hide EncodeHead, DecodeHead, GoodCount;
  }

  /** Copying slot `i` to its home, at any time and any number of times, is invisible. */
  lemma InstallWriteInvisible(a: Area, d: Disk, i: nat)
    requires Replayable(a, d) && i < |DecodeHead(d[a.start])|
    ensures var home := DecodeHead(d[a.start]);
            var e := d[home[i] := d[a.start + 1 + i]];
            e[a.start] == d[a.start] && Replayable(a, e) && SameDurable(a, e, d)
            && Slots(a, e, |home|) == Slots(a, d, |home|)
  {
    hide EncodeHead, DecodeHead, GoodCount;
    IndexOfAt(DecodeHead(d[a.start]), i);
  }

  /** Clearing the header is invisible once every home block holds its slot. */
  lemma ClearInvisible(a: Area, d: Disk, hb: Block)
    requires Replayable(a, d)
    requires var home := DecodeHead(d[a.start]);
             forall i :: 0 <= i < |home| ==> d[home[i]] == d[a.start + 1 + i]
    ensures var e := d[a.start := EncodeHead(hb, [])];
            Clean(a, e) && SameDurable(a, e, d)
  {
    HeadRoundTrip(hb, []);
  }

  /** The one write that changes what the disk durably holds: the header write of commit. */
  lemma HeadWriteCommits(a: Area, d: Disk, hb: Block, home: seq<nat>)
    requires Clean(a, d) && a.Fits(home, |d|)
    ensures var e := d[a.start := EncodeHead(hb, home)];
            && Replayable(a, e) && DecodeHead(e[a.start]) == home
            && forall b :: 0 <= b < |d| && !a.Has(b) ==>
                 Durable(a, e, b) == var i := IndexOf(home, b); if i < |home| then d[a.start + 1 + i] else d[b]
  {
    hide EncodeHead, DecodeHead, GoodCount;
    HeadRoundTrip(hb, home);
    var e := d[a.start := EncodeHead(hb, home)];
    forall b | 0 <= b < |d| && !a.Has(b)
      ensures Durable(a, e, b) == var i := IndexOf(home, b); if i < |home| then d[a.start + 1 + i] else d[b]
    {
      assert e[b] == d[b];
    }
  }

  // ---------------------------------------------------------------- crashes between writes

  lemma ApplyNext(d: Disk, ws: seq<Write>, k: nat)
    requires InRange(ws, |d|) && k < |ws|
    ensures Apply(d, ws[..k + 1]) == Apply(d, ws[..k])[ws[k].bno := ws[k].data]
  {
    assert ws[..k + 1] == ws[..k] + [ws[k]];
    ApplyConcat(d, ws[..k], [ws[k]]);
  }

  /** The homes of the first `k` listed blocks hold their slots. */
  predicate Installed(a: Area, d: Disk, k: nat)
    requires Replayable(a, d)
  {
    var home := DecodeHead(d[a.start]);
    k <= |home| && forall i :: 0 <= i < k ==> d[home[i]] == d[a.start + 1 + i]
  }

  /** Disk `e` is disk `d` after recovery has copied the first `k` slots home. */
  ghost predicate Installing(a: Area, d: Disk, e: Disk, k: nat)
    requires Replayable(a, d)
  {
    && |e| == |d| && e[a.start] == d[a.start] && Replayable(a, e) && SameDurable(a, e, d)
    && Slots(a, e, |DecodeHead(d[a.start])|) == Slots(a, d, |DecodeHead(d[a.start])|)
    && Installed(a, e, k)
  }

  lemma InstallStep(a: Area, d: Disk, e: Disk, k: nat)
    requires Replayable(a, d) && Installing(a, d, e, k) && k < |DecodeHead(d[a.start])|
    ensures var home := DecodeHead(d[a.start]);
            Installing(a, d, e[home[k] := Slots(a, d, |home|)[k]], k + 1)
  {
    hide EncodeHead, DecodeHead, GoodCount;
    InstallWriteInvisible(a, e, k);
    var n := |DecodeHead(d[a.start])|;
    assert e[a.start + 1 + k] == Slots(a, e, n)[k];
  }

  lemma {:induction false} InstallPrefix(a: Area, d: Disk, k: nat)
    requires Replayable(a, d) && k <= |DecodeHead(d[a.start])|
    ensures InRange(RecoverWrites(a, d), |d|)
    ensures Installing(a, d, Apply(d, RecoverWrites(a, d)[..k]), k)
  {
    hide EncodeHead, DecodeHead, GoodCount;
    if k > 0 {
      InstallPrefix(a, d, k - 1);
      ApplyNext(d, RecoverWrites(a, d), k - 1);
      InstallStep(a, d, Apply(d, RecoverWrites(a, d)[..k - 1]), k - 1);
    }
  }

  /** Recovery, cut short after any number of its writes, leaves a replayable disk that
      durably holds the same file system; run to its end it leaves that file system in place. */
  lemma RecoveryCrash(a: Area, d: Disk, k: nat)
    requires Replayable(a, d) && k <= |RecoverWrites(a, d)|
    ensures var ws := RecoverWrites(a, d);
            && InRange(ws, |d|)
            && var e := Apply(d, ws[..k]);
               Replayable(a, e) && SameDurable(a, e, d) && (k == |ws| ==> Clean(a, e))
  {
    hide EncodeHead, DecodeHead, GoodCount;
    var ws := RecoverWrites(a, d);
    var n := |DecodeHead(d[a.start])|;
    if k <= n {
      InstallPrefix(a, d, k);
    } else {
      InstallPrefix(a, d, n);
      ApplyNext(d, ws, n);
      ClearInvisible(a, Apply(d, ws[..n]), d[a.start]);
    }
  }

  /** What block `b` holds after a transaction that stores `data` at `home`. */
  function After(d: Disk, home: seq<nat>, data: seq<Block>, b: nat): Block
    requires |home| == |data| && b < |d|
  {
    var i := IndexOf(home, b);
    if i < |home| then data[i] else d[b]
  }

  lemma {:induction false} LogPrefix(a: Area, d: Disk, home: seq<nat>, data: seq<Block>, k: nat)
    requires Clean(a, d) && a.Fits(home, |d|) && |home| == |data| && k <= |home|
    ensures InRange(CommitWrites(a, d[a.start], home, data), |d|)
    ensures var e := Apply(d, CommitWrites(a, d[a.start], home, data)[..k]);
            && Clean(a, e) && e[a.start] == d[a.start] && SameDurable(a, e, d)
            && (forall i :: 0 <= i < k ==> e[a.start + 1 + i] == data[i])
  {
    hide EncodeHead, DecodeHead, GoodCount;
    if k > 0 {
      LogPrefix(a, d, home, data, k - 1);
      var ws := CommitWrites(a, d[a.start], home, data);
      ApplyNext(d, ws, k - 1);
      SlotWriteInvisible(a, Apply(d, ws[..k - 1]), ws[k - 1]);
    }
  }

  /** The header has been written: disk `e` durably holds the transaction. */
  ghost predicate Committed(a: Area, d: Disk, home: seq<nat>, data: seq<Block>, e: Disk)
    requires |home| == |data|
  {
    && |e| == |d| && Replayable(a, e)
    && (forall b :: 0 <= b < |d| && !a.Has(b) ==> Durable(a, e, b) == After(d, home, data, b))
  }

  lemma HeadStep(a: Area, d: Disk, c: Disk, home: seq<nat>, data: seq<Block>)
    requires Clean(a, d) && a.Fits(home, |d|) && |home| == |data|
    requires Clean(a, c) && c[a.start] == d[a.start] && SameDurable(a, c, d)
    requires forall i :: 0 <= i < |home| ==> c[a.start + 1 + i] == data[i]
    ensures var e := c[a.start := EncodeHead(d[a.start], home)];
            && Committed(a, d, home, data, e) && DecodeHead(e[a.start]) == home
            && Slots(a, e, |home|) == data
  {
    hide EncodeHead, DecodeHead, GoodCount, IndexOf;
    HeadWriteCommits(a, c, d[a.start], home);
    assert forall b :: 0 <= b < |d| && !a.Has(b) ==> Durable(a, c, b) == c[b] && Durable(a, d, b) == d[b];
  }

  lemma TailWrites(a: Area, hb: Block, home: seq<nat>, data: seq<Block>, e: Disk)
    requires Replayable(a, e) && |home| == |data| && a.Fits(home, |e|)
    requires e[a.start] == EncodeHead(hb, home) && DecodeHead(e[a.start]) == home
    requires Slots(a, e, |home|) == data
    ensures CommitWrites(a, hb, home, data)[|home| + 1..] == RecoverWrites(a, e)
  {
    hide EncodeHead, DecodeHead, GoodCount;
    var front := LogWrites(a, data) + [Write(a.start, EncodeHead(hb, home))];
    assert CommitWrites(a, hb, home, data) == front + RecoverWrites(a, e);
  }

  lemma CommittedSame(a: Area, d: Disk, home: seq<nat>, data: seq<Block>, e: Disk, f: Disk)
    requires |home| == |data| && Committed(a, d, home, data, e)
    requires Replayable(a, f) && SameDurable(a, f, e)
    ensures Committed(a, d, home, data, f)
  {
  }

  /** After the header write, commit issues exactly the writes recovery would issue. */
  lemma CommitTail(a: Area, d: Disk, home: seq<nat>, data: seq<Block>)
    requires Clean(a, d) && a.Fits(home, |d|) && |home| == |data|
    ensures var ws := CommitWrites(a, d[a.start], home, data);
            && InRange(ws, |d|)
            && var e := Apply(d, ws[..|home| + 1]);
               Committed(a, d, home, data, e) && ws[|home| + 1..] == RecoverWrites(a, e)
  {
    hide EncodeHead, DecodeHead, GoodCount, Durable, After, SameDurable, RecoverWrites, Apply;
    var n := |home|;
    var ws := CommitWrites(a, d[a.start], home, data);
    LogPrefix(a, d, home, data, n);
    ApplyNext(d, ws, n);
    HeadStep(a, d, Apply(d, ws[..n]), home, data);
    TailWrites(a, d[a.start], home, data, Apply(d, ws[..n + 1]));
  }

  /** Commit, cut short after `k` of its writes: the disk durably holds the old file system
      up to the header write and the new one from it on, never a mixture. */
  lemma CommitCrash(a: Area, d: Disk, home: seq<nat>, data: seq<Block>, k: nat)
    requires Clean(a, d) && a.Fits(home, |d|) && |home| == |data|
    requires k <= |CommitWrites(a, d[a.start], home, data)|
    ensures var ws := CommitWrites(a, d[a.start], home, data);
            && InRange(ws, |d|)
            && var e := Apply(d, ws[..k]);
               && Replayable(a, e)
               && (if k <= |home| then SameDurable(a, e, d) else Committed(a, d, home, data, e))
               && (k == |ws| ==> Clean(a, e))
  {
    hide EncodeHead, DecodeHead, GoodCount, Durable, After, SameDurable, RecoverWrites, Apply;
    var n := |home|;
    var ws := CommitWrites(a, d[a.start], home, data);
    CommitTail(a, d, home, data);
    if k <= n {
      LogPrefix(a, d, home, data, k);
    } else {
      ApplySplit(d, ws, n + 1, k);
      CommittedCrash(a, d, home, data, Apply(d, ws[..n + 1]), k - n - 1);
    }
  }

  lemma ApplySplit(d: Disk, ws: seq<Write>, m: nat, k: nat)
    requires InRange(ws, |d|) && m <= k <= |ws|
    ensures InRange(ws[m..], |d|)
    ensures Apply(d, ws[..k]) == Apply(Apply(d, ws[..m]), ws[m..][..k - m])
  {
    assert ws[..k] == ws[..m] + ws[m..][..k - m];
    ApplyConcat(d, ws[..m], ws[m..][..k - m]);
  }

  lemma CommittedCrash(a: Area, d: Disk, home: seq<nat>, data: seq<Block>, e: Disk, k: nat)
    requires |home| == |data| && Committed(a, d, home, data, e) && k <= |RecoverWrites(a, e)|
    ensures InRange(RecoverWrites(a, e), |e|)
    ensures var f := Apply(e, RecoverWrites(a, e)[..k]);
            Committed(a, d, home, data, f) && (k == |RecoverWrites(a, e)| ==> Clean(a, f))
  {
    RecoveryCrash(a, e, k);
    CommittedSame(a, d, home, data, e, Apply(e, RecoverWrites(a, e)[..k]));
  }

  /** Recoveries that each crash after the given number of writes, one after the other. */
  function CrashedRecoveries(a: Area, d: Disk, crashes: seq<nat>): (e: Disk)
    requires Replayable(a, d)
    ensures Replayable(a, e) && SameDurable(a, e, d)
    decreases |crashes|
  {
    if crashes == [] then d
    else
      var ws := RecoverWrites(a, d);
      var k := if crashes[0] <= |ws| then crashes[0] else |ws|;
      RecoveryCrash(a, d, k);
      CrashedRecoveries(a, Apply(d, ws[..k]), crashes[1..])
  }

  /** One recovery that runs to its end. */
  function Recovered(a: Area, d: Disk): (e: Disk)
    requires Replayable(a, d)
    ensures Clean(a, e) && |e| == |d|
    ensures forall b :: 0 <= b < |d| && !a.Has(b) ==> e[b] == Durable(a, d, b)
  {
    var ws := RecoverWrites(a, d);
    RecoveryCrash(a, d, |ws|);
    assert ws[..|ws|] == ws;
    Apply(d, ws)
  }

  /** Crash safety: commit stops after any `k` writes, any number of recoveries crash anywhere,
      and one recovery completes. Every block outside the log then holds its old contents if the
      header had not been written, and its new contents if it had. */
  lemma CrashSafety(a: Area, d: Disk, home: seq<nat>, data: seq<Block>, k: nat, crashes: seq<nat>)
    requires Clean(a, d) && a.Fits(home, |d|) && |home| == |data|
    requires k <= |CommitWrites(a, d[a.start], home, data)|
    ensures InRange(CommitWrites(a, d[a.start], home, data), |d|)
    ensures var stopped := Apply(d, CommitWrites(a, d[a.start], home, data)[..k]);
            && Replayable(a, stopped)
            && var final := Recovered(a, CrashedRecoveries(a, stopped, crashes));
               && Clean(a, final) && |final| == |d|
               && forall b :: 0 <= b < |d| && !a.Has(b) ==>
                    final[b] == if k <= |home| then d[b] else After(d, home, data, b)
  {
    CommitCrash(a, d, home, data, k);
  }
}
