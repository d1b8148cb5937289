/** Pipes (kernel/pipe.c): every interleaving of readers and writers. What a process does from taking the pipe's
    lock to releasing it, or to sleeping, is split into its accesses to the buffer; sleep and wakeup are atomic. */
module Pipe {
  import opened Bytes

  const PIPESIZE: nat := 512
  const NPROC: nat := 64
  /** nread and nwrite are 32-bit counters. */
  const UINT: nat := 0x1_0000_0000

  datatype Pc =
    | Idle
    | WWant(n: nat)               // pipewrite with n bytes to go, waiting for the lock
    | Writing(n: nat, added: bool)// holds the lock; has it added bytes since it last woke the readers?
    | WSleep(n: nat)              // asleep on nwrite
    | RWant(n: nat)               // piperead of n bytes, waiting for the lock
    | Reading(n: nat)             // holds the lock, at the test for an empty pipe
    | RSleep(n: nat)              // asleep on nread
    | Copying(n: nat, i: nat)     // holds the lock, taking bytes; i is what it will return

  datatype Holder = NoOne | By(p: nat)

  /** `put` and `got` are all the bytes that ever went in and came out, `reported` the sum of what reads returned. */
  datatype State = State(data: seq<Byte>, nread: nat, nwrite: nat, readopen: bool, writeopen: bool, lock: Holder,
                         pc: seq<Pc>, put: seq<Byte>, got: seq<Byte>, reported: nat)

  datatype Action =
    | StartWrite(p: nat, n: nat)
    | StartRead(p: nat, n: nat)
    | Acquire(p: nat)
    | Put(p: nat, ch: Byte)   // one byte into the buffer
    | Full(p: nat)            // the buffer is full: wake the readers and sleep
    | WGiveUp(p: nat)         // killed, or no reader left: return without a wakeup
    | WDone(p: nat)           // all written, or copyin failed: wake the readers and return
    | Empty(p: nat)           // nothing to read and a writer left: sleep
    | RGiveUp(p: nat)         // killed while the pipe is empty
    | Go(p: nat)              // something to read, or no writer left
    | Take(p: nat, ok: bool)  // one byte out of the buffer; copyout may fail
    | RDone(p: nat)           // wake the writers and return
    | Close(p: nat, writable: bool)
    | Kill(p: nat)            // kill wakes a sleeping process

  predicate IsReader(pc: Pc) { pc.RWant? || pc.Reading? || pc.RSleep? || pc.Copying? }
  predicate IsWriter(pc: Pc) { pc.WWant? || pc.Writing? || pc.WSleep? }

  predicate Shape(s: State) { |s.pc| == NPROC && |s.data| == PIPESIZE }

  /** An end is closed when its last file is, so nobody is using it. */
  predicate Enabled(s: State, a: Action)
  {
    && Shape(s) && a.p < NPROC
    && var pc := s.pc[a.p];
       match a
       case StartWrite(_, _) => pc.Idle? && s.writeopen
       case StartRead(_, _) => pc.Idle? && s.readopen
       case Acquire(_) => (pc.WWant? || pc.RWant?) && s.lock.NoOne?
       case Put(_, _) => pc.Writing? && pc.n > 0 && s.readopen && s.nwrite != (s.nread + PIPESIZE) % UINT
       case Full(_) => pc.Writing? && pc.n > 0 && s.readopen && s.nwrite == (s.nread + PIPESIZE) % UINT
       case WGiveUp(_) => pc.Writing? && pc.n > 0
       case WDone(_) => pc.Writing?
       case Empty(_) => pc.Reading? && s.nread == s.nwrite && s.writeopen
       case RGiveUp(_) => pc.Reading? && s.nread == s.nwrite && s.writeopen
       case Go(_) => pc.Reading? && !(s.nread == s.nwrite && s.writeopen)
       case Take(_, _) => pc.Copying? && pc.n > 0 && s.nread != s.nwrite
       case RDone(_) => pc.Copying? && (pc.n == 0 || s.nread == s.nwrite)
       case Close(_, writable) =>
         && s.lock.NoOne?
         && if writable then s.writeopen && forall q :: 0 <= q < NPROC ==> !IsWriter(s.pc[q])
            else s.readopen && forall q :: 0 <= q < NPROC ==> !IsReader(s.pc[q])
       case Kill(_) => pc.WSleep? || pc.RSleep?
  }

  function Woken(pc: Pc): Pc
  {
    if pc.RSleep? then RWant(pc.n) else if pc.WSleep? then WWant(pc.n) else pc
  }

  /** wakeup(&pi->nread). */
  function WakeReaders(pcs: seq<Pc>): (r: seq<Pc>)
    ensures |r| == |pcs| && forall i :: 0 <= i < |pcs| ==> r[i] == if pcs[i].RSleep? then Woken(pcs[i]) else pcs[i]
  {
    seq(|pcs|, i requires 0 <= i < |pcs| => if pcs[i].RSleep? then Woken(pcs[i]) else pcs[i])
  }

  /** wakeup(&pi->nwrite). */
  function WakeWriters(pcs: seq<Pc>): (r: seq<Pc>)
    ensures |r| == |pcs| && forall i :: 0 <= i < |pcs| ==> r[i] == if pcs[i].WSleep? then Woken(pcs[i]) else pcs[i]
  {
    seq(|pcs|, i requires 0 <= i < |pcs| => if pcs[i].WSleep? then Woken(pcs[i]) else pcs[i])
  }

  function Perform(s: State, a: Action): State
    requires Enabled(s, a)
  {
    var p := a.p;
    var pc := s.pc[p];
    match a
    case StartWrite(_, n) => s.(pc := s.pc[p := WWant(n)])
    case StartRead(_, n) => s.(pc := s.pc[p := RWant(n)])
    case Acquire(_) => s.(lock := By(p), pc := s.pc[p := if pc.WWant? then Writing(pc.n, false) else Reading(pc.n)])
    case Put(_, ch) =>
      s.(data := s.data[s.nwrite % PIPESIZE := ch], nwrite := (s.nwrite + 1) % UINT, put := s.put + [ch],
         pc := s.pc[p := Writing(pc.n - 1, true)])
    case Full(_) => s.(lock := NoOne, pc := WakeReaders(s.pc)[p := WSleep(pc.n)])
    case WGiveUp(_) => s.(lock := NoOne, pc := s.pc[p := Idle])
    case WDone(_) => s.(lock := NoOne, pc := WakeReaders(s.pc)[p := Idle])
    case Empty(_) => s.(lock := NoOne, pc := s.pc[p := RSleep(pc.n)])
    case RGiveUp(_) => s.(lock := NoOne, pc := s.pc[p := Idle])
    case Go(_) => s.(pc := s.pc[p := Copying(pc.n, 0)])
    case Take(_, ok) =>
      s.(nread := (s.nread + 1) % UINT, got := s.got + [s.data[s.nread % PIPESIZE]],
         pc := s.pc[p := if ok then Copying(pc.n - 1, pc.i + 1) else Copying(0, pc.i)])
    case RDone(_) => s.(lock := NoOne, pc := WakeWriters(s.pc)[p := Idle], reported := s.reported + pc.i)
    case Close(_, writable) =>
      if writable then s.(writeopen := false, pc := WakeReaders(s.pc))
        else s.(readopen := false, pc := WakeWriters(s.pc))
    case Kill(_) => s.(pc := s.pc[p := Woken(pc)])
  }

  // ---------------------------------------------------------------- first in, first out

  ghost predicate InBuffer(s: State, k: nat)
    requires Shape(s) && k < |s.put|
  {
    s.data[k % PIPESIZE] == s.put[k]
  }

  /** What came out is the beginning of what went in, and the rest, at most PIPESIZE bytes, is in the buffer. */
  ghost predicate Fifo(s: State)
  {
    && Shape(s) && |s.got| <= |s.put| <= |s.got| + PIPESIZE && s.got == s.put[..|s.got|]
    && s.nread == |s.got| % UINT && s.nwrite == |s.put| % UINT
    && (forall k: nat :: |s.got| <= k < |s.put| ==> InBuffer(s, k))
  }

  /** The counters can be compared although they wrap. */
  lemma Counters(g: nat, p: nat)
    requires g <= p <= g + PIPESIZE
    ensures g % UINT == p % UINT <==> g == p
    ensures p % UINT == (g % UINT + PIPESIZE) % UINT <==> p == g + PIPESIZE
  {
    var a, b := g / UINT, g % UINT;
    assert g == a * UINT + b;
  }

  /** A buffer position does not move when the counter wraps, because PIPESIZE divides 2^32. */
  lemma Position(x: nat)
    ensures x % UINT % PIPESIZE == x % PIPESIZE
  {
    var k := x / UINT;
    assert x == k * UINT + x % UINT;
    assert x == PIPESIZE * (k * (UINT / PIPESIZE)) + x % UINT;
    ModMultiple(k * (UINT / PIPESIZE), x % UINT);
  }

  lemma {:induction false} ModMultiple(k: nat, y: nat)
    ensures (PIPESIZE * k + y) % PIPESIZE == y % PIPESIZE
  {
    if k > 0 {
      ModMultiple(k - 1, y);
      assert PIPESIZE * k + y == PIPESIZE * (k - 1) + y + PIPESIZE;
    }
  }

  /** Different bytes in the buffer have different positions. */
  lemma Apart(k: nat, p: nat)
    requires k < p < k + PIPESIZE
    ensures k % PIPESIZE != p % PIPESIZE
  {
  }

  lemma NextCount(x: nat)
    ensures (x % UINT + 1) % UINT == (x + 1) % UINT
  {
  }

  lemma PutFifo(s: State, a: Action)
    requires Fifo(s) && Enabled(s, a) && a.Put?
    ensures Fifo(Perform(s, a))
  {
    var t := Perform(s, a);
    Counters(|s.got|, |s.put|);
    Position(|s.put|);
    NextCount(|s.put|);
    forall k: nat | |t.got| <= k < |t.put| ensures InBuffer(t, k) {
      if k < |s.put| {
        assert InBuffer(s, k);
        Apart(k, |s.put|);
      }
    }
  }

  lemma TakeFifo(s: State, a: Action)
    requires Fifo(s) && Enabled(s, a) && a.Take?
    ensures Fifo(Perform(s, a)) && Perform(s, a).got == s.got + [s.put[|s.got|]]
  {
    var t := Perform(s, a);
    Counters(|s.got|, |s.put|);
    Position(|s.got|);
    NextCount(|s.got|);
    assert InBuffer(s, |s.got|);
    assert s.put[..|s.got| + 1] == s.put[..|s.got|] + [s.put[|s.got|]];
    forall k: nat | |t.got| <= k < |t.put| ensures InBuffer(t, k) { assert InBuffer(s, k); }
  }

  lemma FifoKeeps(s: State, a: Action)
    requires Fifo(s) && Enabled(s, a)
    ensures Fifo(Perform(s, a))
  {
    if a.Put? { PutFifo(s, a); }
    else if a.Take? { TakeFifo(s, a); }
    else {
      var t := Perform(s, a);
      forall k: nat | |t.got| <= k < |t.put| ensures InBuffer(t, k) { assert InBuffer(s, k); }
    }
  }

  // ---------------------------------------------------------------- who sleeps

  predicate HasLock(pc: Pc) { pc.Writing? || pc.Reading? || pc.Copying? }

  predicate IsEmpty(s: State) { s.nread == s.nwrite }
  predicate IsFull(s: State) { s.nwrite == (s.nread + PIPESIZE) % UINT }

  /** The lock is held by a writer that has added bytes, or by a reader that is taking them: a wakeup follows. */
  predicate WriterWakes(s: State)
  {
    s.lock.By? && s.lock.p < |s.pc| && s.pc[s.lock.p].Writing? && s.pc[s.lock.p].added
  }

  predicate ReaderWakes(s: State)
  {
    s.lock.By? && s.lock.p < |s.pc| && s.pc[s.lock.p].Copying?
  }

  ghost predicate Ok(s: State, q: nat)
    requires Shape(s) && q < NPROC
  {
    var pc := s.pc[q];
    && (HasLock(pc) <==> s.lock == By(q))
    && (pc.RSleep? ==> (IsEmpty(s) && s.writeopen) || WriterWakes(s))
    && (pc.WSleep? ==> (IsFull(s) && s.readopen) || ReaderWakes(s))
    && (IsReader(pc) ==> s.readopen) && (IsWriter(pc) ==> s.writeopen)
    && (pc.Writing? && pc.added ==> !IsEmpty(s))
  }

  ghost predicate Inv(s: State)
  {
    Fifo(s) && (s.lock.By? ==> s.lock.p < NPROC) && forall q: nat :: q < NPROC ==> Ok(s, q)
  }

  /** A writer that gives up after adding bytes leaves no reader asleep. */
  ghost predicate Signals(s: State, a: Action)
    requires Enabled(s, a)
  {
    a.WGiveUp? && s.pc[a.p].added ==> forall q :: 0 <= q < NPROC ==> !s.pc[q].RSleep?
  }

  lemma EmptyNotFull(s: State)
    requires Fifo(s)
    ensures !(IsEmpty(s) && IsFull(s))
  {
    Counters(|s.got|, |s.put|);
  }

  lemma KeepsOk(s: State, a: Action, q: nat)
    requires Fifo(s) && Enabled(s, a) && Signals(s, a) && q < NPROC && Ok(s, q) && Ok(s, a.p)
    requires s.lock.By? ==> s.lock.p < NPROC && Ok(s, s.lock.p)
    requires a.Put? ==> !IsEmpty(Perform(s, a))
    ensures Shape(Perform(s, a)) && Ok(Perform(s, a), q)
  {
    EmptyNotFull(s);
    hide Fifo;
    if a.Put? || a.Take? { KeepsData(s, a, q); }
    else if a.Close? { }
    else if a.Acquire? || a.Kill? || a.StartRead? || a.StartWrite? || a.Go? { KeepsStart(s, a, q); }
    else { KeepsEnd(s, a, q); }
  }

  lemma KeepsData(s: State, a: Action, q: nat)
    requires Enabled(s, a) && Shape(s) && (a.Put? || a.Take?) && q < NPROC && Ok(s, q) && Ok(s, a.p)
    requires a.Put? ==> !IsEmpty(Perform(s, a))
    ensures Shape(Perform(s, a)) && Ok(Perform(s, a), q)
  {
  }

  lemma KeepsStart(s: State, a: Action, q: nat)
    requires Enabled(s, a) && Shape(s) && (a.Acquire? || a.Kill? || a.StartRead? || a.StartWrite? || a.Go?)
    requires q < NPROC && Ok(s, q) && Ok(s, a.p) && (s.lock.By? ==> s.lock.p < NPROC && Ok(s, s.lock.p))
    ensures Shape(Perform(s, a)) && Ok(Perform(s, a), q)
  {
  }

  lemma KeepsEnd(s: State, a: Action, q: nat)
    requires Enabled(s, a) && Signals(s, a) && Shape(s) && q < NPROC && Ok(s, q) && Ok(s, a.p)
    requires !(IsEmpty(s) && IsFull(s))
    requires a.Full? || a.WGiveUp? || a.WDone? || a.Empty? || a.RGiveUp? || a.RDone?
    ensures Shape(Perform(s, a)) && Ok(Perform(s, a), q)
  {
  }

  lemma PutNotEmpty(s: State, a: Action)
    requires Fifo(s) && Enabled(s, a) && a.Put?
    ensures !IsEmpty(Perform(s, a))
  {
    PutFifo(s, a);
    var t := Perform(s, a);
    Counters(|t.got|, |t.put|);
  }

  lemma Preserved(s: State, a: Action)
    requires Inv(s) && Enabled(s, a) && Signals(s, a)
    ensures Inv(Perform(s, a))
  {
    var t := Perform(s, a);
    FifoKeeps(s, a);
    assert a.Put? ==> !IsEmpty(t) by { if a.Put? { PutNotEmpty(s, a); } }
    hide Ok, Signals, Fifo;
    forall q: nat | q < NPROC ensures Shape(t) && Ok(t, q) {
      assert Ok(s, q) && Ok(s, a.p);
      KeepsOk(s, a, q);
    }
  }

  /** A writer giving up is the only step that can leave a reader asleep on a pipe with bytes in it, and it
      does so exactly when it has added bytes and a reader sleeps. */
  lemma GiveUpIff(s: State, a: Action)
    requires Inv(s) && Enabled(s, a)
    ensures Inv(Perform(s, a)) <==> Signals(s, a)
  {
    if Signals(s, a) {
      Preserved(s, a);
    } else {
      var q :| 0 <= q < NPROC && s.pc[q].RSleep?;
      assert Ok(s, q) && Ok(s, a.p);
      var t := Perform(s, a);
      assert t.pc[q].RSleep? && !IsEmpty(t) && t.lock.NoOne?;
      assert !Ok(t, q);
    }
  }

  // ---------------------------------------------------------------- every run

  /** pipealloc. */
  function Initial(): State
  {
    State(seq(PIPESIZE, _ => 0), 0, 0, true, true, NoOne, seq(NPROC, _ => Idle), [], [], 0)
  }

  lemma InitialInv()
    ensures Inv(Initial())
  {
  }

  ghost predicate Legal(s: State, run: seq<Action>)
    decreases |run|
  {
    run == [] || (Enabled(s, run[0]) && Legal(Perform(s, run[0]), run[1..]))
  }

  ghost function Run(s: State, run: seq<Action>): State
    requires Legal(s, run)
    decreases |run|
  {
    if run == [] then s else Run(Perform(s, run[0]), run[1..])
  }

  ghost predicate Signalled(s: State, run: seq<Action>)
    requires Legal(s, run)
    decreases |run|
  {
    run == [] || (Signals(s, run[0]) && Signalled(Perform(s, run[0]), run[1..]))
  }

  lemma {:induction false} RunFifo(s: State, run: seq<Action>)
    requires Fifo(s) && Legal(s, run)
    ensures Fifo(Run(s, run))
    decreases |run|
  {
    hide Fifo, Enabled, Perform;
    if run != [] {
      FifoKeeps(s, run[0]);
      RunFifo(Perform(s, run[0]), run[1..]);
    }
  }

  /** The bytes that the writes of a run supplied, in order. */
  ghost function Fed(run: seq<Action>): seq<Byte>
  {
    if run == [] then [] else (if run[0].Put? then [run[0].ch] else []) + Fed(run[1..])
  }

  lemma PutStep(s: State, a: Action)
    requires Enabled(s, a)
    ensures Perform(s, a).put == s.put + if a.Put? then [a.ch] else []
  {
    hide WakeReaders, WakeWriters, IsReader, IsWriter;
  }

  lemma {:induction false} RunFed(s: State, run: seq<Action>)
    requires Legal(s, run)
    ensures Run(s, run).put == s.put + Fed(run)
    decreases |run|
  {
    hide Enabled, Perform;
    if run != [] {
      PutStep(s, run[0]);
      RunFed(Perform(s, run[0]), run[1..]);
    }
  }

  /** In every run, killed writers included: the bytes taken out, followed by the bytes in the buffer, are the
      bytes that the writes supplied. */
  lemma FirstInFirstOut(run: seq<Action>)
    requires Legal(Initial(), run)
    ensures var t, fed := Run(Initial(), run), Fed(run);
            && Shape(t) && t.put == fed && |t.got| <= |fed| <= |t.got| + PIPESIZE
            && fed == t.got + seq(|fed| - |t.got|,
               i requires 0 <= i < |fed| - |t.got| => t.data[(|t.got| + i) % PIPESIZE])
            && t.nwrite == (t.nread + (|fed| - |t.got|)) % UINT
  {
    hide Run, Legal, Fed;
    InitialInv();
    RunFifo(Initial(), run);
    RunFed(Initial(), run);
    var t := Run(Initial(), run);
    var g, p := |t.got|, |t.put|;
    var rest := seq(p - g, i requires 0 <= i < p - g => t.data[(g + i) % PIPESIZE]);
    forall i | 0 <= i < p - g ensures rest[i] == t.put[g + i] { assert InBuffer(t, g + i); }
    assert t.put == t.put[..g] + t.put[g..];
    assert t.put[g..] == rest;
    SumCount(g, p - g);
  }

  lemma SumCount(g: nat, d: nat)
    requires d <= PIPESIZE
    ensures (g % UINT + d) % UINT == (g + d) % UINT
  {
  }

  lemma {:induction false} RunInv(s: State, run: seq<Action>)
    requires Inv(s) && Legal(s, run) && Signalled(s, run)
    ensures Inv(Run(s, run))
    decreases |run|
  {
    hide Inv, Enabled, Perform, Signals;
    if run != [] {
      Preserved(s, run[0]);
      RunInv(Perform(s, run[0]), run[1..]);
    }
  }

  /** In every run without such a writer: when the lock is free, a sleeping reader means an empty pipe with a
      writer left, and a sleeping writer a full one with a reader left. */
  lemma NobodyStranded(run: seq<Action>, q: nat)
    requires Legal(Initial(), run) && Signalled(Initial(), run) && q < NPROC
    ensures var t := Run(Initial(), run);
            && Shape(t)
            && (t.lock.NoOne? && t.pc[q].RSleep? ==> |t.put| == |t.got| && t.writeopen)
            && (t.lock.NoOne? && t.pc[q].WSleep? ==> |t.put| == |t.got| + PIPESIZE && t.readopen)
  {
    hide Run, Legal, Signalled;
    InitialInv();
    RunInv(Initial(), run);
    var t := Run(Initial(), run);
    Counters(|t.got|, |t.put|);
    assert Ok(t, q);
  }

  /** The writer that gives up is not only a possibility: process 0 sleeps in a read, process 1 adds a byte and is
      killed, and process 0 is left asleep on a pipe that is not empty and not locked. */
  lemma StrandedReader() returns (run: seq<Action>)
    ensures Legal(Initial(), run)
    ensures var t := Run(Initial(), run);
            Shape(t) && t.lock.NoOne? && t.pc[0].RSleep? && |t.put| > |t.got| && t.writeopen
  {
    hide WakeReaders, WakeWriters;
    var s0 := Initial();
    var s1 := Perform(s0, StartRead(0, 1));
    var s2 := Perform(s1, Acquire(0));
    var s3 := Perform(s2, Empty(0));
    var s4 := Perform(s3, StartWrite(1, 2));
    var s5 := Perform(s4, Acquire(1));
    var s6 := Perform(s5, Put(1, 65));
    var s7 := Perform(s6, WGiveUp(1));
    var r6 := [WGiveUp(1)];
    assert Legal(s7, []);
    Extend(s6, WGiveUp(1), []);
    Extend(s5, Put(1, 65), r6);
    Extend(s4, Acquire(1), [Put(1, 65)] + r6);
    Extend(s3, StartWrite(1, 2), [Acquire(1)] + ([Put(1, 65)] + r6));
    var r3 := [StartWrite(1, 2)] + ([Acquire(1)] + ([Put(1, 65)] + r6));
    Extend(s2, Empty(0), r3);
    Extend(s1, Acquire(0), [Empty(0)] + r3);
    Extend(s0, StartRead(0, 1), [Acquire(0)] + ([Empty(0)] + r3));
    run := [StartRead(0, 1)] + ([Acquire(0)] + ([Empty(0)] + r3));
  }

  lemma Extend(s: State, a: Action, run: seq<Action>)
    requires Enabled(s, a) && Legal(Perform(s, a), run)
    ensures Legal(s, [a] + run) && Run(s, [a] + run) == Run(Perform(s, a), run)
  {
    hide Enabled, Perform;
    assert ([a] + run)[1..] == run;
  }

  // ---------------------------------------------------------------- what reads return

  ghost predicate LockOk(s: State, q: nat)
    requires Shape(s) && q < NPROC
  {
    HasLock(s.pc[q]) <==> s.lock == By(q)
  }

  ghost predicate Locked(s: State)
  {
    Shape(s) && (s.lock.By? ==> s.lock.p < NPROC) && forall q: nat :: q < NPROC ==> LockOk(s, q)
  }

  lemma LockKeeps(s: State, a: Action, q: nat)
    requires Enabled(s, a) && q < NPROC && LockOk(s, q) && LockOk(s, a.p)
    ensures Shape(Perform(s, a)) && LockOk(Perform(s, a), q)
  {
  }

  lemma LockedKeeps(s: State, a: Action)
    requires Locked(s) && Enabled(s, a)
    ensures Locked(Perform(s, a))
  {
    hide LockOk;
    var t := Perform(s, a);
    forall q: nat | q < NPROC ensures Shape(t) && LockOk(t, q) {
      assert LockOk(s, q) && LockOk(s, a.p);
      LockKeeps(s, a, q);
    }
  }

  /** What the read in progress will return so far. */
  function Pending(s: State): nat
  {
    if s.lock.By? && s.lock.p < |s.pc| && s.pc[s.lock.p].Copying? then s.pc[s.lock.p].i else 0
  }

  function Failed(a: Action): nat { if a.Take? && !a.ok then 1 else 0 }

  /** The copyouts that failed in a run. */
  ghost function Failures(run: seq<Action>): nat
  {
    if run == [] then 0 else Failed(run[0]) + Failures(run[1..])
  }

  lemma CountStep(s: State, a: Action)
    requires Locked(s) && Enabled(s, a)
    ensures var t := Perform(s, a);
            |t.got| - t.reported - Pending(t) == |s.got| - s.reported - Pending(s) + Failed(a)
  {
    assert LockOk(s, a.p);
  }

  lemma {:induction false} RunCount(s: State, run: seq<Action>)
    requires Locked(s) && Legal(s, run)
    ensures var t := Run(s, run);
            Locked(t) && |t.got| - t.reported - Pending(t) == |s.got| - s.reported - Pending(s) + Failures(run)
    decreases |run|
  {
    hide Locked, Enabled, Perform, Pending, Failed;
    if run != [] {
      CountStep(s, run[0]);
      LockedKeeps(s, run[0]);
      RunCount(Perform(s, run[0]), run[1..]);
    }
  }

  /** In every run the bytes that came out are those that reads reported plus one for each copyout that failed; so
      nothing is lost if and only if no copyout failed. */
  lemma ReportedIff(run: seq<Action>)
    requires Legal(Initial(), run)
    ensures var t := Run(Initial(), run);
            && |t.got| == t.reported + Pending(t) + Failures(run)
            && (|t.got| == t.reported + Pending(t) <==> Failures(run) == 0)
            && (t.lock.NoOne? ==> Pending(t) == 0)
  {
    hide Run, Legal;
    RunCount(Initial(), run);
  }

  // ---------------------------------------------------------------- what one call returns

  /** The last read or write that a process called: the bytes asked for, those moved so far, and whether a copyout
      failed. */
  datatype Call = NoCall | Read(n: nat, moved: nat, failed: bool) | Write(n: nat, moved: nat)

  function Note(calls: seq<Call>, a: Action): seq<Call>
  {
    if a.p >= |calls| then calls
    else
      var call := calls[a.p];
      match a
      case StartRead(p, n) => calls[p := Read(n, 0, false)]
      case StartWrite(p, n) => calls[p := Write(n, 0)]
      case Take(p, ok) =>
        if !call.Read? then calls
        else calls[p := if ok then Read(call.n, call.moved + 1, call.failed) else Read(call.n, call.moved, true)]
      case Put(p, _) => if call.Write? then calls[p := Write(call.n, call.moved + 1)] else calls
      case _ => calls
  }

  ghost function Noted(run: seq<Action>, calls: seq<Call>): seq<Call>
    decreases |run|
  {
    if run == [] then calls else Noted(run[1..], Note(calls, run[0]))
  }

  /** The calls in progress at the end of a run, as its steps tell them. */
  ghost function Calls(run: seq<Action>): seq<Call> { Noted(run, seq(NPROC, _ => NoCall)) }

  /** Where a process is agrees with its call. */
  predicate Agrees(pc: Pc, call: Call)
  {
    match pc
    case Idle => true
    case RWant(n) => call == Read(n, 0, false)
    case Reading(n) => call == Read(n, 0, false)
    case RSleep(n) => call == Read(n, 0, false)
    case Copying(n, i) => call.Read? && call.moved == i && if call.failed then n == 0 && i < call.n else i + n == call.n
    case WWant(n) => call.Write? && call.moved + n == call.n
    case Writing(n, _) => call.Write? && call.moved + n == call.n
    case WSleep(n) => call.Write? && call.moved + n == call.n
  }

  ghost predicate AllAgree(s: State, calls: seq<Call>)
  {
    Shape(s) && |calls| == NPROC && forall q: nat :: q < NPROC ==> Agrees(s.pc[q], calls[q])
  }

  lemma AgreesStep(s: State, calls: seq<Call>, a: Action, q: nat)
    requires Enabled(s, a) && |calls| == NPROC && q < NPROC && Agrees(s.pc[q], calls[q])
    ensures Shape(Perform(s, a)) && |Note(calls, a)| == NPROC && Agrees(Perform(s, a).pc[q], Note(calls, a)[q])
  {
    hide IsReader, IsWriter;
  }

  lemma {:induction false} RunAgrees(s: State, calls: seq<Call>, run: seq<Action>)
    requires AllAgree(s, calls) && Legal(s, run)
    ensures AllAgree(Run(s, run), Noted(run, calls))
    decreases |run|
  {
    hide Enabled, Perform, Note, Agrees;
    if run != [] {
      var t, after := Perform(s, run[0]), Note(calls, run[0]);
      forall q: nat | q < NPROC ensures Shape(t) && |after| == NPROC && Agrees(t.pc[q], after[q]) {
        AgreesStep(s, calls, run[0], q);
      }
      assert Shape(t) && |after| == NPROC by { AgreesStep(s, calls, run[0], 0); }
      RunAgrees(t, after, run[1..]);
    }
  }

  lemma CallsAgree(run: seq<Action>, p: nat)
    requires Legal(Initial(), run) && p < NPROC
    ensures Shape(Run(Initial(), run)) && |Calls(run)| == NPROC && Agrees(Run(Initial(), run).pc[p], Calls(run)[p])
  {
    hide Run, Legal, Noted;
    RunAgrees(Initial(), seq(NPROC, _ => NoCall), run);
  }

  /** In every run a read that returns reports the bytes it has copied out. It reports fewer than it was asked for
      only when a copyout of its own failed or the pipe is empty. */
  lemma ReadReturns(run: seq<Action>, p: nat)
    requires Legal(Initial(), run) && Enabled(Run(Initial(), run), RDone(p))
    ensures var t := Run(Initial(), run);
            && p < |Calls(run)| && Calls(run)[p].Read?
            && var call, r := Calls(run)[p], Perform(t, RDone(p)).reported - t.reported;
               && r == call.moved <= call.n && (call.failed ==> r < call.n)
               && (r < call.n ==> call.failed || |Fed(run)| == |t.got|)
  {
    hide Run, Legal, Fed;
    CallsAgree(run, p);
    FirstInFirstOut(run);
    var t := Run(Initial(), run);
    Counters(|t.got|, |t.put|);
    InitialInv();
    RunFifo(Initial(), run);
  }

  /** In every run a write that is done, or that sleeps or gives up, has put in what it was asked for except what it
      still has to go, so the count it returns is the count of its own bytes. */
  lemma WriteMoves(run: seq<Action>, p: nat)
    requires Legal(Initial(), run) && p < NPROC && Shape(Run(Initial(), run)) && IsWriter(Run(Initial(), run).pc[p])
    ensures var pc := Run(Initial(), run).pc[p];
            && p < |Calls(run)| && Calls(run)[p].Write?
            && Calls(run)[p].moved == Calls(run)[p].n - pc.n
  {
    hide Run, Legal;
    CallsAgree(run, p);
  }
}
