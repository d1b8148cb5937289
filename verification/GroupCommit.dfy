/** begin_op, log_write, end_op, commit, crashes and recovery as interleaved steps of many
    processes. Commit and recovery write one block per step, so a crash can fall between any two. */
module GroupCommit {
  import opened Bytes
  import opened RedoLog
  import opened LogDevice

  type Pid = nat

  datatype Event = Begun(p: Pid) | Wrote(p: Pid, b: nat, data: Block) | Ended(p: Pid)

  /** An operation between its begin_op and its end_op, with the distinct blocks it has logged. */
  datatype Op = Op(p: Pid, logged: set<nat>)

  /** What the log is doing. A commit or a recovery remembers the disk it started from and
      how many of its writes are done. */
  datatype Phase = Running | Committing(start: Disk, done: nat) | Recovering(start: Disk, done: nat)

  /** `events` is the history of the file system since `base`; the first `saved` events are on disk. */
  datatype State = State(
    area: Area, base: Disk, disk: Disk, pending: map<nat, Block>, home: seq<nat>,
    outstanding: nat, ops: seq<Op>, phase: Phase, events: seq<Event>, saved: nat)

  datatype Action =
    | BeginOp(p: Pid)
    | LogWrite(i: nat, b: nat, data: Block)
    | EndOp(i: nat)
    | CommitWrite
    | CommitDone
    | Crash
    | RecoverWrite
    | RecoverDone

  /** A recovered disk, and nothing begun. */
  ghost predicate Booted(s: State)
  {
    && Clean(s.area, s.disk) && s.base == s.disk && s.pending == map[] && s.home == []
    && s.outstanding == 0 && s.ops == [] && s.phase == Running && s.events == [] && s.saved == 0
  }

  // ---------------------------------------------------------------- reservations

  /** Log slots that the operations in progress may still fill. */
  function Unused(ops: seq<Op>): int
  {
    if ops == [] then 0 else MAXOPBLOCKS - |ops[0].logged| + Unused(ops[1..])
  }

  lemma {:induction false} UnusedConcat(u: seq<Op>, v: seq<Op>)
    ensures Unused(u + v) == Unused(u) + Unused(v)
  {
    if u == [] {
      assert u + v == v;
    } else {
      assert (u + v)[0] == u[0] && (u + v)[1..] == u[1..] + v;
      UnusedConcat(u[1..], v);
    }
  }

  lemma UnusedAt(ops: seq<Op>, i: nat)
    requires i < |ops|
    ensures Unused(ops) == Unused(ops[..i]) + MAXOPBLOCKS - |ops[i].logged| + Unused(ops[i + 1..])
  {
    assert ops == ops[..i] + ([ops[i]] + ops[i + 1..]);
    UnusedConcat(ops[..i], [ops[i]] + ops[i + 1..]);
    UnusedConcat([ops[i]], ops[i + 1..]);
  }

  lemma {:induction false} UnusedBounds(ops: seq<Op>)
    ensures Unused(ops) <= |ops| * MAXOPBLOCKS
    ensures (forall i :: 0 <= i < |ops| ==> |ops[i].logged| <= MAXOPBLOCKS) ==> Unused(ops) >= 0
  {
    if ops != [] {
      UnusedBounds(ops[1..]);
    }
  }

  /** The reservation invariant: what is logged plus what may still be logged fits the log. */
  ghost predicate Space(s: State)
  {
    && s.outstanding == |s.ops|
    && (s.phase.Running? || s.ops == [])
    && |s.home| + Unused(s.ops) <= LOGSIZE
    && |s.home| < s.area.size
    && (forall i :: 0 <= i < |s.ops| ==> s.ops[i].logged <= Elems(s.home) && |s.ops[i].logged| <= MAXOPBLOCKS)
    && (forall i, j :: 0 <= i < j < |s.ops| ==> s.ops[i].p != s.ops[j].p)
  }

  // ---------------------------------------------------------------- history

  /** The processes with an operation in progress, one event later. */
  function NextActive(a: set<Pid>, e: Event): set<Pid>
  {
    match e
    case Begun(p) => a + {p}
    case Wrote(_, _, _) => a
    case Ended(p) => a - {p}
  }

  /** A process runs one operation at a time, and writes and ends only inside it. */
  predicate Follows(a: set<Pid>, e: Event) { e.p in a <==> !e.Begun? }

  function Active(evs: seq<Event>): set<Pid>
  {
    if evs == [] then {} else NextActive(Active(evs[..|evs| - 1]), evs[|evs| - 1])
  }

  ghost predicate WellFormed(evs: seq<Event>)
  {
    forall i :: 0 <= i < |evs| ==> Follows(Active(evs[..i]), evs[i])
  }

  function Pids(ops: seq<Op>): set<Pid> { set i | 0 <= i < |ops| :: ops[i].p }

  ghost predicate Recorded(s: State)
  {
    && WellFormed(s.events) && Active(s.events) == Pids(s.ops)
    && s.saved <= |s.events| && Active(s.events[..s.saved]) == {}
  }

  predicate InDisk(base: Disk, evs: seq<Event>)
  {
    forall i :: 0 <= i < |evs| && evs[i].Wrote? ==> evs[i].b < |base|
  }

  /** The file system that results from the writes in these events. */
  function Replay(base: Disk, evs: seq<Event>): (d: Disk)
    requires InDisk(base, evs)
    ensures |d| == |base|
  {
    if evs == [] then base
    else
      var d := Replay(base, evs[..|evs| - 1]);
      var e := evs[|evs| - 1];
      if e.Wrote? then d[e.b := e.data] else d
  }

  // ---------------------------------------------------------------- disk contents

  function Contents(pending: map<nat, Block>, home: seq<nat>): (c: seq<Block>)
    requires forall i :: 0 <= i < |home| ==> home[i] in pending
    ensures |c| == |home|
  {
    seq(|home|, i requires 0 <= i < |home| => pending[home[i]])
  }

  ghost predicate Shape(s: State)
  {
    && s.area.Fits(s.home, |s.disk|) && |s.base| == |s.disk|
    && s.pending.Keys == Elems(s.home)
    && InDisk(s.base, s.events) && s.saved <= |s.events|
    && match s.phase
       case Running => true
       case Committing(d, k) => |d| == |s.disk| && k <= |Queue(s, d)|
       case Recovering(d, k) => |d| == |s.disk| && Replayable(s.area, d) && k <= |RecoverWrites(s.area, d)|
  }

  /** The writes of the commit that started at disk `d`; a commit of an empty log writes nothing. */
  function Queue(s: State, d: Disk): seq<Write>
    requires s.area.Fits(s.home, |d|) && s.pending.Keys == Elems(s.home)
  {
    if s.home == [] then [] else CommitWrites(s.area, d[s.area.start], s.home, Contents(s.pending, s.home))
  }

  /** Every block outside the log durably holds what the events wrote. */
  ghost predicate Holds(a: Area, d: Disk, base: Disk, evs: seq<Event>)
    requires Replayable(a, d) && |d| == |base| && InDisk(base, evs)
  {
    forall b :: 0 <= b < |d| && !a.Has(b) ==> Durable(a, d, b) == Replay(base, evs)[b]
  }

  /** Disk `d` overlaid with the pending buffers is what the events wrote. */
  ghost predicate Shows(s: State, d: Disk)
    requires Shape(s) && |d| == |s.disk|
  {
    forall b :: 0 <= b < |d| && !s.area.Has(b) ==>
      (if b in s.pending then s.pending[b] else d[b]) == Replay(s.base, s.events)[b]
  }

  ghost predicate Data(s: State)
    requires Shape(s)
  {
    match s.phase
    case Running => Clean(s.area, s.disk) && Shows(s, s.disk) && Holds(s.area, s.disk, s.base, s.events[..s.saved])
    case Committing(d, k) =>
      && Clean(s.area, d) && Shows(s, d) && InRange(Queue(s, d), |d|) && s.disk == Apply(d, Queue(s, d)[..k])
      && (if k <= |s.home| then Holds(s.area, d, s.base, s.events[..s.saved]) else s.saved == |s.events|)
    case Recovering(d, k) =>
      && s.home == [] && s.saved == |s.events| && Holds(s.area, d, s.base, s.events)
      && InRange(RecoverWrites(s.area, d), |d|) && s.disk == Apply(d, RecoverWrites(s.area, d)[..k])
  }

  ghost predicate Inv(s: State)
  {
    Shape(s) && Space(s) && Recorded(s) && Data(s)
  }

  // ---------------------------------------------------------------- steps

  /** log_write does not panic. */
  predicate Room(s: State) { |s.home| < LOGSIZE && |s.home| < s.area.size - 1 }

  ghost predicate Enabled(s: State, act: Action)
    requires Shape(s)
  {
    match act
    case BeginOp(p) => p !in Pids(s.ops) && !s.phase.Recovering?
        && CanBegin(s.phase.Committing?, |s.home|, s.outstanding)
    case LogWrite(i, b, _) =>
      && i < |s.ops| && b < |s.disk| && !s.area.Has(b) && b < WORD
      && |s.ops[i].logged + {b}| <= MAXOPBLOCKS && Room(s)
    case EndOp(i) => i < |s.ops| && s.outstanding > 0
    case CommitWrite => s.phase.Committing? && s.phase.done < |Queue(s, s.phase.start)|
    case CommitDone => s.phase.Committing? && s.phase.done == |Queue(s, s.phase.start)|
    case Crash => true
    case RecoverWrite => s.phase.Recovering? && s.phase.done < |RecoverWrites(s.area, s.phase.start)|
    case RecoverDone => s.phase.Recovering? && s.phase.done == |RecoverWrites(s.area, s.phase.start)|
  }

  function Put(d: Disk, w: Write): Disk { if w.bno < |d| then d[w.bno := w.data] else d }

  ghost function Perform(s: State, act: Action): State
    requires Shape(s) && Enabled(s, act)
  {
    match act
    case BeginOp(p) =>
      s.(ops := s.ops + [Op(p, {})], outstanding := s.outstanding + 1, events := s.events + [Begun(p)])
    case LogWrite(i, b, data) =>
      var o := s.ops[i];
      s.(pending := s.pending[b := data], home := Absorb(s.home, b),
         ops := s.ops[i := o.(logged := o.logged + {b})], events := s.events + [Wrote(o.p, b, data)])
    case EndOp(i) =>
      s.(ops := s.ops[..i] + s.ops[i + 1..], outstanding := s.outstanding - 1,
         events := s.events + [Ended(s.ops[i].p)],
         phase := if s.outstanding - 1 == 0 then Committing(s.disk, 0) else s.phase)
    case CommitWrite =>
      s.(disk := Put(s.disk, Queue(s, s.phase.start)[s.phase.done]),
         phase := Committing(s.phase.start, s.phase.done + 1),
         saved := if s.phase.done == |s.home| then |s.events| else s.saved)
    case CommitDone => s.(pending := map[], home := [], phase := Running, saved := |s.events|)
    case Crash =>
      s.(pending := map[], home := [], outstanding := 0, ops := [],
         events := s.events[..s.saved], phase := Recovering(s.disk, 0))
    case RecoverWrite =>
      s.(disk := Put(s.disk, RecoverWrites(s.area, s.phase.start)[s.phase.done]),
         phase := Recovering(s.phase.start, s.phase.done + 1))
    case RecoverDone => s.(phase := Running)
  }

  // ---------------------------------------------------------------- every step keeps the reservations

  lemma ElemsCard(home: seq<nat>)
    requires forall i, j :: 0 <= i < j < |home| ==> home[i] != home[j]
    ensures |Elems(home)| == |home|
  {
    if home != [] {
      var init := home[..|home| - 1];
      ElemsCard(init);
      assert Elems(home) == Elems(init) + {home[|home| - 1]};
    }
  }

  lemma SpaceBegin(s: State, p: Pid)
    requires Shape(s) && Space(s) && Enabled(s, BeginOp(p))
    ensures Space(Perform(s, BeginOp(p)))
  {
    UnusedConcat(s.ops, [Op(p, {})]);
    UnusedBounds(s.ops);
    assert Unused([Op(p, {})]) == MAXOPBLOCKS;
  }

  lemma SpaceWrite(s: State, i: nat, b: nat, data: Block)
    requires Shape(s) && Space(s) && Enabled(s, LogWrite(i, b, data))
    ensures Space(Perform(s, LogWrite(i, b, data)))
  {
    hide Queue, RecoverWrites, Replayable, InDisk, Area.Fits, Unused;
    var t := Perform(s, LogWrite(i, b, data));
    UnusedAt(s.ops, i);
    UnusedAt(t.ops, i);
    assert t.ops[..i] == s.ops[..i] && t.ops[i + 1..] == s.ops[i + 1..];
    AbsorbElems(s.home, b);
    assert b !in s.home ==> b !in s.ops[i].logged;
    hide Elems, From, Unused;
  }

  lemma SpaceEnd(s: State, i: nat)
    requires Shape(s) && Space(s) && Enabled(s, EndOp(i))
    ensures Space(Perform(s, EndOp(i)))
  {
    hide From, Queue, RecoverWrites, Replayable, InDisk;
    UnusedAt(s.ops, i);
    UnusedConcat(s.ops[..i], s.ops[i + 1..]);
  }

  lemma SpaceKept(s: State, act: Action)
    requires Shape(s) && Space(s) && Enabled(s, act)
    ensures Space(Perform(s, act))
  {
    match act
    case BeginOp(p) => SpaceBegin(s, p);
    case LogWrite(i, b, data) => SpaceWrite(s, i, b, data);
    case EndOp(i) => SpaceEnd(s, i);
    case _ =>
  }

  // ---------------------------------------------------------------- every step keeps the history

  lemma {:induction false} Extend(evs: seq<Event>, e: Event)
    requires WellFormed(evs)
    requires Follows(Active(evs), e)
    ensures WellFormed(evs + [e]) && Active(evs + [e]) == NextActive(Active(evs), e)
    ensures forall k :: 0 <= k <= |evs| ==> (evs + [e])[..k] == evs[..k]
  {
    var all := evs + [e];
    assert all[..|evs|] == evs;
    forall i | 0 <= i < |all| ensures Follows(Active(all[..i]), all[i]) {
      assert all[..i] == evs[..i];
    }
  }

  lemma PidsOf(ops: seq<Op>, i: nat, o: Op)
    requires i < |ops| && forall i, j :: 0 <= i < j < |ops| ==> ops[i].p != ops[j].p
    ensures Pids(ops[..i] + ops[i + 1..]) == Pids(ops) - {ops[i].p}
    ensures o.p == ops[i].p ==> Pids(ops[i := o]) == Pids(ops)
    ensures ops[i].p in Pids(ops)
  {
    var rest := ops[..i] + ops[i + 1..];
    forall x | x in Pids(ops) - {ops[i].p} ensures x in Pids(rest) {
      var j :| 0 <= j < |ops| && ops[j].p == x;
      assert rest[if j < i then j else j - 1] == ops[j];
    }
    forall x | x in Pids(rest) ensures x in Pids(ops) - {ops[i].p} {
      var j :| 0 <= j < |rest| && rest[j].p == x;
      var k := if j < i then j else j + 1;
      assert rest[j] == ops[k] && k != i;
    }
    if o.p == ops[i].p {
      forall x | x in Pids(ops) ensures x in Pids(ops[i := o]) {
        var j :| 0 <= j < |ops| && ops[j].p == x;
        assert ops[i := o][j].p == x;
      }
    }
  }

  lemma RecordedEvent(s: State, t: State, e: Event)
    requires Recorded(s) && Follows(Active(s.events), e) && t.events == s.events + [e] && t.saved == s.saved
    requires Pids(t.ops) == NextActive(Pids(s.ops), e)
    ensures Recorded(t)
  {
    Extend(s.events, e);
    hide Active, WellFormed, Pids;
  }

  lemma RecordedQuiet(s: State, t: State)
    requires Recorded(s) && t.ops == []
    requires (t.events == s.events && s.ops == [] && (t.saved == s.saved || t.saved == |s.events|))
             || (t.events == s.events[..s.saved] && t.saved == s.saved)
    ensures Recorded(t)
  {
    PrefixWellFormed(s.events, s.saved);
    NoPids();
    assert s.events[..|s.events|] == s.events;
    assert s.events[..s.saved][..s.saved] == s.events[..s.saved];
    hide Active, WellFormed, Pids;
  }

  lemma RecordedKept(s: State, act: Action)
    requires Shape(s) && Space(s) && Recorded(s) && Enabled(s, act)
    ensures Recorded(Perform(s, act))
  {
    var t := Perform(s, act);
    match act
    case BeginOp(p) =>
      PidsPush(s.ops, Op(p, {}));
      RecordedEvent(s, t, Begun(p));
    case LogWrite(i, b, data) =>
      PidsOf(s.ops, i, t.ops[i]);
      RecordedEvent(s, t, Wrote(s.ops[i].p, b, data));
    case EndOp(i) =>
      PidsOf(s.ops, i, s.ops[i]);
      RecordedEvent(s, t, Ended(s.ops[i].p));
    case _ =>
      RecordedQuiet(s, t);
  }

  lemma NoPids()
    ensures Pids([]) == {}
  {
  }

  lemma PidsPush(ops: seq<Op>, o: Op)
    ensures Pids(ops + [o]) == Pids(ops) + {o.p}
  {
    forall x | x in Pids(ops) + {o.p} ensures x in Pids(ops + [o]) {
      if x == o.p {
        assert (ops + [o])[|ops|].p == x;
      } else {
        var j :| 0 <= j < |ops| && ops[j].p == x;
        assert (ops + [o])[j].p == x;
      }
    }
  }

  lemma PrefixWellFormed(evs: seq<Event>, k: nat)
    requires WellFormed(evs) && k <= |evs|
    ensures WellFormed(evs[..k])
  {
    forall i | 0 <= i < k ensures evs[..k][..i] == evs[..i] {}
  }

  // ---------------------------------------------------------------- every step keeps the data

  lemma {:induction false} ReplayExtend(base: Disk, evs: seq<Event>, e: Event)
    requires InDisk(base, evs) && (e.Wrote? ==> e.b < |base|)
    ensures InDisk(base, evs + [e])
    ensures Replay(base, evs + [e]) == if e.Wrote? then Replay(base, evs)[e.b := e.data] else Replay(base, evs)
    ensures forall k :: 0 <= k <= |evs| ==> (evs + [e])[..k] == evs[..k]
  {
    assert (evs + [e])[..|evs|] == evs;
  }

  lemma DataBegin(s: State, p: Pid)
    requires Shape(s) && Data(s) && Enabled(s, BeginOp(p))
    ensures Shape(Perform(s, BeginOp(p))) && Data(Perform(s, BeginOp(p)))
  {
    ReplayExtend(s.base, s.events, Begun(p));
    hide Replay, Durable, Space, Recorded, From, Queue, Holds;
  }

  lemma AbsorbFits(a: Area, home: seq<nat>, b: nat, n: nat)
    requires a.Fits(home, n) && b < n && !a.Has(b) && b < WORD
    requires |home| < LOGSIZE && |home| < a.size - 1
    ensures a.Fits(Absorb(home, b), n)
  {
  }

  lemma ShapeWrite(s: State, i: nat, b: nat, data: Block)
    requires Inv(s) && Enabled(s, LogWrite(i, b, data))
    ensures Shape(Perform(s, LogWrite(i, b, data)))
  {
    hide Replay, Data, Recorded, Absorb, Area.Fits, InDisk, Queue, Replayable, Unused, From, RecoverWrites;
    assert s.phase.Running?;
    AbsorbElems(s.home, b);
    AbsorbFits(s.area, s.home, b, |s.disk|);
    InDiskMore(s.base, s.events, Wrote(s.ops[i].p, b, data));
    assert s.pending[b := data].Keys == s.pending.Keys + {b};
  }

  lemma InDiskMore(base: Disk, evs: seq<Event>, e: Event)
    requires InDisk(base, evs) && (e.Wrote? ==> e.b < |base|)
    ensures InDisk(base, evs + [e])
  {
  }

  lemma ShowsWrite(s: State, t: State, d: Disk, b: nat, data: Block)
    requires Shape(s) && Shape(t) && |d| == |s.disk| && Shows(s, d) && b < |d|
    requires t.area == s.area && t.disk == s.disk && t.pending == s.pending[b := data]
    requires Replay(t.base, t.events) == Replay(s.base, s.events)[b := data]
    ensures Shows(t, d)
  {
    hide Replay, Queue, RecoverWrites, Area.Fits, From;
  }

  lemma DataWrite(s: State, i: nat, b: nat, data: Block)
    requires Inv(s) && Enabled(s, LogWrite(i, b, data))
    ensures Shape(Perform(s, LogWrite(i, b, data))) && Data(Perform(s, LogWrite(i, b, data)))
  {
    ShapeWrite(s, i, b, data);
    ReplayExtend(s.base, s.events, Wrote(s.ops[i].p, b, data));
    assert s.phase.Running?;
    ShowsWrite(s, Perform(s, LogWrite(i, b, data)), s.disk, b, data);
    hide Replay, Shows, Holds, Clean;
  }

  lemma QueueInRange(s: State, d: Disk)
    requires Shape(s) && Clean(s.area, d) && |d| == |s.disk|
    ensures InRange(Queue(s, d), |d|)
  {
    if s.home != [] {
      CommitTail(s.area, d, s.home, Contents(s.pending, s.home));
    }
  }

  lemma DataEnd(s: State, i: nat)
    requires Inv(s) && Enabled(s, EndOp(i))
    ensures Shape(Perform(s, EndOp(i))) && Data(Perform(s, EndOp(i)))
  {
    hide Replay, Durable, IndexOf, DecodeHead, GoodCount, EncodeHead;
    ReplayExtend(s.base, s.events, Ended(s.ops[i].p));
    QueueInRange(s, s.disk);
    hide Replay, Durable, Recorded, From, CommitWrites, Area.Fits, Holds;
  }

  /** What the disk durably holds in the middle of a commit. */
  lemma CommitHolds(s: State)
    requires Shape(s) && Data(s) && s.phase.Committing?
    ensures Replayable(s.area, s.disk) && Holds(s.area, s.disk, s.base, s.events[..s.saved])
    ensures s.phase.done == |Queue(s, s.phase.start)| ==>
              Clean(s.area, s.disk) && Holds(s.area, s.disk, s.base, s.events)
  {
    var d, k := s.phase.start, s.phase.done;
    var data := Contents(s.pending, s.home);
    assert s.events[..|s.events|] == s.events;
    if s.home == [] {
      assert Queue(s, d)[..k] == [];
      CleanHolds(s, d);
    } else {
      CommitCrash(s.area, d, s.home, data, k);
      if k <= |s.home| {
        HoldsSame(s.area, d, s.disk, s.base, s.events[..s.saved]);
      } else {
        CommittedHolds(s, d);
      }
    }
  }

  lemma CleanHolds(s: State, d: Disk)
    requires Shape(s) && |d| == |s.disk| && Clean(s.area, d) && Shows(s, d) && s.home == []
    ensures Holds(s.area, d, s.base, s.events)
  {
    hide Replay;
  }

  lemma HoldsSame(a: Area, d: Disk, e: Disk, base: Disk, evs: seq<Event>)
    requires Replayable(a, d) && Replayable(a, e) && |d| == |base| && InDisk(base, evs)
    requires Holds(a, d, base, evs) && SameDurable(a, e, d)
    ensures Holds(a, e, base, evs)
  {
    hide Replay, Durable;
  }

  lemma CommittedHolds(s: State, d: Disk)
    requires Shape(s) && |d| == |s.disk| && Shows(s, d)
    requires Committed(s.area, d, s.home, Contents(s.pending, s.home), s.disk)
    ensures Holds(s.area, s.disk, s.base, s.events)
  {
    hide Replay, Durable, Replayable;
    forall b | 0 <= b < |d| && !s.area.Has(b)
      ensures After(d, s.home, Contents(s.pending, s.home), b) == if b in s.pending then s.pending[b] else d[b]
    {
      var i := IndexOf(s.home, b);
      if i < |s.home| {
        assert s.home[i] in Elems(s.home);
      }
    }
  }

  lemma CommitWriteShape(s: State)
    requires Shape(s) && Data(s) && Enabled(s, CommitWrite)
    ensures var d, k := s.phase.start, s.phase.done;
            var t, w := Perform(s, CommitWrite), Queue(s, d)[k];
            && w.bno < |s.disk| && |s.disk| == |d|
            && t == s.(disk := s.disk[w.bno := w.data], phase := Committing(d, k + 1),
                       saved := if k == |s.home| then |s.events| else s.saved)
            && Shape(t) && Queue(t, d) == Queue(s, d)
  {
    hide Replay, Holds, Shows, Clean, Apply, Area.Fits, From, RecoverWrites, CommitWrites, Contents, InDisk, Replayable;
  }

  lemma DataCommitWrite(s: State)
    requires Shape(s) && Data(s) && Enabled(s, CommitWrite)
    ensures Shape(Perform(s, CommitWrite)) && Data(Perform(s, CommitWrite))
  {
    hide Replay, Holds, Clean, Queue, Apply, Area.Fits, From, Shows, Perform, RecoverWrites, InDisk;
    var d, k := s.phase.start, s.phase.done;
    var t := Perform(s, CommitWrite);
    CommitWriteShape(s);
    ApplyNext(d, Queue(s, d), k);
    ShowsSame(s, t, d);
  }

  lemma ShowsSame(s: State, t: State, d: Disk)
    requires Shape(s) && Shape(t) && |d| == |s.disk| && Shows(s, d)
    requires t.area == s.area && |t.disk| == |s.disk| && t.pending == s.pending && t.base == s.base
    requires t.events == s.events
    ensures Shows(t, d)
  {
  }

  lemma DataCommitDone(s: State)
    requires Shape(s) && Data(s) && Enabled(s, CommitDone)
    ensures Shape(Perform(s, CommitDone)) && Data(Perform(s, CommitDone))
  {
    hide Replay, Holds, Clean, Queue, Apply, Shows, RecoverWrites, Replayable;
    CommitHolds(s);
    var t := Perform(s, CommitDone);
    assert t.events[..t.saved] == s.events;
    CommitDoneShape(s);
    HoldsShows(t);
  }

  lemma CommitDoneShape(s: State)
    requires Shape(s) && Enabled(s, CommitDone)
    ensures Shape(Perform(s, CommitDone))
  {
    hide Replay, Holds, Clean, Queue, Apply, Shows, RecoverWrites;
  }

  lemma HoldsShows(s: State)
    requires Shape(s) && s.home == [] && Clean(s.area, s.disk) && Holds(s.area, s.disk, s.base, s.events)
    ensures Shows(s, s.disk)
  {
    hide Replay, Queue, RecoverWrites;
  }

  /** In every state, replaying the log would yield exactly the saved events. */
  lemma DurableNow(s: State)
    requires Shape(s) && Data(s)
    ensures Replayable(s.area, s.disk) && Holds(s.area, s.disk, s.base, s.events[..s.saved])
  {
    match s.phase
    case Running =>
    case Committing(_, _) => CommitHolds(s);
    case Recovering(d, k) =>
      RecoveryCrash(s.area, d, k);
      HoldsSame(s.area, d, s.disk, s.base, s.events);
      assert s.events[..s.saved] == s.events;
  }

  lemma DataCrash(s: State)
    requires Shape(s) && Data(s) && Enabled(s, Crash)
    ensures Shape(Perform(s, Crash)) && Data(Perform(s, Crash))
  {
    hide Replay, Durable, IndexOf, DecodeHead, GoodCount, EncodeHead;
    DurableNow(s);
    RecoveryCrash(s.area, s.disk, 0);
    assert RecoverWrites(s.area, s.disk)[..0] == [];
    assert Apply(s.disk, []) == s.disk;
    assert s.events[..s.saved][..s.saved] == s.events[..s.saved];
    var t := Perform(s, Crash);
    assert t == s.(pending := map[], home := [], outstanding := 0, ops := [],
                   events := s.events[..s.saved], phase := Recovering(s.disk, 0));
    assert Elems([]) == {};
    hide Replay, Holds, Queue, Perform, Enabled, RecoverWrites, From, Apply;
    assert s.disk == Apply(s.disk, RecoverWrites(s.area, s.disk)[..0]);
  }

  lemma DataRecoverWrite(s: State)
    requires Shape(s) && Data(s) && Enabled(s, RecoverWrite)
    ensures Shape(Perform(s, RecoverWrite)) && Data(Perform(s, RecoverWrite))
  {
    hide Replay, Durable, IndexOf, DecodeHead, GoodCount, EncodeHead;
    var d, k := s.phase.start, s.phase.done;
    var t := Perform(s, RecoverWrite);
    var w := RecoverWrites(s.area, d)[k];
    ApplyNext(d, RecoverWrites(s.area, d), k);
    assert t == s.(disk := s.disk[w.bno := w.data], phase := Recovering(d, k + 1));
    hide Replay, Holds, RecoverWrites, Apply, Replayable, Perform, Enabled, InRange;
    assert s.disk[w.bno := w.data] == Apply(d, RecoverWrites(s.area, d)[..k + 1]);
  }

  lemma DataRecoverDone(s: State)
    requires Shape(s) && Data(s) && Enabled(s, RecoverDone)
    ensures Shape(Perform(s, RecoverDone)) && Data(Perform(s, RecoverDone))
  {
    var d, k := s.phase.start, s.phase.done;
    RecoveryCrash(s.area, d, k);
    HoldsSame(s.area, d, s.disk, s.base, s.events);
    var t := Perform(s, RecoverDone);
    assert t.events[..t.saved] == s.events;
    HoldsShows(t);
    hide Replay, Holds, RecoverWrites, Apply, Shows;
  }

  /** Every step, a crash included, keeps the invariant. */
  lemma Preserved(s: State, act: Action)
    requires Inv(s) && Enabled(s, act)
    ensures Inv(Perform(s, act))
  {
    SpaceKept(s, act);
    RecordedKept(s, act);
    match act
    case BeginOp(p) => DataBegin(s, p);
    case LogWrite(i, b, data) => DataWrite(s, i, b, data);
    case EndOp(i) => DataEnd(s, i);
    case CommitWrite => DataCommitWrite(s);
    case CommitDone => DataCommitDone(s);
    case Crash => DataCrash(s);
    case RecoverWrite => DataRecoverWrite(s);
    case RecoverDone => DataRecoverDone(s);
  }

  // ---------------------------------------------------------------- whole runs

  ghost predicate Initial(s: State): (r: bool)
    ensures r ==> Inv(s)
  {
    Booted(s) && (BootedInv(s); true)
  }

  lemma BootedInv(s: State)
    requires Booted(s)
    ensures Inv(s)
  {
    assert s.events[..0] == [];
    NoPids();
  }

  /** A run: each action is enabled in the state the earlier ones lead to. */
  ghost predicate Legal(s: State, acts: seq<Action>)
    requires Inv(s)
    decreases |acts|
  {
    acts == [] || (Enabled(s, acts[0]) && (Preserved(s, acts[0]); Legal(Perform(s, acts[0]), acts[1..])))
  }

  ghost function Run(s: State, acts: seq<Action>): (t: State)
    requires Inv(s) && Legal(s, acts)
    ensures Inv(t)
    decreases |acts|
  {
    if acts == [] then s
    else Preserved(s, acts[0]); Run(Perform(s, acts[0]), acts[1..])
  }

  /** State `t` still has, as durable, everything that was durable in `s`. */
  ghost predicate KeepsSaved(s: State, t: State)
  {
    && t.area == s.area && t.base == s.base
    && s.saved <= |s.events| && s.saved <= t.saved <= |t.events| && t.events[..s.saved] == s.events[..s.saved]
  }

  lemma KeepsSavedTrans(s: State, u: State, t: State)
    requires KeepsSaved(s, u) && KeepsSaved(u, t)
    ensures KeepsSaved(s, t)
  {
    assert t.events[..s.saved] == t.events[..u.saved][..s.saved];
    assert u.events[..s.saved] == u.events[..u.saved][..s.saved];
  }

  lemma SavedOnce(s: State, act: Action)
    requires Inv(s) && Enabled(s, act)
    ensures KeepsSaved(s, Perform(s, act))
  {
    hide Space, Data, Queue, RecoverWrites, Active, WellFormed;
  }

  /** Whatever was durable stays durable and unchanged, through any further run and its crashes. */
  lemma {:induction false} SavedForever(s: State, acts: seq<Action>)
    requires Inv(s) && Legal(s, acts)
    ensures KeepsSaved(s, Run(s, acts))
    decreases |acts|
  {
    hide KeepsSaved, Perform, Enabled;
    if acts == [] {
      SavedNow(s);
    } else {
      Preserved(s, acts[0]);
      var u := Perform(s, acts[0]);
      SavedOnce(s, acts[0]);
      SavedForever(u, acts[1..]);
      KeepsSavedTrans(s, u, Run(s, acts));
    }
  }

  lemma SavedNow(s: State)
    requires Shape(s)
    ensures KeepsSaved(s, s)
  {
  }

  /** Every operation that wrote something also ended. */
  ghost predicate WholeOps(evs: seq<Event>)
  {
    forall i :: 0 <= i < |evs| && evs[i].Wrote? ==> exists j :: i < j < |evs| && evs[j] == Ended(evs[i].p)
  }

  lemma {:induction false} StillActive(evs: seq<Event>, p: Pid, i: nat, n: nat)
    requires i <= n <= |evs| && p in Active(evs[..i])
    requires forall j :: i <= j < n ==> evs[j] != Ended(p)
    ensures p in Active(evs[..n])
  {
    if i < n {
      StillActive(evs, p, i, n - 1);
      assert evs[..n][..n - 1] == evs[..n - 1];
    }
  }

  lemma QuietIsWhole(evs: seq<Event>)
    requires WellFormed(evs) && Active(evs) == {}
    ensures WholeOps(evs)
  {
    assert evs[..|evs|] == evs;
    forall i | 0 <= i < |evs| && evs[i].Wrote?
      ensures exists j :: i < j < |evs| && evs[j] == Ended(evs[i].p)
    {
      if forall j :: i < j < |evs| ==> evs[j] != Ended(evs[i].p) {
        StillActive(evs, evs[i].p, i, |evs|);
      }
    }
  }

  // ---------------------------------------------------------------- the history as the calls made it

  /** The operations in progress with the blocks they have passed to log_write, and what has happened, as the calls of
      begin_op, log_write and end_op tell it. A crash forgets what was not saved. */
  datatype Story = Story(ops: seq<Op>, events: seq<Event>)

  function Tell(st: Story, act: Action, saved: nat): Story
  {
    match act
    case BeginOp(p) => Story(st.ops + [Op(p, {})], st.events + [Begun(p)])
    case LogWrite(i, b, data) =>
      if i < |st.ops| then
        Story(st.ops[i := Op(st.ops[i].p, st.ops[i].logged + {b})], st.events + [Wrote(st.ops[i].p, b, data)])
      else st
    case EndOp(i) =>
      if i < |st.ops| then Story(st.ops[..i] + st.ops[i + 1..], st.events + [Ended(st.ops[i].p)]) else st
    case Crash => Story([], if saved <= |st.events| then st.events[..saved] else st.events)
    case _ => st
  }

  ghost function Told(s: State, acts: seq<Action>, st: Story): Story
    requires Inv(s) && Legal(s, acts)
    decreases |acts|
  {
    if acts == [] then st
    else Preserved(s, acts[0]); Told(Perform(s, acts[0]), acts[1..], Tell(st, acts[0], s.saved))
  }

  lemma TellStep(s: State, act: Action)
    requires Inv(s) && Enabled(s, act)
    ensures Story(Perform(s, act).ops, Perform(s, act).events) == Tell(Story(s.ops, s.events), act, s.saved)
  {
    hide Space, Data, Queue, RecoverWrites, Active, WellFormed, Absorb;
  }

  lemma {:induction false} RunTold(s: State, acts: seq<Action>)
    requires Inv(s) && Legal(s, acts)
    ensures Story(Run(s, acts).ops, Run(s, acts).events) == Told(s, acts, Story(s.ops, s.events))
    decreases |acts|
  {
    hide Perform, Enabled, Tell, Shape, Space, Recorded, Data;
    if acts != [] {
      Preserved(s, acts[0]);
      TellStep(s, acts[0]);
      RunTold(Perform(s, acts[0]), acts[1..]);
    }
  }

  /** The history of a run. */
  ghost function History(s0: State, acts: seq<Action>): seq<Event>
    requires Inv(s0) && Legal(s0, acts)
  {
    Told(s0, acts, Story([], [])).events
  }

  lemma HistoryIs(s0: State, acts: seq<Action>)
    requires Initial(s0) && Legal(s0, acts)
    ensures Run(s0, acts).events == History(s0, acts) && Run(s0, acts).ops == Told(s0, acts, Story([], [])).ops
    ensures Run(s0, acts).saved <= |History(s0, acts)|
  {
    RunTold(s0, acts);
    assert Shape(Run(s0, acts));
  }

  /** Crash atomicity. Take any run of the log from a clean disk, with any interleaving of
      operations and any earlier crashes, and stop it anywhere. After any number of recoveries that
      themselves crash, and one that completes, the blocks outside the log hold exactly what the saved
      part of the history wrote, and that part consists of whole operations. */
  lemma CrashAtomicity(s0: State, acts: seq<Action>, crashes: seq<nat>)
    requires Initial(s0) && Legal(s0, acts)
    ensures var s, evs := Run(s0, acts), History(s0, acts);
            && Replayable(s.area, s.disk) && s.saved <= |evs|
            && var e := Recovered(s.area, CrashedRecoveries(s.area, s.disk, crashes));
               && InDisk(s0.disk, evs[..s.saved]) && |e| == |s0.disk| && s.area == s0.area
               && (forall b :: 0 <= b < |e| && !s.area.Has(b) ==> e[b] == Replay(s0.disk, evs[..s.saved])[b])
               && WholeOps(evs[..s.saved])
  {
    hide Told;
    var s := Run(s0, acts);
    HistoryIs(s0, acts);
    SavedForever(s0, acts);
    DurableNow(s);
    PrefixWellFormed(s.events, s.saved);
    QuietIsWhole(s.events[..s.saved]);
    hide Replay, Data, Space, Run, Legal;
  }

  /** When the last operation out has committed, everything it and its group did is durable for good. */
  lemma CommitIsDurable(s: State, acts: seq<Action>)
    requires Inv(s) && Enabled(s, CommitDone) && Inv(Perform(s, CommitDone)) && Legal(Perform(s, CommitDone), acts)
    ensures var t := Run(Perform(s, CommitDone), acts);
            |s.events| <= t.saved <= |t.events| && t.events[..|s.events|] == s.events && t.base == s.base
  {
    var u := Perform(s, CommitDone);
    SavedForever(u, acts);
    assert u.events[..u.saved] == s.events;
  }

  /** A commit runs only when no operation is in progress, so end_op never finds one running. */
  lemma CommitAlone(s0: State, acts: seq<Action>)
    requires Initial(s0) && Legal(s0, acts)
    ensures var s := Run(s0, acts);
            && (s.phase.Committing? ==> s.outstanding == 0)
            && (s.outstanding > 0 ==> s.phase.Running?)
            && |s.home| + Unused(s.ops) <= LOGSIZE
  {
  }

  /** With no operation in progress and no commit or recovery running, nothing is left to commit. */
  ghost predicate Settled(s: State) { s.phase.Running? && s.ops == [] ==> s.home == [] && s.saved == |s.events| }

  lemma SettledKeeps(s: State, act: Action)
    requires Inv(s) && Settled(s) && Enabled(s, act)
    ensures Settled(Perform(s, act))
  {
    hide Queue, RecoverWrites, Active, WellFormed, Holds, Shows, Clean, Apply, Unused;
  }

  lemma {:induction false} RunSettled(s: State, acts: seq<Action>)
    requires Inv(s) && Settled(s) && Legal(s, acts)
    ensures Settled(Run(s, acts))
    decreases |acts|
  {
    hide Perform, Enabled, Settled, Shape, Space, Recorded, Data;
    if acts != [] {
      Preserved(s, acts[0]);
      SettledKeeps(s, acts[0]);
      RunSettled(Perform(s, acts[0]), acts[1..]);
    }
  }

  /** In every run, when the last operation has ended and the commit that end_op starts is over, the whole history is
      durable and the log is empty. */
  lemma QuietIsDurable(s0: State, acts: seq<Action>)
    requires Initial(s0) && Legal(s0, acts)
    ensures var s := Run(s0, acts);
            s.phase.Running? && s.ops == [] ==> s.home == [] && s.saved == |History(s0, acts)|
  {
    hide Told, Run, Legal, Shape, Space, Recorded, Data;
    HistoryIs(s0, acts);
    RunSettled(s0, acts);
  }

  /** In every run, while no commit or recovery runs, a reader sees exactly what the history wrote: a block as the last
      log_write left it in its buffer, else as it is on disk. */
  lemma ReadersSee(s0: State, acts: seq<Action>, b: nat)
    requires Initial(s0) && Legal(s0, acts)
    ensures var s, evs := Run(s0, acts), History(s0, acts);
            s.phase.Running? && b < |s.disk| && !s.area.Has(b) ==>
              && InDisk(s0.disk, evs) && |s.disk| == |s0.disk|
              && (if b in s.pending then s.pending[b] else s.disk[b]) == Replay(s0.disk, evs)[b]
  {
    hide Told, Replay;
    HistoryIs(s0, acts);
    SavedForever(s0, acts);
    var s := Run(s0, acts);
    assert Inv(s);
  }

  // ---------------------------------------------------------------- log_write's capacity panic

  /** In every run, an operation with reservation left finds room, if the log area has more than
      LOGSIZE blocks. */
  lemma NoPanic(s0: State, acts: seq<Action>, i: nat)
    requires Initial(s0) && Legal(s0, acts) && s0.area.size > LOGSIZE
    requires var s := Run(s0, acts); i < |s.ops| && |s.ops[i].logged| < MAXOPBLOCKS
    ensures Room(Run(s0, acts))
  {
    var s := Run(s0, acts);
    SavedForever(s0, acts);
    UnusedAt(s.ops, i);
    UnusedBounds(s.ops[..i]);
    UnusedBounds(s.ops[i + 1..]);
  }

  lemma {:induction false} RunThen(s: State, acts: seq<Action>, act: Action)
    requires Inv(s) && Legal(s, acts) && Enabled(Run(s, acts), act)
    ensures Legal(s, acts + [act]) && Run(s, acts + [act]) == Perform(Run(s, acts), act)
    decreases |acts|
  {
    hide Perform, Enabled, Shape, Space, Recorded, Data;
    Preserved(Run(s, acts), act);
    if acts == [] {
      assert acts + [act] == [act] && [act][1..] == [];
    } else {
      Preserved(s, acts[0]);
      assert (acts + [act])[0] == acts[0] && (acts + [act])[1..] == acts[1..] + [act];
      RunThen(Perform(s, acts[0]), acts[1..], act);
    }
  }

  function Share(m: nat, k: nat): nat
  {
    if m < MAXOPBLOCKS * k then 0 else if m > MAXOPBLOCKS * (k + 1) then MAXOPBLOCKS else m - MAXOPBLOCKS * k
  }

  /** Three operations are in progress and have logged `m` blocks from `first` on, filling their
      reservations one after the other. */
  ghost predicate Filled(s0: State, s: State, m: nat)
  {
    var first := s0.area.start + s0.area.size;
    && s.phase.Running? && s.area == s0.area && |s.disk| == |s0.disk| && s.outstanding == 3 && |s.ops| == 3
    && s.home == seq(m, j => first + j)
    && (forall k :: 0 <= k < 3 ==> s.ops[k].p == k && |s.ops[k].logged| == Share(m, k))
  }

  ghost predicate Spacious(s: State)
  {
    s.area.start + s.area.size + LOGSIZE <= |s.disk| && s.area.start + s.area.size + LOGSIZE <= WORD
  }

  lemma FillStart(s0: State) returns (acts: seq<Action>)
    requires Initial(s0)
    ensures Legal(s0, acts) && Filled(s0, Run(s0, acts), 0)
  {
    hide Data, Recorded, Replay, Queue, RecoverWrites, InDisk, Area.Fits, Replayable, Unused;
    acts := [];
    for k := 0 to 3
      invariant Legal(s0, acts)
      invariant var s := Run(s0, acts);
                && s == s0.(ops := s.ops, outstanding := k, events := s.events)
                && |s.ops| == k && (forall j :: 0 <= j < k ==> s.ops[j] == Op(j, {}))
    {
      assert forall o :: o in Run(s0, acts).ops ==> o.p != k;
      RunThen(s0, acts, BeginOp(k));
      acts := acts + [BeginOp(k)];
    }
  }

  lemma FillEnabled(s0: State, s: State, m: nat)
    requires Shape(s) && Space(s) && Spacious(s0) && Filled(s0, s, m) && m < s0.area.size - 1 && m < LOGSIZE
    ensures var i, b := m / MAXOPBLOCKS, s0.area.start + s0.area.size + m;
            && b !in s.home && i < 3 && |s.ops[i].logged + {b}| == |s.ops[i].logged| + 1
            && Enabled(s, LogWrite(i, b, ZeroBlock()))
  {
    hide Unused, Queue, RecoverWrites, Replayable, InDisk, Area.Fits, Absorb, ZeroBlock;
    var i, b := m / MAXOPBLOCKS, s0.area.start + s0.area.size + m;
    assert b !in s.home && b !in Elems(s.home);
    assert b !in s.ops[i].logged;
  }

  lemma FillStep(s0: State, s: State, m: nat)
    requires Shape(s) && Space(s) && Spacious(s0) && Filled(s0, s, m) && m < s0.area.size - 1 && m < LOGSIZE
    ensures var act := LogWrite(m / MAXOPBLOCKS, s0.area.start + s0.area.size + m, ZeroBlock());
            Enabled(s, act) && Filled(s0, Perform(s, act), m + 1)
  {
    hide Unused, Queue, RecoverWrites, Replayable, InDisk, Area.Fits, Shape, Space, Enabled, ZeroBlock;
    FillEnabled(s0, s, m);
    var b := s0.area.start + s0.area.size + m;
    assert Absorb(s.home, b) == seq(m + 1, j => s0.area.start + s0.area.size + j);
  }

  lemma {:induction false} Fill(s0: State, m: nat) returns (acts: seq<Action>)
    requires Initial(s0) && Spacious(s0) && m < s0.area.size && m <= LOGSIZE
    ensures Legal(s0, acts) && Filled(s0, Run(s0, acts), m)
  {
    hide Perform, Enabled, Filled, Shape, Space, Recorded, Data;
    if m == 0 {
      acts := FillStart(s0);
    } else {
      acts := Fill(s0, m - 1);
      FillStep(s0, Run(s0, acts), m - 1);
      var act := LogWrite((m - 1) / MAXOPBLOCKS, s0.area.start + s0.area.size + m - 1, ZeroBlock());
      RunThen(s0, acts, act);
      acts := acts + [act];
    }
  }

  /** log_write never panics on an operation with reservation left. */
  ghost predicate NeverPanics(s0: State)
    requires Inv(s0)
  {
    forall acts, i | Legal(s0, acts) && 0 <= i < |Run(s0, acts).ops| && |Run(s0, acts).ops[i].logged| < MAXOPBLOCKS ::
      Room(Run(s0, acts))
  }

  /** The reservation of begin_op protects log_write exactly when the log area is larger than
      LOGSIZE; mkfs makes it LOGSIZE, one block too small. */
  lemma CapacityIff(s0: State)
    requires Initial(s0) && Spacious(s0)
    ensures NeverPanics(s0) <==> s0.area.size > LOGSIZE
  {
    if s0.area.size > LOGSIZE {
      forall acts, i | Legal(s0, acts) && 0 <= i < |Run(s0, acts).ops|
                       && |Run(s0, acts).ops[i].logged| < MAXOPBLOCKS
        ensures Room(Run(s0, acts))
      {
        NoPanic(s0, acts, i);
      }
    } else {
      var acts := Fill(s0, s0.area.size - 1);
      var s := Run(s0, acts);
      assert |s.ops[2].logged| == Share(s0.area.size - 1, 2);
      assert |s.ops[2].logged| < MAXOPBLOCKS && !Room(s);
    }
  }

  /** In every run an operation that has logged `n` blocks finds room for a further log_write. */
  ghost predicate AlwaysRoom(s0: State, n: nat)
    requires Inv(s0)
  {
    forall acts, i | Legal(s0, acts) && 0 <= i < |Run(s0, acts).ops| && |Run(s0, acts).ops[i].logged| == n ::
      Room(Run(s0, acts))
  }

  /** The capacity test of log_write comes before its absorption test. So, however large the log area, an operation is
      safe from the panic if and only if it has logged fewer than MAXOPBLOCKS blocks: after that even writing again to
      a block that is in the log can panic. */
  lemma AbsorbIff(s0: State, n: nat)
    requires Initial(s0) && Spacious(s0) && s0.area.size > LOGSIZE && n <= MAXOPBLOCKS
    ensures AlwaysRoom(s0, n) <==> n < MAXOPBLOCKS
  {
    hide Perform, Enabled, Shape, Recorded, Data, Unused, Initial;
    if n < MAXOPBLOCKS {
      forall acts, i | Legal(s0, acts) && 0 <= i < |Run(s0, acts).ops| && |Run(s0, acts).ops[i].logged| == n
        ensures Room(Run(s0, acts))
      {
        NoPanic(s0, acts, i);
      }
    } else {
      var acts, b := AbsorbedPanics(s0);
      assert |Run(s0, acts).ops[0].logged| == n;
    }
  }

  /** The capacity test of log_write comes before its absorption test: however large the log area, a full log
      panics an operation that writes again to a block it has already logged. */
  lemma AbsorbedPanics(s0: State) returns (acts: seq<Action>, b: nat)
    requires Initial(s0) && Spacious(s0) && s0.area.size > LOGSIZE
    ensures Legal(s0, acts)
    ensures var s := Run(s0, acts);
            |s.ops| == 3 && |s.ops[0].logged| == MAXOPBLOCKS && b in s.ops[0].logged && b in s.home && !Room(s)
  {
    hide Perform, Enabled, Shape, Recorded, Data, Unused;
    acts := Fill(s0, LOGSIZE);
    var s := Run(s0, acts);
    assert Space(s);
    assert |s.ops[0].logged| == Share(LOGSIZE, 0) > 0;
    b :| b in s.ops[0].logged;
    assert b in Elems(s.home);
  }
}
