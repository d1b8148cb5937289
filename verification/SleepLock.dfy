/** Sleep-locks over sleep and wakeup (kernel/sleeplock.c, kernel/proc.c): every interleaving of the processes
    that use one lock. A step is what a process does between two points where another may come in. */
module SleepLock {

  const NPROC: nat := 64

  /** Where a process is. */
  datatype Pc =
    | Idle
    | WantLk          // acquiresleep, or sleep on its way out: acquire the inner spinlock
    | Test            // holds it; about to test `locked`
    | Sleep1          // found the lock taken; sleep is about to acquire p->lock
    | Sleep2          //   holds both, about to release the inner spinlock
    | Sleep3          //   holds p->lock, about to become SLEEPING
    | Parking         //   is SLEEPING, p->lock still held until the scheduler releases it
    | Asleep          // SLEEPING on this lock's channel
    | Ready           // RUNNABLE again
    | Woken           // running again, with p->lock from the scheduler
    | Got             // has set `locked`, about to release the inner spinlock
    | Holding         // owns the sleep-lock
    | WantRel         // releasesleep: acquire the inner spinlock
    | Rel1            // holds it; about to clear `locked`
    | Wake(i: nat)      // wakeup is about to look at process i
    | WakeHold(i: nat)  //   holds the lock of process i
    | Rel2            // about to release the inner spinlock

  datatype Holder = NoOne | By(p: nat)

  /** `lk` is the inner spinlock, `plock` the process locks, `pid` the recorded owner. */
  datatype State = State(pc: seq<Pc>, lk: Holder, plock: seq<Holder>, locked: bool, pid: Holder)

  datatype Action = Step(p: nat) | Kill(p: nat)

  ghost predicate Shape(s: State) { |s.pc| == NPROC && |s.plock| == NPROC }

  predicate Enabled(s: State, a: Action)
  {
    && |s.pc| == NPROC && |s.plock| == NPROC && a.p < NPROC
    && if a.Kill? then s.pc[a.p].Asleep? && s.plock[a.p].NoOne?
       else match s.pc[a.p]
         case WantLk => s.lk.NoOne?
         case WantRel => s.lk.NoOne?
         case Sleep1 => s.plock[a.p].NoOne?
         case Asleep => false
         case Ready => s.plock[a.p].NoOne?
         case Wake(i) => i >= NPROC || i == a.p || s.plock[i].NoOne?
         case WakeHold(i) => i < NPROC
         case _ => true
  }

  function Go(s: State, p: nat, pc: Pc): State
    requires p < |s.pc|
  {
    s.(pc := s.pc[p := pc])
  }

  function Perform(s: State, a: Action): State
    requires Enabled(s, a)
  {
    var p := a.p;
    if a.Kill? then Go(s, p, Ready)
    else match s.pc[p]
      case Idle => Go(s, p, WantLk)
      case WantLk => Go(s, p, Test).(lk := By(p))
      case Test => if s.locked then Go(s, p, Sleep1) else Go(s, p, Got).(locked := true, pid := By(p))
      case Sleep1 => Go(s, p, Sleep2).(plock := s.plock[p := By(p)])
      case Sleep2 => Go(s, p, Sleep3).(lk := NoOne)
      case Sleep3 => Go(s, p, Parking)
      case Parking => Go(s, p, Asleep).(plock := s.plock[p := NoOne])
      case Asleep => s
      case Ready => Go(s, p, Woken).(plock := s.plock[p := By(p)])
      case Woken => Go(s, p, WantLk).(plock := s.plock[p := NoOne])
      case Got => Go(s, p, Holding).(lk := NoOne)
      case Holding => Go(s, p, WantRel)
      case WantRel => Go(s, p, Rel1).(lk := By(p))
      case Rel1 => Go(s, p, Wake(0)).(locked := false, pid := NoOne)
      case Wake(i) =>
        if i >= NPROC then Go(s, p, Rel2)
        else if i == p then Go(s, p, Wake(i + 1))
        else Go(s, p, WakeHold(i)).(plock := s.plock[i := By(p)])
      case WakeHold(i) =>
        var t := if s.pc[i].Asleep? then Go(s, i, Ready) else s;
        Go(t, p, Wake(i + 1)).(plock := s.plock[i := NoOne])
      case Rel2 => Go(s, p, Idle).(lk := NoOne)
  }

  // ---------------------------------------------------------------- the invariant

  predicate HasLk(pc: Pc)
  {
    pc.Test? || pc.Sleep1? || pc.Sleep2? || pc.Got? || pc.Rel1? || pc.Wake? || pc.WakeHold? || pc.Rel2?
  }

  /** Holds its own process lock. */
  predicate HasOwn(pc: Pc) { pc.Sleep2? || pc.Sleep3? || pc.Parking? || pc.Woken? }

  /** Between setting and clearing `locked`. */
  predicate Owns(pc: Pc) { pc.Got? || pc.Holding? || pc.WantRel? || pc.Rel1? }

  /** Past the test of `locked`, and not yet awake. */
  predicate Drowsy(pc: Pc) { pc.Sleep3? || pc.Parking? || pc.Asleep? }

  /** A waker that has not yet got to process `q`. */
  ghost predicate Coming(s: State, q: nat)
    requires Shape(s)
  {
    && s.lk.By? && s.lk.p < NPROC && s.lk.p != q
    && var w := s.pc[s.lk.p]; (w.Wake? || w.WakeHold?) && w.i <= q
  }

  /** What holds of process `q`: it holds the locks that its place says, it owns the sleep-lock exactly from
      setting to clearing `locked`, and if it is going to sleep on a free lock then a waker is coming. */
  ghost predicate Ok(s: State, q: nat)
    requires Shape(s) && q < NPROC
  {
    var pc := s.pc[q];
    && (HasLk(pc) <==> s.lk == By(q))
    && (HasOwn(pc) ==> s.plock[q] == By(q))
    && (pc.WakeHold? ==> pc.i < NPROC && pc.i != q && s.plock[pc.i] == By(q))
    && (Owns(pc) <==> s.locked && s.pid == By(q))
    && (pc.Sleep1? || pc.Sleep2? ==> s.locked)
    && (pc.Wake? || pc.WakeHold? || pc.Rel2? ==> !s.locked)
    && (Drowsy(pc) && !s.locked ==> Coming(s, q))
  }

  /** Whoever holds the lock of process `i` is that process, on its way to sleep or back, or a waker. */
  ghost predicate PlockOk(s: State, i: nat)
    requires Shape(s) && i < NPROC
  {
    s.plock[i].By? ==>
      var p := s.plock[i].p;
      p < NPROC && ((p == i && HasOwn(s.pc[p])) || s.pc[p] == WakeHold(i))
  }

  ghost predicate Inv(s: State)
  {
    && Shape(s) && (s.lk.By? ==> s.lk.p < NPROC) && (s.locked ==> s.pid.By? && s.pid.p < NPROC)
    && forall q: nat :: q < NPROC ==> Ok(s, q) && PlockOk(s, q)
  }

  // ---------------------------------------------------------------- every run

  lemma KeepsOk(s: State, a: Action, q: nat)
    requires Shape(s) && Enabled(s, a) && q < NPROC && Ok(s, q) && Ok(s, a.p)
    requires s.lk.By? ==> s.lk.p < NPROC && Ok(s, s.lk.p)
    ensures Shape(Perform(s, a)) && Ok(Perform(s, a), q)
  {
    if a.Kill? {
    } else if s.pc[a.p].WakeHold? {
      KeepsWakeHold(s, a, q);
    } else if s.pc[a.p].Wake? {
      KeepsWake(s, a, q);
    } else if s.pc[a.p].Test? || s.pc[a.p].Rel1? {
      KeepsLocked(s, a, q);
    } else if HasOwn(s.pc[a.p]) {
      KeepsSleep(s, a, q);
    } else if s.pc[a.p].Ready? || s.pc[a.p].Sleep1? {
      KeepsTake(s, a, q);
    } else {
      KeepsOther(s, a, q);
    }
  }

  lemma KeepsWakeHold(s: State, a: Action, q: nat)
    requires Shape(s) && Enabled(s, a) && q < NPROC && Ok(s, q) && Ok(s, a.p)
    requires s.lk.By? ==> s.lk.p < NPROC && Ok(s, s.lk.p)
    requires a.Step? && s.pc[a.p].WakeHold?
    ensures Shape(Perform(s, a)) && Ok(Perform(s, a), q)
  {
  }

  lemma KeepsWake(s: State, a: Action, q: nat)
    requires Shape(s) && Enabled(s, a) && q < NPROC && Ok(s, q) && Ok(s, a.p)
    requires s.lk.By? ==> s.lk.p < NPROC && Ok(s, s.lk.p)
    requires a.Step? && s.pc[a.p].Wake?
    ensures Shape(Perform(s, a)) && Ok(Perform(s, a), q)
  {
  }

  lemma KeepsLocked(s: State, a: Action, q: nat)
    requires Shape(s) && Enabled(s, a) && q < NPROC && Ok(s, q) && Ok(s, a.p)
    requires s.lk.By? ==> s.lk.p < NPROC && Ok(s, s.lk.p)
    requires a.Step? && (s.pc[a.p].Test? || s.pc[a.p].Rel1?)
    ensures Shape(Perform(s, a)) && Ok(Perform(s, a), q)
  {
  }

  lemma KeepsSleep(s: State, a: Action, q: nat)
    requires Shape(s) && Enabled(s, a) && q < NPROC && Ok(s, q) && Ok(s, a.p)
    requires s.lk.By? ==> s.lk.p < NPROC && Ok(s, s.lk.p)
    requires a.Step? && HasOwn(s.pc[a.p])
    ensures Shape(Perform(s, a)) && Ok(Perform(s, a), q)
  {
  }

  lemma KeepsTake(s: State, a: Action, q: nat)
    requires Shape(s) && Enabled(s, a) && q < NPROC && Ok(s, q) && Ok(s, a.p)
    requires s.lk.By? ==> s.lk.p < NPROC && Ok(s, s.lk.p)
    requires a.Step? && (s.pc[a.p].Ready? || s.pc[a.p].Sleep1?)
    ensures Shape(Perform(s, a)) && Ok(Perform(s, a), q)
  {
  }

  lemma KeepsOther(s: State, a: Action, q: nat)
    requires Shape(s) && Enabled(s, a) && q < NPROC && Ok(s, q) && Ok(s, a.p)
    requires s.lk.By? ==> s.lk.p < NPROC && Ok(s, s.lk.p)
    requires a.Step? && !s.pc[a.p].WakeHold? && !s.pc[a.p].Wake? && !s.pc[a.p].Test? && !s.pc[a.p].Rel1?
    requires !HasOwn(s.pc[a.p]) && !s.pc[a.p].Ready? && !s.pc[a.p].Sleep1?
    ensures Shape(Perform(s, a)) && Ok(Perform(s, a), q)
  {
  }

  lemma PlockWake(s: State, a: Action, i: nat)
    requires Shape(s) && Enabled(s, a) && i < NPROC && PlockOk(s, i) && Ok(s, i) && Ok(s, a.p)
    requires a.Step? && (s.pc[a.p].WakeHold? || s.pc[a.p].Wake?)
    ensures Shape(Perform(s, a)) && PlockOk(Perform(s, a), i)
  {
    hide Coming, Owns, Drowsy, HasLk;
  }

  lemma PlockOwn(s: State, a: Action, i: nat)
    requires Shape(s) && Enabled(s, a) && i < NPROC && PlockOk(s, i) && Ok(s, i) && Ok(s, a.p)
    requires a.Step? && (HasOwn(s.pc[a.p]) || s.pc[a.p].Ready? || s.pc[a.p].Sleep1?)
    ensures Shape(Perform(s, a)) && PlockOk(Perform(s, a), i)
  {
    hide Coming, Owns, Drowsy, HasLk;
  }

  lemma KeepsPlock(s: State, a: Action, i: nat)
    requires Shape(s) && Enabled(s, a) && i < NPROC && PlockOk(s, i) && Ok(s, i) && Ok(s, a.p)
    ensures Shape(Perform(s, a)) && PlockOk(Perform(s, a), i)
  {
    hide Coming, Owns, Drowsy, HasLk;
    if a.Step? && (s.pc[a.p].WakeHold? || s.pc[a.p].Wake?) {
      PlockWake(s, a, i);
    } else if a.Step? && (HasOwn(s.pc[a.p]) || s.pc[a.p].Ready? || s.pc[a.p].Sleep1?) {
      PlockOwn(s, a, i);
    } else {
      hide Ok;
    }
  }

  lemma Preserved(s: State, a: Action)
    requires Inv(s) && Enabled(s, a)
    ensures Inv(Perform(s, a))
  {
    hide Ok, PlockOk;
    var t := Perform(s, a);
    forall q: nat | q < NPROC ensures Shape(t) && Ok(t, q) && PlockOk(t, q) {
      assert Ok(s, q) && Ok(s, a.p) && PlockOk(s, q);
      KeepsOk(s, a, q);
      KeepsPlock(s, a, q);
    }
  }

  function Initial(): State { State(seq(NPROC, _ => Idle), NoOne, seq(NPROC, _ => NoOne), false, NoOne) }

  lemma InitialInv()
    ensures Inv(Initial())
  {
  }

  ghost predicate Legal(s: State, run: seq<Action>)
    decreases |run|
  {
    run == [] || (Enabled(s, run[0]) && Legal(Perform(s, run[0]), run[1..]))
  }

  ghost function Run(s: State, run: seq<Action>): State
    requires Legal(s, run)
    decreases |run|
  {
    if run == [] then s else Run(Perform(s, run[0]), run[1..])
  }

  lemma {:induction false} RunInv(s: State, run: seq<Action>)
    requires Inv(s) && Legal(s, run)
    ensures Inv(Run(s, run))
    decreases |run|
  {
    hide Inv, Enabled, Perform;
    if run != [] {
      Preserved(s, run[0]);
      RunInv(Perform(s, run[0]), run[1..]);
    }
  }

  /** In every run: while the inner spinlock and the sleep-lock are free nobody sleeps on the lock or is about
      to, and whoever sleeps at any time has an owner to wait for, or a waker on the way. */
  lemma NoLostWakeup(run: seq<Action>, q: nat)
    requires Legal(Initial(), run) && q < NPROC
    ensures var t := Run(Initial(), run);
            && Shape(t)
            && (t.lk.NoOne? && !t.locked ==> !Drowsy(t.pc[q]))
            && (Drowsy(t.pc[q]) ==> Coming(t, q) || exists p :: 0 <= p < NPROC && p != q && Owns(t.pc[p]))
  {
    hide Run, Legal;
    InitialInv();
    RunInv(Initial(), run);
    var t := Run(Initial(), run);
    assert Ok(t, q);
    if t.locked { assert Ok(t, t.pid.p) && Owns(t.pc[t.pid.p]); }
  }

  /** wakeup leaves nobody asleep. */
  lemma WakeupComplete(run: seq<Action>, w: nat, q: nat)
    requires Legal(Initial(), run) && w < NPROC && q < NPROC
    requires |Run(Initial(), run).pc| == NPROC && Run(Initial(), run).pc[w].Rel2?
    ensures !Drowsy(Run(Initial(), run).pc[q])
  {
    hide Run, Legal;
    InitialInv();
    RunInv(Initial(), run);
    var t := Run(Initial(), run);
    assert Ok(t, q) && Ok(t, w);
  }

  /** At most one process owns the sleep-lock, and holdingsleep, which tests `locked` and `pid`, knows it. */
  lemma MutualExclusion(run: seq<Action>, p: nat, q: nat)
    requires Legal(Initial(), run) && p < NPROC && q < NPROC
    ensures var t := Run(Initial(), run);
            && |t.pc| == NPROC
            && (Owns(t.pc[p]) && Owns(t.pc[q]) ==> p == q)
            && (Owns(t.pc[p]) <==> t.locked && t.pid == By(p))
  {
    hide Run, Legal;
    InitialInv();
    RunInv(Initial(), run);
    var t := Run(Initial(), run);
    assert Ok(t, p) && Ok(t, q);
  }

  /** The holder of the inner spinlock can always move, or is waiting for a process that can. */
  lemma HolderMoves(run: seq<Action>)
    requires Legal(Initial(), run) && Run(Initial(), run).lk.By?
    ensures var t := Run(Initial(), run);
            || Enabled(t, Step(t.lk.p))
            || exists q :: 0 <= q < NPROC && |t.pc| == NPROC && HasOwn(t.pc[q]) && Enabled(t, Step(q))
  {
    hide Run, Legal;
    InitialInv();
    RunInv(Initial(), run);
    var t := Run(Initial(), run);
    var p := t.lk.p;
    assert Ok(t, p);
    if !Enabled(t, Step(p)) {
      var i := if t.pc[p].Wake? then t.pc[p].i else p;
      assert PlockOk(t, i) && Ok(t, i);
      assert Ok(t, t.plock[i].p);
      assert HasOwn(t.pc[i]) && Enabled(t, Step(i));
    }
  }

  // ---------------------------------------------------------------- what a call is worth

  /** What a process is doing with the lock. */
  datatype Stage = Outside | Acquiring | Owning | Releasing

  function StageOf(pc: Pc): Stage
  {
    if pc.Idle? then Outside
    else if Owns(pc) then Owning
    else if pc.Wake? || pc.WakeHold? || pc.Rel2? then Releasing
    else Acquiring
  }

  function NextStage(g: Stage): Stage
  {
    match g
    case Outside => Acquiring
    case Acquiring => Owning
    case Owning => Releasing
    case Releasing => Outside
  }

  /** In every run, a process goes through the stages in this order and no other: acquiresleep, asleep any number of
      times, ends only by owning the lock, and releasesleep only gives up a lock that is owned. Only the process itself
      moves on, and it owns the lock from the very step in which it finds it free. */
  lemma StagesInOrder(run: seq<Action>, a: Action, q: nat)
    requires Legal(Initial(), run) && Enabled(Run(Initial(), run), a) && q < NPROC
    ensures var t := Run(Initial(), run);
            var u := Perform(t, a);
            && |t.pc| == |u.pc| == NPROC
            && (StageOf(u.pc[q]) != StageOf(t.pc[q]) ==>
                  a == Step(q) && StageOf(u.pc[q]) == NextStage(StageOf(t.pc[q])))
            && (StageOf(t.pc[q]).Acquiring? && StageOf(u.pc[q]).Owning? <==> a == Step(q) && t.pc[q].Test? && !t.locked)
  {
    hide Run, Legal;
    InitialInv();
    RunInv(Initial(), run);
    var t := Run(Initial(), run);
    assert Ok(t, q) && Ok(t, a.p);
    hide Inv, PlockOk;
    StageStep(t, a, q);
  }

  lemma StageStep(s: State, a: Action, q: nat)
    requires Enabled(s, a) && q < NPROC
    ensures var u := Perform(s, a);
            && |u.pc| == NPROC
            && (StageOf(u.pc[q]) != StageOf(s.pc[q]) ==>
                  a == Step(q) && StageOf(u.pc[q]) == NextStage(StageOf(s.pc[q])))
            && (StageOf(s.pc[q]).Acquiring? && StageOf(u.pc[q]).Owning? <==> a == Step(q) && s.pc[q].Test? && !s.locked)
  {
  }
}
