/** The scheduler's lock hand-off on several CPUs (kernel/proc.c, kernel/spinlock.c). A step is one access to
    shared state by one CPU; swtch is one step. Interrupt handlers take and release locks between any two steps of the
    code they interrupt, on a process's stack and in the scheduler. */
module Scheduler {

  const NCPU: nat := 8
  const NPROC: nat := 64

  datatype ProcState = UNUSED | USED | SLEEPING | RUNNABLE | RUNNING | ZOMBIE

  datatype Holder = NoOne | By(c: nat)

  datatype Option = None | Some(p: nat)

  /** Where a CPU is: in its scheduler, or on the kernel stack of process `p`. */
  datatype Pc =
    | Loop                            // scheduler, between two processes, or a handler that interrupted it there
    | Aside(q: nat)                   // that handler, holds q->lock (wakeup)
    | Has(p: nat)                     // scheduler, holds p->lock
    | Back(p: nat)                    // scheduler, just switched back from p
    | Done(p: nat)                    // scheduler, about to release p->lock
    | Resumed(p: nat)                 // on p's stack, p->lock handed over by the scheduler
    | Inside(p: nat)                  // on p's stack, running p
    | Leaving(p: nat, to: ProcState)  // on p's stack, holds p->lock, about to give up the CPU
    | Left(p: nat)                    // on p's stack, has changed p->state, about to call swtch
    | Other(p: nat, q: nat)           // on p's stack, holds q->lock (wakeup, kill, wait, fork; killed when q is p)

  /** `held` are the process locks held, `others` counts the other spinlocks held; noff, intr and intena are as
      in push_off and pop_off. */
  datatype Cpu = Cpu(pc: Pc, proc: Option, held: set<nat>, others: nat, noff: nat, intr: bool, intena: bool)

  /** What sched keeps of intena in its frame on the process's stack; a process that has never run has no such frame. */
  datatype Saved = Fresh | Kept(intena: bool)

  /** `runner` records which CPU was given the process. */
  datatype State = State(cpus: seq<Cpu>, state: seq<ProcState>, plock: seq<Holder>, runner: seq<Holder>,
                         saved: seq<Saved>)

  datatype Action =
    | Look(c: nat, p: nat)          // scheduler: acquire(&p->lock)
    | Pick(c: nat)                  //   run p if it is RUNNABLE
    | Return(c: nat)                //   c->proc = 0
    | Unlock(c: nat)                //   release(&p->lock)
    | Resume(c: nat)                // the process restores intena and releases the lock it was handed
    | Leave(c: nat, to: ProcState)  // yield, sleep or exit: acquire(&p->lock)
    | DropOther(c: nat)             //   sleep releases lk, exit releases wait_lock
    | SetState(c: nat)              //   p->state = ...
    | Switch(c: nat)                //   sched(), when its checks pass
    | Grab(c: nat, q: nat)          // acquire a process's lock to look at it or change it
    | Touch(c: nat, to: ProcState)  //   change its state
    | Ungrab(c: nat)                //   release it
    | TakeOther(c: nat)             // acquire some other spinlock
    | FreeOther(c: nat)             // release it
    | SetIntr(c: nat, on: bool)     // intr_on or intr_off with no lock held

  predicate Shape(s: State)
  {
    |s.cpus| == NCPU && |s.state| == NPROC && |s.plock| == NPROC && |s.runner| == NPROC && |s.saved| == NPROC
  }

  /** wakeup and kill; wait; allocproc; fork; a failed allocproc. */
  predicate MayTouch(from: ProcState, to: ProcState)
  {
    || (from.SLEEPING? && to.RUNNABLE?)
    || (from.ZOMBIE? && to.UNUSED?)
    || (from.UNUSED? && to.USED?)
    || (from.USED? && to.RUNNABLE?)
    || (from.USED? && to.UNUSED?)
  }

  predicate Enabled(s: State, a: Action)
  {
    && Shape(s) && a.c < NCPU
    && var c := s.cpus[a.c];
       match a
       case Look(_, p) => c.pc.Loop? && c.others == 0 && p < NPROC && s.plock[p].NoOne?
       case Pick(_) => c.pc.Has? && c.pc.p < NPROC
       case Return(_) => c.pc.Back? && c.pc.p < NPROC
       case Unlock(_) => c.pc.Done? && c.pc.p < NPROC
       case Resume(_) => c.pc.Resumed? && c.pc.p < NPROC
       case Leave(_, to) =>
         c.pc.Inside? && c.pc.p < NPROC && s.plock[c.pc.p].NoOne? && (to.RUNNABLE? || to.SLEEPING? || to.ZOMBIE?)
       case DropOther(_) => (c.pc.Leaving? || c.pc.Left?) && c.others >= 1
       case SetState(_) => c.pc.Leaving? && c.pc.p < NPROC
       case Switch(_) => c.pc.Left? && c.pc.p < NPROC && c.noff == 1 && !c.intr && !s.state[c.pc.p].RUNNING?
       case Grab(_, q) => (c.pc.Inside? || c.pc.Loop?) && q < NPROC && s.plock[q].NoOne?
       case Touch(_, to) => (c.pc.Other? || c.pc.Aside?) && c.pc.q < NPROC && MayTouch(s.state[c.pc.q], to)
       case Ungrab(_) => (c.pc.Other? || c.pc.Aside?) && c.pc.q < NPROC
       case TakeOther(_) => c.pc.Inside? || c.pc.Other? || c.pc.Loop? || c.pc.Aside?
       case FreeOther(_) => (c.pc.Inside? || c.pc.Other? || c.pc.Loop? || c.pc.Aside?) && c.others >= 1
       case SetIntr(_, _) => (c.pc.Inside? || c.pc.Loop?) && c.noff == 0
  }

  function PushOff(c: Cpu): (r: Cpu)
    ensures r.pc == c.pc && r.proc == c.proc && r.held == c.held && r.others == c.others
  {
    c.(intena := if c.noff == 0 then c.intr else c.intena, intr := false, noff := c.noff + 1)
  }

  /** The panics of pop_off are ruled out by the invariant. */
  function PopOff(c: Cpu): (r: Cpu)
    ensures r.pc == c.pc && r.proc == c.proc && r.held == c.held && r.others == c.others
  {
    var noff := if c.noff >= 1 then c.noff - 1 else 0;
    c.(noff := noff, intr := if noff == 0 && c.intena then true else c.intr)
  }

  function Acquire(c: Cpu, p: nat): Cpu { PushOff(c).(held := c.held + {p}) }

  function Release(c: Cpu, p: nat): Cpu { PopOff(c).(held := c.held - {p}) }

  function Perform(s: State, a: Action): State
    requires Enabled(s, a)
  {
    var k := a.c;
    var c := s.cpus[k];
    match a
    case Look(_, p) => s.(cpus := s.cpus[k := Acquire(c, p).(pc := Has(p))], plock := s.plock[p := By(k)])
    case Pick(_) =>
      var p := c.pc.p;
      if s.state[p].RUNNABLE? then
        s.(cpus := s.cpus[k := c.(pc := Resumed(p), proc := Some(p))], state := s.state[p := RUNNING],
           runner := s.runner[p := By(k)])
      else s.(cpus := s.cpus[k := c.(pc := Done(p))])
    case Return(_) =>
      s.(cpus := s.cpus[k := c.(pc := Done(c.pc.p), proc := None)], runner := s.runner[c.pc.p := NoOne])
    case Unlock(_) => s.(cpus := s.cpus[k := Release(c, c.pc.p).(pc := Loop)], plock := s.plock[c.pc.p := NoOne])
    case Resume(_) =>
      var saved := s.saved[c.pc.p];
      s.(cpus := s.cpus[k := Release(if saved.Kept? then c.(intena := saved.intena) else c, c.pc.p)
                             .(pc := Inside(c.pc.p))],
         plock := s.plock[c.pc.p := NoOne])
    case Leave(_, to) =>
      s.(cpus := s.cpus[k := Acquire(c, c.pc.p).(pc := Leaving(c.pc.p, to))], plock := s.plock[c.pc.p := By(k)])
    case DropOther(_) => s.(cpus := s.cpus[k := PopOff(c).(others := c.others - 1)])
    case SetState(_) => s.(cpus := s.cpus[k := c.(pc := Left(c.pc.p))], state := s.state[c.pc.p := c.pc.to])
    case Switch(_) => s.(cpus := s.cpus[k := c.(pc := Back(c.pc.p))], saved := s.saved[c.pc.p := Kept(c.intena)])
    case Grab(_, q) =>
      s.(cpus := s.cpus[k := Acquire(c, q).(pc := if c.pc.Loop? then Aside(q) else Other(c.pc.p, q))],
         plock := s.plock[q := By(k)])
    case Touch(_, to) =>
      s.(state := s.state[c.pc.q := to], saved := if to.USED? then s.saved[c.pc.q := Fresh] else s.saved)
    case Ungrab(_) =>
      s.(cpus := s.cpus[k := Release(c, c.pc.q).(pc := if c.pc.Aside? then Loop else Inside(c.pc.p))],
         plock := s.plock[c.pc.q := NoOne])
    case TakeOther(_) => s.(cpus := s.cpus[k := PushOff(c).(others := c.others + 1)])
    case FreeOther(_) => s.(cpus := s.cpus[k := PopOff(c).(others := c.others - 1)])
    case SetIntr(_, on) => s.(cpus := s.cpus[k := c.(intr := on)])
  }

  // ---------------------------------------------------------------- the invariant

  /** The process whose kernel stack the CPU is on. */
  predicate OnStack(pc: Pc, p: nat)
  {
    (pc.Resumed? || pc.Inside? || pc.Leaving? || pc.Left? || pc.Other?) && pc.p == p
  }

  /** The process locks that go with a place. */
  function HeldAt(pc: Pc): set<nat>
  {
    if pc.Has? || pc.Back? || pc.Done? || pc.Resumed? || pc.Leaving? || pc.Left? then {pc.p}
    else if pc.Other? || pc.Aside? then {pc.q}
    else {}
  }

  function ProcAt(pc: Pc): Option
  {
    if pc.Loop? || pc.Aside? || pc.Has? || pc.Done? then None else Some(pc.p)
  }

  ghost predicate CpuOk(s: State, k: nat)
    requires Shape(s) && k < NCPU
  {
    var c := s.cpus[k];
    && c.held == HeldAt(c.pc) && c.proc == ProcAt(c.pc)
    && c.noff == |c.held| + c.others && (c.intr ==> c.noff == 0)
    && (c.pc.Has? || c.pc.Back? || c.pc.Done? || c.pc.Resumed? ==> c.others == 0)
    && (c.pc.Other? || c.pc.Aside? ==> c.pc.q < NPROC)
    && (!c.pc.Loop? && !c.pc.Aside? ==> c.pc.p < NPROC)
    && (c.pc.Leaving? ==> !c.pc.to.RUNNING? && !c.pc.to.UNUSED? && !c.pc.to.USED?)
    && (c.proc.Some? ==> s.runner[c.proc.p] == By(k))
    && (c.pc.Resumed? || c.pc.Inside? || c.pc.Leaving? || c.pc.Other? ==> s.state[c.pc.p].RUNNING?)
    && (c.pc.Left? || c.pc.Back? ==> !s.state[c.pc.p].RUNNING? && !s.state[c.pc.p].UNUSED? && !s.state[c.pc.p].USED?)
  }

  ghost predicate ProcOk(s: State, p: nat)
    requires Shape(s) && p < NPROC
  {
    && (s.plock[p].By? ==> s.plock[p].c < NCPU && p in s.cpus[s.plock[p].c].held)
    && (s.runner[p].By? ==> s.runner[p].c < NCPU && s.cpus[s.runner[p].c].proc == Some(p))
    && (s.state[p].RUNNING? ==> s.runner[p].By?)
  }

  /** A CPU that holds the lock of `p` is the recorded holder. */
  ghost predicate LockOk(s: State, k: nat, p: nat)
    requires Shape(s) && k < NCPU && p < NPROC
  {
    p in s.cpus[k].held ==> s.plock[p] == By(k)
  }

  ghost predicate Inv(s: State)
  {
    && Shape(s)
    && (forall k: nat :: k < NCPU ==> CpuOk(s, k))
    && (forall p: nat :: p < NPROC ==> ProcOk(s, p))
    && (forall k: nat, p: nat :: k < NCPU && p < NPROC ==> LockOk(s, k, p))
  }

  /** The process that an action is about. */
  function Subject(s: State, a: Action): nat
    requires Enabled(s, a)
  {
    var pc := s.cpus[a.c].pc;
    match a
    case Look(_, p) => p
    case Grab(_, q) => q
    case Touch(_, _) => pc.q
    case Ungrab(_) => pc.q
    case TakeOther(_) => 0
    case FreeOther(_) => 0
    case SetIntr(_, _) => 0
    case _ => pc.p
  }

  lemma OtherCpu(s: State, a: Action, k: nat)
    requires Enabled(s, a) && k < NCPU && CpuOk(s, a.c) && CpuOk(s, k)
    requires Subject(s, a) < NPROC && ProcOk(s, Subject(s, a)) && LockOk(s, a.c, Subject(s, a))
    requires LockOk(s, k, Subject(s, a))
    requires k != a.c
    ensures Shape(Perform(s, a)) && CpuOk(Perform(s, a), k)
  {
    var t := Perform(s, a);
    assert t.cpus[k] == s.cpus[k];
  }

  lemma SelfLoop(s: State, a: Action)
    requires Enabled(s, a) && CpuOk(s, a.c) && Subject(s, a) < NPROC && ProcOk(s, Subject(s, a))
    requires LockOk(s, a.c, Subject(s, a))
    requires a.Look?
    ensures Shape(Perform(s, a)) && CpuOk(Perform(s, a), a.c)
  {
    hide ProcOk, LockOk;
    assert s.cpus[a.c].held + {a.p} == {a.p} && |{a.p}| == 1;
  }

  lemma SelfUnlock(s: State, a: Action)
    requires Enabled(s, a) && CpuOk(s, a.c) && Subject(s, a) < NPROC && ProcOk(s, Subject(s, a))
    requires LockOk(s, a.c, Subject(s, a))
    requires a.Unlock?
    ensures Shape(Perform(s, a)) && CpuOk(Perform(s, a), a.c)
  {
    hide ProcOk, LockOk;
    assert s.cpus[a.c].held == {s.cpus[a.c].pc.p};
    assert s.cpus[a.c].held - {s.cpus[a.c].pc.p} == {};
  }

  lemma SelfPick(s: State, a: Action)
    requires Enabled(s, a) && CpuOk(s, a.c) && Subject(s, a) < NPROC && ProcOk(s, Subject(s, a))
    requires LockOk(s, a.c, Subject(s, a))
    requires a.Pick? || a.Return?
    ensures Shape(Perform(s, a)) && CpuOk(Perform(s, a), a.c)
  {
  }

  lemma SelfLeave(s: State, a: Action)
    requires Enabled(s, a) && CpuOk(s, a.c) && Subject(s, a) < NPROC && ProcOk(s, Subject(s, a))
    requires LockOk(s, a.c, Subject(s, a))
    requires a.Leave?
    ensures Shape(Perform(s, a)) && CpuOk(Perform(s, a), a.c)
  {
    hide ProcOk, LockOk;
    assert s.cpus[a.c].held + {s.cpus[a.c].pc.p} == {s.cpus[a.c].pc.p} && |{s.cpus[a.c].pc.p}| == 1;
  }

  lemma SelfResume(s: State, a: Action)
    requires Enabled(s, a) && CpuOk(s, a.c) && Subject(s, a) < NPROC && ProcOk(s, Subject(s, a))
    requires LockOk(s, a.c, Subject(s, a))
    requires a.Resume?
    ensures Shape(Perform(s, a)) && CpuOk(Perform(s, a), a.c)
  {
    hide ProcOk, LockOk;
    assert s.cpus[a.c].held == {s.cpus[a.c].pc.p};
    assert s.cpus[a.c].held - {s.cpus[a.c].pc.p} == {};
  }

  lemma SelfSwitch(s: State, a: Action)
    requires Enabled(s, a) && CpuOk(s, a.c) && Subject(s, a) < NPROC && ProcOk(s, Subject(s, a))
    requires LockOk(s, a.c, Subject(s, a))
    requires a.SetState? || a.Switch? || a.DropOther?
    ensures Shape(Perform(s, a)) && CpuOk(Perform(s, a), a.c)
  {
  }

  lemma SelfGrab(s: State, a: Action)
    requires Enabled(s, a) && CpuOk(s, a.c) && a.Grab?
    ensures Shape(Perform(s, a)) && CpuOk(Perform(s, a), a.c)
  {
    assert s.cpus[a.c].held + {a.q} == {a.q} && |{a.q}| == 1;
  }

  lemma SelfTouch(s: State, a: Action)
    requires Enabled(s, a) && CpuOk(s, a.c) && a.Touch?
    ensures Shape(Perform(s, a)) && CpuOk(Perform(s, a), a.c)
  {
  }

  lemma SelfUngrab(s: State, a: Action)
    requires Enabled(s, a) && CpuOk(s, a.c) && a.Ungrab?
    ensures Shape(Perform(s, a)) && CpuOk(Perform(s, a), a.c)
  {
    assert s.cpus[a.c].held == {s.cpus[a.c].pc.q};
    assert s.cpus[a.c].held - {s.cpus[a.c].pc.q} == {};
  }

  lemma SelfRest(s: State, a: Action)
    requires Enabled(s, a) && CpuOk(s, a.c) && Subject(s, a) < NPROC && ProcOk(s, Subject(s, a))
    requires LockOk(s, a.c, Subject(s, a))
    requires a.TakeOther? || a.FreeOther? || a.SetIntr?
    ensures Shape(Perform(s, a)) && CpuOk(Perform(s, a), a.c)
  {
  }

  lemma KeepsCpu(s: State, a: Action, k: nat)
    requires Enabled(s, a) && k < NCPU && CpuOk(s, a.c) && CpuOk(s, k)
    requires Subject(s, a) < NPROC && ProcOk(s, Subject(s, a)) && LockOk(s, a.c, Subject(s, a))
    requires LockOk(s, k, Subject(s, a))
    ensures Shape(Perform(s, a)) && CpuOk(Perform(s, a), k)
  {
    hide CpuOk, ProcOk, LockOk, Perform, Enabled;
    if k != a.c {
      OtherCpu(s, a, k);
    } else {
      match a
      case Look(_, _) => SelfLoop(s, a);
      case Unlock(_) => SelfUnlock(s, a);
      case Pick(_) => SelfPick(s, a);
      case Return(_) => SelfPick(s, a);
      case Resume(_) => SelfResume(s, a);
      case Leave(_, _) => SelfLeave(s, a);
      case SetState(_) => SelfSwitch(s, a);
      case Switch(_) => SelfSwitch(s, a);
      case DropOther(_) => SelfSwitch(s, a);
      case Grab(_, _) => SelfGrab(s, a);
      case Touch(_, _) => SelfTouch(s, a);
      case Ungrab(_) => SelfUngrab(s, a);
      case TakeOther(_) => SelfRest(s, a);
      case FreeOther(_) => SelfRest(s, a);
      case SetIntr(_, _) => SelfRest(s, a);
    }
  }

  /** The CPU holds the locks and runs the process that go with its place. */
  ghost predicate Placed(s: State, k: nat)
    requires Shape(s) && k < NCPU
  {
    var c := s.cpus[k];
    c.held == HeldAt(c.pc) && c.proc == ProcAt(c.pc)
      && (c.proc.Some? && c.proc.p < NPROC ==> s.runner[c.proc.p] == By(k))
  }

  lemma KeepsPlock(s: State, a: Action, p: nat)
    requires Enabled(s, a) && p < NPROC && ProcOk(s, p) && Placed(s, a.c) && LockOk(s, a.c, p)
    ensures var t := Perform(s, a);
            Shape(t) && (t.plock[p].By? ==> t.plock[p].c < NCPU && p in t.cpus[t.plock[p].c].held)
  {
    hide PushOff, PopOff;
  }

  lemma KeepsRunner(s: State, a: Action, p: nat)
    requires Enabled(s, a) && p < NPROC && ProcOk(s, p) && Placed(s, a.c)
    ensures var t := Perform(s, a);
            Shape(t) && (t.runner[p].By? ==> t.runner[p].c < NCPU && t.cpus[t.runner[p].c].proc == Some(p))
  {
    hide PushOff, PopOff, HeldAt;
  }

  lemma KeepsRunning(s: State, a: Action, p: nat)
    requires Enabled(s, a) && p < NPROC && ProcOk(s, p)
    requires a.Return? ==> !s.state[s.cpus[a.c].pc.p].RUNNING?
    requires a.SetState? ==> !s.cpus[a.c].pc.to.RUNNING?
    ensures var t := Perform(s, a); Shape(t) && (t.state[p].RUNNING? ==> t.runner[p].By?)
  {
    hide PushOff, PopOff, HeldAt, Acquire, Release;
  }

  lemma KeepsProc(s: State, a: Action, p: nat)
    requires Enabled(s, a) && p < NPROC && ProcOk(s, p) && CpuOk(s, a.c) && LockOk(s, a.c, p)
    ensures Shape(Perform(s, a)) && ProcOk(Perform(s, a), p)
  {
    assert Placed(s, a.c);
    KeepsPlock(s, a, p);
    KeepsRunner(s, a, p);
    KeepsRunning(s, a, p);
    hide CpuOk, LockOk, Perform, Enabled;
  }

  lemma KeepsLock(s: State, a: Action, k: nat, p: nat)
    requires Enabled(s, a) && k < NCPU && p < NPROC && LockOk(s, k, p) && LockOk(s, a.c, p) && Placed(s, a.c)
    ensures Shape(Perform(s, a)) && LockOk(Perform(s, a), k, p)
  {
    hide PushOff, PopOff, ProcAt;
  }

  // ---------------------------------------------------------------- every run

  lemma SubjectOk(s: State, a: Action)
    requires Enabled(s, a) && CpuOk(s, a.c)
    ensures Subject(s, a) < NPROC
  {
  }

  lemma Preserved(s: State, a: Action)
    requires Inv(s) && Enabled(s, a)
    ensures Inv(Perform(s, a))
  {
    hide CpuOk, ProcOk, LockOk, Perform, Enabled;
    var t, c := Perform(s, a), a.c;
    assert c < NCPU && Shape(t) by { ActsInShape(s, a); }
    assert CpuOk(s, c);
    SubjectOk(s, a);
    var x := Subject(s, a);
    forall k: nat | k < NCPU ensures CpuOk(t, k) {
      assert CpuOk(s, k) && ProcOk(s, x) && LockOk(s, c, x) && LockOk(s, k, x);
      KeepsCpu(s, a, k);
    }
    forall p: nat | p < NPROC ensures ProcOk(t, p) {
      assert ProcOk(s, p) && LockOk(s, c, p);
      KeepsProc(s, a, p);
    }
    forall k: nat, p: nat | k < NCPU && p < NPROC ensures LockOk(t, k, p) {
      assert LockOk(s, k, p) && LockOk(s, c, p);
      IsPlaced(s, c);
      KeepsLock(s, a, k, p);
    }
  }

  lemma ActsInShape(s: State, a: Action)
    requires Enabled(s, a)
    ensures a.c < NCPU && Shape(Perform(s, a))
  {
  }

  lemma IsPlaced(s: State, k: nat)
    requires Shape(s) && k < NCPU && CpuOk(s, k)
    ensures Placed(s, k)
  {
  }

  /** All CPUs in their schedulers, and one process, made by userinit, to run. */
  function Initial(): State
  {
    State(seq(NCPU, _ => Cpu(Loop, None, {}, 0, 0, true, false)),
          seq(NPROC, p => if p == 0 then RUNNABLE else UNUSED), seq(NPROC, _ => NoOne), seq(NPROC, _ => NoOne),
          seq(NPROC, _ => Fresh))
  }

  lemma InitialInv()
    ensures Inv(Initial())
  {
  }

  ghost predicate Legal(s: State, run: seq<Action>)
    decreases |run|
  {
    run == [] || (Enabled(s, run[0]) && Legal(Perform(s, run[0]), run[1..]))
  }

  ghost function Run(s: State, run: seq<Action>): State
    requires Legal(s, run)
    decreases |run|
  {
    if run == [] then s else Run(Perform(s, run[0]), run[1..])
  }

  lemma {:induction false} RunInv(s: State, run: seq<Action>)
    requires Inv(s) && Legal(s, run)
    ensures Inv(Run(s, run))
    decreases |run|
  {
    hide Inv, Enabled, Perform;
    if run != [] {
      Preserved(s, run[0]);
      RunInv(Perform(s, run[0]), run[1..]);
    }
  }

  lemma Reached(run: seq<Action>) returns (t: State)
    requires Legal(Initial(), run)
    ensures t == Run(Initial(), run) && Inv(t)
  {
    hide Inv;
    InitialInv();
    RunInv(Initial(), run);
    t := Run(Initial(), run);
  }

  /** A RUNNING process is c->proc of exactly one CPU. */
  lemma OneRunner(run: seq<Action>, p: nat)
    requires Legal(Initial(), run) && p < NPROC
    ensures var t := Run(Initial(), run);
            && Shape(t)
            && (t.state[p].RUNNING? ==> exists c :: 0 <= c < NCPU && t.cpus[c].proc == Some(p))
            && (forall c, d :: 0 <= c < NCPU && 0 <= d < NCPU && t.cpus[c].proc == Some(p) == t.cpus[d].proc ==> c == d)
  {
    hide Run, Legal;
    var t := Reached(run);
    assert ProcOk(t, p);
    forall c: nat, d: nat | c < NCPU && d < NCPU && t.cpus[c].proc == Some(p) == t.cpus[d].proc ensures c == d {
      assert CpuOk(t, c) && CpuOk(t, d);
    }
  }

  /** No two CPUs are on one kernel stack. */
  lemma StacksDisjoint(run: seq<Action>, c: nat, d: nat, p: nat)
    requires Legal(Initial(), run) && c < NCPU && d < NCPU
    requires Shape(Run(Initial(), run))
    requires OnStack(Run(Initial(), run).cpus[c].pc, p) && OnStack(Run(Initial(), run).cpus[d].pc, p)
    ensures c == d
  {
    hide Run, Legal;
    var t := Reached(run);
    assert CpuOk(t, c) && CpuOk(t, d);
  }

  /** Interrupts are off on a CPU that holds any spinlock. */
  lemma InterruptsOff(run: seq<Action>, c: nat)
    requires Legal(Initial(), run) && c < NCPU
    ensures var t := Run(Initial(), run);
            && Shape(t)
            && (t.cpus[c].held != {} || t.cpus[c].others > 0 ==> !t.cpus[c].intr)
            && t.cpus[c].noff == |t.cpus[c].held| + t.cpus[c].others
  {
    hide Run, Legal;
    var t := Reached(run);
    assert CpuOk(t, c);
  }

  /** wait frees a zombie, and a scheduler starts a process, only when no CPU is on its stack. */
  lemma FreedIsOff(run: seq<Action>, a: Action, d: nat)
    requires Legal(Initial(), run) && d < NCPU && Enabled(Run(Initial(), run), a)
    requires var t := Run(Initial(), run);
             (a.Touch? && t.state[t.cpus[a.c].pc.q].ZOMBIE?) || (a.Pick? && t.state[t.cpus[a.c].pc.p].RUNNABLE?)
    ensures var t := Run(Initial(), run); !OnStack(t.cpus[d].pc, Subject(t, a)) && t.cpus[d].proc != Some(Subject(t, a))
  {
    hide Run, Legal;
    var t := Reached(run);
    var x := Subject(t, a);
    assert CpuOk(t, a.c) && CpuOk(t, d);
    SubjectOk(t, a);
    assert LockOk(t, a.c, x) && LockOk(t, d, x);
  }

  /** Of the checks in sched, only "locks" can fail, and exactly when another spinlock is still held. */
  lemma SchedChecks(run: seq<Action>, c: nat)
    requires Legal(Initial(), run) && c < NCPU && Shape(Run(Initial(), run)) && Run(Initial(), run).cpus[c].pc.Left?
    ensures var t := Run(Initial(), run);
            var k := t.cpus[c];
            && k.pc.p < NPROC && k.pc.p in k.held && !t.state[k.pc.p].RUNNING? && !k.intr
            && (k.noff == 1 <==> k.others == 0)
  {
    hide Run, Legal;
    var t := Reached(run);
    assert CpuOk(t, c);
  }

  // ---------------------------------------------------------------- how a process's state changes

  /** The life of a process. */
  predicate Edge(from: ProcState, to: ProcState)
  {
    || MayTouch(from, to)
    || (from.RUNNABLE? && to.RUNNING?)
    || (from.RUNNING? && (to.RUNNABLE? || to.SLEEPING? || to.ZOMBIE?))
  }

  /** In every run, a step that changes the state of a process is made by the CPU that holds its lock, and follows an
      edge; only the process itself, on its own stack, stops running. */
  lemma StateChanges(run: seq<Action>, a: Action, p: nat)
    requires Legal(Initial(), run) && Enabled(Run(Initial(), run), a) && p < NPROC
    ensures var t := Run(Initial(), run);
            var u := Perform(t, a);
            && Shape(u)
            && (u.state[p] != t.state[p] ==>
                  && t.plock[p] == By(a.c) && Edge(t.state[p], u.state[p])
                  && (t.state[p].RUNNING? ==> OnStack(t.cpus[a.c].pc, p))
                  && (a.Touch? ==> u.state[p] == a.to))
  {
    hide Run, Legal;
    var t := Reached(run);
    SubjectOk(t, a) by { assert CpuOk(t, a.c); }
    var x := Subject(t, a);
    assert CpuOk(t, a.c) && LockOk(t, a.c, x) && ProcOk(t, x);
    hide Inv, CpuOk, ProcOk, LockOk;
    if a.Pick? || a.SetState? || a.Touch? { ChangeEdge(t, a, p); } else { NoChange(t, a); }
  }

  lemma NoChange(s: State, a: Action)
    requires Enabled(s, a) && !a.Pick? && !a.SetState? && !a.Touch?
    ensures Shape(Perform(s, a)) && Perform(s, a).state == s.state
  {
  }

  lemma ChangeEdge(s: State, a: Action, p: nat)
    requires Enabled(s, a) && (a.Pick? || a.SetState? || a.Touch?) && p < NPROC && CpuOk(s, a.c)
    requires Subject(s, a) < NPROC && LockOk(s, a.c, Subject(s, a)) && ProcOk(s, Subject(s, a))
    ensures var u := Perform(s, a);
            && Shape(u)
            && (u.state[p] != s.state[p] ==>
                  && s.plock[p] == By(a.c) && Edge(s.state[p], u.state[p])
                  && (s.state[p].RUNNING? ==> OnStack(s.cpus[a.c].pc, p))
                  && (a.Touch? ==> u.state[p] == a.to))
  {
  }

  // ---------------------------------------------------------------- the state a process leaves in

  /** The last process that gave up a CPU, as myproc() named it, and the state it asked for. */
  datatype Departure = Nobody | Of(proc: Option, to: ProcState)

  function Note(s: State, m: seq<Departure>, a: Action): seq<Departure>
    requires Enabled(s, a)
  {
    if a.Leave? && a.c < |m| then m[a.c := Of(s.cpus[a.c].proc, a.to)] else m
  }

  ghost function Noted(s: State, run: seq<Action>, m: seq<Departure>): seq<Departure>
    requires Legal(s, run)
    decreases |run|
  {
    if run == [] then m else Noted(Perform(s, run[0]), run[1..], Note(s, m, run[0]))
  }

  ghost function Departures(run: seq<Action>): seq<Departure>
    requires Legal(Initial(), run)
  {
    Noted(Initial(), run, seq(NCPU, _ => Nobody))
  }

  ghost predicate AsLeft(s: State, m: seq<Departure>, k: nat)
    requires Shape(s) && k < NCPU && |m| == NCPU
  {
    var pc := s.cpus[k].pc;
    && (pc.Leaving? ==> m[k] == Of(Some(pc.p), pc.to))
    && ((pc.Left? || pc.Back?) && pc.p < NPROC ==> m[k] == Of(Some(pc.p), s.state[pc.p]))
  }

  ghost predicate AllAsLeft(s: State, m: seq<Departure>)
  {
    Shape(s) && |m| == NCPU && forall k: nat :: k < NCPU ==> AsLeft(s, m, k)
  }

  lemma OtherAsLeft(s: State, m: seq<Departure>, a: Action, k: nat)
    requires Enabled(s, a) && k < NCPU && |m| == NCPU && k != a.c && CpuOk(s, a.c) && CpuOk(s, k) && AsLeft(s, m, k)
    requires Subject(s, a) < NPROC && LockOk(s, a.c, Subject(s, a)) && LockOk(s, k, Subject(s, a))
    ensures Shape(Perform(s, a)) && |Note(s, m, a)| == NCPU && AsLeft(Perform(s, a), Note(s, m, a), k)
  {
    var t := Perform(s, a);
    assert t.cpus[k] == s.cpus[k];
    assert a.Pick? || a.SetState? || a.Touch? || t.state == s.state;
  }

  lemma SelfAsLeft(s: State, m: seq<Departure>, a: Action)
    requires Enabled(s, a) && |m| == NCPU && Placed(s, a.c) && AsLeft(s, m, a.c)
    ensures Shape(Perform(s, a)) && |Note(s, m, a)| == NCPU && AsLeft(Perform(s, a), Note(s, m, a), a.c)
  {
    hide PushOff, PopOff, HeldAt;
  }

  lemma AsLeftStep(s: State, m: seq<Departure>, a: Action)
    requires Inv(s) && Enabled(s, a) && AllAsLeft(s, m)
    ensures AllAsLeft(Perform(s, a), Note(s, m, a))
  {
    hide CpuOk, LockOk, ProcOk, AsLeft, Perform, Enabled, Note;
    var t, n, c := Perform(s, a), Note(s, m, a), a.c;
    assert c < NCPU && Shape(t) by { ActsInShape(s, a); }
    assert CpuOk(s, c);
    SubjectOk(s, a);
    var x := Subject(s, a);
    assert |n| == NCPU && AsLeft(t, n, c) by {
      IsPlaced(s, c);
      assert AsLeft(s, m, c);
      SelfAsLeft(s, m, a);
    }
    forall k: nat | k < NCPU ensures AsLeft(t, n, k) {
      if k != c {
        assert CpuOk(s, k) && AsLeft(s, m, k) && LockOk(s, c, x) && LockOk(s, k, x);
        OtherAsLeft(s, m, a, k);
      }
    }
  }

  lemma {:induction false} RunAsLeft(s: State, run: seq<Action>, m: seq<Departure>)
    requires Inv(s) && AllAsLeft(s, m) && Legal(s, run)
    ensures AllAsLeft(Run(s, run), Noted(s, run, m))
    decreases |run|
  {
    hide Inv, AllAsLeft, Perform, Enabled, Note;
    if run != [] {
      Preserved(s, run[0]);
      AsLeftStep(s, m, run[0]);
      RunAsLeft(Perform(s, run[0]), run[1..], Note(s, m, run[0]));
    }
  }

  /** In every run, from the write of p->state to the scheduler's c->proc = 0, the process that left a CPU is in the
      state that its yield, sleep or exit asked for. */
  lemma LeftAsAsked(run: seq<Action>, c: nat)
    requires Legal(Initial(), run) && c < NCPU && Shape(Run(Initial(), run))
    requires Run(Initial(), run).cpus[c].pc.Left? || Run(Initial(), run).cpus[c].pc.Back?
    ensures var t := Run(Initial(), run);
            var p := t.cpus[c].pc.p;
            && p < NPROC && c < |Departures(run)| && t.cpus[c].proc == Some(p)
            && Departures(run)[c] == Of(Some(p), t.state[p])
  {
    hide Run, Legal, Noted;
    InitialInv();
    var t := Reached(run);
    RunAsLeft(Initial(), run, seq(NCPU, _ => Nobody));
    assert CpuOk(t, c) && AsLeft(t, Departures(run), c);
  }

  // ---------------------------------------------------------------- interrupts belong to the thread

  /** Whether interrupts are on, or will be when the last push_off is undone. */
  function Wanted(c: Cpu): bool { if c.noff == 0 then c.intr else c.intena }

  /** The CPU runs the thread of its process, not the hand-over from or to the scheduler. */
  predicate InThread(pc: Pc) { pc.Inside? || pc.Leaving? || pc.Left? || pc.Other? }

  /** What the thread of `p` has interrupts set to: on its CPU, or in its frame of sched. */
  function Thread(s: State, p: nat): Saved
    requires Shape(s) && p < NPROC
  {
    var r := s.runner[p];
    if r.By? && r.c < NCPU && InThread(s.cpus[r.c].pc) then Kept(Wanted(s.cpus[r.c])) else s.saved[p]
  }

  /** The steps that decide a thread's setting: its own intr_on and intr_off, its allocation, and its first run. */
  predicate Sets(s: State, a: Action, p: nat)
    requires Enabled(s, a) && p < NPROC
  {
    var pc := s.cpus[a.c].pc;
    || (a.SetIntr? && pc.Inside? && pc.p == p)
    || (a.Touch? && pc.q == p && a.to.USED?)
    || (a.Resume? && pc.p == p && s.saved[p].Fresh?)
  }

  lemma PushPop(c: Cpu)
    requires c.intr ==> c.noff == 0
    ensures Wanted(PushOff(c)) == Wanted(c) && !PushOff(c).intr
    ensures c.noff >= 1 ==> Wanted(PopOff(c)) == Wanted(c)
    ensures PopOff(PushOff(c)).intr == c.intr && PopOff(PushOff(c)).noff == c.noff
  {
  }

  /** The steps that move a thread between its CPU and its frame of sched. */
  predicate Moves(a: Action) { a.Pick? || a.Return? || a.Resume? || a.Switch? || a.Touch? }

  lemma LockFrame(s: State, a: Action)
    requires Enabled(s, a) && !Moves(a)
    ensures var u := Perform(s, a);
            && u.runner == s.runner && u.saved == s.saved && Shape(u)
            && u.cpus == s.cpus[a.c := u.cpus[a.c]]
            && InThread(u.cpus[a.c].pc) == InThread(s.cpus[a.c].pc)
  {
    hide PushOff, PopOff;
  }

  lemma LockTakes(s: State, a: Action)
    requires Enabled(s, a) && (a.Look? || a.Leave? || a.Grab? || a.TakeOther? || a.SetState?)
    requires s.cpus[a.c].intr ==> s.cpus[a.c].noff == 0
    ensures |Perform(s, a).cpus| == NCPU && Wanted(Perform(s, a).cpus[a.c]) == Wanted(s.cpus[a.c])
  {
    hide PushOff, PopOff;
    PushPop(s.cpus[a.c]);
  }

  lemma LockFrees(s: State, a: Action)
    requires Enabled(s, a) && (a.Unlock? || a.Ungrab? || a.DropOther? || a.FreeOther?)
    requires (s.cpus[a.c].intr ==> s.cpus[a.c].noff == 0) && s.cpus[a.c].noff >= 1
    ensures |Perform(s, a).cpus| == NCPU && Wanted(Perform(s, a).cpus[a.c]) == Wanted(s.cpus[a.c])
  {
    hide PushOff, PopOff;
    PushPop(s.cpus[a.c]);
  }

  lemma Counted(s: State, a: Action)
    requires Enabled(s, a) && CpuOk(s, a.c)
    ensures s.cpus[a.c].intr ==> s.cpus[a.c].noff == 0
    ensures a.Unlock? || a.Ungrab? || a.DropOther? || a.FreeOther? ==> s.cpus[a.c].noff >= 1
  {
  }

  lemma LockSteps(s: State, a: Action)
    requires Enabled(s, a) && CpuOk(s, a.c) && !Moves(a) && !a.SetIntr?
    ensures |Perform(s, a).cpus| == NCPU && Wanted(Perform(s, a).cpus[a.c]) == Wanted(s.cpus[a.c])
  {
    Counted(s, a);
    hide CpuOk, Perform, Enabled, Wanted;
    if a.Unlock? || a.Ungrab? || a.DropOther? || a.FreeOther? { LockFrees(s, a); } else { LockTakes(s, a); }
  }

  lemma ThreadSame(s: State, u: State, c: nat, p: nat)
    requires Shape(s) && Shape(u) && c < NCPU && p < NPROC && u.runner[p] == s.runner[p] && u.saved[p] == s.saved[p]
    requires u.cpus == s.cpus[c := u.cpus[c]]
    requires InThread(u.cpus[c].pc) == InThread(s.cpus[c].pc)
    requires s.runner[p] == By(c) && InThread(s.cpus[c].pc) ==> Wanted(u.cpus[c]) == Wanted(s.cpus[c])
    ensures Thread(u, p) == Thread(s, p)
  {
  }

  lemma SetIntrStep(s: State, a: Action, p: nat)
    requires Enabled(s, a) && a.SetIntr? && p < NPROC && ProcOk(s, p) && CpuOk(s, a.c) && !Sets(s, a, p)
    ensures Shape(Perform(s, a)) && Thread(Perform(s, a), p) == Thread(s, p)
  {
    ThreadSame(s, Perform(s, a), a.c, p);
  }

  lemma TouchStep(s: State, a: Action, p: nat)
    requires Enabled(s, a) && a.Touch? && p < NPROC && !Sets(s, a, p)
    ensures Shape(Perform(s, a)) && Thread(Perform(s, a), p) == Thread(s, p)
  {
  }

  /** What the CPU that runs `p`, if one does, knows about it. */
  ghost predicate RunnerOk(s: State, p: nat)
    requires Shape(s) && p < NPROC
  {
    s.runner[p].By? ==> s.runner[p].c < NCPU && CpuOk(s, s.runner[p].c) && LockOk(s, s.runner[p].c, p)
  }

  lemma PickStep(s: State, a: Action, p: nat)
    requires Enabled(s, a) && a.Pick? && p < NPROC && ProcOk(s, p) && CpuOk(s, a.c) && LockOk(s, a.c, p)
             && RunnerOk(s, p)
    ensures Shape(Perform(s, a)) && Thread(Perform(s, a), p) == Thread(s, p)
  {
  }

  lemma HandStep(s: State, a: Action, p: nat)
    requires Enabled(s, a) && (a.Return? || a.Switch?) && p < NPROC && ProcOk(s, p) && CpuOk(s, a.c)
    ensures Shape(Perform(s, a)) && Thread(Perform(s, a), p) == Thread(s, p)
  {
  }

  lemma ResumeStep(s: State, a: Action, p: nat)
    requires Enabled(s, a) && a.Resume? && p < NPROC && ProcOk(s, p) && CpuOk(s, a.c) && !Sets(s, a, p)
    ensures Shape(Perform(s, a)) && Thread(Perform(s, a), p) == Thread(s, p)
  {
  }

  lemma ThreadStep(s: State, a: Action, p: nat)
    requires Inv(s) && Enabled(s, a) && p < NPROC && !Sets(s, a, p)
    ensures Shape(Perform(s, a)) && Thread(Perform(s, a), p) == Thread(s, p)
  {
    assert CpuOk(s, a.c) && ProcOk(s, p) && LockOk(s, a.c, p) && RunnerOk(s, p) by {
      if s.runner[p].By? { assert ProcOk(s, p) && CpuOk(s, s.runner[p].c) && LockOk(s, s.runner[p].c, p); }
    }
    hide Inv, CpuOk, ProcOk, LockOk, RunnerOk, Perform, Enabled, Thread, Sets;
    if a.SetIntr? { SetIntrStep(s, a, p); }
    else if a.Touch? { TouchStep(s, a, p); }
    else if a.Pick? { PickStep(s, a, p); }
    else if a.Resume? { ResumeStep(s, a, p); }
    else if Moves(a) { HandStep(s, a, p); }
    else {
      LockFrame(s, a);
      LockSteps(s, a);
      ThreadSame(s, Perform(s, a), a.c, p);
    }
  }

  /** No step of the run decides the setting of the thread of `p`. */
  ghost predicate Undecided(s: State, run: seq<Action>, p: nat)
    requires Legal(s, run) && p < NPROC
    decreases |run|
  {
    run == [] || (!Sets(s, run[0], p) && Undecided(Perform(s, run[0]), run[1..], p))
  }

  lemma {:induction false} ThreadKept(s: State, run: seq<Action>, p: nat)
    requires Inv(s) && Legal(s, run) && p < NPROC && Undecided(s, run, p)
    ensures Shape(Run(s, run)) && Thread(Run(s, run), p) == Thread(s, p)
    decreases |run|
  {
    hide Perform, Enabled, Thread, Sets, CpuOk, ProcOk, LockOk;
    if run != [] {
      Preserved(s, run[0]);
      ThreadStep(s, run[0], p);
      ThreadKept(Perform(s, run[0]), run[1..], p);
    }
  }

  /** Interrupts are a property of the thread: when a process turns them on or off, then whatever it does and on
      whatever CPU it later is, with no spinlock held they are as it set them. */
  lemma IntrAsSet(before: seq<Action>, a: Action, after: seq<Action>, d: nat)
    requires Legal(Initial(), before) && Enabled(Run(Initial(), before), a) && a.SetIntr?
    requires Run(Initial(), before).cpus[a.c].pc.Inside? && Run(Initial(), before).cpus[a.c].pc.p < NPROC
    requires Legal(Perform(Run(Initial(), before), a), after)
    requires var s := Run(Initial(), before); Undecided(Perform(s, a), after, s.cpus[a.c].pc.p)
    requires d < NCPU && Shape(Run(Perform(Run(Initial(), before), a), after))
    ensures var p := Run(Initial(), before).cpus[a.c].pc.p;
            var c := Run(Perform(Run(Initial(), before), a), after).cpus[d];
            InThread(c.pc) && c.pc.p == p ==> if c.noff == 0 then c.intr == a.on else !c.intr && c.intena == a.on
  {
    hide Run, Legal, Undecided;
    var s := Reached(before);
    var p, u := s.cpus[a.c].pc.p, Perform(s, a);
    assert CpuOk(s, a.c);
    Preserved(s, a);
    assert Thread(u, p) == Kept(a.on);
    RunInv(u, after);
    ThreadKept(u, after, p);
    var t := Run(u, after);
    assert CpuOk(t, d);
  }
}
