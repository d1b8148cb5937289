/** sleep and wakeup (kernel/proc.c) for any conditions: processes share some state under the lock `lk`, and each
    channel stands for a condition on it. A process that finds the condition of a channel false may sleep on it. A
    process may change the state in any way while it holds the lock, if it calls wakeup, before letting go, for every
    channel whose condition it made true. */
module Wakeup {

  const NPROC: nat := 64

  /** Where a process is. */
  datatype Pc =
    | Out                                          // not using the lock
    | Want                                         // acquire lk
    | In(debts: set<nat>)                          // holds it; channels made true and not yet signalled
    | Sleep1(c: nat)                               // sleep on c: about to acquire p->lock
    | Sleep2(c: nat)                               //   holds both, about to release lk
    | Sleep3(c: nat)                               //   holds p->lock, about to become SLEEPING
    | Parking(c: nat)                              //   is SLEEPING, p->lock still held until the scheduler releases it
    | Asleep(c: nat)                               // SLEEPING on c
    | Ready                                        // RUNNABLE again
    | Woken                                        // running again, with p->lock from the scheduler
    | Wake(c: nat, i: nat, debts: set<nat>)        // wakeup on c is about to look at process i
    | WakeHold(c: nat, i: nat, debts: set<nat>)    //   holds the lock of process i

  datatype Holder = NoOne | By(p: nat)

  /** `ready` are the channels whose condition holds. */
  datatype State = State(pc: seq<Pc>, lk: Holder, plock: seq<Holder>, ready: set<nat>)

  datatype Action =
    | Enter(p: nat)
    | Change(p: nat, ready: set<nat>)  // any change of the shared state
    | Signal(p: nat, c: nat)           // wakeup(c)
    | Doze(p: nat, c: nat)             // the condition of c is false: sleep(c, lk)
    | Release(p: nat)
    | Step(p: nat)                     // go on with sleep or wakeup, or acquire lk
    | Kill(p: nat)

  ghost predicate Shape(s: State) { |s.pc| == NPROC && |s.plock| == NPROC }

  predicate Enabled(s: State, a: Action)
  {
    && |s.pc| == NPROC && |s.plock| == NPROC && a.p < NPROC
    && var pc := s.pc[a.p];
       match a
       case Enter(_) => pc.Out?
       case Change(_, _) => pc.In?
       case Signal(_, _) => pc.In?
       case Doze(_, c) => pc.In? && pc.debts == {} && c !in s.ready
       case Release(_) => pc.In? && pc.debts == {}
       case Kill(_) => pc.Asleep? && s.plock[a.p].NoOne?
       case Step(_) =>
         match pc
         case Want => s.lk.NoOne?
         case Sleep1(_) => s.plock[a.p].NoOne?
         case Sleep2(_) => true
         case Sleep3(_) => true
         case Parking(_) => true
         case Ready => s.plock[a.p].NoOne?
         case Woken => true
         case Wake(_, i, _) => i >= NPROC || i == a.p || s.plock[i].NoOne?
         case WakeHold(_, i, _) => i < NPROC
         case _ => false
  }

  function Go(s: State, p: nat, pc: Pc): State
    requires p < |s.pc|
  {
    s.(pc := s.pc[p := pc])
  }

  function Advance(s: State, p: nat): State
    requires Enabled(s, Step(p))
  {
    match s.pc[p]
    case Want => Go(s, p, In({})).(lk := By(p))
    case Sleep1(c) => Go(s, p, Sleep2(c)).(plock := s.plock[p := By(p)])
    case Sleep2(c) => Go(s, p, Sleep3(c)).(lk := NoOne)
    case Sleep3(c) => Go(s, p, Parking(c))
    case Parking(c) => Go(s, p, Asleep(c)).(plock := s.plock[p := NoOne])
    case Ready => Go(s, p, Woken).(plock := s.plock[p := By(p)])
    case Woken => Go(s, p, Want).(plock := s.plock[p := NoOne])
    case Wake(c, i, debts) =>
      if i >= NPROC then Go(s, p, In(debts - {c}))
      else if i == p then Go(s, p, Wake(c, i + 1, debts))
      else Go(s, p, WakeHold(c, i, debts)).(plock := s.plock[i := By(p)])
    case WakeHold(c, i, debts) =>
      var t := if s.pc[i] == Asleep(c) then Go(s, i, Ready) else s;
      Go(t, p, Wake(c, i + 1, debts)).(plock := s.plock[i := NoOne])
  }

  function Perform(s: State, a: Action): State
    requires Enabled(s, a)
  {
    var p := a.p;
    match a
    case Enter(_) => Go(s, p, Want)
    case Change(_, ready) => Go(s, p, In(s.pc[p].debts + (ready - s.ready))).(ready := ready)
    case Signal(_, c) => Go(s, p, Wake(c, 0, s.pc[p].debts))
    case Doze(_, c) => Go(s, p, Sleep1(c))
    case Release(_) => Go(s, p, Out).(lk := NoOne)
    case Kill(_) => Go(s, p, Ready)
    case Step(_) => Advance(s, p)
  }

  // ---------------------------------------------------------------- the invariant

  predicate HasLk(pc: Pc) { pc.In? || pc.Sleep1? || pc.Sleep2? || pc.Wake? || pc.WakeHold? }

  /** Holds its own process lock. */
  predicate HasOwn(pc: Pc) { pc.Sleep2? || pc.Sleep3? || pc.Parking? || pc.Woken? }

  /** Past the test of the condition, has let go of the lock, and is not yet awake. */
  predicate Drowsy(pc: Pc) { pc.Sleep3? || pc.Parking? || pc.Asleep? }

  function Debts(pc: Pc): set<nat> { if pc.In? || pc.Wake? || pc.WakeHold? then pc.debts else {} }

  /** The holder of the lock still has to signal `c`, and has not got to process `q` yet. */
  ghost predicate Coming(s: State, c: nat, q: nat)
    requires Shape(s)
  {
    && s.lk.By? && s.lk.p < NPROC && s.lk.p != q
    && var w := s.pc[s.lk.p]; c in Debts(w) && ((w.Wake? || w.WakeHold?) && w.c == c ==> w.i <= q)
  }

  ghost predicate Ok(s: State, q: nat)
    requires Shape(s) && q < NPROC
  {
    var pc := s.pc[q];
    && (HasLk(pc) <==> s.lk == By(q))
    && (HasOwn(pc) ==> s.plock[q] == By(q))
    && (pc.WakeHold? ==> pc.i < NPROC && pc.i != q && s.plock[pc.i] == By(q))
    && (pc.Sleep1? || pc.Sleep2? ==> pc.c !in s.ready)
    && (Drowsy(pc) && pc.c in s.ready ==> Coming(s, pc.c, q))
  }

  ghost predicate Inv(s: State)
  {
    && Shape(s) && (s.lk.By? ==> s.lk.p < NPROC)
    && forall q: nat :: q < NPROC ==> Ok(s, q)
  }

  // ---------------------------------------------------------------- every step keeps it

  lemma KeepsSleep(s: State, p: nat, q: nat)
    requires Shape(s) && Enabled(s, Step(p)) && q < NPROC && Ok(s, q) && Ok(s, p)
    requires s.lk.By? ==> s.lk.p < NPROC && Ok(s, s.lk.p)
    requires !s.pc[p].Wake? && !s.pc[p].WakeHold?
    ensures Shape(Advance(s, p)) && Ok(Advance(s, p), q)
  {
  }

  lemma KeepsWake(s: State, p: nat, q: nat)
    requires Shape(s) && Enabled(s, Step(p)) && q < NPROC && Ok(s, q) && Ok(s, p) && s.pc[p].Wake?
    requires s.lk.By? ==> s.lk.p < NPROC && Ok(s, s.lk.p)
    ensures Shape(Advance(s, p)) && Ok(Advance(s, p), q)
  {
  }

  lemma KeepsWakeHold(s: State, p: nat, q: nat)
    requires Shape(s) && Enabled(s, Step(p)) && q < NPROC && Ok(s, q) && Ok(s, p) && s.pc[p].WakeHold?
    requires s.lk.By? ==> s.lk.p < NPROC && Ok(s, s.lk.p)
    ensures Shape(Advance(s, p)) && Ok(Advance(s, p), q)
  {
  }

  lemma KeepsOk(s: State, a: Action, q: nat)
    requires Shape(s) && Enabled(s, a) && q < NPROC && Ok(s, q) && Ok(s, a.p)
    requires s.lk.By? ==> s.lk.p < NPROC && Ok(s, s.lk.p)
    ensures Shape(Perform(s, a)) && Ok(Perform(s, a), q)
  {
    hide Advance;
    if a.Step? {
      if s.pc[a.p].Wake? { KeepsWake(s, a.p, q); }
      else if s.pc[a.p].WakeHold? { KeepsWakeHold(s, a.p, q); }
      else { KeepsSleep(s, a.p, q); }
    }
  }

  lemma KeepsHolder(s: State, a: Action)
    requires Inv(s) && Enabled(s, a)
    ensures Perform(s, a).lk.By? ==> Perform(s, a).lk.p < NPROC
  {
  }

  lemma Preserved(s: State, a: Action)
    requires Inv(s) && Enabled(s, a)
    ensures Inv(Perform(s, a))
  {
    hide Ok, Perform, Enabled;
    var t := Perform(s, a);
    KeepsHolder(s, a);
    assert a.p < NPROC by { Acts(s, a); }
    forall q: nat | q < NPROC ensures Shape(t) && Ok(t, q) {
      assert Ok(s, q) && Ok(s, a.p);
      KeepsOk(s, a, q);
    }
    assert Ok(s, 0) && Ok(s, a.p);
    KeepsOk(s, a, 0);
  }

  lemma Acts(s: State, a: Action)
    requires Enabled(s, a)
    ensures a.p < NPROC
  {
  }

  // ---------------------------------------------------------------- every run

  /** Any conditions may hold at first. */
  function Initial(ready: set<nat>): State { State(seq(NPROC, _ => Out), NoOne, seq(NPROC, _ => NoOne), ready) }

  ghost predicate Legal(s: State, run: seq<Action>)
    decreases |run|
  {
    run == [] || (Enabled(s, run[0]) && Legal(Perform(s, run[0]), run[1..]))
  }

  ghost function Run(s: State, run: seq<Action>): State
    requires Legal(s, run)
    decreases |run|
  {
    if run == [] then s else Run(Perform(s, run[0]), run[1..])
  }

  lemma {:induction false} RunInv(s: State, run: seq<Action>)
    requires Inv(s) && Legal(s, run)
    ensures Inv(Run(s, run))
    decreases |run|
  {
    hide Inv, Enabled, Perform;
    if run != [] {
      Preserved(s, run[0]);
      RunInv(Perform(s, run[0]), run[1..]);
    }
  }

  /** In every run, for all conditions and all changes of them: nobody sleeps, or is about to, on a channel whose
      condition holds, unless whoever made it true still holds the lock and has yet to wake them. */
  lemma NoLostWakeup(ready: set<nat>, run: seq<Action>, q: nat)
    requires Legal(Initial(ready), run) && q < NPROC
    ensures var t := Run(Initial(ready), run);
            && Shape(t)
            && (Drowsy(t.pc[q]) && t.pc[q].c in t.ready ==> Coming(t, t.pc[q].c, q))
            && (t.lk.NoOne? ==> !(Drowsy(t.pc[q]) && t.pc[q].c in t.ready))
  {
    hide Run, Legal;
    RunInv(Initial(ready), run);
    var t := Run(Initial(ready), run);
    assert Ok(t, q);
  }

  /** The discipline is needed: changing a condition without a wakeup before the lock is released loses a wakeup. */
  lemma DisciplineIff(s: State, a: Action)
    requires Inv(s) && |s.pc| == NPROC && |s.plock| == NPROC && a.Release? && a.p < NPROC && s.pc[a.p].In?
    ensures Inv(Go(s, a.p, Out).(lk := NoOne)) <==>
              forall q: nat :: q < NPROC && Drowsy(s.pc[q]) ==> s.pc[q].c !in s.ready
  {
    var t := Go(s, a.p, Out).(lk := NoOne);
    assert Ok(s, a.p);
    if forall q: nat :: q < NPROC && Drowsy(s.pc[q]) ==> s.pc[q].c !in s.ready {
      forall q: nat | q < NPROC ensures Ok(t, q) { assert Ok(s, q); }
    } else {
      var q: nat :| q < NPROC && Drowsy(s.pc[q]) && s.pc[q].c in s.ready;
      assert Ok(s, q) && !Ok(t, q);
    }
  }

  // ---------------------------------------------------------------- what sleep promises its caller

  /** The processes that have entered and not left, and the conditions, as the calls tell them. */
  datatype Story = Story(inside: set<nat>, ready: set<nat>)

  function Tell(st: Story, a: Action): Story
  {
    match a
    case Enter(p) => st.(inside := st.inside + {p})
    case Release(p) => st.(inside := st.inside - {p})
    case Change(_, ready) => st.(ready := ready)
    case _ => st
  }

  ghost function Told(run: seq<Action>, st: Story): Story
    decreases |run|
  {
    if run == [] then st else Told(run[1..], Tell(st, run[0]))
  }

  ghost predicate AsTold(s: State, st: Story)
  {
    |s.pc| == NPROC && s.ready == st.ready && forall q: nat :: q < NPROC ==> (q in st.inside <==> !s.pc[q].Out?)
  }

  lemma AdvanceInside(s: State, p: nat, q: nat)
    requires Enabled(s, Step(p)) && q < NPROC
    ensures |Advance(s, p).pc| == NPROC && Advance(s, p).ready == s.ready
    ensures Advance(s, p).pc[q].Out? <==> s.pc[q].Out?
  {
  }

  lemma TellStep(s: State, st: Story, a: Action)
    requires Enabled(s, a) && AsTold(s, st)
    ensures AsTold(Perform(s, a), Tell(st, a))
  {
    hide Advance;
    if a.Step? {
      AdvanceInside(s, a.p, 0);
      forall q: nat | q < NPROC ensures Perform(s, a).pc[q].Out? <==> s.pc[q].Out? { AdvanceInside(s, a.p, q); }
    }
  }

  lemma {:induction false} RunTold(s: State, st: Story, run: seq<Action>)
    requires AsTold(s, st) && Legal(s, run)
    ensures AsTold(Run(s, run), Told(run, st))
    decreases |run|
  {
    hide Enabled, Perform, AsTold, Tell;
    if run != [] {
      TellStep(s, st, run[0]);
      RunTold(Perform(s, run[0]), Tell(st, run[0]), run[1..]);
    }
  }

  /** In every run, sleep gives its caller the lock back: a process that has entered and not released is on its way to
      the lock, holds it, or is in sleep, and whenever its own code runs, `In`, it is the holder. The conditions are
      those of the last change. */
  lemma SleepReturnsHeld(ready: set<nat>, run: seq<Action>, q: nat)
    requires Legal(Initial(ready), run) && q < NPROC
    ensures var t, st := Run(Initial(ready), run), Told(run, Story({}, ready));
            && |t.pc| == NPROC && t.ready == st.ready
            && (q in st.inside <==> !t.pc[q].Out?)
            && (t.pc[q].In? ==> t.lk == By(q) && q in st.inside)
  {
    hide Run, Legal, Told;
    RunInv(Initial(ready), run);
    RunTold(Initial(ready), Story({}, ready), run);
    assert Ok(Run(Initial(ready), run), q);
  }
}
