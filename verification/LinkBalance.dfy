/** Link counts are exact: the balance between the count of an inode and its names moves in no step but one
    (kernel/sysfile.c, kernel/fs.c). And what the steps do to names. */
module LinkBalance {
  import opened Links

  /** By how much the count of inode `i` exceeds its names and its links in transit. */
  ghost function Excess(s: State, i: nat): int
    requires i in s.nodes
  {
    s.nodes[i].nlink - |Naming(s, i)| - s.promised[i] - s.owed[i]
  }

  /** A linked directory begins with "." and "..". */
  ghost predicate DotsAt(s: State, i: nat)
  {
    && IsDir(s, i) && |s.nodes[i].entries| >= 2
    && s.nodes[i].entries[0].name == "." && s.nodes[i].entries[0].inum != 0
    && s.nodes[i].entries[1].name == ".." && s.nodes[i].entries[1].inum != 0
  }

  ghost predicate Dotted(s: State) { forall i :: i in s.linked ==> DotsAt(s, i) }

  /** Directory `i` holds an entry that counts. */
  ghost predicate Holds(s: State, i: nat) { exists k :: Counts(s, i, k) }

  /** iput frees a directory that still holds names: the links they stand for are lost. */
  ghost predicate Leaks(s: State, a: Action) { a.Free? && Holds(s, a.i) }

  // ---------------------------------------------------------------- dots stay

  lemma EnterDots(s: State, d: nat, name: string, i: nat, j: nat)
    requires IsDir(s, d) && DotsAt(s, j)
    ensures DotsAt(Enter(s, d, name, i), j)
  {
    hide FreeSlot;
  }

  lemma DotsStay(s: State, a: Action, j: nat)
    requires Inv(s) && Enabled(s, a) && DotsAt(s, j) && !a.LinkEnter? && !a.CreateEnter? && j in Perform(s, a).linked
    ensures DotsAt(Perform(s, a), j)
  {
    hide Naming, Names, PlainNames, Inv, Short, HasName, Empty, Entered;
    if a.CreateDots? {
      InvFresh(s, a.i);
    } else if a.Unlink? {
      EraseDots(s, a.d, a.k, j);
    }
  }

  lemma EraseDots(s: State, d: nat, k: nat, j: nat)
    requires IsDir(s, d) && k < |s.nodes[d].entries| && Plain(s.nodes[d].entries[k].name) && DotsAt(s, j)
    ensures DotsAt(Erase(s, d, k), j)
  {
  }

  lemma LinkedBefore(s: State, a: Action, j: nat)
    requires Enabled(s, a) && !a.CreateEnter? && j in Perform(s, a).linked
    ensures j in s.linked
  {
    hide Short, HasName, Empty, Entered;
  }

  lemma DottedKeeps(s: State, a: Action)
    requires Inv(s) && Dotted(s) && Enabled(s, a)
    ensures Dotted(Perform(s, a))
  {
    hide Naming, Names, PlainNames, Inv, Short, HasName, Empty, Entered, Perform, Enabled, DotsAt;
    forall j | j in Perform(s, a).linked ensures DotsAt(Perform(s, a), j) {
      if a.CreateEnter? {
        CreateEnterDots(s, a, j);
      } else {
        LinkedBefore(s, a, j);
        if a.LinkEnter? { LinkEnterDots(s, a, j); } else { DotsStay(s, a, j); }
      }
    }
  }

  lemma LinkEnterDots(s: State, a: Action, j: nat)
    requires Enabled(s, a) && a.LinkEnter? && DotsAt(s, j)
    ensures DotsAt(Perform(s, a), j)
  {
    hide Short, HasName, Entered;
    EnterDots(s, a.d, a.name, a.i, j);
  }

  lemma CreateEnterDots(s: State, a: Action, j: nat)
    requires Inv(s) && Dotted(s) && Enabled(s, a) && a.CreateEnter? && j in Perform(s, a).linked
    ensures DotsAt(Perform(s, a), j)
  {
    hide Naming, Names, PlainNames, Short, HasName, Empty, Entered, Covers, Parents;
    InvFresh(s, a.i);
    var d := s.making[a.i];
    if j in s.linked {
      EnterDots(s, d, a.name, a.i, j);
    } else {
      assert d in s.nodes && d != 0 && j == a.i && j != d;
    }
  }

  // ---------------------------------------------------------------- the balance, step by step

  /** Steps that move no entry. */
  lemma SameExcess(s: State, t: State, j: nat)
    requires SameEntries(s, t) && j in s.nodes && j in t.nodes
    requires t.nodes[j].nlink - t.promised[j] - t.owed[j] == s.nodes[j].nlink - s.promised[j] - s.owed[j]
    ensures Excess(t, j) == Excess(s, j)
  {
    hide Naming, Names, SameEntries;
    SameNaming(s, t, j);
  }

  /** Steps that change one count and the links in transit to that inode by the same number. */
  lemma Rebalanced(s: State, t: State, i: nat, j: nat)
    requires Recount(s, t, i) && j in s.nodes && j in t.nodes
    requires t.nodes[i].nlink - t.promised[i] - t.owed[i] == s.nodes[i].nlink - s.promised[i] - s.owed[i]
    ensures Excess(t, j) == Excess(s, j)
  {
    hide Naming, Names, SameEntries, SameDirs;
    RecountEntries(s, t, i);
    SameExcess(s, t, j);
  }

  lemma BeginKeeps(s: State, a: Action, j: nat)
    requires Inv(s) && Enabled(s, a) && Fits(s, a) && a.LinkBegin? && j in s.nodes && j in Perform(s, a).nodes
    ensures Excess(Perform(s, a), j) == Excess(s, j)
  {
    hide Naming, Names, PlainNames, Short, Inv, Excess;
    InvCovered(s, a.i);
    ShortFits(s.nodes[a.i].nlink + 1);
    Rebalanced(s, Perform(s, a), a.i, j);
  }

  lemma DropKeeps(s: State, a: Action, j: nat)
    requires Inv(s) && Enabled(s, a) && (a.LinkUndo? || a.UnlinkDone?) && j in s.nodes && j in Perform(s, a).nodes
    ensures Excess(Perform(s, a), j) == Excess(s, j)
  {
    hide Naming, Names, PlainNames, Short, Inv, Excess;
    InvCovered(s, a.i);
    ShortFits(s.nodes[a.i].nlink - 1);
    if a.i in s.making { InvFresh(s, a.i); }
    Rebalanced(s, Perform(s, a), a.i, j);
  }

  lemma UndoKeeps(s: State, a: Action, j: nat)
    requires Inv(s) && Enabled(s, a) && a.CreateUndo? && j in s.nodes && j in Perform(s, a).nodes
    ensures Excess(Perform(s, a), j) == Excess(s, j)
  {
    hide Naming, Names, PlainNames, Short, Inv, Excess;
    ShortFits(0);
    InvFresh(s, a.i);
    Rebalanced(s, Perform(s, a), a.i, j);
  }

  lemma MakeKeeps(s: State, a: Action, j: nat)
    requires Inv(s) && Enabled(s, a) && (a.Create? || a.CreateDots?) && j in Perform(s, a).nodes
    ensures j in s.nodes ==> Excess(Perform(s, a), j) == Excess(s, j)
    ensures j !in s.nodes ==> Excess(Perform(s, a), j) == 0
  {
    hide Naming, Names, PlainNames, SameEntries, Parents, Creating;
    var t := Perform(s, a);
    if a.Create? { CreateEntries(s, a); } else { DotsEntries(s, a); }
    SameNaming(s, t, j);
    InvCovered(s, j);
    if j in s.nodes { SameExcess(s, t, j); }
  }

  /** A plain name in a free slot is one name more. */
  lemma EnterNaming(s: State, t: State, d: nat, name: string, i: nat, j: nat)
    requires IsDir(s, d) && i != 0 && Plain(name) && t.nodes == Enter(s, d, name, i).nodes && t.linked == s.linked
    ensures |Naming(t, j)| == |Naming(s, j)| + if j == i then 1 else 0
  {
    hide Naming, Names, PlainNames, Entered, FreeSlot;
    var k := FreeSlot(s.nodes[d].entries);
    EnterAdds(s, d, name, i);
    SameNames(Enter(s, d, name, i), t);
    assert Adds(s, t, d, k, i);
    AddedNaming(s, t, d, k, i, j);
    NewSlot(s, t, d, name, i);
    InNaming(s, d, k, i);
    InNaming(t, d, k, i);
    assert j == i ==> Naming(t, i) == Naming(s, i) + {(d, k)};
  }

  lemma NewSlot(s: State, t: State, d: nat, name: string, i: nat)
    requires IsDir(s, d) && i != 0 && Plain(name) && t.nodes == Enter(s, d, name, i).nodes && t.linked == s.linked
    ensures var k := FreeSlot(s.nodes[d].entries); Names(t, d, k, i) && !Names(s, d, k, i)
  {
  }

  lemma EnterKeeps(s: State, a: Action, j: nat)
    requires Inv(s) && Enabled(s, a) && Fits(s, a) && (a.LinkEnter? || a.CreateEnter?) && j in s.nodes
    ensures j in Perform(s, a).nodes && Excess(Perform(s, a), j) == Excess(s, j)
  {
    hide Naming, Names, PlainNames, Entered, FreeSlot, HasName, Short, Parents, Creating, Covers;
    var t, i := Perform(s, a), a.i;
    if a.LinkEnter? {
      EnterNaming(s, t, a.d, a.name, i, j);
    } else {
      InvFresh(s, i);
      var d := s.making[i];
      var u := Enter(s, d, a.name, i).(promised := s.promised - multiset{i}, making := s.making - {i});
      EnterNaming(s, u, d, a.name, i, j);
      if IsDir(s, i) {
        assert Joins(u, t, d, i);
        JoinNaming(u, t, d, i, j);
        NotYet(u, d, i);
        InvCovered(s, d);
        ShortFits(s.nodes[d].nlink + 1);
      }
    }
  }

  /** The ".." of a directory that is not linked does not count. */
  lemma NotYet(u: State, d: nat, i: nat)
    requires i in u.nodes && i !in u.linked && u.nodes[i].entries == Dots(i, d)
    ensures (i, 1) !in Naming(u, d)
  {
    InNaming(u, i, 1, d);
  }

  lemma UnlinkExact(s: State, a: Action, e: nat, l: int, j: nat)
    requires Inv(s) && Dotted(s) && Enabled(s, a) && a.Unlink?
    ensures var i := Target(s, a.d, a.k);
            Names(Perform(s, a), e, l, j) <==>
              Names(s, e, l, j) && !(e == a.d && l == a.k) && !(IsDir(s, i) && e == i && l == 1)
  {
    hide Short, Naming, Covers, Creating;
    var i := Target(s, a.d, a.k);
    if IsDir(s, i) {
      UnlinkOther(s, a);
      assert DotsAt(s, i);
    }
  }

  lemma UnlinkCount(s: State, a: Action, j: nat)
    requires Inv(s) && Dotted(s) && Enabled(s, a) && a.Unlink?
    ensures var i := Target(s, a.d, a.k);
            |Naming(Perform(s, a), j)| ==
              |Naming(s, j)| - (if j == i then 1 else 0) - (if IsDir(s, i) && j == a.d then 1 else 0)
  {
    hide Names, PlainNames, Naming, Short, Empty, Inv, Perform, Dotted;
    var t, i := Perform(s, a), Target(s, a.d, a.k);
    var gone := (if j == i then {(a.d, a.k as int)} else {}) + if IsDir(s, i) && j == a.d then {(i, 1)} else {};
    UnlinkGone(s, a);
    forall p: (nat, int) ensures p in Naming(t, j) <==> p in Naming(s, j) - gone {
      InNaming(s, p.0, p.1, j);
      InNaming(t, p.0, p.1, j);
      UnlinkExact(s, a, p.0, p.1, j);
      NamesOne(s, p.0, p.1, j, i);
      NamesOne(s, p.0, p.1, j, a.d);
    }
    assert Naming(t, j) == Naming(s, j) - gone;
    InNaming(s, a.d, a.k, i);
    InNaming(s, i, 1, a.d);
    assert gone <= Naming(s, j);
  }

  /** An entry names one inode. */
  lemma NamesOne(s: State, d: nat, k: int, i: nat, j: nat)
    ensures Names(s, d, k, i) && Names(s, d, k, j) ==> i == j
  {
  }

  /** The entry that goes, and the ".." that goes with it, were names of two inodes. */
  lemma UnlinkGone(s: State, a: Action)
    requires Inv(s) && Dotted(s) && Enabled(s, a) && a.Unlink?
    ensures var i := Target(s, a.d, a.k);
            Names(s, a.d, a.k, i) && (IsDir(s, i) ==> i != a.d && Names(s, i, 1, a.d))
  {
    hide Naming, Covers, Creating, Empty;
    if IsDir(s, Target(s, a.d, a.k)) { UnlinkOther(s, a); }
  }

  lemma UnlinkKeepsExcess(s: State, a: Action, j: nat)
    requires Inv(s) && Dotted(s) && Enabled(s, a) && a.Unlink? && j in s.nodes
    ensures j in Perform(s, a).nodes && Excess(Perform(s, a), j) == Excess(s, j)
  {
    hide Names, PlainNames, Naming, Short, Empty, Inv, Dotted;
    var i := Target(s, a.d, a.k);
    UnlinkCount(s, a, j);
    UnlinkGone(s, a);
    InNaming(s, i, 1, a.d);
    InvCovered(s, a.d);
    ShortFits(s.nodes[a.d].nlink - if IsDir(s, i) then 1 else 0);
  }

  lemma FreeExact(s: State, i: nat, j: nat)
    requires Inv(s) && Enabled(s, Free(i)) && j in s.nodes && j != i
    ensures Excess(Perform(s, Free(i)), j) >= Excess(s, j)
    ensures !Holds(s, i) ==> Excess(Perform(s, Free(i)), j) == Excess(s, j)
    ensures (exists k :: Names(s, i, k, j)) ==> Excess(Perform(s, Free(i)), j) > Excess(s, j)
  {
    hide Names, Naming, PlainNames, Inv;
    var t := Perform(s, Free(i));
    FreeNames(s, i);
    Fewer(s, t, j);
    if !Holds(s, i) {
      forall d, k ensures Names(t, d, k, j) <==> Names(s, d, k, j) { if Names(s, i, k, j) { CountsHere(s, i, k, j); } }
      Fewer(t, s, j);
    }
    if k :| Names(s, i, k, j) { Loses(s, t, i, k, j); }
  }

  lemma CountsHere(s: State, d: nat, k: int, i: nat)
    requires Names(s, d, k, i)
    ensures Holds(s, d)
  {
    assert Counts(s, d, k);
  }

  /** Every step but the freeing of a directory that holds names keeps the balance of every inode. */
  lemma ExcessKept(s: State, a: Action, j: nat)
    requires Inv(s) && Dotted(s) && Enabled(s, a) && Fits(s, a) && !Leaks(s, a) && j in Perform(s, a).nodes
    ensures j in s.nodes ==> Excess(Perform(s, a), j) == Excess(s, j)
    ensures j !in s.nodes ==> Excess(Perform(s, a), j) == 0
  {
    hide Inv, Dotted, Excess, Names, Naming, Short, Entered, Fits;
    match a
    case Free(i) => FreeExact(s, i, j);
    case LinkBegin(_) => BeginKeeps(s, a, j);
    case LinkUndo(_) => DropKeeps(s, a, j);
    case UnlinkDone(_) => DropKeeps(s, a, j);
    case CreateUndo(_) => UndoKeeps(s, a, j);
    case Create(_, _, _) => MakeKeeps(s, a, j);
    case CreateDots(_, _) => MakeKeeps(s, a, j);
    case LinkEnter(_, _, _) => EnterKeeps(s, a, j);
    case CreateEnter(_, _) => EnterKeeps(s, a, j);
    case Unlink(_, _) => UnlinkKeepsExcess(s, a, j);
  }

  /** And that freeing does not. */
  lemma LeakIff(s: State, a: Action)
    requires Inv(s) && Dotted(s) && Enabled(s, a) && Fits(s, a)
    ensures (forall j :: j in s.nodes && j in Perform(s, a).nodes ==> Excess(Perform(s, a), j) == Excess(s, j)) <==>
            !Leaks(s, a)
  {
    hide Inv, Dotted, Excess, Names, Naming, Short, Entered, Fits;
    if Leaks(s, a) {
      var j := LeakedTo(s, a.i);
      FreeExact(s, a.i, j);
    } else {
      forall j | j in s.nodes && j in Perform(s, a).nodes ensures Excess(Perform(s, a), j) == Excess(s, j) {
        ExcessKept(s, a, j);
      }
    }
  }

  /** An inode that a directory about to be freed still names. */
  lemma LeakedTo(s: State, i: nat) returns (j: nat)
    requires Inv(s) && Enabled(s, Free(i)) && Holds(s, i)
    ensures j != i && j in s.nodes && exists k :: Names(s, i, k, j)
  {
    hide Inv, Naming;
    var k :| Counts(s, i, k);
    j := s.nodes[i].entries[k].inum;
    assert Names(s, i, k, j);
    NamedExists(s, i, k, j);
    FreeKeeps(s, i);
    InNaming(s, i, k, j);
  }

  // ---------------------------------------------------------------- every run

  /** Each count is exactly the number of names and of links in transit. */
  ghost predicate Exact(s: State) { forall i :: i in s.nodes ==> Excess(s, i) == 0 }

  /** No step of the run frees a directory that holds names. */
  ghost predicate Tidy(s: State, run: seq<Action>)
    requires Legal(s, run)
    decreases |run|
  {
    run == [] || (!Leaks(s, run[0]) && Tidy(Perform(s, run[0]), run[1..]))
  }

  lemma {:induction false} LinksExact(s: State, run: seq<Action>)
    requires Inv(s) && Dotted(s) && Exact(s) && Legal(s, run) && Tidy(s, run)
    ensures Inv(Run(s, run)) && Dotted(Run(s, run)) && Exact(Run(s, run))
    decreases |run|
  {
    hide Inv, Dotted, Excess, Enabled, Perform, Fits, Leaks;
    if run != [] {
      var t := Perform(s, run[0]);
      Preserved(s, run[0]);
      DottedKeeps(s, run[0]);
      forall j | j in t.nodes ensures Excess(t, j) == 0 { ExcessKept(s, run[0], j); }
      LinksExact(t, run[1..]);
    }
  }

  /** From a new file system: an inode without names and links in transit has no links left, so iput can free it. */
  lemma UnnamedIsFreeable(run: seq<Action>, i: nat)
    requires Legal(RootOnly(), run) && Tidy(RootOnly(), run)
    requires var t := Run(RootOnly(), run); i in t.nodes && Naming(t, i) == {} && t.promised[i] == 0 && t.owed[i] == 0
    ensures var t := Run(RootOnly(), run); t.nodes[i].nlink == 0 && Enabled(t, Free(i))
  {
    hide Naming, Legal, Run, Tidy, Inv;
    RootExact();
    LinksExact(RootOnly(), run);
    var t := Run(RootOnly(), run);
    assert Excess(t, i) == 0;
    if i in t.making { InvFresh(t, i); }
  }

  lemma RootExact()
    ensures Inv(RootOnly()) && Dotted(RootOnly()) && Exact(RootOnly())
  {
    InitialInv();
    var s := RootOnly();
    forall p: (nat, int) ensures p in Naming(s, ROOTINO) <==> p in {(ROOTINO, 1)} { InNaming(s, p.0, p.1, ROOTINO); }
    assert Naming(s, ROOTINO) == {(ROOTINO, 1)};
  }

  /** Directory 2 has been removed, is still in use, and a file has been created in it. */
  function Orphaned(): State
  {
    State(map[1 := Node(Dir, 1, Dots(1, 1) + [Entry("", 0)]), 2 := Node(Dir, 0, Dots(2, 1) + [Entry("f", 3)]),
              3 := Node(File, 1, [])], {1}, multiset{}, multiset{}, map[])
  }

  /** Directory 2 has been removed and is still in use. */
  function Removed(): State
  {
    State(map[1 := Node(Dir, 1, Dots(1, 1) + [Entry("", 0)]), 2 := Node(Dir, 0, Dots(2, 1))], {1},
          multiset{}, multiset{}, map[])
  }

  lemma RemoveDir() returns (run: seq<Action>)
    ensures Legal(WithDir(), run) && Run(WithDir(), run) == Removed()
  {
    hide Short;
    ShortFits(0);
    ShortFits(1);
    var s0 := WithDir();
    var s1 := Perform(s0, Unlink(1, 2));
    assert s1.nodes[1].entries == Dots(1, 1) + [Entry("", 0)];
    var s2 := Perform(s1, UnlinkDone(2));
    assert s2 == Removed();
    hide Enabled, Perform, Fits;
    Extend(s1, UnlinkDone(2), []);
    Extend(s0, Unlink(1, 2), [UnlinkDone(2)]);
    run := [Unlink(1, 2)] + [UnlinkDone(2)];
  }

  lemma MakeOrphan() returns (run: seq<Action>)
    ensures Legal(Removed(), run) && Run(Removed(), run) == Orphaned()
  {
    hide Short;
    var s2 := Removed();
    var s3 := Perform(s2, Create(2, 3, File));
    FreeSlotFull(Dots(2, 1));
    var s4 := Perform(s3, CreateEnter(3, "f"));
    assert s4 == Orphaned();
    hide Enabled, Perform, Fits;
    Extend(s3, CreateEnter(3, "f"), []);
    Extend(s2, Create(2, 3, File), [CreateEnter(3, "f")]);
    run := [Create(2, 3, File)] + [CreateEnter(3, "f")];
  }

  /** A file that keeps its link although no name leads to it. */
  ghost predicate Leaked(t: State, i: nat)
  {
    && i in t.nodes && t.nodes[i].nlink == 1 && Naming(t, i) == {} && t.promised[i] == t.owed[i] == 0
    && !Enabled(t, Free(i))
  }

  lemma FreeOrphan() returns (run: seq<Action>)
    ensures Legal(Orphaned(), run) && Leaked(Run(Orphaned(), run), 3)
  {
    var t := Perform(Orphaned(), Free(2));
    forall p: (nat, int) ensures p !in Naming(t, 3) { InNaming(t, p.0, p.1, 3); }
    assert Leaked(t, 3);
    Extend(Orphaned(), Free(2), []);
    run := [Free(2)] + [];
  }

  /** Such a freeing is reached from a new file system: mkdir, rmdir of a directory still in use, a file created in it,
      and the last close. */
  lemma LeakReached() returns (run: seq<Action>)
    ensures Legal(RootOnly(), run) && Inv(Run(RootOnly(), run)) && Leaked(Run(RootOnly(), run), 3)
  {
    hide Legal, Run, Inv, Leaked;
    var a := MakeDir();
    var b := RemoveDir();
    var c := MakeOrphan();
    var d := FreeOrphan();
    RunJoin(RootOnly(), a, b);
    RunJoin(RootOnly(), a + b, c);
    RunJoin(RootOnly(), a + b + c, d);
    run := a + b + c + d;
    InitialInv();
    LinksCover(RootOnly(), run);
  }

  // ---------------------------------------------------------------- names

  /** Name `n` in directory `d` stands for inode `i`. */
  ghost predicate Bound(s: State, d: nat, n: string, i: nat)
  {
    IsDir(s, d) && i != 0 && exists k :: 0 <= k < |s.nodes[d].entries| && s.nodes[d].entries[k] == Entry(n, i)
  }

  /** No name is in a directory twice. */
  ghost predicate OnceIn(entries: seq<Entry>)
  {
    forall k, l :: 0 <= k < l < |entries| && entries[k].inum != 0 && entries[l].inum != 0 ==>
      entries[k].name != entries[l].name
  }

  ghost predicate Once(s: State) { forall d :: IsDir(s, d) ==> OnceIn(s.nodes[d].entries) }

  ghost predicate Has(entries: seq<Entry>, n: string, i: nat)
  {
    i != 0 && exists k :: 0 <= k < |entries| && entries[k] == Entry(n, i)
  }

  lemma EnteredHas(entries: seq<Entry>, name: string, i: nat, n: string, j: nat)
    requires !HasName(entries, name) && OnceIn(entries) && i != 0
    ensures OnceIn(Entered(entries, name, i))
    ensures Has(Entered(entries, name, i), n, j) <==> Has(entries, n, j) || (n == name && j == i)
  {
    hide FreeSlot;
    var after, f := Entered(entries, name, i), FreeSlot(entries);
    assert after[f] == Entry(name, i);
    if Has(entries, n, j) {
      var k :| 0 <= k < |entries| && entries[k] == Entry(n, j);
      assert after[k] == entries[k];
    }
    if Has(after, n, j) {
      var k :| 0 <= k < |after| && after[k] == Entry(n, j);
      assert k != f ==> entries[k] == Entry(n, j);
    }
  }

  lemma ErasedHas(entries: seq<Entry>, k: nat, n: string, j: nat)
    requires OnceIn(entries) && k < |entries| && entries[k].inum != 0
    ensures OnceIn(entries[k := Entry("", 0)])
    ensures Has(entries[k := Entry("", 0)], n, j) <==> Has(entries, n, j) && n != entries[k].name
  {
    var after := entries[k := Entry("", 0)];
    if Has(entries, n, j) && n != entries[k].name {
      var l :| 0 <= l < |entries| && entries[l] == Entry(n, j);
      assert after[l] == entries[l];
    }
    if Has(after, n, j) {
      var l :| 0 <= l < |after| && after[l] == Entry(n, j);
      assert l != k && entries[l] == Entry(n, j);
    }
  }

  /** What a step does to the names: link and create bind one name, unlink takes one away, the dots of a directory under
      construction are its own business, a freed directory takes its names with it, and no other name moves. */
  ghost predicate BoundAfter(s: State, a: Action, d: nat, n: string, i: nat)
    requires Enabled(s, a)
  {
    match a
    case LinkEnter(j, e, name) => Bound(s, d, n, i) || (d == e && n == name && i == j)
    case CreateEnter(j, name) => Bound(s, d, n, i) || (d == s.making[j] && n == name && i == j)
    case Unlink(e, k) => Bound(s, d, n, i) && !(d == e && n == s.nodes[e].entries[k].name)
    case CreateDots(j, m) => if d == j then i != 0 && Entry(n, i) in Dots(j, s.making[j])[..m] else Bound(s, d, n, i)
    case Free(j) => d != j && Bound(s, d, n, i)
    case _ => Bound(s, d, n, i)
  }

  lemma BoundIs(s: State, d: nat, n: string, i: nat)
    ensures Bound(s, d, n, i) <==> IsDir(s, d) && Has(s.nodes[d].entries, n, i)
  {
  }

  lemma EntryStep(s: State, a: Action, d: nat, n: string, i: nat)
    requires Inv(s) && Once(s) && Enabled(s, a) && (a.LinkEnter? || a.CreateEnter?)
    ensures Bound(Perform(s, a), d, n, i) <==> BoundAfter(s, a, d, n, i)
    ensures IsDir(Perform(s, a), d) ==> OnceIn(Perform(s, a).nodes[d].entries)
  {
    hide Inv, Naming, Names, Short, HasName, Entered, OnceIn, Bound;
    var e := if a.LinkEnter? then a.d else s.making[a.i];
    if a.CreateEnter? { InvFresh(s, a.i); }
    BoundIs(s, d, n, i);
    BoundIs(Perform(s, a), d, n, i);
    assert OnceIn(s.nodes[e].entries);
    EnteredHas(s.nodes[e].entries, a.name, a.i, n, i);
  }

  lemma EraseStep(s: State, a: Action, d: nat, n: string, i: nat)
    requires Once(s) && Enabled(s, a) && a.Unlink?
    ensures Bound(Perform(s, a), d, n, i) <==> BoundAfter(s, a, d, n, i)
    ensures IsDir(Perform(s, a), d) ==> OnceIn(Perform(s, a).nodes[d].entries)
  {
    hide Short, Empty, OnceIn, Bound, Has;
    BoundIs(s, d, n, i);
    BoundIs(Perform(s, a), d, n, i);
    assert OnceIn(s.nodes[a.d].entries);
    ErasedHas(s.nodes[a.d].entries, a.k, n, i);
  }

  lemma DotsStep(s: State, a: Action, d: nat, n: string, i: nat)
    requires Once(s) && Enabled(s, a) && a.CreateDots?
    ensures Bound(Perform(s, a), d, n, i) <==> BoundAfter(s, a, d, n, i)
    ensures IsDir(Perform(s, a), d) ==> OnceIn(Perform(s, a).nodes[d].entries)
  {
  }

  /** A directory that keeps its entries keeps its names. */
  lemma SameBound(s: State, t: State, d: nat, n: string, i: nat)
    requires IsDir(t, d) <==> IsDir(s, d)
    requires IsDir(s, d) ==> t.nodes[d].entries == s.nodes[d].entries
    ensures Bound(t, d, n, i) <==> Bound(s, d, n, i)
  {
  }

  lemma OtherStep(s: State, a: Action, d: nat, n: string, i: nat)
    requires Inv(s) && Once(s) && Enabled(s, a) && (a.LinkBegin? || a.LinkUndo? || a.UnlinkDone? || a.CreateUndo?)
    ensures Bound(Perform(s, a), d, n, i) <==> BoundAfter(s, a, d, n, i)
    ensures IsDir(Perform(s, a), d) ==> OnceIn(Perform(s, a).nodes[d].entries)
  {
    CountsOnly(s, a, d);
    hide Inv, Short, OnceIn, Bound, Perform;
    SameBound(s, Perform(s, a), d, n, i);
  }

  lemma NlinkOnly(s: State, i: nat, n: int, d: nat)
    requires i in s.nodes
    ensures var t := SetNlink(s, i, n);
            (IsDir(t, d) <==> IsDir(s, d)) && (IsDir(s, d) ==> t.nodes[d].entries == s.nodes[d].entries)
  {
    hide Short;
  }

  lemma CountsOnly(s: State, a: Action, d: nat)
    requires Enabled(s, a) && (a.LinkBegin? || a.LinkUndo? || a.UnlinkDone? || a.CreateUndo?)
    ensures var t := Perform(s, a);
            (IsDir(t, d) <==> IsDir(s, d)) && (IsDir(s, d) ==> t.nodes[d].entries == s.nodes[d].entries)
  {
    NlinkOnly(s, a.i, if a.LinkBegin? then s.nodes[a.i].nlink + 1 else if a.CreateUndo? then 0
      else s.nodes[a.i].nlink - 1, d);
    hide SetNlink, IsDir;
  }

  lemma NodeStep(s: State, a: Action, d: nat, n: string, i: nat)
    requires Once(s) && Enabled(s, a) && (a.Free? || a.Create?)
    ensures Bound(Perform(s, a), d, n, i) <==> BoundAfter(s, a, d, n, i)
    ensures IsDir(Perform(s, a), d) ==> OnceIn(Perform(s, a).nodes[d].entries)
  {
    hide Short, Has;
    if a.Create? && d == a.i { assert OnceIn([]); } else if a.Create? { SameBound(s, Perform(s, a), d, n, i); }
  }

  /** Every step does to the names exactly that, and names stay unique in each directory. */
  lemma NamesStep(s: State, a: Action)
    requires Inv(s) && Once(s) && Enabled(s, a)
    ensures Once(Perform(s, a))
    ensures forall d, n, i :: Bound(Perform(s, a), d, n, i) <==> BoundAfter(s, a, d, n, i)
  {
    hide Inv, Enabled, Perform, OnceIn, Bound, BoundAfter;
    var t := Perform(s, a);
    forall d, n, i
      ensures Bound(t, d, n, i) <==> BoundAfter(s, a, d, n, i)
      ensures IsDir(t, d) ==> OnceIn(t.nodes[d].entries)
    {
      if a.LinkEnter? || a.CreateEnter? { EntryStep(s, a, d, n, i); }
      else if a.Unlink? { EraseStep(s, a, d, n, i); }
      else if a.CreateDots? { DotsStep(s, a, d, n, i); }
      else if a.Free? || a.Create? { NodeStep(s, a, d, n, i); }
      else { OtherStep(s, a, d, n, i); }
    }
    forall d | IsDir(t, d) ensures OnceIn(t.nodes[d].entries) { assert Bound(t, d, "", 0) || !Bound(t, d, "", 0); }
  }

  // ---------------------------------------------------------------- what create was asked for

  /** The directory and kind that create was last called with for an inode. */
  function NoteCreate(m: map<nat, (nat, Kind)>, a: Action): map<nat, (nat, Kind)>
  {
    if a.Create? then m[a.i := (a.d, a.kind)] else m
  }

  ghost function Created(run: seq<Action>, m: map<nat, (nat, Kind)>): map<nat, (nat, Kind)>
  {
    if run == [] then m else Created(run[1..], NoteCreate(m, run[0]))
  }

  ghost predicate AsCreated(s: State, m: map<nat, (nat, Kind)>)
  {
    && (forall i :: i in s.nodes && i != ROOTINO ==> i in m && s.nodes[i].kind == m[i].1)
    && (forall i :: i in s.making ==> i in m && s.making[i] == m[i].0)
  }

  /** Kinds do not change, and whatever is under construction was before, unless it is new. */
  ghost predicate KindsKept(s: State, t: State)
  {
    && (forall i :: i in t.nodes ==> i in s.nodes && t.nodes[i].kind == s.nodes[i].kind)
    && (forall i :: i in t.making ==> i in s.making && t.making[i] == s.making[i])
  }

  lemma KindsStep(s: State, a: Action)
    requires Enabled(s, a) && !a.Create? && !a.Unlink? && !a.CreateEnter?
    ensures KindsKept(s, Perform(s, a))
  {
    hide Short, HasName, Empty, Entered;
  }

  lemma KindsNames(s: State, a: Action)
    requires Enabled(s, a) && (a.Unlink? || a.CreateEnter?)
    ensures KindsKept(s, Perform(s, a))
  {
    hide Short, HasName, Empty, Entered;
  }

  lemma CreatedStep(s: State, a: Action, m: map<nat, (nat, Kind)>)
    requires Enabled(s, a) && AsCreated(s, m)
    ensures AsCreated(Perform(s, a), NoteCreate(m, a))
  {
    hide Enabled, Perform;
    if a.Create? { CreatedNew(s, a, m); }
    else if a.Unlink? || a.CreateEnter? { KindsNames(s, a); }
    else { KindsStep(s, a); }
  }

  lemma CreatedNew(s: State, a: Action, m: map<nat, (nat, Kind)>)
    requires Enabled(s, a) && AsCreated(s, m) && a.Create?
    ensures AsCreated(Perform(s, a), NoteCreate(m, a))
  {
  }

  /** In every run an inode has the kind that create was called with, and is entered in the directory it was called
      with. */
  lemma {:induction false} CreatedAsAsked(s: State, run: seq<Action>, m: map<nat, (nat, Kind)>)
    requires Legal(s, run) && AsCreated(s, m)
    ensures AsCreated(Run(s, run), Created(run, m))
    decreases |run|
  {
    hide Enabled, Perform, Fits, AsCreated;
    if run != [] {
      CreatedStep(s, run[0], m);
      CreatedAsAsked(Perform(s, run[0]), run[1..], NoteCreate(m, run[0]));
    }
  }
}
