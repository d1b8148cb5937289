/** Directory entries and link counts: create, link, unlink and iput as interleaved steps
    (kernel/sysfile.c, kernel/fs.c). A system call takes one step for each stretch in which it holds
    the inode locks it needs. */
module Links {

  const ROOTINO: nat := 1
  const SHORT_MAX: int := 32767

  /** Assignment to the `short` field nlink. */
  function Short(x: int): int
  {
    (x + SHORT_MAX + 1) % (2 * (SHORT_MAX + 1)) - SHORT_MAX - 1
  }

  lemma ShortFits(x: int)
    requires -SHORT_MAX - 1 <= x <= SHORT_MAX
    ensures Short(x) == x
  {
  }

  datatype Kind = Dir | File | Device

  /** A directory slot; inode number 0 marks it free. */
  datatype Entry = Entry(name: string, inum: nat)

  datatype Node = Node(kind: Kind, nlink: int, entries: seq<Entry>)

  /** `linked` holds the directories that have been created and not
      unlinked. `promised` are links already counted whose entry is still to be written; `owed` are links
      whose entry is gone but which are still counted. `making` maps an inode under construction to the
      directory it is meant for. */
  datatype State = State(nodes: map<nat, Node>, linked: set<nat>, promised: multiset<nat>,
                         owed: multiset<nat>, making: map<nat, nat>)

  // ---------------------------------------------------------------- directories

  /** dirlookup: the first slot that holds the name. */
  method DirLookup(entries: seq<Entry>, name: string) returns (k: nat)
    ensures k <= |entries| && (k < |entries| ==> entries[k].inum != 0 && entries[k].name == name)
    ensures k == |entries| <==> !HasName(entries, name)
    ensures forall j :: 0 <= j < k ==> entries[j].inum == 0 || entries[j].name != name
  {
    k := 0;
    while k < |entries|
      invariant 0 <= k <= |entries|
      invariant forall j :: 0 <= j < k ==> entries[j].inum == 0 || entries[j].name != name
    {
      if entries[k].inum != 0 && entries[k].name == name {
        return;
      }
      k := k + 1;
    }
  }

  predicate HasName(entries: seq<Entry>, name: string)
  {
    exists k :: 0 <= k < |entries| && entries[k].inum != 0 && entries[k].name == name
  }

  /** The first free slot, or one past the end. */
  function FreeSlot(entries: seq<Entry>): (k: nat)
    ensures k <= |entries| && (k < |entries| ==> entries[k].inum == 0)
    ensures forall j :: 0 <= j < k ==> entries[j].inum != 0
  {
    if entries == [] || entries[0].inum == 0 then 0 else 1 + FreeSlot(entries[1..])
  }

  function Entered(entries: seq<Entry>, name: string, inum: nat): seq<Entry>
  {
    var k := FreeSlot(entries);
    if k < |entries| then entries[k := Entry(name, inum)] else entries + [Entry(name, inum)]
  }

  /** dirlink: a name that is present is refused; otherwise the entry goes to the first free slot, if writei can
      store it there (`stored`). */
  method DirLink(entries: seq<Entry>, name: string, inum: nat, stored: bool) returns (ok: bool, after: seq<Entry>)
    ensures ok <==> !HasName(entries, name) && stored
    ensures after == if ok then Entered(entries, name, inum) else entries
  {
    var at := DirLookup(entries, name);
    if at < |entries| {
      return false, entries;
    }
    var off := 0;
    while off < |entries|
      invariant 0 <= off <= |entries|
      invariant forall j :: 0 <= j < off ==> entries[j].inum != 0
    {
      if entries[off].inum == 0 {
        break;
      }
      off := off + 1;
    }
    assert off == FreeSlot(entries);
    if !stored {
      return false, entries;
    }
    ok := true;
    after := if off < |entries| then entries[off := Entry(name, inum)] else entries + [Entry(name, inum)];
  }

  /** isdirempty: every slot after the first two is free. */
  method IsDirEmpty(entries: seq<Entry>) returns (empty: bool)
    ensures empty <==> Empty(entries)
  {
    var off := 2;
    while off < |entries|
      invariant 2 <= off
      invariant forall j :: 2 <= j < off && j < |entries| ==> entries[j].inum == 0
    {
      if entries[off].inum != 0 {
        return false;
      }
      off := off + 1;
    }
    return true;
  }

  predicate Empty(entries: seq<Entry>) { forall k :: 2 <= k < |entries| ==> entries[k].inum == 0 }

  // ---------------------------------------------------------------- counting

  predicate Plain(name: string) { name != "." && name != ".." }

  /** Entry `k` of directory `d` stands for a link: "." never does, ".." does while `d` is linked. */
  ghost predicate Counts(s: State, d: nat, k: int)
  {
    && d in s.nodes && s.nodes[d].kind.Dir? && 0 <= k < |s.nodes[d].entries|
    && var e := s.nodes[d].entries[k];
       e.inum != 0 && (Plain(e.name) || (e.name == ".." && d in s.linked))
  }

  ghost predicate Names(s: State, d: nat, k: int, i: nat)
  {
    Counts(s, d, k) && s.nodes[d].entries[k].inum == i
  }

  /** The counted entries that name inode `i`. */
  ghost function Naming(s: State, i: nat): set<(nat, int)>
  {
    set d, k | d in s.nodes && 0 <= k < |s.nodes[d].entries| && Names(s, d, k, i) :: (d, k)
  }

  /** nlink covers every counted entry and every link in transit, and what is named exists. */
  ghost predicate Covered(s: State, i: nat)
  {
    && (Naming(s, i) != {} || i in s.promised || i in s.owed ==> i in s.nodes)
    && (i in s.nodes ==> |Naming(s, i)| + s.promised[i] + s.owed[i] <= s.nodes[i].nlink <= SHORT_MAX)
  }

  ghost predicate PlainNames(s: State, d: nat, k: int, i: nat)
  {
    Names(s, d, k, i) && Plain(s.nodes[d].entries[k].name)
  }

  /** The plain entry `(d, k)` is the only one to name directory `i`, whose ".." is `d`. */
  ghost predicate Parent(s: State, d: nat, k: int, i: nat)
  {
    && i in s.linked && i != d && i in s.nodes
    && |s.nodes[i].entries| >= 2 && s.nodes[i].entries[1] == Entry("..", d)
    && (forall e, l :: PlainNames(s, e, l, i) ==> e == d && l == k)
  }

  /** Nothing names an inode under construction, and its creator is the only one to count on it. */
  ghost predicate Fresh(s: State, i: nat)
  {
    && i in s.nodes && i !in s.linked && Naming(s, i) == {} && s.promised[i] == 1 && s.owed[i] == 0
    && i in s.making && i != 0 && s.nodes[i].nlink == 1 && s.nodes[i].entries <= Dots(i, s.making[i])
  }

  ghost predicate Inv(s: State)
  {
    && Covers(s) && Parents(s) && Creating(s)
    && s.linked <= s.nodes.Keys && 0 !in s.nodes
  }

  // ---------------------------------------------------------------- steps

  datatype Action =
    | Free(i: nat)                             // iput finds no links and the last reference
    | LinkBegin(i: nat)                        // sys_link counts the new link
    | LinkEnter(i: nat, d: nat, name: string)  //   and writes its entry
    | LinkUndo(i: nat)                         //   or, with no parent or no room, takes it back
    | Unlink(d: nat, k: nat)                   // sys_unlink erases slot k of directory d
    | UnlinkDone(i: nat)                       //   and then drops the link
    | Create(d: nat, i: nat, kind: Kind)       // create takes a free inode
    | CreateDots(i: nat, n: nat)               //   writes the first n of "." and ".."
    | CreateEnter(i: nat, name: string)        //   enters it in the directory
    | CreateUndo(i: nat)                       //   or gives up

  function Dots(i: nat, d: nat): seq<Entry> { [Entry(".", i), Entry("..", d)] }

  predicate IsDir(s: State, d: nat) { d in s.nodes && s.nodes[d].kind.Dir? }

  function Target(s: State, d: nat, k: nat): nat
    requires d in s.nodes && k < |s.nodes[d].entries|
  {
    s.nodes[d].entries[k].inum
  }

  /** An inode under construction is locked by its creator, so the other calls leave it alone. Every directory has "."
      and "..", so that dirlink refuses these names. */
  predicate Enabled(s: State, a: Action)
  {
    match a
    case Free(i) => i in s.nodes && s.nodes[i].nlink == 0 && i !in s.making
    case LinkBegin(i) => i in s.nodes && !s.nodes[i].kind.Dir? && i !in s.making
    case LinkEnter(i, d, name) =>
      && i in s.promised && i !in s.making && i in s.nodes && i != 0 && !s.nodes[i].kind.Dir?
      && IsDir(s, d) && d !in s.making && Plain(name) && !HasName(s.nodes[d].entries, name)
    case LinkUndo(i) => i in s.promised && i !in s.making && i in s.nodes
    case Unlink(d, k) =>
      && IsDir(s, d) && d !in s.making && k < |s.nodes[d].entries|
      && var e := s.nodes[d].entries[k];
         && Plain(e.name) && e.inum != 0 && e.inum in s.nodes
         && (IsDir(s, e.inum) ==> Empty(s.nodes[e.inum].entries))
    case UnlinkDone(i) => i in s.owed && i in s.nodes
    case Create(d, i, _) => IsDir(s, d) && i !in s.nodes && i != 0
    case CreateDots(i, n) => i in s.making && IsDir(s, i) && n <= 2
    case CreateEnter(i, name) =>
      && i in s.making && IsDir(s, s.making[i]) && s.making[i] !in s.making && i in s.nodes
      && Plain(name) && !HasName(s.nodes[s.making[i]].entries, name)
      && (IsDir(s, i) ==> s.nodes[i].entries == Dots(i, s.making[i]))
    case CreateUndo(i) => i in s.making && i in s.nodes
  }

  function SetNlink(s: State, i: nat, n: int): State
    requires i in s.nodes
  {
    s.(nodes := s.nodes[i := s.nodes[i].(nlink := Short(n))])
  }

  function SetEntries(s: State, d: nat, entries: seq<Entry>): State
    requires d in s.nodes
  {
    s.(nodes := s.nodes[d := s.nodes[d].(entries := entries)])
  }

  function Enter(s: State, d: nat, name: string, i: nat): State
    requires d in s.nodes
  {
    SetEntries(s, d, Entered(s.nodes[d].entries, name, i))
  }

  function Erase(s: State, d: nat, k: nat): State
    requires d in s.nodes && k < |s.nodes[d].entries|
  {
    SetEntries(s, d, s.nodes[d].entries[k := Entry("", 0)])
  }

  function Perform(s: State, a: Action): State
    requires Enabled(s, a)
  {
    match a
    case Free(i) => s.(nodes := s.nodes - {i}, linked := s.linked - {i})
    case LinkBegin(i) => SetNlink(s, i, s.nodes[i].nlink + 1).(promised := s.promised + multiset{i})
    case LinkEnter(i, d, name) => Enter(s, d, name, i).(promised := s.promised - multiset{i})
    case LinkUndo(i) => SetNlink(s, i, s.nodes[i].nlink - 1).(promised := s.promised - multiset{i})
    case Unlink(d, k) =>
      var i := Target(s, d, k);
      var t := Erase(s, d, k).(owed := s.owed + multiset{i});
      if IsDir(s, i) then SetNlink(t, d, t.nodes[d].nlink - 1).(linked := s.linked - {i}) else t
    case UnlinkDone(i) => SetNlink(s, i, s.nodes[i].nlink - 1).(owed := s.owed - multiset{i})
    case Create(d, i, kind) =>
      s.(nodes := s.nodes[i := Node(kind, 1, [])],
         promised := s.promised + multiset{i}, making := s.making[i := d])
    case CreateDots(i, n) => SetEntries(s, i, Dots(i, s.making[i])[..n])
    case CreateEnter(i, name) =>
      var d := s.making[i];
      var t := Enter(s, d, name, i).(promised := s.promised - multiset{i}, making := s.making - {i});
      if IsDir(s, i) then SetNlink(t, d, t.nodes[d].nlink + 1).(linked := s.linked + {i}) else t
    case CreateUndo(i) =>
      SetNlink(s, i, 0).(promised := s.promised - multiset{i}, making := s.making - {i})
  }

  /** The increment of the step, if it makes one, fits in a `short`. */
  predicate Fits(s: State, a: Action)
    requires Enabled(s, a)
  {
    match a
    case LinkBegin(i) => s.nodes[i].nlink < SHORT_MAX
    case CreateEnter(i, _) => IsDir(s, i) ==> s.nodes[s.making[i]].nlink < SHORT_MAX
    case _ => true
  }

  // ---------------------------------------------------------------- how the steps move the count

  /** No node gains or loses a counted entry. */
  ghost predicate SameEntries(s: State, t: State)
  {
    && (forall d, k, i :: Names(s, d, k, i) <==> Names(t, d, k, i))
    && (forall d, k, i :: PlainNames(s, d, k, i) <==> PlainNames(t, d, k, i))
  }

  lemma InNaming(s: State, d: nat, k: int, i: nat)
    ensures (d, k) in Naming(s, i) <==> Names(s, d, k, i)
  {
  }

  lemma SameNaming(s: State, t: State, i: nat)
    requires SameEntries(s, t)
    ensures Naming(t, i) == Naming(s, i)
  {
    hide Names, Naming, PlainNames;
    forall p: (nat, int) ensures p in Naming(s, i) <==> p in Naming(t, i) {
      InNaming(s, p.0, p.1, i);
      InNaming(t, p.0, p.1, i);
    }
  }

  lemma NamedExists(s: State, d: nat, k: int, i: nat)
    requires Inv(s) && Names(s, d, k, i)
    ensures i in s.nodes
  {
    InNaming(s, d, k, i);
    assert Covered(s, i);
  }

  ghost predicate SameDirs(s: State, t: State)
  {
    && t.linked == s.linked
    && (forall i :: i in s.nodes ==> i in t.nodes && t.nodes[i].kind == s.nodes[i].kind)
    && (forall i :: i in s.nodes && i in s.linked ==> t.nodes[i].entries == s.nodes[i].entries)
  }

  ghost predicate Covers(s: State) { forall i :: Covered(s, i) }

  ghost predicate Parents(s: State)
  {
    forall d, k, i :: PlainNames(s, d, k, i) && i in s.nodes && s.nodes[i].kind.Dir? ==> Parent(s, d, k, i)
  }

  ghost predicate Creating(s: State) { forall i :: i in s.making ==> Fresh(s, i) }

  lemma KeepParents(s: State, t: State)
    requires Inv(s) && SameEntries(s, t) && SameDirs(s, t)
    ensures Parents(t)
  {
    hide Names, Naming, PlainNames;
    forall d, k, i | PlainNames(t, d, k, i) && i in t.nodes && t.nodes[i].kind.Dir? ensures Parent(t, d, k, i) {
      assert PlainNames(s, d, k, i);
      assert i in s.nodes by { PlainIsName(s, d, k, i); NamedExists(s, d, k, i); }
      assert Parent(s, d, k, i);
    }
  }

  lemma PlainIsName(s: State, d: nat, k: int, i: nat)
    requires PlainNames(s, d, k, i)
    ensures Names(s, d, k, i) && d in s.nodes
  {
  }

  // ---------------------------------------------------------------- steps that move no entry

  /** `t` differs from `s` in nlink of `i`, in the links in transit to `i`, and in whether `i` is being made. */
  ghost predicate Recount(s: State, t: State, i: nat)
  {
    && i in s.nodes && i in t.nodes
    && t.nodes == s.nodes[i := s.nodes[i].(nlink := t.nodes[i].nlink)] && t.linked == s.linked
    && t.making == s.making - {i}
    && (forall j :: j != i ==> t.promised[j] == s.promised[j] && t.owed[j] == s.owed[j])
  }

  lemma RecountEntries(s: State, t: State, i: nat)
    requires Recount(s, t, i)
    ensures SameEntries(s, t) && SameDirs(s, t)
  {
  }

  lemma RecountFresh(s: State, t: State, i: nat)
    requires Creating(s) && Recount(s, t, i)
    ensures Creating(t)
  {
    hide Naming, Names, PlainNames, SameEntries;
    RecountEntries(s, t, i);
    forall j | j in t.making ensures Fresh(t, j) {
      assert Fresh(s, j);
      SameNaming(s, t, j);
    }
  }

  /** Such a step keeps the invariant when the balance of `i` does not shrink. */
  lemma RecountKeeps(s: State, t: State, i: nat)
    requires Inv(s) && Recount(s, t, i)
    requires t.nodes[i].nlink <= SHORT_MAX
    requires t.nodes[i].nlink - t.promised[i] - t.owed[i] >= s.nodes[i].nlink - s.promised[i] - s.owed[i]
    ensures Inv(t)
  {
    hide Naming, Names, PlainNames, SameEntries, SameDirs, Parents, Creating;
    RecountEntries(s, t, i);
    RecountFresh(s, t, i);
    forall j ensures Covered(t, j) {
      assert Covered(s, j);
      SameNaming(s, t, j);
    }
    KeepParents(s, t);
  }

  lemma InvCovered(s: State, i: nat)
    requires Inv(s)
    ensures Covered(s, i)
  {
  }

  lemma InvFresh(s: State, i: nat)
    requires Inv(s) && i in s.making
    ensures Fresh(s, i)
  {
  }

  lemma LinkBeginKeeps(s: State, a: Action)
    requires Inv(s) && Enabled(s, a) && a.LinkBegin? && Fits(s, a)
    ensures Inv(Perform(s, a))
  {
    hide Short, Naming, Names, PlainNames, Parents, Creating, Inv;
    InvCovered(s, a.i);
    ShortFits(s.nodes[a.i].nlink + 1);
    RecountKeeps(s, Perform(s, a), a.i);
  }

  lemma LinkUndoKeeps(s: State, a: Action)
    requires Inv(s) && Enabled(s, a) && a.LinkUndo?
    ensures Inv(Perform(s, a))
  {
    hide Short, Naming, Names, PlainNames, Parents, Creating, Inv;
    InvCovered(s, a.i);
    ShortFits(s.nodes[a.i].nlink - 1);
    RecountKeeps(s, Perform(s, a), a.i);
  }

  lemma UnlinkDoneKeeps(s: State, a: Action)
    requires Inv(s) && Enabled(s, a) && a.UnlinkDone?
    ensures Inv(Perform(s, a))
  {
    hide Short, Naming, Names, PlainNames, Parents, Creating, Inv;
    InvCovered(s, a.i);
    ShortFits(s.nodes[a.i].nlink - 1);
    if a.i in s.making { assert Fresh(s, a.i) by { InvFresh(s, a.i); } }
    RecountKeeps(s, Perform(s, a), a.i);
  }

  lemma CreateUndoKeeps(s: State, a: Action)
    requires Inv(s) && Enabled(s, a) && a.CreateUndo?
    ensures Inv(Perform(s, a))
  {
    hide Naming, Names, PlainNames, Parents, Covers;
    assert Fresh(s, a.i);
    RecountKeeps(s, Perform(s, a), a.i);
  }

  // ---------------------------------------------------------------- steps on unnamed inodes

  lemma FreeNames(s: State, i: nat)
    requires Inv(s) && Enabled(s, Free(i))
    ensures forall d, k, j :: Names(Perform(s, Free(i)), d, k, j) <==> d != i && Names(s, d, k, j)
    ensures forall d, k, j :: PlainNames(Perform(s, Free(i)), d, k, j) <==> d != i && PlainNames(s, d, k, j)
  {
  }

  lemma Fewer(s: State, t: State, i: nat)
    requires forall d, k :: Names(t, d, k, i) ==> Names(s, d, k, i)
    ensures Naming(t, i) <= Naming(s, i) && |Naming(t, i)| <= |Naming(s, i)|
  {
    hide Names, Naming;
    forall p: (nat, int) | p in Naming(t, i) ensures p in Naming(s, i) {
      InNaming(t, p.0, p.1, i);
      InNaming(s, p.0, p.1, i);
    }
    SubsetSize(Naming(t, i), Naming(s, i));
  }

  lemma {:induction false} SubsetSize<T>(a: set<T>, b: set<T>)
    requires a <= b
    ensures |a| <= |b|
  {
    if a != {} {
      var x :| x in a;
      SubsetSize(a - {x}, b - {x});
    }
  }

  /** iput frees an inode that no counted entry names, and nothing else relies on it. */
  lemma FreeKeeps(s: State, i: nat)
    requires Inv(s) && Enabled(s, Free(i))
    ensures Inv(Perform(s, Free(i))) && Naming(s, i) == {}
  {
    hide Names, Naming, PlainNames;
    var t := Perform(s, Free(i));
    FreeNames(s, i);
    InvCovered(s, i);
    forall j ensures Covered(t, j) {
      assert Covered(s, j);
      Fewer(s, t, j);
    }
    forall d, k, j | PlainNames(t, d, k, j) && j in t.nodes && t.nodes[j].kind.Dir? ensures Parent(t, d, k, j) {
      assert PlainNames(s, d, k, j);
      assert Parent(s, d, k, j);
    }
    forall j | j in t.making ensures Fresh(t, j) {
      assert Fresh(s, j);
      Fewer(s, t, j);
    }
  }

  lemma CreateKeeps(s: State, a: Action)
    requires Inv(s) && Enabled(s, a) && a.Create?
    ensures Inv(Perform(s, a))
  {
    hide Names, Naming, PlainNames, SameEntries, Parents;
    var t := Perform(s, a);
    assert SameEntries(s, t) by { hide *; CreateEntries(s, a); }
    KeepParents(s, t);
    forall j ensures Covered(t, j) {
      assert Covered(s, j);
      SameNaming(s, t, j);
    }
    forall j | j in t.making ensures Fresh(t, j) {
      if j != a.i { InvFresh(s, j); }
      assert Covered(s, j);
      SameNaming(s, t, j);
    }
  }

  lemma CreateEntries(s: State, a: Action)
    requires Enabled(s, a) && a.Create?
    ensures SameEntries(s, Perform(s, a))
  {
  }

  lemma DotsEntries(s: State, a: Action)
    requires Inv(s) && Enabled(s, a) && a.CreateDots?
    ensures SameEntries(s, Perform(s, a))
  {
    hide Covered, Parent, Naming;
    assert Fresh(s, a.i);
  }

  lemma DotsKeep(s: State, a: Action)
    requires Inv(s) && Enabled(s, a) && a.CreateDots?
    ensures Inv(Perform(s, a))
  {
    hide Names, Naming, PlainNames, SameEntries, Parents;
    var t := Perform(s, a);
    DotsEntries(s, a);
    InvFresh(s, a.i);
    KeepParents(s, t);
    forall j ensures Covered(t, j) {
      assert Covered(s, j);
      SameNaming(s, t, j);
    }
    forall j | j in t.making ensures Fresh(t, j) {
      InvFresh(s, j);
      SameNaming(s, t, j);
    }
  }

  // ---------------------------------------------------------------- steps that write an entry

  /** Entering a name in a directory adds at most the one counted entry, and moves no "..". */
  ghost predicate Adds(s: State, t: State, d: nat, k: int, i: nat)
  {
    && (forall e, l, j :: Names(s, e, l, j) ==> Names(t, e, l, j))
    && (forall e, l, j :: Names(t, e, l, j) ==> Names(s, e, l, j) || (e == d && l == k && j == i))
    && (forall e, l, j :: PlainNames(t, e, l, j) ==> PlainNames(s, e, l, j) || (e == d && l == k && j == i))
    && (forall j :: j in s.nodes <==> j in t.nodes)
    && (forall j :: j in s.nodes ==> t.nodes[j].kind == s.nodes[j].kind && t.nodes[j].nlink == s.nodes[j].nlink)
    && (forall j, e :: j in s.nodes && e != 0 && |s.nodes[j].entries| >= 2 && s.nodes[j].entries[1] == Entry("..", e)
                       ==> |t.nodes[j].entries| >= 2 && t.nodes[j].entries[1] == Entry("..", e))
    && (forall j :: j in s.nodes && j != d ==> t.nodes[j] == s.nodes[j])
  }

  lemma EnterAdds(s: State, d: nat, name: string, i: nat)
    requires IsDir(s, d) && i != 0
    ensures Adds(s, Enter(s, d, name, i), d, FreeSlot(s.nodes[d].entries), i)
  {
  }

  lemma AddedNaming(s: State, t: State, d: nat, k: int, i: nat, j: nat)
    requires Adds(s, t, d, k, i)
    ensures j != i ==> Naming(t, j) == Naming(s, j)
    ensures Naming(s, i) <= Naming(t, i) <= Naming(s, i) + {(d, k)}
    ensures |Naming(t, i)| <= |Naming(s, i)| + 1
  {
    hide Names, PlainNames, Naming;
    forall p: (nat, int)
      ensures p in Naming(s, i) ==> p in Naming(t, i)
      ensures p in Naming(t, i) ==> p in Naming(s, i) + {(d, k)}
      ensures j != i ==> (p in Naming(t, j) <==> p in Naming(s, j))
    {
      InNaming(s, p.0, p.1, i);
      InNaming(t, p.0, p.1, i);
      InNaming(s, p.0, p.1, j);
      InNaming(t, p.0, p.1, j);
    }
    SubsetSize(Naming(t, i), Naming(s, i) + {(d, k)});
  }

  /** Moving one promised link of `i` into directory `d`. */
  ghost predicate Files(s: State, t: State, d: nat, name: string, i: nat)
  {
    && IsDir(s, d) && i != 0 && i in s.nodes && i in s.promised && d !in s.making
    && t == Enter(s, d, name, i).(promised := s.promised - multiset{i}, making := s.making - {i})
  }

  lemma FilesCovers(s: State, t: State, d: nat, name: string, i: nat)
    requires Inv(s) && Files(s, t, d, name, i)
    ensures Covers(t) && Creating(t)
  {
    hide Names, PlainNames, Naming, Parents, Entered, FreeSlot;
    var u := Enter(s, d, name, i);
    var k := FreeSlot(s.nodes[d].entries);
    EnterAdds(s, d, name, i);
    assert Adds(s, t, d, k, i) by { SameNames(u, t); }
    forall j ensures Covered(t, j) {
      assert Covered(s, j) && Covered(s, i);
      AddedNaming(s, t, d, k, i, j);
    }
    forall j | j in t.making ensures Fresh(t, j) {
      assert Fresh(s, j);
      AddedNaming(s, t, d, k, i, j);
    }
  }

  lemma SameNames(s: State, t: State)
    requires t.nodes == s.nodes && t.linked == s.linked
    ensures SameEntries(s, t)
  {
  }

  lemma FilesAdds(s: State, t: State, d: nat, name: string, i: nat)
    requires Files(s, t, d, name, i)
    ensures Adds(s, t, d, FreeSlot(s.nodes[d].entries), i)
  {
    hide Names, PlainNames, Naming, Entered, FreeSlot;
    EnterAdds(s, d, name, i);
    SameNames(Enter(s, d, name, i), t);
  }

  lemma LinkEnterKeeps(s: State, a: Action)
    requires Inv(s) && Enabled(s, a) && a.LinkEnter?
    ensures Inv(Perform(s, a))
  {
    hide Names, PlainNames, Naming, Entered, FreeSlot, Covers, Creating, HasName;
    var t := Perform(s, a);
    assert s.making - {a.i} == s.making;
    assert Files(s, t, a.d, a.name, a.i);
    FilesCovers(s, t, a.d, a.name, a.i);
    FilesParents(s, t, a.d, a.name, a.i);
  }

  /** A file may get any number of plain names; the names of directories do not change. */
  lemma FilesParents(s: State, t: State, d: nat, name: string, i: nat)
    requires Inv(s) && Files(s, t, d, name, i) && !s.nodes[i].kind.Dir?
    ensures Parents(t)
  {
    hide Names, PlainNames, Naming, Entered, FreeSlot, Covers, Creating;
    FilesAdds(s, t, d, name, i);
    forall e, l, j | PlainNames(t, e, l, j) && j in t.nodes && t.nodes[j].kind.Dir? ensures Parent(t, e, l, j) {
      assert PlainNames(s, e, l, j);
      assert Parent(s, e, l, j);
      PlainIsName(s, e, l, j);
    }
  }

  /** Directory `i`, just entered in `d`, becomes linked: its ".." counts from now on. */
  ghost predicate Joins(u: State, t: State, d: nat, i: nat)
  {
    && IsDir(u, d) && IsDir(u, i) && i != d && d != 0 && i !in u.linked && u.nodes[i].entries == Dots(i, d)
    && u.nodes[d].nlink < SHORT_MAX
    && t == SetNlink(u, d, u.nodes[d].nlink + 1).(linked := u.linked + {i})
  }

  lemma JoinNames(u: State, t: State, d: nat, i: nat)
    requires Joins(u, t, d, i)
    ensures forall e, l, j :: Names(t, e, l, j) <==> Names(u, e, l, j) || (e == i && l == 1 && j == d)
    ensures forall e, l, j :: PlainNames(t, e, l, j) <==> PlainNames(u, e, l, j)
  {
    hide Short;
  }

  lemma JoinNaming(u: State, t: State, d: nat, i: nat, j: nat)
    requires Joins(u, t, d, i)
    ensures Naming(t, j) == if j == d then Naming(u, j) + {(i, 1)} else Naming(u, j)
  {
    hide Names, PlainNames, Naming;
    JoinNames(u, t, d, i);
    forall p: (nat, int)
      ensures p in Naming(t, j) <==> p in if j == d then Naming(u, j) + {(i, 1)} else Naming(u, j)
    {
      InNaming(u, p.0, p.1, j);
      InNaming(t, p.0, p.1, j);
    }
  }

  lemma JoinCovers(u: State, t: State, d: nat, i: nat)
    requires Covers(u) && Creating(u) && Joins(u, t, d, i) && d !in u.making && i !in u.making
    ensures Covers(t) && Creating(t)
  {
    hide Names, PlainNames, Naming, Short;
    assert Covered(u, d);
    ShortFits(u.nodes[d].nlink + 1);
    forall j ensures Covered(t, j) {
      assert Covered(u, j);
      JoinNaming(u, t, d, i, j);
    }
    forall j | j in t.making ensures Fresh(t, j) {
      assert Fresh(u, j);
      JoinNaming(u, t, d, i, j);
    }
  }

  lemma JoinParents(s: State, u: State, t: State, d: nat, name: string, i: nat)
    requires Inv(s) && Files(s, u, d, name, i) && Joins(u, t, d, i) && Naming(s, i) == {}
    ensures Parents(t)
  {
    hide Names, PlainNames, Naming, Entered, FreeSlot, Covers, Creating, Short;
    var k := FreeSlot(s.nodes[d].entries);
    FilesAdds(s, u, d, name, i);
    JoinNames(u, t, d, i);
    forall e, l | PlainNames(t, e, l, i) ensures e == d && l == k {
      if PlainNames(s, e, l, i) {
        PlainIsName(s, e, l, i);
        InNaming(s, e, l, i);
      }
    }
    forall e, l, j | PlainNames(t, e, l, j) && j in t.nodes && t.nodes[j].kind.Dir? ensures Parent(t, e, l, j) {
      if j != i {
        assert PlainNames(s, e, l, j);
        assert Parent(s, e, l, j);
        PlainIsName(s, e, l, j);
      }
    }
  }

  lemma CreateEnterKeeps(s: State, a: Action)
    requires Inv(s) && Enabled(s, a) && a.CreateEnter? && Fits(s, a)
    ensures Inv(Perform(s, a))
  {
    hide Names, PlainNames, Naming, Entered, FreeSlot, Covers, Creating, HasName, Short, Parents;
    var t := Perform(s, a);
    var i, d := a.i, s.making[a.i];
    InvFresh(s, i);
    var u := Enter(s, d, a.name, i).(promised := s.promised - multiset{i}, making := s.making - {i});
    FilesCovers(s, u, d, a.name, i);
    if IsDir(s, i) {
      assert Joins(u, t, d, i);
      JoinCovers(u, t, d, i);
      JoinParents(s, u, t, d, a.name, i);
    } else {
      FilesParents(s, u, d, a.name, i);
    }
  }

  // ---------------------------------------------------------------- unlink

  /** Erasing plain entry `(d, k)`, which names `i`; a directory leaves the linked ones. */
  lemma UnlinkNames(s: State, a: Action)
    requires Enabled(s, a) && a.Unlink?
    ensures var t, i := Perform(s, a), Target(s, a.d, a.k);
            forall e, l, j :: Names(t, e, l, j) ==>
              Names(s, e, l, j) && !(e == a.d && l == a.k)
              && !(IsDir(s, i) && e == i && s.nodes[i].entries[l].name == "..")
    ensures forall e, l, j :: PlainNames(Perform(s, a), e, l, j) <==>
              PlainNames(s, e, l, j) && !(e == a.d && l == a.k)
  {
    hide Short, Empty;
  }

  lemma UnlinkNaming(s: State, a: Action, j: nat)
    requires Inv(s) && Enabled(s, a) && a.Unlink?
    ensures var t, i := Perform(s, a), Target(s, a.d, a.k);
            && Naming(t, j) <= Naming(s, j)
            && |Naming(t, j)| <= |Naming(s, j)|
            && (j == i ==> |Naming(t, j)| < |Naming(s, j)|)
            && (IsDir(s, i) && j == a.d ==> |Naming(t, j)| < |Naming(s, j)|)
  {
    hide Covered, Fresh, Short, Empty, Naming;
    var t, i := Perform(s, a), Target(s, a.d, a.k);
    UnlinkNames(s, a);
    Fewer(s, t, j);
    if j == i {
      Loses(s, t, a.d, a.k, j);
    }
    if IsDir(s, i) && j == a.d {
      assert PlainNames(s, a.d, a.k, i);
      assert Parent(s, a.d, a.k, i);
      Loses(s, t, i, 1, j);
    }
  }

  lemma Loses(s: State, t: State, d: nat, k: int, i: nat)
    requires Naming(t, i) <= Naming(s, i) && Names(s, d, k, i) && !Names(t, d, k, i)
    ensures |Naming(t, i)| < |Naming(s, i)|
  {
    hide Names, Naming;
    InNaming(s, d, k, i);
    InNaming(t, d, k, i);
    SubsetSize(Naming(t, i), Naming(s, i) - {(d, k)});
  }

  lemma UnlinkKeeps(s: State, a: Action)
    requires Inv(s) && Enabled(s, a) && a.Unlink?
    ensures Inv(Perform(s, a))
  {
    hide Names, PlainNames, Naming, Short, Empty, Parents, Creating;
    var t, i := Perform(s, a), Target(s, a.d, a.k);
    UnlinkNaming(s, a, a.d);
    InvCovered(s, a.d);
    ShortFits(s.nodes[a.d].nlink - if IsDir(s, i) then 1 else 0);
    assert i != a.d || !IsDir(s, i) by { if IsDir(s, i) { UnlinkOther(s, a); } }
    forall j ensures Covered(t, j) {
      InvCovered(s, j);
      UnlinkNaming(s, a, j);
    }
    UnlinkParents(s, a);
    UnlinkFresh(s, a);
  }

  lemma UnlinkOther(s: State, a: Action)
    requires Inv(s) && Enabled(s, a) && a.Unlink? && IsDir(s, Target(s, a.d, a.k))
    ensures Parent(s, a.d, a.k, Target(s, a.d, a.k))
  {
    hide Naming, Covers, Creating, Empty;
    assert PlainNames(s, a.d, a.k, Target(s, a.d, a.k));
  }

  lemma UnlinkFresh(s: State, a: Action)
    requires Inv(s) && Enabled(s, a) && a.Unlink?
    ensures Creating(Perform(s, a))
  {
    hide Naming, Covers, Parents, Empty, PlainNames;
    var t, i := Perform(s, a), Target(s, a.d, a.k);
    assert Names(s, a.d, a.k, i);
    InNaming(s, a.d, a.k, i);
    hide Names;
    forall j | j in t.making ensures Fresh(t, j) {
      assert Fresh(s, j);
      UnlinkNaming(s, a, j);
    }
  }

  lemma UnlinkParents(s: State, a: Action)
    requires Inv(s) && Enabled(s, a) && a.Unlink?
    ensures Parents(Perform(s, a))
  {
    hide Names, PlainNames, Naming, Covers, Creating, Empty, Short;
    var t, i := Perform(s, a), Target(s, a.d, a.k);
    UnlinkNames(s, a);
    if IsDir(s, i) {
      UnlinkOther(s, a);
    }
    forall e, l, j | PlainNames(t, e, l, j) && j in t.nodes && t.nodes[j].kind.Dir? ensures Parent(t, e, l, j) {
      assert PlainNames(s, e, l, j);
      assert Parent(s, e, l, j);
    }
  }

  // ---------------------------------------------------------------- every run

  /** Every step keeps the invariant, unless it pushes a link count past the largest `short`. */
  lemma Preserved(s: State, a: Action)
    requires Inv(s) && Enabled(s, a) && Fits(s, a)
    ensures Inv(Perform(s, a))
  {
    hide Inv, Perform, Names, Naming;
    match a
    case Free(i) => FreeKeeps(s, i);
    case LinkBegin(_) => LinkBeginKeeps(s, a);
    case LinkEnter(_, _, _) => LinkEnterKeeps(s, a);
    case LinkUndo(_) => LinkUndoKeeps(s, a);
    case Unlink(_, _) => UnlinkKeeps(s, a);
    case UnlinkDone(_) => UnlinkDoneKeeps(s, a);
    case Create(_, _, _) => CreateKeeps(s, a);
    case CreateDots(_, _) => DotsKeep(s, a);
    case CreateEnter(_, _) => CreateEnterKeeps(s, a);
    case CreateUndo(_) => CreateUndoKeeps(s, a);
  }

  /** The overflow is the only way to lose the invariant. */
  lemma OverflowIff(s: State, a: Action)
    requires Inv(s) && Enabled(s, a)
    ensures Inv(Perform(s, a)) <==> Fits(s, a)
  {
    if Fits(s, a) {
      Preserved(s, a);
    } else {
      hide Names, PlainNames, Naming, Parents, Creating, Entered;
      var i := if a.LinkBegin? then a.i else s.making[a.i];
      assert Covered(s, i);
      assert Short(SHORT_MAX + 1) == -SHORT_MAX - 1;
      assert !Covered(Perform(s, a), i);
    }
  }

  ghost predicate Legal(s: State, run: seq<Action>)
    decreases |run|
  {
    run == [] || (Enabled(s, run[0]) && Fits(s, run[0]) && Legal(Perform(s, run[0]), run[1..]))
  }

  ghost function Run(s: State, run: seq<Action>): State
    requires Legal(s, run)
    decreases |run|
  {
    if run == [] then s else Run(Perform(s, run[0]), run[1..])
  }

  /** The root is linked and is its own parent. */
  ghost predicate RootLinked(s: State)
  {
    && ROOTINO in s.linked && IsDir(s, ROOTINO) && ROOTINO !in s.making
    && |s.nodes[ROOTINO].entries| >= 2 && s.nodes[ROOTINO].entries[1] == Entry("..", ROOTINO)
  }

  lemma RootNamed(s: State)
    requires Inv(s) && RootLinked(s)
    ensures s.nodes[ROOTINO].nlink >= 1
  {
    hide Naming;
    InNaming(s, ROOTINO, 1, ROOTINO);
    InvCovered(s, ROOTINO);
  }

  lemma RootUnlink(s: State, a: Action)
    requires Inv(s) && RootLinked(s) && Enabled(s, a) && a.Unlink?
    ensures RootLinked(Perform(s, a))
  {
    hide Naming, Names, Inv, PlainNames, Short, Empty;
    if IsDir(s, Target(s, a.d, a.k)) { UnlinkOther(s, a); }
  }

  lemma RootEnter(s: State, a: Action)
    requires Inv(s) && RootLinked(s) && Enabled(s, a) && (a.LinkEnter? || a.CreateEnter?)
    ensures RootLinked(Perform(s, a))
  {
    hide Naming, Names, Inv, PlainNames, Short, HasName, Entered, FreeSlot;
    if a.LinkEnter? {
      EnterAdds(s, a.d, a.name, a.i);
    } else {
      InvFresh(s, a.i);
      EnterAdds(s, s.making[a.i], a.name, a.i);
    }
  }

  lemma RootCount(s: State, a: Action)
    requires RootLinked(s) && Enabled(s, a) && (a.LinkBegin? || a.LinkUndo? || a.UnlinkDone? || a.CreateUndo?)
    ensures RootLinked(Perform(s, a))
  {
    hide Short;
  }

  lemma RootRest(s: State, a: Action)
    requires Inv(s) && RootLinked(s) && Enabled(s, a) && (a.Free? || a.Create? || a.CreateDots?)
    ensures RootLinked(Perform(s, a))
  {
    hide Naming, Names, Inv, PlainNames, Short, HasName, Empty, Entered, FreeSlot;
    if a.Free? { RootNamed(s); }
  }

  lemma RootKeeps(s: State, a: Action)
    requires Inv(s) && RootLinked(s) && Enabled(s, a)
    ensures RootLinked(Perform(s, a))
  {
    hide Inv, RootLinked, Enabled, Perform;
    if a.Unlink? { RootUnlink(s, a); }
    else if a.LinkEnter? || a.CreateEnter? { RootEnter(s, a); }
    else if a.Free? || a.Create? || a.CreateDots? { RootRest(s, a); }
    else { RootCount(s, a); }
  }

  /** In every run each link count covers its names, whatever each entry names is allocated, and the root stays. */
  lemma {:induction false} LinksCover(s: State, run: seq<Action>)
    requires Inv(s) && RootLinked(s) && Legal(s, run)
    ensures Inv(Run(s, run)) && RootLinked(Run(s, run))
    decreases |run|
  {
    hide Inv, RootLinked, Enabled, Perform, Fits;
    if run != [] {
      Preserved(s, run[0]);
      RootKeeps(s, run[0]);
      LinksCover(Perform(s, run[0]), run[1..]);
    }
  }

  /** iput frees an inode only when no plain entry, in any directory, and no ".." of a linked one names it. */
  lemma FreedIsUnnamed(s: State, run: seq<Action>, i: nat)
    requires Inv(s) && RootLinked(s) && Legal(s, run) && Enabled(Run(s, run), Free(i))
    ensures forall d, k :: !Names(Run(s, run), d, k, i)
    ensures i != ROOTINO
  {
    hide Naming, Legal, Run, Names;
    LinksCover(s, run);
    var t := Run(s, run);
    FreeKeeps(t, i);
    forall d, k ensures !Names(t, d, k, i) { InNaming(t, d, k, i); }
    RootKeeps(t, Free(i));
  }

  /** The check `nlink < 1` in sys_unlink never panics. */
  lemma UnlinkHasLink(s: State, run: seq<Action>, d: nat, k: nat)
    requires Inv(s) && RootLinked(s) && Legal(s, run) && Enabled(Run(s, run), Unlink(d, k))
    ensures var t := Run(s, run); t.nodes[Target(t, d, k)].nlink >= 1 + t.owed[Target(t, d, k)]
  {
    hide Legal, Run, Naming;
    LinksCover(s, run);
    var t := Run(s, run);
    var i := Target(t, d, k);
    assert Names(t, d, k, i);
    hide Names;
    InNaming(t, d, k, i);
    assert Covered(t, i);
  }

  /** A file system that holds the root alone. */
  function RootOnly(): State
  {
    State(map[ROOTINO := Node(Dir, 1, Dots(ROOTINO, ROOTINO))], {ROOTINO}, multiset{}, multiset{}, map[])
  }

  lemma InitialInv()
    ensures Inv(RootOnly()) && RootLinked(RootOnly())
  {
    var s := RootOnly();
    forall d, k, i ensures Names(s, d, k, i) <==> d == ROOTINO && k == 1 && i == ROOTINO { }
    forall i ensures Covered(s, i) {
      if i == ROOTINO {
        assert Naming(s, i) == {(ROOTINO, 1)} by {
          forall p: (nat, int) ensures p in Naming(s, i) <==> p in {(ROOTINO, 1)} { InNaming(s, p.0, p.1, i); }
        }
      } else {
        assert Naming(s, i) == {};
      }
    }
  }

  // ---------------------------------------------------------------- the overflow is reached

  /** Two bytes, neither of them NUL, '.' or '/'. */
  function NameOf(k: nat): string
    requires k < 40000
  {
    [(k / 200 + 48) as char, (k % 200 + 48) as char]
  }

  lemma NamesDiffer(j: nat, k: nat)
    requires j < k < 40000
    ensures NameOf(j) != NameOf(k)
  {
    assert j == j / 200 * 200 + j % 200 && k == k / 200 * 200 + k % 200;
  }

  lemma EnteredNames(entries: seq<Entry>, name: string, i: nat, n: string)
    requires HasName(Entered(entries, name, i), n)
    ensures n == name || HasName(entries, n)
  {
    hide FreeSlot;
    var after := Entered(entries, name, i);
    var k :| 0 <= k < |after| && after[k].inum != 0 && after[k].name == n;
    if k != FreeSlot(entries) { assert after[k] == entries[k]; }
  }

  /** File 3 has `n` links, and the names from `k` on are not in use in directories 1 and 2. */
  ghost predicate Linked(s: State, n: int, k: nat)
  {
    && s.making == map[] && IsDir(s, 1) && IsDir(s, 2) && 3 in s.nodes && s.nodes[3].kind.File? && s.nodes[3].nlink == n
    && forall j: nat :: k <= j < 40000 ==> Unnamed(s, j)
  }

  ghost predicate Unnamed(s: State, j: nat)
    requires IsDir(s, 1) && IsDir(s, 2) && j < 40000
  {
    !HasName(s.nodes[1].entries, NameOf(j)) && !HasName(s.nodes[2].entries, NameOf(j))
  }

  lemma LinkOnce(s: State, n: int, k: nat)
    requires Linked(s, n, k) && 1 <= n < SHORT_MAX && k < 40000
    ensures var d := 1 + k % 2;
            && Enabled(s, LinkBegin(3)) && Fits(s, LinkBegin(3))
            && var t := Perform(s, LinkBegin(3));
               && Enabled(t, LinkEnter(3, d, NameOf(k))) && Fits(t, LinkEnter(3, d, NameOf(k)))
               && Linked(Perform(t, LinkEnter(3, d, NameOf(k))), n + 1, k + 1)
  {
    assert Plain(NameOf(k)) by { assert NameOf(k)[0] != '.'; }
    hide Short, HasName, Entered, NameOf;
    ShortFits(n + 1);
    var d := 1 + k % 2;
    assert Unnamed(s, k);
    var t := Perform(s, LinkBegin(3));
    var u := Perform(t, LinkEnter(3, d, NameOf(k)));
    forall j: nat | k + 1 <= j < 40000 ensures Unnamed(u, j) {
      assert Unnamed(s, j);
      NamesDiffer(k, j);
      if HasName(u.nodes[d].entries, NameOf(j)) { EnteredNames(s.nodes[d].entries, NameOf(k), 3, NameOf(j)); }
    }
  }

  /** links of file 3, alternately into directories 1 and 2, until its count is the largest `short`. */
  lemma {:induction false} LinkOn(s: State, n: int, k: nat) returns (run: seq<Action>)
    requires Linked(s, n, k) && 1 <= n <= SHORT_MAX && k + (SHORT_MAX - n) < 40000
    ensures Legal(s, run) && exists k' :: Linked(Run(s, run), SHORT_MAX, k')
    decreases SHORT_MAX - n
  {
    hide Linked, Enabled, Perform, Fits;
    if n == SHORT_MAX {
      run := [];
      assert Linked(Run(s, run), SHORT_MAX, k);
    } else {
      LinkOnce(s, n, k);
      var a, b := LinkBegin(3), LinkEnter(3, 1 + k % 2, NameOf(k));
      var t := Perform(s, a);
      var rest := LinkOn(Perform(t, b), n + 1, k + 1);
      Extend(t, b, rest);
      Extend(s, a, [b] + rest);
      run := [a] + ([b] + rest);
    }
  }

  lemma Extend(s: State, a: Action, run: seq<Action>)
    requires Enabled(s, a) && Fits(s, a) && Legal(Perform(s, a), run)
    ensures Legal(s, [a] + run) && Run(s, [a] + run) == Run(Perform(s, a), run)
  {
    hide Enabled, Perform, Fits;
    assert ([a] + run)[1..] == run;
  }

  /** The root with directory 2, named "d". */
  function WithDir(): State
  {
    State(map[1 := Node(Dir, 2, Dots(1, 1) + [Entry("d", 2)]), 2 := Node(Dir, 1, Dots(2, 1))], {1, 2},
          multiset{}, multiset{}, map[])
  }

  lemma MakeDir() returns (run: seq<Action>)
    ensures Legal(RootOnly(), run) && Run(RootOnly(), run) == WithDir()
  {
    hide Short;
    ShortFits(2);
    var s0 := RootOnly();
    var s1 := Perform(s0, Create(1, 2, Dir));
    var s2 := Perform(s1, CreateDots(2, 2));
    assert s2.nodes[2].entries == Dots(2, 1);
    FreeSlotFull(Dots(1, 1));
    var s3 := Perform(s2, CreateEnter(2, "d"));
    assert s3 == WithDir();
    hide Enabled, Perform, Fits;
    Extend(s2, CreateEnter(2, "d"), []);
    Extend(s1, CreateDots(2, 2), [CreateEnter(2, "d")]);
    Extend(s0, Create(1, 2, Dir), [CreateDots(2, 2)] + [CreateEnter(2, "d")]);
    run := [Create(1, 2, Dir)] + ([CreateDots(2, 2)] + [CreateEnter(2, "d")]);
  }

  /** And with file 3, named "f", in the root. */
  lemma MakeFile() returns (run: seq<Action>)
    ensures Legal(WithDir(), run) && Linked(Run(WithDir(), run), 1, 0)
  {
    var s4 := Perform(WithDir(), Create(1, 3, File));
    FreeSlotFull(Dots(1, 1) + [Entry("d", 2)]);
    var s5 := Perform(s4, CreateEnter(3, "f"));
    assert s5.nodes[1].entries == Dots(1, 1) + [Entry("d", 2)] + [Entry("f", 3)];
    forall j: nat | j < 40000 ensures Unnamed(s5, j) { FewNames(s5, j); }
    assert Linked(s5, 1, 0);
    hide Linked, Enabled, Perform, Fits;
    Extend(s4, CreateEnter(3, "f"), []);
    Extend(WithDir(), Create(1, 3, File), [CreateEnter(3, "f")]);
    run := [Create(1, 3, File)] + [CreateEnter(3, "f")];
  }

  lemma Prepared() returns (run: seq<Action>)
    ensures Legal(RootOnly(), run) && Linked(Run(RootOnly(), run), 1, 0)
  {
    hide Linked, RootOnly, WithDir, Legal, Run;
    var a := MakeDir();
    var b := MakeFile();
    RunJoin(RootOnly(), a, b);
    run := a + b;
  }

  lemma FewNames(s: State, j: nat)
    requires IsDir(s, 1) && IsDir(s, 2) && j < 40000 && s.nodes[2].entries == Dots(2, 1)
    requires s.nodes[1].entries == Dots(1, 1) + [Entry("d", 2)] + [Entry("f", 3)]
    ensures Unnamed(s, j)
  {
    assert NameOf(j) != "." && NameOf(j) != ".." && NameOf(j) != "d" && NameOf(j) != "f" by {
      assert NameOf(j)[0] != '.' && |NameOf(j)| == 2;
    }
    hide NameOf;
  }

  lemma FreeSlotFull(entries: seq<Entry>)
    requires forall k :: 0 <= k < |entries| ==> entries[k].inum != 0
    ensures FreeSlot(entries) == |entries|
  {
  }

  lemma {:induction false} RunJoin(s: State, a: seq<Action>, b: seq<Action>)
    requires Legal(s, a) && Legal(Run(s, a), b)
    ensures Legal(s, a + b) && Run(s, a + b) == Run(Run(s, a), b)
    decreases |a|
  {
    hide Enabled, Perform, Fits;
    if a == [] {
      assert a + b == b;
    } else {
      RunJoin(Perform(s, a[0]), a[1..], b);
      assert (a + b)[1..] == a[1..] + b;
    }
  }

  /** From a new file system a run leads to a file with as many links as a `short` can count; one more link makes the
      count negative and the invariant false. */
  lemma OverflowReached() returns (run: seq<Action>)
    ensures Legal(RootOnly(), run)
    ensures var t := Run(RootOnly(), run);
            && Inv(t) && Enabled(t, LinkBegin(3)) && !Fits(t, LinkBegin(3))
            && var u := Perform(t, LinkBegin(3)); !Inv(u) && 3 in u.nodes && u.nodes[3].nlink == -SHORT_MAX - 1
  {
    hide Inv, Legal, Run;
    var first := Prepared();
    var s := Run(RootOnly(), first);
    var rest := LinkOn(s, 1, 0);
    RunJoin(RootOnly(), first, rest);
    run := first + rest;
    var t := Run(RootOnly(), run);
    InitialInv();
    LinksCover(RootOnly(), run);
    OverflowIff(t, LinkBegin(3));
    assert Short(SHORT_MAX + 1) == -SHORT_MAX - 1;
  }
}
