/**
 Sessions that go wrong.  From the initial machine a few commands lead to a missing directory, to a stale
 translation behind an unused TLB entry, and to a copy for which there is no frame.
 */
module VmSessions {
  import opened Seqs
  import opened VmModel
  import opened VmInvariants
  import opened VmTlb
  import opened VmIdeal
  import opened VmCommands
  import opened VmRuns

  // ----- Sessions, one command at a time -----

  /** The outcome of the last command that was carried out. */
  function LastOutcome(s: State, cs: seq<Command>): Outcome
    requires Shape(s) && AllLegal(cs) && cs != []
  {
    Lasts(s, cs);
    var os := RunCommands(s, cs).1;
    os[|os| - 1]
  }

  lemma Lasts(s: State, cs: seq<Command>)
    requires Shape(s) && AllLegal(cs) && cs != []
    ensures RunCommands(s, cs).1 != []
  {
    hide Step, Shape;
  }

  /** The first command, if it does not end the session, hands over to the others. */
  lemma Onward(s: State, c: Command, cs: seq<Command>)
    requires Shape(s) && Legal(c) && AllLegal(cs) && cs != [] && !Ends(Step(s, c).1)
    ensures AllLegal([c] + cs) && LastOutcome(s, [c] + cs) == LastOutcome(Step(s, c).0, cs)
    ensures RunCommands(s, [c] + cs).0 == RunCommands(Step(s, c).0, cs).0
  {
    LegalMore(c, cs);
    assert ([c] + cs)[0] == c && ([c] + cs)[1..] == cs;
    hide Step, Shape, Ends, AllLegal;
    Lasts(Step(s, c).0, cs);
  }

  lemma LegalMore(c: Command, cs: seq<Command>)
    requires Legal(c) && AllLegal(cs)
    ensures AllLegal([c] + cs)
  {
  }

  lemma LastOfOne(s: State, c: Command)
    requires Shape(s) && Legal(c)
    ensures AllLegal([c]) && LastOutcome(s, [c]) == Step(s, c).1 && RunCommands(s, [c]).0 == Step(s, c).0
  {
    hide Step, Shape, Ends;
    var (t, o) := Step(s, c);
    assert [c][1..] == [] && [o] + [] == [o];
    assert RunCommands(t, [c][1..]) == (t, []);
  }

  // ----- A missing directory -----

  /** Any access to the untouched machine goes through a null directory. */
  lemma MissingDirectory(tlbOn: bool, v: nat, rw: nat)
    requires Legal(Access(v, rw))
    ensures AllLegal([Access(v, rw)])
    ensures RunCommands(Initial(tlbOn), [Access(v, rw)]) == (Initial(tlbOn), [Segfault])
  {
    var s := Initial(tlbOn);
    InitialSound(tlbOn);
    assert Lookup(s.procs[0], v) == NO_PTE;
    TranslateIsWalk(s, rw, v);
    hide PageInv, Coherent, Translate;
    assert Step(s, Access(v, rw)) == (s, Segfault);
  }

  // ----- A copy without a frame -----

  ghost predicate Writable(s: State, v: nat) {
    Shape(s) && v < NR_PAGES && Lookup(s.procs[s.cur], v).valid && Lookup(s.procs[s.cur], v).rw == ACCESS_BOTH
  }

  ghost predicate PidsBelow(s: State, pid: nat) {
    forall i :: 0 <= i < |s.procs| ==> s.procs[i].pid < pid
  }

  ghost function Unused(s: State): set<nat>
    requires Shape(s)
  {
    set f | 0 <= f < NR_PAGEFRAMES && s.mapcounts[f] == 0
  }

  /**
   Memory runs out under every process that can write a page: forking and writing the page takes a
   frame each time, until a write reports success without a translation.
   */
  lemma {:induction false} Starves(s: State, v: nat, pid: nat) returns (cs: seq<Command>)
    requires PageInv(s) && Coherent(s) && Writable(s, v) && PidsBelow(s, pid)
    ensures cs != [] && AllLegal(cs) && LastOutcome(s, cs) == Unserved
    decreases |Unused(s)|
  {
    hide PageInv, Coherent, Writable, PidsBelow, Unused, Shape, NeedsCopy, FrameLeft, AllLegal, Faithful;
    var w := Access(v, ACCESS_WRITE);
    ForkShares(s, v, pid);
    var t := DoSwitch(s, pid);
    if FrameLeft(t) {
      CopyTakesFrame(t, v, pid + 1);
      var rest := Starves(Step(t, w).0, v, pid + 1);
      Onward(t, w, rest);
      cs := [w] + rest;
    } else {
      CopyWithoutMemory(t, v, ACCESS_WRITE);
      LastOfOne(t, w);
      cs := [w];
    }
    Onward(s, Switch(pid), cs);
    cs := [Switch(pid)] + cs;
  }

  lemma {:induction false} NobodyFound(s: State, pid: nat, k: nat)
    requires Shape(s) && PidsBelow(s, pid)
    ensures FindPid(s.procs, s.queue, pid, k).None?
    decreases |s.queue| - k
  {
    hide TableShape, FramesInRange;
    if k < |s.queue| {
      NobodyFound(s, pid, k + 1);
    }
  }

  lemma SwitchForks(s: State, pid: nat)
    requires Shape(s) && PidsBelow(s, pid)
    ensures var t := DoSwitch(s, pid);
      && t == Fork(s, pid).(tlb := t.tlb) && |t.procs| == |s.procs| + 1 && t.cur == |s.procs| && t.tlbOn == s.tlbOn
      && Tables(s.procs) && Tables(t.procs) && ForkedTables(s.procs, t.procs, s.cur)
  {
    NobodyFound(s, pid, 0);
    ForkTables(s, pid);
    ForkFields(s, pid);
    hide TableShape, FramesInRange, Fork, ForkedTables, FlushTlb, PidsBelow;
    assert Fork(s, pid).tlbOn == s.tlbOn by {
      ForkMode(s, pid);
    }
  }

  lemma ForkMode(s: State, pid: nat)
    requires Shape(s)
    ensures Fork(s, pid).tlbOn == s.tlbOn && Fork(s, pid).mapcounts == ShareCounts(s.mapcounts, s.procs[s.cur], 0)
  {
    hide Shape, ForkTable, Child, ShareCounts;
  }

  lemma ForkedPids(s: State, pid: nat)
    requires Shape(s) && PidsBelow(s, pid)
    ensures PidsBelow(DoSwitch(s, pid), pid + 1)
  {
    SwitchForks(s, pid);
    ForkFields(s, pid);
    hide Fork, DoSwitch, Shape, ForkedTables;
  }

  /** The fork has taken the write bit away, and the frame is counted at least twice. */
  lemma ForkedShared(s: State, v: nat, pid: nat)
    requires PageInv(s) && Writable(s, v) && PidsBelow(s, pid)
    ensures PageInv(DoSwitch(s, pid)) && NeedsCopy(DoSwitch(s, pid), ACCESS_WRITE, v)
    ensures Lookup(DoSwitch(s, pid).procs[DoSwitch(s, pid).cur], v).pfn == Lookup(s.procs[s.cur], v).pfn
  {
    SwitchKeeps(s, pid);
    SwitchForks(s, pid);
    var t := DoSwitch(s, pid);
    assert PteOk(Lookup(s.procs[s.cur], v));
    hide PageInv, DoSwitch, Fork, Lookup, PidsBelow;
    CountMeans(t, t.cur, v, s.cur, v);
  }

  /** A fork counts mappings up, so it unearths no frame. */
  lemma ForkedUnused(s: State, pid: nat)
    requires PageInv(s) && PidsBelow(s, pid)
    ensures Shape(DoSwitch(s, pid)) && |Unused(DoSwitch(s, pid))| <= |Unused(s)|
  {
    SwitchForks(s, pid);
    ForkMode(s, pid);
    var t := DoSwitch(s, pid);
    assert Shape(t);
    forall f | 0 <= f < NR_PAGEFRAMES && t.mapcounts[f] == 0 ensures s.mapcounts[f] == 0 {
      OncePerTable(s.procs, s.cur, f);
      ShareCountsAt(s.mapcounts, s.procs[s.cur], 0, f);
    }
    hide PageInv, DoSwitch, Fork, ShareCounts;
    SubsetSize(Unused(t), Unused(s));
  }

  /** A fork leaves the page shared, everything sound, and no more frames unused than before. */
  lemma ForkShares(s: State, v: nat, pid: nat)
    requires PageInv(s) && Coherent(s) && Writable(s, v) && PidsBelow(s, pid)
    ensures v < NR_PAGES && Shape(s)
    ensures var t := DoSwitch(s, pid);
      && PageInv(t) && Coherent(t) && PidsBelow(t, pid + 1) && NeedsCopy(t, ACCESS_WRITE, v)
      && !HoleBefore(t.tlb, v) && |Unused(t)| <= |Unused(s)|
  {
    assert Shape(s) && v < NR_PAGES;
    SwitchCoherent(s, pid);
    ForkedPids(s, pid);
    ForkedShared(s, v, pid);
    ForkedUnused(s, pid);
    hide PageInv, Coherent, DoSwitch, Unused, NeedsCopy, PidsBelow, Writable, Shape;
  }

  /** The copying write is served and leaves one unused frame less. */
  lemma CopyTakesFrame(s: State, v: nat, pid: nat)
    requires PageInv(s) && Coherent(s) && v < NR_PAGES && PidsBelow(s, pid)
    requires NeedsCopy(s, ACCESS_WRITE, v) && FrameLeft(s) && !HoleBefore(s.tlb, v)
    ensures var (u, o) := Step(s, Access(v, ACCESS_WRITE));
      && o.Accessed? && PageInv(u) && Coherent(u) && Writable(u, v) && PidsBelow(u, pid) && |Unused(u)| < |Unused(s)|
  {
    RetryServes(s, ACCESS_WRITE, v);
    RetryCoherent(s, ACCESS_WRITE, v);
    ResolvedFacts(s, ACCESS_WRITE, v);
    CopyCounts(s, v);
    hide PageInv, Coherent, HandleFault, Lookup, HoleBefore, InsertTlb, NeedsCopy, FrameLeft;
  }

  lemma CopyCounts(s: State, v: nat)
    requires Shape(s) && v < NR_PAGES && NeedsCopy(s, ACCESS_WRITE, v) && FrameLeft(s)
    ensures var u := Resolved(s, ACCESS_WRITE, v);
      |Unused(u)| < |Unused(s)|
  {
    var f := Lookup(s.procs[s.cur], v).pfn;
    SameFirstFree(s.mapcounts, f, 0);
    var g := FirstFree(s.mapcounts, 0).value;
    var u := Resolved(s, ACCESS_WRITE, v);
    assert u.mapcounts == s.mapcounts[f := s.mapcounts[f] - 1][g := 1];
    hide Lookup, HandleFault, Shape;
    SubsetSize(Unused(u), Unused(s) - {g});
  }

  /** Such a session exists from the start, with and without the TLB. */
  lemma StarvationReachable(tlbOn: bool) returns (cs: seq<Command>)
    ensures cs != [] && AllLegal(cs) && LastOutcome(Initial(tlbOn), cs) == Unserved
  {
    var s := Initial(tlbOn);
    InitialSound(tlbOn);
    FirstAlloc(tlbOn);
    var rest := Starves(Step(s, Alloc(0, ACCESS_BOTH)).0, 0, 1);
    Onward(s, Alloc(0, ACCESS_BOTH), rest);
    cs := [Alloc(0, ACCESS_BOTH)] + rest;
  }

  lemma FirstAlloc(tlbOn: bool)
    ensures var (t, o) := Step(Initial(tlbOn), Alloc(0, ACCESS_BOTH));
      o == Allocated(0) && PageInv(t) && Coherent(t) && Writable(t, 0) && PidsBelow(t, 1)
  {
    InitialSound(tlbOn);
    assert FrameLeft(Initial(tlbOn));
    FreshAlloc(Initial(tlbOn), 0, ACCESS_BOTH);
    hide PageInv, Coherent, Lookup, Step;
  }

  /** Allocating an unmapped page while a frame is left. */
  lemma FreshAlloc(s: State, v: nat, rw: nat)
    requires PageInv(s) && Coherent(s) && Legal(Alloc(v, rw)) && !Lookup(s.procs[s.cur], v).valid && FrameLeft(s)
    ensures var (t, o) := Step(s, Alloc(v, rw));
      var f := FirstFree(s.mapcounts, 0).value;
      && o == Allocated(f) && PageInv(t) && Coherent(t)
      && t == s.(procs := t.procs, mapcounts := s.mapcounts[f := 1])
      && |t.procs| == |s.procs| && (forall p :: 0 <= p < |s.procs| ==> t.procs[p].pid == s.procs[p].pid)
      && forall w :: 0 <= w < NR_PAGES ==>
           Lookup(t.procs[t.cur], w) == if w == v then Pte(true, rw, f, rw) else Lookup(s.procs[s.cur], w)
  {
    TranslateIsWalk(s, ACCESS_READ, v);
    AllocKeeps(s, v, rw);
    AllocCoherent(s, v, rw);
    var f := FirstFree(s.mapcounts, 0).value;
    SetPteLookup(s.procs[s.cur], v, Pte(true, rw, f, rw));
    hide PageInv, Coherent, Lookup, Translate, TableShape, FramesInRange, FirstFree;
    assert Step(s, Alloc(v, rw)).0 == AllocPage(s, v, rw).0;
  }

  // ----- A stale translation -----

  /** The session's last command reads frame 1 with the TLB and is denied without it. */
  ghost predicate Tells(s: State, cs: seq<Command>) {
    && Shape(s) && Shape(Off(s)) && AllLegal(cs) && cs != []
    && LastOutcome(s, cs) == Accessed(1) && LastOutcome(Off(s), cs) == Denied
  }

  /** It does so one command earlier too. */
  lemma TellsEarlier(s: State, c: Command, cs: seq<Command>)
    requires PageInv(s) && Coherent(s) && Legal(c) && Fed(s, c) && !Ends(Step(s, c).1) && Tells(Step(s, c).0, cs)
    ensures Tells(s, [c] + cs)
  {
    OffSound(s);
    StepOff(s, c);
    assert Shape(s);
    hide PageInv, Coherent, Step, Shape, Off, Ends, Fed, AllLegal, LastOutcome;
    Onward(s, c, cs);
    Onward(Off(s), c, cs);
  }

  function Upgrade(): seq<Command> {
    [Access(1, ACCESS_WRITE), Free(1), Access(1, ACCESS_READ)]
  }

  /** Once page 1 is cached behind a hole, a write, a free and a read tell the two machines apart. */
  lemma UpgradeTells(s: State)
    requires PageInv(s) && Coherent(s) && Fed(s, Access(1, ACCESS_WRITE)) && BadUpgrade(s, Access(1, ACCESS_WRITE))
    requires Lookup(s.procs[s.cur], 1).pfn == 1
    ensures Tells(s, Upgrade())
  {
    var w := Access(1, ACCESS_WRITE);
    hide PageInv, Coherent, Shape, Off, BadUpgrade, Step, LastOutcome, AllLegal, Lookup, Fed, Ends;
    UpgradeGoesOn(s);
    OffSound(s);
    BadUpgradeIsVisible(s, 1, ACCESS_WRITE);
    StepOff(s, w);
    FreeGoesOn(Step(s, w).0, 1);
    FreeGoesOn(Step(Off(s), w).0, 1);
    ThreeCommands(s, w, Free(1), Access(1, ACCESS_READ));
    ThreeCommands(Off(s), w, Free(1), Access(1, ACCESS_READ));
  }

  lemma UpgradeGoesOn(s: State)
    requires PageInv(s) && Coherent(s) && Fed(s, Access(1, ACCESS_WRITE)) && BadUpgrade(s, Access(1, ACCESS_WRITE))
    ensures Shape(s) && Safe(s, Access(1, ACCESS_WRITE)) && !Ends(Step(s, Access(1, ACCESS_WRITE)).1)
  {
    assert HasDirectory(s.procs[s.cur], 1);
    RetryServes(s, ACCESS_WRITE, 1);
    hide PageInv, Coherent, Lookup, AccessRound, HasDirectory, HoleBefore;
  }

  lemma FreeGoesOn(s: State, v: nat)
    requires Shape(s) && v < NR_PAGES
    ensures !Ends(Step(s, Free(v)).1)
  {
    hide Shape, Translate, FreePage;
  }

  lemma ThreeCommands(s: State, a: Command, b: Command, c: Command)
    requires Shape(s) && Legal(a) && Legal(b) && Legal(c)
    requires !Ends(Step(s, a).1) && !Ends(Step(Step(s, a).0, b).1)
    ensures AllLegal([a, b, c]) && LastOutcome(s, [a, b, c]) == Step(Step(Step(s, a).0, b).0, c).1
  {
    hide Step, Shape, Ends, LastOutcome;
    LastOfOne(Step(Step(s, a).0, b).0, c);
    Onward(Step(s, a).0, b, [c]);
    Onward(s, a, [b] + [c]);
    assert [a] + ([b] + [c]) == [a, b, c];
  }

  /** Two pages, allocated writable, in frames 0 and 1; frame 2 is unused. */
  ghost predicate TwoPages(s: State, rw: nat) {
    && PageInv(s) && Coherent(s) && s.tlbOn && s.mapcounts[2] == 0
    && Lookup(s.procs[s.cur], 0) == Pte(true, rw, 0, ACCESS_BOTH) && Lookup(s.procs[s.cur], 1) == Pte(true, rw, 1, ACCESS_BOTH)
  }

  /** The first `n` TLB entries cache the first `n` pages, and nothing else is cached. */
  ghost predicate CachesFirst(s: State, n: nat) {
    forall k :: 0 <= k < |s.tlb| ==> if k < n then s.tlb[k].valid && s.tlb[k].vpn == k else !s.tlb[k].valid
  }

  lemma TwoAllocs()
    ensures var s := Step(Initial(true), Alloc(0, ACCESS_BOTH)).0;
      var (t, o) := Step(s, Alloc(1, ACCESS_BOTH));
      && PageInv(s) && Coherent(s) && Step(Initial(true), Alloc(0, ACCESS_BOTH)).1 == Allocated(0)
      && o == Allocated(1) && TwoPages(t, ACCESS_BOTH) && PidsBelow(t, 1)
  {
    var z := Initial(true);
    InitialSound(true);
    assert FirstFree(z.mapcounts, 0) == Some(0);
    FreshAlloc(z, 0, ACCESS_BOTH);
    var s := Step(z, Alloc(0, ACCESS_BOTH)).0;
    assert s.mapcounts == z.mapcounts[0 := 1];
    assert FirstFree(s.mapcounts, 0) == Some(1);
    assert Lookup(s.procs[s.cur], 1) == Lookup(z.procs[0], 1) == NO_PTE;
    hide PageInv, Coherent, Lookup, Step, Initial;
    FreshAlloc(s, 1, ACCESS_BOTH);
  }

  lemma ForkOfTwo(s: State)
    requires TwoPages(s, ACCESS_BOTH) && PidsBelow(s, 1)
    ensures TwoPages(DoSwitch(s, 1), ACCESS_READ) && CachesFirst(DoSwitch(s, 1), 0)
  {
    SwitchKeeps(s, 1);
    SwitchCoherent(s, 1);
    SwitchForks(s, 1);
    ForkMode(s, 1);
    UnusedStays(s, 2);
    hide PageInv, Coherent, DoSwitch, Fork, Lookup, Shape, ShareCounts;
  }

  lemma UnusedStays(s: State, f: nat)
    requires PageInv(s) && f < NR_PAGEFRAMES && s.mapcounts[f] == 0
    ensures ShareCounts(s.mapcounts, s.procs[s.cur], 0)[f] == 0
  {
    forall v | 0 <= v < NR_PAGES ensures !Maps(s.procs[s.cur], v, f) {
      FreeMeans(s, f, s.cur, v);
    }
    ShareCountsAt(s.mapcounts, s.procs[s.cur], 0, f);
    hide PageInv, ShareCounts, Lookup;
  }

  /** Reading page n of the two fills entry n. */
  lemma ReadCaches(s: State, n: nat)
    requires n < 2 && TwoPages(s, ACCESS_READ) && CachesFirst(s, n)
    ensures var (t, o) := Step(s, Access(n, ACCESS_READ));
      o == Accessed(n) && t.procs == s.procs && t.cur == s.cur && TwoPages(t, ACCESS_READ) && CachesFirst(t, n + 1)
  {
    LookupFinds(s.tlb, n, ACCESS_READ, 0);
    TranslateIsWalk(s, ACCESS_READ, n);
    TranslateCoherent(s, ACCESS_READ, n);
    var t := Translate(s, ACCESS_READ, n).0;
    OtherTlb(s, t.tlb);
    assert IsSlot(s.tlb, n, n);
    InsertFills(s.tlb, n, ACCESS_READ, n, 0, n);
    hide PageInv, Coherent, Lookup, LookupTlb, InsertTlb, Shape;
  }

  /** Freeing page 0 leaves a hole before the entry of page 1. */
  lemma FreeLeavesHole(s: State)
    requires TwoPages(s, ACCESS_READ) && CachesFirst(s, 2)
    ensures var (t, o) := Step(s, Free(0));
      && o == Freed(0) && PageInv(t) && Coherent(t) && HoleBefore(t.tlb, 1) && FrameLeft(t)
      && Lookup(t.procs[t.cur], 1) == Pte(true, ACCESS_READ, 1, ACCESS_BOTH)
  {
    FreeSteps(s, 0);
    LookupFinds(s.tlb, 0, ACCESS_READ, 0);
    assert Translate(s, ACCESS_READ, 0).0 == s;
    FreeKeeps(s, 0);
    FreeCoherent(s, 0);
    EvictClears(s.tlb, 0, 0);
    SetPteLookup(s.procs[s.cur], 0, NO_PTE);
    var t := FreePage(s, 0);
    hide PageInv, Coherent, Lookup, LookupTlb, EvictTlb, Translate, Shape;
    assert !t.tlb[0].valid && t.tlb[1].valid && t.tlb[1].vpn == 1 && t.mapcounts[2] == 0;
  }

  lemma FreeTells(s: State)
    requires TwoPages(s, ACCESS_READ) && CachesFirst(s, 2)
    ensures Tells(s, [Free(0)] + Upgrade())
  {
    FreeLeavesHole(s);
    var t := Step(s, Free(0)).0;
    hide Step, PageInv, Coherent, Lookup, HoleBefore, Tells, FrameLeft, CachesFirst, Upgrade;
    UpgradeTells(t);
    TellsEarlier(s, Free(0), Upgrade());
  }

  lemma ReadTells(s: State, n: nat, cs: seq<Command>)
    requires n < 2 && TwoPages(s, ACCESS_READ) && CachesFirst(s, n) && Tells(Step(s, Access(n, ACCESS_READ)).0, cs)
    ensures Tells(s, [Access(n, ACCESS_READ)] + cs)
  {
    hide Step, PageInv, Coherent, Lookup, Tells, CachesFirst;
    ReadCaches(s, n);
    TellsEarlier(s, Access(n, ACCESS_READ), cs);
  }

  lemma ReadsTell(s: State)
    requires TwoPages(s, ACCESS_READ) && CachesFirst(s, 0)
    ensures Tells(s, [Access(0, ACCESS_READ)] + ([Access(1, ACCESS_READ)] + ([Free(0)] + Upgrade())))
  {
    hide Step, TwoPages, Tells, CachesFirst, Upgrade;
    TwoPagesSound(s, ACCESS_READ);
    ReadCaches(s, 0);
    var t := Step(s, Access(0, ACCESS_READ)).0;
    TwoPagesSound(t, ACCESS_READ);
    ReadCaches(t, 1);
    FreeTells(Step(t, Access(1, ACCESS_READ)).0);
    ReadTells(t, 1, [Free(0)] + Upgrade());
    ReadTells(s, 0, [Access(1, ACCESS_READ)] + ([Free(0)] + Upgrade()));
  }

  lemma SwitchTells(s: State, cs: seq<Command>)
    requires PageInv(s) && Coherent(s) && Tells(DoSwitch(s, 1), cs)
    ensures Tells(s, [Switch(1)] + cs)
  {
    SwitchStep(s, 1);
    hide Step, PageInv, Coherent, DoSwitch, Tells;
    TellsEarlier(s, Switch(1), cs);
  }

  lemma AllocsTell(cs: seq<Command>)
    requires var s := Step(Initial(true), Alloc(0, ACCESS_BOTH)).0; Tells(Step(s, Alloc(1, ACCESS_BOTH)).0, cs)
    ensures Tells(Initial(true), [Alloc(0, ACCESS_BOTH)] + ([Alloc(1, ACCESS_BOTH)] + cs))
  {
    hide Initial, Step, PageInv, Coherent, Tells, TwoPages, PidsBelow;
    InitialSound(true);
    TwoAllocs();
    TellsEarlier(Step(Initial(true), Alloc(0, ACCESS_BOTH)).0, Alloc(1, ACCESS_BOTH), cs);
    TellsEarlier(Initial(true), Alloc(0, ACCESS_BOTH), [Alloc(1, ACCESS_BOTH)] + cs);
  }

  lemma StaleTells()
    ensures Tells(Initial(true), [Alloc(0, ACCESS_BOTH)] + ([Alloc(1, ACCESS_BOTH)] + ([Switch(1)] +
      ([Access(0, ACCESS_READ)] + ([Access(1, ACCESS_READ)] + ([Free(0)] + Upgrade()))))))
  {
    hide Initial, Step, TwoPages, CachesFirst, Tells, PidsBelow, DoSwitch, Upgrade;
    TwoAllocs();
    var s := Step(Step(Initial(true), Alloc(0, ACCESS_BOTH)).0, Alloc(1, ACCESS_BOTH)).0;
    TwoPagesSound(s, ACCESS_BOTH);
    ForkOfTwo(s);
    ReadsTell(DoSwitch(s, 1));
    var cs := [Access(0, ACCESS_READ)] + ([Access(1, ACCESS_READ)] + ([Free(0)] + Upgrade()));
    SwitchTells(s, cs);
    AllocsTell([Switch(1)] + cs);
  }

  lemma TwoPagesSound(s: State, rw: nat)
    requires TwoPages(s, rw)
    ensures PageInv(s) && Coherent(s) && Shape(s)
  {
    hide Coherent, Lookup;
  }

  function StaleCommands(): (cs: seq<Command>)
    ensures AllLegal(cs)
  {
    [Alloc(0, ACCESS_BOTH), Alloc(1, ACCESS_BOTH), Switch(1), Access(0, ACCESS_READ), Access(1, ACCESS_READ),
     Free(0), Access(1, ACCESS_WRITE), Free(1), Access(1, ACCESS_READ)]
  }

  /**
   A session that reads through a stale entry: two pages are allocated and shared by a fork, the child
   reads both, frees the first, writes the second, frees it and reads it again.  With the TLB the last
   read succeeds, in a frame that by then only the parent maps; without it the read is denied.
   */
  lemma StaleSession()
    ensures LastOutcome(Initial(true), StaleCommands()) == Accessed(1)
    ensures LastOutcome(Initial(false), StaleCommands()) == Denied
  {
    assert Off(Initial(true)) == Initial(false);
    hide Initial, Off, LastOutcome, AllLegal;
    StaleTells();
    assert [Alloc(0, ACCESS_BOTH)] + ([Alloc(1, ACCESS_BOTH)] + ([Switch(1)] +
      ([Access(0, ACCESS_READ)] + ([Access(1, ACCESS_READ)] + ([Free(0)] + Upgrade()))))) == StaleCommands();
  }

  lemma SwitchStep(s: State, pid: nat)
    requires Shape(s)
    ensures Step(s, Switch(pid)) == (DoSwitch(s, pid), Switched)
  {
    hide Shape, DoSwitch;
  }
}
