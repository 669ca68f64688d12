/**
 What each command does and reports, case by case and field by field, between commands that leave
 sound tables and a coherent TLB; and what a session's reports say about frames.
 */
module VmReports {
  import opened Seqs
  import opened VmModel
  import opened VmInvariants
  import opened VmTlb
  import opened VmIdeal
  import opened VmCommands
  import opened VmRuns

  // ----- Parts of a state -----

  /** The PTE of the current process at page v is now `pte`; no other PTE, process or list has changed. */
  ghost predicate OnlyPage(s: State, t: State, v: nat, pte: Pte)
    requires Shape(s) && Shape(t) && v < NR_PAGES
  {
    && t.cur == s.cur && t.queue == s.queue && t.tlbOn == s.tlbOn && |t.procs| == |s.procs|
    && (forall p :: 0 <= p < |s.procs| && p != s.cur ==> t.procs[p] == s.procs[p])
    && t.procs[s.cur].pid == s.procs[s.cur].pid
    && Lookup(t.procs[s.cur], v) == pte
    && forall w :: 0 <= w < NR_PAGES && w != v ==> Lookup(t.procs[s.cur], w) == Lookup(s.procs[s.cur], w)
  }

  /** Frame f is the smallest of the 128 frames that nothing is mapped to. */
  ghost predicate Smallest(mapcounts: seq<nat>, f: nat) {
    f < |mapcounts| == 128 && mapcounts[f] == 0 && forall g :: 0 <= g < f ==> mapcounts[g] > 0
  }

  ghost predicate Exhausted(mapcounts: seq<nat>) {
    |mapcounts| == 128 && forall g :: 0 <= g < 128 ==> mapcounts[g] > 0
  }

  lemma FreeFrame(s: State) returns (f: nat)
    requires Shape(s)
    ensures FrameLeft(s) ==> FirstFree(s.mapcounts, 0) == Some(f)
    ensures FrameLeft(s) <==> Smallest(s.mapcounts, f)
    ensures !FrameLeft(s) <==> Exhausted(s.mapcounts)
  {
    f := if FrameLeft(s) then FirstFree(s.mapcounts, 0).value else 0;
    hide TableShape, FramesInRange;
  }

  lemma PageWritten(s: State, u: State, v: nat, pte: Pte)
    requires Shape(s) && v < NR_PAGES && pte.pfn < NR_PAGEFRAMES
    requires Shape(u) && u == s.(mapcounts := u.mapcounts, tlb := u.tlb)
    ensures OnlyPage(s, WithPte(u, v, pte), v, pte)
    ensures WithPte(u, v, pte).mapcounts == u.mapcounts && WithPte(u, v, pte).tlb == u.tlb
  {
    SetPteLookup(s.procs[s.cur], v, pte);
    hide Lookup, TableShape, FramesInRange;
  }

  // ----- Translating -----

  /**
   With the TLB on, a page that the table allows to be accessed translates to its frame; if it was
   not cached before, the first unused entry, one of the first 64, caches it.
   */
  lemma MissCaches(s: State, rw: nat, v: nat) returns (k: nat)
    requires PageInv(s) && Coherent(s) && v < NR_PAGES && 1 <= rw <= 3 && s.tlbOn
    requires var pte := Lookup(s.procs[s.cur], v); pte.valid && (rw == 1 || pte.rw == 3)
    ensures Cached(s.tlb, v) ==> Translate(s, rw, v) == (s, Some(Lookup(s.procs[s.cur], v).pfn))
    ensures !Cached(s.tlb, v) ==>
      var pte := Lookup(s.procs[s.cur], v);
      && k < 64 && !s.tlb[k].valid && (forall j :: 0 <= j < k ==> s.tlb[j].valid)
      && Translate(s, rw, v) == (s.(tlb := s.tlb[k := TlbEntry(true, pte.rw, v, pte.pfn, pte.rw)]), Some(pte.pfn))
  {
    assert PteOk(Lookup(s.procs[s.cur], v));
    TranslateIsWalk(s, rw, v);
    LookupFinds(s.tlb, v, rw, 0);
    var pte := Lookup(s.procs[s.cur], v);
    hide PageInv, Lookup, LookupTlb, InsertTlb, TableShape, FramesInRange, EntryTrue;
    k := 0;
    if Cached(s.tlb, v) {
      if LookupTlb(s.tlb, v, rw, 0).None? {
        MissedEntryTrue(s, rw, v);
      }
    } else {
      k := SlotExists(s.tlb, v);
      InsertFills(s.tlb, v, pte.rw, pte.pfn, 0, k);
    }
  }

  // ----- Allocating and freeing -----

  /** Allocating a mapped page reports the frame it is mapped to and changes nothing but the TLB. */
  lemma MappedAlloc(s: State, v: nat, rw: nat)
    requires PageInv(s) && Coherent(s) && Legal(Alloc(v, rw)) && Lookup(s.procs[s.cur], v).valid
    ensures var (t, o) := Step(s, Alloc(v, rw));
      && o == AlreadyAllocated(Lookup(s.procs[s.cur], v).pfn)
      && t.procs == s.procs && t.cur == s.cur && t.queue == s.queue && t.mapcounts == s.mapcounts && t.tlbOn == s.tlbOn
      && PageInv(t) && Coherent(t)
  {
    TranslateIsWalk(s, ACCESS_READ, v);
    TranslateCoherent(s, ACCESS_READ, v);
    OtherTlb(s, Translate(s, ACCESS_READ, v).0.tlb);
    hide PageInv, Coherent, Translate, Lookup, AllocPage;
  }

  /** Allocating an unmapped page takes the smallest free frame, or reports that memory is full and changes nothing. */
  lemma UnmappedAlloc(s: State, v: nat, rw: nat) returns (f: nat)
    requires PageInv(s) && Coherent(s) && Legal(Alloc(v, rw)) && !Lookup(s.procs[s.cur], v).valid
    ensures Exhausted(s.mapcounts) <==> Step(s, Alloc(v, rw)) == (s, MemoryFull)
    ensures Exhausted(s.mapcounts) || (
      && Smallest(s.mapcounts, f)
      && var (t, o) := Step(s, Alloc(v, rw));
         o == Allocated(f) && OnlyPage(s, t, v, Pte(true, rw, f, rw)) && t.mapcounts == s.mapcounts[f := 1] && t.tlb == s.tlb)
  {
    TranslateIsWalk(s, ACCESS_READ, v);
    f := FreeFrame(s);
    assert Step(s, Alloc(v, rw)) == (var (u, g) := AllocPage(s, v, rw); (u, if g.Some? then Allocated(g.value) else MemoryFull));
    hide PageInv, Coherent, Translate, Lookup, FirstFree, Shape, OnlyPage, Step, WithPte;
    if FrameLeft(s) {
      TakenFrame(s, v, rw, f);
    }
  }

  lemma TakenFrame(s: State, v: nat, rw: nat, f: nat)
    requires Shape(s) && v < NR_PAGES && FirstFree(s.mapcounts, 0) == Some(f)
    ensures var (t, g) := AllocPage(s, v, rw);
      && g == Some(f) && OnlyPage(s, t, v, Pte(true, rw, f, rw)) && t.mapcounts == s.mapcounts[f := 1] && t.tlb == s.tlb
  {
    PageWritten(s, s.(mapcounts := s.mapcounts[f := s.mapcounts[f] + 1]), v, Pte(true, rw, f, rw));
    hide OnlyPage, WithPte, FirstFree, TableShape, FramesInRange;
  }

  /**
   Freeing a mapped page reports its frame, which has one mapping less; the page is left without PTE
   and without TLB entry.  Freeing any other page changes nothing.
   */
  lemma FreeReports(s: State, v: nat)
    requires PageInv(s) && Coherent(s) && v < NR_PAGES
    ensures var pte := Lookup(s.procs[s.cur], v);
      var (t, o) := Step(s, Free(v));
      if pte.valid then
        && o == Freed(pte.pfn) && OnlyPage(s, t, v, Pte(false, 0, 0, 0))
        && s.mapcounts[pte.pfn] > 0 && t.mapcounts == s.mapcounts[pte.pfn := s.mapcounts[pte.pfn] - 1]
        && !Cached(t.tlb, v)
      else o == NotAllocated && t == s
  {
    TranslateIsWalk(s, ACCESS_READ, v);
    TranslateCoherent(s, ACCESS_READ, v);
    FreeSteps(s, v);
    var pte := Lookup(s.procs[s.cur], v);
    var t := Translate(s, ACCESS_READ, v).0;
    hide PageInv, Coherent, Translate, Lookup, Step, FreePage, OnlyPage, Cached;
    if pte.valid {
      CountMeans(s, s.cur, v, s.cur, v);
      FreedPage(s, t, v);
    }
  }

  lemma FreedPage(s: State, t: State, v: nat)
    requires PageInv(s) && PageInv(t) && Coherent(t) && v < NR_PAGES && t == s.(tlb := t.tlb)
    requires Lookup(s.procs[s.cur], v).valid && s.mapcounts[Lookup(s.procs[s.cur], v).pfn] > 0
    ensures var f := Lookup(s.procs[s.cur], v).pfn;
      var u := FreePage(t, v);
      && OnlyPage(s, u, v, Pte(false, 0, 0, 0)) && !Cached(u.tlb, v)
      && u.mapcounts == s.mapcounts[f := s.mapcounts[f] - 1]
  {
    var f := Lookup(s.procs[s.cur], v).pfn;
    EvictClears(t.tlb, v, 0);
    assert Shape(s) && Shape(t);
    hide PageInv, Coherent, Lookup, OnlyPage, WithPte, TableShape, FramesInRange, EvictTlb;
    PageWritten(s, t.(mapcounts := t.mapcounts[f := Decrement(t.mapcounts[f])], tlb := EvictTlb(t.tlb, v, 0)), v, NO_PTE);
  }

  // ----- Accessing -----

  /** Access without a fault or with one that is not resolved: nothing but the TLB changes. */
  lemma PlainAccess(s: State, v: nat, rw: nat)
    requires PageInv(s) && Coherent(s) && v < NR_PAGES && 1 <= rw <= 3
    requires var pte := Lookup(s.procs[s.cur], v); pte.valid ==> rw == 1 || pte.rw == 3 || pte.priv == 1
    ensures var pte := Lookup(s.procs[s.cur], v);
      var (t, o) := Step(s, Access(v, rw));
      && t == s.(tlb := t.tlb)
      && o == (if s.procs[s.cur].pdes[v / 16].None? then Segfault
               else if pte.valid && (rw == 1 || pte.rw == 3) then Accessed(pte.pfn) else Denied)
  {
    assert PteOk(Lookup(s.procs[s.cur], v));
    TranslateIsWalk(s, rw, v);
    TranslateCoherent(s, rw, v);
    RefusedFault(s, v, rw);
    hide PageInv, Coherent, Translate, HandleFault;
  }

  /**
   A write to a page that is allocated writable but has lost its write bit: if the frame has one
   mapping, the write bit comes back.
   */
  lemma SoleWrite(s: State, v: nat, rw: nat)
    requires PageInv(s) && Coherent(s) && v < NR_PAGES && 2 <= rw <= 3
    requires var pte := Lookup(s.procs[s.cur], v); pte.valid && pte.rw == 1 && pte.priv == 3 && s.mapcounts[pte.pfn] == 1
    ensures var f := Lookup(s.procs[s.cur], v).pfn;
      var (t, o) := Step(s, Access(v, rw));
      o == Accessed(f) && OnlyPage(s, t, v, Pte(true, 3, f, 3)) && t.mapcounts == s.mapcounts
  {
    var pte := Lookup(s.procs[s.cur], v);
    assert Shape(s) && HasDirectory(s.procs[s.cur], v);
    RetryServes(s, rw, v);
    hide PageInv, Coherent, OnlyPage, TableShape, FramesInRange, Step, WithPte, Lookup, HasDirectory;
    assert Step(s, Access(v, rw)) == AccessRound(s, v, rw, 0) by { StepAccess(s, v, rw); }
    PageWritten(s, s, v, pte.(rw := ACCESS_BOTH));
    assert pte.(rw := ACCESS_BOTH) == Pte(true, 3, pte.pfn, 3);
    OnlyPageTable(s, Resolved(s, rw, v), v, Pte(true, 3, pte.pfn, 3));
    RetriedTables(s, v, rw, Pte(true, 3, pte.pfn, 3));
  }

  lemma StepAccess(s: State, v: nat, rw: nat)
    requires Shape(s) && Legal(Access(v, rw))
    ensures Step(s, Access(v, rw)) == AccessRound(s, v, rw, 0)
  {
    hide Shape, AccessRound;
  }

  lemma OnlyPageTable(s: State, t: State, v: nat, pte: Pte)
    requires Shape(s) && Shape(t) && v < NR_PAGES && OnlyPage(s, t, v, pte)
    ensures Lookup(t.procs[s.cur], v) == pte
  {
    hide Shape;
  }

  lemma RetriedTables(s: State, v: nat, rw: nat, pte: Pte)
    requires Shape(s) && v < NR_PAGES && OnlyPage(s, Resolved(s, rw, v), v, pte) && Shape(Retried(s, rw, v))
    ensures OnlyPage(s, Retried(s, rw, v), v, pte) && Retried(s, rw, v).mapcounts == Resolved(s, rw, v).mapcounts
  {
    hide TableShape, FramesInRange, Resolved, InsertTlb;
  }

  /**
   If the frame is shared, the page moves to the smallest free frame, which only it maps, and the
   frame it leaves has one mapping less.
   */
  lemma SharedWrite(s: State, v: nat, rw: nat) returns (g: nat)
    requires PageInv(s) && Coherent(s) && v < NR_PAGES && 2 <= rw <= 3 && !Exhausted(s.mapcounts)
    requires var pte := Lookup(s.procs[s.cur], v); pte.valid && pte.rw == 1 && pte.priv == 3 && s.mapcounts[pte.pfn] > 1
    ensures Smallest(s.mapcounts, g)
    ensures var f := Lookup(s.procs[s.cur], v).pfn;
      var (t, o) := Step(s, Access(v, rw));
      && o == Accessed(g) && OnlyPage(s, t, v, Pte(true, 3, g, 3))
      && g != f && t.mapcounts == s.mapcounts[f := s.mapcounts[f] - 1][g := 1]
  {
    assert Shape(s);
    hide PageInv, Coherent, OnlyPage, Shape, Step, Lookup, Smallest, Exhausted, Resolved, Retried;
    g := FreeFrame(s);
    RetryServes(s, rw, v);
    StepAccess(s, v, rw);
    SharedResolves(s, v, rw, g);
    OnlyPageTable(s, Resolved(s, rw, v), v, Pte(true, 3, g, 3));
    RetriedTables(s, v, rw, Pte(true, 3, g, 3));
  }

  lemma SharedResolves(s: State, v: nat, rw: nat, g: nat)
    requires Shape(s) && v < NR_PAGES && 2 <= rw <= 3 && FirstFree(s.mapcounts, 0) == Some(g)
    requires var pte := Lookup(s.procs[s.cur], v);
      pte.valid && pte.rw == 1 && pte.priv == 3 && pte.pfn < |s.mapcounts| && s.mapcounts[pte.pfn] > 1
    ensures var f := Lookup(s.procs[s.cur], v).pfn;
      && OnlyPage(s, Resolved(s, rw, v), v, Pte(true, 3, g, 3))
      && g != f && Resolved(s, rw, v).mapcounts == s.mapcounts[f := s.mapcounts[f] - 1][g := 1]
  {
    var pte := Lookup(s.procs[s.cur], v);
    assert HasDirectory(s.procs[s.cur], v);
    var u := s.(mapcounts := s.mapcounts[pte.pfn := s.mapcounts[pte.pfn] - 1]);
    hide OnlyPage, TableShape, FramesInRange, Lookup, HasDirectory, AllocPage, FirstFree;
    assert Resolved(s, rw, v) == AllocPage(u, v, ACCESS_BOTH).0;
    SameFirstFree(s.mapcounts, pte.pfn, 0);
    CopiedFrame(s, u, v, g);
  }

  lemma CopiedFrame(s: State, u: State, v: nat, g: nat)
    requires Shape(s) && Shape(u) && v < NR_PAGES && u == s.(mapcounts := u.mapcounts) && FirstFree(u.mapcounts, 0) == Some(g)
    ensures var t := AllocPage(u, v, ACCESS_BOTH).0;
      OnlyPage(s, t, v, Pte(true, 3, g, 3)) && t.mapcounts == u.mapcounts[g := 1]
  {
    PageWritten(s, u.(mapcounts := u.mapcounts[g := u.mapcounts[g] + 1]), v, Pte(true, ACCESS_BOTH, g, ACCESS_BOTH));
    hide OnlyPage, WithPte, FirstFree, TableShape, FramesInRange;
  }

  // ----- Switching -----

  /** A switch takes the first 128 entries of the TLB out of use and leaves the others. */
  lemma SwitchFlushes(s: State, pid: nat)
    requires Shape(s)
    ensures var t := DoSwitch(s, pid);
      && |t.tlb| == |s.tlb| == 256 && t.tlbOn == s.tlbOn
      && (forall i :: 0 <= i < 128 ==> t.tlb[i] == s.tlb[i].(valid := false))
      && forall i :: 128 <= i < |s.tlb| ==> t.tlb[i] == s.tlb[i]
  {
    ForkTlb(s, pid);
    hide TableShape, FramesInRange, Fork;
  }

  lemma ForkTlb(s: State, pid: nat)
    requires Shape(s)
    ensures Fork(s, pid).tlbOn == s.tlbOn && Fork(s, pid).tlb == s.tlb
  {
    hide Shape, ForkTable, Child, ShareCounts;
  }

  /** Switching to a listed process: the first one with the pid becomes the current one and leaves the list. */
  lemma SwitchBack(s: State, pid: nat, k: nat)
    requires Shape(s) && k < |s.queue| && s.procs[s.queue[k]].pid == pid
    requires forall j :: 0 <= j < k ==> s.procs[s.queue[j]].pid != pid
    ensures var t := DoSwitch(s, pid);
      && t.cur == s.queue[k] && t.queue == s.queue[..k] + s.queue[k + 1..]
      && t.procs == s.procs && t.mapcounts == s.mapcounts
  {
    FindsFirst(s.procs, s.queue, pid, 0, k);
    hide TableShape, FramesInRange, FlushTlb;
  }

  lemma {:induction false} FindsFirst(procs: seq<Proc>, queue: seq<nat>, pid: nat, i: nat, k: nat)
    requires forall j :: 0 <= j < |queue| ==> queue[j] < |procs|
    requires i <= k < |queue| && procs[queue[k]].pid == pid
    requires forall j :: i <= j < k ==> procs[queue[j]].pid != pid
    ensures FindPid(procs, queue, pid, i) == Some(k)
    decreases k - i
  {
    if i < k {
      FindsFirst(procs, queue, pid, i + 1, k);
    }
  }

  lemma {:induction false} FindsNone(procs: seq<Proc>, queue: seq<nat>, pid: nat, i: nat)
    requires forall j :: 0 <= j < |queue| ==> queue[j] < |procs| && procs[queue[j]].pid != pid
    ensures FindPid(procs, queue, pid, i) == None
    decreases |queue| - i
  {
    if i < |queue| {
      FindsNone(procs, queue, pid, i + 1);
    }
  }

  /**
   Switching to any other pid forks: the parent goes to the end of the list, the child maps the same
   frames with the same permissions, and neither of them can write any page.
   */
  lemma SwitchNew(s: State, pid: nat)
    requires PageInv(s) && forall j :: 0 <= j < |s.queue| ==> s.procs[s.queue[j]].pid != pid
    ensures var t := DoSwitch(s, pid);
      && PageInv(t) && t.cur == |s.procs| && |t.procs| == |s.procs| + 1 && t.queue == s.queue + [s.cur]
      && t.procs[t.cur].pid == pid && t.procs[s.cur].pid == s.procs[s.cur].pid
      && (forall p :: 0 <= p < |s.procs| && p != s.cur ==> t.procs[p] == s.procs[p])
      && forall v :: 0 <= v < NR_PAGES ==>
        var pte := Lookup(s.procs[s.cur], v);
        && Lookup(t.procs[t.cur], v) == (if pte.valid then pte.(rw := 1) else Pte(false, 0, 0, 0))
        && Lookup(t.procs[s.cur], v) == (if pte.valid then pte.(rw := 1) else pte)
  {
    FindsNone(s.procs, s.queue, pid, 0);
    SwitchKeeps(s, pid);
    NewTables(s, pid);
    hide TableShape, FramesInRange, FlushTlb, Fork, Lookup, PageInv;
  }

  lemma NewTables(s: State, pid: nat)
    requires PageInv(s)
    ensures var t := Fork(s, pid);
      && t.cur == |s.procs| && |t.procs| == |s.procs| + 1 && t.queue == s.queue + [s.cur]
      && t.procs[t.cur].pid == pid && t.procs[s.cur].pid == s.procs[s.cur].pid
      && (forall p :: 0 <= p < |s.procs| && p != s.cur ==> t.procs[p] == s.procs[p])
      && forall v :: 0 <= v < NR_PAGES ==>
        var pte := Lookup(s.procs[s.cur], v);
        && Lookup(t.procs[t.cur], v) == (if pte.valid then pte.(rw := 1) else Pte(false, 0, 0, 0))
        && Lookup(t.procs[s.cur], v) == (if pte.valid then pte.(rw := 1) else pte)
  {
    var t := Fork(s, pid);
    var p := s.procs[s.cur];
    assert t.procs[t.cur] == Child(p, pid) && t.procs[s.cur] == ForkTable(p, false) && t.cur == |s.procs|;
    forall v | 0 <= v < NR_PAGES
      ensures var pte := Lookup(p, v);
        && Lookup(Child(p, pid), v) == (if pte.valid then pte.(rw := 1) else Pte(false, 0, 0, 0))
        && Lookup(ForkTable(p, false), v) == (if pte.valid then pte.(rw := 1) else pte)
    {
      SharedPte(s, pid, v);
    }
    hide PageInv, Lookup, ForkTable, Child, ShareCounts;
  }

  lemma SharedPte(s: State, pid: nat, v: nat)
    requires PageInv(s) && v < NR_PAGES
    ensures var p := s.procs[s.cur];
      var pte := Lookup(p, v);
      && Lookup(Child(p, pid), v) == (if pte.valid then pte.(rw := 1) else Pte(false, 0, 0, 0))
      && Lookup(ForkTable(p, false), v) == (if pte.valid then pte.(rw := 1) else pte)
  {
    var p := s.procs[s.cur];
    assert PteOk(Lookup(p, v));
    hide OnePage, WritersAlone, CountsExact;
    ForkTableLookup(p, true, v);
    ForkTableLookup(p, false, v);
    assert Lookup(Child(p, pid), v) == Lookup(ForkTable(p, true), v);
  }

  // ----- Sessions -----

  /** What a report says about the page it is for, before and after the command. */
  ghost predicate Reported(s: State, t: State, c: Command, o: Outcome)
    requires Shape(s) && Shape(t) && Legal(c)
  {
    match o
    case Allocated(f) =>
      c.Alloc? && !Lookup(s.procs[s.cur], c.vpn).valid && Smallest(s.mapcounts, f) && Lookup(t.procs[t.cur], c.vpn) == Pte(true, c.rw, f, c.rw)
    case AlreadyAllocated(f) => c.Alloc? && Maps(s.procs[s.cur], c.vpn, f) && t.procs == s.procs && t.mapcounts == s.mapcounts
    case MemoryFull => c.Alloc? && !Lookup(s.procs[s.cur], c.vpn).valid && Exhausted(s.mapcounts) && t == s
    case Freed(f) => c.Free? && Maps(s.procs[s.cur], c.vpn, f) && Lookup(t.procs[t.cur], c.vpn) == Pte(false, 0, 0, 0)
    case NotAllocated => c.Free? && !Lookup(s.procs[s.cur], c.vpn).valid && t == s
    case Accessed(f) =>
      && c.Access? && Lookup(s.procs[s.cur], c.vpn).valid && Maps(t.procs[t.cur], c.vpn, f)
      && (c.rw == 1 || (Lookup(s.procs[s.cur], c.vpn).priv == 3 && Lookup(t.procs[t.cur], c.vpn).rw == 3))
    case Denied =>
      && c.Access? && s.procs[s.cur].pdes[c.vpn / 16].Some? && t.procs == s.procs
      && (Lookup(s.procs[s.cur], c.vpn).valid ==> c.rw >= 2 && Lookup(s.procs[s.cur], c.vpn).priv == 1)
    case Segfault => c.Access? && s.procs[s.cur].pdes[c.vpn / 16].None? && t.procs == s.procs
    case Unserved => false
    case Switched => c.Switch? && t.procs[t.cur].pid == c.pid
  }

  lemma AllocReported(s: State, v: nat, rw: nat)
    requires PageInv(s) && Coherent(s) && Legal(Alloc(v, rw))
    ensures Reported(s, Step(s, Alloc(v, rw)).0, Alloc(v, rw), Step(s, Alloc(v, rw)).1)
  {
    assert Shape(s);
    hide PageInv, Coherent, Lookup, Step, Exhausted, Smallest, TableShape, FramesInRange;
    if Lookup(s.procs[s.cur], v).valid {
      MappedAlloc(s, v, rw);
    } else {
      var f := UnmappedAlloc(s, v, rw);
    }
  }

  lemma FreeReported(s: State, v: nat)
    requires PageInv(s) && Coherent(s) && v < NR_PAGES
    ensures Reported(s, Step(s, Free(v)).0, Free(v), Step(s, Free(v)).1)
  {
    hide PageInv, Coherent, Lookup, Step, TableShape, FramesInRange, Cached;
    FreeReports(s, v);
  }

  lemma AccessReported(s: State, v: nat, rw: nat)
    requires PageInv(s) && Coherent(s) && Legal(Access(v, rw)) && Fed(s, Access(v, rw))
    ensures Reported(s, Step(s, Access(v, rw)).0, Access(v, rw), Step(s, Access(v, rw)).1)
  {
    var pte := Lookup(s.procs[s.cur], v);
    assert PteOk(pte);
    assert Shape(s);
    hide PageInv, Coherent, Lookup, Step, TableShape, FramesInRange, Smallest, Exhausted, FirstFree;
    if pte.valid && rw != 1 && pte.rw != 3 && pte.priv != 1 {
      CountMeans(s, s.cur, v, s.cur, v);
      if s.mapcounts[pte.pfn] == 1 {
        SoleWrite(s, v, rw);
      } else {
        var f := FreeFrame(s);
        var g := SharedWrite(s, v, rw);
      }
    } else {
      PlainAccess(s, v, rw);
    }
  }

  lemma SwitchReported(s: State, pid: nat)
    requires PageInv(s) && Coherent(s)
    ensures DoSwitch(s, pid).procs[DoSwitch(s, pid).cur].pid == pid
  {
    assert Shape(s);
    hide PageInv, Coherent, TableShape, FramesInRange, ShareCounts, ForkTable, FlushTlb;
  }

  /** A fed command reports the truth. */
  lemma StepReported(s: State, c: Command)
    requires PageInv(s) && Coherent(s) && Legal(c) && Fed(s, c)
    ensures Reported(s, Step(s, c).0, c, Step(s, c).1)
  {
    assert Shape(s);
    hide PageInv, Coherent, Reported, Fed, Shape;
    match c {
      case Alloc(v, rw) => AllocReported(s, v, rw);
      case Free(v) => FreeReported(s, v);
      case Access(v, rw) => AccessReported(s, v, rw);
      case Switch(pid) => SwitchedReport(s, pid);
    }
  }

  lemma SwitchedReport(s: State, pid: nat)
    requires PageInv(s) && Coherent(s)
    ensures Reported(s, Step(s, Switch(pid)).0, Switch(pid), Step(s, Switch(pid)).1)
  {
    SwitchReported(s, pid);
    hide PageInv, Coherent, DoSwitch;
  }

  /** The session stops after the first refused allocation or missing directory, and nowhere else. */
  lemma {:induction false} StopsExactly(s: State, cs: seq<Command>)
    requires Shape(s) && AllLegal(cs)
    ensures var os := RunCommands(s, cs).1;
      && |os| <= |cs|
      && (forall k :: 0 <= k < |os| - 1 ==> !os[k].AlreadyAllocated? && !os[k].MemoryFull? && !os[k].Segfault?)
      && (|os| < |cs| ==> os != [] && (os[|os| - 1].AlreadyAllocated? || os[|os| - 1].MemoryFull? || os[|os| - 1].Segfault?))
    ensures var os := RunCommands(s, cs).1;
      |os| == |cs| || forall k :: |os| <= k <= |cs| ==> RunCommands(s, cs[..k]) == RunCommands(s, cs)
    decreases |cs|
  {
    hide Step, Shape;
    if cs == [] {
    } else {
      var (t, o) := Step(s, cs[0]);
      forall k | 0 < k <= |cs| ensures RunCommands(s, cs[..k]) ==
        if Ends(o) then (t, [o]) else (RunCommands(t, cs[1..][..k - 1]).0, [o] + RunCommands(t, cs[1..][..k - 1]).1)
      {
        RunUnfolds(s, cs, k);
      }
      if !Ends(o) {
        StopsExactly(t, cs[1..]);
      }
    }
  }

  /**
   Every report of a session is true of the page it is for: the frame it names is the one the page
   is mapped to, before the command or after it.
   */
  lemma {:induction false} ReportsTrue(s: State, cs: seq<Command>, k: nat)
    requires PageInv(s) && Coherent(s) && AllLegal(cs) && HoleFree(s, cs) && AllFed(s, cs)
    requires k < |RunCommands(s, cs).1|
    ensures k < |cs|
    ensures Reported(RunCommands(s, cs[..k]).0, RunCommands(s, cs[..k + 1]).0, cs[k], RunCommands(s, cs).1[k])
    decreases |cs|
  {
    assert Shape(s);
    hide PageInv, Coherent, Step, Safe, Fed, BadUpgrade, Reported, Shape, Ends;
    var (t, o) := Step(s, cs[0]);
    StopsExactly(s, cs);
    RunUnfolds(s, cs, k + 1);
    RunUnfolds(s, cs, |cs|);
    assert cs[..|cs|] == cs && cs[1..][..|cs| - 1] == cs[1..];
    if k == 0 {
      StepReported(s, cs[0]);
      assert cs[1..][..0] == [];
    } else {
      FedStep(s, cs[0]);
      RunUnfolds(s, cs, k);
      ReportsTrue(t, cs[1..], k - 1);
      assert cs[1..][k - 1] == cs[k];
    }
  }
}
