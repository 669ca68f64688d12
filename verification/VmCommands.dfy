/** One command: what it does to the TLB, what it would do without the TLB, and what it leaves alone. */
module VmCommands {
  import opened Seqs
  import opened VmModel
  import opened VmInvariants
  import opened VmTlb
  import opened VmIdeal

  // ----- The TLB from command to command -----

  /** A cached page is upgraded although an earlier TLB entry is out of use. */
  ghost predicate BadUpgrade(s: State, c: Command)
    requires Shape(s) && Legal(c)
  {
    c.Access? && Upgradable(s, c.rw, c.vpn) && HoleBefore(s.tlb, c.vpn)
  }

  lemma AccessCoherent(s: State, v: nat, rw: nat)
    requires PageInv(s) && Coherent(s) && Legal(Access(v, rw)) && Fed(s, Access(v, rw))
    ensures Coherent(Step(s, Access(v, rw)).0) <==> !BadUpgrade(s, Access(v, rw))
  {
    assert Shape(s);
    hide PageInv, Coherent, HoleBefore, Retried, Resolved, Translate, HandleFault, Shape;
    if Upgradable(s, rw, v) {
      RetryServes(s, rw, v);
      RetryCoherent(s, rw, v);
    } else {
      TranslateIsWalk(s, rw, v);
      TranslateCoherent(s, rw, v);
      RefusedFault(s, v, rw);
    }
  }

  lemma RefusedFault(s: State, v: nat, rw: nat)
    requires Shape(s) && v < NR_PAGES && !Upgradable(s, rw, v)
    ensures HandleFault(s, v, rw) == (s, if HasDirectory(s.procs[s.cur], v) then Refused else Crashed)
  {
  }

  /** The TLB stays coherent exactly when no cached page is upgraded behind a hole. */
  lemma StepCoherent(s: State, c: Command)
    requires PageInv(s) && Coherent(s) && Legal(c) && Fed(s, c)
    ensures Coherent(Step(s, c).0) <==> !BadUpgrade(s, c)
  {
    assert Shape(s);
    match c {
      case Alloc(v, rw) =>
        TranslateIsWalk(s, ACCESS_READ, v);
        TranslateCoherent(s, ACCESS_READ, v);
        if !Lookup(s.procs[s.cur], v).valid {
          AllocCoherent(s, v, rw);
        }
        hide PageInv, Coherent, Translate, AllocPage;
      case Free(v) =>
        FreeSteps(s, v);
        FreeCoherent(Translate(s, ACCESS_READ, v).0, v);
        hide PageInv, Coherent, Translate, FreePage;
      case Access(v, rw) =>
        hide PageInv, Coherent;
        AccessCoherent(s, v, rw);
      case Switch(pid) =>
        SwitchCoherent(s, pid);
        hide PageInv, Coherent;
    }
  }

  // ----- With and without the TLB -----

  /** The same machine without its TLB. */
  function Off(s: State): State {
    s.(tlbOn := false, tlb := seq(NR_TLB_ENTRIES, _ => TlbEntry(false, 0, 0, 0, 0)))
  }

  lemma OffSound(s: State)
    requires PageInv(s)
    ensures PageInv(Off(s)) && Coherent(Off(s)) && Off(Off(s)) == Off(s)
  {
  }

  lemma WalkOff(s: State, rw: nat, v: nat)
    requires Shape(s) && v < NR_PAGES
    ensures Shape(Off(s)) && Walk(Off(s), rw, v) == Walk(s, rw, v)
    ensures Upgradable(Off(s), rw, v) == Upgradable(s, rw, v) && NeedsCopy(Off(s), rw, v) == NeedsCopy(s, rw, v)
  {
  }

  /** The two machines differ in nothing but the TLB. */
  ghost predicate SameTables(s: State, t: State) {
    s.procs == t.procs && s.mapcounts == t.mapcounts && s.cur == t.cur && s.queue == t.queue
  }

  lemma WithPteOff(s: State, t: State, v: nat, pte: Pte)
    requires Shape(s) && Shape(t) && SameTables(s, t) && v < NR_PAGES && pte.pfn < NR_PAGEFRAMES
    ensures SameTables(WithPte(s, v, pte), WithPte(t, v, pte))
  {
    hide SetPte, Lookup, Shape;
  }

  lemma AllocOff(s: State, t: State, v: nat, rw: nat)
    requires Shape(s) && Shape(t) && SameTables(s, t) && v < NR_PAGES
    ensures SameTables(AllocPage(s, v, rw).0, AllocPage(t, v, rw).0) && AllocPage(s, v, rw).1 == AllocPage(t, v, rw).1
  {
    var r := FirstFree(s.mapcounts, 0);
    if r.Some? {
      var counts := s.mapcounts[r.value := s.mapcounts[r.value] + 1];
      WithPteOff(s.(mapcounts := counts), t.(mapcounts := counts), v, Pte(true, rw, r.value, rw));
    }
    hide WithPte, FirstFree, Lookup, TableShape, FramesInRange;
  }

  lemma FreeOff(s: State, t: State, v: nat)
    requires Shape(s) && Shape(t) && SameTables(s, t) && v < NR_PAGES
    ensures SameTables(FreePage(s, v), FreePage(t, v))
  {
    var pte := Lookup(s.procs[s.cur], v);
    if pte.valid {
      assert pte.pfn < NR_PAGEFRAMES;
      var counts := s.mapcounts[pte.pfn := Decrement(s.mapcounts[pte.pfn])];
      WithPteOff(s.(mapcounts := counts, tlb := EvictTlb(s.tlb, v, 0)), t.(mapcounts := counts, tlb := EvictTlb(t.tlb, v, 0)), v, NO_PTE);
    }
    hide WithPte, EvictTlb, Lookup, TableShape, FramesInRange;
  }

  lemma FaultOff(s: State, t: State, v: nat, rw: nat)
    requires Shape(s) && Shape(t) && SameTables(s, t) && v < NR_PAGES
    ensures SameTables(HandleFault(s, v, rw).0, HandleFault(t, v, rw).0) && HandleFault(s, v, rw).1 == HandleFault(t, v, rw).1
  {
    var pte := Lookup(s.procs[s.cur], v);
    assert pte.pfn < NR_PAGEFRAMES;
    if pte.valid && s.mapcounts[pte.pfn] > 1 {
      var counts := s.mapcounts[pte.pfn := s.mapcounts[pte.pfn] - 1];
      AllocOff(s.(mapcounts := counts), t.(mapcounts := counts), v, ACCESS_BOTH);
    } else {
      WithPteOff(s, t, v, pte.(rw := ACCESS_BOTH));
    }
    hide WithPte, AllocPage, Lookup, TableShape, FramesInRange;
  }

  lemma SameTablesOff(s: State, t: State)
    requires Shape(s) && Shape(t)
    ensures SameTables(s, t) <==> Off(s) == Off(t)
  {
  }

  lemma TranslateOff(s: State, rw: nat, v: nat)
    requires PageInv(s) && Coherent(s) && v < NR_PAGES && LegalAccess(rw)
    ensures Shape(Off(s)) && Translate(Off(s), rw, v) == (Off(s), Translate(s, rw, v).1)
    ensures Off(Translate(s, rw, v).0) == Off(s)
  {
    OffSound(s);
    TranslateIsWalk(s, rw, v);
    TranslateIsWalk(Off(s), rw, v);
    TranslateCoherent(s, rw, v);
    TranslateCoherent(Off(s), rw, v);
    WalkOff(s, rw, v);
    hide PageInv, Coherent, Translate, Walk;
  }

  lemma AccessOff(s: State, v: nat, rw: nat)
    requires PageInv(s) && Coherent(s) && Legal(Access(v, rw)) && Fed(s, Access(v, rw)) && Shape(Off(s))
    ensures Step(Off(s), Access(v, rw)) == (Off(Step(s, Access(v, rw)).0), Step(s, Access(v, rw)).1)
  {
    assert Shape(s);
    OffSound(s);
    WalkOff(s, rw, v);
    hide PageInv, Coherent, Shape, Translate, HandleFault, Upgradable, NeedsCopy, Lookup;
    if Upgradable(s, rw, v) {
      UpgradeOff(s, v, rw);
    } else {
      TranslateOff(s, rw, v);
      TranslateIsWalk(s, rw, v);
      RefusedFault(s, v, rw);
      RefusedFault(Off(s), v, rw);
    }
  }

  lemma UpgradeOff(s: State, v: nat, rw: nat)
    requires PageInv(s) && Coherent(s) && Legal(Access(v, rw)) && Fed(s, Access(v, rw)) && Upgradable(s, rw, v)
    requires PageInv(Off(s)) && Coherent(Off(s)) && Upgradable(Off(s), rw, v)
    requires NeedsCopy(Off(s), rw, v) == NeedsCopy(s, rw, v)
    ensures Step(Off(s), Access(v, rw)) == (Off(Step(s, Access(v, rw)).0), Step(s, Access(v, rw)).1)
  {
    assert Shape(s) && Shape(Off(s));
    FaultOff(s, Off(s), v, rw);
    ResolvedFacts(Off(s), rw, v);
    RetryServes(s, rw, v);
    RetryServes(Off(s), rw, v);
    hide PageInv, Coherent, HandleFault, Lookup, AccessRound, Upgradable, NeedsCopy, InsertTlb;
  }

  lemma AllocStepOff(s: State, v: nat, rw: nat)
    requires PageInv(s) && Coherent(s) && Legal(Alloc(v, rw)) && Shape(Off(s))
    ensures Step(Off(s), Alloc(v, rw)) == (Off(Step(s, Alloc(v, rw)).0), Step(s, Alloc(v, rw)).1)
  {
    var t := Translate(s, ACCESS_READ, v).0;
    TranslateOff(s, ACCESS_READ, v);
    assert Shape(t);
    SameTablesOff(t, Off(s));
    AllocOff(t, Off(s), v, rw);
    SameTablesOff(AllocPage(t, v, rw).0, AllocPage(Off(s), v, rw).0);
    AllocKeepsOff(s, v, rw);
    hide PageInv, Coherent, Shape, Translate, AllocPage, SameTables, Off;
  }

  lemma AllocKeepsOff(s: State, v: nat, rw: nat)
    requires Shape(s) && v < NR_PAGES && Shape(Off(s))
    ensures Off(AllocPage(Off(s), v, rw).0) == AllocPage(Off(s), v, rw).0
  {
    hide SetPte, Lookup, FirstFree, Shape;
  }

  lemma FreeStepOff(s: State, v: nat)
    requires PageInv(s) && Coherent(s) && Legal(Free(v)) && Shape(Off(s))
    ensures Step(Off(s), Free(v)) == (Off(Step(s, Free(v)).0), Step(s, Free(v)).1)
  {
    var t := Translate(s, ACCESS_READ, v).0;
    TranslateOff(s, ACCESS_READ, v);
    assert Shape(t);
    SameTablesOff(t, Off(s));
    FreeOff(t, Off(s), v);
    SameTablesOff(FreePage(t, v), FreePage(Off(s), v));
    FreeKeepsOff(s, v);
    hide PageInv, Coherent, Shape, Translate, FreePage, SameTables, Off;
  }

  lemma {:induction false} EvictNothing(tlb: seq<TlbEntry>, v: nat, i: nat)
    requires forall k :: 0 <= k < |tlb| ==> !tlb[k].valid
    ensures EvictTlb(tlb, v, i) == tlb
    decreases |tlb| - i
  {
    if i < |tlb| {
      EvictNothing(tlb, v, i + 1);
    }
  }

  lemma FreeKeepsOff(s: State, v: nat)
    requires Shape(s) && v < NR_PAGES && Shape(Off(s))
    ensures Off(FreePage(Off(s), v)) == FreePage(Off(s), v)
  {
    EvictNothing(Off(s).tlb, v, 0);
    hide SetPte, Lookup, EvictTlb, Shape;
  }

  lemma SwitchOff(s: State, pid: nat)
    requires Shape(s) && Shape(Off(s))
    ensures DoSwitch(Off(s), pid) == Off(DoSwitch(s, pid))
  {
    assert FlushTlb(Off(s).tlb) == Off(s).tlb;
    hide ForkTable, Child, ShareCounts, FindPid, RemoveAt, FlushTlb, Shape;
  }

  /** The TLB is transparent: a command has the same outcome, frame included, and the same effect without it. */
  lemma StepOff(s: State, c: Command)
    requires PageInv(s) && Coherent(s) && Legal(c) && Fed(s, c)
    ensures Shape(Off(s)) && Step(Off(s), c) == (Off(Step(s, c).0), Step(s, c).1)
  {
    OffSound(s);
    assert Shape(Off(s));
    hide PageInv, Coherent, Shape, Off;
    match c {
      case Alloc(v, rw) => AllocStepOff(s, v, rw);
      case Free(v) => FreeStepOff(s, v);
      case Access(v, rw) => AccessOff(s, v, rw);
      case Switch(pid) =>
        assert Shape(s);
        SwitchOff(s, pid);
        hide DoSwitch;
    }
  }

  // ----- A stale translation -----

  /** If entry k is the first one for page v, that is the one eviction clears. */
  lemma {:induction false} EvictClearsFirst(tlb: seq<TlbEntry>, v: nat, i: nat, k: nat)
    requires i <= k < |tlb| && tlb[k].valid && tlb[k].vpn == v
    requires forall j :: i <= j < k ==> !(tlb[j].valid && tlb[j].vpn == v)
    ensures EvictTlb(tlb, v, i) == tlb[k := TlbEntry(false, 0, 0, 0, 0)]
    decreases k - i
  {
    if i < k {
      EvictClearsFirst(tlb, v, i + 1, k);
    }
  }

  /** The upgrade of a page cached behind a hole leaves two entries for it, and freeing the page clears only one. */
  lemma StaleEntrySurvives(p: Proc, tlb: seq<TlbEntry>, v: nat, rw: nat, pfn: nat)
    requires TableShape(p) && v < NR_PAGES && Packed(tlb) && TrueBut(p, tlb, -1) && HoleBefore(tlb, v)
    requires Lookup(p, v).rw == ACCESS_READ && rw > ACCESS_READ
    ensures var t := InsertTlb(tlb, v, rw, pfn, 0);
      && LookupTlb(t, v, ACCESS_READ, 0).Some?
      && LookupTlb(EvictTlb(t, v, 0), v, ACCESS_READ, 0) == Some(Lookup(p, v).pfn)
  {
    var k := SlotExists(tlb, v);
    InsertFills(tlb, v, rw, pfn, 0, k);
    var i, j :| 0 <= i < j < |tlb| && !tlb[i].valid && tlb[j].valid && tlb[j].vpn == v;
    assert EntryTrue(p, tlb[j]);
    var t := tlb[k := TlbEntry(true, rw, v, pfn, rw)];
    assert k <= i && InsertTlb(tlb, v, rw, pfn, 0) == t;
    EvictClearsFirst(t, v, 0, k);
    LookupFinds(t, v, ACCESS_READ, 0);
    LookupFinds(t[k := TlbEntry(false, 0, 0, 0, 0)], v, ACCESS_READ, 0);
    var u := t[k := TlbEntry(false, 0, 0, 0, 0)];
    assert u[j] == tlb[j];
    forall m | 0 <= m < |u| && u[m].valid && u[m].vpn == v ensures u[m].pfn == Lookup(p, v).pfn {
      assert EntryTrue(p, tlb[m]);
    }
    hide Lookup, InsertTlb, EvictTlb, LookupTlb, HoleBefore, Packed;
  }

  lemma ReadHits(s: State, v: nat)
    requires Shape(s) && v < NR_PAGES && s.tlbOn && LookupTlb(s.tlb, v, ACCESS_READ, 0).Some?
    ensures var hit := LookupTlb(s.tlb, v, ACCESS_READ, 0);
      Translate(s, ACCESS_READ, v) == (s, hit) && Step(s, Access(v, ACCESS_READ)) == (s, Accessed(hit.value))
  {
    hide Shape, LookupTlb, HandleFault;
  }

  /** Freeing a mapped page; the second access then faults on the invalid PTE when nothing is cached. */
  lemma FreedUnreadable(s: State, v: nat)
    requires Shape(s) && v < NR_PAGES && Lookup(s.procs[s.cur], v).valid
    ensures var t := FreePage(s, v);
      && Lookup(t.procs[t.cur], v) == NO_PTE && t.tlbOn == s.tlbOn && t.tlb == EvictTlb(s.tlb, v, 0)
      && (!s.tlbOn ==> Step(t, Access(v, ACCESS_READ)) == (t, Denied))
  {
    SetPteLookup(s.procs[s.cur], v, NO_PTE);
    hide EvictTlb;
  }

  /**
   Why the hole matters: upgrading a page cached behind a hole, freeing it and reading it again succeeds
   through the stale entry, in the frame the page had before the upgrade; without the TLB the same
   commands deny the read.
   */
  lemma BadUpgradeIsVisible(s: State, v: nat, rw: nat)
    requires PageInv(s) && Coherent(s) && Legal(Access(v, rw)) && Safe(s, Access(v, rw)) && BadUpgrade(s, Access(v, rw))
    ensures var t := Step(s, Access(v, rw)).0;
      var u := Step(t, Free(v)).0;
      Step(u, Access(v, ACCESS_READ)).1 == Accessed(Lookup(s.procs[s.cur], v).pfn)
    ensures Shape(Off(s)) &&
      var t := Step(Off(s), Access(v, rw)).0;
      var u := Step(t, Free(v)).0;
      Step(u, Access(v, ACCESS_READ)).1 == Denied
  {
    StaleRead(s, v, rw);
    FedOrSafe(s, Access(v, rw));
    StepOff(s, Access(v, rw));
    var t := Step(s, Access(v, rw)).0;
    UpgradedTable(s, v, rw);
    UncachedFreed(Off(t), v);
    hide PageInv, Coherent, Shape, Step, Safe, BadUpgrade;
  }

  lemma UpgradedTable(s: State, v: nat, rw: nat)
    requires PageInv(s) && Coherent(s) && Legal(Access(v, rw)) && Safe(s, Access(v, rw)) && Upgradable(s, rw, v)
    ensures var t := Step(s, Access(v, rw)).0;
      && t == Retried(s, rw, v) && Lookup(t.procs[t.cur], v).valid && Lookup(t.procs[t.cur], v).rw == ACCESS_BOTH
      && Shape(Off(t)) && Lookup(Off(t).procs[Off(t).cur], v).valid
  {
    RetryServes(s, rw, v);
    ResolvedFacts(s, rw, v);
    hide PageInv, Coherent, HandleFault, Lookup, AccessRound, Upgradable, NeedsCopy, InsertTlb;
  }

  lemma UncachedFreed(s: State, v: nat)
    requires Shape(s) && v < NR_PAGES && !s.tlbOn && Lookup(s.procs[s.cur], v).valid
    ensures Step(Step(s, Free(v)).0, Access(v, ACCESS_READ)).1 == Denied
  {
    FreedUnreadable(s, v);
    assert Step(s, Free(v)).0 == FreePage(s, v);
    hide FreePage, Lookup;
  }

  lemma StaleRead(s: State, v: nat, rw: nat)
    requires PageInv(s) && Coherent(s) && Legal(Access(v, rw)) && Safe(s, Access(v, rw)) && BadUpgrade(s, Access(v, rw))
    ensures var t := Step(s, Access(v, rw)).0;
      var u := Step(t, Free(v)).0;
      Step(u, Access(v, ACCESS_READ)).1 == Accessed(Lookup(s.procs[s.cur], v).pfn)
  {
    UpgradedTable(s, v, rw);
    ResolvedFacts(s, rw, v);
    var t := Retried(s, rw, v);
    var r := Resolved(s, rw, v);
    StaleEntrySurvives(s.procs[s.cur], s.tlb, v, ACCESS_BOTH, Lookup(r.procs[r.cur], v).pfn);
    assert t.tlbOn && t.tlb == InsertTlb(s.tlb, v, ACCESS_BOTH, Lookup(r.procs[r.cur], v).pfn, 0);
    hide PageInv, Packed, TrueBut, Resolved, Retried, InsertTlb, EvictTlb, LookupTlb, HoleBefore, Lookup;
    ReadHits(t, v);
    FreedUnreadable(t, v);
    var u := FreePage(t, v);
    assert Step(t, Free(v)).0 == u;
    ReadHits(u, v);
  }

  // ----- Isolation -----

  ghost predicate SameMapping(a: Pte, b: Pte) {
    a.valid == b.valid && (a.valid ==> a.pfn == b.pfn && a.priv == b.priv)
  }

  /**
   No command of one process touches another process's tables, and a switch moves nobody's pages:
   it can only take write bits away, keeping frames and permissions.
   */
  lemma Isolation(s: State, c: Command)
    requires Shape(s) && Legal(c)
    ensures var t := Step(s, c).0;
      && |t.procs| >= |s.procs|
      && (forall p :: 0 <= p < |s.procs| && p != s.cur ==> t.procs[p] == s.procs[p])
      && (c.Switch? ==> forall v :: 0 <= v < NR_PAGES ==> SameMapping(Lookup(t.procs[s.cur], v), Lookup(s.procs[s.cur], v)))
  {
    match c {
      case Alloc(v, rw) => hide Lookup, FirstFree, InsertTlb, LookupTlb, SetPte, TableShape, FramesInRange;
      case Free(v) => hide Lookup, EvictTlb, InsertTlb, LookupTlb, SetPte, TableShape, FramesInRange;
      case Access(v, rw) =>
        hide Translate, HandleFault, Shape;
        AccessIsolated(s, v, rw, 0);
      case Switch(pid) => SwitchIsolated(s, pid);
    }
  }

  lemma SwitchIsolated(s: State, pid: nat)
    requires Shape(s)
    ensures var t := DoSwitch(s, pid);
      && |t.procs| >= |s.procs|
      && (forall p :: 0 <= p < |s.procs| && p != s.cur ==> t.procs[p] == s.procs[p])
      && (forall v :: 0 <= v < NR_PAGES ==> SameMapping(Lookup(t.procs[s.cur], v), Lookup(s.procs[s.cur], v)))
  {
    ForkTables(s, pid);
    hide Lookup, ForkTable, Child, ShareCounts, RemoveAt, FlushTlb;
  }

  /** Only the current process's tables change. */
  ghost predicate OnlyCurrent(s: State, t: State) {
    && t.cur == s.cur && |t.procs| == |s.procs|
    && forall p :: 0 <= p < |s.procs| && p != s.cur ==> t.procs[p] == s.procs[p]
  }

  lemma PartsIsolated(s: State, v: nat, rw: nat)
    requires Shape(s) && v < NR_PAGES
    ensures OnlyCurrent(s, Translate(s, rw, v).0) && OnlyCurrent(s, HandleFault(s, v, rw).0)
  {
    hide Lookup, FirstFree, InsertTlb, LookupTlb, SetPte, TableShape, FramesInRange;
  }

  lemma AccessIsolated(s: State, v: nat, rw: nat, retries: nat)
    requires Shape(s) && v < NR_PAGES && retries < 2
    ensures OnlyCurrent(s, AccessRound(s, v, rw, retries).0)
    decreases 2 - retries
  {
    var t := Translate(s, rw, v).0;
    PartsIsolated(s, v, rw);
    PartsIsolated(t, v, rw);
    var u := HandleFault(t, v, rw).0;
    hide Translate, HandleFault, Shape;
    if retries + 1 < 2 {
      AccessIsolated(u, v, rw, retries + 1);
    }
  }

  /** A served access lands in the frame its page is mapped to; a served write in a frame nothing else maps. */
  lemma AccessLands(s: State, v: nat, rw: nat)
    requires PageInv(s) && Coherent(s) && Legal(Access(v, rw)) && Safe(s, Access(v, rw))
    requires Step(s, Access(v, rw)).1.Accessed?
    ensures var t := Step(s, Access(v, rw)).0;
      var f := Step(s, Access(v, rw)).1.pfn;
      && Tables(t.procs) && Maps(t.procs[t.cur], v, f)
      && (Writes(rw) ==> Mappings(t.procs, f) == {(t.cur, v)})
  {
    var t := Step(s, Access(v, rw)).0;
    AccessServed(s, v, rw);
    if Writes(rw) {
      OnlyMapping(t, v);
    }
    hide PageInv, Coherent, Step, Mappings;
  }

  lemma OnlyMapping(s: State, v: nat)
    requires PageInv(s) && v < NR_PAGES && Lookup(s.procs[s.cur], v).valid && Lookup(s.procs[s.cur], v).rw == ACCESS_BOTH
    ensures Mappings(s.procs, Lookup(s.procs[s.cur], v).pfn) == {(s.cur, v)}
  {
    hide Lookup;
    var f := Lookup(s.procs[s.cur], v).pfn;
    forall p, w | 0 <= p < |s.procs| && 0 <= w < NR_PAGES && Maps(s.procs[p], w, f) ensures (p, w) == (s.cur, v) {
      assert SameFrame(Lookup(s.procs[s.cur], v), Lookup(s.procs[p], w));
    }
    assert (s.cur, v) in Mappings(s.procs, f);
  }

  lemma AccessServed(s: State, v: nat, rw: nat)
    requires PageInv(s) && Coherent(s) && Legal(Access(v, rw)) && Safe(s, Access(v, rw))
    requires Step(s, Access(v, rw)).1.Accessed?
    ensures var t := Step(s, Access(v, rw)).0;
      && PageInv(t) && Maps(t.procs[t.cur], v, Step(s, Access(v, rw)).1.pfn)
      && (Writes(rw) ==> Lookup(t.procs[t.cur], v).rw == ACCESS_BOTH)
  {
    assert PteOk(Lookup(s.procs[s.cur], v));
    TranslateIsWalk(s, rw, v);
    TranslateCoherent(s, rw, v);
    OtherTlb(s, Translate(s, rw, v).0.tlb);
    if Walk(s, rw, v).None? {
      RefusedOrUpgraded(s, v, rw);
    }
    hide PageInv, Coherent, Translate, HandleFault, Lookup, Retried, Upgradable, NeedsCopy, FrameLeft;
  }

  lemma RefusedOrUpgraded(s: State, v: nat, rw: nat)
    requires PageInv(s) && Coherent(s) && Legal(Access(v, rw)) && Safe(s, Access(v, rw)) && Walk(s, rw, v).None?
    ensures Step(s, Access(v, rw)).1 == Denied || (
      && Step(s, Access(v, rw)).1.Accessed?
      && var t := Step(s, Access(v, rw)).0;
         PageInv(t) && Maps(t.procs[t.cur], v, Step(s, Access(v, rw)).1.pfn) && Lookup(t.procs[t.cur], v).rw == ACCESS_BOTH)
  {
    if Upgradable(s, rw, v) {
      UpgradedTable(s, v, rw);
      RetryServes(s, rw, v);
      RetryCoherent(s, rw, v);
    } else {
      TranslateIsWalk(s, rw, v);
      RefusedFault(s, v, rw);
    }
    hide PageInv, Coherent, Translate, HandleFault, Lookup, Upgradable, NeedsCopy, Walk;
  }
}
