/**
 The TLB.  Between commands its valid entries are unique per page and equal to the current process's
 PTEs, as long as no cached page is upgraded behind a hole; then it cannot be told from no TLB at all.
 */
module VmTlb {
  import opened Seqs
  import opened VmModel
  import opened VmInvariants

  // ----- Coherence -----

  /** A cached translation says what the page table says. */
  ghost predicate EntryTrue(p: Proc, e: TlbEntry)
    requires TableShape(p)
  {
    e.vpn < NR_PAGES && Lookup(p, e.vpn).valid && e.pfn == Lookup(p, e.vpn).pfn && e.rw == Lookup(p, e.vpn).rw
  }

  /** Distinct cached pages, all of them among the first NR_PAGES entries. */
  ghost predicate Packed(tlb: seq<TlbEntry>) {
    && |tlb| == NR_TLB_ENTRIES
    && (forall i :: 0 <= i < |tlb| && tlb[i].valid ==> i < NR_PAGES && tlb[i].vpn < NR_PAGES)
    && (forall i, j :: 0 <= i < j < |tlb| && tlb[i].valid && tlb[j].valid ==> tlb[i].vpn != tlb[j].vpn)
  }

  /** Every cached page other than `but` is cached truthfully. */
  ghost predicate TrueBut(p: Proc, tlb: seq<TlbEntry>, but: int)
    requires TableShape(p)
  {
    forall i :: 0 <= i < |tlb| && tlb[i].valid && tlb[i].vpn != but ==> EntryTrue(p, tlb[i])
  }

  ghost predicate Coherent(s: State)
    requires Shape(s)
  {
    && Packed(s.tlb) && TrueBut(s.procs[s.cur], s.tlb, -1)
    && (!s.tlbOn ==> forall i :: 0 <= i < |s.tlb| ==> !s.tlb[i].valid)
  }

  ghost predicate Cached(tlb: seq<TlbEntry>, v: nat) {
    exists i :: 0 <= i < |tlb| && tlb[i].valid && tlb[i].vpn == v
  }

  /** Page v is cached behind an entry that is not in use. */
  ghost predicate HoleBefore(tlb: seq<TlbEntry>, v: nat) {
    exists i, j :: 0 <= i < j < |tlb| && !tlb[i].valid && tlb[j].valid && tlb[j].vpn == v
  }

  // ----- The loops -----

  /** Entry k is where insert_tlb stops for page v. */
  ghost predicate IsSlot(tlb: seq<TlbEntry>, v: nat, k: nat) {
    && k < |tlb| && (!tlb[k].valid || tlb[k].vpn == v)
    && forall j :: 0 <= j < k ==> tlb[j].valid && tlb[j].vpn != v
  }

  function FirstSlot(tlb: seq<TlbEntry>, v: nat, i: nat): (k: nat)
    requires i <= |tlb|
    ensures i <= k <= |tlb|
    ensures forall j :: i <= j < k ==> tlb[j].valid && tlb[j].vpn != v
    ensures k < |tlb| ==> !tlb[k].valid || tlb[k].vpn == v
    decreases |tlb| - i
  {
    if i == |tlb| then i else if !tlb[i].valid || tlb[i].vpn == v then i else FirstSlot(tlb, v, i + 1)
  }

  /** With distinct cached pages below NR_PAGES there is always a slot below NR_PAGES: the 128 rounds suffice. */
  lemma SlotExists(tlb: seq<TlbEntry>, v: nat) returns (k: nat)
    requires Packed(tlb) && v < NR_PAGES
    ensures k < NR_PAGES && IsSlot(tlb, v, k)
  {
    k := FirstSlot(tlb, v, 0);
    if k >= NR_PAGES {
      var pages := seq(NR_PAGES, i requires 0 <= i < NR_PAGES => tlb[i].vpn);
      DistinctCount(pages + [v], NR_PAGES);
    }
  }

  lemma {:induction false} InsertFills(tlb: seq<TlbEntry>, v: nat, rw: nat, pfn: nat, i: nat, k: nat)
    requires |tlb| == NR_TLB_ENTRIES && IsSlot(tlb, v, k) && i <= k < NR_PAGEFRAMES
    ensures InsertTlb(tlb, v, rw, pfn, i) ==
      tlb[k := if tlb[k].valid then tlb[k].(pfn := pfn, rw := rw) else TlbEntry(true, rw, v, pfn, rw)]
    decreases k - i
  {
    if i < k {
      InsertFills(tlb, v, rw, pfn, i + 1, k);
    }
  }

  lemma {:induction false} LookupFinds(tlb: seq<TlbEntry>, v: nat, rw: nat, i: nat)
    ensures var r := LookupTlb(tlb, v, rw, i);
      if r.Some? then exists k :: i <= k < |tlb| && tlb[k].valid && tlb[k].vpn == v && tlb[k].rw >= rw && tlb[k].pfn == r.value
      else forall k :: i <= k < |tlb| ==> !(tlb[k].valid && tlb[k].vpn == v && tlb[k].rw >= rw)
    decreases |tlb| - i
  {
    if i < |tlb| {
      LookupFinds(tlb, v, rw, i + 1);
    }
  }

  lemma {:induction false} EvictClears(tlb: seq<TlbEntry>, v: nat, i: nat)
    requires forall j, k :: 0 <= j < k < |tlb| && tlb[j].valid && tlb[k].valid ==> tlb[j].vpn != tlb[k].vpn
    ensures var r := EvictTlb(tlb, v, i);
      forall k :: 0 <= k < |tlb| ==> r[k] == if k >= i && tlb[k].valid && tlb[k].vpn == v then TlbEntry(false, 0, 0, 0, 0) else tlb[k]
    decreases |tlb| - i
  {
    if i < |tlb| {
      EvictClears(tlb, v, i + 1);
    }
  }

  // ----- Translation -----

  /** Address translation by the page table alone. */
  function Walk(s: State, rw: nat, v: nat): Option<nat>
    requires Shape(s) && v < NR_PAGES
  {
    var pte := Lookup(s.procs[s.cur], v);
    if pte.valid && (Writes(rw) ==> Writes(pte.rw)) then Some(pte.pfn) else None
  }

  ghost predicate LegalAccess(rw: nat) {
    ACCESS_READ <= rw <= ACCESS_BOTH
  }

  /** A coherent TLB never changes what an address translates to. */
  lemma TranslateIsWalk(s: State, rw: nat, v: nat)
    requires PageInv(s) && Coherent(s) && v < NR_PAGES && LegalAccess(rw)
    ensures Translate(s, rw, v).1 == Walk(s, rw, v)
    ensures Walk(s, rw, v).None? ==> Translate(s, rw, v).0 == s
  {
    LookupFinds(s.tlb, v, rw, 0);
    assert PteOk(Lookup(s.procs[s.cur], v));
    hide Lookup, LookupTlb, OnePage, WritersAlone, CountsExact;
  }

  /** Caching the current PTE of a page in its slot, with the other entries already true. */
  lemma InsertCoherent(p: Proc, tlb: seq<TlbEntry>, v: nat)
    requires TableShape(p) && v < NR_PAGES && Packed(tlb) && TrueBut(p, tlb, v) && Lookup(p, v).valid
    ensures var r := InsertTlb(tlb, v, Lookup(p, v).rw, Lookup(p, v).pfn, 0);
      Packed(r) && TrueBut(p, r, -1) <==> !HoleBefore(tlb, v)
  {
    var k := SlotExists(tlb, v);
    var pte := Lookup(p, v);
    InsertFills(tlb, v, pte.rw, pte.pfn, 0, k);
    hide Lookup, InsertTlb;
    var r := tlb[k := if tlb[k].valid then tlb[k].(pfn := pte.pfn, rw := pte.rw) else TlbEntry(true, pte.rw, v, pte.pfn, pte.rw)];
    if HoleBefore(tlb, v) {
      var i, j :| 0 <= i < j < |tlb| && !tlb[i].valid && tlb[j].valid && tlb[j].vpn == v;
      assert k <= i;
      assert r[k].vpn == v && r[j].vpn == v;
      assert !Packed(r);
    } else {
      InsertedPacked(tlb, v, k, r);
    }
  }

  lemma InsertedPacked(tlb: seq<TlbEntry>, v: nat, k: nat, r: seq<TlbEntry>)
    requires Packed(tlb) && v < NR_PAGES && k < NR_PAGES && IsSlot(tlb, v, k) && !HoleBefore(tlb, v)
    requires |r| == |tlb| && k < |r| && r == tlb[k := r[k]] && r[k].valid && r[k].vpn == v
    ensures Packed(r) && forall i :: 0 <= i < |r| && r[i].valid && r[i].vpn == v ==> i == k
  {
    forall i | 0 <= i < |tlb| && tlb[i].valid && tlb[i].vpn == v ensures i == k {
    }
  }

  // ----- Commands -----

  lemma CachedIsMapped(s: State, v: nat)
    requires Shape(s) && Coherent(s) && Cached(s.tlb, v)
    ensures v < NR_PAGES && Lookup(s.procs[s.cur], v).valid
  {
    hide Lookup;
    var i :| 0 <= i < |s.tlb| && s.tlb[i].valid && s.tlb[i].vpn == v;
    assert EntryTrue(s.procs[s.cur], s.tlb[i]);
  }

  /** A translation leaves the TLB coherent. */
  lemma TranslateCoherent(s: State, rw: nat, v: nat)
    requires PageInv(s) && Coherent(s) && v < NR_PAGES && LegalAccess(rw)
    ensures Coherent(Translate(s, rw, v).0)
    ensures var t := Translate(s, rw, v).0; t == s.(tlb := t.tlb) && (!s.tlbOn ==> t == s)
  {
    LookupFinds(s.tlb, v, rw, 0);
    var p := s.procs[s.cur];
    assert PteOk(Lookup(p, v));
    hide OnePage, WritersAlone, CountsExact, LookupTlb;
    if s.tlbOn && LookupTlb(s.tlb, v, rw, 0).None? && Walk(s, rw, v).Some? {
      if Cached(s.tlb, v) {
        MissedEntryTrue(s, rw, v);
      }
      assert !HoleBefore(s.tlb, v);
      InsertCoherent(p, s.tlb, v);
    }
  }

  /** A cached page that misses is not accessible in this way either. */
  lemma MissedEntryTrue(s: State, rw: nat, v: nat)
    requires PageInv(s) && Coherent(s) && v < NR_PAGES && LegalAccess(rw) && Cached(s.tlb, v)
    requires LookupTlb(s.tlb, v, rw, 0).None?
    ensures Walk(s, rw, v).None?
  {
    LookupFinds(s.tlb, v, rw, 0);
    assert PteOk(Lookup(s.procs[s.cur], v));
    hide Lookup, LookupTlb, OnePage, WritersAlone, CountsExact;
    var i :| 0 <= i < |s.tlb| && s.tlb[i].valid && s.tlb[i].vpn == v;
    assert EntryTrue(s.procs[s.cur], s.tlb[i]);
  }

  /** Changing the PTE of one page leaves the other pages' cache entries true. */
  lemma OthersStayTrue(s: State, t: State, v: nat)
    requires Shape(s) && Shape(t) && v < NR_PAGES && t.cur == s.cur && t.tlb == s.tlb
    requires TrueBut(s.procs[s.cur], s.tlb, -1)
    requires forall w :: 0 <= w < NR_PAGES && w != v ==> Lookup(t.procs[t.cur], w) == Lookup(s.procs[s.cur], w)
    ensures TrueBut(t.procs[t.cur], t.tlb, v)
    ensures !Cached(s.tlb, v) ==> TrueBut(t.procs[t.cur], t.tlb, -1)
  {
    hide Lookup, TableShape, FramesInRange;
    forall i | 0 <= i < |t.tlb| && t.tlb[i].valid && t.tlb[i].vpn != v ensures EntryTrue(t.procs[t.cur], t.tlb[i]) {
      assert EntryTrue(s.procs[s.cur], s.tlb[i]);
    }
  }

  lemma AllocCoherent(s: State, v: nat, rw: nat)
    requires PageInv(s) && Coherent(s) && v < NR_PAGES && !Lookup(s.procs[s.cur], v).valid
    ensures Coherent(AllocPage(s, v, rw).0)
  {
    var t := AllocPage(s, v, rw).0;
    if Cached(s.tlb, v) {
      CachedIsMapped(s, v);
    }
    if FirstFree(s.mapcounts, 0).Some? {
      var f := FirstFree(s.mapcounts, 0).value;
      SetPteLookup(s.procs[s.cur], v, Pte(true, rw, f, rw));
      OthersStayTrue(s, t, v);
    }
  }

  lemma FreeCoherent(s: State, v: nat)
    requires PageInv(s) && Coherent(s) && v < NR_PAGES
    ensures Coherent(FreePage(s, v))
  {
    var t := FreePage(s, v);
    if Lookup(s.procs[s.cur], v).valid {
      SetPteLookup(s.procs[s.cur], v, NO_PTE);
      EvictClears(s.tlb, v, 0);
      OthersStayTrue(s, t.(tlb := s.tlb), v);
      hide Lookup, OnePage, WritersAlone, CountsExact;
    }
  }

  /** A switch leaves no valid entry: the 128 rounds of the flush suffice. */
  lemma FlushClears(tlb: seq<TlbEntry>)
    requires Packed(tlb)
    ensures forall i :: 0 <= i < |tlb| ==> !FlushTlb(tlb)[i].valid
  {
  }

  lemma SwitchCoherent(s: State, pid: nat)
    requires PageInv(s) && Coherent(s)
    ensures Coherent(DoSwitch(s, pid))
    ensures forall i :: 0 <= i < NR_TLB_ENTRIES ==> !DoSwitch(s, pid).tlb[i].valid
  {
    FlushClears(s.tlb);
    hide Lookup, OnePage, WritersAlone, CountsExact, FindPid;
  }

  // ----- Accesses -----

  /** The page was allocated writable, has lost its write bit to a fork, and is being written. */
  predicate Upgradable(s: State, rw: nat, v: nat)
    requires Shape(s) && v < NR_PAGES
  {
    var pte := Lookup(s.procs[s.cur], v);
    pte.valid && pte.priv != ACCESS_READ && pte.rw == ACCESS_READ && rw > ACCESS_READ
  }

  /** The write needs a frame of its own. */
  predicate NeedsCopy(s: State, rw: nat, v: nat)
    requires Shape(s) && v < NR_PAGES
  {
    Upgradable(s, rw, v) && s.mapcounts[Lookup(s.procs[s.cur], v).pfn] > 1
  }

  predicate FrameLeft(s: State) {
    FirstFree(s.mapcounts, 0).Some?
  }

  /** The state the fault handler leaves after an upgrade. */
  function Resolved(s: State, rw: nat, v: nat): (t: State)
    requires Shape(s) && v < NR_PAGES
    ensures Shape(t)
  {
    HandleFault(s, v, rw).0
  }

  /** Sound tables in which page v of the current process translates for writing, and all else is as it was. */
  ghost predicate Upgraded(s: State, v: nat, t: State)
    requires Shape(s) && v < NR_PAGES
  {
    && PageInv(t) && t == s.(procs := t.procs, mapcounts := t.mapcounts) && |t.procs| == |s.procs|
    && Lookup(t.procs[t.cur], v).valid && Lookup(t.procs[t.cur], v).rw == ACCESS_BOTH == Lookup(t.procs[t.cur], v).priv
    && (forall p, w :: 0 <= p < |s.procs| && 0 <= w < NR_PAGES && (p != s.cur || w != v) ==>
      Lookup(t.procs[p], w) == Lookup(s.procs[p], w))
    && (forall p :: 0 <= p < |s.procs| ==> t.procs[p].pid == s.procs[p].pid)
  }

  lemma WrittenUpgrades(s: State, v: nat, u: State, pte: Pte)
    requires Shape(s) && Shape(u) && v < NR_PAGES && u == s.(mapcounts := u.mapcounts)
    requires pte.valid && pte.rw == ACCESS_BOTH == pte.priv && pte.pfn < NR_PAGEFRAMES && PageInv(WithPte(u, v, pte))
    ensures Upgraded(s, v, WithPte(u, v, pte))
  {
    SetPteLookup(u.procs[u.cur], v, pte);
    hide PageInv, Lookup, TableShape, FramesInRange;
  }

  /** The handler resolves an upgrade: sound tables, and now the page translates for writing. */
  lemma ResolvedFacts(s: State, rw: nat, v: nat)
    requires PageInv(s) && v < NR_PAGES && LegalAccess(rw) && Upgradable(s, rw, v)
    requires NeedsCopy(s, rw, v) ==> FrameLeft(s)
    ensures HandleFault(s, v, rw) == (Resolved(s, rw, v), Handled) && Upgraded(s, v, Resolved(s, rw, v))
  {
    var pte := Lookup(s.procs[s.cur], v);
    assert PteOk(pte) && HasDirectory(s.procs[s.cur], v);
    assert Shape(s);
    hide PageInv, Lookup, WithPte, FirstFree, Upgraded, HasDirectory, Shape;
    CountMeans(s, s.cur, v, s.cur, v);
    if s.mapcounts[pte.pfn] > 1 {
      CopyResolves(s, v);
    } else {
      UpgradeKeeps(s, v);
      WrittenUpgrades(s, v, s, pte.(rw := ACCESS_BOTH));
    }
  }

  lemma CopyResolves(s: State, v: nat)
    requires PageInv(s) && v < NR_PAGES && FrameLeft(s)
    requires var pte := Lookup(s.procs[s.cur], v); pte.valid && s.mapcounts[pte.pfn] > 1
    ensures var pte := Lookup(s.procs[s.cur], v);
      Upgraded(s, v, AllocPage(s.(mapcounts := s.mapcounts[pte.pfn := s.mapcounts[pte.pfn] - 1]), v, ACCESS_BOTH).0)
  {
    var pte := Lookup(s.procs[s.cur], v);
    var counts := s.mapcounts[pte.pfn := s.mapcounts[pte.pfn] - 1];
    assert Shape(s);
    CopyKeeps(s, v);
    SameFirstFree(s.mapcounts, pte.pfn, 0);
    hide PageInv, Lookup, TableShape, FramesInRange, WithPte, Upgraded;
    var f := FirstFree(counts, 0).value;
    WrittenUpgrades(s, v, s.(mapcounts := counts[f := counts[f] + 1]), Pte(true, ACCESS_BOTH, f, ACCESS_BOTH));
  }

  lemma StaleEntryMisses(s: State, rw: nat, v: nat, t: State)
    requires PageInv(s) && Coherent(s) && v < NR_PAGES && LegalAccess(rw) && Upgradable(s, rw, v)
    ensures LookupTlb(s.tlb, v, rw, 0).None?
  {
    LookupFinds(s.tlb, v, rw, 0);
    hide Lookup, LookupTlb, OnePage, WritersAlone, CountsExact;
    forall i | 0 <= i < |s.tlb| && s.tlb[i].valid && s.tlb[i].vpn == v ensures s.tlb[i].rw < rw {
      assert EntryTrue(s.procs[s.cur], s.tlb[i]);
    }
  }

  /** The state after an upgrade and the retry. */
  function Retried(s: State, rw: nat, v: nat): State
    requires Shape(s) && v < NR_PAGES
  {
    var t := Resolved(s, rw, v);
    var pte := Lookup(t.procs[t.cur], v);
    if t.tlbOn then t.(tlb := InsertTlb(t.tlb, v, pte.rw, pte.pfn, 0)) else t
  }

  /** One retry always suffices: the second round translates. */
  lemma RetryServes(s: State, rw: nat, v: nat)
    requires PageInv(s) && Coherent(s) && v < NR_PAGES && LegalAccess(rw) && Upgradable(s, rw, v)
    requires NeedsCopy(s, rw, v) ==> FrameLeft(s)
    ensures AccessRound(s, v, rw, 0) ==
      (Retried(s, rw, v), Accessed(Lookup(Resolved(s, rw, v).procs[s.cur], v).pfn))
  {
    var t := Resolved(s, rw, v);
    ResolvedFacts(s, rw, v);
    TranslateIsWalk(s, rw, v);
    StaleEntryMisses(s, rw, v, t);
    assert Walk(s, rw, v).None?;
    assert Walk(t, rw, v) == Some(Lookup(t.procs[t.cur], v).pfn);
    hide PageInv, Coherent, Lookup, HandleFault;
    assert Translate(s, rw, v) == (s, None);
    assert AccessRound(s, v, rw, 0) == AccessRound(t, v, rw, 1);
  }

  /** After an upgrade the TLB is coherent again exactly when the page was not cached behind a hole. */
  lemma RetryCoherent(s: State, rw: nat, v: nat)
    requires PageInv(s) && Coherent(s) && v < NR_PAGES && LegalAccess(rw) && Upgradable(s, rw, v)
    requires NeedsCopy(s, rw, v) ==> FrameLeft(s)
    ensures Shape(Retried(s, rw, v)) && PageInv(Retried(s, rw, v))
    ensures Coherent(Retried(s, rw, v)) <==> !HoleBefore(s.tlb, v)
  {
    var t := Resolved(s, rw, v);
    ResolvedFacts(s, rw, v);
    OthersStayTrue(s, t, v);
    if t.tlbOn {
      var pte := Lookup(t.procs[t.cur], v);
      InsertCoherent(t.procs[t.cur], t.tlb, v);
      OtherTlb(t, InsertTlb(t.tlb, v, pte.rw, pte.pfn, 0));
    } else {
      assert !Cached(s.tlb, v);
    }
    hide PageInv, Lookup, HandleFault, InsertTlb;
  }
}
