/**
 What every command keeps, over all processes ever created: map counts are exact, a frame is mapped
 at one page number only, and a writable mapping is the frame's only one.
 */
module VmInvariants {
  import opened Seqs
  import opened VmModel

  // ----- The invariant -----

  ghost predicate Maps(p: Proc, v: nat, f: nat)
    requires TableShape(p) && v < NR_PAGES
  {
    Lookup(p, v).valid && Lookup(p, v).pfn == f
  }

  ghost predicate Tables(procs: seq<Proc>) {
    forall i :: 0 <= i < |procs| ==> TableShape(procs[i])
  }

  /** All valid PTEs that point to a frame, as pairs of process and page. */
  ghost function Mappings(procs: seq<Proc>, f: nat): set<(nat, nat)>
    requires Tables(procs)
  {
    set p: nat, v: nat | 0 <= p < |procs| && 0 <= v < NR_PAGES && Maps(procs[p], v, f) :: (p, v)
  }

  /** Permissions of a valid PTE: readable, and never more than what the page was allocated with. */
  ghost predicate PteOk(pte: Pte) {
    pte.valid ==>
      && pte.pfn < NR_PAGEFRAMES
      && (pte.rw == ACCESS_READ || pte.rw == ACCESS_BOTH)
      && (pte.priv == ACCESS_READ || pte.priv == ACCESS_BOTH)
      && pte.rw <= pte.priv
  }

  ghost predicate PtesOk(procs: seq<Proc>)
    requires Tables(procs)
  {
    forall p, v :: 0 <= p < |procs| && 0 <= v < NR_PAGES ==> PteOk(Lookup(procs[p], v))
  }

  ghost predicate CountsExact(procs: seq<Proc>, mapcounts: seq<nat>)
    requires Tables(procs) && |mapcounts| == NR_PAGEFRAMES
  {
    forall f :: 0 <= f < NR_PAGEFRAMES ==> mapcounts[f] == |Mappings(procs, f)|
  }

  ghost predicate SameFrame(a: Pte, b: Pte) {
    a.valid && b.valid && a.pfn == b.pfn
  }

  /** A frame that several PTEs share is shared at one page number. */
  ghost predicate OnePage(procs: seq<Proc>)
    requires Tables(procs)
  {
    forall p, v, q, w :: 0 <= p < |procs| && 0 <= q < |procs| && 0 <= v < NR_PAGES && 0 <= w < NR_PAGES ==>
      (SameFrame(Lookup(procs[p], v), Lookup(procs[q], w)) ==> v == w)
  }

  /** A PTE with the write bit is the only mapping of its frame. */
  ghost predicate WritersAlone(procs: seq<Proc>)
    requires Tables(procs)
  {
    forall p, v, q, w :: 0 <= p < |procs| && 0 <= q < |procs| && 0 <= v < NR_PAGES && 0 <= w < NR_PAGES ==>
      (SameFrame(Lookup(procs[p], v), Lookup(procs[q], w)) && Lookup(procs[p], v).rw == ACCESS_BOTH ==> p == q && v == w)
  }

  ghost predicate PageInv(s: State) {
    && Shape(s) && Tables(s.procs) && PtesOk(s.procs) && CountsExact(s.procs, s.mapcounts) && OnePage(s.procs)
    && WritersAlone(s.procs)
  }

  // ----- One PTE changes -----

  /** The tables `qs` are `ps` except for the PTE of process c at page v. */
  ghost predicate OnePteChanged(ps: seq<Proc>, qs: seq<Proc>, c: nat, v: nat, pte: Pte)
    requires Tables(ps) && Tables(qs)
  {
    && |qs| == |ps| && c < |ps| && v < NR_PAGES
    && forall p, w :: 0 <= p < |ps| && 0 <= w < NR_PAGES ==>
      Lookup(qs[p], w) == if p == c && w == v then pte else Lookup(ps[p], w)
  }

  lemma WithPteChanges(s: State, v: nat, pte: Pte)
    requires Shape(s) && v < NR_PAGES && pte.pfn < NR_PAGEFRAMES
    ensures Tables(s.procs) && Tables(WithPte(s, v, pte).procs)
    ensures OnePteChanged(s.procs, WithPte(s, v, pte).procs, s.cur, v, pte)
    ensures var t := WithPte(s, v, pte); t == s.(procs := t.procs)
  {
    SetPteLookup(s.procs[s.cur], v, pte);
  }

  lemma MappingsChange(ps: seq<Proc>, qs: seq<Proc>, c: nat, v: nat, pte: Pte, f: nat)
    requires Tables(ps) && Tables(qs) && OnePteChanged(ps, qs, c, v, pte)
    ensures Mappings(qs, f) ==
      Mappings(ps, f) - {(c, v)} + if pte.valid && pte.pfn == f then {(c, v)} else {}
    ensures (c, v) in Mappings(ps, f) <==> Maps(ps[c], v, f)
  {
    hide Lookup;
  }

  /** How the count of a frame moves with one PTE. */
  lemma CountChange(ps: seq<Proc>, qs: seq<Proc>, c: nat, v: nat, pte: Pte, f: nat)
    requires Tables(ps) && Tables(qs) && OnePteChanged(ps, qs, c, v, pte)
    ensures |Mappings(qs, f)| == |Mappings(ps, f)|
      - (if Maps(ps[c], v, f) then 1 else 0) + (if pte.valid && pte.pfn == f then 1 else 0)
  {
    MappingsChange(ps, qs, c, v, pte, f);
    hide Mappings, Lookup, OnePteChanged;
    var rest := Mappings(ps, f) - {(c, v)};
    if Maps(ps[c], v, f) {
      assert Mappings(ps, f) == rest + {(c, v)};
    } else {
      assert Mappings(ps, f) == rest;
    }
  }

  /** A mapped frame is counted, and one counted once has a single mapping. */
  lemma CountMeans(s: State, p: nat, v: nat, q: nat, w: nat)
    requires PageInv(s) && p < |s.procs| && q < |s.procs| && v < NR_PAGES && w < NR_PAGES
    requires Lookup(s.procs[p], v).valid
    ensures var f := Lookup(s.procs[p], v).pfn;
      && f < NR_PAGEFRAMES && s.mapcounts[f] >= 1
      && (s.mapcounts[f] == 1 && SameFrame(Lookup(s.procs[p], v), Lookup(s.procs[q], w)) ==> p == q && v == w)
  {
    hide Lookup, OnePage, WritersAlone;
    assert PteOk(Lookup(s.procs[p], v));
    var f := Lookup(s.procs[p], v).pfn;
    var all := Mappings(s.procs, f);
    assert (p, v) in all;
    SubsetSize({(p, v)}, all);
    if SameFrame(Lookup(s.procs[p], v), Lookup(s.procs[q], w)) && (p, v) != (q, w) {
      assert (q, w) in all;
      SubsetSize({(p, v), (q, w)}, all);
    }
  }

  /** Nothing maps a frame whose count is zero. */
  lemma FreeMeans(s: State, f: nat, p: nat, v: nat)
    requires PageInv(s) && f < NR_PAGEFRAMES && s.mapcounts[f] == 0 && p < |s.procs| && v < NR_PAGES
    ensures !Maps(s.procs[p], v, f)
  {
    if Lookup(s.procs[p], v).valid {
      CountMeans(s, p, v, p, v);
    }
  }

  function Points(pte: Pte, f: nat): int {
    if pte.valid && pte.pfn == f then 1 else 0
  }

  /** The counts move with the PTE: the frame it leaves loses one, the frame it enters gains one. */
  ghost predicate CountsMove(s: State, v: nat, pte: Pte, counts: seq<nat>)
    requires Shape(s) && v < NR_PAGES
  {
    && |counts| == NR_PAGEFRAMES
    && var was := Lookup(s.procs[s.cur], v);
       forall f :: 0 <= f < NR_PAGEFRAMES ==> counts[f] as int == s.mapcounts[f] - Points(was, f) + Points(pte, f)
  }

  /**
   Replacing one PTE keeps the invariant, provided the counts move with it, the new PTE is sound,
   no other page uses its frame, and it claims the write bit only for a frame of its own.
   */
  lemma ReplaceKeeps(s: State, v: nat, pte: Pte, counts: seq<nat>)
    requires PageInv(s) && v < NR_PAGES && PteOk(pte) && pte.pfn < NR_PAGEFRAMES && CountsMove(s, v, pte, counts)
    requires forall q, w :: 0 <= q < |s.procs| && 0 <= w < NR_PAGES && (q != s.cur || w != v) ==>
      (SameFrame(pte, Lookup(s.procs[q], w)) ==> w == v && pte.rw != ACCESS_BOTH && Lookup(s.procs[q], w).rw != ACCESS_BOTH)
    ensures PageInv(WithPte(s.(mapcounts := counts), v, pte))
  {
    var u := s.(mapcounts := counts);
    var t := WithPte(u, v, pte);
    WithPteChanges(u, v, pte);
    forall f | 0 <= f < NR_PAGEFRAMES ensures counts[f] == |Mappings(t.procs, f)| {
      CountChange(s.procs, t.procs, s.cur, v, pte, f);
    }
    hide Lookup, Mappings, Shape, WithPte;
    ReplaceRelations(s.procs, t.procs, s.cur, v, pte);
  }

  lemma ReplaceRelations(ps: seq<Proc>, qs: seq<Proc>, c: nat, v: nat, pte: Pte)
    requires Tables(ps) && Tables(qs) && OnePteChanged(ps, qs, c, v, pte)
    requires PtesOk(ps) && OnePage(ps) && WritersAlone(ps) && PteOk(pte)
    requires forall q, w :: 0 <= q < |ps| && 0 <= w < NR_PAGES && (q != c || w != v) ==>
      (SameFrame(pte, Lookup(ps[q], w)) ==> w == v && pte.rw != ACCESS_BOTH && Lookup(ps[q], w).rw != ACCESS_BOTH)
    ensures PtesOk(qs) && OnePage(qs) && WritersAlone(qs)
  {
    hide Lookup, PteOk;
  }

  // ----- The operations -----

  /** alloc_page on an unmapped page: the smallest free frame gets its first mapping. */
  lemma AllocKeeps(s: State, v: nat, rw: nat)
    requires PageInv(s) && v < NR_PAGES && !Lookup(s.procs[s.cur], v).valid
    requires rw == ACCESS_READ || rw == ACCESS_BOTH
    ensures PageInv(AllocPage(s, v, rw).0)
  {
    var r := FirstFree(s.mapcounts, 0);
    if r.Some? {
      var f := r.value;
      var pte := Pte(true, rw, f, rw);
      forall q, w | 0 <= q < |s.procs| && 0 <= w < NR_PAGES ensures !SameFrame(pte, Lookup(s.procs[q], w)) {
        FreeMeans(s, f, q, w);
      }
      ReplaceKeeps(s, v, pte, s.mapcounts[f := s.mapcounts[f] + 1]);
    }
  }

  /** free_page on a mapped page. */
  lemma FreeKeeps(s: State, v: nat)
    requires PageInv(s) && v < NR_PAGES && Lookup(s.procs[s.cur], v).valid
    ensures PageInv(FreePage(s, v))
  {
    var f := Lookup(s.procs[s.cur], v).pfn;
    CountMeans(s, s.cur, v, s.cur, v);
    var counts := s.mapcounts[f := s.mapcounts[f] - 1];
    ReplaceKeeps(s, v, NO_PTE, counts);
    OtherTlb(WithPte(s.(mapcounts := counts), v, NO_PTE), EvictTlb(s.tlb, v, 0));
  }

  /** The invariant does not look at the TLB. */
  lemma OtherTlb(s: State, tlb: seq<TlbEntry>)
    requires PageInv(s) && |tlb| == NR_TLB_ENTRIES
    ensures PageInv(s.(tlb := tlb))
  {
  }

  /** A write fault on a page whose frame is mapped once just gets the write bit back. */
  lemma UpgradeKeeps(s: State, v: nat)
    requires PageInv(s) && v < NR_PAGES
    requires var pte := Lookup(s.procs[s.cur], v); pte.valid && pte.priv == ACCESS_BOTH && s.mapcounts[pte.pfn] == 1
    ensures PageInv(WithPte(s, v, Lookup(s.procs[s.cur], v).(rw := ACCESS_BOTH)))
  {
    var pte := Lookup(s.procs[s.cur], v).(rw := ACCESS_BOTH);
    assert PteOk(Lookup(s.procs[s.cur], v));
    forall q, w | 0 <= q < |s.procs| && 0 <= w < NR_PAGES && (q != s.cur || w != v)
      ensures !SameFrame(pte, Lookup(s.procs[q], w))
    {
      CountMeans(s, s.cur, v, q, w);
    }
    ReplaceKeeps(s, v, pte, s.mapcounts);
  }

  /** The copy of a shared page: its frame loses one mapping and a free frame gets its first. */
  lemma CopyKeeps(s: State, v: nat)
    requires PageInv(s) && v < NR_PAGES
    requires var pte := Lookup(s.procs[s.cur], v); pte.valid && s.mapcounts[pte.pfn] > 1
    requires FirstFree(s.mapcounts, 0).Some?
    ensures var pte := Lookup(s.procs[s.cur], v);
      PageInv(AllocPage(s.(mapcounts := s.mapcounts[pte.pfn := s.mapcounts[pte.pfn] - 1]), v, ACCESS_BOTH).0)
  {
    var was := Lookup(s.procs[s.cur], v);
    var counts := s.mapcounts[was.pfn := s.mapcounts[was.pfn] - 1];
    SameFirstFree(s.mapcounts, was.pfn, 0);
    var f := FirstFree(counts, 0).value;
    var pte := Pte(true, ACCESS_BOTH, f, ACCESS_BOTH);
    forall q, w | 0 <= q < |s.procs| && 0 <= w < NR_PAGES ensures !SameFrame(pte, Lookup(s.procs[q], w)) {
      FreeMeans(s, f, q, w);
    }
    ReplaceKeeps(s, v, pte, counts[f := counts[f] + 1]);
  }

  /** Taking one mapping from a shared frame does not make it free. */
  lemma {:induction false} SameFirstFree(mapcounts: seq<nat>, g: nat, f: nat)
    requires g < |mapcounts| && mapcounts[g] > 1
    ensures FirstFree(mapcounts[g := mapcounts[g] - 1], f) == FirstFree(mapcounts, f)
    decreases |mapcounts| - f
  {
    if f < |mapcounts| {
      SameFirstFree(mapcounts, g, f + 1);
    }
  }

  // ----- Forking -----

  ghost predicate MapsFrom(p: Proc, v: nat, f: nat)
    requires TableShape(p)
  {
    exists w :: v <= w < NR_PAGES && Maps(p, w, f)
  }

  /** A table that maps a frame at one page at most adds at most one to its count. */
  lemma {:induction false} ShareCountsAt(mapcounts: seq<nat>, p: Proc, v: nat, f: nat)
    requires |mapcounts| == NR_PAGEFRAMES && TableShape(p) && FramesInRange(p) && v <= NR_PAGES && f < NR_PAGEFRAMES
    requires forall x, y :: 0 <= x < NR_PAGES && 0 <= y < NR_PAGES && Maps(p, x, f) && Maps(p, y, f) ==> x == y
    ensures ShareCounts(mapcounts, p, v)[f] == mapcounts[f] + if MapsFrom(p, v, f) then 1 else 0
    decreases NR_PAGES - v
  {
    if v < NR_PAGES {
      var pte := Lookup(p, v);
      var next := if pte.valid then mapcounts[pte.pfn := mapcounts[pte.pfn] + 1] else mapcounts;
      hide Lookup, FramesInRange, TableShape;
      ShareCountsAt(next, p, v + 1, f);
      if Maps(p, v, f) {
        assert MapsFrom(p, v, f);
        assert !MapsFrom(p, v + 1, f);
      } else if MapsFrom(p, v, f) {
        var w :| v <= w < NR_PAGES && Maps(p, w, f);
        assert MapsFrom(p, v + 1, f);
      }
    }
  }

  /** The tables after a fork: parent shared, child a copy, the rest untouched. */
  ghost predicate ForkedTables(ps: seq<Proc>, qs: seq<Proc>, c: nat)
    requires Tables(ps) && Tables(qs)
  {
    && c < |ps| && |qs| == |ps| + 1
    && (forall v :: 0 <= v < NR_PAGES ==>
      Lookup(qs[c], v) == Share(Lookup(ps[c], v)) && Lookup(qs[|ps|], v) == Inherit(Lookup(ps[c], v)))
    && (forall p, v :: 0 <= p < |ps| && p != c && 0 <= v < NR_PAGES ==> Lookup(qs[p], v) == Lookup(ps[p], v))
  }

  lemma ForkTables(s: State, pid: nat)
    requires Shape(s)
    ensures Tables(s.procs) && Tables(Fork(s, pid).procs) && ForkedTables(s.procs, Fork(s, pid).procs, s.cur)
  {
    var parent := s.procs[s.cur];
    forall v | 0 <= v < NR_PAGES
      ensures Lookup(ForkTable(parent, false), v) == Share(Lookup(parent, v))
      ensures Lookup(Child(parent, pid), v) == Inherit(Lookup(parent, v))
    {
      ForkTableLookup(parent, false, v);
      ForkTableLookup(parent, true, v);
      assert Lookup(Child(parent, pid), v) == Lookup(ForkTable(parent, true), v);
    }
  }

  /** A PTE after the fork points where the one it came from points, without the write bit if it is shared. */
  ghost predicate CameFrom(now: Pte, was: Pte, shared: bool) {
    && now.valid == was.valid && (now.valid ==> now.pfn == was.pfn)
    && if shared then (now.valid ==> now.rw != ACCESS_BOTH) else now == was
  }

  lemma ForkedRelations(ps: seq<Proc>, qs: seq<Proc>, c: nat)
    requires Tables(ps) && Tables(qs) && ForkedTables(ps, qs, c)
    requires PtesOk(ps) && OnePage(ps) && WritersAlone(ps)
    ensures PtesOk(qs) && OnePage(qs) && WritersAlone(qs)
  {
    hide Lookup, TableShape;
    forall p, v | 0 <= p < |qs| && 0 <= v < NR_PAGES
      ensures PteOk(Lookup(qs[p], v))
      ensures CameFrom(Lookup(qs[p], v), Lookup(ps[if p == |ps| then c else p], v), p == c || p == |ps|)
    {
      assert PteOk(Lookup(ps[if p == |ps| then c else p], v));
    }
    forall p, v, q, w | 0 <= p < |qs| && 0 <= q < |qs| && 0 <= v < NR_PAGES && 0 <= w < NR_PAGES
      && SameFrame(Lookup(qs[p], v), Lookup(qs[q], w))
      ensures v == w && (Lookup(qs[p], v).rw == ACCESS_BOTH ==> p == q)
    {
      var p', q' := if p == |ps| then c else p, if q == |ps| then c else q;
      assert SameFrame(Lookup(ps[p'], v), Lookup(ps[q'], w));
    }
  }

  lemma ForkedMappings(ps: seq<Proc>, qs: seq<Proc>, c: nat, f: nat)
    requires Tables(ps) && Tables(qs) && ForkedTables(ps, qs, c) && OnePage(ps)
    ensures |Mappings(qs, f)| == |Mappings(ps, f)| + if MapsFrom(ps[c], 0, f) then 1 else 0
  {
    hide Lookup, TableShape;
    var n := |ps|;
    forall v | 0 <= v < NR_PAGES
      ensures Maps(qs[c], v, f) <==> Maps(ps[c], v, f)
      ensures Maps(qs[n], v, f) <==> Maps(ps[c], v, f)
    {
    }
    if MapsFrom(ps[c], 0, f) {
      var w :| 0 <= w < NR_PAGES && Maps(ps[c], w, f);
      forall v | 0 <= v < NR_PAGES && Maps(ps[c], v, f) ensures v == w {
        assert SameFrame(Lookup(ps[c], v), Lookup(ps[c], w));
      }
      assert Mappings(qs, f) == Mappings(ps, f) + {(n, w)};
      assert (n, w) !in Mappings(ps, f);
    } else {
      assert Mappings(qs, f) == Mappings(ps, f);
    }
  }

  /** fork: every frame of the parent gains one mapping and loses its write bit. */
  lemma ForkKeeps(s: State, pid: nat)
    requires PageInv(s)
    ensures PageInv(Fork(s, pid))
  {
    hide Lookup, TableShape, FramesInRange, ShareCounts, Mappings, WritersAlone, PtesOk, ForkTable, Child;
    var t := Fork(s, pid);
    ForkTables(s, pid);
    ForkedRelations(s.procs, t.procs, s.cur);
    forall f | 0 <= f < NR_PAGEFRAMES ensures t.mapcounts[f] == |Mappings(t.procs, f)| {
      OncePerTable(s.procs, s.cur, f);
      ShareCountsAt(s.mapcounts, s.procs[s.cur], 0, f);
      ForkedMappings(s.procs, t.procs, s.cur, f);
    }
  }

  /** One table maps a frame at one page at most. */
  lemma OncePerTable(procs: seq<Proc>, p: nat, f: nat)
    requires Tables(procs) && OnePage(procs) && p < |procs|
    ensures forall x, y :: 0 <= x < NR_PAGES && 0 <= y < NR_PAGES && Maps(procs[p], x, f) && Maps(procs[p], y, f) ==> x == y
  {
    hide Lookup, TableShape;
    forall x, y | 0 <= x < NR_PAGES && 0 <= y < NR_PAGES && Maps(procs[p], x, f) && Maps(procs[p], y, f) ensures x == y {
      assert SameFrame(Lookup(procs[p], x), Lookup(procs[p], y));
    }
  }

  lemma SwitchKeeps(s: State, pid: nat)
    requires PageInv(s)
    ensures PageInv(DoSwitch(s, pid))
  {
    var found := FindPid(s.procs, s.queue, pid, 0);
    if found.None? {
      ForkKeeps(s, pid);
      OtherTlb(Fork(s, pid), FlushTlb(s.tlb));
    } else {
      var u := s.(cur := s.queue[found.value], queue := RemoveAt(s.queue, found.value));
      assert Shape(u);
      OtherTlb(u, FlushTlb(s.tlb));
    }
  }
}
