/**
 The machine as it is: page directories, map counts and the TLB are arrays updated in place, and
 every process's page table points to directories of its own.  Every method is proved to take the
 step that the state machine of `VmModel` takes.
 */
module Machine {
  import opened Seqs
  import opened VmModel
  import opened VmRuns

  class Process {
    const pid: nat
    /** Position in the list of all processes ever created. */
    ghost const id: nat
    var pdes: seq<array?<Pte>>

    constructor (pid: nat, ghost id: nat)
      ensures this.pid == pid && this.id == id
      ensures |pdes| == NR_PDES_PER_PAGE && forall d :: 0 <= d < NR_PDES_PER_PAGE ==> pdes[d] == null
    {
      this.pid, this.id, pdes := pid, id, [null, null, null, null];
    }
  }

  /** A directory pointer and the directory it stands for. */
  ghost predicate DirectoryIs(a: array?<Pte>, m: Option<Directory>)
    reads a
  {
    match m
    case None => a == null
    case Some(d) => a != null && a[..] == d
  }

  class System {
    const mapcounts: array<nat>
    const tlb: array<TlbEntry>
    const tlbOn: bool
    var current: Process
    var processes: seq<Process>
    /** Every process ever created, and the one place each directory is linked from. */
    ghost var all: seq<Process>
    ghost var home: map<array<Pte>, (nat, nat)>
    ghost var model: State

    constructor (tlbOn: bool)
      ensures Valid() && model == Initial(tlbOn) && this.tlbOn == tlbOn
      ensures fresh(all) && fresh(home.Keys) && fresh(mapcounts) && fresh(tlb)
    {
      var init := new Process(0, 0);
      mapcounts := new nat[NR_PAGEFRAMES](_ => 0);
      tlb := new TlbEntry[NR_TLB_ENTRIES](_ => TlbEntry(false, 0, 0, 0, 0));
      this.tlbOn := tlbOn;
      current, processes := init, [];
      all, home, model := [init], map[], Initial(tlbOn);
      new;
      assert mapcounts[..] == model.mapcounts && tlb[..] == model.tlb;
    }

    /** Process i's directories are what the table says, and nobody else's. */
    ghost predicate TableIs(i: nat, m: Proc)
      requires i < |all|
      reads `all, `home, all, home.Keys
    {
      && all[i].id == i && all[i].pid == m.pid && |all[i].pdes| == |m.pdes| == NR_PDES_PER_PAGE
      && forall d :: 0 <= d < NR_PDES_PER_PAGE ==>
        && (all[i].pdes[d] != null ==> all[i].pdes[d] in home && home[all[i].pdes[d]] == (i, d))
        && DirectoryIs(all[i].pdes[d], m.pdes[d])
    }

    ghost predicate TablesAre(procs: seq<Proc>)
      reads `all, `home, all, home.Keys
    {
      |procs| == |all| && forall i :: 0 <= i < |all| ==> TableIs(i, procs[i])
    }

    ghost predicate Named(cur: nat, queue: seq<nat>)
      reads this
    {
      && cur < |all| && current == all[cur] && |processes| == |queue|
      && forall k :: 0 <= k < |queue| ==> queue[k] < |all| && processes[k] == all[queue[k]]
    }

    ghost predicate Coupled(st: State)
      reads this, all, home.Keys, mapcounts, tlb
    {
      && TablesAre(st.procs) && Named(st.cur, st.queue)
      && mapcounts[..] == st.mapcounts && tlb[..] == st.tlb && tlbOn == st.tlbOn
    }

    ghost predicate Valid()
      reads this, all, home.Keys, mapcounts, tlb
    {
      Coupled(model) && Shape(model)
    }

    // ----- TLB -----

    method LookupTlb(vpn: nat, rw: nat) returns (hit: bool, pfn: nat)
      requires Valid()
      ensures VmModel.LookupTlb(model.tlb, vpn, rw, 0) == if hit then Some(pfn) else None
    {
      assert tlb.Length == |model.tlb| == NR_TLB_ENTRIES && tlb[..] == model.tlb;
      hide TablesAre, Shape;
      for i := 0 to NR_TLB_ENTRIES
        invariant VmModel.LookupTlb(model.tlb, vpn, rw, 0) == VmModel.LookupTlb(model.tlb, vpn, rw, i)
      {
        assert tlb[i] == model.tlb[i];
        if tlb[i].valid && tlb[i].vpn == vpn {
          if tlb[i].rw >= rw {
            return true, tlb[i].pfn;
          }
        }
      }
      return false, 0;
    }

    method InsertTlb(vpn: nat, rw: nat, pfn: nat)
      requires Valid()
      modifies `model, tlb
      ensures Valid() && model == old(model).(tlb := VmModel.InsertTlb(old(model).tlb, vpn, rw, pfn, 0))
    {
      ghost var before := model.tlb;
      model := model.(tlb := VmModel.InsertTlb(before, vpn, rw, pfn, 0));
      for i := 0 to NR_PAGEFRAMES
        invariant tlb[..] == before && |before| == NR_TLB_ENTRIES
        invariant model.tlb == VmModel.InsertTlb(before, vpn, rw, pfn, i)
      {
        assert tlb[i] == before[i];
        if tlb[i].valid && tlb[i].vpn == vpn {
          tlb[i] := tlb[i].(pfn := pfn, rw := rw);
          return;
        } else if !tlb[i].valid {
          tlb[i] := TlbEntry(true, rw, vpn, pfn, rw);
          return;
        }
      }
    }

    method EvictTlb(vpn: nat)
      requires Valid()
      modifies `model, tlb
      ensures Valid() && model == old(model).(tlb := VmModel.EvictTlb(old(model).tlb, vpn, 0))
    {
      ghost var before := model.tlb;
      model := model.(tlb := VmModel.EvictTlb(before, vpn, 0));
      for i := 0 to NR_TLB_ENTRIES
        invariant tlb[..] == before && |before| == NR_TLB_ENTRIES
        invariant model.tlb == VmModel.EvictTlb(before, vpn, i)
      {
        assert tlb[i] == before[i];
        if tlb[i].valid && tlb[i].vpn == vpn {
          tlb[i] := TlbEntry(false, 0, 0, 0, 0);
          return;
        }
      }
    }

    method FlushTlb()
      requires Valid()
      modifies `model, tlb
      ensures Valid() && model == old(model).(tlb := VmModel.FlushTlb(old(model).tlb))
    {
      ghost var before := model.tlb;
      for i := 0 to NR_PAGEFRAMES
        invariant tlb.Length == |before| == NR_TLB_ENTRIES && model == old(model) && TablesAre(model.procs)
        invariant forall k :: 0 <= k < |before| ==> tlb[k] == if k < i then before[k].(valid := false) else before[k]
      {
        tlb[i] := tlb[i].(valid := false);
      }
      model := model.(tlb := VmModel.FlushTlb(before));
      assert tlb[..] == model.tlb;
    }

    // ----- Page tables -----

    /** The current process's pointer to the directory of a page. */
    method DirectoryOf(vpn: nat) returns (dir: array?<Pte>)
      requires Valid() && vpn < NR_PAGES
      ensures |current.pdes| == NR_PDES_PER_PAGE && dir == current.pdes[vpn / NR_PTES_PER_PAGE]
      ensures dir == null <==> !HasDirectory(model.procs[model.cur], vpn)
      ensures dir != null ==>
        && dir.Length == NR_PTES_PER_PAGE && dir[vpn % NR_PTES_PER_PAGE] == Lookup(model.procs[model.cur], vpn)
        && dir in home && home[dir] == (model.cur, vpn / NR_PTES_PER_PAGE)
    {
      hide FramesInRange;
      assert TableIs(model.cur, model.procs[model.cur]);
      dir := current.pdes[vpn / NR_PTES_PER_PAGE];
      assert DirectoryIs(dir, model.procs[model.cur].pdes[vpn / NR_PTES_PER_PAGE]);
    }

    method StorePte(vpn: nat, pte: Pte)
      requires Valid() && vpn < NR_PAGES && pte.pfn < NR_PAGEFRAMES && HasDirectory(model.procs[model.cur], vpn)
      requires |current.pdes| == NR_PDES_PER_PAGE
      modifies `model, current.pdes[vpn / NR_PTES_PER_PAGE]
      ensures Valid() && model == WithPte(old(model), vpn, pte)
    {
      var dir := DirectoryOf(vpn);
      ghost var before := model.procs[model.cur].pdes[vpn / NR_PTES_PER_PAGE].value;
      assert dir[..] == before by {
        assert TableIs(model.cur, model.procs[model.cur]);
      }
      dir[vpn % NR_PTES_PER_PAGE] := pte;
      assert dir[..] == before[vpn % NR_PTES_PER_PAGE := pte];
      model := WithPte(model, vpn, pte);
      hide Shape, FramesInRange, Lookup;
      assert forall i :: 0 <= i < |all| ==> TableIs(i, model.procs[i]);
    }

    /** A zeroed directory for the current process. */
    method AddDirectory(vpn: nat)
      requires Valid() && vpn < NR_PAGES && !HasDirectory(model.procs[model.cur], vpn)
      modifies `model, `home, current
      ensures Valid() && model == WithDirectory(old(model), vpn)
      ensures fresh(home.Keys - old(home.Keys)) && old(home.Keys) <= home.Keys
    {
      WithDirectoryShape(model, vpn);
      assert TableIs(model.cur, model.procs[model.cur]);
      hide Shape, FramesInRange, Lookup;
      var dir := new Pte[NR_PTES_PER_PAGE](_ => NO_PTE);
      current.pdes := current.pdes[vpn / NR_PTES_PER_PAGE := dir];
      home := home[dir := (model.cur, vpn / NR_PTES_PER_PAGE)];
      model := WithDirectory(model, vpn);
      assert dir[..] == EmptyDirectory();
      assert forall i :: 0 <= i < |all| ==> TableIs(i, model.procs[i]);
    }

    // ----- Allocation -----

    method AllocPage(vpn: nat, rw: nat) returns (pfn: Option<nat>)
      requires Valid() && vpn < NR_PAGES
      modifies `model, `home, current, home.Keys, mapcounts
      ensures Valid() && (model, pfn) == VmModel.AllocPage(old(model), vpn, rw)
      ensures fresh(home.Keys - old(home.Keys)) && old(home.Keys) <= home.Keys
    {
      ghost var counts := model.mapcounts;
      for i := 0 to NR_PAGEFRAMES
        invariant Valid() && model == old(model) && home == old(home) && current == old(current)
        invariant FirstFree(counts, 0) == FirstFree(counts, i)
      {
        assert mapcounts[i] == counts[i];
        if mapcounts[i] == 0 {
          MapFrame(vpn, rw, i);
          return Some(i);
        }
      }
      return None;
    }

    /** The body of the allocation loop: counts frame f and maps the page to it. */
    method MapFrame(vpn: nat, rw: nat, f: nat)
      requires Valid() && vpn < NR_PAGES && f < NR_PAGEFRAMES && FirstFree(model.mapcounts, 0) == Some(f)
      modifies `model, `home, current, home.Keys, mapcounts
      ensures Valid() && (model, Some(f)) == VmModel.AllocPage(old(model), vpn, rw)
      ensures fresh(home.Keys - old(home.Keys)) && old(home.Keys) <= home.Keys
    {
      assert VmModel.AllocPage(model, vpn, rw) ==
        (WithPte(model.(mapcounts := model.mapcounts[f := model.mapcounts[f] + 1]), vpn, Pte(true, rw, f, rw)), Some(f));
      hide VmModel.AllocPage, FirstFree, WithPte, Shape, TablesAre;
      SetCount(f, mapcounts[f] + 1);
      EnsureDirectory(vpn, Pte(true, rw, f, rw));
      StorePte(vpn, Pte(true, rw, f, rw));
    }

    /** Allocates the page's directory if there is none; that makes no difference once the PTE is written. */
    method EnsureDirectory(vpn: nat, ghost pte: Pte)
      requires Valid() && vpn < NR_PAGES && pte.pfn < NR_PAGEFRAMES
      modifies `model, `home, current
      ensures Valid() && HasDirectory(model.procs[model.cur], vpn) && WithPte(model, vpn, pte) == WithPte(old(model), vpn, pte)
      ensures fresh(home.Keys - old(home.Keys)) && old(home.Keys) <= home.Keys
      ensures |current.pdes| == NR_PDES_PER_PAGE && current == old(current)
      ensures current.pdes[vpn / NR_PTES_PER_PAGE] != null && current.pdes[vpn / NR_PTES_PER_PAGE] in home.Keys
    {
      var dir := DirectoryOf(vpn);
      if dir == null {
        WithDirectoryStores(model, vpn, pte);
        DirectoryAdded(model, vpn);
        AddDirectory(vpn);
      }
      hide WithPte, WithDirectory;
      dir := DirectoryOf(vpn);
    }

    method SetCount(f: nat, n: nat)
      requires Valid() && f < NR_PAGEFRAMES
      modifies `model, mapcounts
      ensures Valid() && model == old(model).(mapcounts := old(model).mapcounts[f := n])
    {
      hide TablesAre;
      mapcounts[f] := n;
      model := model.(mapcounts := model.mapcounts[f := n]);
    }

    method FreePage(vpn: nat)
      requires Valid() && vpn < NR_PAGES
      modifies `model, home.Keys, mapcounts, tlb
      ensures Valid() && model == VmModel.FreePage(old(model), vpn)
    {
      var dir := DirectoryOf(vpn);
      if dir != null {
        var pte := dir[vpn % NR_PTES_PER_PAGE];
        if pte.valid {
          FreeOrder(model, vpn);
          hide WithPte, VmModel.FreePage, VmModel.EvictTlb, Shape;
          StorePte(vpn, NO_PTE);
          SetCount(pte.pfn, Decrement(mapcounts[pte.pfn]));
          EvictTlb(vpn);
        }
      }
    }

    // ----- Faults -----

    method HandlePageFault(vpn: nat, rw: nat) returns (fault: Fault)
      requires Valid() && vpn < NR_PAGES
      modifies `model, `home, current, home.Keys, mapcounts
      ensures Valid() && (model, fault) == HandleFault(old(model), vpn, rw)
      ensures fresh(home.Keys - old(home.Keys)) && old(home.Keys) <= home.Keys
    {
      var dir := DirectoryOf(vpn);
      if dir == null {
        return Crashed;
      }
      var pte := dir[vpn % NR_PTES_PER_PAGE];
      if !pte.valid {
        return Refused;
      } else if pte.priv != ACCESS_READ && pte.rw == ACCESS_READ && rw > ACCESS_READ {
        FrameInRange(model, vpn);
        assert mapcounts[pte.pfn] == model.mapcounts[pte.pfn];
        hide Shape, VmModel.AllocPage, WithPte, Lookup;
        if mapcounts[pte.pfn] > 1 {
          SetCount(pte.pfn, mapcounts[pte.pfn] - 1);
          var newPfn := AllocPage(vpn, ACCESS_BOTH);
          return Handled;
        } else {
          StorePte(vpn, pte.(rw := ACCESS_BOTH));
          return Handled;
        }
      }
      return Refused;
    }

    // ----- Switching and forking -----

    /** The parent's side of sharing one valid page: one more mapping, and no write bit. */
    method ShareMapping(ghost parent: Proc, vpn: nat, pte: Pte)
      requires Valid() && vpn < NR_PAGES && TableShape(parent) && FramesInRange(parent) && HasDirectory(parent, vpn)
      requires model.procs[model.cur] == PartlyShared(parent, vpn) && pte == Lookup(parent, vpn) && pte.valid
      requires |current.pdes| == NR_PDES_PER_PAGE
      modifies `model, current.pdes[vpn / NR_PTES_PER_PAGE], mapcounts
      ensures Valid() && |model.mapcounts| == NR_PAGEFRAMES
      ensures model == WithParent(old(model), PartlyShared(parent, vpn + 1), model.mapcounts)
      ensures ShareCounts(model.mapcounts, parent, vpn + 1) == ShareCounts(old(model.mapcounts), parent, vpn)
    {
      PartlySharedStep(model, parent, vpn);
      hide Shape, PartlyShared, WithPte, Lookup, FramesInRange, ShareCounts;
      SetCount(pte.pfn, mapcounts[pte.pfn] + 1);
      if pte.rw == ACCESS_BOTH {
        StorePte(vpn, pte.(rw := ACCESS_READ));
      }
    }

    /** Copies one PTE of the current process into the child's directory and takes away a shared page's write bit. */
    method ForkPte(cdir: array<Pte>, ghost parent: Proc, vpn: nat)
      requires Valid() && vpn < NR_PAGES && TableShape(parent) && FramesInRange(parent) && HasDirectory(parent, vpn)
      requires model.procs[model.cur] == PartlyShared(parent, vpn)
      requires cdir in home && home[cdir].0 == |all| && cdir.Length == NR_PTES_PER_PAGE
      requires cdir[vpn % NR_PTES_PER_PAGE] == NO_PTE
      requires |current.pdes| == NR_PDES_PER_PAGE
      modifies `model, cdir, current.pdes[vpn / NR_PTES_PER_PAGE], mapcounts
      ensures Valid() && |model.mapcounts| == NR_PAGEFRAMES
      ensures model == WithParent(old(model), PartlyShared(parent, vpn + 1), model.mapcounts)
      ensures ShareCounts(model.mapcounts, parent, vpn + 1) == ShareCounts(old(model.mapcounts), parent, vpn)
      ensures cdir[..] == old(cdir[..])[vpn % NR_PTES_PER_PAGE := Inherit(Lookup(parent, vpn))]
    {
      PartlySharedStep(model, parent, vpn);
      var dir := DirectoryOf(vpn);
      var pte := dir[vpn % NR_PTES_PER_PAGE];
      hide Shape, PartlyShared, WithPte, Lookup, FramesInRange, ShareCounts;
      if pte.valid {
        ShareMapping(parent, vpn, pte);
        WriteCopy(cdir, vpn, Share(pte));
      }
    }

    /** Writing to a directory no process has yet. */
    method WriteCopy(cdir: array<Pte>, vpn: nat, pte: Pte)
      requires Valid() && cdir in home && home[cdir].0 == |all| && cdir.Length == NR_PTES_PER_PAGE
      modifies cdir
      ensures Valid()
      ensures cdir[..] == old(cdir[..])[vpn % NR_PTES_PER_PAGE := pte]
    {
      hide Shape;
      cdir[vpn % NR_PTES_PER_PAGE] := pte;
      assert forall i :: 0 <= i < |all| ==> TableIs(i, model.procs[i]);
    }

    /** Everything about the child but directory `but`: what is built, and linked from the child only. */
    ghost predicate Building(child: Process, parent: Proc, i: nat, but: int)
      requires TableShape(parent)
      reads `all, `home, all, child, home.Keys
    {
      && child.id == |all| && |child.pdes| == NR_PDES_PER_PAGE
      && forall d :: 0 <= d < NR_PDES_PER_PAGE ==>
        && (child.pdes[d] != null ==> child.pdes[d] in home && home[child.pdes[d]] == (|all|, d))
        && (d != but ==> DirectoryIs(child.pdes[d], if d < i then ForkTable(parent, true).pdes[d] else None))
    }

    /** A zeroed directory for the child. */
    method AddChildDirectory(child: Process, ghost parent: Proc, i: nat) returns (cdir: array<Pte>)
      requires Valid() && TableShape(parent) && i < NR_PDES_PER_PAGE && Building(child, parent, i, -1)
      requires child !in all
      modifies `home, child
      ensures Valid() && Building(child, parent, i, i) && child.pdes == old(child.pdes)[i := cdir]
      ensures fresh(cdir) && home == old(home)[cdir := (|all|, i)]
      ensures cdir[..] == Copied(EmptyDirectory(), 0)
    {
      hide Shape, ForkTable;
      cdir := new Pte[NR_PTES_PER_PAGE](_ => NO_PTE);
      child.pdes := child.pdes[i := cdir];
      home := home[cdir := (|all|, i)];
      assert forall k :: 0 <= k < |all| ==> TableIs(k, model.procs[k]);
      assert cdir[..] == Copied(EmptyDirectory(), 0);
    }

    /** The body of the inner loop of the fork. */
    method ForkEntry(child: Process, cdir: array<Pte>, ghost before: State, ghost parent: Proc, i: nat, j: nat)
      requires Valid() && TableShape(parent) && FramesInRange(parent) && i < NR_PDES_PER_PAGE && j < NR_PTES_PER_PAGE
      requires parent.pdes[i].Some? && child !in all && Building(child, parent, i, i) && child.pdes[i] == cdir
      requires Shared(before, model, parent, i * NR_PTES_PER_PAGE, i * NR_PTES_PER_PAGE + j)
      requires cdir[..] == Copied(parent.pdes[i].value, j)
      requires |current.pdes| == NR_PDES_PER_PAGE
      modifies `model, cdir, current.pdes[i], mapcounts
      ensures Valid() && Building(child, parent, i, i)
      ensures Shared(before, model, parent, i * NR_PTES_PER_PAGE, i * NR_PTES_PER_PAGE + j + 1)
      ensures cdir[..] == Copied(parent.pdes[i].value, j + 1)
    {
      hide Shape, FramesInRange, PartlyShared, Lookup, ForkTable, TablesAre, Copied, ShareCounts;
      CopiedNext(parent, i, j);
      HomeOf(i);
      assert model.cur < |all|;
      ForkPte(cdir, parent, i * NR_PTES_PER_PAGE + j);
    }

    /** The inner loop of the fork. */
    method ForkEntries(child: Process, cdir: array<Pte>, ghost before: State, ghost parent: Proc, i: nat)
      requires Valid() && TableShape(parent) && FramesInRange(parent) && i < NR_PDES_PER_PAGE && parent.pdes[i].Some?
      requires child !in all && Building(child, parent, i, i) && child.pdes[i] == cdir
      requires Shared(before, model, parent, i * NR_PTES_PER_PAGE, i * NR_PTES_PER_PAGE)
      requires cdir[..] == Copied(parent.pdes[i].value, 0)
      requires |current.pdes| == NR_PDES_PER_PAGE
      modifies `model, cdir, current.pdes[i], mapcounts
      ensures Valid() && Building(child, parent, i, i)
      ensures Shared(before, model, parent, i * NR_PTES_PER_PAGE, (i + 1) * NR_PTES_PER_PAGE)
      ensures cdir[..] == Copied(parent.pdes[i].value, NR_PTES_PER_PAGE)
    {
      assert |parent.pdes| == NR_PDES_PER_PAGE;
      hide Valid, Building, Shared, Copied, TableShape, FramesInRange, ForkTable, TableIs;
      for j := 0 to NR_PTES_PER_PAGE
        invariant Valid() && Building(child, parent, i, i)
        invariant Shared(before, model, parent, i * NR_PTES_PER_PAGE, i * NR_PTES_PER_PAGE + j)
        invariant cdir[..] == Copied(parent.pdes[i].value, j)
      {
        ForkEntry(child, cdir, before, parent, i, j);
      }
    }

    /** One round of the outer loop of the fork. */
    method ForkDirectory(child: Process, ghost before: State, ghost parent: Proc, i: nat)
      requires Valid() && TableShape(parent) && FramesInRange(parent) && i < NR_PDES_PER_PAGE && parent.pdes[i].Some?
      requires Shared(before, model, parent, 0, i * NR_PTES_PER_PAGE)
      requires child !in all && Building(child, parent, i, -1) && |current.pdes| == NR_PDES_PER_PAGE
      modifies `model, `home, child, current.pdes[i], mapcounts
      ensures Valid() && Shared(before, model, parent, 0, (i + 1) * NR_PTES_PER_PAGE) && Building(child, parent, i + 1, -1)
      ensures fresh(home.Keys - old(home.Keys)) && old(home.Keys) <= home.Keys
    {
      CopiedNothing(parent.pdes[i].value);
      SharedNothing(before, model, parent, i * NR_PTES_PER_PAGE);
      CurrentElsewhere(child);
      ghost var start := model;
      hide *;
      var cdir := AddChildDirectory(child, parent, i);
      ForkEntries(child, cdir, start, parent, i);
      SharedOn(before, start, model, parent, i * NR_PTES_PER_PAGE, (i + 1) * NR_PTES_PER_PAGE);
      BuiltDirectory(child, parent, i);
    }

    lemma CurrentElsewhere(child: Process)
      requires Valid() && child !in all
      ensures current != child
    {
      hide Shape;
    }

    lemma BuiltDirectory(child: Process, parent: Proc, i: nat)
      requires TableShape(parent) && i < NR_PDES_PER_PAGE && parent.pdes[i].Some? && Building(child, parent, i, i)
      requires child.pdes[i] != null && child.pdes[i][..] == Copied(parent.pdes[i].value, NR_PTES_PER_PAGE)
      ensures Building(child, parent, i + 1, -1)
    {
      CopiedAll(parent, i);
      hide Copied, ForkTable;
    }

    lemma HomeOf(i: nat)
      requires Valid() && i < NR_PDES_PER_PAGE
      ensures |current.pdes| == NR_PDES_PER_PAGE
      ensures current.pdes[i] != null ==> current.pdes[i] in home && home[current.pdes[i]] == (model.cur, i)
    {
      hide Shape;
      assert TableIs(model.cur, model.procs[model.cur]);
    }

    /** The outer loop of the fork. */
    method ForkTables(child: Process, ghost before: State, ghost parent: Proc)
      requires Valid() && TableShape(parent) && FramesInRange(parent) && child !in all
      requires Shared(before, model, parent, 0, 0) && Building(child, parent, 0, -1)
      modifies `model, `home, child, home.Keys, mapcounts
      ensures Valid() && Shared(before, model, parent, 0, NR_PAGES) && Building(child, parent, NR_PDES_PER_PAGE, -1)
      ensures fresh(home.Keys - old(home.Keys)) && old(home.Keys) <= home.Keys
    {
      assert |parent.pdes| == NR_PDES_PER_PAGE;
      hide Valid, Building, Shared, Copied, TableShape, FramesInRange, ForkTable, TableIs;
      for i := 0 to NR_PDES_PER_PAGE
        invariant Valid() && fresh(home.Keys - old(home.Keys)) && old(home.Keys) <= home.Keys
        invariant Shared(before, model, parent, 0, i * NR_PTES_PER_PAGE) && Building(child, parent, i, -1)
      {
        ForkRound(child, before, parent, i);
      }
    }

    method ForkRound(child: Process, ghost before: State, ghost parent: Proc, i: nat)
      requires Valid() && TableShape(parent) && FramesInRange(parent) && child !in all && i < NR_PDES_PER_PAGE
      requires Shared(before, model, parent, 0, i * NR_PTES_PER_PAGE) && Building(child, parent, i, -1)
      modifies `model, `home, child, home.Keys, mapcounts
      ensures Valid() && Shared(before, model, parent, 0, (i + 1) * NR_PTES_PER_PAGE) && Building(child, parent, i + 1, -1)
      ensures fresh(home.Keys - old(home.Keys)) && old(home.Keys) <= home.Keys
    {
      assert |parent.pdes| == NR_PDES_PER_PAGE;
      HomeOf(i);
      CurrentElsewhere(child);
      SharedFacts(before, parent, i);
      hide *;
      if current.pdes[i] != null {
        ForkDirectory(child, before, parent, i);
      } else {
        SkipDirectory(child, before, parent, i);
      }
    }

    /** The forking half of switch_process. */
    method ForkProcess(pid: nat)
      requires Valid()
      modifies this, home.Keys, mapcounts
      ensures Valid() && model == Fork(old(model), pid)
      ensures old(all) <= all && fresh(home.Keys - old(home.Keys)) && forall i :: |old(all)| <= i < |all| ==> fresh(all[i])
    {
      ghost var before := model;
      ghost var parent := model.procs[model.cur];
      var child := new Process(pid, |all|);
      ForkStart(child, parent);
      assert Shape(before);
      hide Valid, Building, Shared, Copied, TableShape, FramesInRange, ForkTable, TableIs, Fork, Shape;
      ForkTables(child, before, parent);
      AdoptChild(child, before, parent);
    }

    lemma ForkStart(child: Process, parent: Proc)
      requires Valid() && parent == model.procs[model.cur] && child.id == |all|
      requires |child.pdes| == NR_PDES_PER_PAGE && forall d :: 0 <= d < NR_PDES_PER_PAGE ==> child.pdes[d] == null
      ensures TableShape(parent) && FramesInRange(parent)
      ensures Shared(model, model, parent, 0, 0) && Building(child, parent, 0, -1) && child !in all
    {
      PartlySharedNothing(parent);
      forall k | 0 <= k < |all| ensures all[k] != child {
        assert TableIs(k, model.procs[k]);
      }
      hide PartlyShared, FramesInRange, ForkTable, TablesAre;
    }

    lemma SharedFacts(before: State, parent: Proc, i: nat)
      requires Valid() && TableShape(parent) && FramesInRange(parent) && i < NR_PDES_PER_PAGE
      requires Shared(before, model, parent, 0, i * NR_PTES_PER_PAGE) && |current.pdes| == NR_PDES_PER_PAGE
      ensures current.pdes[i] == null <==> parent.pdes[i].None?
      ensures model.cur == before.cur < |all| && current == all[model.cur]
    {
      assert TableIs(model.cur, model.procs[model.cur]);
      assert DirectoryIs(current.pdes[i], PartlyShared(parent, i * NR_PTES_PER_PAGE).pdes[i]);
      hide FramesInRange, ShareCounts, Shape;
    }

    lemma SkipDirectory(child: Process, before: State, parent: Proc, i: nat)
      requires Valid() && TableShape(parent) && FramesInRange(parent) && i < NR_PDES_PER_PAGE && parent.pdes[i].None?
      requires Shared(before, model, parent, 0, i * NR_PTES_PER_PAGE) && Building(child, parent, i, -1)
      ensures Shared(before, model, parent, 0, (i + 1) * NR_PTES_PER_PAGE) && Building(child, parent, i + 1, -1)
    {
      PartlySharedSkip(parent, i);
      ShareCountsSkip(model.mapcounts, parent, i * NR_PTES_PER_PAGE, (i + 1) * NR_PTES_PER_PAGE);
      hide Shape, PartlyShared, FramesInRange, ShareCounts;
    }

    /** The child joins the system and becomes the current process. */
    method AdoptChild(child: Process, ghost before: State, ghost parent: Proc)
      requires Valid() && Shape(before) && before.cur < |before.procs| && parent == before.procs[before.cur]
      requires TableShape(parent) && FramesInRange(parent) && child !in all
      requires Shared(before, model, parent, 0, NR_PAGES) && Building(child, parent, NR_PDES_PER_PAGE, -1)
      modifies `processes, `all, `current, `model
      ensures Valid() && model == Fork(before, child.pid) && all == old(all) + [child]
    {
      ForkIs(before, child.pid);
      assert model == WithParent(before, ForkTable(parent, false), ShareCounts(before.mapcounts, parent, 0)) by {
        PartlySharedAll(parent);
      }
      processes := processes + [current];
      all := all + [child];
      current := child;
      model := Fork(before, child.pid);
      hide Shape, FramesInRange, ShareCounts, PartlyShared, Fork;
      assert forall k :: 0 <= k < |all| - 1 ==> TableIs(k, model.procs[k]);
    }

    method SwitchProcess(pid: nat)
      requires Valid()
      modifies this, home.Keys, mapcounts, tlb
      ensures Valid() && model == DoSwitch(old(model), pid)
      ensures old(all) <= all && fresh(home.Keys - old(home.Keys)) && forall i :: |old(all)| <= i < |all| ==> fresh(all[i])
    {
      ValidShape();
      hide Valid, Shape, Fork, FindPid, VmModel.FlushTlb, DoSwitch, TableIs;
      var found := FindProcess(pid);
      SwitchParts(model, pid);
      if found < |processes| {
        TakeProcess(found);
      } else {
        ForkProcess(pid);
      }
      FlushTlb();
    }

    /** The search for a switched-out process; the length of the list if there is none. */
    method FindProcess(pid: nat) returns (k: nat)
      requires Valid()
      ensures |processes| == |model.queue|
      ensures FindPid(model.procs, model.queue, pid, 0) == if k < |processes| then Some(k) else None
    {
      hide Shape;
      assert |processes| == |model.queue| && forall j :: 0 <= j < |model.queue| ==> model.queue[j] < |model.procs|;
      for i := 0 to |processes|
        invariant FindPid(model.procs, model.queue, pid, 0) == FindPid(model.procs, model.queue, pid, i)
      {
        assert TableIs(model.queue[i], model.procs[model.queue[i]]);
        if processes[i].pid == pid {
          return i;
        }
      }
      return |processes|;
    }

    /** Makes a switched-out process current; the one that was current goes nowhere. */
    method TakeProcess(k: nat)
      requires Valid() && k < |processes| == |model.queue|
      modifies `current, `processes, `model
      ensures Valid() && model == old(model).(cur := old(model).queue[k], queue := RemoveAt(old(model).queue, k))
    {
      hide TablesAre, TableShape, FramesInRange;
      current := processes[k];
      processes := RemoveAt(processes, k);
      model := model.(cur := model.queue[k], queue := RemoveAt(model.queue, k));
    }

    // ----- The MMU and the commands -----

    method Translate(rw: nat, vpn: nat) returns (ok: bool, pfn: nat)
      requires Valid() && vpn < NR_PAGES
      modifies `model, tlb
      ensures Valid() && (model, if ok then Some(pfn) else None) == VmModel.Translate(old(model), rw, vpn)
    {
      TranslateCases(model, rw, vpn);
      assert tlbOn == model.tlbOn && Shape(model);
      hide Coupled, Shape, VmModel.Translate, VmModel.InsertTlb, VmModel.LookupTlb, Lookup;
      if tlbOn {
        ok, pfn := LookupTlb(vpn, rw);
        if ok {
          return;
        }
      }
      var dir := DirectoryOf(vpn);
      if dir == null {
        return false, 0;
      }
      var pte := dir[vpn % NR_PTES_PER_PAGE];
      if !pte.valid {
        return false, 0;
      }
      if Writes(rw) {
        if !Writes(pte.rw) {
          return false, 0;
        }
      }
      if tlbOn {
        InsertTlb(vpn, pte.rw, pte.pfn);
      }
      return true, pte.pfn;
    }

    method AccessMemory(vpn: nat, rw: nat) returns (o: Outcome)
      requires Valid() && vpn < NR_PAGES
      modifies `model, `home, current, home.Keys, mapcounts, tlb
      ensures Valid() && (model, o) == AccessRound(old(model), vpn, rw, 0)
      ensures fresh(home.Keys - old(home.Keys)) && old(home.Keys) <= home.Keys
    {
      ValidShape();
      hide *;
      ghost var before := model;
      var retries := 0;
      while true
        invariant Valid() && Shape(model) && Shape(before) && retries < 2
        invariant AccessRound(before, vpn, rw, 0) == AccessRound(model, vpn, rw, retries)
        invariant fresh(home.Keys - old(home.Keys)) && old(home.Keys) <= home.Keys
        decreases 2 - retries
      {
        ValidShape();
        AccessUnfolds(model, vpn, rw, retries);
        var ok, pfn := Translate(rw, vpn);
        if ok {
          return Accessed(pfn);
        }
        ValidShape();
        retries := retries + 1;
        var fault := HandlePageFault(vpn, rw);
        ValidShape();
        match fault {
          case Crashed => return Segfault;
          case Refused => return Denied;
          case Handled =>
            if retries == 2 {
              return Unserved;
            }
        }
      }
    }

    lemma ValidShape()
      requires Valid()
      ensures Shape(model) && current in all
    {
      hide Shape, TableIs;
    }

    method AllocCommand(vpn: nat, rw: nat) returns (o: Outcome)
      requires Valid() && vpn < NR_PAGES
      modifies `model, `home, current, home.Keys, mapcounts, tlb
      ensures Valid() && (model, o) == DoAlloc(old(model), vpn, rw)
      ensures fresh(home.Keys - old(home.Keys)) && old(home.Keys) <= home.Keys
    {
      ValidShape();
      hide Valid, VmModel.Translate, VmModel.AllocPage, Shape;
      var ok, pfn := Translate(ACCESS_READ, vpn);
      ValidShape();
      if ok {
        return AlreadyAllocated(pfn);
      }
      var f := AllocPage(vpn, rw);
      if f.None? {
        return MemoryFull;
      }
      return Allocated(f.value);
    }

    method FreeCommand(vpn: nat) returns (o: Outcome)
      requires Valid() && vpn < NR_PAGES
      modifies `model, home.Keys, mapcounts, tlb
      ensures Valid() && (model, o) == DoFree(old(model), vpn)
    {
      ValidShape();
      hide Valid, VmModel.Translate, VmModel.FreePage, Shape;
      var ok, pfn := Translate(ACCESS_READ, vpn);
      ValidShape();
      if !ok {
        return NotAllocated;
      }
      FreePage(vpn);
      return Freed(pfn);
    }

    method Perform(c: Command) returns (o: Outcome)
      requires Valid() && Legal(c)
      modifies this, all, home.Keys, mapcounts, tlb
      ensures Valid() && (model, o) == Step(old(model), c)
      ensures old(all) <= all && fresh(home.Keys - old(home.Keys)) && forall i :: |old(all)| <= i < |all| ==> fresh(all[i])
    {
      ValidShape();
      hide Valid, DoAlloc, DoFree, AccessRound, DoSwitch, Shape;
      match c {
        case Alloc(v, rw) => o := AllocCommand(v, rw);
        case Free(v) => o := FreeCommand(v);
        case Access(v, rw) => o := AccessMemory(v, rw);
        case Switch(pid) =>
          SwitchProcess(pid);
          o := Switched;
      }
    }

    /** The command loop: a failed allocation ends it. */
    method DoSimulation(cs: seq<Command>) returns (os: seq<Outcome>)
      requires Valid() && AllLegal(cs)
      modifies this, all, home.Keys, mapcounts, tlb
      ensures Valid() && (model, os) == RunCommands(old(model), cs)
    {
      ValidShape();
      hide Valid, Shape, RunCommands, Step, Ends, AllLegal, Legal, SoFar;
      ghost var before := model;
      os := [];
      NothingYet(model, cs);
      for k := 0 to |cs|
        invariant Valid() && SoFar(before, cs, model, k, os)
        invariant old(all) <= all && fresh(home.Keys - old(home.Keys))
        invariant forall i :: |old(all)| <= i < |all| ==> fresh(all[i])
      {
        OneMore(before, cs, model, k, os);
        var o := Perform(cs[k]);
        os := os + [o];
        if Ends(o) {
          return;
        }
      }
      AllDone(before, cs, model, os);
    }
  }

  /** The table of the parent when the first n pages have been shared. */
  function PartlyShared(p: Proc, n: nat): (r: Proc)
    requires TableShape(p)
    ensures TableShape(r)
  {
    p.(pdes := seq(NR_PDES_PER_PAGE, i requires 0 <= i < NR_PDES_PER_PAGE =>
      if p.pdes[i].None? then None else Some(PartlySharedDirectory(p.pdes[i].value, n - i * NR_PTES_PER_PAGE))))
  }

  function PartlySharedDirectory(d: Directory, n: int): (r: Directory)
    ensures |r| == |d|
  {
    seq(|d|, j requires 0 <= j < |d| => if j < n then Share(d[j]) else d[j])
  }

  /** From one state to the other the parent's pages from m up to n are shared and counted, and nothing else. */
  ghost predicate Shared(before: State, after: State, parent: Proc, m: nat, n: nat)
    requires TableShape(parent) && FramesInRange(parent) && m <= n <= NR_PAGES
  {
    && |after.mapcounts| == |before.mapcounts| == NR_PAGEFRAMES && before.cur < |before.procs|
    && after == WithParent(before, PartlyShared(parent, n), after.mapcounts)
    && ShareCounts(after.mapcounts, parent, n) == ShareCounts(before.mapcounts, parent, m)
  }

  lemma SharedNothing(before: State, start: State, parent: Proc, m: nat)
    requires TableShape(parent) && FramesInRange(parent) && m <= NR_PAGES && Shared(before, start, parent, 0, m)
    ensures Shared(start, start, parent, m, m)
  {
    hide TableShape, FramesInRange, PartlyShared, ShareCounts;
    assert start.procs[start.cur := PartlyShared(parent, m)] == start.procs;
  }

  lemma SharedOn(before: State, start: State, after: State, parent: Proc, m: nat, n: nat)
    requires TableShape(parent) && FramesInRange(parent) && m <= n <= NR_PAGES
    requires Shared(before, start, parent, 0, m) && Shared(start, after, parent, m, n)
    ensures Shared(before, after, parent, 0, n)
  {
    hide TableShape, FramesInRange, PartlyShared, ShareCounts;
  }

  function WithParent(s: State, p: Proc, mapcounts: seq<nat>): State
    requires s.cur < |s.procs|
  {
    s.(procs := s.procs[s.cur := p], mapcounts := mapcounts)
  }

  lemma PartlySharedLookup(p: Proc, n: nat, v: nat)
    requires TableShape(p) && v < NR_PAGES
    ensures Lookup(PartlyShared(p, n), v) == if v < n then Share(Lookup(p, v)) else Lookup(p, v)
    ensures HasDirectory(PartlyShared(p, n), v) == HasDirectory(p, v)
  {
    assert v == v / 16 * 16 + v % 16;
  }

  lemma PartlySharedNext(p: Proc, v: nat)
    requires TableShape(p) && v < NR_PAGES && HasDirectory(p, v)
    ensures SetPte(PartlyShared(p, v), v, Share(Lookup(p, v))) == PartlyShared(p, v + 1)
    ensures Share(Lookup(p, v)) == Lookup(p, v) ==> PartlyShared(p, v + 1) == PartlyShared(p, v)
  {
    assert v == v / 16 * 16 + v % 16;
    var a, b := PartlyShared(p, v), PartlyShared(p, v + 1);
    var r := SetPte(a, v, Share(Lookup(p, v)));
    forall i | 0 <= i < NR_PDES_PER_PAGE
      ensures r.pdes[i] == b.pdes[i] && (Share(Lookup(p, v)) == Lookup(p, v) ==> a.pdes[i] == b.pdes[i])
    {
      if p.pdes[i].Some? {
        assert r.pdes[i].value == b.pdes[i].value;
        if Share(Lookup(p, v)) == Lookup(p, v) {
          assert a.pdes[i].value == b.pdes[i].value;
        }
      }
    }
  }

  /** What forking one PTE does to the state. */
  lemma PartlySharedStep(s: State, p: Proc, v: nat)
    requires Shape(s) && TableShape(p) && FramesInRange(p) && v < NR_PAGES && HasDirectory(p, v)
    requires s.procs[s.cur] == PartlyShared(p, v)
    ensures var pte := Lookup(p, v);
      && Lookup(s.procs[s.cur], v) == pte && pte.pfn < NR_PAGEFRAMES && HasDirectory(s.procs[s.cur], v)
      && var counts := if pte.valid then s.mapcounts[pte.pfn := s.mapcounts[pte.pfn] + 1] else s.mapcounts;
      && ShareCounts(counts, p, v + 1) == ShareCounts(s.mapcounts, p, v)
      && WithParent(s, PartlyShared(p, v + 1), counts) ==
        if pte.valid && pte.rw == ACCESS_BOTH
        then WithPte(s.(mapcounts := counts), v, pte.(rw := ACCESS_READ)) else s.(mapcounts := counts)
  {
    PartlySharedLookup(p, v, v);
    PartlySharedNext(p, v);
    hide PartlyShared, Lookup, SetPte, TableShape;
  }

  /** The state once the page has a directory. */
  function WithDirectory(s: State, vpn: nat): State
    requires Shape(s) && vpn < NR_PAGES
  {
    var p := s.procs[s.cur];
    s.(procs := s.procs[s.cur := p.(pdes := p.pdes[vpn / NR_PTES_PER_PAGE := Some(EmptyDirectory())])])
  }

  lemma WithDirectoryShape(s: State, vpn: nat)
    requires Shape(s) && vpn < NR_PAGES && !HasDirectory(s.procs[s.cur], vpn)
    ensures Shape(WithDirectory(s, vpn)) && HasDirectory(WithDirectory(s, vpn).procs[s.cur], vpn)
  {
    var p, q := s.procs[s.cur], WithDirectory(s, vpn).procs[s.cur];
    assert TableShape(q);
    forall w | 0 <= w < NR_PAGES ensures Lookup(q, w) == Lookup(p, w) {
    }
    hide Lookup, TableShape;
  }

  /** Storing into a fresh directory is what the state machine does in one step. */
  lemma WithDirectoryStores(s: State, vpn: nat, pte: Pte)
    requires Shape(s) && vpn < NR_PAGES && !HasDirectory(s.procs[s.cur], vpn) && pte.pfn < NR_PAGEFRAMES
    ensures Shape(WithDirectory(s, vpn)) && WithPte(WithDirectory(s, vpn), vpn, pte) == WithPte(s, vpn, pte)
  {
    WithDirectoryShape(s, vpn);
    hide Lookup, FramesInRange;
    var t := WithDirectory(s, vpn);
    assert SetPte(t.procs[s.cur], vpn, pte).pdes == SetPte(s.procs[s.cur], vpn, pte).pdes;
    assert WithPte(t, vpn, pte).procs == WithPte(s, vpn, pte).procs;
  }

  lemma DirectoryAdded(s: State, vpn: nat)
    requires Shape(s) && vpn < NR_PAGES && !HasDirectory(s.procs[s.cur], vpn)
    ensures Shape(WithDirectory(s, vpn)) && HasDirectory(WithDirectory(s, vpn).procs[s.cur], vpn) && WithDirectory(s, vpn).cur == s.cur
  {
    WithDirectoryShape(s, vpn);
  }

  lemma FrameInRange(s: State, vpn: nat)
    requires Shape(s) && vpn < NR_PAGES
    ensures Lookup(s.procs[s.cur], vpn).pfn < NR_PAGEFRAMES
  {
  }

  /** Freeing clears the PTE first; the order of the three effects does not matter. */
  lemma FreeOrder(s: State, vpn: nat)
    requires Shape(s) && vpn < NR_PAGES && Lookup(s.procs[s.cur], vpn).valid
    ensures Lookup(s.procs[s.cur], vpn).pfn < NR_PAGEFRAMES
    ensures var f := Lookup(s.procs[s.cur], vpn).pfn;
      var t := WithPte(s, vpn, NO_PTE);
      && t.mapcounts == s.mapcounts && t.tlb == s.tlb
      && VmModel.FreePage(s, vpn) ==
        t.(mapcounts := s.mapcounts[f := Decrement(s.mapcounts[f])], tlb := VmModel.EvictTlb(s.tlb, vpn, 0))
  {
    FrameInRange(s, vpn);
    hide SetPte, Lookup, VmModel.EvictTlb, FramesInRange;
  }

  /** The child's copy of a directory when the first n PTEs are done. */
  function Copied(d: Directory, n: nat): (r: Directory)
    ensures |r| == |d|
  {
    seq(|d|, j requires 0 <= j < |d| => if j < n then Inherit(d[j]) else NO_PTE)
  }

  lemma CopiedNothing(d: Directory)
    requires |d| == NR_PTES_PER_PAGE
    ensures Copied(d, 0) == Copied(EmptyDirectory(), 0)
  {
  }

  lemma CopiedNext(p: Proc, i: nat, j: nat)
    requires TableShape(p) && i < NR_PDES_PER_PAGE && j < NR_PTES_PER_PAGE && p.pdes[i].Some?
    ensures var v := i * NR_PTES_PER_PAGE + j;
      && v < NR_PAGES && v / NR_PTES_PER_PAGE == i && v % NR_PTES_PER_PAGE == j && HasDirectory(p, v)
      && Copied(p.pdes[i].value, j)[j] == NO_PTE
      && Copied(p.pdes[i].value, j + 1) == Copied(p.pdes[i].value, j)[j := Inherit(Lookup(p, v))]
  {
  }

  lemma CopiedAll(p: Proc, i: nat)
    requires TableShape(p) && i < NR_PDES_PER_PAGE && p.pdes[i].Some?
    ensures ForkTable(p, true).pdes[i] == Some(Copied(p.pdes[i].value, NR_PTES_PER_PAGE))
  {
    assert VmModel.ForkDirectory(p.pdes[i].value, true) == Copied(p.pdes[i].value, NR_PTES_PER_PAGE);
  }

  lemma PartlySharedNothing(p: Proc)
    requires TableShape(p)
    ensures PartlyShared(p, 0) == p
  {
    forall i | 0 <= i < NR_PDES_PER_PAGE ensures PartlyShared(p, 0).pdes[i] == p.pdes[i] {
      if p.pdes[i].Some? {
        assert PartlyShared(p, 0).pdes[i].value == p.pdes[i].value;
      }
    }
  }

  lemma PartlySharedAll(p: Proc)
    requires TableShape(p)
    ensures PartlyShared(p, NR_PAGES) == ForkTable(p, false)
  {
    forall i | 0 <= i < NR_PDES_PER_PAGE ensures PartlyShared(p, NR_PAGES).pdes[i] == ForkTable(p, false).pdes[i] {
      if p.pdes[i].Some? {
        assert PartlyShared(p, NR_PAGES).pdes[i].value == ForkTable(p, false).pdes[i].value;
      }
    }
  }

  lemma PartlySharedSkip(p: Proc, i: nat)
    requires TableShape(p) && i < NR_PDES_PER_PAGE && p.pdes[i].None?
    ensures PartlyShared(p, (i + 1) * NR_PTES_PER_PAGE) == PartlyShared(p, i * NR_PTES_PER_PAGE)
  {
    var a, b := PartlyShared(p, (i + 1) * NR_PTES_PER_PAGE), PartlyShared(p, i * NR_PTES_PER_PAGE);
    forall k | 0 <= k < NR_PDES_PER_PAGE ensures a.pdes[k] == b.pdes[k] {
      if p.pdes[k].Some? {
        assert k != i;
        assert a.pdes[k].value == b.pdes[k].value;
      }
    }
  }

  /** Pages without a directory add nothing to the counts. */
  lemma {:induction false} ShareCountsSkip(mapcounts: seq<nat>, p: Proc, v: nat, w: nat)
    requires |mapcounts| == NR_PAGEFRAMES && TableShape(p) && FramesInRange(p) && v <= w <= NR_PAGES
    requires forall x :: v <= x < w ==> !HasDirectory(p, x)
    ensures ShareCounts(mapcounts, p, v) == ShareCounts(mapcounts, p, w)
    decreases w - v
  {
    if v < w {
      assert !HasDirectory(p, v);
      ShareCountsSkip(mapcounts, p, v + 1, w);
    }
  }

  lemma ForkIs(s: State, pid: nat)
    requires Shape(s)
    ensures var parent := s.procs[s.cur];
      && Shape(Fork(s, pid)) && Fork(s, pid) == WithParent(s, ForkTable(parent, false), ShareCounts(s.mapcounts, parent, 0))
        .(procs := s.procs[s.cur := ForkTable(parent, false)] + [Child(parent, pid)], cur := |s.procs|, queue := s.queue + [s.cur])
  {
    hide ForkTable, ShareCounts, Child;
  }

  lemma SwitchParts(s: State, pid: nat)
    requires Shape(s)
    ensures var found := FindPid(s.procs, s.queue, pid, 0);
      var u := if found.Some? then s.(cur := s.queue[found.value], queue := RemoveAt(s.queue, found.value)) else Fork(s, pid);
      DoSwitch(s, pid) == u.(tlb := VmModel.FlushTlb(u.tlb))
  {
    hide Fork, FindPid, Shape;
  }

  lemma TranslateCases(s: State, rw: nat, vpn: nat)
    requires Shape(s) && vpn < NR_PAGES
    ensures var hit := if s.tlbOn then VmModel.LookupTlb(s.tlb, vpn, rw, 0) else None;
      var pte := Lookup(s.procs[s.cur], vpn);
      && (!HasDirectory(s.procs[s.cur], vpn) ==> !pte.valid)
      && VmModel.Translate(s, rw, vpn) ==
        if hit.Some? then (s, hit)
        else if !pte.valid || (Writes(rw) && !Writes(pte.rw)) then (s, None)
        else (if s.tlbOn then s.(tlb := VmModel.InsertTlb(s.tlb, vpn, pte.rw, pte.pfn, 0)) else s, Some(pte.pfn))
  {
  }

  /** A whole session. */
  method Simulate(tlbOn: bool, cs: seq<Command>) returns (sys: System, os: seq<Outcome>)
    requires AllLegal(cs)
    ensures sys.Valid() && (sys.model, os) == RunCommands(Initial(tlbOn), cs)
  {
    sys := new System(tlbOn);
    hide RunCommands;
    os := sys.DoSimulation(cs);
  }

  lemma AccessUnfolds(s: State, vpn: nat, rw: nat, retries: nat)
    requires Shape(s) && vpn < NR_PAGES && retries < 2
    ensures var (t, pfn) := VmModel.Translate(s, rw, vpn);
      AccessRound(s, vpn, rw, retries) ==
        if pfn.Some? then (t, Accessed(pfn.value))
        else
          var (u, fault) := HandleFault(t, vpn, rw);
          match fault
          case Crashed => (u, Segfault)
          case Refused => (u, Denied)
          case Handled => if retries + 1 < 2 then AccessRound(u, vpn, rw, retries + 1) else (u, Unserved)
  {
    hide Shape, VmModel.Translate, HandleFault;
  }

  /** From `before` the first k commands of a run lead to `now` with outcomes `os`. */
  ghost predicate SoFar(before: State, cs: seq<Command>, now: State, k: nat, os: seq<Outcome>) {
    && Shape(before) && Shape(now) && AllLegal(cs) && k <= |cs|
    && RunCommands(before, cs) == (RunCommands(now, cs[k..]).0, os + RunCommands(now, cs[k..]).1)
  }

  lemma NothingYet(s: State, cs: seq<Command>)
    requires Shape(s) && AllLegal(cs)
    ensures SoFar(s, cs, s, 0, [])
  {
    assert cs[0..] == cs && [] + RunCommands(s, cs).1 == RunCommands(s, cs).1;
    hide Shape, AllLegal, RunCommands;
  }

  lemma OneMore(before: State, cs: seq<Command>, now: State, k: nat, os: seq<Outcome>)
    requires SoFar(before, cs, now, k, os) && k < |cs|
    ensures Shape(now) && Legal(cs[k]) && AllLegal(cs)
    ensures var (t, o) := Step(now, cs[k]);
      if Ends(o) then RunCommands(before, cs) == (t, os + [o]) else SoFar(before, cs, t, k + 1, os + [o])
  {
    hide Shape, Step, Ends, Legal;
    assert cs[k..][0] == cs[k] && cs[k..][1..] == cs[k + 1..];
    var (t, o) := Step(now, cs[k]);
    assert os + ([o] + RunCommands(t, cs[k + 1..]).1) == (os + [o]) + RunCommands(t, cs[k + 1..]).1;
  }

  lemma AllDone(before: State, cs: seq<Command>, now: State, os: seq<Outcome>)
    requires SoFar(before, cs, now, |cs|, os)
    ensures AllLegal(cs) && Shape(before) && RunCommands(before, cs) == (now, os)
  {
    assert cs[|cs|..] == [] && os + [] == os;
    hide Shape;
  }
}
