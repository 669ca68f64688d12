/**
 The virtual memory simulator as a state machine over values.  Processes are named by their
 position in `procs`, which keeps every process ever created; `queue` is the list of switched-out
 processes.  Each function follows one function of the simulator, branch by branch.
 */
module VmModel {
  import opened Seqs

  const NR_PAGEFRAMES: nat := 128
  const NR_PTES_PER_PAGE: nat := 16
  const NR_PDES_PER_PAGE: nat := 4
  const NR_PAGES: nat := 64
  const NR_TLB_ENTRIES: nat := 256

  const ACCESS_READ: nat := 1
  const ACCESS_WRITE: nat := 2
  const ACCESS_BOTH: nat := 3

  datatype Pte = Pte(valid: bool, rw: nat, pfn: nat, priv: nat)

  const NO_PTE: Pte := Pte(false, 0, 0, 0)

  type Directory = seq<Pte>

  datatype Proc = Proc(pid: nat, pdes: seq<Option<Directory>>)

  datatype TlbEntry = TlbEntry(valid: bool, rw: nat, vpn: nat, pfn: nat, priv: nat)

  datatype State = State(procs: seq<Proc>, cur: nat, queue: seq<nat>, mapcounts: seq<nat>, tlb: seq<TlbEntry>, tlbOn: bool)

  ghost predicate TableShape(p: Proc) {
    |p.pdes| == NR_PDES_PER_PAGE
    && forall i :: 0 <= i < NR_PDES_PER_PAGE && p.pdes[i].Some? ==> |p.pdes[i].value| == NR_PTES_PER_PAGE
  }

  ghost predicate FramesInRange(p: Proc)
    requires TableShape(p)
  {
    forall v :: 0 <= v < NR_PAGES ==> Lookup(p, v).pfn < NR_PAGEFRAMES
  }

  /** Table and array sizes, and names that denote something. */
  ghost predicate Shape(s: State) {
    && |s.mapcounts| == NR_PAGEFRAMES && |s.tlb| == NR_TLB_ENTRIES && s.cur < |s.procs|
    && (forall i :: 0 <= i < |s.procs| ==> TableShape(s.procs[i]) && FramesInRange(s.procs[i]))
    && (forall k :: 0 <= k < |s.queue| ==> s.queue[k] < |s.procs|)
  }

  predicate Writes(rw: nat) {
    rw / 2 % 2 == 1
  }

  // ----- Page tables -----

  predicate HasDirectory(p: Proc, vpn: nat)
    requires TableShape(p) && vpn < NR_PAGES
  {
    p.pdes[vpn / NR_PTES_PER_PAGE].Some?
  }

  /** The PTE of a page; a page without a directory has none. */
  function Lookup(p: Proc, vpn: nat): Pte
    requires TableShape(p) && vpn < NR_PAGES
  {
    match p.pdes[vpn / NR_PTES_PER_PAGE]
    case None => NO_PTE
    case Some(d) => d[vpn % NR_PTES_PER_PAGE]
  }

  /** What a directory is assumed to be filled with when it is allocated. */
  function EmptyDirectory(): (d: Directory)
    ensures |d| == NR_PTES_PER_PAGE && forall i :: 0 <= i < NR_PTES_PER_PAGE ==> d[i] == NO_PTE
  {
    seq(NR_PTES_PER_PAGE, _ => NO_PTE)
  }

  /** Writes a PTE, allocating a zeroed directory when there is none yet. */
  function SetPte(p: Proc, vpn: nat, pte: Pte): (r: Proc)
    requires TableShape(p) && vpn < NR_PAGES
    ensures TableShape(r) && HasDirectory(r, vpn)
  {
    var i := vpn / NR_PTES_PER_PAGE;
    var d := if p.pdes[i].Some? then p.pdes[i].value else EmptyDirectory();
    p.(pdes := p.pdes[i := Some(d[vpn % NR_PTES_PER_PAGE := pte])])
  }

  // ----- TLB -----

  /** lookup_tlb from entry i on. */
  function LookupTlb(tlb: seq<TlbEntry>, vpn: nat, rw: nat, i: nat): (r: Option<nat>)
    decreases |tlb| - i
  {
    if i >= |tlb| then None
    else if tlb[i].valid && tlb[i].vpn == vpn && tlb[i].rw >= rw then Some(tlb[i].pfn)
    else LookupTlb(tlb, vpn, rw, i + 1)
  }

  /** insert_tlb from entry i on; the loop stops after NR_PAGEFRAMES entries. */
  function InsertTlb(tlb: seq<TlbEntry>, vpn: nat, rw: nat, pfn: nat, i: nat): (r: seq<TlbEntry>)
    requires |tlb| == NR_TLB_ENTRIES
    ensures |r| == NR_TLB_ENTRIES
    decreases NR_PAGEFRAMES - i
  {
    if i >= NR_PAGEFRAMES then tlb
    else if tlb[i].valid && tlb[i].vpn == vpn then tlb[i := tlb[i].(pfn := pfn, rw := rw)]
    else if !tlb[i].valid then tlb[i := TlbEntry(true, rw, vpn, pfn, rw)]
    else InsertTlb(tlb, vpn, rw, pfn, i + 1)
  }

  /** Clears the first entry for a page, from entry i on. */
  function EvictTlb(tlb: seq<TlbEntry>, vpn: nat, i: nat): (r: seq<TlbEntry>)
    ensures |r| == |tlb|
    decreases |tlb| - i
  {
    if i >= |tlb| then tlb
    else if tlb[i].valid && tlb[i].vpn == vpn then tlb[i := TlbEntry(false, 0, 0, 0, 0)]
    else EvictTlb(tlb, vpn, i + 1)
  }

  /** The flush on a switch: only the first NR_PAGEFRAMES entries. */
  function FlushTlb(tlb: seq<TlbEntry>): (r: seq<TlbEntry>)
    ensures |r| == |tlb|
  {
    seq(|tlb|, i requires 0 <= i < |tlb| => if i < NR_PAGEFRAMES then tlb[i].(valid := false) else tlb[i])
  }

  // ----- Translation -----

  /** __translate */
  function Translate(s: State, rw: nat, vpn: nat): (r: (State, Option<nat>))
    requires Shape(s) && vpn < NR_PAGES
    ensures Shape(r.0)
  {
    var hit := if s.tlbOn then LookupTlb(s.tlb, vpn, rw, 0) else None;
    if hit.Some? then (s, hit)
    else
      var pte := Lookup(s.procs[s.cur], vpn);
      if !pte.valid then (s, None)
      else if Writes(rw) && !Writes(pte.rw) then (s, None)
      else (if s.tlbOn then s.(tlb := InsertTlb(s.tlb, vpn, pte.rw, pte.pfn, 0)) else s, Some(pte.pfn))
  }

  // ----- Allocation -----

  /** The smallest free frame from f on. */
  function FirstFree(mapcounts: seq<nat>, f: nat): (r: Option<nat>)
    ensures r.Some? ==> f <= r.value < |mapcounts| && mapcounts[r.value] == 0
    ensures r.Some? ==> forall g :: f <= g < r.value ==> mapcounts[g] != 0
    ensures r.None? ==> forall g :: f <= g < |mapcounts| ==> mapcounts[g] != 0
    decreases |mapcounts| - f
  {
    if f >= |mapcounts| then None
    else if mapcounts[f] == 0 then Some(f)
    else FirstFree(mapcounts, f + 1)
  }

  /** The current process with one PTE replaced. */
  function WithPte(s: State, vpn: nat, pte: Pte): (t: State)
    requires Shape(s) && vpn < NR_PAGES && pte.pfn < NR_PAGEFRAMES
    ensures Shape(t)
  {
    SetPteLookup(s.procs[s.cur], vpn, pte);
    s.(procs := s.procs[s.cur := SetPte(s.procs[s.cur], vpn, pte)])
  }

  /** Writing one PTE changes what is looked up for that page only. */
  lemma SetPteLookup(p: Proc, vpn: nat, pte: Pte)
    requires TableShape(p) && vpn < NR_PAGES
    ensures forall w :: 0 <= w < NR_PAGES ==> Lookup(SetPte(p, vpn, pte), w) == if w == vpn then pte else Lookup(p, w)
  {
    forall w | 0 <= w < NR_PAGES
      ensures Lookup(SetPte(p, vpn, pte), w) == if w == vpn then pte else Lookup(p, w)
    {
      assert w == w / 16 * 16 + w % 16 && vpn == vpn / 16 * 16 + vpn % 16;
    }
  }

  /** alloc_page */
  function AllocPage(s: State, vpn: nat, rw: nat): (r: (State, Option<nat>))
    requires Shape(s) && vpn < NR_PAGES
    ensures Shape(r.0)
  {
    match FirstFree(s.mapcounts, 0)
    case None => (s, None)
    case Some(f) =>
      (WithPte(s.(mapcounts := s.mapcounts[f := s.mapcounts[f] + 1]), vpn, Pte(true, rw, f, rw)), Some(f))
  }

  /** Unsigned decrement. */
  function Decrement(n: nat): nat {
    if n == 0 then 0xFFFF_FFFF else n - 1
  }

  /** free_page */
  function FreePage(s: State, vpn: nat): (t: State)
    requires Shape(s) && vpn < NR_PAGES
    ensures Shape(t)
  {
    var pte := Lookup(s.procs[s.cur], vpn);
    if !pte.valid then s
    else
      WithPte(s.(mapcounts := s.mapcounts[pte.pfn := Decrement(s.mapcounts[pte.pfn])],
                 tlb := EvictTlb(s.tlb, vpn, 0)), vpn, NO_PTE)
  }

  // ----- Faults -----

  datatype Fault = Crashed | Refused | Handled

  /** handle_page_fault; without a page directory it reads through a null pointer. */
  function HandleFault(s: State, vpn: nat, rw: nat): (r: (State, Fault))
    requires Shape(s) && vpn < NR_PAGES
    ensures Shape(r.0)
  {
    if !HasDirectory(s.procs[s.cur], vpn) then (s, Crashed)
    else
      var pte := Lookup(s.procs[s.cur], vpn);
      if !pte.valid then (s, Refused)
      else if pte.priv != ACCESS_READ && pte.rw == ACCESS_READ && rw > ACCESS_READ then
        if s.mapcounts[pte.pfn] > 1 then
          (AllocPage(s.(mapcounts := s.mapcounts[pte.pfn := s.mapcounts[pte.pfn] - 1]), vpn, ACCESS_BOTH).0, Handled)
        else (WithPte(s, vpn, pte.(rw := ACCESS_BOTH)), Handled)
      else (s, Refused)
  }

  // ----- Commands -----

  datatype Command =
    | Alloc(vpn: nat, rw: nat)
    | Free(vpn: nat)
    | Access(vpn: nat, rw: nat)
    | Switch(pid: nat)

  /** What a command reports.  `Unserved` is an access that reports success without a translation. */
  datatype Outcome =
    | Allocated(pfn: nat)
    | AlreadyAllocated(pfn: nat)
    | MemoryFull
    | Freed(pfn: nat)
    | NotAllocated
    | Accessed(pfn: nat)
    | Denied
    | Unserved
    | Segfault
    | Switched

  /** The (retries + 1)-th round of __access_memory. */
  function AccessRound(s: State, vpn: nat, rw: nat, retries: nat): (r: (State, Outcome))
    requires Shape(s) && vpn < NR_PAGES && retries < 2
    ensures Shape(r.0)
    decreases 2 - retries
  {
    var (t, pfn) := Translate(s, rw, vpn);
    if pfn.Some? then (t, Accessed(pfn.value))
    else
      var (u, fault) := HandleFault(t, vpn, rw);
      match fault
      case Crashed => (u, Segfault)
      case Refused => (u, Denied)
      case Handled => if retries + 1 < 2 then AccessRound(u, vpn, rw, retries + 1) else (u, Unserved)
  }

  function DoAlloc(s: State, vpn: nat, rw: nat): (r: (State, Outcome))
    requires Shape(s) && vpn < NR_PAGES
    ensures Shape(r.0)
  {
    var (t, pfn) := Translate(s, ACCESS_READ, vpn);
    if pfn.Some? then (t, AlreadyAllocated(pfn.value))
    else
      var (u, f) := AllocPage(t, vpn, rw);
      (u, if f.Some? then Allocated(f.value) else MemoryFull)
  }

  function DoFree(s: State, vpn: nat): (r: (State, Outcome))
    requires Shape(s) && vpn < NR_PAGES
    ensures Shape(r.0)
  {
    var (t, pfn) := Translate(s, ACCESS_READ, vpn);
    if pfn.None? then (t, NotAllocated) else (FreePage(t, vpn), Freed(pfn.value))
  }

  // ----- Switching and forking -----

  /** The first switched-out process with this pid, from position k on. */
  function FindPid(procs: seq<Proc>, queue: seq<nat>, pid: nat, k: nat): (r: Option<nat>)
    requires forall j :: 0 <= j < |queue| ==> queue[j] < |procs|
    ensures r.Some? ==> k <= r.value < |queue| && procs[queue[r.value]].pid == pid
    decreases |queue| - k
  {
    if k >= |queue| then None
    else if procs[queue[k]].pid == pid then Some(k)
    else FindPid(procs, queue, pid, k + 1)
  }

  /** What a fork leaves in a PTE: a valid writable page becomes read-only. */
  function Share(pte: Pte): Pte {
    if pte.valid && pte.rw == ACCESS_BOTH then pte.(rw := ACCESS_READ) else pte
  }

  /** What the child gets. */
  function Inherit(pte: Pte): Pte {
    if pte.valid then Share(pte) else NO_PTE
  }

  /** Every PTE of a table as the fork leaves it, in the child or in the parent. */
  function ForkTable(p: Proc, child: bool): (r: Proc)
    requires TableShape(p)
    ensures TableShape(r)
  {
    p.(pdes := seq(NR_PDES_PER_PAGE, i requires 0 <= i < NR_PDES_PER_PAGE =>
      if p.pdes[i].None? then None else Some(ForkDirectory(p.pdes[i].value, child))))
  }

  function ForkDirectory(d: Directory, child: bool): (r: Directory)
    ensures |r| == |d|
  {
    seq(|d|, j requires 0 <= j < |d| => if child then Inherit(d[j]) else Share(d[j]))
  }

  /** One more mapping for every frame the table maps, from page v on. */
  function ShareCounts(mapcounts: seq<nat>, p: Proc, v: nat): (r: seq<nat>)
    requires |mapcounts| == NR_PAGEFRAMES && TableShape(p) && FramesInRange(p) && v <= NR_PAGES
    ensures |r| == NR_PAGEFRAMES
    decreases NR_PAGES - v
  {
    if v == NR_PAGES then mapcounts
    else
      var pte := Lookup(p, v);
      ShareCounts(if pte.valid then mapcounts[pte.pfn := mapcounts[pte.pfn] + 1] else mapcounts, p, v + 1)
  }

  lemma ForkTableLookup(p: Proc, child: bool, v: nat)
    requires TableShape(p) && v < NR_PAGES
    ensures Lookup(ForkTable(p, child), v) == if child then Inherit(Lookup(p, v)) else Share(Lookup(p, v))
    ensures HasDirectory(ForkTable(p, child), v) == HasDirectory(p, v)
  {
  }

  /** The forking half of switch_process. */
  function Fork(s: State, pid: nat): (t: State)
    requires Shape(s)
    ensures Shape(t)
  {
    var parent := s.procs[s.cur];
    ForkFrames(parent, pid);
    s.(procs := s.procs[s.cur := ForkTable(parent, false)] + [Child(parent, pid)], cur := |s.procs|, queue := s.queue + [s.cur],
       mapcounts := ShareCounts(s.mapcounts, parent, 0))
  }

  function Child(parent: Proc, pid: nat): (r: Proc)
    requires TableShape(parent)
    ensures TableShape(r)
  {
    Proc(pid, ForkTable(parent, true).pdes)
  }

  lemma ForkFrames(p: Proc, pid: nat)
    requires TableShape(p) && FramesInRange(p)
    ensures FramesInRange(ForkTable(p, false)) && FramesInRange(Child(p, pid))
  {
    forall v | 0 <= v < NR_PAGES
      ensures Lookup(ForkTable(p, false), v).pfn < NR_PAGEFRAMES
      ensures Lookup(Child(p, pid), v).pfn < NR_PAGEFRAMES
    {
      ForkTableLookup(p, false, v);
      ForkTableLookup(p, true, v);
      assert Lookup(Child(p, pid), v) == Lookup(ForkTable(p, true), v);
    }
  }

  /** switch_process */
  function DoSwitch(s: State, pid: nat): (t: State)
    requires Shape(s)
    ensures Shape(t)
  {
    var found := FindPid(s.procs, s.queue, pid, 0);
    var u := if found.Some? then s.(cur := s.queue[found.value], queue := RemoveAt(s.queue, found.value)) else Fork(s, pid);
    u.(tlb := FlushTlb(u.tlb))
  }

  predicate Legal(c: Command) {
    match c
    case Alloc(v, rw) => v < NR_PAGES && (rw == ACCESS_READ || rw == ACCESS_BOTH)
    case Free(v) => v < NR_PAGES
    case Access(v, rw) => v < NR_PAGES && ACCESS_READ <= rw <= ACCESS_BOTH
    case Switch(_) => true
  }

  function Step(s: State, c: Command): (r: (State, Outcome))
    requires Shape(s) && Legal(c)
    ensures Shape(r.0)
  {
    match c
    case Alloc(v, rw) => DoAlloc(s, v, rw)
    case Free(v) => DoFree(s, v)
    case Access(v, rw) => AccessRound(s, v, rw, 0)
    case Switch(pid) => (DoSwitch(s, pid), Switched)
  }

  /** The machine before the first command: one process, number 0, with nothing mapped. */
  function Initial(tlbOn: bool): (s: State)
    ensures Shape(s)
  {
    State([Proc(0, [None, None, None, None])], 0, [], seq(NR_PAGEFRAMES, _ => 0),
          seq(NR_TLB_ENTRIES, _ => TlbEntry(false, 0, 0, 0, 0)), tlbOn)
  }
}
