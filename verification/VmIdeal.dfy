/**
 Copy-on-write is transparent: the machine with shared frames behaves like one in which every process
 owns a private map from page numbers to permissions and a fork copies that map.
 */
module VmIdeal {
  import opened Seqs
  import opened VmModel
  import opened VmInvariants
  import opened VmTlb

  // ----- The reference machine -----

  /** Page number to permission. */
  type Space = map<nat, nat>

  datatype Ideal = Ideal(spaces: seq<Space>, pids: seq<nat>, cur: nat, queue: seq<nat>)

  ghost predicate IdealShape(i: Ideal) {
    && |i.pids| == |i.spaces| && i.cur < |i.spaces|
    && forall k :: 0 <= k < |i.queue| ==> i.queue[k] < |i.spaces|
  }

  /** What a command reports, frames aside. */
  datatype Report = Done | Already | Absent | NoAccess | Full | Bogus | Crash

  function IdealFind(pids: seq<nat>, queue: seq<nat>, pid: nat, k: nat): (r: Option<nat>)
    requires forall j :: 0 <= j < |queue| ==> queue[j] < |pids|
    ensures r.Some? ==> k <= r.value < |queue|
    decreases |queue| - k
  {
    if k >= |queue| then None else if pids[queue[k]] == pid then Some(k) else IdealFind(pids, queue, pid, k + 1)
  }

  function IdealStep(i: Ideal, c: Command): (r: (Ideal, Report))
    requires IdealShape(i)
    ensures IdealShape(r.0)
  {
    var space: Space := i.spaces[i.cur];
    match c
    case Alloc(v, rw) =>
      if v in space then (i, Already) else (i.(spaces := i.spaces[i.cur := space[v := rw]]), Done)
    case Free(v) =>
      if v !in space then (i, Absent) else (i.(spaces := i.spaces[i.cur := space - {v}]), Done)
    case Access(v, rw) =>
      (i, if v in space && (Writes(rw) ==> Writes(space[v])) then Done else NoAccess)
    case Switch(pid) =>
      var found := IdealFind(i.pids, i.queue, pid, 0);
      if found.Some? then
        (i.(cur := i.queue[found.value], queue := RemoveAt(i.queue, found.value)), Done)
      else
        (Ideal(i.spaces + [space], i.pids + [pid], |i.spaces|, i.queue + [i.cur]), Done)
  }

  // ----- What the machine means -----

  ghost function SpaceOf(p: Proc): Space
    requires TableShape(p)
  {
    map v: nat | 0 <= v < NR_PAGES && Lookup(p, v).valid :: Lookup(p, v).priv
  }

  ghost function Meaning(s: State): (i: Ideal)
    requires Shape(s)
    ensures IdealShape(i) && |i.spaces| == |s.procs|
  {
    Ideal(seq(|s.procs|, p requires 0 <= p < |s.procs| => SpaceOf(s.procs[p])),
          seq(|s.procs|, p requires 0 <= p < |s.procs| => s.procs[p].pid), s.cur, s.queue)
  }

  function View(o: Outcome): Report {
    match o
    case Allocated(_) => Done
    case AlreadyAllocated(_) => Already
    case MemoryFull => Full
    case Freed(_) => Done
    case NotAllocated => Absent
    case Accessed(_) => Done
    case Denied => NoAccess
    case Unserved => Bogus
    case Segfault => Crash
    case Switched => Done
  }

  /** The guard: enough memory for what the command allocates, and a directory under what it accesses. */
  predicate Safe(s: State, c: Command)
    requires Shape(s) && Legal(c)
  {
    match c
    case Alloc(v, _) => Lookup(s.procs[s.cur], v).valid || FrameLeft(s)
    case Free(_) => true
    case Access(v, rw) => HasDirectory(s.procs[s.cur], v) && (NeedsCopy(s, rw, v) ==> FrameLeft(s))
    case Switch(_) => true
  }

  /** The command does not need a copy for which there is no frame. */
  predicate Fed(s: State, c: Command)
    requires Shape(s) && Legal(c)
  {
    c.Access? && NeedsCopy(s, c.rw, c.vpn) ==> FrameLeft(s)
  }

  /** A command that is fed but not safe ends the session and changes no table. */
  lemma FedOrSafe(s: State, c: Command)
    requires PageInv(s) && Coherent(s) && Legal(c)
    ensures Safe(s, c) ==> Fed(s, c)
    ensures Fed(s, c) && !Safe(s, c) ==> Step(s, c).1 == (if c.Alloc? then MemoryFull else Segfault) && PageInv(Step(s, c).0)
  {
    if Fed(s, c) && !Safe(s, c) {
      match c {
        case Alloc(v, rw) =>
          TranslateIsWalk(s, ACCESS_READ, v);
        case Access(v, rw) =>
          TranslateIsWalk(s, rw, v);
      }
    }
    hide PageInv, Coherent, Translate, Lookup, NeedsCopy, FirstFree;
  }

  /** The command does what the reference machine does, and leaves sound tables. */
  ghost predicate Faithful(s: State, c: Command)
    requires Shape(s) && Legal(c)
  {
    var (t, o) := Step(s, c);
    PageInv(t) && (Meaning(t), View(o)) == IdealStep(Meaning(s), c)
  }

  // ----- One command -----

  /** Changing the PTE of the current process at page v changes its space at v only. */
  lemma SpaceChanges(s: State, t: State, v: nat, pte: Pte)
    requires Shape(s) && Shape(t) && v < NR_PAGES && t.cur == s.cur && t.queue == s.queue && |t.procs| == |s.procs|
    requires Tables(s.procs) && Tables(t.procs) && OnePteChanged(s.procs, t.procs, s.cur, v, pte)
    requires forall p :: 0 <= p < |s.procs| ==> t.procs[p].pid == s.procs[p].pid
    ensures var space: Space := SpaceOf(s.procs[s.cur]);
      Meaning(t) == Meaning(s).(spaces := Meaning(s).spaces[s.cur := if pte.valid then space[v := pte.priv] else space - {v}])
  {
    hide Lookup, TableShape, FramesInRange;
    var space: Space := SpaceOf(s.procs[s.cur]);
    var next: Space := if pte.valid then space[v := pte.priv] else space - {v};
    forall p | 0 <= p < |s.procs| ensures SpaceOf(t.procs[p]) == if p == s.cur then next else SpaceOf(s.procs[p]) {
      assert forall w :: 0 <= w < NR_PAGES && (p != s.cur || w != v) ==> Lookup(t.procs[p], w) == Lookup(s.procs[p], w);
    }
  }

  lemma SameSpaces(s: State, t: State)
    requires Shape(s) && Shape(t) && t.procs == s.procs && t.cur == s.cur && t.queue == s.queue
    ensures Meaning(t) == Meaning(s)
  {
  }

  lemma AllocFaithful(s: State, v: nat, rw: nat)
    requires PageInv(s) && Coherent(s) && Legal(Alloc(v, rw))
    ensures Faithful(s, Alloc(v, rw)) <==> Safe(s, Alloc(v, rw))
  {
    TranslateIsWalk(s, ACCESS_READ, v);
    TranslateCoherent(s, ACCESS_READ, v);
    var t := Translate(s, ACCESS_READ, v).0;
    assert v in SpaceOf(s.procs[s.cur]) <==> Lookup(s.procs[s.cur], v).valid;
    if Lookup(s.procs[s.cur], v).valid {
      OtherTlb(s, t.tlb);
      SameSpaces(s, t);
    } else {
      AllocKeeps(s, v, rw);
      if FrameLeft(s) {
        AllocMeaning(s, v, rw);
      }
    }
    hide PageInv, Lookup, Meaning, Coherent;
  }

  lemma AllocMeaning(s: State, v: nat, rw: nat)
    requires PageInv(s) && v < NR_PAGES && FrameLeft(s)
    ensures var space: Space := SpaceOf(s.procs[s.cur]);
      Meaning(AllocPage(s, v, rw).0) == Meaning(s).(spaces := Meaning(s).spaces[s.cur := space[v := rw]])
  {
    var f := FirstFree(s.mapcounts, 0).value;
    var u := s.(mapcounts := s.mapcounts[f := s.mapcounts[f] + 1]);
    var pte := Pte(true, rw, f, rw);
    WithPteChanges(u, v, pte);
    hide PageInv, Lookup, Meaning;
    SpaceChanges(u, WithPte(u, v, pte), v, pte);
    SameSpaces(s, u);
  }

  lemma FreeSteps(s: State, v: nat)
    requires PageInv(s) && Coherent(s) && v < NR_PAGES
    ensures var t := Translate(s, ACCESS_READ, v).0;
      && PageInv(t) && Coherent(t) && t.procs == s.procs && t.cur == s.cur && Meaning(t) == Meaning(s)
      && if Lookup(s.procs[s.cur], v).valid
         then Step(s, Free(v)) == (FreePage(t, v), Freed(Lookup(s.procs[s.cur], v).pfn))
         else Step(s, Free(v)) == (t, NotAllocated)
  {
    TranslateIsWalk(s, ACCESS_READ, v);
    TranslateCoherent(s, ACCESS_READ, v);
    var t := Translate(s, ACCESS_READ, v).0;
    OtherTlb(s, t.tlb);
    SameSpaces(s, t);
    hide PageInv, Coherent, Meaning, FreePage, Translate;
  }

  lemma InSpace(p: Proc, v: nat)
    requires TableShape(p) && v < NR_PAGES
    ensures v in SpaceOf(p) <==> Lookup(p, v).valid
    ensures v in SpaceOf(p) ==> SpaceOf(p)[v] == Lookup(p, v).priv
  {
    hide Lookup, TableShape;
  }

  lemma FreeFaithful(s: State, v: nat)
    requires PageInv(s) && Coherent(s) && v < NR_PAGES
    ensures Faithful(s, Free(v))
  {
    FreeSteps(s, v);
    InSpace(s.procs[s.cur], v);
    var t := Translate(s, ACCESS_READ, v).0;
    if Lookup(s.procs[s.cur], v).valid {
      FreeKeeps(t, v);
      FreeMeaning(t, v);
    }
    hide PageInv, Coherent, Step, FreePage, Translate, Lookup, SpaceOf, TableShape, FramesInRange;
  }

  lemma FreeMeaning(s: State, v: nat)
    requires PageInv(s) && v < NR_PAGES && Lookup(s.procs[s.cur], v).valid
    ensures var space: Space := SpaceOf(s.procs[s.cur]);
      Meaning(FreePage(s, v)) == Meaning(s).(spaces := Meaning(s).spaces[s.cur := space - {v}])
  {
    var f := Lookup(s.procs[s.cur], v).pfn;
    var u := s.(mapcounts := s.mapcounts[f := Decrement(s.mapcounts[f])], tlb := EvictTlb(s.tlb, v, 0));
    WithPteChanges(u, v, NO_PTE);
    hide PageInv, Lookup, Meaning;
    SpaceChanges(u, WithPte(u, v, NO_PTE), v, NO_PTE);
    SameSpaces(s, u);
  }

  // ----- Accesses -----

  /** What the reference machine answers, read off the page table. */
  lemma IdealAccess(s: State, v: nat, rw: nat)
    requires PageInv(s) && Legal(Access(v, rw))
    ensures var pte := Lookup(s.procs[s.cur], v);
      IdealStep(Meaning(s), Access(v, rw)) ==
        (Meaning(s), if pte.valid && (Writes(rw) ==> Writes(pte.priv)) then Done else NoAccess)
  {
    InSpace(s.procs[s.cur], v);
    hide PageInv, Lookup;
  }

  /** An access the page table allows. */
  lemma AllowedFaithful(s: State, v: nat, rw: nat)
    requires PageInv(s) && Coherent(s) && Legal(Access(v, rw)) && Walk(s, rw, v).Some?
    ensures Faithful(s, Access(v, rw))
  {
    TranslateIsWalk(s, rw, v);
    TranslateCoherent(s, rw, v);
    var t := Translate(s, rw, v).0;
    OtherTlb(s, t.tlb);
    SameSpaces(s, t);
    IdealAccess(s, v, rw);
    assert PteOk(Lookup(s.procs[s.cur], v));
    hide PageInv, Coherent, Lookup, Meaning, IdealStep, Translate;
  }

  /** An access that neither the table nor the fault handler allows. */
  lemma RefusedFaithful(s: State, v: nat, rw: nat)
    requires PageInv(s) && Coherent(s) && Legal(Access(v, rw)) && Walk(s, rw, v).None? && !Upgradable(s, rw, v)
    ensures Faithful(s, Access(v, rw)) <==> HasDirectory(s.procs[s.cur], v)
  {
    TranslateIsWalk(s, rw, v);
    IdealAccess(s, v, rw);
    assert PteOk(Lookup(s.procs[s.cur], v));
    hide PageInv, Coherent, Lookup, Meaning, IdealStep, Translate;
    assert AccessRound(s, v, rw, 0) ==
      if HasDirectory(s.procs[s.cur], v) then (s, Denied) else (s, Segfault);
  }

  /** Resolving an upgrade changes no process's meaning. */
  lemma UpgradeMeaning(s: State, v: nat, rw: nat)
    requires PageInv(s) && Coherent(s) && Legal(Access(v, rw)) && Upgradable(s, rw, v)
    requires NeedsCopy(s, rw, v) ==> FrameLeft(s)
    ensures Meaning(Retried(s, rw, v)) == Meaning(s)
  {
    ResolvedFacts(s, rw, v);
    InSpace(s.procs[s.cur], v);
    assert PteOk(Lookup(s.procs[s.cur], v));
    var t := Resolved(s, rw, v);
    hide PageInv, Coherent, Lookup, Resolved, SpaceOf, Meaning;
    SpaceChanges(s, t, v, Lookup(t.procs[t.cur], v));
    SameSpaces(t, Retried(s, rw, v));
    var space: Space := SpaceOf(s.procs[s.cur]);
    assert space[v := ACCESS_BOTH] == space;
    SpacesAt(s, s.cur);
    assert Meaning(s).spaces[s.cur := space] == Meaning(s).spaces;
  }

  lemma SpacesAt(s: State, p: nat)
    requires Shape(s) && p < |s.procs|
    ensures Meaning(s).spaces[p] == SpaceOf(s.procs[p])
  {
  }

  /** A write that the fault handler resolves. */
  lemma UpgradeFaithful(s: State, v: nat, rw: nat)
    requires PageInv(s) && Coherent(s) && Legal(Access(v, rw)) && Upgradable(s, rw, v)
    requires NeedsCopy(s, rw, v) ==> FrameLeft(s)
    ensures Faithful(s, Access(v, rw))
  {
    hide PageInv, Coherent, Lookup, IdealStep, Step, Meaning, Retried, Shape, Upgradable, NeedsCopy, FrameLeft, View;
    UpgradablePriv(s, v, rw);
    UpgradeStep(s, v, rw);
    UpgradeMeaning(s, v, rw);
    IdealAccess(s, v, rw);
  }

  lemma UpgradeStep(s: State, v: nat, rw: nat)
    requires PageInv(s) && Coherent(s) && Legal(Access(v, rw)) && Upgradable(s, rw, v)
    requires NeedsCopy(s, rw, v) ==> FrameLeft(s)
    ensures var r := Step(s, Access(v, rw)); r.0 == Retried(s, rw, v) && View(r.1) == Done && PageInv(r.0)
  {
    hide PageInv, Coherent, AccessRound, Retried, Resolved, Lookup, NeedsCopy, FrameLeft, Upgradable;
    RetryServes(s, rw, v);
    RetryCoherent(s, rw, v);
  }

  lemma UpgradablePriv(s: State, v: nat, rw: nat)
    requires PageInv(s) && Legal(Access(v, rw)) && Upgradable(s, rw, v)
    ensures Shape(s) && Lookup(s.procs[s.cur], v).valid && Lookup(s.procs[s.cur], v).priv == ACCESS_BOTH
  {
    assert PteOk(Lookup(s.procs[s.cur], v));
  }

  /**
   A write that needs a copy when no frame is left: the handler runs twice and takes a mapping off the
   count each time, or, if only two were left, puts the write bit on the frame that is still shared.  It
   maps nothing, and the access reports success without ever having translated.
   */
  lemma CopyWithoutMemory(s: State, v: nat, rw: nat)
    requires PageInv(s) && Coherent(s) && Legal(Access(v, rw)) && NeedsCopy(s, rw, v) && !FrameLeft(s)
    ensures Step(s, Access(v, rw)).1 == Unserved
    ensures !Faithful(s, Access(v, rw))
    ensures var t := Step(s, Access(v, rw)).0;
      var pte := Lookup(s.procs[s.cur], v);
      && t.mapcounts == s.mapcounts[pte.pfn := if s.mapcounts[pte.pfn] > 2 then s.mapcounts[pte.pfn] - 2 else 1]
      && Tables(t.procs) && OnePteChanged(s.procs, t.procs, s.cur, v, pte.(rw := if s.mapcounts[pte.pfn] > 2 then pte.rw else ACCESS_BOTH))
      && t.mapcounts[pte.pfn] < |Mappings(t.procs, pte.pfn)|
  {
    assert Shape(s) && Upgradable(s, rw, v);
    hide PageInv, Coherent, HandleFault, NeedsCopy, FrameLeft, Shape, LookupTlb, Translate, Meaning, IdealStep, Upgradable,
         OnePteChanged, Mappings;
    var u := Lowered(s, v);
    StarvedFault(s, v, rw);
    StaleEntryMisses(s, rw, v, s);
    StarvedTranslate(s, v, rw, u.mapcounts);
    StarvedRounds(s, v, rw, u);
    NeverBogus(Meaning(s), Access(v, rw));
    StarvedCounts(s, v, rw);
  }

  /** One mapping taken off the count of the frame of page v. */
  function Lowered(s: State, v: nat): (u: State)
    requires Shape(s) && v < NR_PAGES
    ensures Shape(u)
  {
    var f := Lookup(s.procs[s.cur], v).pfn;
    s.(mapcounts := s.mapcounts[f := if s.mapcounts[f] == 0 then 0 else s.mapcounts[f] - 1])
  }

  lemma StarvedRounds(s: State, v: nat, rw: nat, u: State)
    requires Shape(s) && Shape(u) && v < NR_PAGES && Translate(s, rw, v) == (s, None)
    requires HandleFault(s, v, rw) == (u, Handled) && Translate(u, rw, v) == (u, None)
    requires HandleFault(u, v, rw).1 == Handled
    ensures AccessRound(s, v, rw, 0) == (HandleFault(u, v, rw).0, Unserved)
  {
    hide HandleFault, Translate, Shape;
    assert AccessRound(s, v, rw, 0) == AccessRound(u, v, rw, 1);
  }

  /** The second run of the handler, seen in the tables and the counts. */
  lemma StarvedCounts(s: State, v: nat, rw: nat)
    requires PageInv(s) && v < NR_PAGES && NeedsCopy(s, rw, v) && !FrameLeft(s)
    ensures var t := HandleFault(Lowered(s, v), v, rw).0;
      var pte := Lookup(s.procs[s.cur], v);
      && t.mapcounts == s.mapcounts[pte.pfn := if s.mapcounts[pte.pfn] > 2 then s.mapcounts[pte.pfn] - 2 else 1]
      && Tables(t.procs) && OnePteChanged(s.procs, t.procs, s.cur, v, pte.(rw := if s.mapcounts[pte.pfn] > 2 then pte.rw else ACCESS_BOTH))
      && t.mapcounts[pte.pfn] < |Mappings(t.procs, pte.pfn)|
  {
    var pte := Lookup(s.procs[s.cur], v);
    var f := pte.pfn;
    var next := pte.(rw := if s.mapcounts[f] > 2 then pte.rw else ACCESS_BOTH);
    var t := HandleFault(Lowered(s, v), v, rw).0;
    assert s.mapcounts[f] == |Mappings(s.procs, f)| && Maps(s.procs[s.cur], v, f);
    StarvedTwice(s, v, rw);
    if s.mapcounts[f] > 2 {
      assert next == pte;
    } else {
      WithPteChanges(Lowered(s, v), v, next);
    }
    hide PageInv, NeedsCopy, FrameLeft, HandleFault, Lookup, Mappings, WithPte;
    assert OnePteChanged(s.procs, t.procs, s.cur, v, next);
    CountChange(s.procs, t.procs, s.cur, v, next, f);
  }

  lemma StarvedTwice(s: State, v: nat, rw: nat)
    requires Shape(s) && v < NR_PAGES && NeedsCopy(s, rw, v) && !FrameLeft(s)
    ensures HandleFault(Lowered(s, v), v, rw) == (
      if s.mapcounts[Lookup(s.procs[s.cur], v).pfn] > 2 then Lowered(Lowered(s, v), v)
      else WithPte(Lowered(s, v), v, Lookup(s.procs[s.cur], v).(rw := ACCESS_BOTH)), Handled)
  {
    var u := Lowered(s, v);
    var f := Lookup(s.procs[s.cur], v).pfn;
    SameFirstFree(s.mapcounts, f, 0);
    if s.mapcounts[f] > 2 {
      SameFirstFree(u.mapcounts, f, 0);
    }
    hide Lookup, FirstFree, TableShape, WithPte;
  }

  lemma NeverBogus(i: Ideal, c: Command)
    requires IdealShape(i)
    ensures IdealStep(i, c).1 != Bogus && IdealStep(i, c).1 != Crash && IdealStep(i, c).1 != Full
  {
  }

  lemma StarvedTranslate(s: State, v: nat, rw: nat, counts: seq<nat>)
    requires Shape(s) && v < NR_PAGES && Upgradable(s, rw, v) && LegalAccess(rw) && |counts| == NR_PAGEFRAMES
    requires LookupTlb(s.tlb, v, rw, 0).None?
    ensures Translate(s, rw, v) == (s, None)
    ensures var u := s.(mapcounts := counts); Shape(u) && Translate(u, rw, v) == (u, None)
  {
    hide Lookup, LookupTlb, TableShape, FramesInRange;
  }

  /** The handler gives a mapping away and gets no frame for it, once and again. */
  lemma StarvedFault(s: State, v: nat, rw: nat)
    requires Shape(s) && v < NR_PAGES && NeedsCopy(s, rw, v) && !FrameLeft(s)
    ensures HandleFault(s, v, rw) == (Lowered(s, v), Handled) && HandleFault(Lowered(s, v), v, rw).1 == Handled
  {
    SameFirstFree(s.mapcounts, Lookup(s.procs[s.cur], v).pfn, 0);
    StarvedTwice(s, v, rw);
    hide Lookup, FirstFree, TableShape;
  }

  lemma AccessFaithful(s: State, v: nat, rw: nat)
    requires PageInv(s) && Coherent(s) && Legal(Access(v, rw))
    ensures Faithful(s, Access(v, rw)) <==> Safe(s, Access(v, rw))
  {
    assert Shape(s);
    hide PageInv, Coherent, Faithful;
    if Walk(s, rw, v).Some? {
      AllowedFaithful(s, v, rw);
      AllowedUnupgradable(s, v, rw);
    } else if !Upgradable(s, rw, v) {
      RefusedFaithful(s, v, rw);
    } else if NeedsCopy(s, rw, v) && !FrameLeft(s) {
      CopyWithoutMemory(s, v, rw);
    } else {
      UpgradeFaithful(s, v, rw);
    }
  }

  lemma AllowedUnupgradable(s: State, v: nat, rw: nat)
    requires Shape(s) && Legal(Access(v, rw)) && Walk(s, rw, v).Some?
    ensures !NeedsCopy(s, rw, v) && HasDirectory(s.procs[s.cur], v)
  {
  }

  // ----- Switches -----

  lemma {:induction false} SameFind(s: State, k: nat)
    requires Shape(s)
    ensures forall pid :: FindPid(s.procs, s.queue, pid, k) == IdealFind(Meaning(s).pids, s.queue, pid, k)
    decreases |s.queue| - k
  {
    hide TableShape, FramesInRange, SpaceOf;
    if k < |s.queue| {
      SameFind(s, k + 1);
    }
  }

  lemma ForkMeaning(s: State, pid: nat)
    requires PageInv(s)
    ensures Meaning(Fork(s, pid)) ==
      Ideal(Meaning(s).spaces + [Meaning(s).spaces[s.cur]], Meaning(s).pids + [pid], |Meaning(s).spaces|, s.queue + [s.cur])
  {
    assert Shape(s);
    hide PageInv, Lookup, TableShape, FramesInRange, Fork, SpaceOf, Share, Inherit, Shape;
    var t := Fork(s, pid);
    ForkTables(s, pid);
    ForkFields(s, pid);
    SpacesAt(s, s.cur);
    forall p | 0 <= p < |t.procs| ensures SpaceOf(t.procs[p]) == SpaceOf(s.procs[if p == |s.procs| then s.cur else p]) {
      SameSpace(s.procs[if p == |s.procs| then s.cur else p], t.procs[p]);
    }
    MeaningGrows(s, t, pid);
  }

  lemma MeaningGrows(s: State, t: State, pid: nat)
    requires Shape(s) && Shape(t) && |t.procs| == |s.procs| + 1 && t.procs[|s.procs|].pid == pid
    requires forall p :: 0 <= p < |s.procs| ==> t.procs[p].pid == s.procs[p].pid
    requires forall p :: 0 <= p < |t.procs| ==>
      SpaceOf(t.procs[p]) == SpaceOf(s.procs[if p == |s.procs| then s.cur else p])
    ensures Meaning(t).spaces == Meaning(s).spaces + [Meaning(s).spaces[s.cur]] && Meaning(t).pids == Meaning(s).pids + [pid]
  {
    hide SpaceOf, TableShape, FramesInRange;
  }

  lemma ForkFields(s: State, pid: nat)
    requires Shape(s)
    ensures var t := Fork(s, pid);
      && |t.procs| == |s.procs| + 1 && t.cur == |s.procs| && t.queue == s.queue + [s.cur] && t.procs[|s.procs|].pid == pid
      && forall p :: 0 <= p < |s.procs| ==> t.procs[p].pid == s.procs[p].pid
  {
  }

  lemma SameSpace(p: Proc, q: Proc)
    requires TableShape(p) && TableShape(q)
    requires forall v :: 0 <= v < NR_PAGES ==>
      Lookup(q, v) == Lookup(p, v) || Lookup(q, v) == Share(Lookup(p, v)) || Lookup(q, v) == Inherit(Lookup(p, v))
    ensures SpaceOf(q) == SpaceOf(p)
  {
    hide Lookup, TableShape;
  }

  lemma SwitchMeaning(s: State, pid: nat)
    requires PageInv(s)
    ensures (Meaning(DoSwitch(s, pid)), Done) == IdealStep(Meaning(s), Switch(pid))
  {
    SameFind(s, 0);
    ForkMeaning(s, pid);
    hide PageInv, Lookup, FindPid, IdealFind, RemoveAt, SpaceOf, TableShape, FramesInRange;
    var t := DoSwitch(s, pid);
    var found := FindPid(s.procs, s.queue, pid, 0);
    if found.Some? {
      var u := s.(cur := s.queue[found.value], queue := RemoveAt(s.queue, found.value));
      assert t == u.(tlb := FlushTlb(u.tlb));
      assert Meaning(t) == Meaning(s).(cur := u.cur, queue := u.queue);
    } else {
      var u := Fork(s, pid);
      hide Fork;
      SameSpaces(u, u.(tlb := FlushTlb(u.tlb)));
    }
  }

  lemma SwitchFaithful(s: State, pid: nat)
    requires PageInv(s)
    ensures Faithful(s, Switch(pid))
  {
    SwitchKeeps(s, pid);
    SwitchMeaning(s, pid);
    hide PageInv, DoSwitch, Meaning, IdealStep;
  }

  /** The main theorem, one command: the machine does what the reference machine does exactly when the guard holds. */
  lemma StepFaithful(s: State, c: Command)
    requires PageInv(s) && Coherent(s) && Legal(c)
    ensures Faithful(s, c) <==> Safe(s, c)
  {
    hide Faithful, PageInv, Coherent;
    match c {
      case Alloc(v, rw) => AllocFaithful(s, v, rw);
      case Free(v) => FreeFaithful(s, v);
      case Access(v, rw) => AccessFaithful(s, v, rw);
      case Switch(pid) => SwitchFaithful(s, pid);
    }
  }
}
