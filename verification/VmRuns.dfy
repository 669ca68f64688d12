/** Whole command sequences: sharing and the TLB are transparent exactly while the guards hold. */
module VmRuns {
  import opened VmModel
  import opened VmInvariants
  import opened VmTlb
  import opened VmIdeal
  import opened VmCommands

  predicate AllLegal(cs: seq<Command>) {
    forall k :: 0 <= k < |cs| ==> Legal(cs[k])
  }

  /** The command loop ends after an allocation that fails, and of course after a crash. */
  predicate Ends(o: Outcome) {
    o.AlreadyAllocated? || o.MemoryFull? || o.Segfault?
  }

  /** A run: the final state and the outcomes of the commands that were carried out. */
  function RunCommands(s: State, cs: seq<Command>): (r: (State, seq<Outcome>))
    requires Shape(s) && AllLegal(cs)
    ensures Shape(r.0)
    decreases |cs|
  {
    if cs == [] then (s, [])
    else
      var (t, o) := Step(s, cs[0]);
      if Ends(o) then (t, [o])
      else
        var (u, os) := RunCommands(t, cs[1..]);
        (u, [o] + os)
  }

  predicate IdealEnds(r: Report) {
    r == Already || r == Full || r == Crash
  }

  function RunIdeal(i: Ideal, cs: seq<Command>): (r: (Ideal, seq<Report>))
    requires IdealShape(i)
    decreases |cs|
  {
    if cs == [] then (i, [])
    else
      var (j, o) := IdealStep(i, cs[0]);
      if IdealEnds(o) then (j, [o])
      else
        var (k, os) := RunIdeal(j, cs[1..]);
        (k, [o] + os)
  }

  function Views(os: seq<Outcome>): (r: seq<Report>)
    ensures |r| == |os|
  {
    seq(|os|, k requires 0 <= k < |os| => View(os[k]))
  }

  // ----- The guards along a run -----

  /** Every command finds the memory and the directory it needs. */
  predicate AllSafe(s: State, cs: seq<Command>)
    requires Shape(s) && AllLegal(cs)
    decreases |cs|
  {
    cs != [] ==>
      Safe(s, cs[0]) && (!Ends(Step(s, cs[0]).1) ==> AllSafe(Step(s, cs[0]).0, cs[1..]))
  }

  /** Up to the first command that is not safe, no cached page is upgraded behind a hole. */
  ghost predicate HoleFree(s: State, cs: seq<Command>)
    requires Shape(s) && AllLegal(cs)
    decreases |cs|
  {
    cs != [] && Safe(s, cs[0]) ==>
      !BadUpgrade(s, cs[0]) && (!Ends(Step(s, cs[0]).1) ==> HoleFree(Step(s, cs[0]).0, cs[1..]))
  }

  /** Without the TLB there is nothing to worry about. */
  lemma {:induction false} UncachedHoleFree(s: State, cs: seq<Command>)
    requires PageInv(s) && Coherent(s) && AllLegal(cs) && !s.tlbOn
    ensures HoleFree(s, cs)
    decreases |cs|
  {
    assert Shape(s);
    hide PageInv, Coherent, Step, Safe, Fed, BadUpgrade, Faithful, Shape;
    if cs != [] && Safe(s, cs[0]) {
      UncachedNoHole(s, cs[0]);
      StepFaithful(s, cs[0]);
      FaithfulKeeps(s, cs[0]);
      FedOrSafe(s, cs[0]);
      StepCoherent(s, cs[0]);
      StepKeepsMode(s, cs[0]);
      if !Ends(Step(s, cs[0]).1) {
        UncachedHoleFree(Step(s, cs[0]).0, cs[1..]);
      }
    }
  }

  lemma UncachedNoHole(s: State, c: Command)
    requires PageInv(s) && Coherent(s) && Legal(c) && !s.tlbOn
    ensures !BadUpgrade(s, c)
  {
    hide PageInv, Lookup, Shape;
  }

  lemma FaithfulKeeps(s: State, c: Command)
    requires Shape(s) && Legal(c) && Faithful(s, c)
    ensures PageInv(Step(s, c).0) && (Meaning(Step(s, c).0), View(Step(s, c).1)) == IdealStep(Meaning(s), c)
  {
    hide PageInv, Step, Meaning, IdealStep;
  }

  lemma StepKeepsMode(s: State, c: Command)
    requires PageInv(s) && Coherent(s) && Legal(c) && Safe(s, c)
    ensures Step(s, c).0.tlbOn == s.tlbOn
  {
    assert Shape(s);
    match c {
      case Access(v, rw) =>
        hide Shape;
        AccessMode(s, v, rw, 0);
      case _ => hide Lookup, FirstFree, InsertTlb, LookupTlb, SetPte, EvictTlb, Shape;
    }
  }

  lemma AccessMode(s: State, v: nat, rw: nat, retries: nat)
    requires Shape(s) && v < NR_PAGES && retries < 2
    ensures AccessRound(s, v, rw, retries).0.tlbOn == s.tlbOn
    decreases 2 - retries
  {
    hide Lookup, FirstFree, InsertTlb, LookupTlb, SetPte, Shape;
    var t := Translate(s, rw, v).0;
    var u := HandleFault(t, v, rw).0;
    assert t.tlbOn == s.tlbOn && u.tlbOn == s.tlbOn;
    if retries + 1 < 2 {
      AccessMode(u, v, rw, retries + 1);
    }
  }

  // ----- Copy-on-write along a run -----

  /** After the first k commands, whatever k: sound tables, the reference machine's meaning and reports. */
  ghost predicate FaithfulUpTo(s: State, cs: seq<Command>, k: nat)
    requires Shape(s) && AllLegal(cs) && k <= |cs|
  {
    var (t, os) := RunCommands(s, cs[..k]);
    PageInv(t) && (Meaning(t), Views(os)) == RunIdeal(Meaning(s), cs[..k])
  }

  ghost predicate FaithfulRun(s: State, cs: seq<Command>)
    requires Shape(s) && AllLegal(cs)
  {
    forall k :: 0 <= k <= |cs| ==> FaithfulUpTo(s, cs, k)
  }

  lemma RunUnfolds(s: State, cs: seq<Command>, k: nat)
    requires Shape(s) && AllLegal(cs) && 0 < k <= |cs|
    ensures var (t, o) := Step(s, cs[0]);
      RunCommands(s, cs[..k]) ==
        if Ends(o) then (t, [o]) else (RunCommands(t, cs[1..][..k - 1]).0, [o] + RunCommands(t, cs[1..][..k - 1]).1)
  {
    assert cs[..k][0] == cs[0] && cs[..k][1..] == cs[1..][..k - 1];
    hide Step, Ends, Shape;
  }

  lemma IdealUnfolds(i: Ideal, cs: seq<Command>, k: nat)
    requires IdealShape(i) && 0 < k <= |cs|
    ensures var (j, o) := IdealStep(i, cs[0]);
      RunIdeal(i, cs[..k]) ==
        if IdealEnds(o) then (j, [o]) else (RunIdeal(j, cs[1..][..k - 1]).0, [o] + RunIdeal(j, cs[1..][..k - 1]).1)
  {
    assert cs[..k][0] == cs[0] && cs[..k][1..] == cs[1..][..k - 1];
    hide IdealStep, IdealEnds, IdealShape;
  }

  lemma ViewsOfMore(o: Outcome, os: seq<Outcome>)
    ensures Views([o] + os) == [View(o)] + Views(os) && Views([o]) == [View(o)]
  {
  }

  lemma SameEnds(o: Outcome)
    ensures IdealEnds(View(o)) == Ends(o)
  {
  }

  /** A faithful first command: the rest of the run decides. */
  lemma HeadFaithful(s: State, cs: seq<Command>, k: nat)
    requires Shape(s) && AllLegal(cs) && 0 < k <= |cs| && Faithful(s, cs[0])
    ensures FaithfulUpTo(s, cs, k) <==>
      Ends(Step(s, cs[0]).1) || FaithfulUpTo(Step(s, cs[0]).0, cs[1..], k - 1)
  {
    var (t, o) := Step(s, cs[0]);
    FaithfulKeeps(s, cs[0]);
    RunUnfolds(s, cs, k);
    IdealUnfolds(Meaning(s), cs, k);
    SameEnds(o);
    var os := RunCommands(t, cs[1..][..k - 1]).1;
    ViewsOfMore(o, os);
    hide PageInv, Step, Meaning, IdealStep, Ends, IdealEnds, View, Views, RunCommands, RunIdeal, Faithful, Shape, IdealShape;
    var rs := RunIdeal(Meaning(t), cs[1..][..k - 1]).1;
    assert [View(o)] + Views(os) == [View(o)] + rs ==> Views(os) == rs by {
      assert ([View(o)] + Views(os))[1..] == Views(os) && ([View(o)] + rs)[1..] == rs;
    }
  }

  /** A first command that is not faithful shows at once. */
  lemma HeadUnfaithful(s: State, cs: seq<Command>)
    requires Shape(s) && AllLegal(cs) && cs != [] && !Faithful(s, cs[0])
    ensures !FaithfulUpTo(s, cs, 1)
  {
    var (t, o) := Step(s, cs[0]);
    RunUnfolds(s, cs, 1);
    IdealUnfolds(Meaning(s), cs, 1);
    assert cs[1..][..0] == [];
    ViewsOfMore(o, []);
    hide PageInv, Step, Meaning, IdealStep, Ends, IdealEnds, View, Views, Shape, IdealShape;
    assert [o] + [] == [o];
    var r := IdealStep(Meaning(s), cs[0]).1;
    assert [r] + [] == [r];
  }

  lemma EmptyFaithful(s: State, cs: seq<Command>)
    requires PageInv(s) && AllLegal(cs)
    ensures FaithfulUpTo(s, cs, 0)
  {
    assert Views([]) == [];
    hide PageInv, Meaning;
  }

  /**
   The main theorem.  While no cached page is upgraded behind a hole, the machine with shared frames
   and a TLB reports after every command what the machine with private spaces reports, and stands for
   the same spaces, exactly if every command finds a free frame where it needs one and a directory
   under the page it accesses.
   */
  lemma {:induction false} SharingTransparent(s: State, cs: seq<Command>)
    requires PageInv(s) && Coherent(s) && AllLegal(cs) && HoleFree(s, cs)
    ensures FaithfulRun(s, cs) <==> AllSafe(s, cs)
    decreases |cs|
  {
    assert Shape(s);
    EmptyFaithful(s, cs);
    assert cs == [] ==> FaithfulRun(s, cs);
    hide PageInv, Coherent, Step, Safe, Fed, BadUpgrade, Faithful, FaithfulRun, FaithfulUpTo, Ends, Shape;
    if cs != [] {
      StepFaithful(s, cs[0]);
      if !Safe(s, cs[0]) {
        UnsafeHead(s, cs);
      } else {
        SafeHead(s, cs);
        if !Ends(Step(s, cs[0]).1) {
          FaithfulKeeps(s, cs[0]);
          FedOrSafe(s, cs[0]);
          StepCoherent(s, cs[0]);
          SharingTransparent(Step(s, cs[0]).0, cs[1..]);
        }
      }
    }
  }

  lemma UnsafeHead(s: State, cs: seq<Command>)
    requires Shape(s) && AllLegal(cs) && cs != [] && !Faithful(s, cs[0])
    ensures !FaithfulRun(s, cs)
  {
    HeadUnfaithful(s, cs);
    hide FaithfulUpTo, Faithful, Shape;
    assert !FaithfulUpTo(s, cs, 1);
  }

  lemma SafeHead(s: State, cs: seq<Command>)
    requires PageInv(s) && AllLegal(cs) && cs != [] && Faithful(s, cs[0])
    ensures Ends(Step(s, cs[0]).1) ==> FaithfulRun(s, cs)
    ensures !Ends(Step(s, cs[0]).1) ==> (FaithfulRun(s, cs) <==> FaithfulRun(Step(s, cs[0]).0, cs[1..]))
  {
    EmptyFaithful(s, cs);
    assert Shape(s);
    hide PageInv, Step, Faithful, FaithfulUpTo, Ends, Shape;
    var (t, o) := Step(s, cs[0]);
    forall k | 0 < k <= |cs| ensures FaithfulUpTo(s, cs, k) <==> Ends(o) || FaithfulUpTo(t, cs[1..], k - 1) {
      HeadFaithful(s, cs, k);
    }
    if !Ends(o) && FaithfulRun(s, cs) {
      forall k | 0 <= k <= |cs[1..]| ensures FaithfulUpTo(t, cs[1..], k) {
        assert FaithfulUpTo(s, cs, k + 1);
      }
    }
  }

  // ----- The TLB along a run -----

  /** No write of the session needs a copy for which there is no frame. */
  predicate AllFed(s: State, cs: seq<Command>)
    requires Shape(s) && AllLegal(cs)
    decreases |cs|
  {
    cs != [] ==>
      Fed(s, cs[0]) && (!Ends(Step(s, cs[0]).1) ==> AllFed(Step(s, cs[0]).0, cs[1..]))
  }

  /**
   The other main theorem: as long as no copy starves, every outcome, frames included, is what it is
   without the TLB, also when the session ends with full memory or a missing directory.
   */
  lemma {:induction false} TlbTransparent(s: State, cs: seq<Command>)
    requires PageInv(s) && Coherent(s) && AllLegal(cs) && HoleFree(s, cs) && AllFed(s, cs)
    ensures Shape(Off(s)) && RunCommands(Off(s), cs) == (Off(RunCommands(s, cs).0), RunCommands(s, cs).1)
    ensures PageInv(RunCommands(s, cs).0) && Coherent(RunCommands(s, cs).0)
    decreases |cs|
  {
    OffSound(s);
    assert Shape(s) && Shape(Off(s));
    hide PageInv, Coherent, Step, Safe, Fed, BadUpgrade, Faithful, Ends, Shape, Off;
    if cs != [] {
      StepOff(s, cs[0]);
      FedStep(s, cs[0]);
      if !Ends(Step(s, cs[0]).1) {
        TlbTransparent(Step(s, cs[0]).0, cs[1..]);
      }
    }
  }

  lemma FedStep(s: State, c: Command)
    requires PageInv(s) && Coherent(s) && Legal(c) && Fed(s, c) && (Safe(s, c) ==> !BadUpgrade(s, c))
    ensures PageInv(Step(s, c).0) && Coherent(Step(s, c).0)
    ensures !Safe(s, c) ==> Ends(Step(s, c).1)
  {
    assert Shape(s);
    hide PageInv, Coherent, Step, Fed, Faithful, Shape, HasDirectory, FrameLeft, NeedsCopy;
    FedOrSafe(s, c);
    StepCoherent(s, c);
    if Safe(s, c) {
      StepFaithful(s, c);
      FaithfulKeeps(s, c);
    } else {
      UnsafeNotBad(s, c);
    }
  }

  lemma UnsafeNotBad(s: State, c: Command)
    requires Shape(s) && Legal(c) && Fed(s, c) && !Safe(s, c)
    ensures !BadUpgrade(s, c)
  {
  }

  /** The theorems apply from the start. */
  lemma InitialSound(tlbOn: bool)
    ensures PageInv(Initial(tlbOn)) && Coherent(Initial(tlbOn))
    ensures Meaning(Initial(tlbOn)) == Ideal([map[]], [0], 0, [])
  {
    var s := Initial(tlbOn);
    assert forall v :: 0 <= v < NR_PAGES ==> Lookup(s.procs[0], v) == NO_PTE;
    forall f | 0 <= f < NR_PAGEFRAMES ensures Mappings(s.procs, f) == {} {
    }
    assert SpaceOf(s.procs[0]) == map[];
  }
}
