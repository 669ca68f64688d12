/** The framework's guarantees in the words of a user, at every tick boundary of every run. */
module SchedSafety {
  import opened Seqs
  import opened SchedModel
  import opened SchedInvariants
  import opened SchedRuns

  // ----- Conservation of processes -----

  function Count(b: bool): nat {
    if b then 1 else 0
  }

  /** In how many places a process is: fork queue, ready queue, wait queues, processor, exited. */
  ghost function Places(s: State, i: nat): nat
    requires Shape(s) && i < |s.procs|
  {
    Count(i in s.fork) + Count(i in s.ready) + |set r | 0 <= r < NR_RESOURCES && i in s.wait[r]|
    + Count(s.cur == Some(i) && s.procs[i].status == Running) + Count(s.procs[i].status == Exited)
  }

  /** No process is lost or duplicated. */
  lemma Conserved(plan: seq<Proc>, s: State, i: nat)
    requires Inv(plan, s) && i < |s.procs|
    ensures Shape(s) && Places(s, i) == 1
    ensures NoDup(s.fork) && NoDup(s.ready) && forall r :: 0 <= r < NR_RESOURCES ==> NoDup(s.wait[r])
  {
    hide Locals, Owners, Wants, NoDup, NoLostWakeup, ForkDue, Shape, WellFormed;
    SettledShape(plan, s);
    ForkedAreReady(plan, s);
    WaitsInOnePlace(plan, s, i);
    assert InPlace(s, i);
  }

  /** A process waits for one resource if it is blocked, and for none otherwise. */
  lemma WaitsInOnePlace(plan: seq<Proc>, s: State, i: nat)
    requires Shape(s) && |plan| == |s.procs| && Queues(plan, s) && Placed(s) && i < |s.procs|
    ensures |set r | 0 <= r < NR_RESOURCES && i in s.wait[r]| == Count(s.procs[i].status == Blocked)
  {
    hide Wants, NoDup;
    var waits := set r | 0 <= r < NR_RESOURCES && i in s.wait[r];
    assert InPlace(s, i);
    if s.procs[i].status == Blocked {
      assert waits == {Wants(s.procs[i]).value};
    } else {
      assert waits == {};
    }
  }

  // ----- Ownership on schedule -----

  /** A scripted request at an age at which it should be served, unless it is still pending at that age. */
  ghost predicate Served(p0: Proc, p: Proc, q: Request) {
    q in p0.pending && q.at <= p.age < q.at + q.dur && (p.age == q.at ==> q !in p.pending)
  }

  /** Process p may hold resource r: the script asks for it at this age. */
  ghost predicate AsksFor(p0: Proc, p: Proc, r: nat) {
    exists x :: x in p0.pending && x.rid == r && x.at <= p.age < x.at + x.dur
  }

  /**
   A resource scripted from age `q.at` for `q.dur` ticks is owned by its process at every age in between,
   at age `q.at` itself as soon as the request is no longer pending; and a resource is owned at any time
   only under some such request: nothing is kept longer than asked.
   */
  lemma OwnedOnSchedule(plan: seq<Proc>, s: State, i: nat, q: Request)
    requires Inv(plan, s) && i < |s.procs|
    ensures Shape(s) && |plan| == |s.procs|
    ensures Served(plan[i], s.procs[i], q) ==> q.rid < NR_RESOURCES && s.owner[q.rid] == Some(i)
    ensures forall r :: 0 <= r < NR_RESOURCES && s.owner[r] == Some(i) ==> AsksFor(plan[i], s.procs[i], r)
  {
    hide Queues, Placed, NoLostWakeup, ForkDue, PendingOnTime, Shape, HeldOnTime, Accounted, Origin, Aged, WellFormedProc;
    InvShape(plan, s);
    var p := s.procs[i];
    assert LocalInv(plan[i], p, |p.holding|);
    hide Locals, AsksFor;
    OnSchedule(plan[i], p, q);
    if Served(plan[i], p, q) {
      assert WellFormedProc(plan[i]);
      ScriptedRid(plan[i], q);
      assert Holds(p, q.rid);
    }
    forall r | 0 <= r < NR_RESOURCES && s.owner[r] == Some(i) ensures AsksFor(plan[i], p, r) {
      assert Holds(p, r);
    }
  }

  lemma ScriptedRid(p0: Proc, q: Request)
    requires WellFormedProc(p0) && q in p0.pending
    ensures q.rid < NR_RESOURCES
  {
  }

  /** One process: what it holds, seen from its script. */
  lemma OnSchedule(p0: Proc, p: Proc, q: Request)
    requires LocalInv(p0, p, |p.holding|)
    ensures Served(p0, p, q) ==> Holds(p, q.rid)
    ensures forall r :: Holds(p, r) ==> AsksFor(p0, p, r)
  {
    hide PendingOnTime, Aged, Origin, AsksFor;
    HeldDurations(p0, p, |p.holding|);
    AllAged(p.holding);
    HeldIsScripted(p0, p);
    hide HeldOnTime;
    if Served(p0, p, q) {
      assert q in p.holding || q.(dur := q.at + q.dur - p.age) in p.holding;
    }
  }

  lemma HeldIsScripted(p0: Proc, p: Proc)
    requires HeldOnTime(p0, p, |p.holding|)
    ensures forall r :: Holds(p, r) ==> AsksFor(p0, p, r)
  {
    HeldDurations(p0, p, |p.holding|);
    AllAged(p.holding);
    hide Aged;
    forall r | Holds(p, r) ensures AsksFor(p0, p, r) {
      var k :| 0 <= k < |p.holding| && p.holding[k].rid == r;
      assert Origin(p.holding[k], p.age) in p0.pending;
    }
  }

  // ----- Wake-ups -----

  /**
   No wake-up is lost: a free resource with waiters has a ready process whose next request is that
   resource, and every waiter waits for its own first pending request.
   */
  lemma WakeupsAreSafe(plan: seq<Proc>, s: State, r: nat)
    requires Inv(plan, s) && r < NR_RESOURCES
    ensures Shape(s)
    ensures s.owner[r].None? && s.wait[r] != [] ==>
      exists w :: w in s.ready && s.procs[w].status == Ready && Wants(s.procs[w]) == Some(r)
    ensures forall i :: i in s.wait[r] ==> s.procs[i].status == Blocked && Wants(s.procs[i]) == Some(r)
  {
    hide Locals, Owners, Placed, Wants, NoDup;
    if s.owner[r].None? && s.wait[r] != [] {
      var w :| w in s.ready && Wants(s.procs[w]) == Some(r);
      assert s.procs[w].status == Ready;
    }
  }

  /** All of it, at every tick boundary of every run of every well-formed script under every policy. */
  lemma SafeAlways(pol: Policy, plan: seq<Proc>, n: nat, i: nat, q: Request, r: nat)
    requires WellFormed(plan) && i < |plan| && r < NR_RESOURCES
    ensures Shape(Initial(plan))
    ensures var s := After(pol, Initial(plan), n);
      && |s.procs| == |plan|
      && Places(s, i) == 1 && NoDup(s.fork) && NoDup(s.ready) && NoDup(s.wait[r])
      && (Served(plan[i], s.procs[i], q) ==> q.rid < NR_RESOURCES && s.owner[q.rid] == Some(i))
      && (s.owner[r] == Some(i) ==> AsksFor(plan[i], s.procs[i], r))
      && (i in s.wait[r] ==> s.procs[i].status == Blocked && Wants(s.procs[i]) == Some(r))
      && (s.owner[r].None? && s.wait[r] != [] ==>
            exists w :: w in s.ready && s.procs[w].status == Ready && Wants(s.procs[w]) == Some(r))
  {
    hide Inv, Shape, Places, After, Initial, Wants, Served, AsksFor, NoDup;
    InitialInv(plan);
    InvShape(plan, Initial(plan));
    InvAlways(pol, plan, Initial(plan), n);
    var s := After(pol, Initial(plan), n);
    SameSize(plan, s);
    Conserved(plan, s, i);
    OwnedOnSchedule(plan, s, i, q);
    WakeupsAreSafe(plan, s, r);
    ShapeSizes(s);
  }

  lemma SameSize(plan: seq<Proc>, s: State)
    requires Inv(plan, s)
    ensures |s.procs| == |plan|
  {
  }

  lemma ShapeSizes(s: State)
    requires Shape(s)
    ensures |s.owner| == |s.wait| == NR_RESOURCES && forall w :: w in s.ready ==> w < |s.procs|
  {
  }
}
