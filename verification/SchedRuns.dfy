/** Whole runs: the loop terminates for every well-formed script under every policy. */
module SchedRuns {
  import opened Seqs
  import opened SchedModel
  import opened SchedInvariants

  // ----- What a tick leaves alone -----

  /** Only status and priority of the other processes may differ. */
  ghost predicate OthersFramed(s: State, t: State)
    requires s.cur.Some?
  {
    && t.cur == s.cur && |t.procs| == |s.procs|
    && (forall i :: 0 <= i < |s.procs| && s.cur != Some(i) ==>
      t.procs[i] == s.procs[i].(status := t.procs[i].status, prio := t.procs[i].prio))
  }

  lemma AcquireFrame(pol: Policy, s: State, r: nat)
    requires Shape(s) && s.cur.Some? && r < NR_RESOURCES
    ensures OthersFramed(s, Acquire(pol, s, r).0)
  {
  }

  lemma {:induction false} AcquireFromFrame(pol: Policy, s: State, k: nat)
    requires Shape(s) && s.cur.Some?
    ensures OthersFramed(s, AcquireFrom(pol, s, k).0)
    decreases |s.procs[s.cur.value].pending| - k
  {
    var c := s.cur.value;
    if k < |s.procs[c].pending| {
      if s.procs[c].pending[k].at != s.procs[c].age {
        AcquireFromFrame(pol, s, k + 1);
      } else {
        var (t, ok) := Acquire(pol, s, s.procs[c].pending[k].rid);
        AcquireFrame(pol, s, s.procs[c].pending[k].rid);
        hide Acquire;
        if ok {
          AcquireFromFrame(pol, t.(procs := t.procs[c := MovePending(t.procs[c], k)]), k);
        }
      }
    }
  }

  lemma ReleaseFrame(pol: Policy, s: State, r: nat)
    requires Shape(s) && s.cur.Some? && r < NR_RESOURCES
    ensures OthersFramed(s, Release(pol, s, r))
  {
    hide FirstMax, RemoveAt;
  }

  lemma {:induction false} ReleaseFromFrame(pol: Policy, s: State, k: nat)
    requires Shape(s) && s.cur.Some?
    ensures OthersFramed(s, ReleaseFrom(pol, s, k))
    decreases |s.procs[s.cur.value].holding| - k
  {
    var h := s.procs[s.cur.value].holding;
    if k < |h| {
      var h' := h[k := h[k].(dur := Decrement(h[k].dur))];
      if h'[k].dur != 0 {
        ReleaseFromFrame(pol, SetHolding(s, h'), k + 1);
      } else {
        var u := Release(pol, SetHolding(s, h'), h[k].rid);
        ReleaseFrame(pol, SetHolding(s, h'), h[k].rid);
        hide Release;
        ReleaseFromFrame(pol, SetHolding(u, RemoveAt(h', k)), k);
      }
    }
  }

  lemma ExecuteFrame(pol: Policy, s: State)
    requires Shape(s) && s.cur.Some?
    ensures OthersFramed(s, Execute(pol, s))
  {
    AcquireFromFrame(pol, s, 0);
    var (t, ok) := AcquireFrom(pol, s, 0);
    if ok {
      ReleaseFromFrame(pol, AgeCurrent(t), 0);
    }
  }

  // ----- The measure -----

  function Left(p: Proc): nat {
    if p.age < p.lifespan then p.lifespan - p.age else 0
  }

  /** Lifetime left, over all processes. */
  function TotalLeft(procs: seq<Proc>): nat {
    if procs == [] then 0 else TotalLeft(procs[..|procs| - 1]) + Left(procs[|procs| - 1])
  }

  function LatestStart(plan: seq<Proc>): (m: nat)
    ensures forall i :: 0 <= i < |plan| ==> plan[i].start <= m
  {
    if plan == [] then 0
    else
      var m := LatestStart(plan[..|plan| - 1]);
      if m < plan[|plan| - 1].start then plan[|plan| - 1].start else m
  }

  function ForkTicksLeft(plan: seq<Proc>, ticks: nat): nat {
    if LatestStart(plan) + 1 > ticks then LatestStart(plan) + 1 - ticks else 0
  }

  function RunnableCount(s: State): nat
    requires Shape(s)
  {
    |s.ready| + if Runnable(s) then 1 else 0
  }

  lemma {:induction false} TotalLeftSame(ps: seq<Proc>, qs: seq<Proc>)
    requires |ps| == |qs| && forall i :: 0 <= i < |ps| ==> Left(ps[i]) == Left(qs[i])
    ensures TotalLeft(ps) == TotalLeft(qs)
  {
    if ps != [] {
      TotalLeftSame(ps[..|ps| - 1], qs[..|qs| - 1]);
    }
  }

  lemma {:induction false} TotalLeftDrops(ps: seq<Proc>, qs: seq<Proc>, c: nat)
    requires |ps| == |qs| && c < |ps| && Left(qs[c]) < Left(ps[c])
    requires forall i :: 0 <= i < |ps| && i != c ==> Left(ps[i]) == Left(qs[i])
    ensures TotalLeft(qs) < TotalLeft(ps)
  {
    var last := |ps| - 1;
    if c == last {
      TotalLeftSame(ps[..last], qs[..last]);
    } else {
      TotalLeftDrops(ps[..last], qs[..last], c);
    }
  }

  // ----- Each tick decreases it -----

  lemma ScheduleCounts(s: State, u: State)
    requires Shape(s) && ScheduleContract(s, u)
    ensures u.cur.Some? ==> |u.ready| + 1 == RunnableCount(s)
  {
  }

  /** `u` differs from `s` in statuses and priorities of processes only. */
  ghost predicate SameProgress(ps: seq<Proc>, us: seq<Proc>) {
    && |us| == |ps|
    && forall i :: 0 <= i < |ps| ==> us[i] == ps[i].(status := us[i].status, prio := us[i].prio)
  }

  lemma LaunchFrame(s: State, u: State)
    requires Shape(s) && Shape(u) && SameButPrio(s.procs, u.procs)
    ensures SameProgress(s.procs, Launch(s, u).procs)
    ensures Launch(s, u).ready == u.ready && Launch(s, u).fork == u.fork && Launch(s, u).cur == u.cur
    ensures Launch(s, u).wait == u.wait && Launch(s, u).owner == u.owner
  {
  }

  /** A scheduling decision changes statuses and priorities only. */
  lemma ChosenFrame(pol: Policy, plan: seq<Proc>, s: State)
    requires Inv(plan, s)
    ensures var u := Chosen(pol, s);
      && SameProgress(s.procs, u.procs)
      && (u.cur.Some? && u.fork == s.fork ==> |u.ready| + 1 == RunnableCount(s))
      && (forall i :: i in u.fork ==> i in s.fork)
  {
    hide ForkFrom, Locals, Queues, Placed, Owners, NoLostWakeup, Keys, FirstMax, Schedule, Launch;
    ForkFromKeeps(plan, s, 0);
    ForkFromCounts(s, 0);
    var f := ForkFrom(s, 0);
    ScheduleMeetsContract(pol, f);
    var u := Schedule(pol, f);
    ScheduleCounts(f, u);
    LaunchFrame(f, u);
    assert Chosen(pol, s) == Launch(f, u) by {
      ChosenIsLaunch(pol, s);
    }
  }

  lemma ChosenIsLaunch(pol: Policy, s: State)
    requires Shape(s)
    ensures var f := ForkFrom(s, 0); Chosen(pol, s) == Launch(f, Schedule(pol, f))
  {
  }

  lemma {:induction false} ForkFromCounts(s: State, k: nat)
    requires Shape(s)
    ensures var t := ForkFrom(s, k);
      && |t.fork| <= |s.fork| && (|t.fork| == |s.fork| ==> t == s)
      && (forall i :: i in t.fork ==> i in s.fork)
    decreases |s.fork| - k
  {
    if k < |s.fork| {
      var i := s.fork[k];
      if s.procs[i].start <= s.ticks {
        var u := s.(fork := RemoveAt(s.fork, k), ready := s.ready + [i], procs := s.procs[i := s.procs[i].(status := Ready)]);
        ForkFromCounts(u, k);
        forall x | x in u.fork ensures x in s.fork {
          var j :| 0 <= j < |u.fork| && u.fork[j] == x;
          assert s.fork[if j < k then j else j + 1] == x;
        }
      } else {
        ForkFromCounts(s, k + 1);
      }
    }
  }

  lemma ForkKeepsResources(s: State, k: nat)
    requires Shape(s)
    ensures ForkFrom(s, k).wait == s.wait && ForkFrom(s, k).owner == s.owner
    decreases |s.fork| - k
  {
    if k < |s.fork| {
      var i := s.fork[k];
      if s.procs[i].start <= s.ticks {
        ForkKeepsResources(s.(fork := RemoveAt(s.fork, k), ready := s.ready + [i], procs := s.procs[i := s.procs[i].(status := Ready)]), k);
      } else {
        ForkKeepsResources(s, k + 1);
      }
    }
  }

  lemma ChosenKeepsResources(pol: Policy, s: State)
    requires Shape(s)
    ensures Chosen(pol, s).wait == s.wait && Chosen(pol, s).owner == s.owner
  {
    ForkKeepsResources(s, 0);
    hide ForkFrom, FirstMax;
  }

  /** Lexicographic measure at tick boundaries. */
  ghost predicate MeasureDrops(plan: seq<Proc>, s: State, t: State)
    requires Shape(s) && Shape(t)
  {
    || TotalLeft(t.procs) < TotalLeft(s.procs)
    || (TotalLeft(t.procs) == TotalLeft(s.procs) && ForkTicksLeft(plan, t.ticks) < ForkTicksLeft(plan, s.ticks))
    || (TotalLeft(t.procs) == TotalLeft(s.procs) && ForkTicksLeft(plan, t.ticks) == ForkTicksLeft(plan, s.ticks)
        && RunnableCount(t) < RunnableCount(s))
  }

  lemma SameProgressLeft(ps: seq<Proc>, us: seq<Proc>)
    requires SameProgress(ps, us)
    ensures TotalLeft(us) == TotalLeft(ps)
  {
    TotalLeftSame(ps, us);
  }

  lemma ExecuteDrops(pol: Policy, plan: seq<Proc>, u: State)
    requires Launched(plan, u) && u.cur.Some?
    ensures var t := Execute(pol, u);
      || TotalLeft(t.procs) < TotalLeft(u.procs)
      || (TotalLeft(t.procs) == TotalLeft(u.procs) && t.ready == u.ready && t.cur == u.cur && !Runnable(t))
  {
    ExecuteKeeps(pol, plan, u);
    ExecuteFrame(pol, u);
    var c := u.cur.value;
    var t := Execute(pol, u);
    SettledLifespan(plan, u, c);
    SettledLifespan(plan, t, c);
    hide Execute, Settled, WakeupUnderWay;
    if t.procs[c].status == Running {
      TotalLeftDrops(u.procs, t.procs, c);
    } else {
      TotalLeftSame(u.procs, t.procs);
    }
  }

  lemma SettledLifespan(plan: seq<Proc>, s: State, i: nat)
    requires Settled(plan, s) && i < |s.procs|
    ensures i < |plan| && Fixed(plan[i], s.procs[i])
  {
    hide Queues, Placed, Owners, HeldOnTime, Accounted, PendingOnTime;
    assert LocalInv(plan[i], s.procs[i], |s.procs[i].holding|);
  }

  lemma ForkPending(plan: seq<Proc>, s: State, x: nat)
    requires Settled(plan, s) && ForkDue(s, x) && s.fork != []
    ensures LatestStart(plan) >= x
  {
    hide Placed, Owners, Wants, NoDup;
    var i := s.fork[0];
    assert i in s.fork;
    assert s.procs[i].start == plan[i].start;
  }

  lemma ForkFacts(pol: Policy, plan: seq<Proc>, s: State)
    requires Inv(plan, s)
    ensures Chosen(pol, s).fork != [] ==> LatestStart(plan) >= s.ticks + 1
    ensures s.fork != [] ==> LatestStart(plan) >= s.ticks
    ensures |Chosen(pol, s).fork| > 0 ==> s.fork != []
  {
    ChosenKeeps(pol, plan, s);
    ChosenFrame(pol, plan, s);
    hide Chosen, Locals, Placed, Owners, Queues, WakeupUnderWay, NoLostWakeup, LatestStart;
    var u := Chosen(pol, s);
    if u.fork != [] {
      ForkPending(plan, u, s.ticks + 1);
      assert u.fork[0] in s.fork;
    }
    if s.fork != [] {
      ForkPending(plan, s, s.ticks);
    }
  }

  lemma ChosenIdle(pol: Policy, plan: seq<Proc>, s: State)
    requires Inv(plan, s) && Chosen(pol, s).cur.None? && !Halted(Chosen(pol, s))
    ensures Chosen(pol, s).fork != []
  {
    ChosenKeeps(pol, plan, s);
    hide Chosen, Settled, WakeupUnderWay;
  }

  lemma ChosenBusy(pol: Policy, plan: seq<Proc>, s: State)
    requires Inv(plan, s) && Chosen(pol, s).cur.Some?
    ensures var u := Chosen(pol, s);
      var t := Execute(pol, u);
      || TotalLeft(t.procs) < TotalLeft(u.procs)
      || (TotalLeft(t.procs) == TotalLeft(u.procs) && t.ready == u.ready && t.cur == u.cur && !Runnable(t))
  {
    ChosenKeeps(pol, plan, s);
    hide Chosen, Launched, Execute;
    ExecuteDrops(pol, plan, Chosen(pol, s));
  }

  /** Every tick that does not end the run decreases the measure. */
  lemma TickDecreases(pol: Policy, plan: seq<Proc>, s: State)
    requires Inv(plan, s) && !Halted(Chosen(pol, s))
    ensures MeasureDrops(plan, s, Tick(pol, s))
  {
    hide Inv, Shape, Settled, Chosen, Execute, Tick, LatestStart, TotalLeft;
    InvShape(plan, s);
    TickKeepsInv(pol, plan, s);
    ChosenFrame(pol, plan, s);
    TickUnfolds(pol, s);
    ForkFacts(pol, plan, s);
    var u := Chosen(pol, s);
    SameProgressLeft(s.procs, u.procs);
    hide SameProgress;
    if u.cur.Some? {
      ChosenBusy(pol, plan, s);
    } else {
      ChosenIdle(pol, plan, s);
    }
  }

  // ----- Runs -----

  /** The state in which the loop leaves.  That this function is defined is the termination theorem. */
  ghost function Run(pol: Policy, plan: seq<Proc>, s: State): (t: State)
    requires Inv(plan, s)
    ensures Launched(plan, t) && Halted(t)
    decreases TotalLeft(s.procs), ForkTicksLeft(plan, s.ticks), RunnableCount(s)
  {
    ChosenKeeps(pol, plan, s);
    if Halted(Chosen(pol, s)) then Chosen(pol, s)
    else
      TickKeepsInv(pol, plan, s);
      TickDecreases(pol, plan, s);
      Run(pol, plan, Tick(pol, s))
  }

  /** Final states: everybody has exited or is blocked, and free resources have no waiters. */
  lemma FinalState(plan: seq<Proc>, t: State)
    requires Launched(plan, t) && Halted(t)
    ensures forall i :: 0 <= i < |t.procs| ==> t.procs[i].status == Exited || t.procs[i].status == Blocked
    ensures forall i :: 0 <= i < |t.procs| && t.procs[i].status == Blocked ==>
      Wants(t.procs[i]).Some? && Wants(t.procs[i]).value < NR_RESOURCES && t.owner[Wants(t.procs[i]).value].Some?
  {
    hide Locals, Owners, Wants;
    forall i | 0 <= i < |t.procs|
      ensures t.procs[i].status == Exited || t.procs[i].status == Blocked
      ensures t.procs[i].status == Blocked ==>
        Wants(t.procs[i]).Some? && Wants(t.procs[i]).value < NR_RESOURCES && t.owner[Wants(t.procs[i]).value].Some?
    {
      assert InPlace(t, i);
    }
  }

  /** The state after n further iterations of the loop. */
  function After(pol: Policy, s: State, n: nat): (t: State)
    requires Shape(s)
    ensures Shape(t)
    decreases n
  {
    if n == 0 then s else After(pol, Tick(pol, s), n - 1)
  }

  /** The process that the (n + 1)-th following scheduling decision picks. */
  function PickedAt(pol: Policy, s: State, n: nat): Option<nat>
    requires Shape(s)
  {
    Chosen(pol, After(pol, s, n)).cur
  }

  lemma PickedLater(pol: Policy, s: State, n: nat)
    requires Shape(s)
    ensures PickedAt(pol, s, n + 1) == PickedAt(pol, Tick(pol, s), n)
    ensures PickedAt(pol, s, 0) == Chosen(pol, s).cur
  {
    hide Chosen, Tick, Shape;
  }

  /** The invariant holds at every tick boundary of every run. */
  lemma {:induction false} InvAlways(pol: Policy, plan: seq<Proc>, s: State, n: nat)
    requires Inv(plan, s)
    ensures Shape(s) && Inv(plan, After(pol, s, n))
    decreases n
  {
    hide Inv, Shape, Tick;
    InvShape(plan, s);
    if n > 0 {
      TickKeepsInv(pol, plan, s);
      InvAlways(pol, plan, Tick(pol, s), n - 1);
    }
  }
}
