/**
 Shortest time to completion first is optimal at every instant: without resources, whatever the
 arrivals, it has finished at least as many processes after each tick as any other schedule.
 */
module ShortestRemainingFirst {
  import opened Seqs
  import opened SchedModel
  import opened SchedInvariants
  import opened SchedRuns
  import opened Fairness
  import opened ShortestJobFirst

  // ----- Any schedule -----

  /** How old each process is. */
  ghost predicate AgesOk(plan: seq<Proc>, ages: seq<nat>) {
    |ages| == |plan| && forall i :: 0 <= i < |plan| ==> ages[i] <= plan[i].lifespan
  }

  /** Tick t may be spent idle or on any process that has arrived and is not finished. */
  ghost predicate Allowed(plan: seq<Proc>, ages: seq<nat>, t: nat, choice: Option<nat>)
    requires AgesOk(plan, ages)
  {
    match choice
    case None => true
    case Some(j) => j < |plan| && plan[j].start <= t && ages[j] < plan[j].lifespan
  }

  ghost function Spend(ages: seq<nat>, choice: Option<nat>): seq<nat> {
    if choice.Some? && choice.value < |ages| then ages[choice.value := ages[choice.value] + 1] else ages
  }

  /** The ages after following a schedule from the start. */
  ghost function Play(plan: seq<Proc>, schedule: seq<Option<nat>>): (ages: seq<nat>)
    ensures |ages| == |plan|
  {
    if schedule == [] then seq(|plan|, _ => 0)
    else Spend(Play(plan, schedule[..|schedule| - 1]), schedule[|schedule| - 1])
  }

  ghost predicate ValidSchedule(plan: seq<Proc>, schedule: seq<Option<nat>>) {
    schedule != [] ==>
      && ValidSchedule(plan, schedule[..|schedule| - 1])
      && AgesOk(plan, Play(plan, schedule[..|schedule| - 1]))
      && Allowed(plan, Play(plan, schedule[..|schedule| - 1]), |schedule| - 1, schedule[|schedule| - 1])
  }

  /** How many of the first n processes are finished. */
  ghost function Finished(plan: seq<Proc>, ages: seq<nat>, n: nat): nat
    requires n <= |plan| == |ages|
  {
    if n == 0 then 0 else Finished(plan, ages, n - 1) + if ages[n - 1] == plan[n - 1].lifespan then 1 else 0
  }

  // ----- The potential -----

  function Slack(c: nat, left: int): nat {
    if left < c then if left < 0 then c else c - left else 0
  }

  /** Over the processes that have arrived by tick t: how far each one's remaining time is below c. */
  ghost function Potential(plan: seq<Proc>, ages: seq<nat>, t: nat, c: nat, n: nat): nat
    requires AgesOk(plan, ages) && n <= |plan|
  {
    if n == 0 then 0
    else
      var here := if plan[n - 1].start <= t then Slack(c, plan[n - 1].lifespan - ages[n - 1]) else 0;
      Potential(plan, ages, t, c, n - 1) + here
  }

  /** Running a process for a tick adds one for every c that reaches its remaining time. */
  lemma {:induction false} PotentialStep(plan: seq<Proc>, ages: seq<nat>, j: nat, t: nat, c: nat, n: nat)
    requires AgesOk(plan, ages) && n <= |plan| && j < |plan| && plan[j].start <= t && ages[j] < plan[j].lifespan
    ensures AgesOk(plan, ages[j := ages[j] + 1])
    ensures Potential(plan, ages[j := ages[j] + 1], t, c, n) ==
      Potential(plan, ages, t, c, n) + if j < n && plan[j].lifespan - ages[j] <= c then 1 else 0
  {
    if n > 0 {
      PotentialStep(plan, ages, j, t, c, n - 1);
    }
  }

  lemma SlackConvex(c: nat, u: nat, left: nat)
    requires c <= u
    ensures u * Slack(c, left) <= c * Slack(u, left)
  {
    if left < c {
      assert u * (c - left) == u * c - u * left;
      assert c * (u - left) == c * u - c * left;
      assert c * left <= u * left;
    }
  }

  lemma AddUp(u: nat, a: nat, b: nat, c: nat, x: nat, y: nat)
    requires u * a <= c * x && u * b <= c * y
    ensures u * (a + b) <= c * (x + y)
  {
    assert u * (a + b) == u * a + u * b;
    assert c * (x + y) == c * x + c * y;
  }

  /** The potential is convex in c and zero at zero. */
  lemma {:induction false} PotentialConvex(plan: seq<Proc>, ages: seq<nat>, t: nat, c: nat, u: nat, n: nat)
    requires AgesOk(plan, ages) && n <= |plan| && c <= u
    ensures u * Potential(plan, ages, t, c, n) <= c * Potential(plan, ages, t, u, n)
  {
    if n > 0 {
      PotentialConvex(plan, ages, t, c, u, n - 1);
      var i := n - 1;
      if plan[i].start <= t {
        var left := plan[i].lifespan - ages[i];
        SlackConvex(c, u, left);
        AddUp(u, Potential(plan, ages, t, c, i), Slack(c, left), c, Potential(plan, ages, t, u, i), Slack(u, left));
      }
    }
  }

  /** Processes that have arrived by tick t and are finished. */
  ghost function Done(plan: seq<Proc>, ages: seq<nat>, t: nat, n: nat): nat
    requires AgesOk(plan, ages) && n <= |plan|
  {
    if n == 0 then 0
    else Done(plan, ages, t, n - 1) + if plan[n - 1].start <= t && ages[n - 1] == plan[n - 1].lifespan then 1 else 0
  }

  /** No arrived process has between 1 and u - 1 ticks left. */
  ghost predicate NothingBelow(plan: seq<Proc>, ages: seq<nat>, t: nat, u: nat)
    requires AgesOk(plan, ages)
  {
    forall i :: 0 <= i < |plan| && plan[i].start <= t && ages[i] < plan[i].lifespan ==> plan[i].lifespan - ages[i] >= u
  }

  lemma {:induction false} PotentialOfDone(plan: seq<Proc>, ages: seq<nat>, t: nat, c: nat, u: nat, n: nat)
    requires AgesOk(plan, ages) && n <= |plan| && NothingBelow(plan, ages, t, u) && c <= u
    ensures Potential(plan, ages, t, c, n) == c * Done(plan, ages, t, n)
  {
    if n > 0 {
      PotentialOfDone(plan, ages, t, c, u, n - 1);
      var d := Done(plan, ages, t, n - 1);
      assert c * (d + 1) == c * d + c;
    }
  }

  /** One process counts for at most c. */
  lemma {:induction false} PotentialBound(plan: seq<Proc>, xs: seq<nat>, ys: seq<nat>, t: nat, c: nat, n: nat)
    requires AgesOk(plan, xs) && AgesOk(plan, ys) && n <= |plan|
    requires forall i :: 0 <= i < |plan| && plan[i].start <= t ==> xs[i] == plan[i].lifespan
    ensures Potential(plan, ys, t, c, n) <= Potential(plan, xs, t, c, n)
  {
    if n > 0 {
      PotentialBound(plan, xs, ys, t, c, n - 1);
    }
  }

  // ----- Dominance -----

  /** xs is ahead of ys: its potential is at least as large for every c. */
  ghost predicate Ahead(plan: seq<Proc>, xs: seq<nat>, ys: seq<nat>, t: nat)
    requires AgesOk(plan, xs) && AgesOk(plan, ys)
  {
    forall c: nat :: Potential(plan, ys, t, c, |plan|) <= Potential(plan, xs, t, c, |plan|)
  }

  lemma TimesNext(u: nat, m: nat)
    ensures u * (m + 1) == u * m + u
  {
  }

  lemma TimesMonotone(u: nat, a: nat, b: nat)
    requires a <= b
    ensures u * a <= u * b
  {
  }

  lemma TimesSwap(c: nat, u: nat, z: nat)
    ensures c * (u * z) == u * (c * z)
  {
  }

  /** Division with a remainder below the divisor. */
  lemma Quotient(u: nat, a: nat, m: nat, c: nat)
    requires c < u && u * a <= u * m + c
    ensures a <= m
  {
    TimesNext(u, m);
    if m < a {
      TimesMonotone(u, m + 1, a);
    }
  }

  lemma ScaleDown(u: nat, c: nat, z: nat, a: nat, b: nat)
    requires c < u && u * a <= c * b && b <= u * z + 1
    ensures a <= c * z
  {
    TimesMonotone(c, b, u * z + 1);
    TimesNext(c, u * z);
    TimesSwap(c, u, z);
    Quotient(u, a, c * z, c);
  }

  /** Running the process with the least time left keeps the lead, whatever the other schedule does. */
  lemma LeastKeepsAhead(plan: seq<Proc>, xs: seq<nat>, ys: seq<nat>, t: nat, k: nat, choice: Option<nat>)
    requires AgesOk(plan, xs) && AgesOk(plan, ys) && Ahead(plan, xs, ys, t) && Allowed(plan, ys, t, choice)
    requires k < |plan| && plan[k].start <= t && xs[k] < plan[k].lifespan
    requires NothingBelow(plan, xs, t, plan[k].lifespan - xs[k])
    ensures AgesOk(plan, xs[k := xs[k] + 1]) && AgesOk(plan, Spend(ys, choice))
    ensures Ahead(plan, xs[k := xs[k] + 1], Spend(ys, choice), t)
  {
    var u := plan[k].lifespan - xs[k];
    var n := |plan|;
    var ys' := Spend(ys, choice);
    SpendStep(plan, ys, t, choice);
    forall c: nat ensures Potential(plan, ys', t, c, n) <= Potential(plan, xs[k := xs[k] + 1], t, c, n) {
      PotentialStep(plan, xs, k, t, c, n);
      if c < u {
        PotentialOfDone(plan, xs, t, c, u, n);
        PotentialOfDone(plan, xs, t, u, u, n);
        PotentialConvex(plan, ys', t, c, u, n);
        ScaleDown(u, c, Done(plan, xs, t, n), Potential(plan, ys', t, c, n), Potential(plan, ys', t, u, n));
      }
    }
  }

  /** A tick of any schedule adds at most one. */
  lemma SpendStep(plan: seq<Proc>, ys: seq<nat>, t: nat, choice: Option<nat>)
    requires AgesOk(plan, ys) && Allowed(plan, ys, t, choice)
    ensures AgesOk(plan, Spend(ys, choice))
    ensures forall c: nat :: Potential(plan, Spend(ys, choice), t, c, |plan|) <= Potential(plan, ys, t, c, |plan|) + 1
  {
    if choice.Some? {
      forall c: nat ensures Potential(plan, Spend(ys, choice), t, c, |plan|) <= Potential(plan, ys, t, c, |plan|) + 1 {
        PotentialStep(plan, ys, choice.value, t, c, |plan|);
      }
    }
  }

  /** With nothing left to run, idling loses nothing. */
  lemma IdleKeepsAhead(plan: seq<Proc>, xs: seq<nat>, ys: seq<nat>, t: nat, choice: Option<nat>)
    requires AgesOk(plan, xs) && AgesOk(plan, ys) && Allowed(plan, ys, t, choice)
    requires forall i :: 0 <= i < |plan| && plan[i].start <= t ==> xs[i] == plan[i].lifespan
    ensures AgesOk(plan, Spend(ys, choice)) && Ahead(plan, xs, Spend(ys, choice), t)
  {
    SpendStep(plan, ys, t, choice);
    forall c: nat ensures Potential(plan, Spend(ys, choice), t, c, |plan|) <= Potential(plan, xs, t, c, |plan|) {
      PotentialBound(plan, xs, Spend(ys, choice), t, c, |plan|);
    }
  }

  /** Only processes that have started by tick t have aged. */
  ghost predicate Started(plan: seq<Proc>, ages: seq<nat>, t: nat)
    requires AgesOk(plan, ages)
  {
    forall i :: 0 <= i < |plan| && ages[i] > 0 ==> plan[i].start <= t
  }

  /** An arrival adds the same to both. */
  lemma {:induction false} ArrivalsAlike(plan: seq<Proc>, xs: seq<nat>, ys: seq<nat>, t: nat, c: nat, n: nat)
    requires AgesOk(plan, xs) && AgesOk(plan, ys) && n <= |plan| && Started(plan, xs, t) && Started(plan, ys, t)
    ensures Potential(plan, xs, t + 1, c, n) - Potential(plan, xs, t, c, n) ==
            Potential(plan, ys, t + 1, c, n) - Potential(plan, ys, t, c, n)
  {
    if n > 0 {
      ArrivalsAlike(plan, xs, ys, t, c, n - 1);
    }
  }

  lemma NextTickAhead(plan: seq<Proc>, xs: seq<nat>, ys: seq<nat>, t: nat)
    requires AgesOk(plan, xs) && AgesOk(plan, ys) && Ahead(plan, xs, ys, t) && Started(plan, xs, t) && Started(plan, ys, t)
    ensures Ahead(plan, xs, ys, t + 1)
  {
    var next := t + 1;
    forall c: nat ensures Potential(plan, ys, next, c, |plan|) <= Potential(plan, xs, next, c, |plan|) {
      ArrivalsAlike(plan, xs, ys, t, c, |plan|);
    }
  }

  /** At c = 1 the potential counts the finished processes. */
  lemma {:induction false} PotentialCounts(plan: seq<Proc>, ages: seq<nat>, t: nat, n: nat)
    requires AgesOk(plan, ages) && n <= |plan| && Started(plan, ages, t) && WellFormed(plan)
    ensures Potential(plan, ages, t, 1, n) == Finished(plan, ages, n)
  {
    if n > 0 {
      PotentialCounts(plan, ages, t, n - 1);
      assert WellFormedProc(plan[n - 1]);
    }
  }

  // ----- The run -----

  ghost function Ages(s: State): seq<nat> {
    seq(|s.procs|, i requires 0 <= i < |s.procs| => s.procs[i].age)
  }

  /** Whoever has left the fork queue has started. */
  ghost predicate LeftOnTime(plan: seq<Proc>, s: State) {
    |plan| == |s.procs| && forall i :: 0 <= i < |plan| && i !in s.fork ==> plan[i].start < s.ticks
  }

  /** Only due processes leave the fork queue. */
  lemma {:induction false} ForkedWereDue(s: State, k: nat)
    requires Shape(s)
    ensures forall i :: i in s.fork && i !in ForkFrom(s, k).fork ==> i < |s.procs| && s.procs[i].start <= s.ticks
    decreases |s.fork| - k
  {
    if k < |s.fork| {
      var j := s.fork[k];
      if s.procs[j].start <= s.ticks {
        var t := s.(fork := RemoveAt(s.fork, k), ready := s.ready + [j], procs := s.procs[j := s.procs[j].(status := Ready)]);
        ForkedWereDue(t, k);
        forall x | 0 <= x < |s.fork| && x != k ensures s.fork[x] in t.fork {
          assert t.fork[if x < k then x else x - 1] == s.fork[x];
        }
      } else {
        ForkedWereDue(s, k + 1);
      }
    }
  }

  /** The candidates are exactly the processes that have arrived and are not finished. */
  lemma CandidatesAre(plan: seq<Proc>, s: State, i: nat)
    requires Inv(plan, s) && Shape(s) && ResourceFree(plan) && LeftOnTime(plan, s) && i < |s.procs|
    ensures i in Candidates(ForkFrom(s, 0)) <==> plan[i].start <= s.ticks && s.procs[i].age < plan[i].lifespan
  {
    var f := ForkFrom(s, 0);
    ForkFromKeeps(plan, s, 0);
    CandidateFacts(plan, f);
    ForkedWereDue(s, 0);
    NothingToHold(plan, s);
    PlanStarts(plan, s);
    hide ForkFrom, Locals, Owners, Queues, NoLostWakeup, WellFormed, ResourceFree, NoDup, Candidates;
    if plan[i].start <= s.ticks && s.procs[i].age < plan[i].lifespan {
      assert i !in f.fork;
      assert InPlace(f, i);
      NobodyWants(f, i);
      ReadyOrRunning(f, i);
    }
  }

  lemma PlanStarts(plan: seq<Proc>, s: State)
    requires Settled(plan, s)
    ensures |plan| == |s.procs| && forall i :: 0 <= i < |plan| ==> s.procs[i].start == plan[i].start
  {
    hide Queues, Placed, Owners, HeldOnTime, PendingOnTime, Accounted;
    forall i | 0 <= i < |plan| ensures s.procs[i].start == plan[i].start {
      assert LocalInv(plan[i], s.procs[i], |s.procs[i].holding|);
    }
  }

  lemma NobodyWants(s: State, i: nat)
    requires i < |s.procs| && s.procs[i].pending == []
    ensures Wants(s.procs[i]).None?
  {
  }

  lemma ReadyOrRunning(s: State, i: nat)
    requires Shape(s) && i < |s.procs| && InPlace(s, i) && Wants(s.procs[i]).None? && i !in s.fork
    requires s.procs[i].age < s.procs[i].lifespan
    ensures i in Candidates(s)
  {
    hide Wants;
    if s.cur == Some(i) && Runnable(s) {
      assert (s.ready + [i])[|s.ready|] == i;
    }
    if i in s.ready && Runnable(s) {
      var x :| 0 <= x < |s.ready| && s.ready[x] == i;
      assert (s.ready + [s.cur.value])[x] == i;
    }
  }

  /** Process k may run at tick t and has the least time left of all that may. */
  ghost predicate Best(plan: seq<Proc>, ages: seq<nat>, t: nat, k: nat)
    requires AgesOk(plan, ages)
  {
    && k < |plan| && plan[k].start <= t && ages[k] < plan[k].lifespan
    && NothingBelow(plan, ages, t, plan[k].lifespan - ages[k])
  }

  ghost predicate AllDone(plan: seq<Proc>, ages: seq<nat>, t: nat)
    requires AgesOk(plan, ages)
  {
    forall i :: 0 <= i < |plan| && plan[i].start <= t ==> ages[i] == plan[i].lifespan
  }

  /** One tick: idle if nobody can run, and otherwise spent on a process with the least time left. */
  lemma StcfTick(plan: seq<Proc>, s: State) returns (choice: Option<nat>)
    requires Inv(plan, s) && Shape(s) && ResourceFree(plan) && LeftOnTime(plan, s) && AgesOk(plan, Ages(s))
    ensures Ages(Tick(Stcf, s)) == Spend(Ages(s), choice)
    ensures match choice
      case Some(k) => Best(plan, Ages(s), s.ticks, k)
      case None => AllDone(plan, Ages(s), s.ticks)
  {
    hide Inv, Shape, ForkFrom, Tick, Candidates, LeftOnTime, NoDup, Keys, FirstMax, Best, ResourceFree, NothingBelow;
    CandidatesExtend(plan, s);
    CandidatesAllAre(plan, s);
    ShapedCur(ForkFrom(s, 0));
    var q := Candidates(ForkFrom(s, 0));
    if q == [] {
      choice := None;
      StcfIdle(plan, s);
    } else {
      StcfRuns(plan, s);
      choice := Some(q[FirstMax(Keys(Stcf, s.procs, q))]);
      LeastLeft(plan, s, q);
    }
  }

  lemma CandidatesAllAre(plan: seq<Proc>, s: State)
    requires Inv(plan, s) && Shape(s) && ResourceFree(plan) && LeftOnTime(plan, s) && |plan| == |s.procs|
    ensures forall i :: 0 <= i < |s.procs| ==>
      (i in Candidates(ForkFrom(s, 0)) <==> plan[i].start <= s.ticks && s.procs[i].age < plan[i].lifespan)
  {
    hide Inv, Shape, ForkFrom, Candidates, LeftOnTime, ResourceFree;
    ShapedCur(ForkFrom(s, 0));
    forall i | 0 <= i < |s.procs|
      ensures i in Candidates(ForkFrom(s, 0)) <==> plan[i].start <= s.ticks && s.procs[i].age < plan[i].lifespan
    {
      CandidatesAre(plan, s, i);
    }
  }

  lemma LeastLeft(plan: seq<Proc>, s: State, q: seq<nat>)
    requires |plan| == |s.procs| && AgesOk(plan, Ages(s)) && q != [] && forall j :: 0 <= j < |q| ==> q[j] < |s.procs|
    requires forall i :: 0 <= i < |plan| ==> s.procs[i].lifespan == plan[i].lifespan
    requires forall i :: 0 <= i < |plan| ==> (i in q <==> plan[i].start <= s.ticks && s.procs[i].age < plan[i].lifespan)
    ensures Best(plan, Ages(s), s.ticks, q[FirstMax(Keys(Stcf, s.procs, q))])
  {
    var keys := Keys(Stcf, s.procs, q);
    var best := FirstMax(keys);
    hide FirstMax;
    assert q[best] in q;
    forall i | 0 <= i < |plan| && plan[i].start <= s.ticks && Ages(s)[i] < plan[i].lifespan
      ensures plan[i].lifespan - Ages(s)[i] >= plan[q[best]].lifespan - Ages(s)[q[best]]
    {
      var j :| 0 <= j < |q| && q[j] == i;
      assert keys[j] <= keys[best];
    }
  }

  lemma StcfIdle(plan: seq<Proc>, s: State)
    requires Inv(plan, s) && Shape(s) && Candidates(ForkFrom(s, 0)) == []
    ensures Ages(Tick(Stcf, s)) == Ages(s)
  {
    hide Inv, Shape, ForkFrom, Tick, Launch, Candidates, NoDup;
    CandidatesExtend(plan, s);
    IdleSchedule(Stcf, s);
    var f := ForkFrom(s, 0);
    EmptiedShape(f);
    LaunchFrame(f, f.(ready := [], cur := None));
  }

  lemma StcfRuns(plan: seq<Proc>, s: State)
    requires Inv(plan, s) && Shape(s) && ResourceFree(plan) && Candidates(ForkFrom(s, 0)) != []
    ensures var q := Candidates(ForkFrom(s, 0));
      && (forall j :: 0 <= j < |q| ==> q[j] < |s.procs|)
      && (forall i :: 0 <= i < |s.procs| ==> |plan| == |s.procs| && s.procs[i].lifespan == plan[i].lifespan)
      && var k := q[FirstMax(Keys(Stcf, s.procs, q))];
         k < |Ages(s)| && Ages(Tick(Stcf, s)) == Ages(s)[k := Ages(s)[k] + 1]
  {
    hide ResourceFree, ForkFrom, RemoveAt, Schedule, Launch, Tick, Chosen, Execute, Candidates, FirstMax, Keys, Shape, NoDup;
    hide Settled, NoLostWakeup, ForkDue;
    CandidatesExtend(plan, s);
    NothingToHold(plan, s);
    PlanStarts(plan, s);
    var f := ForkFrom(s, 0);
    ScheduleTakesBest(Stcf, f);
    ChosenIsLaunch(Stcf, s);
    LaunchFrame(f, Schedule(Stcf, f));
    TickUnfolds(Stcf, s);
    ShapedCur(Chosen(Stcf, s));
    FreeExecute(Stcf, Chosen(Stcf, s));
    OneOlder(s, Chosen(Stcf, s));
  }

  lemma OneOlder(s: State, u: State)
    requires Shape(u) && u.cur.Some? && u.cur.value < |u.procs| && SameProgress(s.procs, u.procs)
    ensures |AgeCurrent(u).procs| == |s.procs|
    ensures Ages(AgeCurrent(u)) == Ages(s)[u.cur.value := Ages(s)[u.cur.value] + 1]
  {
    hide Shape;
  }

  lemma ShapedCur(s: State)
    requires Shape(s)
    ensures s.cur.Some? ==> s.cur.value < |s.procs|
  {
  }

  lemma TickLeavesOnTime(plan: seq<Proc>, s: State)
    requires Inv(plan, s) && Shape(s) && LeftOnTime(plan, s)
    ensures LeftOnTime(plan, Tick(Stcf, s))
  {
    ForkedWereDue(s, 0);
    PlanStarts(plan, s);
    TickForks(plan, s);
    hide Inv, ForkFrom, Tick, Shape;
  }

  lemma ChosenForks(plan: seq<Proc>, s: State)
    requires Inv(plan, s) && Shape(s)
    ensures Chosen(Stcf, s).fork == ForkFrom(s, 0).fork && |Chosen(Stcf, s).procs| == |s.procs|
  {
    hide Inv, ForkFrom, Shape, Launch, Chosen;
    CandidatesExtend(plan, s);
    var f := ForkFrom(s, 0);
    ChosenIsLaunch(Stcf, s);
    ScheduleMeetsContract(Stcf, f);
    LaunchFrame(f, Schedule(Stcf, f));
  }

  lemma TickForks(plan: seq<Proc>, s: State)
    requires Inv(plan, s) && Shape(s)
    ensures var t := Tick(Stcf, s); t.fork == ForkFrom(s, 0).fork && t.ticks == s.ticks + 1 && |t.procs| == |s.procs|
  {
    hide Inv, ForkFrom, Tick, Shape, Execute, Chosen, Launched, Launch, Settled, NoLostWakeup;
    ChosenKeeps(Stcf, plan, s);
    ChosenForks(plan, s);
    TickUnfolds(Stcf, s);
    var u := Chosen(Stcf, s);
    if u.cur.Some? {
      ExecuteKeeps(Stcf, plan, u);
    }
  }

  // ----- The theorem -----

  /** The race after t ticks: the simulation xs against another schedule ys. */
  ghost predicate Race(plan: seq<Proc>, s: State, ys: seq<nat>, t: nat) {
    && Inv(plan, s) && Shape(s) && LeftOnTime(plan, s) && s.ticks == t
    && AgesOk(plan, Ages(s)) && AgesOk(plan, ys) && Started(plan, Ages(s), t) && Started(plan, ys, t)
    && Ahead(plan, Ages(s), ys, t)
  }

  lemma RaceStarts(plan: seq<Proc>)
    requires WellFormed(plan)
    ensures Race(plan, Initial(plan), seq(|plan|, _ => 0), 0)
  {
    InitialInv(plan);
    InvShape(plan, Initial(plan));
    hide Inv, Shape;
    var s := Initial(plan);
    forall i | 0 <= i < |plan| ensures plan[i].age == 0 && i in s.fork {
      assert WellFormedProc(plan[i]);
      assert s.fork[i] == i;
    }
    assert Ages(s) == seq(|plan|, _ => 0);
  }

  lemma RaceTick(plan: seq<Proc>, s: State, ys: seq<nat>, t: nat, choice: Option<nat>)
    requires Race(plan, s, ys, t) && ResourceFree(plan) && Allowed(plan, ys, t, choice)
    ensures Race(plan, Tick(Stcf, s), Spend(ys, choice), t + 1)
  {
    hide Inv, Shape, Tick, LeftOnTime, ResourceFree, NothingBelow, Ahead, Ages, Spend, Allowed, Best, AllDone, AgesOk, Started;
    var mine := StcfTick(plan, s);
    TickKeepsInv(Stcf, plan, s);
    TickLeavesOnTime(plan, s);
    RaceStep(plan, Ages(s), ys, t, mine, choice);
  }

  /** One tick of the race, on the ages alone. */
  lemma RaceStep(plan: seq<Proc>, xs: seq<nat>, ys: seq<nat>, t: nat, mine: Option<nat>, choice: Option<nat>)
    requires AgesOk(plan, xs) && AgesOk(plan, ys) && Started(plan, xs, t) && Started(plan, ys, t) && Ahead(plan, xs, ys, t)
    requires Allowed(plan, ys, t, choice)
    requires if mine.Some? then Best(plan, xs, t, mine.value) else AllDone(plan, xs, t)
    ensures AgesOk(plan, Spend(xs, mine)) && AgesOk(plan, Spend(ys, choice))
    ensures Started(plan, Spend(xs, mine), t + 1) && Started(plan, Spend(ys, choice), t + 1)
    ensures Ahead(plan, Spend(xs, mine), Spend(ys, choice), t + 1)
  {
    hide NothingBelow, Ahead;
    match mine {
      case Some(k) => LeastKeepsAhead(plan, xs, ys, t, k, choice);
      case None => IdleKeepsAhead(plan, xs, ys, t, choice);
    }
    NextTickAhead(plan, Spend(xs, mine), Spend(ys, choice), t);
  }

  lemma {:induction false} RaceGoesOn(plan: seq<Proc>, schedule: seq<Option<nat>>)
    requires WellFormed(plan) && ResourceFree(plan) && ValidSchedule(plan, schedule)
    ensures Shape(Initial(plan))
    ensures Race(plan, After(Stcf, Initial(plan), |schedule|), Play(plan, schedule), |schedule|)
  {
    RaceStarts(plan);
    var s := Initial(plan);
    assert Shape(s);
    hide Race, Shape, ResourceFree, WellFormed, Tick, Initial, AgesOk, Allowed, Spend;
    if schedule != [] {
      var n := |schedule| - 1;
      RaceGoesOn(plan, schedule[..n]);
      RaceTick(plan, After(Stcf, s, n), Play(plan, schedule[..n]), n, schedule[n]);
      AfterSplit(Stcf, s, n, 1);
      AfterOne(Stcf, After(Stcf, s, n), 1);
      AfterOne(Stcf, Tick(Stcf, After(Stcf, s, n)), 1);
    }
  }

  /**
   For every script without resource requests, whatever the start times, and every schedule of any
   number of ticks: by then the STCF simulation has finished at least as many processes.
   */
  lemma StcfFinishesMost(plan: seq<Proc>, schedule: seq<Option<nat>>)
    requires WellFormed(plan) && ResourceFree(plan) && ValidSchedule(plan, schedule)
    ensures Shape(Initial(plan))
    ensures var s := After(Stcf, Initial(plan), |schedule|);
      |s.procs| == |plan| && Finished(plan, Play(plan, schedule), |plan|) <= Finished(plan, Ages(s), |plan|)
  {
    RaceGoesOn(plan, schedule);
    var s := After(Stcf, Initial(plan), |schedule|);
    PotentialCounts(plan, Ages(s), |schedule|, |plan|);
    PotentialCounts(plan, Play(plan, schedule), |schedule|, |plan|);
    hide Inv, Shape, After, Play, Potential, Finished, LeftOnTime, WellFormed;
  }
}
