/**
 The framework takes its scheduling callback from outside.  What every tick keeps, and that the loop
 ends, is proved here for any callback that meets the contract, not only for the eight that exist.
 */
module SchedPlugins {
  import opened Seqs
  import opened SchedModel
  import opened SchedInvariants
  import opened SchedRuns
  import opened Deadlock

  /** A scheduling callback that meets the contract in every state. */
  ghost predicate Plugs(schedule: State -> State) {
    forall s: State :: Shape(s) ==> ScheduleContract(s, schedule(s))
  }

  lemma ContractShape(s: State, u: State)
    requires Shape(s) && ScheduleContract(s, u)
    ensures Shape(u) && (s.cur.Some? ==> s.cur.value < |u.procs|)
  {
    var v := u.(procs := s.procs);
    if k :| 0 <= k < |Candidates(s)| && v == s.(ready := RemoveAt(Candidates(s), k), cur := Some(Candidates(s)[k])) {
      assert forall j :: 0 <= j < |Candidates(s)| ==> Candidates(s)[j] < |s.procs|;
    }
  }

  /** The state right after this callback's decision. */
  ghost function ChosenBy(schedule: State -> State, s: State): (t: State)
    requires Shape(s) && Plugs(schedule)
    ensures Shape(t)
  {
    var f := ForkFrom(s, 0);
    ContractShape(f, schedule(f));
    Launch(f, schedule(f))
  }

  /** One full iteration of the loop with this callback, and the resource callbacks of a policy. */
  ghost function TickBy(schedule: State -> State, pol: Policy, s: State): (t: State)
    requires Shape(s) && Plugs(schedule)
    ensures Shape(t)
  {
    var u := ChosenBy(schedule, s);
    var v := if u.cur.Some? then Execute(pol, u) else u;
    v.(ticks := v.ticks + 1)
  }

  lemma ChosenByKeeps(schedule: State -> State, plan: seq<Proc>, s: State)
    requires Inv(plan, s) && Plugs(schedule)
    ensures var u := ChosenBy(schedule, s); Launched(plan, u) && ForkDue(u, s.ticks + 1) && u.ticks == s.ticks
  {
    hide Locals, Owners, Queues, Placed, Wants, NoLostWakeup, WakeupUnderWay, ScheduleContract;
    var f := ForkFrom(s, 0);
    ForkFromKeeps(plan, s, 0);
    LaunchKeeps(plan, f, schedule(f));
    ForkDueCarries(plan, f, ChosenBy(schedule, s), s.ticks + 1);
  }

  /** Every tick keeps the invariant, whatever the callback. */
  lemma TickByKeeps(schedule: State -> State, pol: Policy, plan: seq<Proc>, s: State)
    requires Inv(plan, s) && Plugs(schedule)
    ensures Shape(s) && Inv(plan, TickBy(schedule, pol, s))
  {
    hide Inv, Shape, Launched, Execute, ForkDue, ChosenBy, Plugs;
    InvShape(plan, s);
    ChosenByKeeps(schedule, plan, s);
    var u := ChosenBy(schedule, s);
    if u.cur.Some? {
      BusyTick(pol, plan, u);
    } else {
      IdleTick(plan, u);
    }
  }

  lemma ChosenByFrame(schedule: State -> State, plan: seq<Proc>, s: State)
    requires Inv(plan, s) && Plugs(schedule)
    ensures var u := ChosenBy(schedule, s);
      && SameProgress(s.procs, u.procs)
      && (u.cur.Some? && u.fork == s.fork ==> |u.ready| + 1 == RunnableCount(s))
      && (forall i :: i in u.fork ==> i in s.fork)
  {
    hide ForkFrom, Locals, Queues, Placed, Owners, NoLostWakeup, Launch;
    ForkFromKeeps(plan, s, 0);
    ForkFromCounts(s, 0);
    var f := ForkFrom(s, 0);
    var u := schedule(f);
    ContractShape(f, u);
    ScheduleCounts(f, u);
    LaunchFrame(f, u);
  }

  lemma ForkFactsBy(schedule: State -> State, plan: seq<Proc>, s: State)
    requires Inv(plan, s) && Plugs(schedule)
    ensures ChosenBy(schedule, s).fork != [] ==> LatestStart(plan) >= s.ticks + 1 && s.fork != []
    ensures s.fork != [] ==> LatestStart(plan) >= s.ticks
  {
    ChosenByKeeps(schedule, plan, s);
    ChosenByFrame(schedule, plan, s);
    hide ChosenBy, Locals, Placed, Owners, Queues, WakeupUnderWay, NoLostWakeup, LatestStart, Plugs;
    var u := ChosenBy(schedule, s);
    if u.fork != [] {
      ForkPending(plan, u, s.ticks + 1);
      assert u.fork[0] in s.fork;
    }
    if s.fork != [] {
      ForkPending(plan, s, s.ticks);
    }
  }

  /** Either the tick ends the run or it decreases the measure. */
  lemma TickByDecreases(schedule: State -> State, pol: Policy, plan: seq<Proc>, s: State)
    requires Inv(plan, s) && Plugs(schedule) && !Halted(ChosenBy(schedule, s))
    ensures Shape(s) && MeasureDrops(plan, s, TickBy(schedule, pol, s))
  {
    hide Inv, Shape, Settled, WakeupUnderWay, ChosenBy, Execute, LatestStart, TotalLeft, Plugs;
    InvShape(plan, s);
    ChosenByKeeps(schedule, plan, s);
    ChosenByFrame(schedule, plan, s);
    ForkFactsBy(schedule, plan, s);
    var u := ChosenBy(schedule, s);
    SameProgressLeft(s.procs, u.procs);
    hide SameProgress;
    if u.cur.Some? {
      ExecuteDrops(pol, plan, u);
      ExecuteForks(pol, plan, u);
    }
  }

  lemma ExecuteForks(pol: Policy, plan: seq<Proc>, u: State)
    requires Launched(plan, u) && u.cur.Some?
    ensures Execute(pol, u).fork == u.fork && Execute(pol, u).ticks == u.ticks
  {
    hide Settled, WakeupUnderWay, Execute;
    ExecuteKeeps(pol, plan, u);
  }

  /** The state in which the loop leaves: with any such callback it does leave. */
  ghost function RunBy(schedule: State -> State, pol: Policy, plan: seq<Proc>, s: State): (t: State)
    requires Inv(plan, s) && Plugs(schedule)
    ensures Launched(plan, t) && Halted(t)
    decreases TotalLeft(s.procs), ForkTicksLeft(plan, s.ticks), RunnableCount(s)
  {
    ChosenByKeeps(schedule, plan, s);
    if Halted(ChosenBy(schedule, s)) then ChosenBy(schedule, s)
    else
      TickByKeeps(schedule, pol, plan, s);
      TickByDecreases(schedule, pol, plan, s);
      RunBy(schedule, pol, plan, TickBy(schedule, pol, s))
  }

  /** With any such callback the run finishes everybody exactly if it does not end in a wait cycle. */
  lemma AnyRunEndsOrDeadlocks(schedule: State -> State, pol: Policy, plan: seq<Proc>)
    requires WellFormed(plan) && Plugs(schedule)
    ensures Inv(plan, Initial(plan))
    ensures var t := RunBy(schedule, pol, plan, Initial(plan));
      (forall i :: 0 <= i < |t.procs| ==> t.procs[i].status == Exited) <==> !exists c :: WaitCycle(t, c)
  {
    InitialInv(plan);
    hide Inv, Launched, RunBy, Initial, Plugs, WaitCycle;
    AllExitOrCycle(plan, RunBy(schedule, pol, plan, Initial(plan)));
  }

  // ----- The eight policies -----

  ghost function Callback(pol: Policy): State -> State {
    s => if Shape(s) then Schedule(pol, s) else s
  }

  /** The policies are instances: with the callback of one of them the loop is the one modelled above. */
  lemma PoliciesPlug(pol: Policy, s: State)
    requires Shape(s)
    ensures Plugs(Callback(pol)) && TickBy(Callback(pol), pol, s) == Tick(pol, s)
  {
    hide Shape, ScheduleContract, Schedule, ForkFrom, Execute, Launch;
    forall t: State | Shape(t) ensures ScheduleContract(t, Callback(pol)(t)) {
      ScheduleMeetsContract(pol, t);
    }
    ChosenIsLaunch(pol, s);
    TickUnfolds(pol, s);
  }
}
