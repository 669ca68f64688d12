/**
 What every tick keeps, under every policy.  The priorities play no part here: each callback
 acts like its simplest variant up to priorities (`SamePlan`), and that is all the proofs use.
 */
module SchedInvariants {
  import opened Seqs
  import opened SchedModel

  // ----- Scripts -----

  /** A process script: resources exist, and each holding period lies within the lifespan. */
  ghost predicate WellFormedProc(p: Proc) {
    && p.lifespan >= 1 && p.age == 0 && p.status == Ready && p.prio == p.prioOrig && p.holding == []
    && (forall q :: q in p.pending ==> q.rid < NR_RESOURCES && q.dur >= 1 && q.at + q.dur <= p.lifespan)
  }

  ghost predicate WellFormed(plan: seq<Proc>) {
    forall i :: 0 <= i < |plan| ==> WellFormedProc(plan[i])
  }

  function Initial(plan: seq<Proc>): (s: State)
    ensures |s.owner| == |s.wait| == NR_RESOURCES
  {
    State(plan, [], seq(|plan|, i => i), None,
          seq(NR_RESOURCES, _ => None), seq(NR_RESOURCES, _ => []), 0)
  }

  // ----- Shapes -----

  lemma EmptiedShape(s: State)
    requires Shape(s)
    ensures Shape(s.(ready := [], cur := None)) && |s.owner| == |s.wait| == NR_RESOURCES
    ensures s.cur.Some? ==> s.cur.value < |s.procs|
  {
  }

  lemma RemovedRids(h: seq<Request>, k: nat)
    requires k < |h| && forall j :: 0 <= j < |h| ==> h[j].rid < NR_RESOURCES
    ensures forall j :: 0 <= j < |RemoveAt(h, k)| ==> RemoveAt(h, k)[j].rid < NR_RESOURCES
  {
  }

  // ----- First pending request at the current age -----

  function FirstDueFrom(pending: seq<Request>, age: nat, k: nat): (d: nat)
    requires k <= |pending|
    ensures k <= d <= |pending|
    ensures forall j :: k <= j < d ==> pending[j].at != age
    ensures d < |pending| ==> pending[d].at == age
    decreases |pending| - k
  {
    if k == |pending| then k else if pending[k].at == age then k else FirstDueFrom(pending, age, k + 1)
  }

  /** The resource a process asks for next at its current age. */
  function Wants(p: Proc): Option<nat> {
    var d := FirstDueFrom(p.pending, p.age, 0);
    if d < |p.pending| then Some(p.pending[d].rid) else None
  }

  // ----- One process -----

  /** The held requests as they look once the entries from k on have been aged by this tick. */
  function Aged(h: seq<Request>, k: nat): (r: seq<Request>)
    requires forall j :: 0 <= j < |h| ==> h[j].dur >= 1
    ensures |r| == |h|
  {
    seq(|h|, j requires 0 <= j < |h| => if j < k then h[j] else h[j].(dur := h[j].dur - 1))
  }

  /** The request of the script that a held request came from. */
  function Origin(h: Request, age: nat): Request
    requires h.at <= age
  {
    h.(dur := h.dur + (age - h.at))
  }

  ghost predicate Fixed(p0: Proc, p: Proc) {
    p.pid == p0.pid && p.lifespan == p0.lifespan && p.prioOrig == p0.prioOrig && p.start == p0.start
  }

  /** Each held request was due at an age not after this one and will be given back on schedule. */
  ghost predicate HeldOnTime(p0: Proc, p: Proc, k: nat) {
    && (forall j :: 0 <= j < |p.holding| ==> p.holding[j].dur >= 1)
    && var h := Aged(p.holding, k);
    && (forall j :: 0 <= j < |h| ==> h[j].at <= p.age && Origin(h[j], p.age) in p0.pending)
    && (forall i, j :: 0 <= i < j < |h| ==> h[i].rid != h[j].rid)
  }

  ghost predicate PendingOnTime(p0: Proc, p: Proc) {
    forall q :: q in p.pending ==> q in p0.pending && q.at >= p.age
  }

  /** No request of the script is dropped: it is pending, held, or was given back on time. */
  ghost predicate Accounted(p0: Proc, p: Proc, k: nat)
    requires forall j :: 0 <= j < |p.holding| ==> p.holding[j].dur >= 1
  {
    forall q :: q in p0.pending ==>
      && (q.at >= p.age ==> q in p.pending || (q.at == p.age && q in Aged(p.holding, k)))
      && (q.at < p.age < q.at + q.dur ==> q.(dur := q.at + q.dur - p.age) in Aged(p.holding, k))
  }

  ghost predicate LocalInv(p0: Proc, p: Proc, k: nat) {
    && Fixed(p0, p) && p.age <= p.lifespan
    && PendingOnTime(p0, p) && HeldOnTime(p0, p, k) && Accounted(p0, p, k)
  }

  // ----- The whole system -----

  /** `k` entries of the current process's holding list have been aged; everyone else's all have. */
  ghost predicate Locals(plan: seq<Proc>, s: State, k: nat) {
    |plan| == |s.procs|
    && forall i :: 0 <= i < |plan| ==> LocalInv(plan[i], s.procs[i], if s.cur == Some(i) then k else |s.procs[i].holding|)
  }

  ghost predicate SameButPrio(ps: seq<Proc>, qs: seq<Proc>) {
    |ps| == |qs| && forall i :: 0 <= i < |ps| ==> qs[i] == ps[i].(prio := qs[i].prio)
  }

  /** Two states that differ in priorities only. */
  ghost predicate SamePlan(s: State, t: State) {
    t == s.(procs := t.procs) && SameButPrio(s.procs, t.procs)
  }

  /** Members of the queues are where they should be. */
  ghost predicate Queues(plan: seq<Proc>, s: State)
    requires Shape(s) && |plan| == |s.procs|
  {
    && NoDup(s.fork) && NoDup(s.ready)
    && (forall r :: 0 <= r < NR_RESOURCES ==> NoDup(s.wait[r]))
    && (forall i :: i in s.fork ==> s.procs[i] == plan[i].(prio := s.procs[i].prio) && i !in s.ready)
    && (forall i :: i in s.ready ==> s.procs[i].status == Ready && s.procs[i].age < s.procs[i].lifespan)
    && (forall r, i :: 0 <= r < NR_RESOURCES && i in s.wait[r] ==>
      s.procs[i].status == Blocked && Wants(s.procs[i]) == Some(r))
  }

  /** Where a process is, given its status. */
  ghost predicate InPlace(s: State, i: nat)
    requires Shape(s) && i < |s.procs|
  {
    match s.procs[i].status
    case Ready => i in s.fork || i in s.ready
    case Running => s.cur == Some(i)
    case Blocked =>
      (match Wants(s.procs[i])
       case Some(r) => r < NR_RESOURCES && i in s.wait[r]
       case None => false)
    case Exited => s.procs[i].age == s.procs[i].lifespan
  }

  ghost predicate Placed(s: State)
    requires Shape(s)
  {
    && (forall i :: 0 <= i < |s.procs| ==> InPlace(s, i))
    && (s.cur.Some? ==> s.procs[s.cur.value].status == Running || s.procs[s.cur.value].status == Blocked)
  }

  ghost predicate Holds(p: Proc, r: nat) {
    exists k :: 0 <= k < |p.holding| && p.holding[k].rid == r
  }

  /** Owner fields and holding lists say the same. */
  ghost predicate Owners(s: State)
    requires Shape(s)
  {
    forall r, i :: 0 <= r < NR_RESOURCES && 0 <= i < |s.procs| ==> (s.owner[r] == Some(i) <==> Holds(s.procs[i], r))
  }

  ghost predicate Consistent(plan: seq<Proc>, s: State, k: nat) {
    Shape(s) && WellFormed(plan) && Locals(plan, s, k) && Queues(plan, s) && Placed(s) && Owners(s)
  }

  ghost predicate ReadyWaker(s: State, r: nat)
    requires Shape(s)
  {
    exists w :: w in s.ready && Wants(s.procs[w]) == Some(r)
  }

  /** A free resource with waiters has a process on its way to it. */
  ghost predicate NoLostWakeup(s: State)
    requires Shape(s)
  {
    forall r :: 0 <= r < NR_RESOURCES && s.owner[r].None? && s.wait[r] != [] ==> ReadyWaker(s, r)
  }

  /** The same while the process on its way may be the one just chosen. */
  ghost predicate WakeupUnderWay(s: State)
    requires Shape(s)
  {
    forall r :: 0 <= r < NR_RESOURCES && s.owner[r].None? && s.wait[r] != [] ==>
      ReadyWaker(s, r) || (s.cur.Some? && Wants(s.procs[s.cur.value]) == Some(r))
  }

  function Held(s: State): nat {
    if s.cur.Some? && s.cur.value < |s.procs| then |s.procs[s.cur.value].holding| else 0
  }

  /** Consistent, with no holding list half aged. */
  ghost predicate Settled(plan: seq<Proc>, s: State) {
    Consistent(plan, s, Held(s))
  }

  /** Fork times: nobody left in the fork queue is overdue. */
  ghost predicate ForkDue(s: State, ticks: int)
    requires Shape(s)
  {
    forall i :: i in s.fork ==> s.procs[i].start >= ticks
  }

  /** The invariant at every tick boundary. */
  ghost predicate Inv(plan: seq<Proc>, s: State) {
    Settled(plan, s) && NoLostWakeup(s) && ForkDue(s, s.ticks)
  }

  // ----- Start -----

  lemma InitialInv(plan: seq<Proc>)
    requires WellFormed(plan)
    ensures Inv(plan, Initial(plan))
  {
    var s := Initial(plan);
    forall i | 0 <= i < |plan| ensures LocalInv(plan[i], s.procs[i], 0) && InPlace(s, i) {
      assert s.fork[i] == i;
    }
    forall i, k | 0 <= i < |plan| && 0 <= k < |plan[i].pending| ensures plan[i].pending[k].rid < NR_RESOURCES {
      assert plan[i].pending[k] in plan[i].pending;
    }
  }

  // ----- Priorities do not matter -----

  lemma LocalBlind(p0: Proc, p: Proc, x: nat, st: Status, k: nat)
    requires LocalInv(p0, p, k)
    ensures LocalInv(p0, p.(prio := x, status := st), k)
    ensures Wants(p.(prio := x, status := st)) == Wants(p)
  {
  }

  lemma PriorityBlind(plan: seq<Proc>, s: State, t: State, k: nat)
    requires Consistent(plan, s, k) && SamePlan(s, t)
    ensures Consistent(plan, t, k) && Held(t) == Held(s)
    ensures NoLostWakeup(s) ==> NoLostWakeup(t)
    ensures WakeupUnderWay(s) ==> WakeupUnderWay(t)
    ensures forall x :: ForkDue(s, x) ==> ForkDue(t, x)
  {
    hide LocalInv, Wants;
    assert Shape(t);
    forall i | 0 <= i < |s.procs|
      ensures Wants(t.procs[i]) == Wants(s.procs[i])
      ensures LocalInv(plan[i], t.procs[i], if s.cur == Some(i) then k else |s.procs[i].holding|)
    {
      LocalBlind(plan[i], s.procs[i], t.procs[i].prio, s.procs[i].status, if s.cur == Some(i) then k else |s.procs[i].holding|);
    }
    assert Placed(t) by {
      forall i | 0 <= i < |s.procs| ensures InPlace(t, i) {
        assert InPlace(s, i);
      }
    }
    assert Owners(t) by {
      forall r, i | 0 <= r < NR_RESOURCES && 0 <= i < |s.procs| ensures Holds(t.procs[i], r) <==> Holds(s.procs[i], r) {
      }
    }
    forall r | 0 <= r < NR_RESOURCES && ReadyWaker(s, r) ensures ReadyWaker(t, r) {
      var w :| w in s.ready && Wants(s.procs[w]) == Some(r);
      assert w in t.ready;
    }
  }

  // ----- Forking -----

  lemma ForkOne(plan: seq<Proc>, s: State, k: nat)
    requires Settled(plan, s) && NoLostWakeup(s) && k < |s.fork|
    ensures var t := s.(fork := RemoveAt(s.fork, k), ready := s.ready + [s.fork[k]]);
      Settled(plan, t) && NoLostWakeup(t) && s.procs[s.fork[k]].status == Ready
  {
    hide LocalInv, Wants, Holds;
    var i := s.fork[k];
    var t := s.(fork := RemoveAt(s.fork, k), ready := s.ready + [i]);
    RemoveAtKeepsOthers(s.fork, k);
    assert i in s.fork && Shape(t);
    assert Queues(plan, t);
    assert Placed(t) by {
      forall j | 0 <= j < |s.procs| ensures InPlace(t, j) {
        assert InPlace(s, j);
      }
    }
    forall r | 0 <= r < NR_RESOURCES && ReadyWaker(s, r) ensures ReadyWaker(t, r) {
      var w :| w in s.ready && Wants(s.procs[w]) == Some(r);
      assert w in t.ready;
    }
  }

  /** Forking moves processes to the tail of the ready queue and changes nothing else. */
  lemma {:induction false} ForkFromKeeps(plan: seq<Proc>, s: State, k: nat)
    requires Settled(plan, s) && NoLostWakeup(s) && k <= |s.fork|
    requires forall j :: 0 <= j < k ==> s.procs[s.fork[j]].start > s.ticks
    ensures var t := ForkFrom(s, k);
      && Settled(plan, t) && NoLostWakeup(t) && ForkDue(t, s.ticks + 1)
      && s.ready <= t.ready && t == s.(fork := t.fork, ready := t.ready)
      && (forall i :: i in t.ready ==> i in s.ready || i in s.fork)
    decreases |s.fork| - k
  {
    hide Locals, Queues, Placed, Owners, NoLostWakeup;
    if k < |s.fork| {
      var i := s.fork[k];
      if s.procs[i].start <= s.ticks {
        ForkOne(plan, s, k);
        var t := s.(fork := RemoveAt(s.fork, k), ready := s.ready + [i]);
        assert s.procs[i := s.procs[i].(status := Ready)] == s.procs;
        ForkFromKeeps(plan, t, k);
      } else {
        ForkFromKeeps(plan, s, k + 1);
      }
    }
  }

  /** One step of the fork walk over a due process at the head. */
  lemma HeadDue(s: State, t: State)
    requires Shape(s) && s.fork != [] && s.procs[s.fork[0]].start <= s.ticks
    requires var i := s.fork[0];
      t == s.(fork := s.fork[1..], ready := s.ready + [i], procs := s.procs[i := s.procs[i].(status := Ready)])
    ensures Shape(t) && ForkFrom(s, 0) == ForkFrom(t, 0)
  {
    assert RemoveAt(s.fork, 0) == s.fork[1..];
    hide RemoveAt;
  }

  lemma {:induction false} NobodyDue(s: State, k: nat)
    requires Shape(s) && k <= |s.fork| && forall i :: i in s.fork ==> i < |s.procs| && s.procs[i].start > s.ticks
    ensures ForkFrom(s, k) == s
    decreases |s.fork| - k
  {
    if k < |s.fork| {
      assert s.fork[k] in s.fork;
      NobodyDue(s, k + 1);
    }
  }

  // ----- Dispatching -----

  /** What the loop needs of a schedule callback. */
  ghost predicate ScheduleContract(s: State, u: State)
    requires Shape(s)
  {
    && SameButPrio(s.procs, u.procs)
    && var v := u.(procs := s.procs);
       var q := Candidates(s);
       || (Runnable(s) && v == s)
       || (q == [] && v == s.(ready := [], cur := None))
       || (exists k :: 0 <= k < |q| && v == s.(ready := RemoveAt(q, k), cur := Some(q[k])))
  }

  lemma ScheduleMeetsContract(pol: Policy, s: State)
    requires Shape(s)
    ensures ScheduleContract(s, Schedule(pol, s))
  {
    var u := Schedule(pol, s);
    var q := Candidates(s);
    hide Shape, FirstMax;
    assert SameButPrio(s.procs, u.procs);
    if !(Runnable(s) && !Preemptive(pol)) && q != [] {
      var k :| 0 <= k < |q| && u == s.(ready := RemoveAt(q, k), cur := Some(q[k]), procs := u.procs);
      assert u.(procs := s.procs) == s.(ready := RemoveAt(q, k), cur := Some(q[k]));
    }
  }

  /** The state a tick runs in, given what the schedule callback left. */
  function Launch(s: State, u: State): (t: State)
    requires Shape(u) && (s.cur.Some? ==> s.cur.value < |u.procs|)
    ensures Shape(t)
  {
    Start(Retire(u, s.cur))
  }

  /** What holds between the scheduling decision and the first acquisition. */
  ghost predicate Launched(plan: seq<Proc>, t: State) {
    && Settled(plan, t) && WakeupUnderWay(t)
    && (t.cur.None? ==> t.ready == [])
    && (t.cur.Some? ==>
      && t.procs[t.cur.value].status == Running && t.procs[t.cur.value].age < t.procs[t.cur.value].lifespan)
  }

  /** The candidates are distinct runnable processes; the current one is among them unless it is done or blocked. */
  lemma CandidateFacts(plan: seq<Proc>, s: State)
    requires Settled(plan, s)
    ensures NoDup(Candidates(s))
    ensures forall i :: i in Candidates(s) ==>
      && i < |s.procs| && i !in s.fork && s.procs[i].age < s.procs[i].lifespan
      && (s.procs[i].status == Ready || s.procs[i].status == Running)
  {
    hide LocalInv, Wants, Holds;
    if Runnable(s) {
      assert InPlace(s, s.cur.value);
      if s.cur.value in s.fork {
        assert false;
      }
      AppendNoDup(s.ready, s.cur.value);
    }
  }

  lemma StatusKeepsLocals(plan: seq<Proc>, s: State, t: State)
    requires Settled(plan, s) && Shape(t) && |t.procs| == |s.procs|
    requires forall i :: 0 <= i < |s.procs| ==> t.procs[i] == s.procs[i].(status := t.procs[i].status, prio := t.procs[i].prio)
    ensures Locals(plan, t, Held(t))
    ensures forall i :: 0 <= i < |s.procs| ==> Wants(t.procs[i]) == Wants(s.procs[i])
    ensures t.owner == s.owner ==> Owners(t)
  {
    hide LocalInv, Wants, Queues, Placed;
    forall i | 0 <= i < |s.procs|
      ensures Wants(t.procs[i]) == Wants(s.procs[i]) && LocalInv(plan[i], t.procs[i], |t.procs[i].holding|)
    {
      LocalBlind(plan[i], s.procs[i], t.procs[i].prio, t.procs[i].status, |s.procs[i].holding|);
    }
    forall r, i | 0 <= r < NR_RESOURCES && 0 <= i < |s.procs| ensures Holds(t.procs[i], r) <==> Holds(s.procs[i], r) {
    }
  }

  /** Nobody outlives its lifespan, and whoever still asks for a resource has lifetime left. */
  lemma AgeBound(plan: seq<Proc>, s: State)
    requires Settled(plan, s)
    ensures forall i :: 0 <= i < |s.procs| ==> s.procs[i].age <= s.procs[i].lifespan
    ensures forall i :: 0 <= i < |s.procs| && Wants(s.procs[i]).Some? ==> s.procs[i].age < s.procs[i].lifespan
  {
    hide Aged, Accounted, HeldOnTime, Holds, Queues, Placed;
    forall i | 0 <= i < |s.procs|
      ensures s.procs[i].age <= s.procs[i].lifespan
      ensures Wants(s.procs[i]).Some? ==> s.procs[i].age < s.procs[i].lifespan
    {
      assert LocalInv(plan[i], s.procs[i], |s.procs[i].holding|);
      assert WellFormedProc(plan[i]);
      var d := FirstDueFrom(s.procs[i].pending, s.procs[i].age, 0);
      if d < |s.procs[i].pending| {
        assert s.procs[i].pending[d] in s.procs[i].pending;
      }
    }
  }

  lemma ForkedAreReady(plan: seq<Proc>, s: State)
    requires Settled(plan, s)
    ensures forall i :: i in s.fork ==> s.procs[i].status == Ready
  {
    hide LocalInv, Wants, Holds;
    forall i | i in s.fork ensures s.procs[i].status == Ready {
      assert WellFormedProc(plan[i]);
    }
  }

  /** The status of process i once `t.cur` has been chosen in `s`. */
  function NextStatus(s: State, cur: Option<nat>, i: nat): Status
    requires i < |s.procs|
  {
    if cur == Some(i) then Running
    else if s.cur != Some(i) then s.procs[i].status
    else if s.procs[i].age == s.procs[i].lifespan then Exited
    else if s.procs[i].status == Running then Ready else s.procs[i].status
  }

  /** `t` is `s` with another choice of current process and the statuses to match. */
  ghost predicate Relaunch(s: State, t: State)
    requires Shape(s)
  {
    && Shape(t) && |t.procs| == |s.procs| && t.fork == s.fork && t.wait == s.wait && t.owner == s.owner
    && t.ticks == s.ticks
    && (forall i :: 0 <= i < |s.procs| ==> t.procs[i] == s.procs[i].(status := NextStatus(s, t.cur, i)))
    && (forall i :: i in t.ready <==> i in Candidates(s) && t.cur != Some(i))
    && NoDup(t.ready) && (t.cur.Some? ==> t.cur.value in Candidates(s))
    && (t.cur.None? ==> t.ready == [])
  }

  /** What is known of the processes a launch touches. */
  ghost predicate LaunchFacts(s: State)
    requires Shape(s)
  {
    && (forall i :: i in Candidates(s) ==>
      && i < |s.procs| && i !in s.fork && s.procs[i].age < s.procs[i].lifespan
      && (s.procs[i].status == Ready || s.procs[i].status == Running))
    && (forall i :: i in s.fork ==> s.procs[i].status == Ready)
    && (forall i :: 0 <= i < |s.procs| && s.procs[i].status == Blocked ==> s.procs[i].age < s.procs[i].lifespan)
    && (forall i :: 0 <= i < |s.procs| ==> s.procs[i].age <= s.procs[i].lifespan)
  }

  lemma LaunchFactsHold(plan: seq<Proc>, s: State)
    requires Settled(plan, s)
    ensures LaunchFacts(s)
  {
    AgeBound(plan, s);
    ForkedAreReady(plan, s);
    CandidateFacts(plan, s);
    hide LocalInv, Wants, Holds, Owners, Locals, Queues;
    forall i | 0 <= i < |s.procs| && s.procs[i].status == Blocked ensures s.procs[i].age < s.procs[i].lifespan {
      assert InPlace(s, i);
    }
  }

  lemma RelaunchQueues(plan: seq<Proc>, s: State, t: State)
    requires |plan| == |s.procs| && Shape(s) && Relaunch(s, t) && Queues(plan, s) && LaunchFacts(s) && Placed(s)
    requires forall i :: 0 <= i < |s.procs| ==> Wants(t.procs[i]) == Wants(s.procs[i])
    ensures Queues(plan, t)
  {
    hide Wants, NoDup;
    forall i | i in t.fork ensures t.procs[i] == plan[i].(prio := t.procs[i].prio) && i !in t.ready {
      assert s.procs[i].status == Ready;
      assert s.cur != Some(i);
      assert t.cur != Some(i);
    }
    forall r, i | 0 <= r < NR_RESOURCES && i in t.wait[r]
      ensures t.procs[i].status == Blocked && Wants(t.procs[i]) == Some(r)
    {
      assert s.procs[i].status == Blocked;
      assert t.cur != Some(i);
    }
  }

  lemma RelaunchPlaced(s: State, t: State)
    requires Shape(s) && Relaunch(s, t) && Placed(s) && LaunchFacts(s)
    requires forall i :: 0 <= i < |s.procs| ==> Wants(t.procs[i]) == Wants(s.procs[i])
    ensures Placed(t)
  {
    hide Wants, NoDup;
    forall j | 0 <= j < |s.procs| ensures InPlace(t, j) {
      assert InPlace(s, j);
    }
  }

  lemma RelaunchWakeup(s: State, t: State)
    requires Shape(s) && Relaunch(s, t) && NoLostWakeup(s)
    requires forall i :: 0 <= i < |s.procs| ==> Wants(t.procs[i]) == Wants(s.procs[i])
    ensures WakeupUnderWay(t)
  {
    hide Wants, NoDup;
    forall r | 0 <= r < NR_RESOURCES && ReadyWaker(s, r)
      ensures ReadyWaker(t, r) || (t.cur.Some? && Wants(t.procs[t.cur.value]) == Some(r))
    {
      var w :| w in s.ready && Wants(s.procs[w]) == Some(r);
      assert w in Candidates(s);
      assert t.cur == Some(w) || w in t.ready;
    }
  }

  lemma RelaunchKeeps(plan: seq<Proc>, s: State, t: State)
    requires Settled(plan, s) && Relaunch(s, t) && NoLostWakeup(s)
    ensures Launched(plan, t)
  {
    LaunchFactsHold(plan, s);
    StatusKeepsLocals(plan, s, t);
    RelaunchQueues(plan, s, t);
    RelaunchPlaced(s, t);
    RelaunchWakeup(s, t);
  }

  lemma LaunchRelaunches(s: State, u: State)
    requires Shape(s) && Placed(s) && ScheduleContract(s, u) && u.procs == s.procs
    requires LaunchFacts(s) && NoDup(Candidates(s))
    ensures Shape(u) && Relaunch(s, Launch(s, u))
  {
    hide InPlace, Wants;
    var q := Candidates(s);
    if Runnable(s) && u == s {
      var c := s.cur.value;
      assert Launch(s, s).procs == s.procs;
      assert q[|s.ready|] == c;
      forall j | 0 <= j < |s.ready| ensures s.ready[j] != c {
        assert q[j] == s.ready[j];
      }
      assert NoDup(s.ready) by {
        forall i, j | 0 <= i < j < |s.ready| ensures s.ready[i] != s.ready[j] {
          assert q[i] == s.ready[i] && q[j] == s.ready[j];
        }
      }
    } else if q != [] {
      var k :| 0 <= k < |q| && u == s.(ready := RemoveAt(q, k), cur := Some(q[k]));
      LaunchPicked(s, k);
    }
  }

  lemma LaunchPicked(s: State, k: nat)
    requires Shape(s) && LaunchFacts(s) && NoDup(Candidates(s)) && k < |Candidates(s)|
    ensures var q := Candidates(s);
      var u := s.(ready := RemoveAt(q, k), cur := Some(q[k]));
      Shape(u) && Relaunch(s, Launch(s, u))
  {
    var q := Candidates(s);
    var u := s.(ready := RemoveAt(q, k), cur := Some(q[k]));
    RemoveAtKeepsOthers(q, k);
    hide RemoveAt;
    assert q[k] in q;
    forall j | 0 <= j < |u.ready| ensures u.ready[j] < |s.procs| {
      assert u.ready[j] in u.ready;
    }
  }

  lemma LaunchBlind(plan: seq<Proc>, w: State, t: State)
    requires Launched(plan, w) && SamePlan(w, t)
    ensures Launched(plan, t)
  {
    PriorityBlind(plan, w, t, Held(w));
  }

  lemma LaunchSamePlan(s: State, u: State)
    requires Shape(s) && SameButPrio(s.procs, u.procs) && Shape(u.(procs := s.procs))
    ensures Shape(u) && SamePlan(Launch(s, u.(procs := s.procs)), Launch(s, u))
  {
  }

  /** Whatever the policy chose, the tick starts in good order. */
  lemma LaunchKeeps(plan: seq<Proc>, s: State, u: State)
    requires Settled(plan, s) && NoLostWakeup(s) && ScheduleContract(s, u)
    ensures Shape(u) && Launched(plan, Launch(s, u))
    ensures var t := Launch(s, u); t.fork == s.fork && t.ticks == s.ticks
  {
    hide NoLostWakeup, Locals, Owners, Queues, Launched, Candidates, Runnable;
    var v := u.(procs := s.procs);
    LaunchFactsHold(plan, s);
    CandidateFacts(plan, s);
    LaunchRelaunches(s, v);
    RelaunchKeeps(plan, s, Launch(s, v));
    LaunchSamePlan(s, u);
    LaunchBlind(plan, Launch(s, v), Launch(s, u));
  }

  // ----- Acquiring -----

  /** Every acquire callback acts like fcfs_acquire up to priorities. */
  lemma AcquireUpToPrio(pol: Policy, s: State, r: nat)
    requires Shape(s) && s.cur.Some? && r < NR_RESOURCES
    ensures Acquire(pol, s, r).1 == Acquire(Fcfs, s, r).1
    ensures SamePlan(Acquire(Fcfs, s, r).0, Acquire(pol, s, r).0)
  {
  }

  /** The current process is at position k of its acquisition walk. */
  ghost predicate Acquiring(plan: seq<Proc>, s: State, k: nat) {
    && Settled(plan, s) && WakeupUnderWay(s) && s.cur.Some?
    && var p := s.procs[s.cur.value];
    && p.status == Running && p.age < p.lifespan && k <= |p.pending|
    && (forall j :: 0 <= j < k ==> p.pending[j].at != p.age)
  }

  lemma LocalTake(p0: Proc, p: Proc, k: nat)
    requires LocalInv(p0, p, |p.holding|) && k < |p.pending| && p.pending[k].at == p.age
    requires WellFormedProc(p0) && !Holds(p, p.pending[k].rid)
    ensures LocalInv(p0, MovePending(p, k), |p.holding| + 1)
  {
    hide Accounted, HeldOnTime, Aged, Origin;
    HeldDurations(p0, p, |p.holding|);
    TakePending(p0, p, k);
    TakeHeld(p0, p, k);
    TakeAccounted(p0, p, k);
  }

  lemma TakePending(p0: Proc, p: Proc, k: nat)
    requires PendingOnTime(p0, p) && k < |p.pending|
    ensures PendingOnTime(p0, MovePending(p, k))
  {
    forall q | q in MovePending(p, k).pending ensures q in p.pending {
    }
  }

  lemma AllAged(h: seq<Request>)
    requires forall j :: 0 <= j < |h| ==> h[j].dur >= 1
    ensures Aged(h, |h|) == h
  {
  }

  lemma TakeHeld(p0: Proc, p: Proc, k: nat)
    requires PendingOnTime(p0, p) && HeldOnTime(p0, p, |p.holding|) && k < |p.pending| && p.pending[k].at == p.age
    requires WellFormedProc(p0) && !Holds(p, p.pending[k].rid)
    ensures HeldOnTime(p0, MovePending(p, k), |p.holding| + 1)
  {
    var t := MovePending(p, k);
    var q := p.pending[k];
    assert q in p.pending && q in p0.pending;
    HeldDurations(p0, p, |p.holding|);
    AllAged(p.holding);
    AllAged(t.holding);
    assert q == Origin(q, p.age);
    hide Aged, PendingOnTime;
    assert forall j :: 0 <= j < |p.holding| ==> p.holding[j].rid != q.rid;
  }

  lemma TakeAccounted(p0: Proc, p: Proc, k: nat)
    requires PendingOnTime(p0, p) && k < |p.pending| && p.pending[k].at == p.age && WellFormedProc(p0)
    requires (forall j :: 0 <= j < |p.holding| ==> p.holding[j].dur >= 1) && Accounted(p0, p, |p.holding|)
    ensures var t := MovePending(p, k);
      (forall j :: 0 <= j < |t.holding| ==> t.holding[j].dur >= 1) && Accounted(p0, t, |p.holding| + 1)
  {
    hide Aged, PendingOnTime, WellFormedProc;
    ScriptedRequest(p0, p, k);
    var t := MovePending(p, k);
    AllAged(p.holding);
    AllAged(t.holding);
    MovedStays(p, k);
    assert forall x :: x in p.holding ==> x in t.holding;
    hide MovePending, RemoveAt;
  }

  lemma ScriptedRequest(p0: Proc, p: Proc, k: nat)
    requires PendingOnTime(p0, p) && k < |p.pending| && WellFormedProc(p0)
    ensures p.pending[k] in p0.pending && p.pending[k].dur >= 1
  {
    assert p.pending[k] in p.pending;
  }

  lemma MovedStays(p: Proc, k: nat)
    requires k < |p.pending|
    ensures forall x :: x in p.pending ==> x in MovePending(p, k).pending || x == p.pending[k]
    ensures p.pending[k] in MovePending(p, k).holding
  {
    var t := MovePending(p, k);
    forall x | x in p.pending && x != p.pending[k] ensures x in t.pending {
      var j :| 0 <= j < |p.pending| && p.pending[j] == x;
      assert t.pending[if j < k then j else j - 1] == x;
    }
    assert t.holding[|p.holding|] == p.pending[k];
  }

  /** The state after a free resource has been taken for the k-th pending request. */
  function Taken(s: State, k: nat): State
    requires Shape(s) && s.cur.Some? && k < |s.procs[s.cur.value].pending|
  {
    var c := s.cur.value;
    s.(owner := s.owner[s.procs[c].pending[k].rid := Some(c)], procs := s.procs[c := MovePending(s.procs[c], k)])
  }

  lemma TakenWants(p: Proc, k: nat)
    requires k < |p.pending| && p.pending[k].at == p.age
    requires forall j :: 0 <= j < k ==> p.pending[j].at != p.age
    ensures Wants(p) == Some(p.pending[k].rid)
  {
  }

  lemma TakeLocals(plan: seq<Proc>, s: State, k: nat)
    requires Acquiring(plan, s, k) && k < |s.procs[s.cur.value].pending|
    requires var p := s.procs[s.cur.value]; p.pending[k].at == p.age && s.owner[p.pending[k].rid].None?
    ensures Shape(Taken(s, k)) && Locals(plan, Taken(s, k), Held(Taken(s, k)))
  {
    hide LocalInv, Wants, Queues, Placed, WakeupUnderWay;
    var c := s.cur.value;
    var t := Taken(s, k);
    assert !Holds(s.procs[c], s.procs[c].pending[k].rid);
    LocalTake(plan[c], s.procs[c], k);
    forall i | 0 <= i < |plan| && i != c ensures LocalInv(plan[i], t.procs[i], |t.procs[i].holding|) {
      assert LocalInv(plan[i], s.procs[i], |s.procs[i].holding|);
    }
  }

  lemma TakeOwners(plan: seq<Proc>, s: State, k: nat)
    requires Acquiring(plan, s, k) && k < |s.procs[s.cur.value].pending|
    requires s.owner[s.procs[s.cur.value].pending[k].rid].None? && Shape(Taken(s, k))
    ensures Owners(Taken(s, k))
  {
    hide LocalInv, Wants, Queues, Placed, WakeupUnderWay, Locals;
    var c := s.cur.value;
    var t := Taken(s, k);
    var q := s.procs[c].pending[k];
    forall r, i | 0 <= r < NR_RESOURCES && 0 <= i < |s.procs|
      ensures t.owner[r] == Some(i) <==> Holds(t.procs[i], r)
    {
      assert s.owner[r] == Some(i) <==> Holds(s.procs[i], r);
      if i == c {
        assert t.procs[c].holding[|s.procs[c].holding|] == q;
        if Holds(s.procs[c], r) {
          var j :| 0 <= j < |s.procs[c].holding| && s.procs[c].holding[j].rid == r;
          assert t.procs[c].holding[j].rid == r;
        }
      }
    }
  }

  lemma TakeQueues(plan: seq<Proc>, s: State, k: nat)
    requires Acquiring(plan, s, k) && k < |s.procs[s.cur.value].pending| && Shape(Taken(s, k))
    ensures Queues(plan, Taken(s, k)) && Placed(Taken(s, k))
  {
    hide LocalInv, Wants, WakeupUnderWay, Locals, Owners, WellFormed;
    var c := s.cur.value;
    var t := Taken(s, k);
    assert c !in s.fork by {
      ForkedAreReady(plan, s);
    }
    forall i | 0 <= i < |s.procs| ensures InPlace(t, i) {
      assert InPlace(s, i);
    }
  }

  lemma TakeWakeup(plan: seq<Proc>, s: State, k: nat)
    requires Acquiring(plan, s, k) && k < |s.procs[s.cur.value].pending| && Shape(Taken(s, k))
    requires var p := s.procs[s.cur.value]; p.pending[k].at == p.age
    ensures WakeupUnderWay(Taken(s, k))
  {
    hide LocalInv, Wants, Locals, Owners, WellFormed, Placed, NoDup, MovePending;
    var c := s.cur.value;
    var t := Taken(s, k);
    TakenWants(s.procs[c], k);
    forall r | 0 <= r < NR_RESOURCES && ReadyWaker(s, r) ensures ReadyWaker(t, r) {
      var w :| w in s.ready && Wants(s.procs[w]) == Some(r);
      assert w != c;
    }
  }

  lemma TakeKeeps(plan: seq<Proc>, s: State, k: nat)
    requires Acquiring(plan, s, k) && k < |s.procs[s.cur.value].pending|
    requires var p := s.procs[s.cur.value]; p.pending[k].at == p.age && s.owner[p.pending[k].rid].None?
    ensures Acquiring(plan, Taken(s, k), k)
  {
    TakeLocals(plan, s, k);
    TakeOwners(plan, s, k);
    TakeQueues(plan, s, k);
    TakeWakeup(plan, s, k);
  }

  /** The state after the current process has queued for the resource of its k-th pending request. */
  function Waiting(s: State, r: nat): State
    requires Shape(s) && s.cur.Some? && r < NR_RESOURCES
  {
    var c := s.cur.value;
    s.(procs := s.procs[c := s.procs[c].(status := Blocked)], wait := s.wait[r := s.wait[r] + [c]])
  }

  lemma BlockQueues(plan: seq<Proc>, s: State, r: nat)
    requires Shape(s) && |plan| == |s.procs| && Queues(plan, s) && s.cur.Some? && r < NR_RESOURCES
    requires s.procs[s.cur.value].status == Running && s.cur.value !in s.fork
    requires Wants(s.procs[s.cur.value]) == Some(r)
    requires Shape(Waiting(s, r))
    requires forall i :: 0 <= i < |s.procs| ==> Wants(Waiting(s, r).procs[i]) == Wants(s.procs[i])
    ensures Queues(plan, Waiting(s, r))
  {
    hide Wants;
    var c := s.cur.value;
    assert c !in s.wait[r];
    assert c !in s.ready;
    AppendNoDup(s.wait[r], c);
  }

  lemma BlockPlaced(s: State, r: nat)
    requires Shape(s) && s.cur.Some? && r < NR_RESOURCES && Placed(s)
    requires Wants(s.procs[s.cur.value]) == Some(r)
    requires Shape(Waiting(s, r))
    requires forall i :: 0 <= i < |s.procs| ==> Wants(Waiting(s, r).procs[i]) == Wants(s.procs[i])
    ensures Placed(Waiting(s, r))
  {
    hide Wants;
    forall i | 0 <= i < |s.procs| ensures InPlace(Waiting(s, r), i) {
      assert InPlace(s, i);
    }
  }

  lemma BlockWakeup(s: State, r: nat)
    requires Shape(s) && s.cur.Some? && r < NR_RESOURCES && WakeupUnderWay(s) && s.owner[r].Some?
    requires Wants(s.procs[s.cur.value]) == Some(r)
    requires Shape(Waiting(s, r))
    requires forall i :: 0 <= i < |s.procs| ==> Wants(Waiting(s, r).procs[i]) == Wants(s.procs[i])
    ensures NoLostWakeup(Waiting(s, r))
  {
    hide Wants;
    var t := Waiting(s, r);
    forall x | 0 <= x < NR_RESOURCES && ReadyWaker(s, x) ensures ReadyWaker(t, x) {
      var w :| w in s.ready && Wants(s.procs[w]) == Some(x);
      assert w in t.ready;
    }
  }

  lemma BlockKeeps(plan: seq<Proc>, s: State, k: nat)
    requires Acquiring(plan, s, k) && k < |s.procs[s.cur.value].pending|
    requires var p := s.procs[s.cur.value]; p.pending[k].at == p.age && s.owner[p.pending[k].rid].Some?
    ensures var t := Waiting(s, s.procs[s.cur.value].pending[k].rid); Settled(plan, t) && NoLostWakeup(t)
  {
    hide Shape, LocalInv, Wants, Locals, Owners, WellFormed, Queues, Placed, NoLostWakeup, WakeupUnderWay, Waiting;
    BlockFacts(plan, s, k);
    var r := s.procs[s.cur.value].pending[k].rid;
    var t := Waiting(s, r);
    StatusKeepsLocals(plan, s, t);
    BlockQueues(plan, s, r);
    BlockPlaced(s, r);
    BlockWakeup(s, r);
  }

  lemma BlockFacts(plan: seq<Proc>, s: State, k: nat)
    requires Acquiring(plan, s, k) && k < |s.procs[s.cur.value].pending|
    requires var p := s.procs[s.cur.value]; p.pending[k].at == p.age
    ensures Settled(plan, s) && WakeupUnderWay(s) && s.cur.value < |s.procs| == |plan|
    ensures var p := s.procs[s.cur.value];
      var r := p.pending[k].rid;
      && r < NR_RESOURCES && Wants(p) == Some(r) && p.status == Running && s.cur.value !in s.fork
      && Shape(Waiting(s, r)) && |Waiting(s, r).procs| == |s.procs|
      && Waiting(s, r).owner == s.owner
      && (forall i :: 0 <= i < |s.procs| ==> Waiting(s, r).procs[i] == s.procs[i].(status := Waiting(s, r).procs[i].status))
  {
    hide LocalInv, Wants, Owners, WellFormed, Queues, Placed, NoLostWakeup, WakeupUnderWay;
    TakenWants(s.procs[s.cur.value], k);
    ForkedAreReady(plan, s);
    BlockShape(s, s.procs[s.cur.value].pending[k].rid);
    hide Waiting, Shape;
  }

  lemma BlockShape(s: State, r: nat)
    requires Shape(s) && s.cur.Some? && r < NR_RESOURCES
    ensures var t := Waiting(s, r);
      && Shape(t) && |t.procs| == |s.procs| && t.owner == s.owner
      && (forall i :: 0 <= i < |s.procs| ==> t.procs[i] == s.procs[i].(status := t.procs[i].status))
  {
  }

  /** What the acquisition walk leaves: all due requests granted, or a blocked process. */
  ghost predicate Acquired(plan: seq<Proc>, s: State, t: State, ok: bool) {
    && Settled(plan, s) && Settled(plan, t) && NoLostWakeup(t) && t.cur == s.cur && t.cur.Some?
    && t.ready == s.ready && t.fork == s.fork && t.ticks == s.ticks && |t.procs| == |s.procs|
    && var p := t.procs[t.cur.value];
    && p.age == s.procs[t.cur.value].age < p.lifespan
    && (ok ==> p.status == Running && Wants(p).None?)
    && (!ok ==> p.status == Blocked)
  }

  lemma AcquiringBlind(plan: seq<Proc>, s: State, t: State, k: nat)
    requires Acquiring(plan, s, k) && SamePlan(s, t)
    ensures Acquiring(plan, t, k)
  {
    PriorityBlind(plan, s, t, Held(s));
  }

  /** The state after the k-th pending request has been granted by the policy's acquire callback. */
  function Granted(pol: Policy, s: State, k: nat): (t: State)
    requires Shape(s) && s.cur.Some? && k < |s.procs[s.cur.value].pending|
    ensures Shape(t) && t.cur == s.cur && |t.procs| == |s.procs|
  {
    var c := s.cur.value;
    var t := Acquire(pol, s, s.procs[c].pending[k].rid).0;
    t.(procs := t.procs[c := MovePending(t.procs[c], k)])
  }

  /** A granted request keeps the walk in good order, under every policy. */
  lemma GrantKeeps(pol: Policy, plan: seq<Proc>, s: State, k: nat)
    requires Acquiring(plan, s, k) && k < |s.procs[s.cur.value].pending|
    requires var p := s.procs[s.cur.value]; p.pending[k].at == p.age
    requires s.owner[s.procs[s.cur.value].pending[k].rid].None?
    ensures Acquiring(plan, Granted(pol, s, k), k)
  {
    var c := s.cur.value;
    AcquireUpToPrio(pol, s, s.procs[c].pending[k].rid);
    TakeKeeps(plan, s, k);
    hide Locals, Owners, Queues, Placed, WakeupUnderWay;
    assert SamePlan(Taken(s, k), Granted(pol, s, k));
    AcquiringBlind(plan, Taken(s, k), Granted(pol, s, k), k);
  }

  lemma FullyAcquired(plan: seq<Proc>, s: State, k: nat)
    requires Acquiring(plan, s, k) && k >= |s.procs[s.cur.value].pending|
    ensures NoLostWakeup(s) && Wants(s.procs[s.cur.value]).None?
  {
  }

  lemma {:induction false} AcquireFromKeeps(pol: Policy, plan: seq<Proc>, s: State, k: nat)
    requires Acquiring(plan, s, k)
    ensures var (t, ok) := AcquireFrom(pol, s, k); Acquired(plan, s, t, ok)
    decreases |s.procs[s.cur.value].pending| - k
  {
    hide Locals, Owners, Queues, Placed, NoLostWakeup;
    var c := s.cur.value;
    if k >= |s.procs[c].pending| {
      FullyAcquired(plan, s, k);
    } else if s.procs[c].pending[k].at != s.procs[c].age {
      AcquireFromKeeps(pol, plan, s, k + 1);
    } else {
      var r := s.procs[c].pending[k].rid;
      var (t, ok) := Acquire(pol, s, r);
      AcquireUpToPrio(pol, s, r);
      if ok {
        GrantKeeps(pol, plan, s, k);
        AcquireFromKeeps(pol, plan, Granted(pol, s, k), k);
      } else {
        BlockKeeps(plan, s, k);
        PriorityBlind(plan, Waiting(s, r), t, Held(Waiting(s, r)));
      }
    }
  }

  // ----- Ageing and releasing -----

  /** The current process is at position k of its release walk, one tick older than when it started. */
  ghost predicate Releasing(plan: seq<Proc>, s: State, k: nat) {
    && Consistent(plan, s, k) && NoLostWakeup(s) && s.cur.Some?
    && k <= |s.procs[s.cur.value].holding| && s.procs[s.cur.value].status == Running
  }

  lemma LocalAgeHeld(p0: Proc, p: Proc)
    requires HeldOnTime(p0, p, |p.holding|)
    ensures HeldOnTime(p0, p.(age := p.age + 1), 0)
  {
    var t := p.(age := p.age + 1);
    var h, g := Aged(p.holding, |p.holding|), Aged(p.holding, 0);
    assert h == p.holding;
    forall j | 0 <= j < |g| ensures g[j].at <= t.age && Origin(g[j], t.age) in p0.pending {
      assert Origin(g[j], t.age) == Origin(h[j], p.age);
    }
  }

  lemma AgedMember(h: seq<Request>, x: Request)
    requires (forall j :: 0 <= j < |h| ==> h[j].dur >= 1) && x in h
    ensures x.(dur := x.dur - 1) in Aged(h, 0)
  {
    var j :| 0 <= j < |h| && h[j] == x;
    assert Aged(h, 0)[j] == x.(dur := x.dur - 1);
  }

  lemma NothingDue(p: Proc)
    requires Wants(p).None?
    ensures forall q :: q in p.pending ==> q.at != p.age
  {
    forall q | q in p.pending ensures q.at != p.age {
      var j :| 0 <= j < |p.pending| && p.pending[j] == q;
    }
  }

  lemma LocalAgeAccounted(p0: Proc, p: Proc)
    requires LocalInv(p0, p, |p.holding|) && Wants(p).None?
    ensures Accounted(p0, p.(age := p.age + 1), 0)
  {
    hide PendingOnTime, Origin, WellFormedProc, HeldOnTime, Wants, FirstDueFrom, Aged;
    NothingDue(p);
    HeldDurations(p0, p, |p.holding|);
    var t := p.(age := p.age + 1);
    AllAged(p.holding);
    forall q | q in p0.pending
      ensures q.at >= t.age ==> q in t.pending
      ensures q.at < t.age < q.at + q.dur ==> q.(dur := q.at + q.dur - t.age) in Aged(t.holding, 0)
    {
      if q.at < t.age < q.at + q.dur {
        var x := q.(dur := q.at + q.dur - p.age);
        assert x in p.holding;
        AgedMember(p.holding, x);
      }
    }
  }

  lemma LocalAge(p0: Proc, p: Proc)
    requires LocalInv(p0, p, |p.holding|) && Wants(p).None? && p.age < p.lifespan
    ensures LocalInv(p0, p.(age := p.age + 1), 0)
  {
    hide HeldOnTime, Accounted;
    HeldDurations(p0, p, |p.holding|);
    LocalAgeHeld(p0, p);
    LocalAgeAccounted(p0, p);
    forall q | q in p.pending ensures q.at >= p.age + 1 {
      var j :| 0 <= j < |p.pending| && p.pending[j] == q;
    }
  }

  lemma AgeKeeps(plan: seq<Proc>, s: State)
    requires Settled(plan, s) && NoLostWakeup(s) && s.cur.Some?
    requires var p := s.procs[s.cur.value]; p.status == Running && p.age < p.lifespan && Wants(p).None?
    ensures Releasing(plan, AgeCurrent(s), 0)
  {
    hide LocalInv, Wants, Queues, Placed, Owners, NoLostWakeup, Shape, WellFormedProc;
    assert Shape(s) && s.cur.value < |s.procs| == |plan| by {
      SettledShape(plan, s);
    }
    ForkedAreReady(plan, s);
    var c := s.cur.value;
    var t := AgeCurrent(s);
    assert LocalInv(plan[c], s.procs[c], |s.procs[c].holding|);
    LocalAge(plan[c], s.procs[c]);
    forall i | 0 <= i < |plan| && i != c ensures LocalInv(plan[i], t.procs[i], |t.procs[i].holding|) {
      assert LocalInv(plan[i], s.procs[i], |s.procs[i].holding|);
    }
    AgePlaces(plan, s);
  }

  lemma SettledShape(plan: seq<Proc>, s: State)
    requires Settled(plan, s)
    ensures Shape(s) && |s.procs| == |plan| && (s.cur.Some? ==> s.cur.value < |s.procs|)
  {
    hide LocalInv, Wants, Queues, Placed, Owners;
  }

  lemma AgePlaces(plan: seq<Proc>, s: State)
    requires Shape(s) && |plan| == |s.procs| && Queues(plan, s) && Placed(s) && Owners(s) && NoLostWakeup(s)
    requires s.cur.Some? && s.procs[s.cur.value].status == Running && s.cur.value !in s.fork
    ensures var t := AgeCurrent(s); Queues(plan, t) && Placed(t) && Owners(t) && NoLostWakeup(t)
  {
    hide Wants;
    var c := s.cur.value;
    var t := AgeCurrent(s);
    assert c !in s.ready;
    forall i | 0 <= i < |s.procs| ensures InPlace(t, i) {
      assert InPlace(s, i);
    }
    forall r, i | 0 <= r < NR_RESOURCES && 0 <= i < |s.procs| ensures Holds(t.procs[i], r) <==> Holds(s.procs[i], r) {
    }
    forall x | 0 <= x < NR_RESOURCES && ReadyWaker(s, x) ensures ReadyWaker(t, x) {
      var w :| w in s.ready && Wants(s.procs[w]) == Some(x);
      assert w in t.ready;
    }
  }

  /** A request that still has ticks left stays held. */
  lemma LocalTickDown(p0: Proc, p: Proc, k: nat)
    requires LocalInv(p0, p, k) && k < |p.holding| && p.holding[k].dur > 1
    ensures LocalInv(p0, p.(holding := p.holding[k := p.holding[k].(dur := p.holding[k].dur - 1)]), k + 1)
  {
    hide Aged, Origin, HeldOnTime, Accounted;
    assert forall j :: 0 <= j < |p.holding| ==> p.holding[j].dur >= 1 by {
      HeldDurations(p0, p, k);
    }
    AgedTick(p.holding, k);
    var t := p.(holding := p.holding[k := p.holding[k].(dur := p.holding[k].dur - 1)]);
    SameAgedHeld(p0, p, k, t, k + 1);
    SameAgedAccounted(p0, p, k, t, k + 1);
  }

  lemma HeldDurations(p0: Proc, p: Proc, k: nat)
    requires HeldOnTime(p0, p, k)
    ensures forall j :: 0 <= j < |p.holding| ==> p.holding[j].dur >= 1
  {
    hide Aged, Origin;
  }

  lemma SameAgedHeld(p0: Proc, p: Proc, k: nat, t: Proc, n: nat)
    requires HeldOnTime(p0, p, k) && t == p.(holding := t.holding)
    requires (forall j :: 0 <= j < |p.holding| ==> p.holding[j].dur >= 1)
    requires (forall j :: 0 <= j < |t.holding| ==> t.holding[j].dur >= 1) && Aged(t.holding, n) == Aged(p.holding, k)
    ensures HeldOnTime(p0, t, n)
  {
    hide Aged, Origin;
  }

  lemma SameAgedAccounted(p0: Proc, p: Proc, k: nat, t: Proc, n: nat)
    requires (forall j :: 0 <= j < |p.holding| ==> p.holding[j].dur >= 1) && Accounted(p0, p, k) && t == p.(holding := t.holding)
    requires (forall j :: 0 <= j < |t.holding| ==> t.holding[j].dur >= 1) && Aged(t.holding, n) == Aged(p.holding, k)
    ensures Accounted(p0, t, n)
  {
    hide Aged;
  }

  lemma AgedTick(h: seq<Request>, k: nat)
    requires (forall j :: 0 <= j < |h| ==> h[j].dur >= 1) && k < |h| && h[k].dur > 1
    ensures var g := h[k := h[k].(dur := h[k].dur - 1)];
      (forall j :: 0 <= j < |g| ==> g[j].dur >= 1) && Aged(g, k + 1) == Aged(h, k)
  {
    var g := h[k := h[k].(dur := h[k].dur - 1)];
    assert forall j :: 0 <= j < |g| ==> Aged(g, k + 1)[j] == Aged(h, k)[j];
  }

  /** A request whose last tick this was leaves the holding list. */
  lemma LocalDropHolds(p0: Proc, p: Proc, k: nat)
    requires HeldOnTime(p0, p, k) && k < |p.holding|
    ensures var t := p.(holding := RemoveAt(p.holding, k));
      forall r :: Holds(t, r) <==> Holds(p, r) && r != p.holding[k].rid
  {
    var h := Aged(p.holding, k);
    var t := p.(holding := RemoveAt(p.holding, k));
    hide Origin;
    forall i, j | 0 <= i < j < |p.holding| ensures p.holding[i].rid != p.holding[j].rid {
      assert h[i].rid == p.holding[i].rid && h[j].rid == p.holding[j].rid;
    }
    hide HeldOnTime, Aged;
    forall r | r != p.holding[k].rid && Holds(p, r) ensures Holds(t, r) {
      var j :| 0 <= j < |p.holding| && p.holding[j].rid == r;
      assert t.holding[if j < k then j else j - 1].rid == r;
    }
    forall r | Holds(t, r) ensures Holds(p, r) && r != p.holding[k].rid {
      var j :| 0 <= j < |t.holding| && t.holding[j].rid == r;
      assert p.holding[if j < k then j else j + 1].rid == r;
    }
  }

  lemma LocalDropHeld(p0: Proc, p: Proc, k: nat)
    requires HeldOnTime(p0, p, k) && k < |p.holding|
    ensures HeldOnTime(p0, p.(holding := RemoveAt(p.holding, k)), k)
    ensures Aged(RemoveAt(p.holding, k), k) == RemoveAt(Aged(p.holding, k), k)
  {
    hide Origin;
    var t := p.(holding := RemoveAt(p.holding, k));
    var h := Aged(p.holding, k);
    var g := Aged(t.holding, k);
    assert g == RemoveAt(h, k);
    forall j | 0 <= j < |g| ensures g[j] == h[if j < k then j else j + 1] {
    }
  }

  lemma LastTick(h: seq<Request>, k: nat)
    requires (forall j :: 0 <= j < |h| ==> h[j].dur >= 1) && k < |h| && h[k].dur == 1
    ensures Aged(h, k)[k].dur == 0
  {
  }

  lemma LocalDropAccounted(p0: Proc, p: Proc, k: nat)
    requires LocalInv(p0, p, k) && WellFormedProc(p0) && k < |p.holding| && p.holding[k].dur == 1
    requires HeldOnTime(p0, p.(holding := RemoveAt(p.holding, k)), k)
    requires Aged(RemoveAt(p.holding, k), k) == RemoveAt(Aged(p.holding, k), k)
    ensures Accounted(p0, p.(holding := RemoveAt(p.holding, k)), k)
  {
    hide Origin, PendingOnTime, HeldOnTime, Aged;
    HeldDurations(p0, p, k);
    HeldDurations(p0, p.(holding := RemoveAt(p.holding, k)), k);
    var h := Aged(p.holding, k);
    var g := RemoveAt(h, k);
    LastTick(p.holding, k);
    forall x | x in h && x.dur > 0 ensures x in g {
      var j :| 0 <= j < |h| && h[j] == x;
      assert g[if j < k then j else j - 1] == x;
    }
  }

  lemma LocalDrop(p0: Proc, p: Proc, k: nat)
    requires LocalInv(p0, p, k) && WellFormedProc(p0) && k < |p.holding| && p.holding[k].dur == 1
    ensures LocalInv(p0, p.(holding := RemoveAt(p.holding, k)), k)
    ensures var t := p.(holding := RemoveAt(p.holding, k));
      forall r :: Holds(t, r) <==> Holds(p, r) && r != p.holding[k].rid
  {
    hide Accounted, HeldOnTime, Holds, WellFormedProc, Aged;
    HeldDurations(p0, p, k);
    LocalDropHolds(p0, p, k);
    LocalDropHeld(p0, p, k);
    LocalDropAccounted(p0, p, k);
  }

  /** Replacing the current process's holding list changes no place and no queue. */
  lemma HoldingPlaces(plan: seq<Proc>, s: State, h: seq<Request>)
    requires Shape(s) && |plan| == |s.procs| && Queues(plan, s) && Placed(s)
    requires s.cur.Some? && s.procs[s.cur.value].status == Running && s.cur.value !in s.fork
    requires forall k :: 0 <= k < |h| ==> h[k].rid < NR_RESOURCES
    ensures var t := SetHolding(s, h); Queues(plan, t) && Placed(t)
    ensures forall i :: 0 <= i < |s.procs| ==> Wants(SetHolding(s, h).procs[i]) == Wants(s.procs[i])
  {
    var c := s.cur.value;
    var t := SetHolding(s, h);
    assert Wants(t.procs[c]) == Wants(s.procs[c]);
    hide Wants;
    assert c !in s.ready;
    forall i | 0 <= i < |s.procs| ensures InPlace(t, i) {
      assert InPlace(s, i);
    }
  }

  lemma RunningNotForked(plan: seq<Proc>, s: State, k: nat)
    requires Consistent(plan, s, k) && s.cur.Some? && s.procs[s.cur.value].status == Running
    ensures s.cur.value !in s.fork
  {
    hide LocalInv, Wants, Holds;
    assert WellFormedProc(plan[s.cur.value]);
  }

  lemma TickDownKeeps(plan: seq<Proc>, s: State, k: nat)
    requires Releasing(plan, s, k) && k < |s.procs[s.cur.value].holding|
    requires s.procs[s.cur.value].holding[k].dur > 1
    ensures var h := s.procs[s.cur.value].holding;
      Releasing(plan, SetHolding(s, h[k := h[k].(dur := h[k].dur - 1)]), k + 1)
  {
    hide Shape, LocalInv, Wants, Queues, Placed, Owners, NoLostWakeup, WellFormed, ReadyWaker;
    TickDownFacts(plan, s, k);
    var p := s.procs[s.cur.value];
    var h := p.holding[k := p.holding[k].(dur := p.holding[k].dur - 1)];
    var t := SetHolding(s, h);
    RunningNotForked(plan, s, k);
    HoldingPlaces(plan, s, h);
    TickDownLocals(plan, s, k);
    SameRids(s, h);
    SameWaker(s, t);
    WakersSuffice(s, t);
  }

  lemma TickDownFacts(plan: seq<Proc>, s: State, k: nat)
    requires Releasing(plan, s, k) && k < |s.procs[s.cur.value].holding|
    ensures Shape(s) && s.cur.value < |s.procs| == |plan|
    ensures var h := s.procs[s.cur.value].holding;
      && (forall x: nat :: var g := h[k := h[k].(dur := x)]; forall j :: 0 <= j < |g| ==> g[j].rid == h[j].rid < NR_RESOURCES)
  {
    hide LocalInv, Wants, Queues, Placed, Owners, NoLostWakeup, WellFormed;
  }

  lemma TickDownLocals(plan: seq<Proc>, s: State, k: nat)
    requires Shape(s) && WellFormed(plan) && Locals(plan, s, k) && s.cur.Some? && k < |s.procs[s.cur.value].holding|
    requires s.procs[s.cur.value].holding[k].dur > 1
    ensures var h := s.procs[s.cur.value].holding; Locals(plan, SetHolding(s, h[k := h[k].(dur := h[k].dur - 1)]), k + 1)
  {
    hide LocalInv;
    var c := s.cur.value;
    var h := s.procs[c].holding[k := s.procs[c].holding[k].(dur := s.procs[c].holding[k].dur - 1)];
    var t := SetHolding(s, h);
    LocalTickDown(plan[c], s.procs[c], k);
    forall i | 0 <= i < |plan| && i != c ensures LocalInv(plan[i], t.procs[i], |t.procs[i].holding|) {
      assert LocalInv(plan[i], s.procs[i], |s.procs[i].holding|);
    }
  }

  /** Who holds what depends on the resource numbers in the holding lists only. */
  lemma SameRids(s: State, h: seq<Request>)
    requires Shape(s) && s.cur.Some? && |h| == |s.procs[s.cur.value].holding|
    requires forall j :: 0 <= j < |h| ==> h[j].rid == s.procs[s.cur.value].holding[j].rid < NR_RESOURCES
    ensures Owners(s) ==> Owners(SetHolding(s, h))
  {
    var t := SetHolding(s, h);
    forall r, i | 0 <= r < NR_RESOURCES && 0 <= i < |s.procs| ensures Holds(t.procs[i], r) <==> Holds(s.procs[i], r) {
    }
  }

  lemma WakersSuffice(s: State, t: State)
    requires Shape(s) && Shape(t) && t.owner == s.owner && t.wait == s.wait && NoLostWakeup(s)
    requires forall r :: 0 <= r < NR_RESOURCES && ReadyWaker(s, r) ==> ReadyWaker(t, r)
    ensures NoLostWakeup(t)
  {
    hide ReadyWaker;
  }

  lemma SameWaker(s: State, t: State)
    requires Shape(s) && Shape(t) && s.ready <= t.ready && |s.procs| == |t.procs|
    requires forall i :: 0 <= i < |s.procs| ==> Wants(t.procs[i]) == Wants(s.procs[i])
    ensures forall r :: 0 <= r < NR_RESOURCES && ReadyWaker(s, r) ==> ReadyWaker(t, r)
  {
    hide Wants;
    forall r | 0 <= r < NR_RESOURCES && ReadyWaker(s, r) ensures ReadyWaker(t, r) {
      var w :| w in s.ready && Wants(s.procs[w]) == Some(r);
      assert w in t.ready;
    }
  }

  /** The state after the k-th held request has been given back, before any waiter is woken. */
  function Freed(s: State, k: nat): State
    requires Shape(s) && s.cur.Some? && k < |s.procs[s.cur.value].holding|
  {
    var h := s.procs[s.cur.value].holding;
    SetHolding(s, RemoveAt(h, k)).(owner := s.owner[h[k].rid := None])
  }

  /** The state after the j-th waiter of resource r has been readied. */
  function Woken(s: State, r: nat, j: nat): State
    requires Shape(s) && r < NR_RESOURCES && j < |s.wait[r]|
  {
    var w := s.wait[r][j];
    s.(procs := s.procs[w := s.procs[w].(status := Ready)], wait := s.wait[r := RemoveAt(s.wait[r], j)],
       ready := s.ready + [w])
  }

  ghost predicate NoLostWakeupBut(s: State, r: nat)
    requires Shape(s)
  {
    forall x :: 0 <= x < NR_RESOURCES && x != r && s.owner[x].None? && s.wait[x] != [] ==> ReadyWaker(s, x)
  }

  lemma FreeKeeps(plan: seq<Proc>, s: State, k: nat)
    requires Releasing(plan, s, k) && k < |s.procs[s.cur.value].holding|
    requires s.procs[s.cur.value].holding[k].dur == 1
    ensures var t := Freed(s, k); Consistent(plan, t, k) && NoLostWakeupBut(t, s.procs[s.cur.value].holding[k].rid)
  {
    hide LocalInv, Wants, Queues, Placed, RemoveAt, Shape, WellFormedProc, Owners, NoLostWakeup, ReadyWaker;
    FreedFacts(plan, s, k);
    var c := s.cur.value;
    var t := Freed(s, k);
    LocalDrop(plan[c], s.procs[c], k);
    RunningNotForked(plan, s, k);
    HoldingPlaces(plan, s, RemoveAt(s.procs[c].holding, k));
    FreedQueues(plan, s, k);
    forall i | 0 <= i < |plan| && i != c ensures LocalInv(plan[i], t.procs[i], |t.procs[i].holding|) {
      assert LocalInv(plan[i], s.procs[i], |s.procs[i].holding|);
    }
    FreedOwners(s, k);
    SameWaker(s, t);
    FreedWakers(s, k);
  }

  lemma FreedFacts(plan: seq<Proc>, s: State, k: nat)
    requires Releasing(plan, s, k) && k < |s.procs[s.cur.value].holding|
    ensures Shape(s) && s.cur.value < |s.procs| == |plan| && |Freed(s, k).procs| == |s.procs|
    ensures LocalInv(plan[s.cur.value], s.procs[s.cur.value], k) && WellFormedProc(plan[s.cur.value])
    ensures var h := s.procs[s.cur.value].holding;
      && h[k].rid < NR_RESOURCES
      && forall j :: 0 <= j < |RemoveAt(h, k)| ==> RemoveAt(h, k)[j].rid < NR_RESOURCES
  {
    hide LocalInv, Wants, Queues, Placed, Owners, NoLostWakeup, WellFormedProc;
  }

  lemma FreedWakers(s: State, k: nat)
    requires Shape(s) && s.cur.Some? && k < |s.procs[s.cur.value].holding| && NoLostWakeup(s) && Shape(Freed(s, k))
    requires forall r :: 0 <= r < NR_RESOURCES && ReadyWaker(s, r) ==> ReadyWaker(Freed(s, k), r)
    ensures NoLostWakeupBut(Freed(s, k), s.procs[s.cur.value].holding[k].rid)
  {
    hide ReadyWaker;
  }

  lemma FreedQueues(plan: seq<Proc>, s: State, k: nat)
    requires Shape(s) && |plan| == |s.procs| && s.cur.Some? && k < |s.procs[s.cur.value].holding|
    requires var t := SetHolding(s, RemoveAt(s.procs[s.cur.value].holding, k)); Queues(plan, t) && Placed(t)
    ensures Shape(Freed(s, k)) && Queues(plan, Freed(s, k)) && Placed(Freed(s, k))
  {
    hide Wants;
    var u := SetHolding(s, RemoveAt(s.procs[s.cur.value].holding, k));
    forall i | 0 <= i < |s.procs| ensures InPlace(Freed(s, k), i) {
      assert InPlace(u, i);
    }
  }

  lemma FreedOwners(s: State, k: nat)
    requires Shape(s) && s.cur.Some? && k < |s.procs[s.cur.value].holding| && Owners(s) && Shape(Freed(s, k))
    requires var p := s.procs[s.cur.value];
      forall r :: Holds(p.(holding := RemoveAt(p.holding, k)), r) <==> Holds(p, r) && r != p.holding[k].rid
    ensures Owners(Freed(s, k))
  {
    var c := s.cur.value;
    var p := s.procs[c];
    var t := Freed(s, k);
    assert Holds(p, p.holding[k].rid);
    hide RemoveAt;
    forall r, i | 0 <= r < NR_RESOURCES && 0 <= i < |s.procs|
      ensures t.owner[r] == Some(i) <==> Holds(t.procs[i], r)
    {
      assert s.owner[r] == Some(i) <==> Holds(s.procs[i], r);
      if i != c {
        assert t.procs[i] == s.procs[i];
      } else {
        assert t.procs[c] == p.(holding := RemoveAt(p.holding, k));
      }
    }
  }

  lemma WakeFacts(plan: seq<Proc>, s: State, k: nat, r: nat, j: nat)
    requires Consistent(plan, s, k) && s.cur.Some? && s.procs[s.cur.value].status == Running
    requires r < NR_RESOURCES && j < |s.wait[r]|
    ensures var w := s.wait[r][j];
      && w != s.cur.value && s.procs[w].status == Blocked && Wants(s.procs[w]) == Some(r)
      && s.procs[w].age < s.procs[w].lifespan && w !in s.fork && w !in s.ready
  {
    var w := s.wait[r][j];
    assert w in s.wait[r];
    hide Holds, Owners, FirstDueFrom, WellFormedProc;
    assert w != s.cur.value && s.procs[w].status == Blocked && Wants(s.procs[w]) == Some(r) && w !in s.ready;
    assert LocalInv(plan[w], s.procs[w], |s.procs[w].holding|) && WellFormedProc(plan[w]);
    WaiterFacts(plan[w], s.procs[w]);
  }

  /** Whoever asks for something has lifetime left, and a script starts ready. */
  lemma WaiterFacts(p0: Proc, p: Proc)
    requires LocalInv(p0, p, |p.holding|) && WellFormedProc(p0) && Wants(p).Some?
    ensures p.age < p.lifespan && p0.status == Ready
  {
    hide Accounted, HeldOnTime;
    var d := FirstDueFrom(p.pending, p.age, 0);
    assert p.pending[d] in p.pending;
  }

  lemma WakePlaces(plan: seq<Proc>, s: State, r: nat, j: nat)
    requires Shape(s) && |plan| == |s.procs| && Queues(plan, s) && Placed(s)
    requires s.cur.Some? && r < NR_RESOURCES && j < |s.wait[r]|
    requires var w := s.wait[r][j];
      && w != s.cur.value && s.procs[w].status == Blocked && Wants(s.procs[w]) == Some(r)
      && s.procs[w].age < s.procs[w].lifespan && w !in s.fork && w !in s.ready
    requires Shape(Woken(s, r, j))
    requires forall i :: 0 <= i < |s.procs| ==> Wants(Woken(s, r, j).procs[i]) == Wants(s.procs[i])
    ensures Queues(plan, Woken(s, r, j)) && Placed(Woken(s, r, j))
  {
    var w := s.wait[r][j];
    var t := Woken(s, r, j);
    RemoveAtKeepsOthers(s.wait[r], j);
    AppendNoDup(s.ready, w);
    hide Wants, RemoveAt, NoDup;
    forall i | 0 <= i < |s.procs| ensures InPlace(t, i) {
      assert InPlace(s, i);
    }
  }

  lemma WakeLocals(plan: seq<Proc>, s: State, k: nat, r: nat, j: nat)
    requires Shape(s) && Locals(plan, s, k) && r < NR_RESOURCES && j < |s.wait[r]|
    requires s.cur.Some? && s.wait[r][j] != s.cur.value
    ensures Shape(Woken(s, r, j)) && Locals(plan, Woken(s, r, j), k)
    ensures forall i :: 0 <= i < |s.procs| ==> Wants(Woken(s, r, j).procs[i]) == Wants(s.procs[i])
  {
    hide LocalInv, Wants, RemoveAt;
    WakeShape(s, r, j);
    WokenProcs(s, r, j);
    var w := s.wait[r][j];
    var t := Woken(s, r, j);
    hide Woken;
    assert LocalInv(plan[w], s.procs[w], |s.procs[w].holding|);
    LocalBlind(plan[w], s.procs[w], s.procs[w].prio, Ready, |s.procs[w].holding|);
    forall i | 0 <= i < |plan|
      ensures LocalInv(plan[i], t.procs[i], if t.cur == Some(i) then k else |t.procs[i].holding|)
    {
      assert LocalInv(plan[i], s.procs[i], if s.cur == Some(i) then k else |s.procs[i].holding|);
    }
  }

  lemma WokenProcs(s: State, r: nat, j: nat)
    requires Shape(s) && r < NR_RESOURCES && j < |s.wait[r]|
    ensures var w, t := s.wait[r][j], Woken(s, r, j);
      && w < |s.procs| == |t.procs| && t.cur == s.cur
      && t.procs == s.procs[w := s.procs[w].(status := Ready)]
      && s.procs[w].(status := Ready) == s.procs[w].(prio := s.procs[w].prio, status := Ready)
  {
    hide RemoveAt;
  }

  lemma WakeShape(s: State, r: nat, j: nat)
    requires Shape(s) && r < NR_RESOURCES && j < |s.wait[r]|
    ensures Shape(Woken(s, r, j))
  {
  }

  lemma WakeOwners(s: State, r: nat, j: nat)
    requires Shape(s) && r < NR_RESOURCES && j < |s.wait[r]| && Owners(s) && Shape(Woken(s, r, j))
    ensures Owners(Woken(s, r, j))
  {
    var t := Woken(s, r, j);
    hide RemoveAt;
    forall x, i | 0 <= x < NR_RESOURCES && 0 <= i < |s.procs| ensures Holds(t.procs[i], x) <==> Holds(s.procs[i], x) {
    }
  }

  lemma WakeKeeps(plan: seq<Proc>, s: State, k: nat, r: nat, j: nat)
    requires Consistent(plan, s, k) && s.cur.Some? && s.procs[s.cur.value].status == Running
    requires r < NR_RESOURCES && j < |s.wait[r]| && NoLostWakeupBut(s, r)
    ensures Consistent(plan, Woken(s, r, j), k) && NoLostWakeup(Woken(s, r, j))
  {
    var w := s.wait[r][j];
    var t := Woken(s, r, j);
    WakeFacts(plan, s, k, r, j);
    WakeLocals(plan, s, k, r, j);
    WakeOwners(s, r, j);
    WakePlaces(plan, s, r, j);
    hide Locals, Owners, LocalInv, Wants, Queues, Placed, RemoveAt;
    SameWaker(s, t);
    assert t.ready[|s.ready|] == w;
    assert w in t.ready;
  }

  /** Up to priorities t is what giving back the k-th held request leads to, whichever waiter was woken. */
  ghost predicate GaveBack(s: State, k: nat, t: State)
    requires Shape(s) && s.cur.Some? && k < |s.procs[s.cur.value].holding|
  {
    var r := s.procs[s.cur.value].holding[k].rid;
    var f := Freed(s, k);
    Shape(f) && if s.wait[r] == [] then SamePlan(f, t) else exists j :: 0 <= j < |f.wait[r]| && SamePlan(Woken(f, r, j), t)
  }

  /** Every release callback frees the resource and readies some waiter, up to priorities. */
  lemma ReleaseUpToPrio(pol: Policy, s: State, k: nat)
    requires Shape(s) && s.cur.Some? && k < |s.procs[s.cur.value].holding|
    requires var h := s.procs[s.cur.value].holding; h[k].dur == 1 && s.cur.value !in s.wait[h[k].rid]
    ensures var h := s.procs[s.cur.value].holding;
      var h' := h[k := h[k].(dur := 0)];
      GaveBack(s, k, SetHolding(Release(pol, SetHolding(s, h'), h[k].rid), RemoveAt(h', k)))
  {
    hide RemoveAt, FirstMax, Keys, WakeIndex;
    var h := s.procs[s.cur.value].holding;
    var h' := h[k := h[k].(dur := 0)];
    SameWithout(h, h', k);
    FreedShape(s, k);
    if s.wait[h[k].rid] != [] {
      ReleaseWakes(pol, s, k);
    }
  }

  lemma SameWithout(h: seq<Request>, g: seq<Request>, k: nat)
    requires k < |h| && g == h[k := h[k].(dur := 0)]
    ensures RemoveAt(g, k) == RemoveAt(h, k)
    ensures (forall j :: 0 <= j < |h| ==> h[j].rid < NR_RESOURCES) ==>
      (forall j :: 0 <= j < |g| ==> g[j].rid < NR_RESOURCES) && forall j :: 0 <= j < |RemoveAt(g, k)| ==> RemoveAt(g, k)[j].rid < NR_RESOURCES
  {
  }

  lemma FreedShape(s: State, k: nat)
    requires Shape(s) && s.cur.Some? && k < |s.procs[s.cur.value].holding|
    ensures Shape(Freed(s, k))
  {
  }

  lemma ReleaseWakes(pol: Policy, s: State, k: nat)
    requires Shape(s) && s.cur.Some? && k < |s.procs[s.cur.value].holding| && Shape(Freed(s, k))
    requires var h := s.procs[s.cur.value].holding; s.cur.value !in s.wait[h[k].rid] && s.wait[h[k].rid] != []
    ensures var h := s.procs[s.cur.value].holding;
      var h' := h[k := h[k].(dur := 0)];
      exists j :: 0 <= j < |s.wait[h[k].rid]| &&
        SamePlan(Woken(Freed(s, k), h[k].rid, j), SetHolding(Release(pol, SetHolding(s, h'), h[k].rid), RemoveAt(h', k)))
  {
    hide FirstMax, Keys, WakeIndex;
    var c := s.cur.value;
    var h := s.procs[c].holding;
    var r := h[k].rid;
    var h' := h[k := h[k].(dur := 0)];
    SameWithout(h, h', k);
    hide RemoveAt;
    var u := SetHolding(s, h');
    var procs := if pol == Ceiling || pol == Inheritance then u.procs[c := u.procs[c].(prio := u.procs[c].prioOrig)] else u.procs;
    var j := WakeIndex(pol, procs, u.wait[r]);
    assert u.wait[r][j] in s.wait[r];
    assert SamePlan(Woken(Freed(s, k), r, j), SetHolding(Release(pol, u, r), RemoveAt(h', k)));
  }

  /** What the release walk leaves. */
  ghost predicate Released(plan: seq<Proc>, s: State, t: State) {
    && Settled(plan, t) && NoLostWakeup(t) && t.cur == s.cur
    && t.fork == s.fork && t.ticks == s.ticks && |t.procs| == |s.procs| && s.ready <= t.ready
    && (t.cur.Some? && t.cur.value < |t.procs| ==>
      && t.procs[t.cur.value].status == Running && t.procs[t.cur.value].age == s.procs[t.cur.value].age)
  }

  lemma ReleasingBlind(plan: seq<Proc>, s: State, t: State, k: nat)
    requires Consistent(plan, s, k) && NoLostWakeup(s) && SamePlan(s, t)
    requires s.cur.Some? && k <= |s.procs[s.cur.value].holding| && s.procs[s.cur.value].status == Running
    ensures Releasing(plan, t, k)
  {
    PriorityBlind(plan, s, t, k);
  }

  lemma RunningNotWaiting(plan: seq<Proc>, s: State, k: nat, r: nat)
    requires Consistent(plan, s, k) && s.cur.Some? && s.procs[s.cur.value].status == Running && r < NR_RESOURCES
    ensures s.cur.value !in s.wait[r]
  {
    hide Locals, Owners, Wants;
  }

  lemma HeldIsOwned(plan: seq<Proc>, s: State, k: nat)
    requires Releasing(plan, s, k) && k < |s.procs[s.cur.value].holding|
    ensures var h := s.procs[s.cur.value].holding;
      h[k].dur >= 1 && h[k].rid < NR_RESOURCES && s.owner[h[k].rid] == s.cur
  {
    assert LocalInv(plan[s.cur.value], s.procs[s.cur.value], k);
    assert Holds(s.procs[s.cur.value], s.procs[s.cur.value].holding[k].rid);
    hide Accounted, PendingOnTime, Wants, Queues, Placed;
  }

  lemma GaveBackKeeps(plan: seq<Proc>, s: State, k: nat, t: State)
    requires Releasing(plan, s, k) && k < |s.procs[s.cur.value].holding|
    requires s.procs[s.cur.value].holding[k].dur == 1 && GaveBack(s, k, t)
    ensures Releasing(plan, t, k) && t.fork == s.fork && t.ticks == s.ticks && |t.procs| == |s.procs|
    ensures s.ready <= t.ready && t.procs[s.cur.value].age == s.procs[s.cur.value].age
  {
    hide Locals, Owners, Queues, Placed, Wants, WellFormed, NoLostWakeup, NoLostWakeupBut, RemoveAt, Woken, Freed, Shape;
    FreedFacts(plan, s, k);
    FreeKeeps(plan, s, k);
    FreedFrame(s, k);
    var r := s.procs[s.cur.value].holding[k].rid;
    var f := Freed(s, k);
    if s.wait[r] == [] {
      NobodyWaits(f, r);
      ReleasingBlind(plan, f, t, k);
    } else {
      var j :| 0 <= j < |f.wait[r]| && SamePlan(Woken(f, r, j), t);
      WakeKeeps(plan, f, k, r, j);
      WakeFacts(plan, f, k, r, j);
      WokenFrame(f, r, j);
      ReleasingBlind(plan, Woken(f, r, j), t, k);
    }
  }

  /** One given-back request: the walk stays at position k, one entry shorter. */
  lemma GiveBackKeeps(pol: Policy, plan: seq<Proc>, s: State, k: nat)
    requires Releasing(plan, s, k) && k < |s.procs[s.cur.value].holding|
    requires s.procs[s.cur.value].holding[k].dur == 1
    ensures var h := s.procs[s.cur.value].holding;
      var h' := h[k := h[k].(dur := 0)];
      var t := SetHolding(Release(pol, SetHolding(s, h'), h[k].rid), RemoveAt(h', k));
      && Releasing(plan, t, k) && t.fork == s.fork && t.ticks == s.ticks && |t.procs| == |s.procs|
      && s.ready <= t.ready && t.procs[s.cur.value].age == s.procs[s.cur.value].age
  {
    hide Locals, Owners, Queues, Placed, Wants, NoLostWakeup, WakeIndex, FirstMax;
    var h := s.procs[s.cur.value].holding;
    RunningNotWaiting(plan, s, k, h[k].rid);
    ReleaseUpToPrio(pol, s, k);
    var h' := h[k := h[k].(dur := 0)];
    GaveBackKeeps(plan, s, k, SetHolding(Release(pol, SetHolding(s, h'), h[k].rid), RemoveAt(h', k)));
  }

  lemma NobodyWaits(s: State, r: nat)
    requires Shape(s) && r < NR_RESOURCES && NoLostWakeupBut(s, r) && s.wait[r] == []
    ensures NoLostWakeup(s)
  {
    hide ReadyWaker;
  }

  /** What giving a request back does to the current process, and what it leaves alone. */
  lemma FreedFrame(s: State, k: nat)
    requires Shape(s) && s.cur.Some? && k < |s.procs[s.cur.value].holding| && Shape(Freed(s, k))
    ensures var f := Freed(s, k);
      && f.cur == s.cur && f.fork == s.fork && f.ready == s.ready && f.ticks == s.ticks && f.wait == s.wait
      && |f.procs| == |s.procs| && s.cur.value < |s.procs| && |s.wait| == NR_RESOURCES
      && f.procs[s.cur.value].age == s.procs[s.cur.value].age && f.procs[s.cur.value].status == s.procs[s.cur.value].status
      && k <= |f.procs[s.cur.value].holding|
  {
    hide RemoveAt;
  }

  lemma WokenFrame(s: State, r: nat, j: nat)
    requires Shape(s) && s.cur.Some? && r < NR_RESOURCES && j < |s.wait[r]| && s.wait[r][j] != s.cur.value
    ensures var t := Woken(s, r, j);
      && t.cur == s.cur && t.fork == s.fork && t.ticks == s.ticks && s.ready <= t.ready && |t.procs| == |s.procs|
      && s.cur.value < |s.procs| && t.procs[s.cur.value] == s.procs[s.cur.value]
  {
    hide RemoveAt;
  }

  lemma {:induction false} ReleaseFromKeeps(pol: Policy, plan: seq<Proc>, s: State, k: nat)
    requires Releasing(plan, s, k)
    ensures Released(plan, s, ReleaseFrom(pol, s, k))
    decreases |s.procs[s.cur.value].holding| - k
  {
    hide Locals, Owners, Queues, Placed, NoLostWakeup;
    var c := s.cur.value;
    var h := s.procs[c].holding;
    if k < |h| {
      HeldIsOwned(plan, s, k);
      var h' := h[k := h[k].(dur := Decrement(h[k].dur))];
      if h'[k].dur != 0 {
        TickDownKeeps(plan, s, k);
        ReleaseFromKeeps(pol, plan, SetHolding(s, h'), k + 1);
      } else {
        GiveBackKeeps(pol, plan, s, k);
        ReleaseFromKeeps(pol, plan, SetHolding(Release(pol, SetHolding(s, h'), h[k].rid), RemoveAt(h', k)), k);
      }
    }
  }

  // ----- One tick -----

  /** What one tick of the current process leaves. */
  lemma ExecuteKeeps(pol: Policy, plan: seq<Proc>, s: State)
    requires Launched(plan, s) && s.cur.Some?
    ensures var t := Execute(pol, s);
      && Settled(plan, t) && NoLostWakeup(t) && t.cur == s.cur && t.fork == s.fork && t.ticks == s.ticks
      && s.ready <= t.ready && |t.procs| == |s.procs|
      && var p, p' := s.procs[s.cur.value], t.procs[s.cur.value];
         || (p'.status == Running && p'.age == p.age + 1)
         || (p'.status == Blocked && p'.age == p.age && t.ready == s.ready)
  {
    AcquireFromKeeps(pol, plan, s, 0);
    var (t, ok) := AcquireFrom(pol, s, 0);
    hide Locals, Owners, Queues, Placed, NoLostWakeup, Wants;
    if ok {
      AgeKeeps(plan, t);
      ReleaseFromKeeps(pol, plan, AgeCurrent(t), 0);
    }
  }

  lemma ForkDueCarries(plan: seq<Proc>, s: State, t: State, x: int)
    requires Settled(plan, s) && Settled(plan, t) && t.fork == s.fork && ForkDue(s, x)
    ensures ForkDue(t, x)
  {
    hide LocalInv, Owners, Placed, Wants;
    forall i | i in t.fork ensures t.procs[i].start >= x {
      assert s.procs[i].start == plan[i].start == t.procs[i].start;
    }
  }

  /** Every scheduling decision leaves the tick in good order. */
  lemma ChosenKeeps(pol: Policy, plan: seq<Proc>, s: State)
    requires Inv(plan, s)
    ensures Launched(plan, Chosen(pol, s)) && ForkDue(Chosen(pol, s), s.ticks + 1)
    ensures Chosen(pol, s).ticks == s.ticks
  {
    hide Locals, Owners, Queues, Placed, Wants, NoLostWakeup, WakeupUnderWay, Schedule;
    var f := ForkFrom(s, 0);
    ForkFromKeeps(plan, s, 0);
    ScheduleMeetsContract(pol, f);
    LaunchKeeps(plan, f, Schedule(pol, f));
    ForkDueCarries(plan, f, Chosen(pol, s), s.ticks + 1);
  }

  lemma NextTick(plan: seq<Proc>, t: State)
    requires Settled(plan, t) && NoLostWakeup(t) && ForkDue(t, t.ticks + 1)
    ensures Inv(plan, t.(ticks := t.ticks + 1))
  {
    hide LocalInv, Wants, Holds;
    var u := t.(ticks := t.ticks + 1);
    assert Shape(u);
    assert Queues(plan, u) && Owners(u);
    forall i | 0 <= i < |t.procs| ensures InPlace(u, i) {
      assert InPlace(t, i);
    }
    SameWaker(t, u);
  }

  lemma IdleWakeup(t: State)
    requires Shape(t) && t.cur.None? && WakeupUnderWay(t)
    ensures NoLostWakeup(t)
  {
  }

  lemma BusyTick(pol: Policy, plan: seq<Proc>, u: State)
    requires Launched(plan, u) && ForkDue(u, u.ticks + 1) && u.cur.Some?
    ensures Inv(plan, Execute(pol, u).(ticks := u.ticks + 1)) && Execute(pol, u).ticks == u.ticks
  {
    hide Locals, Owners, Queues, Placed, Wants, NoLostWakeup, WakeupUnderWay, Execute, ForkDue;
    ExecuteKeeps(pol, plan, u);
    ForkDueCarries(plan, u, Execute(pol, u), u.ticks + 1);
    NextTick(plan, Execute(pol, u));
  }

  lemma IdleTick(plan: seq<Proc>, u: State)
    requires Launched(plan, u) && ForkDue(u, u.ticks + 1) && u.cur.None?
    ensures Inv(plan, u.(ticks := u.ticks + 1))
  {
    hide Locals, Owners, Queues, Placed, Wants, ForkDue;
    IdleWakeup(u);
    NextTick(plan, u);
  }

  lemma TickUnfolds(pol: Policy, s: State)
    requires Shape(s)
    ensures var u := Chosen(pol, s);
      Tick(pol, s) == if u.cur.Some? then Execute(pol, u).(ticks := Execute(pol, u).ticks + 1) else u.(ticks := u.ticks + 1)
  {
    hide Chosen, Execute, Shape;
  }

  lemma InvShape(plan: seq<Proc>, s: State)
    requires Inv(plan, s)
    ensures Shape(s)
  {
  }

  /** The framework theorem: every tick of every policy keeps the invariant. */
  lemma TickKeepsInv(pol: Policy, plan: seq<Proc>, s: State)
    requires Inv(plan, s)
    ensures Inv(plan, Tick(pol, s)) && Tick(pol, s).ticks == s.ticks + 1
  {
    hide *;
    InvShape(plan, s);
    ChosenKeeps(pol, plan, s);
    TickUnfolds(pol, s);
    var u := Chosen(pol, s);
    if u.cur.Some? {
      BusyTick(pol, plan, u);
    } else {
      IdleTick(plan, u);
    }
  }
}
