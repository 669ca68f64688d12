/**
 What the callbacks of the eight policies do, policy by policy and in the terms of queues, priorities,
 lifespans and statuses alone.
 */
module SchedCallbacks {
  import opened Seqs
  import opened SchedModel
  import opened SchedInvariants
  import opened SchedRuns
  import opened Fairness

  // ----- Forking -----

  /** The processes of a fork queue that are due, in order. */
  function Due(s: State, fork: seq<nat>): (q: seq<nat>)
    requires Below(fork, |s.procs|)
    ensures Below(q, |s.procs|)
  {
    if fork == [] then []
    else if s.procs[fork[0]].start <= s.ticks then [fork[0]] + Due(s, fork[1..])
    else Due(s, fork[1..])
  }

  /** The others. */
  function Early(s: State, fork: seq<nat>): (q: seq<nat>)
    requires Below(fork, |s.procs|)
    ensures Below(q, |s.procs|)
  {
    if fork == [] then []
    else if s.procs[fork[0]].start <= s.ticks then Early(s, fork[1..])
    else [fork[0]] + Early(s, fork[1..])
  }

  lemma {:induction false} DueSame(s: State, t: State, fork: seq<nat>)
    requires Below(fork, |s.procs|) && |t.procs| == |s.procs| && t.ticks == s.ticks
    requires forall i :: 0 <= i < |s.procs| ==> t.procs[i].start == s.procs[i].start
    ensures Due(t, fork) == Due(s, fork) && Early(t, fork) == Early(s, fork)
  {
    if fork != [] {
      DueSame(s, t, fork[1..]);
    }
  }

  /** The fork walk moves exactly the due processes, in order, behind those that are ready, and keeps the others in order. */
  lemma {:induction false} ForkMeans(s: State, k: nat)
    requires Shape(s) && k <= |s.fork| && forall i :: i in s.fork ==> s.procs[i].status == Ready
    ensures ForkFrom(s, k) == s.(fork := s.fork[..k] + Early(s, s.fork[k..]), ready := s.ready + Due(s, s.fork[k..]))
    decreases |s.fork| - k
  {
    if k == |s.fork| {
      assert s.fork[k..] == [] && s.fork[..k] + [] == s.fork && s.ready + [] == s.ready;
    } else {
      var i := s.fork[k];
      var rest := s.fork[k + 1..];
      assert s.fork[k..][0] == i && s.fork[k..][1..] == rest;
      if s.procs[i].start <= s.ticks {
        var t := s.(fork := RemoveAt(s.fork, k), ready := s.ready + [i]);
        ForkedOne(s, k, t);
        DueSame(s, t, rest);
        assert t.fork[..k] == s.fork[..k] && t.fork[k..] == rest;
        hide Shape, ForkFrom, RemoveAt;
        ForkMeans(t, k);
        Associates(s.ready, [i], Due(s, rest));
      } else {
        assert s.fork[..k + 1] == s.fork[..k] + [i];
        hide Shape;
        ForkMeans(s, k + 1);
        Associates(s.fork[..k], [i], Early(s, rest));
      }
    }
  }

  lemma ForkedOne(s: State, k: nat, t: State)
    requires Shape(s) && k < |s.fork| && s.procs[s.fork[k]].start <= s.ticks && forall i :: i in s.fork ==> s.procs[i].status == Ready
    requires t == s.(fork := RemoveAt(s.fork, k), ready := s.ready + [s.fork[k]])
    ensures Shape(t) && ForkFrom(s, k) == ForkFrom(t, k) && forall i :: i in t.fork ==> t.procs[i].status == Ready
  {
    var i := s.fork[k];
    assert i in s.fork;
    assert s.procs[i := s.procs[i].(status := Ready)] == s.procs;
    assert forall x :: x in t.fork ==> x in s.fork;
    hide RemoveAt;
  }

  /** The ready queue and the processes that are due now: what a decision finds waiting. */
  function Waiting(s: State): (q: seq<nat>)
    requires Shape(s)
    ensures Below(q, |s.procs|)
  {
    s.ready + Due(s, s.fork)
  }

  lemma InvForks(plan: seq<Proc>, s: State)
    requires Inv(plan, s)
    ensures Shape(s) && ForkFrom(s, 0) == s.(fork := Early(s, s.fork), ready := Waiting(s))
  {
    ForkedAreReady(plan, s);
    ForkMeans(s, 0);
    assert s.fork[0..] == s.fork && s.fork[..0] + Early(s, s.fork) == Early(s, s.fork);
    hide Inv, Shape, ForkFrom;
  }

  // ----- Decisions -----

  /** What a decision finds, and what it leaves: a process taken out of a queue, or nobody. */
  ghost predicate Takes(u: State, q: seq<nat>, k: nat) {
    k < |q| && u.cur == Some(q[k]) && u.ready == q[..k] + q[k + 1..]
  }

  ghost predicate Idles(u: State) {
    u.cur == None && u.ready == []
  }

  /** The current process is neither blocked nor at the end of its lifespan. */
  ghost predicate CanGoOn(s: State) {
    s.cur.Some? && s.cur.value < |s.procs| && s.procs[s.cur.value].status != Blocked
    && s.procs[s.cur.value].age < s.procs[s.cur.value].lifespan
  }

  lemma LaunchQueues(f: State, u: State)
    requires Shape(f) && Shape(u) && |u.procs| == |f.procs|
    ensures Launch(f, u).cur == u.cur && Launch(f, u).ready == u.ready && Launch(f, u).fork == u.fork
  {
  }

  /** First come first served and shortest job first never take the processor from a process that can go on. */
  lemma NeverPreempts(pol: Policy, plan: seq<Proc>, s: State)
    requires Inv(plan, s) && Shape(s) && (pol == Fcfs || pol == Sjf) && s.cur.Some?
    requires s.procs[s.cur.value].status != Blocked && s.procs[s.cur.value].age < s.procs[s.cur.value].lifespan
    ensures Chosen(pol, s).cur == s.cur && Chosen(pol, s).ready == s.ready + Due(s, s.fork)
  {
    InvForks(plan, s);
    ChosenIsLaunch(pol, s);
    var f := ForkFrom(s, 0);
    assert Schedule(pol, f) == f;
    LaunchQueues(f, f);
    hide Inv, ForkFrom, Launch, Chosen, Schedule;
  }

  /** The queue of a decision that takes one of `q`: which one is a matter of the policy's keys. */
  lemma TakesBest(pol: Policy, plan: seq<Proc>, s: State, q: seq<nat>)
    requires Inv(plan, s) && Shape(s)
    requires if CanGoOn(s) then Preemptive(pol) && q == Contending(s) else q == Waiting(s)
    ensures Below(q, |s.procs|)
    ensures if q == [] then Idles(Chosen(pol, s)) else Takes(Chosen(pol, s), q, FirstMax(Keys(pol, s.procs, q)))
  {
    hide Inv, ForkFrom, Launch, Chosen, Waiting, Contending, FirstMax, Keys, Schedule, Candidates, Shape, Takes, Idles, CanGoOn;
    InvForks(plan, s);
    ChosenIsLaunch(pol, s);
    var f := ForkFrom(s, 0);
    SameQueue(s, f);
    ContendingAlone(s);
    GoesOnAlike(s, f);
    SchedulesBest(pol, f);
    LaunchQueues(f, Schedule(pol, f));
    SameDecision(Schedule(pol, f), Chosen(pol, s));
  }

  lemma GoesOnAlike(s: State, f: State)
    requires Shape(s) && Shape(f) && f.procs == s.procs && f.cur == s.cur
    ensures f.cur.Some? ==> f.cur.value < |f.procs|
    ensures Runnable(f) <==> CanGoOn(s)
  {
  }

  lemma SameDecision(u: State, v: State)
    requires v.cur == u.cur && v.ready == u.ready
    ensures Idles(u) <==> Idles(v)
    ensures forall q, k :: Takes(u, q, k) <==> Takes(v, q, k)
  {
  }

  lemma SchedulesBest(pol: Policy, f: State)
    requires Shape(f) && (Runnable(f) ==> Preemptive(pol))
    ensures Below(Candidates(f), |f.procs|) && |Schedule(pol, f).procs| == |f.procs|
    ensures var q := Candidates(f);
      if q == [] then Idles(Schedule(pol, f)) else Takes(Schedule(pol, f), q, FirstMax(Keys(pol, f.procs, q)))
  {
    hide FirstMax, Keys;
  }

  /** All that a preemptive decision chooses from: the current process, if it can go on, stands last. */
  function Contending(s: State): (q: seq<nat>)
    requires Shape(s)
    ensures Below(q, |s.procs|)
  {
    Waiting(s) + if s.cur.Some? && s.procs[s.cur.value].status != Blocked && s.procs[s.cur.value].age < s.procs[s.cur.value].lifespan
                 then [s.cur.value] else []
  }

  /** Otherwise first come first served takes the head of the queue, arrivals standing behind. */
  lemma FcfsPicks(plan: seq<Proc>, s: State)
    requires Inv(plan, s) && Shape(s)
    requires s.cur.Some? ==> s.procs[s.cur.value].status == Blocked || s.procs[s.cur.value].age == s.procs[s.cur.value].lifespan
    ensures var q := s.ready + Due(s, s.fork);
      var u := Chosen(Fcfs, s);
      if q == [] then u.cur == None && u.ready == [] else u.cur == Some(q[0]) && u.ready == q[1..]
  {
    FcfsTakesHead(plan, s);
    assert Waiting(s) != [] ==> Waiting(s)[..0] + Waiting(s)[1..] == Waiting(s)[1..];
    hide Inv, Chosen;
  }

  lemma FcfsTakesHead(plan: seq<Proc>, s: State)
    requires Inv(plan, s) && Shape(s) && !CanGoOn(s)
    ensures if Waiting(s) == [] then Idles(Chosen(Fcfs, s)) else Takes(Chosen(Fcfs, s), Waiting(s), 0)
  {
    TakesBest(Fcfs, plan, s, Waiting(s));
    hide Inv, Shape, Chosen, Waiting, Takes, FirstMax, Keys, CanGoOn;
    if Waiting(s) != [] {
      FirstOfEquals(Fcfs, s.procs, Waiting(s));
    }
  }

  lemma FirstOfEquals(pol: Policy, procs: seq<Proc>, q: seq<nat>)
    requires (pol == Fcfs || pol == Rr) && q != [] && Below(q, |procs|)
    ensures FirstMax(Keys(pol, procs, q)) == 0
  {
    var keys := Keys(pol, procs, q);
    var k := FirstMax(keys);
    hide FirstMax;
    assert keys[0] == 0 && keys[k] == 0;
  }

  /** Shortest job first takes the first of the jobs with the least lifespan. */
  lemma SjfPicks(plan: seq<Proc>, s: State) returns (k: nat)
    requires Inv(plan, s) && Shape(s) && !CanGoOn(s)
    ensures Waiting(s) == [] ==> Idles(Chosen(Sjf, s))
    ensures Waiting(s) != [] ==>
      var q := Waiting(s);
      && Takes(Chosen(Sjf, s), q, k)
      && (forall j :: 0 <= j < |q| ==> s.procs[q[k]].lifespan <= s.procs[q[j]].lifespan)
      && (forall j :: 0 <= j < k ==> s.procs[q[k]].lifespan < s.procs[q[j]].lifespan)
  {
    hide Inv, Shape, Chosen, Waiting, FirstMax, Keys, CanGoOn, Idles, Takes;
    TakesBest(Sjf, plan, s, Waiting(s));
    k := 0;
    if Waiting(s) != [] {
      LeastLifespan(s.procs, Waiting(s));
      k := FirstMax(Keys(Sjf, s.procs, Waiting(s)));
    }
  }

  lemma LeastLifespan(procs: seq<Proc>, q: seq<nat>)
    requires Below(q, |procs|) && q != []
    ensures var k := FirstMax(Keys(Sjf, procs, q));
      && (forall j :: 0 <= j < |q| ==> procs[q[k]].lifespan <= procs[q[j]].lifespan)
      && (forall j :: 0 <= j < k ==> procs[q[k]].lifespan < procs[q[j]].lifespan)
  {
    var keys := Keys(Sjf, procs, q);
    var k := FirstMax(keys);
    hide FirstMax;
    assert forall j :: 0 <= j < |q| ==> keys[j] == 0 - procs[q[j]].lifespan;
  }

  /** Round robin takes the head of the queue, the current process standing last. */
  lemma RrPicks(plan: seq<Proc>, s: State)
    requires Inv(plan, s) && Shape(s)
    ensures if Contending(s) == [] then Idles(Chosen(Rr, s)) else Takes(Chosen(Rr, s), Contending(s), 0)
  {
    ContendingAlone(s);
    TakesBest(Rr, plan, s, Contending(s));
    hide Inv, Shape, Chosen, Contending, Takes, FirstMax, Keys, CanGoOn;
    if Contending(s) != [] {
      FirstOfEquals(Rr, s.procs, Contending(s));
    }
  }

  lemma ContendingAlone(s: State)
    requires Shape(s)
    ensures !CanGoOn(s) ==> Contending(s) == Waiting(s)
  {
  }

  /** Shortest time to completion takes the first of the processes with the least left to do. */
  lemma StcfPicks(plan: seq<Proc>, s: State) returns (k: nat)
    requires Inv(plan, s) && Shape(s)
    ensures Contending(s) == [] ==> Idles(Chosen(Stcf, s))
    ensures Contending(s) != [] ==>
      var q := Contending(s);
      && Takes(Chosen(Stcf, s), q, k)
      && (forall j :: 0 <= j < |q| ==> s.procs[q[k]].lifespan - s.procs[q[k]].age <= s.procs[q[j]].lifespan - s.procs[q[j]].age)
      && (forall j :: 0 <= j < k ==> s.procs[q[k]].lifespan - s.procs[q[k]].age < s.procs[q[j]].lifespan - s.procs[q[j]].age)
  {
    hide Inv, Shape, Chosen, Contending, Waiting, FirstMax, Keys, CanGoOn, Idles, Takes;
    ContendingAlone(s);
    TakesBest(Stcf, plan, s, Contending(s));
    k := 0;
    if Contending(s) != [] {
      LeastRemaining(s.procs, Contending(s));
      k := FirstMax(Keys(Stcf, s.procs, Contending(s)));
    }
  }

  lemma LeastRemaining(procs: seq<Proc>, q: seq<nat>)
    requires Below(q, |procs|) && q != []
    ensures var k := FirstMax(Keys(Stcf, procs, q));
      && (forall j :: 0 <= j < |q| ==> procs[q[k]].lifespan - procs[q[k]].age <= procs[q[j]].lifespan - procs[q[j]].age)
      && (forall j :: 0 <= j < k ==> procs[q[k]].lifespan - procs[q[k]].age < procs[q[j]].lifespan - procs[q[j]].age)
  {
    var keys := Keys(Stcf, procs, q);
    var k := FirstMax(keys);
    hide FirstMax;
    assert forall j :: 0 <= j < |q| ==> keys[j] == procs[q[j]].age - procs[q[j]].lifespan;
  }

  /** The priority policies take the first of the processes with the highest priority. */
  lemma PriorityPicks(pol: Policy, plan: seq<Proc>, s: State) returns (k: nat)
    requires Inv(plan, s) && Shape(s) && (pol == Prio || pol == Aging || pol == Ceiling || pol == Inheritance)
    ensures Contending(s) == [] ==> Idles(Chosen(pol, s))
    ensures Contending(s) != [] ==>
      var q := Contending(s);
      && Takes(Chosen(pol, s), q, k)
      && (forall j :: 0 <= j < |q| ==> s.procs[q[j]].prio <= s.procs[q[k]].prio)
      && (forall j :: 0 <= j < k ==> s.procs[q[j]].prio < s.procs[q[k]].prio)
  {
    hide Inv, Shape, Chosen, Contending, Waiting, FirstMax, Keys, CanGoOn, Idles, Takes;
    ContendingAlone(s);
    TakesBest(pol, plan, s, Contending(s));
    k := 0;
    if Contending(s) != [] {
      HighestFirst(pol, s.procs, Contending(s));
      k := FirstMax(Keys(pol, s.procs, Contending(s)));
    }
  }

  lemma HighestFirst(pol: Policy, procs: seq<Proc>, q: seq<nat>)
    requires Below(q, |procs|) && q != [] && (pol == Prio || pol == Aging || pol == Ceiling || pol == Inheritance)
    ensures var k := FirstMax(Keys(pol, procs, q));
      && (forall j :: 0 <= j < |q| ==> procs[q[j]].prio <= procs[q[k]].prio)
      && (forall j :: 0 <= j < k ==> procs[q[j]].prio < procs[q[k]].prio)
  {
    var keys := Keys(pol, procs, q);
    var k := FirstMax(keys);
    hide FirstMax;
    assert forall j :: 0 <= j < |q| ==> keys[j] == procs[q[j]].prio;
  }

  // ----- What a decision does to the processes -----

  /** The status after a decision: the one picked runs, and who ran before is ready again, blocked, or done. */
  function NextStatus(s: State, picked: Option<nat>, i: nat): Status
    requires i < |s.procs|
  {
    if picked == Some(i) then Running
    else if s.cur != Some(i) then s.procs[i].status
    else if s.procs[i].age == s.procs[i].lifespan then Exited
    else if s.procs[i].status == Running then Ready
    else s.procs[i].status
  }

  /** The priority after a decision: only aging changes any. */
  function NextPrio(pol: Policy, s: State, picked: Option<nat>, i: nat): nat
    requires Shape(s) && i < |s.procs|
  {
    if pol != Aging || i !in Contending(s) then s.procs[i].prio
    else if picked == Some(i) then s.procs[i].prioOrig
    else s.procs[i].prio + 1
  }

  lemma LaunchProcs(f: State, u: State)
    requires Shape(f) && Shape(u) && |u.procs| == |f.procs|
    requires f.cur.Some? ==> f.cur.value < |f.procs|
    requires forall i :: 0 <= i < |f.procs| ==> u.procs[i] == f.procs[i].(prio := u.procs[i].prio)
    ensures var t := Launch(f, u);
      && |t.procs| == |f.procs|
      && forall i :: 0 <= i < |f.procs| ==> t.procs[i] == f.procs[i].(status := NextStatus(f, u.cur, i), prio := u.procs[i].prio)
  {
  }

  /** A decision changes statuses and, under aging, priorities, and nothing else of any process. */
  lemma DecisionMeans(pol: Policy, plan: seq<Proc>, s: State)
    requires Inv(plan, s) && Shape(s)
    ensures var u := Chosen(pol, s);
      && |u.procs| == |s.procs|
      && forall i :: 0 <= i < |s.procs| ==>
           u.procs[i] == s.procs[i].(status := NextStatus(s, u.cur, i), prio := NextPrio(pol, s, u.cur, i))
  {
    hide Inv, ForkFrom, Chosen, Contending, Waiting, Schedule, Launch, Candidates, Shape;
    InvForks(plan, s);
    ChosenIsLaunch(pol, s);
    var f := ForkFrom(s, 0);
    var u := Schedule(pol, f);
    SameQueue(s, f);
    SchedulePrios(pol, f);
    LaunchProcs(f, u);
    LaunchQueues(f, u);
  }

  lemma SameQueue(s: State, f: State)
    requires Shape(s) && Shape(f) && f == s.(fork := f.fork, ready := Waiting(s))
    ensures Candidates(f) == Contending(s) && (f.cur.Some? ==> f.cur.value < |f.procs|)
  {
    hide Waiting;
    assert Waiting(s) + [] == Waiting(s);
  }

  lemma SchedulePrios(pol: Policy, f: State)
    requires Shape(f)
    ensures var u := Schedule(pol, f);
      && |u.procs| == |f.procs|
      && forall i :: 0 <= i < |f.procs| ==>
           u.procs[i] == f.procs[i].(prio :=
             if pol != Aging || i !in Candidates(f) then f.procs[i].prio
             else if u.cur == Some(i) then f.procs[i].prioOrig else f.procs[i].prio + 1)
  {
    hide FirstMax, RemoveAt;
  }

  // ----- Requests -----

  /** Nothing but priorities and statuses of processes, owners, wait queues and the ready queue differ. */
  ghost predicate SameElsewhere(s: State, t: State) {
    && t.fork == s.fork && t.cur == s.cur && t.ticks == s.ticks && |t.procs| == |s.procs|
    && forall i :: 0 <= i < |s.procs| ==> t.procs[i] == s.procs[i].(status := t.procs[i].status, prio := t.procs[i].prio)
  }

  /** A free resource goes to the caller, who under the ceiling protocol then runs at priority 64. */
  lemma FreeIsGranted(pol: Policy, s: State, r: nat)
    requires Shape(s) && s.cur.Some? && r < 16 && s.owner[r].None?
    ensures var (t, ok) := Acquire(pol, s, r);
      && ok && SameElsewhere(s, t) && t.owner == s.owner[r := s.cur] && t.wait == s.wait && t.ready == s.ready
      && forall i :: 0 <= i < |s.procs| ==>
           && t.procs[i].status == s.procs[i].status
           && t.procs[i].prio == if pol == Ceiling && s.cur == Some(i) then 64 else s.procs[i].prio
  {
  }

  /** For an owned one the caller is blocked, last in the queue; under inheritance a less important owner is raised. */
  lemma OwnedIsWaitedFor(pol: Policy, s: State, r: nat)
    requires Shape(s) && s.cur.Some? && r < 16 && s.owner[r].Some?
    ensures var (t, ok) := Acquire(pol, s, r);
      && !ok && SameElsewhere(s, t) && t.owner == s.owner && t.wait == s.wait[r := s.wait[r] + [s.cur.value]] && t.ready == s.ready
      && forall i :: 0 <= i < |s.procs| ==>
           && t.procs[i].status == (if s.cur == Some(i) then Blocked else s.procs[i].status)
           && t.procs[i].prio ==
                if pol == Inheritance && s.owner[r] == Some(i) && s.procs[i].prio < s.procs[s.cur.value].prio
                then s.procs[s.cur.value].prio else s.procs[i].prio
  {
  }

  /**
   The waiter at position m is the one to wake: under the four policies without priorities it came first,
   under the four with priorities nobody in the queue outranks it and everybody before it is less important.
   */
  ghost predicate FirstToWake(pol: Policy, procs: seq<Proc>, q: seq<nat>, m: nat)
    requires Below(q, |procs|)
  {
    && m < |q|
    && (pol == Fcfs || pol == Sjf || pol == Stcf || pol == Rr ==> m == 0)
    && (pol == Prio || pol == Aging || pol == Ceiling || pol == Inheritance ==>
      && (forall j :: 0 <= j < |q| ==> procs[q[j]].prio <= procs[q[m]].prio)
      && (forall j :: 0 <= j < m ==> procs[q[j]].prio < procs[q[m]].prio))
  }

  lemma WakesFirst(pol: Policy, procs: seq<Proc>, q: seq<nat>)
    requires q != [] && Below(q, |procs|)
    ensures FirstToWake(pol, procs, q, WakeIndex(pol, procs, q))
  {
    if pol == Fcfs || pol == Sjf || pol == Stcf || pol == Rr {
      FirstOfEquals(Fcfs, procs, q);
    } else {
      HighestFirst(Prio, procs, q);
    }
    hide FirstMax, Keys;
  }

  /**
   A release frees the resource and, if anybody waits for it, moves the one to wake to the end of the
   ready queue; under the two protocols the caller falls back to its original priority.
   */
  lemma ReleaseWakes(pol: Policy, s: State, r: nat) returns (m: nat)
    requires Shape(s) && s.cur.Some? && r < 16 && s.cur.value !in s.wait[r]
    ensures var t := Release(pol, s, r);
      && SameElsewhere(s, t) && t.owner == s.owner[r := None]
      && (forall i :: 0 <= i < |s.procs| ==>
        t.procs[i].prio == if (pol == Ceiling || pol == Inheritance) && s.cur == Some(i) then s.procs[i].prioOrig else s.procs[i].prio)
      && if s.wait[r] == [] then
           t.wait == s.wait && t.ready == s.ready && forall i :: 0 <= i < |s.procs| ==> t.procs[i].status == s.procs[i].status
         else
           && FirstToWake(pol, s.procs, s.wait[r], m)
           && t.wait == s.wait[r := s.wait[r][..m] + s.wait[r][m + 1..]] && t.ready == s.ready + [s.wait[r][m]]
           && forall i :: 0 <= i < |s.procs| ==> t.procs[i].status == if i == s.wait[r][m] then Ready else s.procs[i].status
  {
    m := 0;
    if s.wait[r] == [] {
      ReleasesOnly(pol, s, r);
    } else {
      var procs := Restored(pol, s);
      WakesFirst(pol, procs, s.wait[r]);
      m := WakeIndex(pol, procs, s.wait[r]);
      RestoredWaiters(pol, s, s.wait[r], m);
      ReleasesAndMoves(pol, s, r, m);
    }
    hide FirstToWake, WakeIndex, Release, Restored;
  }

  /** The processes after the caller's priority has been restored, where it is. */
  function Restored(pol: Policy, s: State): (procs: seq<Proc>)
    requires Shape(s) && s.cur.Some?
    ensures |procs| == |s.procs|
  {
    var c := s.cur.value;
    if pol == Ceiling || pol == Inheritance then s.procs[c := s.procs[c].(prio := s.procs[c].prioOrig)] else s.procs
  }

  lemma RestoredWaiters(pol: Policy, s: State, q: seq<nat>, m: nat)
    requires Shape(s) && s.cur.Some? && Below(q, |s.procs|) && s.cur.value !in q
    ensures FirstToWake(pol, Restored(pol, s), q, m) <==> FirstToWake(pol, s.procs, q, m)
  {
    hide FirstToWake, Shape;
    SameWaiters(pol, s.procs, Restored(pol, s), q, m);
  }

  lemma ReleasesOnly(pol: Policy, s: State, r: nat)
    requires Shape(s) && s.cur.Some? && r < NR_RESOURCES && s.wait[r] == []
    ensures var t := Release(pol, s, r);
      && SameElsewhere(s, t) && t.owner == s.owner[r := None] && t.wait == s.wait && t.ready == s.ready
      && forall i :: 0 <= i < |s.procs| ==>
           && t.procs[i].prio == (if (pol == Ceiling || pol == Inheritance) && s.cur == Some(i) then s.procs[i].prioOrig else s.procs[i].prio)
           && t.procs[i].status == s.procs[i].status
  {
  }

  lemma ReleasesAndMoves(pol: Policy, s: State, r: nat, m: nat)
    requires Shape(s) && s.cur.Some? && r < NR_RESOURCES && s.wait[r] != [] && s.cur.value !in s.wait[r]
    requires m == WakeIndex(pol, Restored(pol, s), s.wait[r])
    ensures var t := Release(pol, s, r);
      && SameElsewhere(s, t) && t.owner == s.owner[r := None]
      && t.wait == s.wait[r := s.wait[r][..m] + s.wait[r][m + 1..]] && t.ready == s.ready + [s.wait[r][m]]
      && forall i :: 0 <= i < |s.procs| ==>
           && t.procs[i].prio == (if (pol == Ceiling || pol == Inheritance) && s.cur == Some(i) then s.procs[i].prioOrig else s.procs[i].prio)
           && t.procs[i].status == if i == s.wait[r][m] then Ready else s.procs[i].status
  {
    hide WakeIndex;
    assert s.wait[r][m] in s.wait[r];
  }

  lemma SameWaiters(pol: Policy, ps: seq<Proc>, qs: seq<Proc>, q: seq<nat>, m: nat)
    requires |ps| == |qs| && Below(q, |ps|) && forall i :: i in q ==> i < |ps| && qs[i].prio == ps[i].prio
    ensures FirstToWake(pol, qs, q, m) <==> FirstToWake(pol, ps, q, m)
  {
    assert forall j :: 0 <= j < |q| ==> q[j] in q;
  }

  // ----- The acquisition walk -----

  /** The requests that are due at an age. */
  function DueAt(q: seq<Request>, age: nat): (r: seq<Request>)
  {
    if q == [] then []
    else if q[0].at == age then [q[0]] + DueAt(q[1..], age)
    else DueAt(q[1..], age)
  }

  /** The requests that are not. */
  function NotDueAt(q: seq<Request>, age: nat): (r: seq<Request>)
  {
    if q == [] then []
    else if q[0].at == age then NotDueAt(q[1..], age)
    else [q[0]] + NotDueAt(q[1..], age)
  }

  /** What becomes of a process whose requests from position k on have been walked over without blocking. */
  ghost predicate WalkedOver(p: Proc, k: nat, p': Proc)
    requires k <= |p.pending|
  {
    && p'.pending == p.pending[..k] + NotDueAt(p.pending[k..], p.age)
    && p'.holding == p.holding + DueAt(p.pending[k..], p.age)
    && p'.age == p.age
  }

  lemma TakesSkip(p: Proc, k: nat, p': Proc)
    requires k < |p.pending| && p.pending[k].at != p.age && WalkedOver(p, k + 1, p')
    ensures WalkedOver(p, k, p')
  {
    var q := p.pending;
    assert q[k..][0] == q[k] && q[k..][1..] == q[k + 1..];
    assert q[..k + 1] == q[..k] + [q[k]];
    assert (q[..k] + [q[k]]) + NotDueAt(q[k + 1..], p.age) == q[..k] + ([q[k]] + NotDueAt(q[k + 1..], p.age));
  }

  lemma TakesGrant(p: Proc, k: nat, t: Proc, p': Proc)
    requires k < |p.pending| && p.pending[k].at == p.age
    requires t.pending == RemoveAt(p.pending, k) && t.holding == p.holding + [p.pending[k]] && t.age == p.age && WalkedOver(t, k, p')
    ensures WalkedOver(p, k, p')
  {
    var q := p.pending;
    assert q[k..][0] == q[k] && q[k..][1..] == q[k + 1..];
    assert t.pending[..k] == q[..k] && t.pending[k..] == q[k + 1..];
    assert (p.holding + [q[k]]) + DueAt(q[k + 1..], p.age) == p.holding + ([q[k]] + DueAt(q[k + 1..], p.age));
  }

  /** A walk that is not blocked takes everything that is due, in order. */
  lemma {:induction false} WalkTakes(pol: Policy, s: State, k: nat)
    requires Shape(s) && s.cur.Some? && k <= |s.procs[s.cur.value].pending|
    requires AcquireFrom(pol, s, k).1
    ensures WalkedOver(s.procs[s.cur.value], k, AcquireFrom(pol, s, k).0.procs[s.cur.value])
    decreases |s.procs[s.cur.value].pending| - k
  {
    var c := s.cur.value;
    var p := s.procs[c];
    if k < |p.pending| {
      if p.pending[k].at != p.age {
        hide Acquire, WalkedOver;
        WalkTakes(pol, s, k + 1);
        TakesSkip(p, k, AcquireFrom(pol, s, k).0.procs[c]);
      } else {
        TakeOne(pol, s, k);
        var t := Acquire(pol, s, p.pending[k].rid).0;
        hide Acquire, WalkedOver, RemoveAt;
        var u := t.(procs := t.procs[c := MovePending(t.procs[c], k)]);
        WalkTakes(pol, u, k);
        TakesGrant(p, k, u.procs[c], AcquireFrom(pol, s, k).0.procs[c]);
      }
    }
  }

  lemma TakeOne(pol: Policy, s: State, k: nat)
    requires Shape(s) && s.cur.Some? && k < |s.procs[s.cur.value].pending|
    ensures s.procs[s.cur.value].pending[k].rid < NR_RESOURCES
    ensures var t := Acquire(pol, s, s.procs[s.cur.value].pending[k].rid).0;
      var p, p' := s.procs[s.cur.value], t.procs[s.cur.value];
      p'.pending == p.pending && p'.holding == p.holding && p'.age == p.age
  {
  }

  /** A walk that is blocked has taken what was due before, and waits for the next, which is owned. */
  lemma {:induction false} WalkBlocks(pol: Policy, s: State, k: nat) returns (m: nat)
    requires Shape(s) && s.cur.Some? && k <= |s.procs[s.cur.value].pending|
    requires !AcquireFrom(pol, s, k).1
    ensures var p := s.procs[s.cur.value];
      var due := DueAt(p.pending[k..], p.age);
      var t := AcquireFrom(pol, s, k).0;
      && m < |due| && t.procs[s.cur.value].holding == p.holding + due[..m] && t.procs[s.cur.value].status == Blocked
      && due[m].rid < NR_RESOURCES && t.owner[due[m].rid].Some?
      && t.wait == s.wait[due[m].rid := s.wait[due[m].rid] + [s.cur.value]]
    decreases |s.procs[s.cur.value].pending| - k
  {
    var c := s.cur.value;
    var p := s.procs[c];
    var q := p.pending;
    assert k < |q|;
    assert q[k..][0] == q[k] && q[k..][1..] == q[k + 1..];
    if q[k].at != p.age {
      hide Acquire, Shape;
      m := WalkBlocks(pol, s, k + 1);
    } else {
      assert q[k].rid < NR_RESOURCES;
      if s.owner[q[k].rid].Some? {
        m := 0;
        OwnedIsWaitedFor(pol, s, q[k].rid);
        hide Acquire, Shape;
        assert p.holding + [] == p.holding;
      } else {
        m := GrantedThenBlocked(pol, s, k);
      }
    }
  }

  lemma {:induction false} GrantedThenBlocked(pol: Policy, s: State, k: nat) returns (m: nat)
    requires Shape(s) && s.cur.Some? && k < |s.procs[s.cur.value].pending|
    requires !AcquireFrom(pol, s, k).1
    requires var p := s.procs[s.cur.value];
      p.pending[k].at == p.age && p.pending[k].rid < NR_RESOURCES && s.owner[p.pending[k].rid].None?
    ensures var p := s.procs[s.cur.value];
      var due := DueAt(p.pending[k..], p.age);
      var t := AcquireFrom(pol, s, k).0;
      && m < |due| && t.procs[s.cur.value].holding == p.holding + due[..m] && t.procs[s.cur.value].status == Blocked
      && due[m].rid < NR_RESOURCES && t.owner[due[m].rid].Some?
      && t.wait == s.wait[due[m].rid := s.wait[due[m].rid] + [s.cur.value]]
    decreases |s.procs[s.cur.value].pending| - k, 0
  {
    var c := s.cur.value;
    var p := s.procs[c];
    var q := p.pending;
    FreeIsGranted(pol, s, q[k].rid);
    var a := Acquire(pol, s, q[k].rid).0;
    var u := a.(procs := a.procs[c := MovePending(a.procs[c], k)]);
    assert u.procs[c].pending[k..] == q[k + 1..] by {
      assert RemoveAt(q, k)[k..] == q[k + 1..];
    }
    assert q[k..][0] == q[k] && q[k..][1..] == q[k + 1..];
    hide Acquire, RemoveAt, Shape;
    var l := WalkBlocks(pol, u, k);
    m := l + 1;
    var rest := DueAt(q[k + 1..], p.age);
    assert ([q[k]] + rest)[..m] == [q[k]] + rest[..l];
    Associates(p.holding, [q[k]], rest[..l]);
  }

  // ----- Who is woken in a tick -----

  /** Process w stands in the queue of one of these resources, and is the one to wake there. */
  ghost predicate WokenFrom(pol: Policy, s: State, held: seq<Request>, w: nat)
    requires Shape(s)
  {
    exists r, m :: 0 <= r < NR_RESOURCES && 0 <= m < |s.wait[r]| && s.wait[r][m] == w && FirstToWake(pol, s.procs, s.wait[r], m)
      && Asks(held, r)
  }

  ghost predicate Asks(held: seq<Request>, r: nat) {
    exists k :: 0 <= k < |held| && held[k].rid == r
  }

  ghost predicate Distinct(held: seq<Request>) {
    forall i, j :: 0 <= i < j < |held| ==> held[i].rid != held[j].rid
  }

  ghost predicate WaitsNowhere(s: State, c: nat) {
    forall r :: 0 <= r < |s.wait| ==> c !in s.wait[r]
  }

  /** The walk over the held requests wakes only processes that are the ones to wake. */
  lemma {:induction false} WalkWakes(pol: Policy, s: State, k: nat, w: nat)
    requires Shape(s) && s.cur.Some? && k <= |s.procs[s.cur.value].holding| && Distinct(s.procs[s.cur.value].holding[k..])
    requires WaitsNowhere(s, s.cur.value) && w < |s.procs| && s.procs[w].status == Blocked
    requires ReleaseFrom(pol, s, k).procs[w].status != Blocked
    ensures WokenFrom(pol, s, s.procs[s.cur.value].holding[k..], w) && ReleaseFrom(pol, s, k).procs[w].status == Ready
    decreases |s.procs[s.cur.value].holding| - k
  {
    var c := s.cur.value;
    var h := s.procs[c].holding;
    assert k < |h|;
    var h' := h[k := h[k].(dur := Decrement(h[k].dur))];
    HeldRids(s, k, h');
    var u := SetHolding(s, h');
    SetHoldingFields(s, h');
    if h'[k].dur != 0 {
      TailOf(h, h', k);
      assert ReleaseFrom(pol, s, k) == ReleaseFrom(pol, u, k + 1);
      hide Shape, Release, ReleaseFrom, SetHolding, FirstToWake;
      WalkWakes(pol, u, k + 1, w);
      WokenEarlier(pol, s, u, h'[k + 1..], h[k..], w);
    } else {
      ReleasedStep(pol, s, k, w, u);
    }
  }

  lemma HeldRids(s: State, k: nat, h': seq<Request>)
    requires Shape(s) && s.cur.Some? && k < |s.procs[s.cur.value].holding|
    requires var h := s.procs[s.cur.value].holding; |h'| == |h| && forall j :: 0 <= j < |h| ==> h'[j].rid == h[j].rid
    ensures forall j :: 0 <= j < |h'| ==> h'[j].rid < NR_RESOURCES
    ensures forall j :: 0 <= j < |RemoveAt(h', k)| ==> RemoveAt(h', k)[j].rid < NR_RESOURCES
  {
    RemovedRids(h', k);
  }

  lemma SetHoldingFields(s: State, h: seq<Request>)
    requires Shape(s) && s.cur.Some? && forall k :: 0 <= k < |h| ==> h[k].rid < NR_RESOURCES
    ensures var u := SetHolding(s, h);
      && u == s.(procs := u.procs) && |u.procs| == |s.procs| && u.procs[s.cur.value].holding == h
      && forall i :: 0 <= i < |s.procs| ==> u.procs[i].prio == s.procs[i].prio && u.procs[i].status == s.procs[i].status
  {
  }

  lemma TailOf(h: seq<Request>, h': seq<Request>, k: nat)
    requires k < |h| == |h'| && Distinct(h[k..]) && forall j :: 0 <= j < |h| ==> h'[j].rid == h[j].rid
    ensures Distinct(h'[k + 1..]) && forall r :: Asks(h'[k + 1..], r) ==> Asks(h[k..], r)
  {
    var a, b := h'[k + 1..], h[k..];
    assert forall j :: 0 <= j < |a| ==> a[j].rid == b[j + 1].rid;
  }

  /** Who is the one to wake is a matter of wait queues and of the priorities of those who wait. */
  lemma WokenEarlier(pol: Policy, s: State, u: State, later: seq<Request>, held: seq<Request>, w: nat)
    requires Shape(s) && Shape(u) && |u.procs| == |s.procs| && WokenFrom(pol, u, later, w)
    requires forall r :: 0 <= r < NR_RESOURCES && Asks(later, r) ==>
      u.wait[r] == s.wait[r] && Asks(held, r) && forall i :: i in s.wait[r] ==> i < |s.procs| && u.procs[i].prio == s.procs[i].prio
    ensures WokenFrom(pol, s, held, w)
  {
    hide FirstToWake, Asks;
    var r, m :| 0 <= r < NR_RESOURCES && 0 <= m < |u.wait[r]| && u.wait[r][m] == w
      && FirstToWake(pol, u.procs, u.wait[r], m) && Asks(later, r);
    SameWaiters(pol, s.procs, u.procs, s.wait[r], m);
  }

  lemma GoneTail(h: seq<Request>, h': seq<Request>, g: seq<Request>, k: nat)
    requires k < |h| == |h'| && Distinct(h[k..]) && (forall j :: 0 <= j < |h| ==> h'[j].rid == h[j].rid) && g == RemoveAt(h', k)
    ensures k <= |g| && Distinct(g[k..])
    ensures forall r :: Asks(g[k..], r) ==> Asks(h[k..], r) && r != h[k].rid
  {
    var a, b := g[k..], h[k..];
    assert forall j :: 0 <= j < |a| ==> a[j].rid == b[j + 1].rid;
    assert b[0].rid == h[k].rid;
  }

  lemma ReleaseKeepsReady(pol: Policy, s: State, r: nat, w: nat)
    requires Shape(s) && s.cur.Some? && r < NR_RESOURCES && w < |s.procs| && s.procs[w].status == Ready
    ensures Release(pol, s, r).procs[w].status == Ready
  {
    hide FirstMax, RemoveAt;
  }

  /** Who is ready stays ready for the rest of the walk. */
  lemma {:induction false} StaysReady(pol: Policy, s: State, k: nat, w: nat)
    requires Shape(s) && s.cur.Some? && w < |s.procs| && s.procs[w].status == Ready
    ensures ReleaseFrom(pol, s, k).procs[w].status == Ready
    decreases |s.procs[s.cur.value].holding| - k
  {
    var h := s.procs[s.cur.value].holding;
    if k < |h| {
      var h' := h[k := h[k].(dur := Decrement(h[k].dur))];
      HeldRids(s, k, h');
      SetHoldingFields(s, h');
      var u := SetHolding(s, h');
      if h'[k].dur != 0 {
        hide Shape, Release, SetHolding;
        StaysReady(pol, u, k + 1, w);
      } else {
        ReleaseKeepsReady(pol, u, h[k].rid, w);
        SetHoldingFields(Release(pol, u, h[k].rid), RemoveAt(h', k));
        hide Shape, Release, SetHolding, RemoveAt;
        StaysReady(pol, SetHolding(Release(pol, u, h[k].rid), RemoveAt(h', k)), k, w);
      }
    }
  }

  lemma WaitsLess(s: State, z: State, r: nat, m: nat, c: nat)
    requires WaitsNowhere(s, c) && r < |s.wait|
    requires if s.wait[r] == [] then z.wait == s.wait else m < |s.wait[r]| && z.wait == s.wait[r := s.wait[r][..m] + s.wait[r][m + 1..]]
    ensures WaitsNowhere(z, c)
  {
    forall x | 0 <= x < |z.wait| ensures c !in z.wait[x] {
      assert c !in s.wait[x];
    }
  }

  lemma ReleaseUnfolds(pol: Policy, s: State, k: nat, h': seq<Request>, u: State)
    requires Shape(s) && Shape(u) && s.cur.Some? && k < |s.procs[s.cur.value].holding|
    requires h' == s.procs[s.cur.value].holding[k := s.procs[s.cur.value].holding[k].(dur := Decrement(s.procs[s.cur.value].holding[k].dur))]
    requires h'[k].dur == 0 && (forall j :: 0 <= j < |h'| ==> h'[j].rid < NR_RESOURCES) && u == SetHolding(s, h')
    requires forall j :: 0 <= j < |RemoveAt(h', k)| ==> RemoveAt(h', k)[j].rid < NR_RESOURCES
    ensures u.cur.Some? && s.procs[s.cur.value].holding[k].rid < NR_RESOURCES
    ensures ReleaseFrom(pol, s, k) ==
      ReleaseFrom(pol, SetHolding(Release(pol, u, s.procs[s.cur.value].holding[k].rid), RemoveAt(h', k)), k)
  {
    hide Release, RemoveAt;
    assert h'[k].rid == s.procs[s.cur.value].holding[k].rid;
  }

  lemma WokenHere(pol: Policy, s: State, r: nat, m: nat, held: seq<Request>)
    requires Shape(s) && r < NR_RESOURCES && m < |s.wait[r]| && FirstToWake(pol, s.procs, s.wait[r], m)
    requires held != [] && held[0].rid == r
    ensures WokenFrom(pol, s, held, s.wait[r][m])
  {
    hide FirstToWake;
    assert Asks(held, r);
  }

  /** A request in its last tick: its release wakes w, or the rest of the walk does. */
  lemma {:induction false} ReleasedStep(pol: Policy, s: State, k: nat, w: nat, u: State)
    requires Shape(s) && Shape(u) && s.cur.Some? && k < |s.procs[s.cur.value].holding| && Distinct(s.procs[s.cur.value].holding[k..])
    requires WaitsNowhere(s, s.cur.value) && w < |s.procs| && s.procs[w].status == Blocked
    requires ReleaseFrom(pol, s, k).procs[w].status != Blocked
    requires var h := s.procs[s.cur.value].holding;
      var h' := h[k := h[k].(dur := Decrement(h[k].dur))];
      && h'[k].dur == 0 && (forall j :: 0 <= j < |h'| ==> h'[j].rid < NR_RESOURCES) && u == SetHolding(s, h')
    ensures WokenFrom(pol, s, s.procs[s.cur.value].holding[k..], w) && ReleaseFrom(pol, s, k).procs[w].status == Ready
    decreases |s.procs[s.cur.value].holding| - k, 0
  {
    var c := s.cur.value;
    var h := s.procs[c].holding;
    var h' := h[k := h[k].(dur := Decrement(h[k].dur))];
    var g := RemoveAt(h', k);
    hide Shape, Release, ReleaseFrom, SetHolding, FirstToWake, Distinct, RemoveAt, WokenFrom;
    SetHoldingFields(s, h');
    HeldRids(s, k, h');
    GoneTail(h, h', g, k);
    var r := h[k].rid;
    var m := ReleaseWakes(pol, u, r);
    var v := Release(pol, u, r);
    SetHoldingFields(v, g);
    var z := SetHolding(v, g);
    ReleaseUnfolds(pol, s, k, h', u);
    if s.wait[r] != [] && s.wait[r][m] == w {
      SameWaiters(pol, s.procs, u.procs, s.wait[r], m);
      assert h[k..][0].rid == r;
      WokenHere(pol, s, r, m, h[k..]);
      StaysReady(pol, z, k, w);
    } else {
      WaitsLess(s, z, r, m, c);
      WalkWakes(pol, z, k, w);
      WokenEarlier(pol, s, z, g[k..], h[k..], w);
    }
  }

  /** Nobody else's status or, while nothing blocks, priority changes in the acquisition walk, and no queue but one. */
  lemma {:induction false} WalkLeavesOthers(pol: Policy, s: State, k: nat)
    requires Shape(s) && s.cur.Some?
    ensures var (t, ok) := AcquireFrom(pol, s, k);
      && |t.procs| == |s.procs| && (ok ==> t.wait == s.wait)
      && forall i :: 0 <= i < |s.procs| && s.cur != Some(i) ==>
           t.procs[i].status == s.procs[i].status && (ok ==> t.procs[i].prio == s.procs[i].prio)
    decreases |s.procs[s.cur.value].pending| - k
  {
    var c := s.cur.value;
    if k < |s.procs[c].pending| {
      if s.procs[c].pending[k].at != s.procs[c].age {
        hide Shape, Acquire;
        WalkLeavesOthers(pol, s, k + 1);
      } else {
        var r := s.procs[c].pending[k].rid;
        if s.owner[r].None? {
          FreeIsGranted(pol, s, r);
          var t := Acquire(pol, s, r).0;
          hide Shape, Acquire;
          WalkLeavesOthers(pol, t.(procs := t.procs[c := MovePending(t.procs[c], k)]), k);
        } else {
          OwnedIsWaitedFor(pol, s, r);
          hide Shape, Acquire;
        }
      }
    }
  }

  /** A process that waits has a request still to be served, so it is not at the end of its lifespan. */
  lemma WaiterAlive(plan: seq<Proc>, s: State, w: nat)
    requires Inv(plan, s) && w < |s.procs| && s.procs[w].status == Blocked
    ensures s.procs[w].age < s.procs[w].lifespan
  {
    var p := s.procs[w];
    assert InPlace(s, w);
    assert LocalInv(plan[w], p, if s.cur == Some(w) then Held(s) else |p.holding|);
    hide Queues, Owners, NoLostWakeup, HeldOnTime, Accounted;
    var d := FirstDueFrom(p.pending, p.age, 0);
    assert p.pending[d] in p.pending;
    assert WellFormedProc(plan[w]);
  }

  lemma PickIsCandidate(pol: Policy, f: State)
    requires Shape(f)
    ensures |Schedule(pol, f).procs| == |f.procs| && (f.cur.Some? ==> f.cur.value < |f.procs|)
    ensures Schedule(pol, f).cur.Some? ==> Schedule(pol, f).cur.value in Candidates(f)
  {
    hide FirstMax, Keys, RemoveAt;
  }

  lemma SettledFork(plan: seq<Proc>, s: State)
    requires Inv(plan, s)
    ensures Shape(s) && Settled(plan, ForkFrom(s, 0))
  {
    ForkFromKeeps(plan, s, 0);
    hide Settled, ForkFrom, NoLostWakeup;
  }

  /** Nobody who waits is picked. */
  lemma WaiterNotPicked(pol: Policy, plan: seq<Proc>, s: State, w: nat)
    requires Inv(plan, s) && w < |s.procs| && s.procs[w].status == Blocked
    ensures Shape(s) && w !in Contending(s) && Chosen(pol, s).cur != Some(w)
  {
    hide Inv, Settled, ForkFrom, Chosen, Contending, Waiting, Schedule, Launch, Candidates, Shape, NoLostWakeup;
    InvForks(plan, s);
    SettledFork(plan, s);
    ChosenIsLaunch(pol, s);
    var f := ForkFrom(s, 0);
    CandidateFacts(plan, f);
    SameQueue(s, f);
    PickIsCandidate(pol, f);
    LaunchQueues(f, Schedule(pol, f));
  }

  /** A waiting process comes through a decision as it was. */
  lemma WaiterWaits(pol: Policy, plan: seq<Proc>, s: State, w: nat)
    requires Inv(plan, s) && w < |s.procs| && s.procs[w].status == Blocked
    ensures Shape(s) && |Chosen(pol, s).procs| == |s.procs| && Chosen(pol, s).procs[w] == s.procs[w]
    ensures Chosen(pol, s).cur != Some(w)
  {
    hide Inv, Shape, Chosen, Contending;
    WaiterNotPicked(pol, plan, s, w);
    WaiterAlive(plan, s, w);
    DecisionMeans(pol, plan, s);
  }

  lemma WaitSizes(s: State)
    requires Shape(s)
    ensures |s.wait| == NR_RESOURCES && forall r :: 0 <= r < NR_RESOURCES ==> Below(s.wait[r], |s.procs|)
  {
  }

  /** Everybody in a wait queue waits. */
  lemma QueuedWait(plan: seq<Proc>, s: State, r: nat, i: nat)
    requires Inv(plan, s) && r < NR_RESOURCES && i in s.wait[r]
    ensures i < |s.procs| && s.procs[i].status == Blocked
  {
    hide Locals, Owners, Placed, NoLostWakeup, Wants;
  }

  /**
   Whoever stops waiting in a tick was the one to wake in the queue of a resource that the process
   running in that tick gives back: the first of the queue, or the first of its most important members.
   */
  lemma TickWakes(pol: Policy, plan: seq<Proc>, s: State, w: nat)
    requires Inv(plan, s) && w < |s.procs| && s.procs[w].status == Blocked
    requires Shape(s) && |Tick(pol, s).procs| == |s.procs| && Tick(pol, s).procs[w].status != Blocked
    ensures Tick(pol, s).procs[w].status == Ready
    ensures exists r, m :: 0 <= r < 16 && 0 <= m < |s.wait[r]| && s.wait[r][m] == w
              && FirstToWake(pol, s.procs, s.wait[r], m)
  {
    hide Inv, Shape, Chosen, Tick, Execute, Launched, FirstToWake;
    WaiterWaits(pol, plan, s, w);
    ChosenKeeps(pol, plan, s);
    ChosenKeepsResources(pol, s);
    WaitSizes(s);
    TickUnfolds(pol, s);
    var u := Chosen(pol, s);
    if u.cur.Some? {
      forall r, i | 0 <= r < NR_RESOURCES && i in s.wait[r] ensures i < |s.procs| && u.procs[i] == s.procs[i] {
        QueuedWait(plan, s, r, i);
        WaiterWaits(pol, plan, s, i);
      }
      var r, m := ExecuteWakes(pol, plan, u, w);
      SameWaiters(pol, s.procs, u.procs, s.wait[r], m);
    }
  }

  lemma ExecuteWakes(pol: Policy, plan: seq<Proc>, u: State, w: nat) returns (r: nat, m: nat)
    requires Launched(plan, u) && u.cur.Some? && w < |u.procs| && u.procs[w].status == Blocked
    requires |Execute(pol, u).procs| == |u.procs| && Execute(pol, u).procs[w].status != Blocked
    ensures Execute(pol, u).procs[w].status == Ready
    ensures r < NR_RESOURCES && m < |u.wait[r]| && u.wait[r][m] == w && FirstToWake(pol, u.procs, u.wait[r], m)
  {
    hide Settled, NoLostWakeup, WakeupUnderWay, AcquireFrom, ReleaseFrom, FirstToWake, WaitsNowhere, Shape, Distinct;
    assert u.cur != Some(w);
    LaunchedShape(plan, u);
    AcquireFromKeeps(pol, plan, u, 0);
    WalkLeavesOthers(pol, u, 0);
    var t := AcquireFrom(pol, u, 0).0;
    LaunchedShape(plan, t);
    RunnerWalks(plan, t);
    r, m := RunnerWakes(pol, t, w);
    SameWaiters(pol, u.procs, t.procs, u.wait[r], m);
  }

  lemma LaunchedShape(plan: seq<Proc>, s: State)
    requires Settled(plan, s)
    ensures Shape(s) && |s.wait| == NR_RESOURCES && forall r :: 0 <= r < NR_RESOURCES ==> Below(s.wait[r], |s.procs|)
    ensures s.cur.Some? ==> forall r, i :: 0 <= r < NR_RESOURCES && i in s.wait[r] && s.procs[s.cur.value].status == Running ==>
      i < |s.procs| && s.cur != Some(i)
  {
    hide Locals, Owners, Placed, Wants, NoDup;
  }

  lemma RunnerWakes(pol: Policy, t: State, w: nat) returns (r: nat, m: nat)
    requires Shape(t) && t.cur.Some? && WaitsNowhere(t, t.cur.value) && Distinct(t.procs[t.cur.value].holding)
    requires w < |t.procs| && t.procs[w].status == Blocked && t.cur != Some(w)
    requires ReleaseFrom(pol, AgeCurrent(t), 0).procs[w].status != Blocked
    ensures ReleaseFrom(pol, AgeCurrent(t), 0).procs[w].status == Ready
    ensures r < NR_RESOURCES && m < |t.wait[r]| && t.wait[r][m] == w && FirstToWake(pol, t.procs, t.wait[r], m)
  {
    var a := AgeCurrent(t);
    hide ReleaseFrom, FirstToWake, Distinct;
    assert a.procs[a.cur.value].holding[0..] == t.procs[t.cur.value].holding;
    WalkWakes(pol, a, 0, w);
    hide WaitsNowhere, Asks;
    r, m :| 0 <= r < NR_RESOURCES && 0 <= m < |a.wait[r]| && a.wait[r][m] == w && FirstToWake(pol, a.procs, a.wait[r], m);
    SameWaiters(pol, t.procs, a.procs, t.wait[r], m);
  }

  /** The running process stands in no queue, and holds each resource once. */
  lemma RunnerWalks(plan: seq<Proc>, t: State)
    requires Settled(plan, t) && t.cur.Some? && t.procs[t.cur.value].status == Running
    ensures WaitsNowhere(t, t.cur.value) && Distinct(t.procs[t.cur.value].holding)
  {
    hide Owners, Placed, Wants, NoDup, Distinct, LocalInv;
    var p := t.procs[t.cur.value];
    assert LocalInv(plan[t.cur.value], p, |p.holding|);
    HeldOnce(plan[t.cur.value], p);
  }

  lemma HeldOnce(p0: Proc, p: Proc)
    requires LocalInv(p0, p, |p.holding|)
    ensures Distinct(p.holding)
  {
    hide Accounted, PendingOnTime;
    HeldDurations(p0, p, |p.holding|);
    AllAged(p.holding);
  }
}
