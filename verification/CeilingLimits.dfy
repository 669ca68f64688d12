/**
 The scripts for which the ceiling works are exactly those that give back together what they hold
 together: next to any other process there is one that gets somebody blocked.
 */
module CeilingLimits {
  import opened Seqs
  import opened SchedModel
  import opened SchedInvariants
  import opened SchedRuns
  import opened SchedCallbacks
  import opened SchedSafety
  import opened Disciplines
  import opened Fairness
  import opened CeilingProtocol
  import opened NestedHoldings

  ghost predicate SomebodyBlocked(t: State) {
    exists i :: 0 <= i < |t.procs| && t.procs[i].status == Blocked
  }

  // ----- Requests still to come -----

  /** The requests for this age or a later one. */
  function Later(q: seq<Request>, age: nat): (r: seq<Request>)
  {
    if q == [] then []
    else if q[0].at >= age then [q[0]] + Later(q[1..], age)
    else Later(q[1..], age)
  }

  lemma {:induction false} LaterNext(q: seq<Request>, age: nat)
    ensures NotDueAt(Later(q, age), age) == Later(q, age + 1) && DueAt(Later(q, age), age) == DueAt(q, age)
  {
    if q != [] {
      LaterNext(q[1..], age);
      var rest := Later(q[1..], age);
      assert ([q[0]] + rest)[1..] == rest;
    }
  }

  lemma {:induction false} LaterAll(q: seq<Request>)
    ensures Later(q, 0) == q
  {
    if q != [] {
      LaterAll(q[1..]);
    }
  }

  /** Two due requests stay two. */
  lemma {:induction false} TwoDue(q: seq<Request>, age: nat, j: nat, k: nat) returns (a: nat, b: nat)
    requires j < k < |q| && q[j].at == age == q[k].at
    ensures a < b < |DueAt(q, age)| && DueAt(q, age)[a] == q[j] && DueAt(q, age)[b] == q[k]
  {
    if j == 0 {
      var c := OneDue(q[1..], age, k - 1);
      a, b := 0, c + 1;
    } else {
      a, b := TwoDue(q[1..], age, j - 1, k - 1);
      if q[0].at == age {
        a, b := a + 1, b + 1;
      }
    }
  }

  lemma {:induction false} OneDue(q: seq<Request>, age: nat, k: nat) returns (b: nat)
    requires k < |q| && q[k].at == age
    ensures b < |DueAt(q, age)| && DueAt(q, age)[b] == q[k]
  {
    if k == 0 {
      b := 0;
    } else {
      b := OneDue(q[1..], age, k - 1);
      if q[0].at == age {
        b := b + 1;
      }
    }
  }

  // ----- A process on its own -----

  /** The process meant to be blocked: as important as process 0, it wants one resource as soon as it starts. */
  function Second(p0: Proc, rid: nat, start: nat): Proc {
    Proc(1, Ready, 0, 1, p0.prioOrig, p0.prioOrig, start, [Request(rid, 0, 1)], [])
  }

  /** Process 0 has run alone for n ticks and has never been blocked. */
  ghost predicate Solo(p0: Proc, s: State, n: nat) {
    && |s.procs| == 2 && s.ticks == n && s.fork == [1] && s.ready == [] && s.cur == Some(0)
    && s.procs[0].age == n && s.procs[0].status == Running && s.procs[0].pending == Later(p0.pending, n)
    && s.procs[1].prio == p0.prioOrig
  }

  /** The same in the middle of a tick, just chosen. */
  ghost predicate SoloChosen(p0: Proc, plan: seq<Proc>, u: State, n: nat) {
    && Launched(plan, u) && |u.procs| == 2 && u.ticks == n && u.fork == [1] && u.cur == Some(0)
    && u.procs[0].age == n && u.procs[0].pending == Later(p0.pending, n) && u.procs[1].prio == p0.prioOrig
  }

  ghost predicate Pair(p0: Proc, plan: seq<Proc>, rid: nat, start: nat) {
    && WellFormedProc(p0) && p0.start == 0 && p0.prioOrig < MAX_PRIO && rid < NR_RESOURCES && start >= 1
    && plan == [p0, Second(p0, rid, start)]
  }

  lemma PairStarts(p0: Proc, plan: seq<Proc>, rid: nat, start: nat)
    requires Pair(p0, plan, rid, start)
    ensures WellFormed(plan) && BelowCeiling(plan) && Inv(plan, Initial(plan)) && Shape(Initial(plan))
    ensures |Initial(plan).procs| == 2 && Initial(plan).procs == plan && Initial(plan).fork == [0, 1]
    ensures Initial(plan).ready == [] && Initial(plan).cur == None && Initial(plan).ticks == 0
  {
    assert seq(2, i => i) == [0, 1];
    InitialInv(plan);
  }

  lemma FirstForks(s: State)
    requires Shape(s) && |s.procs| == 2 && s.ticks == 0 && s.fork == [0, 1] && s.ready == [] && s.cur == None
    requires s.procs[0].start == 0 && s.procs[0].status == Ready && s.procs[1].start > 0
    ensures var f := ForkFrom(s, 0);
      f == s.(fork := [1], ready := [0]) && Candidates(f) == [0] && [0][1..] == []
  {
    assert [0, 1][1..] == [1] && [] + [0] == [0];
    hide ForkFrom, Shape;
    ForksHead(s);
  }

  lemma FirstChosen(p0: Proc, plan: seq<Proc>, rid: nat, start: nat)
    requires Pair(p0, plan, rid, start)
    ensures Shape(Initial(plan)) && SoloChosen(p0, plan, Chosen(Ceiling, Initial(plan)), 0)
  {
    PairStarts(p0, plan, rid, start);
    var s := Initial(plan);
    LaterAll(p0.pending);
    hide Inv, Shape, Chosen, Initial, Launched, ForkFrom, Launch, Candidates, Later, WellFormed, BelowCeiling;
    FirstForks(s);
    ChosenKeeps(Ceiling, plan, s);
    PickedAlone(s, ForkFrom(s, 0));
  }

  /** The only candidate is picked, and but for its status everything stays as it was. */
  lemma PickedAlone(s: State, f: State)
    requires Shape(s) && Shape(f) && f == ForkFrom(s, 0) && Candidates(f) == [0] && |f.procs| == 2
    ensures var u := Chosen(Ceiling, s);
      && u.cur == Some(0) && u.fork == f.fork && SameProgress(f.procs, u.procs)
      && forall i :: 0 <= i < 2 ==> u.procs[i].prio == f.procs[i].prio
  {
    hide Shape, Chosen, ForkFrom, Launch, Candidates;
    PicksFirst(Ceiling, s, f);
    var u := f.(ready := [0][1..], cur := Some(0));
    LaunchFrame(f, u);
    LaunchPrios(f, u);
  }

  lemma NextChosen(p0: Proc, plan: seq<Proc>, rid: nat, start: nat, s: State, n: nat)
    requires Pair(p0, plan, rid, start) && Inv(plan, s) && Shape(s) && Solo(p0, s, n) && n < start && n < p0.lifespan
    ensures SoloChosen(p0, plan, Chosen(Ceiling, s), n)
  {
    hide Inv, Shape, Chosen, Launched, ForkFrom, Launch, Later, WellFormedProc;
    PairFields(p0, plan, s);
    NobodyDue(s, 0);
    AloneCandidate(s);
    ChosenKeeps(Ceiling, plan, s);
    PickedAlone(s, s);
  }

  lemma AloneCandidate(s: State)
    requires Shape(s) && s.cur == Some(0) && s.ready == [] && s.procs[0].status == Running && s.procs[0].age < s.procs[0].lifespan
    ensures Candidates(s) == [0]
  {
    assert [] + [0] == [0];
  }

  lemma PairFields(p0: Proc, plan: seq<Proc>, s: State)
    requires Inv(plan, s) && |plan| == 2 == |s.procs|
    ensures forall i :: 0 <= i < 2 ==> s.procs[i].lifespan == plan[i].lifespan && s.procs[i].start == plan[i].start
    ensures forall i :: 0 <= i < 2 ==> s.procs[i].prioOrig == plan[i].prioOrig
  {
    hide Queues, Placed, Owners, NoLostWakeup, PendingOnTime, HeldOnTime, Accounted;
    forall i | 0 <= i < 2 ensures Fixed(plan[i], s.procs[i]) {
      assert LocalInv(plan[i], s.procs[i], |s.procs[i].holding|);
    }
  }

  function Head(q: seq<nat>): (i: nat)
    ensures q != [] ==> i in q
  {
    if q == [] then 0 else q[0]
  }

  lemma NobodyReady(plan: seq<Proc>, v: State)
    requires Settled(plan, v) && |v.procs| == 2 && v.fork == [1] && v.procs[0].status == Running
    ensures v.ready == []
  {
    hide Locals, Owners, Wants, NoDup, InPlace;
    assert 1 in v.fork;
    assert Head(v.ready) !in v.ready;
  }

  /** A tick that is not blocked leaves of the pending requests those that were not due. */
  lemma SoloPending(plan: seq<Proc>, u: State)
    requires Launched(plan, u) && u.cur.Some? && AcquireFrom(Ceiling, u, 0).1
    ensures var p, p' := u.procs[u.cur.value], Execute(Ceiling, u).procs[u.cur.value]; p'.pending == NotDueAt(p.pending, p.age)
  {
    WalkTakes(Ceiling, u, 0);
    AcquireFromKeeps(Ceiling, plan, u, 0);
    var t := AcquireFrom(Ceiling, u, 0).0;
    HeldPositive(plan, t);
    hide Settled, WakeupUnderWay, NoLostWakeup, AcquireFrom, ReleaseFrom, Walked;
    ReleaseFromHoldings(Ceiling, AgeCurrent(t), 0);
    var p := u.procs[u.cur.value];
    assert p.pending[..0] + NotDueAt(p.pending[0..], p.age) == NotDueAt(p.pending, p.age) by {
      assert p.pending[0..] == p.pending;
    }
  }

  /** The ceiling callbacks change no other process's priority. */
  ghost predicate OthersPrio(s: State, t: State)
    requires s.cur.Some?
  {
    |t.procs| == |s.procs| && forall i :: 0 <= i < |s.procs| && s.cur != Some(i) ==> t.procs[i].prio == s.procs[i].prio
  }

  lemma {:induction false} AcquireOthersPrio(s: State, k: nat)
    requires Shape(s) && s.cur.Some?
    ensures OthersPrio(s, AcquireFrom(Ceiling, s, k).0)
    decreases |s.procs[s.cur.value].pending| - k
  {
    var c := s.cur.value;
    if k < |s.procs[c].pending| {
      if s.procs[c].pending[k].at != s.procs[c].age {
        AcquireOthersPrio(s, k + 1);
      } else {
        var (t, ok) := Acquire(Ceiling, s, s.procs[c].pending[k].rid);
        assert OthersPrio(s, t);
        if ok {
          AcquireOthersPrio(t.(procs := t.procs[c := MovePending(t.procs[c], k)]), k);
        }
      }
    }
  }

  lemma ReleaseOthersPrio(s: State, r: nat)
    requires Shape(s) && s.cur.Some? && r < NR_RESOURCES
    ensures OthersPrio(s, Release(Ceiling, s, r))
  {
    hide FirstMax, RemoveAt;
  }

  lemma {:induction false} ReleaseFromOthersPrio(s: State, k: nat)
    requires Shape(s) && s.cur.Some?
    ensures OthersPrio(s, ReleaseFrom(Ceiling, s, k))
    decreases |s.procs[s.cur.value].holding| - k
  {
    hide Release, RemoveAt;
    var h := s.procs[s.cur.value].holding;
    if k < |h| {
      var h' := h[k := h[k].(dur := Decrement(h[k].dur))];
      if h'[k].dur != 0 {
        ReleaseFromOthersPrio(SetHolding(s, h'), k + 1);
      } else {
        var u := Release(Ceiling, SetHolding(s, h'), h[k].rid);
        ReleaseOthersPrio(SetHolding(s, h'), h[k].rid);
        RemovedRids(h', k);
        ReleaseFromOthersPrio(SetHolding(u, RemoveAt(h', k)), k);
      }
    }
  }

  lemma ExecuteOthersPrio(u: State)
    requires Shape(u) && u.cur.Some?
    ensures OthersPrio(u, Execute(Ceiling, u))
  {
    AcquireOthersPrio(u, 0);
    var (t, ok) := AcquireFrom(Ceiling, u, 0);
    hide Shape;
    if ok {
      ReleaseFromOthersPrio(AgeCurrent(t), 0);
    }
  }

  /** The rest of the tick: process 0 is blocked, or it has run for one more tick. */
  lemma SoloExecutes(p0: Proc, plan: seq<Proc>, u: State, n: nat)
    requires SoloChosen(p0, plan, u, n)
    ensures var v := Execute(Ceiling, u);
      |v.procs| == 2 && (v.procs[0].status == Blocked || Solo(p0, v.(ticks := n + 1), n + 1))
  {
    ExecuteKeeps(Ceiling, plan, u);
    AcquireFromKeeps(Ceiling, plan, u, 0);
    LaterNext(p0.pending, n);
    ExecuteOthersPrio(u);
    var v := Execute(Ceiling, u);
    hide Settled, NoLostWakeup, WakeupUnderWay, AcquireFrom, ReleaseFrom, Later, NotDueAt, DueAt;
    if v.procs[0].status != Blocked {
      SoloPending(plan, u);
      NobodyReady(plan, v);
    }
  }

  lemma SoloTick(p0: Proc, plan: seq<Proc>, s: State, u: State, n: nat)
    requires Shape(s) && u == Chosen(Ceiling, s) && SoloChosen(p0, plan, u, n)
    ensures var t := Tick(Ceiling, s); SomebodyBlocked(t) || Solo(p0, t, n + 1)
  {
    SoloExecutes(p0, plan, u, n);
    TickUnfolds(Ceiling, s);
    hide Shape, Chosen, Execute, Tick, Solo, Launched;
    var v := Execute(Ceiling, u);
    var t := Tick(Ceiling, s);
    assert t == v.(ticks := v.ticks + 1);
    ExecuteTicks(plan, u);
    if v.procs[0].status == Blocked {
      assert t.procs[0].status == Blocked;
    }
  }

  lemma ExecuteTicks(plan: seq<Proc>, u: State)
    requires Launched(plan, u) && u.cur.Some?
    ensures Execute(Ceiling, u).ticks == u.ticks
  {
    ExecuteKeeps(Ceiling, plan, u);
    hide Settled, NoLostWakeup, WakeupUnderWay, Execute;
  }

  lemma {:induction false} AfterLast(pol: Policy, s: State, n: nat)
    requires Shape(s)
    ensures After(pol, s, n + 1) == Tick(pol, After(pol, s, n))
    decreases n
  {
    hide Tick, Shape;
    if n > 0 {
      AfterLast(pol, Tick(pol, s), n - 1);
    }
  }

  lemma SoloFirst(p0: Proc, plan: seq<Proc>, rid: nat, start: nat)
    requires Pair(p0, plan, rid, start)
    ensures Shape(Initial(plan))
    ensures var t := Tick(Ceiling, Initial(plan)); SomebodyBlocked(t) || Solo(p0, t, 1)
  {
    hide Inv, Shape, Initial, Chosen, Tick, Solo, SoloChosen, SomebodyBlocked, Pair;
    FirstChosen(p0, plan, rid, start);
    SoloTick(p0, plan, Initial(plan), Chosen(Ceiling, Initial(plan)), 0);
  }

  lemma SoloNext(p0: Proc, plan: seq<Proc>, rid: nat, start: nat, s: State, n: nat)
    requires Pair(p0, plan, rid, start) && Inv(plan, s) && Solo(p0, s, n) && n < start && n < p0.lifespan
    ensures Shape(s) && var t := Tick(Ceiling, s); SomebodyBlocked(t) || Solo(p0, t, n + 1)
  {
    hide Inv, Shape, Chosen, Tick, Solo, SoloChosen, SomebodyBlocked, Pair;
    InvShape(plan, s);
    NextChosen(p0, plan, rid, start, s, n);
    SoloTick(p0, plan, s, Chosen(Ceiling, s), n);
  }

  /** Until process 1 starts, process 0 runs alone or has been blocked at some point. */
  lemma {:induction false} SoloRun(p0: Proc, plan: seq<Proc>, rid: nat, start: nat, n: nat) returns (m: nat)
    requires Pair(p0, plan, rid, start) && 1 <= n <= start && n <= p0.lifespan
    ensures Shape(Initial(plan)) && Inv(plan, Initial(plan)) && Inv(plan, After(Ceiling, Initial(plan), n))
    ensures SomebodyBlocked(After(Ceiling, Initial(plan), m)) || Solo(p0, After(Ceiling, Initial(plan), n), n)
    decreases n
  {
    hide Inv, Shape, Initial, Tick, Solo, SomebodyBlocked, After, Pair, WellFormed, BelowCeiling;
    PairStarts(p0, plan, rid, start);
    var z := Initial(plan);
    InvAlways(Ceiling, plan, z, n);
    AfterLast(Ceiling, z, n - 1);
    if n == 1 {
      SoloFirst(p0, plan, rid, start);
      AfterNothing(z);
      m := 1;
    } else {
      m := SoloRun(p0, plan, rid, start, n - 1);
      if !SomebodyBlocked(After(Ceiling, z, m)) {
        SoloNext(p0, plan, rid, start, After(Ceiling, z, n - 1), n - 1);
        m := n;
      }
    }
  }

  lemma AfterNothing(s: State)
    requires Shape(s)
    ensures After(Ceiling, s, 0) == s
  {
  }

  // ----- Process 1 is blocked -----

  /** Whatever is given back in the last walk, the priority is the original one afterwards. */
  lemma {:induction false} WalkRestores(s: State, k: nat, j: nat)
    requires Shape(s) && s.cur.Some?
    requires var p := s.procs[s.cur.value];
      p.prio == p.prioOrig || (k <= j < |p.holding| && p.holding[j].dur == 1)
    ensures var p, p' := s.procs[s.cur.value], ReleaseFrom(Ceiling, s, k).procs[s.cur.value]; p'.prio == p.prioOrig
    decreases |s.procs[s.cur.value].holding| - k
  {
    var c := s.cur.value;
    var h := s.procs[c].holding;
    if k < |h| {
      var h' := h[k := h[k].(dur := Decrement(h[k].dur))];
      SetHoldingShape(s, h');
      if h'[k].dur != 0 {
        hide Shape, Release;
        WalkRestores(SetHolding(s, h'), k + 1, j);
      } else {
        RestoredOne(SetHolding(s, h'), h[k].rid);
        RemovedRids(h', k);
        hide Shape, Release, RemoveAt;
        WalkRestores(SetHolding(Release(Ceiling, SetHolding(s, h'), h[k].rid), RemoveAt(h', k)), k, j);
      }
    }
  }

  lemma RestoredOne(s: State, r: nat)
    requires Shape(s) && s.cur.Some? && r < NR_RESOURCES
    ensures var p, p' := s.procs[s.cur.value], Release(Ceiling, s, r).procs[s.cur.value]; p'.prio == p.prioOrig == p'.prioOrig
  {
    hide FirstMax, RemoveAt;
  }

  /** In the last tick of request x process 0 still holds it, so it ends that tick at its original priority. */
  lemma EndsAtOriginal(p0: Proc, plan: seq<Proc>, u: State, n: nat, x: Request)
    requires SoloChosen(p0, plan, u, n) && |plan| == 2 && plan[0] == p0 && WellFormedProc(p0)
    requires x in p0.pending && x.at <= n && x.at + x.dur == n + 1
    requires Execute(Ceiling, u).procs[0].status != Blocked
    ensures Execute(Ceiling, u).procs[0].prio == p0.prioOrig
  {
    ExecuteKeeps(Ceiling, plan, u);
    AcquireFromKeeps(Ceiling, plan, u, 0);
    var t := AcquireFrom(Ceiling, u, 0).0;
    LastTickHeld(p0, plan, t, n, x);
    hide Settled, NoLostWakeup, WakeupUnderWay, AcquireFrom, ReleaseFrom, Shape;
    var j :| 0 <= j < |t.procs[0].holding| && t.procs[0].holding[j].dur == 1;
    WalkRestores(AgeCurrent(t), 0, j);
  }

  lemma LastTickHeld(p0: Proc, plan: seq<Proc>, t: State, n: nat, x: Request)
    requires Settled(plan, t) && |plan| == 2 == |t.procs| && plan[0] == p0 && t.cur == Some(0)
    requires t.procs[0].age == n && Wants(t.procs[0]).None?
    requires x in p0.pending && x.at <= n && x.at + x.dur == n + 1
    ensures exists j :: 0 <= j < |t.procs[0].holding| && t.procs[0].holding[j].dur == 1
    ensures t.procs[0].prioOrig == p0.prioOrig
  {
    var p := t.procs[0];
    assert LocalInv(p0, p, |p.holding|);
    hide Queues, Placed, Owners, Locals, Aged;
    HeldDurations(p0, p, |p.holding|);
    AllAged(p.holding);
    if x.at == n {
      assert x in p.pending || x in p.holding;
      NothingDue(p);
    } else {
      assert x.(dur := 1) in p.holding;
    }
  }

  /** A request of another end that began before this one ended is still held, and owned. */
  lemma StillOwned(p0: Proc, plan: seq<Proc>, s: State, n: nat, y: Request)
    requires Inv(plan, s) && |plan| == 2 && plan[0] == p0 && Solo(p0, s, n)
    requires y in p0.pending && y.at < n < y.at + y.dur
    ensures Shape(s) && y.rid < NR_RESOURCES && s.owner[y.rid] == Some(0)
  {
    OwnedOnSchedule(plan, s, 0, y);
    hide Inv, Shape, Later;
  }

  /** Process 1 starts, is picked because process 0 is no more important, and finds its resource owned. */
  lemma SecondBlocks(p0: Proc, plan: seq<Proc>, rid: nat, start: nat, s: State)
    requires Pair(p0, plan, rid, start) && Inv(plan, s) && Shape(s) && Solo(p0, s, start) && start < p0.lifespan
    requires s.procs[0].prio == p0.prioOrig && s.owner[rid] == Some(0)
    ensures SomebodyBlocked(Tick(Ceiling, s))
  {
    SecondPicked(p0, plan, rid, start, s);
    TickUnfolds(Ceiling, s);
    var u := Chosen(Ceiling, s);
    assert AcquireFrom(Ceiling, u, 0) == (Acquire(Ceiling, u, rid).0, false);
    hide Inv, Shape, Chosen, Tick, Later;
    assert Tick(Ceiling, s).procs[1].status == Blocked;
  }

  /** Process 1 is as its script has it until it starts. */
  lemma SecondWaiting(p0: Proc, plan: seq<Proc>, rid: nat, start: nat, s: State)
    requires Pair(p0, plan, rid, start) && Inv(plan, s) && Solo(p0, s, start)
    ensures s.procs[1] == Second(p0, rid, start) && s.procs[0].lifespan == p0.lifespan
  {
    PairFields(p0, plan, s);
    WaitingAsScripted(plan, s, 1);
    hide Inv, Later;
  }

  lemma WaitingAsScripted(plan: seq<Proc>, s: State, i: nat)
    requires Inv(plan, s) && i in s.fork
    ensures i < |plan| && i < |s.procs| && s.procs[i] == plan[i].(prio := s.procs[i].prio)
  {
  }

  lemma SecondPicked(p0: Proc, plan: seq<Proc>, rid: nat, start: nat, s: State)
    requires Pair(p0, plan, rid, start) && Inv(plan, s) && Shape(s) && Solo(p0, s, start) && start < p0.lifespan
    requires s.procs[0].prio == p0.prioOrig && s.owner[rid] == Some(0)
    ensures var u := Chosen(Ceiling, s);
      && |u.procs| == 2 && u.cur == Some(1) && u.owner[rid] == Some(0) && u.procs[1].age == 0
      && u.procs[1].pending == [Request(rid, 0, 1)]
  {
    hide Inv, Chosen, ForkFrom, Later, Shape, Pair, Launch, Candidates;
    SecondWaiting(p0, plan, rid, start, s);
    SecondForks(s, p0.prioOrig, start);
    var f := ForkFrom(s, 0);
    PicksFirst(Ceiling, s, f);
    LaunchFrame(f, f.(ready := [0], cur := Some(1)));
  }

  lemma SecondForks(s: State, prio: nat, start: nat)
    requires Shape(s) && |s.procs| == 2 && s.ticks == start && s.fork == [1] && s.ready == [] && s.cur == Some(0)
    requires s.procs[1].start == start && s.procs[1].status == Ready
    requires s.procs[0].status == Running && s.procs[0].age < s.procs[0].lifespan && s.procs[0].prio == prio == s.procs[1].prio
    ensures var f := ForkFrom(s, 0);
      f == s.(fork := [], ready := [1]) && Candidates(f) == [1, 0] && [1, 0][1..] == [0]
  {
    assert [1][1..] == [] && [] + [1] == [1] && [1] + [0] == [1, 0];
    hide ForkFrom, Shape;
    ForksHead(s);
  }

  // ----- Any other overlap blocks somebody -----

  /** The state after n ticks, still alone, reached from one that was alone too: the tick between them. */
  lemma LastSoloTick(p0: Proc, plan: seq<Proc>, rid: nat, start: nat, n: nat) returns (u: State, m: nat)
    requires Pair(p0, plan, rid, start) && n < start && n < p0.lifespan
    ensures Shape(Initial(plan))
    ensures SomebodyBlocked(After(Ceiling, Initial(plan), m)) || (
      SoloChosen(p0, plan, u, n) && After(Ceiling, Initial(plan), n + 1) == Execute(Ceiling, u).(ticks := n + 1))
  {
    hide Inv, Shape, Initial, Tick, Solo, SoloChosen, SomebodyBlocked, After, Pair, WellFormed, BelowCeiling, Chosen;
    PairStarts(p0, plan, rid, start);
    var z := Initial(plan);
    AfterLast(Ceiling, z, n);
    m := 0;
    var s := After(Ceiling, z, n);
    u := Chosen(Ceiling, s);
    if n == 0 {
      AfterNothing(z);
      FirstChosen(p0, plan, rid, start);
      TickOfChosen(p0, plan, z, u, 0);
    } else {
      m := SoloRun(p0, plan, rid, start, n);
      if !SomebodyBlocked(After(Ceiling, z, m)) {
        NextChosen(p0, plan, rid, start, s, n);
        TickOfChosen(p0, plan, s, u, n);
      }
    }
  }

  lemma TickOfChosen(p0: Proc, plan: seq<Proc>, s: State, u: State, n: nat)
    requires Shape(s) && u == Chosen(Ceiling, s) && SoloChosen(p0, plan, u, n)
    ensures Tick(Ceiling, s) == Execute(Ceiling, u).(ticks := n + 1)
  {
    TickUnfolds(Ceiling, s);
    ExecuteTicks(plan, u);
    hide Shape, Chosen, Execute, Tick, Launched;
  }

  lemma RequestFits(p0: Proc, x: Request)
    requires WellFormedProc(p0) && x in p0.pending
    ensures x.rid < NR_RESOURCES && x.dur >= 1 && x.at + x.dur <= p0.lifespan
  {
  }

  lemma PairOf(p0: Proc, rid: nat, start: nat)
    requires WellFormedProc(p0) && p0.start == 0 && p0.prioOrig < MAX_PRIO && rid < NR_RESOURCES && start >= 1
    ensures Pair(p0, [p0, Second(p0, rid, start)], rid, start)
    ensures var p1 := Second(p0, rid, start); WellFormedProc(p1) && p1.prioOrig < MAX_PRIO && PairsOk(Together, p1.pending)
  {
  }

  /** Two requests that overlap and end at different ages: a second process is blocked on the later one. */
  lemma EndsApartBlock(p0: Proc, x: Request, y: Request) returns (p1: Proc, m: nat)
    requires WellFormedProc(p0) && p0.start == 0 && p0.prioOrig < MAX_PRIO && x in p0.pending && y in p0.pending
    requires y.at < x.at + x.dur < y.at + y.dur
    ensures WellFormedProc(p1) && p1.prioOrig < MAX_PRIO && PairsOk(Together, p1.pending)
    ensures Shape(Initial([p0, p1])) && SomebodyBlocked(After(Ceiling, Initial([p0, p1]), m))
  {
    hide Inv, Shape, Initial, Tick, Solo, SoloChosen, SomebodyBlocked, After, WellFormed, BelowCeiling, Execute, Pair, Second,
         WellFormedProc, PairsOk;
    var e := x.at + x.dur;
    RequestFits(p0, x);
    RequestFits(p0, y);
    PairOf(p0, y.rid, e);
    p1 := Second(p0, y.rid, e);
    var plan := [p0, p1];
    var z := Initial(plan);
    PairStarts(p0, plan, y.rid, e);
    AfterLast(Ceiling, z, e);
    var u;
    u, m := LastSoloTick(p0, plan, y.rid, e, e - 1);
    if !SomebodyBlocked(After(Ceiling, z, m)) {
      m := SoloRun(p0, plan, y.rid, e, e);
      if !SomebodyBlocked(After(Ceiling, z, m)) {
        ApartBlocks(p0, plan, x, y, u, After(Ceiling, z, e));
        m := e + 1;
      }
    }
  }

  lemma PairMeans(p0: Proc, plan: seq<Proc>, rid: nat, start: nat)
    requires Pair(p0, plan, rid, start)
    ensures WellFormedProc(p0) && |plan| == 2 && plan[0] == p0
  {
  }

  lemma ApartBlocks(p0: Proc, plan: seq<Proc>, x: Request, y: Request, u: State, s: State)
    requires x in p0.pending && y in p0.pending && y.at < x.at + x.dur < y.at + y.dur
    requires Pair(p0, plan, y.rid, x.at + x.dur) && SoloChosen(p0, plan, u, x.at + x.dur - 1)
    requires s == Execute(Ceiling, u).(ticks := x.at + x.dur) && Inv(plan, s) && Solo(p0, s, x.at + x.dur)
    ensures Shape(s) && SomebodyBlocked(Tick(Ceiling, s))
  {
    hide Inv, Shape, Tick, SoloChosen, SomebodyBlocked, Execute, Later, Pair, WellFormedProc;
    InvShape(plan, s);
    PairMeans(p0, plan, y.rid, x.at + x.dur);
    RequestFits(p0, x);
    RequestFits(p0, y);
    EndsAtOriginal(p0, plan, u, x.at + x.dur - 1, x);
    StillOwned(p0, plan, s, x.at + x.dur, y);
    SecondBlocks(p0, plan, y.rid, x.at + x.dur, s);
  }

  /** A process that asks again for what it holds, or twice at once, cannot get through the walk. */
  lemma AsksAgainStops(p0: Proc, plan: seq<Proc>, u: State, n: nat, j: nat, k: nat)
    requires SoloChosen(p0, plan, u, n) && |plan| == 2 && plan[0] == p0 && j < |p0.pending| && k < |p0.pending| && j != k
    requires p0.pending[j].rid == p0.pending[k].rid && p0.pending[k].at == n
    requires p0.pending[j].at <= n < p0.pending[j].at + p0.pending[j].dur
    ensures !AcquireFrom(Ceiling, u, 0).1
  {
    var (t, ok) := AcquireFrom(Ceiling, u, 0);
    if ok {
      AcquireFromKeeps(Ceiling, plan, u, 0);
      WalkTakes(Ceiling, u, 0);
      LaterNext(p0.pending, n);
      var a, b := HeldTwice(p0, plan, u, n, j, k);
      assert u.procs[0].pending[0..] == u.procs[0].pending;
      DistinctHeld(p0, plan, t, a, b);
      assert false;
    }
  }

  /** Where the two would stand in the holding list. */
  lemma HeldTwice(p0: Proc, plan: seq<Proc>, u: State, n: nat, j: nat, k: nat) returns (a: nat, b: nat)
    requires SoloChosen(p0, plan, u, n) && |plan| == 2 && plan[0] == p0 && j < |p0.pending| && k < |p0.pending| && j != k
    requires p0.pending[j].rid == p0.pending[k].rid && p0.pending[k].at == n
    requires p0.pending[j].at <= n < p0.pending[j].at + p0.pending[j].dur
    ensures var h := u.procs[0].holding + DueAt(p0.pending, n); a < b < |h| && h[a].rid == h[b].rid
  {
    hide Launched, Later, DueAt;
    var held := u.procs[0].holding;
    if p0.pending[j].at == n {
      a, b := TwoDue(p0.pending, n, if j < k then j else k, if j < k then k else j);
      a, b := a + |held|, b + |held|;
    } else {
      var x := p0.pending[j];
      HeldSince(p0, plan, u, n, x);
      a :| 0 <= a < |held| && held[a].rid == x.rid;
      b := OneDue(p0.pending, n, k);
      b := b + |held|;
    }
  }

  lemma HeldSince(p0: Proc, plan: seq<Proc>, u: State, n: nat, x: Request)
    requires SoloChosen(p0, plan, u, n) && |plan| == 2 && plan[0] == p0 && x in p0.pending && x.at < n < x.at + x.dur
    ensures exists a :: 0 <= a < |u.procs[0].holding| && u.procs[0].holding[a].rid == x.rid
  {
    var p := u.procs[0];
    assert LocalInv(p0, p, |p.holding|);
    hide Queues, Placed, Owners, Locals, Aged, WakeupUnderWay, Later;
    HeldDurations(p0, p, |p.holding|);
    AllAged(p.holding);
    assert x.(dur := x.at + x.dur - n) in p.holding;
  }

  lemma DistinctHeld(p0: Proc, plan: seq<Proc>, t: State, a: nat, b: nat)
    requires Settled(plan, t) && |plan| == 2 == |t.procs| && plan[0] == p0 && t.cur == Some(0) && a < b < |t.procs[0].holding|
    ensures t.procs[0].holding[a].rid != t.procs[0].holding[b].rid
  {
    var p := t.procs[0];
    assert LocalInv(p0, p, |p.holding|);
    hide Queues, Placed, Owners, Locals, Aged, Accounted, PendingOnTime;
    HeldDurations(p0, p, |p.holding|);
    AllAged(p.holding);
  }

  lemma AsksAgainBlocks(p0: Proc, j: nat, k: nat) returns (p1: Proc, m: nat)
    requires WellFormedProc(p0) && p0.start == 0 && p0.prioOrig < MAX_PRIO
    requires j < |p0.pending| && k < |p0.pending| && j != k && p0.pending[j].rid == p0.pending[k].rid
    requires p0.pending[j].at <= p0.pending[k].at < p0.pending[j].at + p0.pending[j].dur
    ensures WellFormedProc(p1) && p1.prioOrig < MAX_PRIO && PairsOk(Together, p1.pending)
    ensures Shape(Initial([p0, p1])) && SomebodyBlocked(After(Ceiling, Initial([p0, p1]), m))
  {
    hide Inv, Shape, Initial, Tick, Solo, SoloChosen, After, WellFormed, BelowCeiling, SomebodyBlocked, Pair, Second, WellFormedProc,
         PairsOk, Execute;
    var n := p0.pending[k].at;
    RequestFits(p0, p0.pending[j]);
    RequestFits(p0, p0.pending[k]);
    PairOf(p0, p0.pending[k].rid, n + 1);
    p1 := Second(p0, p0.pending[k].rid, n + 1);
    var plan := [p0, p1];
    PairStarts(p0, plan, p0.pending[k].rid, n + 1);
    var u;
    u, m := LastSoloTick(p0, plan, p0.pending[k].rid, n + 1, n);
    if !SomebodyBlocked(After(Ceiling, Initial(plan), m)) {
      AsksAgainStops(p0, plan, u, n, j, k);
      StoppedIsBlocked(p0, plan, u, n);
      m := n + 1;
    }
  }

  lemma StoppedIsBlocked(p0: Proc, plan: seq<Proc>, u: State, n: nat)
    requires SoloChosen(p0, plan, u, n) && !AcquireFrom(Ceiling, u, 0).1
    ensures SomebodyBlocked(Execute(Ceiling, u).(ticks := n + 1))
  {
    AcquireFromKeeps(Ceiling, plan, u, 0);
    hide Settled, WakeupUnderWay, NoLostWakeup, AcquireFrom;
    assert Execute(Ceiling, u).procs[0].status == Blocked;
  }

  /** Next to this process nobody is ever blocked, whoever keeps the discipline. */
  ghost predicate Safe(p0: Proc) {
    forall p1, n ::
      WellFormedProc(p1) && p1.prioOrig < MAX_PRIO && PairsOk(Together, p1.pending) && Shape(Initial([p0, p1])) ==>
        !SomebodyBlocked(After(Ceiling, Initial([p0, p1]), n))
  }

  lemma OverlapBlocks(p0: Proc, j: nat, k: nat) returns (p1: Proc, m: nat)
    requires WellFormedProc(p0) && p0.start == 0 && p0.prioOrig < MAX_PRIO
    requires j < k < |p0.pending| && !PairOk(Together, p0.pending[j], p0.pending[k])
    ensures WellFormedProc(p1) && p1.prioOrig < MAX_PRIO && PairsOk(Together, p1.pending)
    ensures Shape(Initial([p0, p1])) && SomebodyBlocked(After(Ceiling, Initial([p0, p1]), m))
  {
    var x, y := p0.pending[j], p0.pending[k];
    hide WellFormedProc, Initial, After, SomebodyBlocked, Shape;
    if x.at + x.dur < y.at + y.dur {
      p1, m := EndsApartBlock(p0, x, y);
    } else if y.at + y.dur < x.at + x.dur {
      p1, m := EndsApartBlock(p0, y, x);
    } else if x.at <= y.at {
      p1, m := AsksAgainBlocks(p0, j, k);
    } else {
      p1, m := AsksAgainBlocks(p0, k, j);
    }
  }

  /**
   The ceiling is safe for exactly those processes that give back together what they hold together.  For
   any other there is a second process, with a single request, next to which somebody gets blocked.
   */
  lemma SafeIff(p0: Proc)
    requires WellFormedProc(p0) && p0.start == 0 && p0.prioOrig < MAX_PRIO
    ensures Safe(p0) <==> PairsOk(Together, p0.pending)
  {
    hide WellFormedProc, Initial, After, SomebodyBlocked, Shape, PairOk;
    if PairsOk(Together, p0.pending) {
      forall p1, n | WellFormedProc(p1) && p1.prioOrig < MAX_PRIO && PairsOk(Together, p1.pending) && Shape(Initial([p0, p1]))
        ensures !SomebodyBlocked(After(Ceiling, Initial([p0, p1]), n))
      {
        NeverBlocked([p0, p1], n);
        RunnerMeans(After(Ceiling, Initial([p0, p1]), n));
      }
    } else {
      var j, k :| 0 <= j < k < |p0.pending| && !PairOk(Together, p0.pending[j], p0.pending[k]);
      var p1, m := OverlapBlocks(p0, j, k);
    }
  }

  lemma RunnerMeans(t: State)
    requires OnlyRunnerHolds(t)
    ensures !SomebodyBlocked(t)
  {
  }
}
