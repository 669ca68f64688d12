/** How long a ready process waits under round robin and under aging. */
module Fairness {
  import opened Seqs
  import opened SchedModel
  import opened SchedInvariants
  import opened SchedRuns

  // ----- What a tick does to the ready queue -----

  /** The ready queue a scheduling decision sees: the old one, then new arrivals, then the preempted process. */
  lemma CandidatesExtend(plan: seq<Proc>, s: State)
    requires Inv(plan, s)
    ensures var f := ForkFrom(s, 0);
      && s.ready <= Candidates(f) && NoDup(Candidates(f)) && f.procs == s.procs
      && (forall i :: i in Candidates(f) ==> i < |s.procs|)
      && (forall k :: 0 <= k < |Candidates(f)| ==> Candidates(f)[k] < |s.procs|)
  {
    ForkFromKeeps(plan, s, 0);
    CandidateFacts(plan, ForkFrom(s, 0));
    forall k | 0 <= k < |Candidates(ForkFrom(s, 0))| ensures Candidates(ForkFrom(s, 0))[k] < |s.procs| {
      assert Candidates(ForkFrom(s, 0))[k] in Candidates(ForkFrom(s, 0));
    }
    hide ForkFrom, Settled, NoLostWakeup;
  }

  lemma ScheduleTakesBest(pol: Policy, f: State)
    requires Shape(f) && Preemptive(pol) && Candidates(f) != []
    ensures var q := Candidates(f);
      var k := FirstMax(Keys(pol, f.procs, q));
      Schedule(pol, f) == f.(ready := RemoveAt(q, k), cur := Some(q[k]),
                             procs := if pol == Aging then Boost(f.procs, q, q[k]) else f.procs)
  {
    hide FirstMax, RemoveAt;
  }

  lemma LaunchPrios(f: State, u: State)
    requires Shape(f) && Shape(u) && |u.procs| == |f.procs|
    ensures var t := Launch(f, u);
      |t.procs| == |f.procs| && t.cur == u.cur && t.ready == u.ready
      && forall i :: 0 <= i < |f.procs| ==> t.procs[i].prio == u.procs[i].prio && t.procs[i].prioOrig == u.procs[i].prioOrig
  {
  }

  /** A preemptive decision takes the first best candidate out of the queue. */
  lemma PickedFirstBest(pol: Policy, s: State)
    requires Shape(s) && Preemptive(pol) && Candidates(ForkFrom(s, 0)) != []
    ensures var f := ForkFrom(s, 0);
      var q := Candidates(f);
      var k := FirstMax(Keys(pol, f.procs, q));
      var u := Chosen(pol, s);
      var procs := if pol == Aging then Boost(f.procs, q, q[k]) else f.procs;
      && u.cur == Some(q[k]) && u.ready == RemoveAt(q, k) && |u.procs| == |f.procs|
      && forall i :: 0 <= i < |f.procs| ==> u.procs[i].prio == procs[i].prio && u.procs[i].prioOrig == procs[i].prioOrig
  {
    var f := ForkFrom(s, 0);
    ChosenIsLaunch(pol, s);
    ScheduleTakesBest(pol, f);
    LaunchPrios(f, Schedule(pol, f));
    hide ForkFrom, Chosen, Launch, Schedule, FirstMax, RemoveAt, Boost;
  }

  /** The rest of the tick only appends to the ready queue. */
  lemma TickExtends(pol: Policy, plan: seq<Proc>, s: State)
    requires Inv(plan, s)
    ensures Chosen(pol, s).ready <= Tick(pol, s).ready
    ensures |Tick(pol, s).procs| == |s.procs|
  {
    InvShape(plan, s);
    ChosenKeeps(pol, plan, s);
    ChosenFrame(pol, plan, s);
    TickUnfolds(pol, s);
    hide Inv, Shape, Settled, WakeupUnderWay, Chosen, Execute, Tick, SameProgress;
    var u := Chosen(pol, s);
    assert |u.procs| == |s.procs| by {
      ChosenSize(pol, s);
    }
    if u.cur.Some? {
      ExecuteKeeps(pol, plan, u);
    }
  }

  lemma ChosenSize(pol: Policy, s: State)
    requires Shape(s)
    ensures |Chosen(pol, s).procs| == |s.procs|
  {
    ForkFromSize(s, 0);
    hide ForkFrom, FirstMax;
  }

  lemma {:induction false} ForkFromSize(s: State, k: nat)
    requires Shape(s)
    ensures |ForkFrom(s, k).procs| == |s.procs|
    decreases |s.fork| - k
  {
    if k < |s.fork| {
      var i := s.fork[k];
      if s.procs[i].start <= s.ticks {
        ForkFromSize(s.(fork := RemoveAt(s.fork, k), ready := s.ready + [i], procs := s.procs[i := s.procs[i].(status := Ready)]), k);
      } else {
        ForkFromSize(s, k + 1);
      }
    }
  }

  // ----- Round robin -----

  lemma EqualKeysPickFirst(procs: seq<Proc>, q: seq<nat>)
    requires |q| > 0 && forall k :: 0 <= k < |q| ==> q[k] < |procs|
    ensures FirstMax(Keys(Rr, procs, q)) == 0
  {
    var keys := Keys(Rr, procs, q);
    var k := FirstMax(keys);
    hide FirstMax;
    assert keys[0] == 0 && keys[k] == 0;
  }

  /** One decision of round robin serves the head of the queue and moves everybody else up by one. */
  lemma RoundRobinStep(plan: seq<Proc>, s: State, k: nat)
    requires Inv(plan, s) && k < |s.ready|
    ensures Chosen(Rr, s).cur == Some(s.ready[0])
    ensures var t := Tick(Rr, s); k > 0 ==> k - 1 < |t.ready| && t.ready[k - 1] == s.ready[k]
  {
    hide Inv, Shape, Chosen, Tick, ForkFrom, Candidates, Keys, FirstMax;
    InvShape(plan, s);
    CandidatesExtend(plan, s);
    var f := ForkFrom(s, 0);
    PickedFirstBest(Rr, s);
    EqualKeysPickFirst(f.procs, Candidates(f));
    TickExtends(Rr, plan, s);
  }

  /** A process at position k is picked by exactly the (k + 1)-th following decision. */
  lemma {:induction false} RoundRobinExact(plan: seq<Proc>, s: State, k: nat)
    requires Inv(plan, s) && k < |s.ready|
    ensures Shape(s) && PickedAt(Rr, s, k) == Some(s.ready[k])
    ensures forall j :: 0 <= j < k ==> PickedAt(Rr, s, j) != Some(s.ready[k])
    decreases k
  {
    hide Inv, Shape, Chosen, Tick, After, PickedAt;
    InvShape(plan, s);
    RoundRobinStep(plan, s, k);
    ReadyNoDup(plan, s);
    PickedLater(Rr, s, 0);
    if k > 0 {
      TickKeepsInv(Rr, plan, s);
      RoundRobinExact(plan, Tick(Rr, s), k - 1);
      PickedLater(Rr, s, k - 1);
      forall j | 0 < j < k ensures PickedAt(Rr, s, j) != Some(s.ready[k]) {
        PickedLater(Rr, s, j - 1);
      }
    }
  }

  lemma ReadyNoDup(plan: seq<Proc>, s: State)
    requires Inv(plan, s)
    ensures NoDup(s.ready)
  {
  }

  // ----- Aging -----

  /** Only waiting in the ready queue earns priority. */
  ghost predicate AgingInv(s: State) {
    forall i :: 0 <= i < |s.procs| ==>
      s.procs[i].prio >= s.procs[i].prioOrig && (i !in s.ready ==> s.procs[i].prio == s.procs[i].prioOrig)
  }

  ghost predicate SamePrios(ps: seq<Proc>, qs: seq<Proc>) {
    |ps| == |qs| && forall i :: 0 <= i < |ps| ==> qs[i].prio == ps[i].prio && qs[i].prioOrig == ps[i].prioOrig
  }

  lemma {:induction false} AcquireFromPrios(pol: Policy, s: State, k: nat)
    requires Shape(s) && s.cur.Some? && pol != Ceiling && pol != Inheritance
    ensures SamePrios(s.procs, AcquireFrom(pol, s, k).0.procs)
    decreases |s.procs[s.cur.value].pending| - k
  {
    var c := s.cur.value;
    if k < |s.procs[c].pending| {
      if s.procs[c].pending[k].at != s.procs[c].age {
        AcquireFromPrios(pol, s, k + 1);
      } else {
        var (t, ok) := Acquire(pol, s, s.procs[c].pending[k].rid);
        assert SamePrios(s.procs, t.procs);
        if ok {
          AcquireFromPrios(pol, t.(procs := t.procs[c := MovePending(t.procs[c], k)]), k);
        }
      }
    }
  }

  lemma ReleasePrios(pol: Policy, s: State, r: nat)
    requires Shape(s) && s.cur.Some? && pol != Ceiling && pol != Inheritance && r < NR_RESOURCES
    ensures SamePrios(s.procs, Release(pol, s, r).procs)
  {
    hide FirstMax, RemoveAt;
  }

  lemma {:induction false} ReleaseFromPrios(pol: Policy, s: State, k: nat)
    requires Shape(s) && s.cur.Some? && pol != Ceiling && pol != Inheritance
    ensures SamePrios(s.procs, ReleaseFrom(pol, s, k).procs)
    decreases |s.procs[s.cur.value].holding| - k
  {
    hide Release, RemoveAt;
    var h := s.procs[s.cur.value].holding;
    if k < |h| {
      var h' := h[k := h[k].(dur := Decrement(h[k].dur))];
      if h'[k].dur != 0 {
        ReleaseFromPrios(pol, SetHolding(s, h'), k + 1);
      } else {
        var u := Release(pol, SetHolding(s, h'), h[k].rid);
        ReleasePrios(pol, SetHolding(s, h'), h[k].rid);
        RemovedRids(h', k);
        ReleaseFromPrios(pol, SetHolding(u, RemoveAt(h', k)), k);
      }
    }
  }

  /** Without inheritance or ceilings, running and blocking never touch priorities. */
  lemma ExecutePrios(pol: Policy, s: State)
    requires Shape(s) && s.cur.Some? && pol != Ceiling && pol != Inheritance
    ensures SamePrios(s.procs, Execute(pol, s).procs)
  {
    AcquireFromPrios(pol, s, 0);
    var (t, ok) := AcquireFrom(pol, s, 0);
    hide Shape;
    if ok {
      ReleaseFromPrios(pol, AgeCurrent(t), 0);
    }
  }

  /** Priority of process i after an aging decision over queue `q` that chose position k. */
  function AgedPrio(procs: seq<Proc>, q: seq<nat>, k: nat, i: nat): nat
    requires k < |q| && i < |procs|
  {
    if i == q[k] then procs[i].prioOrig else if i in q then procs[i].prio + 1 else procs[i].prio
  }

  /** What one aging tick does to queue and priorities: `q` is the queue chosen from, `k` the choice. */
  ghost predicate AgingTick(s: State, t: State, q: seq<nat>, k: nat) {
    && k < |q| && |t.procs| == |s.procs| && NoDup(q) && s.ready <= q && RemoveAt(q, k) <= t.ready
    && (forall j :: 0 <= j < |q| ==> q[j] < |s.procs|)
    && (forall j :: 0 <= j < |q| ==> s.procs[q[j]].prio <= s.procs[q[k]].prio)
    && (forall j :: 0 <= j < k ==> s.procs[q[j]].prio < s.procs[q[k]].prio)
    && (forall i :: 0 <= i < |s.procs| ==> t.procs[i].prioOrig == s.procs[i].prioOrig)
    && (forall i :: 0 <= i < |s.procs| ==> t.procs[i].prio == AgedPrio(s.procs, q, k, i))
  }

  ghost predicate SomeCandidate(s: State)
    requires Shape(s)
  {
    Candidates(ForkFrom(s, 0)) != []
  }

  lemma ReadyIsCandidate(plan: seq<Proc>, s: State)
    requires Inv(plan, s) && s.ready != []
    ensures SomeCandidate(s)
  {
    CandidatesExtend(plan, s);
  }

  lemma HighestPriority(pol: Policy, procs: seq<Proc>, q: seq<nat>)
    requires WakesHighest(pol)
    requires |q| > 0 && forall k :: 0 <= k < |q| ==> q[k] < |procs|
    ensures var k := FirstMax(Keys(pol, procs, q));
      && (forall j :: 0 <= j < |q| ==> procs[q[j]].prio <= procs[q[k]].prio)
      && (forall j :: 0 <= j < k ==> procs[q[j]].prio < procs[q[k]].prio)
  {
    var keys := Keys(pol, procs, q);
    var k := FirstMax(keys);
    hide FirstMax;
    assert forall j :: 0 <= j < |q| ==> keys[j] == procs[q[j]].prio;
  }

  lemma BoostAges(procs: seq<Proc>, q: seq<nat>, k: nat)
    requires k < |q|
    ensures var r := Boost(procs, q, q[k]);
      forall i :: 0 <= i < |procs| ==> r[i].prio == AgedPrio(procs, q, k, i) && r[i].prioOrig == procs[i].prioOrig
  {
  }

  lemma AgingPick(plan: seq<Proc>, s: State) returns (q: seq<nat>, k: nat)
    requires Inv(plan, s) && SomeCandidate(s)
    ensures Chosen(Aging, s).cur.Some? && k < |q| && Chosen(Aging, s).cur == Some(q[k])
    ensures Shape(s) && q == Candidates(ForkFrom(s, 0))
    ensures AgingTick(s, Chosen(Aging, s), q, k)
  {
    hide Inv, Shape, Chosen, ForkFrom, Candidates, FirstMax, Keys, Boost, AgedPrio, NoDup, RemoveAt;
    InvShape(plan, s);
    CandidatesExtend(plan, s);
    var f := ForkFrom(s, 0);
    q := Candidates(f);
    PickedFirstBest(Aging, s);
    HighestPriority(Aging, f.procs, q);
    k := FirstMax(Keys(Aging, f.procs, q));
    BoostAges(f.procs, q, k);
  }

  lemma AgingWhole(plan: seq<Proc>, s: State) returns (q: seq<nat>, k: nat)
    requires Inv(plan, s) && SomeCandidate(s)
    ensures Shape(s) && q == Candidates(ForkFrom(s, 0)) && k < |q| && Chosen(Aging, s).cur == Some(q[k])
    ensures AgingTick(s, Tick(Aging, s), q, k)
  {
    hide Inv, Shape, Chosen, Tick, Execute, Launched, SomeCandidate, ForkFrom, Candidates;
    InvShape(plan, s);
    q, k := AgingPick(plan, s);
    ChosenKeeps(Aging, plan, s);
    TickUnfolds(Aging, s);
    TickExtends(Aging, plan, s);
    var u := Chosen(Aging, s);
    ExecutePrios(Aging, u);
  }

  lemma AgingInvStep(s: State, t: State, q: seq<nat>, k: nat)
    requires AgingInv(s) && AgingTick(s, t, q, k)
    ensures AgingInv(t)
  {
    RemoveAtKeepsOthers(q, k);
    hide RemoveAt;
    forall i | i in q && i != q[k] ensures i in t.ready {
      assert i in RemoveAt(q, k);
    }
    forall i | i in s.ready ensures i in q {
    }
  }

  /** x stands before y in the queue. */
  ghost predicate Before(q: seq<nat>, x: nat, y: nat) {
    exists a, b :: 0 <= a < b < |q| && q[a] == x && q[b] == y
  }

  /** The processes that would be chosen before p if nothing new came. */
  ghost function Rivals(s: State, p: nat): set<nat>
    requires p < |s.procs|
  {
    set i | 0 <= i < |s.procs| && i in s.ready && i != p
      && (s.procs[i].prio > s.procs[p].prio || (s.procs[i].prio == s.procs[p].prio && Before(s.ready, i, p)))
  }

  lemma BeforeMember(q: seq<nat>, x: nat, y: nat)
    requires Before(q, x, y)
    ensures x in q
  {
  }

  lemma BeforeInPrefix(q: seq<nat>, r: seq<nat>, x: nat, y: nat)
    requires q <= r && NoDup(r) && y in q && Before(r, x, y)
    ensures Before(q, x, y)
  {
    var a, b :| 0 <= a < b < |r| && r[a] == x && r[b] == y;
    var j :| 0 <= j < |q| && q[j] == y;
    assert r[j] == y;
    assert j == b;
    assert q[a] == x && q[b] == y;
  }

  lemma BeforeInRest(q: seq<nat>, k: nat, x: nat, y: nat)
    requires k < |q| && Before(RemoveAt(q, k), x, y)
    ensures Before(q, x, y)
  {
    var r := RemoveAt(q, k);
    var a, b :| 0 <= a < b < |r| && r[a] == x && r[b] == y;
    assert q[if a < k then a else a + 1] == x && q[if b < k then b else b + 1] == y;
  }

  /** Once p has at least every original priority, newcomers cannot overtake it. */
  lemma RivalsShrink(s: State, t: State, q: seq<nat>, k: nat, p: nat, top: nat)
    requires AgingInv(s) && AgingTick(s, t, q, k) && NoDup(t.ready)
    requires p in s.ready && p < |s.procs| && q[k] != p
    requires forall i :: 0 <= i < |s.procs| ==> s.procs[i].prioOrig <= top
    requires s.procs[p].prio >= top
    ensures Rivals(t, p) <= Rivals(s, p) - {q[k]} && q[k] in Rivals(s, p)
  {
    var c := q[k];
    RemoveAtKeepsOthers(q, k);
    hide AgingInv;
    var b :| 0 <= b < |s.ready| && s.ready[b] == p;
    assert q[b] == p && p in q;
    ChosenIsRival(s, t, q, k, p, top);
    forall i | i in Rivals(t, p) ensures i in Rivals(s, p) && i != c {
      RivalWasRival(s, t, q, k, p, top, i);
    }
  }

  lemma ChosenIsRival(s: State, t: State, q: seq<nat>, k: nat, p: nat, top: nat)
    requires AgingInv(s) && AgingTick(s, t, q, k)
    requires p in s.ready && p < |s.procs| && q[k] != p
    requires forall i :: 0 <= i < |s.procs| ==> s.procs[i].prioOrig <= top
    requires s.procs[p].prio >= top
    ensures q[k] in Rivals(s, p)
  {
    var b :| 0 <= b < |s.ready| && s.ready[b] == p;
    assert q[b] == p;
    var c := q[k];
    if s.procs[c].prio == s.procs[p].prio {
      assert k < b;
      assert s.ready[k] == c && Before(s.ready, c, p);
    }
  }

  lemma RivalWasRival(s: State, t: State, q: seq<nat>, k: nat, p: nat, top: nat, i: nat)
    requires AgingInv(s) && AgingTick(s, t, q, k) && NoDup(t.ready)
    requires p in s.ready && p in q && p < |s.procs| && q[k] != p
    requires forall i :: 0 <= i < |s.procs| ==> s.procs[i].prioOrig <= top
    requires s.procs[p].prio >= top
    requires i in Rivals(t, p)
    ensures i in Rivals(s, p) && i != q[k]
  {
    RemoveAtKeepsOthers(q, k);
    hide RemoveAt, Before;
    assert t.procs[p].prio == s.procs[p].prio + 1;
    if s.procs[i].prio <= s.procs[p].prio {
      assert Before(t.ready, i, p);
      BeforeInPrefix(RemoveAt(q, k), t.ready, i, p);
      BeforeInRest(q, k, i, p);
      BeforeInPrefix(s.ready, q, i, p);
      BeforeMember(s.ready, i, p);
    }
  }

  ghost predicate TopPriority(procs: seq<Proc>, top: nat) {
    forall i :: 0 <= i < |procs| ==> procs[i].prioOrig <= top
  }

  /** How many more decisions p may have to wait for. */
  ghost function WaitBound(s: State, p: nat, top: nat): nat
    requires p < |s.procs|
  {
    if s.procs[p].prio < top then top - s.procs[p].prio + |s.procs| else |Rivals(s, p)| + 1
  }

  lemma RivalsFew(s: State, p: nat)
    requires p < |s.procs|
    ensures |Rivals(s, p)| + 1 <= |s.procs|
  {
    hide Before;
    BoundedSetSize(Rivals(s, p) + {p}, |s.procs|);
    assert p !in Rivals(s, p);
  }

  /** A decision that passes p over brings it closer. */
  lemma WaitShrinks(s: State, t: State, q: seq<nat>, k: nat, p: nat, top: nat)
    requires AgingInv(s) && AgingTick(s, t, q, k) && NoDup(t.ready)
    requires p in s.ready && p < |s.procs| && q[k] != p && TopPriority(s.procs, top)
    ensures |t.procs| == |s.procs| && p in t.ready && t.procs[p].prio == s.procs[p].prio + 1 && TopPriority(t.procs, top)
    ensures WaitBound(t, p, top) < WaitBound(s, p, top)
  {
    RemoveAtKeepsOthers(q, k);
    RivalsFew(t, p);
    if s.procs[p].prio >= top {
      RivalsShrink(s, t, q, k, p, top);
      SubsetSize(Rivals(t, p), Rivals(s, p) - {q[k]});
    }
    hide RemoveAt, Rivals, AgingInv;
    assert p in q;
    assert p in RemoveAt(q, k);
  }

  lemma ReadyBelow(plan: seq<Proc>, s: State, p: nat)
    requires Inv(plan, s) && p in s.ready
    ensures p < |s.procs| && s.ready != []
  {
  }

  /** Waiting under aging is bounded, stated with the exact potential. */
  lemma {:induction false} AgingChooses(plan: seq<Proc>, s: State, p: nat, top: nat) returns (n: nat)
    requires Inv(plan, s) && AgingInv(s) && p in s.ready && p < |s.procs| && TopPriority(s.procs, top)
    ensures Shape(s) && PickedAt(Aging, s, n) == Some(p) && n < WaitBound(s, p, top)
    decreases WaitBound(s, p, top)
  {
    hide Inv, Shape, AgingInv, Chosen, Tick, After, PickedAt, WaitBound, TopPriority, SomeCandidate, ForkFrom, Candidates, AgingTick;
    InvShape(plan, s);
    ReadyBelow(plan, s, p);
    ReadyIsCandidate(plan, s);
    var q, k := AgingWhole(plan, s);
    PickedLater(Aging, s, 0);
    if q[k] == p {
      n := 0;
      WaitPositive(s, p, top);
    } else {
      var t := Tick(Aging, s);
      TickKeepsInv(Aging, plan, s);
      AgingInvStep(s, t, q, k);
      ReadyNoDup(plan, t);
      WaitShrinks(s, t, q, k, p, top);
      var m := AgingChooses(plan, t, p, top);
      PickedLater(Aging, s, m);
      n := m + 1;
    }
  }

  lemma WaitPositive(s: State, p: nat, top: nat)
    requires p < |s.procs|
    ensures WaitBound(s, p, top) > 0
  {
    hide Rivals;
  }

  /** Aging never starves: a ready process is picked within (top - its priority) + (number of processes) decisions. */
  lemma AgingNeverStarves(plan: seq<Proc>, s: State, p: nat, top: nat)
    requires Inv(plan, s) && AgingInv(s) && p in s.ready && TopPriority(s.procs, top)
    ensures Shape(s) && p < |s.procs|
    ensures exists n: nat :: n < (if s.procs[p].prio < top then top - s.procs[p].prio else 0) + |s.procs|
                             && PickedAt(Aging, s, n) == Some(p)
  {
    InvShape(plan, s);
    ReadyBelow(plan, s, p);
    hide Inv, Shape, AgingInv, TopPriority, PickedAt, Rivals;
    var n := AgingChooses(plan, s, p, top);
    RivalsFew(s, p);
  }

  /** The condition aging rests on holds at every tick boundary of every run. */
  lemma {:induction false} AgingInvAlways(plan: seq<Proc>, s: State, n: nat)
    requires Inv(plan, s) && AgingInv(s)
    ensures Shape(s) && AgingInv(After(Aging, s, n))
    decreases n
  {
    hide Inv, Shape, AgingInv, Tick;
    InvShape(plan, s);
    if n > 0 {
      TickKeepsInv(Aging, plan, s);
      AgingInvTick(plan, s);
      AgingInvAlways(plan, Tick(Aging, s), n - 1);
    }
  }

  lemma IdleSchedule(pol: Policy, s: State)
    requires Shape(s) && !SomeCandidate(s)
    ensures var f := ForkFrom(s, 0);
      var t := Launch(f, f.(ready := [], cur := None));
      Tick(pol, s) == t.(ticks := t.ticks + 1)
  {
    var f := ForkFrom(s, 0);
    assert Schedule(pol, f) == f.(ready := [], cur := None);
    ChosenIsLaunch(pol, s);
    TickUnfolds(pol, s);
    hide ForkFrom, Schedule, Tick, Chosen, Execute, Candidates;
  }

  lemma AgingIdle(plan: seq<Proc>, s: State)
    requires Inv(plan, s) && Shape(s) && !SomeCandidate(s)
    ensures SamePrios(s.procs, Tick(Aging, s).procs) && s.ready == []
  {
    IdleSchedule(Aging, s);
    hide Inv, ForkFrom, Tick, Launch;
    CandidatesExtend(plan, s);
    var f := ForkFrom(s, 0);
    LaunchPrios(f, f.(ready := [], cur := None));
  }

  lemma AgingInvTick(plan: seq<Proc>, s: State)
    requires Inv(plan, s) && AgingInv(s)
    ensures Shape(s) && AgingInv(Tick(Aging, s))
  {
    hide Inv, Shape, Tick, ForkFrom, Candidates, AgingTick, SomeCandidate;
    InvShape(plan, s);
    if SomeCandidate(s) {
      var q, k := AgingWhole(plan, s);
      AgingInvStep(s, Tick(Aging, s), q, k);
    } else {
      AgingIdle(plan, s);
    }
  }

  lemma AgingStart(plan: seq<Proc>)
    requires WellFormed(plan)
    ensures AgingInv(Initial(plan))
  {
    forall i | 0 <= i < |plan| ensures plan[i].prio == plan[i].prioOrig {
      assert WellFormedProc(plan[i]);
    }
  }
}
