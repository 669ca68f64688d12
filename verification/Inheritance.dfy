/**
 Priority inheritance.  For scripts whose holding periods do not overlap, an owner runs at
 exactly the highest priority among its own and its waiters', and nobody below a waiter runs.
 */
module InheritanceProtocol {
  import opened Seqs
  import opened SchedModel
  import opened SchedInvariants
  import opened SchedRuns
  import opened Disciplines
  import opened Fairness

  // ----- What a priority decision does -----

  /** `u` is `s` with the highest-priority candidate taken out to run. */
  ghost predicate TookHighest(s: State, u: State, q: seq<nat>) {
    && u.cur.Some? && u.cur.value in q && SamePrios(s.procs, u.procs) && SameProgress(s.procs, u.procs)
    && u.wait == s.wait && u.owner == s.owner && NoDup(u.ready)
    && (forall i :: i in u.ready <==> i in q && i != u.cur.value)
    && (forall i :: i in q ==> i < |s.procs| && u.cur.value < |s.procs| && s.procs[i].prio <= s.procs[u.cur.value].prio)
  }

  lemma TakeHighest(pol: Policy, plan: seq<Proc>, s: State)
    requires Inv(plan, s) && Shape(s) && SomeCandidate(s) && WakesHighest(pol) && pol != Aging
    ensures var q := Candidates(ForkFrom(s, 0)); TookHighest(s, Chosen(pol, s), q) && s.ready <= q
  {
    hide Inv, Chosen, ForkFrom, Candidates, FirstMax, Keys, SameProgress;
    CandidatesExtend(plan, s);
    ChosenFrame(pol, plan, s);
    ChosenKeepsResources(pol, s);
    var f := ForkFrom(s, 0);
    var q := Candidates(f);
    PickedFirstBest(pol, s);
    HighestPriority(pol, f.procs, q);
    var k := FirstMax(Keys(pol, f.procs, q));
    RemoveAtKeepsOthers(q, k);
    hide RemoveAt;
    forall i | i in q ensures i < |s.procs| && s.procs[i].prio <= s.procs[q[k]].prio {
      var j :| 0 <= j < |q| && q[j] == i;
    }
  }

  // ----- The invariant -----

  /** Process o runs at exactly the highest priority among its own and those waiting in q. */
  ghost predicate Exact(procs: seq<Proc>, q: seq<nat>, o: nat)
    requires o < |procs| && Below(q, |procs|)
  {
    && procs[o].prio >= procs[o].prioOrig
    && (forall k :: 0 <= k < |q| ==> procs[q[k]].prio <= procs[o].prio)
    && (procs[o].prio == procs[o].prioOrig || exists k :: 0 <= k < |q| && procs[q[k]].prio == procs[o].prio)
  }

  /** w is on its way to resource r and at least as important as everybody waiting for it. */
  ghost predicate TopWaker(s: State, r: nat, w: nat)
    requires Shape(s) && r < NR_RESOURCES
  {
    w < |s.procs| && Wants(s.procs[w]) == Some(r)
    && forall k :: 0 <= k < |s.wait[r]| ==> s.procs[s.wait[r][k]].prio <= s.procs[w].prio
  }

  ghost predicate OwnersExact(s: State)
    requires Shape(s)
  {
    && (forall i :: 0 <= i < |s.procs| && s.procs[i].holding == [] ==> s.procs[i].prio == s.procs[i].prioOrig)
    && (forall r :: 0 <= r < NR_RESOURCES && s.owner[r].Some? ==> Exact(s.procs, s.wait[r], s.owner[r].value))
  }

  ghost predicate ReadyTopWaker(s: State, r: nat)
    requires Shape(s) && r < NR_RESOURCES
  {
    exists w :: w in s.ready && TopWaker(s, r, w)
  }

  /** Inheritance is exact, and whoever was woken for a free resource outranks those left waiting. */
  ghost predicate InheritanceInv(s: State)
    requires Shape(s)
  {
    && OwnersExact(s)
    && (forall r :: 0 <= r < NR_RESOURCES && s.owner[r].None? && s.wait[r] != [] ==> ReadyTopWaker(s, r))
  }

  /** The same between the scheduling decision and the acquisitions: the chosen process is the most important. */
  ghost predicate InheritanceMid(s: State)
    requires Shape(s)
  {
    && OwnersExact(s)
    && (forall r :: 0 <= r < NR_RESOURCES && s.owner[r].None? && s.wait[r] != [] ==>
      ReadyTopWaker(s, r) || (s.cur.Some? && TopWaker(s, r, s.cur.value)))
    && (s.cur.Some? ==> forall i :: i in s.ready ==> s.procs[i].prio <= s.procs[s.cur.value].prio)
  }

  lemma ProgressWants(ps: seq<Proc>, us: seq<Proc>)
    requires SameProgress(ps, us)
    ensures forall i :: 0 <= i < |ps| ==> Wants(us[i]) == Wants(ps[i]) && us[i].holding == ps[i].holding
  {
  }

  lemma DispatchExact(s: State, u: State, q: seq<nat>)
    requires Shape(s) && Shape(u) && InheritanceInv(s) && TookHighest(s, u, q) && s.ready <= q
    ensures InheritanceMid(u)
  {
    ProgressWants(s.procs, u.procs);
    hide SameProgress, Wants;
    forall r | 0 <= r < NR_RESOURCES && s.owner[r].None? && s.wait[r] != []
      ensures ReadyTopWaker(u, r) || TopWaker(u, r, u.cur.value)
    {
      var w :| w in s.ready && TopWaker(s, r, w);
      assert w in q;
      assert TopWaker(u, r, w);
    }
    forall r | 0 <= r < NR_RESOURCES && u.owner[r].Some? ensures Exact(u.procs, u.wait[r], u.owner[r].value) {
      assert Exact(s.procs, s.wait[r], s.owner[r].value);
    }
  }

  // ----- Acquiring -----

  /** Whoever asks for a resource holds none, and nobody holds two. */
  ghost predicate AskersFree(s: State) {
    forall i :: 0 <= i < |s.procs| ==> |s.procs[i].holding| <= 1 && (Wants(s.procs[i]).Some? ==> s.procs[i].holding == [])
  }

  lemma DisjointAskers(plan: seq<Proc>, s: State)
    requires Settled(plan, s) && AllFollow(Disjoint, s.procs)
    ensures AskersFree(s)
  {
    hide Queues, Placed, Owners, PairsOk, HeldOk, Accounted, PendingOnTime;
    forall i | 0 <= i < |s.procs|
      ensures |s.procs[i].holding| <= 1 && (Wants(s.procs[i]).Some? ==> s.procs[i].holding == [])
    {
      var p := s.procs[i];
      assert Follows(Disjoint, p);
      assert LocalInv(plan[i], p, |p.holding|);
      var d := FirstDueFrom(p.pending, p.age, 0);
      if d < |p.pending| {
        DisjointHoldsNothing(plan[i], p, d);
      }
    }
  }

  /** An owner holds something, so it asks for nothing and waits nowhere. */
  lemma OwnersDoNotWait(plan: seq<Proc>, s: State)
    requires Shape(s) && |plan| == |s.procs| && Queues(plan, s) && Owners(s) && AskersFree(s)
    ensures forall r :: 0 <= r < NR_RESOURCES && s.owner[r].Some? ==>
      s.procs[s.owner[r].value].holding != [] && Wants(s.procs[s.owner[r].value]).None?
    ensures forall r, x, k :: 0 <= r < NR_RESOURCES && s.owner[r].Some? && 0 <= x < NR_RESOURCES && 0 <= k < |s.wait[x]| ==>
      s.wait[x][k] != s.owner[r].value
    ensures forall r, x :: 0 <= r < NR_RESOURCES && 0 <= x < NR_RESOURCES && r != x && s.owner[r].Some? ==>
      s.owner[x] != s.owner[r]
  {
    hide Wants, NoDup;
    forall r | 0 <= r < NR_RESOURCES && s.owner[r].Some?
      ensures s.procs[s.owner[r].value].holding != [] && Wants(s.procs[s.owner[r].value]).None?
      ensures s.procs[s.owner[r].value].holding[0].rid == r
    {
      assert Holds(s.procs[s.owner[r].value], r);
    }
    forall r, x, k | 0 <= r < NR_RESOURCES && s.owner[r].Some? && 0 <= x < NR_RESOURCES && 0 <= k < |s.wait[x]|
      ensures s.wait[x][k] != s.owner[r].value
    {
      assert s.wait[x][k] in s.wait[x];
    }
  }

  /** Whoever reaches a free resource outranks everybody left waiting for it. */
  lemma TakerOutranks(s: State, r: nat)
    requires Shape(s) && s.cur.Some? && r < NR_RESOURCES && s.owner[r].None? && InheritanceMid(s)
    requires Wants(s.procs[s.cur.value]) == Some(r) && s.procs[s.cur.value].holding == []
    ensures Exact(s.procs, s.wait[r], s.cur.value)
  {
    hide Wants;
    if s.wait[r] != [] && ReadyTopWaker(s, r) {
      var w :| w in s.ready && TopWaker(s, r, w);
      assert s.procs[w].prio <= s.procs[s.cur.value].prio;
    }
  }

  lemma TakeExact(s: State, k: nat)
    requires Shape(s) && s.cur.Some? && k < |s.procs[s.cur.value].pending| && OwnersExact(s)
    requires var r := s.procs[s.cur.value].pending[k].rid; s.owner[r].None? && Exact(s.procs, s.wait[r], s.cur.value)
    ensures OwnersExact(Granted(Inheritance, s, k))
  {
    var r := s.procs[s.cur.value].pending[k].rid;
    var t := Granted(Inheritance, s, k);
    assert SamePrios(s.procs, t.procs);
    forall x | 0 <= x < NR_RESOURCES && t.owner[x].Some? ensures Exact(t.procs, t.wait[x], t.owner[x].value) {
      SamePrioExact(s.procs, t.procs, t.wait[x], t.owner[x].value);
    }
  }

  lemma SamePrioExact(ps: seq<Proc>, qs: seq<Proc>, q: seq<nat>, o: nat)
    requires SamePrios(ps, qs) && o < |ps| && Below(q, |ps|) && Exact(ps, q, o)
    ensures Exact(qs, q, o)
  {
  }

  /** Blocking on an owned resource: its owner inherits at least this priority. */
  lemma BlockExact(s: State, r: nat)
    requires Shape(s) && s.cur.Some? && r < NR_RESOURCES && s.owner[r].Some? && InheritanceMid(s)
    requires Wants(s.procs[s.cur.value]) == Some(r) && s.procs[s.cur.value].holding == []
    requires s.procs[s.owner[r].value].holding != [] && Wants(s.procs[s.owner[r].value]).None?
    requires forall x, k :: 0 <= x < NR_RESOURCES && 0 <= k < |s.wait[x]| ==> s.wait[x][k] != s.owner[r].value
    requires forall x :: 0 <= x < NR_RESOURCES && x != r ==> s.owner[x] != s.owner[r]
    ensures InheritanceInv(Acquire(Inheritance, s, r).0)
  {
    var t := Acquire(Inheritance, s, r).0;
    BlockOwnersExact(s, r);
    AcquireProgress(Inheritance, s, r);
    ProgressWants(s.procs, t.procs);
    hide Wants, SameProgress, OwnersExact;
    forall x | 0 <= x < NR_RESOURCES && t.owner[x].None? && t.wait[x] != [] ensures ReadyTopWaker(t, x) {
      var w :| w in s.ready && TopWaker(s, x, w);
      assert TopWaker(t, x, w);
    }
  }

  lemma BlockOwnersExact(s: State, r: nat)
    requires Shape(s) && s.cur.Some? && r < NR_RESOURCES && s.owner[r].Some? && OwnersExact(s)
    requires s.procs[s.cur.value].holding == [] && s.procs[s.owner[r].value].holding != []
    requires forall x, k :: 0 <= x < NR_RESOURCES && 0 <= k < |s.wait[x]| ==> s.wait[x][k] != s.owner[r].value
    requires forall x :: 0 <= x < NR_RESOURCES && x != r ==> s.owner[x] != s.owner[r]
    ensures OwnersExact(Acquire(Inheritance, s, r).0)
  {
    var c, o := s.cur.value, s.owner[r].value;
    var t := Acquire(Inheritance, s, r).0;
    forall x | 0 <= x < NR_RESOURCES && t.owner[x].Some? ensures Exact(t.procs, t.wait[x], t.owner[x].value) {
      assert Exact(s.procs, s.wait[x], s.owner[x].value);
      if x == r {
        assert t.wait[r][|s.wait[r]|] == c;
        assert forall k :: 0 <= k < |s.wait[r]| ==> t.wait[r][k] == s.wait[r][k];
      }
    }
  }

  lemma GrantWakers(s: State, k: nat, x: nat)
    requires Shape(s) && s.cur.Some? && k < |s.procs[s.cur.value].pending| && x < NR_RESOURCES
    requires Wants(s.procs[s.cur.value]) == Some(s.procs[s.cur.value].pending[k].rid)
    requires s.owner[s.procs[s.cur.value].pending[k].rid].None?
    requires x != s.procs[s.cur.value].pending[k].rid && s.wait[x] != []
    requires ReadyTopWaker(s, x) || TopWaker(s, x, s.cur.value)
    ensures ReadyTopWaker(Granted(Inheritance, s, k), x)
  {
    var t := Granted(Inheritance, s, k);
    assert SamePrios(s.procs, t.procs);
    hide Wants;
    var w :| w in s.ready && TopWaker(s, x, w);
    assert TopWaker(t, x, w);
  }

  lemma GrantMid(plan: seq<Proc>, s: State, k: nat)
    requires Acquiring(plan, s, k) && k < |s.procs[s.cur.value].pending| && AskersFree(s) && InheritanceMid(s)
    requires var p := s.procs[s.cur.value]; p.pending[k].at == p.age && s.owner[p.pending[k].rid].None?
    ensures InheritanceMid(Granted(Inheritance, s, k))
  {
    hide Locals, Queues, Placed, Owners, WellFormed, Wants, WakeupUnderWay, OwnersExact, TopWaker, ReadyTopWaker;
    var c := s.cur.value;
    var r := s.procs[c].pending[k].rid;
    TakenWants(s.procs[c], k);
    TakerOutranks(s, r);
    TakeExact(s, k);
    var t := Granted(Inheritance, s, k);
    forall x | 0 <= x < NR_RESOURCES && t.owner[x].None? && t.wait[x] != [] ensures ReadyTopWaker(t, x) {
      GrantWakers(s, k, x);
    }
  }

  lemma {:induction false} AcquireFromExact(plan: seq<Proc>, s: State, k: nat)
    requires Acquiring(plan, s, k) && AllFollow(Disjoint, s.procs) && InheritanceMid(s)
    ensures InheritanceInv(AcquireFrom(Inheritance, s, k).0)
    decreases |s.procs[s.cur.value].pending| - k
  {
    DisjointAskers(plan, s);
    hide AllFollow, Locals, Owners, Queues, Placed, WakeupUnderWay, InheritanceMid, AskersFree;
    var c := s.cur.value;
    if k >= |s.procs[c].pending| {
      MidDone(plan, s, k);
    } else if s.procs[c].pending[k].at != s.procs[c].age {
      AcquireFromExact(plan, s, k + 1);
    } else if s.owner[s.procs[c].pending[k].rid].None? {
      GrantMid(plan, s, k);
      GrantKeeps(Inheritance, plan, s, k);
      GrantFollows(Disjoint, Inheritance, plan, s, k);
      hide Acquire;
      AcquireFromExact(plan, Granted(Inheritance, s, k), k);
    } else {
      BlockInv(plan, s, k);
    }
  }

  lemma BlockInv(plan: seq<Proc>, s: State, k: nat)
    requires Acquiring(plan, s, k) && k < |s.procs[s.cur.value].pending| && AskersFree(s) && InheritanceMid(s)
    requires var p := s.procs[s.cur.value]; p.pending[k].at == p.age && s.owner[p.pending[k].rid].Some?
    ensures InheritanceInv(Acquire(Inheritance, s, s.procs[s.cur.value].pending[k].rid).0)
  {
    TakenWants(s.procs[s.cur.value], k);
    OwnersDoNotWait(plan, s);
    hide Queues, Placed, Owners, Locals, Wants, WakeupUnderWay, InheritanceMid, InheritanceInv;
    BlockExact(s, s.procs[s.cur.value].pending[k].rid);
  }

  lemma MidDone(plan: seq<Proc>, s: State, k: nat)
    requires Acquiring(plan, s, k) && k >= |s.procs[s.cur.value].pending| && InheritanceMid(s)
    ensures InheritanceInv(s)
  {
    FullyAcquired(plan, s, k);
    hide Settled, Wants, WakeupUnderWay, NoLostWakeup, OwnersExact;
  }

  // ----- Releasing -----

  lemma AgeExact(s: State)
    requires Shape(s) && s.cur.Some? && InheritanceInv(s) && s.cur.value !in s.ready
    ensures InheritanceInv(AgeCurrent(s))
  {
    var t := AgeCurrent(s);
    assert SamePrios(s.procs, t.procs);
    hide Wants;
    forall r | 0 <= r < NR_RESOURCES && ReadyTopWaker(s, r) ensures ReadyTopWaker(t, r) {
      var w :| w in s.ready && TopWaker(s, r, w);
      assert TopWaker(t, r, w);
    }
    forall x | 0 <= x < NR_RESOURCES && t.owner[x].Some? ensures Exact(t.procs, t.wait[x], t.owner[x].value) {
      SamePrioExact(s.procs, t.procs, t.wait[x], t.owner[x].value);
    }
  }

  /** A nonempty holding list may change as long as it stays nonempty. */
  lemma HoldingExact(s: State, h: seq<Request>)
    requires Shape(s) && s.cur.Some? && InheritanceInv(s) && h != [] && s.procs[s.cur.value].holding != []
    requires forall k :: 0 <= k < |h| ==> h[k].rid < NR_RESOURCES
    ensures InheritanceInv(SetHolding(s, h))
  {
    var t := SetHolding(s, h);
    assert SamePrios(s.procs, t.procs);
    assert Wants(t.procs[s.cur.value]) == Wants(s.procs[s.cur.value]);
    hide Wants;
    forall r | 0 <= r < NR_RESOURCES && ReadyTopWaker(s, r) ensures ReadyTopWaker(t, r) {
      var w :| w in s.ready && TopWaker(s, r, w);
      assert TopWaker(t, r, w);
    }
    forall x | 0 <= x < NR_RESOURCES && t.owner[x].Some? ensures Exact(t.procs, t.wait[x], t.owner[x].value) {
      SamePrioExact(s.procs, t.procs, t.wait[x], t.owner[x].value);
    }
  }

  /** The state after the only held resource r has been given back. */
  function GivenBack(s: State, r: nat): State
    requires Shape(s) && s.cur.Some? && r < NR_RESOURCES
  {
    SetHolding(Release(Inheritance, s, r), [])
  }

  lemma GiveBackOwners(s: State, r: nat)
    requires Shape(s) && s.cur.Some? && r < NR_RESOURCES && OwnersExact(s)
    requires forall x, k :: 0 <= x < NR_RESOURCES && 0 <= k < |s.wait[x]| ==> s.wait[x][k] != s.cur.value
    requires forall x :: 0 <= x < NR_RESOURCES && x != r ==> s.owner[x] != s.cur
    requires forall k :: 0 <= k < |s.wait[r]| ==> s.procs[s.wait[r][k]].holding == []
    ensures OwnersExact(GivenBack(s, r))
  {
    var t := GivenBack(s, r);
    hide FirstMax, RemoveAt;
    assert forall i :: 0 <= i < |s.procs| && i != s.cur.value ==>
      t.procs[i].prio == s.procs[i].prio && t.procs[i].prioOrig == s.procs[i].prioOrig && t.procs[i].holding == s.procs[i].holding;
    forall x | 0 <= x < NR_RESOURCES && t.owner[x].Some? ensures Exact(t.procs, t.wait[x], t.owner[x].value) {
      assert Exact(s.procs, s.wait[x], s.owner[x].value);
    }
  }

  /** The woken waiter outranks those left behind. */
  lemma WokenOutranks(s: State, r: nat)
    requires Shape(s) && s.cur.Some? && r < NR_RESOURCES && s.wait[r] != []
    requires forall k :: 0 <= k < |s.wait[r]| ==> s.wait[r][k] != s.cur.value && Wants(s.procs[s.wait[r][k]]) == Some(r)
    ensures ReadyTopWaker(GivenBack(s, r), r)
  {
    var t := GivenBack(s, r);
    var procs := s.procs[s.cur.value := s.procs[s.cur.value].(prio := s.procs[s.cur.value].prioOrig)];
    var q := s.wait[r];
    var k := WakeIndex(Inheritance, procs, q);
    HighestPriority(Prio, procs, q);
    var w := q[k];
    assert Wants(t.procs[w]) == Wants(s.procs[w]);
    hide Wants, FirstMax;
    assert t.ready[|s.ready|] == w;
    assert w in t.ready;
    assert forall i :: 0 <= i < |s.procs| ==> t.procs[i].prio == procs[i].prio;
    forall j | 0 <= j < |t.wait[r]| ensures t.procs[t.wait[r][j]].prio <= t.procs[w].prio {
      var j' := if j < k then j else j + 1;
      assert t.wait[r][j] == q[j'];
      assert procs[q[j']].prio <= procs[q[k]].prio;
    }
    assert TopWaker(t, r, w);
  }

  lemma OtherWakers(s: State, r: nat, x: nat)
    requires Shape(s) && s.cur.Some? && r < NR_RESOURCES && x < NR_RESOURCES && x != r && ReadyTopWaker(s, x)
    requires s.cur.value !in s.ready
    requires forall k :: 0 <= k < |s.wait[x]| ==> s.wait[x][k] != s.cur.value
    ensures ReadyTopWaker(GivenBack(s, r), x)
  {
    var t := GivenBack(s, r);
    ReleaseKeepsProc(Inheritance, s, r);
    var w :| w in s.ready && TopWaker(s, x, w);
    assert Wants(t.procs[w]) == Wants(s.procs[w]);
    hide Wants, FirstMax, RemoveAt;
    assert w in t.ready;
    assert forall i :: 0 <= i < |s.procs| && i != s.cur.value ==> t.procs[i].prio == s.procs[i].prio;
    assert TopWaker(t, x, w);
  }

  /** What the release walk starts from: a running process that holds at most its one resource. */
  ghost predicate RunsAlone(s: State)
    requires Shape(s)
  {
    && s.cur.Some? && s.cur.value !in s.ready && |s.procs[s.cur.value].holding| <= 1
    && (forall x, k :: 0 <= x < NR_RESOURCES && 0 <= k < |s.wait[x]| ==>
      && s.wait[x][k] != s.cur.value && Wants(s.procs[s.wait[x][k]]) == Some(x)
      && s.procs[s.wait[x][k]].holding == [])
    && (forall x :: 0 <= x < NR_RESOURCES ==> (s.owner[x] == s.cur <==> Holds(s.procs[s.cur.value], x)))
  }

  lemma RedatedRunsAlone(s: State, h: seq<Request>)
    requires Shape(s) && RunsAlone(s) && |h| == |s.procs[s.cur.value].holding|
    requires forall j :: 0 <= j < |h| ==> h[j].rid == s.procs[s.cur.value].holding[j].rid
    ensures (forall j :: 0 <= j < |h| ==> h[j].rid < NR_RESOURCES) && RunsAlone(SetHolding(s, h))
  {
    var t := SetHolding(s, h);
    hide Wants;
    forall x ensures Holds(t.procs[s.cur.value], x) <==> Holds(s.procs[s.cur.value], x) {
    }
  }

  lemma GiveBackExact(s: State, r: nat)
    requires Shape(s) && RunsAlone(s) && InheritanceInv(s) && s.procs[s.cur.value].holding != []
    requires r == s.procs[s.cur.value].holding[0].rid
    ensures InheritanceInv(GivenBack(s, r))
  {
    var t := GivenBack(s, r);
    assert t.owner == s.owner[r := None] && (forall x :: 0 <= x < NR_RESOURCES && x != r ==> t.wait[x] == s.wait[x]) by {
      hide FirstMax, RemoveAt;
    }
    assert s.wait[r] == [] ==> t.wait[r] == [];
    hide Wants, GivenBack, OwnersExact;
    GiveBackOwners(s, r);
    forall x | 0 <= x < NR_RESOURCES && t.owner[x].None? && t.wait[x] != [] ensures ReadyTopWaker(t, x) {
      if x == r {
        WokenOutranks(s, r);
      } else {
        OtherWakers(s, r, x);
      }
    }
  }

  lemma ReleaseWalkExact(s: State)
    requires Shape(s) && RunsAlone(s) && InheritanceInv(s)
    requires forall j :: 0 <= j < |s.procs[s.cur.value].holding| ==> s.procs[s.cur.value].holding[j].dur >= 1
    ensures InheritanceInv(ReleaseFrom(Inheritance, s, 0))
  {
    var c := s.cur.value;
    var h := s.procs[c].holding;
    if h != [] {
      var h' := [h[0].(dur := h[0].dur - 1)];
      assert h[0 := h[0].(dur := Decrement(h[0].dur))] == h';
      RedatedRunsAlone(s, h');
      var u := SetHolding(s, h');
      HoldingExact(s, h');
      if h'[0].dur != 0 {
        SingleWalkKeeps(s);
      } else {
        GiveBackExact(u, h[0].rid);
        SingleWalkReleases(s);
      }
    }
  }

  lemma SingleWalkKeeps(s: State)
    requires Shape(s) && s.cur.Some? && |s.procs[s.cur.value].holding| == 1 && s.procs[s.cur.value].holding[0].dur > 1
    ensures var h := s.procs[s.cur.value].holding;
      ReleaseFrom(Inheritance, s, 0) == SetHolding(s, [h[0].(dur := h[0].dur - 1)])
  {
    var h := s.procs[s.cur.value].holding;
    assert h[0 := h[0].(dur := Decrement(h[0].dur))] == [h[0].(dur := h[0].dur - 1)];
    assert ReleaseFrom(Inheritance, s, 0) == ReleaseFrom(Inheritance, SetHolding(s, [h[0].(dur := h[0].dur - 1)]), 1);
  }

  lemma SingleWalkReleases(s: State)
    requires Shape(s) && s.cur.Some? && |s.procs[s.cur.value].holding| == 1 && s.procs[s.cur.value].holding[0].dur == 1
    ensures var h := s.procs[s.cur.value].holding;
      ReleaseFrom(Inheritance, s, 0) == GivenBack(SetHolding(s, [h[0].(dur := 0)]), h[0].rid)
  {
    var h := s.procs[s.cur.value].holding;
    var h' := [h[0].(dur := 0)];
    assert h[0 := h[0].(dur := Decrement(h[0].dur))] == h';
    assert RemoveAt(h', 0) == [];
    var v := GivenBack(SetHolding(s, h'), h[0].rid);
    hide Release;
    assert ReleaseFrom(Inheritance, s, 0) == ReleaseFrom(Inheritance, v, 0);
    assert ReleaseFrom(Inheritance, v, 0) == v;
  }

  lemma RunnerAlone(plan: seq<Proc>, s: State)
    requires Settled(plan, s) && AskersFree(s) && s.cur.Some? && s.procs[s.cur.value].status == Running
    ensures RunsAlone(AgeCurrent(s))
  {
    hide Locals, Wants, NoDup, PendingOnTime;
    var c := s.cur.value;
    var t := AgeCurrent(s);
    forall x, k | 0 <= x < NR_RESOURCES && 0 <= k < |s.wait[x]|
      ensures s.wait[x][k] != c && Wants(s.procs[s.wait[x][k]]) == Some(x) && s.procs[s.wait[x][k]].holding == []
    {
      assert s.wait[x][k] in s.wait[x];
    }
    forall x ensures Holds(t.procs[c], x) <==> Holds(s.procs[c], x) {
    }
  }

  // ----- Ticks -----

  lemma ExecuteExact(plan: seq<Proc>, s: State)
    requires Launched(plan, s) && s.cur.Some? && AllFollow(Disjoint, s.procs) && InheritanceMid(s)
    ensures InheritanceInv(Execute(Inheritance, s))
  {
    assert Shape(s);
    hide Settled, WakeupUnderWay, NoLostWakeup, AllFollow, InheritanceMid, InheritanceInv, AskersFree, RunsAlone;
    AcquireFromKeeps(Inheritance, plan, s, 0);
    AcquireFromFollows(Disjoint, Inheritance, plan, s, 0);
    AcquireFromExact(plan, s, 0);
    var (t, ok) := AcquireFrom(Inheritance, s, 0);
    if ok {
      DisjointAskers(plan, t);
      RunnerAlone(plan, t);
      HeldPositive(plan, t);
      RunnerNotReady(plan, t);
      AgeExact(t);
      ReleaseWalkExact(AgeCurrent(t));
    }
  }

  lemma RunnerNotReady(plan: seq<Proc>, s: State)
    requires Settled(plan, s) && s.cur.Some? && s.procs[s.cur.value].status == Running
    ensures Shape(s) && s.cur.value !in s.ready
  {
    hide Locals, Wants, NoDup;
  }

  lemma IdleExact(plan: seq<Proc>, s: State)
    requires Inv(plan, s) && Shape(s) && !SomeCandidate(s) && InheritanceInv(s)
    ensures InheritanceInv(Tick(Inheritance, s))
  {
    hide Inv, ForkFrom, Tick, Launch, Chosen, Candidates, SomeCandidate, Shape;
    IdleSchedule(Inheritance, s);
    ChosenKeepsResources(Inheritance, s);
    ForkKeepsResources(s, 0);
    IdleReady(plan, s);
    var f := ForkFrom(s, 0);
    EmptiedShape(f);
    var t := Launch(f, f.(ready := [], cur := None));
    LaunchPrios(f, f.(ready := [], cur := None));
    LaunchFrame(f, f.(ready := [], cur := None));
    hide SameProgress;
    SameOwnersExact(s, t);
  }

  lemma IdleReady(plan: seq<Proc>, s: State)
    requires Inv(plan, s) && Shape(s) && !SomeCandidate(s)
    ensures s.ready == [] && ForkFrom(s, 0).procs == s.procs
  {
    CandidatesExtend(plan, s);
  }

  lemma SameOwnersExact(s: State, t: State)
    requires Shape(s) && Shape(t) && OwnersExact(s) && SamePrios(s.procs, t.procs) && SameProgress(s.procs, t.procs)
    requires t.owner == s.owner && t.wait == s.wait
    ensures OwnersExact(t)
  {
    forall x | 0 <= x < NR_RESOURCES && t.owner[x].Some? ensures Exact(t.procs, t.wait[x], t.owner[x].value) {
      SamePrioExact(s.procs, t.procs, t.wait[x], t.owner[x].value);
    }
  }

  lemma NextTickExact(t: State)
    requires Shape(t) && InheritanceInv(t)
    ensures InheritanceInv(t.(ticks := t.ticks + 1))
  {
    var u := t.(ticks := t.ticks + 1);
    hide Wants;
    forall r | 0 <= r < NR_RESOURCES && ReadyTopWaker(t, r) ensures ReadyTopWaker(u, r) {
      var w :| w in t.ready && TopWaker(t, r, w);
      assert TopWaker(u, r, w);
    }
  }

  lemma ChosenExact(plan: seq<Proc>, s: State)
    requires Inv(plan, s) && Shape(s) && SomeCandidate(s) && InheritanceInv(s)
    ensures InheritanceMid(Chosen(Inheritance, s)) && Chosen(Inheritance, s).cur.Some?
  {
    hide Inv, Chosen, Candidates, ForkFrom, InheritanceMid, InheritanceInv;
    TakeHighest(Inheritance, plan, s);
    DispatchExact(s, Chosen(Inheritance, s), Candidates(ForkFrom(s, 0)));
  }

  /** Every tick keeps inheritance exact. */
  lemma TickExact(plan: seq<Proc>, s: State)
    requires Inv(plan, s) && Shape(s) && AllFollow(Disjoint, s.procs) && InheritanceInv(s)
    ensures InheritanceInv(Tick(Inheritance, s))
  {
    hide Inv, Shape, Chosen, Tick, Execute, Launched, AllFollow, InheritanceMid, InheritanceInv, SomeCandidate;
    if SomeCandidate(s) {
      ChosenExact(plan, s);
      ChosenKeeps(Inheritance, plan, s);
      TickFollows(Disjoint, Inheritance, plan, s);
      TickUnfolds(Inheritance, s);
      var u := Chosen(Inheritance, s);
      ExecuteExact(plan, u);
      NextTickExact(Execute(Inheritance, u));
    } else {
      IdleExact(plan, s);
    }
  }

  lemma InheritanceStart(plan: seq<Proc>)
    requires WellFormed(plan) && AllDisjoint(plan)
    ensures Shape(Initial(plan)) && Inv(plan, Initial(plan)) && InheritanceInv(Initial(plan))
    ensures AllFollow(Disjoint, Initial(plan).procs)
  {
    InitialInv(plan);
    hide Inv, Shape, PairOk;
    InvShape(plan, Initial(plan));
    forall i | 0 <= i < |plan| ensures plan[i].prio == plan[i].prioOrig && plan[i].holding == [] {
      assert WellFormedProc(plan[i]);
    }
  }

  /** At every tick boundary of every run of non-overlapping scripts, inheritance is exact. */
  lemma {:induction false} InheritanceAlwaysExact(plan: seq<Proc>, s: State, n: nat)
    requires Inv(plan, s) && Shape(s) && AllFollow(Disjoint, s.procs) && InheritanceInv(s)
    ensures InheritanceInv(After(Inheritance, s, n))
    decreases n
  {
    hide Inv, Shape, AllFollow, InheritanceInv, Tick;
    if n > 0 {
      TickExact(plan, s);
      TickKeepsInv(Inheritance, plan, s);
      TickFollows(Disjoint, Inheritance, plan, s);
      InheritanceAlwaysExact(plan, Tick(Inheritance, s), n - 1);
    }
  }

  // ----- No inversion -----

  /** While h waits for r, some candidate is at least as important as h. */
  lemma WaiterHasChampion(plan: seq<Proc>, s: State, r: nat, h: nat) returns (w: nat)
    requires Inv(plan, s) && Shape(s) && InheritanceInv(s) && AskersFree(s)
    requires r < NR_RESOURCES && h in s.wait[r]
    ensures w in Candidates(s) && w < |s.procs| && s.procs[h].prio <= s.procs[w].prio
  {
    var k :| 0 <= k < |s.wait[r]| && s.wait[r][k] == h;
    if s.owner[r].Some? {
      w := s.owner[r].value;
      assert s.procs[h].prio <= s.procs[w].prio by {
        assert Exact(s.procs, s.wait[r], w);
      }
      hide InheritanceInv;
      OwnerIsCandidate(plan, s, r);
    } else {
      hide Locals, Owners, Queues, Placed, Wants;
      w :| w in s.ready && TopWaker(s, r, w);
    }
  }

  lemma OwnerIsCandidate(plan: seq<Proc>, s: State, r: nat)
    requires Settled(plan, s) && AskersFree(s) && r < NR_RESOURCES && s.owner[r].Some?
    ensures s.owner[r].value in Candidates(s)
  {
    OwnersDoNotWait(plan, s);
    OwnerAlive(plan, s, r);
    ForkedHoldNothing(plan, s);
    hide Locals, Wants, Owners, Queues, NoDup;
    assert InPlace(s, s.owner[r].value);
  }

  lemma ForkedHoldNothing(plan: seq<Proc>, s: State)
    requires Settled(plan, s)
    ensures forall i :: i in s.fork ==> s.procs[i].holding == []
  {
    hide LocalInv, Wants, Holds;
    forall i | i in s.fork ensures s.procs[i].holding == [] {
      assert WellFormedProc(plan[i]);
    }
  }

  lemma OwnerAlive(plan: seq<Proc>, s: State, r: nat)
    requires Settled(plan, s) && r < NR_RESOURCES && s.owner[r].Some?
    ensures s.procs[s.owner[r].value].age < s.procs[s.owner[r].value].lifespan
  {
    var o := s.owner[r].value;
    var p := s.procs[o];
    assert Holds(p, r);
    var k :| 0 <= k < |p.holding| && p.holding[k].rid == r;
    assert LocalInv(plan[o], p, |p.holding|);
    assert WellFormedProc(plan[o]);
    hide Queues, Owners, Accounted, PendingOnTime, Wants;
    assert Aged(p.holding, |p.holding|)[k] == p.holding[k];
  }

  /** No priority inversion: while h waits, whoever is picked has at least h's priority. */
  lemma NoInversion(plan: seq<Proc>, s: State, r: nat, h: nat)
    requires Inv(plan, s) && Shape(s) && AllFollow(Disjoint, s.procs) && InheritanceInv(s)
    requires r < NR_RESOURCES && h in s.wait[r]
    ensures var u := Chosen(Inheritance, s);
      u.cur.Some? && u.cur.value < |s.procs| && h < |s.procs| && s.procs[h].prio <= s.procs[u.cur.value].prio
  {
    InvAskers(plan, s);
    hide AllFollow;
    var w := WaiterHasChampion(plan, s, r, h);
    ForkKeepsCandidates(plan, s);
    hide Inv, InheritanceInv, Chosen, ForkFrom, Candidates;
    TakeHighest(Inheritance, plan, s);
  }

  lemma InvAskers(plan: seq<Proc>, s: State)
    requires Inv(plan, s) && AllFollow(Disjoint, s.procs)
    ensures AskersFree(s)
  {
    hide AllFollow, Locals, Owners, Queues, Placed, NoLostWakeup;
    DisjointAskers(plan, s);
  }

  lemma ForkKeepsCandidates(plan: seq<Proc>, s: State)
    requires Inv(plan, s) && Shape(s)
    ensures forall i :: i in Candidates(s) ==> i in Candidates(ForkFrom(s, 0))
    ensures Candidates(s) != [] ==> SomeCandidate(s)
  {
    CandidatesExtend(plan, s);
    ForkFromKeeps(plan, s, 0);
    hide Settled, NoLostWakeup, ForkFrom;
    if Candidates(s) != [] {
      assert Candidates(s)[0] in Candidates(ForkFrom(s, 0));
    }
  }
}
