/**
 The priority ceiling policy.  For scripts in which whatever is held together is given back together,
 and whose priorities are below the ceiling, only the running process ever holds a resource, and nobody
 is ever blocked.
 */
module CeilingProtocol {
  import opened Seqs
  import opened SchedModel
  import opened SchedInvariants
  import opened SchedRuns
  import opened Disciplines
  import opened Fairness
  import opened InheritanceProtocol

  /** Nobody waits; whoever holds something is the current process, at the ceiling priority. */
  ghost predicate CeilingInv(s: State)
    requires Shape(s)
  {
    && (forall r :: 0 <= r < NR_RESOURCES ==> s.wait[r] == [])
    && (forall i :: 0 <= i < |s.procs| ==> s.procs[i].prioOrig < MAX_PRIO)
    && (forall i :: 0 <= i < |s.procs| && s.procs[i].holding == [] ==> s.procs[i].prio == s.procs[i].prioOrig)
    && (forall i :: 0 <= i < |s.procs| && s.procs[i].holding != [] ==> s.procs[i].prio == MAX_PRIO && s.cur == Some(i))
  }

  /** A holder has lifetime left and is not blocked, so it is a candidate. */
  lemma HolderIsCandidate(plan: seq<Proc>, s: State, i: nat)
    requires Settled(plan, s) && CeilingInv(s) && i < |s.procs| && s.procs[i].holding != []
    ensures i in Candidates(s)
  {
    var r := s.procs[i].holding[0].rid;
    assert Holds(s.procs[i], r);
    OwnerAlive(plan, s, r);
    hide Locals, Wants, Queues, NoDup;
    assert InPlace(s, i);
  }

  lemma HoldersStay(plan: seq<Proc>, s: State, i: nat)
    requires Inv(plan, s) && Shape(s) && CeilingInv(s) && i < |s.procs| && s.procs[i].holding != []
    ensures SomeCandidate(s) && i in Candidates(ForkFrom(s, 0))
  {
    hide Locals, Owners, Queues, Placed, NoLostWakeup, CeilingInv;
    HolderIsCandidate(plan, s, i);
    ForkKeepsCandidates(plan, s);
  }

  lemma DispatchCeiling(plan: seq<Proc>, s: State)
    requires Inv(plan, s) && Shape(s) && CeilingInv(s) && SomeCandidate(s)
    ensures CeilingInv(Chosen(Ceiling, s)) && Chosen(Ceiling, s).cur.Some?
  {
    hide Inv, Chosen, Candidates, ForkFrom, SomeCandidate;
    TakeHighest(Ceiling, plan, s);
    var u := Chosen(Ceiling, s);
    forall i | 0 <= i < |s.procs| && s.procs[i].holding != [] ensures u.cur == Some(i) {
      HoldersStay(plan, s, i);
    }
  }

  lemma IdleCeiling(plan: seq<Proc>, s: State)
    requires Inv(plan, s) && Shape(s) && CeilingInv(s) && !SomeCandidate(s)
    ensures CeilingInv(Tick(Ceiling, s))
  {
    hide Inv, Shape, ForkFrom, Tick, Launch, Candidates, SomeCandidate;
    forall i | 0 <= i < |s.procs| ensures s.procs[i].holding == [] {
      if s.procs[i].holding != [] {
        HoldersStay(plan, s, i);
      }
    }
    IdleSchedule(Ceiling, s);
    ForkKeepsResources(s, 0);
    IdleReady(plan, s);
    var f := ForkFrom(s, 0);
    EmptiedShape(f);
    LaunchPrios(f, f.(ready := [], cur := None));
    LaunchFrame(f, f.(ready := [], cur := None));
  }

  /** Nobody else holds anything, and the current process not what it asks for: every request is granted. */
  lemma AskedIsFree(plan: seq<Proc>, s: State, k: nat)
    requires Acquiring(plan, s, k) && k < |s.procs[s.cur.value].pending| && CeilingInv(s) && AllFollow(Together, s.procs)
    requires var p := s.procs[s.cur.value]; p.pending[k].at == p.age
    ensures s.owner[s.procs[s.cur.value].pending[k].rid].None?
  {
    hide LocalInv, Follows, AllFollow;
    AcquiringLocal(plan, s, k);
    var c := s.cur.value;
    NotHeldByAsker(plan[c], s.procs, c, k);
    hide Locals, Queues, Placed, WakeupUnderWay;
    var r := s.procs[c].pending[k].rid;
    assert forall i :: 0 <= i < |s.procs| ==> !Holds(s.procs[i], r);
  }

  lemma NotHeldByAsker(p0: Proc, procs: seq<Proc>, c: nat, k: nat)
    requires c < |procs| && AllFollow(Together, procs) && LocalInv(p0, procs[c], |procs[c].holding|)
    requires k < |procs[c].pending| && procs[c].pending[k].at == procs[c].age
    ensures !Holds(procs[c], procs[c].pending[k].rid)
  {
    hide Accounted, PendingOnTime, Follows;
    assert Follows(Together, procs[c]);
    TogetherEnds(p0, procs[c], procs[c].pending[k]);
  }

  lemma GrantCeiling(s: State, k: nat)
    requires Shape(s) && s.cur.Some? && k < |s.procs[s.cur.value].pending| && CeilingInv(s)
    requires s.owner[s.procs[s.cur.value].pending[k].rid].None?
    ensures CeilingInv(Granted(Ceiling, s, k))
  {
  }

  lemma {:induction false} AcquireFromCeiling(plan: seq<Proc>, s: State, k: nat)
    requires Acquiring(plan, s, k) && AllFollow(Together, s.procs) && CeilingInv(s)
    ensures var (t, ok) := AcquireFrom(Ceiling, s, k); ok && CeilingInv(t)
    decreases |s.procs[s.cur.value].pending| - k
  {
    hide AllFollow, Locals, Owners, Queues, Placed, WakeupUnderWay, CeilingInv;
    var c := s.cur.value;
    if k < |s.procs[c].pending| {
      if s.procs[c].pending[k].at != s.procs[c].age {
        AcquireFromCeiling(plan, s, k + 1);
      } else {
        AskedIsFree(plan, s, k);
        GrantCeiling(s, k);
        GrantKeeps(Ceiling, plan, s, k);
        GrantFollows(Together, Ceiling, plan, s, k);
        AcquireFromCeiling(plan, Granted(Ceiling, s, k), k);
      }
    }
  }

  // ----- Releasing -----

  /** Nobody waits and nobody but the current process holds anything: the ceiling invariant without its last word. */
  ghost predicate OnlyCurrentHolds(s: State)
    requires Shape(s) && s.cur.Some?
  {
    && (forall r :: 0 <= r < NR_RESOURCES ==> s.wait[r] == [])
    && (forall i :: 0 <= i < |s.procs| ==> s.procs[i].prioOrig < MAX_PRIO)
    && (forall i :: 0 <= i < |s.procs| && s.cur != Some(i) ==>
      s.procs[i].holding == [] && s.procs[i].prio == s.procs[i].prioOrig)
  }

  lemma SetHoldingAlone(s: State, h: seq<Request>)
    requires Shape(s) && s.cur.Some? && OnlyCurrentHolds(s) && forall k :: 0 <= k < |h| ==> h[k].rid < NR_RESOURCES
    ensures OnlyCurrentHolds(SetHolding(s, h)) && SetHolding(s, h).procs[s.cur.value] == s.procs[s.cur.value].(holding := h)
  {
  }

  lemma ReleaseAlone(s: State, r: nat)
    requires Shape(s) && s.cur.Some? && OnlyCurrentHolds(s) && r < NR_RESOURCES
    ensures OnlyCurrentHolds(Release(Ceiling, s, r))
    ensures Release(Ceiling, s, r).procs[s.cur.value] == s.procs[s.cur.value].(prio := s.procs[s.cur.value].prioOrig)
  {
  }

  ghost predicate AllLeft(h: seq<Request>, k: nat, one: bool) {
    forall j :: k <= j < |h| ==> if one then h[j].dur == 1 else h[j].dur > 1
  }

  /** Requests with ticks left are all kept, and with them the priority. */
  lemma {:induction false} WalkKeepsAll(s: State, k: nat)
    requires Shape(s) && s.cur.Some? && OnlyCurrentHolds(s) && AllLeft(s.procs[s.cur.value].holding, k, false)
    ensures var t := ReleaseFrom(Ceiling, s, k);
      && OnlyCurrentHolds(t) && t.procs[s.cur.value].prio == s.procs[s.cur.value].prio
      && t.procs[s.cur.value].prioOrig == s.procs[s.cur.value].prioOrig
      && |t.procs[s.cur.value].holding| == |s.procs[s.cur.value].holding|
    decreases |s.procs[s.cur.value].holding| - k
  {
    var h := s.procs[s.cur.value].holding;
    if k < |h| {
      var h' := h[k := h[k].(dur := Decrement(h[k].dur))];
      assert forall j :: 0 <= j < |h'| ==> h'[j].rid == h[j].rid < NR_RESOURCES;
      SetHoldingAlone(s, h');
      hide Shape, Release, OnlyCurrentHolds, SetHolding;
      WalkKeepsAll(SetHolding(s, h'), k + 1);
    }
  }

  /** Requests in their last tick all go; after the first the priority is the original one. */
  lemma {:induction false} WalkDropsAll(s: State)
    requires Shape(s) && s.cur.Some? && OnlyCurrentHolds(s) && AllLeft(s.procs[s.cur.value].holding, 0, true)
    requires s.procs[s.cur.value].holding == [] ==> s.procs[s.cur.value].prio == s.procs[s.cur.value].prioOrig
    ensures var t := ReleaseFrom(Ceiling, s, 0);
      OnlyCurrentHolds(t) && t.procs[s.cur.value].holding == [] && t.procs[s.cur.value].prio == t.procs[s.cur.value].prioOrig
    decreases |s.procs[s.cur.value].holding|
  {
    var h := s.procs[s.cur.value].holding;
    if h != [] {
      var h' := h[0 := h[0].(dur := 0)];
      assert h[0].rid < NR_RESOURCES && forall j :: 0 <= j < |h'| ==> h'[j].rid == h[j].rid < NR_RESOURCES;
      assert RemoveAt(h', 0) == h[1..];
      SetHoldingAlone(s, h');
      ReleaseAlone(SetHolding(s, h'), h[0].rid);
      var u := Release(Ceiling, SetHolding(s, h'), h[0].rid);
      SetHoldingAlone(u, h[1..]);
      hide Shape, Release, OnlyCurrentHolds, SetHolding, RemoveAt;
      WalkDropsAll(SetHolding(u, h[1..]));
    }
  }

  /** Whatever is held has the same time left, so it is all kept or all given back. */
  lemma ReleaseWalkCeiling(s: State)
    requires Shape(s) && s.cur.Some? && CeilingInv(s)
    requires forall h, g :: h in s.procs[s.cur.value].holding && g in s.procs[s.cur.value].holding ==> h.dur == g.dur
    requires forall j :: 0 <= j < |s.procs[s.cur.value].holding| ==> s.procs[s.cur.value].holding[j].dur >= 1
    ensures CeilingInv(ReleaseFrom(Ceiling, s, 0))
  {
    CurrentBelow(s);
    hide ReleaseFrom, OnlyCurrentHolds, CeilingInv, Shape;
    var t := ReleaseFrom(Ceiling, s, 0);
    AloneFrom(s);
    SameForAll(s.procs[s.cur.value].holding);
    hide AllLeft;
    if AllLeft(s.procs[s.cur.value].holding, 0, true) {
      WalkDropsAll(s);
    } else {
      WalkKeepsAll(s, 0);
    }
    AloneTo(t, s);
  }

  lemma SameForAll(h: seq<Request>)
    requires forall x, y :: x in h && y in h ==> x.dur == y.dur
    requires forall j :: 0 <= j < |h| ==> h[j].dur >= 1
    ensures AllLeft(h, 0, true) || (h != [] && AllLeft(h, 0, false))
  {
    if h != [] {
      forall j | 0 <= j < |h| ensures h[j].dur == h[0].dur {
        assert h[j] in h && h[0] in h;
      }
    }
  }

  lemma AloneFrom(s: State)
    requires Shape(s) && s.cur.Some? && CeilingInv(s)
    ensures OnlyCurrentHolds(s) && s.procs[s.cur.value].prioOrig < MAX_PRIO
    ensures s.procs[s.cur.value].prio == if s.procs[s.cur.value].holding == [] then s.procs[s.cur.value].prioOrig else MAX_PRIO
  {
  }

  lemma AloneTo(t: State, s: State)
    requires Shape(t) && t.cur.Some? && t.cur == s.cur && OnlyCurrentHolds(t)
    requires t.procs[t.cur.value].prio == if t.procs[t.cur.value].holding == [] then t.procs[t.cur.value].prioOrig else MAX_PRIO
    ensures CeilingInv(t)
  {
  }

  lemma ExecuteCeiling(plan: seq<Proc>, s: State)
    requires Launched(plan, s) && s.cur.Some? && AllFollow(Together, s.procs) && CeilingInv(s)
    ensures CeilingInv(Execute(Ceiling, s))
  {
    assert Shape(s);
    hide Settled, WakeupUnderWay, NoLostWakeup, AllFollow, CeilingInv;
    AcquireFromKeeps(Ceiling, plan, s, 0);
    AcquireFromFollows(Together, Ceiling, plan, s, 0);
    AcquireFromCeiling(plan, s, 0);
    var (t, ok) := AcquireFrom(Ceiling, s, 0);
    SameLeft(t);
    HeldPositive(plan, t);
    AgeCeiling(t);
    ReleaseWalkCeiling(AgeCurrent(t));
  }

  lemma SameLeft(t: State)
    requires Shape(t) && t.cur.Some? && AllFollow(Together, t.procs)
    ensures forall h, g :: h in t.procs[t.cur.value].holding && g in t.procs[t.cur.value].holding ==> h.dur == g.dur
  {
    assert Follows(Together, t.procs[t.cur.value]);
  }

  lemma AgeCeiling(s: State)
    requires Shape(s) && s.cur.Some? && CeilingInv(s)
    ensures CeilingInv(AgeCurrent(s))
  {
  }

  lemma NextTickCeiling(t: State)
    requires Shape(t) && CeilingInv(t)
    ensures CeilingInv(t.(ticks := t.ticks + 1))
  {
  }

  lemma TickCeiling(plan: seq<Proc>, s: State)
    requires Inv(plan, s) && Shape(s) && AllFollow(Together, s.procs) && CeilingInv(s)
    ensures CeilingInv(Tick(Ceiling, s))
  {
    hide Inv, Shape, Chosen, Tick, Execute, Launched, AllFollow, CeilingInv, SomeCandidate;
    if SomeCandidate(s) {
      DispatchCeiling(plan, s);
      ChosenKeeps(Ceiling, plan, s);
      TickFollows(Together, Ceiling, plan, s);
      TickUnfolds(Ceiling, s);
      var u := Chosen(Ceiling, s);
      ExecuteCeiling(plan, u);
      NextTickCeiling(Execute(Ceiling, u));
    } else {
      IdleCeiling(plan, s);
    }
  }

  lemma {:induction false} CeilingAlways(plan: seq<Proc>, s: State, n: nat)
    requires Inv(plan, s) && Shape(s) && AllFollow(Together, s.procs) && CeilingInv(s)
    ensures CeilingInv(After(Ceiling, s, n))
    decreases n
  {
    hide Inv, Shape, AllFollow, CeilingInv, Tick;
    if n > 0 {
      TickCeiling(plan, s);
      TickKeepsInv(Ceiling, plan, s);
      TickFollows(Together, Ceiling, plan, s);
      CeilingAlways(plan, Tick(Ceiling, s), n - 1);
    }
  }

  ghost predicate BelowCeiling(plan: seq<Proc>) {
    forall i :: 0 <= i < |plan| ==> plan[i].prioOrig < MAX_PRIO
  }

  lemma CeilingStart(plan: seq<Proc>)
    requires WellFormed(plan) && AllTogether(plan) && BelowCeiling(plan)
    ensures Shape(Initial(plan)) && Inv(plan, Initial(plan)) && CeilingInv(Initial(plan))
    ensures AllFollow(Together, Initial(plan).procs)
  {
    InitialInv(plan);
    InvShape(plan, Initial(plan));
    forall i | 0 <= i < |plan| ensures plan[i].prio == plan[i].prioOrig && plan[i].holding == [] {
      assert WellFormedProc(plan[i]);
    }
    hide Inv, Shape, PairOk;
  }

  /** Nobody is blocked, and only the current process owns anything. */
  ghost predicate OnlyRunnerHolds(t: State) {
    && (forall i :: 0 <= i < |t.procs| ==> t.procs[i].status != Blocked)
    && (forall r :: 0 <= r < |t.owner| && t.owner[r].Some? ==> t.owner[r] == t.cur)
  }

  ghost predicate OneOwned(t: State) {
    forall r, x :: 0 <= r < |t.owner| && 0 <= x < |t.owner| && t.owner[r].Some? && t.owner[x].Some? ==> r == x
  }

  lemma CeilingMeans(plan: seq<Proc>, t: State)
    requires Inv(plan, t) && Shape(t) && CeilingInv(t)
    ensures OnlyRunnerHolds(t)
  {
    hide Locals, Wants;
    forall i | 0 <= i < |t.procs| ensures t.procs[i].status != Blocked {
      assert InPlace(t, i);
    }
    forall r | 0 <= r < NR_RESOURCES && t.owner[r].Some? ensures t.owner[r] == t.cur {
      assert Holds(t.procs[t.owner[r].value], r);
    }
  }

  /** Whoever holds at most one resource owns at most one. */
  lemma OneOwnedMeans(plan: seq<Proc>, t: State)
    requires Inv(plan, t) && Shape(t) && AskersFree(t) && OnlyRunnerHolds(t)
    ensures OneOwned(t)
  {
    hide Locals, Wants;
    forall r | 0 <= r < NR_RESOURCES && t.owner[r].Some?
      ensures |t.procs[t.owner[r].value].holding| == 1 && t.procs[t.owner[r].value].holding[0].rid == r
    {
      assert Holds(t.procs[t.owner[r].value], r);
    }
  }

  /**
   The ceiling theorem, in the terms of its users: if whatever a script holds together it gives back
   together, then at every tick boundary nobody is blocked and only the current process can own a resource.
   */
  lemma NeverBlocked(plan: seq<Proc>, n: nat)
    requires WellFormed(plan) && AllTogether(plan) && BelowCeiling(plan)
    ensures Shape(Initial(plan)) && OnlyRunnerHolds(After(Ceiling, Initial(plan), n))
  {
    hide Inv, Shape, AllFollow, CeilingInv, After, Initial, OnlyRunnerHolds, AllTogether, BelowCeiling;
    var s := Initial(plan);
    CeilingStart(plan);
    CeilingAlways(plan, s, n);
    InvAlways(Ceiling, plan, s, n);
    var t := After(Ceiling, s, n);
    InvShape(plan, t);
    CeilingMeans(plan, t);
  }

  /** If nothing is held together, it owns at most one. */
  lemma OneAtATime(plan: seq<Proc>, n: nat)
    requires WellFormed(plan) && AllDisjoint(plan) && BelowCeiling(plan)
    ensures Shape(Initial(plan))
    ensures OnlyRunnerHolds(After(Ceiling, Initial(plan), n)) && OneOwned(After(Ceiling, Initial(plan), n))
  {
    hide Inv, Shape, AllFollow, After, Initial, AskersFree, OnlyRunnerHolds, OneOwned, AllDisjoint, AllTogether, BelowCeiling;
    var s := Initial(plan);
    DisjointIsTogether(plan);
    NeverBlocked(plan, n);
    InheritanceStart(plan);
    InvAlways(Ceiling, plan, s, n);
    AlwaysFollow(Disjoint, Ceiling, plan, s, n);
    var t := After(Ceiling, s, n);
    InvShape(plan, t);
    InvAskers(plan, t);
    OneOwnedMeans(plan, t);
  }
}
