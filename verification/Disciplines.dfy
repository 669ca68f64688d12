/**
 Three disciplines a script may follow: requesting resources in increasing order of number, never
 holding two at once, and giving back together whatever is held together.  They are stated on what a
 process still has to do, and every tick keeps them.
 */
module Disciplines {
  import opened Seqs
  import opened SchedModel
  import opened SchedInvariants
  import opened SchedRuns

  datatype Discipline = Ordered | Disjoint | Together

  /** What a discipline asks of two pending requests, the first listed earlier. */
  ghost predicate PairOk(d: Discipline, a: Request, b: Request) {
    match d
    case Ordered =>
      && (a.at <= b.at < a.at + a.dur ==> a.rid < b.rid)
      && (b.at < a.at < b.at + b.dur ==> b.rid < a.rid)
    case Disjoint =>
      a.at + a.dur <= b.at || b.at + b.dur <= a.at
    case Together =>
      a.at + a.dur <= b.at || b.at + b.dur <= a.at || (a.at + a.dur == b.at + b.dur && a.rid != b.rid)
  }

  /** What it asks of a held and a pending request. */
  ghost predicate HeldOk(d: Discipline, age: nat, h: Request, q: Request) {
    match d
    case Ordered => q.at < age + h.dur ==> h.rid < q.rid
    case Disjoint => age + h.dur <= q.at
    case Together => age + h.dur <= q.at || (age + h.dur == q.at + q.dur && h.rid != q.rid)
  }

  ghost predicate PairsOk(d: Discipline, pending: seq<Request>) {
    forall j, k :: 0 <= j < k < |pending| ==> PairOk(d, pending[j], pending[k])
  }

  ghost predicate Follows(d: Discipline, p: Proc) {
    && PairsOk(d, p.pending)
    && (forall h, q :: h in p.holding && q in p.pending ==> HeldOk(d, p.age, h, q))
    && (d == Disjoint ==> |p.holding| <= 1)
    && (d == Together ==> forall h, g :: h in p.holding && g in p.holding ==> h.dur == g.dur)
  }

  ghost predicate AllFollow(d: Discipline, procs: seq<Proc>) {
    forall i :: 0 <= i < |procs| ==> Follows(d, procs[i])
  }

  /** The holding list after one tick: every request one tick shorter, finished ones gone. */
  function TickHoldings(h: seq<Request>): (r: seq<Request>)
    ensures forall x :: x in r ==> x.(dur := x.dur + 1) in h
    ensures |r| <= |h|
  {
    if h == [] then []
    else
      var rest := TickHoldings(h[1..]);
      if h[0].dur <= 1 then rest else [h[0].(dur := h[0].dur - 1)] + rest
  }

  lemma ReleaseKeepsProc(pol: Policy, s: State, r: nat)
    requires Shape(s) && s.cur.Some? && r < NR_RESOURCES
    ensures var t := Release(pol, s, r);
      forall i :: 0 <= i < |s.procs| ==> t.procs[i] == s.procs[i].(status := t.procs[i].status, prio := t.procs[i].prio)
  {
    hide FirstMax, RemoveAt;
  }

  /** The holding list when the walk has still to pass the entries from k on. */
  function Walked(h: seq<Request>, k: nat): seq<Request>
    requires k <= |h|
  {
    h[..k] + TickHoldings(h[k..])
  }

  lemma WalkedEnds(h: seq<Request>)
    ensures Walked(h, |h|) == h && Walked(h, 0) == TickHoldings(h)
  {
    assert h[0..] == h && h[|h|..] == [] && h[..|h|] == h && h[..0] == [];
    assert [] + TickHoldings(h) == TickHoldings(h);
  }

  lemma TickHead(h: seq<Request>)
    requires h != [] && h[0].dur >= 1
    ensures TickHoldings(h) ==
      if h[0].dur == 1 then TickHoldings(h[1..]) else [h[0].(dur := h[0].dur - 1)] + TickHoldings(h[1..])
  {
  }

  /** One entry passed that is now shorter by a tick. */
  lemma WalkedDown(h: seq<Request>, k: nat)
    requires k < |h| && h[k].dur > 1
    ensures Walked(h, k) == Walked(h[k := h[k].(dur := h[k].dur - 1)], k + 1)
  {
    hide TickHoldings;
    var x := h[k].(dur := h[k].dur - 1);
    var down := h[k := x];
    assert h[k..][1..] == h[k + 1..] && h[k..][0] == h[k];
    TickHead(h[k..]);
    Associates(h[..k], [x], TickHoldings(h[k + 1..]));
    assert down[..k + 1] == h[..k] + [x];
    assert down[k + 1..] == h[k + 1..];
  }

  /** One entry passed that is gone. */
  lemma WalkedGone(h: seq<Request>, k: nat, gone: seq<Request>)
    requires k < |h| && h[k].dur == 1 && gone == RemoveAt(h[k := h[k].(dur := 0)], k)
    ensures Walked(h, k) == Walked(gone, k)
  {
    hide TickHoldings;
    assert h[k..][1..] == h[k + 1..] && h[k..][0] == h[k];
    TickHead(h[k..]);
    assert gone[..k] == h[..k];
    assert gone[k..] == h[k + 1..];
  }

  ghost predicate HoldingBecomes(s: State, t: State, h: seq<Request>)
    requires s.cur.Some? && s.cur.value < |s.procs| && |t.procs| == |s.procs|
  {
    t.procs[s.cur.value] == s.procs[s.cur.value].(
      status := t.procs[s.cur.value].status, prio := t.procs[s.cur.value].prio, holding := h)
  }

  lemma GiveBackProc(pol: Policy, s: State, k: nat)
    requires Shape(s) && s.cur.Some? && k < |s.procs[s.cur.value].holding|
    ensures var h := s.procs[s.cur.value].holding;
      var h' := h[k := h[k].(dur := Decrement(h[k].dur))];
      HoldingBecomes(s, SetHolding(Release(pol, SetHolding(s, h'), h[k].rid), RemoveAt(h', k)), RemoveAt(h', k))
  {
    var h := s.procs[s.cur.value].holding;
    var h' := h[k := h[k].(dur := Decrement(h[k].dur))];
    ReleaseKeepsProc(pol, SetHolding(s, h'), h[k].rid);
    hide Release, RemoveAt;
  }

  /** The release walk computes `TickHoldings`. */
  lemma {:induction false} ReleaseFromHoldings(pol: Policy, s: State, k: nat)
    requires Shape(s) && s.cur.Some? && k <= |s.procs[s.cur.value].holding|
    requires forall j :: k <= j < |s.procs[s.cur.value].holding| ==> s.procs[s.cur.value].holding[j].dur >= 1
    ensures HoldingBecomes(s, ReleaseFrom(pol, s, k), Walked(s.procs[s.cur.value].holding, k))
    decreases |s.procs[s.cur.value].holding| - k, 1
  {
    CurrentBelow(s);
    hide Walked, Shape, HoldingBecomes, ReleaseFrom;
    var h := s.procs[s.cur.value].holding;
    if k >= |h| {
      WalkedEnds(h);
      NothingWalked(pol, s, k);
    } else if h[k].dur > 1 {
      TickDownHoldings(pol, s, k);
    } else {
      GiveBackHoldings(pol, s, k);
    }
  }

  lemma CurrentBelow(s: State)
    requires Shape(s) && s.cur.Some?
    ensures s.cur.value < |s.procs|
  {
  }

  lemma NothingWalked(pol: Policy, s: State, k: nat)
    requires Shape(s) && s.cur.Some? && k == |s.procs[s.cur.value].holding|
    ensures ReleaseFrom(pol, s, k) == s && HoldingBecomes(s, s, s.procs[s.cur.value].holding)
  {
  }

  lemma {:induction false} TickDownHoldings(pol: Policy, s: State, k: nat)
    requires Shape(s) && s.cur.Some? && k < |s.procs[s.cur.value].holding|
    requires forall j :: k <= j < |s.procs[s.cur.value].holding| ==> s.procs[s.cur.value].holding[j].dur >= 1
    requires s.procs[s.cur.value].holding[k].dur > 1
    ensures HoldingBecomes(s, ReleaseFrom(pol, s, k), Walked(s.procs[s.cur.value].holding, k))
    decreases |s.procs[s.cur.value].holding| - k, 0
  {
    CurrentBelow(s);
    var h := s.procs[s.cur.value].holding;
    var h' := h[k := h[k].(dur := h[k].dur - 1)];
    SetHoldingShape(s, h');
    WalkedDown(h, k);
    hide Release, Walked, Shape;
    ReleaseFromHoldings(pol, SetHolding(s, h'), k + 1);
  }

  lemma {:induction false} GiveBackHoldings(pol: Policy, s: State, k: nat)
    requires Shape(s) && s.cur.Some? && k < |s.procs[s.cur.value].holding|
    requires forall j :: k <= j < |s.procs[s.cur.value].holding| ==> s.procs[s.cur.value].holding[j].dur >= 1
    requires s.procs[s.cur.value].holding[k].dur == 1
    ensures HoldingBecomes(s, ReleaseFrom(pol, s, k), Walked(s.procs[s.cur.value].holding, k))
    decreases |s.procs[s.cur.value].holding| - k, 0
  {
    CurrentBelow(s);
    GiveBackProc(pol, s, k);
    var h := s.procs[s.cur.value].holding;
    var h' := h[k := h[k].(dur := 0)];
    SetHoldingShape(s, h');
    RemovedRids(h', k);
    var g := RemoveAt(h', k);
    WalkedGone(h, k, g);
    hide Release, Walked, Shape;
    assert forall j :: k <= j < |g| ==> g[j] == h[j + 1];
    ReleaseFromHoldings(pol, SetHolding(Release(pol, SetHolding(s, h'), h[k].rid), g), k);
  }

  lemma SetHoldingShape(s: State, h: seq<Request>)
    requires Shape(s) && s.cur.Some? && |h| == |s.procs[s.cur.value].holding|
    requires forall k :: 0 <= k < |h| ==> h[k].rid == s.procs[s.cur.value].holding[k].rid
    ensures forall k :: 0 <= k < |h| ==> h[k].rid < NR_RESOURCES
    ensures s.cur.value < |s.procs|
  {
  }

  /** Under the disjoint discipline, whoever requests a resource holds none. */
  lemma DisjointHoldsNothing(p0: Proc, p: Proc, k: nat)
    requires Follows(Disjoint, p) && HeldOnTime(p0, p, |p.holding|)
    requires k < |p.pending| && p.pending[k].at == p.age
    ensures p.holding == []
  {
    if |p.holding| > 0 && HeldOk(Disjoint, p.age, p.holding[0], p.pending[k]) {
      assert false;
    }
  }

  /** Under the together discipline, whoever requests a resource holds others, all for as long as that one. */
  lemma TogetherEnds(p0: Proc, p: Proc, q: Request)
    requires Follows(Together, p) && HeldOnTime(p0, p, |p.holding|) && q in p.pending && q.at == p.age
    ensures forall h :: h in p.holding ==> h.dur == q.dur && h.rid != q.rid
  {
    HeldDurations(p0, p, |p.holding|);
    forall h | h in p.holding ensures h.dur == q.dur && h.rid != q.rid {
      assert HeldOk(Together, p.age, h, q);
    }
  }

  lemma PendingTimes(p0: Proc, p: Proc)
    requires PendingOnTime(p0, p) && WellFormedProc(p0)
    ensures forall x :: x in p.pending ==> x.at >= p.age && x.dur >= 1
  {
  }

  /** The pending requests after one has been taken. */
  lemma PairsTake(d: Discipline, p: Proc, k: nat)
    requires PairsOk(d, p.pending) && k < |p.pending|
    ensures PairsOk(d, MovePending(p, k).pending)
  {
    var t := MovePending(p, k);
    hide PairOk;
    forall i, j | 0 <= i < j < |t.pending| ensures PairOk(d, t.pending[i], t.pending[j]) {
      assert PairOk(d, p.pending[if i < k then i else i + 1], p.pending[if j < k then j else j + 1]);
    }
  }

  /** What the taken request has to do with one that is still pending. */
  lemma TakenPair(d: Discipline, p: Proc, k: nat, x: Request)
    requires PairsOk(d, p.pending) && k < |p.pending| && p.pending[k].at == p.age && x in MovePending(p, k).pending
    requires forall y :: y in p.pending ==> y.at >= p.age && y.dur >= 1
    requires forall j :: 0 <= j < k ==> p.pending[j].at != p.age
    ensures HeldOk(d, p.age, p.pending[k], x) && x in p.pending
  {
    var q := p.pending[k];
    var t := MovePending(p, k);
    var j :| 0 <= j < |t.pending| && t.pending[j] == x;
    var j' := if j < k then j else j + 1;
    assert p.pending[j'] == x && q in p.pending;
    assert if j' < k then PairOk(d, x, q) else PairOk(d, q, x);
  }

  lemma FollowsTake(d: Discipline, p0: Proc, p: Proc, k: nat)
    requires Follows(d, p) && LocalInv(p0, p, |p.holding|) && WellFormedProc(p0)
    requires k < |p.pending| && p.pending[k].at == p.age && forall j :: 0 <= j < k ==> p.pending[j].at != p.age
    ensures Follows(d, MovePending(p, k))
  {
    hide HeldOnTime, Accounted, WellFormedProc, PendingOnTime, PairsOk, HeldOk, RemoveAt;
    PendingTimes(p0, p);
    PairsTake(d, p, k);
    var q := p.pending[k];
    var t := MovePending(p, k);
    if d == Disjoint {
      DisjointHoldsNothing(p0, p, k);
    } else if d == Together {
      TogetherEnds(p0, p, q);
    }
    forall h, x | h in t.holding && x in t.pending ensures HeldOk(d, t.age, h, x) {
      TakenPair(d, p, k, x);
    }
  }

  lemma FollowsAge(d: Discipline, p: Proc, t: Proc)
    requires Follows(d, p)
    requires t == p.(age := p.age + 1, holding := TickHoldings(p.holding), status := t.status, prio := t.prio)
    ensures Follows(d, t)
  {
    forall h, q | h in t.holding && q in t.pending ensures HeldOk(d, t.age, h, q) {
      assert HeldOk(d, p.age, h.(dur := h.dur + 1), q);
    }
    if d == Together {
      forall h, g | h in t.holding && g in t.holding ensures h.dur == g.dur {
        assert h.(dur := h.dur + 1) in p.holding && g.(dur := g.dur + 1) in p.holding;
      }
    }
  }

  lemma AcquireProgress(pol: Policy, s: State, r: nat)
    requires Shape(s) && s.cur.Some? && r < NR_RESOURCES
    ensures SameProgress(s.procs, Acquire(pol, s, r).0.procs)
  {
  }

  lemma AcquiringLocal(plan: seq<Proc>, s: State, k: nat)
    requires Acquiring(plan, s, k)
    ensures var c := s.cur.value;
      c < |plan| && LocalInv(plan[c], s.procs[c], |s.procs[c].holding|) && WellFormedProc(plan[c])
  {
    hide LocalInv, Queues, Placed, Owners, WakeupUnderWay;
  }

  lemma GrantFollows(d: Discipline, pol: Policy, plan: seq<Proc>, s: State, k: nat)
    requires Acquiring(plan, s, k) && AllFollow(d, s.procs) && k < |s.procs[s.cur.value].pending|
    requires var p := s.procs[s.cur.value]; p.pending[k].at == p.age
    ensures AllFollow(d, Granted(pol, s, k).procs)
  {
    hide Locals, Queues, Placed, Owners, WellFormed, WakeupUnderWay, Follows, LocalInv, Acquire, WellFormedProc;
    AcquiringLocal(plan, s, k);
    var c := s.cur.value;
    var p := s.procs[c];
    AcquireProgress(pol, s, p.pending[k].rid);
    var t := Acquire(pol, s, p.pending[k].rid).0;
    SameProgressFollows(d, s.procs, t.procs);
    var p' := t.procs[c];
    assert p' == p.(prio := p'.prio, status := p'.status);
    LocalBlind(plan[c], p, p'.prio, p'.status, |p.holding|);
    FollowsTake(d, plan[c], p', k);
  }

  lemma {:induction false} AcquireFromFollows(d: Discipline, pol: Policy, plan: seq<Proc>, s: State, k: nat)
    requires Acquiring(plan, s, k) && AllFollow(d, s.procs)
    ensures AllFollow(d, AcquireFrom(pol, s, k).0.procs)
    decreases |s.procs[s.cur.value].pending| - k
  {
    hide Locals, Owners, Queues, Placed, WakeupUnderWay, Follows;
    var c := s.cur.value;
    if k < |s.procs[c].pending| {
      if s.procs[c].pending[k].at != s.procs[c].age {
        AcquireFromFollows(d, pol, plan, s, k + 1);
      } else {
        var r := s.procs[c].pending[k].rid;
        var (t, ok) := Acquire(pol, s, r);
        AcquireProgress(pol, s, r);
        SameProgressFollows(d, s.procs, t.procs);
        if ok {
          GrantKeeps(pol, plan, s, k);
          GrantFollows(d, pol, plan, s, k);
          hide Acquire;
          AcquireFromFollows(d, pol, plan, Granted(pol, s, k), k);
        }
      }
    }
  }

  lemma RunTickFollows(d: Discipline, pol: Policy, plan: seq<Proc>, t: State)
    requires Settled(plan, t) && t.cur.Some? && AllFollow(d, t.procs)
    ensures AllFollow(d, ReleaseFrom(pol, AgeCurrent(t), 0).procs)
  {
    HeldPositive(plan, t);
    hide Settled;
    var c := t.cur.value;
    var a := AgeCurrent(t);
    ReleaseFromHoldings(pol, a, 0);
    ReleaseFromFrame(pol, a, 0);
    var u := ReleaseFrom(pol, a, 0);
    hide ReleaseFrom, PairsOk, HeldOk, Shape;
    var h := a.procs[c].holding;
    WalkedEnds(h);
    FollowsAge(d, t.procs[c], u.procs[c]);
    forall i | 0 <= i < |u.procs| && i != c ensures Follows(d, u.procs[i]) {
      assert Follows(d, t.procs[i]);
    }
  }

  lemma ExecuteFollows(d: Discipline, pol: Policy, plan: seq<Proc>, s: State)
    requires Launched(plan, s) && s.cur.Some? && AllFollow(d, s.procs)
    ensures AllFollow(d, Execute(pol, s).procs)
  {
    AcquireFromKeeps(pol, plan, s, 0);
    AcquireFromFollows(d, pol, plan, s, 0);
    var (t, ok) := AcquireFrom(pol, s, 0);
    hide AllFollow, NoLostWakeup, WakeupUnderWay, AcquireFrom, ReleaseFrom;
    if ok {
      RunTickFollows(d, pol, plan, t);
    }
  }

  lemma HeldPositive(plan: seq<Proc>, s: State)
    requires Settled(plan, s) && s.cur.Some?
    ensures forall j :: 0 <= j < |s.procs[s.cur.value].holding| ==> s.procs[s.cur.value].holding[j].dur >= 1
  {
    hide Queues, Placed, Owners, Accounted, PendingOnTime;
    assert LocalInv(plan[s.cur.value], s.procs[s.cur.value], Held(s));
  }

  lemma SameProgressFollows(d: Discipline, ps: seq<Proc>, us: seq<Proc>)
    requires AllFollow(d, ps) && SameProgress(ps, us)
    ensures AllFollow(d, us)
  {
    hide PairOk, HeldOk;
    forall i | 0 <= i < |us| ensures Follows(d, us[i]) {
      assert Follows(d, ps[i]);
    }
  }

  /** Every tick keeps every process within its discipline. */
  lemma TickFollows(d: Discipline, pol: Policy, plan: seq<Proc>, s: State)
    requires Inv(plan, s) && AllFollow(d, s.procs)
    ensures AllFollow(d, Chosen(pol, s).procs) && AllFollow(d, Tick(pol, s).procs)
  {
    ChosenKeeps(pol, plan, s);
    ChosenFrame(pol, plan, s);
    TickUnfolds(pol, s);
    var u := Chosen(pol, s);
    SameProgressFollows(d, s.procs, u.procs);
    hide Inv, Launched, AllFollow, Chosen, Execute, Tick;
    if u.cur.Some? {
      ExecuteFollows(d, pol, plan, u);
    }
  }

  ghost predicate AllOrdered(plan: seq<Proc>) {
    forall i :: 0 <= i < |plan| ==> PairsOk(Ordered, plan[i].pending)
  }

  ghost predicate AllDisjoint(plan: seq<Proc>) {
    forall i :: 0 <= i < |plan| ==> PairsOk(Disjoint, plan[i].pending)
  }

  ghost predicate AllTogether(plan: seq<Proc>) {
    forall i :: 0 <= i < |plan| ==> PairsOk(Together, plan[i].pending)
  }

  lemma DisjointIsTogether(plan: seq<Proc>)
    requires AllDisjoint(plan)
    ensures AllTogether(plan)
  {
    forall i, j, k | 0 <= i < |plan| && 0 <= j < k < |plan[i].pending|
      ensures PairOk(Together, plan[i].pending[j], plan[i].pending[k])
    {
      assert PairOk(Disjoint, plan[i].pending[j], plan[i].pending[k]);
    }
  }

  lemma {:induction false} RunFollows(d: Discipline, pol: Policy, plan: seq<Proc>, s: State)
    requires Inv(plan, s) && AllFollow(d, s.procs)
    ensures AllFollow(d, Run(pol, plan, s).procs)
    decreases TotalLeft(s.procs), ForkTicksLeft(plan, s.ticks), RunnableCount(s)
  {
    InvShape(plan, s);
    TickFollows(d, pol, plan, s);
    hide Inv, AllFollow, Chosen, Tick, Shape;
    if !Halted(Chosen(pol, s)) {
      TickKeepsInv(pol, plan, s);
      TickDecreases(pol, plan, s);
      RunFollows(d, pol, plan, Tick(pol, s));
    }
  }

  /** A discipline holds at every tick boundary. */
  lemma {:induction false} AlwaysFollow(d: Discipline, pol: Policy, plan: seq<Proc>, s: State, n: nat)
    requires Inv(plan, s) && Shape(s) && AllFollow(d, s.procs)
    ensures AllFollow(d, After(pol, s, n).procs)
    decreases n
  {
    hide Inv, Shape, AllFollow, Tick;
    if n > 0 {
      TickFollows(d, pol, plan, s);
      TickKeepsInv(pol, plan, s);
      AlwaysFollow(d, pol, plan, Tick(pol, s), n - 1);
    }
  }
}
