/**
 A run that stops with unfinished processes has stopped in a wait cycle, and scripts that
 request resources in increasing order never do.
 */
module Deadlock {
  import opened Seqs
  import opened SchedModel
  import opened SchedInvariants
  import opened SchedRuns
  import opened Disciplines

  /** Process i is blocked on a resource that process j owns. */
  ghost predicate WaitsOn(s: State, i: nat, j: nat) {
    && i < |s.procs| && s.procs[i].status == Blocked
    && match Wants(s.procs[i])
       case Some(r) => r < |s.owner| && s.owner[r] == Some(j)
       case None => false
  }

  ghost predicate WaitCycle(s: State, c: seq<nat>) {
    && |c| > 0
    && (forall k :: 0 <= k < |c| - 1 ==> WaitsOn(s, c[k], c[k + 1]))
    && WaitsOn(s, c[|c| - 1], c[0])
  }

  ghost predicate Unfinished(s: State, i: nat) {
    i < |s.procs| && s.procs[i].status != Exited
  }

  /** An owner still has lifetime left, so it has not exited. */
  lemma OwnerUnfinished(plan: seq<Proc>, s: State, r: nat)
    requires Settled(plan, s) && r < NR_RESOURCES && s.owner[r].Some?
    ensures Unfinished(s, s.owner[r].value)
  {
    var o := s.owner[r].value;
    var p := s.procs[o];
    assert Holds(p, r);
    var k :| 0 <= k < |p.holding| && p.holding[k].rid == r;
    assert LocalInv(plan[o], p, |p.holding|);
    assert WellFormedProc(plan[o]);
    hide Queues, Owners, Accounted, PendingOnTime, Wants;
    assert Aged(p.holding, |p.holding|)[k] == p.holding[k];
    assert InPlace(s, o);
  }

  lemma OneStep(plan: seq<Proc>, t: State, i: nat) returns (o: nat)
    requires Launched(plan, t) && Halted(t) && Unfinished(t, i)
    ensures WaitsOn(t, i, o) && Unfinished(t, o)
  {
    FinalState(plan, t);
    hide WakeupUnderWay, Wants, Locals, Queues, Placed, Owners;
    o := t.owner[Wants(t.procs[i]).value].value;
    OwnerUnfinished(plan, t, Wants(t.procs[i]).value);
  }

  /** The chain of owners from process i, n steps long. */
  lemma {:induction false} OwnerChain(plan: seq<Proc>, t: State, i: nat, n: nat) returns (c: seq<nat>)
    requires Launched(plan, t) && Halted(t) && Unfinished(t, i)
    ensures |c| == n + 1 && c[0] == i && (forall k :: 0 <= k <= n ==> c[k] < |t.procs|)
    ensures forall k :: 0 <= k < n ==> WaitsOn(t, c[k], c[k + 1])
    decreases n
  {
    hide Launched, WaitsOn;
    if n == 0 {
      c := [i];
    } else {
      var o := OneStep(plan, t, i);
      var d := OwnerChain(plan, t, o, n - 1);
      c := [i] + d;
      forall k | 0 <= k < n ensures WaitsOn(t, c[k], c[k + 1]) {
        if k > 0 {
          assert WaitsOn(t, d[k - 1], d[k]);
        }
      }
    }
  }

  /** Stuck means deadlocked: an unfinished process in a final state comes with a cycle of waiting processes. */
  lemma StuckMeansCycle(plan: seq<Proc>, t: State, i: nat) returns (cycle: seq<nat>)
    requires Launched(plan, t) && Halted(t) && Unfinished(t, i)
    ensures WaitCycle(t, cycle)
  {
    hide Launched, WaitsOn;
    var n := |t.procs|;
    var c := OwnerChain(plan, t, i, n);
    Pigeonhole(c, n);
    var a, b :| 0 <= a < b < |c| && c[a] == c[b];
    cycle := c[a..b];
    forall k | 0 <= k < |cycle| - 1 ensures WaitsOn(t, cycle[k], cycle[k + 1]) {
      assert WaitsOn(t, c[a + k], c[a + k + 1]);
    }
    assert WaitsOn(t, c[b - 1], c[b]);
  }

  /** A final state: either everybody has exited or there is a wait cycle. */
  lemma AllExitOrCycle(plan: seq<Proc>, t: State)
    requires Launched(plan, t) && Halted(t)
    ensures (forall i :: 0 <= i < |t.procs| ==> t.procs[i].status == Exited) <==> !exists c :: WaitCycle(t, c)
  {
    hide Launched;
    if i :| 0 <= i < |t.procs| && t.procs[i].status != Exited {
      var c := StuckMeansCycle(plan, t, i);
    }
    if c :| WaitCycle(t, c) {
      assert WaitsOn(t, c[|c| - 1], c[0]);
    }
  }

  /** Every run ends, and it ends with everybody finished exactly when it leaves no wait cycle. */
  lemma RunEndsOrDeadlocks(pol: Policy, plan: seq<Proc>)
    requires WellFormed(plan)
    ensures Inv(plan, Initial(plan))
    ensures var t := Run(pol, plan, Initial(plan));
      (forall i :: 0 <= i < |t.procs| ==> t.procs[i].status == Exited) <==> !exists c :: WaitCycle(t, c)
  {
    InitialInv(plan);
    hide Inv, Launched, Run, Initial, WaitCycle;
    AllExitOrCycle(plan, Run(pol, plan, Initial(plan)));
  }

  function WantedId(p: Proc): nat {
    match Wants(p)
    case Some(r) => r
    case None => 0
  }

  /** In increasing-order scripts, an owner that waits asks for a higher resource than the one it owns. */
  lemma WaitStepRises(plan: seq<Proc>, s: State, i: nat, j: nat, k: nat)
    requires Settled(plan, s) && AllFollow(Ordered, s.procs) && WaitsOn(s, i, j) && WaitsOn(s, j, k)
    ensures WantedId(s.procs[i]) < WantedId(s.procs[j])
  {
    hide Queues, Placed, Locals;
    var r := WantedId(s.procs[i]);
    var p := s.procs[j];
    assert Holds(p, r);
    var x :| 0 <= x < |p.holding| && p.holding[x].rid == r;
    var d := FirstDueFrom(p.pending, p.age, 0);
    assert Follows(Ordered, p);
    HoldingAlive(plan, s, j, x);
    assert HeldOk(Ordered, p.age, p.holding[x], p.pending[d]);
  }

  lemma HoldingAlive(plan: seq<Proc>, s: State, i: nat, x: nat)
    requires Settled(plan, s) && i < |s.procs| && x < |s.procs[i].holding|
    ensures s.procs[i].holding[x].dur >= 1
  {
    hide Queues, Placed, Owners, Accounted, PendingOnTime;
    assert LocalInv(plan[i], s.procs[i], |s.procs[i].holding|);
  }

  lemma {:induction false} CycleRises(plan: seq<Proc>, s: State, c: seq<nat>, k: nat)
    requires Settled(plan, s) && AllFollow(Ordered, s.procs) && WaitCycle(s, c) && k < |c|
    ensures c[k] < |s.procs| && c[0] < |s.procs| && WantedId(s.procs[c[0]]) + k <= WantedId(s.procs[c[k]])
  {
    hide Settled, AllFollow, WantedId;
    var last := |c| - 1;
    assert WaitsOn(s, c[last], c[0]);
    assert k < last ==> WaitsOn(s, c[k], c[k + 1]);
    assert 0 < last ==> WaitsOn(s, c[0], c[1]);
    if k > 0 {
      CycleRises(plan, s, c, k - 1);
      assert WaitsOn(s, c[k - 1], c[k]);
      WaitStepRises(plan, s, c[k - 1], c[k], if k < last then c[k + 1] else c[0]);
    }
  }

  lemma OrderedHasNoCycle(plan: seq<Proc>, s: State, c: seq<nat>)
    requires Settled(plan, s) && AllFollow(Ordered, s.procs)
    ensures !WaitCycle(s, c)
  {
    if WaitCycle(s, c) {
      var last := |c| - 1;
      CycleRises(plan, s, c, last);
      hide Settled, AllFollow, WantedId;
      assert WaitsOn(s, c[last], c[0]);
      assert 0 < last ==> WaitsOn(s, c[0], c[1]);
      WaitStepRises(plan, s, c[last], c[0], if 0 < last then c[1] else c[0]);
    }
  }

  /** Scripts that request resources in increasing order finish every process, under every policy. */
  lemma OrderedScriptsFinish(pol: Policy, plan: seq<Proc>)
    requires WellFormed(plan) && AllOrdered(plan)
    ensures Inv(plan, Initial(plan))
    ensures var t := Run(pol, plan, Initial(plan));
      |t.procs| == |plan| && forall i :: 0 <= i < |t.procs| ==> t.procs[i].status == Exited
  {
    InitialInv(plan);
    assert AllFollow(Ordered, Initial(plan).procs);
    RunFollows(Ordered, pol, plan, Initial(plan));
    RunEndsOrDeadlocks(pol, plan);
    var t := Run(pol, plan, Initial(plan));
    SettledSize(plan, t);
    hide Inv, Settled, AllFollow, Run, Initial, WakeupUnderWay, WaitCycle;
    forall c ensures !WaitCycle(t, c) {
      OrderedHasNoCycle(plan, t, c);
    }
  }

  lemma SettledSize(plan: seq<Proc>, s: State)
    requires Settled(plan, s)
    ensures |s.procs| == |plan|
  {
  }
}
