/**
 How far aging lets a priority climb.  Nothing stops it at MAX_PRIO: here is when one decision exceeds
 it, how high a whole run can get, and scripts that get that high.
 */
module AgingCap {
  import opened Seqs
  import opened SchedModel
  import opened SchedInvariants
  import opened SchedRuns
  import opened Fairness
  import opened ShortestJobFirst

  // ----- One decision -----

  ghost predicate WithinCap(s: State, cap: nat) {
    forall i :: 0 <= i < |s.procs| ==> s.procs[i].prio <= cap && s.procs[i].prioOrig <= cap
  }

  /** Some candidate at the cap is passed over. */
  ghost predicate PassesOverTop(s: State, cap: nat)
    requires Shape(s)
  {
    TopPassed(s.procs, Candidates(ForkFrom(s, 0)), Chosen(Aging, s).cur, cap)
  }

  ghost predicate TopPassed(procs: seq<Proc>, q: seq<nat>, chosen: Option<nat>, cap: nat) {
    exists i :: i in q && i < |procs| && chosen != Some(i) && procs[i].prio == cap
  }

  lemma PassedOver(s: State, t: State, q: seq<nat>, k: nat, cap: nat)
    requires AgingTick(s, t, q, k) && WithinCap(s, cap)
    ensures WithinCap(t, cap) <==> !TopPassed(s.procs, q, Some(q[k]), cap)
  {
    hide NoDup, RemoveAt;
    if i :| i in q && i < |s.procs| && Some(q[k]) != Some(i) && s.procs[i].prio == cap {
      assert t.procs[i].prio == cap + 1;
    }
  }

  /** A tick exceeds the cap exactly when its decision passes over a candidate that is already there. */
  lemma CapKeptIff(plan: seq<Proc>, s: State, cap: nat)
    requires Inv(plan, s) && WithinCap(s, cap)
    ensures Shape(s) && (WithinCap(Tick(Aging, s), cap) <==> !PassesOverTop(s, cap))
  {
    hide Inv, Shape, Tick, Chosen, ForkFrom, Candidates, AgingTick, WithinCap, SomeCandidate, TopPassed;
    InvShape(plan, s);
    if SomeCandidate(s) {
      var q, k := AgingWhole(plan, s);
      PassedOver(s, Tick(Aging, s), q, k, cap);
    } else {
      NoCandidate(s, cap);
      AgingIdle(plan, s);
      SameCap(s, Tick(Aging, s), cap);
    }
  }

  lemma NoCandidate(s: State, cap: nat)
    requires Shape(s) && !SomeCandidate(s)
    ensures !PassesOverTop(s, cap)
  {
    hide ForkFrom, Chosen, Shape;
  }

  lemma SameCap(s: State, t: State, cap: nat)
    requires SamePrios(s.procs, t.procs) && WithinCap(s, cap)
    ensures WithinCap(t, cap)
  {
  }

  // ----- Whole runs -----

  /** Whoever has climbed above every original priority has climbed past rivals only. */
  ghost predicate Climbed(s: State, top: nat) {
    forall p :: 0 <= p < |s.procs| && s.procs[p].prio > top ==> s.procs[p].prio + |Rivals(s, p)| <= top + |s.procs| - 1
  }

  lemma ClimbStep(s: State, t: State, q: seq<nat>, k: nat, top: nat)
    requires AgingInv(s) && AgingInv(t) && AgingTick(s, t, q, k) && NoDup(t.ready) && TopPriority(s.procs, top) && Climbed(s, top)
    ensures Climbed(t, top)
  {
    forall p | 0 <= p < |t.procs| && t.procs[p].prio > top ensures t.procs[p].prio + |Rivals(t, p)| <= top + |t.procs| - 1 {
      ClimberStep(s, t, q, k, top, p);
    }
  }

  lemma ClimberStep(s: State, t: State, q: seq<nat>, k: nat, top: nat, p: nat)
    requires AgingInv(s) && AgingInv(t) && AgingTick(s, t, q, k) && NoDup(t.ready) && TopPriority(s.procs, top) && Climbed(s, top)
    requires p < |t.procs| && t.procs[p].prio > top
    ensures t.procs[p].prio + |Rivals(t, p)| <= top + |t.procs| - 1
  {
    hide Rivals, RemoveAt, NoDup;
    if p in s.ready {
      RivalsFew(s, p);
      RivalsShrink(s, t, q, k, p, top);
      SubsetSize(Rivals(t, p), Rivals(s, p) - {q[k]});
    } else {
      assert s.procs[p].prio <= top;
      assert p in q && t.procs[p].prio == top + 1;
      ChosenNoRival(s, t, q, k, top, p);
    }
  }

  /** The process just chosen is back at its original priority, so it rivals nobody above that. */
  lemma ChosenNoRival(s: State, t: State, q: seq<nat>, k: nat, top: nat, p: nat)
    requires AgingTick(s, t, q, k) && TopPriority(s.procs, top) && p < |t.procs| && t.procs[p].prio > top
    ensures |Rivals(t, p)| + 2 <= |t.procs|
  {
    hide Before, NoDup, RemoveAt;
    var c := q[k];
    assert c !in Rivals(t, p) && p !in Rivals(t, p) && c != p;
    BoundedSetSize(Rivals(t, p) + {p} + {c}, |t.procs|);
  }

  lemma ClimbTick(plan: seq<Proc>, s: State, top: nat)
    requires Inv(plan, s) && AgingInv(s) && TopPriority(s.procs, top) && Climbed(s, top)
    ensures Shape(s) && var t := Tick(Aging, s); TopPriority(t.procs, top) && Climbed(t, top) && |t.procs| == |s.procs|
  {
    InvShape(plan, s);
    TickKeepsInv(Aging, plan, s);
    AgingInvTick(plan, s);
    var t := Tick(Aging, s);
    hide Inv, Shape, Tick, Chosen, ForkFrom, Candidates, AgingInv, Climbed, SomeCandidate;
    ReadyNoDup(plan, t);
    if SomeCandidate(s) {
      var q, k := AgingWhole(plan, s);
      ClimbStep(s, t, q, k, top);
    } else {
      AgingIdle(plan, s);
      IdleClimb(s, t, top);
    }
  }

  lemma IdleClimb(s: State, t: State, top: nat)
    requires AgingInv(s) && SamePrios(s.procs, t.procs) && s.ready == [] && TopPriority(s.procs, top)
    ensures TopPriority(t.procs, top) && Climbed(t, top)
  {
  }

  lemma {:induction false} ClimbAlways(plan: seq<Proc>, s: State, top: nat, n: nat)
    requires Inv(plan, s) && AgingInv(s) && TopPriority(s.procs, top) && Climbed(s, top)
    ensures Shape(s)
    ensures var t := After(Aging, s, n); TopPriority(t.procs, top) && Climbed(t, top) && |t.procs| == |s.procs|
    decreases n
  {
    hide Inv, Shape, Tick, AgingInv, Climbed, TopPriority;
    InvShape(plan, s);
    if n > 0 {
      ClimbTick(plan, s, top);
      TickKeepsInv(Aging, plan, s);
      AgingInvTick(plan, s);
      ClimbAlways(plan, Tick(Aging, s), top, n - 1);
    }
  }

  /**
   With N processes and no original priority above `top`, no priority ever exceeds top + N - 1.  So the
   documented cap is kept by every script with top + N - 1 at most MAX_PRIO.
   */
  lemma PriorityBound(plan: seq<Proc>, top: nat, n: nat, i: nat)
    requires WellFormed(plan) && TopPriority(plan, top) && i < |plan|
    ensures Shape(Initial(plan)) && |After(Aging, Initial(plan), n).procs| == |plan|
    ensures After(Aging, Initial(plan), n).procs[i].prio <= top + |plan| - 1
  {
    var s := Initial(plan);
    InitialInv(plan);
    AgingStart(plan);
    InvShape(plan, s);
    StartClimb(plan, top);
    ClimbAlways(plan, s, top, n);
    hide Inv, Shape, AgingInv, After;
  }

  lemma StartClimb(plan: seq<Proc>, top: nat)
    requires WellFormed(plan) && TopPriority(plan, top)
    ensures TopPriority(Initial(plan).procs, top) && Climbed(Initial(plan), top) && |Initial(plan).procs| == |plan|
  {
    AgingStart(plan);
    hide WellFormed;
  }

  // ----- Scripts that reach the bound -----

  /** Processes of one priority that all start at once and run for one tick. */
  function Peers(count: nat, top: nat): (plan: seq<Proc>)
    ensures |plan| == count && WellFormed(plan) && TopPriority(plan, top)
  {
    seq(count, i requires 0 <= i < count => Proc(i, Ready, 0, 1, top, top, 0, [], []))
  }

  /** The first m have been picked in turn; the others stand in line, each of them m above where it started. */
  ghost predicate InLine(procs: seq<Proc>, q: seq<nat>, top: nat, m: nat) {
    && m <= |procs| <= |q| + m
    && (forall x :: 0 <= x < |procs| - m ==> q[x] == x + m)
    && (forall i :: 0 <= i < |procs| ==>
      procs[i].prioOrig == top && if i < m then procs[i].prio < top + m else procs[i].prio == top + m)
  }

  lemma LineStep(s: State, t: State, q: seq<nat>, k: nat, top: nat, m: nat)
    requires AgingTick(s, t, q, k) && InLine(s.procs, q, top, m) && m < |s.procs|
    ensures InLine(t.procs, t.ready, top, m + 1)
  {
    assert q[0] == m;
    assert k == 0;
    var rest := RemoveAt(q, 0);
    assert rest == q[1..];
    forall x | 0 <= x < |t.procs| - (m + 1) ensures t.ready[x] == x + m + 1 {
      assert rest[x] == q[x + 1];
    }
    forall i | m < i < |t.procs| ensures i in q {
      assert q[i - m] == i;
    }
    hide NoDup, RemoveAt;
  }

  lemma LineTick(plan: seq<Proc>, s: State, top: nat, m: nat)
    requires Inv(plan, s) && InLine(s.procs, s.ready, top, m) && m < |s.procs|
    ensures Shape(s) && InLine(Tick(Aging, s).procs, Tick(Aging, s).ready, top, m + 1) && |Tick(Aging, s).procs| == |s.procs|
  {
    hide Inv, Shape, Tick, Chosen, ForkFrom, Candidates, SomeCandidate;
    InvShape(plan, s);
    assert s.ready[0] == m;
    ReadyIsCandidate(plan, s);
    var q, k := AgingWhole(plan, s);
    assert forall x :: 0 <= x < |s.procs| - m ==> q[x] == s.ready[x];
    LineStep(s, Tick(Aging, s), q, k, top, m);
  }

  lemma {:induction false} LineRun(plan: seq<Proc>, s: State, top: nat, m: nat, r: nat)
    requires Inv(plan, s) && InLine(s.procs, s.ready, top, m) && m + r <= |s.procs|
    ensures Shape(s)
    ensures var t := After(Aging, s, r); InLine(t.procs, t.ready, top, m + r) && |t.procs| == |s.procs|
    decreases r
  {
    hide Inv, Shape, Tick, InLine;
    InvShape(plan, s);
    if r > 0 {
      LineTick(plan, s, top, m);
      TickKeepsInv(Aging, plan, s);
      LineRun(plan, Tick(Aging, s), top, m + 1, r - 1);
    }
  }

  lemma FirstInLine(count: nat, top: nat)
    requires count >= 1
    ensures var s := Initial(Peers(count, top)); Shape(s) && InLine(Tick(Aging, s).procs, Tick(Aging, s).ready, top, 1)
    ensures |Tick(Aging, Initial(Peers(count, top))).procs| == count
  {
    var plan := Peers(count, top);
    var s := Initial(plan);
    hide Inv, Shape, Tick, Chosen, ForkFrom, Initial, Candidates, InLine, AgingTick, SomeCandidate, WellFormed, TopPriority, Peers;
    InitialInv(plan);
    PeersInLine(count, top);
    PeersDue(count, top);
    var q, k := AgingWhole(plan, s);
    SizeOfTick(s, Tick(Aging, s), q, k);
    LineStep(s, Tick(Aging, s), q, k, top, 0);
  }

  lemma PeersInLine(count: nat, top: nat)
    requires count >= 1
    ensures var s := Initial(Peers(count, top)); InLine(s.procs, s.fork, top, 0) && |s.procs| == count
  {
  }

  lemma SizeOfTick(s: State, t: State, q: seq<nat>, k: nat)
    requires AgingTick(s, t, q, k)
    ensures |t.procs| == |s.procs|
  {
  }

  lemma PeersDue(count: nat, top: nat)
    requires count >= 1
    ensures var s := Initial(Peers(count, top)); Shape(s) && Candidates(ForkFrom(s, 0)) == s.fork && SomeCandidate(s)
  {
    var plan := Peers(count, top);
    var s := Initial(plan);
    PeersStart(count, top);
    hide Inv, Shape, ForkFrom, Initial, Peers, WellFormed, TopPriority, Candidates;
    InitialInv(plan);
    InvShape(plan, s);
    EverybodyDue(s);
    NobodyYet(s);
    assert [] + s.fork == s.fork;
  }

  lemma PeersStart(count: nat, top: nat)
    ensures var s := Initial(Peers(count, top));
      && s.ready == [] && s.cur == None && |s.fork| == count && forall i :: 0 <= i < |s.procs| ==> s.procs[i].start <= s.ticks
  {
  }

  lemma NobodyYet(s: State)
    requires Shape(s) && s.cur.None?
    ensures ForkFrom(s, 0).cur.None? && Candidates(ForkFrom(s, 0)) == ForkFrom(s, 0).ready
  {
    hide Shape;
  }

  /** The bound is reached for every number of processes and every priority: by the last of equals. */
  lemma BoundReached(count: nat, top: nat)
    requires count >= 1
    ensures Shape(Initial(Peers(count, top)))
    ensures var t := After(Aging, Initial(Peers(count, top)), count - 1);
      |t.procs| == count && t.procs[count - 1].prio == top + count - 1
  {
    var plan := Peers(count, top);
    hide Shape, Tick, Initial, Peers, After;
    if count > 1 {
      ManyReach(count, top);
    } else {
      OneReaches(top);
    }
  }

  lemma ManyReach(count: nat, top: nat)
    requires count > 1
    ensures Shape(Initial(Peers(count, top)))
    ensures var t := After(Aging, Initial(Peers(count, top)), count - 1);
      |t.procs| == count && t.procs[count - 1].prio == top + count - 1
  {
    var plan := Peers(count, top);
    var s := Initial(plan);
    hide Inv, Shape, Tick, Initial, Peers, WellFormed, TopPriority;
    FirstInLine(count, top);
    InitialInv(plan);
    TickKeepsInv(Aging, plan, s);
    LineRun(plan, Tick(Aging, s), top, 1, count - 2);
    hide InLine;
    LastInLine(After(Aging, Tick(Aging, s), count - 2), count, top);
  }

  lemma LastInLine(t: State, count: nat, top: nat)
    requires count >= 1 && |t.procs| == count && InLine(t.procs, t.ready, top, count - 1)
    ensures t.procs[count - 1].prio == top + count - 1
  {
  }

  lemma OneReaches(top: nat)
    ensures Shape(Initial(Peers(1, top)))
    ensures var t := After(Aging, Initial(Peers(1, top)), 0); |t.procs| == 1 && t.procs[0].prio == top
  {
    InitialInv(Peers(1, top));
    InvShape(Peers(1, top), Initial(Peers(1, top)));
    hide Shape;
  }

  /** Two processes of the highest documented priority suffice: after one tick the second is above the cap. */
  lemma CapExceeded()
    ensures Shape(Initial(Peers(2, MAX_PRIO)))
    ensures var t := After(Aging, Initial(Peers(2, MAX_PRIO)), 1); |t.procs| == 2 && t.procs[1].prio == 65
  {
    hide After, Shape, Initial, Peers;
    BoundReached(2, MAX_PRIO);
  }

  ghost predicate KeepsCap(plan: seq<Proc>, cap: nat)
    requires Shape(Initial(plan))
  {
    forall n: nat, i: nat :: i < |After(Aging, Initial(plan), n).procs| ==> After(Aging, Initial(plan), n).procs[i].prio <= cap
  }

  /** Every script of `count` processes with priorities up to `top` keeps a cap exactly if top + count - 1 does. */
  lemma CapKeptByAllIff(count: nat, top: nat, cap: nat)
    requires count >= 1
    ensures (forall plan :: |plan| == count && WellFormed(plan) && TopPriority(plan, top) ==>
        Shape(Initial(plan)) && KeepsCap(plan, cap))
      <==> top + count - 1 <= cap
  {
    hide Shape, Initial, After, WellFormed, TopPriority, Peers;
    if top + count - 1 <= cap {
      forall plan | |plan| == count && WellFormed(plan) && TopPriority(plan, top) ensures Shape(Initial(plan)) && KeepsCap(plan, cap) {
        InitialInv(plan);
        InvShape(plan, Initial(plan));
        forall n: nat, i: nat | i < |After(Aging, Initial(plan), n).procs|
          ensures After(Aging, Initial(plan), n).procs[i].prio <= cap
        {
          SizeStays(plan, n);
          PriorityBound(plan, top, n, i);
        }
      }
    } else {
      BoundReached(count, top);
      assert !KeepsCap(Peers(count, top), cap);
    }
  }

  lemma SizeStays(plan: seq<Proc>, n: nat)
    requires WellFormed(plan)
    ensures Shape(Initial(plan)) && |After(Aging, Initial(plan), n).procs| == |plan|
  {
    InitialInv(plan);
    InvShape(plan, Initial(plan));
    InvAlways(Aging, plan, Initial(plan), n);
    hide Shape, After, Initial, Queues, Placed, Owners, NoLostWakeup, ForkDue, LocalInv;
  }
}
