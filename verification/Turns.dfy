/**
 Taking turns: when a preemptive policy lets the running process go on, how long the most important
 processes wait for each other, and where two of the policies differ from what is documented.
 */
module Turns {
  import opened Seqs
  import opened SchedModel
  import opened SchedInvariants
  import opened SchedRuns
  import opened Fairness
  import opened NestedHoldings

  // ----- Going on -----

  /** Process c beats every other candidate strictly. */
  ghost predicate BeatsAll(pol: Policy, procs: seq<Proc>, q: seq<nat>, c: nat)
    requires c < |procs| && Below(q, |procs|)
  {
    forall k :: 0 <= k < |q| && q[k] != c ==> Key(pol, procs[q[k]]) < Key(pol, procs[c])
  }

  lemma LastIsFirstMax(pol: Policy, procs: seq<Proc>, q: seq<nat>, c: nat)
    requires Below(q, |procs|) && NoDup(q) && q != [] && q[|q| - 1] == c && c < |procs|
    ensures q[FirstMax(Keys(pol, procs, q))] == c <==> BeatsAll(pol, procs, q, c)
  {
    var keys := Keys(pol, procs, q);
    var k := FirstMax(keys);
    var last := |q| - 1;
    hide FirstMax, Key;
    assert forall j :: 0 <= j < |q| ==> keys[j] == Key(pol, procs[q[j]]);
    if q[k] == c {
      assert k == last;
    }
  }

  /**
   A process that could go on does so exactly if it beats every other candidate strictly: on a tie the
   other one runs.  Under the priority policies that is how equals take turns at every tick.
   */
  lemma GoesOnIff(pol: Policy, plan: seq<Proc>, s: State)
    requires Inv(plan, s) && Preemptive(pol) && Shape(s) && Runnable(s)
    ensures var f := ForkFrom(s, 0);
      && Below(Candidates(f), |s.procs|) && s.cur.value < |s.procs|
      && (Chosen(pol, s).cur == s.cur <==> BeatsAll(pol, s.procs, Candidates(f), s.cur.value))
  {
    var f := ForkFrom(s, 0);
    CandidatesExtend(plan, s);
    CurrentIsLast(plan, s);
    PickedFirstBest(pol, s);
    hide Inv, Shape, ForkFrom, Candidates, Chosen, BeatsAll, FirstMax, Keys, NoDup;
    LastIsFirstMax(pol, s.procs, Candidates(f), s.cur.value);
  }

  lemma CurrentIsLast(plan: seq<Proc>, s: State)
    requires Inv(plan, s) && Shape(s) && Runnable(s)
    ensures var q := Candidates(ForkFrom(s, 0)); q != [] && q[|q| - 1] == s.cur.value
  {
    CandidatesExtend(plan, s);
    hide Inv, ForkFrom, Shape;
  }

  // ----- Equals under the priority scheduler -----

  /** What a tick of the priority scheduler does to queue and priorities: `q` is the queue chosen from, `k` the choice. */
  ghost predicate PrioTick(s: State, t: State, q: seq<nat>, k: nat) {
    && k < |q| && |t.procs| == |s.procs| && NoDup(q) && s.ready <= q && RemoveAt(q, k) <= t.ready
    && (forall j :: 0 <= j < |q| ==> q[j] < |s.procs|)
    && (forall j :: 0 <= j < |q| ==> s.procs[q[j]].prio <= s.procs[q[k]].prio)
    && (forall j :: 0 <= j < k ==> s.procs[q[j]].prio < s.procs[q[k]].prio)
    && (forall i :: 0 <= i < |s.procs| ==> t.procs[i].prio == s.procs[i].prio)
  }

  lemma PrioWhole(plan: seq<Proc>, s: State) returns (q: seq<nat>, k: nat)
    requires Inv(plan, s) && SomeCandidate(s)
    ensures Shape(s) && k < |q| && Chosen(Prio, s).cur == Some(q[k])
    ensures PrioTick(s, Tick(Prio, s), q, k)
  {
    hide Inv, Shape, Chosen, Tick, Execute, Launched, ForkFrom, Candidates, FirstMax, Keys, NoDup, RemoveAt;
    InvShape(plan, s);
    CandidatesExtend(plan, s);
    var f := ForkFrom(s, 0);
    q := Candidates(f);
    PickedFirstBest(Prio, s);
    HighestPriority(Prio, f.procs, q);
    k := FirstMax(Keys(Prio, f.procs, q));
    ChosenKeeps(Prio, plan, s);
    TickUnfolds(Prio, s);
    TickExtends(Prio, plan, s);
    ExecutePrios(Prio, Chosen(Prio, s));
  }

  /** How many processes of p's priority stand before p. */
  function PeersAhead(procs: seq<Proc>, q: seq<nat>, p: nat): (n: nat)
    requires p < |procs| && Below(q, |procs|)
    ensures n <= |q|
  {
    if q == [] || q[0] == p then 0
    else (if procs[q[0]].prio == procs[p].prio then 1 else 0) + PeersAhead(procs, q[1..], p)
  }

  /** Only priorities count, and only up to p. */
  lemma {:induction false} PeersAheadSame(ps: seq<Proc>, q: seq<nat>, qs: seq<Proc>, r: seq<nat>, p: nat)
    requires |qs| == |ps| && p < |ps| && Below(q, |ps|) && Below(r, |ps|) && q <= r && p in q
    requires forall i :: 0 <= i < |ps| ==> qs[i].prio == ps[i].prio
    ensures PeersAhead(qs, r, p) == PeersAhead(ps, q, p)
  {
    if q[0] != p {
      assert q[1..] <= r[1..] && p in q[1..];
      PeersAheadSame(ps, q[1..], qs, r[1..], p);
    }
  }

  /** Nobody of p's priority stands before position k, where p stands. */
  lemma {:induction false} NoPeerAhead(procs: seq<Proc>, q: seq<nat>, k: nat, p: nat)
    requires p < |procs| && Below(q, |procs|) && k < |q| && q[k] == p
    requires forall j :: 0 <= j < k ==> procs[q[j]].prio < procs[p].prio
    ensures PeersAhead(procs, q, p) == 0
  {
    if k > 0 {
      NoPeerAhead(procs, q[1..], k - 1, p);
    }
  }

  /** Taking out the first of p's priority, if that is not p, leaves one peer fewer ahead. */
  lemma {:induction false} FirstPeerGoes(procs: seq<Proc>, q: seq<nat>, r: seq<nat>, k: nat, p: nat)
    requires p < |procs| && Below(q, |procs|) && p in q && k < |q| && q[k] != p
    requires r == RemoveAt(q, k) && Below(r, |procs|)
    requires procs[q[k]].prio == procs[p].prio && forall j :: 0 <= j < k ==> procs[q[j]].prio < procs[p].prio
    ensures PeersAhead(procs, r, p) == PeersAhead(procs, q, p) - 1
  {
    if k == 0 {
      assert r == q[1..];
    } else {
      assert q[0] != p && r[0] == q[0] && r[1..] == RemoveAt(q[1..], k - 1);
      FirstPeerGoes(procs, q[1..], r[1..], k - 1, p);
    }
  }

  ghost predicate Highest(procs: seq<Proc>, p: nat) {
    p < |procs| && forall i :: 0 <= i < |procs| ==> procs[i].prio <= procs[p].prio
  }

  /** One decision: a peer ahead of p goes, or p itself. */
  lemma TurnStep(s: State, t: State, q: seq<nat>, k: nat, p: nat)
    requires Shape(s) && Shape(t) && PrioTick(s, t, q, k) && p in s.ready && Highest(s.procs, p)
    ensures q[k] == p <==> PeersAhead(s.procs, s.ready, p) == 0
    ensures q[k] != p ==> p in t.ready && Highest(t.procs, p)
    ensures q[k] != p ==> PeersAhead(t.procs, t.ready, p) == PeersAhead(s.procs, s.ready, p) - 1
  {
    assert p in q && Below(q, |s.procs|);
    PeersAheadSame(s.procs, s.ready, s.procs, q, p);
    var j :| 0 <= j < |q| && q[j] == p;
    RemoveAtKeepsOthers(q, k);
    var rest := RemoveAt(q, k);
    assert Below(rest, |s.procs|) by {
      assert forall x :: 0 <= x < |rest| ==> rest[x] in rest;
    }
    hide Shape, PeersAhead, NoDup, RemoveAt;
    if q[k] == p {
      NoPeerAhead(s.procs, q, k, p);
    } else {
      FirstPeerGoes(s.procs, q, rest, k, p);
      PeersAheadSame(s.procs, rest, t.procs, t.ready, p);
    }
  }

  /**
   The most important processes take turns: with m peers of its priority ahead of it in the ready queue,
   one of them is picked by exactly the (m + 1)-th following decision, whatever else arrives meanwhile.
   */
  lemma {:induction false} TurnsExact(plan: seq<Proc>, s: State, p: nat)
    requires Inv(plan, s) && Shape(s) && p in s.ready && Highest(s.procs, p)
    ensures PickedAt(Prio, s, PeersAhead(s.procs, s.ready, p)) == Some(p)
    ensures forall j :: 0 <= j < PeersAhead(s.procs, s.ready, p) ==> PickedAt(Prio, s, j) != Some(p)
    decreases PeersAhead(s.procs, s.ready, p)
  {
    hide Inv, Shape, Chosen, Tick, After, PickedAt, Highest, SomeCandidate, PeersAhead;
    ReadyIsCandidate(plan, s);
    var q, k := PrioWhole(plan, s);
    var t := Tick(Prio, s);
    TurnStep(s, t, q, k, p);
    PickedLater(Prio, s, 0);
    var m := PeersAhead(s.procs, s.ready, p);
    if m > 0 {
      TickKeepsInv(Prio, plan, s);
      TurnsExact(plan, t, p);
      PickedLater(Prio, s, m - 1);
      forall j | 0 < j < m ensures PickedAt(Prio, s, j) != Some(p) {
        PickedLater(Prio, s, j - 1);
      }
    }
  }

  // ----- Where two policies differ from what is documented -----

  /** The documentation lets the running process go on unless another one has strictly less left to do. */
  ghost predicate ShorterWaits(procs: seq<Proc>, q: seq<nat>, c: nat)
    requires c < |procs| && Below(q, |procs|)
  {
    exists k :: 0 <= k < |q| && Key(Stcf, procs[q[k]]) > Key(Stcf, procs[c])
  }

  ghost predicate EqualWaits(procs: seq<Proc>, q: seq<nat>, c: nat)
    requires c < |procs| && Below(q, |procs|)
  {
    exists k :: 0 <= k < |q| && q[k] != c && Key(Stcf, procs[q[k]]) == Key(Stcf, procs[c])
  }

  /** Shortest time to completion does as documented exactly if it has not to decide between equals. */
  lemma StcfAsDocumentedIff(plan: seq<Proc>, s: State)
    requires Inv(plan, s) && Shape(s) && Runnable(s)
    ensures var q := Candidates(ForkFrom(s, 0));
      && Below(q, |s.procs|) && s.cur.value < |s.procs|
      && ((Chosen(Stcf, s).cur == s.cur <==> !ShorterWaits(s.procs, q, s.cur.value)) <==>
          ShorterWaits(s.procs, q, s.cur.value) || !EqualWaits(s.procs, q, s.cur.value))
  {
    GoesOnIff(Stcf, plan, s);
    hide Inv, Shape, ForkFrom, Candidates, Chosen, Key;
  }

  /** The documented adjustment before a decision: the running process is reset, everybody else gains one. */
  function DocumentedPrio(s: State, i: nat): int
    requires i < |s.procs|
  {
    if s.cur == Some(i) then s.procs[i].prioOrig else s.procs[i].prio + 1
  }

  function DocumentedKeys(s: State, q: seq<nat>): (keys: seq<int>)
    requires Below(q, |s.procs|)
    ensures |keys| == |q| && forall k :: 0 <= k < |q| ==> keys[k] == DocumentedPrio(s, q[k])
  {
    seq(|q|, k requires 0 <= k < |q| => DocumentedPrio(s, q[k]))
  }

  /** The running process is one ahead of another candidate. */
  ghost predicate OneAhead(s: State, q: seq<nat>)
    requires Below(q, |s.procs|) && s.cur.Some? && s.cur.value < |s.procs|
  {
    exists k :: 0 <= k < |q| && q[k] != s.cur.value && s.procs[q[k]].prio + 1 == s.procs[s.cur.value].prio
  }

  lemma FirstMaxIs(keys: seq<int>, k: nat)
    requires IsFirstMax(keys, k)
    ensures FirstMax(keys) == k
  {
    var m := FirstMax(keys);
    hide FirstMax;
    assert m <= k && k <= m;
  }

  /** The queue without the running process: the same order before and after the adjustment. */
  lemma DocumentedIdle(s: State, q: seq<nat>)
    requires Below(q, |s.procs|) && q != [] && (s.cur.Some? ==> s.cur.value !in q)
    ensures FirstMax(DocumentedKeys(s, q)) == FirstMax(Keys(Aging, s.procs, q))
  {
    var keys := Keys(Aging, s.procs, q);
    var docs := DocumentedKeys(s, q);
    hide FirstMax;
    assert forall k :: 0 <= k < |q| ==> docs[k] == keys[k] + 1;
    FirstMaxIs(docs, FirstMax(keys));
  }

  lemma DocumentedBusy(s: State, q: seq<nat>)
    requires Below(q, |s.procs|) && q != [] && NoDup(q) && s.cur == Some(q[|q| - 1])
    requires s.procs[s.cur.value].prio == s.procs[s.cur.value].prioOrig
    ensures var k := FirstMax(Keys(Aging, s.procs, q));
      FirstMax(DocumentedKeys(s, q)) == k <==> !(q[k] == s.cur.value && OneAhead(s, q))
  {
    var keys := Keys(Aging, s.procs, q);
    var docs := DocumentedKeys(s, q);
    var last := |q| - 1;
    hide FirstMax;
    assert forall j :: 0 <= j < last ==> keys[j] == s.procs[q[j]].prio && docs[j] == keys[j] + 1 && q[j] != s.cur.value;
    assert docs[last] == keys[last] == s.procs[s.cur.value].prio;
    hide Keys, DocumentedKeys, OneAhead;
    BoostedOthers(keys, docs, last);
    OneAheadMeans(s, q, keys);
  }

  lemma OneAheadMeans(s: State, q: seq<nat>, keys: seq<int>)
    requires Below(q, |s.procs|) && q != [] && s.cur == Some(q[|q| - 1]) && |keys| == |q|
    requires keys[|q| - 1] == s.procs[s.cur.value].prio
    requires forall j :: 0 <= j < |q| - 1 ==> keys[j] == s.procs[q[j]].prio && q[j] != s.cur.value
    ensures OneAhead(s, q) <==> exists j :: 0 <= j < |q| - 1 && keys[j] + 1 == keys[|q| - 1]
  {
    if j :| 0 <= j < |q| - 1 && keys[j] + 1 == keys[|q| - 1] {
      assert s.procs[q[j]].prio + 1 == s.procs[s.cur.value].prio;
    }
    if OneAhead(s, q) {
      var j :| 0 <= j < |q| && q[j] != s.cur.value && s.procs[q[j]].prio + 1 == s.procs[s.cur.value].prio;
      assert keys[j] + 1 == keys[|q| - 1];
    }
  }

  /** Raising every key but the last by one moves the first best one exactly if the last was best by just one. */
  lemma BoostedOthers(keys: seq<int>, docs: seq<int>, last: nat)
    requires |docs| == |keys| == last + 1
    requires docs[last] == keys[last] && forall j :: 0 <= j < last ==> docs[j] == keys[j] + 1
    ensures FirstMax(docs) == FirstMax(keys) <==>
      !(FirstMax(keys) == last && exists j :: 0 <= j < last && keys[j] + 1 == keys[last])
  {
    var k := FirstMax(keys);
    var d := FirstMax(docs);
    hide FirstMax;
    if k < last {
      FirstMaxIs(docs, k);
    } else if j :| 0 <= j < last && keys[j] + 1 == keys[last] {
      assert docs[j] == docs[last];
    } else {
      assert forall j :: 0 <= j < last ==> keys[j] < keys[last];
      FirstMaxIs(docs, last);
    }
  }

  /** Aging picks as documented unless it lets a process go on that is just one ahead of another candidate. */
  lemma AgingAsDocumentedIff(plan: seq<Proc>, s: State)
    requires Inv(plan, s) && Shape(s) && AgingInv(s) && SomeCandidate(s)
    ensures var q := Candidates(ForkFrom(s, 0));
      && Below(q, |s.procs|) && q != []
      && (Chosen(Aging, s).cur == Some(q[FirstMax(DocumentedKeys(s, q))]) <==>
          !(Runnable(s) && Chosen(Aging, s).cur == s.cur && s.cur.value < |s.procs| && OneAhead(s, q)))
  {
    var q := Candidates(ForkFrom(s, 0));
    CandidatesExtend(plan, s);
    PickedFirstBest(Aging, s);
    CurrentInQueue(plan, s);
    var k := FirstMax(Keys(Aging, s.procs, q));
    hide Inv, ForkFrom, Candidates, Chosen, FirstMax, Keys, AgingInv, OneAhead, DocumentedKeys, Shape, Runnable, SomeCandidate;
    if Runnable(s) {
      CurrentIsLast(plan, s);
      DocumentedBusy(s, q);
    } else {
      DocumentedIdle(s, q);
    }
    var d := FirstMax(DocumentedKeys(s, q));
    hide NoDup;
    assert q[k] == q[d] <==> k == d by {
      SamePlace(q, k, d);
    }
  }

  lemma SamePlace(q: seq<nat>, k: nat, d: nat)
    requires NoDup(q) && k < |q| && d < |q|
    ensures q[k] == q[d] <==> k == d
  {
  }

  /** The running process is a candidate only if it can go on, and has its original priority under aging. */
  lemma CurrentInQueue(plan: seq<Proc>, s: State)
    requires Inv(plan, s) && Shape(s) && AgingInv(s)
    ensures s.cur.Some? ==> s.cur.value < |s.procs|
    ensures Runnable(s) ==> s.procs[s.cur.value].prio == s.procs[s.cur.value].prioOrig
    ensures !Runnable(s) && s.cur.Some? ==> s.cur.value !in Candidates(ForkFrom(s, 0))
  {
    CandidatesExtend(plan, s);
    ForkFromKeeps(plan, s, 0);
    CurrentNotReady(plan, s);
    CurrentNotReady(plan, ForkFrom(s, 0));
    hide Settled, NoLostWakeup, ForkDue, ForkFrom, Shape;
  }

  lemma CurrentNotReady(plan: seq<Proc>, s: State)
    requires Settled(plan, s)
    ensures Shape(s) && (s.cur.Some? ==> s.cur.value < |s.procs| && s.cur.value !in s.ready)
  {
    hide Locals, Owners, Wants, NoDup, InPlace;
  }

  // ----- Scripts that show the difference -----

  /** Process 0 alone in its first tick, without requests. */
  function AfterFirst(a: Proc, b: Proc): (s: State)
  {
    State([a.(status := Running, age := 1), b], [], [1], Some(0), Owned(None, None), Waited([]), 1)
  }

  ghost predicate Simple(p: Proc, start: nat) {
    WellFormedProc(p) && p.pending == [] && p.start == start
  }

  lemma SimpleShape(a: Proc, b: Proc)
    requires Simple(a, 0) && Simple(b, 1)
    ensures Inv([a, b], Initial([a, b])) && Shape(Initial([a, b])) && Shape(AfterFirst(a, b)) && WellFormed([a, b])
  {
    InitialInv([a, b]);
  }

  lemma BoostAlone(procs: seq<Proc>)
    requires |procs| == 2 && procs[0].prio == procs[0].prioOrig
    ensures Boost(procs, [0], 0) == procs
  {
  }

  lemma StartFields(a: Proc, b: Proc)
    ensures var s := Initial([a, b]);
      s == State([a, b], [], [0, 1], None, Owned(None, None), Waited([]), 0)
  {
    assert seq(2, i => i) == [0, 1];
  }

  /** Process 0 has been forked. */
  function FirstForked(a: Proc, b: Proc): State {
    State([a, b], [0], [1], None, Owned(None, None), Waited([]), 0)
  }

  lemma FirstFork(a: Proc, b: Proc)
    requires Simple(a, 0) && Simple(b, 1)
    ensures Shape(Initial([a, b])) && ForkFrom(Initial([a, b]), 0) == FirstForked(a, b)
    ensures Candidates(FirstForked(a, b)) == [0]
  {
    SimpleShape(a, b);
    StartFields(a, b);
    assert [0, 1][1..] == [1] && [] + [0] == [0];
    hide Inv, Initial, Shape, Owned, Waited, ForkFrom;
    ForksHead(Initial([a, b]));
  }

  lemma FirstDecision(pol: Policy, a: Proc, b: Proc)
    requires Simple(a, 0) && Simple(b, 1) && Preemptive(pol)
    ensures Shape(Initial([a, b])) && Shape(AfterFirst(a, b))
    ensures Chosen(pol, Initial([a, b])) == AfterFirst(a, b).(ticks := 0, procs := [a.(status := Running), b])
  {
    hide Inv, ForkFrom, Chosen, Owned, Waited, Initial, Schedule, Shape, Candidates, Simple;
    SimpleShape(a, b);
    FirstFork(a, b);
    FirstSchedule(pol, a, b);
    ChosenIsLaunch(pol, Initial([a, b]));
  }

  lemma FirstSchedule(pol: Policy, a: Proc, b: Proc)
    requires Simple(a, 0) && Simple(b, 1) && Preemptive(pol)
    requires Shape(FirstForked(a, b)) && Candidates(FirstForked(a, b)) == [0]
    ensures Schedule(pol, FirstForked(a, b)) == FirstForked(a, b).(ready := [], cur := Some(0))
  {
    var f := FirstForked(a, b);
    BoostAlone(f.procs);
    hide Candidates, Owned, Waited, RemoveAt, FirstMax, Boost, Schedule, Keys, Shape;
    FirstMaxIs0(Keys(pol, f.procs, [0]));
    RemoveHead([0]);
    assert [0][1..] == [];
    ScheduleTakesBest(pol, f);
  }

  lemma FirstMaxIs0(keys: seq<int>)
    requires |keys| == 1
    ensures FirstMax(keys) == 0
  {
  }

  lemma FirstSimpleTick(pol: Policy, a: Proc, b: Proc)
    requires Simple(a, 0) && Simple(b, 1) && Preemptive(pol)
    ensures Shape(Initial([a, b])) && Shape(AfterFirst(a, b)) && Tick(pol, Initial([a, b])) == AfterFirst(a, b)
  {
    FirstDecision(pol, a, b);
    TickUnfolds(pol, Initial([a, b]));
    hide Chosen, Tick, Initial, Owned, Waited, Shape;
    var u := Chosen(pol, Initial([a, b]));
    assert AcquireFrom(pol, u, 0) == (u, true);
    assert ReleaseFrom(pol, AgeCurrent(u), 0) == AgeCurrent(u);
  }

  /** Process 1 has been forked. */
  function SecondForked(a: Proc, b: Proc): State {
    State([a.(status := Running, age := 1), b], [1], [], Some(0), Owned(None, None), Waited([]), 1)
  }

  /** The decision after that is between the two. */
  lemma SecondDecision(a: Proc, b: Proc)
    requires Simple(a, 0) && Simple(b, 1) && a.lifespan > 1
    ensures Shape(AfterFirst(a, b)) && Candidates(ForkFrom(AfterFirst(a, b), 0)) == [1, 0] && Runnable(AfterFirst(a, b))
  {
    hide Shape, ForkFrom, Inv, Owned, Waited, Initial;
    SimpleShape(a, b);
    SecondFork(a, b);
    assert [1] + [0] == [1, 0];
  }

  lemma SecondFork(a: Proc, b: Proc)
    requires Simple(a, 0) && Simple(b, 1) && Shape(AfterFirst(a, b))
    ensures ForkFrom(AfterFirst(a, b), 0) == SecondForked(a, b)
  {
    hide Shape, ForkFrom, Owned, Waited;
    assert [1][1..] == [] && [] + [1] == [1];
    ForksHead(AfterFirst(a, b));
  }

  /** Whatever the policy, the running process goes on exactly if it beats the newcomer. */
  lemma SecondAfterOne(pol: Policy, a: Proc, b: Proc)
    requires Simple(a, 0) && Simple(b, 1) && Preemptive(pol) && a.lifespan > 1
    ensures WellFormed([a, b]) && Shape(Initial([a, b])) && Shape(AfterFirst(a, b))
    ensures After(pol, Initial([a, b]), 1) == AfterFirst(a, b) && Candidates(ForkFrom(AfterFirst(a, b), 0)) == [1, 0]
    ensures Chosen(pol, AfterFirst(a, b)).cur == Some(0) <==> Key(pol, b) < Key(pol, a.(status := Running, age := 1))
  {
    hide Inv, Initial, Tick, Chosen, ForkFrom, Candidates, Shape, Key, Simple, After, BeatsAll, WellFormed;
    SimpleShape(a, b);
    FirstSimpleTick(pol, a, b);
    TickKeepsInv(pol, [a, b], Initial([a, b]));
    SecondDecision(a, b);
    GoesOnIff(pol, [a, b], AfterFirst(a, b));
    BeatsOther(pol, a.(status := Running, age := 1), b);
    AfterOneTick(pol, Initial([a, b]));
  }

  lemma BeatsOther(pol: Policy, a: Proc, b: Proc)
    ensures BeatsAll(pol, [a, b], [1, 0], 0) <==> Key(pol, b) < Key(pol, a)
  {
    hide Key;
    var q := [1, 0];
    assert q[0] == 1;
  }

  lemma AfterOneTick(pol: Policy, s: State)
    requires Shape(s)
    ensures After(pol, s, 1) == Tick(pol, s)
  {
    hide Tick, Shape;
    assert After(pol, s, 1) == After(pol, Tick(pol, s), 0);
  }

  function TieA(): Proc { Proc(0, Ready, 0, 4, 0, 0, 0, [], []) }

  function TieB(): Proc { Proc(1, Ready, 0, 3, 0, 0, 1, [], []) }

  /** A newcomer with as much left to do as the running process takes over from it. */
  lemma StcfTieSwitches()
    ensures WellFormed([TieA(), TieB()]) && Shape(Initial([TieA(), TieB()]))
    ensures var s := After(Stcf, Initial([TieA(), TieB()]), 1);
      && |s.procs| == 2 && s.cur == Some(0) && Chosen(Stcf, s).cur != Some(0)
      && s.procs[0].lifespan - s.procs[0].age == 3 == s.procs[1].lifespan - s.procs[1].age
  {
    hide Initial, After, Chosen, Shape, ForkFrom, Candidates, WellFormed, Owned, Waited;
    SecondAfterOne(Stcf, TieA(), TieB());
  }

  function LeadA(): Proc { Proc(0, Ready, 0, 2, 5, 5, 0, [], []) }

  function LeadB(): Proc { Proc(1, Ready, 0, 1, 4, 4, 1, [], []) }

  /** Aging lets process 0 go on at priority 5; with the documented adjustment process 1 would have caught up and run. */
  lemma AgingDiffers()
    ensures WellFormed([LeadA(), LeadB()]) && Shape(Initial([LeadA(), LeadB()]))
    ensures var s := After(Aging, Initial([LeadA(), LeadB()]), 1);
      var q := Candidates(ForkFrom(s, 0));
      && Below(q, |s.procs|) && q == [1, 0] && Chosen(Aging, s).cur == Some(0) && q[FirstMax(DocumentedKeys(s, q))] == 1
  {
    hide Initial, After, Chosen, Shape, ForkFrom, Candidates, WellFormed, Owned, Waited, FirstMax, DocumentedKeys;
    SecondAfterOne(Aging, LeadA(), LeadB());
    LeadDocumented(AfterFirst(LeadA(), LeadB()));
  }

  lemma LeadDocumented(s: State)
    requires |s.procs| == 2 && s.cur == Some(0) && s.procs[0].prioOrig == 5 && s.procs[1].prio == 4
    ensures Below([1, 0], 2) && FirstMax(DocumentedKeys(s, [1, 0])) == 0
  {
    hide FirstMax;
    FirstMaxIs(DocumentedKeys(s, [1, 0]), 0);
  }
}
