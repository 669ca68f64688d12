/**
 The two policies that never preempt.  With no resources and a common start, the loop runs the jobs
 back to back: under first come first served in the order of the script, under shortest job first in
 nondecreasing order of lifespan, and then no non-preemptive schedule of the same jobs has a smaller
 sum of completion ticks.
 */
module ShortestJobFirst {
  import opened Seqs
  import opened SchedModel
  import opened SchedInvariants
  import opened SchedRuns
  import SchedCallbacks

  // ----- Sums -----

  function Sum(a: seq<nat>): nat {
    if a == [] then 0 else Sum(a[..|a| - 1]) + a[|a| - 1]
  }

  /** Completion ticks of jobs of these lengths run back to back from `start`. */
  function BackToBack(start: nat, lives: seq<nat>): (fin: seq<nat>)
    ensures |fin| == |lives|
  {
    seq(|lives|, m requires 0 <= m < |lives| => start + Sum(lives[..m + 1]))
  }

  ghost predicate Ascending(a: seq<nat>) {
    forall i, j :: 0 <= i < j < |a| ==> a[i] <= a[j]
  }

  /** `fin` are completion ticks of jobs run one after the other, with gaps allowed, none before `start`. */
  ghost predicate OneAtATime(start: nat, lives: seq<nat>, fin: seq<nat>) {
    && |fin| == |lives|
    && (fin != [] ==> start + lives[0] <= fin[0])
    && (forall m :: 1 <= m < |fin| ==> fin[m - 1] + lives[m] <= fin[m])
  }

  lemma SumTail(a: seq<nat>)
    requires a != []
    ensures Sum(a) == a[0] + Sum(a[1..])
  {
    if |a| > 1 {
      SumTail(a[..|a| - 1]);
      assert a[..|a| - 1][1..] == a[1..][..|a| - 2];
    }
  }

  lemma {:induction false} SumMonotone(a: seq<nat>, b: seq<nat>)
    requires |a| == |b| && forall i :: 0 <= i < |a| ==> a[i] <= b[i]
    ensures Sum(a) <= Sum(b)
  {
    if a != [] {
      SumMonotone(a[..|a| - 1], b[..|b| - 1]);
    }
  }

  lemma {:induction false} SumWithout(b: seq<nat>, j: nat)
    requires j < |b|
    ensures Sum(b) == b[j] + Sum(RemoveAt(b, j))
  {
    var last := |b| - 1;
    if j < last {
      SumWithout(b[..last], j);
      assert RemoveAt(b, j)[..last - 1] == RemoveAt(b[..last], j);
    } else {
      assert RemoveAt(b, j) == b[..last];
    }
  }

  lemma TailsMatch(a: seq<nat>, b: seq<nat>, j: nat)
    requires multiset(a) == multiset(b) && a != [] && j < |b| && b[j] == a[0]
    ensures multiset(a[1..]) == multiset(RemoveAt(b, j))
  {
    RemoveAtMultiset(b, j);
    assert a == [a[0]] + a[1..];
    assert multiset(a[1..]) == multiset(a) - multiset{a[0]};
    assert multiset(RemoveAt(b, j)) == multiset(b) - multiset{b[j]};
  }

  lemma PrefixWithout(b: seq<nat>, j: nat, k: nat)
    requires j < |b| && 0 < k <= |b|
    ensures j < k ==> Sum(b[..k]) == b[j] + Sum(RemoveAt(b, j)[..k - 1])
    ensures j >= k ==> Sum(b[..k]) == b[k - 1] + Sum(RemoveAt(b, j)[..k - 1])
  {
    if j < k {
      SumWithout(b[..k], j);
      assert RemoveAt(b[..k], j) == RemoveAt(b, j)[..k - 1];
    } else {
      assert b[..k][..k - 1] == RemoveAt(b, j)[..k - 1];
    }
  }

  /** The first k of the ascending arrangement sum to no more than the first k of any other. */
  lemma {:induction false} ShortestFirstPrefix(a: seq<nat>, b: seq<nat>, k: nat)
    requires Ascending(a) && multiset(a) == multiset(b) && k <= |a| == |b|
    ensures Sum(a[..k]) <= Sum(b[..k])
    decreases k
  {
    if k > 0 {
      assert a[0] in multiset(b);
      var j :| 0 <= j < |b| && b[j] == a[0];
      var c := RemoveAt(b, j);
      TailsMatch(a, b, j);
      ShortestFirstPrefix(a[1..], c, k - 1);
      SumTail(a[..k]);
      assert a[..k][1..] == a[1..][..k - 1];
      PrefixWithout(b, j, k);
      assert b[k - 1] in multiset(a);
      assert a[0] <= b[k - 1];
    }
  }

  lemma {:induction false} BackToBackEarliest(start: nat, lives: seq<nat>, fin: seq<nat>, m: nat)
    requires OneAtATime(start, lives, fin) && m < |lives|
    ensures start + Sum(lives[..m + 1]) <= fin[m]
  {
    assert lives[..m + 1][..m] == lives[..m];
    if m == 0 {
      assert lives[..0] == [];
    } else {
      BackToBackEarliest(start, lives, fin, m - 1);
    }
  }

  /** Running back to back in ascending order minimises the sum of completion ticks. */
  lemma AscendingOptimal(start: nat, a: seq<nat>, b: seq<nat>, fin: seq<nat>)
    requires Ascending(a) && multiset(a) == multiset(b) && OneAtATime(start, b, fin)
    ensures Sum(BackToBack(start, a)) <= Sum(fin)
  {
    assert |a| == |multiset(a)| == |multiset(b)| == |b|;
    var best := BackToBack(start, a);
    forall m | 0 <= m < |a| ensures best[m] <= fin[m] {
      ShortestFirstPrefix(a, b, m + 1);
      BackToBackEarliest(start, b, fin, m);
    }
    SumMonotone(best, fin);
  }

  // ----- The order the policy picks -----

  function Lives(plan: seq<Proc>, q: seq<nat>): (lives: seq<nat>)
    requires Below(q, |plan|)
    ensures |lives| == |q|
  {
    seq(|q|, k requires 0 <= k < |q| => plan[q[k]].lifespan)
  }

  /** Position of the job that is taken from the queue: the first one with the best key. */
  function Next(pol: Policy, plan: seq<Proc>, q: seq<nat>): (k: nat)
    requires Below(q, |plan|) && q != []
    ensures k < |q| && q[k] < |plan|
  {
    FirstMax(Keys(pol, plan, q))
  }

  /** Taking that job, again and again. */
  function ServeOrder(pol: Policy, plan: seq<Proc>, q: seq<nat>): (order: seq<nat>)
    requires Below(q, |plan|)
    ensures |order| == |q| && Below(order, |plan|)
    decreases |q|
  {
    if q == [] then []
    else
      var k := Next(pol, plan, q);
      [q[k]] + ServeOrder(pol, plan, RemoveAt(q, k))
  }

  lemma LivesWithout(plan: seq<Proc>, q: seq<nat>, k: nat)
    requires Below(q, |plan|) && k < |q|
    ensures Below(RemoveAt(q, k), |plan|)
    ensures multiset(Lives(plan, q)) == multiset(Lives(plan, RemoveAt(q, k))) + multiset{plan[q[k]].lifespan}
  {
    assert Lives(plan, RemoveAt(q, k)) == RemoveAt(Lives(plan, q), k);
    RemoveAtMultiset(Lives(plan, q), k);
  }

  lemma LivesCons(plan: seq<Proc>, i: nat, q: seq<nat>)
    requires i < |plan| && Below(q, |plan|)
    ensures Below([i] + q, |plan|) && Lives(plan, [i] + q) == [plan[i].lifespan] + Lives(plan, q)
  {
  }

  lemma {:induction false} OrderPermutes(pol: Policy, plan: seq<Proc>, q: seq<nat>)
    requires Below(q, |plan|)
    ensures multiset(ServeOrder(pol, plan, q)) == multiset(q)
    ensures multiset(Lives(plan, ServeOrder(pol, plan, q))) == multiset(Lives(plan, q))
    decreases |q|
  {
    if q != [] {
      var k := Next(pol, plan, q);
      var r := RemoveAt(q, k);
      OrderPermutes(pol, plan, r);
      var rest := ServeOrder(pol, plan, r);
      assert ServeOrder(pol, plan, q) == [q[k]] + rest;
      hide ServeOrder, FirstMax, Lives, RemoveAt;
      RemoveAtMultiset(q, k);
      LivesWithout(plan, q, k);
      LivesCons(plan, q[k], rest);
    }
  }

  lemma ShortestIsLeast(plan: seq<Proc>, q: seq<nat>, x: nat)
    requires Below(q, |plan|) && q != [] && x in multiset(Lives(plan, q))
    ensures plan[q[Next(Sjf, plan, q)]].lifespan <= x
  {
    var keys := Keys(Sjf, plan, q);
    var k := Next(Sjf, plan, q);
    hide FirstMax;
    var i :| 0 <= i < |q| && Lives(plan, q)[i] == x;
    assert keys[i] <= keys[k];
  }

  lemma ShortestFirst(plan: seq<Proc>, q: seq<nat>, rest: seq<nat>)
    requires Below(q, |plan|) && q != [] && Below(RemoveAt(q, Next(Sjf, plan, q)), |plan|)
    requires multiset(rest) == multiset(Lives(plan, RemoveAt(q, Next(Sjf, plan, q))))
    ensures forall j :: 0 <= j < |rest| ==> plan[q[Next(Sjf, plan, q)]].lifespan <= rest[j]
  {
    LivesWithout(plan, q, Next(Sjf, plan, q));
    hide Lives, RemoveAt, Next;
    forall j | 0 <= j < |rest| ensures plan[q[Next(Sjf, plan, q)]].lifespan <= rest[j] {
      assert rest[j] in multiset(rest);
      ShortestIsLeast(plan, q, rest[j]);
    }
  }

  /** The order is nondecreasing in lifespan. */
  lemma {:induction false} SjfOrderAscends(plan: seq<Proc>, q: seq<nat>)
    requires Below(q, |plan|)
    ensures Ascending(Lives(plan, ServeOrder(Sjf, plan, q)))
    decreases |q|
  {
    if q != [] {
      var k := Next(Sjf, plan, q);
      var r := RemoveAt(q, k);
      SjfOrderAscends(plan, r);
      OrderPermutes(Sjf, plan, r);
      assert ServeOrder(Sjf, plan, q) == [q[k]] + ServeOrder(Sjf, plan, r);
      hide ServeOrder, Lives, RemoveAt, FirstMax;
      LivesCons(plan, q[k], ServeOrder(Sjf, plan, r));
      ShortestFirst(plan, q, Lives(plan, ServeOrder(Sjf, plan, r)));
    }
  }

  // ----- The run -----

  ghost predicate ResourceFree(plan: seq<Proc>) {
    forall i :: 0 <= i < |plan| ==> plan[i].pending == []
  }

  lemma NothingFromNothing(p0: Proc, p: Proc)
    requires LocalInv(p0, p, |p.holding|)
    ensures p.pending != [] || p.holding != [] ==> p0.pending != []
  {
    hide Accounted;
    if |p.pending| > 0 {
      assert p.pending[0] in p.pending;
    }
    if |p.holding| > 0 {
      assert Origin(Aged(p.holding, |p.holding|)[0], p.age) in p0.pending;
    }
  }

  /** Without requests in the script, nobody ever has a request pending or held. */
  lemma NothingToHold(plan: seq<Proc>, s: State)
    requires Settled(plan, s) && ResourceFree(plan)
    ensures forall i :: 0 <= i < |s.procs| ==>
      s.procs[i].pending == [] && s.procs[i].holding == [] && s.procs[i].lifespan == plan[i].lifespan
  {
    hide Queues, Placed, Owners, Accounted;
    forall i | 0 <= i < |s.procs|
      ensures s.procs[i].pending == [] && s.procs[i].holding == [] && s.procs[i].lifespan == plan[i].lifespan
    {
      var p := s.procs[i];
      assert LocalInv(plan[i], p, |p.holding|);
      NothingFromNothing(plan[i], p);
    }
  }

  /** s once the current process has run j more ticks. */
  function RanFor(s: State, j: nat): (t: State)
    requires Shape(s) && s.cur.Some?
    ensures Shape(t)
  {
    var c := s.cur.value;
    s.(procs := s.procs[c := s.procs[c].(age := s.procs[c].age + j)], ticks := s.ticks + j)
  }

  lemma FreeExecute(pol: Policy, u: State)
    requires Shape(u) && u.cur.Some?
    requires u.procs[u.cur.value].pending == [] && u.procs[u.cur.value].holding == []
    ensures Execute(pol, u) == AgeCurrent(u)
  {
    assert AcquireFrom(pol, u, 0) == (u, true);
  }

  /** The running job keeps the processor. */
  lemma StayTick(pol: Policy, plan: seq<Proc>, s: State)
    requires pol == Fcfs || pol == Sjf
    requires Inv(plan, s) && Shape(s) && ResourceFree(plan) && Runnable(s) && s.fork == []
    ensures Tick(pol, s) == RanFor(s, 1)
  {
    NothingToHold(plan, s);
    hide Inv, ResourceFree, Shape, Chosen, Tick, Execute, LocalInv;
    StayChosen(pol, plan, s);
    TickUnfolds(pol, s);
    FreeExecute(pol, s);
    RanForOne(s);
  }

  lemma RanForOne(s: State)
    requires Shape(s) && s.cur.Some?
    ensures var t := AgeCurrent(s); t.(ticks := t.ticks + 1) == RanFor(s, 1)
  {
  }

  lemma StayChosen(pol: Policy, plan: seq<Proc>, s: State)
    requires pol == Fcfs || pol == Sjf
    requires Inv(plan, s) && Shape(s) && Runnable(s) && s.fork == []
    ensures Chosen(pol, s) == s && |s.procs| == |plan| && s.cur.value < |s.procs|
  {
    RunnableRuns(plan, s);
    hide Inv, Shape;
    EmptyWalk(s);
    assert Schedule(pol, s) == s;
    ChosenIsLaunch(pol, s);
    assert Launch(s, s) == s;
  }

  lemma RunnableRuns(plan: seq<Proc>, s: State)
    requires Inv(plan, s) && Runnable(s)
    ensures |s.procs| == |plan| && s.cur.value < |s.procs| && s.procs[s.cur.value].status == Running
  {
    hide LocalInv, Queues, Owners, InPlace;
  }

  lemma RanForMore(s: State, j: nat)
    requires Shape(s) && s.cur.Some? && j > 0
    ensures RanFor(s, 1).cur == s.cur && RanFor(s, 1).fork == s.fork && RanFor(RanFor(s, 1), j - 1) == RanFor(s, j)
    ensures RanFor(s, 1).procs[s.cur.value] == s.procs[s.cur.value].(age := s.procs[s.cur.value].age + 1)
  {
  }

  lemma RanForNothing(s: State)
    requires Shape(s) && s.cur.Some?
    ensures RanFor(s, 0) == s
  {
    assert s.procs[s.cur.value := s.procs[s.cur.value]] == s.procs;
  }

  /** The current job is running and has at least j ticks to go; nobody else is to come. */
  ghost predicate Busy(plan: seq<Proc>, s: State, j: nat) {
    && Inv(plan, s) && Shape(s) && ResourceFree(plan) && s.cur.Some? && s.fork == []
    && var p := s.procs[s.cur.value]; p.status == Running && p.age + j <= p.lifespan
  }

  lemma BusyStep(pol: Policy, plan: seq<Proc>, s: State, j: nat)
    requires pol == Fcfs || pol == Sjf
    requires Busy(plan, s, j) && j > 0
    ensures Tick(pol, s) == RanFor(s, 1) && Busy(plan, RanFor(s, 1), j - 1)
  {
    StayTick(pol, plan, s);
    RanForMore(s, j);
    TickKeepsInv(pol, plan, s);
    hide Inv, ResourceFree, Tick;
  }

  lemma BusyShape(plan: seq<Proc>, s: State, j: nat)
    requires Busy(plan, s, j)
    ensures Shape(s) && s.cur.Some?
  {
    hide Inv;
  }

  lemma {:induction false} StayTicks(pol: Policy, plan: seq<Proc>, s: State, j: nat)
    requires pol == Fcfs || pol == Sjf
    requires Busy(plan, s, j)
    ensures After(pol, s, j) == RanFor(s, j)
    decreases j
  {
    hide Busy, RanFor, Tick, Shape;
    BusyShape(plan, s, j);
    if j == 0 {
      RanForNothing(s);
    } else {
      BusyStep(pol, plan, s, j);
      RanForMore(s, j);
      StayTicks(pol, plan, RanFor(s, 1), j - 1);
    }
  }

  lemma FreshSchedule(pol: Policy, plan: seq<Proc>, s: State, q: seq<nat>)
    requires pol == Fcfs || pol == Sjf
    requires Inv(plan, s) && Shape(s) && ResourceFree(plan) && !Runnable(s) && q != []
    requires ForkFrom(s, 0).fork == [] && ForkFrom(s, 0).ready == q
    ensures Below(q, |plan|) && |plan| == |s.procs|
    ensures var f := ForkFrom(s, 0);
      var k := Next(pol, plan, q);
      && f.procs == s.procs && f.cur == s.cur
      && Schedule(pol, f) == f.(ready := RemoveAt(q, k), cur := Some(q[k]))
      && (forall i :: 0 <= i < |s.procs| ==> s.procs[i].pending == [] && s.procs[i].holding == [])
  {
    hide Locals, Queues, Placed, Owners, ResourceFree, ForkFrom, RemoveAt, NoLostWakeup, FirstMax, Keys, WellFormed;
    var f := ForkFrom(s, 0);
    ForkFromKeeps(plan, s, 0);
    NothingToHold(plan, s);
    SettledShape(plan, s);
    assert Candidates(f) == q;
    SameKeys(pol, plan, f.procs, q);
  }

  /** A fresh choice: the job whose turn it is starts. */
  lemma PickTick(pol: Policy, plan: seq<Proc>, s: State, q: seq<nat>)
    requires pol == Fcfs || pol == Sjf
    requires Inv(plan, s) && Shape(s) && ResourceFree(plan) && !Runnable(s) && q != []
    requires ForkFrom(s, 0).fork == [] && ForkFrom(s, 0).ready == q
    ensures Below(q, |plan|) && |plan| == |s.procs|
    ensures var k := Next(pol, plan, q);
      var t := Tick(pol, s);
      && t.cur == Some(q[k]) && t.ready == RemoveAt(q, k) && t.fork == [] && |t.procs| == |s.procs|
      && (forall i :: 0 <= i < |s.procs| ==> t.procs[i].age == s.procs[i].age + if i == q[k] then 1 else 0)
      && t.procs[q[k]].status == Running
  {
    hide Inv, ResourceFree, ForkFrom, Next, RemoveAt, Schedule, Launch, Tick, Chosen, Execute;
    FreshSchedule(pol, plan, s, q);
    var f := ForkFrom(s, 0);
    var u := Schedule(pol, f);
    ChosenIsLaunch(pol, s);
    LaunchFrame(f, u);
    LaunchedRuns(f, u);
    TickUnfolds(pol, s);
    FreeExecute(pol, Launch(f, u));
  }

  lemma LaunchedRuns(f: State, u: State)
    requires Shape(f) && Shape(u) && |u.procs| == |f.procs| && u.cur.Some?
    ensures Launch(f, u).cur == u.cur && |Launch(f, u).procs| == |u.procs|
    ensures Launch(f, u).procs[u.cur.value].status == Running
  {
  }

  lemma SameKeys(pol: Policy, plan: seq<Proc>, procs: seq<Proc>, q: seq<nat>)
    requires pol == Fcfs || pol == Sjf
    requires |plan| == |procs| && Below(q, |procs|)
    requires forall i :: 0 <= i < |plan| ==> procs[i].lifespan == plan[i].lifespan
    ensures Keys(pol, procs, q) == Keys(pol, plan, q)
  {
  }

  lemma {:induction false} AfterSplit(pol: Policy, s: State, a: nat, b: nat)
    requires Shape(s)
    ensures After(pol, s, a + b) == After(pol, After(pol, s, a), b)
    decreases a
  {
    hide Shape, Tick;
    if a > 0 {
      AfterSplit(pol, Tick(pol, s), a - 1, b);
    }
  }

  /** The queue q of untouched jobs is about to be chosen from. */
  ghost predicate Fresh(plan: seq<Proc>, s: State, q: seq<nat>) {
    && Inv(plan, s) && Shape(s) && ResourceFree(plan) && !Runnable(s) && |plan| == |s.procs| && Below(q, |plan|)
    && ForkFrom(s, 0).fork == [] && ForkFrom(s, 0).ready == q
    && forall i :: i in q ==> i < |s.procs| && s.procs[i].age == 0
  }

  /** Picking from a fresh queue leaves the chosen job busy for the rest of its lifespan. */
  lemma TurnStarts(pol: Policy, plan: seq<Proc>, s: State, q: seq<nat>)
    requires pol == Fcfs || pol == Sjf
    requires Fresh(plan, s, q) && q != []
    ensures Shape(s)
    ensures var k := Next(pol, plan, q);
      var t := Tick(pol, s);
      && plan[q[k]].lifespan >= 1 && t.cur == Some(q[k]) && t.ready == RemoveAt(q, k) && |t.procs| == |s.procs|
      && Busy(plan, t, plan[q[k]].lifespan - 1) && t.procs[q[k]].age == 1
      && t.procs[q[k]].lifespan == plan[q[k]].lifespan
      && forall i :: 0 <= i < |s.procs| && i != q[k] ==> t.procs[i].age == s.procs[i].age
  {
    FreshHead(pol, plan, s, q);
    FreshTick(pol, plan, s, q);
    hide ResourceFree, Next, RemoveAt, Inv, Fresh, Tick, Shape;
    var k := Next(pol, plan, q);
    PlanLifespan(plan, s, q[k]);
    TickLifespan(plan, Tick(pol, s), q[k]);
    TickShape(plan, Tick(pol, s));
  }

  lemma FreshTick(pol: Policy, plan: seq<Proc>, s: State, q: seq<nat>)
    requires pol == Fcfs || pol == Sjf
    requires Fresh(plan, s, q) && q != []
    ensures Inv(plan, s) && ResourceFree(plan) && Shape(s) && Inv(plan, Tick(pol, s))
    ensures var k := Next(pol, plan, q);
      var t := Tick(pol, s);
      && t.cur == Some(q[k]) && t.ready == RemoveAt(q, k) && t.fork == [] && |t.procs| == |s.procs|
      && (forall i :: 0 <= i < |s.procs| ==> t.procs[i].age == s.procs[i].age + if i == q[k] then 1 else 0)
      && t.procs[q[k]].status == Running
  {
    hide Inv, ResourceFree, ForkFrom, Next, RemoveAt, Tick;
    PickTick(pol, plan, s, q);
    TickKeepsInv(pol, plan, s);
  }

  lemma TickShape(plan: seq<Proc>, t: State)
    requires Inv(plan, t)
    ensures Shape(t)
  {
  }

  lemma PlanLifespan(plan: seq<Proc>, s: State, i: nat)
    requires Inv(plan, s) && i < |plan|
    ensures plan[i].lifespan >= 1
  {
    hide LocalInv, Queues, Placed, Owners, NoLostWakeup;
    assert WellFormedProc(plan[i]);
  }

  lemma TickLifespan(plan: seq<Proc>, t: State, i: nat)
    requires Inv(plan, t) && ResourceFree(plan) && i < |t.procs|
    ensures i < |plan| && t.procs[i].lifespan == plan[i].lifespan
  {
    hide LocalInv, Queues, Placed, Owners, NoLostWakeup;
    NothingToHold(plan, t);
  }

  /** Age of process i after n further ticks, or -1 if there is no such process. */
  function AgeAfter(pol: Policy, s: State, i: nat, n: nat): int
    requires Shape(s)
  {
    var t := After(pol, s, n);
    if i < |t.procs| then t.procs[i].age else -1
  }

  /** Process i completes its lifespan in exactly the n-th following tick. */
  ghost predicate FinishesAt(pol: Policy, plan: seq<Proc>, s: State, i: nat, n: nat) {
    Shape(s) && i < |plan| && n >= 1 && AgeAfter(pol, s, i, n) == plan[i].lifespan && AgeAfter(pol, s, i, n - 1) == plan[i].lifespan - 1
  }

  lemma BusyLess(plan: seq<Proc>, t: State, j: nat)
    requires Busy(plan, t, j) && j > 0
    ensures Busy(plan, t, j - 1)
  {
    hide Inv, Shape, ResourceFree;
  }

  lemma RanForAge(t: State, j: nat)
    requires Shape(t) && t.cur.Some?
    ensures var c := t.cur.value;
      && |RanFor(t, j).procs| == |t.procs| && c < |t.procs| && RanFor(t, j).procs[c].age == t.procs[c].age + j
      && RanFor(t, j).procs[c].lifespan == t.procs[c].lifespan
      && RanFor(t, j).cur == t.cur && RanFor(t, j).ready == t.ready && RanFor(t, j).fork == t.fork
      && forall i :: 0 <= i < |t.procs| && i != c ==> RanFor(t, j).procs[i] == t.procs[i]
  {
  }

  lemma AfterOne(pol: Policy, s: State, n: nat)
    requires Shape(s) && n > 0
    ensures After(pol, s, n) == After(pol, Tick(pol, s), n - 1)
    ensures After(pol, s, 0) == s
  {
    hide Tick, Shape;
  }

  /** A busy job's age counts the ticks. */
  lemma BusyAge(pol: Policy, plan: seq<Proc>, s: State, t: State, j: nat, n: nat)
    requires pol == Fcfs || pol == Sjf
    requires Shape(s) && t == Tick(pol, s) && Busy(plan, t, j) && n == j + 1
    ensures AgeAfter(pol, s, t.cur.value, n) == t.procs[t.cur.value].age + j
    ensures After(pol, s, n) == RanFor(t, j)
  {
    hide Tick, Busy, RanFor, Shape, After;
    BusyShape(plan, t, j);
    AfterOne(pol, s, n);
    StayTicks(pol, plan, t, j);
    RanForAge(t, j);
  }

  /** A job that has started from age 0 and is busy for its whole lifespan ends with it. */
  lemma BusyFinishes(pol: Policy, plan: seq<Proc>, s: State, t: State, c: nat, n: nat)
    requires pol == Fcfs || pol == Sjf
    requires Shape(s) && c < |s.procs| && s.procs[c].age == 0 && c < |plan| && plan[c].lifespan == n >= 1
    requires t == Tick(pol, s) && Busy(plan, t, n - 1) && t.cur == Some(c) && AgeAfter(pol, s, c, n) == n
    ensures FinishesAt(pol, plan, s, c, n)
  {
    hide Busy, RanFor, Shape, After, AgeAfter, Tick;
    if n == 1 {
      AgeNow(pol, s, c);
    } else {
      BusyEarlier(pol, plan, s, t, c, n);
    }
  }

  lemma BusyEarlier(pol: Policy, plan: seq<Proc>, s: State, t: State, c: nat, n: nat)
    requires pol == Fcfs || pol == Sjf
    requires Shape(s) && t == Tick(pol, s) && n >= 2 && Busy(plan, t, n - 1) && t.cur == Some(c)
    requires AgeAfter(pol, s, c, n) == n
    ensures AgeAfter(pol, s, c, n - 1) == n - 1
  {
    hide Busy, RanFor, Shape, After, AgeAfter, Tick;
    BusyAge(pol, plan, s, t, n - 1, n);
    BusyLess(plan, t, n - 1);
    BusyAge(pol, plan, s, t, n - 2, n - 1);
  }

  lemma TurnFinishes(pol: Policy, plan: seq<Proc>, s: State, q: seq<nat>, c: nat)
    requires pol == Fcfs || pol == Sjf
    requires Fresh(plan, s, q) && q != [] && c == q[Next(pol, plan, q)]
    ensures c < |plan| && FinishesAt(pol, plan, s, c, plan[c].lifespan)
  {
    hide Next, Fresh, Busy, RanFor, Shape, After, AgeAfter, Tick, FinishesAt;
    FreshHead(pol, plan, s, q);
    TurnStarts(pol, plan, s, q);
    var n := plan[c].lifespan;
    var t := Tick(pol, s);
    BusyAge(pol, plan, s, t, n - 1, n);
    BusyFinishes(pol, plan, s, t, c, n);
  }

  lemma AgeNow(pol: Policy, s: State, i: nat)
    requires Shape(s) && i < |s.procs|
    ensures AgeAfter(pol, s, i, 0) == s.procs[i].age
  {
  }

  lemma FreshHead(pol: Policy, plan: seq<Proc>, s: State, q: seq<nat>)
    requires Fresh(plan, s, q) && q != []
    ensures var c := q[Next(pol, plan, q)];
      Shape(s) && c < |plan| == |s.procs| && s.procs[c].age == 0
  {
    var k := Next(pol, plan, q);
    hide Next, Inv, ResourceFree, ForkFrom;
    assert q[k] in q;
  }

  lemma DoneIsFresh(plan: seq<Proc>, s: State, q: seq<nat>)
    requires Inv(plan, s) && Shape(s) && ResourceFree(plan) && !Runnable(s) && |plan| == |s.procs| && Below(q, |plan|)
    requires s.fork == [] && s.ready == q && forall i :: i in q ==> i < |s.procs| && s.procs[i].age == 0
    ensures Fresh(plan, s, q)
  {
  }

  lemma RestIsFresh(plan: seq<Proc>, s: State, q: seq<nat>, k: nat, u: State)
    requires Fresh(plan, s, q) && k < |q|
    requires Inv(plan, u) && |u.procs| == |s.procs| && u.cur == Some(q[k]) && u.ready == RemoveAt(q, k) && u.fork == []
    requires u.procs[q[k]].age == u.procs[q[k]].lifespan
    requires forall i :: 0 <= i < |s.procs| && i != q[k] ==> u.procs[i].age == s.procs[i].age
    ensures Fresh(plan, u, RemoveAt(q, k))
  {
    TickShape(plan, u);
    FreshNoDup(plan, s, q);
    RemoveAtKeepsOthers(q, k);
    hide Inv, ResourceFree, ForkFrom, RemoveAt, Shape;
    assert Below(RemoveAt(q, k), |plan|) by {
      assert forall j :: 0 <= j < |RemoveAt(q, k)| ==> RemoveAt(q, k)[j] in RemoveAt(q, k);
    }
    DoneIsFresh(plan, u, RemoveAt(q, k));
  }

  /** The state when the turn of a job that has just started is over. */
  lemma TurnEnds(pol: Policy, plan: seq<Proc>, s: State, t: State, c: nat, u: State)
    requires pol == Fcfs || pol == Sjf
    requires Shape(s) && t == Tick(pol, s) && |t.procs| == |s.procs| && c < |s.procs| && t.cur == Some(c)
    requires t.procs[c].lifespan >= 1 && t.procs[c].age == 1 && Busy(plan, t, t.procs[c].lifespan - 1)
    requires forall i :: 0 <= i < |s.procs| && i != c ==> t.procs[i].age == s.procs[i].age
    requires u == After(pol, s, t.procs[c].lifespan)
    ensures |u.procs| == |s.procs| && u.cur == Some(c) && u.ready == t.ready && u.fork == []
    ensures c < |u.procs| && u.procs[c].age == u.procs[c].lifespan
    ensures forall i :: 0 <= i < |s.procs| && i != c ==> u.procs[i].age == s.procs[i].age
  {
    hide Inv, Shape, After, RanFor, Busy, AgeAfter, Tick;
    var n := t.procs[c].lifespan;
    BusyShape(plan, t, n - 1);
    BusyAge(pol, plan, s, t, n - 1, n);
    RanForAge(t, n - 1);
    BusyForkless(plan, t, n - 1);
  }

  /** What one job's turn does: after exactly its lifespan it is done, and the rest of the queue is as fresh as before. */
  lemma Turn(pol: Policy, plan: seq<Proc>, s: State, q: seq<nat>)
    requires pol == Fcfs || pol == Sjf
    requires Fresh(plan, s, q) && q != []
    ensures Shape(s)
    ensures var k := Next(pol, plan, q);
      && FinishesAt(pol, plan, s, q[k], plan[q[k]].lifespan)
      && Fresh(plan, After(pol, s, plan[q[k]].lifespan), RemoveAt(q, k))
  {
    FreshBelow(plan, s, q);
    hide Next, Fresh, Inv, Shape, After, RemoveAt, FinishesAt, Tick, Busy;
    var k := Next(pol, plan, q);
    FreshHead(pol, plan, s, q);
    FreshInv(plan, s, q);
    TurnFinishes(pol, plan, s, q, q[k]);
    var u := After(pol, s, plan[q[k]].lifespan);
    TurnStarts(pol, plan, s, q);
    TurnEnds(pol, plan, s, Tick(pol, s), q[k], u);
    InvAlways(pol, plan, s, plan[q[k]].lifespan);
    RestIsFresh(plan, s, q, k, u);
  }

  lemma FreshInv(plan: seq<Proc>, s: State, q: seq<nat>)
    requires Fresh(plan, s, q)
    ensures Inv(plan, s)
  {
    hide Inv, ResourceFree, ForkFrom;
  }

  lemma BusyForkless(plan: seq<Proc>, t: State, j: nat)
    requires Busy(plan, t, j)
    ensures t.fork == []
  {
    hide Inv, ResourceFree;
  }

  lemma FreshNoDup(plan: seq<Proc>, s: State, q: seq<nat>)
    requires Fresh(plan, s, q)
    ensures NoDup(q)
  {
    ForkFromKeeps(plan, s, 0);
    hide Locals, Owners, Placed, ForkFrom;
  }

  /** When the m-th job of that order is done, counted from the moment the queue is fresh. */
  function FinishAfter(pol: Policy, plan: seq<Proc>, q: seq<nat>, m: nat): nat
    requires Below(q, |plan|) && m < |q|
  {
    Sum(Lives(plan, ServeOrder(pol, plan, q))[..m + 1])
  }

  lemma HeadSums(x: nat, rest: seq<nat>, m: nat)
    requires m <= |rest|
    ensures Sum(([x] + rest)[..1]) == x
    ensures Sum(([x] + rest)[..m + 1]) == x + Sum(rest[..m])
  {
    var a := [x] + rest;
    SumTail(a[..1]);
    SumTail(a[..m + 1]);
    assert a[..1][1..] == [] && a[..m + 1][1..] == rest[..m];
  }

  lemma OrderUnfolds(pol: Policy, plan: seq<Proc>, q: seq<nat>)
    requires Below(q, |plan|) && q != []
    ensures Below(RemoveAt(q, Next(pol, plan, q)), |plan|)
    ensures ServeOrder(pol, plan, q) == [q[Next(pol, plan, q)]] + ServeOrder(pol, plan, RemoveAt(q, Next(pol, plan, q)))
  {
    hide Next;
  }

  lemma OrderAt(pol: Policy, plan: seq<Proc>, q: seq<nat>, m: nat)
    requires Below(q, |plan|) && m < |q|
    ensures var k := Next(pol, plan, q);
      var r := RemoveAt(q, k);
      && Below(r, |plan|)
      && ServeOrder(pol, plan, q)[0] == q[k]
      && FinishAfter(pol, plan, q, 0) == plan[q[k]].lifespan
      && (m > 0 ==> ServeOrder(pol, plan, q)[m] == ServeOrder(pol, plan, r)[m - 1])
      && (m > 0 ==> FinishAfter(pol, plan, q, m) == plan[q[k]].lifespan + FinishAfter(pol, plan, r, m - 1))
  {
    var k := Next(pol, plan, q);
    var r := RemoveAt(q, k);
    var rest := ServeOrder(pol, plan, r);
    OrderUnfolds(pol, plan, q);
    hide Next, ServeOrder, RemoveAt, Lives, Sum;
    LivesCons(plan, q[k], rest);
    HeadSums(plan[q[k]].lifespan, Lives(plan, rest), m);
  }

  lemma AgeLater(pol: Policy, s: State, a: nat, i: nat, n: nat)
    requires Shape(s)
    ensures AgeAfter(pol, s, i, a + n) == AgeAfter(pol, After(pol, s, a), i, n)
  {
    hide After, Shape;
    AfterSplit(pol, s, a, n);
  }

  lemma FinishesLater(pol: Policy, plan: seq<Proc>, s: State, a: nat, i: nat, n: nat)
    requires Shape(s) && FinishesAt(pol, plan, After(pol, s, a), i, n)
    ensures FinishesAt(pol, plan, s, i, a + n)
  {
    hide After, Shape, AgeAfter;
    AgeLater(pol, s, a, i, n);
    AgeLater(pol, s, a, i, n - 1);
  }

  /** From a fresh queue the jobs run back to back in the order served. */
  lemma {:induction false} ServesInOrder(pol: Policy, plan: seq<Proc>, s: State, q: seq<nat>, m: nat)
    requires pol == Fcfs || pol == Sjf
    requires Fresh(plan, s, q) && m < |q|
    ensures Below(q, |plan|) && FinishesAt(pol, plan, s, ServeOrder(pol, plan, q)[m], FinishAfter(pol, plan, q, m))
    decreases |q|
  {
    hide Fresh, FinishesAt, ServeOrder, Next, After, FinishAfter, Shape, RemoveAt, Below, Inv;
    FreshBelow(plan, s, q);
    var k := Next(pol, plan, q);
    Turn(pol, plan, s, q);
    OrderAt(pol, plan, q, m);
    if m > 0 {
      var r := RemoveAt(q, k);
      var n := plan[q[k]].lifespan;
      ServesInOrder(pol, plan, After(pol, s, n), r, m - 1);
      FinishesLater(pol, plan, s, n, ServeOrder(pol, plan, r)[m - 1], FinishAfter(pol, plan, r, m - 1));
    }
  }

  lemma FreshBelow(plan: seq<Proc>, s: State, q: seq<nat>)
    requires Fresh(plan, s, q)
    ensures Below(q, |plan|) && forall k :: 0 <= k < |q| ==> q[k] < |plan|
  {
    hide Inv, ResourceFree, ForkFrom, Shape;
  }

  // ----- From the start of the simulation -----

  ghost predicate CommonStart(plan: seq<Proc>, start: nat) {
    forall i :: 0 <= i < |plan| ==> plan[i].start == start
  }

  lemma {:induction false} EverybodyDue(s: State)
    requires Shape(s) && forall i :: 0 <= i < |s.procs| ==> s.procs[i].start <= s.ticks
    ensures ForkFrom(s, 0).fork == [] && ForkFrom(s, 0).ready == s.ready + s.fork
    decreases |s.fork|
  {
    hide Shape, ForkFrom;
    if s.fork == [] {
      EmptyWalk(s);
    } else {
      var i := s.fork[0];
      HeadNamed(s);
      var t := s.(fork := s.fork[1..], ready := s.ready + [i], procs := s.procs[i := s.procs[i].(status := Ready)]);
      HeadDue(s, t);
      EverybodyDue(t);
      assert (s.ready + [i]) + s.fork[1..] == s.ready + s.fork;
    }
  }

  lemma EmptyWalk(s: State)
    requires Shape(s) && s.fork == []
    ensures ForkFrom(s, 0) == s
  {
    hide Shape;
  }

  lemma HeadNamed(s: State)
    requires Shape(s) && s.fork != []
    ensures s.fork[0] < |s.procs|
  {
  }

  function StartOver(plan: seq<Proc>, ticks: nat): State {
    Initial(plan).(ticks := ticks)
  }

  lemma StartShape(plan: seq<Proc>, ticks: nat)
    requires WellFormed(plan)
    ensures Shape(StartOver(plan, ticks))
  {
    InitialInv(plan);
  }

  lemma IdleTickBefore(pol: Policy, plan: seq<Proc>, start: nat, n: nat)
    requires WellFormed(plan) && CommonStart(plan, start) && n < start
    ensures Shape(StartOver(plan, n)) && Tick(pol, StartOver(plan, n)) == StartOver(plan, n + 1)
  {
    StartShape(plan, n);
    var s := StartOver(plan, n);
    NobodyDue(s, 0);
    assert Candidates(s) == [];
    hide ForkFrom, Shape, WellFormed;
  }

  /** Until the common start the loop idles. */
  lemma {:induction false} IdleUntilStart(pol: Policy, plan: seq<Proc>, start: nat, n: nat, m: nat)
    requires WellFormed(plan) && CommonStart(plan, start) && n + m <= start
    ensures Shape(StartOver(plan, n)) && After(pol, StartOver(plan, n), m) == StartOver(plan, n + m)
    decreases m
  {
    hide Shape, WellFormed, CommonStart, StartOver, Tick;
    StartShape(plan, n);
    if m > 0 {
      IdleTickBefore(pol, plan, start, n);
      IdleUntilStart(pol, plan, start, n + 1, m - 1);
    }
  }

  /** All processes, in script order. */
  function Everybody(plan: seq<Proc>): (q: seq<nat>)
    ensures |q| == |plan| && Below(q, |plan|)
  {
    seq(|plan|, i => i)
  }

  lemma StartQueue(plan: seq<Proc>, start: nat)
    requires WellFormed(plan) && CommonStart(plan, start) && Shape(StartOver(plan, start))
    ensures ForkFrom(StartOver(plan, start), 0).fork == [] && ForkFrom(StartOver(plan, start), 0).ready == Everybody(plan)
  {
    var s := StartOver(plan, start);
    hide Shape, ForkFrom, WellFormed;
    EverybodyDue(s);
    assert s.ready + s.fork == Everybody(plan);
  }

  lemma Unborn(plan: seq<Proc>)
    requires WellFormed(plan)
    ensures forall i :: i in Everybody(plan) ==> i < |plan| && plan[i].age == 0
  {
    forall i | i in Everybody(plan) ensures i < |plan| && plan[i].age == 0 {
      assert WellFormedProc(plan[i]);
    }
  }

  lemma StartIsFresh(plan: seq<Proc>, start: nat)
    requires WellFormed(plan) && CommonStart(plan, start) && ResourceFree(plan)
    requires Shape(StartOver(plan, start)) && Inv(plan, StartOver(plan, start))
    ensures Fresh(plan, StartOver(plan, start), Everybody(plan))
  {
    hide Inv, ForkFrom, ResourceFree, Shape, WellFormed, CommonStart, Everybody;
    StartQueue(plan, start);
    Unborn(plan);
  }

  lemma StartZero(plan: seq<Proc>)
    ensures StartOver(plan, 0) == Initial(plan)
  {
  }

  lemma BackToBackAt(start: nat, lives: seq<nat>, m: nat)
    requires m < |lives|
    ensures BackToBack(start, lives)[m] == start + Sum(lives[..m + 1])
  {
    hide Sum;
  }

  lemma FinishTick(pol: Policy, plan: seq<Proc>, start: nat, m: nat)
    requires m < |plan|
    ensures BackToBack(start, Lives(plan, ServeOrder(pol, plan, Everybody(plan))))[m] == start + FinishAfter(pol, plan, Everybody(plan), m)
  {
    hide ServeOrder, Lives, Everybody, BackToBack, Sum;
    BackToBackAt(start, Lives(plan, ServeOrder(pol, plan, Everybody(plan))), m);
  }

  /**
   The run of a resource-free script with a common start: the m-th job of the order served completes
   exactly when jobs run back to back from the start would complete it.
   */
  lemma BackToBackRun(pol: Policy, plan: seq<Proc>, start: nat, m: nat)
    requires pol == Fcfs || pol == Sjf
    requires WellFormed(plan) && CommonStart(plan, start) && ResourceFree(plan) && m < |plan|
    ensures var order := ServeOrder(pol, plan, Everybody(plan));
      FinishesAt(pol, plan, Initial(plan), order[m], BackToBack(start, Lives(plan, order))[m])
  {
    hide Inv, Fresh, FinishesAt, ServeOrder, FinishAfter, After, Shape, WellFormed, CommonStart, ResourceFree, Initial, Sum,
         Below, StartOver, BackToBack, Everybody, Lives;
    InitialInv(plan);
    StartZero(plan);
    IdleUntilStart(pol, plan, start, 0, start);
    InvAlways(pol, plan, Initial(plan), start);
    StartIsFresh(plan, start);
    FinishTick(pol, plan, start, m);
    var q := Everybody(plan);
    ServesInOrder(pol, plan, StartOver(plan, start), q, m);
    FinishesLater(pol, plan, Initial(plan), start, ServeOrder(pol, plan, q)[m], FinishAfter(pol, plan, q, m));
  }

  /** Under shortest job first that order is the one of repeatedly picking the first shortest job. */
  lemma SjfSchedule(plan: seq<Proc>, start: nat, m: nat)
    requires WellFormed(plan) && CommonStart(plan, start) && ResourceFree(plan) && m < |plan|
    ensures var order := ServeOrder(Sjf, plan, Everybody(plan));
      FinishesAt(Sjf, plan, Initial(plan), order[m], BackToBack(start, Lives(plan, order))[m])
  {
    BackToBackRun(Sjf, plan, start, m);
    hide *;
  }

  lemma {:induction false} FcfsOrder(plan: seq<Proc>, q: seq<nat>)
    requires Below(q, |plan|)
    ensures ServeOrder(Fcfs, plan, q) == q
    decreases |q|
  {
    if q != [] {
      hide FirstMax, Keys;
      SchedCallbacks.FirstOfEquals(Fcfs, plan, q);
      assert RemoveAt(q, 0) == q[1..];
      FcfsOrder(plan, q[1..]);
    }
  }

  /**
   Under first come first served it is the order of the script: process k completes when the
   lifespans of the first k + 1 processes have passed, and nobody is ever interrupted.
   */
  lemma FcfsSchedule(plan: seq<Proc>, start: nat, k: nat, lives: seq<nat>)
    requires WellFormed(plan) && CommonStart(plan, start) && ResourceFree(plan) && k < |plan|
    requires |lives| == k + 1 && forall i :: 0 <= i <= k ==> lives[i] == plan[i].lifespan
    ensures FinishesAt(Fcfs, plan, Initial(plan), k, start + Sum(lives))
  {
    hide FinishesAt, ServeOrder, BackToBack, Sum, Initial, WellFormed, CommonStart, ResourceFree;
    BackToBackRun(Fcfs, plan, start, k);
    FcfsOrder(plan, Everybody(plan));
    BackToBackAt(start, Lives(plan, Everybody(plan)), k);
    assert Lives(plan, Everybody(plan))[..k + 1] == lives;
  }

  /**
   Shortest job first is optimal: the completion ticks of the run sum to no more than those of
   any schedule that runs the same jobs one at a time, in any order `perm`, with any gaps.
   */
  lemma SjfOptimal(plan: seq<Proc>, start: nat, perm: seq<nat>, fin: seq<nat>)
    requires WellFormed(plan) && CommonStart(plan, start) && ResourceFree(plan)
    requires Below(perm, |plan|) && multiset(perm) == multiset(Everybody(plan))
    requires OneAtATime(start, Lives(plan, perm), fin)
    ensures var order := ServeOrder(Sjf, plan, Everybody(plan));
      var done := BackToBack(start, Lives(plan, order));
      && multiset(order) == multiset(perm)
      && Ascending(Lives(plan, order))
      && (forall m :: 0 <= m < |plan| ==> FinishesAt(Sjf, plan, Initial(plan), order[m], done[m]))
      && Sum(done) <= Sum(fin)
  {
    var q := Everybody(plan);
    var order := ServeOrder(Sjf, plan, q);
    OrderPermutes(Sjf, plan, q);
    SjfOrderAscends(plan, q);
    SameLives(plan, q, perm);
    AscendingOptimal(start, Lives(plan, order), Lives(plan, perm), fin);
    hide FinishesAt, ServeOrder, BackToBack, Lives, Initial, WellFormed;
    forall m | 0 <= m < |plan| ensures FinishesAt(Sjf, plan, Initial(plan), order[m], BackToBack(start, Lives(plan, order))[m]) {
      SjfSchedule(plan, start, m);
    }
  }

  /** Rearranging the jobs rearranges their lifespans. */
  lemma {:induction false} SameLives(plan: seq<Proc>, a: seq<nat>, b: seq<nat>)
    requires Below(a, |plan|) && Below(b, |plan|) && multiset(a) == multiset(b)
    ensures multiset(Lives(plan, a)) == multiset(Lives(plan, b))
    decreases |a|
  {
    if a == [] {
      assert |b| == |multiset(b)| == 0;
    } else {
      assert a[0] in multiset(b);
      var j :| 0 <= j < |b| && b[j] == a[0];
      TailsMatch(a, b, j);
      LivesWithout(plan, b, j);
      LivesWithout(plan, a, 0);
      assert RemoveAt(a, 0) == a[1..];
      SameLives(plan, a[1..], RemoveAt(b, j));
    }
  }
}
