/**
 Nested holdings: where the inheritance and ceiling releases fall short, and exactly when they do not.
 Both put the releasing process back to its original priority, even if it still holds other resources.
 */
module NestedHoldings {
  import opened Seqs
  import opened SchedModel
  import opened SchedInvariants
  import opened SchedRuns
  import opened Fairness
  import opened CeilingProtocol

  // ----- Exactly when a release leaves the right priority -----

  /** Process o runs at exactly the highest priority among its own and those of all it keeps waiting. */
  ghost predicate InheritsExactly(s: State, o: nat)
    requires Shape(s) && o < |s.procs|
  {
    && s.procs[o].prio >= s.procs[o].prioOrig
    && (forall r, k :: 0 <= r < NR_RESOURCES && s.owner[r] == Some(o) && 0 <= k < |s.wait[r]| ==>
      s.procs[s.wait[r][k]].prio <= s.procs[o].prio)
    && (s.procs[o].prio == s.procs[o].prioOrig
        || exists r, k :: 0 <= r < NR_RESOURCES && s.owner[r] == Some(o) && 0 <= k < |s.wait[r]|
             && s.procs[s.wait[r][k]].prio == s.procs[o].prio)
  }

  /** Some process that waits for another resource of the releasing process outranks its original priority. */
  ghost predicate OutrankedElsewhere(s: State, r: nat)
    requires Shape(s) && s.cur.Some?
  {
    exists x, k :: 0 <= x < NR_RESOURCES && x != r && s.owner[x] == s.cur && 0 <= k < |s.wait[x]|
      && s.procs[s.wait[x][k]].prio > s.procs[s.cur.value].prioOrig
  }

  /** pip_release leaves the right priority exactly when nobody important waits for something still held. */
  lemma InheritanceReleaseIff(s: State, r: nat)
    requires Shape(s) && s.cur.Some? && r < NR_RESOURCES && s.owner[r] == s.cur
    requires forall x :: 0 <= x < NR_RESOURCES ==> s.cur.value !in s.wait[x]
    ensures InheritsExactly(Release(Inheritance, s, r), s.cur.value) <==> !OutrankedElsewhere(s, r)
  {
    var c := s.cur.value;
    var t := Release(Inheritance, s, r);
    hide FirstMax, RemoveAt;
    assert t.procs[c].prio == s.procs[c].prioOrig == t.procs[c].prioOrig;
    assert forall x :: 0 <= x < NR_RESOURCES && x != r ==> t.wait[x] == s.wait[x] && t.owner[x] == s.owner[x];
    forall x, k | 0 <= x < NR_RESOURCES && x != r && 0 <= k < |s.wait[x]|
      ensures t.procs[s.wait[x][k]].prio == s.procs[s.wait[x][k]].prio
    {
      assert s.wait[x][k] in s.wait[x];
    }
    if OutrankedElsewhere(s, r) {
      var x, k :| 0 <= x < NR_RESOURCES && x != r && s.owner[x] == s.cur && 0 <= k < |s.wait[x]|
        && s.procs[s.wait[x][k]].prio > s.procs[c].prioOrig;
      assert t.owner[x] == Some(c) && t.wait[x][k] == s.wait[x][k];
    }
  }

  /** Whoever still owns something runs at the ceiling. */
  ghost predicate OwnerAtCeiling(s: State, o: nat)
    requires Shape(s) && o < |s.procs|
  {
    forall r :: 0 <= r < NR_RESOURCES && s.owner[r] == Some(o) ==> s.procs[o].prio == MAX_PRIO
  }

  /** pcp_release keeps an owner at the ceiling exactly when the resource was its last, or its own priority is the ceiling. */
  lemma CeilingReleaseIff(s: State, r: nat)
    requires Shape(s) && s.cur.Some? && r < NR_RESOURCES && s.owner[r] == s.cur
    ensures OwnerAtCeiling(Release(Ceiling, s, r), s.cur.value) <==>
      s.procs[s.cur.value].prioOrig == MAX_PRIO || forall x :: 0 <= x < NR_RESOURCES && x != r ==> s.owner[x] != s.cur
  {
    var c := s.cur.value;
    var t := Release(Ceiling, s, r);
    hide FirstMax, RemoveAt;
    assert t.procs[c].prio == s.procs[c].prioOrig;
    assert forall x :: 0 <= x < NR_RESOURCES && x != r ==> t.owner[x] == s.owner[x];
  }

  // ----- Scripts on which both releases go wrong -----

  /**
   Process 0, of priority 0, takes resources 1 and 2 at once, resource 1 for `first` ticks and
   resource 2 for three; process 1, of priority 10, starts one tick later and wants resource 2.
   */
  function TwoHeld(first: nat): (plan: seq<Proc>)
    ensures |plan| == 2
  {
    [ Proc(0, Ready, 0, 4, 0, 0, 0, [Request(1, 0, first), Request(2, 0, 3)], []),
      Proc(1, Ready, 0, 1, 10, 10, 1, [Request(2, 0, 1)], []) ]
  }

  /** Only resources 1 and 2 are ever owned in such a run, and only resource 2 is waited for. */
  function Owned(one: Option<nat>, two: Option<nat>): seq<Option<nat>> {
    seq(NR_RESOURCES, r => if r == 1 then one else if r == 2 then two else None)
  }

  function Waited(waiters: seq<nat>): seq<seq<nat>> {
    seq(NR_RESOURCES, r => if r == 2 then waiters else [])
  }

  function Snapshot(procs: seq<Proc>, ready: seq<nat>, fork: seq<nat>, cur: Option<nat>,
                    one: Option<nat>, two: Option<nat>, waiters: seq<nat>, ticks: nat): (s: State)
  {
    State(procs, ready, fork, cur, Owned(one, two), Waited(waiters), ticks)
  }

  ghost predicate GoodRids(q: seq<Request>) {
    forall k :: 0 <= k < |q| ==> q[k].rid < NR_RESOURCES
  }

  ghost predicate Names(q: seq<nat>) {
    forall k :: 0 <= k < |q| ==> q[k] < 2
  }

  lemma SnapshotShape(procs: seq<Proc>, ready: seq<nat>, fork: seq<nat>, cur: Option<nat>,
                      one: Option<nat>, two: Option<nat>, waiters: seq<nat>, ticks: nat)
    requires |procs| == 2 && Names(ready) && Names(fork) && Names(waiters)
    requires (cur.Some? ==> cur.value < 2) && (one.Some? ==> one.value < 2) && (two.Some? ==> two.value < 2)
    requires GoodRids(procs[0].pending) && GoodRids(procs[0].holding) && GoodRids(procs[1].pending) && GoodRids(procs[1].holding)
    ensures Shape(Snapshot(procs, ready, fork, cur, one, two, waiters, ticks))
  {
  }

  lemma OwnedAt(one: Option<nat>, two: Option<nat>)
    ensures var o := Owned(one, two);
      && |o| == NR_RESOURCES && o[1] == one && o[2] == two
      && o[1 := Some(0)] == Owned(Some(0), two) && o[2 := Some(0)] == Owned(one, Some(0)) && o[1 := None] == Owned(None, two)
  {
  }

  lemma WaitedAt(waiters: seq<nat>)
    ensures var w := Waited(waiters);
      && |w| == NR_RESOURCES && w[1] == [] && w[2] == waiters && w[2 := waiters + [1]] == Waited(waiters + [1])
  {
  }

  function Holder(status: Status, age: nat, prio: nat, pending: seq<Request>, holding: seq<Request>): Proc {
    Proc(0, status, age, 4, prio, 0, 0, pending, holding)
  }

  function Waiter(status: Status): Proc {
    Proc(1, status, 0, 1, 10, 10, 1, [Request(2, 0, 1)], [])
  }

  lemma TwoHeldWellFormed(first: nat)
    requires 1 <= first <= 4
    ensures WellFormed(TwoHeld(first)) && Shape(Initial(TwoHeld(first)))
  {
    InitialInv(TwoHeld(first));
  }

  /** The whole walk when only the head of the fork queue is due. */
  lemma ForksHead(s: State)
    requires Shape(s) && s.fork != [] && s.procs[s.fork[0]].start <= s.ticks && s.procs[s.fork[0]].status == Ready
    requires forall j :: 1 <= j < |s.fork| ==> s.procs[s.fork[j]].start > s.ticks
    ensures ForkFrom(s, 0) == s.(fork := s.fork[1..], ready := s.ready + [s.fork[0]])
  {
    var t := s.(fork := s.fork[1..], ready := s.ready + [s.fork[0]]);
    var i := s.fork[0];
    assert s.procs[i := s.procs[i].(status := Ready)] == s.procs;
    HeadDue(s, t);
    NobodyDue(t, 0);
  }

  lemma FirstMaxOfTwo(keys: seq<int>)
    requires 1 <= |keys| <= 2
    ensures FirstMax(keys) == if |keys| == 2 && keys[0] < keys[1] then 1 else 0
  {
    assert FirstMax(keys[..1]) == 0;
  }

  lemma PrioKeys(pol: Policy, procs: seq<Proc>, q: seq<nat>)
    requires WakesHighest(pol) && forall k :: 0 <= k < |q| ==> q[k] < |procs|
    ensures forall k :: 0 <= k < |q| ==> Keys(pol, procs, q)[k] == procs[q[k]].prio
  {
  }

  lemma RemoveHead(q: seq<nat>)
    requires q != []
    ensures RemoveAt(q, 0) == q[1..]
  {
  }

  /** A priority decision over a queue of one or two, the first of them picked. */
  lemma SchedulesFirst(pol: Policy, f: State)
    requires Shape(f) && (pol == Inheritance || pol == Ceiling)
    requires Candidates(f) != [] && |Candidates(f)| <= 2 && Below(Candidates(f), |f.procs|)
    requires |Candidates(f)| == 2 ==> f.procs[Candidates(f)[1]].prio <= f.procs[Candidates(f)[0]].prio
    ensures Schedule(pol, f) == f.(ready := Candidates(f)[1..], cur := Some(Candidates(f)[0]))
  {
    EmptiedShape(f);
    hide Shape, Candidates, Schedule, RemoveAt, FirstMax, Keys;
    var q := Candidates(f);
    PrioKeys(pol, f.procs, q);
    FirstMaxOfTwo(Keys(pol, f.procs, q));
    RemoveHead(q);
    ScheduleTakesBest(pol, f);
  }

  lemma PicksFirst(pol: Policy, s: State, f: State)
    requires Shape(s) && Shape(f) && f == ForkFrom(s, 0) && (pol == Inheritance || pol == Ceiling)
    requires Candidates(f) != [] && |Candidates(f)| <= 2 && Below(Candidates(f), |f.procs|)
    requires |Candidates(f)| == 2 ==> f.procs[Candidates(f)[1]].prio <= f.procs[Candidates(f)[0]].prio
    ensures var q := Candidates(f);
      var u := f.(ready := q[1..], cur := Some(q[0]));
      Shape(u) && Chosen(pol, s) == Launch(f, u)
  {
    EmptiedShape(f);
    hide Shape, ForkFrom, Candidates, Chosen, Launch, Schedule;
    SchedulesFirst(pol, f);
    ChosenIsLaunch(pol, s);
  }

  /** The second of two is picked if it has the higher priority. */
  lemma SchedulesSecond(pol: Policy, f: State)
    requires Shape(f) && (pol == Inheritance || pol == Ceiling)
    requires |Candidates(f)| == 2 && Below(Candidates(f), |f.procs|)
    requires f.procs[Candidates(f)[0]].prio < f.procs[Candidates(f)[1]].prio
    ensures Schedule(pol, f) == f.(ready := [Candidates(f)[0]], cur := Some(Candidates(f)[1]))
  {
    EmptiedShape(f);
    hide Shape, Candidates, Schedule, RemoveAt, FirstMax, Keys;
    var q := Candidates(f);
    PrioKeys(pol, f.procs, q);
    FirstMaxOfTwo(Keys(pol, f.procs, q));
    RemoveLast(q);
    ScheduleTakesBest(pol, f);
  }

  lemma RemoveLast(q: seq<nat>)
    requires |q| == 2
    ensures RemoveAt(q, 1) == [q[0]]
  {
  }

  lemma PicksSecond(pol: Policy, s: State, f: State)
    requires Shape(s) && Shape(f) && f == ForkFrom(s, 0) && (pol == Inheritance || pol == Ceiling)
    requires |Candidates(f)| == 2 && Below(Candidates(f), |f.procs|)
    requires f.procs[Candidates(f)[0]].prio < f.procs[Candidates(f)[1]].prio
    ensures var q := Candidates(f);
      var u := f.(ready := [q[0]], cur := Some(q[1]));
      Shape(u) && Chosen(pol, s) == Launch(f, u)
  {
    EmptiedShape(f);
    hide Shape, ForkFrom, Candidates, Chosen, Launch, Schedule;
    SchedulesSecond(pol, f);
    ChosenIsLaunch(pol, s);
  }

  function One(first: nat): Request { Request(1, 0, first) }

  function Two(left: nat): Request { Request(2, 0, left) }

  /** Process 0 runs before process 1 has been forked. */
  function Alone(age: nat, prio: nat, pending: seq<Request>, holding: seq<Request>,
                 one: Option<nat>, two: Option<nat>): (s: State)
    requires GoodRids(pending) && GoodRids(holding) && (one.Some? ==> one.value < 2) && (two.Some? ==> two.value < 2)
    ensures Shape(s)
  {
    var procs := [Holder(Running, age, prio, pending, holding), Waiter(Ready)];
    SnapshotShape(procs, [], [1], Some(0), one, two, [], 0);
    Snapshot(procs, [], [1], Some(0), one, two, [], 0)
  }

  /** Nobody has been forked yet. */
  function Unforked(pending: seq<Request>): (s: State)
    requires GoodRids(pending)
    ensures Shape(s)
  {
    var procs := [Holder(Ready, 0, 0, pending, []), Waiter(Ready)];
    SnapshotShape(procs, [], [0, 1], None, None, None, [], 0);
    Snapshot(procs, [], [0, 1], None, None, None, [], 0)
  }

  /** Process 0 has been forked. */
  function Forked(pending: seq<Request>): (s: State)
    requires GoodRids(pending)
    ensures Shape(s)
  {
    var procs := [Holder(Ready, 0, 0, pending, []), Waiter(Ready)];
    SnapshotShape(procs, [0], [1], None, None, None, [], 0);
    Snapshot(procs, [0], [1], None, None, None, [], 0)
  }

  lemma TwoHeldInitial(first: nat)
    requires 1 <= first <= 4
    ensures Shape(Initial(TwoHeld(first))) && Initial(TwoHeld(first)) == Unforked([One(first), Two(3)])
  {
    TwoHeldWellFormed(first);
    assert Initial(TwoHeld(first)).fork == [0, 1];
    assert Initial(TwoHeld(first)).owner == Owned(None, None);
    assert Initial(TwoHeld(first)).wait == Waited([]);
    hide Shape, WellFormed;
  }

  /** The first scheduling decision: process 0 is forked and picked. */
  lemma FirstPick(pol: Policy, pending: seq<Request>)
    requires GoodRids(pending) && (pol == Inheritance || pol == Ceiling)
    ensures Chosen(pol, Unforked(pending)) == Alone(0, 0, pending, [], None, None)
  {
    hide Shape, Owned, Waited, Chosen, ForkFrom, GoodRids;
    var s := Unforked(pending);
    var f := Forked(pending);
    assert [0, 1][1..] == [1] && [] + [0] == [0] && [0][1..] == [];
    ForksHead(s);
    PicksFirst(pol, s, f);
  }

  /** The first pending request is due and its resource is free. */
  lemma Grants(pol: Policy, s: State, t: State)
    requires Shape(s) && Shape(t) && s.cur.Some? && s.procs[s.cur.value].pending != []
    requires pol == Inheritance || pol == Ceiling
    requires var p := s.procs[s.cur.value];
      var r := p.pending[0].rid;
      && p.pending[0].at == p.age && s.owner[r].None?
      && t == s.(owner := s.owner[r := s.cur], procs := s.procs[s.cur.value :=
           p.(prio := if pol == Ceiling then MAX_PRIO else p.prio, pending := p.pending[1..], holding := p.holding + [p.pending[0]])])
    ensures AcquireFrom(pol, s, 0) == AcquireFrom(pol, t, 0)
  {
    var c := s.cur.value;
    var p := s.procs[c];
    assert p.pending[0].rid < NR_RESOURCES;
    hide Shape;
    assert RemoveAt(p.pending, 0) == p.pending[1..];
    var u := Acquire(pol, s, p.pending[0].rid).0;
    assert t == u.(procs := u.procs[c := MovePending(u.procs[c], 0)]);
  }

  function Raise(pol: Policy): nat {
    if pol == Ceiling then MAX_PRIO else 0
  }

  /** Process 0 takes both resources in its first tick. */
  lemma TakesBoth(pol: Policy, first: nat)
    requires pol == Inheritance || pol == Ceiling
    ensures AcquireFrom(pol, Alone(0, 0, [One(first), Two(3)], [], None, None), 0) ==
      (Alone(0, Raise(pol), [], [One(first), Two(3)], Some(0), Some(0)), true)
  {
    hide Shape, Owned, Waited, Acquire;
    TakesOne(pol, first);
    TakesTwo(pol, first);
    assert AcquireFrom(pol, Alone(0, Raise(pol), [], [One(first), Two(3)], Some(0), Some(0)), 0) ==
      (Alone(0, Raise(pol), [], [One(first), Two(3)], Some(0), Some(0)), true);
  }

  lemma TakesOne(pol: Policy, first: nat)
    requires pol == Inheritance || pol == Ceiling
    ensures AcquireFrom(pol, Alone(0, 0, [One(first), Two(3)], [], None, None), 0) ==
      AcquireFrom(pol, Alone(0, Raise(pol), [Two(3)], [One(first)], Some(0), None), 0)
  {
    hide Shape, Owned, Waited, AcquireFrom;
    OwnedAt(None, None);
    assert [One(first), Two(3)][1..] == [Two(3)] && [] + [One(first)] == [One(first)];
    Grants(pol, Alone(0, 0, [One(first), Two(3)], [], None, None), Alone(0, Raise(pol), [Two(3)], [One(first)], Some(0), None));
  }

  lemma TakesTwo(pol: Policy, first: nat)
    requires pol == Inheritance || pol == Ceiling
    ensures AcquireFrom(pol, Alone(0, Raise(pol), [Two(3)], [One(first)], Some(0), None), 0) ==
      AcquireFrom(pol, Alone(0, Raise(pol), [], [One(first), Two(3)], Some(0), Some(0)), 0)
  {
    hide Shape, Owned, Waited, AcquireFrom;
    OwnedAt(Some(0), None);
    assert [Two(3)][1..] == [] && [One(first)] + [Two(3)] == [One(first), Two(3)];
    Grants(pol, Alone(0, Raise(pol), [Two(3)], [One(first)], Some(0), None),
           Alone(0, Raise(pol), [], [One(first), Two(3)], Some(0), Some(0)));
  }

  /** A held request with ticks left is only counted down. */
  lemma CountsDown(pol: Policy, s: State, k: nat, t: State)
    requires Shape(s) && s.cur.Some? && k < |s.procs[s.cur.value].holding| && s.procs[s.cur.value].holding[k].dur > 1
    requires var p := s.procs[s.cur.value];
      var h := p.holding[k := p.holding[k].(dur := p.holding[k].dur - 1)];
      Shape(t) && t == s.(procs := s.procs[s.cur.value := p.(holding := h)])
    ensures ReleaseFrom(pol, s, k) == ReleaseFrom(pol, t, k + 1)
  {
    hide Shape, Release;
  }

  /** The first of the held requests, in its last tick, goes back to a resource nobody waits for. */
  lemma GivesBackFirst(pol: Policy, s: State, t: State)
    requires Shape(s) && s.cur.Some? && s.procs[s.cur.value].holding != [] && (pol == Inheritance || pol == Ceiling)
    requires var p := s.procs[s.cur.value];
      var r := p.holding[0].rid;
      && p.holding[0].dur == 1 && s.wait[r] == [] && Shape(t)
      && t == s.(owner := s.owner[r := None],
                 procs := s.procs[s.cur.value := p.(prio := p.prioOrig, holding := p.holding[1..])])
    ensures ReleaseFrom(pol, s, 0) == ReleaseFrom(pol, t, 0)
  {
    var c := s.cur.value;
    var h := s.procs[c].holding;
    var aged := h[0 := h[0].(dur := 0)];
    assert RemoveAt(aged, 0) == h[1..];
    assert forall j :: 0 <= j < |aged| ==> aged[j].rid == h[j].rid < NR_RESOURCES;
    hide Shape, RemoveAt;
    var u := Release(pol, SetHolding(s, aged), h[0].rid);
    assert t == u.(procs := u.procs[c := u.procs[c].(holding := h[1..])]);
  }

  /** A later state: process 0 has nothing more to ask for. */
  function Later(status: Status, age: nat, prio: nat, holding: seq<Request>, waiter: Status, ready: seq<nat>, fork: seq<nat>,
                 cur: nat, one: Option<nat>, waiters: seq<nat>, ticks: nat): (s: State)
    requires GoodRids(holding) && Names(ready) && Names(fork) && Names(waiters) && cur < 2 && (one.Some? ==> one.value < 2)
    ensures Shape(s)
  {
    var procs := [Holder(status, age, prio, [], holding), Waiter(waiter)];
    SnapshotShape(procs, ready, fork, Some(cur), one, Some(0), waiters, ticks);
    Snapshot(procs, ready, fork, Some(cur), one, Some(0), waiters, ticks)
  }

  // ----- Releases of process 0 -----

  /** Two held requests with ticks left. */
  lemma CountsBothDown(pol: Policy, waiter: Status, fork: seq<nat>, waiters: seq<nat>, ticks: nat)
    requires Names(fork) && Names(waiters)
    ensures ReleaseFrom(pol, Later(Running, 1, 0, [One(2), Two(3)], waiter, [], fork, 0, Some(0), waiters, ticks), 0) ==
      Later(Running, 1, 0, [One(1), Two(2)], waiter, [], fork, 0, Some(0), waiters, ticks)
  {
    hide Shape, Owned, Waited, ReleaseFrom;
    var s := Later(Running, 1, 0, [One(2), Two(3)], waiter, [], fork, 0, Some(0), waiters, ticks);
    var t := Later(Running, 1, 0, [One(1), Two(3)], waiter, [], fork, 0, Some(0), waiters, ticks);
    var u := Later(Running, 1, 0, [One(1), Two(2)], waiter, [], fork, 0, Some(0), waiters, ticks);
    assert [One(2), Two(3)][0 := One(1)] == [One(1), Two(3)] && [One(1), Two(3)][1 := Two(2)] == [One(1), Two(2)];
    CountsDown(pol, s, 0, t);
    CountsDown(pol, t, 1, u);
    WalkOver(pol, u, 2);
  }

  lemma WalkOver(pol: Policy, s: State, k: nat)
    requires Shape(s) && s.cur.Some? && k == |s.procs[s.cur.value].holding|
    ensures ReleaseFrom(pol, s, k) == s
  {
    hide Shape;
  }

  /** The first held request ends and takes the priority with it; the second goes on. */
  lemma GivesBackOne(pol: Policy, age: nat, prio: nat, left: nat, waiter: Status, fork: seq<nat>, waiters: seq<nat>, ticks: nat)
    requires (pol == Inheritance || pol == Ceiling) && Names(fork) && Names(waiters) && left > 1
    ensures ReleaseFrom(pol, Later(Running, age, prio, [One(1), Two(left)], waiter, [], fork, 0, Some(0), waiters, ticks), 0) ==
      Later(Running, age, 0, [Two(left - 1)], waiter, [], fork, 0, None, waiters, ticks)
  {
    hide Shape, Owned, Waited, ReleaseFrom;
    var s := Later(Running, age, prio, [One(1), Two(left)], waiter, [], fork, 0, Some(0), waiters, ticks);
    var t := Later(Running, age, 0, [Two(left)], waiter, [], fork, 0, None, waiters, ticks);
    var u := Later(Running, age, 0, [Two(left - 1)], waiter, [], fork, 0, None, waiters, ticks);
    OwnedAt(Some(0), Some(0));
    WaitedAt(waiters);
    assert [One(1), Two(left)][1..] == [Two(left)] && [Two(left)][0 := Two(left - 1)] == [Two(left - 1)];
    GivesBackFirst(pol, s, t);
    CountsDown(pol, t, 0, u);
    WalkOver(pol, u, 1);
  }

  // ----- The ticks -----

  lemma FirstTick(pol: Policy, first: nat)
    requires 1 <= first <= 4 && (pol == Inheritance || pol == Ceiling)
    ensures Tick(pol, Unforked([One(first), Two(3)])) ==
      (var v := ReleaseFrom(pol, Later(Running, 1, Raise(pol), [One(first), Two(3)], Ready, [], [1], 0, Some(0), [], 0), 0);
       v.(ticks := v.ticks + 1))
  {
    hide Shape, Owned, Waited, ReleaseFrom, AcquireFrom, Chosen, Tick, Unforked;
    FirstPick(pol, [One(first), Two(3)]);
    TakesBoth(pol, first);
    TickUnfolds(pol, Unforked([One(first), Two(3)]));
    assert AgeCurrent(Alone(0, Raise(pol), [], [One(first), Two(3)], Some(0), Some(0))) ==
      Later(Running, 1, Raise(pol), [One(first), Two(3)], Ready, [], [1], 0, Some(0), [], 0);
  }

  /** After the first tick: process 1 is about to be forked. */
  function TickOne(holding: seq<Request>, one: Option<nat>): (s: State)
    requires GoodRids(holding) && (one.Some? ==> one.value < 2)
    ensures Shape(s)
  {
    Later(Running, 1, 0, holding, Ready, [], [1], 0, one, [], 1)
  }

  /** Process 1 has been forked and picked. */
  function Preempted(holding: seq<Request>, one: Option<nat>): (s: State)
    requires GoodRids(holding) && (one.Some? ==> one.value < 2)
    ensures Shape(s)
  {
    Later(Ready, 1, 0, holding, Running, [0], [], 1, one, [], 1)
  }

  /** After the second tick: process 1 waits for resource 2. */
  function TickTwo(prio: nat, holding: seq<Request>, one: Option<nat>): (s: State)
    requires GoodRids(holding) && (one.Some? ==> one.value < 2)
    ensures Shape(s)
  {
    Later(Ready, 1, prio, holding, Blocked, [0], [], 1, one, [1], 2)
  }

  /** After the third tick under inheritance: process 0 has given back resource 1. */
  function TickThree(): (s: State)
    ensures Shape(s)
  {
    Later(Running, 2, 0, [Two(1)], Blocked, [], [], 0, None, [1], 3)
  }

  /** The second tick: process 1 is forked, picked for its priority, and blocks on resource 2. */
  lemma SecondTick(pol: Policy, holding: seq<Request>, one: Option<nat>)
    requires (pol == Inheritance || pol == Ceiling) && GoodRids(holding) && (one.Some? ==> one.value < 2)
    ensures Tick(pol, TickOne(holding, one)) == TickTwo(if pol == Inheritance then 10 else 0, holding, one)
  {
    hide Shape, Owned, Waited, Chosen, Tick, TickOne, GoodRids;
    SecondPick(pol, holding, one);
    var u := Preempted(holding, one);
    TickUnfolds(pol, TickOne(holding, one));
    OwnedAt(one, Some(0));
    WaitedAt([]);
    assert [] + [1] == [1];
    assert AcquireFrom(pol, u, 0).1 == false;
  }

  /** Process 1 has been forked, and process 0 can go on. */
  function Contended(holding: seq<Request>, one: Option<nat>): (s: State)
    requires GoodRids(holding) && (one.Some? ==> one.value < 2)
    ensures Shape(s) && |s.procs| == 2 && s.procs[0].prio < s.procs[1].prio && Candidates(s) == [1, 0]
  {
    assert [1] + [0] == [1, 0];
    Later(Running, 1, 0, holding, Ready, [1], [], 0, one, [], 1)
  }

  lemma SecondFork(holding: seq<Request>, one: Option<nat>)
    requires GoodRids(holding) && (one.Some? ==> one.value < 2)
    ensures ForkFrom(TickOne(holding, one), 0) == Contended(holding, one)
  {
    hide Shape, Owned, Waited, ForkFrom, GoodRids;
    assert [1][1..] == [] && [] + [1] == [1];
    ForksHead(TickOne(holding, one));
  }

  lemma SecondPick(pol: Policy, holding: seq<Request>, one: Option<nat>)
    requires (pol == Inheritance || pol == Ceiling) && GoodRids(holding) && (one.Some? ==> one.value < 2)
    ensures Chosen(pol, TickOne(holding, one)) == Preempted(holding, one)
  {
    hide Shape, Owned, Waited, Chosen, ForkFrom, GoodRids, Candidates;
    assert [1, 0][1..] == [0];
    SecondFork(holding, one);
    PicksFirst(pol, TickOne(holding, one), Contended(holding, one));
  }

  /** The third tick under inheritance: process 0 gives back resource 1, and its inherited priority. */
  lemma ThirdTick()
    ensures Tick(Inheritance, TickTwo(10, [One(1), Two(2)], Some(0))) == TickThree()
  {
    hide Shape, Owned, Waited, Chosen, ForkFrom, Tick, ReleaseFrom;
    var s := TickTwo(10, [One(1), Two(2)], Some(0));
    var u := Later(Running, 1, 10, [One(1), Two(2)], Blocked, [], [], 0, Some(0), [1], 2);
    assert [0][1..] == [];
    assert ForkFrom(s, 0) == s by {
      NobodyForks(s);
    }
    PicksFirst(Inheritance, s, s);
    assert Chosen(Inheritance, s) == u;
    assert AgeCurrent(u) == Later(Running, 2, 10, [One(1), Two(2)], Blocked, [], [], 0, Some(0), [1], 2);
    TickUnfolds(Inheritance, s);
    GivesBackOne(Inheritance, 2, 10, 2, Blocked, [], [1], 2);
    assert AcquireFrom(Inheritance, u, 0) == (u, true);
  }

  lemma NobodyForks(s: State)
    requires Shape(s) && s.fork == []
    ensures ForkFrom(s, 0) == s
  {
    hide Shape;
  }

  // ----- The two failures -----

  lemma AfterThree(pol: Policy, s: State)
    requires Shape(s)
    ensures After(pol, s, 2) == Tick(pol, Tick(pol, s)) && After(pol, s, 3) == Tick(pol, Tick(pol, Tick(pol, s)))
  {
    hide Tick, Shape;
    assert After(pol, s, 2) == After(pol, Tick(pol, s), 1);
    assert After(pol, s, 3) == After(pol, Tick(pol, s), 2);
  }

  /**
   A run of the inheritance protocol that goes wrong: after three ticks process 0 is back at priority 0
   although it still owns resource 2, for which process 1, of priority 10, is waiting.
   */
  lemma InheritanceFails()
    ensures WellFormed(TwoHeld(2)) && Shape(Initial(TwoHeld(2)))
    ensures var s := After(Inheritance, Initial(TwoHeld(2)), 3);
      && |s.procs| == 2 && s.procs[0].prio == 0 && s.procs[1].prio == 10
      && s.owner[2] == Some(0) && s.wait[2] == [1] && s.procs[1].status == Blocked
      && !InheritsExactly(s, 0)
  {
    hide Shape, WellFormed, Tick, After, InheritsExactly, Owned, Waited, Initial, TwoHeld, ReleaseFrom, Unforked;
    TwoHeldWellFormed(2);
    TwoHeldInitial(2);
    AfterThree(Inheritance, Initial(TwoHeld(2)));
    FirstTick(Inheritance, 2);
    CountsBothDown(Inheritance, Ready, [1], [], 0);
    SecondTick(Inheritance, [One(1), Two(2)], Some(0));
    ThirdTick();
    assert After(Inheritance, Initial(TwoHeld(2)), 3) == TickThree();
    OwnedAt(None, Some(0));
    WaitedAt([1]);
    Outranked(TickThree());
  }

  lemma Outranked(s: State)
    requires Shape(s) && |s.procs| == 2 && s.procs[0].prio < s.procs[1].prio && s.owner[2] == Some(0) && s.wait[2] == [1]
    ensures !InheritsExactly(s, 0)
  {
    assert s.wait[2][0] == 1;
  }

  /**
   A run of the ceiling protocol that goes wrong: after two ticks process 0 owns resource 2 at priority 0
   and process 1 is blocked.  So `NeverBlocked` does not hold of scripts with overlapping requests.
   */
  lemma CeilingFails()
    ensures WellFormed(TwoHeld(1)) && BelowCeiling(TwoHeld(1)) && Shape(Initial(TwoHeld(1)))
    ensures var s := After(Ceiling, Initial(TwoHeld(1)), 2);
      && |s.procs| == 2 && s.procs[0].prio == 0 && s.owner[2] == Some(0) && s.procs[1].status == Blocked
      && !OwnerAtCeiling(s, 0) && !OnlyRunnerHolds(s)
  {
    hide Shape, WellFormed, Tick, After, OwnerAtCeiling, Owned, Waited, Initial, TwoHeld, ReleaseFrom, OnlyRunnerHolds, BelowCeiling, Unforked;
    TwoHeldWellFormed(1);
    TwoHeldInitial(1);
    TwoHeldBelowCeiling();
    AfterThree(Ceiling, Initial(TwoHeld(1)));
    FirstTick(Ceiling, 1);
    GivesBackOne(Ceiling, 1, MAX_PRIO, 3, Ready, [1], [], 0);
    SecondTick(Ceiling, [Two(2)], None);
    var s := TickTwo(0, [Two(2)], None);
    assert After(Ceiling, Initial(TwoHeld(1)), 2) == s;
    OwnedAt(None, Some(0));
    NotAtCeiling(s);
  }

  lemma NotAtCeiling(s: State)
    requires Shape(s) && |s.procs| == 2 && s.procs[0].prio == 0 && s.owner[2] == Some(0) && s.procs[1].status == Blocked
    ensures !OwnerAtCeiling(s, 0) && !OnlyRunnerHolds(s)
  {
  }

  lemma TwoHeldBelowCeiling()
    ensures BelowCeiling(TwoHeld(1))
  {
  }
}
