/**
 The simulator as it is: process and resource objects updated in place, queues relinked, and the
 callbacks of the eight schedulers.  Every method is proved to take the step that the state
 machine of `SchedModel` takes.
 */
module Simulator {
  import opened Seqs
  import opened SchedModel
  import opened SchedInvariants
  import opened SchedRuns

  class Process {
    const id: nat
    const pid: nat
    const lifespan: nat
    const prioOrig: nat
    const startsAt: nat
    var status: Status
    var age: nat
    var prio: nat
    var toAcquire: seq<Request>
    var holding: seq<Request>

    ghost function Value(): Proc
      reads this
    {
      Proc(pid, status, age, lifespan, prio, prioOrig, startsAt, toAcquire, holding)
    }

    constructor (id: nat, p: Proc)
      ensures this.id == id && Value() == p
    {
      this.id, pid, lifespan, prioOrig, startsAt := id, p.pid, p.lifespan, p.prioOrig, p.start;
      status, age, prio, toAcquire, holding := p.status, p.age, p.prio, p.pending, p.holding;
    }
  }

  class Resource {
    var owner: Process?
    var waitqueue: seq<Process>

    constructor ()
      ensures owner == null && waitqueue == []
    {
      owner, waitqueue := null, [];
    }
  }

  method NewProcesses(plan: seq<Proc>) returns (ps: seq<Process>)
    ensures |ps| == |plan| && forall i :: 0 <= i < |ps| ==> fresh(ps[i]) && ps[i].id == i && ps[i].Value() == plan[i]
  {
    ps := [];
    while |ps| < |plan|
      invariant |ps| <= |plan|
      invariant forall i :: 0 <= i < |ps| ==> fresh(ps[i]) && ps[i].id == i && ps[i].Value() == plan[i]
    {
      var p := new Process(|ps|, plan[|ps|]);
      ps := ps + [p];
    }
  }

  method NewResources() returns (rs: seq<Resource>)
    ensures |rs| == NR_RESOURCES
    ensures forall i :: 0 <= i < |rs| ==> fresh(rs[i]) && rs[i].owner == null && rs[i].waitqueue == []
    ensures forall i, j :: 0 <= i < j < |rs| ==> rs[i] != rs[j]
  {
    rs := [];
    while |rs| < NR_RESOURCES
      invariant |rs| <= NR_RESOURCES
      invariant forall i :: 0 <= i < |rs| ==> fresh(rs[i]) && rs[i].owner == null && rs[i].waitqueue == []
      invariant forall i, j :: 0 <= i < j < |rs| ==> rs[i] != rs[j]
    {
      var r := new Resource();
      rs := rs + [r];
    }
  }

  lemma InitialShape(plan: seq<Proc>)
    requires WellFormed(plan)
    ensures Shape(Initial(plan))
  {
    InitialInv(plan);
  }

  class Simulation {
    const policy: Policy
    const procs: seq<Process>
    const resources: seq<Resource>
    var readyqueue: seq<Process>
    var forkqueue: seq<Process>
    var current: Process?
    var ticks: nat
    ghost var model: State

    /** Lays out a script: fresh processes in the fork queue, free resources, nothing running. */
    constructor (pol: Policy, plan: seq<Proc>)
      requires WellFormed(plan)
      ensures policy == pol && model == Initial(plan) && Valid()
      ensures forall i :: 0 <= i < |procs| ==> fresh(procs[i])
      ensures forall r :: 0 <= r < |resources| ==> fresh(resources[r])
    {
      var ps := NewProcesses(plan);
      var rs := NewResources();
      policy, procs, resources := pol, ps, rs;
      readyqueue, forkqueue, current, ticks := [], ps, null, 0;
      model := Initial(plan);
      new;
      InitialShape(plan);
      hide Shape;
    }

    /** The pointers of a queue are the processes named in the model's queue. */
    ghost predicate Linked(q: seq<Process>, m: seq<nat>) {
      |q| == |m| && forall k :: 0 <= k < |q| ==> m[k] < |procs| && q[k] == procs[m[k]]
    }

    ghost predicate Named(p: Process?, m: Option<nat>) {
      match m
      case None => p == null
      case Some(i) => i < |procs| && p == procs[i]
    }

    /** The objects are laid out once and for all, without sharing. */
    ghost predicate Layout() {
      && (forall i :: 0 <= i < |procs| ==> procs[i].id == i)
      && |resources| == NR_RESOURCES
      && (forall i, j :: 0 <= i < j < |resources| ==> resources[i] != resources[j])
    }

    ghost predicate ResourceHas(r: nat, o: Option<nat>, w: seq<nat>)
      requires r < |resources|
      reads resources
    {
      Named(resources[r].owner, o) && Linked(resources[r].waitqueue, w)
    }

    /** The objects hold exactly the state `st`, where `cur` is taken for the current process. */
    ghost predicate Coupled(st: State, cur: Process?)
      reads this, procs, resources
    {
      && Layout()
      && |st.procs| == |procs| && |st.owner| == |st.wait| == NR_RESOURCES
      && (forall i :: 0 <= i < |procs| ==> procs[i].Value() == st.procs[i])
      && Linked(readyqueue, st.ready) && Linked(forkqueue, st.fork) && Named(cur, st.cur)
      && (forall r :: 0 <= r < NR_RESOURCES ==> ResourceHas(r, st.owner[r], st.wait[r]))
      && ticks == st.ticks
    }

    ghost predicate Valid()
      reads this, procs, resources
    {
      Coupled(model, current) && Shape(model)
    }

    // ----- acquire callbacks -----

    method FcfsAcquire(rid: nat) returns (ok: bool)
      requires Valid() && current != null && rid < NR_RESOURCES
      modifies `model, procs, resources
      ensures Valid() && (model, ok) == Acquire(Fcfs, old(model), rid)
    {
      hide Shape;
      var r := resources[rid];
      model := Acquire(Fcfs, model, rid).0;
      if r.owner == null {
        r.owner := current;
        return true;
      }
      current.status := Blocked;
      r.waitqueue := r.waitqueue + [current];
      return false;
    }

    method PcpAcquire(rid: nat) returns (ok: bool)
      requires Valid() && current != null && rid < NR_RESOURCES
      modifies `model, procs, resources
      ensures Valid() && (model, ok) == Acquire(Ceiling, old(model), rid)
    {
      hide Shape;
      var r := resources[rid];
      model := Acquire(Ceiling, model, rid).0;
      if r.owner == null {
        r.owner := current;
        r.owner.prio := MAX_PRIO;
        return true;
      }
      current.status := Blocked;
      r.waitqueue := r.waitqueue + [current];
      return false;
    }

    /** The blocking half of every acquire callback. */
    method BlockCurrent(rid: nat)
      requires Valid() && current != null && rid < NR_RESOURCES
      modifies `model, procs, resources
      ensures Valid() && model == Waiting(old(model), rid)
    {
      WaitingShape(model, rid);
      hide Shape;
      var r := resources[rid];
      model := Waiting(model, rid);
      current.status := Blocked;
      r.waitqueue := r.waitqueue + [current];
    }

    /** Lends the current process's priority to the owner it is about to wait for. */
    method RaiseOwner(rid: nat)
      requires Valid() && current != null && rid < NR_RESOURCES && model.owner[rid].Some?
      modifies `model, procs
      ensures Valid() && model == Raised(old(model), rid)
    {
      RaisedShape(model, rid);
      assert ResourceHas(rid, model.owner[rid], model.wait[rid]);
      hide Shape;
      var owner := resources[rid].owner;
      model := Raised(model, rid);
      if owner.prio < current.prio {
        owner.prio := current.prio;
      }
    }

    lemma OwnerField(rid: nat)
      requires Valid() && rid < NR_RESOURCES
      ensures rid < |resources| && rid < |model.owner|
      ensures resources[rid].owner == null <==> model.owner[rid].None?
    {
      assert ResourceHas(rid, model.owner[rid], model.wait[rid]);
    }

    method TakeResource(rid: nat)
      requires Valid() && current != null && rid < NR_RESOURCES && model.owner[rid].None?
      modifies `model, resources
      ensures Valid() && model == Acquire(Inheritance, old(model), rid).0
    {
      hide Shape;
      model := Acquire(Inheritance, model, rid).0;
      resources[rid].owner := current;
    }

    method PipAcquire(rid: nat) returns (ok: bool)
      requires Valid() && current != null && rid < NR_RESOURCES
      modifies `model, procs, resources
      ensures Valid() && (model, ok) == Acquire(Inheritance, old(model), rid)
    {
      OwnerField(rid);
      assert Shape(model) && model.cur.Some?;
      if resources[rid].owner == null {
        TakeResource(rid);
        return true;
      }
      AcquireRaises(model, rid);
      hide Acquire, Coupled, Raised, Waiting, Shape;
      RaiseOwner(rid);
      BlockCurrent(rid);
      return false;
    }

    // ----- release callbacks -----

    /** Position of the first waiter with the highest priority. */
    method HighestWaiter(rid: nat) returns (k: nat)
      requires Valid() && rid < NR_RESOURCES && resources[rid].waitqueue != []
      ensures k < |model.wait[rid]| == |resources[rid].waitqueue|
      ensures k == FirstMax(Keys(Prio, model.procs, model.wait[rid]))
    {
      var q := resources[rid].waitqueue;
      ghost var keys := Keys(Prio, model.procs, model.wait[rid]);
      assert |q| == |keys| && forall j :: 0 <= j < |q| ==> keys[j] == q[j].prio by {
        assert ResourceHas(rid, model.owner[rid], model.wait[rid]);
      }
      hide Valid, BestSoFar, FirstMax;
      k := 0;
      BestAtStart(keys);
      for i := 0 to |q|
        invariant k < |q| && BestSoFar(keys, i, k)
      {
        BestSoFarStep(keys, i, k);
        if q[k].prio < q[i].prio {
          k := i;
        }
      }
      BestOfAll(keys, k);
    }

    /** Moves the waiter at position k of a resource to the ready queue. */
    method ReadyWaiter(rid: nat, k: nat)
      requires Valid() && rid < NR_RESOURCES && k < |model.wait[rid]|
      modifies `model, `readyqueue, procs, resources
      ensures Valid() && model == Woken(old(model), rid, k)
    {
      WakeShape(model, rid, k);
      hide Shape;
      var r := resources[rid];
      var waiter := r.waitqueue[k];
      model := Woken(model, rid, k);
      r.waitqueue := RemoveAt(r.waitqueue, k);
      waiter.status := Ready;
      readyqueue := readyqueue + [waiter];
    }

    /** The first half of every release callback: nobody owns the resource any more. */
    method Disown(rid: nat)
      requires Valid() && rid < NR_RESOURCES
      modifies `model, resources
      ensures Valid() && model == Disowned(old(model), rid)
    {
      hide Shape;
      DisownedShape(model, rid);
      model := Disowned(model, rid);
      resources[rid].owner := null;
    }

    lemma WaitersBlocked(rid: nat)
      requires Valid() && rid < NR_RESOURCES
      ensures rid < |resources| && rid < |model.wait| && |resources[rid].waitqueue| == |model.wait[rid]|
    {
      assert ResourceHas(rid, model.owner[rid], model.wait[rid]);
    }

    method FcfsRelease(rid: nat)
      requires Valid() && current != null && rid < NR_RESOURCES
      requires resources[rid].owner == current
      requires forall k :: 0 <= k < |resources[rid].waitqueue| ==> resources[rid].waitqueue[k].status == Blocked
      modifies `model, `readyqueue, procs, resources
      ensures Valid() && model == Release(Fcfs, old(model), rid)
    {
      assert Shape(model) && model.cur.Some?;
      hide Coupled, Disowned, Woken, Release, Shape;
      ReleaseFirst(Fcfs, model, rid);
      WaitersBlocked(rid);
      Disown(rid);
      WaitersBlocked(rid);
      if resources[rid].waitqueue != [] {
        ReadyWaiter(rid, 0);
      }
    }

    method PrioRelease(rid: nat)
      requires Valid() && current != null && rid < NR_RESOURCES
      requires resources[rid].owner == current
      requires forall k :: 0 <= k < |resources[rid].waitqueue| ==> resources[rid].waitqueue[k].status == Blocked
      modifies `model, `readyqueue, procs, resources
      ensures Valid() && model == Release(Prio, old(model), rid)
    {
      assert Shape(model) && model.cur.Some?;
      hide Coupled, Disowned, Woken, Release, Shape, FirstMax, Keys;
      ReleaseBest(Prio, model, rid);
      WaitersBlocked(rid);
      Disown(rid);
      WaitersBlocked(rid);
      if resources[rid].waitqueue != [] {
        var k := HighestWaiter(rid);
        ReadyWaiter(rid, k);
      }
    }

    /** Puts the current process's priority back before its resource goes. */
    method RestorePrio()
      requires Valid() && current != null
      modifies `model, procs
      ensures Valid() && model == Restored(old(model))
    {
      hide Shape;
      RestoredShape(model);
      model := Restored(model);
      current.prio := current.prioOrig;
    }

    method PcpRelease(rid: nat)
      requires Valid() && current != null && rid < NR_RESOURCES
      requires resources[rid].owner == current
      requires forall k :: 0 <= k < |resources[rid].waitqueue| ==> resources[rid].waitqueue[k].status == Blocked
      modifies `model, `readyqueue, procs, resources
      ensures Valid() && model == Release(Ceiling, old(model), rid)
    {
      assert Shape(model) && model.cur.Some?;
      hide Coupled, Disowned, Woken, Release, Shape, FirstMax, Keys, Restored;
      ReleaseBest(Ceiling, model, rid);
      RestorePrio();
      Disown(rid);
      WaitersBlocked(rid);
      if resources[rid].waitqueue != [] {
        var k := HighestWaiter(rid);
        ReadyWaiter(rid, k);
      }
    }

    method PipRelease(rid: nat)
      requires Valid() && current != null && rid < NR_RESOURCES
      requires resources[rid].owner == current
      requires forall k :: 0 <= k < |resources[rid].waitqueue| ==> resources[rid].waitqueue[k].status == Blocked
      modifies `model, `readyqueue, procs, resources
      ensures Valid() && model == Release(Inheritance, old(model), rid)
    {
      assert Shape(model) && model.cur.Some?;
      hide Coupled, Disowned, Woken, Release, Shape, FirstMax, Keys, Restored;
      ReleaseBest(Inheritance, model, rid);
      RestorePrio();
      Disown(rid);
      WaitersBlocked(rid);
      if resources[rid].waitqueue != [] {
        var k := HighestWaiter(rid);
        ReadyWaiter(rid, k);
      }
    }

    // ----- schedule callbacks -----

    /** The objects hold the state that the policy's scheduling decision leads to, with `next` as its choice. */
    ghost predicate Decided(pol: Policy, next: Process?)
      requires Shape(model)
      reads this, procs, resources
    {
      Coupled(Schedule(pol, model), next)
    }

    lemma CurrentFields()
      requires Valid()
      ensures current == null <==> model.cur.None?
      ensures current == null ==> !Runnable(model)
      ensures current != null ==> Runnable(model) == (current.status != Blocked && current.age < current.lifespan)
    {
      hide Shape;
    }

    /** Puts an unfinished, unblocked current process at the tail of the ready queue. */
    method Requeue()
      requires Valid()
      modifies `readyqueue
      ensures Shape(Queued(model)) && Coupled(Queued(model), current)
    {
      QueuedShape(model);
      CurrentFields();
      hide Shape;
      if current != null && current.status != Blocked {
        if current.age < current.lifespan {
          readyqueue := readyqueue + [current];
        }
      }
    }

    /** Unlinks the k-th ready process. */
    method Detach(ghost st: State, k: nat) returns (next: Process)
      requires Coupled(st, current) && k < |readyqueue|
      modifies `readyqueue
      ensures k < |st.ready| && Coupled(TakenOut(st, k), next)
      ensures readyqueue == RemoveAt(old(readyqueue), k) && next == old(readyqueue)[k]
    {
      next := readyqueue[k];
      readyqueue := RemoveAt(readyqueue, k);
    }

    method FcfsSchedule() returns (next: Process?)
      requires Valid()
      modifies `readyqueue
      ensures Decided(Fcfs, next)
    {
      next := null;
      ScheduleCases(Fcfs, model);
      CurrentFields();
      hide Shape, Schedule, TakenOut, FirstMax, Keys;
      if current != null && current.status != Blocked {
        if current.age < current.lifespan {
          return current;
        }
      }
      assert |readyqueue| == |model.ready|;
      if readyqueue != [] {
        EqualKeys(Fcfs, model.procs, model.ready);
        next := Detach(model, 0);
      }
    }

    /** What the scans below find: the first ready process with the largest key. */
    ghost predicate FoundBest(pol: Policy, st: State, k: nat) {
      && (forall j :: 0 <= j < |st.ready| ==> st.ready[j] < |st.procs|)
      && st.ready != [] && k == FirstMax(Keys(pol, st.procs, st.ready))
    }

    method ShortestReady(ghost st: State) returns (k: nat)
      requires Coupled(st, current) && readyqueue != []
      ensures k < |readyqueue| && FoundBest(Sjf, st, k)
    {
      ghost var keys := Keys(Sjf, st.procs, st.ready);
      assert forall j :: 0 <= j < |readyqueue| ==> keys[j] == 0 - readyqueue[j].lifespan;
      hide Coupled, BestSoFar, FirstMax, Keys;
      k := 0;
      BestAtStart(keys);
      for i := 0 to |readyqueue|
        invariant k < |readyqueue| && BestSoFar(keys, i, k)
      {
        BestSoFarStep(keys, i, k);
        if readyqueue[i].lifespan < readyqueue[k].lifespan {
          k := i;
        }
      }
      BestOfAll(keys, k);
    }

    method ShortestRemaining(ghost st: State) returns (k: nat)
      requires Coupled(st, current) && readyqueue != []
      ensures k < |readyqueue| && FoundBest(Stcf, st, k)
    {
      ghost var keys := Keys(Stcf, st.procs, st.ready);
      assert forall j :: 0 <= j < |readyqueue| ==> keys[j] == readyqueue[j].age - readyqueue[j].lifespan;
      hide Coupled, BestSoFar, FirstMax, Keys;
      k := 0;
      BestAtStart(keys);
      for i := 0 to |readyqueue|
        invariant k < |readyqueue| && BestSoFar(keys, i, k)
      {
        BestSoFarStep(keys, i, k);
        var remaining := readyqueue[i].lifespan - readyqueue[i].age;
        var best := readyqueue[k].lifespan - readyqueue[k].age;
        if remaining < best {
          k := i;
        }
      }
      BestOfAll(keys, k);
    }

    method HighestReady(ghost st: State) returns (k: nat)
      requires Coupled(st, current) && readyqueue != []
      ensures k < |readyqueue| && FoundBest(Prio, st, k)
    {
      ghost var keys := Keys(Prio, st.procs, st.ready);
      assert forall j :: 0 <= j < |readyqueue| ==> keys[j] == readyqueue[j].prio;
      hide Coupled, BestSoFar, FirstMax, Keys;
      k := 0;
      BestAtStart(keys);
      for i := 0 to |readyqueue|
        invariant k < |readyqueue| && BestSoFar(keys, i, k)
      {
        BestSoFarStep(keys, i, k);
        if readyqueue[k].prio < readyqueue[i].prio {
          k := i;
        }
      }
      BestOfAll(keys, k);
    }

    method SjfSchedule() returns (next: Process?)
      requires Valid()
      modifies `readyqueue
      ensures Decided(Sjf, next)
    {
      next := null;
      hide Shape, Schedule, TakenOut, FirstMax, Keys, Runnable;
      ScheduleCases(Sjf, model);
      CurrentFields();
      if current != null && current.status != Blocked {
        if current.age < current.lifespan {
          return current;
        }
      }
      assert |readyqueue| == |model.ready|;
      if readyqueue != [] {
        var k := ShortestReady(model);
        next := Detach(model, k);
      }
    }

    method StcfSchedule() returns (next: Process?)
      requires Valid()
      modifies `readyqueue
      ensures Decided(Stcf, next)
    {
      hide Shape, Schedule, TakenOut, FirstMax, Keys, Candidates;
      next := null;
      ScheduleCases(Stcf, model);
      Requeue();
      assert |readyqueue| == |Candidates(model)|;
      if readyqueue != [] {
        var k := ShortestRemaining(Queued(model));
        next := Detach(Queued(model), k);
      }
    }

    method RrSchedule() returns (next: Process?)
      requires Valid()
      modifies `readyqueue
      ensures Decided(Rr, next)
    {
      hide Shape, Schedule, TakenOut, FirstMax, Keys, Candidates;
      next := null;
      ScheduleCases(Rr, model);
      Requeue();
      assert |readyqueue| == |Candidates(model)|;
      if readyqueue != [] {
        EqualKeys(Rr, model.procs, Candidates(model));
        next := Detach(Queued(model), 0);
      }
    }

    /** Serves the plain priority, ceiling and inheritance policies. */
    method PrioSchedule() returns (next: Process?)
      requires Valid()
      modifies `readyqueue
      ensures Decided(Prio, next) && Decided(Ceiling, next) && Decided(Inheritance, next)
    {
      next := null;
      hide Shape, Schedule, TakenOut, FirstMax, Keys, Candidates;
      ScheduleCases(Prio, model);
      SamePrioSchedule(model);
      Requeue();
      assert |readyqueue| == |Candidates(model)|;
      if readyqueue != [] {
        var k := HighestReady(Queued(model));
        next := Detach(Queued(model), k);
      }
    }

    /** The aging scan has passed i candidates, boosted them, and holds position k as the best. */
    ghost predicate AgeScan(st: State, i: nat, k: nat)
      reads this, procs, resources
    {
      && i <= |st.ready| == |readyqueue| && k < |readyqueue| && NoDup(st.ready)
      && (forall j :: 0 <= j < |st.ready| ==> st.ready[j] < |st.procs|)
      && (if i == 0 then k == 0 else k < i)
      && BestSoFar(Keys(Aging, st.procs, st.ready), i, k)
      && Coupled(st.(procs := BoostFirst(st.procs, st.ready, i)), current)
    }

    /**
     The comparison of the aging scan.  It uses `<=` while the best so far has already gained its
     one priority, so it keeps the first highest of the priorities before the boost.
     */
    method AgeCompare(ghost st: State, i: nat, k: nat) returns (best: nat)
      requires AgeScan(st, i, k) && i < |readyqueue|
      ensures best < |readyqueue| && best <= i && BestSoFar(Keys(Aging, st.procs, st.ready), i + 1, best)
    {
      hide BoostFirst, BestSoFar, NoDup;
      ghost var keys := Keys(Aging, st.procs, st.ready);
      BoostAt(st.procs, st.ready, i, k);
      BoostAt(st.procs, st.ready, i, i);
      BestSoFarStep(keys, i, k);
      assert keys[k] == st.procs[st.ready[k]].prio && keys[i] == st.procs[st.ready[i]].prio;
      hide Keys;
      var next, pos := readyqueue[k], readyqueue[i];
      assert next == procs[st.ready[k]] && pos == procs[st.ready[i]];
      best := if next.prio <= pos.prio then i else k;
    }

    method AgeBoost(ghost st: State, i: nat)
      requires i < |st.ready| == |readyqueue| && NoDup(st.ready)
      requires forall j :: 0 <= j < |st.ready| ==> st.ready[j] < |st.procs|
      requires Coupled(st.(procs := BoostFirst(st.procs, st.ready, i)), current)
      modifies procs
      ensures Coupled(st.(procs := BoostFirst(st.procs, st.ready, i + 1)), current)
    {
      BoostNext(st.procs, st.ready, i);
      hide BoostFirst;
      var pos := readyqueue[i];
      pos.prio := pos.prio + 1;
    }

    method AgeOne(ghost st: State, i: nat, k: nat) returns (best: nat)
      requires AgeScan(st, i, k) && i < |readyqueue|
      modifies procs
      ensures AgeScan(st, i + 1, best)
    {
      hide BoostFirst, BestSoFar, Keys, Coupled;
      best := AgeCompare(st, i, k);
      AgeBoost(st, i);
    }

    lemma AgeScanStarts(st: State)
      requires Coupled(st, current) && readyqueue != [] && NoDup(st.ready)
      ensures AgeScan(st, 0, 0) && |readyqueue| == |st.ready|
    {
      BestAtStart(Keys(Aging, st.procs, st.ready));
      BoostNone(st.procs, st.ready);
      assert st.(procs := BoostFirst(st.procs, st.ready, 0)) == st;
    }

    lemma AgeScanEnds(st: State, k: nat)
      requires AgeScan(st, |st.ready|, k)
      ensures k < |readyqueue| && FoundBest(Aging, st, k)
      ensures Coupled(st.(procs := BoostFirst(st.procs, st.ready, |st.ready|)), current)
    {
      hide Coupled;
      BestOfAll(Keys(Aging, st.procs, st.ready), k);
    }

    method AgeReady(ghost st: State) returns (k: nat)
      requires Coupled(st, current) && readyqueue != [] && NoDup(st.ready)
      modifies procs
      ensures k < |readyqueue| && FoundBest(Aging, st, k)
      ensures Coupled(st.(procs := BoostFirst(st.procs, st.ready, |st.ready|)), current)
    {
      hide Coupled, AgeScan, FoundBest, BoostFirst;
      AgeScanStarts(st);
      k := 0;
      for i := 0 to |readyqueue|
        invariant AgeScan(st, i, k)
      {
        k := AgeOne(st, i, k);
      }
      AgeScanEnds(st, k);
    }

    method PaSchedule() returns (next: Process?)
      requires Valid() && NoDup(Candidates(model))
      modifies `readyqueue, procs
      ensures Shape(model) && Decided(Aging, next)
    {
      hide Shape, Schedule, TakenOut, FirstMax, Keys, Candidates, BoostFirst, NoDup;
      next := null;
      ScheduleCases(Aging, model);
      Requeue();
      assert |readyqueue| == |Candidates(model)|;
      if readyqueue != [] {
        ghost var st := Queued(model);
        var k := AgeReady(st);
        ghost var aged := st.(procs := BoostFirst(st.procs, st.ready, |st.ready|));
        next := readyqueue[k];
        AgingTakes(model, k);
        ResetPrio(aged, st.ready[k], next);
        var _ := Detach(aged.(procs := aged.procs[st.ready[k] := aged.procs[st.ready[k]].(prio := aged.procs[st.ready[k]].prioOrig)]), k);
      }
    }

    /** Drops a process back to its original priority. */
    method ResetPrio(ghost st: State, ghost i: nat, p: Process)
      requires Coupled(st, current) && i < |procs| == |st.procs| && p == procs[i]
      modifies p
      ensures Coupled(st.(procs := st.procs[i := st.procs[i].(prio := st.procs[i].prioOrig)]), current)
    {
      p.prio := p.prioOrig;
    }

    // ----- The policy's callbacks -----

    method CallSchedule() returns (next: Process?)
      requires Valid() && NoDup(Candidates(model))
      modifies `readyqueue, procs
      ensures Decided(policy, next)
    {
      hide Schedule, Coupled, Shape;
      match policy {
        case Fcfs => next := FcfsSchedule();
        case Sjf => next := SjfSchedule();
        case Stcf => next := StcfSchedule();
        case Rr => next := RrSchedule();
        case Prio => next := PrioSchedule();
        case Aging => next := PaSchedule();
        case Ceiling => next := PrioSchedule();
        case Inheritance => next := PrioSchedule();
      }
    }

    method CallAcquire(rid: nat) returns (ok: bool)
      requires Valid() && current != null && rid < NR_RESOURCES
      modifies `model, procs, resources
      ensures Valid() && (model, ok) == Acquire(policy, old(model), rid)
    {
      SameAcquire(policy, model, rid);
      hide Acquire, Coupled, Shape;
      match policy {
        case Ceiling => ok := PcpAcquire(rid);
        case Inheritance => ok := PipAcquire(rid);
        case _ => ok := FcfsAcquire(rid);
      }
    }

    method CallRelease(rid: nat)
      requires Valid() && current != null && rid < NR_RESOURCES
      requires resources[rid].owner == current
      requires forall k :: 0 <= k < |resources[rid].waitqueue| ==> resources[rid].waitqueue[k].status == Blocked
      modifies `model, `readyqueue, procs, resources
      ensures Valid() && model == Release(policy, old(model), rid)
    {
      SameRelease(policy, model, rid);
      hide Release, Coupled, Shape;
      match policy {
        case Ceiling => PcpRelease(rid);
        case Inheritance => PipRelease(rid);
        case Prio => PrioRelease(rid);
        case Aging => PrioRelease(rid);
        case _ => FcfsRelease(rid);
      }
    }

    // ----- The framework -----

    /** Moves one process from the fork queue to the tail of the ready queue. */
    method ForkOne(k: nat)
      requires Valid() && k < |forkqueue|
      modifies `forkqueue, `readyqueue, `model, procs
      ensures k < |old(model).fork| && Valid() && model == ForkedOne(old(model), k)
    {
      ForkedShape(model, k);
      hide Shape;
      var p := forkqueue[k];
      model := ForkedOne(model, k);
      forkqueue := RemoveAt(forkqueue, k);
      readyqueue := readyqueue + [p];
      p.status := Ready;
    }

    method ForkOnSchedule()
      requires Valid()
      modifies `forkqueue, `readyqueue, `model, procs
      ensures Valid() && model == ForkFrom(old(model), 0)
    {
      var k := 0;
      while k < |forkqueue|
        invariant Valid() && ForkFrom(old(model), 0) == ForkFrom(model, k)
        decreases |forkqueue| - k
      {
        ForkUnfolds(model, k);
        ForkFields(k);
        hide Coupled, Shape, ForkFrom, ForkedOne;
        if forkqueue[k].startsAt <= ticks {
          ghost var n := |forkqueue|;
          ForkOne(k);
          ForkSize();
        } else {
          k := k + 1;
        }
      }
      ForkDone(k);
    }

    lemma ForkFields(k: nat)
      requires Valid() && k < |forkqueue|
      ensures |forkqueue| == |model.fork| && model.fork[k] < |model.procs| && ticks == model.ticks
      ensures forkqueue[k].startsAt == model.procs[model.fork[k]].start
      ensures |ForkedOne(model, k).fork| == |model.fork| - 1
    {
      hide Shape;
    }

    lemma ForkSize()
      requires Valid()
      ensures |forkqueue| == |model.fork|
    {
    }

    lemma ForkDone(k: nat)
      requires Valid() && k >= |forkqueue|
      ensures ForkFrom(model, k) == model
    {
    }

    lemma CurrentIs()
      requires Valid() && current != null
      ensures model.cur.Some? && model.cur.value < |model.procs| && current.Value() == model.procs[model.cur.value]
      ensures current in procs
    {
      hide Shape;
    }

    /** Moves the k-th request of the current process from its pending to its holding list. */
    method MoveRequest(k: nat)
      requires Valid() && current != null && k < |current.toAcquire|
      modifies `model, procs
      ensures |old(model).procs| > 0 && Valid() && Moved(old(model), k, model)
    {
      CurrentIs();
      MovedShape(model, k);
      hide Shape;
      model := model.(procs := model.procs[model.cur.value := MovePending(model.procs[model.cur.value], k)]);
      var rs := current.toAcquire[k];
      current.toAcquire := RemoveAt(current.toAcquire, k);
      current.holding := current.holding + [rs];
    }

    method RunCurrentAcquire() returns (ok: bool)
      requires Valid() && current != null
      modifies `model, procs, resources
      ensures Valid() && (model, ok) == AcquireFrom(policy, old(model), 0)
    {
      var k := 0;
      CurrentIs();
      while k < |current.toAcquire|
        invariant Valid() && model.cur.Some? && AcquireFrom(policy, old(model), 0) == AcquireFrom(policy, model, k)
        decreases |current.toAcquire| - k
      {
        CurrentIs();
        AcquireUnfolds(policy, model, k);
        hide Coupled, Shape, AcquireFrom, Acquire;
        var rs := current.toAcquire[k];
        if rs.at == current.age {
          ghost var before := current.toAcquire;
          ok := CallAcquire(rs.rid);
          CurrentIs();
          if !ok {
            return;
          }
          assert current.toAcquire == before;
          MoveRequest(k);
          CurrentIs();
        } else {
          k := k + 1;
        }
      }
      CurrentIs();
      ok := true;
    }

    /** Replaces the holding list of the current process. */
    method SetCurrentHolding(h: seq<Request>)
      requires Valid() && current != null && forall j :: 0 <= j < |h| ==> h[j].rid < NR_RESOURCES
      modifies `model, procs
      ensures Shape(old(model)) && old(model).cur.Some? && Valid() && model == SetHolding(old(model), h)
      ensures current.holding == h
    {
      CurrentIs();
      ghost var m := SetHolding(model, h);
      hide Shape;
      model := m;
      current.holding := h;
    }

    /** The assertions of the release callbacks hold for the request at position k. */
    lemma ReleaseAllowed(plan: seq<Proc>, k: nat)
      requires Valid() && current != null && Releasing(plan, model, k) && k < |current.holding|
      ensures current.holding[k].dur >= 1 && current.holding[k].rid < NR_RESOURCES
      ensures resources[current.holding[k].rid].owner == current
      ensures forall j :: 0 <= j < |resources[current.holding[k].rid].waitqueue| ==>
        resources[current.holding[k].rid].waitqueue[j].status == Blocked
    {
      CurrentIs();
      HeldIsOwned(plan, model, k);
      var rid := current.holding[k].rid;
      assert ResourceHas(rid, model.owner[rid], model.wait[rid]);
      WaitingAreBlocked(plan, model, k, rid);
      hide Releasing, Shape;
    }

    lemma WaitersStillBlocked(plan: seq<Proc>, m: State, k: nat, h: seq<Request>, rid: nat)
      requires Releasing(plan, m, k) && rid < NR_RESOURCES && forall j :: 0 <= j < |h| ==> h[j].rid < NR_RESOURCES
      requires Valid() && Shape(m) && m.cur.Some? && model == SetHolding(m, h)
      ensures forall j :: 0 <= j < |resources[rid].waitqueue| ==> resources[rid].waitqueue[j].status == Blocked
    {
      WaitingAreBlocked(plan, m, k, rid);
      hide Releasing;
      assert ResourceHas(rid, model.owner[rid], model.wait[rid]);
    }

    /** The body of the release loop. */
    method ReleaseEntry(ghost plan: seq<Proc>, k: nat) returns (next: nat)
      requires Valid() && current != null && Releasing(plan, model, k) && k < |current.holding|
      modifies `model, `readyqueue, procs, resources
      ensures Valid() && Stepped(policy, old(model), k, model, next)
    {
      CurrentIs();
      ReleaseAllowed(plan, k);
      StepIs(policy, plan, model, k);
      ghost var m := model;
      hide Coupled, Shape, Release, Releasing, SetHolding, Stepped;
      var h := current.holding;
      var rs := h[k].(dur := Decrement(h[k].dur));
      var aged := h[k := rs];
      SetCurrentHolding(aged);
      CurrentIs();
      if rs.dur != 0 {
        return k + 1;
      }
      assert resources[rs.rid].owner == current;
      WaitersStillBlocked(plan, m, k, aged, rs.rid);
      CallRelease(rs.rid);
      CurrentIs();
      SetCurrentHolding(RemoveAt(aged, k));
      return k;
    }

    method RunCurrentRelease(ghost plan: seq<Proc>)
      requires Valid() && current != null && Releasing(plan, model, 0)
      modifies `model, `readyqueue, procs, resources
      ensures Valid() && model == ReleaseFrom(policy, old(model), 0)
    {
      hide Coupled, Shape, ReleaseFrom, Releasing, Stepped;
      WalkStarts(policy, plan, model);
      ghost var start := model;
      var k: nat := 0;
      CurrentIs();
      while k < |current.holding|
        invariant Valid() && Walking(policy, plan, start, model, k)
        invariant model.cur.Some? && model.cur.value < |model.procs| && current.Value() == model.procs[model.cur.value]
        decreases |current.holding| - k
      {
        ghost var m: State, i: nat := model, k;
        WalkIsReleasing(policy, plan, start, m, i);
        k := ReleaseEntry(plan, k);
        WalkGoesOn(policy, plan, start, m, i, model, k);
        CurrentIs();
      }
      WalkEnds(policy, plan, start, model, k);
    }

    // ----- The loop -----

    /** The process is linked into no queue. */
    ghost predicate Detached(p: Process)
      reads this, resources
    {
      p !in readyqueue && p !in forkqueue && forall r :: 0 <= r < |resources| ==> p !in resources[r].waitqueue
    }

    lemma DetachedProcess(i: nat)
      requires Valid() && i < |procs| && Unqueued(model, i)
      ensures Detached(procs[i])
    {
      hide Shape;
      assert forall j :: 0 <= j < |procs| && procs[j] == procs[i] ==> j == i;
      forall r | 0 <= r < |resources| ensures procs[i] !in resources[r].waitqueue {
        assert ResourceHas(r, model.owner[r], model.wait[r]);
      }
    }

    /** What the simulator asserts before it frees a process. */
    method ExitProcess(p: Process)
      requires Detached(p)
      requires p.holding == []
      requires p.toAcquire == []
    {
    }

    /** Status update of the process that ran in the previous tick. */
    method RetirePrevious(prev: Process?, ghost i: Option<nat>)
      requires Valid() && Named(prev, i)
      requires prev != null && prev.age == prev.lifespan ==>
        Detached(prev) && prev.holding == [] && prev.toAcquire == []
      modifies `model, procs
      ensures Shape(old(model)) && (i.Some? ==> i.value < |old(model).procs|)
      ensures Valid() && model == Retire(old(model), i)
    {
      ghost var m := Retire(model, i);
      assert prev != null ==> prev.Value() == model.procs[i.value];
      hide Shape;
      model := m;
      if prev != null {
        if prev.status == Running {
          prev.status := Ready;
        }
        if prev.age == prev.lifespan {
          prev.status := Exited;
          ExitProcess(prev);
        }
      }
    }

    method StartCurrent()
      requires Valid()
      modifies `model, procs
      ensures Shape(old(model)) && Valid() && model == Start(old(model))
    {
      ghost var m := Start(model);
      hide Shape;
      model := m;
      if current != null {
        current.status := Running;
      }
    }

    method AgeProcess()
      requires Valid() && current != null
      modifies `model, procs
      ensures Shape(old(model)) && old(model).cur.Some? && Valid() && model == AgeCurrent(old(model))
    {
      ghost var m := AgeCurrent(model);
      hide Shape;
      model := m;
      current.age := current.age + 1;
    }

    /** Installs the policy's choice as the current process. */
    method SwitchTo(next: Process?)
      requires Shape(model) && Decided(policy, next)
      modifies `model, `current
      ensures Shape(old(model)) && Valid() && model == Schedule(policy, old(model))
      ensures current == next
    {
      ghost var m := Schedule(policy, model);
      model := m;
      current := next;
    }

    lemma CurrentNamed()
      requires Valid()
      ensures Shape(model) && Named(current, model.cur)
    {
      hide Shape;
    }

    /** The assertions made on exit hold for the previous process whenever it is done. */
    lemma ExitAllowed(plan: seq<Proc>, f: State, prev: Process?)
      requires Settled(plan, f) && Valid() && model == Schedule(policy, f) && Named(prev, f.cur)
      ensures prev != null && prev.age == prev.lifespan ==>
        Detached(prev) && prev.holding == [] && prev.toAcquire == []
    {
      if prev != null {
        var i := f.cur.value;
        assert prev.Value() == model.procs[i];
        ScheduleKeepsWork(policy, f, i);
        if prev.age == prev.lifespan {
          ExitFacts(policy, plan, f);
          hide Settled, Coupled, Schedule, Detached, Unqueued;
          DetachedProcess(i);
        }
      }
    }

    /** The scheduling half of an iteration: fork, pick, retire the previous process, start the next one. */
    method PickNext(ghost plan: seq<Proc>)
      requires Valid() && Inv(plan, model)
      modifies this, procs
      ensures Shape(old(model)) && Valid() && model == Chosen(policy, old(model))
    {
      hide Inv, Shape, Schedule, ForkFrom, Coupled, Retire, Start, Chosen, Named, Settled;
      InvShape(plan, model);
      ghost var m := model;
      ForkOnSchedule();
      ForkedSettled(plan, m);
      ghost var f := model;
      CurrentNamed();
      var prev := current;
      var next := CallSchedule();
      SwitchTo(next);
      ExitAllowed(plan, f, prev);
      RetirePrevious(prev, f.cur);
      StartCurrent();
      ChosenSteps(policy, m);
    }

    /** The running half of an iteration. */
    method RunTick(ghost plan: seq<Proc>)
      requires Valid() && current != null && Launched(plan, model)
      modifies this, procs, resources
      ensures Shape(old(model)) && old(model).cur.Some? && Valid() && model == Execute(policy, old(model))
    {
      CurrentIs();
      LaunchedShape(plan, model);
      hide Coupled, Launched, Shape, Execute, AcquireFrom, AgeCurrent, ReleaseFrom, Releasing;
      ghost var m := model;
      WalkFacts(policy, plan, m);
      var ok := RunCurrentAcquire();
      if ok {
        AgeProcess();
        RunCurrentRelease(plan);
      }
    }

    /** The simulation: iterates until nothing runs, nothing is ready and nothing is left to fork. */
    method DoSimulation(ghost plan: seq<Proc>)
      requires Valid() && Inv(plan, model)
      modifies this, procs, resources
      ensures Inv(plan, old(model)) && Valid() && model == Run(policy, plan, old(model))
    {
      hide Inv, Coupled, Shape, Launched, Run, Chosen, Tick, Execute, TotalLeft, ForkTicksLeft, RunnableCount;
      InvShape(plan, model);
      while true
        invariant Valid() && Shape(model) && Inv(plan, model) && Run(policy, plan, model) == Run(policy, plan, old(model))
        decreases TotalLeft(model.procs), ForkTicksLeft(plan, model.ticks), RunnableCount(model)
      {
        ghost var m := model;
        IterationFacts(policy, plan, m);
        TickUnfolds(policy, m);
        PickNext(plan);
        HaltFields();
        if current == null {
          if readyqueue == [] && forkqueue == [] {
            break;
          }
        } else {
          assert Detached(current) by {
            RunnerDetached(plan);
          }
          RunTick(plan);
        }
        NextTick();
      }
    }

    method NextTick()
      requires Valid()
      modifies `ticks, `model
      ensures Valid() && model == old(model).(ticks := old(model).ticks + 1)
    {
      hide Shape;
      NextTickShape(model);
      model := model.(ticks := model.ticks + 1);
      ticks := ticks + 1;
    }

    lemma HaltFields()
      requires Valid()
      ensures Shape(model) && (current == null <==> model.cur.None?)
      ensures |readyqueue| == |model.ready| && |forkqueue| == |model.fork|
    {
      hide Shape;
    }

    lemma RunnerDetached(plan: seq<Proc>)
      requires Valid() && current != null && Launched(plan, model)
      ensures Detached(current)
    {
      RunnerUnqueued(plan, model);
      hide Launched, Unqueued, Detached, Shape;
      DetachedProcess(model.cur.value);
    }
  }

  /** A whole simulation of a script. */
  method Simulate(pol: Policy, plan: seq<Proc>) returns (sim: Simulation)
    requires WellFormed(plan)
    ensures Inv(plan, Initial(plan)) && sim.Valid() && sim.model == Run(pol, plan, Initial(plan))
  {
    InitialInv(plan);
    sim := new Simulation(pol, plan);
    hide Inv, Run, Shape, Initial;
    sim.DoSimulation(plan);
  }

  function Disowned(s: State, r: nat): State
    requires r < |s.owner|
  {
    s.(owner := s.owner[r := None])
  }

  lemma DisownedShape(s: State, r: nat)
    requires Shape(s) && r < NR_RESOURCES
    ensures Shape(Disowned(s, r))
  {
  }

  function Restored(s: State): State
    requires s.cur.Some? && s.cur.value < |s.procs|
  {
    s.(procs := s.procs[s.cur.value := s.procs[s.cur.value].(prio := s.procs[s.cur.value].prioOrig)])
  }

  lemma RestoredShape(s: State)
    requires Shape(s) && s.cur.Some?
    ensures Shape(Restored(s))
  {
  }

  /** The other release callbacks wake the first waiter of highest priority. */
  lemma ReleaseBest(pol: Policy, s: State, r: nat)
    requires Shape(s) && s.cur.Some? && r < NR_RESOURCES && WakesHighest(pol)
    ensures var p := if pol == Ceiling || pol == Inheritance then Restored(s) else s;
      var u := Disowned(p, r);
      Shape(u) && u.wait == s.wait && Release(pol, s, r) ==
        if s.wait[r] == [] then u else Woken(u, r, FirstMax(Keys(Prio, u.procs, u.wait[r])))
  {
    RestoredShape(s);
    DisownedShape(s, r);
    DisownedShape(Restored(s), r);
    hide FirstMax, RemoveAt;
  }

  lemma WaitingShape(s: State, r: nat)
    requires Shape(s) && s.cur.Some? && r < NR_RESOURCES
    ensures Shape(Waiting(s, r))
  {
  }

  /** The owner of r inherits the current process's priority if that is higher. */
  function Raised(s: State, r: nat): State
    requires Shape(s) && s.cur.Some? && r < NR_RESOURCES && s.owner[r].Some?
  {
    var o := s.owner[r].value;
    s.(procs := if s.procs[o].prio < s.procs[s.cur.value].prio
                then s.procs[o := s.procs[o].(prio := s.procs[s.cur.value].prio)] else s.procs)
  }

  lemma RaisedShape(s: State, r: nat)
    requires Shape(s) && s.cur.Some? && r < NR_RESOURCES && s.owner[r].Some?
    ensures Shape(Raised(s, r))
  {
  }

  lemma AcquireRaises(s: State, r: nat)
    requires Shape(s) && s.cur.Some? && r < NR_RESOURCES && s.owner[r].Some?
    ensures Acquire(Inheritance, s, r) == (Waiting(Raised(s, r), r), false)
  {
    RaisedShape(s, r);
  }

  /** fcfs_release wakes the first waiter. */
  lemma ReleaseFirst(pol: Policy, s: State, r: nat)
    requires Shape(s) && s.cur.Some? && r < NR_RESOURCES && !WakesHighest(pol)
    ensures var u := Disowned(s, r);
      Shape(u) && u.wait == s.wait && Release(pol, s, r) == if s.wait[r] == [] then u else Woken(u, r, 0)
  {
    DisownedShape(s, r);
    if s.wait[r] != [] {
      var keys := Keys(Fcfs, s.procs, s.wait[r]);
      assert keys[0] == keys[FirstMax(keys)];
    }
  }

  // ----- Scheduling -----

  function Queued(s: State): State
    requires s.cur.Some? ==> s.cur.value < |s.procs|
  {
    s.(ready := Candidates(s))
  }

  lemma QueuedShape(s: State)
    requires Shape(s)
    ensures Shape(Queued(s))
  {
  }

  function TakenOut(s: State, k: nat): State
    requires k < |s.ready|
  {
    s.(ready := RemoveAt(s.ready, k), cur := Some(s.ready[k]))
  }

  /** The branches of a schedule callback. */
  lemma ScheduleCases(pol: Policy, s: State)
    requires Shape(s)
    ensures Runnable(s) && !Preemptive(pol) ==> Schedule(pol, s) == s
    ensures !Runnable(s) ==> Queued(s) == s
    ensures !(Runnable(s) && !Preemptive(pol)) && Candidates(s) == [] ==> Schedule(pol, s) == Queued(s).(cur := None)
    ensures forall j :: 0 <= j < |Candidates(s)| ==> Candidates(s)[j] < |s.procs|
    ensures !(Runnable(s) && !Preemptive(pol)) && Candidates(s) != [] && pol != Aging ==>
      Schedule(pol, s) == TakenOut(Queued(s), FirstMax(Keys(pol, s.procs, Candidates(s))))
  {
    hide FirstMax, RemoveAt;
  }

  lemma EqualKeys(pol: Policy, procs: seq<Proc>, q: seq<nat>)
    requires (pol == Fcfs || pol == Rr) && |q| > 0 && forall k :: 0 <= k < |q| ==> q[k] < |procs|
    ensures FirstMax(Keys(pol, procs, q)) == 0
  {
    var keys := Keys(pol, procs, q);
    var k := FirstMax(keys);
    hide FirstMax;
    assert keys[0] == 0 && keys[k] == 0;
  }

  /** Plain priority, ceiling and inheritance choose alike. */
  lemma SamePrioSchedule(s: State)
    requires Shape(s)
    ensures Schedule(Ceiling, s) == Schedule(Prio, s) && Schedule(Inheritance, s) == Schedule(Prio, s)
  {
    hide FirstMax, RemoveAt, Boost;
    var q := Candidates(s);
    assert Keys(Ceiling, s.procs, q) == Keys(Prio, s.procs, q) == Keys(Inheritance, s.procs, q);
    hide Keys, Shape, Candidates;
  }

  /** The aging decision in the order the scan takes it: boost everybody, drop the choice back, unlink it. */
  lemma AgingTakes(s: State, k: nat)
    requires Shape(s) && Candidates(s) != [] && k == FirstMax(Keys(Aging, s.procs, Candidates(s)))
    ensures var st := Queued(s);
      var boosted := BoostFirst(st.procs, st.ready, |st.ready|);
      var c := st.ready[k];
      c < |s.procs| && Schedule(Aging, s) == TakenOut(st.(procs := boosted[c := boosted[c].(prio := boosted[c].prioOrig)]), k)
  {
    var q := Candidates(s);
    BoostAll(s.procs, q, q[k]);
    hide Keys, FirstMax, RemoveAt;
  }

  /** The boost given to the first i candidates. */
  function BoostFirst(procs: seq<Proc>, q: seq<nat>, i: nat): (r: seq<Proc>)
    requires i <= |q|
    ensures |r| == |procs|
  {
    seq(|procs|, x requires 0 <= x < |procs| => if x in q[..i] then procs[x].(prio := procs[x].prio + 1) else procs[x])
  }

  lemma BoostNone(procs: seq<Proc>, q: seq<nat>)
    ensures BoostFirst(procs, q, 0) == procs
  {
  }

  lemma BoostNext(procs: seq<Proc>, q: seq<nat>, i: nat)
    requires i < |q| && NoDup(q) && q[i] < |procs|
    ensures BoostFirst(procs, q, i)[q[i]] == procs[q[i]]
    ensures BoostFirst(procs, q, i + 1) == BoostFirst(procs, q, i)[q[i] := procs[q[i]].(prio := procs[q[i]].prio + 1)]
  {
    assert q[..i + 1] == q[..i] + [q[i]];
    assert q[i] !in q[..i];
  }

  lemma BoostAt(procs: seq<Proc>, q: seq<nat>, i: nat, k: nat)
    requires k < |q| && i <= |q| && NoDup(q) && q[k] < |procs|
    ensures BoostFirst(procs, q, i)[q[k]].prio == procs[q[k]].prio + if k < i then 1 else 0
  {
    if k < i {
      assert q[..i][k] == q[k];
    }
  }

  lemma BoostAll(procs: seq<Proc>, q: seq<nat>, c: nat)
    requires c < |procs|
    ensures Boost(procs, q, c) == BoostFirst(procs, q, |q|)[c := procs[c].(prio := procs[c].prioOrig)]
  {
    assert q[..|q|] == q;
  }

  // ----- Callbacks shared by several policies -----

  lemma SameAcquire(pol: Policy, s: State, r: nat)
    requires Shape(s) && s.cur.Some? && r < NR_RESOURCES
    ensures pol != Ceiling && pol != Inheritance ==> Acquire(pol, s, r) == Acquire(Fcfs, s, r)
  {
  }

  lemma SameRelease(pol: Policy, s: State, r: nat)
    requires Shape(s) && s.cur.Some? && r < NR_RESOURCES
    ensures pol == Sjf || pol == Stcf || pol == Rr ==> Release(pol, s, r) == Release(Fcfs, s, r)
    ensures pol == Aging ==> Release(pol, s, r) == Release(Prio, s, r)
  {
    hide FirstMax, RemoveAt;
  }

  // ----- Forking -----

  function ForkedOne(s: State, k: nat): State
    requires k < |s.fork| && s.fork[k] < |s.procs|
  {
    var i := s.fork[k];
    s.(fork := RemoveAt(s.fork, k), ready := s.ready + [i], procs := s.procs[i := s.procs[i].(status := Ready)])
  }

  lemma ForkedShape(s: State, k: nat)
    requires Shape(s) && k < |s.fork|
    ensures s.fork[k] < |s.procs| && Shape(ForkedOne(s, k))
  {
  }

  lemma ForkUnfolds(s: State, k: nat)
    requires Shape(s) && k < |s.fork|
    ensures s.fork[k] < |s.procs| && Shape(ForkedOne(s, k))
    ensures ForkFrom(s, k) == if s.procs[s.fork[k]].start <= s.ticks then ForkFrom(ForkedOne(s, k), k) else ForkFrom(s, k + 1)
  {
    ForkedShape(s, k);
  }

  // ----- Acquiring -----

  ghost predicate Moved(s: State, k: nat, t: State) {
    && s.cur.Some? && s.cur.value < |s.procs| && k < |s.procs[s.cur.value].pending|
    && t == s.(procs := s.procs[s.cur.value := MovePending(s.procs[s.cur.value], k)])
  }

  lemma MovedShape(s: State, k: nat)
    requires Shape(s) && s.cur.Some? && k < |s.procs[s.cur.value].pending|
    ensures Shape(s.(procs := s.procs[s.cur.value := MovePending(s.procs[s.cur.value], k)]))
  {
  }

  lemma AcquireUnfolds(pol: Policy, s: State, k: nat)
    requires Shape(s) && s.cur.Some? && k < |s.procs[s.cur.value].pending|
    ensures s.procs[s.cur.value].pending[k].rid < NR_RESOURCES
    ensures var p := s.procs[s.cur.value];
      var (t, ok) := Acquire(pol, s, p.pending[k].rid);
      && |t.procs| == |s.procs| && t.cur == s.cur
      && AcquireFrom(pol, s, k) ==
        if p.pending[k].at != p.age then AcquireFrom(pol, s, k + 1)
        else if !ok then (t, false)
        else AcquireFrom(pol, t.(procs := t.procs[s.cur.value := MovePending(t.procs[s.cur.value], k)]), k)
  {
    hide Acquire;
  }

  // ----- Releasing -----

  lemma WaitingAreBlocked(plan: seq<Proc>, s: State, k: nat, r: nat)
    requires Releasing(plan, s, k) && r < NR_RESOURCES
    ensures forall j :: 0 <= j < |s.wait[r]| ==> s.wait[r][j] < |s.procs| && s.procs[s.wait[r][j]].status == Blocked
  {
    hide Locals, Owners, Wants, NoDup;
    forall j | 0 <= j < |s.wait[r]| ensures s.wait[r][j] < |s.procs| && s.procs[s.wait[r][j]].status == Blocked {
      assert s.wait[r][j] in s.wait[r];
    }
  }

  /** The holding list once its k-th entry has been aged. */
  function AgedAt(s: State, k: nat): (h: seq<Request>)
    requires Shape(s) && s.cur.Some? && k < |s.procs[s.cur.value].holding|
    ensures |h| == |s.procs[s.cur.value].holding| && forall j :: 0 <= j < |h| ==> h[j].rid < NR_RESOURCES
  {
    HoldingRids(s);
    var h := s.procs[s.cur.value].holding;
    h[k := h[k].(dur := Decrement(h[k].dur))]
  }

  /** One step of the release walk: the state it leads to and the position it goes on at. */
  function ReleaseStep(pol: Policy, s: State, k: nat): (r: (State, nat))
    requires Shape(s) && s.cur.Some? && k < |s.procs[s.cur.value].holding|
    ensures Shape(r.0) && r.0.cur == s.cur && |r.0.procs| == |s.procs|
  {
    var aged := AgedAt(s, k);
    if aged[k].dur != 0 then (SetHolding(s, aged), k + 1)
    else
      RemovedRids(aged, k);
      (SetHolding(Release(pol, SetHolding(s, aged), aged[k].rid), RemoveAt(aged, k)), k)
  }

  lemma ReleaseUnfolds(pol: Policy, s: State, k: nat)
    requires Shape(s) && s.cur.Some? && k < |s.procs[s.cur.value].holding|
    ensures ReleaseFrom(pol, s, k) == ReleaseFrom(pol, ReleaseStep(pol, s, k).0, ReleaseStep(pol, s, k).1)
  {
    hide Release, RemoveAt, Shape;
  }

  lemma HoldingRids(s: State)
    requires Shape(s) && s.cur.Some?
    ensures forall j :: 0 <= j < |s.procs[s.cur.value].holding| ==> s.procs[s.cur.value].holding[j].rid < NR_RESOURCES
  {
  }

  lemma ReleaseKeeps(pol: Policy, plan: seq<Proc>, s: State, k: nat)
    requires Releasing(plan, s, k) && k < |s.procs[s.cur.value].holding|
    ensures Shape(s) && Releasing(plan, ReleaseStep(pol, s, k).0, ReleaseStep(pol, s, k).1)
  {
    hide Locals, Owners, Queues, Placed, NoLostWakeup, WellFormed, Release, RemoveAt;
    HeldIsOwned(plan, s, k);
    if s.procs[s.cur.value].holding[k].dur > 1 {
      TickDownKeeps(plan, s, k);
    } else {
      GiveBackKeeps(pol, plan, s, k);
    }
  }

  ghost predicate Stepped(pol: Policy, s: State, k: nat, t: State, next: nat) {
    && Shape(s) && s.cur.Some? && s.cur.value < |s.procs| && k < |s.procs[s.cur.value].holding|
    && (t, next) == ReleaseStep(pol, s, k)
  }

  /** The two outcomes of a step, in the order the loop body computes them. */
  lemma StepIs(pol: Policy, plan: seq<Proc>, s: State, k: nat)
    requires Releasing(plan, s, k) && k < |s.procs[s.cur.value].holding|
    ensures Shape(s)
    ensures var h := s.procs[s.cur.value].holding;
      var aged := h[k := h[k].(dur := Decrement(h[k].dur))];
      && (forall j :: 0 <= j < |aged| ==> aged[j].rid < NR_RESOURCES)
      && (forall j :: 0 <= j < |RemoveAt(aged, k)| ==> RemoveAt(aged, k)[j].rid < NR_RESOURCES)
      && if aged[k].dur != 0 then Stepped(pol, s, k, SetHolding(s, aged), k + 1)
         else Stepped(pol, s, k, SetHolding(Release(pol, SetHolding(s, aged), aged[k].rid), RemoveAt(aged, k)), k)
  {
    hide Locals, Owners, Queues, Placed, NoLostWakeup, WellFormed, Release;
    var aged := AgedAt(s, k);
    RemovedRids(aged, k);
  }

  /** Position k of the release walk that started in `start`. */
  ghost predicate Walking(pol: Policy, plan: seq<Proc>, start: State, s: State, k: nat) {
    && Shape(start) && Shape(s) && start.cur.Some? && s.cur.Some? && Releasing(plan, s, k)
    && ReleaseFrom(pol, start, 0) == ReleaseFrom(pol, s, k)
  }

  lemma WalkStarts(pol: Policy, plan: seq<Proc>, s: State)
    requires Releasing(plan, s, 0)
    ensures Walking(pol, plan, s, s, 0)
  {
    hide Locals, Owners, Queues, Placed, NoLostWakeup, WellFormed, ReleaseFrom, Shape;
  }

  lemma WalkIsReleasing(pol: Policy, plan: seq<Proc>, start: State, s: State, k: nat)
    requires Walking(pol, plan, start, s, k)
    ensures Releasing(plan, s, k)
  {
  }

  lemma WalkGoesOn(pol: Policy, plan: seq<Proc>, start: State, s: State, k: nat, t: State, next: nat)
    requires Walking(pol, plan, start, s, k) && Stepped(pol, s, k, t, next)
    ensures Walking(pol, plan, start, t, next)
    ensures t.cur.Some? && t.cur.value < |t.procs| && s.cur.value < |s.procs|
    ensures |t.procs[t.cur.value].holding| - next < |s.procs[s.cur.value].holding| - k
  {
    ReleaseUnfolds(pol, s, k);
    ReleaseKeeps(pol, plan, s, k);
    StepShortens(pol, s, k);
    hide Releasing, ReleaseFrom, ReleaseStep;
  }

  lemma StepShortens(pol: Policy, s: State, k: nat)
    requires Shape(s) && s.cur.Some? && k < |s.procs[s.cur.value].holding|
    ensures var (t, next) := ReleaseStep(pol, s, k);
      t.cur.value < |t.procs| && |t.procs[t.cur.value].holding| - next < |s.procs[s.cur.value].holding| - k
  {
    hide Release;
    assert s.cur.value < |s.procs|;
  }

  lemma WalkEnds(pol: Policy, plan: seq<Proc>, start: State, s: State, k: nat)
    requires Walking(pol, plan, start, s, k) && s.cur.value < |s.procs| && k >= |s.procs[s.cur.value].holding|
    ensures Shape(start) && start.cur.Some? && s == ReleaseFrom(pol, start, 0)
  {
    hide Releasing;
  }

  // ----- The loop -----

  ghost predicate Unqueued(s: State, i: nat) {
    i !in s.ready && i !in s.fork && forall r :: 0 <= r < |s.wait| ==> i !in s.wait[r]
  }

  lemma NextTickShape(s: State)
    requires Shape(s)
    ensures Shape(s.(ticks := s.ticks + 1))
  {
  }

  lemma ForkedSettled(plan: seq<Proc>, m: State)
    requires Inv(plan, m) && Shape(m)
    ensures Settled(plan, ForkFrom(m, 0)) && NoDup(Candidates(ForkFrom(m, 0)))
  {
    ForkFromKeeps(plan, m, 0);
    hide Locals, Queues, Placed, Owners, NoLostWakeup, ForkFrom;
    CandidateFacts(plan, ForkFrom(m, 0));
  }

  lemma ChosenSteps(pol: Policy, s: State)
    requires Shape(s)
    ensures var f := ForkFrom(s, 0);
      Chosen(pol, s) == Start(Retire(Schedule(pol, f), f.cur))
  {
    hide ForkFrom, Schedule, Retire, Start, Shape;
  }

  /** A scheduling decision touches no process's age or requests. */
  lemma ScheduleKeepsWork(pol: Policy, f: State, i: nat)
    requires Shape(f) && i < |f.procs|
    ensures var u := Schedule(pol, f);
      |u.procs| == |f.procs| && u.procs[i] == f.procs[i].(prio := u.procs[i].prio)
  {
    ScheduleMeetsContract(pol, f);
    hide Schedule;
  }

  /** Whoever still has something pending or held has lifetime left. */
  lemma WorkMeansLife(p0: Proc, p: Proc)
    requires LocalInv(p0, p, |p.holding|) && WellFormedProc(p0)
    ensures p.pending != [] || p.holding != [] ==> p.age < p.lifespan
  {
    hide Accounted;
    if |p.pending| > 0 {
      assert p.pending[0] in p.pending;
    }
    if |p.holding| > 0 {
      assert Origin(Aged(p.holding, |p.holding|)[0], p.age) in p0.pending;
    }
  }

  lemma ExitFacts(pol: Policy, plan: seq<Proc>, f: State)
    requires Settled(plan, f) && f.cur.Some? && f.procs[f.cur.value].age == f.procs[f.cur.value].lifespan
    ensures Unqueued(Schedule(pol, f), f.cur.value)
    ensures f.procs[f.cur.value].pending == [] && f.procs[f.cur.value].holding == []
  {
    hide Locals, Owners, Wants, Schedule, NoDup, Shape, WellFormed, Placed;
    SettledShape(plan, f);
    ExitLocal(plan, f, f.cur.value);
    LaunchFactsHold(plan, f);
    ScheduleQueues(pol, f);
    RetiredUnqueued(plan, f, f.cur.value);
  }

  /** A process at the end of its life is in no queue: not ready, and neither forking nor blocked. */
  lemma RetiredUnqueued(plan: seq<Proc>, f: State, i: nat)
    requires Shape(f) && |plan| == |f.procs| && Queues(plan, f) && LaunchFacts(f) && f.cur == Some(i)
    requires f.procs[i].age == f.procs[i].lifespan && Placed(f)
    ensures i !in f.ready && i !in f.fork && i !in Candidates(f)
    ensures forall r :: 0 <= r < |f.wait| ==> i !in f.wait[r]
  {
    hide Wants, NoDup;
  }

  lemma ExitLocal(plan: seq<Proc>, f: State, i: nat)
    requires Settled(plan, f) && i < |f.procs| && f.procs[i].age == f.procs[i].lifespan
    ensures f.procs[i].pending == [] && f.procs[i].holding == []
  {
    assert LocalInv(plan[i], f.procs[i], |f.procs[i].holding|);
    assert WellFormedProc(plan[i]);
    hide Queues, Owners, Placed;
    WorkMeansLife(plan[i], f.procs[i]);
  }

  lemma ScheduleQueues(pol: Policy, f: State)
    requires Shape(f)
    ensures var u := Schedule(pol, f);
      u.fork == f.fork && u.wait == f.wait && forall i :: i in u.ready ==> i in Candidates(f) || i in f.ready
  {
    hide FirstMax;
  }

  lemma RunnerUnqueued(plan: seq<Proc>, t: State)
    requires Launched(plan, t) && t.cur.Some?
    ensures Unqueued(t, t.cur.value)
  {
    hide Locals, Owners, Wants, NoDup, WakeupUnderWay, WellFormed, InPlace;
    ForkedAreReady(plan, t);
  }

  /** What the loop needs to know of one iteration before it starts. */
  lemma IterationFacts(pol: Policy, plan: seq<Proc>, m: State)
    requires Inv(plan, m)
    ensures Shape(m) && Launched(plan, Chosen(pol, m))
    ensures Halted(Chosen(pol, m)) ==> Run(pol, plan, m) == Chosen(pol, m)
    ensures !Halted(Chosen(pol, m)) ==>
      && Inv(plan, Tick(pol, m)) && MeasureDrops(plan, m, Tick(pol, m))
      && Run(pol, plan, m) == Run(pol, plan, Tick(pol, m))
  {
    hide Chosen, Tick, Inv, Launched, MeasureDrops, Shape;
    InvShape(plan, m);
    ChosenKeeps(pol, plan, m);
    TickKeepsInv(pol, plan, m);
    if !Halted(Chosen(pol, m)) {
      TickDecreases(pol, plan, m);
    }
  }

  lemma LaunchedShape(plan: seq<Proc>, t: State)
    requires Launched(plan, t)
    ensures Shape(t)
  {
  }

  /** What the two walks of a tick need to know before they start. */
  lemma WalkFacts(pol: Policy, plan: seq<Proc>, m: State)
    requires Launched(plan, m) && Shape(m) && m.cur.Some?
    ensures var (t, ok) := AcquireFrom(pol, m, 0);
      && Execute(pol, m) == (if ok then ReleaseFrom(pol, AgeCurrent(t), 0) else t)
      && (ok ==> Releasing(plan, AgeCurrent(t), 0))
  {
    AcquireFromKeeps(pol, plan, m, 0);
    var (t, ok) := AcquireFrom(pol, m, 0);
    hide Locals, Owners, Queues, Placed, NoLostWakeup, WakeupUnderWay, Wants, AcquireFrom, ReleaseFrom, Releasing;
    if ok {
      AgeKeeps(plan, t);
    }
  }
}
