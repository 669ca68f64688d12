/**
 The tick simulator as a state machine over values.  Processes are named by their
 position in `procs`; `ready`, `fork` and `wait[r]` are the simulator's queues.
 Each function follows one function of the simulator, branch by branch.
 */
module SchedModel {
  import opened Seqs

  const NR_RESOURCES: nat := 16
  const MAX_PRIO: nat := 64
  const UINT_MAX: nat := 0xFFFF_FFFF

  datatype Request = Request(rid: nat, at: nat, dur: nat)

  datatype Status = Ready | Running | Blocked | Exited

  datatype Proc = Proc(
    pid: nat, status: Status, age: nat, lifespan: nat, prio: nat, prioOrig: nat, start: nat,
    pending: seq<Request>, holding: seq<Request>)

  datatype Policy = Fcfs | Sjf | Stcf | Rr | Prio | Aging | Ceiling | Inheritance

  datatype State = State(
    procs: seq<Proc>, ready: seq<nat>, fork: seq<nat>, cur: Option<nat>,
    owner: seq<Option<nat>>, wait: seq<seq<nat>>, ticks: nat)

  ghost predicate Below(q: seq<nat>, n: nat) {
    forall k :: 0 <= k < |q| ==> q[k] < n
  }

  /** Every name used in the state denotes a process or a resource. */
  ghost predicate Shape(s: State) {
    && |s.owner| == NR_RESOURCES && |s.wait| == NR_RESOURCES
    && Below(s.ready, |s.procs|) && Below(s.fork, |s.procs|)
    && (s.cur.Some? ==> s.cur.value < |s.procs|)
    && (forall r :: 0 <= r < NR_RESOURCES ==> Below(s.wait[r], |s.procs|))
    && (forall r :: 0 <= r < NR_RESOURCES && s.owner[r].Some? ==> s.owner[r].value < |s.procs|)
    && (forall i, k :: 0 <= i < |s.procs| && 0 <= k < |s.procs[i].pending| ==> s.procs[i].pending[k].rid < NR_RESOURCES)
    && (forall i, k :: 0 <= i < |s.procs| && 0 <= k < |s.procs[i].holding| ==> s.procs[i].holding[k].rid < NR_RESOURCES)
  }

  // ----- Forking -----

  /** The walk over the fork queue from position k on. */
  function ForkFrom(s: State, k: nat): (t: State)
    requires Shape(s)
    ensures Shape(t) && t.cur == s.cur
    decreases |s.fork| - k
  {
    if k >= |s.fork| then s
    else
      var i := s.fork[k];
      if s.procs[i].start <= s.ticks then
        ForkFrom(s.(fork := RemoveAt(s.fork, k), ready := s.ready + [i], procs := s.procs[i := s.procs[i].(status := Ready)]), k)
      else ForkFrom(s, k + 1)
  }

  // ----- Choosing the next process -----

  predicate Preemptive(pol: Policy) {
    pol != Fcfs && pol != Sjf
  }

  /** The current process exists, is not blocked, and has lifetime left. */
  predicate Runnable(s: State)
    requires s.cur.Some? ==> s.cur.value < |s.procs|
  {
    s.cur.Some? && s.procs[s.cur.value].status != Blocked && s.procs[s.cur.value].age < s.procs[s.cur.value].lifespan
  }

  /** What a policy prefers: the larger the key, the earlier the process runs. */
  function Key(pol: Policy, p: Proc): int {
    match pol
    case Fcfs => 0
    case Rr => 0
    case Sjf => 0 - p.lifespan
    case Stcf => p.age - p.lifespan
    case Prio => p.prio
    case Aging => p.prio
    case Ceiling => p.prio
    case Inheritance => p.prio
  }

  function Keys(pol: Policy, procs: seq<Proc>, q: seq<nat>): (keys: seq<int>)
    requires forall k :: 0 <= k < |q| ==> q[k] < |procs|
    ensures |keys| == |q|
  {
    seq(|q|, k requires 0 <= k < |q| => Key(pol, procs[q[k]]))
  }

  /** Aging: every candidate gains one priority, the chosen one falls back to its original priority. */
  function Boost(procs: seq<Proc>, q: seq<nat>, chosen: nat): (r: seq<Proc>)
    ensures |r| == |procs|
  {
    seq(|procs|, i requires 0 <= i < |procs| =>
      if i == chosen then procs[i].(prio := procs[i].prioOrig)
      else if i in q then procs[i].(prio := procs[i].prio + 1)
      else procs[i])
  }

  /** The queue a preemptive policy chooses from. */
  function Candidates(s: State): (q: seq<nat>)
    requires s.cur.Some? ==> s.cur.value < |s.procs|
  {
    if Runnable(s) then s.ready + [s.cur.value] else s.ready
  }

  function Schedule(pol: Policy, s: State): (t: State)
    requires Shape(s)
    ensures Shape(t)
  {
    if Runnable(s) && !Preemptive(pol) then s
    else
      var q := Candidates(s);
      if q == [] then s.(ready := q, cur := None)
      else
        var k := FirstMax(Keys(pol, s.procs, q));
        s.(ready := RemoveAt(q, k), cur := Some(q[k]),
           procs := if pol == Aging then Boost(s.procs, q, q[k]) else s.procs)
  }

  /** Status update of the process that ran in the previous tick, and its exit. */
  function Retire(s: State, prev: Option<nat>): (t: State)
    requires Shape(s) && (prev.Some? ==> prev.value < |s.procs|)
    ensures Shape(t) && t.cur == s.cur
  {
    if prev.None? then s
    else
      var p := s.procs[prev.value];
      var status := if p.status == Running then Ready else p.status;
      s.(procs := s.procs[prev.value := p.(status := if p.age == p.lifespan then Exited else status)])
  }

  /** Marks the current process as the one that runs. */
  function Start(s: State): (t: State)
    requires Shape(s)
    ensures Shape(t) && t.cur == s.cur
  {
    if s.cur.None? then s
    else s.(procs := s.procs[s.cur.value := s.procs[s.cur.value].(status := Running)])
  }

  /** Schedule, retire the previous process, start the chosen one. */
  function Dispatch(pol: Policy, s: State): (t: State)
    requires Shape(s)
    ensures Shape(t)
  {
    Start(Retire(Schedule(pol, s), s.cur))
  }

  // ----- Resources -----

  /** acquire callback: fcfs_acquire, or the ceiling and inheritance variants. */
  function Acquire(pol: Policy, s: State, r: nat): (res: (State, bool))
    requires Shape(s) && s.cur.Some? && r < NR_RESOURCES
    ensures Shape(res.0) && res.0.cur == s.cur
    ensures |res.0.procs| == |s.procs|
    ensures res.0.procs[s.cur.value].pending == s.procs[s.cur.value].pending
  {
    var c := s.cur.value;
    if s.owner[r].None? then
      var procs := if pol == Ceiling then s.procs[c := s.procs[c].(prio := MAX_PRIO)] else s.procs;
      (s.(procs := procs, owner := s.owner[r := Some(c)]), true)
    else
      var o := s.owner[r].value;
      var procs := if pol == Inheritance && s.procs[o].prio < s.procs[c].prio
                   then s.procs[o := s.procs[o].(prio := s.procs[c].prio)] else s.procs;
      (s.(procs := procs[c := procs[c].(status := Blocked)], wait := s.wait[r := s.wait[r] + [c]]), false)
  }

  predicate WakesHighest(pol: Policy) {
    pol == Prio || pol == Aging || pol == Ceiling || pol == Inheritance
  }

  /** Position of the waiter that a release wakes. */
  function WakeIndex(pol: Policy, procs: seq<Proc>, q: seq<nat>): (k: nat)
    requires |q| > 0 && forall k :: 0 <= k < |q| ==> q[k] < |procs|
    ensures k < |q|
  {
    FirstMax(Keys(if WakesHighest(pol) then Prio else Fcfs, procs, q))
  }

  /** release callback: fcfs_release, prio_release, or the ceiling and inheritance variants. */
  function Release(pol: Policy, s: State, r: nat): (t: State)
    requires Shape(s) && s.cur.Some? && r < NR_RESOURCES
    ensures Shape(t) && t.cur == s.cur && |t.procs| == |s.procs|
    ensures t.procs[s.cur.value].holding == s.procs[s.cur.value].holding
  {
    var c := s.cur.value;
    var procs := if pol == Ceiling || pol == Inheritance
                 then s.procs[c := s.procs[c].(prio := s.procs[c].prioOrig)] else s.procs;
    var u := s.(procs := procs, owner := s.owner[r := None]);
    if s.wait[r] == [] then u
    else
      var k := WakeIndex(pol, procs, s.wait[r]);
      var w := s.wait[r][k];
      u.(procs := procs[w := procs[w].(status := Ready)],
         wait := s.wait[r := RemoveAt(s.wait[r], k)], ready := s.ready + [w])
  }

  // ----- One tick of the current process -----

  function MovePending(p: Proc, k: nat): Proc
    requires k < |p.pending|
  {
    p.(pending := RemoveAt(p.pending, k), holding := p.holding + [p.pending[k]])
  }

  /** The acquisition walk over the pending requests from position k on. */
  function AcquireFrom(pol: Policy, s: State, k: nat): (res: (State, bool))
    requires Shape(s) && s.cur.Some?
    ensures Shape(res.0) && res.0.cur == s.cur && |res.0.procs| == |s.procs|
    decreases |s.procs[s.cur.value].pending| - k
  {
    var c := s.cur.value;
    if k >= |s.procs[c].pending| then (s, true)
    else if s.procs[c].pending[k].at != s.procs[c].age then AcquireFrom(pol, s, k + 1)
    else
      var (t, ok) := Acquire(pol, s, s.procs[c].pending[k].rid);
      if !ok then (t, false)
      else AcquireFrom(pol, t.(procs := t.procs[c := MovePending(t.procs[c], k)]), k)
  }

  /** Unsigned decrement: zero wraps around. */
  function Decrement(d: nat): nat {
    if d == 0 then UINT_MAX else d - 1
  }

  function SetHolding(s: State, h: seq<Request>): (t: State)
    requires Shape(s) && s.cur.Some? && forall k :: 0 <= k < |h| ==> h[k].rid < NR_RESOURCES
    ensures Shape(t) && t.cur == s.cur && |t.procs| == |s.procs|
  {
    s.(procs := s.procs[s.cur.value := s.procs[s.cur.value].(holding := h)])
  }

  /** The release walk over the held requests from position k on. */
  function ReleaseFrom(pol: Policy, s: State, k: nat): (t: State)
    requires Shape(s) && s.cur.Some?
    ensures Shape(t) && t.cur == s.cur && |t.procs| == |s.procs|
    decreases |s.procs[s.cur.value].holding| - k
  {
    var h := s.procs[s.cur.value].holding;
    if k >= |h| then s
    else
      var h' := h[k := h[k].(dur := Decrement(h[k].dur))];
      if h'[k].dur != 0 then ReleaseFrom(pol, SetHolding(s, h'), k + 1)
      else
        var u := Release(pol, SetHolding(s, h'), h[k].rid);
        ReleaseFrom(pol, SetHolding(u, RemoveAt(h', k)), k)
  }

  function AgeCurrent(s: State): (t: State)
    requires Shape(s) && s.cur.Some?
    ensures Shape(t) && t.cur == s.cur && |t.procs| == |s.procs|
  {
    s.(procs := s.procs[s.cur.value := s.procs[s.cur.value].(age := s.procs[s.cur.value].age + 1)])
  }

  /** What the current process does in its tick. */
  function Execute(pol: Policy, s: State): (t: State)
    requires Shape(s) && s.cur.Some?
    ensures Shape(t)
  {
    var (t, ok) := AcquireFrom(pol, s, 0);
    if ok then ReleaseFrom(pol, AgeCurrent(t), 0) else t
  }

  // ----- The loop -----

  /** The state right after the scheduling decision of a tick. */
  function Chosen(pol: Policy, s: State): (t: State)
    requires Shape(s)
    ensures Shape(t)
  {
    Dispatch(pol, ForkFrom(s, 0))
  }

  /** The loop leaves: nothing runs, nothing is ready, nothing is still to be forked. */
  predicate Halted(t: State) {
    t.cur.None? && t.ready == [] && t.fork == []
  }

  /** One full iteration of the loop. */
  function Tick(pol: Policy, s: State): (t: State)
    requires Shape(s)
    ensures Shape(t)
  {
    var u := Chosen(pol, s);
    var v := if u.cur.Some? then Execute(pol, u) else u;
    v.(ticks := v.ticks + 1)
  }
}
