/**
 Chains of waiting.  pip_acquire raises the owner of the resource, but not the process that owner may
 itself be waiting for: exactly when that spoils inheritance, and a script on which it does.
 */
module InheritanceChains {
  import opened Seqs
  import opened SchedModel
  import opened SchedInvariants
  import opened SchedRuns
  import opened Fairness
  import opened NestedHoldings

  // ----- Exactly when blocking leaves the right priorities -----

  ghost predicate Owns(s: State, o: nat) {
    exists r :: 0 <= r < |s.owner| && s.owner[r] == Some(o)
  }

  /** Every owner runs at exactly the highest priority among its own and those of all it keeps waiting. */
  ghost predicate OwnersInheritExactly(s: State)
    requires Shape(s)
  {
    forall o :: 0 <= o < |s.procs| && Owns(s, o) ==> InheritsExactly(s, o)
  }

  /** The owner of r is outranked by the caller and itself waits for another process that the caller outranks. */
  ghost predicate ChainOutranked(s: State, r: nat)
    requires Shape(s) && s.cur.Some? && r < NR_RESOURCES && s.owner[r].Some?
  {
    && s.procs[s.owner[r].value].prio < s.procs[s.cur.value].prio
    && exists y :: 0 <= y < NR_RESOURCES && WaitsFor(s, s.owner[r].value, y) && s.procs[s.owner[y].value].prio < s.procs[s.cur.value].prio
  }

  /** Process o stands in the queue of resource y, which somebody else owns. */
  ghost predicate WaitsFor(s: State, o: nat, y: nat)
    requires Shape(s)
  {
    y < NR_RESOURCES && o in s.wait[y] && s.owner[y].Some? && s.owner[y].value != o
  }

  /** What a blocking pip_acquire changes. */
  ghost predicate BlockedOn(s: State, r: nat, t: State)
    requires Shape(s) && s.cur.Some? && r < NR_RESOURCES && s.owner[r].Some?
  {
    var c, o := s.cur.value, s.owner[r].value;
    && Shape(t) && t.owner == s.owner && |t.procs| == |s.procs| && t.wait == s.wait[r := s.wait[r] + [c]]
    && (forall i :: 0 <= i < |s.procs| ==> t.procs[i].prioOrig == s.procs[i].prioOrig)
    && forall i :: 0 <= i < |s.procs| ==>
         t.procs[i].prio == if i == o && s.procs[o].prio < s.procs[c].prio then s.procs[c].prio else s.procs[i].prio
  }

  lemma BlockChanges(s: State, r: nat)
    requires Shape(s) && s.cur.Some? && r < NR_RESOURCES && s.owner[r].Some?
    ensures BlockedOn(s, r, Acquire(Inheritance, s, r).0)
  {
  }

  /** Whoever the raised owner waits for now keeps somebody more important waiting. */
  lemma StillBelow(s: State, r: nat, t: State, y: nat)
    requires Shape(s) && s.cur.Some? && r < NR_RESOURCES && s.owner[r].Some? && BlockedOn(s, r, t)
    requires WaitsFor(s, s.owner[r].value, y) && s.procs[s.owner[r].value].prio < s.procs[s.cur.value].prio
    requires s.procs[s.owner[y].value].prio < s.procs[s.cur.value].prio
    ensures !OwnersInheritExactly(t)
  {
    var x, o := s.owner[y].value, s.owner[r].value;
    var k :| 0 <= k < |s.wait[y]| && s.wait[y][k] == o;
    assert t.wait[y][k] == o && t.owner[y] == Some(x);
    assert Owns(t, x) && !InheritsExactly(t, x);
  }

  lemma BlockedExact(s: State, r: nat, t: State, x: nat)
    requires Shape(s) && s.cur.Some? && r < NR_RESOURCES && s.owner[r].Some? && BlockedOn(s, r, t)
    requires !ChainOutranked(s, r) && x < |s.procs| && InheritsExactly(s, x) && Owns(s, x)
    ensures InheritsExactly(t, x)
  {
    var c, o := s.cur.value, s.owner[r].value;
    forall y, k | 0 <= y < NR_RESOURCES && t.owner[y] == Some(x) && 0 <= k < |t.wait[y]|
      ensures t.procs[t.wait[y][k]].prio <= t.procs[x].prio
    {
      BlockedBelow(s, r, t, x, y, k);
    }
    if t.procs[x].prio != t.procs[x].prioOrig {
      BlockedWitness(s, r, t, x);
    }
  }

  lemma BlockedBelow(s: State, r: nat, t: State, x: nat, y: nat, k: nat)
    requires Shape(s) && s.cur.Some? && r < NR_RESOURCES && s.owner[r].Some? && BlockedOn(s, r, t)
    requires !ChainOutranked(s, r) && x < |s.procs| && InheritsExactly(s, x)
    requires y < NR_RESOURCES && t.owner[y] == Some(x) && k < |t.wait[y]|
    ensures t.procs[t.wait[y][k]].prio <= t.procs[x].prio
  {
    var c, o := s.cur.value, s.owner[r].value;
    var w := t.wait[y][k];
    if k < |s.wait[y]| {
      assert w == s.wait[y][k] && s.procs[w].prio <= s.procs[x].prio;
      if w == o && x != o {
        assert WaitsFor(s, o, y);
      }
    } else {
      assert y == r && w == c;
    }
  }

  lemma BlockedWitness(s: State, r: nat, t: State, x: nat)
    requires Shape(s) && s.cur.Some? && r < NR_RESOURCES && s.owner[r].Some? && BlockedOn(s, r, t)
    requires !ChainOutranked(s, r) && x < |s.procs| && InheritsExactly(s, x) && t.procs[x].prio != t.procs[x].prioOrig
    ensures exists y, k :: 0 <= y < NR_RESOURCES && t.owner[y] == Some(x) && 0 <= k < |t.wait[y]|
              && t.procs[t.wait[y][k]].prio == t.procs[x].prio
  {
    var c, o := s.cur.value, s.owner[r].value;
    if x == o && s.procs[o].prio < s.procs[c].prio {
      assert t.wait[r][|s.wait[r]|] == c;
    } else {
      var y, k :| 0 <= y < NR_RESOURCES && s.owner[y] == Some(x) && 0 <= k < |s.wait[y]|
        && s.procs[s.wait[y][k]].prio == s.procs[x].prio;
      var w := s.wait[y][k];
      assert t.wait[y][k] == w;
      if w == o && x != o {
        assert w in s.wait[y];
        assert WaitsFor(s, o, y);
      }
    }
  }

  /** A blocking pip_acquire leaves every owner the right priority exactly when no chain is outranked. */
  lemma InheritanceAcquireIff(s: State, r: nat)
    requires Shape(s) && s.cur.Some? && r < NR_RESOURCES && s.owner[r].Some? && OwnersInheritExactly(s)
    ensures OwnersInheritExactly(Acquire(Inheritance, s, r).0) <==> !ChainOutranked(s, r)
  {
    BlockChanges(s, r);
    var t := Acquire(Inheritance, s, r).0;
    var o := s.owner[r].value;
    if ChainOutranked(s, r) {
      var y :| 0 <= y < NR_RESOURCES && WaitsFor(s, o, y) && s.procs[s.owner[y].value].prio < s.procs[s.cur.value].prio;
      StillBelow(s, r, t, y);
    } else {
      forall x | 0 <= x < |t.procs| && Owns(t, x) ensures InheritsExactly(t, x) {
        assert Owns(s, x);
        assert InheritsExactly(s, x);
        BlockedExact(s, r, t, x);
      }
    }
    hide Acquire, InheritsExactly, Shape;
  }

  // ----- A script on which it does -----

  /**
   Process 0, of priority 0, takes resource 1.  Process 1, of priority 5, takes resource 2 and waits for
   resource 1.  Process 2, of priority 10, waits for resource 2.  Process 3, of priority 7, just runs.
   */
  function ChainPlan(): (plan: seq<Proc>)
    ensures |plan| == 4
  {
    [ Proc(0, Ready, 0, 8, 0, 0, 0, [Request(1, 0, 6)], []),
      Proc(1, Ready, 0, 6, 5, 5, 1, [Request(2, 0, 5), Request(1, 0, 1)], []),
      Proc(2, Ready, 0, 1, 10, 10, 2, [Request(2, 0, 1)], []),
      Proc(3, Ready, 0, 3, 7, 7, 3, [], []) ]
  }

  /** Processes 1 and 2 wait, if at all, for resources 1 and 2. */
  function Queued(one: seq<nat>, two: seq<nat>): seq<seq<nat>> {
    seq(NR_RESOURCES, r => if r == 1 then one else if r == 2 then two else [])
  }

  function Chain(procs: seq<Proc>, ready: seq<nat>, fork: seq<nat>, cur: Option<nat>, one: Option<nat>,
                 two: Option<nat>, waits1: seq<nat>, waits2: seq<nat>, ticks: nat): (s: State)
    requires |procs| == 4 && Below(ready, 4) && Below(fork, 4) && Below(waits1, 4) && Below(waits2, 4)
    requires (cur.Some? ==> cur.value < 4) && (one.Some? ==> one.value < 4) && (two.Some? ==> two.value < 4)
    requires forall i :: 0 <= i < 4 ==> GoodRids(procs[i].pending) && GoodRids(procs[i].holding)
    ensures Shape(s)
  {
    var s := State(procs, ready, fork, cur, Owned(one, two), Queued(waits1, waits2), ticks);
    assert forall i :: 0 <= i < 4 ==> GoodRids(procs[i].pending) && GoodRids(procs[i].holding);
    assert Below(Queued(waits1, waits2)[1], 4) && Below(Queued(waits1, waits2)[2], 4);
    s
  }

  function P0(status: Status, age: nat, prio: nat, pending: seq<Request>, holding: seq<Request>): Proc {
    Proc(0, status, age, 8, prio, 0, 0, pending, holding)
  }

  function P1(status: Status, prio: nat, pending: seq<Request>, holding: seq<Request>): Proc {
    Proc(1, status, 0, 6, prio, 5, 1, pending, holding)
  }

  function P2(status: Status): Proc {
    Proc(2, status, 0, 1, 10, 10, 2, [Request(2, 0, 1)], [])
  }

  function P3(status: Status): Proc {
    Proc(3, status, 0, 3, 7, 7, 3, [], [])
  }

  const BOTH: seq<Request> := [Request(2, 0, 5), Request(1, 0, 1)]
  const REST: seq<Request> := [Request(1, 0, 1)]
  const HELD: seq<Request> := [Request(2, 0, 5)]

  /** Before the first tick. */
  function ChainStart(): (s: State)
    ensures Shape(s)
  {
    Chain([P0(Ready, 0, 0, [Request(1, 0, 6)], []), P1(Ready, 5, BOTH, []), P2(Ready), P3(Ready)],
          [], [0, 1, 2, 3], None, None, None, [], [], 0)
  }

  /** After the first tick: process 0 owns resource 1. */
  function ChainOne(): (s: State)
    ensures Shape(s)
  {
    Chain([P0(Running, 1, 0, [], [Request(1, 0, 5)]), P1(Ready, 5, BOTH, []), P2(Ready), P3(Ready)],
          [], [1, 2, 3], Some(0), Some(0), None, [], [], 1)
  }

  /** After the second: process 1 owns resource 2, waits for resource 1, and process 0 has been raised. */
  function ChainTwo(): (s: State)
    ensures Shape(s)
  {
    Chain([P0(Ready, 1, 5, [], [Request(1, 0, 5)]), P1(Blocked, 5, REST, HELD), P2(Ready), P3(Ready)],
          [0], [2, 3], Some(1), Some(0), Some(1), [1], [], 2)
  }

  /** After the third: process 2 waits for resource 2, process 1 has been raised, and process 0 has not. */
  function ChainThree(): (s: State)
    ensures Shape(s)
  {
    Chain([P0(Ready, 1, 5, [], [Request(1, 0, 5)]), P1(Blocked, 10, REST, HELD), P2(Blocked), P3(Ready)],
          [0], [3], Some(2), Some(0), Some(1), [1], [2], 3)
  }

  lemma ChainInitial()
    ensures WellFormed(ChainPlan()) && Initial(ChainPlan()) == ChainStart()
  {
    assert seq(4, i => i) == [0, 1, 2, 3];
    assert Initial(ChainPlan()).owner == Owned(None, None);
    assert Initial(ChainPlan()).wait == Queued([], []);
  }

  // ----- The first tick -----

  /** Process 0 has been forked, and picked. */
  function Forked0(): (s: State)
    ensures Shape(s) && |s.procs| == 4 && Candidates(s) == [0]
  {
    Chain([P0(Ready, 0, 0, [Request(1, 0, 6)], []), P1(Ready, 5, BOTH, []), P2(Ready), P3(Ready)],
          [0], [1, 2, 3], None, None, None, [], [], 0)
  }

  function Picked0(pending: seq<Request>, holding: seq<Request>, one: Option<nat>): (s: State)
    requires GoodRids(pending) && GoodRids(holding) && (one.Some? ==> one.value < 4)
    ensures Shape(s) && s.cur == Some(0)
  {
    Chain([P0(Running, 0, 0, pending, holding), P1(Ready, 5, BOTH, []), P2(Ready), P3(Ready)],
          [], [1, 2, 3], Some(0), one, None, [], [], 0)
  }

  /** Process 0 has run for a tick. */
  function Held0(left: nat): (s: State)
    ensures Shape(s) && s.cur == Some(0)
  {
    Chain([P0(Running, 1, 0, [], [Request(1, 0, left)]), P1(Ready, 5, BOTH, []), P2(Ready), P3(Ready)],
          [], [1, 2, 3], Some(0), Some(0), None, [], [], 0)
  }

  lemma Pick0()
    ensures Chosen(Inheritance, ChainStart()) == Picked0([Request(1, 0, 6)], [], None)
  {
    hide Shape, Owned, Queued, Chosen, ForkFrom, Candidates, GoodRids;
    var s := ChainStart();
    var f := Forked0();
    assert [0, 1, 2, 3][1..] == [1, 2, 3] && [] + [0] == [0] && [0][1..] == [];
    ForksHead(s);
    PicksFirst(Inheritance, s, f);
  }

  lemma Tick0()
    ensures Tick(Inheritance, ChainStart()) == ChainOne()
  {
    hide Shape, Owned, Queued, Chosen, Tick, ReleaseFrom, ChainStart;
    Pick0();
    var s := Picked0([Request(1, 0, 6)], [], None);
    var t := Picked0([], [Request(1, 0, 6)], Some(0));
    OwnedAt(None, None);
    assert [Request(1, 0, 6)][1..] == [] && [] + [Request(1, 0, 6)] == [Request(1, 0, 6)];
    Grants(Inheritance, s, t);
    assert AcquireFrom(Inheritance, t, 0) == (t, true);
    assert [Request(1, 0, 6)][0 := Request(1, 0, 5)] == [Request(1, 0, 5)];
    assert AgeCurrent(t) == Held0(6);
    CountsDown(Inheritance, Held0(6), 0, Held0(5));
    WalkOver(Inheritance, Held0(5), 1);
    TickUnfolds(Inheritance, ChainStart());
  }

  // ----- The second and the third -----

  /** A due request for an owned resource: the walk ends, with the owner raised if it is outranked. */
  lemma Blocks(s: State, t: State)
    requires Shape(s) && s.cur.Some? && s.procs[s.cur.value].pending != []
    requires var p := s.procs[s.cur.value];
      var r := p.pending[0].rid;
      && p.pending[0].at == p.age && s.owner[r].Some? && s.owner[r] != s.cur && s.procs[s.owner[r].value].prio < p.prio
      && var o := s.owner[r].value;
         t == s.(procs := s.procs[o := s.procs[o].(prio := p.prio)][s.cur.value := p.(status := Blocked)],
                 wait := s.wait[r := s.wait[r] + [s.cur.value]])
    ensures AcquireFrom(Inheritance, s, 0) == (t, false)
  {
    assert s.procs[s.cur.value].pending[0].rid < NR_RESOURCES;
    hide Shape;
  }

  lemma QueuedAt(one: seq<nat>, two: seq<nat>)
    ensures var w := Queued(one, two);
      && |w| == NR_RESOURCES && w[1] == one && w[2] == two
      && w[1 := one + [1]] == Queued(one + [1], two) && w[2 := two + [2]] == Queued(one, two + [2])
  {
  }

  function Forked1(): (s: State)
    ensures Shape(s) && |s.procs| == 4 && Candidates(s) == [1, 0]
  {
    assert [1] + [0] == [1, 0];
    Chain([P0(Running, 1, 0, [], [Request(1, 0, 5)]), P1(Ready, 5, BOTH, []), P2(Ready), P3(Ready)],
          [1], [2, 3], Some(0), Some(0), None, [], [], 1)
  }

  function Picked1(pending: seq<Request>, holding: seq<Request>, two: Option<nat>): (s: State)
    requires GoodRids(pending) && GoodRids(holding) && (two.Some? ==> two.value < 4)
    ensures Shape(s) && s.cur == Some(1)
  {
    Chain([P0(Ready, 1, 0, [], [Request(1, 0, 5)]), P1(Running, 5, pending, holding), P2(Ready), P3(Ready)],
          [0], [2, 3], Some(1), Some(0), two, [], [], 1)
  }

  lemma Pick1()
    ensures Chosen(Inheritance, ChainOne()) == Picked1(BOTH, [], None)
  {
    hide Shape, Owned, Queued, Chosen, ForkFrom, Candidates, GoodRids;
    assert [1, 2, 3][1..] == [2, 3] && [] + [1] == [1] && [1, 0][1..] == [0];
    ForksHead(ChainOne());
    PicksFirst(Inheritance, ChainOne(), Forked1());
  }

  /** Process 1 takes resource 2 and waits for resource 1. */
  lemma Tick1()
    ensures Tick(Inheritance, ChainOne()) == ChainTwo()
  {
    hide Shape, Owned, Queued, Chosen, Tick, ChainOne;
    Pick1();
    OwnedTwo();
    QueuedAt([], []);
    assert BOTH[1..] == REST && [] + [Request(2, 0, 5)] == HELD && [] + [1] == [1];
    var t := Picked1(REST, HELD, Some(1));
    Grants(Inheritance, Picked1(BOTH, [], None), t);
    Blocks(t, ChainTwo().(ticks := 1));
    TickUnfolds(Inheritance, ChainOne());
  }

  lemma OwnedTwo()
    ensures |Owned(Some(0), None)| == NR_RESOURCES && Owned(Some(0), None)[2].None? && Owned(Some(0), None)[2 := Some(1)] == Owned(Some(0), Some(1))
    ensures Owned(Some(0), Some(1))[1] == Some(0) && Owned(Some(0), Some(1))[2] == Some(1)
  {
  }

  function Forked2(): (s: State)
    ensures Shape(s) && |s.procs| == 4 && Candidates(s) == [0, 2]
  {
    assert [0] + [2] == [0, 2];
    Chain([P0(Ready, 1, 5, [], [Request(1, 0, 5)]), P1(Blocked, 5, REST, HELD), P2(Ready), P3(Ready)],
          [0, 2], [3], Some(1), Some(0), Some(1), [1], [], 2)
  }

  function Picked2(): (s: State)
    ensures Shape(s) && s.cur == Some(2)
  {
    Chain([P0(Ready, 1, 5, [], [Request(1, 0, 5)]), P1(Blocked, 5, REST, HELD), P2(Running), P3(Ready)],
          [0], [3], Some(2), Some(0), Some(1), [1], [], 2)
  }

  lemma Pick2()
    ensures Chosen(Inheritance, ChainTwo()) == Picked2()
  {
    hide Shape, Owned, Queued, Chosen, ForkFrom, Candidates, GoodRids;
    assert [2, 3][1..] == [3] && [0] + [2] == [0, 2];
    ForksHead(ChainTwo());
    PicksSecond(Inheritance, ChainTwo(), Forked2());
  }

  /** Process 2 waits for resource 2. */
  lemma Tick2()
    ensures Tick(Inheritance, ChainTwo()) == ChainThree()
  {
    hide Shape, Owned, Queued, Chosen, Tick, ChainTwo;
    Pick2();
    OwnedTwo();
    QueuedAt([1], []);
    assert [] + [2] == [2];
    Blocks(Picked2(), ChainThree().(ticks := 2));
    TickUnfolds(Inheritance, ChainTwo());
  }

  function Forked3(): (s: State)
    ensures Shape(s) && |s.procs| == 4 && Candidates(s) == [0, 3]
  {
    assert [0] + [3] == [0, 3];
    Chain([P0(Ready, 1, 5, [], [Request(1, 0, 5)]), P1(Blocked, 10, REST, HELD), P2(Blocked), P3(Ready)],
          [0, 3], [], Some(2), Some(0), Some(1), [1], [2], 3)
  }

  /** Process 3 is picked while process 2 waits. */
  lemma Pick3()
    ensures Chosen(Inheritance, ChainThree()).cur == Some(3)
  {
    hide Shape, Owned, Queued, Chosen, ForkFrom, Candidates, GoodRids;
    assert [3][1..] == [] && [0] + [3] == [0, 3];
    ForksHead(ChainThree());
    PicksSecond(Inheritance, ChainThree(), Forked3());
  }

  /**
   A run in which no release is to blame: after three ticks process 0 owns resource 1 at priority 5 while
   process 1, by then at priority 10, waits for it; and the next decision picks process 3, of priority 7,
   while process 2, of priority 10, waits.
   */
  lemma ChainFails()
    ensures WellFormed(ChainPlan()) && Shape(Initial(ChainPlan()))
    ensures var s := After(Inheritance, Initial(ChainPlan()), 3);
      && |s.procs| == 4 && s.owner[1] == Some(0) && s.wait[1] == [1] && s.procs[0].prio == 5 && s.procs[1].prio == 10
      && !InheritsExactly(s, 0)
      && s.wait[2] == [2] && s.procs[2].prio == 10 && s.procs[3].prio == 7 && Chosen(Inheritance, s).cur == Some(3)
  {
    hide Shape, WellFormed, Tick, After, InheritsExactly, Owned, Queued, Initial, ChainPlan, ChainStart, ChainOne, ChainTwo, Chosen;
    ChainInitial();
    AfterThree(Inheritance, ChainStart());
    Tick0();
    Tick1();
    Tick2();
    Pick3();
    OwnedTwo();
    QueuedAt([1], [2]);
    OutrankedOwner(ChainThree());
  }

  lemma OutrankedOwner(s: State)
    requires Shape(s) && |s.procs| == 4 && s.procs[0].prio < s.procs[1].prio && s.owner[1] == Some(0) && s.wait[1] == [1]
    ensures !InheritsExactly(s, 0)
  {
    assert s.wait[1][0] == 1;
  }
}
