/**
 Switching.  A switch to a listed process drops the one that was current from the list; here is what that
 loses, and exactly which sessions do not notice.
 */
module VmSwitching {
  import opened Seqs
  import opened VmModel
  import opened VmInvariants
  import opened VmTlb
  import opened VmIdeal
  import opened VmCommands
  import opened VmRuns
  import opened VmSessions

  // ----- The list -----

  /** The list names nobody twice, and not the current process. */
  ghost predicate ListSound(s: State) {
    NoDup(s.queue) && s.cur !in s.queue
  }

  /** What a switch does to the list. */
  lemma SwitchList(s: State, pid: nat)
    requires Shape(s)
    ensures var t := DoSwitch(s, pid);
      match FindPid(s.procs, s.queue, pid, 0)
      case Some(k) => t.procs == s.procs && t.cur == s.queue[k] && t.queue == RemoveAt(s.queue, k)
      case None => |t.procs| == |s.procs| + 1 && t.cur == |s.procs| && t.queue == s.queue + [s.cur]
  {
    ForkFields(s, pid);
    hide Fork, FindPid, RemoveAt, FlushTlb, TableShape, FramesInRange;
  }

  /** No other command touches it. */
  lemma OthersKeepList(s: State, c: Command)
    requires Shape(s) && Legal(c) && !c.Switch?
    ensures var t := Step(s, c).0; t.queue == s.queue && t.cur == s.cur && |t.procs| == |s.procs|
  {
    match c {
      case Access(v, rw) =>
        hide Shape;
        AccessList(s, v, rw, 0);
      case _ => hide Lookup, FirstFree, InsertTlb, LookupTlb, SetPte, EvictTlb, TableShape, FramesInRange;
    }
  }

  lemma AccessList(s: State, v: nat, rw: nat, retries: nat)
    requires Shape(s) && v < NR_PAGES && retries < 2
    ensures var t := AccessRound(s, v, rw, retries).0; t.queue == s.queue && t.cur == s.cur && |t.procs| == |s.procs|
    decreases 2 - retries
  {
    hide Translate, HandleFault, Shape;
    var t := Translate(s, rw, v).0;
    var u := HandleFault(t, v, rw).0;
    PartsIsolated(s, v, rw);
    PartsIsolated(t, v, rw);
    PartsKeepList(s, v, rw);
    PartsKeepList(t, v, rw);
    if retries + 1 < 2 {
      AccessList(u, v, rw, retries + 1);
    }
  }

  lemma PartsKeepList(s: State, v: nat, rw: nat)
    requires Shape(s) && v < NR_PAGES
    ensures Translate(s, rw, v).0.queue == s.queue && HandleFault(s, v, rw).0.queue == s.queue
  {
    hide Lookup, FirstFree, InsertTlb, LookupTlb, SetPte, Shape;
  }

  lemma ListSoundStep(s: State, c: Command)
    requires Shape(s) && Legal(c) && ListSound(s)
    ensures ListSound(Step(s, c).0)
  {
    if c.Switch? {
      SwitchStep(s, c.pid);
      SwitchList(s, c.pid);
      var found := FindPid(s.procs, s.queue, c.pid, 0);
      if found.Some? {
        RemoveAtKeepsOthers(s.queue, found.value);
      }
      hide DoSwitch, Step, FindPid, RemoveAt, TableShape, FramesInRange;
    } else {
      OthersKeepList(s, c);
      hide Step;
    }
  }

  /** After every session the list names nobody twice, and not the current process. */
  lemma {:induction false} ListSoundAlways(s: State, cs: seq<Command>)
    requires Shape(s) && AllLegal(cs) && ListSound(s)
    ensures ListSound(RunCommands(s, cs).0)
    decreases |cs|
  {
    hide Shape, Step, ListSound, Ends;
    if cs != [] {
      ListSoundStep(s, cs[0]);
      if !Ends(Step(s, cs[0]).1) {
        ListSoundAlways(Step(s, cs[0]).0, cs[1..]);
      }
    }
  }

  lemma InitialList(tlbOn: bool)
    ensures ListSound(Initial(tlbOn))
  {
  }

  // ----- What a switch loses -----

  lemma {:induction false} FindsListed(procs: seq<Proc>, queue: seq<nat>, pid: nat, k: nat)
    requires forall j :: 0 <= j < |queue| ==> queue[j] < |procs|
    ensures FindPid(procs, queue, pid, k).Some? <==> exists j :: k <= j < |queue| && procs[queue[j]].pid == pid
    ensures FindPid(procs, queue, pid, k).Some? ==>
      forall j :: k <= j < FindPid(procs, queue, pid, k).value ==> procs[queue[j]].pid != pid
    decreases |queue| - k
  {
    if k < |queue| {
      FindsListed(procs, queue, pid, k + 1);
    }
  }

  /** The outgoing process goes on the list, as documented, exactly when no listed process has the pid. */
  lemma OutgoingListedIff(s: State, pid: nat)
    requires Shape(s) && ListSound(s)
    ensures s.cur in DoSwitch(s, pid).queue <==> forall j :: 0 <= j < |s.queue| ==> s.procs[s.queue[j]].pid != pid
  {
    SwitchList(s, pid);
    FindsListed(s.procs, s.queue, pid, 0);
    var found := FindPid(s.procs, s.queue, pid, 0);
    if found.Some? {
      assert forall x :: x in RemoveAt(s.queue, found.value) ==> x in s.queue;
    }
    hide DoSwitch, FindPid, RemoveAt, TableShape, FramesInRange;
  }

  /** A process that is neither current nor listed. */
  ghost predicate Lost(s: State, p: nat) {
    p < |s.procs| && p != s.cur && p !in s.queue
  }

  /** Otherwise it is lost. */
  lemma SwitchLoses(s: State, pid: nat)
    requires Shape(s) && ListSound(s) && exists j :: 0 <= j < |s.queue| && s.procs[s.queue[j]].pid == pid
    ensures Lost(DoSwitch(s, pid), s.cur)
  {
    SwitchList(s, pid);
    FindsListed(s.procs, s.queue, pid, 0);
    OutgoingListedIff(s, pid);
    hide DoSwitch, FindPid, RemoveAt, TableShape, FramesInRange;
  }

  lemma LostStep(s: State, c: Command, p: nat)
    requires Shape(s) && Legal(c) && Lost(s, p)
    ensures Lost(Step(s, c).0, p) && Step(s, c).0.procs[p] == s.procs[p]
  {
    Isolation(s, c);
    if c.Switch? {
      SwitchStep(s, c.pid);
      SwitchList(s, c.pid);
      var found := FindPid(s.procs, s.queue, c.pid, 0);
      if found.Some? {
        assert forall x :: x in RemoveAt(s.queue, found.value) ==> x in s.queue;
        assert s.queue[found.value] in s.queue;
      }
      hide DoSwitch, Step, FindPid, RemoveAt, TableShape, FramesInRange, Lookup;
    } else {
      OthersKeepList(s, c);
      hide Step, Lookup;
    }
  }

  /** A lost process stays lost whatever follows: it never runs or is listed again, and its pages stay mapped. */
  lemma {:induction false} LostForever(s: State, cs: seq<Command>, p: nat)
    requires Shape(s) && AllLegal(cs) && Lost(s, p)
    ensures Lost(RunCommands(s, cs).0, p) && RunCommands(s, cs).0.procs[p] == s.procs[p]
    decreases |cs|
  {
    hide Shape, Step, Lost, Ends;
    if cs != [] {
      LostStep(s, cs[0], p);
      if !Ends(Step(s, cs[0]).1) {
        LostForever(Step(s, cs[0]).0, cs[1..], p);
      }
    }
  }

  // ----- The documented machine -----

  /** The reference machine with the switch as documented: the outgoing process always goes on the list. */
  function PromisedStep(i: Ideal, c: Command): (r: (Ideal, Report))
    requires IdealShape(i)
    ensures IdealShape(r.0)
  {
    if c.Switch? then
      var found := IdealFind(i.pids, i.queue, c.pid, 0);
      if found.Some? then
        (i.(cur := i.queue[found.value], queue := RemoveAt(i.queue, found.value) + [i.cur]), Done)
      else IdealStep(i, c)
    else IdealStep(i, c)
  }

  /** The same processes with the same spaces, and the same one running; the lists may differ. */
  ghost predicate SameWorld(i: Ideal, j: Ideal) {
    i.spaces == j.spaces && i.pids == j.pids && i.cur == j.cur
  }

  /** The members of a list that are also in another, in order. */
  function Only(q: seq<nat>, keep: seq<nat>): (r: seq<nat>)
    ensures forall x :: x in r <==> x in q && x in keep
  {
    if q == [] then []
    else
      var rest := Only(q[1..], keep);
      if q[0] in keep then [q[0]] + rest else rest
  }

  /** `i` is `j` with some processes missing from the list. */
  ghost predicate Twin(i: Ideal, j: Ideal) {
    SameWorld(i, j) && NoDup(j.queue) && j.cur !in j.queue && i.queue == Only(j.queue, i.queue)
  }

  /** The switch asks for a process that should be on the list and is not. */
  ghost predicate Recalls(queue: seq<nat>, j: Ideal, c: Command)
    requires IdealShape(j)
  {
    c.Switch? && IdealFind(j.pids, j.queue, c.pid, 0).Some?
    && j.queue[IdealFind(j.pids, j.queue, c.pid, 0).value] !in queue
  }

  lemma {:induction false} OnlySubset(q: seq<nat>, a: seq<nat>, b: seq<nat>)
    requires forall x :: x in q ==> (x in a <==> x in b)
    ensures Only(q, a) == Only(q, b)
  {
    if q != [] {
      OnlySubset(q[1..], a, b);
    }
  }

  lemma {:induction false} OnlyAppend(q: seq<nat>, p: seq<nat>, keep: seq<nat>)
    ensures Only(q + p, keep) == Only(q, keep) + Only(p, keep)
  {
    if q == [] {
      assert q + p == p;
    } else {
      assert (q + p)[1..] == q[1..] + p;
      OnlyAppend(q[1..], p, keep);
    }
  }

  /** Splitting both lists at a kept member. */
  lemma OnlySplit(q: seq<nat>, k: nat, keep: seq<nat>) returns (m: nat)
    requires NoDup(q) && k < |q| && q[k] in keep && Only(q, keep) == keep
    ensures m < |keep| && keep[m] == q[k] && keep[..m] == Only(q[..k], keep) && keep[m + 1..] == Only(q[k + 1..], keep)
  {
    assert q == q[..k] + ([q[k]] + q[k + 1..]);
    OnlyAppend(q[..k], [q[k]] + q[k + 1..], keep);
    OnlyAppend([q[k]], q[k + 1..], keep);
    assert Only([q[k]], keep) == [q[k]];
    m := |Only(q[..k], keep)|;
  }

  // ----- One command -----

  lemma {:induction false} IdealFinds(pids: seq<nat>, queue: seq<nat>, pid: nat, k: nat)
    requires forall j :: 0 <= j < |queue| ==> queue[j] < |pids|
    ensures var r := IdealFind(pids, queue, pid, k);
      && (r.Some? ==> pids[queue[r.value]] == pid && forall j :: k <= j < r.value ==> pids[queue[j]] != pid)
      && (r.None? ==> forall j :: k <= j < |queue| ==> pids[queue[j]] != pid)
    decreases |queue| - k
  {
    if k < |queue| {
      IdealFinds(pids, queue, pid, k + 1);
    }
  }

  lemma FirstIsFound(pids: seq<nat>, queue: seq<nat>, pid: nat, m: nat)
    requires forall j :: 0 <= j < |queue| ==> queue[j] < |pids|
    requires m < |queue| && pids[queue[m]] == pid && forall j :: 0 <= j < m ==> pids[queue[j]] != pid
    ensures IdealFind(pids, queue, pid, 0) == Some(m)
  {
    IdealFinds(pids, queue, pid, 0);
    hide IdealFind;
  }

  /** A switch to a process both lists have: both machines find it, and the lists stay as they should. */
  lemma TwinSwitch(i: Ideal, j: Ideal, pid: nat)
    requires IdealShape(i) && IdealShape(j) && Twin(i, j)
    requires IdealFind(j.pids, j.queue, pid, 0).Some? && j.queue[IdealFind(j.pids, j.queue, pid, 0).value] in i.queue
    ensures IdealStep(i, Switch(pid)).1 == PromisedStep(j, Switch(pid)).1
    ensures Twin(IdealStep(i, Switch(pid)).0, PromisedStep(j, Switch(pid)).0)
  {
    var k := IdealFind(j.pids, j.queue, pid, 0).value;
    IdealFinds(j.pids, j.queue, pid, 0);
    var m := OnlySplit(j.queue, k, i.queue);
    forall x | 0 <= x < m ensures i.pids[i.queue[x]] != pid {
      assert i.queue[..m][x] in Only(j.queue[..k], i.queue);
      assert i.queue[x] in j.queue[..k];
    }
    FirstIsFound(i.pids, i.queue, pid, m);
    TwinLists(i, j, k, m);
    hide IdealFind, Only, RemoveAt;
  }

  lemma TwinLists(i: Ideal, j: Ideal, k: nat, m: nat)
    requires Twin(i, j) && k < |j.queue| && m < |i.queue| && i.queue[m] == j.queue[k]
    requires i.queue[..m] == Only(j.queue[..k], i.queue) && i.queue[m + 1..] == Only(j.queue[k + 1..], i.queue)
    ensures var q, p := RemoveAt(i.queue, m), RemoveAt(j.queue, k) + [j.cur];
      NoDup(p) && j.queue[k] !in p && q == Only(p, q)
  {
    var q, p := RemoveAt(i.queue, m), RemoveAt(j.queue, k) + [j.cur];
    RemoveAtKeepsOthers(j.queue, k);
    AppendNoDup(RemoveAt(j.queue, k), j.cur);
    assert j.cur !in i.queue;
    OnlyAppend(RemoveAt(j.queue, k), [j.cur], i.queue);
    OnlyAppend(j.queue[..k], j.queue[k + 1..], i.queue);
    assert Only([j.cur], i.queue) == [];
    assert Only(p, i.queue) == q;
    forall x | x in p ensures x in i.queue <==> x in q {
      if x in i.queue {
        assert x in Only(p, i.queue);
      }
    }
    OnlySubset(p, i.queue, q);
  }

  /** Nobody with the pid is on the longer list, so nobody is on the shorter one: both fork. */
  lemma TwinFork(i: Ideal, j: Ideal, pid: nat)
    requires IdealShape(i) && IdealShape(j) && Twin(i, j) && IdealFind(j.pids, j.queue, pid, 0).None?
    ensures IdealStep(i, Switch(pid)).1 == PromisedStep(j, Switch(pid)).1
    ensures Twin(IdealStep(i, Switch(pid)).0, PromisedStep(j, Switch(pid)).0)
  {
    hide IdealFind, Only;
    NobodyOnEither(i, j, pid);
    AppendNoDup(j.queue, j.cur);
    TwinAppend(i.queue, j.queue, j.cur);
  }

  lemma TwinAppend(q: seq<nat>, p: seq<nat>, x: nat)
    requires q == Only(p, q) && x !in p
    ensures q + [x] == Only(p + [x], q + [x])
  {
    OnlyAppend(p, [x], q + [x]);
    OnlySubset(p, q, q + [x]);
    assert Only([x], q + [x]) == [x];
  }

  lemma NobodyOnEither(i: Ideal, j: Ideal, pid: nat)
    requires IdealShape(i) && IdealShape(j) && Twin(i, j) && IdealFind(j.pids, j.queue, pid, 0).None?
    ensures IdealFind(i.pids, i.queue, pid, 0).None?
  {
    IdealFinds(j.pids, j.queue, pid, 0);
    IdealFinds(i.pids, i.queue, pid, 0);
    assert forall x :: 0 <= x < |i.queue| ==> i.queue[x] in Only(j.queue, i.queue);
    hide IdealFind, Only;
  }

  /** A recalled process is current in the one machine and not in the other. */
  lemma RecallTells(i: Ideal, j: Ideal, c: Command)
    requires IdealShape(i) && IdealShape(j) && Twin(i, j) && Recalls(i.queue, j, c)
    ensures !SameWorld(IdealStep(i, c).0, PromisedStep(j, c).0)
  {
    hide IdealFind, Only, RemoveAt;
  }

  lemma TwinOther(i: Ideal, j: Ideal, c: Command)
    requires IdealShape(i) && IdealShape(j) && Twin(i, j) && !c.Switch?
    ensures IdealStep(i, c).1 == PromisedStep(j, c).1 && Twin(IdealStep(i, c).0, PromisedStep(j, c).0)
  {
    hide Only;
  }

  lemma TwinStep(i: Ideal, j: Ideal, c: Command)
    requires IdealShape(i) && IdealShape(j) && Twin(i, j)
    ensures SameWorld(IdealStep(i, c).0, PromisedStep(j, c).0) <==> !Recalls(i.queue, j, c)
    ensures !Recalls(i.queue, j, c) ==>
      IdealStep(i, c).1 == PromisedStep(j, c).1 && Twin(IdealStep(i, c).0, PromisedStep(j, c).0)
  {
    if Recalls(i.queue, j, c) {
      RecallTells(i, j, c);
    } else if !c.Switch? {
      TwinOther(i, j, c);
    } else if IdealFind(j.pids, j.queue, c.pid, 0).Some? {
      TwinSwitch(i, j, c.pid);
    } else {
      TwinFork(i, j, c.pid);
    }
    hide IdealStep, PromisedStep, IdealFind, Only;
  }

  // ----- Whole sessions -----

  /** The machine does what the documented machine does: sound tables, the same world and the same report. */
  ghost predicate Promised(s: State, j: Ideal, c: Command)
    requires Shape(s) && IdealShape(j) && Legal(c)
  {
    var (t, o) := Step(s, c);
    PageInv(t) && SameWorld(Meaning(t), PromisedStep(j, c).0) && View(o) == PromisedStep(j, c).1
  }

  /** It does so after every command of the session. */
  ghost predicate PromisedRun(s: State, j: Ideal, cs: seq<Command>)
    requires Shape(s) && IdealShape(j) && AllLegal(cs)
    decreases |cs|
  {
    cs != [] ==>
      Promised(s, j, cs[0]) && (!Ends(Step(s, cs[0]).1) ==> PromisedRun(Step(s, cs[0]).0, PromisedStep(j, cs[0]).0, cs[1..]))
  }

  /** No switch of the session asks for a process that should be on the list and is not. */
  ghost predicate NeverRecalls(s: State, j: Ideal, cs: seq<Command>)
    requires Shape(s) && IdealShape(j) && AllLegal(cs)
    decreases |cs|
  {
    cs != [] ==>
      && !Recalls(s.queue, j, cs[0])
      && (!Ends(Step(s, cs[0]).1) ==> NeverRecalls(Step(s, cs[0]).0, PromisedStep(j, cs[0]).0, cs[1..]))
  }

  lemma PromisedIff(s: State, j: Ideal, c: Command)
    requires PageInv(s) && Coherent(s) && Legal(c) && IdealShape(j) && Twin(Meaning(s), j)
    ensures Promised(s, j, c) <==> Safe(s, c) && !Recalls(s.queue, j, c)
    ensures Promised(s, j, c) ==> Twin(Meaning(Step(s, c).0), PromisedStep(j, c).0)
  {
    assert Shape(s);
    StepFaithful(s, c);
    TwinStep(Meaning(s), j, c);
    assert Meaning(s).queue == s.queue;
    hide PageInv, Coherent, Shape, Twin, Meaning, IdealStep, PromisedStep, Recalls, Safe, Step;
    if !Faithful(s, c) {
      UnfaithfulWorld(s, c);
    }
  }

  /** An unfaithful command shows in the spaces, the tables or the report, not in the list. */
  lemma UnfaithfulWorld(s: State, c: Command)
    requires PageInv(s) && Coherent(s) && Legal(c) && !Safe(s, c)
    ensures var (t, o) := Step(s, c);
      !(PageInv(t) && SameWorld(Meaning(t), IdealStep(Meaning(s), c).0) && View(o) == IdealStep(Meaning(s), c).1)
    ensures !c.Switch?
  {
    StepFaithful(s, c);
    OthersKeepList(s, c);
    assert Shape(s);
    IdealKeepsList(Meaning(s), c);
    hide PageInv, Coherent, Shape, IdealStep, Step, TableShape, FramesInRange, SpaceOf;
  }

  lemma IdealKeepsList(i: Ideal, c: Command)
    requires IdealShape(i) && !c.Switch?
    ensures IdealStep(i, c).0.queue == i.queue
  {
  }

  /**
   The machine keeps the documented promise of `switch`, and all the others, exactly if every command is
   safe and no switch asks for a process that an earlier switch has dropped from the list.
   */
  lemma {:induction false} PromiseKeptIff(s: State, j: Ideal, cs: seq<Command>)
    requires PageInv(s) && Coherent(s) && AllLegal(cs) && HoleFree(s, cs) && IdealShape(j) && Twin(Meaning(s), j)
    ensures PromisedRun(s, j, cs) <==> AllSafe(s, cs) && NeverRecalls(s, j, cs)
    decreases |cs|
  {
    assert Shape(s);
    hide PageInv, Coherent, Step, Safe, Fed, BadUpgrade, Ends, Shape, Twin, Meaning, PromisedStep, Recalls, Promised, Faithful;
    if cs != [] {
      PromisedIff(s, j, cs[0]);
      if Promised(s, j, cs[0]) && !Ends(Step(s, cs[0]).1) {
        FedStepSafe(s, cs[0]);
        PromiseKeptIff(Step(s, cs[0]).0, PromisedStep(j, cs[0]).0, cs[1..]);
      }
    }
  }

  lemma FedStepSafe(s: State, c: Command)
    requires PageInv(s) && Coherent(s) && Legal(c) && Safe(s, c) && !BadUpgrade(s, c)
    ensures PageInv(Step(s, c).0) && Coherent(Step(s, c).0)
  {
    FedOrSafe(s, c);
    hide PageInv, Coherent, Step, Safe, Fed, BadUpgrade;
    FedStep(s, c);
  }

  lemma InitialTwin(tlbOn: bool)
    ensures Twin(Meaning(Initial(tlbOn)), Meaning(Initial(tlbOn)))
  {
    InitialSound(tlbOn);
  }

  // ----- A session that loses a process -----

  function LosingCommands(): (cs: seq<Command>)
    ensures AllLegal(cs)
  {
    [Switch(1), Alloc(3, ACCESS_BOTH), Switch(0), Switch(1), Access(3, ACCESS_READ)]
  }

  ghost predicate Sound(s: State) {
    PageInv(s) && Coherent(s)
  }

  /** Nothing has ever been allocated. */
  predicate Bare(p: Proc) {
    p.pdes == [None, None, None, None]
  }

  lemma BareFork(s: State, pid: nat)
    requires Shape(s) && Bare(s.procs[s.cur]) && forall j :: 0 <= j < |s.queue| ==> s.procs[s.queue[j]].pid != pid
    ensures var t := DoSwitch(s, pid);
      && t.procs == s.procs + [Proc(pid, [None, None, None, None])] && t.cur == |s.procs| && t.queue == s.queue + [s.cur]
  {
    FindsListed(s.procs, s.queue, pid, 0);
    var p := s.procs[s.cur];
    assert ForkTable(p, false).pdes == p.pdes && Child(p, pid).pdes == p.pdes;
    hide TableShape, FramesInRange, ShareCounts, FindPid, FlushTlb, ForkTable, Child;
  }

  lemma SwitchSound(s: State, pid: nat)
    requires Sound(s)
    ensures Shape(s) && Sound(DoSwitch(s, pid)) && Step(s, Switch(pid)) == (DoSwitch(s, pid), Switched)
  {
    SwitchKeeps(s, pid);
    SwitchCoherent(s, pid);
    SwitchStep(s, pid);
    hide PageInv, Coherent, DoSwitch, Step;
  }

  lemma BareAccess(s: State, v: nat, rw: nat)
    requires Sound(s) && Bare(s.procs[s.cur]) && Legal(Access(v, rw))
    ensures Shape(s) && Step(s, Access(v, rw)) == (s, Segfault)
  {
    TranslateIsWalk(s, rw, v);
    hide PageInv, Coherent, Translate;
  }

  lemma ForkFirst(tlbOn: bool)
    ensures Shape(Initial(tlbOn))
    ensures var t := DoSwitch(Initial(tlbOn), 1);
      && Sound(t) && FrameLeft(t) && t.cur == 1 && t.queue == [0]
      && t.procs == [Proc(0, [None, None, None, None]), Proc(1, [None, None, None, None])]
  {
    var z := Initial(tlbOn);
    InitialSound(tlbOn);
    assert Bare(z.procs[z.cur]) && z.procs == [Proc(0, [None, None, None, None])] && z.queue == [] && z.mapcounts[0] == 0;
    hide DoSwitch, PageInv, Coherent, Initial, FrameLeft;
    SwitchSound(z, 1);
    BareFork(z, 1);
    FrameStays(z, 1, 0);
    assert [] + [0] == [0];
  }

  lemma FrameStays(s: State, pid: nat, f: nat)
    requires Sound(s) && PidsBelow(s, pid) && f < NR_PAGEFRAMES && s.mapcounts[f] == 0
    ensures FrameLeft(DoSwitch(s, pid))
  {
    UnusedStays(s, f);
    SwitchForks(s, pid);
    ForkMode(s, pid);
    assert DoSwitch(s, pid).mapcounts[f] == 0;
    hide DoSwitch, Fork, ShareCounts, PageInv, Coherent;
  }

  /** The child allocates a page; the parent stays as it was. */
  lemma ChildAllocates(s: State)
    requires Sound(s) && FrameLeft(s) && s.cur == 1 && s.queue == [0]
    requires s.procs == [Proc(0, [None, None, None, None]), Proc(1, [None, None, None, None])]
    ensures Shape(s)
    ensures var (t, o) := Step(s, Alloc(3, ACCESS_BOTH));
      && Sound(t) && o.Allocated? && t.cur == 1 && t.queue == [0] && |t.procs| == 2
      && t.procs[0] == Proc(0, [None, None, None, None]) && t.procs[1].pid == 1
  {
    assert Lookup(s.procs[1], 3) == NO_PTE;
    FreshAlloc(s, 3, ACCESS_BOTH);
    Isolation(s, Alloc(3, ACCESS_BOTH));
    hide PageInv, Coherent, Step, Lookup;
  }

  /** Going back to the parent drops the child from the list, so asking for it forks another. */
  lemma BackAndForth(s: State)
    requires Sound(s) && s.cur == 1 && s.queue == [0] && |s.procs| == 2
    requires s.procs[0] == Proc(0, [None, None, None, None]) && s.procs[1].pid == 1
    ensures Shape(s)
    ensures var t := DoSwitch(s, 0);
      var u := DoSwitch(t, 1);
      && Sound(t) && Sound(u) && t.queue == [] && u.cur == 2 && u.queue == [0]
      && u.procs == s.procs + [Proc(1, [None, None, None, None])]
  {
    SwitchSound(s, 0);
    SwitchList(s, 0);
    assert FindPid(s.procs, s.queue, 0, 0) == Some(0);
    assert RemoveAt(s.queue, 0) == [];
    var t := DoSwitch(s, 0);
    hide DoSwitch, PageInv, Coherent;
    SwitchSound(t, 1);
    BareFork(t, 1);
    assert [] + [0] == [0];
  }

  /**
   A session that loses a process: the child allocates page 3, the parent runs again, and the next switch
   to the child makes a third process with the child's pid, for which page 3 is a missing directory.
   */
  lemma LosingSession(tlbOn: bool)
    ensures LastOutcome(Initial(tlbOn), LosingCommands()) == Segfault
    ensures var t := RunCommands(Initial(tlbOn), LosingCommands()).0;
      && |t.procs| == 3 && t.procs[0].pid == 0 && t.procs[1].pid == 1 && t.procs[2].pid == 1 && Lost(t, 1)
  {
    hide Initial, DoSwitch, LastOutcome, RunCommands, FrameLeft, Shape, Sound, Step;
    ForkFirst(tlbOn);
    var z := Initial(tlbOn);
    InitialIsSound(tlbOn);
    SwitchSound(z, 1);
    var s1 := DoSwitch(z, 1);
    ChildAllocates(s1);
    var s2 := Step(s1, Alloc(3, ACCESS_BOTH)).0;
    LosingEnd(s2);
    SwitchSound(s2, 0);
    SwitchSound(DoSwitch(s2, 0), 1);
    LosingRun(z, s1, s2, DoSwitch(s2, 0), DoSwitch(DoSwitch(s2, 0), 1));
  }

  lemma InitialIsSound(tlbOn: bool)
    ensures Sound(Initial(tlbOn))
  {
    InitialSound(tlbOn);
  }

  lemma LosingEnd(s: State)
    requires Sound(s) && s.cur == 1 && s.queue == [0] && |s.procs| == 2
    requires s.procs[0] == Proc(0, [None, None, None, None]) && s.procs[1].pid == 1
    ensures Shape(s)
    ensures var t := DoSwitch(s, 0);
      var u := DoSwitch(t, 1);
      && Sound(t) && Sound(u) && Step(u, Access(3, ACCESS_READ)) == (u, Segfault)
      && |u.procs| == 3 && u.procs[0].pid == 0 && u.procs[1].pid == 1 && u.procs[2].pid == 1 && Lost(u, 1)
  {
    hide DoSwitch, Step, Shape, Sound;
    BackAndForth(s);
    BareAccess(DoSwitch(DoSwitch(s, 0), 1), 3, ACCESS_READ);
  }

  lemma LosingRun(s: State, s1: State, s2: State, s3: State, s4: State)
    requires Shape(s) && Shape(s1) && Shape(s2) && Shape(s3) && Shape(s4)
    requires Step(s, Switch(1)) == (s1, Switched) && Step(s1, Alloc(3, ACCESS_BOTH)).0 == s2
    requires Step(s1, Alloc(3, ACCESS_BOTH)).1.Allocated?
    requires Step(s2, Switch(0)) == (s3, Switched) && Step(s3, Switch(1)) == (s4, Switched)
    requires Step(s4, Access(3, ACCESS_READ)) == (s4, Segfault)
    ensures LastOutcome(s, LosingCommands()) == Segfault && RunCommands(s, LosingCommands()).0 == s4
  {
    hide Step, Shape, LastOutcome, RunCommands;
    var last := [Access(3, ACCESS_READ)];
    LastOfOne(s4, last[0]);
    Onward(s3, Switch(1), last);
    Onward(s2, Switch(0), [Switch(1)] + last);
    Onward(s1, Alloc(3, ACCESS_BOTH), [Switch(0)] + ([Switch(1)] + last));
    Onward(s, Switch(1), [Alloc(3, ACCESS_BOTH)] + ([Switch(0)] + ([Switch(1)] + last)));
    assert [Switch(1)] + ([Alloc(3, ACCESS_BOTH)] + ([Switch(0)] + ([Switch(1)] + last))) == LosingCommands();
  }

  /** One switch of the documented machine to the only listed process. */
  lemma SwapsPair(spaces: seq<Space>, pids: seq<nat>, from: nat, to: nat, pid: nat)
    requires |spaces| == |pids| && from < |spaces| && to < |spaces| && pids[to] == pid
    ensures PromisedStep(Ideal(spaces, pids, from, [to]), Switch(pid)) == (Ideal(spaces, pids, to, [from]), Done)
  {
    assert IdealFind(pids, [to], pid, 0) == Some(0);
    assert RemoveAt([to], 0) + [from] == [from];
  }

  /** With the switch as documented the same session ends with the child reading its page. */
  lemma DocumentedSession()
    ensures var j0 := Ideal([map[]], [0], 0, []);
      var j1 := PromisedStep(j0, Switch(1)).0;
      var j2 := PromisedStep(j1, Alloc(3, ACCESS_BOTH)).0;
      var j3 := PromisedStep(j2, Switch(0)).0;
      var j4 := PromisedStep(j3, Switch(1)).0;
      j4.cur == 1 && |j4.spaces| == 2 && PromisedStep(j4, Access(3, ACCESS_READ)).1 == Done
  {
    var child: Space := map[3 := ACCESS_BOTH];
    DocumentedFork();
    DocumentedAlloc(child);
    SwapsPair([map[], child], [0, 1], 1, 0, 0);
    SwapsPair([map[], child], [0, 1], 0, 1, 1);
    DocumentedRead(child);
    hide PromisedStep;
  }

  lemma DocumentedFork()
    ensures PromisedStep(Ideal([map[]], [0], 0, []), Switch(1)).0 == Ideal([map[], map[]], [0, 1], 1, [0])
  {
    assert IdealFind([0], [], 1, 0) == None;
    var none: seq<nat> := [];
    assert none + [0] == [0];
  }

  lemma DocumentedAlloc(child: Space)
    requires child == map[3 := ACCESS_BOTH]
    ensures PromisedStep(Ideal([map[], map[]], [0, 1], 1, [0]), Alloc(3, ACCESS_BOTH)).0 == Ideal([map[], child], [0, 1], 1, [0])
  {
    var none: Space := map[];
    assert none[3 := ACCESS_BOTH] == child;
  }

  lemma DocumentedRead(child: Space)
    requires child == map[3 := ACCESS_BOTH]
    ensures PromisedStep(Ideal([map[], child], [0, 1], 1, [0]), Access(3, ACCESS_READ)).1 == Done
  {
  }
}
