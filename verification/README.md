# Three operating-systems assignments, proved

A Dafny 4.11 model of three small C programs and proofs of what they are for:

* the **scheduling simulator** (OS-PA2): one tick loop, sixteen exclusive resources with wait queues,
  and eight interchangeable policies;
* the **virtual memory simulator** (OS-PA3): two-level page tables, fork with copy-on-write, frame map
  counts and a TLB;
* the **shell's alias expansion** (OS-PA1), with the tokenizer it re-applies;
* the **intrusive circular list** that all three share.

`dafny verify dfyconfig.toml` checks everything.

## How it is laid out

Each simulator is modelled twice. A *state machine* over values follows the C code function by
function, branch by branch (`SchedModel`, `VmModel`); the theorems are about it. Beside it stands the
program *as it is*, with objects, arrays and pointers updated in place by loops (`Simulator`,
`Machine`); every method there is proved to take exactly the state machine's step, so that the
theorems hold of the loops too.

| file | contents |
|---|---|
| `Seqs.dfy` | sequences, the running-best scan, pigeonhole |
| `SchedModel.dfy` | the scheduler's state machine, with the policy as a parameter |
| `SchedInvariants.dfy` | what every tick keeps under every policy |
| `SchedRuns.dfy` | termination, whole runs |
| `SchedSafety.dfy` | conservation of processes, ownership on schedule, no lost wake-ups |
| `SchedPlugins.dfy` | the same for any scheduling callback that meets the contract |
| `SchedCallbacks.dfy` | what forking, each policy's pick, acquisition, release and wake-up do, from the fields alone |
| `Deadlock.dfy`, `Disciplines.dfy` | stuck means a wait cycle; three disciplines a script can follow |
| `Fairness.dfy`, `AgingCap.dfy` | round robin and aging; how high aging lets a priority climb |
| `Turns.dfy` | when the running process goes on, and how long equals wait for each other |
| `Inheritance.dfy`, `Ceiling.dfy` | the two priority protocols |
| `Nested.dfy`, `Chains.dfy`, `CeilingLimits.dfy` | exactly where they stop working |
| `Sjf.dfy`, `Stcf.dfy` | back-to-back runs of the two policies that never preempt; optimality of the two shortest-first ones |
| `Simulator.dfy` | the simulator's objects and loops |
| `VmModel.dfy`, `VmInvariants.dfy`, `VmTlb.dfy` | the memory state machine, its tables and its TLB |
| `VmIdeal.dfy`, `VmCommands.dfy`, `VmRuns.dfy` | private address spaces as the reference; single commands; whole sessions |
| `VmSessions.dfy`, `VmSwitching.dfy` | sessions from the initial machine that go wrong; what a switch loses |
| `VmReports.dfy` | each command case by case; what a session's reports say about frames |
| `Machine.dfy` | the memory simulator's arrays and loops |
| `ListHead.dfy` | the list as heap nodes that refine a sequence |
| `Tokenizer.dfy`, `Aliases.dfy` | the shell |

## What a script and a command may be

A script is well formed if every lifespan is at least 1, every resource number is below 16, and every
request has a duration of at least 1 and is over by the end of the lifespan. A command names a page
below 64; an allocation is for reading or for reading and writing, an access may be for reading,
writing or both. These are the only general assumptions. Every further condition below is either part
of an if-and-only-if or names the scripts the theorem is about.

## Where the code does not do what it promises

The code is modelled as it is. For each promise below that fails, a lemma gives an input on which it
fails, and another the exact condition under which it holds.

* `pip_release` and `pcp_release` restore the original priority although other resources may still be
  held (OS-PA2/pa2.c:484-487, OS-PA2/pa2.c:571-574). `InheritanceReleaseIff` and `CeilingReleaseIff`
  say exactly which releases go wrong, and `InheritanceFails` and `CeilingFails` are scripts on which
  they do.
* `pip_acquire` raises the owner of the resource, but not the process that owner may be waiting for
  (OS-PA2/pa2.c:544-546). `InheritanceAcquireIff` says exactly when that goes wrong, `ChainFails` is a
  script. Over whole runs inheritance is proved for scripts whose holding periods do not overlap, where
  neither can happen.
* The ceiling keeps everybody from being blocked exactly for processes that give back together what
  they hold together (`NeverBlocked`, `SafeIff`; `OverlapBlocks` finds the second process otherwise).
* The documentation of the aging scheduler caps priorities at `MAX_PRIO` (OS-PA2/README.md:76);
  `pa_schedule` does not (`CapExceeded`). `CapKeptIff` is the condition for one decision, and
  `CapKeptByAllIff` the one for all scripts of a size: M + N - 1 at most the cap.
* The same paragraph raises the waiting processes before a decision, not the running one; the code
  raises them all while it scans (`AgingDiffers`, `AgingAsDocumentedIff`).
* The shortest-time-to-completion scheduler is to replace the running process only by a shorter one
  (OS-PA2/README.md:70); on a tie it replaces it too (`StcfTieSwitches`, `StcfAsDocumentedIff`).
* A copy on write without a free frame spoils a count and reports success without a translation
  (`CopyWithoutMemory`; `StarvationReachable` gives sessions that end so). An access under a missing
  directory reads through a null pointer; the model calls this outcome `Segfault`
  (`MissingDirectory`). Copy-on-write is transparent exactly when neither happens and no allocation
  runs out of frames (`StepFaithful`, `SharingTransparent`).
* `insert_tlb` stops at the first unused entry even if the page is cached further on. The TLB stays
  coherent exactly when no page cached behind an unused entry is upgraded (`StepCoherent`), and every
  such upgrade can be made visible (`BadUpgradeIsVisible`); `StaleSession` does so from the start.
* A switch to a listed process does not put the one that was current on the list (OS-PA3/pa3.c:274-276,
  OS-PA3/pa3.c:292-299). It is on the list exactly if nobody listed has the pid (`OutgoingListedIff`)
  and otherwise lost for good (`SwitchLoses`, `LostForever`); `LosingSession` loses a process and its
  page. The reference machine of `SharingTransparent` switches as the code does; `PromiseKeptIff` says
  exactly which sessions agree with one that switches as documented.
* Words that came out of an alias are translated again if an older alias has their name
  (`TranslatedAgain`; `ExpansionIsSubstitution` has the exact condition), and an alias whose body
  contains its own name after the first token is expanded for ever (`NeverEnds`;
  `ScanMeansExpanded` has the exact condition).

## Model

| member | source | states |
|---|---|---|
| `SchedInvariants.InitialInv` | OS-PA2/sched.c:389-398 | A well-formed script starts in a state that satisfies the tick-boundary invariant: everybody is in the fork queue, every request is accounted for, nothing is owned and nobody is overdue. |
| `SchedInvariants.ScheduleMeetsContract` | OS-PA2/pa2.c:147-438 | Every one of the eight policies, in every state, takes at most one process from the ready queue, re-queues an unblocked unfinished current process or keeps it running, picks nobody only from an empty queue, and touches nothing but priorities otherwise. |
| `SchedInvariants.ForkFromKeeps` | OS-PA2/sched.c:230-245 | The fork walk keeps the invariant, only appends to the ready queue, and leaves nobody behind whose start tick has come. |
| `SchedInvariants.LaunchKeeps` | OS-PA2/sched.c:328-347 | Retiring the previous process and starting whichever one a policy meeting the contract chose leaves every process in one place with the matching status, and a wake-up either in the ready queue or with the chosen process. |
| `SchedInvariants.AcquireUpToPrio` | OS-PA2/pa2.c:450-562 | Up to priorities the ceiling and inheritance acquire callbacks grant and block exactly as fcfs_acquire does. |
| `SchedInvariants.ReleaseUpToPrio` | OS-PA2/pa2.c:323-609 | Up to priorities every release callback frees the resource and readies exactly one of its waiters, if there is one. |
| `SchedInvariants.AcquireFromKeeps` | OS-PA2/sched.c:272-293 | The acquisition walk grants every request due at the current age, or ends with the process blocked on its first ungranted one; either way the invariant and the wake-up guarantee are kept. |
| `SchedInvariants.ReleaseFromKeeps` | OS-PA2/sched.c:298-316 | The release walk, half done or not, keeps each held request due back on time, owners equal to holding lists, and no wake-up lost. |
| `SchedInvariants.TickKeepsInv` | OS-PA2/sched.c:325-386 | One iteration of the loop keeps the invariant under every policy, and counts one tick. |
| `SchedRuns.InvAlways` | OS-PA2/sched.c:321-387 | The invariant holds at every tick boundary of every run of every well-formed script under every policy. |
| `SchedRuns.TickDecreases` | OS-PA2/sched.c:325-386 | Every iteration that does not leave the loop lowers the lexicographic measure: lifetime left, then ticks until the last start, then runnable processes. |
| `SchedRuns.Run` | OS-PA2/sched.c:321-387 | The loop terminates for every well-formed script under every policy, deadlocks included, in a state in which nothing runs, nothing is ready and nothing is to be forked. |
| `SchedRuns.FinalState` | OS-PA2/sched.c:349-354 | In the state in which the loop leaves, everybody has exited or is blocked, and no free resource has a waiter. |
| `Deadlock.StuckMeansCycle` | OS-PA2/sched.c:349-354 | If some process is unfinished when the loop leaves, it is blocked and there is a cycle of processes each waiting for a resource the next one owns. |
| `Deadlock.RunEndsOrDeadlocks` | OS-PA2/sched.c:321-387 | Every run ends with everybody finished if and only if it leaves no wait cycle. |
| `SchedPlugins.TickByKeeps` | OS-PA2/sched.c:321-387 | Every loop iteration with any scheduling callback that meets the contract, not only the eight that exist, keeps the invariant. |
| `SchedPlugins.TickByDecreases` | OS-PA2/sched.c:321-387 | Every iteration with any such callback that does not leave the loop decreases the measure. |
| `SchedPlugins.RunBy` | OS-PA2/sched.c:321-387 | So the loop terminates with every such callback, from every state of the invariant, and leaves halted. |
| `SchedPlugins.AnyRunEndsOrDeadlocks` | OS-PA2/sched.c:321-387 | With any such callback every run finishes everybody if and only if it leaves no wait cycle. |
| `SchedPlugins.PoliciesPlug` | OS-PA2/sched.c:327-330 | The eight policies are instances: with the callback of one of them the iteration is the one of the state machine. |
| `SchedCallbacks.ForkMeans` | OS-PA2/sched.c:230-245 | The fork walk moves exactly the due processes, in order, behind those that are ready, and leaves the others in order. |
| `SchedCallbacks.NeverPreempts` | OS-PA2/pa2.c:147-232 | Under first come first served and shortest job first a current process that is not blocked and has lifetime left is the one that runs next, and the ready queue only gains the arrivals. |
| `SchedCallbacks.FcfsPicks` | OS-PA2/pa2.c:161-190 | Otherwise first come first served takes the head of the ready queue followed by the arrivals, or nobody if that is empty. |
| `SchedCallbacks.SjfPicks` | OS-PA2/pa2.c:216-232 | Otherwise shortest job first takes the first of the processes with the least lifespan there. |
| `SchedCallbacks.RrPicks` | OS-PA2/pa2.c:291-311 | Round robin takes the head of that queue, with the current process, if it can go on, standing last. |
| `SchedCallbacks.StcfPicks` | OS-PA2/pa2.c:246-273 | Shortest time to completion takes, from the same queue, the first process with the least left to do. |
| `SchedCallbacks.PriorityPicks` | OS-PA2/pa2.c:371-438 | Plain priority, aging, ceiling and inheritance take, from the same queue, the first process with the highest priority. |
| `SchedCallbacks.DecisionMeans` | OS-PA2/sched.c:328-347 | A decision changes no field of any process but the status, which is that of running, made ready again, still blocked or exited, and, under aging only, the priorities of the candidates. |
| `SchedCallbacks.ReleaseWakes` | OS-PA2/pa2.c:94-609 | A release by any of the eight policies frees the resource and moves one waiter to the end of the ready queue: the first one under the four policies without priorities; under the four with priorities one that nobody in the queue outranks and before whom everybody is less important. Under the two protocols the caller falls back to its original priority, and nothing else changes. |
| `SchedCallbacks.TickWakes` | OS-PA2/sched.c:298-386 | Lifted to a tick from any reachable state: a process that stops being blocked becomes ready, and was the one to wake, in that sense, in the queue of some resource. Overlapping holdings are included. |
| `SchedCallbacks.WalkTakes` | OS-PA2/sched.c:272-293 | An acquisition walk that is not blocked takes the requests due at the current age, in order, and no others. |
| `SchedCallbacks.WalkBlocks` | OS-PA2/sched.c:281-285 | A walk that is blocked has taken the due requests before the one that blocks it, in order, and leaves the process blocked at the end of the queue of that one, which somebody owns. |
| `Deadlock.OrderedScriptsFinish` | OS-PA2/pa2.c:59-131 | Scripts that request resources in increasing order finish every process, under every policy. |
| `Disciplines.ReleaseFromHoldings` | OS-PA2/sched.c:302-315 | The release walk over the holding list, with its removals on the way, ticks every held request down by one and drops exactly those that reach zero, in order. |
| `Disciplines.AlwaysFollow` | OS-PA2/sched.c:272-316 | A script whose requests are increasing, or do not overlap, or end together when they overlap, stays so at every tick boundary, also for what is held at that time. |
| `SchedSafety.Conserved` | OS-PA2/sched.c:230-386 | Each process is in exactly one place: fork queue, ready queue, one wait queue, the processor, or exited; no queue holds anybody twice. |
| `SchedSafety.OwnedOnSchedule` | OS-PA2/sched.c:272-316 | A resource requested at age a for d ticks is owned by its process at every age from a up to a + d, at age a itself as soon as the request is no longer pending, also while the process is blocked on another resource; and a resource is owned only under such a request. |
| `SchedSafety.WakeupsAreSafe` | OS-PA2/pa2.c:94-131 | A free resource with waiters has a ready process whose next request is that resource; every waiter waits for its own first pending request. |
| `SchedSafety.SafeAlways` | OS-PA2/sched.c:321-387 | At every tick boundary of every run: each process is in one place and no queue repeats a name, resources are owned on schedule and only under a request, a waiter waits for its own first pending request, and a free resource with waiters has a ready process that wants it. |
| `Fairness.PickedFirstBest` | OS-PA2/pa2.c:371-438 | A preemptive policy picks the first process with the best key in the queue made of the old ready queue, the new arrivals and the preempted process, in this order. |
| `Fairness.RoundRobinExact` | OS-PA2/pa2.c:291-311 | Under round robin the process at position k of the ready queue is picked by exactly the (k + 1)-th following decision, whatever forks, blocks and releases happen meanwhile. |
| `Fairness.AgingPick` | OS-PA2/pa2.c:423-435 | The aging scan, which compares with <= while it boosts, picks the first maximum of the priorities before the boost, adds one to everybody else in the queue and puts the choice back to its original priority. |
| `Fairness.AgingNeverStarves` | OS-PA2/pa2.c:410-438 | With M the largest original priority and N processes, a ready process of priority x is picked within max(0, M - x) + N decisions. |
| `Fairness.AgingInvAlways` | OS-PA2/pa2.c:410-438 | What that bound rests on: at every tick boundary a process outside the ready queue has its original priority, and nobody is below it. |
| `Fairness.AgingStart` | OS-PA2/sched.c:198-199 | It holds at the start, where every priority is the original one. |
| `AgingCap.CapKeptIff` | OS-PA2/pa2.c:423-435 | From a state within a cap, a tick under aging exceeds the cap if and only if its decision passes over a candidate that is already at the cap. |
| `AgingCap.PriorityBound` | OS-PA2/pa2.c:410-438 | With N processes and no original priority above M, no priority ever exceeds M + N - 1 in any run. |
| `AgingCap.BoundReached` | OS-PA2/pa2.c:410-438 | For every N and M there is a script that reaches M + N - 1. |
| `AgingCap.CapExceeded` | OS-PA2/pa2.c:423-435 | Two processes of priority MAX_PRIO that start together: after one tick the second has priority 65. |
| `AgingCap.CapKeptByAllIff` | OS-PA2/README.md:76 | All scripts of N processes with priorities up to M keep a cap if and only if M + N - 1 is within it. |
| `Turns.GoesOnIff` | OS-PA2/README.md:74 | Under every preemptive policy a running process that could go on does so if and only if it beats every other candidate strictly, so equals are switched at each tick. |
| `Turns.TurnsExact` | OS-PA2/README.md:74 | Under the priority scheduler a ready process that nobody outranks, with m processes of its priority ahead of it in the ready queue, is picked by exactly the (m + 1)-th following decision, whatever arrives meanwhile. |
| `Turns.StcfAsDocumentedIff` | OS-PA2/README.md:70 | Shortest time to completion keeps or replaces the running process as documented if and only if a shorter one is waiting or no other one has exactly as much left. |
| `Turns.StcfTieSwitches` | OS-PA2/pa2.c:246-273 | A script on which a newcomer with as much left as the running process takes over from it. |
| `Turns.AgingAsDocumentedIff` | OS-PA2/README.md:76 | Aging picks the process the documented adjustment would pick, unless it lets the running process go on while another candidate is exactly one below it. |
| `Turns.AgingDiffers` | OS-PA2/pa2.c:423-435 | A script on which the two differ. |
| `InheritanceProtocol.InheritanceStart` | OS-PA2/sched.c:198-199 | Scripts whose holding periods do not overlap start in a state from which the next three rows apply. |
| `InheritanceProtocol.InheritanceAlwaysExact` | OS-PA2/pa2.c:534-609 | From such a state, at every later tick boundary an owner's priority is the maximum of its original priority and its waiters' priorities, even after a third process took the resource before the woken waiter. |
| `InheritanceProtocol.NoInversion` | OS-PA2/pa2.c:371-395 | While a process waits, whoever is picked to run has at least its priority. |
| `InheritanceProtocol.TickExact` | OS-PA2/pa2.c:534-609 | One iteration under inheritance keeps priorities exact, from any state that satisfies the invariant. |
| `CeilingProtocol.NeverBlocked` | OS-PA2/pa2.c:450-522 | Under the ceiling protocol, if whatever a process holds together it gives back together and original priorities are below the ceiling, nobody is ever blocked and only the current process holds anything. |
| `CeilingProtocol.CeilingStart` | OS-PA2/sched.c:198-199 | Such scripts start in a state from which the next row applies. |
| `CeilingProtocol.CeilingAlways` | OS-PA2/pa2.c:450-522 | At every later tick boundary all wait queues are empty, and a process is at the ceiling exactly while it holds something. |
| `CeilingProtocol.OneAtATime` | OS-PA2/pa2.c:450-522 | If holding periods do not overlap at all, the current process holds at most one resource. |
| `CeilingLimits.OverlapBlocks` | OS-PA2/pa2.c:476-522 | For every process with two requests that overlap without ending together, or that name one resource, there is a second process, with a single request, next to which somebody gets blocked. |
| `CeilingLimits.SafeIff` | OS-PA2/pa2.c:450-522 | So a process that starts at tick 0 never gets anybody blocked, itself included, next to any process of the kind NeverBlocked is about, if and only if it is of that kind itself. |
| `NestedHoldings.InheritanceReleaseIff` | OS-PA2/pa2.c:571-574 | pip_release leaves its caller the priority inheritance asks for if and only if nobody more important than its original priority waits for something it still owns. |
| `NestedHoldings.CeilingReleaseIff` | OS-PA2/pa2.c:484-487 | pcp_release keeps an owner at the ceiling if and only if the resource was its last one, or the ceiling is its own priority. |
| `NestedHoldings.InheritanceFails` | OS-PA2/pa2.c:571-574 | A well-formed script with two held resources on which, after three ticks, pip_release has put an owner back to priority 0 although a process of priority 10 waits for what it still owns. |
| `InheritanceChains.InheritanceAcquireIff` | OS-PA2/pa2.c:544-546 | If every owner has the priority inheritance asks for before a blocking pip_acquire, every owner has it afterwards if and only if not both the owner of the resource and another process it waits for are outranked by the caller. |
| `InheritanceChains.ChainFails` | OS-PA2/pa2.c:544-546 | A well-formed script on which, after three ticks and without any release, an owner of priority 5 keeps a process of priority 10 waiting, and the next decision picks a process of priority 7 while two of priority 10 wait. |
| `NestedHoldings.CeilingFails` | OS-PA2/pa2.c:484-487 | A well-formed script, with priorities below the ceiling but overlapping requests, on which after two ticks an owner runs at priority 0 and another process is blocked. |
| `ShortestJobFirst.SjfSchedule` | OS-PA2/pa2.c:204-232 | For resource-free scripts with a common start the m-th job of the shortest-first order completes exactly when the first m lifespans have passed: the loop leaves no gap. |
| `ShortestJobFirst.SjfOrderAscends` | OS-PA2/pa2.c:220-229 | Taking the first shortest job again and again gives nondecreasing lifespans. |
| `ShortestJobFirst.OrderPermutes` | OS-PA2/pa2.c:166-232 | The order in which first come first served or shortest job first serves a queue has every job of the queue exactly once. |
| `ShortestJobFirst.FcfsSchedule` | OS-PA2/pa2.c:147-190 | For the same scripts under first come first served process k of the script completes exactly when the lifespans of the first k + 1 processes have passed: nobody is interrupted and nobody overtakes. |
| `ShortestJobFirst.AscendingOptimal` | OS-PA2/pa2.c:204-232 | No one-at-a-time arrangement of the same job lengths, gaps allowed, has a smaller sum of completion ticks than the ascending one back to back. |
| `ShortestJobFirst.SjfOptimal` | OS-PA2/pa2.c:204-232 | The completion ticks of the SJF run sum to no more than those of any non-preemptive schedule of the same jobs. |
| `ShortestRemainingFirst.StcfTick` | OS-PA2/pa2.c:246-273 | A tick under STCF is idle only if everybody who has arrived is finished; otherwise it goes to a process with the least time left. |
| `ShortestRemainingFirst.LeastKeepsAhead` | OS-PA2/pa2.c:259-271 | Giving the tick to the least remaining time keeps a lead, measured by the summed shortfalls below every threshold, against any use the other schedule makes of it. |
| `ShortestRemainingFirst.StcfFinishesMost` | OS-PA2/pa2.c:246-273 | For resource-free scripts with arbitrary start ticks, at every tick STCF has finished at least as many processes as any schedule. |
| `Simulator.Simulation.constructor` | OS-PA2/sched.c:389-398 | Loads a script into fresh objects that stand for the initial state. |
| `Simulator.Simulation.FcfsAcquire` | OS-PA2/pa2.c:59-83 | Updates owner, status and wait queue in place to exactly the granted or blocked state. |
| `Simulator.Simulation.PcpAcquire` | OS-PA2/pa2.c:450-476 | The same with the taker raised to the ceiling. |
| `Simulator.Simulation.PipAcquire` | OS-PA2/pa2.c:534-562 | The same with the owner raised to the blocked process's priority if that is higher. |
| `Simulator.Simulation.FcfsRelease` | OS-PA2/pa2.c:94-131 | Un-owns the resource and moves its first waiter to the tail of the ready queue. |
| `Simulator.Simulation.HighestWaiter` | OS-PA2/pa2.c:335-346 | The running-best loop over the wait queue ends at the first waiter of highest priority. |
| `Simulator.Simulation.PrioRelease` | OS-PA2/pa2.c:323-366 | Un-owns the resource and readies the first waiter of highest priority. |
| `Simulator.Simulation.PcpRelease` | OS-PA2/pa2.c:478-522 | Restores the releaser's priority first, then as prio_release. |
| `Simulator.Simulation.PipRelease` | OS-PA2/pa2.c:564-609 | Restores the releaser's priority first, then as prio_release. |
| `Simulator.Simulation.FcfsSchedule` | OS-PA2/pa2.c:147-190 | Keeps a runnable current process, else unlinks the head of the ready queue. |
| `Simulator.Simulation.ShortestReady` | OS-PA2/pa2.c:222-227 | The loop over the ready queue ends at the first shortest lifespan. |
| `Simulator.Simulation.SjfSchedule` | OS-PA2/pa2.c:204-232 | Keeps a runnable current process, else unlinks the first shortest job. |
| `Simulator.Simulation.ShortestRemaining` | OS-PA2/pa2.c:261-269 | The loop ends at the first least remaining time. |
| `Simulator.Simulation.StcfSchedule` | OS-PA2/pa2.c:246-273 | Re-queues a runnable current process and unlinks the first one with the least time left. |
| `Simulator.Simulation.RrSchedule` | OS-PA2/pa2.c:291-311 | Re-queues a runnable current process and unlinks the head. |
| `Simulator.Simulation.HighestReady` | OS-PA2/pa2.c:386-391 | The loop ends at the first highest priority. |
| `Simulator.Simulation.PrioSchedule` | OS-PA2/pa2.c:371-395 | One callback serves plain priority, ceiling and inheritance alike. |
| `Simulator.Simulation.AgeReady` | OS-PA2/pa2.c:425-432 | The interleaved compare-and-boost loop boosts everybody by one and ends at the first maximum of the priorities before the boost. |
| `Simulator.Simulation.PaSchedule` | OS-PA2/pa2.c:410-438 | The whole aging decision: boost, reset of the choice, unlinking. |
| `Simulator.Simulation.ForkOnSchedule` | OS-PA2/sched.c:230-245 | The safe iteration over the fork queue moves exactly the due processes, in order. |
| `Simulator.Simulation.RunCurrentAcquire` | OS-PA2/sched.c:272-293 | The safe iteration over the pending list equals the acquisition walk of the state machine. |
| `Simulator.Simulation.RunCurrentRelease` | OS-PA2/sched.c:298-316 | The safe iteration over the holding list, with entries removed on the way, equals the release walk. |
| `Simulator.Simulation.ReleaseAllowed` | OS-PA2/pa2.c:98-111 | The assertions of the release callbacks hold whenever the loop calls them: the caller owns the resource and its waiters are blocked. |
| `Simulator.Simulation.ExitAllowed` | OS-PA2/sched.c:252-259 | The assertions of __exit_process hold: an exiting process is in no queue, holds nothing and has nothing pending. |
| `Simulator.Simulation.RunnerDetached` | OS-PA2/sched.c:362-363 | The assertion of the main loop holds: the process about to run is in no queue. |
| `Simulator.Simulation.PickNext` | OS-PA2/sched.c:328-347 | Fork, pick, retire the previous process and start the next one, in place. |
| `Simulator.Simulation.RunTick` | OS-PA2/sched.c:358-385 | The running half of an iteration, in place. |
| `Simulator.Simulation.DoSimulation` | OS-PA2/sched.c:321-387 | The loop over the objects terminates, with every assertion met, in exactly the final state of the run. |
| `Simulator.Simulate` | OS-PA2/sched.c:321-387 | From a script to that final state. |
| `VmModel.FirstFree` | OS-PA3/pa3.c:141-143 | The frame found is free and the smallest one; none is found only if none is free. |
| `VmModel.SetPteLookup` | OS-PA3/pa3.c:146-158 | Writing one PTE, allocating its directory if there is none, changes what is looked up at that page and nowhere else. |
| `VmModel.ForkTableLookup` | OS-PA3/pa3.c:307-338 | After a fork every valid page of parent and child has the parent's frame without a write bit, and the same directories exist. |
| `VmInvariants.AllocKeeps` | OS-PA3/pa3.c:134-165 | alloc_page on an unmapped page keeps counts exact, frames on one page number, and writers alone. |
| `VmInvariants.FreeKeeps` | OS-PA3/pa3.c:177-214 | free_page on a mapped page keeps the same. |
| `VmInvariants.UpgradeKeeps` | OS-PA3/pa3.c:257-260 | Giving the write bit back to a frame counted once keeps the same. |
| `VmInvariants.CopyKeeps` | OS-PA3/pa3.c:249-254 | Moving a page off a shared frame to a free one keeps the same. |
| `VmInvariants.ForkKeeps` | OS-PA3/pa3.c:300-338 | A fork keeps the same: each frame of the parent gains exactly one mapping, at the same page. |
| `VmInvariants.SwitchKeeps` | OS-PA3/pa3.c:285-347 | So does switch_process, whether it finds a process or forks one; processes that left the list still count. |
| `VmInvariants.CountMeans` | OS-PA3/pa3.c:247-260 | A mapped frame has a positive count, and a count of one means that there is a single mapping over all processes ever created. |
| `VmTlb.SlotExists` | OS-PA3/pa3.c:95-116 | With distinct cached pages the insert loop always finds a slot below 64: its 128 rounds are enough for the 256 entries. |
| `VmTlb.FlushClears` | OS-PA3/pa3.c:344-346 | The 128 rounds of the flush leave no valid entry. |
| `VmTlb.LookupFinds` | OS-PA3/pa3.c:70-81 | The lookup loop finds a valid entry of the page with enough permission if and only if there is one. |
| `VmTlb.EvictClears` | OS-PA3/pa3.c:201-211 | With distinct cached pages the eviction loop clears exactly the entry of the page. |
| `VmTlb.InsertCoherent` | OS-PA3/pa3.c:95-116 | Caching the current PTE makes all entries true and distinct if and only if no unused entry precedes one for that page. |
| `VmTlb.TranslateIsWalk` | OS-PA3/vm.c:94-137 | With a coherent TLB a translation answers what the page table says. |
| `VmTlb.ResolvedFacts` | OS-PA3/pa3.c:232-264 | An upgrade or a copy leaves sound tables, a writable page, and every other PTE of every process as it was. |
| `VmTlb.RetryServes` | OS-PA3/vm.c:165-183 | A write the handler resolves succeeds in the second round, at the frame the page is then mapped to: one retry always suffices. |
| `VmTlb.RetryCoherent` | OS-PA3/vm.c:132-134 | After that retry the TLB is coherent if and only if the page was not cached behind an unused entry. |
| `VmIdeal.StepFaithful` | OS-PA3/vm.c:323-386 | One command reports and means what the machine with private page maps does, and leaves sound tables, if and only if it finds a free frame where it needs one and a directory under the page it accesses. |
| `VmIdeal.CopyWithoutMemory` | OS-PA3/pa3.c:249-254 | The failing case: in a copy without a free frame the handler runs twice and lowers the count by two, or, when only two mappings were counted, by one and then sets the write bit on the frame that is still shared; the count ends below the number of mappings, and the access reports success without having translated. |
| `VmCommands.StepCoherent` | OS-PA3/pa3.c:95-116 | A command that needs no copy without a free frame keeps the TLB coherent if and only if it is not an upgrade of a page cached behind an unused entry. |
| `VmCommands.StepOff` | OS-PA3/vm.c:94-190 | With a coherent TLB a command that needs no copy without a free frame has the same outcome, frame included, and leaves the same tables and counts as with the TLB off. |
| `VmCommands.BadUpgradeIsVisible` | OS-PA3/pa3.c:107-114 | Why that condition cannot be dropped: after any such upgrade, freeing the page and reading it succeeds through a stale entry, in the frame the page had before the upgrade, where without the TLB the read is denied. |
| `VmCommands.Isolation` | OS-PA3/pa3.c:285-347 | No command changes another process's tables, and a switch or fork changes nobody's frames or permissions. |
| `VmCommands.AccessLands` | OS-PA3/vm.c:150-190 | A served access lands in the frame its page is mapped to; a served write in a frame with no other mapping in any process. |
| `VmRuns.SharingTransparent` | OS-PA3/vm.c:323-386 | Over any command sequence without an upgrade behind an unused entry, the machine agrees with the one of private page maps after every command if and only if every command is safe. |
| `VmRuns.TlbTransparent` | OS-PA3/vm.c:94-190 | Over any such sequence in which no copy lacks a frame, all outcomes and the final tables are the same with the TLB on and off, and the TLB is coherent at the end; a failed allocation or a missing directory may end the sequence. |
| `VmRuns.UncachedHoleFree` | OS-PA3/vm.c:104-107 | With the TLB off the condition about unused entries always holds. |
| `VmRuns.InitialSound` | OS-PA3/vm.c:247-250 | The initial machine satisfies what these theorems ask for, and means one process with an empty map. |
| `VmSessions.MissingDirectory` | OS-PA3/pa3.c:240 | From the initial machine every access ends the session with a null directory. |
| `VmSessions.Starves` | OS-PA3/pa3.c:249-254 | From every sound state whose current process can write a page, some sequence of forks and writes ends in an access that reports success without a translation. |
| `VmSessions.StarvationReachable` | OS-PA3/pa3.c:249-254 | Such a session exists from the initial machine, with the TLB and without it. |
| `VmSessions.StaleSession` | OS-PA3/pa3.c:107-114 | A session of nine commands from the initial machine whose last read is served from the parent's frame with the TLB on and denied with it off. |
| `VmSwitching.ListSoundAlways` | OS-PA3/pa3.c:292-342 | After every session the list of processes names nobody twice, and not the current process. |
| `VmSwitching.OutgoingListedIff` | OS-PA3/pa3.c:274-276 | The process that was current is on the list after a switch, as documented, if and only if no listed process has the requested pid. |
| `VmSwitching.SwitchLoses` | OS-PA3/pa3.c:292-299 | Otherwise it is neither current nor on the list. |
| `VmSwitching.LostForever` | OS-PA3/pa3.c:292-342 | A process that is neither current nor on the list stays so through every further session, with its page tables, and so its frames, unchanged. |
| `VmSwitching.PromiseKeptIff` | OS-PA3/pa3.c:274-281 | Against a reference machine whose switch always lists the outgoing process: over any sequence without an upgrade behind an unused entry the machine reports and means the same after every command if and only if every command is safe and no switch asks for a process that an earlier switch has dropped. |
| `VmSwitching.LosingSession` | OS-PA3/pa3.c:292-299 | Five commands from the initial machine after which pid 1 exists twice, the first of them lost with the page it allocated, and reading that page ends in a missing directory. |
| `VmSwitching.DocumentedSession` | OS-PA3/pa3.c:274-281 | With the documented switch the same commands end with the page read. |
| `VmReports.MissCaches` | OS-PA3/vm.c:94-137 | A page the table allows to be accessed translates to its frame; if it was not cached, the first unused entry, which is one of the first 64, now caches exactly its PTE. |
| `VmReports.MappedAlloc` | OS-PA3/vm.c:216-219 | Allocating a mapped page reports the frame the page is mapped to and leaves tables, counts, current process and list as they were. |
| `VmReports.UnmappedAlloc` | OS-PA3/vm.c:221-227 | Allocating an unmapped page takes the smallest of the 128 frames that nothing is mapped to, with count 1 and the requested permission, and changes no other PTE; memory is reported full, and nothing changes, if and only if every frame is in use. |
| `VmReports.FreeReports` | OS-PA3/vm.c:232-245 | Freeing a mapped page reports its frame, takes one off its count and leaves the page without PTE and TLB entry; freeing any other page changes nothing. |
| `VmReports.PlainAccess` | OS-PA3/vm.c:150-190 | An access that needs no upgrade is served at the mapped frame if the PTE allows it, ends in the null directory if there is none, and is denied otherwise; only the TLB changes. |
| `VmReports.SoleWrite` | OS-PA3/pa3.c:257-260 | A write to a page that lost its write bit while its frame has one mapping gets the bit back in the same frame, counts unchanged. |
| `VmReports.SharedWrite` | OS-PA3/pa3.c:247-256 | If the frame is shared, the page moves to the smallest free frame, which then has count 1, and the old frame has one mapping less; no other PTE changes. |
| `VmReports.SwitchFlushes` | OS-PA3/pa3.c:344-346 | A switch invalidates the first 128 of the 256 TLB entries and touches no other. |
| `VmReports.SwitchBack` | OS-PA3/pa3.c:292-299 | The first listed process with the pid becomes the current one and leaves the list, the others in order; tables and counts stay. |
| `VmReports.SwitchNew` | OS-PA3/pa3.c:300-342 | Otherwise a fork: the parent goes to the end of the list, and the child maps the same frames with the same original permissions, neither of them writable. |
| `VmReports.StopsExactly` | OS-PA3/vm.c:323-386 | A session stops after the first refused allocation or null directory and nowhere else; what comes after it has no effect. |
| `VmReports.ReportsTrue` | OS-PA3/vm.c:208-245 | Every report of every session in which no copy lacks a frame and no page is upgraded behind an unused entry is true of the page at that point: the frame allocated, found allocated, freed or accessed is the one the page is mapped to before or after, and each refusal has its reason. |
| `Machine.System.constructor` | OS-PA3/vm.c:62-72 | Fresh arrays and one process that stand for the initial machine. |
| `Machine.System.LookupTlb` | OS-PA3/pa3.c:70-81 | The loop over the TLB array returns what the state machine looks up. |
| `Machine.System.InsertTlb` | OS-PA3/pa3.c:95-116 | The insert loop updates the array in place to exactly the state machine's TLB. |
| `Machine.System.EvictTlb` | OS-PA3/pa3.c:202-211 | So does the eviction loop. |
| `Machine.System.FlushTlb` | OS-PA3/pa3.c:344-346 | So does the flush loop. |
| `Machine.System.AllocPage` | OS-PA3/pa3.c:134-165 | Counts the smallest free frame and stores the PTE, allocating a directory if needed; other directories keep their contents. |
| `Machine.System.FreePage` | OS-PA3/pa3.c:177-214 | Clears the PTE, lowers the count and evicts the page, in place. |
| `Machine.System.HandlePageFault` | OS-PA3/pa3.c:232-264 | All branches of the handler, in place. |
| `Machine.System.ForkDirectory` | OS-PA3/pa3.c:313-337 | The inner loop of the fork fills the child's directory and strips the parent's write bits, counting every valid page. |
| `Machine.System.ForkProcess` | OS-PA3/pa3.c:301-342 | The nested loops of the fork give the child directories of its own and make it current. |
| `Machine.System.FindProcess` | OS-PA3/pa3.c:290-299 | The search loop finds the first listed process with the pid. |
| `Machine.System.SwitchProcess` | OS-PA3/pa3.c:285-347 | switch_process as a whole, flush included. |
| `Machine.System.Translate` | OS-PA3/vm.c:94-137 | The MMU step, with TLB lookup and insertion. |
| `Machine.System.AccessMemory` | OS-PA3/vm.c:150-190 | The do-while loop with its retry count. |
| `Machine.System.AllocCommand` | OS-PA3/vm.c:208-230 | The alloc command. |
| `Machine.System.FreeCommand` | OS-PA3/vm.c:232-245 | The free command. |
| `Machine.System.DoSimulation` | OS-PA3/vm.c:329-385 | The command loop, which a failed allocation ends, returns exactly the outcomes of the state machine's run. |
| `Machine.Simulate` | OS-PA3/vm.c:323-386 | A whole session from the initial machine. |
| `ListHead.TestsMean` | OS-PA2/list_head.h:184-239 | The pointer tests for empty, singular and last say exactly that of the sequence. |
| `ListHead.RingTurns` | OS-PA2/list_head.h:34-36 | A ring is a ring read from any of its nodes. |
| `ListHead.SameList` | OS-PA2/list_head.h:34-36 | Head and pointers determine the entries: no two sequences fit the same ring. |
| `ListHead.InitListHead` | OS-PA2/list_head.h:43-47 | The node is an empty list. |
| `ListHead.LinkBetween` | OS-PA2/list_head.h:55-63 | Linking between neighbours inserts at that position of the ring, writing only three nodes. |
| `ListHead.ListAdd` | OS-PA2/list_head.h:73-76 | Inserts at the front. |
| `ListHead.ListAddTail` | OS-PA2/list_head.h:87-90 | Inserts at the back. |
| `ListHead.UnlinkEntry` | OS-PA2/list_head.h:99-114 | Removes the entry from the sequence, writing only its neighbours. |
| `ListHead.ListDel` | OS-PA2/list_head.h:116-121 | Removes the entry and poisons it. |
| `ListHead.ListDelInit` | OS-PA2/list_head.h:150-154 | Removes the entry and leaves it a list of its own. |
| `ListHead.ListReplace` | OS-PA2/list_head.h:130-137 | The new node takes the old one's place in the ring, also when the old one is alone in it. |
| `ListHead.ListReplaceInit` | OS-PA2/list_head.h:139-144 | The same, and the old node is left an empty list. |
| `ListHead.ListMove` | OS-PA2/list_head.h:161-165 | Moves an entry to the front of another list, or of its own. |
| `ListHead.ListMoveTail` | OS-PA2/list_head.h:172-177 | Moves an entry to the back of another list, or of its own; the list it leaves is intact. |
| `ListHead.ListRotateLeft` | OS-PA2/list_head.h:222-230 | The first entry becomes the last; an empty list is untouched. |
| `ListHead.ListCutPosition` | OS-PA2/list_head.h:267-279 | The prefix up to the entry moves to the new list; in the two early-return cases nothing is written, not even the new list. |
| `ListHead.ListCutBefore` | OS-PA2/list_head.h:295-309 | The prefix before the entry moves to the new list; all of it if the entry is the head. |
| `ListHead.SpliceBetween` | OS-PA2/list_head.h:311-323 | Inserts all entries of a list between two neighbours of another ring, leaving the emptied head as it was. |
| `ListHead.ListSplice` | OS-PA2/list_head.h:330-335 | Joins at the front. |
| `ListHead.ListSpliceTail` | OS-PA2/list_head.h:342-347 | Joins at the back. |
| `ListHead.ListSpliceInit` | OS-PA2/list_head.h:356-363 | Joins at the front and reinitialises the emptied head. |
| `ListHead.ListSpliceTailInit` | OS-PA2/list_head.h:373-380 | Joins at the back and reinitialises the emptied head. |
| `ListHead.CutAndSpliceBack` | OS-PA2/list_head.h:267-335 | Cutting a prefix into an empty list and splicing it back at the head restores the list, wherever the cut falls, early returns included. |
| `Tokenizer.Strtok` | OS-PA1/parser.c:28 | One call returns the next maximal token and where to resume. |
| `Tokenizer.ParseCommand` | OS-PA1/parser.c:22-36 | The loop returns all tokens in order. |
| `Tokenizer.TokensCut` | OS-PA1/parser.c:24-32 | The tokens are slices of the command, in order, nonempty, without any of the six characters space, tab, carriage return, form feed, newline and vertical tab, each bounded by one of them or an end of the text; and everything outside them is one of the six. |
| `Tokenizer.CutIsUnique` | OS-PA1/parser.c:24-32 | No other list of words is such a cut of the command. |
| `Tokenizer.NewlineIgnored` | OS-PA1/mash.c:75-77 | A line as it is read, with its newline, has the tokens of the line. |
| `Tokenizer.TokensAreProper` | OS-PA1/parser.c:24-32 | Tokens are nonempty and contain no delimiter. |
| `Tokenizer.DelimiterSeparates` | OS-PA1/parser.c:24-32 | The tokens of two texts with a delimiter between them are those of the first and then those of the second. |
| `Tokenizer.WordIsToken` | OS-PA1/parser.c:24-32 | A text without delimiters is one token. |
| `Tokenizer.TokensKeepInk` | OS-PA1/parser.c:28-32 | No character is lost or moved: the tokens run together are the command without its delimiters. |
| `Tokenizer.JoinTokens` | OS-PA1/pa1.c:199-205 | The strcat loop builds the tokens joined with single spaces, without a trailing one. |
| `Tokenizer.JoinAppend` | OS-PA1/pa1.c:199-205 | Joining puts exactly one space between two words and nothing before or after them. |
| `Tokenizer.JoinRoundTrip` | OS-PA1/pa1.c:199-214 | A stored body tokenizes to the tokens it was built from. |
| `Tokenizer.RetokenizeStable` | OS-PA1/pa1.c:198-205 | Storing and retokenizing changes nothing but the white space. |
| `Aliases.ScanMeansExpanded` | OS-PA1/pa1.c:62-98 | The scan for one alias ends if and only if its name is absent or does not recur in its body after the first token, and then leaves the closed form of the expansion. |
| `Aliases.NeverEnds` | OS-PA1/pa1.c:64-98 | Otherwise the scan is still going on after any number of steps. |
| `Aliases.ExpansionIsSubstitution` | OS-PA1/README.md:120-130 | With nonempty bodies, expanding in place equals the one-pass, newest-definition-wins substitution if and only if every token used is settled: its alias does not recur, and the older aliases rename each token of its body back to itself. |
| `Aliases.IndependentExpansion` | OS-PA1/pa1.c:58-102 | If no body contains an older alias's name, or its own after the first token, every command expands to its substitution. |
| `Aliases.TranslatedAgain` | OS-PA1/README.md:120-130 | Three definitions after which a translated word is translated again, against the promise of the documentation. |
| `Aliases.EmptyBodyDeletes` | OS-PA1/pa1.c:64-98 | An alias with an empty body deletes its occurrences if and only if no two of them are adjacent. |
| `Aliases.DefinitionRoundTrip` | OS-PA1/pa1.c:189-215 | A definition stores exactly the expanded tokens that follow the name, and keeps all stored names and bodies proper. |
| `Aliases.StackGrowsIff` | OS-PA1/pa1.c:105-215 | A line that is not an exit line defines an alias if and only if its expansion has at least two tokens, the first is alias, and none is a pipe; then exactly that alias is pushed, and otherwise the stack is as it was. |
| `Aliases.NewestWins` | OS-PA1/pa1.c:58-102 | After a definition a command that starts with the name expands as the new body would have before, whatever older definitions of the name there are. |
| `Aliases.DefinitionsStay` | OS-PA1/pa1.c:189-215 | Over any session the stack keeps all it had, in order, at the bottom, and grows by at most one entry a line. |
| `Aliases.Shell.Splice` | OS-PA1/pa1.c:73-96 | The three copying loops replace one token by the body. |
| `Aliases.Shell.ExpandTokens` | OS-PA1/pa1.c:58-99 | The nested loops, splicing in place, compute the expansion and end whenever it has a value. |
| `Aliases.Shell.RunAlias` | OS-PA1/pa1.c:51-215 | The alias part of run_command: an exit line comes back as it is and leaves the stack alone; every other line is expanded, and pushes its name and joined body if it has two tokens, starts with alias and contains no pipe, and nothing otherwise. |

## Left out

- Printing, `dump_status`, the `show` family of commands, option parsing and the reading of script and command files: input and output. Scripts and commands are values.
- Reading of words as permissions and numbers in the memory simulator's command loop: `access` takes any of the three permission values, and 3, which the assertion in `__access_memory` accepts, is among them.
- The shell's processes, pipes, `cd` and `exit` beyond their effect on aliases: operating-system calls.
- The iteration order macros, `container_of` and the `hlist` half of the list header: unused, or without content once nodes are objects.
- `Simulator.Simulation` and `Machine.System` keep their process queues as sequences of objects; `ListHead` proves separately that the list operations act on rings as those sequences are acted on. The two are not composed into one heap.
- The `forked` and `exiting` callbacks: none of the eight policies sets them.
- Unsigned wrap-around of ticks, ages, priorities and map counts above 2^32: natural numbers are used. The wrap of a decremented zero is modelled, in `__run_current_release` and in `free_page`.
- Memory contents returned by `malloc`: directories and child tables are taken to be zeroed, as the simulator relies on (OS-PA3/pa3.c:149, OS-PA3/pa3.c:302, OS-PA3/pa3.c:310). Fixed sizes of token buffers and arrays, and the null terminator written behind the token list (OS-PA1/pa1.c:101), are not modelled.
- After `Segfault` a session is over; what the null access would really do is not modelled.
- Inheritance for nested holdings over whole runs: the code does not keep it, and beyond one acquisition or one release it is not characterised which scripts happen to come out right.
- CeilingLimits.SafeIff: is about processes that start at tick 0; a later start only puts idle ticks before the run.
- In which order those who ask for a released resource get it: a woken waiter has to ask again, and whoever runs before it may take the resource. That no wake-up is lost (WakeupsAreSafe) and that under inheritance nobody less important overtakes (NoInversion) is proved; how often equals overtake each other is not.
- Aliases.ExpansionIsSubstitution: stated for tables without empty bodies. With empty bodies tokens shield each other; EmptyBodyDeletes settles the case of a single such alias.
- Aliases.Shell.ExpandTokens: requires that the expansion has a value, since otherwise the loops do not end (ScanMeansExpanded, NeverEnds).
- Aliases.Shell.RunAlias: requires the same, because it expands its command first.
- VmRuns.TlbTransparent: stops before a copy that finds no free frame. After one the counts are wrong, and what the TLB then does is not characterised.
- ShortestJobFirst.SjfOptimal: is about processes that start together; with arrivals a non-preemptive policy is not optimal. StcfFinishesMost has no such restriction.
- The tokenizers of OS-PA2/parser.c and OS-PA3/parser.c, and `fcfs_initialize` and `fcfs_finalize`, are not modelled.
