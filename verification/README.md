# A verified model of the BESS core

BESS is a software switch. This project models five parts of its core in Dafny
and proves what they keep over every call, every run and every interleaving.

- **Traffic classes and the scheduler** (`TrafficClass.dfy`, `Scheduler.dfy`,
  `RoundRobin.dfy`, `Stride.dfy`, `StrideFairness.dfy`, `TokenBucket.dfy`,
  `ScheduledFairness.dfy`, `ScheduledRates.dfy`, `ExtendedPriorityQueue.dfy`). A
  tree of mutable classes with redundant blocked flags and lists is shown to agree,
  after every operation, with the recursive meaning "some leaf below can run". On
  top of it: the descent and the climb of a round meet the same child at every
  level, usage is conserved, the round-robin list refines a cyclic queue, stride
  scheduling is fair and starvation free within stated bounds, and a token bucket
  keeps to its rate, from above and from below, over every run. The rounds of the scheduler are shown to be
  such runs: no weighted-fair class that shares counts starves a child, and a rate
  limit without another one below bounds what its subtree uses.
- **Worker pause and resume** (`WorkerProtocol.dfy`). One master and any number of
  workers as a state machine over atomic steps: safety over all interleavings, what
  every request has achieved when it ends, and that none gets stuck.
- **A task run** (`TaskRun.dfy`, `TaskOrder.dfy`). Packets travel in batches through
  the chained gate, per-gate batches that are merged, and a priority queue. Every
  packet is accounted for, on a graph without cycles the run ends, and when
  priorities grow along the links nothing comes to a merging gate after its turn.
- **Metadata offsets** (`MetadataScopes.dfy`, `MetadataOpenScopes.dfy`,
  `MetadataUpdate.dfy`, `MetadataOffsets.dfy`, `MetadataOverlap.dfy`). Discovery of scope components on
  graphs with cycles, and greedy placement by degree with `int8_t` arithmetic; for
  both, a condition under which the result is right and an input on which it is not.
- **The module graph** (`GateLinks.dfy`, `IGatePriority.dfy`). Doubly linked gates
  with explicit allocation and deletion, unique gate indices, and priorities as
  longest paths.

Objects that the source updates in place are classes here, or one class holding
the tables of such objects; loops and recursive walks are methods. Ghost
parameters such as `path`, `k`, `rank`, `height`, `p` and `e` only carry what the
contracts talk about. Clock readings, the result of a task, the decisions of
packet-processing modules and the order of the module table are parameters.

Premises taken from what the code supports: rate limits and time stamps passed
to accounting are positive; a class is not attached below itself; the batch pool
is large enough; the packets of a whole task run pass output gates with a hook.

Where the code does not keep what it is for, the exact failure is a result here:

- A weighted-fair child that is stopped through `BlockTowardsRoot`, or attached
  while blocked, has its pass read as a penalty when it wakes.
  `StrideFairness.StoppedThenWoken`, `AttachedThenWoken` and `WokenExact` say
  exactly when it then leaves the band, and `BandIsLeft` gives a state.
- A packet emitted at an output gate without hooks is never run exactly when its
  batch is full, another waits at the input gate, and no chaining applies, or when
  its batch was lost that way before (`TaskRun.Task.EmitUnhooked`). From a task at
  rest that happens to the 33rd packet (`EmitOneTooMany`).
- Scope components can stay valid although packets reach a reader past no writer:
  `MetadataOpenScopes.SecondWriterMissed` on a graph without cycles and
  `CycleMissed` on one with a cycle.
- Components that share modules can be placed over each other, although they are
  sorted by degree: `MetadataOverlap.SortedOverlaps`, for every order of equals.
- A later update of the task graph follows no link behind a gate that has a
  priority already: `IGatePriority.RightIffUpToDate` and `LaterLinkMissed`.
- `core/traffic_class.h` line 562 documents a rate limit of 0 as "no limit"; the
  code throttles such a class like any other, but schedules no wakeup for it:
  `TokenBucket.ZeroLimitNeverWakes`.

`dafny verify dfyconfig.toml` checks the whole project.

## Model

| member | source | states |
|---|---|---|
| `ExtendedPriorityQueue.TopIsMinimum` | core/utils/extended_priority_queue.h:45-50 | in a heap the first element has the least key of all elements |
| `ExtendedPriorityQueue.DecreaseKeyTop` | core/utils/extended_priority_queue.h:54-83 | after the key at the top changed, sifting down restores the heap and keeps the elements |
| `ExtendedPriorityQueue.DeleteSingleElement` | core/utils/extended_priority_queue.h:85-96 | exactly the first element that satisfies the predicate goes, the rest is a heap again; nothing changes when there is none |
| `RoundRobin.EraseCycle` | core/traffic_class.cc:339-362 | erasing a runnable child deletes it from the cyclic queue of upcoming picks and skips nobody, wrap-around included |
| `RoundRobin.Block` | core/traffic_class.cc:388-405 | the blocked children leave, the cyclic order of the others stays, both lists partition the members by the flag |
| `RoundRobin.Unblock` | core/traffic_class.cc:374-386 | the unblocked children are appended in list order behind the runnable ones, which keep their places |
| `RoundRobin.Remove` | core/traffic_class.cc:329-368 | the child leaves whichever list holds it, the cyclic order of the others stays |
| `RoundRobin.AddKeeps` | core/traffic_class.cc:310-327 | a new child joins the list its flag demands and the lists stay a partition |
| `RoundRobin.FinishBlocked` | core/traffic_class.cc:407-428 | a child that blocked during its round leaves the head of the cyclic queue, nobody else moves |
| `RoundRobin.FinishRotates` | core/traffic_class.cc:407-428 | one count per round rotates the cyclic queue by one |
| `RoundRobin.PicksFollowCycle` | core/traffic_class.cc:370-372 | with one count each, the k-th of n picks is the k-th entry of the cyclic queue read round and round, for every n |
| `RoundRobin.EveryWindowServesAll` | core/traffic_class.cc:407-428 | with n runnable children every window of n picks serves each exactly once, from any start |
| `Stride.Finish` | core/traffic_class.cc:271-298 | the top child is charged its pass, or parked with its penalty when it blocked; heap, entries and strides are kept |
| `Stride.Unblock` | core/traffic_class.cc:244-257 | the unblocked children enter the heap one after the other at the current least pass plus their penalty |
| `Stride.Block` | core/traffic_class.cc:259-269 | the first child found blocked, if any, moves to the blocked list with its pass; when at most one is blocked the lists partition the children by the flag |
| `Stride.Add` | core/traffic_class.cc:188-206 | a new child enters with the stride of its share: runnable at the current least pass, or blocked with that pass stored where a penalty belongs |
| `Stride.Remove` | core/traffic_class.cc:208-238 | the entry of the child goes from the blocked list if it is there, else from the heap, and no other entry changes |
| `StrideFairness.BandStep` | core/traffic_class.cc:188-298 | every one of the eight operations on the class keeps all runnable passes within d of the least and all penalties within d, if its charge fits d and, for a child stopped or attached blocked, the pass it stores fits d too |
| `StrideFairness.BandAlong` | core/traffic_class.cc:188-298 | the band holds in every state of every run of such operations |
| `StrideFairness.PassIsService` | core/traffic_class.cc:271-298 | while a child stays runnable its pass grows by exactly the service it received |
| `StrideFairness.ProportionalService` | core/traffic_class.cc:271-298 | over every window in which two children stay runnable their service differs by at most 2d |
| `StrideFairness.ProportionalUse` | core/traffic_class.cc:271-298 | the same in units of the shared resource: stride times use differs by a bound in d, the quantum and the number of charges |
| `StrideFairness.SiblingPicksBounded` | core/traffic_class.cc:244-298 | while a child waits, each sibling is picked at most d + 1 times, even if siblings block and wake |
| `StrideFairness.NoStarvation` | core/traffic_class.cc:188-298 | a child that stays runnable is picked within (d + 1) rounds per sibling, whatever the siblings do |
| `StrideFairness.CountedRound` | core/traffic_class.h:57-61 | with shares 1 to 1024 one round on the count resource adds 1 to 1024 to the pass |
| `StrideFairness.NoStarvationByCount` | core/traffic_class.cc:188-298 | rounds that count one, with every share between 1 and 1024: strides never change, passes stay within 1024 of the least, and a child that stays runnable is picked within 1025 rounds per sibling |
| `StrideFairness.StoppedThenWoken` | core/traffic_class.cc:259-269 | a child stopped through BlockTowardsRoot and woken again leaves all runnable passes within d if and only if it wakes alone or the pass it had, now read as a penalty, is at most d |
| `StrideFairness.AttachedThenWoken` | core/traffic_class.cc:195-197 | a child attached while blocked and then woken stays within d of the least pass if and only if the least pass at its attachment was at most d |
| `StrideFairness.WokenExact` | core/traffic_class.cc:244-257 | waking a child leaves all runnable passes within d if and only if it wakes alone or its stored penalty is at most d |
| `StrideFairness.BandIsLeft` | core/traffic_class.cc:244-269 | two children of share 1024 at pass 2000: the second, stopped or attached blocked, and woken, joins at 4000, outside the band of 1024 |
| `TokenBucket.PotentialStep` | core/traffic_class.cc:476-515 | one event never raises consumed work plus potential beyond limit - 1 per throttle; tokens stay below the burst |
| `TokenBucket.RateBound` | core/traffic_class.cc:476-515 | over every run, consumed work plus tokens is at most the initial tokens plus limit times the cycles up to the later of last accounting and wakeup plus limit - 1 per throttle; tokens never exceed the burst |
| `TokenBucket.PotentialKept` | core/traffic_class.cc:476-515 | one event never lowers consumed work plus potential by more than the tokens beyond the burst and the cycles an awake limiter is not granted because it is resumed |
| `TokenBucket.RateReached` | core/traffic_class.cc:476-515 | over every run, consumed work plus tokens is at least the initial tokens plus limit times the cycles covered, less those losses |
| `TokenBucket.ThrottledExactly` | core/traffic_class.cc:491-513 | a charge throttles if and only if it exceeds the tokens in hand and all that was granted since the last accounting; it then sleeps for the whole cycles that what is owed takes, and otherwise keeps the rest up to the burst |
| `TokenBucket.ResumeExact` | core/traffic_class.cc:476-481 | waking a limiter grants nothing beyond its potential if and only if time does not go back |
| `TokenBucket.ZeroLimitNeverWakes` | core/traffic_class.cc:497-507 | a limiter with limit 0 that runs out of tokens blocks without a wakeup |
| `TrafficClasses.TrafficClass.UnblockTowardsRoot` | core/traffic_class.cc:129-138 | for all four policies: a class told of an unblocked child repairs its lists and flag and the repair reaches the root, so the whole tree is consistent; classes below are untouched, and each class above changes by a trail of single wakings, every one at the pass the source gives it |
| `TrafficClasses.TrafficClass.UnblockTowardsRootSetBlocked` | core/traffic_class.h:231-240 | sets the flag and carries the change to the root only if it became unblocked, leaving the whole tree consistent |
| `TrafficClasses.TrafficClass.BlockTowardsRoot` | core/traffic_class.cc:140-147 | the same for a child that became blocked, for all four policies |
| `TrafficClasses.TrafficClass.BlockTowardsRootSetBlocked` | core/traffic_class.h:244-253 | sets the flag and carries the change to the root only if it became blocked, leaving the whole tree consistent |
| `TrafficClasses.TrafficClass.PickNextChild` | core/traffic_class.cc:125-127 | an unblocked composite class picks a child of its own that is unblocked: the one with the least priority number of all unblocked ones, one with the least pass, or the head of the cyclic queue |
| `TrafficClasses.TrafficClass.PriorityFinish` | core/traffic_class.cc:149-167 | the first runnable priority and the flag agree with the children again |
| `TrafficClasses.TrafficClass.FairFinish` | core/traffic_class.cc:271-298 | the heap charges or parks the accounted child, lists and flag agree again |
| `TrafficClasses.TrafficClass.RingFinish` | core/traffic_class.cc:407-428 | the ring moves on or drops the accounted child, lists and flag agree again |
| `TrafficClasses.TrafficClass.LimitFinish` | core/traffic_class.cc:488-521 | the bucket is charged, the class is blocked exactly when it ran out or its child is blocked, and queued for its wakeup time exactly when it ran out |
| `TrafficClasses.TrafficClass.FinishAndAccountTowardsRoot` | core/traffic_class.h:608-617 | the climb meets at every level the child that level picked, does that policy's accounting, sets the wakeup time a throttled limiter gets, charges each class on the path once, and leaves the whole tree and the wakeup queue consistent |
| `TrafficClasses.TrafficClass.Backoff` | core/scheduler.h:360-367 | a leaf that had nothing to do sleeps for twice its last wait, at most 2^20 cycles, and is queued once |
| `TrafficClasses.TrafficClass.AddPriorityChild` | core/traffic_class.cc:81-102 | succeeds exactly for an unattached child with a free priority; then the child is linked and the tree consistent, else nothing changes |
| `TrafficClasses.TrafficClass.AddFairChild` | core/traffic_class.cc:188-206 | the same for a weighted-fair child, with a positive share: exactly one entry is added, at the least pass with the stride of the share, to the heap or the blocked list |
| `TrafficClasses.TrafficClass.AddRingChild` | core/traffic_class.cc:310-327 | the same for a round-robin child: it ends the runnable or the blocked list, which are otherwise as before |
| `TrafficClasses.TrafficClass.AddLimitedChild` | core/traffic_class.cc:446-457 | the same for the one child of a limiter, whose tokens stay and whose time is set |
| `TrafficClasses.TrafficClass.RemoveChild` | core/traffic_class.cc:104-123 | succeeds exactly for a child of this class; then it is unlinked, every other child keeps its own priority, its pass or penalty and stride, or its place in the cyclic order, and the tree is consistent up to the root, for all four policies |
| `Schedulers.BlockedMeansNothingRunnable` | core/scheduler.h:184-187 | in a consistent tree a class is blocked if and only if no leaf below it is unblocked with an awake path up to it |
| `Schedulers.Scheduler.WakeTCs` | core/scheduler.h:106-120 | wakes exactly the classes whose time is before tsc, each once, in time order; every class changes by a trail of single wakings, every rate limit by events of its token bucket, and by its own wakeup only when nobody below it sleeps; tree and queue stay consistent |
| `Schedulers.Scheduler.Next` | core/scheduler.h:181-195 | returns null if and only if no leaf is runnable; else the descent from the root ends at an unblocked leaf with every class on the way picked, unblocked and awake; usage is untouched |
| `Schedulers.Scheduler.Settle` | core/scheduler.h:285-286 | accounting a descended path charges each class on it and does each policy's bookkeeping for the child below |
| `Schedulers.Scheduler.ScheduleOnce` | core/scheduler.h:255-300 | a round finds no runnable leaf, counts as idle and changes no more than the waking did; or it descends from the root to a leaf, each class awake and picking the next, and exactly the classes of that path are charged and do their accounting for the child they picked, wakeup times included; all others keep state and wakeup time; usage is conserved |
| `Schedulers.Scheduler.ScheduleOnceOrSleep` | core/scheduler.h:341-393 | the same for the scheduler in which a leaf that asks to sleep and got no packet is charged nothing, so that no usage changes, doubles its wait up to 2^20 cycles and sleeps, and any other leaf halves its wait |
| `Schedulers.ChargeAlongConserves` | core/traffic_class.h:142-149 | charging every class on a path to a leaf keeps each composite class's usage equal to the sum of its children's |
| `Schedulers.Scheduler.NothingUsed` | core/traffic_class.h:142-149 | a tree in which nothing was used yet is conserved, however it was built |
| `ScheduledFairness.RoundOfClass` | core/scheduler.h:255-300 | what a round of the scheduler does to a class that is not its leaf: wakings, then, exactly when the class is on the path, accounting for the child it picked |
| `ScheduledFairness.RoundsAreRun` | core/scheduler.h:255-300 | any number of rounds, seen from one weighted-fair class, are one run of stride scheduling: its states are those of the rounds, and it has one charge for each round with the class on the path, for the child in front, of what the round used |
| `ScheduledFairness.CountedRoundsKeepBand` | core/traffic_class.cc:188-298 | after any number of rounds that count one, a class that shares counts with shares 1 to 1024 has all runnable passes within 1024 of the least |
| `ScheduledFairness.NoStarvationOverRounds` | core/traffic_class.cc:188-298 | in any 1025 rounds per sibling that charge such a class, a child that stays runnable is picked and charged |
| `ScheduledRates.RoundIsLimited` | core/traffic_class.cc:476-521 | a round, seen from any rate limit, nested ones included, takes bucket and wakeup time through events of the token bucket: its own wakeup, resumptions from below, and a charge of the work units of the round when it is on the path |
| `ScheduledRates.RoundsEnabled` | core/traffic_class.cc:476-521 | for a limiter below which nobody sleeps, any number of rounds are a run in which every event is enabled: time never goes back and a throttled limiter is not charged |
| `ScheduledRates.RunRounds` | core/scheduler.h:255-300 | over any number of scheduler rounds, what the subtree of a limiter without another one below used of the limited resource, which is what the jobs of the charged rounds used of it, plus its tokens, is at most the tokens it had, limit times the cycles covered, and limit - 1 per round, and at least the first two less what was lost to the burst |
| `WorkerProtocol.InvAlong` | core/worker.cc:108-140 | the protocol invariant holds in every state of every interleaving |
| `WorkerProtocol.NoCheckFails` | core/worker.cc:254-275 | a worker only ever reads 1 or 2 from its event counter, so the failing check is unreachable, and so are the master's |
| `WorkerProtocol.HandshakesComplete` | core/worker.cc:108-117 | when pausing or launching stops spinning the worker is parked, when resuming does it runs, when destroying does it quits |
| `WorkerProtocol.ParkedUntilSignalled` | core/worker.cc:254-275 | a parked worker stays outside any scheduling round until the master signals it |
| `WorkerProtocol.PauseRequestObeyed` | core/worker.cc:108-117 | a pause request is never overwritten: it stays until the worker has parked |
| `WorkerProtocol.PausedThroughout` | core/worker.cc:415-454 | inside any nesting of pausers no worker runs; only the outermost resumes |
| `WorkerProtocol.PauserLists` | core/worker.cc:415-425 | a pauser lists exactly the workers that ran when its constructor began, in order |
| `WorkerProtocol.PauserResumesAll` | core/worker.cc:427-454 | when a pauser ends, every worker on its list that is parked then runs before the master does anything else |
| `WorkerProtocol.PausedAndResumed` | core/worker.cc:415-454 | every worker that ran when a pauser was built and was not taken down meanwhile runs again when it is destroyed, whatever happened in between |
| `WorkerProtocol.RpcDone` | core/worker.cc:108-140 | when a request on one worker ends, a paused or launched worker is parked, a resumed one runs, and a destroyed one is gone |
| `WorkerProtocol.MasterGoesOn` | core/worker.cc:108-140 | the master can always make a step, and every step brings it closer to being idle unless it spins |
| `WorkerProtocol.SpinIsServed` | core/worker.cc:108-140 | a spinning master is released once its worker is there; until then the worker has a step that brings it closer, and no step of a worker takes it away |
| `TaskRun.Task.AddToRun` | core/task.h:121-138 | the batch becomes the next of the chain when there is none and the gate is not mergeable, else joins a waiting batch if both hold at most 32 packets, else is queued; every packet stays on its way to the same gate |
| `TaskRun.Task.EmitUnhooked` | core/module.h:556-584 | the whole new state; the packet ends the batch of its output gate, and that batch will be run if and only if it was not a new one swallowed by a waiting batch, which happens exactly when the old batch is full, a batch waits at the input gate and the new one cannot be chained, nor one lost before; all other pending batches keep their packets and will be run |
| `TaskRun.Task.EmitOneTooMany` | core/module.h:556-584 | of 33 packets emitted from a task at rest to a mergeable input gate, 32 are in a batch that will be run and the last is in none |
| `TaskRun.EmptyPutUp` | core/task.h:121-138 | a batch put up while empty will be run, unless one waits at the gate and it is not chained: then nothing changes |
| `TaskRun.Task.DropPacket` | core/module.h:526-532 | the packet joins the dead batch; the whole batch is freed and counted exactly when it reaches 32 |
| `TaskRun.Task.EmitPacket` | core/module.h:534-585 | at a gate with a hook: the packet is on its way to the input gate connected to that output gate, or dropped when there is none; no batch passes 32 |
| `TaskRun.Task.RunChooseModule` | core/module.h:495-520 | the whole batch is on its way to the connected input gate, or freed when there is none |
| `TaskRun.Task.ProcessOGates` | core/module.h:587-609 | no output gate holds a batch any more, and every packet keeps its destination |
| `TaskRun.Task.RunStep` | core/task.cc:57-86 | one batch is handed to the module of its gate: the chained one, or one at a gate with the least priority number of all gates where packets wait; each of its packets had been sent there, is logged there once and treated as decided; all others are as before |
| `TaskRun.RoundDescends` | core/task.cc:57-86 | without cycles a round brings each packet of its batch strictly closer to the end and no packet further away |
| `TaskRun.Task.Run` | core/task.cc:48-91 | the run ends; it is a history of rounds in each of which the batch whose turn it is, by chain and priority, is handed over and treated as its module decides; at the end nothing is pending, every packet was handed over exactly where it was sent, along a route of the graph, and was freed once or kept by a module |
| `TaskRun.Task.RunAtMost` | core/task.cc:48-91 | on every graph, cycles included: after at most n rounds the run has ended as above, or it is a history of n rounds in which every packet is where its log says, along a route of the graph |
| `TaskOrder.NothingUpstream` | core/task.h:69-75 | when priorities grow along the links, no packet under way can still reach a mergeable gate that has its turn |
| `TaskOrder.NoLateArrivals` | core/gate.h:225-228 | then every later round of that gate hands over only packets that waited there at its first turn |
| `MetadataScopes.Pipeline.AddModuleToComponent` | core/metadata.cc:166-180 | adds a module that starts the component or has a reason to be in it |
| `MetadataScopes.Pipeline.TraverseUpstream` | core/metadata.cc:193-224 | ends on every graph and follows the walk relation; adds only modules that lead to a reader past no writer, and nobody loses a component or a mark; inside the zone of a separate writer everything upstream of the module is in |
| `MetadataScopes.Pipeline.TraverseDownstream` | core/metadata.cc:226-275 | ends on every graph although marks are cleared in mid-walk; returns 0 only for a member that does not write, and leaves the components alone when it returns -1; everything behind a module it walks is visited and every visited reader is a member |
| `MetadataScopes.Pipeline.IdentifyScopeComponent` | core/metadata.cc:287-301 | the writer belongs to the component, everything behind it is visited, and the walk below ends; in the middle of another walk it keeps closed members closed when what is behind the writer was visited |
| `MetadataScopes.Pipeline.IdentifySingleScopeComponent` | core/metadata.cc:280-285 | appends one component with the attribute and size of its writer; earlier components stay; it is closed upstream if the writer is separate: some set of modules around it has no cycle, and every other writer in front of the set is identified already or feeds one module only |
| `MetadataScopes.Pipeline.ComputeScopes` | core/metadata.cc:445-476 | afterwards every module that writes an attribute belongs to a component of it, every component was started by a writer and no two of one attribute by the same, every member but the starting writer is needed there, the modules directly behind that writer that read or update are members, a component is invalid only because of a member without inputs that does not write, and the component of a separate writer is closed upstream; the outcome is the one the discovery relation gives |
| `MetadataScopes.DiscoversOnce` | core/metadata.cc:445-476 | the discovery relation, made of one rule per branch of the walks, has one outcome, on every graph |
| `MetadataScopes.OneComponentEach` | core/metadata.cc:464-468 | an attribute with one writer has one component, whoever reads or updates it |
| `MetadataUpdate.OneComponent` | bessctl/conf/metadata/test6.bess:31-38 | on a chain of a writer, an updater and a reader the one component found is valid and holds all three |
| `MetadataScopes.WrittenOnTheWay` | core/metadata.cc:220-223 | for a valid component closed upstream: whatever way a packet takes to a member, it met a writer of the attribute that is a member, and only members after it |
| `MetadataOpenScopes.SecondWriterMissed` | core/metadata.cc:203-215 | on a graph with two writers and no cycle, in every order that starts with the first writer, the one component found is valid and yet a route without a writer leads to a reader in it |
| `MetadataOpenScopes.CycleMissed` | core/metadata.cc:203-215 | the same on a graph with one writer and a cycle |
| `MetadataOpenScopes.OrderMatters` | core/metadata.cc:445-476 | started from the first writer that graph does not meet the condition for closed components, started from the other it does |
| `MetadataOpenScopes.CycleIsOut` | core/metadata.cc:226-275 | the graph with the cycle does not meet the condition for closed components |
| `MetadataOffsets.AlignCeilPow2IsRounded` | core/utils/common.h:92-102 | for 1 to 32 the bit trick yields the least power of two that is no smaller, which the placement uses |
| `MetadataOffsets.NextOffset` | core/metadata.cc:52-65 | the result is the first aligned offset at or after the argument that fits the 128 bytes, or no space exactly when there is none, int8 wrap-around included |
| `MetadataOffsets.NoSpaceIsHigh` | core/metadata.cc:388-390 | when nothing fits behind a neighbour that neighbour lies at 34 or higher |
| `MetadataOffsets.NoSpaceStays` | core/metadata.cc:376-392 | once there is no space behind a neighbour the scan ends without a place |
| `MetadataOffsets.Pipeline.PlaceOne` | core/metadata.cc:361-393 | a component gets what the scan over its neighbours in offset order gives: offset 0 or the next place behind a neighbour, aligned and inside the 128 bytes, or no space when nothing fits behind that neighbour; it is apart from all assigned neighbours when the ends of these grow with their offsets |
| `MetadataOffsets.ScanWellPlaced` | core/metadata.cc:376-392 | over neighbours whose ends grow with their offsets the scan ends apart from all of them |
| `MetadataOffsets.Pipeline.AssignOffsets` | core/metadata.cc:344-398 | invalid components read nothing, single-module ones are left alone, every other gets what the scan over the earlier components sharing a module gives; it is apart from them when their ends grow with their offsets, and no two components that share a module overlap if sharing is transitive or all placed components have one size |
| `MetadataOffsets.Pipeline.ComputeScopeDegrees` | core/metadata.cc:434-443 | the pairwise count gives every component the number of other components it shares a module with |
| `MetadataOffsets.Pipeline.ComputeOffsets` | core/metadata.cc:477-479 | the components, with their degrees and sorted by them, are placed |
| `MetadataOverlap.SortedOverlaps` | core/metadata.cc:376-392 | twelve components whose placement, in every order the sort by degree may leave, puts one at offset 9, inside another of 32 bytes with which it shares a module |
| `GateLinks.ModuleGraph.ConnectModules` | core/module_graph.cc:315-340 | fails exactly for indices out of range or a slot in use; otherwise exactly one link is added; links stay doubly consistent |
| `GateLinks.ModuleGraph.ConnectGate` | core/module.cc:274-310 | busy exactly when a link starts in the slot; otherwise adds that link, reusing or creating the input gate |
| `GateLinks.ModuleGraph.RemoveOgate` | core/gate.cc:172-180 | erases the first occurrence and leaves the mergeable flag stale, or refreshes the flag when there is none |
| `GateLinks.ModuleGraph.DisconnectGate` | core/module.cc:312-337 | exactly the link of that slot goes, the input gate with its last link; every pointer followed is live |
| `GateLinks.ModuleGraph.DisconnectModule` | core/module_graph.cc:342-352 | refuses exactly indices out of range, otherwise removes exactly the link of that slot |
| `GateLinks.ModuleGraph.DisconnectModulesUpstream` | core/module.cc:358-386 | exactly the links into that input gate go |
| `GateLinks.ModuleGraph.DestroyModule` | core/module.cc:339-356 | exactly the links that touch the module go, no live gate refers to it, the rest stays doubly consistent |
| `GateLinks.ModuleGraph.CollectGates` | core/module_graph.cc:149-166 | the two queues hold every live output gate and every live input gate exactly once |
| `GateLinks.ModuleGraph.SetUniqueGateIdx` | core/module_graph.cc:143-182 | the indices 0 to the count minus one go to the live gates one each, first the input gates in priority order, then the output gates |
| `IGatePriority.PriorityWalk.PropagateIGatePriority` | core/module_graph.cc:94-118 | ends on every graph; priorities only rise, and stay lengths of paths from task modules if they were; without cycles the gate ends below all its successors |
| `IGatePriority.PriorityWalk.SetIGatePriority` | core/module_graph.cc:120-141 | the first gates behind a task module have a priority, relaxation is kept, and nothing changes when they had one already |
| `IGatePriority.PathBounded` | core/module_graph.cc:106-110 | in a relaxed state no path from a task is longer than the priority at its end |
| `IGatePriority.PriorityWalk.UpdateTaskGraph` | core/module_graph.cc:200-221 | on a graph without cycles, from priorities that fit the links, as all zeros do, every gate ends with the length of the longest path to it from a task module, zero without one; when every first gate has a priority already nothing changes at all |
| `IGatePriority.RightIffUpToDate` | core/module_graph.cc:130-134 | once every first gate has a priority, all priorities are longest paths if and only if they fit the links: each is 1 at a first gate or one more than that of some predecessor, and lower than those of all successors |
| `IGatePriority.ZeroIsUpToDate` | core/gate.h:209 | the priorities of gates that were never updated are up to date |
| `IGatePriority.LaterLinkMissed` | core/module_graph.cc:130-134 | a gate linked behind one that has its priority already keeps 0, although a path of two gates leads to it |

## Left out

- gRPC service, protobuf conversion, the command-line client, configuration: interface code.
- DPDK, memory pools, packet buffers, vector fast paths, NUMA, port drivers, the kernel module: foreign calls.
- Destructors, name registries, plugin loading, statistics display: memory management and simple maps.
- AttachOrphan, AdjustDefault, RemoveRoot, SchedWakeupQueue::Remove and the orphan list: would reuse the add and remove results with easy extra cases.
- FillOffsetArrays, RegisterAttribute, CheckOrphanReaders: simple loops over the results modelled here.
- UpdateParentsAs, ConfigureTasks, worker placement: plain traversals.
- 64-bit overflow of passes, tokens, usage and priorities: integers are unbounded except for the time difference of the token bucket and the metadata offsets.
- Weak memory ordering and spinning time: the pause protocol is sequentially consistent with one master.
- Gate hooks: their effect on packets is none, and they are not run; only their presence at output gates is used.
- Object identity of gates: gates are entries of tables with explicit addresses, so aliasing and deletion are visible, while pointer arithmetic is not.
- TaskRun.Task.EmitPacket: covers output gates with a hook; EmitUnhooked covers the others on its own, because a run with them can lose packets.
- TaskRun.Task.EmitUnhooked: keeps no list of the gates to clear after the module ran, because only the fate of the batch is stated.
- TaskRun.Task.AllocFor: the pool of 256 batches is unbounded here, because the code does not check it.
- TaskRun.Task.Run: needs a graph without cycles, because a run need not end otherwise; RunAtMost covers the others. Modules that duplicate packets are not covered.
- MetadataScopes.Pipeline.ComputeScopes: does not claim that every reader is found, because a module first marked upstream is never walked downstream; closure upstream is stated in one direction, for separate writers, because whether another writer leads a walk astray depends on the order of the walk.
- MetadataOffsets.Pipeline.AssignOffsets: non-overlap of the whole result is stated under transitive sharing or for one size, because SortedOverlaps shows that it fails otherwise.
- ScheduledRates.RunRounds: stated for a limiter without another one below and for leaves that do not sleep, because a class that wakes below can resume the limiter at an earlier time; ResumeExact says what that costs.
- RoundRobin.EveryWindowServesAll: stated for a fixed set of runnable children, because woken siblings are appended and can delay others.
- IGatePriority.PriorityWalk.UpdateTaskGraph: longest paths are stated for priorities that are up to date before, because priorities are never reset.
