# Verification of the function-flow runtime and the hpda dataflow library

A Dafny model of four parts of the repository and proofs about them.

* **The function-flow runtime.** The owner/thief deque, the one-producer and the
  many-producer ring, the workers that move tasks between queues, waiting tasks and
  the expressions they wait for, and the partitioners of `for_each`. A queue is a
  transition system in which every shared-memory access of every thread is one step;
  memory is sequentially consistent, the ring has `1 << N` slots for any `N`, and the
  counters are unbounded. Beside each transition system stands the object with its
  fields updated in place; every method performs one access and is proved to be that
  step. Beyond safety it is proved when a call succeeds, that the deque's calls are
  wait-free, and that the workers can always go on to finish every task.
* **The dataflow engine.** Functor objects whose `process()` updates flags and fields,
  the engine's loops over a queue and a stack, and the operators. An operator reads
  "no input value" as "the input has ended", so the main theorem is about the
  scheduler: on a forest of functors `run()` ends, and every memory output holds
  exactly what its tree of functors means as a function on sequences. On graphs with
  splits `run()` ends too, and the outputs hold what the graph means whenever everything
  above a split is a source, filter, split or stream, or the branches are equally long;
  for a fork below a groupby or concat the exact condition on the lengths of its branches
  is proved, and for a split with one stream exactly how much of its input it takes.
* **Lloyd's k-means** over exact real coordinates.
* **Codecs and the distributed example.** The marshaler and its three modes, length
  framing, lookup by type id, sorting of records that share contents through handles,
  and the bounded top-n with its composition over partitions.

## How to read it

`DequeCalls`, `SimoCalls` and `MisoCalls` are about whole calls on the rings, `TaskSteps`
about a task from `schedule()` to its end, and `RuntimeQueues` ties the runtime's steps to
the calls on the rings. `Progress.AllCanFinish` is the runtime's liveness statement.

`Operators.Rest` says what an operator delivers when "no value" really means the end
of a stream. `Dataflow.Future` lifts it to a functor in a running graph, and
`Scheduler.Faithful` says that what a functor has delivered, followed by its future,
never changes. `StreamMeaning`, `SetMeaning`, `TopN` and `GraphMeaning` then say what
`Rest` is without running anything. `Functors` and `Engine` are the objects with the
source's loops; `Engine.RunFresh` is the end-to-end statement.

The other engine modules treat graphs with splits, where a functor can be on the stack
more than once. `Broadcast` is the step, `Streams.Due` counts the calls of a stream that
no call of its split precedes, and `BroadcastEnds.Worth` weighs a value by all that can
come of it downstream. `SplitFuture.Later` is what a functor will still deliver,
`Alternation` says that a functor and its reader take turns, and `Timed` that below an
operator which cannot wait the visits follow a clock, so that a functor is on the stack
once. `SplitMeaning` puts these together: `SplitMeaning.Means` is the meaning of a graph
with splits, `SplitMeaning.RunMeans` what a run has delivered of it at any point, and
`SplitEngine.Engine.RunFresh` the end-to-end statement. `Forks` and `UnevenForks` are the
two halves of the exact condition for a fork. `Drained` says which functors have delivered
everything when a run is over, and `LeftOver` what the others have not: `LeftOver.LeftBy`
is what an operator leaves of complete streams, without scheduler or flags, and a run
leaves exactly that.

`dafny verify dfyconfig.toml` checks the project.

## What turned out not to hold

* `miso_queue::push` tests "full" twice. When its loop ends because the queue is full
  and a pop comes before the second test, it goes on to write and publish without
  having reserved an index. `MisoQueue.NextKeepsIff` gives the exact boundary,
  `MisoQueue.TicketsFail` a complete run from the empty queue, and
  `MisoQueue.DisciplinedIsGood` a rule for callers that excludes it. The rule is exact:
  one push begun against it can already go wrong (`MisoDiscipline.DisciplineIsExact`), and
  every exit from the loop because of a full queue can be overtaken
  (`MisoDiscipline.FullExitOvertaken`).
* `wait_all::get_state` caches while it scans. If a member has no task, it throws, and
  what it cached may be exe_over (`Waiting.ThrownThenOver`).
* The average divides by an unsigned count, so it is the floor of the quotient only for
  a sum that is not negative or a group of one row (`StreamMeaning.AverageIsFloorIff`).
* The key column of a groupby record is that of the next group, except for the last
  record (`StreamMeaning.GroupByMeans`).
* Maximum and minimum start from 0. A group's record carries its maximum exactly if some
  value of the group is not negative (`StreamMeaning.MaximumIff`), and its minimum exactly
  if some value is not positive (`StreamMeaning.MinimumIff`).
* With a split whose branches have different lengths, the scheduler can put the split and
  what is above it on its stack twice, and a groupby or concat above it can then read "no
  value" before its input has ended. For a source, a groupby or a concat, a split and two
  branches of filters the outputs hold what they mean, whatever the rows and filters,
  exactly if the branches are equally long or the one whose output is requested first is
  longer by one (`UnevenForks.RightIffBranchesFit`); in whichever order the outputs are
  requested, exactly if the branches are equally long (`UnevenForks.RightInBothOrdersIff`).
  `EarlyEnd.EndsGroupEarly` and `EarlyEnd.PassesOverEarly` are the ends of such runs.
  The outputs hold what they mean on every graph that keeps to a clock which can be read
  off the graph (`SplitMeaning.OutputsHoldMeaning`), and always when only sources, streams,
  filters and splits are above splits (`SplitMeaning.PatientAboveSplitsMeans`).
* A split does not always take all of its input: an intersection ends with any of its
  inputs, a difference with its first, and what they read besides is not asked for any
  more (`EarlyStop.SplitTakesOnlyPart`). A split takes everything if on some way to an
  output no operator ends before the input on that way (`Drained.EveryStreamDelivers`). For
  a split with one stream, on a graph that keeps to a clock, the condition is exact: if what
  reads the stream has such a way itself, the split takes everything exactly if that
  operator leaves at most one row of the stream (`LeftOver.TakesAllIff`). For
  an intersection with another source that is: exactly if the merge of the two by key
  leaves at most one row (`EarlyStop.SplitTakesAllIff`), which on strictly increasing keys
  means that the other source's last key reaches the last key but one of the first, or that
  the first has at most one row (`EarlyStop.SplitTakesAllIfReached`).
* A source or stream whose `process()` finds no new row moves its cursor all the same
  (`Broadcast.InStepIff`); for a stream that happens only after its split has ended
  (`Streams.StreamsInStep`).
* `length_packer::split` does not look at a buffer of four bytes, so a single frame
  without payload is not delivered, and it sets the read index instead of advancing it. On
  complete frames followed by a tail it does what it should exactly if there is not just
  one frame without payload and, besides, nothing had been read from the buffer before or
  it holds at most four bytes (`Framing.SplitPacked`).

## Model

| member | source | states |
|---|---|---|
| Ring.MaskIsMod | include/ff/functionflow/runtime/work_stealing_queue.h:36-37 | for every ring size, masking an index with MASK is taking it modulo the ring size |
| Ring.SlotsDiffer | include/ff/functionflow/runtime/work_stealing_queue.h:57 | indices less than a ring apart never share a slot |
| WorkStealing.StepSafe | include/ff/functionflow/runtime/work_stealing_queue.h:54-101 | every access of the owner or of any thief keeps the invariant, never lowers tail, and acts on an abstract deque exactly as its event says: push at the back, owner's pop at the back, theft at the front, failure of push only when full and of pop only when empty |
| WorkStealing.StolenSafe | include/ff/functionflow/runtime/work_stealing_queue.h:95-100 | a winning CAS of a thief takes the oldest task still held, although it was read earlier and the ring wraps around |
| WorkStealing.PopCasSafe | include/ff/functionflow/runtime/work_stealing_queue.h:78-86 | the owner's CAS on the last task takes it or leaves it to exactly one thief |
| WorkStealing.Linearizable | include/ff/functionflow/runtime/work_stealing_queue.h:54-101 | the events of every interleaving are a legal history of a sequential bounded deque |
| WorkStealing.NothingLostNothingTwice | include/ff/functionflow/runtime/work_stealing_queue.h:54-101 | after any run, pushed is returned plus still held as multisets; distinct tasks are returned at most once and are then gone from the deque |
| WorkStealing.WorkStealingQueue.constructor | include/ff/functionflow/runtime/work_stealing_queue.h:40-45 | the new queue is the start state of the transition system |
| WorkStealing.WorkStealingQueue.Begin | include/ff/functionflow/runtime/work_stealing_queue.h:54-62 | the start of push_back or pop, with the owner's own read of head |
| WorkStealing.WorkStealingQueue.PushAccess | include/ff/functionflow/runtime/work_stealing_queue.h:54-60 | the accesses of push_back on the fields are the owner's steps |
| WorkStealing.WorkStealingQueue.PopAccess | include/ff/functionflow/runtime/work_stealing_queue.h:61-77 | the accesses of pop up to the read of the task are the owner's steps |
| WorkStealing.WorkStealingQueue.PopDecide | include/ff/functionflow/runtime/work_stealing_queue.h:78-87 | the read, the CAS and the restoring of head are the owner's steps |
| WorkStealing.WorkStealingQueue.ThiefAccess | include/ff/functionflow/runtime/work_stealing_queue.h:89-101 | the accesses of steal, with the 32-bit difference, are the thief's steps |
| DequeCalls.StealGivesUpIff | include/ff/functionflow/runtime/work_stealing_queue.h:89-101 | while head and tail are less than 2^31 apart, steal gives up iff it finds head at or below the tail it read, or if tail has moved on when it comes to its CAS; otherwise it returns the task |
| DequeCalls.StealAlone | include/ff/functionflow/runtime/work_stealing_queue.h:89-101 | wherever the owner and the other thieves stand, a thief that runs alone takes the oldest task in four accesses if head is above tail, the last one too, and otherwise returns and changes nothing |
| DequeCalls.PushAlone | include/ff/functionflow/runtime/work_stealing_queue.h:54-60 | wherever the thieves stand, push_back run alone adds its task at the back iff fewer than MASK are held, and otherwise changes nothing |
| DequeCalls.PopAlone | include/ff/functionflow/runtime/work_stealing_queue.h:61-87 | pop run alone returns the youngest task if any is held, and otherwise changes nothing |
| DequeCalls.OwnerReturns | include/ff/functionflow/runtime/work_stealing_queue.h:54-87 | push_back and pop are wait-free: whatever the thieves do, the owner's call has ended after at most seven more accesses of its own |
| DequeCalls.ThiefReturns | include/ff/functionflow/runtime/work_stealing_queue.h:89-101 | steal is wait-free: after at most three more accesses of its own |
| SimoQueue.NextKeeps | include/ff/functionflow/utilities/simo_queue.h:43-59 | every access keeps the invariant, tail and the values taken only grow |
| SimoQueue.WinKeeps | include/ff/functionflow/utilities/simo_queue.h:52-58 | the value a winning CAS returns is the one pushed at that index: no wrapped push has overwritten it since it was read |
| SimoQueue.TakenIsPrefix | include/ff/functionflow/utilities/simo_queue.h:43-59 | in every run the values taken, in CAS order, are a prefix of the values pushed, and the ring holds the rest, at most MASK of them |
| SimoQueue.FailureIsHonest | include/ff/functionflow/utilities/simo_queue.h:44-51 | push gives up exactly when MASK values wait, pop only when none does |
| SimoQueue.Queue.PushAccess | include/ff/functionflow/utilities/simo_queue.h:43-48 | the accesses of push on the fields are the producer's steps |
| SimoQueue.Queue.PopAccess | include/ff/functionflow/utilities/simo_queue.h:49-59 | the accesses of pop with its retry loop are the consumer's steps |
| SimoCalls.PopGivesUpIff | include/ff/functionflow/utilities/simo_queue.h:49-59 | pop gives up iff the index it read is head, its CAS wins iff no other consumer took that value first, and it then returns the oldest waiting value |
| SimoCalls.PushAlone | include/ff/functionflow/utilities/simo_queue.h:43-48 | push run alone publishes its value iff fewer than MASK wait, and otherwise changes nothing |
| SimoCalls.PopAlone | include/ff/functionflow/utilities/simo_queue.h:49-59 | pop run alone takes the oldest value if one is published, and otherwise changes nothing |
| MisoQueue.NextKeepsIff | include/ff/functionflow/utilities/miso_queue.h:51-69 | a step keeps tail <= head <= whead <= tail + MASK, written slots owned by their ticket holders and the other invariants, if and only if it is not a push passing its second full test without a ticket |
| MisoQueue.GoodIffNeverRogue | include/ff/functionflow/utilities/miso_queue.h:51-69 | a run respects the ticket protocol throughout if and only if it has no such step |
| MisoQueue.PopsInTicketOrder | include/ff/functionflow/utilities/miso_queue.h:62-69 | while the protocol is respected, values popped followed by values published are the tickets in order, and every unpublished ticket is in its producer's hands |
| MisoQueue.ReservationKept | include/ff/functionflow/utilities/miso_queue.h:53-57 | a producer that reserved an index passes the second test |
| MisoQueue.DisciplinedIsGood | include/ff/functionflow/utilities/miso_queue.h:51-60 | if pushes start only while fewer than MASK values are under way, the protocol is respected in every run |
| MisoDiscipline.FullExitOvertaken | include/ff/functionflow/utilities/miso_queue.h:53-58 | from every good state in which a producer left its loop because the queue is full, whatever the others and the consumer are doing, accesses exist after which an index nobody reserved is published |
| MisoDiscipline.UndisciplinedFails | include/ff/functionflow/utilities/miso_queue.h:51-60 | from every good state with MASK values under way, a push that begins has a continuation, without any further push beginning, that ends with head beyond whead |
| MisoDiscipline.DisciplineIsExact | include/ff/functionflow/utilities/miso_queue.h:51-60 | a push begins while fewer than MASK values are under way iff no continuation that keeps to this rule breaks the ticket protocol |
| MisoQueue.TicketsFail | include/ff/functionflow/utilities/miso_queue.h:51-69 | a complete run from the empty queue after which head is beyond whead |
| MisoQueue.Queue.PushAccess | include/ff/functionflow/utilities/miso_queue.h:51-60 | the accesses of push on the fields are the producer's steps |
| MisoQueue.Queue.PopAccess | include/ff/functionflow/utilities/miso_queue.h:62-69 | the accesses of pop are the consumer's steps |
| MisoCalls.PushGivesUpIff | include/ff/functionflow/utilities/miso_queue.h:51-60 | each test of push both ways: the loop ends for a full queue iff its index is MASK beyond tail, and then MASK values are reserved; a reservation fails iff another came first; push gives up iff the last test finds the queue full, and then holds no ticket while MASK values are reserved; publishing waits iff an earlier ticket is unpublished |
| MisoCalls.FullPushReturns | include/ff/functionflow/utilities/miso_queue.h:51-60 | whatever the others hold, a push on a queue with MASK values reserved or waiting, run alone, comes back and changes nothing |
| MisoCalls.PushAlone | include/ff/functionflow/utilities/miso_queue.h:51-60 | with room and nothing half published, push run alone takes the next ticket and publishes it |
| MisoCalls.PopGivesUpIff | include/ff/functionflow/utilities/miso_queue.h:62-69 | pop gives up iff no value is published, and reads the value of the oldest ticket |
| MisoCalls.PopAlone | include/ff/functionflow/utilities/miso_queue.h:62-69 | pop run alone returns the value of the oldest ticket if it is published, and otherwise changes nothing |
| Runtime.NextKeeps | fflib/src/functionflow/runtime.cpp:96-178 | every step of a worker keeps the invariant; over tasks stay over, start counts only grow, a task keeps its kind and expression, a finished task is never touched |
| Runtime.ExecKeeps | fflib/src/functionflow/runtime.cpp:96-178 | the same over whole runs |
| Runtime.ExactlyOnePlace | fflib/src/functionflow/runtime.cpp:96-178 | in every state of every run each scheduled task is listed in exactly one place, once; its body has started at most once; if finished it has run to its end; a continuation that started had its formula satisfied |
| Runtime.NothingDropped | fflib/src/functionflow/runtime.cpp:96-136 | once queues and hands are empty every task ever scheduled has run exactly once, also when queues were full and tasks ran inline |
| Runtime.TestKeeps | include/ff/functionflow/para/para_impl.h:118-127 | the test of a waiting task, read by read while others finish: the continuation starts if the expression held when the test began, and only if it holds when the test ends, whether the task was rescheduled before or not; otherwise the task asks to be rescheduled |
| Runtime.SettleKeeps | fflib/src/functionflow/runtime.cpp:131-136 | after run() the task is finished, or in the wait queue, or still in the worker's hands when that queue is full |
| TaskSteps.ScheduleGoes | fflib/src/functionflow/runtime.cpp:97-102 | schedule() puts the task at the back of the scheduling worker's own deque, or on top of its hands if that refuses it, and changes nothing else |
| TaskSteps.ScheduledIsNext | fflib/src/functionflow/runtime.cpp:97-113 | a worker that has just scheduled a task takes that very task next |
| TaskSteps.OthersTakeTheOldest | fflib/src/functionflow/runtime.cpp:97-178 | of two tasks scheduled one after the other, another worker steals the older and the worker itself takes the younger |
| TaskSteps.PlainTaskFinishes | fflib/src/functionflow/runtime.cpp:131-136 | a plain task that is run is finished, having run once |
| TaskSteps.WaitingTaskFinishes | include/ff/functionflow/para/para_impl.h:118-127 | a waiting task whose expression holds is finished by its next run, having run once, whether it was rescheduled before or not |
| TaskSteps.WaitingTaskReturns | fflib/src/functionflow/runtime.cpp:131-136 | one whose expression does not hold goes to the back of the wait queue without having run, or stays in hand if that queue refuses it |
| Progress.FinishesOne | fflib/src/functionflow/runtime.cpp:96-178 | from a state between runs in which waiting tasks wait for earlier ones and at most 255 tasks are unfinished, steps exist that finish one more |
| Progress.AllCanFinish | fflib/src/functionflow/runtime.cpp:96-178 | from every such state steps exist after which every task ever scheduled is finished, having run once: nothing gets stuck |
| RuntimeQueues.ScheduleIsPush | fflib/src/functionflow/runtime.cpp:97-102 | schedule() does to the deque what push_back run alone does to the ring of 256 slots, and hands the task to the worker iff push_back refuses it |
| RuntimeQueues.TakeOwnIsPop | fflib/src/functionflow/runtime.cpp:109-113 | taking an own task is pop run alone: the same task, the same rest |
| RuntimeQueues.StealIsSteal | fflib/src/functionflow/runtime.cpp:165-178 | stealing a task is steal run alone |
| RuntimeQueues.TakeWaitingIsPop | fflib/src/functionflow/runtime.cpp:114-127 | taking a waiting task is pop of the wait queue's ring run alone |
| RuntimeQueues.SettleIsPush | fflib/src/functionflow/runtime.cpp:131-136 | sending a task to the wait queue is push on that ring run alone, refused iff 255 tasks wait |
| Worker.Workers.StealOneTask | fflib/src/functionflow/runtime.cpp:165-178 | takes the oldest task of the nearest other worker that has any, from its wait queue only if its deque is empty; fails only if no other worker has any |
| Worker.Workers.TakeOneTask | fflib/src/functionflow/runtime.cpp:109-130 | own deque first; else every other time first the own wait queue and every other time first the nearest other worker with a task, by the count of failed pops; fails only if every queue is empty; exactly one task moves to the worker's hands |
| Worker.TakeIsAStep | fflib/src/functionflow/runtime.cpp:109-130 | what TakeOneTask does to the queues is a step of the transition system |
| Waiting.StateAnd | fflib/src/functionflow/common.cpp:29-35 | throws iff an argument is exe_empty; over iff both are |
| Waiting.StateOr | fflib/src/functionflow/common.cpp:37-43 | throws iff an argument is exe_empty; over iff one is and none is empty |
| Waiting.GetStateMeans | include/ff/functionflow/para/wait_impl.h:146-150 | for any nesting of and, or, all and any, with tasks finishing between the reads: over if the formula held before the first read, only if it holds after the last, and no cached exe_over is unjustified |
| Waiting.OverIffFormula | include/ff/functionflow/para/wait_impl.h:273-277 | when nothing finishes meanwhile, get_state is exe_over exactly when the boolean formula holds |
| Waiting.OverIsKept | include/ff/functionflow/para/wait_impl.h:146-150 | a composed expression that has reported exe_over does so again on every later call, without reading any task |
| Waiting.FormulaGrows | fflib/src/functionflow/wait.cpp:34-72 | over tasks never revert, so neither does the formula nor a justified cache |
| Waiting.ThrowsIffEmpty | include/ff/functionflow/para/para.h:42-49 | an expression is refused exactly when get_state reaches a para without a task |
| Waiting.ThrownThenOver | fflib/src/functionflow/wait.cpp:34-45 | after wait_all threw at a member without task it reports exe_over, with its formula false, exactly if every member before was seen over |
| WaitObjects.WaitAll.GetState | fflib/src/functionflow/wait.cpp:34-45 | the loop that folds member states into the cache computes the specification, also when it throws |
| WaitObjects.WaitAll.CheckIfOver | fflib/src/functionflow/wait.cpp:47-52 | says whether get_state is exe_over and leaves the same cache |
| WaitObjects.WaitAny.GetState | fflib/src/functionflow/wait.cpp:57-72 | the same for wait_any, with an empty group being over |
| WaitObjects.ParaImpl.RunTask | include/ff/functionflow/para/para_impl.h:79-83 | runs the body once and is over |
| WaitObjects.ParaImplWait.RunTask | include/ff/functionflow/para/para_impl.h:118-127 | one call either asks to be rescheduled and runs nothing, or runs the continuation once with the formula satisfied and is over; it does the latter if the formula held at the start |
| ForEach.AutoPartition | include/ff/functionflow/para/paragroup_random_access_iterator.h:16-45 | the tasks spawned by the halving loop and the sequential rest are together the leaves of the range |
| ForEach.AutoPartitionStepping | include/ff/functionflow/para/paragroup_general_iterator_impl.h:22-54 | the same for iterators that only step |
| ForEach.LeavesTile | include/ff/functionflow/para/paragroup_random_access_iterator.h:16-45 | over all recursion levels the leaves follow each other from begin to end |
| ForEach.TilesOnce | include/ff/functionflow/para/paragroup_random_access_iterator.h:16-86 | in such a tiling every element of the range is in exactly one chunk, and no other |
| ForEach.LeavesAreSmall | include/ff/functionflow/para/paragroup_random_access_iterator.h:23-36 | no leaf has more than ceil(count / 2^divide_times) elements |
| ForEach.LeavesCount | include/ff/functionflow/para/paragroup_random_access_iterator.h:23-36 | there are 2^divide_times leaves, or as many as elements if these are fewer |
| ForEach.SimplePartition | include/ff/functionflow/para/paragroup_random_access_iterator.h:48-86 | covers the range exactly in chunks of one step; states how many elements the caller keeps, fewer than step + concurrency |
| ForEach.SimplePartitionStepping | include/ff/functionflow/para/paragroup_general_iterator_impl.h:57-110 | covers the range exactly; chunk number i has step + 1 elements if i modulo 2^16 is below the remainder and else step, while there are any; up to 65536 threads the first `remainder` chunks have exactly step + 1, the others exactly step, and the caller keeps one step if it has a number among them, else nothing |
| Operators.ProcessLaws | include/hpda/engine/functor.h:11 | a process() call of any operator consumes only values that are there, makes progress unless it fails consuming nothing, and then would fail again |
| Operators.RestUnfolds | include/hpda/common/processor_with_input.h:29-33 | one process() call delivers the next part of what is to come, or nothing is to come |
| Operators.AdvanceShortens | include/hpda/common/processor_with_input.h:33 | consuming k values leaves at least k fewer |
| Dataflow.ReadyHeads | hpda/src/engine/engine.cpp:76-79 | if each predecessor holds a value or is over for good, what a functor sees are the heads of its input streams |
| Dataflow.RunAdvances | hpda/src/engine/engine.cpp:76-83 | a call then advances the input streams by exactly the values consumed |
| Dataflow.RunDelivers | hpda/src/engine/engine.cpp:76-84 | it delivers the head of the functor's future, or leaves the future as it is |
| Dataflow.RunElsewhere | hpda/src/engine/engine.cpp:76-84 | the future of every other functor is unchanged |
| Scheduler.TopReady | hpda/src/engine/engine.cpp:65-79 | whenever the top of the stack is processed, each predecessor holds an unconsumed value or has permanently ended |
| Scheduler.EndedWhenNothingTaken | hpda/src/engine/engine.cpp:83-99 | a functor is marked ended exactly when its call failed and consumed nothing |
| Scheduler.VisitExtractorKeeps | hpda/src/engine/engine.cpp:50-60 | visiting an extractor keeps the invariants, the totals, and lowers the measure |
| Scheduler.VisitInnerKeeps | hpda/src/engine/engine.cpp:61-73 | visiting another functor keeps the invariants, among them that no functor is on the stack twice |
| Scheduler.ProcessTopKeeps | hpda/src/engine/engine.cpp:76-101 | processing the top keeps the invariants and the totals and lowers the measure |
| Scheduler.ReseedKeeps | hpda/src/engine/engine.cpp:102-110 | requesting the outputs again keeps the invariants and the totals |
| Scheduler.AllDelivered | hpda/src/engine/engine.cpp:48-111 | when every output is over, each has delivered its total |
| Functors.Functor.ProcessRawData | include/hpda/extractor/raw_data.h:20-38 | the cursor moves on and the row under it is the value |
| Functors.Functor.ProcessFilter | include/hpda/processor/query/filter.h:22-32 | the in-place process() has exactly the outcome of the operator: state, value, flags lowered |
| Functors.Functor.ProcessConcat | include/hpda/processor/transform/concat.h:23-37 | the same for concat and its one-way stream index |
| Functors.Functor.ProcessGroupBy | include/hpda/processor/transform/group.h:156-192 | the same for groupby and its aggregator fields |
| Functors.Functor.ProcessUnion | include/hpda/processor/set/union.h:29-68 | the same for union: the first stream with a least key, all streams with that key consumed |
| Functors.Functor.ProcessIntersection | include/hpda/processor/set/intersection.h:29-79 | the same for intersection: delivers iff all keys are equal, consumes the streams with the least key |
| Functors.Functor.ProcessDifference | include/hpda/processor/set/difference.h:29-68 | the same for difference: delivers iff only the first stream has the least key |
| Functors.Functor.ProcessMaxN | doc_example/3.4/worker.h:209-232 | the same for max_n |
| Functors.Functor.InsertInto | doc_example/3.4/worker.h:240-262 | the shifting loop inserts the row before the first smaller one |
| Functors.Functor.ProcessOutput | include/hpda/output/memory_output.h:19-26 | the row is appended and consumed |
| Functors.Functor.Process | include/hpda/engine/functor.h:11 | process() of any functor has exactly the outcome of its operator and touches only its own fields and its predecessors' flags |
| Functors.Functor.DoneValue | include/hpda/engine/functor.h:13 | raises the flag, except for outputs |
| Functors.Functor.ResetDoneValue | include/hpda/engine/functor.h:12 | lowers the flag |
| Engine.Engine.RunFunctor | hpda/src/engine/engine.cpp:79-84 | one process() call with the flag handling is the step on values |
| Engine.Engine.BuildGraph | hpda/src/engine/engine.cpp:115-135 | all statuses become idle, nothing else changes |
| Engine.Engine.FindOutputs | hpda/src/engine/engine.cpp:136-144 | exactly the functors without successor |
| Engine.Engine.VisitPhase | hpda/src/engine/engine.cpp:50-73 | the first inner loop ends with an empty queue, the invariants and unchanged totals |
| Engine.Engine.StackPhase | hpda/src/engine/engine.cpp:76-101 | the second inner loop ends with an empty stack or new requests, and lowers the measure |
| Engine.Engine.Schedule | hpda/src/engine/engine.cpp:48-111 | the outer loop terminates with every output having delivered its total |
| Engine.Engine.Run | hpda/src/engine/engine.cpp:33-112 | run() terminates on every forest, throws iff there are no functors, keeps every functor's total, and every output has delivered all of its own |
| Engine.RunFresh | hpda/src/engine/engine.cpp:33-112 | on a forest that has not run yet, run() ends and every memory output holds exactly what its tree denotes |
| GraphMeaning.MeaningIs | hpda/src/engine/engine.cpp:33-112 | source, filter, concat, groupby, max_n and output are their sequence functions; what union, intersection and difference deliver is said by SetMeaning and SetRows and, after a run, by SetRuns |
| GraphMeaning.FutureIsDenoted | hpda/src/engine/engine.cpp:33-112 | what a fresh functor will deliver is what its tree denotes, built from those functions without scheduler, flags or cursors |
| StreamMeaning.SourceMeans | include/hpda/extractor/raw_data.h:20-38 | a source delivers its rows in order |
| StreamMeaning.FilterMeans | include/hpda/processor/query/filter.h:22-32 | filter delivers the matching subsequence |
| StreamMeaning.ConcatMeans | include/hpda/processor/transform/concat.h:23-37 | concat delivers the whole upstream outputs one after the other |
| StreamMeaning.Runs | include/hpda/processor/transform/group.h:167-191 | the maximal runs of equal keys: they flatten to the input, are not empty, and neighbours differ |
| StreamMeaning.GroupByMeans | include/hpda/processor/transform/group.h:156-192 | one record per maximal run, in order, with the aggregate of that run, and the key of the next run except for the last |
| StreamMeaning.EndAggregates | include/hpda/processor/transform/group.h:18-136 | what an aggregator gives at the end of a group is the sum, count, unsigned average, or maximum or minimum with 0 of the group's values |
| StreamMeaning.MaximumIff | include/hpda/processor/transform/group.h:69-93 | of a groupby with the maximum, the record of each group carries the greatest of its values iff one of them is not negative |
| StreamMeaning.MinimumIff | include/hpda/processor/transform/group.h:96-118 | with the minimum, it carries the least iff one of them is not positive |
| StreamMeaning.MaxOfBounds | include/hpda/processor/transform/group.h:69-93 | the maximum is at least 0 and every value, and it is 0 or one of the values |
| StreamMeaning.MinOfBounds | include/hpda/processor/transform/group.h:96-118 | the minimum is at most 0 and every value, and it is 0 or one of the values |
| StreamMeaning.AverageIsFloorIff | include/hpda/processor/transform/group.h:50-56 | the average is the floor of the quotient iff the sum is not negative or the group has one row |
| StreamMeaning.OutputMeans | include/hpda/output/memory_output.h:19-26 | an output takes its whole upstream |
| SetMeaning.UnionMeans | include/hpda/processor/set/union.h:29-68 | on non-decreasing streams union emits non-decreasing keys, each as often as in the stream that has it most often |
| SetMeaning.IntersectionMeans | include/hpda/processor/set/intersection.h:29-79 | each key as often as in the stream that has it least often |
| SetMeaning.DifferenceMeans | include/hpda/processor/set/difference.h:29-68 | each key as often as the first stream has it beyond the most of the others |
| SetMeaning.UnionOfSets | include/hpda/processor/set/union.h:29-68 | on strictly increasing streams: the union of the key sets, strictly increasing |
| SetMeaning.IntersectionOfSets | include/hpda/processor/set/intersection.h:29-79 | on strictly increasing streams: the intersection of the key sets |
| SetMeaning.DifferenceOfSets | include/hpda/processor/set/difference.h:29-68 | on strictly increasing streams: the first key set without the others |
| SetMeaning.TooFewStreams | include/hpda/processor/set/union.h:64-66 | with fewer than two streams nothing is delivered |
| SetRuns.OutputMeansSet | include/hpda/processor/set/union.h:29-68 | an output over a union, intersection or difference of trees with ordered keys stands for ordered keys, each as often as in the input that has it most often, least often, or in the first beyond the most of the others, and with the rows that SetRows says |
| SetRuns.RunSets | hpda/src/engine/engine.cpp:33-112 | after run(), that is what such an output holds |
| SetRows.UnionDelivers | include/hpda/processor/set/union.h:29-68 | of each key, row number k of a union of ordered streams is row number k of the first stream that has so many |
| SetRows.IntersectionDelivers | include/hpda/processor/set/intersection.h:29-79 | of each key, an intersection delivers the first rows of the last stream |
| SetRows.DifferenceDelivers | include/hpda/processor/set/difference.h:29-68 | of each key, a difference delivers the last rows of the first stream |
| SetRows.SameByKeys | include/hpda/processor/set/union.h:29-68 | with the order of the keys this determines the delivered sequence |
| Broadcast.Handed | include/hpda/processor/transform/split.h:29-39 | in every run on any graph every stream is handed every row its split takes, once and in order |
| Broadcast.InStepIff | include/hpda/extractor/raw_data.h:20-31 | a turn keeps a stream's deliveries a prefix of its rows with the cursor on a row iff it is not a call that finds no new row |
| Streams.DeadFails | include/hpda/engine/functor.h:11-13 | an operator that can deliver nothing, given which inputs have ended, fails on every call and stays so |
| Streams.FailsDead | hpda/src/engine/engine.cpp:85-99 | a call that fails and takes nothing, when no input is left to be requested, leaves such an operator |
| Streams.EndedFails | hpda/src/engine/engine.cpp:97-100 | also with splits, a functor marked ended fails, taking nothing, whenever it is called again |
| Streams.TurnKeeps | hpda/src/engine/engine.cpp:50-101 | every turn keeps the scheduler invariant on any graph without cycles: exactly the requested functors are queued, once, ended functors hold nothing and stay ended; and a turn is always possible |
| Streams.TurnKeepsStream | hpda/src/engine/engine.cpp:50-101 | every turn keeps, for every stream, that each of its calls on the stack has a row or a call of its split to come before it |
| Streams.StreamsInStep | include/hpda/extractor/raw_data.h:20-31 | in every run on any graph without cycles, whatever reads the streams: a stream has delivered a beginning of what its split took, its cursor is on a row until the split has ended, and it fails, or ends, only after the split has ended and it has delivered everything |
| SplitFuture.LaterElsewhere | include/hpda/processor/transform/split.h:29-39 | one call, also of a split, changes nothing of what any other functor will still deliver |
| SplitFuture.CallConserves | hpda/src/engine/engine.cpp:79-84 | one call keeps, for every functor of a graph with splits, the sequence of what it has delivered and will still deliver |
| Alternation.TurnTakesTurns | hpda/src/engine/engine.cpp:65-101 | every turn keeps that between two places of a functor on the stack there is one of the filter, split or output that reads it, and that it is not on top of the two while it holds a value |
| Alternation.TurnPasses | include/hpda/common/processor_with_input.h:30-34 | every turn keeps that such a reader has delivered what it makes of all that was delivered to it, but for a value still held |
| SplitMeaning.EveryRowIsPassed | include/hpda/common/processor_with_input.h:30-34 | on every graph without cycles, with any operators, in every run, no value that a filter, split or output reads is overwritten or dropped |
| Timed.TurnOnTime | hpda/src/engine/engine.cpp:50-101 | where the graph determines a clock, every turn keeps stack and queue in the order of the clock, each functor on the stack once, and its inputs holding a value, requested or ended |
| SplitMeaning.EndedNothingLater | hpda/src/engine/engine.cpp:97-100 | a functor marked ended has nothing more to deliver |
| SplitMeaning.CalledIsCallable | hpda/src/engine/engine.cpp:76-101 | whenever process() is called, no value of the functor waits to be read, an operator that takes a missing value for the end has inputs that hold a value or are over, and no stream of a split is past its rows |
| SplitMeaning.RunMeans | hpda/src/engine/engine.cpp:48-111 | at every point of a run on such a graph, what a functor has delivered followed by what it will still deliver is what it means; all of it is delivered once it has ended |
| SplitMeaning.OutputsHoldMeaning | hpda/src/engine/engine.cpp:33-112 | run() ends with every output holding exactly what it means, on every graph that keeps to a clock below the operators that cannot wait |
| SplitMeaning.PatientAboveSplitsMeans | hpda/src/engine/engine.cpp:33-112 | so on every graph with only sources, streams, filters and splits above its splits, and any operators below them |
| SplitMeaning.LeveledMeans | hpda/src/engine/engine.cpp:33-112 | so on every graph whose branches are equally long, with any operators and any number of splits |
| Drained.EndDelivers | hpda/src/engine/engine.cpp:48-111 | on a graph that keeps to a clock, whenever the outputs have ended: every functor from which some way leads to an output, on which every operator ends only after the input on that way, has ended and delivered exactly what it means |
| Drained.EveryFunctorDelivers | hpda/src/engine/engine.cpp:48-111 | run() comes to such an end, whatever operators are elsewhere in the graph |
| Drained.EveryStreamDelivers | include/hpda/processor/transform/split.h:29-39 | every split with such a way through one of its streams has taken the complete sequence above it, and each stream with such a way has delivered it, once and in order |
| LeftOver.EndedHasRead | hpda/src/engine/engine.cpp:48-111 | once a functor has ended, each of its inputs has delivered all that it means but for what the operator leaves of the complete streams, of which one row was delivered and is still held; so all of it iff at most one row is left |
| LeftOver.OnlyStreamKeepsUp | include/hpda/processor/transform/split.h:29-39 | on every graph without cycles, with any operators: when nothing is queued or stacked, the only stream of a split has delivered all that the split has taken |
| LeftOver.TakesAllIff | include/hpda/processor/transform/split.h:29-39 | on a graph that keeps to a clock, if the functor reading a split's only stream drains into an output: at the end of run() the split has taken all that is above it iff that functor's operator leaves at most one row of the stream, and else all but what it leaves after the first such row |
| EarlyStop.IntersectionLeaves | include/hpda/processor/set/intersection.h:29-79 | an intersection of two streams leaves of each what is left when their merge by key runs out of either |
| EarlyStop.LeavesOneIff | include/hpda/processor/set/intersection.h:29-79 | on strictly increasing keys at most one row is left iff the last key of the other stream reaches the last key but one, or there is at most one row |
| EarlyStop.SplitTakesAllIff | include/hpda/processor/set/intersection.h:29-79 | for all rows, in both orders of the inputs: a split whose stream is intersected with a source takes its input but for what the merge leaves, of which one row was delivered; all of it iff at most one row is left |
| EarlyStop.SplitTakesAllIfReached | include/hpda/processor/set/intersection.h:29-79 | on strictly increasing keys it takes all iff its input has at most one row or the other source's last key reaches the last key but one |
| EarlyStop.SplitTakesOnlyPart | include/hpda/processor/set/intersection.h:29-79 | an instance: a run that is over with a split having taken one of two rows, because the intersection below it ended |
| Forks.FittingBranches | hpda/src/engine/engine.cpp:48-111 | source, groupby or concat, split and two branches of filters: if the branches are equally long or the first is longer by one, every run is right |
| UnevenForks.UnevenCloses | hpda/src/engine/engine.cpp:65-101 | for all other lengths the run on three given rows closes a group of which the source still has a row |
| UnevenForks.UnevenSkips | include/hpda/processor/transform/concat.h:23-37 | with a concat it passes over a source that still has two rows |
| UnevenForks.UnevenRun | hpda/src/engine/engine.cpp:48-111 | and ends with both outputs beginning with the two records of that group |
| UnevenForks.UnevenConcatRun | hpda/src/engine/engine.cpp:48-111 | with a concat it ends with both outputs holding the first row only |
| UnevenForks.RightIffBranchesFit | hpda/src/engine/engine.cpp:48-111 | for such a fork, with a groupby and with a concat, all rows, aggregators and filters give the outputs what they mean iff the branches are equally long or the one requested first is longer by one |
| UnevenForks.RightInBothOrdersIff | hpda/src/engine/engine.cpp:136-144 | in both orders in which the outputs may be requested, iff the branches are equally long |
| BroadcastEnds.CallPays | include/hpda/engine/functor.h:11 | a call that delivers or takes anything lowers the weighted sum of values held and still to come, although a split multiplies rows; no call raises it |
| BroadcastEnds.TurnLowers | hpda/src/engine/engine.cpp:50-101 | every turn lowers a lexicographic measure of values, functors not ended, ended ones on the stack, rank of the requests and visits they lead to |
| BroadcastEnds.EveryRunEnds | hpda/src/engine/engine.cpp:48-111 | on every graph without cycles, also with splits, run() reaches a state in which nothing is queued or stacked, every output has ended and requesting the outputs changes nothing |
| SplitEngine.Engine.HandOver | include/hpda/processor/transform/split.h:34-36 | the loop appends the row to every stream of this split and to nothing else |
| SplitEngine.Engine.RunFunctor | hpda/src/engine/engine.cpp:79-84 | one process() call with the flag handling and the broadcast, in place, is the step on values |
| SplitEngine.Engine.VisitPhase | hpda/src/engine/engine.cpp:50-73 | the first inner loop, in place, ends with an empty queue, is a number of turns, and lowers the measure |
| SplitEngine.Engine.StackPhase | hpda/src/engine/engine.cpp:76-101 | the second inner loop ends with an empty stack or new requests, is a number of turns, and never raises the measure |
| SplitEngine.Engine.RunFresh | hpda/src/engine/engine.cpp:40-112 | on a graph that keeps to a clock, or with only sources, streams, filters and splits above splits, the nested loops end with every output holding exactly what it means, and every functor that drains into one having delivered what it means |
| SplitEngine.Engine.Run | hpda/src/engine/engine.cpp:40-112 | the nested loops terminate with every output ended, and every stream holds what its split took and has delivered a beginning of it, all of it if it has ended |
| EarlyEnd.EndsGroupEarly | hpda/src/engine/engine.cpp:65-101 | on a graph of eight functors run() is over with both outputs beginning with two records of a group for which one is meant |
| EarlyEnd.PassesOverEarly | include/hpda/processor/transform/concat.h:23-37 | on the same graph with a concat, run() is over with both outputs holding the first of three rows |
| EarlyEnd.EarlyCloseIsHarmlessIff | include/hpda/processor/transform/group.h:158-166 | closing a group early changes the number of records iff the next row would have continued it |
| EarlyEnd.EarlyPassIsHarmlessIff | include/hpda/processor/transform/concat.h:24-27 | passing over a stream early changes what concat delivers iff that stream has rows left |
| TopN.MaxNMeans | doc_example/3.4/worker.h:209-262 | max_n delivers rows of its input in descending order, min(limit, size) of them, and for every threshold as many above it as there are, up to the limit |
| TopN.MaxNDelivers | doc_example/3.4/worker.h:209-238 | max_n delivers what it kept after consuming its input |
| StableTop.MaxNIsStable | doc_example/3.4/worker.h:240-262 | among rows of the same distance max_n delivers the ones that came first, in that order |
| StableTop.TopIsTheOnly | doc_example/3.4/worker.h:209-262 | what max_n delivers is the only descending sequence with these counts and these rows of each distance |
| TopN.DistributedTopN | doc_example/3.4/aggregator.cpp:21-36 | for every partition, the top-n of the concatenated top-n lists has the same distances as the top-n of the whole input |
| Points.CentroidCost | include/hpda/algorithm/internal/kmeans_loyd.h:67-72 | the cost around m is the cost around the centroid plus n times their squared distance, in any dimension |
| KMeans.Nearest | include/hpda/algorithm/internal/kmeans_loyd.h:96-106 | the first of the nearest means |
| KMeans.BucketsHold | include/hpda/algorithm/internal/kmeans_loyd.h:57-63 | each point is in the cluster it was assigned to, once, and in no other |
| KMeans.NearestIsBest | include/hpda/algorithm/internal/kmeans_loyd.h:96-108 | no assignment costs less than the nearest one |
| KMeans.RoundLowers | include/hpda/algorithm/internal/kmeans_loyd.h:54-74 | a round lowers the cost by at least the squared distance any mean moves |
| KMeans.ContinuedRoundLowers | include/hpda/algorithm/internal/kmeans_loyd.h:54-92 | a round followed by another lowers the cost by at least delta squared |
| KMeans.NeverClose | include/hpda/algorithm/internal/kmeans_loyd.h:85-93 | with delta zero the stop test never succeeds |
| KMeans.Loyd.constructor | include/hpda/algorithm/internal/kmeans_loyd.h:36-44 | the fields at the start: last means at the origin, delta squared |
| KMeans.Loyd.IsAllMeansCloseEnough | include/hpda/algorithm/internal/kmeans_loyd.h:85-94 | true iff every mean moved less than delta |
| KMeans.Loyd.Assign | include/hpda/algorithm/internal/kmeans_loyd.h:96-108 | appends the point to the cluster of its first nearest mean |
| KMeans.Loyd.MoveMeans | include/hpda/algorithm/internal/kmeans_loyd.h:66-74 | every mean becomes the centroid of its cluster, unless one is empty |
| KMeans.Loyd.Run | include/hpda/algorithm/internal/kmeans_loyd.h:46-75 | terminates for every input with delta not zero, in at most 1 + (first cost / delta squared) rounds; the means are those after that many rounds, and it stops at the first round whose means are close; no round is run iff all initial means are close to the last ones at the call, which are the origin in a new object |
| Archive.RoundTrip | include/ff/net/common/archive_data.h:27-146 | for every shape, reading what was written, with any bytes after it, gives the value back and leaves exactly those bytes |
| Archive.RoundTripFields | include/ff/net/middleware/ntpackage.h:58-71 | the same for the fields of a package, one after the other |
| Archive.LengthIsWritten | include/ff/net/common/archive_data.h:27-146 | length mode counts exactly the bytes written |
| Archive.ByteAt | include/ff/net/common/archive_data.h:27-43 | a number is written with its lowest byte first |
| Archive.ItemsAreContiguous | include/ff/net/common/archive_data.h:50-66 | the items of an array or vector of numbers lie one after the other, so that one memcpy writes them |
| Archive.EncodingIsInjective | fflib/src/net/common/archive.cpp:54-75 | equal bytes, whatever follows them, come from equal values |
| Marshaler.Marshaler.ArchiveNumber | include/ff/net/common/archive_data.h:27-43 | the three modes for arithmetic types |
| Marshaler.Marshaler.ArchiveText | fflib/src/net/common/archive.cpp:54-75 | the three modes for strings |
| Marshaler.Marshaler.WriteAll | include/ff/net/common/archive_data.h:121-146 | the loops over items write or count their encodings one after the other |
| Marshaler.Marshaler.ReadAll | include/ff/net/common/archive_data.h:106-114 | the counting loop reads back the items |
| Marshaler.Marshaler.ArchiveFields | include/ff/net/middleware/ntpackage.h:60-71 | the recursion over the fields |
| Marshaler.Marshaler.ArchiveOne | include/ff/net/middleware/package.h:54-57 | in place, in any mode: writes the encoding at the cursor and nothing else, counts it, or reads the value and moves past it |
| Framing.ScanFrames | fflib/src/net/middleware/length_packer.cpp:59-91 | scanning packed frames followed by an incomplete tail gives the payloads in order and stops at the tail |
| Framing.NetBuffer.WriteBuffer | fflib/src/net/network/net_buffer.cpp:31-36 | appends to what is unread, resizing if needed |
| Framing.NetBuffer.ReserveIdle | fflib/src/net/network/net_buffer.cpp:78-82 | makes room without changing what is unread |
| Framing.NetBuffer.Writeable | fflib/src/net/network/net_buffer.cpp:64-69 | the same for the writable part |
| Framing.NetBuffer.PackBytes | fflib/src/net/middleware/length_packer.cpp:31-36 | appends one frame |
| Framing.NetBuffer.PackPackage | fflib/src/net/middleware/length_packer.cpp:38-57 | appends one frame whose payload is the package's encoding |
| Framing.NetBuffer.Split | fflib/src/net/middleware/length_packer.cpp:59-91 | the loop returns the complete frames of what is unread and sets the indices as stated; nothing for four bytes or fewer |
| Framing.SplitPacked | fflib/src/net/middleware/length_packer.cpp:59-91 | on packed frames and an incomplete tail: returns exactly the payloads iff it is not a single frame without payload; and with that leaves exactly the tail unread iff nothing had been read before or there are at most four bytes, else as many bytes too many as had been read |
| Framing.GetPkgRestores | fflib/src/net/middleware/typed_pkg_hub.cpp:68-83 | decoding by type id restores a registered package |
| Framing.SendAndReceive | fflib/src/net/middleware/length_packer.cpp:38-91 | packing any registered packages one after the other into a buffer that ends with an incomplete rest, one split and a lookup per frame give the packages back and leave the rest unread |
| Framing.SentIsReceived | fflib/src/net/middleware/typed_pkg_hub.cpp:68-83 | any list of registered packages, packed, scanned and decoded, is restored, whatever incomplete bytes follow |
| GroupAndSort.Loc.Assign | include/ff/util/ntobject.h:113-119 | assignment copies contents into the shared cell |
| GroupAndSort.Loc.MakeCopy | include/ff/util/ntobject.h:75-79 | make_copy has a cell of its own |
| GroupAndSort.Exchange | doc_example/3.4/worker.h:92-94 | the three statements swap the contents of two records |
| GroupAndSort.Partition | doc_example/3.4/worker.h:82-102 | permutes the range around the pivot, although the pivot shares its cell with the last record |
| GroupAndSort.QuickSort | doc_example/3.4/worker.h:104-112 | sorts the range by timestamp, permutes it, and touches nothing else |
| GroupAndSort.SortAll | doc_example/3.4/worker.h:114-117 | the whole vector, sorted, with the same multiset of contents |
| GroupAndSort.BuildGroups | doc_example/3.4/worker.h:54-65 | each phone number is mapped to the handles of its own records, in input order |
| GroupAndSort.DoGroupByAndSort | doc_example/3.4/worker.h:49-80 | one group per phone number, holding exactly its own records, sorted by timestamp, with the contents those records had at the start |

## Left out

- Weak memory: the source uses relaxed atomics and plain integers; the model is sequentially consistent. Counters do not wrap at 64 bits.
- The spin lock and what it guards: its loop does not exclude other threads as written; the scan of a group's members reads a fixed member list.
- Sleeping and waking of workers, and registration of foreign threads: liveness, and the queue vectors are read without a lock. The set of workers is fixed.
- Members added to a paracontainer after a waiting expression was built from it.
- The order in which C++ evaluates the two operands of and/or is unspecified; the model takes the left one first.
- Runtime.NextKeeps: a queue operation of the runtime is one step; that it is what the rings do is proved for calls that run alone (RuntimeQueues), and for overlapping calls the rings have their own theorems. A push may be refused in the model although there is room.
- Progress.AllCanFinish: that steps exist, not that the scheduler chooses them; with more unfinished tasks than a wait queue holds, a worker can repeat run_task() for ever.
- DequeCalls.StealGivesUpIff: the difference of head and tail is converted to int, so beyond 2^31 tasks nothing is claimed.
- Engine.RunFresh: graphs are forests in which every functor has at most one successor; graphs with splits are those of SplitEngine, where only streams read splits.
- Streams.StreamsInStep: relative to what the split took, on every graph; when this is the whole sequence above the split is said by Drained.EveryStreamDelivers and LeftOver.TakesAllIff.
- LeftOver.TakesAllIff: exact for a split with one stream, read by a functor that drains into an output. With several streams exactly what each of them has delivered is proved (LeftOver.EndedHasRead), and of the split the condition of Drained.EveryStreamDelivers.
- SplitEngine.Engine.Run: says of the outputs only that they have ended, because on some graphs they do not hold what they mean, and of the splits nothing, because they need not take all of their input; RunFresh says what outputs hold and which functors have delivered everything. build_graph and find_outputs are those of Engine.
- SplitEngine.Engine.RunFunctor: the functors are a list of values updated in place, and process() of an operator other than split is one step, because Functors has its loops.
- EarlyEnd.EarlyCloseIsHarmlessIff: about a single reading; the exact condition over whole runs is UnevenForks.RightIffBranchesFit.
- EarlyEnd.EarlyPassIsHarmlessIff: about a single reading, as well; the same theorem has the case of concat.
- UnevenForks.RightIffBranchesFit: one source, one groupby or concat directly above the split and two branches; with filters between the source and it, or more branches, only the sufficient conditions of SplitMeaning are proved.
- Worker.Workers.TakeOneTask: no other worker touches the queues during the scan; interleaved workers are those of Runtime, for which TakeIsAStep shows that a take is one step.
- Worker.Workers.StealOneTask: the same.
- Functors.Functor.ProcessIntersection: records have one key and one carried column; the source merges the columns of all streams, the last one winning, and the model delivers the last stream's row.
- Operators with type parameters: records have one key column and one value column; comparison, equality and filter functions act on them.
- StreamMeaning.GroupByMeans: integers are unbounded except in the unsigned average; the sum itself does not wrap.
- The casts of container sizes to int, in the source's cursors, in max_n and in quicksort: sizes fit.
- Marshaler.Marshaler.ArchiveOne: types with their own archive helper, and reading from bytes that hold no value, which the source does not check; vectors have fewer than 2^31 items because of the int loop counter. The serializer writes into the idle part of a buffer through a pointer; the model copies that part out and back.
- Framing.NetBuffer.Split: reassembly over several receives, because the read index is set rather than advanced and `erase_buffer` both shifts and advances; the length read past the last frame is unused and taken as 0.
- KMeans.Loyd.Run: a round with an empty cluster divides by zero; the model ends there and says so. Distances are below the largest value of the distance type. A second call of run() on the same object.
- GroupAndSort.DoGroupByAndSort: the order of the groups is that of a hash map; the model takes any order. The process() method around it only stores copies and moves a cursor.
- Floating-point rounding and the haversine distance.
- `hash_splitter`, `from_net` and its queue, JSON batches, the example `sort`, sockets and protocols, the SQL layer, and template machinery.
- ForEach.SimplePartitionStepping: beyond 65536 threads what the caller keeps is given by the chunks only.
