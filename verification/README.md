# Verification of microcsp

Microcsp is a small CSP runtime. Processes are run-to-completion functions,
channels are one-word rendezvous cells, and each process waits on an ALT of
guards. This project models the scheduler and its ALT protocol, the timeout
queue, the memory allocator and four of the example programs, and proves what
they are for: no wakeup is lost, values cross channels exactly once and in
order, fair ALTs wait boundedly, timeouts and interrupts are not lost, memory is
partitioned, and the example programs compute their results and terminate.

`dafny verify dfyconfig.toml` checks everything.

## How it is put together

Most parts come in two layers. One layer describes the state as values
(sequences of processes, channel cells, queued timeouts) and each operation as a
function of them; the laws are lemmas about these functions. The other layer is
imperative: classes with the fields of the C records, methods that relink and
update them as the text does, and postconditions that equate the new state with
the function of the old one, so that the laws hold of the records.

| part of the runtime | values and laws | records |
|---|---|---|
| enabling and disabling an ALT | `Alt`, `AltLaws`, `AltEffects`, `AltCleanup`, `AltFairness`, `AltChannels`, `LostValue` | `AltKernel` |
| ready queues and priority mask | `Sequences` | `ReadyQueues` |
| scheduler loop, one priority | `Scheduler`, `SchedulerInv`, `SchedulerMoves`, `SchedulerRuns`, `SchedulerText`, `LostProcess` | `Kernel`, `KernelStart`, `KernelRuns`, `KernelPrograms` |
| synchronous network it refines | `Network`, `Refinement` | |
| preemption, all priorities | | `Nesting` |
| user interrupts | `Interrupts`, `InterruptAlt` | `AltKernel` |
| timeouts | `TimeoutList`, `TimerLaws` | `TimerQueue` |
| memory | `Arena` | `Memory` |
| mtring, ring3, ring | `Ring`, `RingLaws`, `RingNetwork`, `RingScheduled`, `RingProgress` | `RingProcesses`, `RingProgram` |
| commstime | `CommsTime`, `CommsProgress` | `CommsTimeProcesses`, `CommsTimeProgram` |

**One iteration of the scheduler loop is one step.** In `Scheduler` and `Kernel`
all processes have one priority and no interrupts occur, so the code is
sequential and this is exact. What a process's own code does when it runs is a
parameter of the step, the `Outcome`: the ALT, the variables and whether it
terminated. It is arbitrary as long as it is well behaved (`Behaved`): guards
are on its own ends of point-to-point channels, an active output is the only
active guard, and there are 1 to 255 guards. Termination during the first run is
overwritten, as in the text (`src/sched.c:747-752`).

Theorems about runs from a start name both `Initial` and `Inv` where a term in
them needs the invariant to be defined; `SchedulerInv.InvAtStart` shows that the
first implies the second.

**Refinement.** `Network` is the synchronous language: processes offer ALTs, a
communication happens when both ends of a channel offer it, and afterwards both
ends run their code. `Refinement` maps a state of the scheduler to a state of
the network and an iteration to the network steps it performs. The programs are
analysed on the network and the results carried to the scheduler.

**Interleavings.** In `Interrupts` a step is one critical section, and the steps
of all processes and the interrupts come in any order, which covers every
nesting of schedulers. In `Nesting` the scheduler and readyProcessIfNecessary
are mutually recursive methods, and their termination measure is the priority.

## Where text and comments disagree

The models follow the text.

- `src/sched.c:852` assigns where the comments at 838-852 describe a comparison,
  so an already ready process is linked in again. Both readings are modelled
  (`Text = Written | Intended`). `SchedulerText` says exactly when they differ,
  `LostProcess` shows a program that loses a process, and programs with one
  active guard at a time, among them the rings and commstime, never meet the
  difference. The invariant and the refinement hold of the intended reading, and
  of the written one for the runs that never meet it. `Kernel` is the text as
  written.
- The comment at `src/sched.c:698` says at most one partner is returned by the
  guards. Several can be, and the one kept need not belong to the selected
  branch (`AltLaws.PartnerIsExact`, `AltLaws.PartnerWithoutTransfer`). With a
  timeout or an interrupt guard in front of a channel input this loses a value
  (`LostValue`); exactly-once transfer is proved for ALTs of channel guards and
  skips.
- The comment at `src/timer.c:132` says null is returned when nothing is
  removed. The text returns the entry where the search stopped.
- `src/memory.c:44` looks for a zero entry that the full table at 31-33 does not
  have (`Memory.SearchLeavesTable`).
- Setting the one-shot timer to a zero interval disarms it
  (`src/hardware.c:212-238`), so a deadline reached between the two clock
  readings of enabling is left without an interrupt (`TimerLaws.EnableKeepsNet`).
- `src/sched.c:589-594` leaves interrupts disabled after an interrupt guard that
  is not ready. The model allows interrupts there, which only adds runs.

## Model

| member | source | states |
|---|---|---|
| Alt.ModSteps | src/sched.c:493-501 | the two cursor steps are the remainders modulo the number of guards that the text computes |
| AltLaws.EnableKeepsShape | src/sched.c:597-610 | enabling always leaves a cursor inside the ALT: the last guard visited and its position, the whole ALT when no guard was ready |
| AltLaws.EnableFinds | src/sched.c:538-614 | from any position on, enabling stops at the first ready guard in its order, having passed only guards that are not ready |
| AltLaws.EnableStopsAtFirstReady | src/sched.c:538-614 | for ALT PRI and fair ALT alike, enabling reports ready if and only if some active guard is ready, and stops at the first one in enabling order; otherwise the whole ALT is enabled |
| AltEffects.PriStopsAtLowest | src/sched.c:538-546 | ALT PRI stops at the ready guard of the lowest index |
| AltEffects.FairStopsBehindLast | src/sched.c:538-546 | a fair ALT stops at the first ready guard counting up, modulo the number of guards, from the one behind the guard selected last |
| AltEffects.EnableEffects | src/sched.c:548-614 | everything enabling changes: each guard passed names the process in its channel or interrupt channel, or queues its deadline once more, an output also leaves the address of its value, and all other channels, interrupt channels and timeouts are as they were; when no guard is ready, all are passed |
| AltEffects.EnablePartner | src/sched.c:420-434 | without an output guard the partner enabling returns is the outputter in the ready input it stops at, and none otherwise |
| AltEffects.DisableEffects | src/sched.c:630-699 | everything disabling changes: the process leaves the channels, interrupt channels and deadlines of the guards enabled, a selected input or interrupt channel is emptied, and all else is as it was |
| AltLaws.DisablePicks | src/sched.c:630-673 | walking back over the enabled prefix selects the first guard of the prefix, in enabling order, that is ready, and returns the outputter of the first ready channel input |
| AltLaws.DisableSelectsFirstReady | src/sched.c:630-695 | the selected branch is the first ready guard of the enabled prefix, and the data moved is exactly what that branch's channel or interrupt channel held before disabling |
| AltLaws.PartnerIsExact | src/sched.c:643-672 | the partner returned belongs to the selected branch if and only if the first selectable guard of the prefix is a channel input or no channel input of the prefix is ready; should nothing be selectable, if and only if the cursor is not at an input from an occupied channel |
| AltLaws.PartnerWithoutTransfer | src/sched.c:697-699 | a concrete ALT, timeout before input, for which a partner is returned although a timeout is selected and no data moved, against the comment at 698 |
| LostValue.ServedIffInputFirst | src/sched.c:620-700 | when some channel input of the prefix is ready its outputter is the partner readied; its value is taken and its channel emptied if and only if the first selectable guard is a channel input, and otherwise nothing is taken and it stays named in its channel |
| LostValue.TimeoutLosesValue | src/sched.c:643-672 | a concrete ALT, timeout before input, and outputter for which exactly-once transfer fails: the outputter is readied and resumes, its value never taken |
| AltCleanup.DisableUndoesEnable | src/sched.c:548-699 | wherever enabling stopped, and whatever other processes took meanwhile, after disabling no channel, interrupt channel or queued timeout refers to the process |
| AltFairness.CloserToTurn | src/sched.c:303-310 | a guard of a fair ALT that is active and ready when the ALT is disabled is selected, or its cyclic distance from the guard selected last strictly falls, although enabling overwrites the cursor |
| AltFairness.BoundedWaiting | src/sched.c:538-672 | a guard of a fair ALT that is active and ready whenever the ALT is disabled is selected within as many selections as the ALT has guards |
| AltChannels.EnableInputs | src/sched.c:420-434 | an ALT of inputs and skips only puts the process into empty channels, into all of its channels when it does not find a guard ready, and then returns no partner |
| AltChannels.EnableOutput | src/sched.c:458-466 | a lone output never is ready at once, leaves the process and the address of its value in the channel and returns whoever waited there |
| AltChannels.DisableInputs | src/sched.c:630-699 | disabling inputs in front of a waiting partner empties that partner's channel, takes the process out of all others, moves the partner's value and returns exactly that partner |
| AltChannels.SelectAtOnce | src/sched.c:507-700 | enabling that finds a guard ready, followed by disabling, leaves no trace in the channels but the emptied channel of the selected input |
| AltChannels.SelectAfterWait | src/sched.c:620-700 | a process readied while waiting selects one of its inputs whose partner has come and leaves all its other channels |
| AltChannels.OutputterResumes | src/sched.c:636-652 | a readied outputter selects its output whatever its channel holds, with interrupt channels and timeouts present or not |
| AltChannels.DisableAfterOutput | src/sched.c:650-652 | an outputter that is resumed selects its output, touches no channel and returns no partner |
| AltChannels.EnableJoinsOffered | src/sched.c:420-434 | enabling puts the process into channels of its own active inputs only |
| AltKernel.Channels.EnableChannelInput | src/sched.c:420-434 | on the channel record: ready with the outputter as partner exactly when someone else waits; otherwise the process is the occupant |
| AltKernel.Channels.DisableChannelInput | src/sched.c:439-453 | on the channel record: the process leaves, or another occupant is reported ready and stays |
| AltKernel.Channels.EnableChannelOutput | src/sched.c:458-466 | on the channel record: the former occupant is the partner; process and source address are left in the channel |
| AltKernel.Channels.EnableInterruptChannel | src/sched.c:471-480 | on the interrupt channel: waits in it exactly when no interrupt is pending |
| AltKernel.Channels.DisableInterruptChannel | src/sched.c:485-490 | on the interrupt channel: nobody waits any more; ready exactly when an interrupt is pending |
| AltKernel.Channels.CountInterrupt | src/sched.c:877-888 | on the interrupt channel: one more interrupt is pending, nothing else changes, and the process to ready is the one that waits |
| AltKernel.Channels.EnableGuard | src/sched.c:553-596 | one guard of the enabling loop changes only what its kind of guard may change |
| AltKernel.Channels.DisableGuard | src/sched.c:638-671 | one guard of the disabling loop changes only what its kind of guard may change |
| AltKernel.Channels.CheckOutputs | src/sched.c:518-536 | the counting loop accepts an ALT if and only if an active output is its only active guard |
| AltKernel.Channels.EnableGuards | src/sched.c:548-603 | the loop over the guards leaves the records as the recursive specification says, for every ALT and every state of the channels |
| AltKernel.Channels.EnableAlt | src/sched.c:507-614 | enable_alt on the records refines the specification whose properties AltLaws proves; an ALT breaking the output restriction is an error and nothing is touched |
| AltKernel.Channels.DisableGuards | src/sched.c:630-673 | the loop back over the guards leaves records, selection and partner as specified |
| AltKernel.Channels.CompleteBranch | src/sched.c:675-695 | the selected branch stores the value of the outputter's variable, or the interrupt count, in its destination and in no other variable, and empties its channel |
| AltKernel.Channels.DisableAlt | src/sched.c:620-700 | disable_alt on the records refines the specification; the destination of the selected branch holds afterwards what its channel offered, or its interrupt channel had counted, before the call, and no other variable changes |
| AltKernel.Channels.EnableTimeout | src/timer.c:151-159 | on the records: ready exactly when the deadline has come, and otherwise exactly one timeout of the current process with that deadline is queued |
| AltKernel.Channels.DisableTimeout | src/timer.c:163-169 | on the records: at most one timeout, of the current process and with that deadline, leaves the queue, and it is ready exactly when the deadline has come |
| AltKernel.Channels.SelectBranch | src/sched.c:630-673 | the walk back of disable_alt from the cursor enabling left notes the selected branch in the record |
| AltKernel.DeliversSelected | src/sched.c:675-695 | what disable_alt transfers is what the selected branch's channel or interrupt channel had when it was called |
| ReadyQueues.HighestIsHighest | src/sched.c:84-140 | the bit tests yield the highest level whose bit is set, or 0 |
| ReadyQueues.SetLevel | src/sched.c:166-174 | setting the bit when a queue becomes nonempty keeps the mask exact |
| ReadyQueues.ClearLevel | src/sched.c:151-156 | clearing the bit when a queue becomes empty keeps the mask exact |
| ReadyQueues.ReadyQueues.Highest | src/sched.c:84-140 | the result is the highest level with a queued process, or 0 |
| ReadyQueues.ReadyQueues.Take | src/sched.c:146-159 | removes the first process of one level, null if there is none; links, tails, mask and all other levels stay exact |
| ReadyQueues.ReadyQueues.Append | src/sched.c:164-186 | a process not queued becomes the last of its level; one already queued becomes the end of its queue, cutting off all behind it; links, tails and mask stay exact |
| SchedulerInv.InvAtStart | src/sched.c:716-736 | a freshly started program satisfies the invariant: each process in exactly one place, every waiting process the occupant of the channel of each active guard, every readied inputter with a partner waiting |
| SchedulerInv.InvCanStep | src/sched.c:738-801 | under the invariant an iteration always works on a process that is initial, quiescent or ready, with its cursor inside its ALT |
| SchedulerInv.AbsentUnlessCommitted | src/sched.c:420-466 | a process that is not committed to its ALT occupies no channel |
| SchedulerMoves.StepMoves | src/sched.c:716-836 | every iteration is one of six moves: first run, wait, offer, take, pass a skip, resume; each with its exact effect on queue, channels and processes |
| SchedulerMoves.InvStep | src/sched.c:716-874 | the invariant holds after every iteration, whatever well-behaved code the process runs |
| SchedulerRuns.InvRuns | src/sched.c:716-874 | the invariant holds in every reachable state |
| Refinement.StepRefines | src/sched.c:716-836 | an iteration of the scheduler is a run of the synchronous network: values are copied exactly when both partners commit |
| SchedulerRuns.RunIsNetworkRun | src/sched.c:716-836 | every run of the scheduler is a run of the network of communicating processes that ends in the same state |
| SchedulerRuns.ExactlyOnce | src/sched.c:458-466 | on every channel over every run the values the inputter's code is run on are the values the outputter offered, in order and once each, and the outputter's code resumes once for each transfer and never before it |
| Network.OfferedCrosses | src/sched.c:458-466 | in the network the values offered on a channel cross it in order and once each |
| Network.CrossedIsSeen | src/sched.c:677-683 | in the network the inputter's code is run on exactly the values that crossed |
| Network.OneRunPerCrossing | src/sched.c:803-819 | in the network the outputter's code runs exactly once for each value that crossed |
| Network.CodeBudget | src/sched.c:747-819 | without skips code runs once for each process and twice for each communication |
| SchedulerRuns.RunGoesOn | src/sched.c:716-836 | a run that has not gone idle can be continued with whatever well-behaved code does next |
| SchedulerRuns.IdleIsDeadlock | src/sched.c:716-736 | no lost wakeup: when the scheduler has nothing to run, all processes wait or have terminated and no channel has both partners committed |
| SchedulerRuns.DeadlockIsIdle | src/sched.c:716-836 | conversely a scheduler whose network is stuck performs at most one more iteration |
| SchedulerRuns.IterationsBounded | src/sched.c:716-836 | at most every second iteration is silent, so a run is at most twice as long as the network run it performs |
| SchedulerText.AppendQueued | src/sched.c:164-186 | linking in a process that is queued already loses exactly the processes behind it |
| SchedulerText.ReadyProcessBy | src/sched.c:838-874 | in both readings an enabling process becomes ready and a waiting one becomes ready and is queued last; in any other state the process is left alone as intended, and made ready and queued as written |
| SchedulerText.WrittenIsIntended | src/sched.c:838-874 | an iteration of the text as written, with the assignment at 852, does what its comments intend if and only if it is not an output to an inputter that is queued with others behind it |
| SchedulerText.WrittenKeepsInv | src/sched.c:838-874 | exactly then it keeps the invariant |
| SchedulerText.LoneNeverReadiesAgain | src/sched.c:852 | a program whose processes have at most one active guard never meets the exception |
| SchedulerText.LoneGuardRuns | src/sched.c:838-874 | such a program runs under the text as written exactly as intended, and keeps the invariant |
| LostProcess.LosesProcess | src/sched.c:852 | a program of five processes that, run from its start, loses a ready process under the text as written and not under the intended one |
| Kernel.Kernel.LinkIn | src/sched.c:164-186 | linking a process record in changes the queue of its level as specified and nothing else |
| Kernel.Kernel.ReadyProcessIfNecessary | src/sched.c:842-874 | on the records, as written: a process that is enabling is made ready; any other is made ready and linked in |
| Kernel.Kernel.TakeNext | src/sched.c:720-736 | the head of the queue of the only level in use becomes the current process |
| Kernel.Kernel.Enable | src/sched.c:507-614 | enable_alt of the current process changes the system only by its cursor and its channels |
| Kernel.Kernel.Disable | src/sched.c:620-700 | disable_alt of the current process changes the system only by its selection, its received value and its channels |
| Kernel.Kernel.EnableToWait | src/sched.c:757-770 | a process with a ready guard becomes ready, one without waits |
| Kernel.Kernel.DisableToRest | src/sched.c:774-797 | a disabled process is involved in no ALT |
| Kernel.Kernel.Finish | src/sched.c:803-833 | the partner is woken, the code run if due, and a process that terminated or waits is let go |
| Kernel.Kernel.SelectAndRun | src/sched.c:786-833 | the rest of an iteration of a ready process |
| Kernel.Kernel.CommitAndRun | src/sched.c:754-833 | an iteration of a quiescent process |
| Kernel.Kernel.StartAndRun | src/sched.c:747-752 | the first run of a process; a termination in it is overwritten |
| Kernel.Kernel.Iterate | src/sched.c:716-836 | an iteration of the loop on the records is an iteration of the specification, as written |
| Kernel.Kernel.Schedule | src/sched.c:716-836 | the loop on the records performs exactly the run the outcomes prescribe, ending early only when nothing is ready |
| KernelStart.StartProgram | src/sched.c:204-233 | creating the records of processes and channels and queueing every process establishes the state all runs begin in, with the starting variables given and the processes queued in order |
| KernelRuns.InvIterable | src/sched.c:716-836 | the invariant provides everything an iteration on the records relies on |
| KernelRuns.RanIsIntended | src/sched.c:716-874 | a run on the records in which no queued process is readied again is the intended run |
| KernelRuns.LoneGuardsNever | src/sched.c:838-874 | programs with one active guard at a time have only such runs |
| KernelRuns.RunProgram | src/sched.c:716-874 | the loop on the records, from the start of a program, reaches the state of the intended run and the invariant holds there |
| KernelPrograms.StartRing | src/examples/mtring.c:217-244 | starting the ring's processes on the scheduler's records makes the empty run a run of the ring |
| KernelPrograms.StartCommsTime | src/examples/commstime.c:130-162 | starting commstime on the scheduler's records makes the empty run a run of commstime |
| KernelPrograms.RunRing | src/examples/mtring.c:211-247 | the scheduler's records running a token ring, text as written: when nothing more can run, every process record is terminated and the root's variables hold the sum; until then the run goes on |
| KernelPrograms.RunCommsTime | src/examples/commstime.c:130-165 | the scheduler's records running commstime, text as written: something can always run, and what Consume has received is consecutive |
| Nesting.Machine.Schedule | src/sched.c:716-836 | with processes of any priorities and nested schedulers: a scheduler runs the code of processes above its base only, and does run some when one is queued; at most 8 schedulers are active from base -1; it returns only when nothing is queued above its base, and otherwise ends only with the script or in the idle process; without partners, every process queued above its base has then been run until it waits or has terminated |
| Nesting.Machine.RunCode | src/sched.c:816-819 | a process's code runs, and is recorded to have run, only while nothing of higher priority is ready |
| Nesting.Machine.Iterate | src/sched.c:738-835 | an iteration runs the process's code exactly when that is due, once and with the outcome given, behind the runs of nested schedulers, which are of higher priorities only, so a suspended process is never re-entered; it leaves the loop with its own process, again with nothing of higher priority ready |
| Nesting.Machine.ReadyProcessIfNecessary | src/sched.c:842-874 | a readied process of higher priority is scheduled at once, above the strictly higher base, and the current process is the same afterwards; any other only becomes ready and, unless it was enabling, the last of its queue |
| Interrupts.RaiseIsCounted | src/sched.c:877-888 | an interrupt may come at any moment; it is counted in the channel record and readies exactly the process named in it, which then neither enables nor waits |
| Interrupts.ConnectAndDisconnect | src/sched.c:387-416 | connecting empties the channel and resets its count, disconnecting keeps it, and an interrupt that is not connected changes nothing |
| Interrupts.EnableIsAlt | src/sched.c:589-594 | an enabling step on an interrupt guard is the one of enable_alt |
| Interrupts.DisableIsAlt | src/sched.c:665-669 | a disabling step on an interrupt guard is the one of disable_alt |
| Interrupts.SelectIsAlt | src/sched.c:685-695 | the step that selects a branch delivers or drops what disable_alt transfers |
| Interrupts.StepKeepsInv | src/sched.c:471-490 | every critical section of every process and every interrupt, in any order, keeps the invariant |
| Interrupts.RunKeepsInv | src/sched.c:754-770 | the invariant holds throughout every interleaving |
| Interrupts.Conserved | src/sched.c:877-888 | on every channel, at every moment of every interleaving, the interrupts received since connection are those delivered, those dropped by a guard without destination and those pending |
| Interrupts.NoneDropped | src/sched.c:685-695 | with destinations everywhere, interrupts received are those delivered plus those pending |
| Interrupts.WaitingHasNone | src/sched.c:471-480 | no process waits on an enabled interrupt channel with an interrupt pending, and each such channel names it |
| Interrupts.SelectsPending | src/sched.c:665-695 | a process with interrupt guards alone only ever selects one that has interrupts to deliver |
| InterruptAlt.EnablingIsAlt | src/sched.c:507-614 | when nothing comes between, the steps of a process with interrupt guards amount to enable_alt, and it waits exactly when that finds no guard ready |
| InterruptAlt.DisablingIsAlt | src/sched.c:620-700 | when nothing comes between, its steps from ready on amount to disable_alt: the selected channel has interrupts pending, and all of them are delivered, or dropped if there is no destination |
| InterruptAlt.InterruptReaches | src/sched.c:877-888 | an interrupt on a channel a process waits for reaches it: the process is readied, selects that channel and receives that one interrupt |
| TimeoutList.InsertIsStable | src/timer.c:61-100 | insertion keeps deadline order and puts a timeout behind all that are due no later |
| TimeoutList.InsertConserves | src/timer.c:61-100 | insertion adds exactly one entry |
| TimeoutList.StopFindsFirst | src/timer.c:105-120 | the two search loops stop at the first entry of the process with that deadline if there is one |
| TimeoutList.RemoveFirstMatch | src/timer.c:105-134 | removal deletes exactly the first entry matching time and process, and nothing when there is none |
| TimeoutList.RemoveUndoesInsert | src/timer.c:61-134 | removing an entry just inserted restores the list |
| TimeoutList.InsertKeepsOthers | src/timer.c:61-100 | insertion leaves other processes' timeouts in order |
| TimeoutList.RemoveKeepsOthers | src/timer.c:105-134 | removal leaves other processes' timeouts in order |
| TimerLaws.EnableKeepsNet | src/timer.c:151-159 | enabling keeps the timer armed in time if and only if the deadline is due, or is not the first, or is still ahead at the second clock reading |
| TimerLaws.EnableMissesDeadline | src/timer.c:151-159 | deadline 5, readings 4 and 5: the timeout is queued with the timer disarmed |
| TimerLaws.EnableQueues | src/timer.c:61-100 | a timeout still ahead of the clock is queued right behind those due no later, and one that is due changes nothing |
| TimerLaws.EnableArms | src/timer.c:73-93 | a new first deadline sets the timer to itself exactly while it is still ahead at the second clock reading; any other deadline leaves the timer alone |
| TimerLaws.DisableDequeues | src/timer.c:105-134 | disabling takes out the first copy of the timeout and changes nothing else |
| TimerLaws.DisableKeepsNet | src/timer.c:163-169 | removing a timeout without re-arming keeps the timer armed in time |
| TimerLaws.HandleLeavesLater | src/timer.c:177-196 | the handler's loop ends and leaves nothing due, whatever timeouts readied processes enable or disable meanwhile, and readies at most as many owners as were due |
| TimerLaws.HandleConserves | src/timer.c:177-203 | whatever timeouts readied processes enable or disable between the rounds of the handler, for every timeout: one that is due is served as often as it is queued, less at most the removals asked for; one that is not due is still queued, with those added meanwhile, less at most the removals asked for |
| TimerLaws.NoTimeoutLost | src/timer.c:177-203 | a timeout whose removal no readied process asks for is served if it is due and kept if it is not, exactly as often as it is queued |
| TimerLaws.HandleInOrder | src/timer.c:186-196 | owners are readied in the order of their deadlines, whatever readied processes do |
| TimerLaws.HandleIsExact | src/timer.c:177-196 | unless a timeout that is due is removed meanwhile, the handler readies the owners of exactly the timeouts due, in queue order |
| TimerLaws.HandleUndisturbed | src/timer.c:177-203 | when readied processes touch no timeouts, the handler moreover leaves the other timeouts as they were |
| TimerLaws.InterruptKeepsQueue | src/timer.c:177-203 | setting the timer again leaves in the queue exactly what the handler's loop left |
| TimerLaws.InterruptConserves | src/timer.c:177-203 | for the whole interrupt and every timeout, whatever readied processes do: one that is due has its owner readied as often as it is queued, less at most the removals asked for; one that is not due is still queued afterwards |
| TimerLaws.InterruptLosesNothing | src/timer.c:177-203 | a timeout whose removal nobody asks for has its owner readied or is still queued after the interrupt, exactly as often as it was queued |
| TimerLaws.InterruptIsExact | src/timer.c:177-203 | when readied processes touch no timeouts, the queue afterwards is exactly the timeouts not yet due, with the timer set for the first of them, or off |
| TimerLaws.InterruptKeepsNet | src/timer.c:177-203 | after an interrupt the timer is late by exactly the time between the clock reading and the setting, so it is in time if and only if these coincide or nothing is queued |
| TimerLaws.InterruptSetsLate | src/timer.c:198-202 | a queue and readings 5 and 6 for which the timer is set one unit too late |
| TimerLaws.NetAlwaysHolds | src/timer.c:61-203 | under every sequence of enables, disables and interrupts the queue is sorted and, if not empty, the timer is armed for no later than its head |
| TimerQueue.TimerQueue.InsertInQueue | src/timer.c:61-100 | the linked list refines sorted insertion; the timer is set exactly when the timeout becomes the head |
| TimerQueue.TimerQueue.RemoveFromQueue | src/timer.c:105-134 | the linked list refines removal of the first match; the result is where the search stopped, null only at the end of the list, against the comment at 132 |
| TimerQueue.TimerQueue.RemoveHead | src/timer.c:140-146 | unlinks the head and nothing else |
| TimerQueue.TimerQueue.EnableTimeout | src/timer.c:151-159 | a due timeout is ready and not queued; any other is queued |
| TimerQueue.TimerQueue.DisableTimeout | src/timer.c:163-169 | removes the timeout if queued and tells whether it is due |
| TimerQueue.TimerQueue.HandleTimeoutInterrupt | src/timer.c:177-203 | the handler's loop on the linked list refines the specification, with readied processes changing the queue between its rounds; the list afterwards is what the loop left, and the timer is set for its head |
| Arena.CoversOnce | src/memory.c:27-37 | every byte of the arena before the tail lies in exactly one block, and none from the tail on does |
| Arena.FreeOnce | src/memory.c:27-32 | a free block is in the list of its class once and in no other list |
| Arena.TheLengths | src/memory.c:30-33 | the lengths of the sixteen classes |
| Arena.AllocateMakesLive | src/memory.c:60-90 | an allocation makes exactly one block live, which was not, of the class asked for; it fails exactly when the list is empty and the tail too short, and then changes nothing |
| Arena.ReleaseMakesFree | src/memory.c:97-105 | a release makes exactly the released block free and carves nothing |
| Arena.AllocateUndoesRelease | src/memory.c:60-105 | the block released last is the next one allocated, which restores the arena |
| Arena.ReleaseUndoesReuse | src/memory.c:60-105 | releasing a reused block restores the arena |
| Arena.RunKeepsPartition | src/memory.c:60-123 | live blocks, free blocks and tail partition the arena after any sequence of valid requests |
| Arena.ServeCounts | src/memory.c:60-105 | a block is carved only when more blocks of its class are in use than ever before |
| Arena.ServedIffPeaksFit | src/memory.c:60-123 | a sequence of requests never runs out of memory if and only if the arena holds the peak use of each class together: reuse by class loses nothing |
| Memory.FindIndex | src/memory.c:42-53 | the search loop finds the smallest class that holds the size |
| Memory.SearchLeavesTable | src/memory.c:30-53 | the search runs past the table, which has no zero entry, exactly for sizes above 192 |
| Memory.Memory.AllocateMem | src/memory.c:60-90 | on the free lists linked through the blocks: the result is the address of the block the specification picks, None when memory is exhausted |
| Memory.Memory.ReleaseMem | src/memory.c:97-105 | on the linked lists: the block becomes the head of the list of its class |
| Memory.Memory.StoreByte | src/memory.c:27-28 | a write by the owner of a live block to any of its bytes disturbs no free list |
| RingLaws.StepInv | src/examples/mtring.c:79-209 | every communication of a ring keeps the conservation invariant and is one fewer to come |
| RingLaws.NoDeadlock | src/examples/mtring.c:108-207 | with fewer tokens than processes some channel can always communicate until all have terminated |
| RingLaws.RingResult | src/examples/mtring.c:56-207 | for mtring, ring3 and ring, any ring size and any order of communications: every run is finite, no error is reached, all maximal runs have the same length, end with every process terminated and print the sum of the tokens |
| RingLaws.TooManyTokens | src/examples/mtring.c:130-144 | with as many tokens as processes the root never gets past injecting |
| RingLaws.RingOverfull | src/examples/mtring.c:130-144 | so no run of an overfull ring ever collects, and every run is finite |
| RingLaws.RingCompletes | src/examples/mtring.c:108-207 | a ring completes if and only if it has fewer tokens than processes |
| RingLaws.GoalIs | src/examples/ring3.c:149-211 | the sum in the settings of the texts: T(T+1)/2 + (T+CT)(N-1) + CT for mtring, T + (T+C)(N-1) + C for ring3, N(C+1) for ring |
| RingLaws.AroundIs | src/examples/mtring.c:211-247 | the bound on communications in closed form: T tokens, limit L and two more circuits of the ring |
| RingLaws.ProgramsPrint | src/examples/ring3.c:149-211 | for each program and any settings, a run that cannot be continued has printed that sum, after (T+CT+2)N communications in mtring, (T+C+2)N in ring3 and (C+3)N in ring |
| RingLaws.FirstTokens | src/examples/ring3.c:109-122 | the root starts by sending one token round: 1 in mtring and ring, 10 in ring3 |
| RingLaws.DefaultSum | src/examples/mtring.c:12-14 | mtring as configured prints 163858400, which fits a 32-bit int |
| RingProcesses.Element.Rtc | src/examples/mtring.c:25-66 | the element's code, updating its record in place, is the step the laws are about |
| RingProcesses.Root.MtringRtc | src/examples/mtring.c:79-209 | mtring's root on its record, all phases and both branches |
| RingProcesses.Root.Ring3Rtc | src/examples/ring3.c:96-231 | ring3's root on its record |
| RingProcesses.Root.SingleRtc | src/examples/ring.c:76-197 | ring's root on its record |
| RingProgram.Program.Communicate | src/examples/mtring.c:211-247 | a communication between two records of the wired ring is a step of the ring |
| RingProgram.Program.Run | src/examples/mtring.c:211-247 | a ring of records, communicating in whatever order, terminates with every process done and the right sum |
| RingNetwork.LabelIsRingStep | src/examples/mtring.c:225-233 | with the guards and wiring of main, a step of the network is a communication of the ring or leaves it as it is |
| RingScheduled.RingBehaves | src/examples/mtring.c:101-106 | the ring's code is well behaved and has exactly one guard active |
| RingScheduled.RunIsRingRun | src/examples/mtring.c:211-247 | every run of the program on the scheduler is a run of the ring, and its length is bounded by it |
| RingScheduled.RingOnScheduler | src/examples/mtring.c:211-247 | on the scheduler, processes started in any order: the number of iterations is bounded, and when it goes idle every process has terminated and the root has the right sum; the text of 852 as written gives the same runs |
| RingProgress.RunContinues | src/examples/mtring.c:211-247 | a run of the ring on the scheduler that has not gone idle can be continued by the ring's code |
| RingProgress.RunCompletes | src/examples/mtring.c:211-247 | every run of a ring with fewer tokens than processes is the beginning of one that goes idle with every process terminated and the right sum |
| RingScheduled.OverfullOnScheduler | src/examples/mtring.c:130-144 | with too many tokens the scheduler goes idle with the root not terminated |
| CommsTime.CommKeepsRound | src/examples/commstime.c:16-98 | the communications of a round come in the order a, b, then c and d, and what crosses on c is the next number |
| CommsTime.RunKeepsRound | src/examples/commstime.c:16-125 | under every interleaving the values Consume receives are consecutive, one in every four communications |
| CommsTime.NeverStuck | src/examples/commstime.c:16-125 | the network never deadlocks |
| CommsTime.CommsTimeOnScheduler | src/examples/commstime.c:130-165 | on the scheduler Consume receives x0, x0 + 1, x0 + 2 and so on, one at least every 24 iterations, and the scheduler never goes idle; the text of 852 as written gives the same runs |
| CommsTime.NeverIdle | src/examples/commstime.c:130-165 | the scheduler running commstime never goes idle |
| CommsProgress.RunContinues | src/examples/commstime.c:130-165 | every run of commstime on the scheduler can be continued by the program's code |
| CommsProgress.ConsumeReceives | src/examples/commstime.c:107-125 | every run is the beginning of one in which Consume has received as many numbers as one asks for |
| CommsTimeProgram.Program.Communicate | src/examples/commstime.c:147-155 | a communication between two records of the wired program is a communication of the network followed by both ends' code |
| CommsTimeProgram.Program.Run | src/examples/commstime.c:130-165 | the four records, communicating in whatever order, never get stuck, and Consume receives consecutive numbers, one in every four communications |
| CommsTimeProcesses.Prefix.Rtc | src/examples/commstime.c:16-30 | Prefix's code on its record is the step the laws are about |
| CommsTimeProcesses.Delta.Rtc | src/examples/commstime.c:40-73 | Delta's code on its record |
| CommsTimeProcesses.Succ.Rtc | src/examples/commstime.c:82-98 | Succ's code on its record |
| CommsTimeProcesses.Consume.Rtc | src/examples/commstime.c:107-125 | Consume's code on its record, apart from its report |

## Left out

- Signals, masks and timers of `src/hardware.c` and `src/hardware-empty.c`: the model has critical sections, one clock reading each unless a second one is a parameter, and a one-shot timer.
- `src/atomic.h`, compiler effects and torn reads of the 64-bit clock.
- Interrupts during an iteration of `Scheduler` and `Kernel`: between `src/sched.c:770` and 822 an interrupt can link in a process its loop still holds, so the queue invariant is stated for runs without interrupts.
- Channel communication across priorities: a readied inputter of higher priority can ready the outputter while a suspended scheduler still holds it (`src/sched.c:810-835`), so `Nesting` states what holds regardless: priorities, depth, order of return, and intact links.
- Nesting.Machine.Schedule: the ALTs are abstract there (their results are a script). That every process queued above the base is served is stated for scripts without partners, as a partner may ready a process that is already held or queued, and for runs that end neither with the script nor in the idle process.
- Kernel.Kernel.Schedule: ends with the outcomes given to it, where the C loop at the lowest base never ends; termination of programs is `RingLaws.RingResult` and `SchedulerRuns.IterationsBounded`.
- Kernel.Kernel.Finish: a terminated process is let go, but its record is not handed to the allocator; that nothing refers to it any more is `AltCleanup.DisableUndoesEnable`.
- AltKernel.Channels.EnableTimeout: queues a new timeout record, where the text links in the one the guard points to; two guards that share a record are not modelled.
- AltKernel.Channels.CompleteBranch: variables are integers of a process named by position; byte copies, lengths and pointers are not modelled.
- AltCleanup.DisableUndoesEnable: assumes that between enabling and disabling other processes only take the process out of channels and queues, and that an offered output has been taken.
- Interrupts.NoneDropped: assumes a destination in every interrupt guard, as a guard without one drops its interrupts by design.
- Interrupts.RaiseIsCounted: the process named is made ready, but the ready queue and the preemption that readyProcessIfNecessary may cause are left out; `Nesting` has these, and `TimerLaws` what preempting processes do to the timeout queue.
- Sending interrupts by software, connecting beyond resetting the channel, and the range checks on interrupt numbers.
- KernelStart.StartProgram: the size check and the copying of local variables in `start` are left out, and the current process before the first iteration, in the text the idle process, is process 0.
- The idle process's loop, `currentPriority`, `initialize` and `run`.
- Memory.Memory.constructor: the system's allocation of the arena always succeeds; alignment of blocks is not modelled.
- Memory.Memory.StoreByte: a pointer is stored at one address and a byte write spoils the words that hold the byte; no other memory layout is modelled.
- RingLaws.RingResult: integers are unbounded; for the configured mtring the result fits (`RingLaws.DefaultSum`). At least one token and one cycle are assumed.
- RingScheduled.RingOnScheduler: as in `CommsTime.CommsTimeOnScheduler`, the outcomes of iterations that run no code are required to have one active guard as well, which restricts no run.
- ring's printed token is kept in `sum`, and a call of `error` in a ring is recorded in `failed`; printing and elapsed times are left out.
- The other examples (comm, procon, timing, timeout, 2chan, userintr, ring1, ring-x, ring variants without tokens), which would only add easy instances.
