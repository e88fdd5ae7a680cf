# MINIX 3 kernel, boot, shell and dining philosophers: a verified model

A Dafny model of the hard parts of this repository, with proofs. `dafny verify dfyconfig.toml`
checks all of it.

**Kernel** (`Minix3/kernel`). The state of message passing and scheduling is a value
(`KernelTypes`, `Ipc`, `Scheduler`): process table, caller queues, privilege structures with
pending bits, masks and asynchronous tables, ready queues, and a history of messages accepted,
delivered and dropped. `Syscalls`, `SendaOps`, `Lifecycle`, `Forking`, `Masks`, `KernelSteps`
and `Boot` specify the operations as functions on it; `KernelInv` is the invariant that they
all keep (no cycle of waiting processes, no lost wakeup, exactly-once delivery, empty slots of
receivers, replies from the right process, announced asynchronous elements, ready lists).
`Entries` adds the quanta and flags by which processes are scheduled. `Runs` makes a step
machine of them, for any number of processes and any sequence of steps from boot, and
`Theorems` states what holds in every state of every run. `Handover` and `Fates` follow
messages, notifications and signals into the delivery slots. `Traps` and `Effects` say what
each trap and each operation of the kernel does. `Witnesses` has concrete states, a booted
kernel a few steps on, at which the conditions below fail. The C code's own form is in
`ReadyQueues`, `CallerQueues` (linked lists in arrays of pointers), `QueueAudit` and `Kernel`:
classes whose methods walk and relink those lists in place, loop over the tables, and are
proved to do exactly what the specifications say.

**Boot** (`Minix3/boot`). `BootImage`: writing an image and extracting it again. `Loader`:
memory as an array, with sector and click rounding on 32-bit words. `RawFs`: the caches of
indirect blocks and of a track.

**ash** (`Minix3/commands/ash`). `ShellEval`: the interpreter with its skip flags against a
structured meaning of commands. `ShellRules`: that meaning against rules for commands. `Glob`:
`pmatch` and the four trims. `CommandCache` and `CommandTable`: the command table against a
search of PATH that remembers nothing.

**Dining philosophers** (`Chapter/Chapter2/Codes/dinning.c`). `Dining`: every semaphore
operation is a step, for any size of the ring and any interleaving.

Where the code does not do what one might expect, the model follows the code and an
if-and-only-if says when it does:

- RECEIVE from a named source looks at the lowest set bit of each chunk of pending
  notifications only (`ReceiveLimits.NamedNotifyExact`, `ReceiveLimits.NamedReceiveExact`).
- `deadlock()` does not see a process that names itself, and a fault in the middle of
  `try_one` can leave a sent element unmarked or hide a pending one; every other trap keeps the
  invariant (`Syscalls.SysCallExact`, `AsyncSends.TryAsyncInv`, `ReceiveLimits.SelfReceiveExact`).
- `enqueue` compares with the running process, not with the one already chosen
  (`Scheduler.EnqueueChoiceExact`).
- `do_fork` copies the parent's caller queue pointer, and its queue link, and can give the child
  a privilege structure with notifications pending (`Forking.ForkExact`).
- Revoking a permission can strand an asynchronous element (`Masks.UnsetSendToExact`).
- `r_vir2abs` takes a hole for block `zone_index` (`RawFs.HoleExact`).
- `changepath` heeds %builtin as any option of a PATH component, `find_command` only as the
  first (`CommandCache.ChangePathExact`).
- The philosophers start out EATING without holding forks (`Dining.FairExactly`).
- The loader checks data and bss against its limit but not the stack (`Loader.ProcessRoom`).

A run may contain any trap, fork and revocation that these conditions allow. `clear_endpoint`
leaves the dead process its caller queue, with the senders that it released still linked from
it. The invariant speaks of the queues of live processes only, and `CallerQueues` keeps the
set of stale owners: no method that reads a queue may be given one of them, so that list is
never read.

For SENDA `sys_call` applies the rule for kernel tasks to a process number that it has not
set; the model lets that test pass.

I/O, copies between address spaces and the clock are parameters: `Access` says which copies of
a trap fault, those of the elements of asynchronous tables included, `faults` which deliveries
do, `ticks` and `alarm` what the clock interrupt found, `Env` what commands, words and files
are.

## Model

| member | source | states |
|---|---|---|
| `Theorems.MessagesEverywhere` | Minix3/kernel/proc.c:453-714 | In every state of every run: the blocked-on graph has no cycle; whoever is waited for is live and named by a valid endpoint (so `deadlock()` ends and `okendpt` never panics); nobody is queued at a receiver that would accept the message; a process waiting for ANY has an empty caller queue and, if privileged, no pending notification; a waiting receiver has an empty delivery slot; what a SENDREC caller finds in its slot is an ordinary message from the process it called. |
| `Theorems.ExactlyOnce` | Minix3/kernel/proc.c:565-690 | A message accepted in some state of a run is, in every later state, exactly one of: delivered (once, unchanged, to its addressee, under its sender's name), dropped, or held by exactly one live process that is in its addressee's caller queue. If it was delivered, the step that did so left it in the delivery slot of its addressee, and there it stayed until a dispatch handed it over or the addressee exited. |
| `Fates.SlotsAreRight` | Minix3/kernel/proc.c:87-123 | In every step of every run: each delivery that is new in the log is in the slot of its receiver; so is each asynchronous element newly sent, with the body it had when SENDA was called; and an ordinary message that is new in a slot is one of these. |
| `Fates.SlotLasts` | Minix3/kernel/proc.c:128-218 | A message in a slot is there, unchanged, in every later state, until a dispatch to which no copy faults hands it over or its process exits. |
| `Fates.LettersArrive` | Minix3/kernel/proc.c:565-690 | Every delivery in the log was made by a step after which the message was in the slot of its receiver, and it stayed there until it was taken. |
| `Fates.PostsArrive` | Minix3/kernel/proc.c:793-1108 | Every asynchronous send in the log is an element, valid and not done, of the table that some SENDA call came with; it went to the process that the element names, as a message of the caller with the body of the element, and stayed in the slot until it was taken. |
| `Fates.NotificationsLast` | Minix3/kernel/proc.c:719-765 | In every run a pending notification goes only into the slot of a process that it is pending for, as a notification of the owner of its bit, or when the process that it is from loses its endpoint. |
| `Fates.SignalsLast` | Minix3/kernel/system.c:313-332 | In every run a signal pending for a process goes only with the notification of SYSTEM that carries it, which is then in the slot of that process; VM may be handed its own in the same dispatch. |
| `Effects.NamesAreFresh` | Minix3/kernel/system/do_fork.c:67-71 | In every run the endpoint of a slot changes only to one of a later generation, so that none is used twice. |
| `Theorems.QueuesEverywhere` | Minix3/kernel/proc.c:565-577 | In every state of every run the caller queue of each live process holds, once each, exactly the processes sending to it, in the order in which they blocked. |
| `Theorems.OnlyDeathDrops` | Minix3/kernel/system.c:490-533 | A step that drops a message is a `clear_endpoint` or an exit, and the message is from or to the process that goes. |
| `Theorems.FateIsFinal` | Minix3/kernel/proc.c:665-690 | Along a run the logs of delivered, dropped and asynchronously sent messages only grow at the end. |
| `Theorems.SlotNeverOverwritten` | Minix3/kernel/proc.c:87-123 | A message waiting in a delivery slot is the same after any step, unless that step handed it over. |
| `Theorems.AsyncEverywhere` | Minix3/kernel/proc.c:793-1108 | In every state of every run no element of an asynchronous send table has been sent twice, and every valid undone element for a live process is permitted by the send mask and has MF_ASYNMSG set at that process. |
| `Theorems.SchedulerEverywhere` | Minix3/kernel/proc.c:1145-1331 | In every state of every run a process is on a ready list, once, and that of its priority, exactly when its RTS flags are 0; the process about to run is runnable; IDLE_Q holds just IDLE; p_max_priority <= p_priority <= IDLE_Q - 1 for all others. |
| `Theorems.EntriesEverywhere` | Minix3/kernel/table.c:104-130 | In every state of every run each process in use has a positive quantum, and its scheduling entry has the preemptible and billable flags of its own privilege structure. |
| `Theorems.RecoveryEverywhere` | Minix3/kernel/proc.c:1337-1373 | In every state of every run, (p_priority - p_max_priority) + 1 passes of `balance_queues`, or more, with nothing in between, bring any process in use but IDLE to its maximum priority. |
| `Theorems.DispatchedMayTrap` | Minix3/kernel/proc.c:128-218 | In every run, after a dispatch the process about to run is runnable with an empty delivery slot, so that its next trap is one that SysCallExact speaks of; IDLE never traps. |
| `Theorems.OldestFirst` | Minix3/kernel/proc.c:665-690 | In every run, a RECEIVE from ANY with senders queued and no notification pending delivers the message accepted first of all those waiting for the caller. |
| `Theorems.MasksEverywhere` | Minix3/kernel/system.c:273-308 | In every state of every run whoever may be sent to may answer, unless it is a kernel task, and no structure has its own bit in its mask. |
| `Runs.StepKeeps` | Minix3/kernel/proc.c:223-448 | Each of the sixteen kinds of step (traps, notifications, signals, stops, exits, forks, mask changes, clock, balancing, replies, dispatch) keeps the whole invariant and only extends the history; a trap, fork or revocation may be any that SysCallExact, ForkExact or UnsetSendToExact says does. |
| `Runs.RunKeeps` | Minix3/kernel/proc.c:223-448 | From any boot state, every state of every run of such steps satisfies the invariant. |
| `Boot.BootInv` | Minix3/kernel/main.c:28-212 | A kernel booted from an image table shaped like that of table.c, with any number of process slots, satisfies the invariant and its masks allow answers. |
| `Boot.ImageIsOk` | Minix3/kernel/table.c:114-130 | The table of the repository is of that shape. |
| `Effects.BootIsSetUp` | Minix3/kernel/main.c:75-182 | Every process of the image starts with the queue, quantum, flags and traps of its row. |
| `Effects.BootPermits` | Minix3/kernel/main.c:110-116 | And may send to the earlier system processes that its row names. |
| `Kernel.Kernel.Cleared` | Minix3/kernel/main.c:46-63 | The process and privilege tables start out cleared. |
| `Kernel.Kernel.Start` | Minix3/kernel/main.c:75-182 | Turning the boot image into processes on the real queues gives the boot state, which satisfies the invariant. |
| `Syscalls.DeadlockExact` | Minix3/kernel/proc.c:453-517 | `deadlock()` refuses exactly when the other process depends on the caller, unless it does so directly and one of the two sends while the other only receives. |
| `Syscalls.SysCallExact` | Minix3/kernel/proc.c:223-448 | Every trap that a running process can make, refused or not, with any copies faulting, keeps the invariant exactly if its receive half, if it comes to that, neither blocks the caller on itself nor loses track of an asynchronous element through a fault. What each trap does is in the rows of `Traps`. |
| `Traps.RefusalExact` | Minix3/kernel/proc.c:300-408 | A trap is refused exactly if one of the checks refuses it (the last one stated by reachability in the blocked-on graph), with the code of the first that does, and then changes nothing. |
| `Traps.SendTrap` | Minix3/kernel/proc.c:419-445 | SEND and SENDNB that pass their checks: with a live destination and good copies exactly the message of the trap is accepted, and it is in the slot of the destination if that was waiting; otherwise SEND leaves the caller waiting, last in its queue, and SENDNB answers ENOTREADY; EFAULT and EDSTDIED change nothing. |
| `Traps.SendRecTrap` | Minix3/kernel/proc.c:419-432 | SENDREC that passes its checks: the same, with MF_REPLY_PEND set; the caller then has an answer of its partner in its slot or waits for one, or waits in the queue and for the answer. |
| `Traps.ReceiveTrap` | Minix3/kernel/proc.c:427-432 | RECEIVE that passes its checks, where it is safe: the caller gets the notification that is due, else the foremost letter of its queue, else the first eligible element of a table, else it waits for its source with an empty slot; EFAULT and ESRCDIED change nothing but MF_REPLY_PEND. |
| `Traps.NotifyTrap` | Minix3/kernel/proc.c:433-435 | NOTIFY that passes its checks answers OK, and the notification is in the slot of its target or pending for it. |
| `Traps.SendaTrap` | Minix3/kernel/proc.c:439-441 | SENDA: refused without privilege; otherwise the call is noted and the previous table given up, and of a good table every element to be sent is sent, kept with its receiver told, or marked as failed, the first that suits a waiting process being handed to it. |
| `Traps.UnknownTrap` | Minix3/kernel/proc.c:442-444 | An unknown call number answers EBADCALL and changes nothing. |
| `Syscalls.SendRecInv` | Minix3/kernel/proc.c:419-432 | The mark and the send half of a SENDREC always keep the invariant; the whole call does exactly if its receive half is safe in that sense. |
| `Syscalls.NoCrossing` | Minix3/kernel/proc.c:496-502 | While a process is sending, its addressee is not in its caller queue; this is why the receive half of SENDREC loses no wakeup. |
| `Syscalls.MiniSendInv` | Minix3/kernel/proc.c:522-580 | `mini_send` keeps the invariant if it does not block, or if the destination does not depend on the caller. |
| `Traps.SendExact` | Minix3/kernel/proc.c:522-580 | What `mini_send` does, case by case: delivered into the slot, queued last, or refused with a code and no change. |
| `Syscalls.MiniReceiveInv` | Minix3/kernel/proc.c:585-714 | A safe `mini_receive` keeps the invariant through all its ways to a message, and when it blocks; which message it takes is ReceiveExact. |
| `Syscalls.MiniReceiveExact` | Minix3/kernel/proc.c:585-714 | `mini_receive` from ANY, another process or the caller itself keeps the invariant exactly if it is safe. |
| `Traps.ReceiveExact` | Minix3/kernel/proc.c:585-714 | Which message a safe `mini_receive` of a process that is not sending takes: the notification that is due, unless an answer is awaited, then the foremost letter, then an element of a table; and that it waits if there is none. |
| `Traps.TakesLetter` | Minix3/kernel/proc.c:668-690 | Taking a letter off the queue puts exactly that letter, under its sender's name, into the slot, logs it, frees its sender and leaves the order of the others. |
| `Traps.DueExact` | Minix3/kernel/proc.c:633-662 | The search by chunks finds a notification exactly if it is the lowest pending, or for a named source the lowest of its chunk. |
| `Syscalls.FindNotifyAny` | Minix3/kernel/proc.c:633-662 | A search for ANY that finds no notification leaves none pending. |
| `ReceiveLimits.TakesOldest` | Minix3/kernel/proc.c:665-690 | RECEIVE from ANY with no deliverable notification delivers exactly one message, and it is the oldest in the caller queue. |
| `ReceiveLimits.NamedNotifyExact` | Minix3/kernel/proc.c:637-650 | RECEIVE from a named source finds a pending notification of it exactly if its bit is the lowest set in its chunk. |
| `ReceiveLimits.NamedReceiveExact` | Minix3/kernel/proc.c:633-714 | So RECEIVE from a named source with nothing else to take gets the pending notification of that source exactly if no lower bit of its chunk is set; otherwise the caller blocks on the source with the notification still pending. |
| `Witnesses.NamedNotifyMissed` | Minix3/kernel/proc.c:637-650 | A state that satisfies the invariant, and a RECEIVE from SYSTEM that blocks PM with the notification of SYSTEM pending. |
| `ReceiveLimits.SelfReceiveExact` | Minix3/kernel/proc.c:472-490 | RECEIVE from oneself keeps the invariant exactly if it does not block; if it blocks the blocked-on graph has a cycle. |
| `Witnesses.SelfReceiveCanCycle` | Minix3/kernel/proc.c:472-490 | A state that satisfies the invariant in which PM receives from PM and so makes a cycle. |
| `KernelOps.MiniNotifyInv` | Minix3/kernel/proc.c:719-765 | `mini_notify` keeps the invariant, whether it delivers or sets a bit; which of the two is NotifyExact. |
| `Handover.NotifyExact` | Minix3/kernel/proc.c:719-765 | `mini_notify` to a process in use puts the notification into its slot if it listens to the caller, with its pending signals or interrupts (of SYSTEM, of HARDWARE) moved into it, and otherwise sets the caller's bit, and nothing else. |
| `SendaOps.MiniSendaInv` | Minix3/kernel/proc.c:793-960 | `mini_senda` keeps the invariant for any table, also with bad flags in the middle, and whichever copies of its elements fault. |
| `SendaOps.ReceiveAsyncInv` | Minix3/kernel/proc.c:692-701 | The asynchronous part of a receive keeps the invariant of messages where it is safe. |
| `SendaOps.ReceiveAsyncExact` | Minix3/kernel/proc.c:692-701 | It keeps the asynchronous tables right exactly if no fault makes it lose track of an element. |
| `AsyncSends.TryOneComplete` | Minix3/kernel/proc.c:999-1108 | `try_one` hands over a message (which one is TryOneGives), or leaves nothing for the receiver except what AMF_NOREPLY postpones and what a fault hides. |
| `Handover.TryOneGives` | Minix3/kernel/proc.c:999-1108 | A `try_one` that succeeds puts the body of the first eligible element of the table, as a message of the table's owner, into the slot, and marks that element as done. |
| `Handover.TryAsyncGives` | Minix3/kernel/proc.c:966-993 | A `try_async` does so from the first table that has such an element, and succeeds exactly if there is one. |
| `Handover.ReceiveAsyncGives` | Minix3/kernel/proc.c:692-701 | So does the asynchronous part of a receive, from the table of the named source if there is one; otherwise the slots stay as they are. |
| `Handover.SysCallHands` | Minix3/kernel/proc.c:223-448 | Across a whole trap: nothing in a slot is replaced, all that is delivered or sent is in a slot, all that is new in a slot was delivered or sent, and bits and signals go only with their notifications. |
| `AsyncSends.TryOneExact` | Minix3/kernel/proc.c:1083-1100 | `try_one` keeps the tables right exactly if it does not hand over an element that it then fails to mark as done. |
| `AsyncSends.TryAsyncInv` | Minix3/kernel/proc.c:966-993 | `try_async` clears MF_ASYNMSG only with nothing pending in any table, and sends nothing twice, exactly unless the first element that it finds cannot be marked, or it finds and postpones none and a fault hides one. |
| `AsyncSends.TryAsyncExact` | Minix3/kernel/proc.c:966-993 | The same from any point of the loop, by induction over the tables still to come. |
| `Witnesses.FaultCanBreak` | Minix3/kernel/proc.c:1091-1097 | A state that satisfies the invariant, and a RECEIVE from ANY whose element cannot be marked, after which it does not. |
| `KernelOps.SendSigInv` | Minix3/kernel/system.c:313-332 | `send_sig` keeps the invariant. |
| `Effects.SendSigExact` | Minix3/kernel/system.c:313-332 | `send_sig` never loses a signal: it is in the notification in the slot of its target, with all that were pending, or pending with a notification of SYSTEM. |
| `KernelOps.CauseSigInv` | Minix3/kernel/system.c:337-368 | `cause_sig` keeps the invariant. |
| `Effects.CauseSigExact` | Minix3/kernel/system.c:337-368 | A new signal is noted; the first one stops the process and is announced to PM; one already noted changes nothing. |
| `KernelOps.SetStopInv` | Minix3/kernel/proc.h:129-136 | RTS_SET of any flags other than those of messages and slots keeps the invariant and leaves the process on no ready list. |
| `KernelOps.UnsetStopInv` | Minix3/kernel/proc.h:138-146 | RTS_UNSET of any such flags keeps the invariant; the process is then on a ready list exactly if it had no other flags. |
| `Lifecycle.ClearEndpointGone` | Minix3/kernel/system.c:455-540 | After `clear_endpoint` the process is in no queue of a live process, its own queue is left as it was, everybody who waited for it has been released with EDSTDIED or ESRCDIED, and no notification of it is pending; the messages dropped are exactly theirs and its own. |
| `Effects.ReleasedExact` | Minix3/kernel/system.c:510-538 | Every other process is as it was, except that senders to the dead are released with EDSTDIED and receivers from it with ESRCDIED. |
| `Lifecycle.ClearEndpointInv` | Minix3/kernel/system.c:455-540 | `clear_endpoint` of any process that is not a kernel task or PM keeps the invariant. |
| `Lifecycle.ExitInv` | Minix3/kernel/system/do_exit.c:48-94 | `clear_proc` of any process but the kernel tasks and PM, INIT included, keeps the invariant; it does nothing to an empty slot. |
| `Effects.ExitExact` | Minix3/kernel/system/do_exit.c:48-94 | Afterwards the slot is free and on no list, and so is a privilege structure of its own. |
| `Forking.ForkExact` | Minix3/kernel/system/do_fork.c:22-115 | `do_fork` is carried out exactly under its checks, changes nothing otherwise, and keeps the invariant exactly if nobody is queued at the parent, the parent is not itself in a queue, and the structure that users share has no notification of a dead process pending. |
| `Forking.UserHasBits` | Minix3/kernel/system/do_fork.c:92-94 | The last of these holds as long as any user process is in use. |
| `Effects.ChildIs` | Minix3/kernel/system/do_fork.c:63-115 | What the child is: the copy of its parent with a new endpoint, answer 0, no signals, an empty slot, and of a system parent without its privileges. |
| `Effects.ForkShares` | Minix3/kernel/system/do_fork.c:81-86 | Parent and child together have the ticks the parent had, and the child at most one more. |
| `Witnesses.ForkCanBreak` | Minix3/kernel/system/do_fork.c:63-77 | A state that satisfies the invariant, and a fork of a queued parent after which it does not. |
| `Entries.ForkEntries` | Minix3/kernel/system/do_fork.c:63-106 | A child gets the quantum of its parent and is scheduled by the flags of its own privilege structure. |
| `Masks.SetSendToInv` | Minix3/kernel/system.c:273-294 | Permitting a destination keeps the invariant and the right to answer. |
| `Effects.AllowExact` | Minix3/kernel/system.c:273-294 | Exactly the bit asked for, and the one for the answer unless the destination is a kernel task, are added. |
| `Masks.UnsetSendToExact` | Minix3/kernel/system.c:299-308 | Revoking one keeps the invariant exactly if no pending element needs the permission in either direction. |
| `Effects.RevokeExact` | Minix3/kernel/system.c:299-308 | Exactly the two bits between the two structures are removed. |
| `Witnesses.RevokeCanBreak` | Minix3/kernel/system.c:299-308 | A state that satisfies the invariant in which PM loses the right to send to VFS and strands an element. |
| `KernelSteps.TaskReplyInv` | Minix3/kernel/system.c:121-143 | The reply of the system task keeps the invariant and never blocks the system task. |
| `Effects.ReplyExact` | Minix3/kernel/system.c:121-143 | The reply is in the slot of a caller that waits for it, if it can be copied; otherwise nothing changes. |
| `KernelSteps.TickInv` | Minix3/kernel/clock.c:182-264 | The clock interrupt keeps the invariant. |
| `Effects.TickExact` | Minix3/kernel/clock.c:182-264 | CLOCK is notified exactly if a timer or the time of the running process has run out. |
| `KernelSteps.ClockTickInv` | Minix3/kernel/clock.c:104-131 | Requeueing an expired process keeps the invariant; in between something else is always ready, so `pick_proc` does not panic. |
| `Effects.ExpiredGoesLast` | Minix3/kernel/clock.c:104-131 | The expired process is last on the list of the next lower priority, with a new quantum. |
| `KernelSteps.BalanceQueuesInv` | Minix3/kernel/proc.c:1337-1373 | `balance_queues` keeps the invariant. |
| `KernelSteps.SchedCheckInv` | Minix3/kernel/proc.c:128-218 | `schedcheck` ends, keeps the invariant, and returns with a runnable process that has no undelivered message. |
| `KernelSteps.DeliverLoopInv` | Minix3/kernel/proc.c:150-205 | So does its loop, whichever copies fault. |
| `Effects.SuspendExact` | Minix3/kernel/arch/i386/memory.c:597-622 | A process whose message cannot be copied keeps it and is stopped, and VM is notified if it has to be. |
| `Scheduler.EnqueueInv` | Minix3/kernel/proc.c:1145-1203 | `enqueue` with `sched` keeps: every runnable process on one list, that of its priority, and a runnable choice. |
| `Scheduler.DequeueInv` | Minix3/kernel/proc.c:1208-1262 | `dequeue` of any process, IDLE too, keeps the lists right and makes a new choice where the old one left, if anything is left to choose. |
| `Scheduler.EnqueueOrder` | Minix3/kernel/proc.c:1267-1296 | A process with time left is first on its list; one without is last on the next lower, with a new quantum; the order of the others stays. |
| `Scheduler.DequeueOrder` | Minix3/kernel/proc.c:1208-1262 | Taking a process off its list leaves the order of the others. |
| `Scheduler.PickProcExact` | Minix3/kernel/proc.c:1300-1331 | The choice is the head of the best list that is not empty, and is billed if it is billable. |
| `Scheduler.EnqueueChoiceExact` | Minix3/kernel/proc.c:1194-1196 | After an enqueue no ready process outranks the choice exactly if the running process was outranked and preemptible, or the old choice is good enough for the newcomer. |
| `Scheduler.ChoiceNeverOutranked` | Minix3/kernel/proc.c:1145-1262 | While the running process stays queued and preemptible, no sequence of enqueues and dequeues of others leaves a better process waiting than the one chosen. |
| `Scheduler.BlockedRunnerCanBeOutranked` | Minix3/kernel/proc.c:1194-1196 | Without that, a state and an enqueue that leave the choice outranked. |
| `Scheduler.ChargeInv` | Minix3/kernel/clock.c:217-234 | Charging ticks keeps the scheduler's invariant. |
| `Scheduler.ChargeExact` | Minix3/kernel/clock.c:217-234 | The ticks are taken from the running process if it is preemptible, from the billed one if the running one is not billable, and from nobody else. |
| `Scheduler.BalanceExact` | Minix3/kernel/proc.c:1352-1365 | What one pass does to the priority and the ticks of each process. |
| `Scheduler.PriorityRecovery` | Minix3/kernel/proc.c:1352-1365 | (p_priority - p_max_priority) + 1 passes of `balance_queues`, or more, bring every live process but IDLE, whose quantum is positive, to its maximum priority, although `sched` demotes it again when it is out of time. |
| `ReadyQueues.ReadyQueues.Enqueue` | Minix3/kernel/proc.c:1145-1203 | On head, tail and next pointers: the lists become those of the specification. |
| `ReadyQueues.ReadyQueues.Dequeue` | Minix3/kernel/proc.c:1208-1262 | The same for the walk with a pointer to a pointer; the process is then on no list. |
| `ReadyQueues.ReadyQueues.PickProc` | Minix3/kernel/proc.c:1300-1331 | The choice is the head of the first list that is not empty; `found` is false exactly if there is none. |
| `ReadyQueues.ReadyQueues.Raise` | Minix3/kernel/proc.c:1352-1365 | One process of `balance_queues`. |
| `ReadyQueues.ReadyQueues.ChargeTicks` | Minix3/kernel/clock.c:217-234 | The tick accounting. |
| `CallerQueues.CallerQueues.Append` | Minix3/kernel/proc.c:573-577 | The walk to the end of a caller queue adds at its end. |
| `CallerQueues.CallerQueues.Find` | Minix3/kernel/proc.c:665-690 | The first sender that is wanted, and its place. |
| `CallerQueues.CallerQueues.Cut` | Minix3/kernel/proc.c:680-690 | That sender leaves the queue and the order of the others stays. |
| `CallerQueues.CallerQueues.Remove` | Minix3/kernel/system.c:490-507 | A process is searched for in the queue it is in and taken off it. |
| `CallerQueues.CallerQueues.Copy` | Minix3/kernel/system/do_fork.c:63 | The child gets the queue pointers of its parent; for an empty queue that is an empty queue. |
| `QueueAudit.CheckQueue` | Minix3/kernel/debug.c:40-88 | The walk along one list accepts if the list is well formed, and finds just the list. |
| `QueueAudit.CheckRunqueues` | Minix3/kernel/debug.c:18-107 | `check_runqueues_f` accepts exactly the tables whose lists are acyclic, end at their tails, and hold each runnable process once, at its priority. |
| `Kernel.Kernel.CheckRunqueues` | Minix3/kernel/debug.c:18-107 | The kernel's own queues always pass that check. |
| `Kernel.Kernel.RtsSet` | Minix3/kernel/proc.h:129-136 | Flags and queues change together, as specified. |
| `Kernel.Kernel.RtsUnset` | Minix3/kernel/proc.h:138-146 | Flags and queues change together, as specified. |
| `Kernel.Kernel.QueueMess` | Minix3/kernel/proc.c:87-123 | The slot is filled and marked. |
| `Kernel.Kernel.MiniSend` | Minix3/kernel/proc.c:522-580 | Refines the specification of MiniSendInv on linked caller queues. |
| `Kernel.Kernel.MiniReceive` | Minix3/kernel/proc.c:585-714 | Refines the specification of MiniReceiveInv and ReceiveExact. |
| `Kernel.Kernel.FindNotify` | Minix3/kernel/proc.c:637-650 | The search by chunk and bit refines the one NamedNotifyExact is about. |
| `Kernel.Kernel.TakeQueued` | Minix3/kernel/proc.c:668-690 | Taking a sender off the queue, with its wakeup and its delayed signal, as specified where TakesLetter is about it. |
| `Kernel.Kernel.MiniNotify` | Minix3/kernel/proc.c:719-765 | Refines the specification of MiniNotifyInv and NotifyExact. |
| `Kernel.Kernel.MiniSenda` | Minix3/kernel/proc.c:793-960 | The loop over the table refines the specification of MiniSendaInv. |
| `Kernel.Kernel.TryAsync` | Minix3/kernel/proc.c:966-993 | The loop over the privilege structures refines that of TryAsyncInv. |
| `Kernel.Kernel.TryOne` | Minix3/kernel/proc.c:999-1108 | Refines that of TryOneComplete and TryOneGives, with any copies faulting. |
| `Kernel.Kernel.Scan` | Minix3/kernel/proc.c:1022-1090 | The walk along one table finds the element that the specification finds, or how it ends without one. |
| `Kernel.Kernel.Deadlock` | Minix3/kernel/proc.c:453-517 | The loop along the dependencies ends and computes what DeadlockExact is about. |
| `Kernel.Kernel.CheckCall` | Minix3/kernel/proc.c:303-408 | The checks, in their order and with their error codes. |
| `Kernel.Kernel.SysCall` | Minix3/kernel/proc.c:223-448 | The whole trap refines the specification of SysCallExact and of the rows of `Traps`, safe or not. |
| `Kernel.Kernel.SendSig` | Minix3/kernel/system.c:313-332 | Refines the specification of SendSigInv. |
| `Kernel.Kernel.CauseSig` | Minix3/kernel/system.c:337-368 | Refines the specification of CauseSigInv. |
| `Kernel.Kernel.SigDelayDone` | Minix3/kernel/system.c:373-384 | The delayed stop is lifted and signalled, as specified. |
| `Kernel.Kernel.ClearEndpoint` | Minix3/kernel/system.c:455-540 | Refines the specification of ClearEndpointInv, with the stale queue left behind. |
| `Kernel.Kernel.MarkGone` | Minix3/kernel/system.c:475-476 | The process is marked before its queue goes stale; no other queue does. |
| `Kernel.Kernel.ClearAll` | Minix3/kernel/system.c:510-538 | The loop over all processes. |
| `Kernel.Kernel.Exit` | Minix3/kernel/system/do_exit.c:48-94 | Refines the specification of ExitInv. |
| `Kernel.Kernel.Fork` | Minix3/kernel/system/do_fork.c:22-115 | Refines the specification of ForkExact where the parent is alone. |
| `Kernel.Kernel.BalanceQueues` | Minix3/kernel/proc.c:1337-1373 | The loop over the process table refines the passes of PriorityRecovery. |
| `Kernel.Kernel.Tick` | Minix3/kernel/clock.c:182-264 | Refines the specification of TickInv. |
| `Kernel.Kernel.ClockTick` | Minix3/kernel/clock.c:104-131 | Refines the specification of ClockTickInv. |
| `Kernel.Kernel.TaskReply` | Minix3/kernel/system.c:121-143 | Refines the specification of TaskReplyInv. |
| `Kernel.Kernel.SchedCheck` | Minix3/kernel/proc.c:128-218 | The loop refines the specification of SchedCheckInv. |
| `Kernel.Kernel.SetSendTo` | Minix3/kernel/system.c:273-294 | Refines the specification of SetSendToInv. |
| `Kernel.Kernel.UnsetSendTo` | Minix3/kernel/system.c:299-308 | Refines the specification of UnsetSendToExact. |
| `BootImage.ProcSizeIsRight` | Minix3/boot/bootimage.c:241-251 | `proc_size` is the number of sectors written after the header, for all combinations of A_PAL and A_SEP, and the same for the stripped header. |
| `BootImage.ReadHeader` | Minix3/boot/installboot.c:96-161 | A header is accepted exactly if it is long enough and has the magic number, and is then the file's. |
| `BootImage.CopyExec` | Minix3/boot/installboot.c:174-193 | n bytes are copied and padded to a sector, exactly if the file has them. |
| `BootImage.AddProgram` | Minix3/boot/installboot.c:211-257 | One program adds its header sector and its padded segments. |
| `BootImage.MakeImage` | Minix3/boot/installboot.c:195-266 | An image is made exactly if all the programs will do, and is that of each in turn. |
| `BootImage.ExtractExec` | Minix3/boot/installboot.c:268-282 | count bytes are copied out of whole sectors, exactly if the image has those. |
| `BootImage.ExtractOne` | Minix3/boot/installboot.c:301-333 | One program comes back whole, and what is left of the image is what followed it. |
| `BootImage.ExtractImage` | Minix3/boot/installboot.c:284-334 | Extracting a made image gives back every program, byte for byte, and consumes it to the end. |
| `Loader.AlignIs` | Minix3/boot/bootimage.c:571-587 | On 32-bit words `align` rounds up, and takes a negative size above -click for nothing. |
| `Loader.RawClear` | Minix3/boot/bootimage.c:105-124 | Clearing by doubling clears exactly the bytes asked for. |
| `Loader.CopySectors` | Minix3/boot/bootimage.c:363-375 | The loop copies whole units of the image in order, never at or above the limit, and gets to the end exactly if the image and the memory have room. |
| `Loader.GetSegment` | Minix3/boot/bootimage.c:356-384 | The segment is the image's bytes followed by zeros up to a click; nothing else changes; it succeeds exactly if there is room. |
| `Loader.AddBssAndStack` | Minix3/boot/bootimage.c:566-590 | Rounding bss and stack one after the other rounds their sum; the bss is cleared if it fits. |
| `Loader.LoadProcess` | Minix3/boot/bootimage.c:515-590 | From a click boundary the data segment ends exactly at its start plus data, bss and stack rounded up together; text and data are the image's bytes; the rest up to the rounded data and bss is zero; nothing outside is touched; it succeeds exactly if there is room. |
| `Loader.PaddedSegment` | Minix3/boot/bootimage.c:356-384 | On an image whose segments are padded with zeros, all after the segment's own bytes is zero. |
| `Loader.LoadAll` | Minix3/boot/bootimage.c:461-600 | The loop over all processes succeeds exactly if each in turn has room, and then every segment is in its place and no later one disturbed it. |
| `RawFs.SlotsDiffer` | Minix3/boot/rawfs.c:235-275 | Different zones of a file have different slots among the direct, single and double indirect zones. |
| `RawFs.File.Stat` | Minix3/boot/rawfs.c:107-177 | Another file is looked at and the caches no longer speak for the last one. |
| `RawFs.File.Vir2Abs` | Minix3/boot/rawfs.c:220-287 | Whatever was asked before, the answer is that of a walk from the inode without caches. |
| `RawFs.HoleExact` | Minix3/boot/rawfs.c:283-286 | For a hole the answer is 0 exactly if the block is the first of its zone. |
| `RawFs.HoleMistaken` | Minix3/boot/rawfs.c:283-286 | With two blocks to a zone, a hole for which it is not. |
| `RawFs.Track.GetSector` | Minix3/boot/bootimage.c:276-326 | The sector of the disk, or zeros for a hole, whatever the track buffer holds; failure only where the disk fails or there is no such sector. |
| `ShellEval.Shell.EvalTree` | Minix3/commands/ash/eval.c:190-282 | With flags and counters the tree evaluates to what it means with structured break, continue and return; loopnest and funcnest are unchanged; a break or continue still pending satisfies 1 <= skipcount <= loopnest, so none survives outside all loops. |
| `ShellRules.Soundness` | Minix3/commands/ash/eval.c:190-282 | What the rules derive (an and-list goes on exactly after success and an or-list after failure, both branches of if, while against until, for, case, functions, break and continue) is what the interpreter's meaning computes. |
| `ShellRules.Completeness` | Minix3/commands/ash/eval.c:190-282 | And what it computes has a derivation by the rules. |
| `ShellRules.OneResult` | Minix3/commands/ash/eval.c:190-282 | The rules give a command at most one result. |
| `ShellRules.AndOrRun` | Minix3/commands/ash/eval.c:208-220 | An and-list runs its second command exactly if the first returns 0, an or-list exactly if it does not. |
| `ShellRules.IfRuns` | Minix3/commands/ash/eval.c:231-242 | if runs the first part if the test returns 0 and the other if not; ! inverts. |
| `ShellRules.LoopRuns` | Minix3/commands/ash/eval.c:286-317 | A while or until loop of simple commands runs its body as often as its condition says, and ends with the status of the last turn. |
| `ShellEval.Shell.EvalLoop` | Minix3/commands/ash/eval.c:286-317 | So does a while or until loop. |
| `ShellEval.Shell.LoopTurn` | Minix3/commands/ash/eval.c:292-313 | One turn of it: left, or gone on with, as the meaning says. |
| `ShellEval.Shell.Skipping` | Minix3/commands/ash/eval.c:295-302 | A loop consumes one count of a pending break or continue and is left or continued accordingly. |
| `ShellEval.Shell.EvalFor` | Minix3/commands/ash/eval.c:322-357 | So does a for loop. |
| `ShellEval.Shell.EvalCase` | Minix3/commands/ash/eval.c:362-385 | So does a case: the first clause that matches. |
| `ShellEval.Shell.EvalCommand` | Minix3/commands/ash/eval.c:780-803 | A function call ends a pending return and nothing else, in its own nest of loops. |
| `ShellEval.Shell.BreakOrContinue` | Minix3/commands/ash/eval.c:958-969 | break and continue set the flag and at most loopnest as the count. |
| `ShellEval.Shell.ReturnNow` | Minix3/commands/ash/eval.c:1026-1039 | return leaves the function, and outside one is only a status. |
| `ShellEval.BreakLeaves` | Minix3/commands/ash/eval.c:958-969 | break n inside m loops that are inside depth more leaves exactly min(n, depth + m) of them. |
| `ShellEval.MoreFuel` | Minix3/commands/ash/eval.c:190-282 | The bound on steps decides whether the meaning is reached, never which it is. |
| `Glob.PMatch` | Minix3/commands/ash/expand.c:1328-1444 | Accepts exactly the strings of the pattern: literals, escapes, ? and *. |
| `Glob.Star` | Minix3/commands/ash/expand.c:1353-1376 | So does the case of a star, with its runs of stars and its skip to the next possible place. |
| `Glob.FindPrefix` | Minix3/commands/ash/expand.c:537-570 | The shortest or longest prefix that matches, or that none does. |
| `Glob.FindSuffix` | Minix3/commands/ash/expand.c:572-602 | The shortest or longest suffix that matches, or that none of those tried does. |
| `Glob.TrimLeft` | Minix3/commands/ash/expand.c:537-613 | In place: what is left after removing that prefix. |
| `Glob.TrimRight` | Minix3/commands/ash/expand.c:572-602 | What is left after removing that suffix, the empty one included. |
| `CommandCache.AlwaysFresh` | Minix3/commands/ash/exec.c:316-555 | After any lookups, cds and safe changes of PATH, a lookup finds what a search from scratch would find in the PATH and directory of the moment. |
| `CommandCache.ChangePathExact` | Minix3/commands/ash/exec.c:489-555 | A change of PATH keeps every right table right, whatever files and builtins there are, exactly if it is safe: it does not lie after builtinloc and before or at the component that the search takes for the builtins, or it is harmless there. |
| `CommandCache.FirstOptionsSafe` | Minix3/commands/ash/exec.c:489-524 | Every change is safe if no component has %builtin as other than its first option. |
| `CommandTable.UnsafeFamily` | Minix3/commands/ash/exec.c:489-524 | A family of unsafe changes. |
| `CommandCache.SameBelow` | Minix3/commands/ash/exec.c:496-513 | Components below `firstchange` are the same in the old and the new PATH. |
| `CommandCache.FindIsFresh` | Minix3/commands/ash/exec.c:316-438 | A lookup, with its shortcut for absolute names, finds what a fresh search would and leaves the table right. |
| `CommandCache.FreshExact` | Minix3/commands/ash/exec.c:347-425 | What a search from scratch finds: the first component that has the command or stands for it as a builtin. |
| `CommandCache.SplitJoin` | Minix3/commands/ash/exec.c:185-215 | The components of a path, with colons between them, are the path. |
| `CommandCache.ChangeDirRight` | Minix3/commands/ash/exec.c:466-478 | `hashcd` keeps the table right. |
| `CommandTable.CmdTable.CmdLookup` | Minix3/commands/ash/exec.c:606-636 | The hash chains hold exactly the table. |
| `CommandTable.CmdTable.Delete` | Minix3/commands/ash/exec.c:643-652 | The entry, and no other, goes. |
| `CommandTable.CmdTable.PAdvance` | Minix3/commands/ash/exec.c:185-215 | The name made of the next component, its option, and the rest of the path. |
| `CommandTable.CmdTable.FindCommand` | Minix3/commands/ash/exec.c:316-438 | Refines the lookup of FindIsFresh on the hash chains. |
| `CommandTable.CmdTable.SearchPath` | Minix3/commands/ash/exec.c:347-425 | The loop along the path refines the search with the shortcut. |
| `CommandTable.CmdTable.ChangeDir` | Minix3/commands/ash/exec.c:466-478 | Refines the one of ChangeDirRight. |
| `CommandTable.CmdTable.ClearCmdEntry` | Minix3/commands/ash/exec.c:533-555 | Exactly the entries from `firstchange` on go, and the builtins if builtinloc is there. |
| `CommandTable.CmdTable.ChangePath` | Minix3/commands/ash/exec.c:489-524 | Refines the change of ChangePathExact. |
| `CommandTable.Compare` | Minix3/commands/ash/exec.c:500-517 | The walk along both paths at once finds the first change and builtinloc. |
| `CommandTable.ScanIsFirst` | Minix3/commands/ash/exec.c:511-512 | builtinloc is the first component with %builtin among its options. |
| `Dining.Safe` | Chapter/Chapter2/Codes/dinning.c:37-92 | For any ring of two or more and any interleaving: no two neighbours hold forks, each semaphore is 0 or 1, the philosophers are never all blocked, and some thread can always go on. |
| `Dining.ThinkingIsFair` | Chapter/Chapter2/Codes/dinning.c:37-92 | From THINKING, in every state of every run eating means holding the forks, and nobody waits while both neighbours leave the forks alone. |
| `Dining.EatingIsUnfair` | Chapter/Chapter2/Codes/dinning.c:27-31 | From the state the program starts with, a run of four or more after which somebody waits with nobody around it eating and nobody in the critical section. |
| `Dining.FewAreUnfair` | Chapter/Chapter2/Codes/dinning.c:27-31 | With two or three, a run in which somebody does so for a moment. |
| `Dining.FairExactly` | Chapter/Chapter2/Codes/dinning.c:27-31 | Nobody ever waits without a reason exactly if all start out THINKING. |
| `Dining.Ring` | Chapter/Chapter2/Codes/dinning.c:24-29 | The neighbours are those of the macros. |
| `Dining.Forks.TryEat` | Chapter/Chapter2/Codes/dinning.c:37-53 | On the shared arrays: the step of the machine. |
| `Dining.Forks.TakeFork` | Chapter/Chapter2/Codes/dinning.c:56-73 | The critical section is its two steps. |
| `Dining.Forks.PutFork` | Chapter/Chapter2/Codes/dinning.c:76-92 | The critical section is its three steps. |

## Left out

- Kernel.Kernel.Fork: requires what ForkExact shows to be needed, a parent that is alone; the
  two queues with one tail that the C code makes otherwise are in the specification only.
- Kernel.Kernel.RtsSet: is for a process other than IDLE, which no source line blocks; SLOT_FREE
  and NO_ENDPOINT, which make a queue stale, are set by Exit and MarkGone.
- Syscalls.SysCallExact: IDLE never traps; the start of `sys_call` that defers a traced call
  (MF_SC_*) is not modelled.
- Traps.SendaTrap: of a table with bad flags, or whose copies fault, it says only that the call is
  noted; that the invariant survives is MiniSendaInv.
- Traps.ReceiveTrap: is for the traps that SysCallExact finds safe, and so is Traps.SendRecTrap.
- Effects.CauseSigExact: is not for PM, for which `cause_sig` panics.
- Effects.BootPermits: the bits that earlier processes have for later ones come from the rows of
  the later ones.
- KernelSteps.SchedCheckInv: the branches of the loop for a traced call (MF_SC_*) are not
  modelled: it neither resumes a deferred call nor signals the tracer.
- KernelSteps.DeliverLoopInv: leaves out the same branches.
- Lifecycle.ExitInv: is not for the kernel tasks and PM, without which the kernel panics; Runs
  leaves out VFS and VM too, for the same reason.
- CallerQueues.CallerQueues.Cut: the place of the sender is given as its predecessor, where the
  C code holds a pointer to a pointer.
- Glob.PMatch: has no bracket expressions and no quoted subject (`squoted` is 0); every CTLESC
  is followed by a character.
- ShellEval.Shell.EvalTree: takes a bound on the number of calls and loop turns, since a shell
  command need not end; MoreFuel shows that it does not matter otherwise. Subshells, pipes,
  redirection, `-e`, traps and `exit` are left out.
- CommandCache.AlwaysFresh: files do not change, and %func components count as unknown options.
- Loader.LoadAll: has no labels to select processes by, no extended memory, and takes the sizes
  as read from the headers; stacks are not negative and sums stay below 2^32.
- BootImage.ReadHeader: header lengths beyond the structure are an error here.
- RawFs.File.Vir2Abs: is for blocks that the double indirect zone can name, and indirect blocks
  of full length.
- RawFs.Track.GetSector: the disk does not change, and a failed read of n sectors depends only
  on where and how many.
- The generation number of an endpoint grows without wrapping around.
- System call tracing (MF_SC_*), profiling, virtual timers, the timers library, interrupt hooks.
- The kernel call handlers other than fork and exit; address mapping; suspension for VM beyond
  stopping and resuming the process.
- Interrupts within kernel code: every entry is one step.
- `lock_send`, `lock_notify` and the other gateways, which only add locking.
- The monitor's menu, console, BIOS and partition code, `r_lookup` and `r_readdir`.
- The rest of the shell, the other commands, the text of the book's chapters.
