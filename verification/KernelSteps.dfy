/** The kernel's own steps: clock interrupts, queue balancing, the reply of the
    system task, and schedcheck, which chooses and prepares the next process. */
module KernelSteps {
  import opened KernelTypes
  import opened Scheduler
  import opened Ipc
  import opened IpcInv
  import opened Letters
  import opened AsyncSends
  import opened KernelOps
  import opened Syscalls

  // ----------------------------------------------------------------- clock ticks

  /** clock_handler; alarm says whether a timer or a virtual timer has run out. */
  ghost function Tick(s: State, ticks: nat, alarm: bool): (r: State)
    requires StateShape(s)
  {
    var s1 := s.(sched := Charge(s.sched, ticks));
    if alarm || s1.sched.ent[s1.sched.procPtr].ticksLeft <= 0
    then MiniNotify(s1, HARDWARE, s.ipc.procs[CLOCK].endpoint).0
    else s1
  }

  lemma TickInv(s: State, ticks: nat, alarm: bool)
    requires KernelInv(s)
    ensures KernelInv(Tick(s, ticks, alarm))
  {
    hide MessageInv, SchedInv, Charge, MiniNotify;
    ChargeInv(s.sched, Ready(s.ipc), ticks);
    assert Live(s.ipc.procs[HARDWARE]) by { VitalLive(s, HARDWARE); }
    MiniNotifyInv(s.(sched := Charge(s.sched, ticks)), HARDWARE, s.ipc.procs[CLOCK].endpoint);
  }

  lemma VitalLive(s: State, p: nat)
    requires KernelInv(s) && p <= PM
    ensures Live(s.ipc.procs[p])
  {
  }

  /** do_clocktick's requeue of the process that was running when its time ran out. */
  ghost function ClockTick(s: State, prev: nat): (r: State)
    requires StateShape(s) && prev < |s.ipc.procs|
  {
    var e := s.sched.ent[prev];
    if e.ticksLeft <= 0 && e.preemptible && s.ipc.procs[prev].rts == {}
    then s.(sched := Requeue(s.sched, prev, e))
    else s
  }

  /** The clock task runs this, so even with IDLE off its list something is ready. */
  lemma ClockTickInv(s: State, prev: nat)
    requires KernelInv(s) && prev < |s.ipc.procs|
    requires s.sched.procPtr == CLOCK && CLOCK in Ready(s.ipc)
    ensures KernelInv(ClockTick(s, prev))
    ensures prev in Ready(s.ipc) ==> Current(Dequeue(s.sched, prev)) in Ready(s.ipc) - {prev}
  {
    hide MessageInv;
    if s.ipc.procs[prev].rts == {} {
      assert s.sched.ent[prev := s.sched.ent[prev]] == s.sched.ent;
      RequeueInv(s.sched, Ready(s.ipc), prev, s.sched.ent[prev]);
      DequeueReady(s.sched, Ready(s.ipc), prev);
    }
  }

  // -------------------------------------------------------------- balance_queues

  function InUse(i: Ipc): set<nat> {
    set p | 0 <= p < |i.procs| && !Empty(i.procs[p])
  }

  ghost function BalanceQueues(s: State): State
    requires StateShape(s)
  {
    s.(sched := Balance(s.sched, Ready(s.ipc), InUse(s.ipc)))
  }

  lemma BalanceQueuesInv(s: State)
    requires KernelInv(s)
    ensures KernelInv(BalanceQueues(s))
  {
    BalanceFromInv(s.sched, Ready(s.ipc), InUse(s.ipc), 0);
  }

  // ------------------------------------------------------------------- sys_task

  /** The reply of the system task to slot c: only to a caller that waits for it. */
  ghost function TaskReply(s: State, c: nat, body: int, io: Access): (r: State)
    requires StateShape(s) && c < |s.ipc.procs| && IsOkEndpoint(s.ipc, s.ipc.procs[c].endpoint)
  {
    if WillReceive(s.ipc.procs[c], s.ipc.procs[SYSTEM].endpoint)
    then MiniSend(s, SYSTEM, s.ipc.procs[c].endpoint, Data(body), false, io).0
    else s
  }

  /** The reply never blocks the system task. */
  lemma TaskReplyInv(s: State, c: nat, body: int, io: Access)
    requires KernelInv(s) && c < |s.ipc.procs| && IsOkEndpoint(s.ipc, s.ipc.procs[c].endpoint)
    ensures KernelInv(TaskReply(s, c, body, io))
    ensures c != SYSTEM ==> TaskReply(s, c, body, io).ipc.procs[SYSTEM] == s.ipc.procs[SYSTEM]
  {
    assert NamesOk(s.ipc, c);
    hide MessageInv;
    if WillReceive(s.ipc.procs[c], s.ipc.procs[SYSTEM].endpoint) {
      DeliverLetterKeeps(s, SYSTEM, c, Data(body));
    }
  }

  // ----------------------------------------------------------------- schedcheck

  /** Make the chosen process the running one. */
  function Switch(s: State): State {
    s.(sched := s.sched.(procPtr := Current(s.sched), nextPtr := None))
  }

  lemma SwitchInv(s: State)
    requires KernelInv(s)
    ensures KernelInv(Switch(s)) && Switch(s).sched.procPtr in Ready(Switch(s).ipc)
  {
  }

  /** delivermsg when the copy succeeds. */
  function Delivered(s: State, p: nat): State
    requires p < |s.ipc.procs|
  {
    s.(ipc := WithProc(s.ipc, p, s.ipc.procs[p].(misc := s.ipc.procs[p].misc - {DeliverMsg})))
  }

  /** vm_suspend: the copy faulted; VM is told unless it has been already. */
  ghost function Suspended(s: State, p: nat, tell: bool): (r: State)
    requires StateShape(s) && p < |s.ipc.procs|
    ensures StateShape(r) && |r.ipc.procs| == |s.ipc.procs|
  {
    var s1 := RtsSet(s, p, {VmRequest});
    if tell then MiniNotify(s1, SYSTEM, Ep(0, VM)).0 else s1
  }

  lemma DeliveredInv(s: State, p: nat)
    requires KernelInv(s) && p < |s.ipc.procs|
    ensures KernelInv(Delivered(s, p))
  {
    var i, j := s.ipc, Delivered(s, p).ipc;
    DeliveredMessage(i, p);
    SameReady(i, j);
  }

  lemma DeliveredMessage(i: Ipc, p: nat)
    requires MessageInv(i) && p < |i.procs|
    ensures MessageInv(WithProc(i, p, i.procs[p].(misc := i.procs[p].misc - {DeliverMsg})))
  {
    var j := WithProc(i, p, i.procs[p].(misc := i.procs[p].misc - {DeliverMsg}));
    DeliveredCore(i, p);
    PrivsKept(i, j);
    assert WaitsFor(j) == WaitsFor(i);
    assert SameLetters(i, j) && SameTables(i, j);
    hide CoreInv, PrivInv, AsyncInv, LetterInv;
    SameLettersInv(i, j);
    SameTablesInv(i, j);
  }

  lemma DeliveredCore(i: Ipc, p: nat)
    requires CoreInv(i) && p < |i.procs|
    ensures CoreInv(WithProc(i, p, i.procs[p].(misc := i.procs[p].misc - {DeliverMsg})))
  {
    var j := WithProc(i, p, i.procs[p].(misc := i.procs[p].misc - {DeliverMsg}));
    forall e ensures NamesLive(i, e) <==> NamesLive(j, e) {}
    forall x | 0 <= x < |j.procs| ensures NamesOk(j, x) && WaitOk(j, x) {
      assert NamesOk(i, x) && WaitOk(i, x);
    }
  }

  lemma SuspendedInv(s: State, p: nat, tell: bool)
    requires KernelInv(s) && p < |s.ipc.procs| && p != IDLE && s.ipc.procs[p].rts == {}
    ensures KernelInv(Suspended(s, p, tell))
  {
    SetStopInv(s, p, {VmRequest});
    var s1 := RtsSet(s, p, {VmRequest});
    assert Live(s1.ipc.procs[SYSTEM]) by { VitalLive(s1, SYSTEM); }
    MiniNotifyInv(s1, SYSTEM, Ep(0, VM));
  }

  // Why schedcheck's loop ends: a delivery empties a slot, a suspension takes its
  // process out of the running, and the notification it sends wakes a receiver.

  function Undelivered(i: Ipc): set<nat> {
    set p | 0 <= p < |i.procs| && DeliverMsg in i.procs[p].misc && VmRequest !in i.procs[p].rts
  }

  function Receivers(i: Ipc): set<nat> {
    set p | 0 <= p < |i.procs| && Receiving in i.procs[p].rts
  }

  function Work(i: Ipc): nat {
    |Undelivered(i)| + |Receivers(i)|
  }

  lemma DeliveredWork(s: State, p: nat)
    requires p in Undelivered(s.ipc)
    ensures Work(Delivered(s, p).ipc) < Work(s.ipc)
  {
    var j := Delivered(s, p).ipc;
    assert Undelivered(j) == Undelivered(s.ipc) - {p};
    assert Receivers(j) == Receivers(s.ipc);
  }

  lemma NotifyWork(s: State, c: nat, dst: Endpoint)
    requires StateShape(s) && c < |s.ipc.procs|
    ensures Work(MiniNotify(s, c, dst).0.ipc) <= Work(s.ipc)
  {
    hide Enqueue;
    var i, j := s.ipc, MiniNotify(s, c, dst).0.ipc;
    if IsOkEndpoint(i, dst) && WillReceive(i.procs[dst.slot], i.procs[c].endpoint)
      && ReplyPend !in i.procs[dst.slot].misc {
      var d: nat := dst.slot;
      assert Receivers(j) == Receivers(i) - {d};
      assert Undelivered(j) <= Undelivered(i) + {d};
      CardinalityLe(Undelivered(j), Undelivered(i) + {d});
    } else {
      assert Receivers(j) == Receivers(i) && Undelivered(j) == Undelivered(i);
    }
  }

  lemma CardinalityLe(a: set<nat>, b: set<nat>)
    requires a <= b
    ensures |a| <= |b|
  {
    assert b == a + (b - a);
  }

  lemma SuspendedWork(s: State, p: nat, tell: bool)
    requires StateShape(s) && p in Undelivered(s.ipc)
    ensures Work(Suspended(s, p, tell).ipc) < Work(s.ipc)
  {
    var s1 := RtsSet(s, p, {VmRequest});
    assert Undelivered(s1.ipc) == Undelivered(s.ipc) - {p};
    assert Receivers(s1.ipc) == Receivers(s.ipc);
    NotifyWork(s1, SYSTEM, Ep(0, VM));
  }

  /** schedcheck's loop.  faults holds the processes whose copy faults, and for each
      whether VM has to be told. */
  ghost function DeliverLoop(s: State, faults: map<nat, bool>): State
    requires KernelInv(s) && s.sched.nextPtr.None?
    decreases Work(s.ipc)
  {
    var p := s.sched.procPtr;
    LoopParts(s);
    if DeliverMsg !in s.ipc.procs[p].misc then s
    else if p !in faults then
      DeliveredInv(s, p);
      DeliveredWork(s, p);
      DeliverLoop(Delivered(s, p), faults)
    else
      SuspendedInv(s, p, faults[p]);
      SuspendedWork(s, p, faults[p]);
      SwitchInv(Suspended(s, p, faults[p]));
      DeliverLoop(Switch(Suspended(s, p, faults[p])), faults)
  }

  lemma LoopParts(s: State)
    requires KernelInv(s) && s.sched.nextPtr.None?
    ensures StateShape(s) && s.sched.procPtr in Ready(s.ipc)
    ensures DeliverMsg in s.ipc.procs[s.sched.procPtr].misc ==> s.sched.procPtr != IDLE
  {
  }

  ghost function SchedCheck(s: State, faults: map<nat, bool>): State
    requires KernelInv(s)
  {
    SwitchInv(s);
    DeliverLoop(Switch(s), faults)
  }

  /** The state is sound and a process with no message to be delivered is about to run. */
  ghost predicate Dispatched(s: State) {
    && KernelInv(s) && s.sched.nextPtr.None? && s.sched.procPtr in Ready(s.ipc)
    && DeliverMsg !in s.ipc.procs[s.sched.procPtr].misc
  }

  lemma {:induction false} DeliverLoopInv(s: State, faults: map<nat, bool>)
    requires KernelInv(s) && s.sched.nextPtr.None?
    ensures Dispatched(DeliverLoop(s, faults)) && |DeliverLoop(s, faults).ipc.procs| == |s.ipc.procs|
    decreases Work(s.ipc)
  {
    hide KernelInv, Enqueue, Dequeue, MiniNotify, Work;
    var p := s.sched.procPtr;
    LoopParts(s);
    if DeliverMsg in s.ipc.procs[p].misc {
      if p !in faults {
        DeliveredInv(s, p);
        DeliveredWork(s, p);
        DeliverLoopInv(Delivered(s, p), faults);
      } else {
        SuspendedInv(s, p, faults[p]);
        SuspendedWork(s, p, faults[p]);
        SwitchInv(Suspended(s, p, faults[p]));
        DeliverLoopInv(Switch(Suspended(s, p, faults[p])), faults);
      }
    }
  }

  /** schedcheck() returns with a runnable process that has no undelivered message. */
  lemma SchedCheckInv(s: State, faults: map<nat, bool>)
    requires KernelInv(s)
    ensures Dispatched(SchedCheck(s, faults)) && |SchedCheck(s, faults).ipc.procs| == |s.ipc.procs|
  {
    hide KernelInv, DeliverLoop;
    SwitchInv(s);
    DeliverLoopInv(Switch(s), faults);
  }
}
