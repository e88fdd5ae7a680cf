/** What the kernel's own operations do: signals, clock interrupts, replies of the system
    task, send masks and forks. */
module Effects {
  import opened KernelTypes
  import opened Scheduler
  import opened Ipc
  import opened IpcInv
  import opened KernelOps
  import opened Syscalls
  import opened Lifecycle
  import opened Masks
  import opened Forking
  import opened KernelSteps
  import opened Progress
  import opened Entries
  import opened Boot
  import opened Handover
  import opened Runs
  import opened Fates
  import opened Traps

  // ----------------------------------------------------------------------- signals

  /** p has been told of sig by SYSTEM, or will be: the signal is in the notification in its
      slot, or it is pending and so is a notification of SYSTEM. */
  ghost predicate SignalSent(i: Ipc, j: Ipc, p: nat, sig: nat) {
    && SYSTEM < |i.procs| == |j.procs| && p < |i.procs| && i.procs[p].privId < |i.privs| == |j.privs|
    && var k := i.procs[p].privId;
    if Listens(i, SYSTEM, p) then
      && DeliverMsg in j.procs[p].misc && Receiving !in j.procs[p].rts
      && j.procs[p].deliverMsg == Message(i.procs[SYSTEM].endpoint, Notification(i.privs[k].sigPending + {sig}))
      && j.privs[k].sigPending == {}
    else
      && j.procs == i.procs && j.privs[k].sigPending == i.privs[k].sigPending + {sig}
      && i.procs[SYSTEM].privId in j.privs[k].notifyPending
  }

  /** send_sig to a process in use never loses the signal. */
  lemma SendSigExact(s: State, p: nat, sig: nat)
    requires KernelInv(s) && p < |s.ipc.procs| && SlotFree !in s.ipc.procs[p].rts
    ensures SignalSent(s.ipc, SendSig(s, p, sig).ipc, p, sig)
  {
    OwnName(s, p);
    hide MessageInv, SchedInv, Enqueue;
  }

  /** cause_sig of a signal that is new to the process: it is noted, and the first one stops
      the process and is announced to PM by SIGKSIG. */
  lemma CauseSigExact(s: State, p: nat, sig: nat)
    requires KernelInv(s) && p < |s.ipc.procs| && p != PM && SlotFree !in s.ipc.procs[p].rts
    ensures var i, j := s.ipc, CauseSig(s, p, sig).ipc;
            var x := i.procs[p].(pending := i.procs[p].pending + {sig});
            if sig in i.procs[p].pending then j == i
            else if Signaled in i.procs[p].rts then j == WithProc(i, p, x)
            else
              && j.procs[p] == x.(rts := x.rts + {Signaled, SigPending})
              && SignalSent(i, j.(procs := j.procs[p := i.procs[p]]), PM, SIGKSIG)
  {
    hide Dequeue, MiniNotify;
    var i, x := s.ipc, s.ipc.procs[p];
    if sig !in x.pending && Signaled !in x.rts {
      var s1 := s.(ipc := WithProc(i, p, x.(pending := x.pending + {sig})));
      var s2 := RtsSet(s1, p, {Signaled, SigPending});
      CauseSigParts(s, p);
      OthersSignal(s2, p);
    }
  }

  lemma CauseSigParts(s: State, p: nat)
    requires KernelInv(s)
    ensures StateShape(s) && SlotFree !in s.ipc.procs[PM].rts && IsOkEndpoint(s.ipc, s.ipc.procs[PM].endpoint)
    ensures s.ipc.procs[PM].endpoint.slot == PM
  {
    assert NamesOk(s.ipc, PM);
  }

  lemma OthersSignal(s: State, p: nat)
    requires StateShape(s) && p < |s.ipc.procs| && p != PM
    requires IsOkEndpoint(s.ipc, s.ipc.procs[PM].endpoint) && s.ipc.procs[PM].endpoint.slot == PM
    ensures SignalSent(s.ipc, SendSig(s, PM, SIGKSIG).ipc, PM, SIGKSIG)
    ensures SendSig(s, PM, SIGKSIG).ipc.procs[p] == s.ipc.procs[p]
    ensures forall q :: 0 <= q < |s.ipc.procs| && q != PM ==> SendSig(s, PM, SIGKSIG).ipc.procs[q] == s.ipc.procs[q]
  {
    hide Enqueue;
  }

  // ----------------------------------------------------------- clock and system task

  /** A clock interrupt charges the ticks, and notifies CLOCK exactly if a timer has run out
      or the time of the running process has. */
  lemma TickExact(s: State, ticks: nat, alarm: bool)
    requires KernelInv(s)
    ensures var i, r := s.ipc, Tick(s, ticks, alarm);
            if alarm || Charge(s.sched, ticks).ent[s.sched.procPtr].ticksLeft <= 0 then
              if Listens(i, HARDWARE, CLOCK) then NotePut(i, r.ipc, HARDWARE, CLOCK)
              else NotePends(i, r.ipc, HARDWARE, CLOCK)
            else r.ipc == i && r.sched == Charge(s.sched, ticks)
  {
    VitalLive(s, CLOCK);
    OwnName(s, CLOCK);
    hide MessageInv, SchedInv, MiniNotify, NotePut, NotePends, Listens, Charge;
    var s1 := s.(sched := Charge(s.sched, ticks));
    NotifyExact(s1, HARDWARE, s.ipc.procs[CLOCK].endpoint);
  }

  /** The system task's reply reaches a live caller that waits for it, unless it cannot be
      copied. */
  lemma ReplyExact(s: State, c: nat, body: int, io: Access)
    requires KernelInv(s) && c < |s.ipc.procs| && c != SYSTEM && IsOkEndpoint(s.ipc, s.ipc.procs[c].endpoint)
    ensures var i, t := s.ipc, Trap(SEND, s.ipc.procs[c].endpoint, body, [], io);
            if IsWaiting(i, SYSTEM, t) && io.sendMapped && io.copied
            then Passed(i, TaskReply(s, c, body, io).ipc, SYSTEM, t)
            else TaskReply(s, c, body, io) == s
  {
    OwnName(s, c);
    SendaParts(s);
    assert NamesOk(s.ipc, c);
    hide MessageInv, SchedInv, MiniSend, Passed, Waits;
    var t := Trap(SEND, s.ipc.procs[c].endpoint, body, [], io);
    if IsWaiting(s.ipc, SYSTEM, t) { SendExact(s, SYSTEM, t, false); }
  }

  /** The clock task puts a runnable process that is out of time last on the list of the next
      lower priority, with a new quantum. */
  lemma ExpiredGoesLast(s: State, prev: nat)
    requires KernelInv(s) && prev < |s.ipc.procs| && prev != IDLE && s.ipc.procs[prev].rts == {}
    requires s.sched.ent[prev].ticksLeft <= 0 && s.sched.ent[prev].preemptible
    ensures var e, r := s.sched.ent[prev], ClockTick(s, prev).sched;
            var q := r.ent[prev].priority;
            && |r.rq[q]| > 0 && r.rq[q][|r.rq[q]| - 1] == prev && r.ent[prev].ticksLeft == e.quantum
            && q == if e.priority == IDLE_Q - 1 then IDLE_Q - 1 else e.priority + 1
  {
    hide MessageInv, Enqueue;
    var s1 := Dequeue(s.sched, prev);
    assert s.sched.ent[prev := s.sched.ent[prev]] == s.sched.ent;
    EnqueueOrder(s1.(ent := s.sched.ent), prev);
  }

  /** A process whose message cannot be copied is stopped, and VM is told if it has to be. */
  lemma SuspendExact(s: State, p: nat, tell: bool)
    requires KernelInv(s) && p < |s.ipc.procs| && s.ipc.procs[p].rts == {} && IsOkEndpoint(s.ipc, Ep(0, VM))
    ensures var i, j := s.ipc, Suspended(s, p, tell).ipc;
            && VmRequest in j.procs[p].rts
            && j.procs[p].misc == i.procs[p].misc && j.procs[p].deliverMsg == i.procs[p].deliverMsg
            && var i1 := SetFlags(i, p, {VmRequest});
               if !tell then j == i1
               else if Listens(i1, SYSTEM, VM) then NotePut(i1, j, SYSTEM, VM) else NotePends(i1, j, SYSTEM, VM)
  {
    hide MessageInv, SchedInv, Dequeue, Enqueue;
    NotifyExact(RtsSet(s, p, {VmRequest}), SYSTEM, Ep(0, VM));
  }

  // -------------------------------------------------------------------------- deaths

  /** Who waited for the process that goes is released, with EDSTDIED if it was sending to it
      and with ESRCDIED if it was only receiving from it; nobody else is touched. */
  lemma ReleasedExact(s: State, rc: nat, p: nat)
    requires KernelInv(s) && rc < |s.ipc.procs| && SlotFree !in s.ipc.procs[rc].rts && p < |s.ipc.procs| && p != rc
    ensures var i, x := s.ipc, s.ipc.procs[p];
            var sends := Sending in x.rts && x.sendTo == i.procs[rc].endpoint;
            var receives := Receiving in x.rts && x.getFrom == i.procs[rc].endpoint;
            ClearEndpoint(s, rc).ipc.procs[p] == x.(
              rts := x.rts - (if sends then {Sending} else {}) - (if receives then {Receiving} else {}),
              retreg := if sends then EDSTDIED else if receives then ESRCDIED else x.retreg)
  {
    assert NamesOk(s.ipc, p);
    hide MessageInv, SchedInv, ClearEndpoint, Gone;
    ClearEndpointGone(s, rc);
    GoneOne(s.ipc, ClearEndpoint(s, rc).ipc, rc, p);
    hide Cleared;
    ClearedIs(s.ipc.procs[p], s.ipc.procs[rc].endpoint);
  }

  lemma ClearedIs(x: Proc, e: Endpoint)
    requires SlotFree in x.rts ==> x.rts == {SlotFree}
    ensures var sends, receives := Sending in x.rts && x.sendTo == e, Receiving in x.rts && x.getFrom == e;
            Cleared(x, e) == x.(
              rts := x.rts - (if sends then {Sending} else {}) - (if receives then {Receiving} else {}),
              retreg := if sends then EDSTDIED else if receives then ESRCDIED else x.retreg)
  {
    assert x.rts - {} == x.rts && x.rts - {Receiving} - {Sending} == x.rts - {Sending} - {Receiving};
    assert x.rts - {Sending} - {} == x.rts - {Sending} && x.rts - {} - {Receiving} == x.rts - {Receiving};
  }

  lemma GoneOne(i: Ipc, j: Ipc, rc: nat, p: nat)
    requires Gone(i, j, rc) && p < |i.procs| && p != rc
    ensures j.procs[p] == Cleared(i.procs[p], i.procs[rc].endpoint)
  {
  }

  /** After clear_proc the slot is free, on no list, and a privilege structure of its own is
      free as well; for the others it was as if the endpoint had been cleared. */
  lemma ExitExact(s: State, rc: nat)
    requires KernelInv(s) && PM < rc < |s.ipc.procs| && SlotFree !in s.ipc.procs[rc].rts
    ensures var i, r := s.ipc, Exit(s, rc);
            && r.ipc.procs[rc].rts == {SlotFree} && r.ipc.procs[rc].endpoint == i.procs[rc].endpoint && !OnList(r, rc)
            && (forall p :: 0 <= p < |i.procs| && p != rc ==> r.ipc.procs[p] == ClearEndpoint(s, rc).ipc.procs[p])
            && (forall k :: 0 <= k < |i.privs| ==>
                  r.ipc.privs[k].owner ==
                    if k == i.procs[rc].privId && SysProc in i.privs[k].flags then None else i.privs[k].owner)
  {
    hide MessageInv, SchedInv, ClearEndpoint, Gone;
    ExitInv(s, rc);
    OnListIfReady(Exit(s, rc), rc);
    ClearEndpointGone(s, rc);
    GoneOwners(s.ipc, ClearEndpoint(s, rc).ipc, rc);
  }

  lemma GoneOwners(i: Ipc, j: Ipc, rc: nat)
    requires Gone(i, j, rc)
    ensures j.procs[rc].endpoint == i.procs[rc].endpoint && j.procs[rc].privId == i.procs[rc].privId
    ensures forall k :: 0 <= k < |i.privs| ==>
              j.privs[k].owner == i.privs[k].owner && j.privs[k].flags == i.privs[k].flags
  {
  }

  // ------------------------------------------------------------------------- masks

  /** set_sendto_bit: the owner of id may be sent to, and unless it is a kernel task it may
      answer; nobody else is affected. */
  lemma AllowExact(s: State, p: nat, id: nat)
    requires KernelInv(s) && p < |s.ipc.procs| && id < |s.ipc.privs|
    ensures var i, j, k := s.ipc, SetSendTo(s.ipc, p, id), s.ipc.procs[p].privId;
            && MasksOnly(i, j)
            && forall v, w: nat :: 0 <= v < |i.privs| ==>
                 (w in j.privs[v].ipcTo <==>
                    || w in i.privs[v].ipcTo
                    || (k != id && i.privs[id].owner.Some? &&
                        ((v == k && w == id) || (v == id && w == k && !OfKernel(i.privs[id].owner)))))
  {
    if s.ipc.privs[id].owner.Some? { OwnersNamed(s, id); }
    hide MessageInv, SchedInv;
  }

  /** unset_sendto_bit: neither may send to the other. */
  lemma RevokeExact(i: Ipc, p: nat, id: nat)
    requires IpcShape(i) && p < |i.procs| && id < |i.privs|
    ensures var j, k := UnsetSendTo(i, p, id), i.procs[p].privId;
            && MasksOnly(i, j)
            && forall v, w: nat :: 0 <= v < |i.privs| ==>
                 (w in j.privs[v].ipcTo <==>
                    w in i.privs[v].ipcTo && !(v == k && w == id) && !(v == id && w == k))
  {
  }

  // ------------------------------------------------------------------------- forks

  /** Parent and child together have the ticks that the parent had. */
  lemma ForkShares(s: State, e: Endpoint, c: nat, inhibit: bool)
    requires KernelInv(s) && c < |s.ipc.procs| && ForkOk(s.ipc, e, c) && s.sched.ent[e.slot].ticksLeft >= 0
    ensures var r, p := Fork(s, e, c, inhibit).0, e.slot;
            && r.sched.ent[c].ticksLeft + r.sched.ent[p].ticksLeft == s.sched.ent[p].ticksLeft
            && 0 <= r.sched.ent[c].ticksLeft - r.sched.ent[p].ticksLeft <= 1
  {
    hide MessageInv, SchedInv;
  }

  /** The child is what its parent is, with a new name, no signals, no privileges of its own,
      and an answer of 0. */
  lemma ChildIs(s: State, e: Endpoint, c: nat, inhibit: bool)
    requires KernelInv(s) && c < |s.ipc.procs| && ForkOk(s.ipc, e, c)
    ensures e.slot != c && s.ipc.procs[c].endpoint.Ep?
    ensures var i, j := s.ipc, Fork(s, e, c, inhibit).0.ipc;
            var x, y := i.procs[e.slot], j.procs[c];
            && j.procs == i.procs[c := y]
            && y.endpoint == Ep(i.procs[c].endpoint.gen + 1, c) && y.retreg == OK && y.pending == {}
            && y.privId == (if SysProc in i.privs[x.privId].flags then USER_PRIV_ID else x.privId)
            && Receiving in y.rts && y.getFrom == x.getFrom && DeliverMsg !in y.misc
            && Signaled !in y.rts && SigPending !in y.rts && PStop !in y.rts
            && (inhibit ==> VmInhibit in y.rts) && (SysProc in i.privs[x.privId].flags ==> NoPriv in y.rts)
  {
    assert NamesOk(s.ipc, c) && NamesOk(s.ipc, e.slot) && WaitOk(s.ipc, e.slot);
    hide MessageInv, SchedInv;
  }

  /** The endpoint of a slot changes only when a process is born in it, and then to one of the
      next generation. */
  lemma StepNames(s: State, step: Step, p: nat)
    requires KernelInv(s) && PostInv(s.ipc) && Enabled(s, step) && p < |s.ipc.procs|
    ensures var j := After(s, step).ipc;
            && p < |j.procs| && s.ipc.procs[p].endpoint.Ep? && s.ipc.procs[p].endpoint.slot == p
            && (j.procs[p].endpoint == s.ipc.procs[p].endpoint
                || (step.Spawn? && step.c == p && SlotFree in s.ipc.procs[p].rts
                    && j.procs[p].endpoint == Ep(s.ipc.procs[p].endpoint.gen + 1, p)))
  {
    OwnName(s, p);
    hide KernelInv, Enabled, PostInv, LettersHanded, PostsHanded, Explained, BitsTaken, SignalsTaken, BitsOf, After;
    if Ordinary(step) {
      StepHands(s, step);
    } else if step.Dispatch? {
      OtherHands(s, step);
    } else {
      NamesAtEnds(s, step, p);
    }
  }

  lemma NamesAtEnds(s: State, step: Step, p: nat)
    requires KernelInv(s) && Enabled(s, step) && (step.Spawn? || step.Die? || step.Leave?) && p < |s.ipc.procs|
    ensures var j := After(s, step).ipc;
            && p < |j.procs|
            && (j.procs[p].endpoint == s.ipc.procs[p].endpoint
                || (step.Spawn? && step.c == p && SlotFree in s.ipc.procs[p].rts && s.ipc.procs[p].endpoint.Ep?
                    && j.procs[p].endpoint == Ep(s.ipc.procs[p].endpoint.gen + 1, p)))
  {
    hide MessageInv, SchedInv, ClearEndpoint, Cleared;
    if step.Spawn? {
      OwnName(s, p);
    } else {
      ClearEndpointGone(s, step.rc);
      ClearedFlags(s.ipc.procs[p], s.ipc.procs[step.rc].endpoint);
    }
  }

  /** No endpoint is used twice: one that a slot has had and has no longer never comes back. */
  lemma {:induction false} NamesAreFresh(tr: seq<State>, steps: seq<Step>, a: nat, b: nat, p: nat)
    requires IsRun(tr, steps) && a <= b < |tr| && p < |tr[a].ipc.procs|
    ensures p < |tr[b].ipc.procs| && tr[a].ipc.procs[p].endpoint.Ep? && tr[b].ipc.procs[p].endpoint.Ep?
    ensures tr[a].ipc.procs[p].endpoint.gen <= tr[b].ipc.procs[p].endpoint.gen
    ensures tr[a].ipc.procs[p].endpoint != tr[b].ipc.procs[p].endpoint ==>
              tr[a].ipc.procs[p].endpoint.gen < tr[b].ipc.procs[p].endpoint.gen
    decreases b - a
  {
    hide IsRun, KernelInv, MayAnswer, After, Enabled, PostInv, EntriesOk;
    RunSize(tr, steps);
    if a < b {
      NamesAreFresh(tr, steps, a, b - 1, p);
      StepAt(tr, steps, b - 1);
      StepNames(tr[b - 1], steps[b - 1], p);
      OwnName(tr[b], p);
      assert b - 1 + 1 == b;
    } else {
      RunKeeps(tr, steps, a);
      OwnName(tr[a], p);
    }
  }

  // -------------------------------------------------------------------------- boot

  /** The first p processes are what their rows of the image table say. */
  ghost predicate SetUp(s: State, image: seq<BootEntry>, p: nat) {
    && StateShape(s) && p <= NR_BOOT_PROCS <= |image|
    && forall n :: 0 <= n < p ==> AsInRow(s, image[n], n)
  }

  ghost predicate AsInRow(s: State, e: BootEntry, n: nat)
    requires StateShape(s) && n < NR_BOOT_PROCS
  {
    && s.sched.ent[n] == Entry(e.queue, e.queue, e.quantum, e.quantum, Preemptible in e.flags, Billable in e.flags)
    && var v := s.ipc.privs[s.ipc.procs[n].privId];
    v.flags == e.flags && v.trapMask == e.traps
  }

  lemma BootOneSetUp(s: State, image: seq<BootEntry>, p: nat)
    requires ImageOk(image) && p < NR_BOOT_PROCS && SetUp(s, image, p) && Booted(s, p)
    ensures SetUp(BootOne(s, p, image[p]), image, p + 1)
  {
    hide BootMask, BootedSched, BootedPriv, MayAnswer, OwnedMasks, Enqueue, IpcShape, Shape;
    assert BootedProc(s.ipc.procs[p], p, p);
    BootOneForm(s, p, image[p]);
    BootPrivShape(s.ipc, p, image[p]);
    BootOnePrivs(s.ipc, p, image[p]);
    EnqueueOrder(s.sched.(ent := s.sched.ent[p := BootEnt(image[p])]), p);
    hide BootOne, BootPriv, BootUp;
    var r := BootOne(s, p, image[p]);
    forall n | 0 <= n < p ensures AsInRow(r, image[n], n) {
      assert AsInRow(s, image[n], n);
      assert BootedProc(s.ipc.procs[n], n, p);
      assert SlotFree !in s.ipc.procs[n].rts;
    }
    assert AsInRow(r, image[p], p);
  }

  lemma BootPrivShape(i: Ipc, p: nat, e: BootEntry)
    requires IpcShape(i) && p < NR_BOOT_PROCS
    ensures IpcShape(BootPriv(i, p, e))
  {
  }

  lemma {:induction false} BootFromSetUp(s: State, image: seq<BootEntry>, p: nat)
    requires ImageOk(image) && p <= NR_BOOT_PROCS && SetUp(s, image, p) && Booted(s, p)
    ensures SetUp(BootFrom(s, image, p), image, NR_BOOT_PROCS)
    decreases NR_BOOT_PROCS - p
  {
    hide Booted, BootOne, SetUp, StateShape, ImageOk;
    SetUpShape(s, image, p);
    if p < NR_BOOT_PROCS {
      RowOk(image, p);
      BootOneBooted(s, p, image[p]);
      BootOneSetUp(s, image, p);
      BootFromSetUp(BootOne(s, p, image[p]), image, p + 1);
    }
  }

  lemma RowOk(image: seq<BootEntry>, p: nat)
    requires ImageOk(image) && p < NR_BOOT_PROCS
    ensures |image| == NR_BOOT_PROCS && image[p].queue < NR_SCHED_QUEUES && (SysProc in image[p].flags <==> p != INIT)
    ensures if p == IDLE then image[p].queue == IDLE_Q && !image[p].fullVm else image[p].queue < IDLE_Q
  {
  }

  lemma SetUpShape(s: State, image: seq<BootEntry>, p: nat)
    requires SetUp(s, image, p)
    ensures StateShape(s)
  {
  }

  /** Every process of the image starts with the queue, the quantum, the flags and the traps
      of its row. */
  lemma BootIsSetUp(n: nat, image: seq<BootEntry>)
    requires n >= NR_BOOT_PROCS && ImageOk(image)
    ensures SetUp(BootState(n, image), image, NR_BOOT_PROCS)
  {
    BlankBooted(n);
    BootFromSetUp(Blank(n), image, 0);
  }

  /** Whoever may be sent to in i may be sent to in j. */
  ghost predicate Wider(i: Ipc, j: Ipc) {
    && |j.privs| == |i.privs| && |j.procs| == |i.procs|
    && forall k :: 0 <= k < |i.privs| ==> i.privs[k].ipcTo <= j.privs[k].ipcTo
  }

  /** Setting the bits of a mask permits each destination that has an owner. */
  lemma {:induction false} BootMaskPermits(i: Ipc, p: nat, bits: set<nat>, id: nat)
    requires IpcShape(i) && p < |i.procs| && id <= BITCHUNK_BITS
    ensures var r := BootMask(i, p, bits, id);
            && Wider(i, r)
            && forall x :: id <= x < BITCHUNK_BITS && x in bits && i.privs[x].owner.Some? && x != i.procs[p].privId ==>
                 x in r.privs[i.procs[p].privId].ipcTo
    decreases BITCHUNK_BITS - id
  {
    hide SetSendTo;
    if id < BITCHUNK_BITS {
      AllowWider(i, p, id);
      BootMaskPermits(if id in bits then SetSendTo(i, p, id) else i, p, bits, id + 1);
    }
  }

  lemma AllowWider(i: Ipc, p: nat, id: nat)
    requires IpcShape(i) && p < |i.procs| && id < |i.privs|
    ensures var j := SetSendTo(i, p, id);
            && IpcShape(j) && Wider(i, j) && j.procs == i.procs
            && (forall k :: 0 <= k < |i.privs| ==> j.privs[k].owner == i.privs[k].owner)
            && (i.privs[id].owner.Some? && id != i.procs[p].privId ==> id in j.privs[i.procs[p].privId].ipcTo)
  {
  }

  lemma WiderTrans(i: Ipc, j: Ipc, k: Ipc)
    requires Wider(i, j) && Wider(j, k)
    ensures Wider(i, k)
  {
  }

  lemma BootOneWider(s: State, p: nat, e: BootEntry)
    requires StateShape(s) && p < NR_BOOT_PROCS && e.queue < NR_SCHED_QUEUES
    ensures Wider(s.ipc, BootOne(s, p, e).ipc)
  {
    hide Enqueue, Dequeue, BootMask;
    BootMaskPermits(BootPriv(s.ipc, p, e), p, e.ipcTo, 0);
  }

  lemma {:induction false} BootFromWider(s: State, image: seq<BootEntry>, p: nat)
    requires StateShape(s) && ImageOk(image) && p <= NR_BOOT_PROCS
    ensures Wider(s.ipc, BootFrom(s, image, p).ipc)
    decreases NR_BOOT_PROCS - p
  {
    hide BootOne, StateShape, ImageOk, Wider, BootFrom;
    if p < NR_BOOT_PROCS {
      RowOk(image, p);
      BootOneWider(s, p, image[p]);
      BootFromStep(s, image, p);
      var r := BootOne(s, p, image[p]);
      BootFromWider(r, image, p + 1);
      WiderTrans(s.ipc, r.ipc, BootFrom(s, image, p).ipc);
    } else {
      BootFromEnd(s, image);
    }
  }

  /** p may send to the earlier system process q, as its row says. */
  lemma {:induction false} BootFromPermits(s: State, image: seq<BootEntry>, m: nat, p: nat, q: nat)
    requires StateShape(s) && Booted(s, m) && ImageOk(image) && m <= p < NR_BOOT_PROCS && q < p
    requires SysId(q) in image[p].ipcTo && SysId(q) < BITCHUNK_BITS
    ensures SysId(q) in BootFrom(s, image, m).ipc.privs[BootId(p, image[p])].ipcTo
    decreases p - m
  {
    hide Booted, BootOne, ImageOk, BootFrom;
    RowOk(image, m);
    BootOneBooted(s, m, image[m]);
    var r := BootOne(s, m, image[m]);
    assert BootFrom(s, image, m) == BootFrom(r, image, m + 1) by { BootFromStep(s, image, m); }
    if m < p {
      BootFromPermits(r, image, m + 1, p, q);
    } else {
      BootOnePermits(s, p, image[p], q);
      BootFromWider(r, image, p + 1);
      RowOk(image, p);
    }
  }

  lemma BootFromEnd(s: State, image: seq<BootEntry>)
    requires StateShape(s) && ImageOk(image)
    ensures BootFrom(s, image, NR_BOOT_PROCS) == s && Wider(s.ipc, s.ipc)
  {
  }

  lemma BootFromStep(s: State, image: seq<BootEntry>, m: nat)
    requires StateShape(s) && ImageOk(image) && m < NR_BOOT_PROCS
    ensures BootFrom(s, image, m) == BootFrom(BootOne(s, m, image[m]), image, m + 1)
  {
  }

  lemma BootOnePermits(s: State, p: nat, e: BootEntry, q: nat)
    requires StateShape(s) && Booted(s, p) && q < p < NR_BOOT_PROCS && e.queue < NR_SCHED_QUEUES
    requires (SysProc in e.flags <==> p != INIT) && SysId(q) in e.ipcTo && SysId(q) < BITCHUNK_BITS
    ensures SysId(q) in BootOne(s, p, e).ipc.privs[BootId(p, e)].ipcTo
  {
    hide Enqueue, Dequeue, BootMask, BootedSched, MayAnswer, OwnedMasks;
    assert BootedPriv(s.ipc.privs[SysId(q)], SysId(q), p);
    BootMaskPermits(BootPriv(s.ipc, p, e), p, e.ipcTo, 0);
  }

  /** After boot every process may send to the earlier processes that its row names. */
  lemma BootPermits(n: nat, image: seq<BootEntry>, p: nat, q: nat)
    requires n >= NR_BOOT_PROCS && ImageOk(image) && q < p < NR_BOOT_PROCS
    requires SysId(q) in image[p].ipcTo && SysId(q) < BITCHUNK_BITS
    ensures SysId(q) in BootState(n, image).ipc.privs[BootId(p, image[p])].ipcTo
  {
    BlankBooted(n);
    hide Booted, Blank, BootFrom;
    BootFromPermits(Blank(n), image, 0, p, q);
  }
}
