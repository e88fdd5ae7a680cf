/** Whole runs of the kernel: from boot, through any sequence of steps, and the
    properties that hold in every state on the way. */
module Runs {
  import opened KernelTypes
  import opened Scheduler
  import opened WaitGraph
  import opened Ipc
  import opened IpcInv
  import opened Letters
  import opened AsyncSends
  import opened KernelOps
  import opened Syscalls
  import opened Lifecycle
  import opened Forking
  import opened Masks
  import opened KernelSteps
  import opened Boot
  import opened Progress
  import opened Entries
  import opened Handover

  datatype Step =
    | Call(t: Trap)
    | Notify(c: nat, dst: Endpoint)
    | Signal(p: nat, sig: nat)
    | TaskSignal(p: nat, sig: nat)
    | Stop(p: nat, f: set<RtsFlag>)
    | Resume(p: nat, f: set<RtsFlag>)
    | Die(rc: nat)
    | Leave(rc: nat)
    | Spawn(e: Endpoint, c: nat, inhibit: bool)
    | Allow(p: nat, id: nat)
    | Revoke(p: nat, id: nat)
    | ClockInterrupt(ticks: nat, alarm: bool)
    | ClockTask(prev: nat)
    | Rebalance
    | Reply(c: nat, body: int, io: Access)
    | Dispatch(faults: map<nat, bool>)

  /** In use, and not one of the processes without which the kernel panics. */
  predicate Expendable(i: Ipc, rc: nat) {
    && PM < rc < |i.procs| && SlotFree !in i.procs[rc].rts
    && i.procs[rc].endpoint != Ep(0, VFS) && i.procs[rc].endpoint != Ep(0, VM)
  }

  /** When a step may happen: what its C function panics on is left out, and so is
      what SysCallExact, ForkExact and UnsetSendToExact show to break the kernel. */
  ghost predicate Enabled(s: State, step: Step)
    requires KernelInv(s)
  {
    var i := s.ipc;
    match step
    case Call(t) => CanTrap(s) && TrapSafe(s, t)
    case Notify(c, dst) => c < |i.procs| && SlotFree !in i.procs[c].rts
    case Signal(p, sig) => p < |i.procs| && p != IDLE && p != PM && SlotFree !in i.procs[p].rts
    case TaskSignal(p, sig) => p < |i.procs| && SlotFree !in i.procs[p].rts
    case Stop(p, f) => p < |i.procs| && p != IDLE && SlotFree !in i.procs[p].rts && StopFlags(f)
    case Resume(p, f) => p < |i.procs| && StopFlags(f)
    case Die(rc) => Expendable(i, rc)
    case Leave(rc) => Expendable(i, rc)
    case Spawn(e, c, inhibit) => c < |i.procs| && (ForkOk(i, e, c) ==> Alone(i, e.slot) && UserBits(i))
    case Allow(p, id) => p < |i.procs| && id < NR_SYS_PROCS
    case Revoke(p, id) =>
      && p < |i.procs| && id < NR_SYS_PROCS
      && !(id in i.privs[i.procs[p].privId].ipcTo && Pends(i, i.procs[p].privId, id))
      && !(i.procs[p].privId in i.privs[id].ipcTo && Pends(i, id, i.procs[p].privId))
    case ClockInterrupt(ticks, alarm) => true
    case ClockTask(prev) => prev < |i.procs| && s.sched.procPtr == CLOCK && CLOCK in Ready(i)
    case Rebalance => true
    case Reply(c, body, io) => c < |i.procs| && IsOkEndpoint(i, i.procs[c].endpoint)
    case Dispatch(faults) => true
  }

  ghost function After(s: State, step: Step): State
    requires KernelInv(s) && Enabled(s, step)
  {
    match step
    case Call(t) => SysCall(s, t).0
    case Notify(c, dst) => MiniNotify(s, c, dst).0
    case Signal(p, sig) => CauseSig(s, p, sig)
    case TaskSignal(p, sig) => SendSig(s, p, sig)
    case Stop(p, f) => RtsSet(s, p, f)
    case Resume(p, f) => RtsUnset(s, p, f)
    case Die(rc) => ClearEndpoint(s, rc)
    case Leave(rc) => Exit(s, rc)
    case Spawn(e, c, inhibit) => Fork(s, e, c, inhibit).0
    case Allow(p, id) => s.(ipc := SetSendTo(s.ipc, p, id))
    case Revoke(p, id) => s.(ipc := UnsetSendTo(s.ipc, p, id))
    case ClockInterrupt(ticks, alarm) => Tick(s, ticks, alarm)
    case ClockTask(prev) => ClockTick(s, prev)
    case Rebalance => BalanceQueues(s)
    case Reply(c, body, io) => TaskReply(s, c, body, io)
    case Dispatch(faults) => SchedCheck(s, faults)
  }

  ghost predicate RunInv(s: State) {
    KernelInv(s) && MayAnswer(s.ipc) && EntriesOk(s) && PostInv(s.ipc)
  }

  /** tr[0] is a boot state and each state follows from the one before it.  The steps are
      defined where the invariant holds; that it always does is RunKeeps. */
  ghost predicate IsRun(tr: seq<State>, steps: seq<Step>) {
    && |tr| == |steps| + 1
    && (exists n, image :: n >= NR_BOOT_PROCS && ImageOk(image) && tr[0] == BootState(n, image))
    && forall k :: 0 <= k < |steps| && KernelInv(tr[k]) ==>
         Enabled(tr[k], steps[k]) && tr[k + 1] == After(tr[k], steps[k])
  }

  // ------------------------------------------------------------------- one step

  lemma StepInv(s: State, step: Step)
    requires KernelInv(s) && Enabled(s, step)
    ensures KernelInv(After(s, step))
  {
    hide MessageInv, SchedInv, MiniNotify, SendSig, CauseSig, RtsSet, RtsUnset, ClearEndpoint, Exit, Fork, SysCall,
      SetSendTo, UnsetSendTo, Tick, ClockTick, BalanceQueues, TaskReply, SchedCheck;
    match step
    case Call(t) => SysCallExact(s, t);
    case Notify(c, dst) => MiniNotifyInv(s, c, dst);
    case Signal(p, sig) => CauseSigInv(s, p, sig);
    case TaskSignal(p, sig) => SendSigInv(s, p, sig);
    case Stop(p, f) => SetStopInv(s, p, f);
    case Resume(p, f) => UnsetStopInv(s, p, f);
    case Die(rc) => ClearEndpointInv(s, rc);
    case Leave(rc) => ExitInv(s, rc);
    case Spawn(e, c, inhibit) => ForkExact(s, e, c, inhibit);
    case Allow(p, id) => AllowInv(s, p, id);
    case Revoke(p, id) => RevokeInv(s, p, id);
    case ClockInterrupt(ticks, alarm) => TickInv(s, ticks, alarm);
    case ClockTask(prev) => ClockTickInv(s, prev);
    case Rebalance => BalanceQueuesInv(s);
    case Reply(c, body, io) => TaskReplyInv(s, c, body, io);
    case Dispatch(faults) => SchedCheckInv(s, faults);
  }

  lemma AllowInv(s: State, p: nat, id: nat)
    requires KernelInv(s) && p < |s.ipc.procs| && id < NR_SYS_PROCS
    ensures KernelInv(s.(ipc := SetSendTo(s.ipc, p, id)))
    ensures Grows(s.ipc.hist, SetSendTo(s.ipc, p, id).hist)
    ensures MayAnswer(s.ipc) ==> MayAnswer(SetSendTo(s.ipc, p, id))
  {
    SetSendToInv(s.ipc, p, id);
    SameReady(s.ipc, SetSendTo(s.ipc, p, id));
  }

  lemma RevokeInv(s: State, p: nat, id: nat)
    requires KernelInv(s) && Enabled(s, Revoke(p, id))
    ensures KernelInv(s.(ipc := UnsetSendTo(s.ipc, p, id)))
    ensures Grows(s.ipc.hist, UnsetSendTo(s.ipc, p, id).hist)
    ensures MayAnswer(s.ipc) ==> MayAnswer(UnsetSendTo(s.ipc, p, id))
  {
    UnsetSendToExact(s.ipc, p, id);
    SameReady(s.ipc, UnsetSendTo(s.ipc, p, id));
  }

  /** The slot a step may fill without its owner having waited: the caller's own, which
      is empty, or that of a new process. */
  function Filler(s: State, step: Step): nat {
    match step
    case Call(t) => s.sched.procPtr
    case Spawn(e, c, inhibit) => c
    case _ => |s.ipc.procs|
  }

  lemma StepAdvance(s: State, step: Step)
    requires KernelInv(s) && Enabled(s, step) && !step.Allow? && !step.Revoke?
    ensures Follows(s.ipc, After(s, step).ipc, Filler(s, step))
    ensures !step.Die? && !step.Leave? ==> After(s, step).ipc.hist.dropped == s.ipc.hist.dropped
  {
    hide MessageInv, SchedInv, MiniNotify, SendSig, CauseSig, ClearEndpoint, Exit, SysCall, MiniSend, RtsSet,
      RtsUnset, Fork,
      Tick, ClockTick, BalanceQueues, DeliverLoop, Follows;
    match step
    case Call(t) => SysCallAdvance(s, t);
    case Notify(c, dst) => NotifyAdvance(s, c, dst);
    case Signal(p, sig) => CauseSigAdvance(s, p, sig);
    case TaskSignal(p, sig) => SendSigAdvance(s, p, sig);
    case Stop(p, f) => FlagAdvance(s, p, f);
    case Resume(p, f) => FlagAdvance(s, p, f);
    case Die(rc) => DieFollows(s, rc);
    case Leave(rc) => DieFollows(s, rc);
    case Spawn(e, c, inhibit) => SpawnAdvance(s, e, c, inhibit);
    case ClockInterrupt(ticks, alarm) => TickAdvance(s, ticks, alarm);
    case ClockTask(prev) => QueuesAdvance(s, prev);
    case Rebalance => QueuesAdvance(s, IDLE);
    case Reply(c, body, io) =>
      SameAdvance(s.ipc);
      SendAdvance(s, SYSTEM, s.ipc.procs[c].endpoint, Data(body), false, io);
    case Dispatch(faults) =>
      SwitchInv(s);
      DeliverLoopAdvance(Switch(s), faults);
  }

  lemma FlagAdvance(s: State, p: nat, f: set<RtsFlag>)
    requires KernelInv(s) && p < |s.ipc.procs| && StopFlags(f)
    ensures Advance(s.ipc, RtsSet(s, p, f).ipc, |s.ipc.procs|) && Advance(s.ipc, RtsUnset(s, p, f).ipc, |s.ipc.procs|)
  {
    hide MessageInv, SchedInv, Enqueue, Dequeue;
  }

  lemma SpawnAdvance(s: State, e: Endpoint, c: nat, inhibit: bool)
    requires KernelInv(s) && c < |s.ipc.procs|
    ensures Advance(s.ipc, Fork(s, e, c, inhibit).0.ipc, c)
  {
    hide MessageInv, SchedInv;
  }

  lemma TickAdvance(s: State, ticks: nat, alarm: bool)
    requires KernelInv(s)
    ensures Advance(s.ipc, Tick(s, ticks, alarm).ipc, |s.ipc.procs|)
  {
    hide MessageInv, SchedInv, MiniNotify;
    NotifyAdvance(s.(sched := Charge(s.sched, ticks)), HARDWARE, s.ipc.procs[CLOCK].endpoint);
  }

  lemma QueuesAdvance(s: State, prev: nat)
    requires KernelInv(s) && prev < |s.ipc.procs|
    ensures Advance(s.ipc, ClockTick(s, prev).ipc, |s.ipc.procs|) && Advance(s.ipc, BalanceQueues(s).ipc, |s.ipc.procs|)
  {
    hide MessageInv, SchedInv, Enqueue, Dequeue, Balance;
  }

  /** Every step keeps the invariant, and only adds to the history. */
  lemma StepKeeps(s: State, step: Step)
    requires RunInv(s) && Enabled(s, step)
    ensures RunInv(After(s, step)) && Grows(s.ipc.hist, After(s, step).ipc.hist)
  {
    hide KernelInv, MayAnswer, After, Enabled, EntriesOk, PostInv;
    StepInv(s, step);
    StepEntries(s, step);
    StepPosts(s, step);
    match step
    case Allow(p, id) => AllowAfter(s, p, id);
    case Revoke(p, id) => RevokeAfter(s, p, id);
    case _ =>
      StepAdvance(s, step);
      FollowsAnswers(s.ipc, After(s, step).ipc, Filler(s, step));
  }

  // ------------------------------------------------------------ slots and tables

  /** Steps that neither start, end nor run a process. */
  predicate Ordinary(step: Step) {
    !step.Die? && !step.Leave? && !step.Spawn? && !step.Dispatch?
  }

  lemma StepHands(s: State, step: Step)
    requires KernelInv(s) && PostInv(s.ipc) && Enabled(s, step) && Ordinary(step)
    ensures Hands(s.ipc, After(s, step).ipc, |s.ipc.procs|)
  {
    hide MessageInv, SchedInv, MiniNotify, SendSig, CauseSig, SysCall, MiniSend, RtsSet, RtsUnset, SetSendTo,
      UnsetSendTo,
      Charge, Requeue, Balance, PostInv, Hands;
    var i, n := s.ipc, |s.ipc.procs|;
    StillHands(i, i, n);
    SendaParts(s);
    match step
    case Call(t) => SysCallHands(s, t, n);
    case Notify(c, dst) => NotifyHands(s, c, dst, n);
    case Signal(p, sig) => CauseSigHands(s, p, sig, n);
    case TaskSignal(p, sig) => SendSigHands(s, p, sig, n);
    case Stop(p, f) => SetHands(s, p, f, n);
    case Resume(p, f) => UnsetHands(s, p, f, n);
    case Allow(p, id) => MaskHands(s, p, id);
    case Revoke(p, id) => MaskHands(s, p, id);
    case ClockInterrupt(ticks, alarm) =>
      NotifyHands(s.(sched := Charge(s.sched, ticks)), HARDWARE, i.procs[CLOCK].endpoint, n);
    case ClockTask(prev) =>
    case Rebalance =>
    case Reply(c, body, io) => SendHands(s, SYSTEM, i.procs[c].endpoint, Data(body), false, io, n);
  }

  lemma MaskHands(s: State, p: nat, id: nat)
    requires KernelInv(s) && p < |s.ipc.procs| && id < NR_SYS_PROCS
    ensures Hands(s.ipc, SetSendTo(s.ipc, p, id), |s.ipc.procs|)
    ensures Hands(s.ipc, UnsetSendTo(s.ipc, p, id), |s.ipc.procs|)
  {
    hide MessageInv, SchedInv, Hands;
    StillHands(s.ipc, SetSendTo(s.ipc, p, id), |s.ipc.procs|);
    StillHands(s.ipc, UnsetSendTo(s.ipc, p, id), |s.ipc.procs|);
  }

  /** Of the steps that are not ordinary. */
  lemma OtherHands(s: State, step: Step)
    requires KernelInv(s) && Enabled(s, step) && !Ordinary(step)
    ensures var i, j := s.ipc, After(s, step).ipc;
            && LettersHanded(i, j) && PostsHanded(i, j) && Explained(i, j, |i.procs|) && (PostInv(i) ==> PostInv(j))
            && (step.Spawn? || step.Dispatch? ==> BitsTaken(i, j))
            && (step.Dispatch? ==> Dispatches(i, j, step.faults))
            && (!step.Dispatch? ==> SignalsTaken(i, j))
            && (step.Die? || step.Spawn? ==> SlotsStay(i, j))
            && (step.Die? || step.Leave? ==> BitsOf(i, j, i.procs[step.rc].privId))
  {
    hide MessageInv, SchedInv, ClearEndpoint, Fork, DeliverLoop, PostInv, LettersHanded, PostsHanded, Explained,
      BitsTaken,
      SignalsTaken, SlotsStay, Dispatches, FreeSlot, Gone;
    var i := s.ipc;
    match step
    case Die(rc) =>
      ClearEndpointGone(s, rc);
      GoneHands(i, ClearEndpoint(s, rc).ipc, rc);
    case Leave(rc) =>
      ClearEndpointGone(s, rc);
      FreeHands(i, ClearEndpoint(s, rc).ipc, rc);
    case Spawn(e, c, inhibit) => ForkHands(s, e, c, inhibit);
    case Dispatch(faults) =>
      SwitchInv(s);
      DeliverLoopDispatches(Switch(s), faults);
      DispatchesHand(i, After(s, step).ipc, faults);
  }

  /** Only the notifications of structure id go. */
  ghost predicate BitsOf(i: Ipc, j: Ipc, id: nat) {
    |i.privs| == |j.privs| &&
    forall k, x :: 0 <= k < |i.privs| && x in i.privs[k].notifyPending && x !in j.privs[k].notifyPending ==> x == id
  }

  lemma StepPosts(s: State, step: Step)
    requires KernelInv(s) && PostInv(s.ipc) && Enabled(s, step)
    ensures PostInv(After(s, step).ipc)
  {
    hide KernelInv, After, Enabled, PostInv, Hands, LettersHanded, PostsHanded, Explained, BitsTaken, SignalsTaken,
      SlotsStay, Dispatches, BitsOf;
    if Ordinary(step) {
      StepHands(s, step);
      HandsPosts(s.ipc, After(s, step).ipc, |s.ipc.procs|);
    } else {
      OtherHands(s, step);
    }
  }

  lemma StepEntries(s: State, step: Step)
    requires KernelInv(s) && Enabled(s, step) && EntriesOk(s)
    ensures EntriesOk(After(s, step))
  {
    hide KernelInv, After, Enabled, EntriesOk, Follows, Kinds;
    match step
    case Spawn(e, c, inhibit) => SpawnEntries(s, e, c, inhibit);
    case Allow(p, id) => MaskEntries(s, step);
    case Revoke(p, id) => MaskEntries(s, step);
    case _ =>
      StepAdvance(s, step);
      StepKinds(s, step);
      FillerInUse(s, step);
      KeptEntries(s, After(s, step), Filler(s, step));
  }

  lemma SpawnEntries(s: State, e: Endpoint, c: nat, inhibit: bool)
    requires KernelInv(s) && Enabled(s, Spawn(e, c, inhibit)) && EntriesOk(s)
    ensures EntriesOk(After(s, Spawn(e, c, inhibit)))
  {
    hide KernelInv, Fork, EntriesOk;
    ForkEntries(s, e, c, inhibit);
  }

  lemma MaskEntries(s: State, step: Step)
    requires KernelInv(s) && Enabled(s, step) && EntriesOk(s) && (step.Allow? || step.Revoke?)
    ensures EntriesOk(After(s, step))
  {
    hide MessageInv, SchedInv;
    var t := After(s, step);
    forall p | 0 <= p < |t.ipc.procs| && SlotFree !in t.ipc.procs[p].rts ensures EntryOk(t, p) { assert EntryOk(s, p); }
  }

  lemma FillerInUse(s: State, step: Step)
    requires KernelInv(s) && Enabled(s, step) && !step.Spawn?
    ensures Filler(s, step) < |s.ipc.procs| ==> SlotFree !in s.ipc.procs[Filler(s, step)].rts
  {
    hide KernelInv;
  }

  lemma StepKinds(s: State, step: Step)
    requires KernelInv(s) && Enabled(s, step) && !step.Spawn? && !step.Allow? && !step.Revoke?
    ensures Kinds(After(s, step).sched) == Kinds(s.sched)
  {
    hide MessageInv, SchedInv, MiniNotify, SendSig, CauseSig, RtsSet, RtsUnset, ClearEndpoint, Exit, SysCall, MiniSend,
      DeliverLoop, Requeue, Balance, Charge;
    match step
    case Call(t) => SysCallKinds(s, t);
    case Notify(c, dst) => NotifyKinds(s, c, dst);
    case Signal(p, sig) => CauseSigKinds(s, p, sig);
    case TaskSignal(p, sig) => SendSigKinds(s, p, sig);
    case Stop(p, f) => RtsSetKinds(s, p, f);
    case Resume(p, f) => RtsUnsetKinds(s, p, f);
    case Die(rc) => ClearEndpointKinds(s, rc);
    case Leave(rc) => ExitKinds(s, rc);
    case ClockInterrupt(ticks, alarm) =>
      ChargeKinds(s.sched, ticks);
      NotifyKinds(s.(sched := Charge(s.sched, ticks)), HARDWARE, s.ipc.procs[CLOCK].endpoint);
    case ClockTask(prev) => RequeueKinds(s.sched, prev, s.sched.ent[prev]);
    case Rebalance => BalanceAllKinds(s);
    case Reply(c, body, io) => SendKinds(s, SYSTEM, s.ipc.procs[c].endpoint, Data(body), false, io);
    case Dispatch(faults) => DispatchKinds(s, faults);
  }

  lemma BalanceAllKinds(s: State)
    requires KernelInv(s)
    ensures Kinds(BalanceQueues(s).sched) == Kinds(s.sched)
  {
    hide MessageInv, SchedInv, BalanceFrom, Kinds;
    BalanceKinds(s.sched, Ready(s.ipc), InUse(s.ipc), 0);
  }

  lemma DispatchKinds(s: State, faults: map<nat, bool>)
    requires KernelInv(s)
    ensures Kinds(SchedCheck(s, faults).sched) == Kinds(s.sched)
  {
    hide KernelInv, DeliverLoop;
    SwitchInv(s);
    DeliverLoopKinds(Switch(s), faults);
  }

  lemma AllowAfter(s: State, p: nat, id: nat)
    requires RunInv(s) && Enabled(s, Allow(p, id))
    ensures MayAnswer(After(s, Allow(p, id)).ipc) && Grows(s.ipc.hist, After(s, Allow(p, id)).ipc.hist)
  {
    AllowInv(s, p, id);
  }

  lemma RevokeAfter(s: State, p: nat, id: nat)
    requires RunInv(s) && Enabled(s, Revoke(p, id))
    ensures MayAnswer(After(s, Revoke(p, id)).ipc) && Grows(s.ipc.hist, After(s, Revoke(p, id)).ipc.hist)
  {
    RevokeInv(s, p, id);
  }

  // ------------------------------------------------------------------ whole runs

  lemma {:induction false} RunKeeps(tr: seq<State>, steps: seq<Step>, k: nat)
    requires IsRun(tr, steps) && k < |tr|
    ensures RunInv(tr[k])
  {
    hide MayAnswer, After, Enabled, KernelInv, EntriesOk, PostInv, BootState;
    if k == 0 {
      var n, image :| n >= NR_BOOT_PROCS && ImageOk(image) && tr[0] == BootState(n, image);
      assert RunInv(tr[0]) by { BootRuns(n, image); }
    } else {
      RunKeeps(tr, steps, k - 1);
      StepKeeps(tr[k - 1], steps[k - 1]);
      assert tr[k - 1 + 1] == After(tr[k - 1], steps[k - 1]);
    }
  }

  lemma BootRuns(n: nat, image: seq<BootEntry>)
    requires n >= NR_BOOT_PROCS && ImageOk(image)
    ensures RunInv(BootState(n, image))
  {
    BootInv(n, image);
    BootEntries(n, image);
    BootPosts(n, image);
  }

  lemma BootPosts(n: nat, image: seq<BootEntry>)
    requires n >= NR_BOOT_PROCS && ImageOk(image)
    ensures PostInv(BootState(n, image).ipc)
  {
    hide BootFrom, Blank;
    BlankBooted(n);
    BootFromBooted(Blank(n), image, 0);
  }

  lemma GrowsTrans(f: History, g: History, h: History)
    requires Grows(f, g) && Grows(g, h)
    ensures Grows(f, h)
  {
  }

  lemma GrowsSame(h: History)
    ensures Grows(h, h)
  {
  }

  /** History is never rewritten. */
  lemma {:induction false} RunGrows(tr: seq<State>, steps: seq<Step>, a: nat, b: nat)
    requires IsRun(tr, steps) && a <= b < |tr|
    ensures Grows(tr[a].ipc.hist, tr[b].ipc.hist)
    decreases b - a
  {
    hide MayAnswer, After, Enabled, KernelInv, EntriesOk, PostInv, Grows, BootState;
    if a < b {
      RunGrows(tr, steps, a, b - 1);
      RunKeeps(tr, steps, b - 1);
      StepKeeps(tr[b - 1], steps[b - 1]);
      assert tr[b - 1 + 1] == After(tr[b - 1], steps[b - 1]);
      GrowsTrans(tr[a].ipc.hist, tr[b - 1].ipc.hist, tr[b].ipc.hist);
    } else {
      GrowsSame(tr[a].ipc.hist);
    }
  }
}
