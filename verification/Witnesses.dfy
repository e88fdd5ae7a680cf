/** States that satisfy the kernel invariant and from which one step breaks it, or overlooks
    what it should find.  Each is a freshly booted kernel a few steps on. */
module Witnesses {
  import opened KernelTypes
  import opened Scheduler
  import opened WaitGraph
  import opened Ipc
  import opened IpcInv
  import opened Letters
  import opened AsyncSends
  import opened KernelOps
  import opened SendaOps
  import opened Syscalls
  import opened Forking
  import opened Masks
  import opened KernelSteps
  import opened Boot
  import opened ReceiveLimits

  const ALL_WELL := Access(true, true, true, map[])
  const CALLS: set<int> := {SEND, RECEIVE, SENDREC, SENDA}

  // -------------------------------------------------------------- setting the stage

  /** Nothing has been sent yet; p may run, and may make every call. */
  ghost predicate Staged(s: State, p: nat) {
    && KernelInv(s) && BootedIpc(s.ipc, NR_BOOT_PROCS) && p < NR_BOOT_PROCS < |s.ipc.procs|
    && s.ipc.procs[p].rts == {} && CALLS <= s.ipc.privs[s.ipc.procs[p].privId].trapMask
  }

  lemma Fresh() returns (b: State)
    ensures KernelInv(b) && BootedIpc(b.ipc, NR_BOOT_PROCS) && |b.ipc.procs| == NR_BOOT_PROCS + 1
  {
    hide BootFrom, Blank;
    ImageIsOk();
    BootInv(NR_BOOT_PROCS + 1, Image());
    b := BootState(NR_BOOT_PROCS + 1, Image());
    BlankBooted(NR_BOOT_PROCS + 1);
    BootFromBooted(Blank(NR_BOOT_PROCS + 1), Image(), 0);
  }

  /** p is allowed to run. */
  lemma Resumed(s: State, p: nat)
    requires KernelInv(s) && BootedIpc(s.ipc, NR_BOOT_PROCS) && p < NR_BOOT_PROCS
    ensures var r := RtsUnset(s, p, {VmInhibit, ProcStop});
            && KernelInv(r) && BootedIpc(r.ipc, NR_BOOT_PROCS) && r.ipc.privs == s.ipc.privs
            && r.ipc.procs == s.ipc.procs[p := s.ipc.procs[p].(rts := {})]
  {
    hide MessageInv, SchedInv;
    UnsetStopInv(s, p, {VmInhibit, ProcStop});
    assert BootedProc(s.ipc.procs[p], p, NR_BOOT_PROCS);
    assert s.ipc.procs[p].rts - {VmInhibit, ProcStop} == {};
    var j := RtsUnset(s, p, {VmInhibit, ProcStop}).ipc;
    UpMasks(s.ipc, j);
    hide MayAnswer, OwnedMasks;
    forall n | 0 <= n < |j.procs| ensures BootedProc(j.procs[n], n, NR_BOOT_PROCS) && j.cq[n] == [] {
      assert BootedProc(s.ipc.procs[n], n, NR_BOOT_PROCS);
    }
  }

  /** Structure k gets every trap. */
  lemma Trained(s: State, k: nat)
    requires KernelInv(s) && BootedIpc(s.ipc, NR_BOOT_PROCS) && k < |s.ipc.privs|
    ensures var r := State(WithPriv(s.ipc, k, s.ipc.privs[k].(trapMask := s.ipc.privs[k].trapMask + CALLS)), s.sched);
            KernelInv(r) && BootedIpc(r.ipc, NR_BOOT_PROCS)
  {
    hide SchedInv, NameInv, QueueInv, WaitInv, GraphInv, AsyncInv, LetterInv;
    var j := WithPriv(s.ipc, k, s.ipc.privs[k].(trapMask := s.ipc.privs[k].trapMask + CALLS));
    QuietInv(s.ipc, j);
    SameReady(s.ipc, j);
    hide KernelInv, MessageInv;
    forall m | 0 <= m < |j.privs| ensures BootedPriv(j.privs[m], m, NR_BOOT_PROCS) {
      assert BootedPriv(s.ipc.privs[m], m, NR_BOOT_PROCS);
    }
    forall m: nat ensures Owned(s.ipc, m) <==> Owned(j, m) {}
  }

  lemma Elected(s: State, p: nat)
    requires KernelInv(s) && p < |s.ipc.procs| && s.ipc.procs[p].rts == {}
    ensures KernelInv(s.(sched := s.sched.(procPtr := p, nextPtr := None)))
  {
    hide MessageInv;
    assert p in Ready(s.ipc);
  }

  /** p runs, d could, and p may send to d. */
  lemma Stage(p: nat, d: nat) returns (s: State)
    requires IDLE < p < NR_BOOT_PROCS && IDLE < d < NR_BOOT_PROCS && p != d && d != INIT
    ensures Staged(s, p) && Staged(s, d) && s.sched.procPtr == p && MaySendTo(s.ipc, p, d)
  {
    var b := Fresh();
    hide KernelInv, BootedIpc, RtsUnset, SetSendTo;
    StateOf(b);
    Resumed(b, p);
    var s1 := RtsUnset(b, p, {VmInhibit, ProcStop});
    StateOf(s1);
    Resumed(s1, d);
    var s2 := RtsUnset(s1, d, {VmInhibit, ProcStop});
    StateOf(s2);
    Ids(s2.ipc, p);
    Ids(s2.ipc, d);
    var k, m := s2.ipc.procs[p].privId, s2.ipc.procs[d].privId;
    Trained(s2, k);
    var s3 := State(WithPriv(s2.ipc, k, s2.ipc.privs[k].(trapMask := s2.ipc.privs[k].trapMask + CALLS)), s2.sched);
    Trained(s3, m);
    var s4 := State(WithPriv(s3.ipc, m, s3.ipc.privs[m].(trapMask := s3.ipc.privs[m].trapMask + CALLS)), s3.sched);
    StateOf(s4);
    Ids(s4.ipc, d);
    Ids(s4.ipc, p);
    assert CALLS <= s4.ipc.privs[k].trapMask && CALLS <= s4.ipc.privs[m].trapMask;
    Permitted(s4, p, m);
    var s5 := s4.(ipc := SetSendTo(s4.ipc, p, m));
    Elected(s5, p);
    s := s5.(sched := s5.sched.(procPtr := p, nextPtr := None));
  }

  lemma StateOf(s: State)
    requires KernelInv(s)
    ensures StateShape(s)
  {
  }

  lemma Ids(i: Ipc, p: nat)
    requires BootedIpc(i, NR_BOOT_PROCS) && p < NR_BOOT_PROCS
    ensures i.procs[p].privId == (if p == INIT then USER_PRIV_ID else SysId(p)) < |i.privs| == NR_SYS_PROCS
    ensures i.privs[i.procs[p].privId].owner == Some(p)
    ensures p != INIT ==> SysProc in i.privs[i.procs[p].privId].flags
    ensures i.procs[p].endpoint == Ep(0, p) && i.procs[p].misc == {} && i.procs[p].rts <= {VmInhibit, ProcStop}
    ensures i.privs[i.procs[p].privId].notifyPending == {} && i.privs[i.procs[p].privId].asyn == []
  {
    assert BootedProc(i.procs[p], p, NR_BOOT_PROCS);
    var k := i.procs[p].privId;
    assert BootedPriv(i.privs[k], k, NR_BOOT_PROCS);
  }

  lemma Permitted(s: State, p: nat, m: nat)
    requires KernelInv(s) && BootedIpc(s.ipc, NR_BOOT_PROCS) && p < |s.ipc.procs| && m < |s.ipc.privs|
    requires s.ipc.privs[m].owner.Some? && s.ipc.procs[p].privId != m && s.ipc.procs[p].privId < |s.ipc.privs|
    requires s.ipc.privs[s.ipc.procs[p].privId].owner.Some?
    ensures var j := SetSendTo(s.ipc, p, m);
            && KernelInv(s.(ipc := j)) && BootedIpc(j, NR_BOOT_PROCS) && j.procs == s.ipc.procs
            && m in j.privs[j.procs[p].privId].ipcTo
            && |j.privs| == |s.ipc.privs|
            && forall k :: 0 <= k < |j.privs| ==> j.privs[k].trapMask == s.ipc.privs[k].trapMask
  {
    var i, j := s.ipc, SetSendTo(s.ipc, p, m);
    SetSendToInv(i, p, m);
    SameReady(i, j);
    assert OwnerOk(i, m);
    SetSendToMasks(i, p, m);
    hide MessageInv, SchedInv;
    forall k, x: nat | 0 <= k < |j.privs| && x in j.privs[k].ipcTo ensures Owned(j, x) {
      assert (x in i.privs[k].ipcTo && Owned(i, x)) || x == m || x == i.procs[p].privId;
    }
    UpPrivs(i, j, NR_BOOT_PROCS);
  }

  // ------------------------------------------------------------- what can go wrong

  /** PM receives from PM: a cycle of one. */
  lemma SelfReceiveCanCycle() returns (s: State, t: Trap)
    ensures KernelInv(s) && CanTrap(s) && t.callNr == RECEIVE && t.ep == s.ipc.procs[s.sched.procPtr].endpoint
    ensures !KernelInv(SysCall(s, t).0) && !Acyclic(WaitsFor(SysCall(s, t).0.ipc))
  {
    s := Stage(PM, VFS);
    hide MessageInv, SchedInv, BootedIpc, FindNotify, SysCall, Acyclic;
    Ids(s.ipc, PM);
    t := Trap(RECEIVE, s.ipc.procs[PM].endpoint, 0, [], ALL_WELL);
    NothingToFind(s.ipc.privs, {}, Some(PM), 0);
    SelfReceiveExact(s, t);
  }

  /** CLOCK and then SYSTEM notify PM; RECEIVE from SYSTEM blocks PM, and the notification of
      SYSTEM stays pending. */
  lemma NamedNotifyMissed() returns (s: State, t: Trap)
    ensures KernelInv(s) && CanTrap(s) && TrapSafe(s, t) && s.sched.procPtr == PM
    ensures t.callNr == RECEIVE && t.ep == s.ipc.procs[SYSTEM].endpoint
    ensures var i, j, id := s.ipc, SysCall(s, t).0.ipc, s.ipc.procs[SYSTEM].privId;
            && id in i.privs[i.procs[PM].privId].notifyPending && i.privs[id].owner == Some(SYSTEM)
            && BlockedOnly(j, PM, t.ep) && id in j.privs[j.procs[PM].privId].notifyPending
  {
    hide SchedInv, NameInv, QueueInv, WaitInv, GraphInv, PrivInv, AsyncInv, LetterInv;
    var s0 := Stage(PM, VFS);
    Ids(s0.ipc, PM);
    Ids(s0.ipc, CLOCK);
    Ids(s0.ipc, SYSTEM);
    StateOf(s0);
    hide KernelInv, BootedIpc, MiniNotify, SysCall, CheckTrap, CALLS;
    var e := s0.ipc.procs[PM].endpoint;
    NotifyPends(s0, CLOCK, PM);
    var s1 := MiniNotify(s0, CLOCK, e).0;
    NotifyPends(s1, SYSTEM, PM);
    s := MiniNotify(s1, SYSTEM, e).0;
    t := Trap(RECEIVE, s.ipc.procs[SYSTEM].endpoint, 0, [], ALL_WELL);
    NoQueue(s, s0, PM);
    MissedAt(s, t);
  }

  /** The step itself, with the bits of structures 2 and 3 pending for PM. */
  lemma MissedAt(s: State, t: Trap)
    requires KernelInv(s) && s.sched.procPtr == PM && s.ipc.procs[PM].rts == {} && s.ipc.procs[PM].misc == {}
    requires RECEIVE in s.ipc.privs[s.ipc.procs[PM].privId].trapMask
    requires t == Trap(RECEIVE, s.ipc.procs[SYSTEM].endpoint, 0, [], ALL_WELL)
    requires s.ipc.privs[s.ipc.procs[PM].privId].notifyPending == {2, 3} && s.ipc.procs[SYSTEM].privId == 3
    requires s.ipc.privs[3].owner == Some(SYSTEM)
    requires s.ipc.procs[SYSTEM].rts <= {VmInhibit, ProcStop} && s.ipc.cq[PM] == []
    ensures CanTrap(s) && TrapSafe(s, t)
    ensures BlockedOnly(SysCall(s, t).0.ipc, PM, t.ep)
    ensures var j := SysCall(s, t).0.ipc; 3 in j.privs[j.procs[PM].privId].notifyPending
  {
    assert NamesOk(s.ipc, SYSTEM);
    QuietCheck(s, t);
    CallerHasBits(s, PM);
    MarkReplyInv(s, PM, t.ep);
    var s0 := s.(ipc := ClearReply(s.ipc, PM));
    assert s0.ipc == s.ipc by { assert {} - {ReplyPend} == {}; }
    hide KernelInv, CheckTrap;
    StateOf(s);
    assert !LowestOfChunk({2, 3}, 3) by { assert 2 in {2, 3} && 2 / BITCHUNK_BITS == 3 / BITCHUNK_BITS; }
    NamedReceiveExact(s, PM, t.ep, 3, t.io);
  }

  /** Nobody is queued at d yet. */
  lemma NoQueue(s: State, s0: State, d: nat)
    requires BootedIpc(s0.ipc, NR_BOOT_PROCS) && d < |s0.ipc.procs| && s.ipc.cq == s0.ipc.cq
    ensures |s.ipc.cq| == |s0.ipc.procs| && s.ipc.cq[d] == []
  {
  }

  /** A notification to a process that is not receiving stays pending. */
  lemma NotifyPends(s: State, c: nat, d: nat)
    requires KernelInv(s) && c < |s.ipc.procs| && d < |s.ipc.procs| && SlotFree !in s.ipc.procs[c].rts
    requires Live(s.ipc.procs[d]) && Receiving !in s.ipc.procs[d].rts
    ensures var r := MiniNotify(s, c, s.ipc.procs[d].endpoint).0;
            var k := s.ipc.procs[d].privId;
            && KernelInv(r) && r.sched == s.sched && k < |s.ipc.privs|
            && r.ipc == WithPriv(s.ipc, k, s.ipc.privs[k].(
                 notifyPending := s.ipc.privs[k].notifyPending + {s.ipc.procs[c].privId}))
  {
    assert NamesOk(s.ipc, d);
    MiniNotifyInv(s, c, s.ipc.procs[d].endpoint);
  }

  /** A call to a process that is not blocked passes the checks. */
  lemma QuietCheck(s: State, t: Trap)
    requires KernelInv(s) && CanTrap(s) && IsOkEndpoint(s.ipc, t.ep) && t.ep.slot != s.sched.procPtr
    requires t.callNr in s.ipc.privs[s.ipc.procs[s.sched.procPtr].privId].trapMask && t.callNr in {RECEIVE, SENDREC}
    requires t.callNr == SENDREC ==> MaySendTo(s.ipc, s.sched.procPtr, t.ep.slot)
    requires Sending !in s.ipc.procs[t.ep.slot].rts && Receiving !in s.ipc.procs[t.ep.slot].rts
    ensures CheckTrap(s, t) == OK
  {
    var c, d := s.sched.procPtr, t.ep.slot;
    DeadlockExact(s.ipc, t.callNr != RECEIVE, c, d);
    GraphClosed(s);
    assert WaitsFor(s.ipc)[d].None?;
    Isolated(WaitsFor(s.ipc), d, c);
  }

  /** A SENDREC to a process that is not receiving: the caller is queued there and waits. */
  lemma SendRecQueues(s: State, t: Trap)
    requires KernelInv(s) && CanTrap(s) && CheckTrap(s, t) == OK && t.callNr == SENDREC && t.io == ALL_WELL
    requires Receiving !in s.ipc.procs[t.ep.slot].rts && NoEndpoint !in s.ipc.procs[t.ep.slot].rts
    ensures t.ep.slot != s.sched.procPtr && TrapSafe(s, t)
    ensures var c, r := s.sched.procPtr, SysCall(s, t).0.ipc;
            && r.privs == s.ipc.privs && |r.procs| == |s.ipc.procs| && r.procs[c].rts == {Sending, Receiving}
            && r.procs[c].privId == s.ipc.procs[c].privId && r.procs[c].endpoint == s.ipc.procs[c].endpoint
            && forall x :: 0 <= x < |r.procs| && x != c ==> r.procs[x] == s.ipc.procs[x]
  {
    hide Dequeue, CheckTrap, SchedInv, GraphInv, AsyncInv, LetterInv;
    var c := s.sched.procPtr;
    Masked(s, t);
    NeverSelf(s.ipc, c, t.ep.slot);
    var s0 := s.(ipc := MarkReply(s.ipc, c, t.ep));
    var (s1, code) := MiniSend(s0, c, t.ep, Data(t.body), false, t.io);
    assert code == OK && s1.ipc.privs == s.ipc.privs && s1.ipc.procs[c].rts == {Sending};
    assert t.ep != ANY && NoEndpoint !in s1.ipc.procs[t.ep.slot].rts;
    assert SysCall(s, t).0 == BlockReceive(s1, c, t.ep);
    assert {Sending} + {Receiving} == {Sending, Receiving};
  }

  lemma Masked(s: State, t: Trap)
    requires KernelInv(s) && CanTrap(s) && CheckTrap(s, t) == OK && t.callNr == SENDREC
    ensures IpcShape(s.ipc) && PrivInv(s.ipc) && IsOkEndpoint(s.ipc, t.ep)
    ensures MaySendTo(s.ipc, s.sched.procPtr, t.ep.slot)
  {
  }

  /** INIT, blocked in a SENDREC to PM, is forked: two processes think that they are in the
      queue of PM, and one is. */
  lemma ForkCanBreak() returns (s: State, e: Endpoint, c: nat)
    ensures KernelInv(s) && c < |s.ipc.procs| && ForkOk(s.ipc, e, c) && !KernelInv(Fork(s, e, c, false).0)
  {
    hide SchedInv, NameInv, QueueInv, WaitInv, GraphInv, AsyncInv, LetterInv;
    var s0 := Stage(INIT, PM);
    Ids(s0.ipc, INIT);
    Ids(s0.ipc, PM);
    c := NR_BOOT_PROCS;
    assert BootedProc(s0.ipc.procs[c], c, NR_BOOT_PROCS);
    hide MessageInv, SchedInv, BootedIpc, SysCall, CheckTrap, Fork;
    var t := Trap(SENDREC, s0.ipc.procs[PM].endpoint, 0, [], ALL_WELL);
    QuietCheck(s0, t);
    SendRecQueues(s0, t);
    SysCallExact(s0, t);
    s, e := SysCall(s0, t).0, s0.ipc.procs[INIT].endpoint;
    ForkExact(s, e, c, false);
  }

  const ELEMENT := AsynEntry({Valid}, Ep(0, VFS), 0, OK)

  /** PM has an asynchronous message pending for VFS, which is not receiving. */
  lemma Announced() returns (s: State)
    ensures KernelInv(s) && VFS < |s.ipc.procs| && s.ipc.procs[VFS].rts == {} && s.ipc.procs[VFS].misc == {AsynMsg}
    ensures s.ipc.procs[PM].privId == SysId(PM) && s.ipc.procs[VFS].privId == SysId(VFS)
    ensures s.ipc.procs[VFS].endpoint == Ep(0, VFS)
    ensures s.ipc.privs[SysId(PM)].asyn == [ELEMENT] && SysId(VFS) in s.ipc.privs[SysId(PM)].ipcTo
    ensures s.ipc.privs[SysId(PM)].owner == Some(PM) && RECEIVE in s.ipc.privs[SysId(VFS)].trapMask
    ensures s.ipc.privs[SysId(VFS)].notifyPending == {} && s.ipc.cq[VFS] == []
    ensures forall k :: 0 <= k < SysId(PM) ==> s.ipc.privs[k].asyn == []
  {
    var s0 := Stage(PM, VFS);
    Ids(s0.ipc, PM);
    Ids(s0.ipc, VFS);
    forall k | 0 <= k < |s0.ipc.privs| ensures s0.ipc.privs[k].asyn == [] {
      assert BootedPriv(s0.ipc.privs[k], k, NR_BOOT_PROCS);
    }
    NoQueue(s0, s0, VFS);
    StateOf(s0);
    hide MessageInv, SchedInv, BootedIpc, SysCall;
    var t := Trap(SENDA, ANY, 0, [ELEMENT], ALL_WELL);
    SendaRegisters(s0, t);
    SysCallExact(s0, t);
    s := SysCall(s0, t).0;
  }

  lemma SendaRegisters(s: State, t: Trap)
    requires KernelInv(s) && CanTrap(s) && s.sched.procPtr == PM && t == Trap(SENDA, ANY, 0, [ELEMENT], ALL_WELL)
    requires SENDA in s.ipc.privs[s.ipc.procs[PM].privId].trapMask
    requires SysProc in s.ipc.privs[s.ipc.procs[PM].privId].flags
    requires s.ipc.procs[VFS].rts == {} && s.ipc.procs[VFS].endpoint == Ep(0, VFS) && MaySendTo(s.ipc, PM, VFS)
    ensures CheckTrap(s, t) == OK && TrapSafe(s, t)
    ensures var k, r := s.ipc.procs[PM].privId, SysCall(s, t).0.ipc;
            && r.procs == s.ipc.procs[VFS := s.ipc.procs[VFS].(misc := s.ipc.procs[VFS].misc + {AsynMsg})]
            && r.privs == s.ipc.privs[k := s.ipc.privs[k].(asyn := [ELEMENT], serial := s.ipc.hist.serial + 1)]
            && r.cq == s.ipc.cq
  {
    hide MessageInv, SchedInv;
    var s1 := s.(ipc := OpenCall(s.ipc, PM, [ELEMENT]));
    var table := [ELEMENT];
    assert Undone(ELEMENT) && Undone(table[0]);
    var s2 := s1.(ipc := WithProc(s1.ipc, VFS, s1.ipc.procs[VFS].(misc := s1.ipc.procs[VFS].misc + {AsynMsg})));
    assert SendaOne(s1, PM, ELEMENT, 0, ALL_WELL) == (s2, ELEMENT, OK);
    assert table[0 := ELEMENT] == table;
    assert SendaFrom(s1, PM, table, 0, ALL_WELL) == SendaFrom(s2, PM, table, 1, ALL_WELL) == (s2, table, OK);
  }

  /** PM may no longer send to VFS, with a message for it pending. */
  lemma RevokeCanBreak() returns (s: State)
    ensures KernelInv(s) && PM < |s.ipc.procs| && SysId(VFS) < |s.ipc.privs|
    ensures !MessageInv(UnsetSendTo(s.ipc, PM, SysId(VFS)))
  {
    s := Announced();
    assert NamesOk(s.ipc, VFS);
    var k := SysId(PM);
    assert s.ipc.privs[k].asyn[0] == ELEMENT && Undone(ELEMENT) && NamesLive(s.ipc, ELEMENT.dst);
    assert Pends(s.ipc, k, SysId(VFS));
    UnsetSendToExact(s.ipc, PM, SysId(VFS));
  }

  /** VFS receives from ANY, and the element that it gets cannot be marked as done. */
  lemma FaultCanBreak() returns (s: State, t: Trap)
    ensures KernelInv(s) && CanTrap(s) && t.callNr == RECEIVE && t.ep == ANY && !KernelInv(SysCall(s, t).0)
  {
    var s0 := Announced();
    Elected(s0, VFS);
    s := s0.(sched := s0.sched.(procPtr := VFS, nextPtr := None));
    t := Trap(RECEIVE, ANY, 0, [], ALL_WELL.(table := map[(SysId(PM), 0) := {NoMark}]));
    FaultAt(s, t);
    SysCallExact(s, t);
  }

  lemma FaultAt(s: State, t: Trap)
    requires KernelInv(s) && CanTrap(s) && s.sched.procPtr == VFS && s.ipc.procs[VFS].misc == {AsynMsg}
    requires s.ipc.procs[VFS].privId == SysId(VFS) && s.ipc.procs[VFS].endpoint == Ep(0, VFS)
    requires s.ipc.privs[SysId(PM)].asyn == [ELEMENT] && SysId(VFS) in s.ipc.privs[SysId(PM)].ipcTo
    requires s.ipc.privs[SysId(PM)].owner == Some(PM) && RECEIVE in s.ipc.privs[SysId(VFS)].trapMask
    requires s.ipc.privs[SysId(VFS)].notifyPending == {} && s.ipc.cq[VFS] == []
    requires forall k :: 0 <= k < SysId(PM) ==> s.ipc.privs[k].asyn == []
    requires t == Trap(RECEIVE, ANY, 0, [], ALL_WELL.(table := map[(SysId(PM), 0) := {NoMark}]))
    ensures !TrapSafe(s, t)
  {
    hide MessageInv, SchedInv, FirstFinder;
    var i, k := s.ipc, SysId(PM);
    var s0 := s.(ipc := ClearReply(i, VFS));
    assert s0.ipc == i by {
      assert {AsynMsg} - {ReplyPend} == {AsynMsg};
      assert i.procs[VFS := i.procs[VFS]] == i.procs;
    }
    NothingToFind(i.privs, {}, None, 0);
    assert Scanned(i, k, VFS, t.io) == Found(0, false);
    assert Unmarked(i, k, VFS, t.io);
    assert FirstFinder(i, VFS, 0, t.io) == k;
    assert Loses(i, VFS, t.io);
    GraphClosed(s);
  }
}
