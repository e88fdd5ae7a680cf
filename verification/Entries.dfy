/** What scheduling never changes: the quantum of a process and the privilege flags that the
    scheduler looks at.  A process gets them when it is born. */
module Entries {
  import opened KernelTypes
  import opened Scheduler
  import opened Ipc
  import opened IpcInv
  import opened AsyncSends
  import opened KernelOps
  import opened SendaOps
  import opened Syscalls
  import opened Lifecycle
  import opened Forking
  import opened KernelSteps
  import opened Boot
  import opened Progress
  import Masks

  datatype Kind = Kind(quantum: int, preemptible: bool, billable: bool)

  function KindOf(e: Entry): Kind {
    Kind(e.quantum, e.preemptible, e.billable)
  }

  function Kinds(s: Sched): (r: seq<Kind>)
    ensures |r| == |s.ent|
  {
    seq(|s.ent|, p requires 0 <= p < |s.ent| => KindOf(s.ent[p]))
  }

  /** Every process in use has a positive quantum (kernel/table.c), and its scheduling entry
      has the flags of its privilege structure. */
  ghost predicate EntriesOk(s: State) {
    |s.sched.ent| == |s.ipc.procs| &&
    forall p :: 0 <= p < |s.ipc.procs| && SlotFree !in s.ipc.procs[p].rts ==> EntryOk(s, p)
  }

  ghost predicate EntryOk(s: State, p: nat)
    requires p < |s.ipc.procs| == |s.sched.ent|
  {
    var e, k := s.sched.ent[p], s.ipc.procs[p].privId;
    && e.quantum > 0 && k < |s.ipc.privs|
    && (e.preemptible <==> Preemptible in s.ipc.privs[k].flags)
    && (e.billable <==> Billable in s.ipc.privs[k].flags)
  }

  // ------------------------------------------------------------------ the queues

  lemma EnqueueKinds(s: Sched, p: nat)
    requires Shape(s) && p < |s.ent|
    ensures Kinds(Enqueue(s, p)) == Kinds(s)
  {
  }

  lemma DequeueKinds(s: Sched, p: nat)
    requires Shape(s) && p < |s.ent|
    ensures Kinds(Dequeue(s, p)) == Kinds(s)
  {
  }

  lemma RequeueKinds(s: Sched, p: nat, e: Entry)
    requires Shape(s) && p < |s.ent| && e.priority < NR_SCHED_QUEUES && KindOf(e) == KindOf(s.ent[p])
    ensures Kinds(Requeue(s, p, e)) == Kinds(s)
  {
    hide Enqueue;
    var s1 := Dequeue(s, p).(ent := s.ent[p := e]);
    assert Kinds(s1) == Kinds(s);
    EnqueueKinds(s1, p);
  }

  lemma BalanceOneKinds(s: Sched, run: set<nat>, p: nat)
    requires Shape(s) && p < |s.ent|
    ensures Kinds(BalanceOne(s, run, p)) == Kinds(s)
  {
    hide Requeue;
    if s.ent[p].priority > s.ent[p].maxPriority {
      RequeueKinds(s, p, s.ent[p].(priority := s.ent[p].priority - 1));
    }
  }

  lemma {:induction false} BalanceKinds(s: Sched, run: set<nat>, live: set<nat>, p: nat)
    requires Shape(s) && p <= |s.ent|
    ensures Kinds(BalanceFrom(s, run, live, p)) == Kinds(s)
    decreases |s.ent| - p
  {
    hide BalanceOne, Kinds;
    if p < |s.ent| {
      BalanceOneKinds(s, run, p);
      BalanceKinds(if p in live then BalanceOne(s, run, p) else s, run, live, p + 1);
    }
  }

  lemma ChargeKinds(s: Sched, ticks: nat)
    requires Shape(s)
    ensures Kinds(Charge(s, ticks)) == Kinds(s)
  {
  }

  // ------------------------------------------------------------------ operations

  lemma RtsSetKinds(s: State, p: nat, f: set<RtsFlag>)
    requires StateShape(s) && p < |s.ipc.procs|
    ensures Kinds(RtsSet(s, p, f).sched) == Kinds(s.sched)
  {
    hide Dequeue, Kinds;
    DequeueKinds(s.sched, p);
  }

  lemma RtsUnsetKinds(s: State, p: nat, f: set<RtsFlag>)
    requires StateShape(s) && p < |s.ipc.procs|
    ensures Kinds(RtsUnset(s, p, f).sched) == Kinds(s.sched)
  {
    hide Enqueue, Kinds;
    EnqueueKinds(s.sched, p);
  }

  lemma NotifyKinds(s: State, c: nat, dst: Endpoint)
    requires StateShape(s) && c < |s.ipc.procs|
    ensures Kinds(MiniNotify(s, c, dst).0.sched) == Kinds(s.sched)
  {
    hide RtsUnset, Kinds;
    var i := s.ipc;
    if IsOkEndpoint(i, dst) {
      var d: nat := dst.slot;
      var j := QueueMess(NotifyTaken(i, c, d), d, i.procs[c].endpoint, NotifyContent(i, c, d));
      RtsUnsetKinds(s.(ipc := j), d, {Receiving});
    }
  }

  lemma SendSigKinds(s: State, p: nat, sig: nat)
    requires StateShape(s) && p < |s.ipc.procs|
    ensures Kinds(SendSig(s, p, sig).sched) == Kinds(s.sched)
  {
    hide MiniNotify, Kinds;
    var k := s.ipc.procs[p].privId;
    var v := s.ipc.privs[k];
    NotifyKinds(s.(ipc := WithPriv(s.ipc, k, v.(sigPending := v.sigPending + {sig}))), SYSTEM, s.ipc.procs[p].endpoint);
  }

  lemma CauseSigKinds(s: State, p: nat, sig: nat)
    requires StateShape(s) && p < |s.ipc.procs|
    ensures Kinds(CauseSig(s, p, sig).sched) == Kinds(s.sched)
  {
    hide SendSig, RtsSet, Kinds;
    var x := s.ipc.procs[p];
    var s1 := s.(ipc := WithProc(s.ipc, p, x.(pending := x.pending + {sig})));
    RtsSetKinds(s1, p, {Signaled, SigPending});
    SendSigKinds(RtsSet(s1, p, {Signaled, SigPending}), PM, SIGKSIG);
  }

  lemma SendKinds(s: State, c: nat, dst: Endpoint, content: Content, nonBlocking: bool, io: Access)
    requires StateShape(s) && c < |s.ipc.procs| && IsOkEndpoint(s.ipc, dst)
    ensures Kinds(MiniSend(s, c, dst, content, nonBlocking, io).0.sched) == Kinds(s.sched)
  {
    hide RtsSet, RtsUnset, Kinds;
    RtsSetKinds(s, c, {Sending});
    RtsUnsetKinds(s.(ipc := DeliverLetter(s.ipc, c, dst.slot, content)), dst.slot, {Receiving});
  }

  lemma TakeQueuedKinds(s: State, c: nat, k: nat)
    requires StateShape(s) && c < |s.ipc.procs| && k < |s.ipc.cq[c]|
    ensures Kinds(TakeQueued(s, c, k).sched) == Kinds(s.sched)
  {
    hide CauseSig, RtsUnset, Kinds;
    var x := s.ipc.cq[c][k];
    var y := s.ipc.procs[x];
    var s1 := s.(ipc := QueueMess(s.ipc, c, y.endpoint, y.sendMsg));
    var z := s1.ipc.procs[x];
    CauseSigKinds(s1.(ipc := WithProc(s1.ipc, x, z.(misc := z.misc - {SigDelay}))), x, SIGNDELAY);
    var s2 := if SigDelay in y.misc then SigDelayDone(s1, x) else s1;
    RtsUnsetKinds(s2, x, {Sending});
  }

  lemma BlockKinds(s: State, c: nat, src: Endpoint)
    requires StateShape(s) && c < |s.ipc.procs|
    ensures Kinds(BlockReceive(s, c, src).sched) == Kinds(s.sched)
  {
    hide RtsSet, Kinds;
    RtsSetKinds(s.(ipc := WithProc(s.ipc, c, s.ipc.procs[c].(getFrom := src))), c, {Receiving});
  }

  lemma ReceiveKinds(s: State, c: nat, src: Endpoint, nonBlocking: bool, io: Access)
    requires StateShape(s) && c < |s.ipc.procs| && (src != ANY ==> IsOkEndpoint(s.ipc, src)) && OwnsBits(s, c)
    ensures Kinds(MiniReceive(s, c, src, nonBlocking, io).0.sched) == Kinds(s.sched)
  {
    hide TakeQueued, BlockReceive, ReceiveAsync, FindNotify, FindCaller, TakeNotify, Kinds;
    var i := s.ipc;
    var want: Option<nat> := if src == ANY then None else Some(src.slot);
    BlockKinds(s, c, src);
    var k := FindCaller(i.cq[c], want, 0);
    if k < |i.cq[c]| { TakeQueuedKinds(s, c, k); }
    ReceiveAsyncShape(i, c, want, io);
    BlockKinds(s.(ipc := ReceiveAsync(i, c, want, io).0), c, src);
  }

  lemma SendaOneKinds(s: State, c: nat, e: AsynEntry, n: nat, io: Access)
    requires StateShape(s) && c < |s.ipc.procs|
    ensures Kinds(SendaOne(s, c, e, n, io).0.sched) == Kinds(s.sched)
  {
    hide RtsUnset, Kinds;
    var i := s.ipc;
    if IsOkEndpoint(i, e.dst) {
      var d: nat := e.dst.slot;
      var j := QueueMess(i, d, i.procs[c].endpoint, Data(e.body)).(
                 hist := i.hist.(asynSent := i.hist.asynSent + [(i.hist.serial, n)]));
      RtsUnsetKinds(s.(ipc := j), d, {Receiving});
    }
  }

  lemma {:induction false} SendaKinds(s: State, c: nat, t: seq<AsynEntry>, n: nat, io: Access)
    requires StateShape(s) && c < |s.ipc.procs| && n <= |t|
    ensures Kinds(SendaFrom(s, c, t, n, io).0.sched) == Kinds(s.sched)
    decreases |t| - n
  {
    hide SendaOne, Kinds;
    if n < |t| && !BadFlags(t[n]) && !Faults(io, s.ipc.procs[c].privId, n, NoFlags) {
      SendaOneKinds(s, c, t[n], n, io);
      var (s1, e, code) := SendaOne(s, c, t[n], n, io);
      if code == OK { SendaKinds(s1, c, t[n := e], n + 1, io); }
    }
  }

  lemma MiniSendaKinds(s: State, c: nat, t: seq<AsynEntry>, io: Access)
    requires StateShape(s) && c < |s.ipc.procs|
    ensures Kinds(MiniSenda(s, c, t, io).0.sched) == Kinds(s.sched)
  {
    hide SendaFrom, Kinds;
    SendaKinds(s.(ipc := OpenCall(s.ipc, c, t)), c, t, 0, io);
  }

  lemma SysCallKinds(s: State, t: Trap)
    requires KernelInv(s) && Live(s.ipc.procs[s.sched.procPtr])
    ensures Kinds(SysCall(s, t).0.sched) == Kinds(s.sched)
  {
    hide KernelInv, MiniSend, MiniReceive, MiniNotify, MiniSenda, Kinds;
    TrapParts(s);
    var c := s.sched.procPtr;
    if CheckTrap(s, t) == OK {
      if t.callNr == SENDREC {
        assert NamesOk(s.ipc, t.ep.slot) by { OkNames(s, t.ep); }
        var s0 := s.(ipc := MarkReply(s.ipc, c, t.ep));
        SendKinds(s0, c, t.ep, Data(t.body), false, t.io);
        SentEndpoint(s0, c, t.ep, Data(t.body), t.io);
        var (s1, code) := MiniSend(s0, c, t.ep, Data(t.body), false, t.io);
        if code == OK { ReceiveKinds(s1, c, t.ep, false, t.io); }
      } else if t.callNr == SEND || t.callNr == SENDNB {
        SendKinds(s, c, t.ep, Data(t.body), t.callNr == SENDNB, t.io);
      } else if t.callNr == RECEIVE {
        ReceiveKinds(s.(ipc := ClearReply(s.ipc, c)), c, t.ep, false, t.io);
      } else if t.callNr == NOTIFY {
        NotifyKinds(s, c, t.ep);
      } else if t.callNr == SENDA {
        MiniSendaKinds(s, c, t.table, t.io);
      }
    }
  }

  lemma ClearOneKinds(s: State, e: Endpoint, id: nat, p: nat)
    requires StateShape(s) && p < |s.ipc.procs|
    ensures Kinds(ClearOne(s, e, id, p).sched) == Kinds(s.sched)
  {
    hide RtsUnset, Kinds;
    if !Empty(s.ipc.procs[p]) {
      var k := s.ipc.procs[p].privId;
      var v := s.ipc.privs[k];
      var s1 := s.(ipc := WithPriv(s.ipc, k, v.(notifyPending := v.notifyPending - {id})));
      var x := s1.ipc.procs[p];
      var t1 := s1.(ipc := WithProc(s1.ipc, p, x.(retreg := ESRCDIED)));
      RtsUnsetKinds(t1, p, {Receiving});
      var s2 := if Receiving in x.rts && x.getFrom == e then RtsUnset(t1, p, {Receiving}) else s1;
      var y := s2.ipc.procs[p];
      var h := s2.ipc.hist;
      RtsUnsetKinds(
        s2.(ipc := WithProc(s2.ipc, p, y.(retreg := EDSTDIED)).(hist := h.(dropped := h.dropped + [y.sendId]))),
        p, {Sending});
    }
  }

  lemma {:induction false} ClearFromKinds(s: State, e: Endpoint, id: nat, p: nat)
    requires StateShape(s) && p <= |s.ipc.procs|
    ensures Kinds(ClearFrom(s, e, id, p).sched) == Kinds(s.sched)
    decreases |s.ipc.procs| - p
  {
    hide ClearOne, Kinds;
    if p < |s.ipc.procs| {
      ClearOneKinds(s, e, id, p);
      ClearFromKinds(ClearOne(s, e, id, p), e, id, p + 1);
    }
  }

  lemma ClearEndpointKinds(s: State, rc: nat)
    requires KernelInv(s) && rc < |s.ipc.procs|
    ensures Kinds(ClearEndpoint(s, rc).sched) == Kinds(s.sched)
  {
    QueuedWhereSending(s.ipc, rc);
    hide KernelInv, RtsSet, Detach, ClearFrom, Kinds;
    RtsSetKinds(s, rc, {NoEndpoint});
    var s1 := RtsSet(s, rc, {NoEndpoint});
    MarkedSending(s, rc);
    DetachShape(s1.ipc, rc);
    ClearFromKinds(s1.(ipc := Detach(s1.ipc, rc)), s.ipc.procs[rc].endpoint, s.ipc.procs[rc].privId, 0);
  }

  lemma MarkedSending(s: State, rc: nat)
    requires StateShape(s) && rc < |s.ipc.procs|
    ensures var r := RtsSet(s, rc, {NoEndpoint}).ipc;
            && r.procs[rc] == s.ipc.procs[rc].(rts := s.ipc.procs[rc].rts + {NoEndpoint}) && r.cq == s.ipc.cq
  {
  }

  lemma ExitKinds(s: State, rc: nat)
    requires KernelInv(s) && rc < |s.ipc.procs|
    ensures Kinds(Exit(s, rc).sched) == Kinds(s.sched)
  {
    hide MessageInv, SchedInv, ClearEndpoint, Dequeue, Kinds;
    if !Empty(s.ipc.procs[rc]) {
      ClearEndpointKinds(s, rc);
      DequeueKinds(ClearEndpoint(s, rc).sched, rc);
    }
  }

  lemma {:induction false} DeliverLoopKinds(s: State, faults: map<nat, bool>)
    requires KernelInv(s) && s.sched.nextPtr.None?
    ensures Kinds(DeliverLoop(s, faults).sched) == Kinds(s.sched)
    decreases Work(s.ipc)
  {
    hide KernelInv, RtsSet, MiniNotify, Work;
    var p := s.sched.procPtr;
    LoopParts(s);
    if DeliverMsg in s.ipc.procs[p].misc {
      if p !in faults {
        DeliveredInv(s, p);
        DeliveredWork(s, p);
        DeliverLoopKinds(Delivered(s, p), faults);
      } else {
        SuspendedInv(s, p, faults[p]);
        SuspendedWork(s, p, faults[p]);
        RtsSetKinds(s, p, {VmRequest});
        NotifyKinds(RtsSet(s, p, {VmRequest}), SYSTEM, Ep(0, VM));
        SwitchInv(Suspended(s, p, faults[p]));
        DeliverLoopKinds(Switch(Suspended(s, p, faults[p])), faults);
      }
    }
  }

  // ------------------------------------------------------------- boot, and every step

  lemma BootOneEntries(s: State, p: nat, e: BootEntry)
    requires StateShape(s) && Booted(s, p) && EntriesOk(s) && p < NR_BOOT_PROCS && e.queue < NR_SCHED_QUEUES
    requires (SysProc in e.flags <==> p != INIT) && e.quantum > 0
    ensures EntriesOk(BootOne(s, p, e))
  {
    hide Enqueue, Shape, BootMask, BootedSched, BootedPriv, Masks.MayAnswer, OwnedMasks;
    assert BootedProc(s.ipc.procs[p], p, p);
    BootOneForm(s, p, e);
    hide BootOne, BootPriv, BootUp;
    var s1 := s.sched.(ent := s.sched.ent[p := BootEnt(e)]);
    EnqueueKinds(s1, p);
    BootOnePrivs(s.ipc, p, e);
    hide Kinds, EntriesOk, BootedIpc, IpcShape;
    FilledEntries(s, BootOne(s, p, e), p, e);
  }

  lemma FilledEntries(s: State, r: State, p: nat, e: BootEntry)
    requires EntriesOk(s) && p < |s.ipc.procs| == |r.ipc.procs| && |r.ipc.privs| == |s.ipc.privs|
    requires Kinds(r.sched) == Kinds(s.sched.(ent := s.sched.ent[p := BootEnt(e)])) && e.quantum > 0
    requires r.ipc.procs[p].privId < |r.ipc.privs| && r.ipc.privs[r.ipc.procs[p].privId].flags == e.flags
    requires forall n :: 0 <= n < |s.ipc.procs| && n != p ==>
               && r.ipc.procs[n] == s.ipc.procs[n] && s.ipc.procs[n].privId < |s.ipc.privs|
               && (SlotFree !in s.ipc.procs[n].rts ==>
                     r.ipc.privs[s.ipc.procs[n].privId].flags == s.ipc.privs[s.ipc.procs[n].privId].flags)
    ensures EntriesOk(r)
  {
    var s1 := s.sched.(ent := s.sched.ent[p := BootEnt(e)]);
    forall n | 0 <= n < |r.ipc.procs| && SlotFree !in r.ipc.procs[n].rts ensures EntryOk(r, n) {
      assert Kinds(r.sched)[n] == Kinds(s1)[n];
      if n != p { assert EntryOk(s, n); }
    }
  }

  /** The privilege structure of p gets its flags; those of the processes before it stay. */
  lemma BootOnePrivs(i: Ipc, p: nat, e: BootEntry)
    requires IpcShape(i) && BootedIpc(i, p) && p < NR_BOOT_PROCS && (SysProc in e.flags <==> p != INIT)
    requires IpcShape(BootPriv(i, p, e))
    ensures var j := BootUp(BootMask(BootPriv(i, p, e), p, e.ipcTo, 0), p, e);
            && |j.procs| == |i.procs| && |j.privs| == |i.privs|
            && j.procs[p].privId < |j.privs|
            && j.privs[j.procs[p].privId].flags == e.flags && j.privs[j.procs[p].privId].trapMask == e.traps
            && forall n :: 0 <= n < |i.procs| && n != p ==>
                 && j.procs[n] == i.procs[n] && i.procs[n].privId < |i.privs|
                 && (SlotFree !in i.procs[n].rts ==>
                       && j.privs[i.procs[n].privId].flags == i.privs[i.procs[n].privId].flags
                       && j.privs[i.procs[n].privId].trapMask == i.privs[i.procs[n].privId].trapMask)
  {
    hide BootMask, BootedPriv, Masks.MayAnswer, OwnedMasks;
    forall n | 0 <= n < |i.procs| && n != p ensures SlotFree !in i.procs[n].rts ==> i.procs[n].privId != BootId(p, e) {
      assert BootedProc(i.procs[n], n, p);
    }
  }

  lemma {:induction false} BootFromEntries(s: State, image: seq<BootEntry>, p: nat)
    requires StateShape(s) && Booted(s, p) && EntriesOk(s) && ImageOk(image) && p <= NR_BOOT_PROCS
    ensures EntriesOk(BootFrom(s, image, p))
    decreases NR_BOOT_PROCS - p
  {
    if p < NR_BOOT_PROCS {
      hide Booted, BootOne, EntriesOk;
      BootOneBooted(s, p, image[p]);
      BootOneEntries(s, p, image[p]);
      BootFromEntries(BootOne(s, p, image[p]), image, p + 1);
    }
  }

  lemma BootEntries(n: nat, image: seq<BootEntry>)
    requires n >= NR_BOOT_PROCS && ImageOk(image)
    ensures EntriesOk(BootState(n, image))
  {
    BlankBooted(n);
    assert EntriesOk(Blank(n));
    hide Booted, BootFrom, Blank;
    BootFromEntries(Blank(n), image, 0);
  }

  /** Entries stay right when kinds, privilege structures and their flags stay. */
  lemma KeptEntries(s: State, t: State, c: nat)
    requires EntriesOk(s) && Follows(s.ipc, t.ipc, c) && Kinds(t.sched) == Kinds(s.sched)
    requires c < |s.ipc.procs| ==> SlotFree !in s.ipc.procs[c].rts
    ensures EntriesOk(t)
  {
    forall p | 0 <= p < |t.ipc.procs| && SlotFree !in t.ipc.procs[p].rts ensures EntryOk(t, p) {
      assert Belongs(s.ipc.procs[p], t.ipc.procs[p], p == c);
      assert EntryOk(s, p) && Kinds(t.sched)[p] == Kinds(s.sched)[p];
    }
  }

  /** A child gets its parent's quantum, and the flags of its own privilege structure. */
  lemma ForkEntries(s: State, e: Endpoint, c: nat, inhibit: bool)
    requires KernelInv(s) && EntriesOk(s) && c < |s.ipc.procs|
    ensures EntriesOk(Fork(s, e, c, inhibit).0)
  {
    hide MessageInv, SchedInv;
    if ForkOk(s.ipc, e, c) {
      var t := Fork(s, e, c, inhibit).0;
      ParentInUse(s, e);
      assert EntryOk(s, e.slot);
      forall p | 0 <= p < |t.ipc.procs| && SlotFree !in t.ipc.procs[p].rts ensures EntryOk(t, p) {
        if p != c { assert EntryOk(s, p); }
      }
    }
  }

  lemma ParentInUse(s: State, e: Endpoint)
    requires KernelInv(s) && IsOkEndpoint(s.ipc, e)
    ensures SlotFree !in s.ipc.procs[e.slot].rts
  {
    assert NamesOk(s.ipc, e.slot);
  }
}
