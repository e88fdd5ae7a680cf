/** What no step of the kernel undoes: history only grows, and send masks and the
    ownership of privilege structures change only where they are meant to. */
module Progress {
  import opened KernelTypes
  import opened Scheduler
  import opened Ipc
  import opened IpcInv
  import opened AsyncSends
  import opened KernelOps
  import opened SendaOps
  import opened Syscalls
  import opened Lifecycle
  import opened Forking
  import opened Masks
  import opened KernelSteps

  ghost predicate Grows(g: History, h: History) {
    && g.letters <= h.letters && g.delivered <= h.delivered && g.dropped <= h.dropped
    && g.asynSent <= h.asynSent && g.serial <= h.serial && g.calls <= h.calls
  }

  /** The delivery slot of a process that is not receiving is at most emptied. */
  ghost predicate SlotKept(x: Proc, y: Proc) {
    Receiving !in x.rts ==>
      Receiving !in y.rts && (DeliverMsg in y.misc ==> DeliverMsg in x.misc && y.deliverMsg == x.deliverMsg)
  }

  /** j follows i; c is the one process whose slot may be filled at its own wish. */
  ghost predicate Follows(i: Ipc, j: Ipc, c: nat) {
    && |i.procs| == |j.procs| && |i.privs| == |j.privs| && Grows(i.hist, j.hist)
    && (forall p :: 0 <= p < |i.procs| && p != c ==> SlotKept(i.procs[p], j.procs[p]))
    && (forall p :: 0 <= p < |i.procs| ==> Belongs(i.procs[p], j.procs[p], p == c))
    && forall k :: 0 <= k < |i.privs| ==>
         && j.privs[k].ipcTo == i.privs[k].ipcTo && j.privs[k].flags == i.privs[k].flags
         && (j.privs[k].owner == i.privs[k].owner || j.privs[k].owner.None?)
  }

  /** A slot keeps its privilege structure, and stays free if it was, unless it is the one
      that the step fills. */
  ghost predicate Belongs(x: Proc, y: Proc, own: bool) {
    (own && SlotFree in x.rts) || (y.privId == x.privId && (SlotFree in x.rts ==> SlotFree in y.rts))
  }

  /** The same, no letter is dropped, and no slot becomes free. */
  ghost predicate Advance(i: Ipc, j: Ipc, c: nat) {
    && Follows(i, j, c) && j.hist.dropped == i.hist.dropped
    && forall p :: 0 <= p < |i.procs| && SlotFree in j.procs[p].rts ==> SlotFree in i.procs[p].rts
  }

  lemma FollowsAnswers(i: Ipc, j: Ipc, c: nat)
    requires Follows(i, j, c) && MayAnswer(i)
    ensures MayAnswer(j)
  {
    forall k, m | 0 <= k < |j.privs| && 0 <= m < |j.privs|
      ensures m in j.privs[k].ipcTo && j.privs[m].owner.Some? && !OfKernel(j.privs[m].owner) ==> k in j.privs[m].ipcTo
    {
      assert m in i.privs[k].ipcTo && i.privs[m].owner.Some? && !OfKernel(i.privs[m].owner) ==> k in i.privs[m].ipcTo;
    }
  }

  lemma AdvanceTrans(i: Ipc, j: Ipc, k: Ipc, c: nat)
    requires Advance(i, j, c) && Advance(j, k, c)
    ensures Advance(i, k, c)
  {
    forall p | 0 <= p < |i.procs| && p != c ensures SlotKept(i.procs[p], k.procs[p]) {
      assert SlotKept(i.procs[p], j.procs[p]) && SlotKept(j.procs[p], k.procs[p]);
    }
    forall p | 0 <= p < |i.procs| ensures Belongs(i.procs[p], k.procs[p], p == c) {
      assert Belongs(i.procs[p], j.procs[p], p == c) && Belongs(j.procs[p], k.procs[p], p == c);
    }
  }

  lemma NotifyAdvance(s: State, c: nat, dst: Endpoint)
    requires StateShape(s) && c < |s.ipc.procs|
    ensures Advance(s.ipc, MiniNotify(s, c, dst).0.ipc, |s.ipc.procs|)
  {
    hide Enqueue, Shape, NotifyContent;
  }

  lemma CauseSigAdvance(s: State, p: nat, sig: nat)
    requires StateShape(s) && p < |s.ipc.procs|
    ensures Advance(s.ipc, CauseSig(s, p, sig).ipc, |s.ipc.procs|)
  {
    hide Dequeue, MiniNotify;
    var x := s.ipc.procs[p];
    var s1 := s.(ipc := WithProc(s.ipc, p, x.(pending := x.pending + {sig})));
    SendSigAdvance(RtsSet(s1, p, {Signaled, SigPending}), PM, SIGKSIG);
  }

  lemma SendSigAdvance(s: State, p: nat, sig: nat)
    requires StateShape(s) && p < |s.ipc.procs|
    ensures Advance(s.ipc, SendSig(s, p, sig).ipc, |s.ipc.procs|)
  {
    hide MiniNotify;
    var k := s.ipc.procs[p].privId;
    var v := s.ipc.privs[k];
    NotifyAdvance(s.(ipc := WithPriv(s.ipc, k, v.(sigPending := v.sigPending + {sig}))), SYSTEM,
      s.ipc.procs[p].endpoint);
  }

  lemma SendAdvance(s: State, c: nat, dst: Endpoint, content: Content, nonBlocking: bool, io: Access)
    requires StateShape(s) && c < |s.ipc.procs| && IsOkEndpoint(s.ipc, dst)
    ensures Advance(s.ipc, MiniSend(s, c, dst, content, nonBlocking, io).0.ipc, |s.ipc.procs|)
  {
    hide RtsSet, RtsUnset, DeliverLetter, QueueLetter, Advance;
    AdvanceSame(s.ipc);
    if WillReceive(s.ipc.procs[dst.slot], s.ipc.procs[c].endpoint) {
      DirectAdvance(s, c, dst.slot, content);
    } else {
      QueuedAdvance(s, c, dst, content);
    }
  }

  lemma AdvanceSame(i: Ipc)
    ensures Advance(i, i, |i.procs|)
  {
  }

  lemma DirectAdvance(s: State, c: nat, d: nat, content: Content)
    requires StateShape(s) && c < |s.ipc.procs| && d < |s.ipc.procs|
    requires WillReceive(s.ipc.procs[d], s.ipc.procs[c].endpoint)
    ensures StateShape(s.(ipc := DeliverLetter(s.ipc, c, d, content)))
    ensures Advance(s.ipc, RtsUnset(s.(ipc := DeliverLetter(s.ipc, c, d, content)), d, {Receiving}).ipc, |s.ipc.procs|)
  {
    hide Enqueue;
  }

  lemma QueuedAdvance(s: State, c: nat, dst: Endpoint, content: Content)
    requires StateShape(s) && c < |s.ipc.procs| && IsOkEndpoint(s.ipc, dst)
    ensures Advance(s.ipc, QueueLetter(RtsSet(s, c, {Sending}).ipc, c, dst, content), |s.ipc.procs|)
  {
    hide Dequeue;
  }

  lemma TakeQueuedAdvance(s: State, c: nat, k: nat)
    requires StateShape(s) && c < |s.ipc.procs| && k < |s.ipc.cq[c]|
    ensures Advance(s.ipc, TakeQueued(s, c, k).ipc, c)
  {
    hide SigDelayDone, RtsUnset, Unlink, Advance;
    var x := s.ipc.cq[c][k];
    var y := s.ipc.procs[x];
    var s1 := s.(ipc := QueueMess(s.ipc, c, y.endpoint, y.sendMsg));
    var s2 := if SigDelay in y.misc then SigDelayDone(s1, x) else s1;
    QueueMessAdvance(s.ipc, c, y.endpoint, y.sendMsg);
    if SigDelay in y.misc {
      SigDelayAdvance(s1, x, c);
      AdvanceTrans(s.ipc, s1.ipc, s2.ipc, c);
    }
    UnlinkAdvance(s2, c, k);
    AdvanceTrans(s.ipc, s2.ipc, TakeQueued(s, c, k).ipc, c);
  }

  lemma QueueMessAdvance(i: Ipc, c: nat, from: Endpoint, content: Content)
    requires IpcShape(i) && c < |i.procs|
    ensures QueueMess(i, c, from, content).cq == i.cq && Advance(i, QueueMess(i, c, from, content), c)
  {
  }

  lemma UnlinkAdvance(s: State, c: nat, k: nat)
    requires StateShape(s) && c < |s.ipc.procs| && k < |s.ipc.cq[c]|
    ensures var x := s.ipc.cq[c][k];
            RtsUnset(s, x, {Sending}).ipc.cq == s.ipc.cq
            && Advance(s.ipc, Unlink(RtsUnset(s, x, {Sending}).ipc, c, k), c)
  {
    hide Enqueue;
  }

  lemma SigDelayAdvance(s: State, x: nat, c: nat)
    requires StateShape(s) && x < |s.ipc.procs|
    ensures Advance(s.ipc, SigDelayDone(s, x).ipc, c)
  {
    hide CauseSig;
    var y := s.ipc.procs[x];
    CauseSigAdvance(s.(ipc := WithProc(s.ipc, x, y.(misc := y.misc - {SigDelay}))), x, SIGNDELAY);
  }

  lemma TryOneAdvance(i: Ipc, src: nat, c: nat, io: Access)
    requires IpcShape(i) && src < |i.procs| && c < |i.procs|
    ensures Advance(i, TryOne(i, src, c, io).0, c)
  {
    hide Scanned, ScanTable, MaySendTo;
  }

  lemma {:induction false} TryAsyncAdvance(i: Ipc, c: nat, k: nat, postponed: bool, io: Access)
    requires IpcShape(i) && c < |i.procs| && k <= NR_SYS_PROCS
    ensures Advance(i, TryAsyncFrom(i, c, k, postponed, io).0, c)
    decreases NR_SYS_PROCS - k
  {
    if k == NR_SYS_PROCS {
    } else if i.privs[k].owner.None? {
      TryAsyncAdvance(i, c, k + 1, postponed, io);
    } else {
      hide TryOne, Advance;
      var src := i.privs[k].owner.value;
      TryOneShape(i, src, c, io);
      TryOneAdvance(i, src, c, io);
      var (j, code, later) := TryOne(i, src, c, io);
      if code != OK {
        TryAsyncAdvance(j, c, k + 1, postponed || later, io);
        AdvanceTrans(i, j, TryAsyncFrom(j, c, k + 1, postponed || later, io).0, c);
      }
    }
  }

  lemma ReceiveAdvance(s: State, c: nat, src: Endpoint, nonBlocking: bool, io: Access)
    requires StateShape(s) && c < |s.ipc.procs| && (src != ANY ==> IsOkEndpoint(s.ipc, src)) && OwnsBits(s, c)
    ensures Advance(s.ipc, MiniReceive(s, c, src, nonBlocking, io).0.ipc, c)
  {
    hide TakeQueued, TryOne, TryAsyncFrom, RtsSet, FindNotify, FindCaller;
    if io.receiveMapped {
      BlockAdvance(s, c, src);
      if !(src != ANY && NoEndpoint in s.ipc.procs[src.slot].rts) && Sending !in s.ipc.procs[c].rts {
        ReceiveNowAdvance(s, c, src, nonBlocking, io);
      }
    }
  }

  lemma BlockAdvance(s: State, c: nat, src: Endpoint)
    requires StateShape(s) && c < |s.ipc.procs|
    ensures Advance(s.ipc, BlockReceive(s, c, src).ipc, c)
  {
    hide Dequeue;
  }

  lemma AsyncAdvance(i: Ipc, c: nat, want: Option<nat>, io: Access)
    requires IpcShape(i) && c < |i.procs| && (want.Some? ==> want.value < |i.procs|)
    ensures Advance(i, ReceiveAsync(i, c, want, io).0, c)
  {
    hide TryOne, TryAsyncFrom;
    if want.Some? { TryOneAdvance(i, want.value, c, io); } else { TryAsyncAdvance(i, c, 0, false, io); }
  }

  lemma ReceiveNowAdvance(s: State, c: nat, src: Endpoint, nonBlocking: bool, io: Access)
    requires StateShape(s) && c < |s.ipc.procs| && (src != ANY ==> src.Ep? && 0 <= src.slot < |s.ipc.procs|)
    requires OwnsBits(s, c)
    ensures Advance(s.ipc, ReceiveNow(s, c, src, nonBlocking, io).0.ipc, c)
  {
    hide TakeQueued, TryOne, TryAsyncFrom, BlockReceive, FindNotify, FindCaller, Enqueue;
    var i := s.ipc;
    var want: Option<nat> := if src == ANY then None else Some(src.slot);
    var note := if ReplyPend in i.procs[c].misc then None
                else FindNotify(i.privs, i.privs[i.procs[c].privId].notifyPending, want, 0);
    if note.None? {
      var k := FindCaller(i.cq[c], want, 0);
      if k < |i.cq[c]| {
        TakeQueuedAdvance(s, c, k);
      } else {
        AsyncAdvance(i, c, want, io);
        ReceiveAsyncShape(i, c, want, io);
        var j := ReceiveAsync(i, c, want, io).0;
        hide ReceiveAsync, Advance;
        BlockAdvance(s.(ipc := j), c, src);
        AdvanceTrans(i, j, BlockReceive(s.(ipc := j), c, src).ipc, c);
      }
    }
  }

  lemma SendaDeliverAdvance(s: State, c: nat, e: AsynEntry, n: nat, d: nat)
    requires StateShape(s) && c < |s.ipc.procs| && d < |s.ipc.procs| && Receiving in s.ipc.procs[d].rts
    ensures var i := s.ipc;
            var j := QueueMess(i, d, i.procs[c].endpoint, Data(e.body)).(
                       hist := i.hist.(asynSent := i.hist.asynSent + [(i.hist.serial, n)]));
            Advance(i, RtsUnset(s.(ipc := j), d, {Receiving}).ipc, |i.procs|)
  {
    hide Enqueue;
  }

  lemma SendaTellAdvance(i: Ipc, d: nat)
    requires d < |i.procs|
    ensures Advance(i, WithProc(i, d, i.procs[d].(misc := i.procs[d].misc + {AsynMsg})), |i.procs|)
  {
  }

  lemma SendaOneAdvance(s: State, c: nat, e: AsynEntry, n: nat, io: Access)
    requires StateShape(s) && c < |s.ipc.procs|
    ensures Advance(s.ipc, SendaOne(s, c, e, n, io).0.ipc, |s.ipc.procs|)
  {
    hide RtsUnset, Advance, StateShape;
    SameAdvance(s.ipc);
    if IsOkEndpoint(s.ipc, e.dst) {
      var d: nat := e.dst.slot;
      SendaTellAdvance(s.ipc, d);
      if WillReceive(s.ipc.procs[d], s.ipc.procs[c].endpoint) { SendaDeliverAdvance(s, c, e, n, d); }
    }
  }

  lemma {:induction false} SendaAdvance(s: State, c: nat, t: seq<AsynEntry>, n: nat, io: Access)
    requires StateShape(s) && c < |s.ipc.procs| && n <= |t|
    ensures Advance(s.ipc, SendaFrom(s, c, t, n, io).0.ipc, |s.ipc.procs|)
    decreases |t| - n
  {
    hide SendaOne, Advance;
    SameAdvance(s.ipc);
    if n < |t| && !BadFlags(t[n]) && !Faults(io, s.ipc.procs[c].privId, n, NoFlags) {
      SendaOneAdvance(s, c, t[n], n, io);
      var (s1, e, code) := SendaOne(s, c, t[n], n, io);
      if code == OK {
        SendaAdvance(s1, c, t[n := e], n + 1, io);
        AdvanceTrans(s.ipc, s1.ipc, SendaFrom(s1, c, t[n := e], n + 1, io).0.ipc, |s.ipc.procs|);
      }
    }
  }

  lemma MiniSendaAdvance(s: State, c: nat, t: seq<AsynEntry>, io: Access)
    requires StateShape(s) && c < |s.ipc.procs|
    ensures Advance(s.ipc, MiniSenda(s, c, t, io).0.ipc, |s.ipc.procs|)
  {
    hide SendaFrom;
    SendaAdvance(s.(ipc := OpenCall(s.ipc, c, t)), c, t, 0, io);
  }

  lemma SysCallAdvance(s: State, t: Trap)
    requires KernelInv(s) && Live(s.ipc.procs[s.sched.procPtr])
    ensures Advance(s.ipc, SysCall(s, t).0.ipc, s.sched.procPtr)
  {
    hide KernelInv, MiniSend, MiniReceive, MiniNotify, MiniSenda;
    TrapParts(s);
    var c := s.sched.procPtr;
    if CheckTrap(s, t) == OK {
      if t.callNr == SENDREC {
        assert NamesOk(s.ipc, t.ep.slot) by { OkNames(s, t.ep); }
        var s0 := s.(ipc := MarkReply(s.ipc, c, t.ep));
        SendAdvance(s0, c, t.ep, Data(t.body), false, t.io);
        SentEndpoint(s0, c, t.ep, Data(t.body), t.io);
        var (s1, code) := MiniSend(s0, c, t.ep, Data(t.body), false, t.io);
        assert Advance(s.ipc, s1.ipc, c);
        if code == OK {
          ReceiveAdvance(s1, c, t.ep, false, t.io);
          AdvanceTrans(s.ipc, s1.ipc, SysCall(s, t).0.ipc, c);
        }
      } else if t.callNr == SEND || t.callNr == SENDNB {
        SendAdvance(s, c, t.ep, Data(t.body), t.callNr == SENDNB, t.io);
      } else if t.callNr == RECEIVE {
        ReceiveAdvance(s.(ipc := ClearReply(s.ipc, c)), c, t.ep, false, t.io);
      } else if t.callNr == NOTIFY {
        NotifyAdvance(s, c, t.ep);
      } else if t.callNr == SENDA {
        MiniSendaAdvance(s, c, t.table, t.io);
      }
    }
  }

  lemma TrapParts(s: State)
    requires KernelInv(s) && Live(s.ipc.procs[s.sched.procPtr])
    ensures StateShape(s) && GraphInv(s.ipc) && OwnsBits(s, s.sched.procPtr)
  {
    assert PrivOk(s.ipc, s.sched.procPtr);
  }

  lemma OkNames(s: State, e: Endpoint)
    requires KernelInv(s) && IsOkEndpoint(s.ipc, e)
    ensures NamesOk(s.ipc, e.slot)
  {
  }

  lemma GoneFollows(i: Ipc, j: Ipc, rc: nat)
    requires Gone(i, j, rc)
    ensures Follows(i, j, |i.procs|)
  {
    hide Cleared;
    forall p | 0 <= p < |i.procs| ensures SlotKept(i.procs[p], j.procs[p]) && Belongs(i.procs[p], j.procs[p], false) {
      ClearedFlags(i.procs[p], i.procs[rc].endpoint);
    }
  }

  lemma DieFollows(s: State, rc: nat)
    requires KernelInv(s) && rc < |s.ipc.procs| && SlotFree !in s.ipc.procs[rc].rts
    ensures Follows(s.ipc, ClearEndpoint(s, rc).ipc, |s.ipc.procs|) && Follows(s.ipc, Exit(s, rc).ipc, |s.ipc.procs|)
  {
    hide Gone, ClearEndpoint, CoreInv, GraphInv, PrivInv, AsyncInv, SchedInv;
    ClearEndpointGone(s, rc);
    GoneFollows(s.ipc, ClearEndpoint(s, rc).ipc, rc);
    assert FreeSlot(ClearEndpoint(s, rc).ipc, rc).hist == ClearEndpoint(s, rc).ipc.hist;
  }

  lemma {:induction false} DeliverLoopAdvance(s: State, faults: map<nat, bool>)
    requires KernelInv(s) && s.sched.nextPtr.None?
    ensures Advance(s.ipc, DeliverLoop(s, faults).ipc, |s.ipc.procs|)
    decreases Work(s.ipc)
  {
    hide KernelInv, Enqueue, Dequeue, MiniNotify, Work, Advance, Delivered;
    var p, n := s.sched.procPtr, |s.ipc.procs|;
    LoopParts(s);
    SameAdvance(s.ipc);
    if DeliverMsg in s.ipc.procs[p].misc {
      if p !in faults {
        DeliveredInv(s, p);
        DeliveredWork(s, p);
        DeliveredAdvance(s, p);
        DeliverLoopAdvance(Delivered(s, p), faults);
        AdvanceTrans(s.ipc, Delivered(s, p).ipc, DeliverLoop(s, faults).ipc, n);
      } else {
        SuspendedInv(s, p, faults[p]);
        SuspendedWork(s, p, faults[p]);
        var s1 := Suspended(s, p, faults[p]);
        SwitchInv(s1);
        SuspendedAdvance(s, p, faults[p]);
        DeliverLoopAdvance(Switch(s1), faults);
        AdvanceTrans(s.ipc, s1.ipc, DeliverLoop(s, faults).ipc, n);
      }
    }
  }

  lemma SameAdvance(i: Ipc)
    ensures Advance(i, i, |i.procs|)
  {
  }

  lemma DeliveredAdvance(s: State, p: nat)
    requires p < |s.ipc.procs|
    ensures Advance(s.ipc, Delivered(s, p).ipc, |s.ipc.procs|)
    ensures Delivered(s, p).sched == s.sched && |Delivered(s, p).ipc.procs| == |s.ipc.procs|
  {
  }

  lemma SuspendedAdvance(s: State, p: nat, tell: bool)
    requires StateShape(s) && p < |s.ipc.procs|
    ensures Advance(s.ipc, Suspended(s, p, tell).ipc, |s.ipc.procs|)
  {
    hide Dequeue, MiniNotify;
    NotifyAdvance(RtsSet(s, p, {VmRequest}), SYSTEM, Ep(0, VM));
  }
}
