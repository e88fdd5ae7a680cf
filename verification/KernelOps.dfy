/** The whole kernel invariant and the operations that wake, signal and notify. */
module KernelOps {
  import opened KernelTypes
  import opened Scheduler
  import opened WaitGraph
  import opened Ipc
  import opened IpcInv
  import opened Letters
  import opened AsyncSends

  /** The kernel tasks and PM never die; IDLE never blocks and gets no mail. */
  ghost predicate VitalInv(i: Ipc)
    requires NR_BOOT_PROCS <= |i.procs|
  {
    && (forall p :: 0 <= p <= PM ==> Live(i.procs[p]))
    && i.procs[IDLE].rts == {} && DeliverMsg !in i.procs[IDLE].misc
  }

  ghost predicate MessageInv(i: Ipc) {
    CoreInv(i) && GraphInv(i) && PrivInv(i) && AsyncInv(i) && LetterInv(i) && VitalInv(i)
  }

  ghost predicate KernelInv(s: State) {
    && StateShape(s)
    && MessageInv(s.ipc)
    && SchedInv(s.sched, Ready(s.ipc))
  }

  // ------------------------------------------------------------- scheduling side

  lemma RtsSetSched(s: State, p: nat, f: set<RtsFlag>)
    requires StateShape(s) && SchedInv(s.sched, Ready(s.ipc)) && p < |s.ipc.procs| && p != IDLE && f != {}
    ensures SchedInv(RtsSet(s, p, f).sched, Ready(RtsSet(s, p, f).ipc))
  {
    var r := RtsSet(s, p, f);
    var g :| g in f;
    assert g in r.ipc.procs[p].rts;
    if s.ipc.procs[p].rts == {} {
      DequeueInv(s.sched, Ready(s.ipc), p);
      assert Ready(r.ipc) == Ready(s.ipc) - {p};
    } else {
      assert Ready(r.ipc) == Ready(s.ipc);
    }
  }

  lemma RtsUnsetSched(s: State, p: nat, f: set<RtsFlag>)
    requires StateShape(s) && SchedInv(s.sched, Ready(s.ipc)) && p < |s.ipc.procs|
    ensures SchedInv(RtsUnset(s, p, f).sched, Ready(RtsUnset(s, p, f).ipc))
  {
    var r := RtsUnset(s, p, f);
    if s.ipc.procs[p].rts != {} && r.ipc.procs[p].rts == {} {
      EnqueueInv(s.sched, Ready(s.ipc), p);
      assert Ready(r.ipc) == Ready(s.ipc) + {p};
    } else {
      assert Ready(r.ipc) == Ready(s.ipc);
    }
  }

  lemma SameReady(i: Ipc, j: Ipc)
    requires |i.procs| == |j.procs| && forall p :: 0 <= p < |i.procs| ==> i.procs[p].rts == j.procs[p].rts
    ensures Ready(i) == Ready(j)
  {
  }

  // --------------------------------------------------------------- message side

  /** Privileges unchanged except that pending bits may have gone. */
  ghost predicate FewerBits(i: Ipc, j: Ipc) {
    && |i.privs| == |j.privs|
    && forall k :: 0 <= k < |i.privs| ==>
         && j.privs[k].owner == i.privs[k].owner && j.privs[k].flags == i.privs[k].flags
         && j.privs[k].ipcTo == i.privs[k].ipcTo && j.privs[k].notifyPending <= i.privs[k].notifyPending
  }

  /** A message is put into d's slot. */
  lemma HandedInv(i: Ipc, j: Ipc, d: nat, m: Message)
    requires CoreInv(i) && GraphInv(i) && PrivInv(i) && VitalInv(i)
    requires Handed(i, j, d, m) && d != IDLE && IpcShape(j) && FewerBits(i, j) && Acceptable(i, d, m)
    requires Receiving in i.procs[d].rts ==> Sending !in i.procs[d].rts
    ensures CoreInv(j) && GraphInv(j) && PrivInv(j) && VitalInv(j)
  {
    HandedCore(i, j, d, m);
    HandedGraph(i, j, d, m);
    PrivsKept(i, j);
  }

  /** Privileges depend on few fields of the processes. */
  lemma PrivsKept(i: Ipc, j: Ipc)
    requires IpcShape(i) && PrivInv(i) && IpcShape(j) && |i.procs| == |j.procs| && FewerBits(i, j)
    requires forall p :: 0 <= p < |i.procs| ==>
               && j.procs[p].privId == i.procs[p].privId
               && (SlotFree in j.procs[p].rts <==> SlotFree in i.procs[p].rts)
               && (Receiving in j.procs[p].rts && j.procs[p].getFrom == ANY && j.procs[p].privId != USER_PRIV_ID ==>
                     j.privs[j.procs[p].privId].notifyPending == {}
                     || (Receiving in i.procs[p].rts && i.procs[p].getFrom == ANY))
    ensures PrivInv(j)
  {
    forall p | 0 <= p < |j.procs| ensures PrivOk(j, p) { assert PrivOk(i, p); }
    forall k | 0 <= k < |j.privs| ensures OwnerOk(j, k) { assert OwnerOk(i, k); }
  }

  /** Only flags and fields outside message passing change. */
  lemma QuietInv(i: Ipc, j: Ipc)
    requires MessageInv(i) && Quiet(i, j) && IpcShape(j) && FewerBits(i, j)
    requires i.hist == j.hist && SameTables(i, j) && j.procs[IDLE].rts == {}
    ensures MessageInv(j)
  {
    QuietCore(i, j);
    QuietGraph(i, j);
    assert SameCore(i.procs[IDLE], j.procs[IDLE]);
    forall k | 0 <= k < |j.privs| ensures OwnerOk(j, k) {
      assert OwnerOk(i, k);
      if i.privs[k].owner.Some? {
        var p := i.privs[k].owner.value;
        assert SameCore(i.procs[p], j.procs[p]) && StillTold(i.procs[p], j.procs[p]);
      }
    }
    forall p | 0 <= p < |j.procs|
      ensures PrivOk(j, p) && SameSend(i.procs[p], j.procs[p]) && (Live(i.procs[p]) ==> Live(j.procs[p]))
    {
      assert PrivOk(i, p) && SameCore(i.procs[p], j.procs[p]) && StillTold(i.procs[p], j.procs[p]);
    }
    SameLettersInv(i, j);
    SameTablesInv(i, j);
  }

  // --------------------------------------------------------------------- notify

  /** A pending bit is added where nobody waits for it. */
  lemma NotifyBitInv(i: Ipc, c: nat, d: nat)
    requires MessageInv(i) && c < |i.procs| && d < |i.procs|
    requires SlotFree !in i.procs[c].rts && SlotFree !in i.procs[d].rts
    requires !(Receiving in i.procs[d].rts && i.procs[d].getFrom == ANY)
    ensures var k := i.procs[d].privId;
            MessageInv(WithPriv(i, k, i.privs[k].(notifyPending := i.privs[k].notifyPending + {i.procs[c].privId})))
  {
    var k := i.procs[d].privId;
    var j := WithPriv(i, k, i.privs[k].(notifyPending := i.privs[k].notifyPending + {i.procs[c].privId}));
    NotifyBitPrivs(i, c, d);
    assert Quiet(i, j) && SameLetters(i, j) && SameTables(i, j);
    hide CoreInv, PrivInv, AsyncInv, LetterInv, WaitsFor;
    QuietCore(i, j);
    QuietGraph(i, j);
    SameLettersInv(i, j);
    SameTablesInv(i, j);
  }

  lemma NotifyBitPrivs(i: Ipc, c: nat, d: nat)
    requires CoreInv(i) && PrivInv(i) && c < |i.procs| && d < |i.procs|
    requires SlotFree !in i.procs[c].rts && SlotFree !in i.procs[d].rts
    requires !(Receiving in i.procs[d].rts && i.procs[d].getFrom == ANY)
    ensures var k := i.procs[d].privId;
            var j := WithPriv(i, k, i.privs[k].(notifyPending := i.privs[k].notifyPending + {i.procs[c].privId}));
            IpcShape(j) && PrivInv(j)
  {
    var k := i.procs[d].privId;
    var j := WithPriv(i, k, i.privs[k].(notifyPending := i.privs[k].notifyPending + {i.procs[c].privId}));
    assert PrivOk(i, c) && PrivOk(i, d);
    forall p | 0 <= p < |j.procs| ensures PrivOk(j, p) { assert PrivOk(i, p) && NamesOk(i, p); }
    forall k' | 0 <= k' < |j.privs| ensures OwnerOk(j, k') { assert OwnerOk(i, k'); }
  }

  /** A notification is put into the slot of a process that waits for it. */
  lemma NotifyHanded(i: Ipc, c: nat, d: nat)
    requires IpcShape(i) && c < |i.procs| && d < |i.procs|
    ensures var m := Message(i.procs[c].endpoint, NotifyContent(i, c, d));
            var j := UnsetFlags(QueueMess(NotifyTaken(i, c, d), d, m.source, m.content), d, {Receiving});
            Handed(i, j, d, m) && FewerBits(i, j) && SameLetters(i, j) && SameTables(i, j) && IpcShape(j)
  {
  }

  lemma NotifyDeliverInv(i: Ipc, c: nat, d: nat)
    requires MessageInv(i) && c < |i.procs| && d < |i.procs| && ReplyPend !in i.procs[d].misc
    requires Receiving in i.procs[d].rts && Sending !in i.procs[d].rts
    ensures MessageInv(UnsetFlags(QueueMess(NotifyTaken(i, c, d), d, i.procs[c].endpoint, NotifyContent(i, c, d)),
                                  d, {Receiving}))
  {
    hide NameInv, QueueInv, WaitInv, GraphInv, PrivInv, AsyncInv, LetterInv;
    var m := Message(i.procs[c].endpoint, NotifyContent(i, c, d));
    var j := UnsetFlags(QueueMess(NotifyTaken(i, c, d), d, m.source, m.content), d, {Receiving});
    NotifyHanded(i, c, d);
    HandedInv(i, j, d, m);
    SameLettersInv(i, j);
    SameTablesInv(i, j);
  }

  lemma MiniNotifyInv(s: State, c: nat, dst: Endpoint)
    requires KernelInv(s) && c < |s.ipc.procs| && SlotFree !in s.ipc.procs[c].rts
    ensures KernelInv(MiniNotify(s, c, dst).0)
  {
    hide SchedInv, GraphInv, PrivInv, AsyncInv, LetterInv, Enqueue;
    var i := s.ipc;
    if IsOkEndpoint(i, dst) {
      var d: nat := dst.slot;
      assert NamesOk(i, d) && WaitOk(i, d);
      if WillReceive(i.procs[d], i.procs[c].endpoint) && ReplyPend !in i.procs[d].misc {
        var m := Message(i.procs[c].endpoint, NotifyContent(i, c, d));
        var s1 := s.(ipc := QueueMess(NotifyTaken(i, c, d), d, m.source, m.content));
        NotifyDeliverInv(i, c, d);
        SameReady(i, s1.ipc);
        RtsUnsetSched(s1, d, {Receiving});
      } else {
        NotifyBitInv(i, c, d);
        SameReady(i, MiniNotify(s, c, dst).0.ipc);
      }
    }
  }

  // -------------------------------------------------------------------- signals

  lemma SendSigInv(s: State, p: nat, sig: nat)
    requires KernelInv(s) && p < |s.ipc.procs|
    ensures KernelInv(SendSig(s, p, sig))
  {
    var k := s.ipc.procs[p].privId;
    var v := s.ipc.privs[k];
    var s1 := s.(ipc := WithPriv(s.ipc, k, v.(sigPending := v.sigPending + {sig})));
    QuietInv(s.ipc, s1.ipc);
    SameReady(s.ipc, s1.ipc);
    MiniNotifyInv(s1, SYSTEM, s.ipc.procs[p].endpoint);
  }

  /** Flags that stop a process without concerning message passing. */
  ghost predicate StopFlags(f: set<RtsFlag>) {
    f != {} && SlotFree !in f && Sending !in f && Receiving !in f && NoEndpoint !in f
  }

  lemma StopQuiet(i: Ipc, p: nat, f: set<RtsFlag>)
    requires MessageInv(i) && p < |i.procs| && StopFlags(f)
    ensures p != IDLE && SlotFree !in i.procs[p].rts ==> MessageInv(SetFlags(i, p, f))
    ensures MessageInv(UnsetFlags(i, p, f))
  {
    assert NamesOk(i, p);
    hide MessageInv;
    var r := i.procs[p].rts;
    assert SlotFree in r ==> r - f == r;
    OtherFlags(i, p, r - f);
    if p != IDLE && SlotFree !in r { OtherFlags(i, p, r + f); }
  }

  /** The flags of p change in a way that message passing does not see. */
  lemma OtherFlags(i: Ipc, p: nat, rts: set<RtsFlag>)
    requires MessageInv(i) && p < |i.procs| && (p == IDLE ==> rts == {})
    requires forall f :: f in {SlotFree, Sending, Receiving, NoEndpoint} ==> (f in rts <==> f in i.procs[p].rts)
    requires SlotFree in i.procs[p].rts ==> rts == i.procs[p].rts
    ensures MessageInv(WithProc(i, p, i.procs[p].(rts := rts)))
  {
    hide CoreInv, GraphInv, PrivInv, AsyncInv, LetterInv;
    MessageShape(i);
    var j := WithProc(i, p, i.procs[p].(rts := rts));
    assert Quiet(i, j);
    assert SameTables(i, j);
    hide Quiet, SameTables;
    QuietInv(i, j);
  }

  lemma MessageShape(i: Ipc)
    requires MessageInv(i)
    ensures IpcShape(i)
  {
  }

  lemma SetStopInv(s: State, p: nat, f: set<RtsFlag>)
    requires KernelInv(s) && p < |s.ipc.procs| && p != IDLE && SlotFree !in s.ipc.procs[p].rts && StopFlags(f)
    ensures KernelInv(RtsSet(s, p, f)) && !OnList(RtsSet(s, p, f), p)
  {
    hide MessageInv, SchedInv;
    RtsSetSched(s, p, f);
    StopQuiet(s.ipc, p, f);
    OnListIfReady(RtsSet(s, p, f), p);
  }

  lemma UnsetStopInv(s: State, p: nat, f: set<RtsFlag>)
    requires KernelInv(s) && p < |s.ipc.procs| && StopFlags(f)
    ensures KernelInv(RtsUnset(s, p, f))
    ensures OnList(RtsUnset(s, p, f), p) <==> s.ipc.procs[p].rts <= f
  {
    hide MessageInv, SchedInv;
    RtsUnsetSched(s, p, f);
    StopQuiet(s.ipc, p, f);
    OnListIfReady(RtsUnset(s, p, f), p);
    var r := s.ipc.procs[p].rts;
    assert r - f == {} <==> r <= f by {
      if r - f == {} { forall x | x in r ensures x in f { assert x !in r - f; } }
    }
  }

  /** p is on one of the ready lists. */
  ghost predicate OnList(s: State, p: nat) {
    exists q :: 0 <= q < |s.sched.rq| && p in s.sched.rq[q]
  }

  lemma OnListIfReady(s: State, p: nat)
    requires KernelInv(s) && p < |s.ipc.procs|
    ensures OnList(s, p) <==> s.ipc.procs[p].rts == {}
  {
    hide MessageInv;
    if s.ipc.procs[p].rts == {} {
      assert p in Ready(s.ipc);
      assert p in s.sched.rq[s.sched.ent[p].priority];
    }
    if OnList(s, p) {
      var q :| 0 <= q < |s.sched.rq| && p in s.sched.rq[q];
      assert p in Ready(s.ipc);
    }
  }

  lemma CauseSigInv(s: State, p: nat, sig: nat)
    requires KernelInv(s) && p < |s.ipc.procs| && p != IDLE && SlotFree !in s.ipc.procs[p].rts
    ensures KernelInv(CauseSig(s, p, sig))
  {
    hide SchedInv, NameInv, QueueInv, WaitInv, PrivInv, GraphInv, AsyncInv, LetterInv;
    var x := s.ipc.procs[p];
    if sig !in x.pending {
      var s1 := s.(ipc := WithProc(s.ipc, p, x.(pending := x.pending + {sig})));
      QuietInv(s.ipc, s1.ipc);
      SameReady(s.ipc, s1.ipc);
      if Signaled !in x.rts {
        SetStopInv(s1, p, {Signaled, SigPending});
        SendSigInv(RtsSet(s1, p, {Signaled, SigPending}), PM, SIGKSIG);
      }
    }
  }

  lemma SigDelayDoneInv(s: State, p: nat)
    requires KernelInv(s) && p < |s.ipc.procs| && p != IDLE && SlotFree !in s.ipc.procs[p].rts
    ensures KernelInv(SigDelayDone(s, p))
  {
    var x := s.ipc.procs[p];
    var s1 := s.(ipc := WithProc(s.ipc, p, x.(misc := x.misc - {SigDelay})));
    QuietInv(s.ipc, s1.ipc);
    SameReady(s.ipc, s1.ipc);
    CauseSigInv(s1, p, SIGNDELAY);
  }
}
