/** RECEIVE at its edges: in which order it takes messages, which notifications of a
    named source it overlooks, and what receiving from oneself does. */
module ReceiveLimits {
  import opened KernelTypes
  import opened Scheduler
  import opened WaitGraph
  import opened Ipc
  import opened IpcInv
  import opened Letters
  import opened AsyncSends
  import opened KernelOps
  import opened SendaOps
  import opened Syscalls
  import opened Boot

  // ------------------------------------------------------------------------ order

  /** RECEIVE(ANY) with no notification to deliver takes the oldest of the letters that
      are waiting for the caller. */
  lemma TakesOldest(s: State, c: nat, io: Access)
    requires KernelInv(s) && c < |s.ipc.procs| && Live(s.ipc.procs[c]) && OwnsBits(s, c) && s.ipc.cq[c] != []
    requires ReplyPend in s.ipc.procs[c].misc || s.ipc.privs[s.ipc.procs[c].privId].notifyPending == {}
    ensures var h, r := s.ipc.hist, ReceiveNow(s, c, ANY, false, io);
            && r.1 == OK && |r.0.ipc.hist.delivered| == |h.delivered| + 1
            && var d := r.0.ipc.hist.delivered[|h.delivered|];
            && d.to == s.ipc.procs[c].endpoint && (exists p: nat :: p in s.ipc.cq[c] && Holds(s.ipc, p, d.id))
            && forall p: nat :: p in s.ipc.cq[c] ==> p < |s.ipc.procs| && d.id <= s.ipc.procs[p].sendId
  {
    var i := s.ipc;
    var bits := i.privs[i.procs[c].privId].notifyPending;
    NothingToFind(i.privs, bits, None, 0);
    assert FindCaller(i.cq[c], None, 0) == 0;
    TakenFirst(s, c);
  }

  lemma TakenFirst(s: State, c: nat)
    requires KernelInv(s) && c < |s.ipc.procs| && Live(s.ipc.procs[c]) && s.ipc.cq[c] != []
    ensures var h, r := s.ipc.hist, TakeQueued(s, c, 0);
            && |r.ipc.hist.delivered| == |h.delivered| + 1
            && var d := r.ipc.hist.delivered[|h.delivered|];
            && d.to == s.ipc.procs[c].endpoint && (exists p: nat :: p in s.ipc.cq[c] && Holds(s.ipc, p, d.id))
            && forall p: nat :: p in s.ipc.cq[c] ==> p < |s.ipc.procs| && d.id <= s.ipc.procs[p].sendId
  {
    var i := s.ipc;
    var x := i.cq[c][0];
    assert x in i.cq[c] && SendsTo(i, x, c);
    assert Holds(i, x, i.procs[x].sendId);
    forall p: nat | p in i.cq[c] ensures p < |i.procs| && i.procs[x].sendId <= i.procs[p].sendId {
      var k :| 0 <= k < |i.cq[c]| && i.cq[c][k] == p;
      if k > 0 { assert Before(i, i.cq[c][0], i.cq[c][k]); }
    }
    hide KernelInv;
    TakenHistory(s, c);
  }

  lemma TakenHistory(s: State, c: nat)
    requires StateShape(s) && c < |s.ipc.procs| && s.ipc.cq[c] != []
    ensures var x := s.ipc.cq[c][0];
            var y := s.ipc.procs[x];
            TakeQueued(s, c, 0).ipc.hist.delivered ==
              s.ipc.hist.delivered + [Delivery(y.sendId, s.ipc.procs[c].endpoint, Message(y.endpoint, y.sendMsg))]
  {
    hide Enqueue;
    var x := s.ipc.cq[c][0];
    var y := s.ipc.procs[x];
    var s1 := s.(ipc := QueueMess(s.ipc, c, y.endpoint, y.sendMsg));
    SigDelayDoneFrame(s1, x);
  }

  lemma {:induction false} NothingToFind(privs: seq<Priv>, bits: set<nat>, src: Option<nat>, chunk: nat)
    requires |privs| == NR_SYS_PROCS && chunk <= NR_SYS_CHUNKS
    ensures bits == {} ==> FindNotify(privs, bits, src, chunk).None?
    decreases NR_SYS_CHUNKS - chunk
  {
    if chunk < NR_SYS_CHUNKS { NothingToFind(privs, bits, src, chunk + 1); }
  }

  // --------------------------------------------------- notifications of one source

  /** Bit id is the lowest set bit of its chunk. */
  predicate LowestOfChunk(bits: set<nat>, id: nat) {
    id in bits && forall j :: 0 <= j < id && j / BITCHUNK_BITS == id / BITCHUNK_BITS ==> j !in bits
  }

  /** RECEIVE from a named source finds its pending notification exactly when no lower
      bit of the same chunk is set. */
  lemma NamedNotifyExact(privs: seq<Priv>, bits: set<nat>, id: nat)
    requires |privs| == NR_SYS_PROCS && id < NR_SYS_PROCS && id in bits && privs[id].owner.Some?
    requires forall k :: 0 <= k < |privs| && privs[k].owner == privs[id].owner ==> k == id
    ensures FindNotify(privs, bits, privs[id].owner, 0) == Some(id) <==> LowestOfChunk(bits, id)
  {
    var src := privs[id].owner;
    var low := LowestBit(bits, 0, BITCHUNK_BITS);
    var high := LowestBit(bits, BITCHUNK_BITS, 2 * BITCHUNK_BITS);
    assert FindNotify(privs, bits, src, 2).None?;
    assert FindNotify(privs, bits, src, 1) == if high < NR_SYS_PROCS && privs[high].owner == src then Some(high)
      else None;
    if id < BITCHUNK_BITS {
      assert LowestOfChunk(bits, id) <==> low == id;
    } else {
      assert LowestOfChunk(bits, id) <==> high == id;
    }
  }

  /** c has a notification in its slot and can go on. */
  ghost predicate Notified(i: Ipc, c: nat) {
    c < |i.procs| && i.procs[c].rts == {} && DeliverMsg in i.procs[c].misc
      && i.procs[c].deliverMsg.content.Notification?
  }

  /** c waits for src. */
  ghost predicate BlockedOnly(i: Ipc, c: nat, src: Endpoint) {
    c < |i.procs| && i.procs[c].rts == {Receiving} && i.procs[c].getFrom == src
  }

  /** So a caller with nothing queued from src and no asynchronous element announced gets the
      pending notification of src exactly when no lower bit of its chunk is set; otherwise it
      blocks on src with the notification pending. */
  lemma NamedReceiveExact(s: State, c: nat, src: Endpoint, id: nat, io: Access)
    requires KernelInv(s) && c < |s.ipc.procs| && Live(s.ipc.procs[c]) && OwnsBits(s, c)
    requires s.ipc.procs[c].rts == {} && ReplyPend !in s.ipc.procs[c].misc && AsynMsg !in s.ipc.procs[c].misc
    requires src.Ep? && 0 <= src.slot < |s.ipc.procs| && src.slot !in s.ipc.cq[c]
    requires id in s.ipc.privs[s.ipc.procs[c].privId].notifyPending && s.ipc.privs[id].owner == Some(src.slot)
    ensures var bits, r := s.ipc.privs[s.ipc.procs[c].privId].notifyPending, ReceiveNow(s, c, src, false, io).0.ipc;
            && r.procs[c].privId == s.ipc.procs[c].privId
            && if LowestOfChunk(bits, id) then Notified(r, c) && r.privs[r.procs[c].privId].notifyPending == bits - {id}
               else BlockedOnly(r, c, src) && r.privs[r.procs[c].privId].notifyPending == bits
  {
    hide Dequeue;
    var i := s.ipc;
    forall k | 0 <= k < |i.privs| && i.privs[k].owner == i.privs[id].owner ensures k == id {
      assert OwnerOk(i, k) && OwnerOk(i, id);
    }
    var bits := i.privs[i.procs[c].privId].notifyPending;
    NamedNotifyExact(i.privs, bits, id);
    assert FindCaller(i.cq[c], Some(src.slot), 0) == |i.cq[c]|;
    var note := FindNotify(i.privs, bits, Some(src.slot), 0);
    if note.Some? { assert OwnerOk(i, note.value) && OwnerOk(i, id); }
    assert {} + {Receiving} == {Receiving};
  }

  // -------------------------------------------------------- receiving from oneself

  /** The running process asks to receive from itself. */
  ghost predicate AsksItself(s: State, t: Trap)
    requires KernelInv(s)
  {
    CanTrap(s) && t.callNr == RECEIVE && t.ep == s.ipc.procs[s.sched.procPtr].endpoint
  }

  /** It may, its buffer can be mapped, and no notification of its own is pending. */
  ghost predicate WouldBlock(s: State, t: Trap)
    requires KernelInv(s)
  {
    var i, c := s.ipc, s.sched.procPtr;
    && RECEIVE in i.privs[i.procs[c].privId].trapMask && t.io.receiveMapped
    && FindNotify(i.privs, i.privs[i.procs[c].privId].notifyPending, Some(c), 0).None?
  }

  lemma SelfCheck(s: State, t: Trap)
    requires KernelInv(s) && AsksItself(s, t)
    ensures IsOkEndpoint(s.ipc, t.ep) && t.ep.slot == s.sched.procPtr
    ensures CheckTrap(s, t) == OK <==> RECEIVE in s.ipc.privs[s.ipc.procs[s.sched.procPtr].privId].trapMask
  {
    var c := s.sched.procPtr;
    assert NamesOk(s.ipc, c);
    assert WaitsFor(s.ipc)[c].None?;
  }

  /** deadlock() does not see a process that names itself: the call breaks the kernel
      invariant, by a cycle of one, exactly when the process would block. */
  lemma SelfReceiveExact(s: State, t: Trap)
    requires KernelInv(s) && AsksItself(s, t)
    ensures KernelInv(SysCall(s, t).0) <==> !WouldBlock(s, t)
    ensures WouldBlock(s, t) ==> !Acyclic(WaitsFor(SysCall(s, t).0.ipc))
  {
    hide MessageInv, SchedInv, MiniReceive, FindNotify, FindCaller, Acyclic, CheckTrap, MayReceive, WaitsFor, AsyncSafe;
    var c := s.sched.procPtr;
    SelfCheck(s, t);
    CallerHasBits(s, c);
    var s0 := s.(ipc := ClearReply(s.ipc, c));
    MarkReplyInv(s, c, t.ep);
    NothingFromSelf(s0, c, t.io);
    SysCallExact(s, t);
    if WouldBlock(s, t) {
      ReceiveMay(s, t);
      UnsafeBreaks(s0, c, t.ep, false, t.io);
    }
  }
}
