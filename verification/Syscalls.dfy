/** sys_call and the synchronous operations behind it. */
module Syscalls {
  import opened KernelTypes
  import opened Scheduler
  import opened WaitGraph
  import opened Ipc
  import opened IpcInv
  import opened Letters
  import opened AsyncSends
  import opened KernelOps
  import opened SendaOps

  // ------------------------------------------------------------------- deadlock

  /** deadlock()'s walk along the chain of dependencies, at process x with `size`
      processes in the group so far.  sends says whether the trap number shifted left
      by two has the SENDING bit, as it has for SEND and SENDREC. */
  ghost function DeadlockFrom(i: Ipc, sends: bool, c: nat, x: nat, size: nat): (r: nat)
    requires GraphInv(i) && x < |i.procs|
    decreases Height(WaitsFor(i), x)
  {
    var g := WaitsFor(i);
    if g[x].None? then 0
    else if g[x].value == c then
      if size + 1 == 2 && (Sending in i.procs[x].rts) != sends then 0 else size + 1
    else
      HeightStep(g, x);
      DeadlockFrom(i, sends, c, g[x].value, size + 1)
  }

  ghost function Deadlock(i: Ipc, sends: bool, c: nat, e: Endpoint): nat
    requires GraphInv(i) && (e != ANY ==> e.Ep? && 0 <= e.slot < |i.procs|)
  {
    if e == ANY then 0 else DeadlockFrom(i, sends, c, e.slot, 1)
  }

  lemma {:induction false} DeadlockFromExact(i: Ipc, sends: bool, c: nat, x: nat, size: nat)
    requires GraphInv(i) && x < |i.procs| && c < |i.procs| && x != c && size >= 1
    ensures DeadlockFrom(i, sends, c, x, size) != 0 <==>
            Reaches(WaitsFor(i), x, c) &&
            !(size == 1 && WaitsFor(i)[x] == Some(c) && (Sending in i.procs[x].rts) != sends)
    decreases Height(WaitsFor(i), x)
  {
    var g := WaitsFor(i);
    if g[x].None? {
      forall k: nat ensures Walk(g, x, k) != Some(c) {}
    } else {
      ReachesStep(g, x, c);
      var y := g[x].value;
      if y == c {
        assert Walk(g, y, 0) == Some(c);
      } else {
        HeightStep(g, x);
        DeadlockFromExact(i, sends, c, y, size + 1);
      }
    }
  }

  /** deadlock() refuses a call to another process exactly when that process depends on
      the caller, except when it does so directly and the two calls complement each
      other (one sends while the other only receives). */
  lemma DeadlockExact(i: Ipc, sends: bool, c: nat, d: nat)
    requires GraphInv(i) && c < |i.procs| && d < |i.procs| && c != d
    ensures Deadlock(i, sends, c, Ep(0, d)) != 0 <==>
            Reaches(WaitsFor(i), d, c) &&
            !(WaitsFor(i)[d] == Some(c) && (Sending in i.procs[d].rts) != sends)
  {
    DeadlockFromExact(i, sends, c, d, 1);
  }

  // ------------------------------------------------------------------ mini_send

  lemma DeliverLetterKeeps(s: State, c: nat, d: nat, content: Content)
    requires KernelInv(s) && c < |s.ipc.procs| && d < |s.ipc.procs| && content.Data?
    requires WillReceive(s.ipc.procs[d], s.ipc.procs[c].endpoint)
    ensures KernelInv(RtsUnset(s.(ipc := DeliverLetter(s.ipc, c, d, content)), d, {Receiving}))
  {
    var i := s.ipc;
    var i1 := DeliverLetter(i, c, d, content);
    var j := UnsetFlags(i1, d, {Receiving});
    assert WaitOk(i, d);
    HandedInv(i, j, d, Message(i.procs[c].endpoint, content));
    DeliverLetterInv(i, c, d, content);
    SameTablesInv(i, j);
    SameReady(i, i1);
    RtsUnsetSched(s.(ipc := i1), d, {Receiving});
  }

  lemma QueueLetterMessage(i: Ipc, c: nat, dst: Endpoint, content: Content)
    requires MessageInv(i) && c < |i.procs| && c != IDLE && i.procs[c].rts == {} && content.Data?
    requires NamesLive(i, dst) && dst.slot != c && !WillReceive(i.procs[dst.slot], i.procs[c].endpoint)
    requires !Reaches(WaitsFor(i), dst.slot, c)
    ensures MessageInv(QueueLetter(SetFlags(i, c, {Sending}), c, dst, content))
  {
    var j := QueueLetter(SetFlags(i, c, {Sending}), c, dst, content);
    QueuedCore(i, j, c, dst);
    QueuedGraph(i, j, c, dst);
    QueueLetterInv(i, c, dst, content);
    SameTablesInv(i, j);
    PrivsKept(i, j);
  }

  lemma QueueLetterKeeps(s: State, c: nat, dst: Endpoint, content: Content)
    requires KernelInv(s) && c < |s.ipc.procs| && c != IDLE && s.ipc.procs[c].rts == {}
    requires NamesLive(s.ipc, dst) && dst.slot != c && content.Data?
    requires !WillReceive(s.ipc.procs[dst.slot], s.ipc.procs[c].endpoint)
    requires Closed(WaitsFor(s.ipc)) && !Reaches(WaitsFor(s.ipc), dst.slot, c)
    ensures var s1 := RtsSet(s, c, {Sending});
            KernelInv(s1.(ipc := QueueLetter(s1.ipc, c, dst, content)))
  {
    hide MessageInv, SchedInv, Dequeue, Reaches;
    var s1 := RtsSet(s, c, {Sending});
    QueueLetterMessage(s.ipc, c, dst, content);
    RtsSetSched(s, c, {Sending});
    SameReady(s1.ipc, QueueLetter(s1.ipc, c, dst, content));
  }

  lemma MiniSendInv(s: State, c: nat, dst: Endpoint, content: Content, nonBlocking: bool, io: Access)
    requires KernelInv(s) && c < |s.ipc.procs| && c != IDLE && s.ipc.procs[c].rts == {}
    requires IsOkEndpoint(s.ipc, dst) && dst.slot != c && content.Data?
    requires Closed(WaitsFor(s.ipc))
    requires nonBlocking || WillReceive(s.ipc.procs[dst.slot], s.ipc.procs[c].endpoint)
             || !Reaches(WaitsFor(s.ipc), dst.slot, c)
    ensures KernelInv(MiniSend(s, c, dst, content, nonBlocking, io).0)
  {
    hide MessageInv, SchedInv, RtsSet, RtsUnset;
    var i := s.ipc;
    var d: nat := dst.slot;
    if io.sendMapped && NoEndpoint !in i.procs[d].rts {
      if WillReceive(i.procs[d], i.procs[c].endpoint) {
        if io.copied { DeliverLetterKeeps(s, c, d, content); }
      } else if !nonBlocking && io.copied {
        assert NamesLive(i, dst) by { OkIsLive(s, dst); }
        QueueLetterKeeps(s, c, dst, content);
      }
    }
  }

  lemma OkIsLive(s: State, e: Endpoint)
    requires KernelInv(s) && IsOkEndpoint(s.ipc, e) && NoEndpoint !in s.ipc.procs[e.slot].rts
    ensures NamesLive(s.ipc, e)
  {
    assert NamesOk(s.ipc, e.slot);
  }

  // --------------------------------------------------------------- mini_receive

  /** A search for ANY misses no pending notification. */
  lemma {:induction false} FindNotifyAny(privs: seq<Priv>, bits: set<nat>, chunk: nat)
    requires |privs| == NR_SYS_PROCS && chunk <= NR_SYS_CHUNKS
    ensures FindNotify(privs, bits, None, chunk).None? ==>
              forall id :: chunk * BITCHUNK_BITS <= id < NR_SYS_PROCS ==> id !in bits
    decreases NR_SYS_CHUNKS - chunk
  {
    if chunk < NR_SYS_CHUNKS {
      FindNotifyAny(privs, bits, chunk + 1);
    }
  }

  lemma TakeNotifyKeeps(s: State, c: nat, id: nat)
    requires KernelInv(s) && c < |s.ipc.procs| && c != IDLE && ReplyPend !in s.ipc.procs[c].misc
    requires Receiving !in s.ipc.procs[c].rts
    requires id < NR_SYS_PROCS && s.ipc.privs[id].owner.Some?
    ensures KernelInv(s.(ipc := TakeNotify(s.ipc, c, id)))
  {
    hide NameInv, QueueInv, WaitInv, GraphInv, AsyncInv, LetterInv, SchedInv;
    var i := s.ipc;
    var j := TakeNotify(i, c, id);
    assert i.procs[c].rts - {Receiving} == i.procs[c].rts;
    assert Handed(i, j, c, j.procs[c].deliverMsg) && FewerBits(i, j) && SameLetters(i, j) && SameTables(i, j);
    SameReady(i, j);
    hide CoreInv, GraphInv, PrivInv, AsyncInv, LetterInv, SchedInv, TakeNotify;
    HandedInv(i, j, c, j.procs[c].deliverMsg);
    SameLettersInv(i, j);
    SameTablesInv(i, j);
  }

  /** Signalling leaves the letters, the slots of processes that do not receive, and
      the queues alone. */
  ghost predicate SignalFrame(i: Ipc, j: Ipc) {
    && SameLetters(i, j)
    && forall p :: 0 <= p < |i.procs| && Receiving !in i.procs[p].rts ==>
         Receiving !in j.procs[p].rts && j.procs[p].deliverMsg == i.procs[p].deliverMsg
  }

  lemma NotifyFrame(s: State, c: nat, dst: Endpoint)
    requires StateShape(s) && c < |s.ipc.procs|
    ensures SignalFrame(s.ipc, MiniNotify(s, c, dst).0.ipc)
  {
  }

  lemma SigDelayDoneFrame(s: State, x: nat)
    requires StateShape(s) && x < |s.ipc.procs|
    ensures SignalFrame(s.ipc, SigDelayDone(s, x).ipc)
  {
    hide MiniNotify, Dequeue;
    var y := s.ipc.procs[x];
    var s1 := s.(ipc := WithProc(s.ipc, x, y.(misc := y.misc - {SigDelay})));
    if SIGNDELAY !in y.pending && Signaled !in y.rts {
      var z := s1.ipc.procs[x];
      var s2 := s1.(ipc := WithProc(s1.ipc, x, z.(pending := z.pending + {SIGNDELAY})));
      var s3 := RtsSet(s2, x, {Signaled, SigPending});
      var k := s3.ipc.procs[PM].privId;
      var v := s3.ipc.privs[k];
      var s4 := s3.(ipc := WithPriv(s3.ipc, k, v.(sigPending := v.sigPending + {SIGKSIG})));
      NotifyFrame(s4, SYSTEM, s3.ipc.procs[PM].endpoint);
      assert SignalFrame(s.ipc, s4.ipc);
    }
  }

  lemma UnlinkMessage(i: Ipc, c: nat, k: nat)
    requires MessageInv(i) && c < |i.procs| && Live(i.procs[c]) && k < |i.cq[c]|
    ensures MessageInv(Unlink(UnsetFlags(i, i.cq[c][k], {Sending}), c, k))
  {
    hide GraphInv, PrivInv, AsyncInv, LetterInv;
    var j := Unlink(UnsetFlags(i, i.cq[c][k], {Sending}), c, k);
    RemoveAtElements(i.cq[c], k);
    assert SameTables(i, j) && IpcShape(j) && Unqueued(i, j, c, k) && FewerBits(i, j);
    hide NameInv, QueueInv, WaitInv, SameTables, Unqueued, FewerBits;
    UnqueuedCore(i, j, c, k);
    UnqueuedGraph(i, j, c, k);
    UnlinkInv(i, c, k);
    SameTablesInv(i, j);
    PrivsKept(i, j);
  }

  /** c takes the letter of the k-th process queued with it. */
  lemma UnlinkKeeps(s: State, c: nat, k: nat)
    requires KernelInv(s) && c < |s.ipc.procs| && Live(s.ipc.procs[c]) && k < |s.ipc.cq[c]|
    ensures var s3 := RtsUnset(s, s.ipc.cq[c][k], {Sending});
            KernelInv(s3.(ipc := Unlink(s3.ipc, c, k)))
  {
    hide MessageInv, SchedInv, Enqueue;
    var x := s.ipc.cq[c][k];
    var s3 := RtsUnset(s, x, {Sending});
    UnlinkMessage(s.ipc, c, k);
    RtsUnsetSched(s, x, {Sending});
    SameReady(s3.ipc, Unlink(s3.ipc, c, k));
    RemoveAtElements(s.ipc.cq[c], k);
  }

  lemma HandLetter(s: State, c: nat, m: Message)
    requires KernelInv(s) && c < |s.ipc.procs| && c != IDLE
    requires Receiving !in s.ipc.procs[c].rts && Acceptable(s.ipc, c, m)
    ensures KernelInv(s.(ipc := QueueMess(s.ipc, c, m.source, m.content)))
  {
    var i := s.ipc;
    var j := QueueMess(i, c, m.source, m.content);
    assert i.procs[c].rts - {Receiving} == i.procs[c].rts;
    HandedInv(i, j, c, m);
    SameLettersInv(i, j);
    SameTablesInv(i, j);
    SameReady(i, j);
  }

  lemma TakeQueuedInv(s: State, c: nat, k: nat)
    requires KernelInv(s) && c < |s.ipc.procs| && c != IDLE && Live(s.ipc.procs[c]) && k < |s.ipc.cq[c]|
    requires Receiving !in s.ipc.procs[c].rts
    requires ReplyPend in s.ipc.procs[c].misc ==>
               s.ipc.procs[s.ipc.cq[c][k]].endpoint == s.ipc.procs[c].awaits
    ensures KernelInv(TakeQueued(s, c, k))
  {
    hide MessageInv, SchedInv, RtsUnset, SigDelayDone, Unlink, QueueMess;
    var x := s.ipc.cq[c][k];
    var y := s.ipc.procs[x];
    QueuedIsBusy(s, c, k);
    HandLetter(s, c, Message(y.endpoint, y.sendMsg));
    var s1 := s.(ipc := QueueMess(s.ipc, c, y.endpoint, y.sendMsg));
    HandLetterFrame(s.ipc, c, y.endpoint, y.sendMsg, x);
    if SigDelay in y.misc {
      SigDelayDoneInv(s1, x);
      SigDelayDoneFrame(s1, x);
      assert SameSend(s1.ipc.procs[c], SigDelayDone(s1, x).ipc.procs[c]);
      UnlinkKeeps(SigDelayDone(s1, x), c, k);
    } else {
      UnlinkKeeps(s1, c, k);
    }
  }

  lemma QueuedIsBusy(s: State, c: nat, k: nat)
    requires KernelInv(s) && c < |s.ipc.procs| && Live(s.ipc.procs[c]) && k < |s.ipc.cq[c]|
    ensures var x := s.ipc.cq[c][k];
            x < |s.ipc.procs| && x != IDLE && SlotFree !in s.ipc.procs[x].rts && s.ipc.procs[x].sendMsg.Data?
  {
    var x := s.ipc.cq[c][k];
    assert x in s.ipc.cq[c] && SendsTo(s.ipc, x, c) && NamesOk(s.ipc, x);
  }

  lemma HandLetterFrame(i: Ipc, c: nat, source: Endpoint, content: Content, x: nat)
    requires c < |i.procs| && x < |i.procs|
    ensures var j := QueueMess(i, c, source, content);
            && |j.procs| == |i.procs| && j.cq == i.cq
            && j.procs[x].rts == i.procs[x].rts && j.procs[c].rts == i.procs[c].rts
  {
  }

  /** c may start waiting for src. */
  ghost predicate CanWait(i: Ipc, c: nat, src: Endpoint)
    requires IpcShape(i) && GraphInv(i)
  {
    && c < |i.procs| && Live(i.procs[c])
    && Receiving !in i.procs[c].rts && DeliverMsg !in i.procs[c].misc
    && (ReplyPend in i.procs[c].misc ==> src == i.procs[c].awaits)
    && (if src == ANY then
          && i.cq[c] == [] && ReplyPend !in i.procs[c].misc && Sending !in i.procs[c].rts
          && (i.procs[c].privId != USER_PRIV_ID ==> i.privs[i.procs[c].privId].notifyPending == {})
        else
          && NamesLive(i, src) && src.slot !in i.cq[c]
          && (if Sending in i.procs[c].rts then src == i.procs[c].sendTo && ReplyPend in i.procs[c].misc
              else !Reaches(WaitsFor(i), src.slot, c)))
  }

  lemma WaitMessage(i: Ipc, c: nat, src: Endpoint)
    requires MessageInv(i) && c != IDLE && CanWait(i, c, src)
    ensures MessageInv(SetFlags(WithProc(i, c, i.procs[c].(getFrom := src)), c, {Receiving}))
  {
    var j := SetFlags(WithProc(i, c, i.procs[c].(getFrom := src)), c, {Receiving});
    WaitingCore(i, j, c, src);
    WaitingGraph(i, j, c, src);
    assert SameLetters(i, j) && SameTables(i, j);
    hide CoreInv, GraphInv, AsyncInv, LetterInv;
    SameLettersInv(i, j);
    SameTablesInv(i, j);
    PrivsKept(i, j);
  }

  lemma BlockReceiveKeeps(s: State, c: nat, src: Endpoint)
    requires KernelInv(s) && c != IDLE && CanWait(s.ipc, c, src)
    ensures KernelInv(BlockReceive(s, c, src))
  {
    WaitMessage(s.ipc, c, src);
    hide MessageInv, SchedInv, Dequeue, CanWait;
    var s1 := s.(ipc := WithProc(s.ipc, c, s.ipc.procs[c].(getFrom := src)));
    SameReady(s.ipc, s1.ipc);
    RtsSetSched(s1, c, {Receiving});
  }

  /** While c sends to d, d cannot be queued with c. */
  lemma NoCrossing(i: Ipc, c: nat)
    requires CoreInv(i) && GraphInv(i) && c < |i.procs| && Sending in i.procs[c].rts && Receiving !in i.procs[c].rts
    ensures i.procs[c].sendTo.Ep? && i.procs[c].sendTo.slot >= 0 && i.procs[c].sendTo.slot !in i.cq[c]
  {
    assert NamesOk(i, c);
    var d: nat, g := i.procs[c].sendTo.slot, WaitsFor(i);
    assert NamesOk(i, d);
    assert g[c] == Some(d);
    assert SendsTo(i, d, c) ==> g[d] == Some(c);
    assert Walk(g, c, 2) == if g[d].None? then None else Walk(g, g[d].value, 0);
  }

  /** What a caller of mini_receive must be: running, or with the send half of its
      SENDREC to src still pending. */
  ghost predicate MayReceive(s: State, c: nat, src: Endpoint) {
    && c < |s.ipc.procs| == |s.ipc.cq| && c != IDLE && DeliverMsg !in s.ipc.procs[c].misc
    && Live(s.ipc.procs[c]) && Receiving !in s.ipc.procs[c].rts
    && (src != ANY ==> IsOkEndpoint(s.ipc, src))
    && (if Sending in s.ipc.procs[c].rts then src == s.ipc.procs[c].sendTo && ReplyPend in s.ipc.procs[c].misc
        else src != ANY && src.slot != c && src.slot !in s.ipc.cq[c] ==>
               Closed(WaitsFor(s.ipc)) && !Reaches(WaitsFor(s.ipc), src.slot, c))
    && (if ReplyPend in s.ipc.procs[c].misc then src == s.ipc.procs[c].awaits && src != ANY else true)
  }

  /** Nothing was found: c blocks. */
  lemma ReceiveBlocks(s: State, c: nat, src: Endpoint)
    requires KernelInv(s) && MayReceive(s, c, src) && (src != ANY ==> src.slot != c)
    requires src != ANY ==> NoEndpoint !in s.ipc.procs[src.slot].rts
    requires Sending !in s.ipc.procs[c].rts ==> if src == ANY then s.ipc.cq[c] == [] else src.slot !in s.ipc.cq[c]
    requires src == ANY ==> FindNotify(s.ipc.privs, s.ipc.privs[s.ipc.procs[c].privId].notifyPending, None, 0).None?
    ensures KernelInv(BlockReceive(s, c, src))
  {
    var i := s.ipc;
    if src != ANY {
      OkIsLive(s, src);
      if Sending in i.procs[c].rts { NoCrossing(i, c); }
    } else {
      assert PrivOk(i, c);
      var bits := i.privs[i.procs[c].privId].notifyPending;
      FindNotifyAny(i.privs, bits, 0);
      assert bits == {};
    }
    BlockReceiveKeeps(s, c, src);
  }

  lemma CallerHasBits(s: State, c: nat)
    requires KernelInv(s) && c < |s.ipc.procs| && Live(s.ipc.procs[c])
    ensures forall id :: id in s.ipc.privs[s.ipc.procs[c].privId].notifyPending ==>
              id < NR_SYS_PROCS && s.ipc.privs[id].owner.Some?
  {
    assert PrivOk(s.ipc, c);
  }

  /** Nothing but tables and MF_ASYNMSG changed on the way to blocking. */
  lemma ToldBlocks(s: State, j: Ipc, c: nat, src: Endpoint)
    requires KernelInv(s) && MayReceive(s, c, src) && Told(s.ipc, j, c) && IpcShape(j) && MessageInv(j)
    requires src != ANY ==> src.slot != c
    requires src != ANY ==> NoEndpoint !in s.ipc.procs[src.slot].rts
    requires Sending !in s.ipc.procs[c].rts && if src == ANY then s.ipc.cq[c] == [] else src.slot !in s.ipc.cq[c]
    requires src == ANY ==> FindNotify(s.ipc.privs, s.ipc.privs[s.ipc.procs[c].privId].notifyPending, None, 0).None?
    ensures KernelInv(BlockReceive(s.(ipc := j), c, src))
  {
    hide SchedInv, LetterInv, AsyncInv;
    var s1 := s.(ipc := j);
    ToldKeeps(s, j, c);
    QuietGraph(s.ipc, j);
    if src == ANY {
      FindNotifyFrame(s.ipc.privs, j.privs, s.ipc.privs[s.ipc.procs[c].privId].notifyPending, None, 0);
    }
    assert MayReceive(s1, c, src);
    ReceiveBlocks(s1, c, src);
  }

  lemma ToldKeeps(s: State, j: Ipc, c: nat)
    requires KernelInv(s) && Told(s.ipc, j, c) && IpcShape(j) && MessageInv(j)
    ensures KernelInv(s.(ipc := j))
  {
    SameReady(s.ipc, j);
  }

  lemma {:induction false} FindNotifyFrame(v: seq<Priv>, w: seq<Priv>, bits: set<nat>, src: Option<nat>, chunk: nat)
    requires |v| == |w| == NR_SYS_PROCS && chunk <= NR_SYS_CHUNKS
    requires forall k :: 0 <= k < |v| ==> v[k].owner == w[k].owner
    ensures FindNotify(v, bits, src, chunk) == FindNotify(w, bits, src, chunk)
    decreases NR_SYS_CHUNKS - chunk
  {
    if chunk < NR_SYS_CHUNKS {
      FindNotifyFrame(v, w, bits, src, chunk + 1);
    }
  }

  ghost predicate OwnsBits(s: State, c: nat)
    requires StateShape(s) && c < |s.ipc.procs|
  {
    forall id :: id in s.ipc.privs[s.ipc.procs[c].privId].notifyPending ==>
      id < NR_SYS_PROCS && s.ipc.privs[id].owner.Some?
  }

  /** mini_receive finds neither a notification nor a queued sender. */
  ghost predicate Fruitless(s: State, c: nat, src: Endpoint)
    requires StateShape(s) && c < |s.ipc.procs| && (src != ANY ==> src.Ep? && 0 <= src.slot < |s.ipc.procs|)
  {
    var i := s.ipc;
    var want: Option<nat> := if src == ANY then None else Some(src.slot);
    && (ReplyPend in i.procs[c].misc || FindNotify(i.privs, i.privs[i.procs[c].privId].notifyPending, want, 0).None?)
    && FindCaller(i.cq[c], want, 0) == |i.cq[c]|
  }

  /** Going on from there is safe: no fault makes it lose track of an element of a table, and
      it does not block on itself. */
  ghost predicate TablesSafe(s: State, c: nat, src: Endpoint, nonBlocking: bool, io: Access)
    requires StateShape(s) && c < |s.ipc.procs| && (src != ANY ==> src.Ep? && 0 <= src.slot < |s.ipc.procs|)
  {
    && AsyncSafe(s.ipc, c, if src == ANY then None else Some(src.slot), io)
    && (src != ANY && src.slot == c ==> nonBlocking)
  }

  /** All of mini_receive is safe. */
  ghost predicate ReceiveSafe(s: State, c: nat, src: Endpoint, nonBlocking: bool, io: Access)
    requires StateShape(s) && c < |s.ipc.procs| && (src != ANY ==> src.Ep? && 0 <= src.slot < |s.ipc.procs|)
  {
    (&& io.receiveMapped && !(src != ANY && NoEndpoint in s.ipc.procs[src.slot].rts)
     && Sending !in s.ipc.procs[c].rts && Fruitless(s, c, src)) ==>
      TablesSafe(s, c, src, nonBlocking, io)
  }

  lemma ReceiveNowInv(s: State, c: nat, src: Endpoint, nonBlocking: bool, io: Access)
    requires KernelInv(s) && MayReceive(s, c, src) && Sending !in s.ipc.procs[c].rts
    requires src != ANY ==> NoEndpoint !in s.ipc.procs[src.slot].rts
    requires OwnsBits(s, c) && (Fruitless(s, c, src) ==> TablesSafe(s, c, src, nonBlocking, io))
    ensures KernelInv(ReceiveNow(s, c, src, nonBlocking, io).0)
  {
    hide MessageInv, SchedInv, BlockReceive, TakeQueued, TakeNotify, ReceiveAsync, Told, AsyncHanded, GraphInv,
      WaitsFor, Reaches;
    var i := s.ipc;
    var want: Option<nat> := if src == ANY then None else Some(src.slot);
    var note := if ReplyPend in i.procs[c].misc then None
                else FindNotify(i.privs, i.privs[i.procs[c].privId].notifyPending, want, 0);
    var k := FindCaller(i.cq[c], want, 0);
    if note.Some? {
      TakeNotifyKeeps(s, c, note.value);
    } else if k < |i.cq[c]| {
      TakeQueuedInv(s, c, k);
    } else {
      ReceiveAsyncEffect(i, c, want, io);
      ReceiveAsyncInv(i, c, want, io);
      var (j, code) := ReceiveAsync(i, c, want, io);
      if code == OK {
        AsyncHandedSched(s, j, c, if want.Some? then i.procs[want.value].endpoint else j.procs[c].deliverMsg.source);
      } else if nonBlocking {
        ToldKeeps(s, j, c);
      } else {
        ToldBlocks(s, j, c, src);
      }
    }
  }

  lemma AsyncHandedSched(s: State, j: Ipc, c: nat, source: Endpoint)
    requires KernelInv(s) && AsyncHanded(s.ipc, j, c, source) && MessageInv(j) && IpcShape(j)
    requires Receiving !in s.ipc.procs[c].rts
    ensures KernelInv(s.(ipc := j))
  {
    assert s.ipc.procs[c].rts - {Receiving} == s.ipc.procs[c].rts;
    SameReady(s.ipc, j);
  }

  lemma MiniReceiveInv(s: State, c: nat, src: Endpoint, nonBlocking: bool, io: Access)
    requires KernelInv(s) && MayReceive(s, c, src) && OwnsBits(s, c) && ReceiveSafe(s, c, src, nonBlocking, io)
    ensures KernelInv(MiniReceive(s, c, src, nonBlocking, io).0)
  {
    assert NamesOk(s.ipc, c);
    hide MessageInv, SchedInv, BlockReceive, ReceiveNow, GraphInv, WaitsFor, Reaches, Fruitless, TablesSafe;
    if io.receiveMapped && !(src != ANY && NoEndpoint in s.ipc.procs[src.slot].rts) {
      if Sending !in s.ipc.procs[c].rts {
        ReceiveNowInv(s, c, src, nonBlocking, io);
      } else if !nonBlocking {
        ReceiveBlocks(s, c, src);
      }
    }
  }

  /** A process that waits for itself is a cycle of one. */
  lemma SelfBlocks(s: State, c: nat, src: Endpoint)
    requires StateShape(s) && c < |s.ipc.procs| && src.Ep? && src.slot == c
    ensures !Acyclic(WaitsFor(BlockReceive(s, c, src).ipc))
  {
    hide Dequeue;
    var g := WaitsFor(BlockReceive(s, c, src).ipc);
    assert g[c] == Some(c);
    if Closed(g) { assert Walk(g, c, 1) == Walk(g, c, 0); }
  }

  /** Blocking changes nothing about the tables. */
  lemma BlockTables(s: State, c: nat, src: Endpoint)
    requires StateShape(s) && c < |s.ipc.procs|
    ensures AsyncInv(BlockReceive(s, c, src).ipc) ==> AsyncInv(s.ipc)
  {
    hide Dequeue;
    if AsyncInv(BlockReceive(s, c, src).ipc) { SameTablesInv(BlockReceive(s, c, src).ipc, s.ipc); }
  }

  lemma InvParts(s: State)
    ensures KernelInv(s) ==> Acyclic(WaitsFor(s.ipc)) && AsyncInv(s.ipc)
  {
  }

  lemma UnsafeBreaks(s: State, c: nat, src: Endpoint, nonBlocking: bool, io: Access)
    requires KernelInv(s) && MayReceive(s, c, src) && OwnsBits(s, c) && !ReceiveSafe(s, c, src, nonBlocking, io)
    ensures !KernelInv(MiniReceive(s, c, src, nonBlocking, io).0)
    ensures src != ANY && src.slot == c && AsyncSafe(s.ipc, c, Some(c), io) ==>
              !Acyclic(WaitsFor(MiniReceive(s, c, src, nonBlocking, io).0.ipc))
  {
    hide MessageInv, SchedInv, BlockReceive, ReceiveAsync, AsyncSafe, FindNotify, FindCaller, AsyncInv, Acyclic,
      WaitsFor;
    var want: Option<nat> := if src == ANY then None else Some(src.slot);
    ReceiveAsyncExact(s.ipc, c, want, io);
    ReceiveAsyncShape(s.ipc, c, want, io);
    var (j, code) := ReceiveAsync(s.ipc, c, want, io);
    var s1 := s.(ipc := j);
    InvParts(s1);
    InvParts(BlockReceive(s1, c, src));
    BlockTables(s1, c, src);
    if src != ANY && src.slot == c {
      SelfBlocks(s1, c, src);
      NothingFromSelf(s, c, io);
    }
  }

  /** Nothing is queued or sent by a process to itself. */
  lemma NothingFromSelf(s: State, c: nat, io: Access)
    requires KernelInv(s) && c < |s.ipc.procs| && Live(s.ipc.procs[c])
    ensures FindCaller(s.ipc.cq[c], Some(c), 0) == |s.ipc.cq[c]|
    ensures ReceiveAsync(s.ipc, c, Some(c), io) == (s.ipc, EAGAIN) && AsyncSafe(s.ipc, c, Some(c), io)
  {
    assert NamesOk(s.ipc, c) && !SendsTo(s.ipc, c, c);
    assert c !in s.ipc.cq[c];
  }

  /** mini_receive keeps the kernel invariant exactly if it is safe: if it finds nothing else,
      then no fault makes it lose track of an element of a table, and it does not block on
      itself. */
  lemma MiniReceiveExact(s: State, c: nat, src: Endpoint, nonBlocking: bool, io: Access)
    requires KernelInv(s) && MayReceive(s, c, src) && OwnsBits(s, c)
    ensures KernelInv(MiniReceive(s, c, src, nonBlocking, io).0) <==> ReceiveSafe(s, c, src, nonBlocking, io)
  {
    hide MiniReceive, ReceiveSafe, MessageInv, SchedInv, OwnsBits;
    if ReceiveSafe(s, c, src, nonBlocking, io) {
      MiniReceiveInv(s, c, src, nonBlocking, io);
    } else {
      UnsafeBreaks(s, c, src, nonBlocking, io);
    }
  }

  // ------------------------------------------------------------------- sys_call

  /** A trap: call number, endpoint, message body, SENDA table, memory accesses. */
  datatype Trap = Trap(callNr: int, ep: Endpoint, body: int, table: seq<AsynEntry>, io: Access)

  function MarkReply(i: Ipc, c: nat, e: Endpoint): Ipc
    requires c < |i.procs|
  {
    WithProc(i, c, i.procs[c].(misc := i.procs[c].misc + {ReplyPend}, awaits := e))
  }

  function ClearReply(i: Ipc, c: nat): Ipc
    requires c < |i.procs|
  {
    WithProc(i, c, i.procs[c].(misc := i.procs[c].misc - {ReplyPend}))
  }

  /** The checks sys_call makes before it acts, in its order; OK means go ahead.  For
      SENDA the third test of the source looks at a slot it never set; it is taken to
      pass. */
  ghost function CheckTrap(s: State, t: Trap): Code
    requires StateShape(s) && GraphInv(s.ipc)
  {
    var i, c := s.ipc, s.sched.procPtr;
    var named := t.callNr != SENDA && t.ep != ANY;
    if t.callNr != SENDA && t.ep == ANY && t.callNr != RECEIVE then EINVAL
    else if named && !IsOkEndpoint(i, t.ep) then EDEADSRCDST
    else if named && t.callNr != RECEIVE && !MaySendTo(i, c, t.ep.slot) then ECALLDENIED
    else if t.callNr < 0 || t.callNr >= 32 then ETRAPDENIED
    else if t.callNr !in i.privs[i.procs[c].privId].trapMask then ETRAPDENIED
    else if named && t.ep.slot < NR_TASKS && t.callNr != SENDREC && t.callNr != RECEIVE then ETRAPDENIED
    else if t.callNr == SENDA && |t.table| > 16 * |i.procs| then EDOM
    else if t.callNr in {SEND, SENDREC, RECEIVE} && Deadlock(i, t.callNr != RECEIVE, c, t.ep) != 0 then ELOCKED
    else OK
  }

  ghost function SysCall(s: State, t: Trap): (r: (State, Code))
    requires KernelInv(s) && Live(s.ipc.procs[s.sched.procPtr])
  {
    var c := s.sched.procPtr;
    var check := CheckTrap(s, t);
    CallerHasBits(s, c);
    if check != OK then (s, check)
    else if t.callNr == SENDREC then
      var (s1, code) := MiniSend(s.(ipc := MarkReply(s.ipc, c, t.ep)), c, t.ep, Data(t.body), false, t.io);
      assert NamesOk(s.ipc, t.ep.slot);
      SentEndpoint(s.(ipc := MarkReply(s.ipc, c, t.ep)), c, t.ep, Data(t.body), t.io);
      if code != OK then (s1, code) else MiniReceive(s1, c, t.ep, false, t.io)
    else if t.callNr == SEND then MiniSend(s, c, t.ep, Data(t.body), false, t.io)
    else if t.callNr == RECEIVE then MiniReceive(s.(ipc := ClearReply(s.ipc, c)), c, t.ep, false, t.io)
    else if t.callNr == NOTIFY then MiniNotify(s, c, t.ep)
    else if t.callNr == SENDNB then MiniSend(s, c, t.ep, Data(t.body), true, t.io)
    else if t.callNr == SENDA then MiniSenda(s, c, t.table, t.io)
    else (s, EBADCALL)
  }

  /** mini_send changes no endpoint and no pending bit. */
  lemma SentEndpoint(s: State, c: nat, dst: Endpoint, content: Content, io: Access)
    requires StateShape(s) && c < |s.ipc.procs| && IsOkEndpoint(s.ipc, dst)
    requires SlotFree in s.ipc.procs[dst.slot].rts ==> s.ipc.procs[dst.slot].rts == {SlotFree}
    ensures var s1 := MiniSend(s, c, dst, content, false, io).0;
            IsOkEndpoint(s1.ipc, dst) && s1.ipc.privs == s.ipc.privs
            && s1.ipc.procs[c].privId == s.ipc.procs[c].privId
  {
  }

  // ------------------------------------------------------- sys_call keeps all of it

  /** The process that traps is running, has an empty slot, and is not IDLE. */
  ghost predicate CanTrap(s: State) {
    && s.sched.procPtr < |s.ipc.procs|
    && var x := s.ipc.procs[s.sched.procPtr];
    s.sched.procPtr != IDLE && x.rts == {} && DeliverMsg !in x.misc
  }

  /** The receive half of a trap, if it comes to that, is safe. */
  ghost predicate TrapSafe(s: State, t: Trap)
    requires KernelInv(s) && CanTrap(s)
  {
    var c := s.sched.procPtr;
    CheckTrap(s, t) == OK ==>
      if t.callNr == RECEIVE then ReceiveSafe(s.(ipc := ClearReply(s.ipc, c)), c, t.ep, false, t.io)
      else if t.callNr == SENDREC then
        var (s1, code) := MiniSend(s.(ipc := MarkReply(s.ipc, c, t.ep)), c, t.ep, Data(t.body), false, t.io);
        code == OK ==> ReceiveSafe(s1, c, t.ep, false, t.io)
      else true
  }

  lemma MarkReplyInv(s: State, c: nat, e: Endpoint)
    requires KernelInv(s) && c < |s.ipc.procs| && s.ipc.procs[c].rts == {} && DeliverMsg !in s.ipc.procs[c].misc
    ensures KernelInv(s.(ipc := MarkReply(s.ipc, c, e))) && KernelInv(s.(ipc := ClearReply(s.ipc, c)))
    ensures WaitsFor(MarkReply(s.ipc, c, e)) == WaitsFor(s.ipc) == WaitsFor(ClearReply(s.ipc, c))
  {
    var x := s.ipc.procs[c];
    ReplyFieldsInv(s, c, x.(misc := x.misc + {ReplyPend}, awaits := e));
    ReplyFieldsInv(s, c, x.(misc := x.misc - {ReplyPend}));
  }

  lemma ReplyFieldsInv(s: State, c: nat, y: Proc)
    requires KernelInv(s) && c < |s.ipc.procs| && s.ipc.procs[c].rts == {} && DeliverMsg !in s.ipc.procs[c].misc
    requires y == s.ipc.procs[c].(misc := y.misc, awaits := y.awaits)
    requires DeliverMsg !in y.misc && (AsynMsg in s.ipc.procs[c].misc ==> AsynMsg in y.misc)
    ensures KernelInv(s.(ipc := WithProc(s.ipc, c, y))) && WaitsFor(WithProc(s.ipc, c, y)) == WaitsFor(s.ipc)
  {
    var i, j := s.ipc, WithProc(s.ipc, c, y);
    ReplyCore(i, c, y);
    PrivsKept(i, j);
    hide CoreInv, GraphInv, PrivInv, AsyncInv, LetterInv, SchedInv;
    SameLettersInv(i, j);
    SameTablesInv(i, j);
    SameReady(i, j);
  }

  lemma ReplyCore(i: Ipc, c: nat, y: Proc)
    requires CoreInv(i) && GraphInv(i) && c < |i.procs| && i.procs[c].rts == {} && DeliverMsg !in i.procs[c].misc
    requires y == i.procs[c].(misc := y.misc, awaits := y.awaits) && DeliverMsg !in y.misc
    ensures var j := WithProc(i, c, y); CoreInv(j) && GraphInv(j) && WaitsFor(j) == WaitsFor(i)
  {
    var j := WithProc(i, c, y);
    forall e ensures NamesLive(i, e) <==> NamesLive(j, e) {}
    forall p | 0 <= p < |j.procs| ensures NamesOk(j, p) && WaitOk(j, p) {
      assert NamesOk(i, p) && WaitOk(i, p);
    }
    assert WaitsFor(j) == WaitsFor(i);
    assert forall q, p: nat :: 0 <= q < |i.procs| && p < |i.procs| ==> (SendsTo(i, p, q) <==> SendsTo(j, p, q));
  }

  /** What deadlock() returning 0 means to the caller c of d. */
  lemma DeadlockMeans(i: Ipc, sends: bool, c: nat, e: Endpoint)
    requires CoreInv(i) && GraphInv(i) && c < |i.procs| && e.Ep? && 0 <= e.slot < |i.procs| && e.slot != c
    requires Deadlock(i, sends, c, e) == 0
    ensures !Reaches(WaitsFor(i), e.slot, c)
            || (if sends then WillReceive(i.procs[e.slot], i.procs[c].endpoint) else e.slot in i.cq[c])
  {
    var d: nat := e.slot;
    DeadlockExact(i, sends, c, d);
    assert NamesOk(i, d) && NamesOk(i, c);
    if Reaches(WaitsFor(i), d, c) {
      assert WaitsFor(i)[d] == Some(c);
      assert sends || SendsTo(i, d, c);
    }
  }

  /** A permitted destination is never the caller itself. */
  lemma NeverSelf(i: Ipc, c: nat, d: nat)
    requires IpcShape(i) && PrivInv(i) && c < |i.procs| && d < |i.procs| && MaySendTo(i, c, d)
    ensures d != c
  {
  }

  lemma GraphClosed(s: State)
    requires KernelInv(s)
    ensures GraphInv(s.ipc) && Closed(WaitsFor(s.ipc))
  {
  }

  /** After a successful SEND half the caller may go on to receive. */
  lemma SentMayReceive(s: State, c: nat, dst: Endpoint, content: Content, io: Access)
    requires KernelInv(s) && c < |s.ipc.procs| && c != IDLE && s.ipc.procs[c].rts == {}
    requires DeliverMsg !in s.ipc.procs[c].misc && ReplyPend in s.ipc.procs[c].misc && s.ipc.procs[c].awaits == dst
    requires IsOkEndpoint(s.ipc, dst) && dst.slot != c
    requires MiniSend(s, c, dst, content, false, io).1 == OK
    requires KernelInv(MiniSend(s, c, dst, content, false, io).0)
    ensures MayReceive(MiniSend(s, c, dst, content, false, io).0, c, dst)
  {
    hide MessageInv, SchedInv;
    var s1 := MiniSend(s, c, dst, content, false, io).0;
    GraphClosed(s1);
    SentEndpoint(s, c, dst, content, io) by { OkSlot(s, dst); }
    if Sending !in s1.ipc.procs[c].rts {
      assert WaitsFor(s1.ipc)[dst.slot].None?;
      Isolated(WaitsFor(s1.ipc), dst.slot, c);
    }
  }

  lemma OkSlot(s: State, e: Endpoint)
    requires KernelInv(s) && IsOkEndpoint(s.ipc, e)
    ensures SlotFree in s.ipc.procs[e.slot].rts ==> s.ipc.procs[e.slot].rts == {SlotFree}
  {
    assert NamesOk(s.ipc, e.slot);
  }

  lemma Isolated(g: Graph, x: nat, c: nat)
    requires Closed(g) && x < |g| && g[x].None? && x != c
    ensures !Reaches(g, x, c)
  {
    forall k: nat ensures Walk(g, x, k) != Some(c) {}
  }

  /** Both halves of a SENDREC keep the invariant. */
  lemma SendRecInv(s: State, t: Trap)
    requires KernelInv(s) && CanTrap(s) && t.callNr == SENDREC && CheckTrap(s, t) == OK
    ensures KernelInv(SysCall(s, t).0) <==> TrapSafe(s, t)
    ensures var s0 := s.(ipc := MarkReply(s.ipc, s.sched.procPtr, t.ep));
            KernelInv(s0) && KernelInv(MiniSend(s0, s.sched.procPtr, t.ep, Data(t.body), false, t.io).0)
  {
    hide SchedInv, QueueInv, WaitInv, AsyncInv, LetterInv, ReceiveSafe;
    var c := s.sched.procPtr;
    var s0 := s.(ipc := MarkReply(s.ipc, c, t.ep));
    MarkReplyInv(s, c, t.ep);
    NeverSelf(s.ipc, c, t.ep.slot);
    assert NamesOk(s.ipc, t.ep.slot);
    DeadlockMeans(s.ipc, true, c, t.ep);
    SendRecCore(s0, c, t);
    CallerHasBits(s, c);
  }

  lemma SendRecCore(s0: State, c: nat, t: Trap)
    requires KernelInv(s0) && c < |s0.ipc.procs| && c != IDLE && s0.ipc.procs[c].rts == {}
    requires DeliverMsg !in s0.ipc.procs[c].misc && ReplyPend in s0.ipc.procs[c].misc && s0.ipc.procs[c].awaits == t.ep
    requires IsOkEndpoint(s0.ipc, t.ep) && t.ep.slot != c && Closed(WaitsFor(s0.ipc))
    requires WillReceive(s0.ipc.procs[t.ep.slot], s0.ipc.procs[c].endpoint)
             || !Reaches(WaitsFor(s0.ipc), t.ep.slot, c)
    ensures var (s1, code) := MiniSend(s0, c, t.ep, Data(t.body), false, t.io);
            KernelInv(s1) && (code == OK ==> OwnsBits(s1, c) && IsOkEndpoint(s1.ipc, t.ep)) &&
            (code == OK ==>
               (KernelInv(MiniReceive(s1, c, t.ep, false, t.io).0) <==> ReceiveSafe(s1, c, t.ep, false, t.io)))
  {
    hide MessageInv, SchedInv, MiniSend, MiniReceive, Reaches, WaitsFor, MayReceive, ReceiveSafe;
    MiniSendInv(s0, c, t.ep, Data(t.body), false, t.io);
    var (s1, code) := MiniSend(s0, c, t.ep, Data(t.body), false, t.io);
    SentEndpoint(s0, c, t.ep, Data(t.body), t.io) by { OkSlot(s0, t.ep); }
    if code == OK {
      SentMayReceive(s0, c, t.ep, Data(t.body), t.io);
      CallerHasBits(s0, c);
      MiniReceiveExact(s1, c, t.ep, false, t.io);
    }
  }

  lemma ReceiveMay(s: State, t: Trap)
    requires KernelInv(s) && CanTrap(s) && t.callNr == RECEIVE && CheckTrap(s, t) == OK
    ensures MayReceive(s.(ipc := ClearReply(s.ipc, s.sched.procPtr)), s.sched.procPtr, t.ep)
  {
    var c := s.sched.procPtr;
    MarkReplyInv(s, c, t.ep);
    if t.ep != ANY {
      assert NamesOk(s.ipc, t.ep.slot) && NamesOk(s.ipc, c);
      if t.ep.slot != c { DeadlockMeans(s.ipc, false, c, t.ep); }
    }
  }

  lemma ReceiveInv(s: State, t: Trap)
    requires KernelInv(s) && CanTrap(s) && t.callNr == RECEIVE && CheckTrap(s, t) == OK
    ensures KernelInv(SysCall(s, t).0) <==> TrapSafe(s, t)
  {
    hide MessageInv, SchedInv, MiniReceive, MayReceive, Deadlock, ReceiveSafe;
    var c := s.sched.procPtr;
    var s0 := s.(ipc := ClearReply(s.ipc, c));
    GraphClosed(s);
    MarkReplyInv(s, c, t.ep);
    ReceiveMay(s, t);
    CallerHasBits(s, c);
    MiniReceiveExact(s0, c, t.ep, false, t.io);
  }

  lemma SendInv(s: State, t: Trap)
    requires KernelInv(s) && CanTrap(s) && t.callNr in {SEND, SENDNB} && CheckTrap(s, t) == OK
    ensures KernelInv(SysCall(s, t).0)
  {
    var c := s.sched.procPtr;
    NeverSelf(s.ipc, c, t.ep.slot);
    if t.callNr == SEND {
      DeadlockMeans(s.ipc, true, c, t.ep);
    }
    MiniSendInv(s, c, t.ep, Data(t.body), t.callNr == SENDNB, t.io);
  }

  /** Every trap keeps the whole kernel invariant exactly if its receive half is safe; a trap
      without one always does. */
  lemma SysCallExact(s: State, t: Trap)
    requires KernelInv(s) && CanTrap(s)
    ensures KernelInv(SysCall(s, t).0) <==> TrapSafe(s, t)
  {
    hide MessageInv, SchedInv, MiniSend, MiniReceive, MiniNotify, MiniSenda, MarkReply, ClearReply, ReceiveSafe;
    var c := s.sched.procPtr;
    GraphClosed(s);
    if CheckTrap(s, t) == OK {
      if t.callNr == SENDREC {
        SendRecInv(s, t);
      } else if t.callNr == SEND || t.callNr == SENDNB {
        SendInv(s, t);
      } else if t.callNr == RECEIVE {
        ReceiveInv(s, t);
      } else if t.callNr == NOTIFY {
        MiniNotifyInv(s, c, t.ep);
      } else if t.callNr == SENDA {
        MiniSendaInv(s, c, t.table, t.io);
      }
    }
  }
}
