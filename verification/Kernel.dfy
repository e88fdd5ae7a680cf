/** The kernel as kernel/proc.c and kernel/system.c have it: one process table and one
    privilege table, changed in place, with linked ready and caller queues.  Every method
    is proved to do what the function of the same name in Ipc, Syscalls, Lifecycle or
    KernelSteps says. */
module Kernel {
  import opened KernelTypes
  import opened LinkedLists
  import opened Scheduler
  import opened WaitGraph
  import opened Ipc
  import opened IpcInv
  import opened Letters
  import opened AsyncSends
  import opened KernelOps
  import opened SendaOps
  import opened Syscalls
  import opened Lifecycle
  import opened KernelSteps
  import opened Boot
  import opened Forking
  import opened Progress
  import Masks
  import QA = QueueAudit
  import Spec = Ipc
  import RQ = ReadyQueues
  import CQ = CallerQueues

  /** Queue heads are stale for exactly the processes that cannot be sent to. */
  ghost predicate StaleOk(proc: seq<Proc>, stale: set<nat>) {
    forall q :: 0 <= q < |proc| ==> (q in stale <==> !Live(proc[q]))
  }

  ghost function Dead(proc: seq<Proc>): set<nat> {
    set q: nat | q < |proc| && !Live(proc[q])
  }

  /** The letter of c reaches the waiting d at once. */
  ghost function SentDirectly(s: State, c: nat, d: nat, content: Content): (r: State)
    requires StateShape(s) && c < |s.ipc.procs| && d < |s.ipc.procs|
    ensures StateShape(r)
  {
    Spec.RtsUnset(s.(ipc := DeliverLetter(s.ipc, c, d, content)), d, {Receiving})
  }

  class Kernel {
    var proc: seq<Proc>
    var priv: seq<Priv>
    const ready: RQ.ReadyQueues
    const callers: CQ.CallerQueues
    /** What was sent and delivered so far; the kernel itself never reads it. */
    var hist: History

    ghost function Abs(): State
      reads this, ready, callers
    {
      State(Ipc(proc, priv, callers.cq, hist), ready.Abs())
    }

    /** The links are right, and the ready lists hold the runnable processes. */
    ghost predicate Valid()
      reads this, ready, callers
    {
      && ready.Valid() && callers.Valid()
      && StateShape(Abs()) && StaleOk(proc, callers.stale)
      && SchedInv(ready.Abs(), Ready(Abs().ipc))
    }

    /** The start of main(): cleared tables. */
    constructor Cleared(n: nat)
      requires n >= NR_BOOT_PROCS
      ensures ready.Valid() && callers.Valid() && callers.stale == {} && Abs() == Blank(n)
      ensures fresh(ready) && fresh(callers)
    {
      proc := seq(n, p requires 0 <= p < n => FreeProc(p));
      priv := seq(NR_SYS_PROCS, k => Priv(None, {}, {}, {}, {}, {}, {}, [], 0));
      ready := new RQ.ReadyQueues(n);
      callers := new CQ.CallerQueues(n);
      hist := History([], [], [], [], 0, []);
    }

    /** isokendpt_f(). */
    predicate OkEndpoint(e: Endpoint)
      reads this
    {
      e.Ep? && 0 <= e.slot < |proc| && !Empty(proc[e.slot]) && proc[e.slot].endpoint == e
    }

    predicate Permitted(c: nat, d: nat)
      requires c < |proc| && d < |proc| && proc[c].privId < |priv|
      reads this
    {
      proc[d].privId in priv[proc[c].privId].ipcTo
    }

    // ------------------------------------------------------------- flag changes

    method RtsSet(p: nat, f: set<RtsFlag>)
      requires Valid() && p < |proc| && p != IDLE && f != {} && SlotFree !in f && NoEndpoint !in f
      modifies this`proc, ready
      ensures Valid() && Abs() == Spec.RtsSet(old(Abs()), p, f)
    {
      hide SchedInv, ready.Valid, callers.Valid, Dequeue;
      SetFlag(p, f);
    }

    /** All that Valid() says except which queues are stale. */
    ghost predicate Sound()
      reads this, ready, callers
    {
      ready.Valid() && callers.Valid() && StateShape(Abs()) && SchedInv(ready.Abs(), Ready(Abs().ipc))
    }

    /** The body of RTS_SET. */
    method SetFlag(p: nat, f: set<RtsFlag>)
      requires Sound() && p < |proc| && p != IDLE && f != {}
      modifies this`proc, ready
      ensures Sound() && Abs() == Spec.RtsSet(old(Abs()), p, f)
    {
      RtsSetSched(Abs(), p, f);
      if proc[p].rts == {} {
        ready.Dequeue(p);
      }
      proc := proc[p := proc[p].(rts := proc[p].rts + f)];
    }

    method RtsUnset(p: nat, f: set<RtsFlag>)
      requires Valid() && p < |proc| && SlotFree !in f && NoEndpoint !in f
      modifies this`proc, ready
      ensures Valid() && Abs() == Spec.RtsUnset(old(Abs()), p, f)
    {
      hide callers.Valid, HeadsOk, Enqueue;
      RtsUnsetSched(Abs(), p, f);
      var rts := proc[p].rts;
      proc := proc[p := proc[p].(rts := rts - f)];
      if rts != {} && proc[p].rts == {} {
        assert p !in Ready(old(Abs()).ipc);
        ready.Enqueue(p);
      }
    }

    /** Assign to fields of a process that are not its flags. */
    method Put(p: nat, x: Proc)
      requires Valid() && p < |proc| && x.rts == proc[p].rts && x.privId < NR_SYS_PROCS
      modifies this`proc
      ensures Valid() && Abs() == old(Abs()).(ipc := WithProc(old(Abs()).ipc, p, x))
    {
      SameReady(Abs().ipc, WithProc(Abs().ipc, p, x));
      proc := proc[p := x];
    }

    /** Assign to fields of a privilege structure. */
    method PutPriv(k: nat, v: Priv)
      requires Valid() && k < |priv| && (v.owner.Some? ==> v.owner.value < |proc|)
      modifies this`priv
      ensures Valid() && Abs() == old(Abs()).(ipc := WithPriv(old(Abs()).ipc, k, v))
    {
      SameReady(Abs().ipc, WithPriv(Abs().ipc, k, v));
      priv := priv[k := v];
    }

    // ------------------------------------------------------------ notifications

    method QueueMess(d: nat, source: Endpoint, content: Content)
      requires Valid() && d < |proc|
      modifies this`proc
      ensures Valid() && Abs() == old(Abs()).(ipc := Spec.QueueMess(old(Abs()).ipc, d, source, content))
    {
      Put(d, proc[d].(deliverMsg := Message(source, content), misc := proc[d].misc + {DeliverMsg}));
    }

    /** BuildNotifyMessage. */
    method BuildNotify(src: nat, d: nat) returns (content: Content)
      requires Valid() && d < |proc|
      modifies this`priv
      ensures Valid() && content == NotifyContent(old(Abs()).ipc, src, d)
      ensures Abs() == old(Abs()).(ipc := NotifyTaken(old(Abs()).ipc, src, d))
    {
      var k := proc[d].privId;
      content := Notification({});
      if src == HARDWARE {
        content := Notification(priv[k].intPending);
        PutPriv(k, priv[k].(intPending := {}));
      } else if src == SYSTEM {
        content := Notification(priv[k].sigPending);
        PutPriv(k, priv[k].(sigPending := {}));
      }
    }

    method MiniNotify(c: nat, dst: Endpoint) returns (code: Code)
      requires Valid() && c < |proc|
      modifies this`proc, this`priv, ready
      ensures Valid() && (Abs(), code) == Spec.MiniNotify(old(Abs()), c, dst)
    {
      hide SchedInv, Enqueue;
      if !OkEndpoint(dst) {
        return EDEADSRCDST;
      }
      var d: nat := dst.slot;
      if WillReceive(proc[d], proc[c].endpoint) && ReplyPend !in proc[d].misc {
        var content := BuildNotify(c, d);
        QueueMess(d, proc[c].endpoint, content);
        RtsUnset(d, {Receiving});
        return OK;
      }
      var k := proc[d].privId;
      PutPriv(k, priv[k].(notifyPending := priv[k].notifyPending + {proc[c].privId}));
      return OK;
    }

    // ------------------------------------------------------------------ signals

    method SendSig(p: nat, sig: nat)
      requires Valid() && p < |proc|
      modifies this`proc, this`priv, ready
      ensures Valid() && Abs() == Spec.SendSig(old(Abs()), p, sig)
    {
      hide SchedInv, Spec.MiniNotify;
      var k := proc[p].privId;
      PutPriv(k, priv[k].(sigPending := priv[k].sigPending + {sig}));
      var code := MiniNotify(SYSTEM, proc[p].endpoint);
    }

    method CauseSig(p: nat, sig: nat)
      requires Valid() && p < |proc| && p != IDLE
      modifies this`proc, this`priv, ready
      ensures Valid() && Abs() == Spec.CauseSig(old(Abs()), p, sig)
    {
      hide SchedInv, Spec.SendSig, Spec.RtsSet;
      if sig !in proc[p].pending {
        var signaled := Signaled in proc[p].rts;
        Put(p, proc[p].(pending := proc[p].pending + {sig}));
        if !signaled {
          RtsSet(p, {Signaled, SigPending});
          SendSig(PM, SIGKSIG);
        }
      }
    }

    method SigDelayDone(p: nat)
      requires Valid() && p < |proc| && p != IDLE
      modifies this`proc, this`priv, ready
      ensures Valid() && Abs() == Spec.SigDelayDone(old(Abs()), p)
    {
      hide SchedInv, Spec.CauseSig;
      Put(p, proc[p].(misc := proc[p].misc - {SigDelay}));
      CauseSig(p, SIGNDELAY);
    }

    // ---------------------------------------------------------------- mini_send

    /** The destination is waiting: fill its slot and wake it. */
    method Deliver(c: nat, d: nat, content: Content)
      requires Valid() && c < |proc| && d < |proc|
      modifies this`proc, this`hist, ready
      ensures Valid()
      ensures Abs() == SentDirectly(old(Abs()), c, d, content)
    {
      hide SchedInv, Spec.RtsUnset;
      var h, from, to := hist, proc[c].endpoint, proc[d].endpoint;
      QueueMess(d, from, content);
      hist := h.(letters := h.letters + [Letter(from, to, content)],
                 delivered := h.delivered + [Delivery(|h.letters|, to, Message(from, content))]);
      RtsUnset(d, {Receiving});
    }

    /** The destination is not waiting: block, and go to the end of its queue. */
    method Queue(c: nat, dst: Endpoint, content: Content)
      requires Valid() && KernelInv(Abs()) && c < |proc| && c != IDLE && Sending !in proc[c].rts
      requires OkEndpoint(dst) && NoEndpoint !in proc[dst.slot].rts
      modifies this`proc, this`hist, ready, callers
      ensures Valid()
      ensures var s1 := Spec.RtsSet(old(Abs()), c, {Sending});
              Abs() == s1.(ipc := QueueLetter(s1.ipc, c, dst, content))
    {
      hide KernelInv, Nowhere, CQ.Current;
      MayQueue(Abs(), c, dst, callers.stale);
      BlockSender(c, dst, content);
      ghost var was := Abs();
      QueueShape(was, c, dst.slot);
      hide SchedInv, ready.Valid, callers.Valid, IpcShape, Spec.RtsSet;
      callers.Append(dst.slot, c);
    }

    /** The fields of a process that starts sending. */
    method BlockSender(c: nat, dst: Endpoint, content: Content)
      requires Valid() && c < |proc| && c != IDLE && dst.Ep? && 0 <= dst.slot < |proc|
      modifies this`proc, this`hist, ready
      ensures Valid()
      ensures var s1 := Spec.RtsSet(old(Abs()), c, {Sending});
              Abs() == s1.(ipc := QueueLetter(s1.ipc, c, dst, content).(cq := s1.ipc.cq))
    {
      hide SchedInv, Dequeue, ready.Valid, callers.Valid;
      RtsSet(c, {Sending});
      Put(c, proc[c].(sendTo := dst, sendMsg := content, sendId := |hist.letters|));
      hist := hist.(letters := hist.letters + [Letter(proc[c].endpoint, dst, content)]);
    }

    method MiniSend(c: nat, dst: Endpoint, content: Content, nonBlocking: bool, io: Access) returns (code: Code)
      requires Valid() && KernelInv(Abs()) && c < |proc| && c != IDLE && Sending !in proc[c].rts && OkEndpoint(dst)
      modifies this`proc, this`hist, ready, callers
      ensures Valid() && (Abs(), code) == Spec.MiniSend(old(Abs()), c, dst, content, nonBlocking, io)
    {
      hide KernelInv, SchedInv, Spec.RtsSet, Spec.RtsUnset, DeliverLetter, QueueLetter;
      var d: nat := dst.slot;
      if !io.sendMapped {
        return EFAULT;
      }
      if NoEndpoint in proc[d].rts {
        return EDSTDIED;
      }
      if WillReceive(proc[d], proc[c].endpoint) {
        if !io.copied {
          return EFAULT;
        }
        Deliver(c, d, content);
        return OK;
      }
      if nonBlocking {
        return ENOTREADY;
      }
      if !io.copied {
        return EFAULT;
      }
      Queue(c, dst, content);
      return OK;
    }

    // --------------------------------------------------------- asynchronous sends

    /** try_one's walk along table k, up to the element that it sends to dst or to the end. */
    method Scan(k: nat, dst: nat, io: Access) returns (r: Spec.Scan)
      requires Valid() && k < |priv| && dst < |proc|
      ensures r == Scanned(Abs().ipc, k, dst, io)
    {
      var t, dstE, reply := priv[k].asyn, proc[dst].endpoint, ReplyPend in proc[dst].misc;
      var n, done, postponed := 0, true, false;
      while n < |t|
        invariant 0 <= n <= |t|
        invariant ScanTable(t, 0, dstE, reply, true, false, k, io) ==
                  ScanTable(t, n, dstE, reply, done, postponed, k, io)
      {
        if Faults(io, k, n, NoFlags) {
          return Faulted(postponed);
        }
        if t[n].flags == {} {
        } else if BadFlags(t[n]) {
          return Bad(postponed);
        } else if Done in t[n].flags {
        } else {
          done := false;
          if Faults(io, k, n, NoDest) {
            return Faulted(postponed);
          }
          if t[n].dst == dstE {
            if NoReply in t[n].flags && reply {
              postponed := true;
            } else if Faults(io, k, n, NoMessage) {
              return Faulted(postponed);
            } else {
              return Found(n, postponed);
            }
          }
        }
        n := n + 1;
      }
      return NotFound(done, postponed);
    }

    method TryOne(src: nat, dst: nat, io: Access) returns (code: Code, postponed: bool)
      requires Valid() && src < |proc| && dst < |proc|
      modifies this`proc, this`priv, this`hist
      ensures Valid() && (Abs().ipc, code, postponed) == Spec.TryOne(old(Abs()).ipc, src, dst, io)
      ensures Abs().sched == old(Abs()).sched
    {
      hide SchedInv, ScanTable, Sent;
      var k := proc[src].privId;
      if k == USER_PRIV_ID || |priv[k].asyn| == 0 || !Permitted(src, dst) {
        return EAGAIN, false;
      }
      var r := Scan(k, dst, io);
      match r
      case Bad(late) =>
        PutPriv(k, priv[k].(asyn := []));
        return EINVAL, late;
      case Faulted(late) =>
        return EFAULT, late;
      case NotFound(done, late) =>
        if done {
          PutPriv(k, priv[k].(asyn := []));
        }
        return EAGAIN, late;
      case Found(n, late) =>
        var v := priv[k];
        SendElement(src, dst, k, n);
        if Faults(io, k, n, NoMark) {
          return EFAULT, late;
        }
        PutPriv(k, v.(asyn := v.asyn[n := MarkDone(v.asyn[n], OK)]));
        return OK, false;
    }

    /** Put element n of table k into the slot of dst. */
    method SendElement(src: nat, dst: nat, k: nat, n: nat)
      requires Valid() && src < |proc| && dst < |proc| && k < |priv| && n < |priv[k].asyn|
      modifies this`proc, this`hist
      ensures Valid() && Abs() == old(Abs()).(ipc := Spec.Sent(old(Abs()).ipc, k, n, src, dst))
    {
      hide SchedInv;
      QueueMess(dst, proc[src].endpoint, Data(priv[k].asyn[n].body));
      hist := hist.(asynSent := hist.asynSent + [(priv[k].serial, n)]);
    }

    method TryAsync(c: nat, io: Access) returns (code: Code)
      requires Valid() && c < |proc|
      modifies this`proc, this`priv, this`hist
      ensures Valid() && (Abs().ipc, code) == Spec.TryAsync(old(Abs()).ipc, c, io)
      ensures Abs().sched == old(Abs()).sched
    {
      hide SchedInv, Spec.TryOne;
      var k, postponed := 0, false;
      while k < NR_SYS_PROCS
        invariant 0 <= k <= NR_SYS_PROCS && Valid() && |proc| == old(|proc|)
        invariant Abs().sched == old(Abs()).sched
        invariant Spec.TryAsync(old(Abs()).ipc, c, io) == TryAsyncFrom(Abs().ipc, c, k, postponed, io)
      {
        var o := priv[k].owner;
        if o.Some? {
          var r, later := TryOne(o.value, c, io);
          if r == OK {
            return OK;
          }
          postponed := postponed || later;
        }
        k := k + 1;
      }
      if !postponed {
        Put(c, proc[c].(misc := proc[c].misc - {AsynMsg}));
      }
      return ESRCH;
    }

    /** One element of the table handed to SENDA. */
    method SendaOne(c: nat, e: AsynEntry, n: nat, io: Access) returns (f: AsynEntry, code: Code)
      requires Valid() && c < |proc| && Undone(e)
      modifies this`proc, this`hist, ready
      ensures Valid() && (Abs(), f, code) == Spec.SendaOne(old(Abs()), c, e, n, io)
    {
      hide SchedInv, Spec.RtsUnset;
      var k, result := proc[c].privId, OK;
      if Faults(io, k, n, NoDest) {
        return e, EFAULT;
      }
      if !OkEndpoint(e.dst) {
        result := EDEADSRCDST;
      } else {
        var d: nat := e.dst.slot;
        if !Permitted(c, d) {
          result := ECALLDENIED;
        } else if NoEndpoint in proc[d].rts {
          result := EDSTDIED;
        } else if WillReceive(proc[d], proc[c].endpoint) && (NoReply !in e.flags || ReplyPend !in proc[d].misc) {
          if Faults(io, k, n, NoMessage) {
            result := EFAULT;
          } else {
            QueueMess(d, proc[c].endpoint, Data(e.body));
            hist := hist.(asynSent := hist.asynSent + [(hist.serial, n)]);
            RtsUnset(d, {Receiving});
          }
        } else {
          Put(d, proc[d].(misc := proc[d].misc + {AsynMsg}));
          return e, OK;
        }
      }
      if Faults(io, k, n, NoMark) {
        return e, EFAULT;
      }
      return MarkDone(e, result), OK;
    }

    /** mini_senda's scan of the table; done says that nothing in it is pending. */
    method SendaScan(c: nat, table: seq<AsynEntry>, io: Access) returns (t: seq<AsynEntry>, code: Code, done: bool)
      requires Valid() && c < |proc|
      modifies this`proc, this`hist, ready
      ensures Valid() && (Abs(), t, code) == SendaFrom(old(Abs()), c, table, 0, io)
      ensures code == OK ==> (done <==> NonePending(t, |t|))
    {
      hide SchedInv, Spec.SendaOne, ready.Valid, callers.Valid;
      t, done := table, true;
      var n := 0;
      while n < |t|
        invariant 0 <= n <= |t| == |table| && Valid() && |proc| == old(|proc|)
        invariant SendaFrom(old(Abs()), c, table, 0, io) == SendaFrom(Abs(), c, t, n, io)
        invariant done <==> NonePending(t, n)
      {
        if Faults(io, proc[c].privId, n, NoFlags) {
          return t, EFAULT, done;
        }
        if BadFlags(t[n]) {
          return t, EINVAL, done;
        }
        if Undone(t[n]) {
          var e;
          e, code := SendaOne(c, t[n], n, io);
          if code != OK {
            return t, code, done;
          }
          NonePendingStep(t, n, e);
          t := t[n := e];
          done := done && !Undone(e);
        } else {
          assert t[n := t[n]] == t;
          NonePendingStep(t, n, t[n]);
          SkippedElement(Abs(), c, t[n], n, io);
        }
        n := n + 1;
      }
      return t, OK, done;
    }

    method MiniSenda(c: nat, table: seq<AsynEntry>, io: Access) returns (code: Code)
      requires Valid() && c < |proc|
      modifies this`proc, this`priv, this`hist, ready
      ensures Valid() && (Abs(), code) == Spec.MiniSenda(old(Abs()), c, table, io)
    {
      hide SchedInv, SendaFrom;
      var k := proc[c].privId;
      if SysProc !in priv[k].flags {
        return EPERM;
      }
      PutPriv(k, priv[k].(asyn := []));
      hist := hist.(serial := hist.serial + 1, calls := hist.calls + [SendaCall(proc[c].endpoint, table)]);
      if |table| == 0 {
        return OK;
      }
      if !io.sendMapped {
        return EFAULT;
      }
      if |table| > 16 * |proc| {
        return EDOM;
      }
      var t, done;
      t, code, done := SendaScan(c, table, io);
      if code == OK && !done {
        PutPriv(k, priv[k].(asyn := t, serial := hist.serial));
      }
    }

    // ------------------------------------------------------------- mini_receive

    /** The search of the pending notifications, chunk by chunk and bit by bit. */
    method FindNotify(bits: set<nat>, src: Option<nat>) returns (id: Option<nat>)
      requires |priv| == NR_SYS_PROCS
      ensures id == Spec.FindNotify(priv, bits, src, 0)
    {
      var chunk := 0;
      while chunk < NR_SYS_CHUNKS
        invariant 0 <= chunk <= NR_SYS_CHUNKS
        invariant Spec.FindNotify(priv, bits, src, 0) == Spec.FindNotify(priv, bits, src, chunk)
      {
        var lo, hi := chunk * BITCHUNK_BITS, (chunk + 1) * BITCHUNK_BITS;
        var bit := lo;
        while bit < hi && bit !in bits
          invariant lo <= bit <= hi
          invariant LowestBit(bits, lo, hi) == LowestBit(bits, bit, hi)
        {
          bit := bit + 1;
        }
        if bit < hi {
          if bit >= NR_SYS_PROCS {
            return None;
          }
          if src.None? || priv[bit].owner == src {
            return Some(bit);
          }
        }
        chunk := chunk + 1;
      }
      return None;
    }

    /** Take the pending notification of structure id. */
    method TakeNotify(c: nat, id: nat)
      requires Valid() && c < |proc| && id < |priv| && priv[id].owner.Some?
      modifies this`proc, this`priv
      ensures Valid() && Abs() == old(Abs()).(ipc := Spec.TakeNotify(old(Abs()).ipc, c, id))
    {
      hide SchedInv;
      var k, src := proc[c].privId, priv[id].owner.value;
      PutPriv(k, priv[k].(notifyPending := priv[k].notifyPending - {id}));
      var content := BuildNotify(src, c);
      QueueMess(c, proc[src].endpoint, content);
    }

    /** Take the letter of process x, the k-th in the queue of c, and unblock it. */
    method TakeQueued(c: nat, prev: Option<nat>, x: nat, ghost k: nat)
      requires Valid() && c < |proc| && c !in callers.stale && k < |callers.cq[c]| && callers.cq[c][k] == x && x != IDLE
      requires prev == if k == 0 then None else Some(callers.cq[c][k - 1])
      modifies this`proc, this`priv, this`hist, ready, callers
      ensures Valid() && Abs() == Spec.TakeQueued(old(Abs()), c, k)
    {
      hide SchedInv, Enqueue, Spec.CauseSig, ready.Valid;
      var y := proc[x];
      QueueMess(c, y.endpoint, y.sendMsg);
      if SigDelay in y.misc {
        SigDelayDone(x);
      }
      RtsUnset(x, {Sending});
      ghost var s3 := Abs();
      var z := proc[x];
      callers.Cut(c, prev, x, k);
      hist := hist.(delivered := hist.delivered
        + [Delivery(z.sendId, proc[c].endpoint, Message(z.endpoint, z.sendMsg))]);
      UnlinkShape(s3, c, k);
    }

    /** The asynchronous part of mini_receive. */
    method ReceiveAsync(c: nat, src: Option<nat>, io: Access) returns (code: Code)
      requires Valid() && c < |proc| && (src.Some? ==> src.value < |proc|)
      modifies this`proc, this`priv, this`hist
      ensures Valid() && (Abs().ipc, code) == Spec.ReceiveAsync(old(Abs()).ipc, c, src, io)
      ensures Abs().sched == old(Abs()).sched
    {
      hide SchedInv, Spec.TryOne, Spec.TryAsync;
      if AsynMsg !in proc[c].misc {
        return EAGAIN;
      }
      if src.Some? {
        var later;
        code, later := TryOne(src.value, c, io);
      } else {
        code := TryAsync(c, io);
      }
    }

    method BlockReceive(c: nat, src: Endpoint)
      requires Valid() && c < |proc| && c != IDLE
      modifies this`proc, ready
      ensures Valid() && Abs() == Spec.BlockReceive(old(Abs()), c, src)
    {
      hide SchedInv, Dequeue;
      Put(c, proc[c].(getFrom := src));
      RtsSet(c, {Receiving});
    }

    method MiniReceive(c: nat, src: Endpoint, nonBlocking: bool, io: Access) returns (code: Code)
      requires Valid() && KernelInv(Abs()) && c < |proc| && c != IDLE && Live(proc[c])
      requires (src != ANY ==> OkEndpoint(src)) && OwnsBits(Abs(), c)
      modifies this`proc, this`priv, this`hist, ready, callers
      ensures Valid() && (Abs(), code) == Spec.MiniReceive(old(Abs()), c, src, nonBlocking, io)
    {
      hide KernelInv, SchedInv, Spec.ReceiveNow, Spec.BlockReceive, ready.Valid, callers.Valid;
      if !io.receiveMapped {
        return EFAULT;
      }
      if src != ANY && NoEndpoint in proc[src.slot].rts {
        return ESRCDIED;
      }
      if Sending !in proc[c].rts {
        code := ReceiveNow(c, src, nonBlocking, io);
        return;
      }
      if nonBlocking {
        return ENOTREADY;
      }
      BlockReceive(c, src);
      return OK;
    }

    /** mini_receive for a caller that is not sending. */
    method ReceiveNow(c: nat, src: Endpoint, nonBlocking: bool, io: Access) returns (code: Code)
      requires Valid() && KernelInv(Abs()) && c < |proc| && c != IDLE && Live(proc[c])
      requires (src != ANY ==> OkEndpoint(src)) && OwnsBits(Abs(), c)
      modifies this`proc, this`priv, this`hist, ready, callers
      ensures Valid() && (Abs(), code) == Spec.ReceiveNow(old(Abs()), c, src, nonBlocking, io)
    {
      hide KernelInv, SchedInv, Spec.TakeQueued, Spec.TakeNotify, Spec.ReceiveAsync, Spec.BlockReceive,
        Spec.FindNotify, ready.Valid;
      var want: Option<nat> := if src == ANY then None else Some(src.slot);
      if ReplyPend !in proc[c].misc {
        var note := FindNotify(priv[proc[c].privId].notifyPending, want);
        if note.Some? {
          TakeNotify(c, note.value);
          return OK;
        }
      }
      var prev, cur, k := callers.Find(c, want);
      if cur.Some? {
        QueuedNotIdle(Abs(), c, k);
        TakeQueued(c, prev, cur.value, k);
        return OK;
      }
      code := ReceiveAsync(c, want, io);
      if code == OK {
        return OK;
      }
      if nonBlocking {
        return ENOTREADY;
      }
      BlockReceive(c, src);
      return OK;
    }

    // ----------------------------------------------------------------- sys_call

    /** deadlock(): follow the chain of dependencies from e's process. */
    method Deadlock(sends: bool, c: nat, e: Endpoint) returns (size: nat)
      requires Valid() && KernelInv(Abs()) && c < |proc| && (e != ANY ==> e.Ep? && 0 <= e.slot < |proc|)
      ensures GraphInv(Abs().ipc) && size == Syscalls.Deadlock(Abs().ipc, sends, c, e)
    {
      hide ready.Valid, callers.Valid, SchedInv, QueueInv, WaitInv, PrivInv, AsyncInv, LetterInv, Acyclic;
      ghost var i := Abs().ipc;
      if e == ANY {
        return 0;
      }
      var x: nat := e.slot;
      size := 1;
      while true
        invariant x < |proc|
        invariant Syscalls.Deadlock(i, sends, c, e) == DeadlockFrom(i, sends, c, x, size)
        decreases Height(WaitsFor(i), x)
      {
        assert NamesOk(i, x);
        size := size + 1;
        var next: Endpoint;
        if Receiving in proc[x].rts {
          if proc[x].getFrom == ANY {
            return 0;
          }
          next := proc[x].getFrom;
        } else if Sending in proc[x].rts {
          next := proc[x].sendTo;
        } else {
          return 0;
        }
        if next.slot == c {
          if size == 2 && (Sending in proc[x].rts) != sends {
            return 0;
          }
          return size;
        }
        HeightStep(WaitsFor(i), x);
        x := next.slot;
      }
    }

    /** The checks of sys_call. */
    method CheckCall(t: Trap) returns (code: Code)
      requires Valid() && KernelInv(Abs())
      ensures GraphInv(Abs().ipc) && code == CheckTrap(Abs(), t)
    {
      hide SchedInv, AsyncInv, LetterInv, CoreInv, PrivInv, VitalInv, GraphInv;
      var c := ready.procPtr;
      if t.callNr != SENDA {
        if t.ep == ANY {
          if t.callNr != RECEIVE {
            return EINVAL;
          }
        } else {
          if !OkEndpoint(t.ep) {
            return EDEADSRCDST;
          }
          if t.callNr != RECEIVE && !Permitted(c, t.ep.slot) {
            return ECALLDENIED;
          }
        }
      }
      if t.callNr < 0 || t.callNr >= 32 {
        return ETRAPDENIED;
      }
      if t.callNr !in priv[proc[c].privId].trapMask {
        return ETRAPDENIED;
      }
      if t.callNr != SENDA && t.ep != ANY && t.ep.slot < NR_TASKS && t.callNr != SENDREC && t.callNr != RECEIVE {
        return ETRAPDENIED;
      }
      if t.callNr == SENDA && |t.table| > 16 * |proc| {
        return EDOM;
      }
      if t.callNr == SEND || t.callNr == SENDREC || t.callNr == RECEIVE {
        var size := Deadlock(t.callNr != RECEIVE, c, t.ep);
        if size != 0 {
          return ELOCKED;
        }
      }
      return OK;
    }

    method SysCall(t: Trap) returns (code: Code)
      requires Valid() && KernelInv(Abs()) && ready.procPtr != IDLE
      requires proc[ready.procPtr].rts == {} && DeliverMsg !in proc[ready.procPtr].misc
      modifies this, ready, callers
      ensures Valid() && (Abs(), code) == Syscalls.SysCall(old(Abs()), t)
    {
      hide KernelInv, SchedInv, ready.Valid, callers.Valid, CheckTrap, Spec.MiniSend, Spec.MiniReceive,
        Spec.MiniNotify, Spec.MiniSenda;
      var c := ready.procPtr;
      assert OwnsBits(Abs(), c) by { CallerHasBits(Abs(), c); }
      code := CheckCall(t);
      if code != OK {
        return;
      }
      if t.callNr == SENDREC {
        NamedCall(Abs(), t);
        SendRecInv(Abs(), t);
        SentEndpoint(Abs().(ipc := MarkReply(Abs().ipc, c, t.ep)), c, t.ep, Data(t.body), t.io);
        Put(c, proc[c].(misc := proc[c].misc + {ReplyPend}, awaits := t.ep));
        code := MiniSend(c, t.ep, Data(t.body), false, t.io);
        if code == OK {
          SentLive(old(Abs()), t);
          code := MiniReceive(c, t.ep, false, t.io);
        }
      } else if t.callNr == SEND {
        NamedCall(Abs(), t);
        code := MiniSend(c, t.ep, Data(t.body), false, t.io);
      } else if t.callNr == RECEIVE {
        MarkReplyInv(Abs(), c, t.ep);
        if t.ep != ANY { NamedCall(Abs(), t); }
        Put(c, proc[c].(misc := proc[c].misc - {ReplyPend}));
        code := MiniReceive(c, t.ep, false, t.io);
      } else if t.callNr == NOTIFY {
        code := MiniNotify(c, t.ep);
      } else if t.callNr == SENDNB {
        NamedCall(Abs(), t);
        code := MiniSend(c, t.ep, Data(t.body), true, t.io);
      } else if t.callNr == SENDA {
        code := MiniSenda(c, t.table, t.io);
      } else {
        code := EBADCALL;
      }
    }

    // ----------------------------------------------------- exit and clear_endpoint

    /** Process p is told that endpoint e, of structure id, is gone. */
    method ClearOne(e: Endpoint, id: nat, p: nat)
      requires Valid() && p < |proc|
      modifies this`proc, this`priv, this`hist, ready
      ensures Valid() && Abs() == Lifecycle.ClearOne(old(Abs()), e, id, p)
    {
      hide SchedInv, Spec.RtsUnset, ready.Valid, callers.Valid;
      if Empty(proc[p]) {
        return;
      }
      var k := proc[p].privId;
      PutPriv(k, priv[k].(notifyPending := priv[k].notifyPending - {id}));
      if Receiving in proc[p].rts && proc[p].getFrom == e {
        Put(p, proc[p].(retreg := ESRCDIED));
        RtsUnset(p, {Receiving});
      }
      if Sending in proc[p].rts && proc[p].sendTo == e {
        hist := hist.(dropped := hist.dropped + [proc[p].sendId]);
        Put(p, proc[p].(retreg := EDSTDIED));
        RtsUnset(p, {Sending});
      }
    }

    /** Take rc off the queue it waits in; its letter is dropped. */
    method LeaveQueue(rc: nat, q: nat)
      requires Valid() && rc < |proc| && q < |proc| && q !in callers.stale && rc in callers.cq[q]
      modifies this`hist, callers
      ensures Valid() && callers.stale == old(callers.stale)
      ensures var i := old(Abs()).ipc;
              Abs() == old(Abs()).(ipc := i.(cq := i.cq[q := RemoveAt(i.cq[q], IndexOf(i.cq[q], rc))],
                                             hist := i.hist.(dropped := i.hist.dropped + [i.procs[rc].sendId])))
    {
      var h := hist.(dropped := hist.dropped + [proc[rc].sendId]);
      ShorterQueue(Abs().ipc, q, IndexOf(callers.cq[q], rc), h);
      hide SchedInv, ready.Valid, callers.Valid, IpcShape;
      callers.Remove(q, rc);
      hist := h;
    }

    /** rc is marked as not to be sent to any more.  Its queue stays linked as it is. */
    method MarkGone(rc: nat)
      requires Valid() && IDLE < rc < |proc|
      modifies this`proc, ready, callers`stale
      ensures Valid() && NoEndpoint in proc[rc].rts && Abs() == Spec.RtsSet(old(Abs()), rc, {NoEndpoint})
      ensures forall q :: 0 <= q < |proc| && q != rc ==> (q in callers.stale <==> q in old(callers.stale))
    {
      hide SchedInv, Dequeue, ready.Valid;
      SetFlag(rc, {NoEndpoint});
      callers.Abandon(callers.stale + {rc});
    }

    /** Drop the table of rc and the flags that say it is blocked. */
    method DropOwn(rc: nat)
      requires Valid() && rc < |proc| && NoEndpoint in proc[rc].rts
      modifies this`proc, this`priv
      ensures Valid()
      ensures var i := old(Abs()).ipc;
              var k := i.procs[rc].privId;
              Abs() == old(Abs()).(ipc := i.(
                procs := i.procs[rc := i.procs[rc].(rts := i.procs[rc].rts - {Sending, Receiving})],
                privs := if SysProc in i.privs[k].flags then i.privs[k := i.privs[k].(asyn := [])] else i.privs))
    {
      hide SchedInv, ready.Valid, callers.Valid;
      var x := proc[rc];
      if SysProc in priv[x.privId].flags {
        PutPriv(x.privId, priv[x.privId].(asyn := []));
      }
      proc := proc[rc := x.(rts := x.rts - {Sending, Receiving})];
      assert NoEndpoint in proc[rc].rts;
      assert Ready(Abs().ipc) == Ready(old(Abs()).ipc);
    }

    method Detach(rc: nat)
      requires Valid() && rc < |proc| && NoEndpoint in proc[rc].rts
      requires Sending in proc[rc].rts ==>
                 (proc[rc].sendTo.Ep? && 0 <= proc[rc].sendTo.slot < |proc|
                  && proc[rc].sendTo.slot !in callers.stale && rc in callers.cq[proc[rc].sendTo.slot])
      modifies this`proc, this`priv, this`hist, callers
      ensures Valid() && Abs() == old(Abs()).(ipc := Lifecycle.Detach(old(Abs()).ipc, rc))
    {
      hide SchedInv, ready.Valid, callers.Valid;
      if Sending in proc[rc].rts {
        LeaveQueue(rc, proc[rc].sendTo.slot);
      }
      DropOwn(rc);
    }

    method ClearAll(e: Endpoint, id: nat)
      requires Valid()
      modifies this`proc, this`priv, this`hist, ready
      ensures Valid() && Abs() == ClearFrom(old(Abs()), e, id, 0)
    {
      hide SchedInv, Lifecycle.ClearOne;
      var p := 0;
      while p < |proc|
        invariant 0 <= p <= |proc| == old(|proc|) && Valid()
        invariant ClearFrom(old(Abs()), e, id, 0) == ClearFrom(Abs(), e, id, p)
      {
        ClearOne(e, id, p);
        p := p + 1;
      }
    }

    method ClearEndpoint(rc: nat)
      requires Valid() && KernelInv(Abs()) && IDLE < rc < |proc|
      modifies this, ready, callers
      ensures Valid() && Abs() == Lifecycle.ClearEndpoint(old(Abs()), rc)
    {
      ghost var s0 := Abs();
      QueuedWhereSending(s0.ipc, rc);
      SendeeLive(s0.ipc, rc, callers.stale);
      MarkedSame(s0, rc);
      hide KernelInv, SchedInv, Spec.RtsSet, Lifecycle.Detach, ClearFrom, ready.Valid, IpcShape;
      var e, id := proc[rc].endpoint, proc[rc].privId;
      MarkGone(rc);
      Detach(rc);
      ClearAll(e, id);
    }

    /** clear_proc() of do_exit. */
    method Exit(rc: nat)
      requires Valid() && KernelInv(Abs()) && IDLE < rc < |proc|
      modifies this, ready, callers
      ensures Valid() && Abs() == Lifecycle.Exit(old(Abs()), rc)
    {
      hide KernelInv, SchedInv, ready.Valid, callers.Valid, Lifecycle.ClearEndpoint;
      if Empty(proc[rc]) {
        return;
      }
      CutFlags(Abs(), rc);
      ClearEndpoint(rc);
      FreedShape(Abs(), rc);
      hide Unreferenced;
      var k := proc[rc].privId;
      proc := proc[rc := proc[rc].(rts := {SlotFree})];
      if SysProc in priv[k].flags {
        priv := priv[k := priv[k].(owner := None)];
      }
    }

    /** do_fork, for a parent that is alone. */
    method Fork(e: Endpoint, c: nat, inhibit: bool) returns (code: Code)
      requires Valid() && KernelInv(Abs()) && c < |proc| && (ForkOk(Abs().ipc, e, c) ==> Alone(Abs().ipc, e.slot))
      modifies this, ready, callers
      ensures Valid() && (Abs(), code) == Forking.Fork(old(Abs()), e, c, inhibit)
    {
      hide KernelInv, SchedInv, Nowhere, ready.Valid, callers.Valid;
      if !OkEndpoint(e) || !Empty(proc[c]) || Receiving !in proc[e.slot].rts || priv[proc[e.slot].privId].asyn != [] {
        return EINVAL;
      }
      var p: nat := e.slot;
      ForkParts(Abs(), e, c, inhibit, callers.stale);
      var x := proc[p];
      var system := SysProc in priv[x.privId].flags;
      var id := if system then USER_PRIV_ID else x.privId;
      callers.Copy(p, c);
      proc := proc[c := x.(endpoint := Ep(proc[c].endpoint.gen + 1, c), retreg := OK, privId := id,
                           rts := x.rts + (if system then {NoPriv} else {}) + (if inhibit then {VmInhibit} else {})
                                  - {Signaled, SigPending, PStop},
                           pending := {})];
      assert Abs().ipc == Forked(old(Abs()).ipc, p, c, inhibit);
      hide Forked;
      var f := ready.ent[p];
      ready.SetEntry(c, f.(ticksLeft := CHalf(f.ticksLeft + 1), preemptible := Preemptible in priv[id].flags,
                           billable := Billable in priv[id].flags));
      ready.SetEntry(p, f.(ticksLeft := CHalf(f.ticksLeft)));
      return OK;
    }

    // ------------------------------------------------------- clock and scheduling

    /** balance_queues(). */
    method BalanceQueues()
      requires Valid()
      modifies ready
      ensures Valid() && Abs() == KernelSteps.BalanceQueues(old(Abs()))
    {
      hide BalanceOne, SchedInv;
      ghost var run, live := Ready(Abs().ipc), InUse(Abs().ipc);
      var p := 0;
      while p < |proc|
        invariant 0 <= p <= |proc| && Valid() && Abs().ipc == old(Abs()).ipc
        invariant BalanceFrom(old(Abs()).sched, run, live, 0) == BalanceFrom(Abs().sched, run, live, p)
      {
        if !Empty(proc[p]) {
          BalanceOneInv(ready.Abs(), run, p);
          OffLists(ready.Abs(), run, p);
          ready.Raise(p, proc[p].rts == {}, run);
        }
        p := p + 1;
      }
    }

    /** clock_handler(). */
    method Tick(ticks: nat, alarm: bool)
      requires Valid()
      modifies this`proc, this`priv, ready
      ensures Valid() && Abs() == KernelSteps.Tick(old(Abs()), ticks, alarm)
    {
      ChargeInv(ready.Abs(), Ready(Abs().ipc), ticks);
      hide SchedInv, Spec.MiniNotify, Charge;
      ready.ChargeTicks(ticks);
      if alarm || ready.ent[ready.procPtr].ticksLeft <= 0 {
        var code := MiniNotify(HARDWARE, proc[CLOCK].endpoint);
      }
    }

    /** The requeue of do_clocktick(), in which something else is always ready. */
    method ClockTick(prev: nat)
      requires Valid() && prev < |proc| && ready.procPtr == CLOCK && proc[CLOCK].rts == {}
      modifies ready
      ensures Valid() && Abs() == KernelSteps.ClockTick(old(Abs()), prev)
    {
      hide callers.Valid, HeadsOk, Separate;
      if ready.ent[prev].ticksLeft <= 0 && ready.ent[prev].preemptible && proc[prev].rts == {} {
        assert ready.ent[prev := ready.ent[prev]] == ready.ent;
        RequeueInv(ready.Abs(), Ready(Abs().ipc), prev, ready.ent[prev]);
        ready.Dequeue(prev);
        ready.Enqueue(prev);
      }
    }

    /** The reply of sys_task(). */
    method TaskReply(c: nat, body: int, io: Access)
      requires Valid() && KernelInv(Abs()) && c < |proc| && OkEndpoint(proc[c].endpoint) && Sending !in proc[SYSTEM].rts
      modifies this, ready, callers
      ensures Valid() && Abs() == KernelSteps.TaskReply(old(Abs()), c, body, io)
    {
      hide KernelInv, SchedInv, Spec.MiniSend;
      if WillReceive(proc[c], proc[SYSTEM].endpoint) {
        var code := MiniSend(SYSTEM, proc[c].endpoint, Data(body), false, io);
      }
    }

    /** schedcheck(): faults stands for the copies that fault. */
    method SchedCheck(faults: map<nat, bool>)
      requires Valid() && KernelInv(Abs())
      modifies this`proc, this`priv, ready
      ensures Valid() && Abs() == KernelSteps.SchedCheck(old(Abs()), faults)
    {
      hide KernelInv, SchedInv, Work, Spec.RtsSet, Spec.MiniNotify;
      SwitchInv(Abs());
      ready.Switch();
      InvSched(Abs());
      while DeliverMsg in proc[ready.procPtr].misc
        invariant Valid() && KernelInv(Abs()) && ready.nextPtr.None?
        invariant DeliverLoop(KernelSteps.Switch(old(Abs())), faults) == DeliverLoop(Abs(), faults)
        decreases Work(Abs().ipc)
      {
        var p := ready.procPtr;
        LoopParts(Abs());
        if p !in faults {
          DeliveredInv(Abs(), p);
          DeliveredWork(Abs(), p);
          Put(p, proc[p].(misc := proc[p].misc - {DeliverMsg}));
        } else {
          SuspendedInv(Abs(), p, faults[p]);
          SuspendedWork(Abs(), p, faults[p]);
          SwitchInv(Suspended(Abs(), p, faults[p]));
          RtsSet(p, {VmRequest});
          if faults[p] {
            var code := MiniNotify(SYSTEM, Ep(0, VM));
          }
          ready.Switch();
          InvSched(Abs());
        }
      }
    }

    // -------------------------------------------------------- send masks and boot

    /** set_sendto_bit(). */
    method SetSendTo(p: nat, id: nat)
      requires IpcShape(Abs().ipc) && p < |proc| && id < |priv|
      modifies this`priv
      ensures Abs() == old(Abs()).(ipc := Masks.SetSendTo(old(Abs()).ipc, p, id))
      ensures old(Valid()) ==> Valid()
    {
      SameReady(Abs().ipc, Masks.SetSendTo(Abs().ipc, p, id));
      hide SchedInv, ready.Valid, callers.Valid;
      var k := proc[p].privId;
      if priv[id].owner.None? || k == id {
        return;
      }
      priv := priv[k := priv[k].(ipcTo := priv[k].ipcTo + {id})];
      var rrp := priv[id].owner.value;
      if rrp >= NR_TASKS {
        var m := proc[rrp].privId;
        priv := priv[m := priv[m].(ipcTo := priv[m].ipcTo + {k})];
      }
    }

    /** unset_sendto_bit(). */
    method UnsetSendTo(p: nat, id: nat)
      requires Valid() && p < |proc| && id < |priv|
      modifies this`priv
      ensures Valid() && Abs() == old(Abs()).(ipc := Masks.UnsetSendTo(old(Abs()).ipc, p, id))
    {
      hide SchedInv;
      var k := proc[p].privId;
      PutPriv(k, priv[k].(ipcTo := priv[k].ipcTo - {id}));
      PutPriv(id, priv[id].(ipcTo := priv[id].ipcTo - {k}));
    }

    /** One turn of main()'s loop: process p of the boot image. */
    method BootOne(p: nat, e: BootEntry)
      requires ready.Valid() && callers.Valid() && StateShape(Abs()) && Booted(Abs(), p)
      requires p < NR_BOOT_PROCS && e.queue < NR_SCHED_QUEUES
      modifies this`proc, this`priv, ready
      ensures ready.Valid() && StateShape(Abs()) && Abs() == Boot.BootOne(old(Abs()), p, e)
    {
      hide Booted, Boot.BootOne, ready.Valid, callers.Valid, BootUp, BootMask, BootPriv, Shape, Enqueue, IpcShape;
      BootFree(Abs(), p);
      BootOneForm(Abs(), p, e);
      BootRow(p, e);
      ready.SetEntry(p, BootEnt(e));
      BootRise(p, e);
    }

    /** p gets its privilege structure and its send mask. */
    method BootRow(p: nat, e: BootEntry)
      requires IpcShape(Abs().ipc) && p < NR_BOOT_PROCS <= |proc|
      modifies this`proc, this`priv
      ensures Abs() == old(Abs()).(ipc := BootMask(BootPriv(old(Abs()).ipc, p, e), p, e.ipcTo, 0))
      ensures |proc| == old(|proc|)
    {
      hide BootMask;
      BootPrivShape(Abs().ipc, p, e);
      BootPrivs(p, e);
      BootMasks(p, e.ipcTo);
    }

    /** p gets its privilege structure. */
    method BootPrivs(p: nat, e: BootEntry)
      requires |priv| == NR_SYS_PROCS && p < NR_BOOT_PROCS <= |proc|
      modifies this`proc, this`priv
      ensures Abs() == old(Abs()).(ipc := BootPriv(old(Abs()).ipc, p, e)) && |proc| == old(|proc|)
    {
      var k := BootId(p, e);
      proc := proc[p := proc[p].(privId := k)];
      priv := priv[k := priv[k].(owner := Some(if SysProc in e.flags then p else INIT), flags := e.flags,
        trapMask := e.traps)];
    }

    /** The bits of the send mask in the row of p. */
    method BootMasks(p: nat, bits: set<nat>)
      requires IpcShape(Abs().ipc) && p < |proc|
      modifies this`priv
      ensures Abs() == old(Abs()).(ipc := BootMask(old(Abs()).ipc, p, bits, 0))
    {
      hide Masks.SetSendTo, Valid, IpcShape, BootMask, Masks.MasksOnly;
      var id := 0;
      while id < BITCHUNK_BITS
        invariant 0 <= id <= BITCHUNK_BITS && IpcShape(Abs().ipc) && proc == old(proc)
        invariant Abs() == old(Abs()).(ipc := Abs().ipc)
        invariant BootMask(old(Abs()).ipc, p, bits, 0) == BootMask(Abs().ipc, p, bits, id)
      {
        BitInRange(Abs().ipc, id);
        BootMaskStep(Abs().ipc, p, bits, id);
        if id in bits {
          SetSendToShape(Abs().ipc, p, id);
          SetSendTo(p, id);
        }
        id := id + 1;
      }
      BootMaskEnd(Abs().ipc, p, bits);
    }

    /** p gets its flags, and is scheduled if it has none. */
    method BootRise(p: nat, e: BootEntry)
      requires ready.Valid() && p < |proc| == |ready.ent| && Nowhere(ready.rq, p)
      modifies this`proc, ready
      ensures ready.Valid()
      ensures Abs() == State(BootUp(old(Abs()).ipc, p, e),
                             if BootFlags(p, e) == {} then Enqueue(old(Abs()).sched, p) else old(Abs()).sched)
    {
      hide Enqueue;
      var f: set<RtsFlag> := {};
      if e.fullVm {
        f := f + {VmInhibit};
      }
      if p == HARDWARE {
        f := f + {ProcStop};
      }
      assert f == BootFlags(p, e);
      proc := proc[p := proc[p].(rts := f)];
      if f == {} {
        ready.Enqueue(p);
      }
    }

    /** main(): from cleared tables to a kernel that satisfies its invariant. */
    method Start(image: seq<BootEntry>)
      requires ready.Valid() && callers.Valid() && callers.stale == {} && ImageOk(image)
      requires |proc| >= NR_BOOT_PROCS && Abs() == Blank(|proc|)
      modifies this`proc, this`priv, ready, callers`stale
      ensures Valid() && KernelInv(Abs()) && Abs() == BootState(old(|proc|), image)
    {
      hide Booted, Boot.BootOne, KernelInv, Blank, ready.Valid, callers.Valid, StateShape, SchedInv;
      BlankBooted(|proc|);
      BootInv(|proc|, image);
      var p := 0;
      while p < NR_BOOT_PROCS
        invariant 0 <= p <= NR_BOOT_PROCS && ready.Valid() && callers.Valid() && callers.stale == {}
        invariant StateShape(Abs()) && Booted(Abs(), p) && |proc| == old(|proc|)
        invariant BootState(old(|proc|), image) == BootFrom(Abs(), image, p)
      {
        BootOneBooted(Abs(), p, image[p]);
        BootOne(p, image[p]);
        p := p + 1;
      }
      callers.Abandon(Dead(proc));
      InvSched(Abs());
    }

    /** check_runqueues_f() finds nothing to complain about. */
    method CheckRunqueues() returns (ok: bool)
      requires Valid()
      ensures ok
    {
      var t := QA.Table(ready.ent, seq(|proc|, p requires 0 <= p < |proc| reads this => proc[p].rts == {}),
                        seq(|proc|, p requires 0 <= p < |proc| reads this => SlotFree in proc[p].rts),
                        ready.head, ready.tail, ready.next);
      forall x | 0 <= x < |t.ent| && t.ready[x] && !t.free[x] ensures !Nowhere(ready.rq, x) {
        assert x in Ready(Abs().ipc);
        assert x in ready.rq[ready.ent[x].priority];
      }
      forall q, x: nat | 0 <= q < |ready.rq| && x in ready.rq[q] ensures QA.MayBeOn(t, q, x) {
        assert x in Ready(Abs().ipc);
      }
      ghost var rq;
      ok, rq := QA.CheckRunqueues(t, ready.rq);
    }
  }

  lemma BitInRange(i: Ipc, id: nat)
    requires IpcShape(i) && id < BITCHUNK_BITS
    ensures id < |i.privs|
  {
  }

  lemma BootMaskStep(i: Ipc, p: nat, bits: set<nat>, id: nat)
    requires IpcShape(i) && p < |i.procs| && id < BITCHUNK_BITS && id < |i.privs|
    ensures BootMask(i, p, bits, id) == BootMask(if id in bits then Masks.SetSendTo(i, p, id) else i, p, bits, id + 1)
  {
  }

  lemma BootMaskEnd(i: Ipc, p: nat, bits: set<nat>)
    requires IpcShape(i) && p < |i.procs|
    ensures BootMask(i, p, bits, BITCHUNK_BITS) == i
  {
  }

  lemma SetSendToShape(i: Ipc, p: nat, id: nat)
    requires IpcShape(i) && p < |i.procs| && id < |i.privs|
    ensures IpcShape(Masks.SetSendTo(i, p, id))
  {
  }

  lemma BootPrivShape(i: Ipc, p: nat, e: BootEntry)
    requires IpcShape(i) && p < NR_BOOT_PROCS
    ensures IpcShape(BootPriv(i, p, e))
  {
  }

  lemma BootFree(s: State, p: nat)
    requires Booted(s, p) && p < NR_BOOT_PROCS
    ensures s.ipc.procs[p].rts == {SlotFree} && Nowhere(s.sched.rq, p) && NR_BOOT_PROCS <= |s.ipc.procs|
  {
    assert BootedProc(s.ipc.procs[p], p, p);
    assert SlotFree in s.ipc.procs[p].rts;
    assert p !in Ready(s.ipc);
  }

  lemma OffLists(s: Sched, run: set<nat>, p: nat)
    requires SchedInv(s, run)
    ensures p !in run ==> Nowhere(s.rq, p)
  {
  }

  lemma InvSched(s: State)
    requires KernelInv(s)
    ensures StateShape(s) && SchedInv(s.sched, Ready(s.ipc))
  {
  }

  lemma ShorterQueue(i: Ipc, q: nat, k: nat, h: History)
    requires IpcShape(i) && q < |i.cq| && k < |i.cq[q]|
    ensures var j := i.(cq := i.cq[q := RemoveAt(i.cq[q], k)], hist := h); IpcShape(j) && Ready(j) == Ready(i)
  {
    RemoveAtElements(i.cq[q], k);
    SameReady(i, i.(cq := i.cq[q := RemoveAt(i.cq[q], k)], hist := h));
  }

  lemma SendeeLive(i: Ipc, rc: nat, stale: set<nat>)
    requires CoreInv(i) && rc < |i.procs| && StaleOk(i.procs, stale)
    ensures Sending in i.procs[rc].rts ==> i.procs[rc].sendTo.Ep? && i.procs[rc].sendTo.slot !in stale
  {
    assert NamesOk(i, rc);
  }

  lemma MarkedSame(s: State, rc: nat)
    requires StateShape(s) && rc < |s.ipc.procs|
    ensures var r := Spec.RtsSet(s, rc, {NoEndpoint});
            && r.ipc.procs[rc] == s.ipc.procs[rc].(rts := s.ipc.procs[rc].rts + {NoEndpoint}) && r.ipc.cq == s.ipc.cq
  {
  }

  /** A call that passed the checks with a named endpoint names a process in use. */
  lemma NamedCall(s: State, t: Trap)
    requires KernelInv(s) && CheckTrap(s, t) == OK && t.callNr != SENDA && (t.ep != ANY || t.callNr != RECEIVE)
    ensures t.ep != ANY && IsOkEndpoint(s.ipc, t.ep) && NamesOk(s.ipc, t.ep.slot)
  {
  }

  /** After the send half of a SENDREC the caller is still live. */
  lemma SentLive(s: State, t: Trap)
    requires KernelInv(s) && s.ipc.procs[s.sched.procPtr].rts == {} && IsOkEndpoint(s.ipc, t.ep)
    ensures var s0 := s.(ipc := MarkReply(s.ipc, s.sched.procPtr, t.ep));
            Live(MiniSend(s0, s.sched.procPtr, t.ep, Data(t.body), false, t.io).0.ipc.procs[s.sched.procPtr])
  {
    hide Enqueue, Dequeue;
  }

  lemma QueuedNotIdle(s: State, c: nat, k: nat)
    requires KernelInv(s) && c < |s.ipc.procs| && Live(s.ipc.procs[c]) && k < |s.ipc.cq[c]|
    ensures s.ipc.cq[c][k] != IDLE
  {
    assert s.ipc.cq[c][k] in s.ipc.cq[c];
  }

  lemma UnlinkShape(s: State, c: nat, k: nat)
    requires StateShape(s) && c < |s.ipc.procs| && k < |s.ipc.cq[c]|
    ensures var t := s.(ipc := Spec.Unlink(s.ipc, c, k)); StateShape(t) && Ready(t.ipc) == Ready(s.ipc)
  {
    RemoveAtElements(s.ipc.cq[c], k);
    SameReady(s.ipc, Spec.Unlink(s.ipc, c, k));
  }

  /** Nothing is pending in the first n elements. */
  ghost predicate NonePending(t: seq<AsynEntry>, n: nat)
    requires n <= |t|
  {
    forall m :: 0 <= m < n ==> !Undone(t[m])
  }

  lemma NonePendingStep(t: seq<AsynEntry>, n: nat, e: AsynEntry)
    requires n < |t|
    ensures NonePending(t[n := e], n + 1) <==> NonePending(t, n) && !Undone(e)
  {
    var u := t[n := e];
    assert forall m :: 0 <= m < n ==> u[m] == t[m];
    assert u[n] == e;
  }

  /** An element that is not pending is passed over. */
  lemma SkippedElement(s: State, c: nat, e: AsynEntry, n: nat, io: Access)
    requires StateShape(s) && c < |s.ipc.procs| && !Undone(e)
    ensures Spec.SendaOne(s, c, e, n, io) == (s, e, OK)
  {
  }

  lemma LiveOwner(i: Ipc, e: Endpoint, stale: set<nat>)
    requires CoreInv(i) && IsOkEndpoint(i, e) && NoEndpoint !in i.procs[e.slot].rts && StaleOk(i.procs, stale)
    ensures e.slot !in stale
  {
    assert NamesOk(i, e.slot);
  }

  lemma QueueShape(s: State, c: nat, d: nat)
    requires StateShape(s) && c < |s.ipc.procs| && d < |s.ipc.cq|
    ensures var t := s.(ipc := s.ipc.(cq := s.ipc.cq[d := s.ipc.cq[d] + [c]]));
            StateShape(t) && Ready(t.ipc) == Ready(s.ipc)
  {
    SameReady(s.ipc, s.ipc.(cq := s.ipc.cq[d := s.ipc.cq[d] + [c]]));
  }

  lemma MayQueue(s: State, c: nat, dst: Endpoint, stale: set<nat>)
    requires KernelInv(s) && c < |s.ipc.procs| && Sending !in s.ipc.procs[c].rts && StaleOk(s.ipc.procs, stale)
    requires IsOkEndpoint(s.ipc, dst) && NoEndpoint !in s.ipc.procs[dst.slot].rts
    ensures Nowhere(CQ.Current(s.ipc.cq, stale), c) && dst.slot !in stale
  {
    NotQueued(s.ipc, c, stale);
    LiveOwner(s.ipc, dst, stale);
  }

  lemma NotQueued(i: Ipc, c: nat, stale: set<nat>)
    requires CoreInv(i) && c < |i.procs| && Sending !in i.procs[c].rts && StaleOk(i.procs, stale)
    ensures Nowhere(CQ.Current(i.cq, stale), c)
  {
    forall q | 0 <= q < |i.cq| && q !in stale ensures c !in i.cq[q] {
      assert !SendsTo(i, c, q);
    }
  }

  /** A process in use ends up cut off and unreferenced. */
  lemma CutFlags(s: State, rc: nat)
    requires KernelInv(s) && rc < |s.ipc.procs| && !Empty(s.ipc.procs[rc])
    ensures Unreferenced(Lifecycle.ClearEndpoint(s, rc).ipc, rc)
  {
    assert NamesOk(s.ipc, rc);
    ClearEndpointGone(s, rc);
    GoneUnreferenced(s.ipc, Lifecycle.ClearEndpoint(s, rc).ipc, rc);
  }

  lemma FreedShape(s: State, rc: nat)
    requires StateShape(s) && Unreferenced(s.ipc, rc)
    ensures var j := FreeSlot(s.ipc, rc);
            && IpcShape(j) && Ready(j) == Ready(s.ipc) && s.ipc.procs[rc].rts != {} && !Live(j.procs[rc])
  {
    FreeReady(s.ipc, rc);
  }

  /** What a fork that is carried out may rely on. */
  lemma ForkParts(s: State, e: Endpoint, c: nat, inhibit: bool, stale: set<nat>)
    requires KernelInv(s) && c < |s.ipc.procs| && StaleOk(s.ipc.procs, stale)
    requires ForkOk(s.ipc, e, c) && Alone(s.ipc, e.slot)
    ensures s.ipc.procs[c].endpoint.Ep? && e.slot != c && e.slot !in stale && Nowhere(CQ.Current(s.ipc.cq, stale), c)
    ensures Nowhere(s.sched.rq, c) && Nowhere(s.sched.rq, e.slot)
    ensures var t := Forking.Fork(s, e, c, inhibit).0;
            StateShape(t) && SchedInv(t.sched, Ready(t.ipc)) && s.sched.ent[e.slot].priority < NR_SCHED_QUEUES
  {
    hide GraphInv, PrivInv, AsyncInv, LetterInv, SchedInv, Forked;
    var i := s.ipc;
    assert NamesOk(i, c) && NamesOk(i, e.slot);
    assert Birth(i, e.slot, c) && SlotFree in i.procs[c].rts;
    forall q | 0 <= q < |i.cq| && q !in stale ensures c !in i.cq[q] { NobodyNames(i, c, q); }
    assert c !in Ready(i) && (e.slot as nat) !in Ready(i);
    OffLists(s.sched, Ready(i), c);
    OffLists(s.sched, Ready(i), e.slot);
    hide MessageInv;
    ForkedParts(s, e.slot, c, inhibit);
    ForkedSchedInv(s, e.slot, c, inhibit);
  }

  lemma ForkedParts(s: State, p: nat, c: nat, inhibit: bool)
    requires KernelInv(s) && Birth(s.ipc, p, c) && s.ipc.procs[c].endpoint.Ep?
    ensures IpcShape(Forked(s.ipc, p, c, inhibit)) && |Forked(s.ipc, p, c, inhibit).procs| == |s.ipc.procs|
    ensures s.sched.ent[p].priority < NR_SCHED_QUEUES
  {
    ForkedPrivs(s.ipc, p, c, inhibit);
  }
}
