/** What each trap does: which are refused and with which code, and what becomes of the
    message, the notification or the table of one that is not. */
module Traps {
  import opened KernelTypes
  import opened Scheduler
  import opened WaitGraph
  import opened Ipc
  import opened IpcInv
  import opened Letters
  import opened AsyncSends
  import opened KernelOps
  import opened SendaOps
  import opened Syscalls
  import opened ReceiveLimits
  import opened Progress
  import opened Handover

  // ------------------------------------------------------------------ refused traps

  datatype Check = Check(refuses: bool, code: Code)

  /** The call sends to, or receives from, a process named by t.ep. */
  predicate Names(t: Trap) { t.callNr != SENDA && t.ep != ANY }

  /** The process named depends on the caller, and not just by waiting for this very call. */
  ghost predicate Locks(s: State, t: Trap)
    requires KernelInv(s) && Names(t) && t.ep.Ep?
  {
    var i, c, d := s.ipc, s.sched.procPtr, t.ep.slot;
    && 0 <= d < |i.procs| && c < |i.procs| && d != c && Closed(WaitsFor(i)) && Reaches(WaitsFor(i), d, c)
    && !(WaitsFor(i)[d] == Some(c) && (Sending in i.procs[d].rts) != (t.callNr != RECEIVE))
  }

  /** Why sys_call may refuse a trap, in the order of its tests. */
  ghost function Checks(s: State, t: Trap): seq<Check>
    requires KernelInv(s)
  {
    var i, v := s.ipc, s.ipc.privs[s.ipc.procs[s.sched.procPtr].privId];
    var valid := Names(t) && IsOkEndpoint(i, t.ep);
    [ Check(t.ep == ANY && t.callNr !in {SENDA, RECEIVE}, EINVAL),
      Check(Names(t) && !valid, EDEADSRCDST),
      Check(valid && t.callNr != RECEIVE && i.procs[t.ep.slot].privId !in v.ipcTo, ECALLDENIED),
      Check(!(0 <= t.callNr < 32) || t.callNr !in v.trapMask, ETRAPDENIED),
      Check(valid && t.ep.slot < NR_TASKS && t.callNr !in {SENDREC, RECEIVE}, ETRAPDENIED),
      Check(t.callNr == SENDA && |t.table| > 16 * |i.procs|, EDOM),
      Check(valid && t.callNr in {SEND, SENDREC, RECEIVE} && Locks(s, t), ELOCKED) ]
  }

  /** The n-th check is the first to refuse. */
  ghost predicate Refused(cs: seq<Check>, n: nat) {
    n < |cs| && cs[n].refuses && forall m :: 0 <= m < n ==> !cs[m].refuses
  }

  lemma LocksExact(s: State, t: Trap)
    requires KernelInv(s) && CanTrap(s) && t.callNr in {SEND, SENDREC, RECEIVE}
    ensures GraphInv(s.ipc)
    ensures t.ep == ANY ==> Deadlock(s.ipc, t.callNr != RECEIVE, s.sched.procPtr, t.ep) == 0
    ensures Names(t) && IsOkEndpoint(s.ipc, t.ep) ==>
              (Deadlock(s.ipc, t.callNr != RECEIVE, s.sched.procPtr, t.ep) != 0 <==> Locks(s, t))
  {
    var i, c := s.ipc, s.sched.procPtr;
    if Names(t) && IsOkEndpoint(i, t.ep) && t.ep.slot != c {
      DeadlockExact(i, t.callNr != RECEIVE, c, t.ep.slot);
    }
  }

  /** A trap is refused exactly if some check refuses it, then with the code of the first
      that does, and it changes nothing. */
  lemma RefusalExact(s: State, t: Trap)
    requires KernelInv(s) && CanTrap(s)
    ensures CheckTrap(s, t) == OK <==> forall n: nat :: n < |Checks(s, t)| ==> !Checks(s, t)[n].refuses
    ensures forall n: nat :: Refused(Checks(s, t), n) ==> SysCall(s, t) == (s, Checks(s, t)[n].code)
  {
    hide MessageInv, SchedInv, Deadlock, Locks, MiniSend, MiniReceive, MiniNotify, MiniSenda;
    GraphClosed(s);
    if t.callNr in {SEND, SENDREC, RECEIVE} { LocksExact(s, t); }
    var cs := Checks(s, t);
    assert |cs| == 7;
    assert CheckTrap(s, t) == if cs[0].refuses then cs[0].code else if cs[1].refuses then cs[1].code
                              else if cs[2].refuses then cs[2].code else if cs[3].refuses then cs[3].code
                              else if cs[4].refuses then cs[4].code else if cs[5].refuses then cs[5].code
                              else if cs[6].refuses then cs[6].code else OK;
    forall n: nat | Refused(cs, n) ensures SysCall(s, t) == (s, cs[n].code) {
      assert n in {0, 1, 2, 3, 4, 5, 6};
      assert CheckTrap(s, t) == cs[n].code != OK;
    }
  }

  // ----------------------------------------------------------------------- sending

  /** The message of the trap t of c. */
  function LetterOf(i: Ipc, c: nat, t: Trap): Letter
    requires c < |i.procs|
  {
    Letter(i.procs[c].endpoint, t.ep, Data(t.body))
  }

  function MessageOf(i: Ipc, c: nat, t: Trap): Message
    requires c < |i.procs|
  {
    Message(i.procs[c].endpoint, Data(t.body))
  }

  /** The message is accepted, and is in the slot of the process it was sent to, which was
      waiting for it; nobody else notices. */
  ghost predicate Passed(i: Ipc, j: Ipc, c: nat, t: Trap) {
    && c < |i.procs| == |j.procs| && t.ep.Ep? && 0 <= t.ep.slot < |i.procs|
    && j.hist == i.hist.(
         letters := i.hist.letters + [LetterOf(i, c, t)],
         delivered := i.hist.delivered + [Delivery(|i.hist.letters|, t.ep, MessageOf(i, c, t))])
    && InSlot(j, t.ep, MessageOf(i, c, t))
    && j.procs == i.procs[t.ep.slot := i.procs[t.ep.slot].(
         deliverMsg := MessageOf(i, c, t), misc := i.procs[t.ep.slot].misc + {DeliverMsg},
         rts := i.procs[t.ep.slot].rts - {Receiving})]
    && j.cq == i.cq && j.privs == i.privs
  }

  /** The message is accepted, and the caller waits with it, last in the caller queue of the
      process it is for. */
  ghost predicate Waits(i: Ipc, j: Ipc, c: nat, t: Trap) {
    && c < |i.procs| == |j.procs| && t.ep.Ep? && 0 <= t.ep.slot < |i.cq|
    && j.hist == i.hist.(letters := i.hist.letters + [LetterOf(i, c, t)])
    && j.procs == i.procs[c := i.procs[c].(
         rts := i.procs[c].rts + {Sending}, sendTo := t.ep, sendMsg := Data(t.body), sendId := |i.hist.letters|)]
    && j.cq == i.cq[t.ep.slot := i.cq[t.ep.slot] + [c]] && j.privs == i.privs
  }

  ghost predicate IsWaiting(i: Ipc, c: nat, t: Trap) {
    && c < |i.procs| && t.ep.Ep? && 0 <= t.ep.slot < |i.procs|
    && WillReceive(i.procs[t.ep.slot], i.procs[c].endpoint)
  }

  /** mini_send: the message is accepted exactly if it can be read, its destination is alive,
      and that is waiting or the caller may block; otherwise nothing changes. */
  lemma SendExact(s: State, c: nat, t: Trap, nonBlocking: bool)
    requires StateShape(s) && WaitersInUse(s.ipc) && c < |s.ipc.procs| && IsOkEndpoint(s.ipc, t.ep) && t.ep.slot != c
    ensures var i, (r, code) := s.ipc, MiniSend(s, c, t.ep, Data(t.body), nonBlocking, t.io);
            if !t.io.sendMapped then r == s && code == EFAULT
            else if NoEndpoint in i.procs[t.ep.slot].rts then r == s && code == EDSTDIED
            else if !IsWaiting(i, c, t) && nonBlocking then r == s && code == ENOTREADY
            else if !t.io.copied then r == s && code == EFAULT
            else code == OK && if IsWaiting(i, c, t) then Passed(i, r.ipc, c, t) else Waits(i, r.ipc, c, t)
  {
    hide Enqueue, Dequeue;
  }

  /** SEND and SENDNB. */
  lemma SendTrap(s: State, t: Trap)
    requires KernelInv(s) && CanTrap(s) && CheckTrap(s, t) == OK && t.callNr in {SEND, SENDNB}
    ensures IsOkEndpoint(s.ipc, t.ep) && t.ep.slot != s.sched.procPtr
    ensures var i, c, (r, code) := s.ipc, s.sched.procPtr, SysCall(s, t);
            if !t.io.sendMapped then r == s && code == EFAULT
            else if NoEndpoint in i.procs[t.ep.slot].rts then r == s && code == EDSTDIED
            else if !IsWaiting(i, c, t) && t.callNr == SENDNB then r == s && code == ENOTREADY
            else if !t.io.copied then r == s && code == EFAULT
            else code == OK && if IsWaiting(i, c, t) then Passed(i, r.ipc, c, t) else Waits(i, r.ipc, c, t)
  {
    NamedDestination(s, t);
    SendaParts(s);
    GraphClosed(s);
    hide KernelInv, CheckTrap, MiniSend, Passed, Waits, IsWaiting;
    SendExact(s, s.sched.procPtr, t, t.callNr == SENDNB);
  }

  /** NOTIFY. */
  lemma NotifyTrap(s: State, t: Trap)
    requires KernelInv(s) && CanTrap(s) && CheckTrap(s, t) == OK && t.callNr == NOTIFY
    ensures IsOkEndpoint(s.ipc, t.ep) && SysCall(s, t).1 == OK
    ensures var i, c, j := s.ipc, s.sched.procPtr, SysCall(s, t).0.ipc;
            && j.cq == i.cq && j.hist == i.hist
            && if Listens(i, c, t.ep.slot) then NotePut(i, j, c, t.ep.slot) else NotePends(i, j, c, t.ep.slot)
  {
    GraphClosed(s);
    hide MessageInv, SchedInv, MiniNotify, NotePut, NotePends, Listens;
    NotifyExact(s, s.sched.procPtr, t.ep);
  }

  /** A call number that the mask allows and nobody knows. */
  lemma UnknownTrap(s: State, t: Trap)
    requires KernelInv(s) && CanTrap(s) && CheckTrap(s, t) == OK
    requires t.callNr !in {SEND, SENDNB, SENDREC, RECEIVE, NOTIFY, SENDA}
    ensures SysCall(s, t) == (s, EBADCALL)
  {
  }

  // --------------------------------------------------------------------- receiving

  /** The notification of structure id is the one that c gets if it receives from src. */
  ghost predicate Due(i: Ipc, c: nat, src: Endpoint, id: nat)
    requires c < |i.procs| && i.procs[c].privId < |i.privs|
  {
    var bits := i.privs[i.procs[c].privId].notifyPending;
    && id < NR_SYS_PROCS && id in bits
    && id < |i.privs| && i.privs[id].owner.Some? && i.privs[id].owner.value < |i.procs|
    && if src == ANY then forall x :: x in bits ==> id <= x
       else src.Ep? && i.privs[id].owner.value == src.slot && LowestOfChunk(bits, id)
  }

  /** c has the notification of structure id, and with it what it carries. */
  ghost predicate NoteTaken(i: Ipc, j: Ipc, c: nat, id: nat) {
    && c < |i.procs| && id < |i.privs| && i.privs[id].owner.Some? && i.privs[id].owner.value < |i.procs|
    && i.procs[c].privId < |i.privs| == |j.privs|
    && var src, k := i.privs[id].owner.value, i.procs[c].privId;
    && InSlot(j, i.procs[c].endpoint, Message(i.procs[src].endpoint, Notification(
         if src == HARDWARE then i.privs[k].intPending else if src == SYSTEM then i.privs[k].sigPending else {})))
    && j.privs == i.privs[k := i.privs[k].(
         notifyPending := i.privs[k].notifyPending - {id},
         intPending := if src == HARDWARE then {} else i.privs[k].intPending,
         sigPending := if src == SYSTEM then {} else i.privs[k].sigPending)]
    && j.cq == i.cq && j.hist == i.hist
  }

  /** The k-th process queued at c is the first that c would receive from. */
  ghost predicate Foremost(i: Ipc, c: nat, src: Endpoint, k: nat) {
    && c < |i.cq| && k < |i.cq[c]|
    && if src == ANY then k == 0
       else src.Ep? && i.cq[c][k] == src.slot && forall m :: 0 <= m < k ==> i.cq[c][m] != src.slot
  }

  /** c has the letter of the k-th process queued at it, which is free again. */
  ghost predicate LetterTaken(i: Ipc, j: Ipc, c: nat, k: nat) {
    && c < |i.procs| == |j.procs| == |i.cq| && k < |i.cq[c]| && i.cq[c][k] < |i.procs|
    && var x := i.cq[c][k];
    && var y := i.procs[x];
    && InSlot(j, i.procs[c].endpoint, Message(y.endpoint, y.sendMsg))
    && j.hist.delivered == i.hist.delivered + [Delivery(y.sendId, i.procs[c].endpoint, Message(y.endpoint, y.sendMsg))]
    && j.hist.letters == i.hist.letters && j.cq == i.cq[c := RemoveAt(i.cq[c], k)] && Sending !in j.procs[x].rts
    && (ReplyPend in j.procs[c].misc <==> ReplyPend in i.procs[c].misc) && j.procs[c].awaits == i.procs[c].awaits
  }

  /** c waits for src, with nothing in its slot. */
  ghost predicate Blocked(i: Ipc, j: Ipc, c: nat, src: Endpoint) {
    && c < |i.procs| == |j.procs| && DeliverMsg !in j.procs[c].misc && j.hist == i.hist && j.cq == i.cq
    && j.procs[c] == i.procs[c].(getFrom := src, rts := i.procs[c].rts + {Receiving}, misc := j.procs[c].misc)
    && (ReplyPend in j.procs[c].misc <==> ReplyPend in i.procs[c].misc)
    && (forall p :: 0 <= p < |i.procs| && p != c ==> j.procs[p] == i.procs[p])
  }

  /** The search for ANY finds the lowest bit. */
  lemma AnyNotifyExact(privs: seq<Priv>, bits: set<nat>, id: nat)
    requires |privs| == NR_SYS_PROCS
    ensures FindNotify(privs, bits, None, 0) == Some(id) <==>
              id < NR_SYS_PROCS && id in bits && forall x :: x in bits ==> id <= x
  {
    assert FindNotify(privs, bits, None, 2).None?;
    var low, high := LowestBit(bits, 0, BITCHUNK_BITS), LowestBit(bits, BITCHUNK_BITS, 2 * BITCHUNK_BITS);
    assert FindNotify(privs, bits, None, 1) == if high < NR_SYS_PROCS then Some(high) else None;
  }

  lemma OneOwner(s: State, id: nat, k: nat)
    requires KernelInv(s) && id < NR_SYS_PROCS && k < NR_SYS_PROCS
    requires s.ipc.privs[id].owner.Some? && s.ipc.privs[k].owner == s.ipc.privs[id].owner
    ensures k == id
  {
    assert OwnerOk(s.ipc, id) && OwnerOk(s.ipc, k);
  }

  /** What the search of the pending notifications finds is what is due. */
  lemma DueExact(s: State, c: nat, src: Endpoint, id: nat)
    requires KernelInv(s) && c < |s.ipc.procs| && OwnsBits(s, c)
    requires (src != ANY ==> src.Ep? && 0 <= src.slot < |s.ipc.procs|)
    ensures var i, want := s.ipc, if src == ANY then None else Some(src.slot as nat);
            FindNotify(i.privs, i.privs[i.procs[c].privId].notifyPending, want, 0) == Some(id) <==> Due(i, c, src, id)
  {
    hide MessageInv, SchedInv, FindNotify;
    var i := s.ipc;
    var bits := i.privs[i.procs[c].privId].notifyPending;
    if src == ANY {
      AnyNotifyExact(i.privs, bits, id);
    } else if id < NR_SYS_PROCS && id in bits && i.privs[id].owner == Some(src.slot) {
      forall k | 0 <= k < |i.privs| && i.privs[k].owner == i.privs[id].owner ensures k == id { OneOwner(s, id, k); }
      NamedNotifyExact(i.privs, bits, id);
    }
  }

  lemma {:induction false} ForemostExact(q: seq<nat>, src: Option<nat>, k: nat, n: nat)
    requires n <= k < |q|
    ensures FindCaller(q, src, n) == k <==>
              if src.None? then k == n else q[k] == src.value && forall m :: n <= m < k ==> q[m] != src.value
    decreases k - n
  {
    if n < k { ForemostExact(q, src, k, n + 1); }
  }

  lemma TakesNote(i: Ipc, c: nat, id: nat)
    requires IpcShape(i) && c < |i.procs| && i.procs[c].endpoint.Ep? && i.procs[c].endpoint.slot == c
    requires Receiving !in i.procs[c].rts && SlotFree !in i.procs[c].rts
    requires id < NR_SYS_PROCS && i.privs[id].owner.Some?
    ensures NoteTaken(i, TakeNotify(i, c, id), c, id)
  {
  }

  lemma TakesLetter(s: State, c: nat, k: nat)
    requires KernelInv(s) && c < |s.ipc.procs| && Live(s.ipc.procs[c]) && k < |s.ipc.cq[c]|
    requires Receiving !in s.ipc.procs[c].rts
    ensures LetterTaken(s.ipc, TakeQueued(s, c, k).ipc, c, k)
  {
    NotInOwnQueue(s, c, k);
    hide KernelInv, SigDelayDone, Enqueue;
    var x := s.ipc.cq[c][k];
    var y := s.ipc.procs[x];
    var s1 := s.(ipc := QueueMess(s.ipc, c, y.endpoint, y.sendMsg));
    assert Full(s1.ipc.procs[c]);
    SigDelayDoneFrame(s1, x);
    SigDelayOthers(s1, x, c);
  }

  /** Signalling x leaves a process that is not receiving as it is. */
  lemma SigDelayOthers(s: State, x: nat, c: nat)
    requires StateShape(s) && x < |s.ipc.procs| && c < |s.ipc.procs| && c != x && Receiving !in s.ipc.procs[c].rts
    ensures SigDelayDone(s, x).ipc.procs[c] == s.ipc.procs[c]
  {
    hide Enqueue, Dequeue;
  }

  /** mini_receive by a process that is not sending, where it is safe: a notification that is
      due comes first, unless an answer is awaited, then the foremost letter in the caller
      queue, then an element of a table, and without any of these the caller waits. */
  lemma ReceiveExact(s: State, c: nat, src: Endpoint, io: Access)
    requires KernelInv(s) && MayReceive(s, c, src) && Sending !in s.ipc.procs[c].rts && OwnsBits(s, c)
    requires ReceiveSafe(s, c, src, false, io) && io.receiveMapped
    requires !(src != ANY && NoEndpoint in s.ipc.procs[src.slot].rts)
    ensures var i, (r, code) := s.ipc, MiniReceive(s, c, src, false, io);
            && code == OK
            && (forall id: nat :: ReplyPend !in i.procs[c].misc && Due(i, c, src, id) ==> NoteTaken(i, r.ipc, c, id))
            && (!(ReplyPend !in i.procs[c].misc && exists id: nat :: Due(i, c, src, id)) ==>
                  && (forall k: nat :: Foremost(i, c, src, k) ==> LetterTaken(i, r.ipc, c, k))
                  && (!(exists k: nat :: Foremost(i, c, src, k)) ==>
                        || Gave(i, r.ipc, c, if src == ANY then None else Some(src.slot as nat))
                        || Blocked(i, r.ipc, c, src)))
  {
    hide MessageInv, SchedInv, Enqueue, TakeQueued, TakeNotify, ReceiveAsync, FindNotify, FindCaller, Due, NoteTaken,
      LetterTaken, Gave, Blocked, BlockReceive, AsyncSafe, WaitsFor, Reaches;
    var i := s.ipc;
    var want: Option<nat> := if src == ANY then None else Some(src.slot);
    var note := if ReplyPend in i.procs[c].misc then None
                else FindNotify(i.privs, i.privs[i.procs[c].privId].notifyPending, want, 0);
    forall id: nat ensures ReplyPend !in i.procs[c].misc ==> (note == Some(id) <==> Due(i, c, src, id)) {
      DueExact(s, c, src, id);
    }
    var k := FindCaller(i.cq[c], want, 0);
    forall m: nat ensures Foremost(i, c, src, m) <==> m == k < |i.cq[c]| {
      if m < |i.cq[c]| { ForemostExact(i.cq[c], want, m, 0); }
    }
    if note.Some? {
      OwnName(s, c);
      TakesNote(i, c, note.value);
    } else if k < |i.cq[c]| {
      assert Foremost(i, c, src, k);
      TakesLetter(s, c, k);
    } else {
      SourceInUse(s, src);
      ReceiveAsyncGives(i, c, want, io);
      ReceiveAsyncEffect(i, c, want, io);
      var (j, code) := ReceiveAsync(i, c, want, io);
      if code != OK { Blocks(s, j, c, src); }
    }
  }

  lemma OwnName(s: State, c: nat)
    requires KernelInv(s) && c < |s.ipc.procs|
    ensures s.ipc.procs[c].endpoint.Ep? && s.ipc.procs[c].endpoint.slot == c
  {
    assert NamesOk(s.ipc, c);
  }

  lemma Blocks(s: State, j: Ipc, c: nat, src: Endpoint)
    requires StateShape(s.(ipc := j)) && |j.procs| == |s.ipc.procs| && Told(s.ipc, j, c)
    requires DeliverMsg !in s.ipc.procs[c].misc
    ensures Blocked(s.ipc, BlockReceive(s.(ipc := j), c, src).ipc, c, src)
  {
    hide Dequeue;
  }

  /** RECEIVE, where it is safe. */
  lemma ReceiveTrap(s: State, t: Trap)
    requires KernelInv(s) && CanTrap(s) && CheckTrap(s, t) == OK && t.callNr == RECEIVE && TrapSafe(s, t)
    ensures t.ep != ANY ==> IsOkEndpoint(s.ipc, t.ep)
    ensures var c, (r, code) := s.sched.procPtr, SysCall(s, t);
            var i := WithProc(s.ipc, c, s.ipc.procs[c].(misc := s.ipc.procs[c].misc - {ReplyPend}));
            if !t.io.receiveMapped then r.ipc == i && code == EFAULT
            else if t.ep != ANY && NoEndpoint in i.procs[t.ep.slot].rts then r.ipc == i && code == ESRCDIED
            else
              && code == OK
              && (forall id: nat :: Due(i, c, t.ep, id) ==> NoteTaken(i, r.ipc, c, id))
              && (!(exists id: nat :: Due(i, c, t.ep, id)) ==>
                    && (forall k: nat :: Foremost(i, c, t.ep, k) ==> LetterTaken(i, r.ipc, c, k))
                    && (!(exists k: nat :: Foremost(i, c, t.ep, k)) ==>
                          || Gave(i, r.ipc, c, if t.ep == ANY then None else Some(t.ep.slot as nat))
                          || Blocked(i, r.ipc, c, t.ep)))
  {
    hide MessageInv, SchedInv, MiniReceive, ReceiveSafe, MayReceive, Deadlock, Due, NoteTaken, Foremost, LetterTaken,
      Gave,
      Blocked;
    var c := s.sched.procPtr;
    var s0 := s.(ipc := ClearReply(s.ipc, c));
    GraphClosed(s);
    MarkReplyInv(s, c, t.ep);
    ReceiveMay(s, t);
    CallerHasBits(s, c);
    assert ReplyPend !in s0.ipc.procs[c].misc;
    if t.io.receiveMapped && !(t.ep != ANY && NoEndpoint in s0.ipc.procs[t.ep.slot].rts) {
      ReceiveExact(s0, c, t.ep, t.io);
    } else {
      ReceiveRefused(s0, c, t.ep, t.io);
    }
  }

  lemma ReceiveRefused(s: State, c: nat, src: Endpoint, io: Access)
    requires StateShape(s) && c < |s.ipc.procs| && (src != ANY ==> IsOkEndpoint(s.ipc, src)) && OwnsBits(s, c)
    ensures !io.receiveMapped ==> MiniReceive(s, c, src, false, io) == (s, EFAULT)
    ensures io.receiveMapped && src != ANY && NoEndpoint in s.ipc.procs[src.slot].rts ==>
              MiniReceive(s, c, src, false, io) == (s, ESRCDIED)
  {
  }

  // ----------------------------------------------------------------------- SENDREC

  lemma BlockedSender(s: State, c: nat, src: Endpoint, io: Access)
    requires StateShape(s) && c < |s.ipc.procs| && IsOkEndpoint(s.ipc, src) && OwnsBits(s, c)
    requires Sending in s.ipc.procs[c].rts && NoEndpoint !in s.ipc.procs[src.slot].rts
    ensures var (r, code) := MiniReceive(s, c, src, false, io);
            if !io.receiveMapped then r == s && code == EFAULT
            else
              && code == OK && r.ipc.hist == s.ipc.hist && r.ipc.cq == s.ipc.cq
              && r.ipc.procs == s.ipc.procs[c := s.ipc.procs[c].(
                   getFrom := src, rts := s.ipc.procs[c].rts + {Receiving})]
  {
    hide Dequeue;
  }

  /** The caller has an answer in its slot, or waits for one. */
  ghost predicate Answered(j: Ipc, c: nat, e: Endpoint) {
    c < |j.procs| &&
    if Full(j.procs[c]) then j.procs[c].deliverMsg.source == e && j.procs[c].deliverMsg.content.Data?
    else Receiving in j.procs[c].rts && j.procs[c].getFrom == e
  }

  /** A SENDREC to a live process, whose message can be read, sends that message and nothing
      else.  If it is passed on at once, it is in the slot of its receiver, and the caller has
      an answer or waits for one; if not, the caller waits in the queue of its receiver, and
      for the answer. */
  lemma SendRecTrap(s: State, t: Trap)
    requires KernelInv(s) && CanTrap(s) && CheckTrap(s, t) == OK && t.callNr == SENDREC && TrapSafe(s, t)
    ensures IsOkEndpoint(s.ipc, t.ep) && t.ep.slot != s.sched.procPtr
    ensures var i, c, (r, code) := s.ipc, s.sched.procPtr, SysCall(s, t);
            var i0 := WithProc(i, c, i.procs[c].(misc := i.procs[c].misc + {ReplyPend}, awaits := t.ep));
            if !t.io.sendMapped then r.ipc == i0 && code == EFAULT
            else if NoEndpoint in i.procs[t.ep.slot].rts then r.ipc == i0 && code == EDSTDIED
            else if !t.io.copied then r.ipc == i0 && code == EFAULT
            else
              && c < |r.ipc.procs| && ReplyPend in r.ipc.procs[c].misc && r.ipc.procs[c].awaits == t.ep
              && code == (if t.io.receiveMapped then OK else EFAULT)
              && r.ipc.hist.letters == i.hist.letters + [LetterOf(i, c, t)]
              && if IsWaiting(i, c, t) then
                   && i.hist.delivered + [Delivery(|i.hist.letters|, t.ep, MessageOf(i, c, t))] <= r.ipc.hist.delivered
                   && InSlot(r.ipc, t.ep, MessageOf(i, c, t))
                   && (t.io.receiveMapped ==> Answered(r.ipc, c, t.ep))
                 else
                   && r.ipc.procs[c].rts == (if t.io.receiveMapped then {Sending, Receiving} else {Sending})
                   && r.ipc.procs[c].sendTo == t.ep && r.ipc.procs[c].sendMsg == Data(t.body)
                   && (t.io.receiveMapped ==> r.ipc.procs[c].getFrom == t.ep)
                   && r.ipc.cq == i.cq[t.ep.slot := i.cq[t.ep.slot] + [c]]
  {
    hide MessageInv, SchedInv, MiniReceive, MiniSend, ReceiveSafe, MayReceive, Deadlock, CheckTrap, Answered;
    var i, c := s.ipc, s.sched.procPtr;
    var s0 := s.(ipc := MarkReply(i, c, t.ep));
    NamedDestination(s, t);
    MarkReplyInv(s, c, t.ep);
    SendRecInv(s, t);
    SendaParts(s0);
    SendExact(s0, c, t, false);
    var (s1, code) := MiniSend(s0, c, t.ep, Data(t.body), false, t.io);
    if code == OK {
      SentMayReceive(s0, c, t.ep, Data(t.body), t.io);
      CallerHasBits(s0, c);
      SentEndpoint(s0, c, t.ep, Data(t.body), t.io) by { OkSlot(s0, t.ep); }
      if IsWaiting(i, c, t) {
        RepliedTo(s1, c, t.ep, MessageOf(i, c, t), t.io);
      } else {
        BlockedSender(s1, c, t.ep, t.io);
        assert {} + {Sending} == {Sending} && {Sending} + {Receiving} == {Sending, Receiving};
      }
    }
  }

  /** m stays where it is, and the caller has an answer or waits for one. */
  ghost predicate Replied(i: Ipc, j: Ipc, c: nat, e: Endpoint, m: Message) {
    && j.hist.letters == i.hist.letters && i.hist.delivered <= j.hist.delivered
    && InSlot(j, e, m) && Answered(j, c, e) && ReplyPend in j.procs[c].misc && j.procs[c].awaits == e
  }

  /** The receive half, after the send half has passed m on to e. */
  lemma RepliedTo(s: State, c: nat, e: Endpoint, m: Message, io: Access)
    requires KernelInv(s) && MayReceive(s, c, e) && OwnsBits(s, c) && ReceiveSafe(s, c, e, false, io)
    requires Sending !in s.ipc.procs[c].rts && ReplyPend in s.ipc.procs[c].misc && s.ipc.procs[c].awaits == e
    requires e.Ep? && e.slot != c && InSlot(s.ipc, e, m) && NoEndpoint !in s.ipc.procs[e.slot].rts
    ensures var (r, code) := MiniReceive(s, c, e, false, io);
            if io.receiveMapped then code == OK && Replied(s.ipc, r.ipc, c, e, m) else r == s && code == EFAULT
  {
    ReceiveRefused(s, c, e, io);
    hide KernelInv, MiniReceive, ReceiveSafe, MayReceive, Due, NoteTaken, Gave, Blocked, LetterTaken, Foremost,
      Replied, InSlot;
    if io.receiveMapped {
      MayReceiveParts(s, c, e);
      ReceiveExact(s, c, e, io);
      var i, j := s.ipc, MiniReceive(s, c, e, false, io).0.ipc;
      if k: nat :| Foremost(i, c, e, k) {
        ReceivedLetter(s, c, e, k, io);
        LetterReplies(s, c, k, e, m);
      } else if Gave(i, j, c, Some(e.slot as nat)) {
        GaveReplies(i, j, c, e, m);
      } else {
        BlockedReplies(i, j, c, e, m);
      }
    }
  }

  lemma GaveReplies(i: Ipc, j: Ipc, c: nat, e: Endpoint, m: Message)
    requires InSlot(i, e, m) && e.slot != c && Gave(i, j, c, Some(e.slot)) && c < |i.procs|
    requires Receiving !in i.procs[c].rts && Live(i.procs[c]) && ReplyPend in i.procs[c].misc && i.procs[c].awaits == e
    ensures Replied(i, j, c, e, m)
  {
    var v: nat, n: nat :| GaveFirst(i, j, v, n, c) && i.privs[v].owner == Some(e.slot);
  }

  lemma BlockedReplies(i: Ipc, j: Ipc, c: nat, e: Endpoint, m: Message)
    requires InSlot(i, e, m) && e.slot != c && Blocked(i, j, c, e)
    requires ReplyPend in i.procs[c].misc && i.procs[c].awaits == e
    ensures Replied(i, j, c, e, m)
  {
  }

  lemma LetterReplies(s: State, c: nat, k: nat, e: Endpoint, m: Message)
    requires KernelInv(s) && c < |s.ipc.procs| && Live(s.ipc.procs[c]) && InSlot(s.ipc, e, m)
    requires Foremost(s.ipc, c, e, k)
    requires DeliverMsg !in s.ipc.procs[c].misc && Receiving !in s.ipc.procs[c].rts
    requires ReplyPend in s.ipc.procs[c].misc && s.ipc.procs[c].awaits == e
    ensures Replied(s.ipc, TakeQueued(s, c, k).ipc, c, e, m)
  {
    SendaParts(s);
    hide KernelInv, TakeQueued, Answered;
    TakesLetter(s, c, k);
    LetterAnswers(s, c, e, k, TakeQueued(s, c, k).ipc);
    LetterLeaves(s, c, k, e, m);
  }

  lemma MayReceiveParts(s: State, c: nat, e: Endpoint)
    requires MayReceive(s, c, e)
    ensures c < |s.ipc.procs| && Live(s.ipc.procs[c]) && DeliverMsg !in s.ipc.procs[c].misc
    ensures Receiving !in s.ipc.procs[c].rts
  {
  }

  lemma LetterAnswers(s: State, c: nat, e: Endpoint, k: nat, j: Ipc)
    requires KernelInv(s) && c < |s.ipc.procs| && Live(s.ipc.procs[c]) && e.Ep? && Foremost(s.ipc, c, e, k)
    requires 0 <= e.slot < |s.ipc.procs| && s.ipc.procs[e.slot].endpoint == e && LetterTaken(s.ipc, j, c, k)
    ensures Answered(j, c, e)
  {
    assert s.ipc.cq[c][k] in s.ipc.cq[c] && SendsTo(s.ipc, e.slot, c);
    assert NamesOk(s.ipc, e.slot) && NamesOk(s.ipc, c);
  }

  lemma ReceivedLetter(s: State, c: nat, src: Endpoint, k: nat, io: Access)
    requires KernelInv(s) && MayReceive(s, c, src) && OwnsBits(s, c) && Foremost(s.ipc, c, src, k) && io.receiveMapped
    requires src.Ep? && NoEndpoint !in s.ipc.procs[src.slot].rts
    requires Sending !in s.ipc.procs[c].rts && ReplyPend in s.ipc.procs[c].misc
    ensures MiniReceive(s, c, src, false, io).0 == TakeQueued(s, c, k)
  {
    hide KernelInv, TakeQueued;
    ForemostExact(s.ipc.cq[c], Some(src.slot), k, 0);
  }

  lemma LetterLeaves(s: State, c: nat, k: nat, e: Endpoint, m: Message)
    requires KernelInv(s) && c < |s.ipc.procs| && Live(s.ipc.procs[c]) && k < |s.ipc.cq[c]| && InSlot(s.ipc, e, m)
    requires DeliverMsg !in s.ipc.procs[c].misc && Receiving !in s.ipc.procs[c].rts
    ensures InSlot(TakeQueued(s, c, k).ipc, e, m)
  {
    hide MessageInv, SchedInv, TakeQueued, LettersHanded, PostsHanded, Explained, BitsTaken, SignalsTaken, TablesStay;
    SendaParts(s);
    NotInOwnQueue(s, c, k);
    TakeQueuedHands(s, c, k, c);
  }

  // ------------------------------------------------------------------------- SENDA

  /** Element e of the table of c names a live process that c may send to. */
  ghost predicate Deliverable(i: Ipc, c: nat, e: AsynEntry)
    requires c < |i.procs| && i.procs[c].privId < |i.privs|
  {
    NamesLive(i, e.dst) && MaySendTo(i, c, e.dst.slot)
  }

  /** What has become of element e, with number n of call serial, which is now u: sent, kept
      for its receiver, which has been told, or marked as failed. */
  ghost predicate Settled(i: Ipc, j: Ipc, c: nat, e: AsynEntry, u: AsynEntry, serial: nat, n: nat)
    requires c < |i.procs| && i.procs[c].privId < |i.privs|
  {
    if Deliverable(i, c, e) then
      || (Done in u.flags && u.result == OK && (serial, n) in j.hist.asynSent)
      || (u == e && e.dst.slot < |j.procs| && AsynMsg in j.procs[e.dst.slot].misc)
    else Done in u.flags && u.result != OK
  }

  /** No copy of an element of the table of structure k faults from the n-th on, and their
      flags are right. */
  ghost predicate GoodTable(t: seq<AsynEntry>, k: nat, n: nat, io: Access) {
    forall m: nat :: n <= m < |t| ==> GoodElement(t[m], k, m, io)
  }

  ghost predicate GoodElement(e: AsynEntry, k: nat, n: nat, io: Access) {
    !BadFlags(e) && forall f :: !Faults(io, k, n, f)
  }

  /** j follows i in the loop of mini_senda. */
  ghost predicate LoopFrame(i: Ipc, j: Ipc) {
    SendaFrame(i, j) && i.hist.asynSent <= j.hist.asynSent
  }

  lemma SendaOneSettles(s: State, c: nat, e: AsynEntry, n: nat, io: Access)
    requires StateShape(s) && NameInv(s.ipc) && c < |s.ipc.procs| && Undone(e)
    requires forall f :: !Faults(io, s.ipc.procs[c].privId, n, f)
    ensures var (r, u, code) := SendaOne(s, c, e, n, io);
            && code == OK && Settled(s.ipc, r.ipc, c, e, u, s.ipc.hist.serial, n) && LoopFrame(s.ipc, r.ipc)
            && (Deliverable(s.ipc, c, e) && WillReceive(s.ipc.procs[e.dst.slot], s.ipc.procs[c].endpoint)
                && !(NoReply in e.flags && ReplyPend in s.ipc.procs[e.dst.slot].misc) ==>
                  (s.ipc.hist.serial, n) in r.ipc.hist.asynSent)
  {
    hide Enqueue, StateShape;
    SendaOneFrame(s, c, e, n, io);
    if e.dst.Ep? && 0 <= e.dst.slot < |s.ipc.procs| { assert NamesOk(s.ipc, e.dst.slot); }
  }

  lemma SettledLater(i: Ipc, m: Ipc, j: Ipc, c: nat, e: AsynEntry, u: AsynEntry, serial: nat, n: nat)
    requires IpcShape(i) && IpcShape(m) && c < |i.procs| && LoopFrame(i, m) && LoopFrame(m, j)
    ensures Settled(i, m, c, e, u, serial, n) ==> Settled(i, j, c, e, u, serial, n)
    ensures Settled(m, j, c, e, u, serial, n) ==> Settled(i, j, c, e, u, serial, n)
    ensures LoopFrame(i, j)
  {
  }

  /** The loop of mini_senda settles every element that is to be sent, with the others left as
      they are. */
  lemma {:induction false} SendaSettles(s: State, c: nat, t: seq<AsynEntry>, n: nat, io: Access)
    requires KernelInv(s) && c < |s.ipc.procs| && n <= |t| && GoodTable(t, s.ipc.procs[c].privId, n, io)
    requires SendaLoop(s.ipc, s.ipc.procs[c].privId, t, n)
    ensures var (r, u, code) := SendaFrom(s, c, t, n, io);
            && code == OK && LoopFrame(s.ipc, r.ipc)
            && (forall m :: 0 <= m < |t| && (m < n || !Undone(t[m])) ==> u[m] == t[m])
            && (forall m :: n <= m < |t| && Undone(t[m]) ==> Settled(s.ipc, r.ipc, c, t[m], u[m], s.ipc.hist.serial, m))
    decreases |t| - n
  {
    hide KernelInv, SendaOne, SendaLoop, NameInv, Settled, LoopFrame, GoodTable;
    KernelNames(s);
    LoopFrameSame(s.ipc);
    if n < |t| {
      GoodNow(t, s.ipc.procs[c].privId, n, io);
      SendaOneInv(s, c, t, n, io);
      SendaOneLoop(s, c, t, n, io);
      var (s1, e, code) := SendaOne(s, c, t[n], n, io);
      SendaOneSame(s, c, t[n], n, io);
      if Undone(t[n]) { SendaOneSettles(s, c, t[n], n, io); }
      SamePrivLater(s.ipc, s1.ipc, c);
      var t1 := t[n := e];
      GoodRest(t, s.ipc.procs[c].privId, n, e, io);
      SendaSettles(s1, c, t1, n + 1, io);
      var (r, u, code1) := SendaFrom(s1, c, t1, n + 1, io);
      KernelNames(s1);
      forall m | n <= m < |t| && Undone(t[m]) ensures Settled(s.ipc, r.ipc, c, t[m], u[m], s.ipc.hist.serial, m) {
        SettledLater(s.ipc, s1.ipc, r.ipc, c, t[m], u[m], s.ipc.hist.serial, m);
      }
      SettledLater(s.ipc, s1.ipc, r.ipc, c, t[n], u[n], s.ipc.hist.serial, n);
    }
  }

  lemma LoopFrameSame(i: Ipc)
    ensures LoopFrame(i, i)
  {
  }

  lemma SamePrivLater(i: Ipc, j: Ipc, c: nat)
    requires LoopFrame(i, j) && c < |i.procs|
    ensures |j.procs| == |i.procs| && j.procs[c].privId == i.procs[c].privId && j.hist.serial == i.hist.serial
  {
  }

  lemma SendaOneSame(s: State, c: nat, e: AsynEntry, n: nat, io: Access)
    requires StateShape(s) && c < |s.ipc.procs|
    ensures !Undone(e) ==> SendaOne(s, c, e, n, io) == (s, e, OK)
    ensures LoopFrame(s.ipc, SendaOne(s, c, e, n, io).0.ipc)
  {
    SendaOneFrame(s, c, e, n, io);
    hide StateShape, SendaFrame, RtsUnset;
  }

  lemma GoodNow(t: seq<AsynEntry>, k: nat, n: nat, io: Access)
    requires GoodTable(t, k, n, io) && n < |t|
    ensures !BadFlags(t[n]) && forall f :: !Faults(io, k, n, f)
  {
    assert GoodElement(t[n], k, n, io);
  }

  lemma GoodRest(t: seq<AsynEntry>, k: nat, n: nat, e: AsynEntry, io: Access)
    requires GoodTable(t, k, n, io) && n < |t|
    ensures GoodTable(t[n := e], k, n + 1, io)
  {
  }

  /** Element e may be handed to the process d, which waits for c. */
  predicate Suits(i: Ipc, c: nat, d: nat, e: AsynEntry)
    requires c < |i.procs| && d < |i.procs|
  {
    && Undone(e) && e.dst == i.procs[d].endpoint && WillReceive(i.procs[d], i.procs[c].endpoint)
    && !(NoReply in e.flags && ReplyPend in i.procs[d].misc)
  }

  /** An element that does not suit d leaves d waiting as it was. */
  lemma SendaOther(s: State, c: nat, e: AsynEntry, n: nat, io: Access, d: nat, f: AsynEntry)
    requires StateShape(s) && c < |s.ipc.procs| && d < |s.ipc.procs| && !Suits(s.ipc, c, d, e)
    ensures var i, j := s.ipc, SendaOne(s, c, e, n, io).0.ipc;
            && j.procs[c].endpoint == i.procs[c].endpoint
            && (WillReceive(i.procs[d], i.procs[c].endpoint) ==> (Suits(j, c, d, f) <==> Suits(i, c, d, f)))
  {
    hide Enqueue, StateShape;
  }

  /** The first element that suits a waiting process is handed to it. */
  lemma {:induction false} SendaWakes(s: State, c: nat, t: seq<AsynEntry>, n: nat, io: Access, d: nat, m: nat)
    requires KernelInv(s) && c < |s.ipc.procs| && d < |s.ipc.procs| && n <= m < |t|
    requires GoodTable(t, s.ipc.procs[c].privId, n, io) && SendaLoop(s.ipc, s.ipc.procs[c].privId, t, n)
    requires Suits(s.ipc, c, d, t[m]) && Deliverable(s.ipc, c, t[m])
    requires forall x :: n <= x < m ==> !Suits(s.ipc, c, d, t[x])
    ensures (s.ipc.hist.serial, m) in SendaFrom(s, c, t, n, io).0.ipc.hist.asynSent
    decreases m - n
  {
    hide KernelInv, SendaOne, SendaLoop, NameInv, LoopFrame, GoodTable, Settled, WillReceive, Undone;
    KernelNames(s);
    GoodNow(t, s.ipc.procs[c].privId, n, io);
    SendaOneInv(s, c, t, n, io);
    SendaOneLoop(s, c, t, n, io);
    var (s1, e, code) := SendaOne(s, c, t[n], n, io);
    SendaOneSame(s, c, t[n], n, io);
    SamePrivLater(s.ipc, s1.ipc, c);
    GoodRest(t, s.ipc.procs[c].privId, n, e, io);
    if Undone(t[n]) { SendaOneSettles(s, c, t[n], n, io); }
    var t1 := t[n := e];
    if n == m {
      OwnName(s, d);
      SendaSettles(s1, c, t1, n + 1, io);
      LoopSent(s1.ipc, SendaFrom(s1, c, t1, n + 1, io).0.ipc, (s.ipc.hist.serial, m));
    } else {
      forall x | n < x <= m ensures Suits(s1.ipc, c, d, t1[x]) <==> x == m { SendaOther(s, c, t[n], n, io, d, t[x]); }
      StillDeliverable(s.ipc, s1.ipc, c, t[m]);
      SendaWakes(s1, c, t1, n + 1, io, d, m);
    }
  }

  lemma LoopSent(i: Ipc, j: Ipc, a: (nat, nat))
    requires LoopFrame(i, j) && a in i.hist.asynSent
    ensures a in j.hist.asynSent
  {
    var n :| 0 <= n < |i.hist.asynSent| && i.hist.asynSent[n] == a;
    assert j.hist.asynSent[n] == a;
  }

  lemma StillDeliverable(i: Ipc, j: Ipc, c: nat, e: AsynEntry)
    requires IpcShape(i) && IpcShape(j) && c < |i.procs| && LoopFrame(i, j) && Deliverable(i, c, e)
    ensures c < |j.procs| && Deliverable(j, c, e)
  {
  }

  lemma {:induction false} SendaKeepsCalls(s: State, c: nat, t: seq<AsynEntry>, n: nat, io: Access)
    requires StateShape(s) && c < |s.ipc.procs| && n <= |t|
    ensures SendaFrom(s, c, t, n, io).0.ipc.hist.calls == s.ipc.hist.calls
    decreases |t| - n
  {
    hide RtsUnset;
    if n < |t| && !BadFlags(t[n]) && !Faults(io, s.ipc.procs[c].privId, n, NoFlags) {
      OneKeepsCalls(s, c, t[n], n, io);
      var (s1, e, code) := SendaOne(s, c, t[n], n, io);
      if code == OK { SendaKeepsCalls(s1, c, t[n := e], n + 1, io); }
    }
  }

  lemma OneKeepsCalls(s: State, c: nat, e: AsynEntry, n: nat, io: Access)
    requires StateShape(s) && c < |s.ipc.procs|
    ensures SendaOne(s, c, e, n, io).0.ipc.hist.calls == s.ipc.hist.calls
  {
    hide Enqueue;
  }

  /** What SENDA makes of a good table: every element to be sent is settled, the first that
      suits a waiting process is handed to it, and if any are left the table is kept. */
  ghost predicate TableSettled(i: Ipc, j: Ipc, c: nat, t: seq<AsynEntry>) {
    && c < |i.procs| && i.procs[c].privId < |i.privs| == |j.privs|
    && var k, serial := i.procs[c].privId, i.hist.serial + 1;
    && (exists u: seq<AsynEntry> :: |u| == |t| && AllSettled(i, j, c, t, u) && KeptIfPending(j.privs[k], u, serial))
    && forall d: nat, m: nat :: d < |i.procs| && FirstSuiting(i, c, d, t, m) ==> (serial, m) in j.hist.asynSent
  }

  ghost predicate AllSettled(i: Ipc, j: Ipc, c: nat, t: seq<AsynEntry>, u: seq<AsynEntry>)
    requires c < |i.procs| && i.procs[c].privId < |i.privs| && |u| == |t|
  {
    forall m :: 0 <= m < |t| ==>
      if Undone(t[m]) then Settled(i, j, c, t[m], u[m], i.hist.serial + 1, m) else u[m] == t[m]
  }

  ghost predicate KeptIfPending(v: Priv, u: seq<AsynEntry>, serial: nat) {
    if exists m :: 0 <= m < |u| && Undone(u[m]) then v.asyn == u && v.serial == serial else v.asyn == []
  }

  ghost predicate FirstSuiting(i: Ipc, c: nat, d: nat, t: seq<AsynEntry>, m: nat)
    requires c < |i.procs| && d < |i.procs| && i.procs[c].privId < |i.privs|
  {
    && m < |t| && Suits(i, c, d, t[m]) && Deliverable(i, c, t[m])
    && forall x :: 0 <= x < m ==> !Suits(i, c, d, t[x])
  }

  /** SENDA: a process that may not is told so; otherwise the call is noted, the previous
      table is given up, and a good table is settled. */
  lemma SendaTrap(s: State, t: Trap)
    requires KernelInv(s) && CanTrap(s) && CheckTrap(s, t) == OK && t.callNr == SENDA
    ensures var i, c, (r, code) := s.ipc, s.sched.procPtr, SysCall(s, t);
            var k, j := i.procs[c].privId, r.ipc;
            if SysProc !in i.privs[k].flags then r == s && code == EPERM
            else
              && j.hist.calls == i.hist.calls + [SendaCall(i.procs[c].endpoint, t.table)]
              && |j.privs| == |i.privs|
              && if |t.table| == 0 then code == OK && j.privs[k].asyn == []
                 else if !t.io.sendMapped then code == EFAULT && j.privs[k].asyn == []
                 else GoodTable(t.table, k, 0, t.io) ==> code == OK && TableSettled(i, j, c, t.table)
  {
    hide MessageInv, SchedInv, SendaFrom, SendaLoop, GoodTable, TableSettled;
    GraphClosed(s);
    var i, c := s.ipc, s.sched.procPtr;
    var k, io := i.procs[c].privId, t.io;
    if SysProc in i.privs[k].flags {
      var s1 := s.(ipc := OpenCall(i, c, t.table));
      OpenInv(s, c, t.table);
      SendaKeepsCalls(s1, c, t.table, 0, io);
      SendaFromInv(s1, c, t.table, 0, io);
      if 0 < |t.table| && io.sendMapped && GoodTable(t.table, k, 0, io) {
        SendaTable(s, c, t.table, io);
      }
    }
  }

  lemma SendaTable(s: State, c: nat, t: seq<AsynEntry>, io: Access)
    requires KernelInv(s) && c < |s.ipc.procs| && SysProc in s.ipc.privs[s.ipc.procs[c].privId].flags
    requires 0 < |t| <= 16 * |s.ipc.procs| && io.sendMapped && GoodTable(t, s.ipc.procs[c].privId, 0, io)
    ensures MiniSenda(s, c, t, io).1 == OK && TableSettled(s.ipc, MiniSenda(s, c, t, io).0.ipc, c, t)
  {
    hide MessageInv, SchedInv, SendaFrom, SendaLoop, GoodTable, Settled, LoopFrame, FirstSuiting, Undone;
    var i, k := s.ipc, s.ipc.procs[c].privId;
    var s1 := s.(ipc := OpenCall(i, c, t));
    OpenInv(s, c, t);
    SendaSettles(s1, c, t, 0, io);
    var (s2, u, code) := SendaFrom(s1, c, t, 0, io);
    var j := MiniSenda(s, c, t, io).0.ipc;
    SamePrivLater(s1.ipc, s2.ipc, c);
    LoopTable(s1.ipc, s2.ipc, k);
    assert AllSettled(i, j, c, t, u) by {
      forall m | 0 <= m < |t| && Undone(t[m]) ensures Settled(i, j, c, t[m], u[m], i.hist.serial + 1, m) {
        OpenSettled(i, s2.ipc, j, c, t, t[m], u[m], m);
      }
    }
    assert KeptIfPending(j.privs[k], u, i.hist.serial + 1);
    forall d: nat, m: nat | d < |i.procs| && FirstSuiting(i, c, d, t, m)
      ensures (i.hist.serial + 1, m) in j.hist.asynSent
    {
      OpenSuits(i, c, d, t, m);
      SendaWakes(s1, c, t, 0, io, d, m);
    }
  }

  lemma LoopTable(i: Ipc, j: Ipc, k: nat)
    requires LoopFrame(i, j) && k < |i.privs|
    ensures j.privs == i.privs
  {
  }

  lemma OpenSettled(i: Ipc, m: Ipc, j: Ipc, c: nat, t: seq<AsynEntry>, e: AsynEntry, u: AsynEntry, n: nat)
    requires IpcShape(i) && c < |i.procs| && Settled(OpenCall(i, c, t), m, c, e, u, i.hist.serial + 1, n)
    requires j.procs == m.procs && j.hist == m.hist
    ensures Settled(i, j, c, e, u, i.hist.serial + 1, n)
  {
  }

  lemma OpenSuits(i: Ipc, c: nat, d: nat, t: seq<AsynEntry>, m: nat)
    requires IpcShape(i) && c < |i.procs| && d < |i.procs| && FirstSuiting(i, c, d, t, m)
    ensures m < |t| && Suits(OpenCall(i, c, t), c, d, t[m]) && Deliverable(OpenCall(i, c, t), c, t[m])
    ensures forall x :: 0 <= x < m ==> !Suits(OpenCall(i, c, t), c, d, t[x])
  {
  }
}
