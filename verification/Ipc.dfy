/** Message passing of kernel/proc.c and kernel/system.c as functions of the
    kernel state.  Every function follows the C function of the same name. */
module Ipc {
  import opened KernelTypes
  import opened Scheduler
  import opened WaitGraph

  // ------------------------------------------------------------------ the state

  /** An endpoint names a slot and a generation of it; ANY is the wild card. */
  datatype Endpoint = ANY | Ep(gen: int, slot: int)

  datatype RtsFlag =
    | SlotFree | ProcStop | Sending | Receiving | Signaled | SigPending | PStop
    | NoPriv | NoEndpoint | VmInhibit | PageFault | VmRequest | VmReqTarget | SysLock

  datatype MiscFlag = ReplyPend | AsynMsg | DeliverMsg | SigDelay

  datatype PrivFlag = SysProc | Preemptible | Billable

  datatype Code =
    | OK | EFAULT | EINVAL | EDEADSRCDST | ECALLDENIED | ETRAPDENIED | EDOM | ELOCKED
    | EDSTDIED | ESRCDIED | ENOTREADY | EBADCALL | EPERM | ESRCH | EAGAIN

  datatype Content = Data(body: int) | Notification(arg: set<nat>)

  datatype Message = Message(source: Endpoint, content: Content)

  /** The IPC fields of struct proc.  sendId and awaits are history: the letter
      being sent, and the endpoint the last SENDREC was addressed to. */
  datatype Proc = Proc(
    endpoint: Endpoint, rts: set<RtsFlag>, misc: set<MiscFlag>,
    getFrom: Endpoint, sendTo: Endpoint, sendMsg: Content, deliverMsg: Message,
    privId: nat, pending: set<nat>, retreg: Code,
    sendId: nat, awaits: Endpoint)

  datatype AsynFlag = Valid | Done | WantNotify | NoReply | Reserved

  /** An element of a SENDA table; no flags at all means an empty element. */
  datatype AsynEntry = AsynEntry(flags: set<AsynFlag>, dst: Endpoint, body: int, result: Code)

  /** struct priv.  asyn is the registered table, [] when s_asynsize is 0; serial is
      history: which SENDA call registered it. */
  datatype Priv = Priv(
    owner: Option<nat>, flags: set<PrivFlag>, trapMask: set<int>, ipcTo: set<nat>,
    notifyPending: set<nat>, intPending: set<nat>, sigPending: set<nat>,
    asyn: seq<AsynEntry>, serial: nat)

  /** A message accepted by SEND, SENDREC or SENDNB. */
  datatype Letter = Letter(from: Endpoint, to: Endpoint, content: Content)

  datatype Delivery = Delivery(id: nat, to: Endpoint, message: Message)

  /** A SENDA call: by whom, and with which table. */
  datatype SendaCall = SendaCall(from: Endpoint, table: seq<AsynEntry>)

  /** History: accepted letters, their deliveries, letters dropped by
      clear_endpoint, (SENDA call, element) pairs delivered, and the SENDA calls, which
      are numbered from 1; serial is the number of the last. */
  datatype History = History(
    letters: seq<Letter>, delivered: seq<Delivery>, dropped: seq<nat>,
    asynSent: seq<(nat, nat)>, serial: nat, calls: seq<SendaCall>)

  datatype Ipc = Ipc(procs: seq<Proc>, privs: seq<Priv>, cq: seq<seq<nat>>, hist: History)

  datatype State = State(ipc: Ipc, sched: Sched)

  const SIGKSIG: nat := 30
  const SIGNDELAY: nat := 31

  /** Sizes agree and indices are in range. */
  ghost predicate IpcShape(i: Ipc) {
    && NR_BOOT_PROCS <= |i.procs| == |i.cq|
    && |i.privs| == NR_SYS_PROCS
    && (forall p :: 0 <= p < |i.procs| ==> i.procs[p].privId < NR_SYS_PROCS)
    && (forall q, k :: 0 <= q < |i.cq| && 0 <= k < |i.cq[q]| ==> i.cq[q][k] < |i.procs|)
    && (forall k :: 0 <= k < |i.privs| && i.privs[k].owner.Some? ==> i.privs[k].owner.value < |i.procs|)
  }

  ghost predicate StateShape(s: State) {
    && IpcShape(s.ipc)
    && Shape(s.sched)
    && |s.sched.ent| == |s.ipc.procs|
  }

  /** The processes whose p_rts_flags are zero. */
  function Ready(i: Ipc): set<nat> {
    set p | 0 <= p < |i.procs| && i.procs[p].rts == {}
  }

  predicate Empty(p: Proc) { p.rts == {SlotFree} }

  /** May take part in message passing. */
  predicate Live(p: Proc) { SlotFree !in p.rts && NoEndpoint !in p.rts }

  /** isokendpt(): the endpoint's slot is in use by that very generation. */
  predicate IsOkEndpoint(i: Ipc, e: Endpoint) {
    e.Ep? && 0 <= e.slot < |i.procs| && !Empty(i.procs[e.slot]) && i.procs[e.slot].endpoint == e
  }

  predicate NamesLive(i: Ipc, e: Endpoint) {
    e.Ep? && 0 <= e.slot < |i.procs| && Live(i.procs[e.slot]) && i.procs[e.slot].endpoint == e
  }

  /** WILLRECEIVE of kernel/ipc.h. */
  predicate WillReceive(p: Proc, source: Endpoint) {
    && Receiving in p.rts && Sending !in p.rts
    && (p.getFrom == ANY || p.getFrom == source)
  }

  predicate MaySendTo(i: Ipc, c: nat, d: nat)
    requires c < |i.procs| && d < |i.procs| && i.procs[c].privId < |i.privs|
  {
    i.procs[d].privId in i.privs[i.procs[c].privId].ipcTo
  }

  // ------------------------------------------------------------- flag changes

  function WithProc(i: Ipc, p: nat, x: Proc): Ipc
    requires p < |i.procs|
  {
    i.(procs := i.procs[p := x])
  }

  function WithPriv(i: Ipc, k: nat, x: Priv): Ipc
    requires k < |i.privs|
  {
    i.(privs := i.privs[k := x])
  }

  function SetFlags(i: Ipc, p: nat, f: set<RtsFlag>): Ipc
    requires p < |i.procs|
  {
    WithProc(i, p, i.procs[p].(rts := i.procs[p].rts + f))
  }

  function UnsetFlags(i: Ipc, p: nat, f: set<RtsFlag>): Ipc
    requires p < |i.procs|
  {
    WithProc(i, p, i.procs[p].(rts := i.procs[p].rts - f))
  }

  /** RTS_SET of kernel/proc.h. */
  ghost function RtsSet(s: State, p: nat, f: set<RtsFlag>): (r: State)
    requires StateShape(s) && p < |s.ipc.procs|
    ensures StateShape(r) && |r.ipc.procs| == |s.ipc.procs|
    ensures r.ipc.cq == s.ipc.cq
  {
    State(SetFlags(s.ipc, p, f),
          if s.ipc.procs[p].rts == {} then Dequeue(s.sched, p) else s.sched)
  }

  /** RTS_UNSET of kernel/proc.h. */
  ghost function RtsUnset(s: State, p: nat, f: set<RtsFlag>): (r: State)
    requires StateShape(s) && p < |s.ipc.procs|
    ensures StateShape(r) && |r.ipc.procs| == |s.ipc.procs|
    ensures r.ipc.cq == s.ipc.cq
  {
    var i := UnsetFlags(s.ipc, p, f);
    State(i, if s.ipc.procs[p].rts != {} && i.procs[p].rts == {} then Enqueue(s.sched, p) else s.sched)
  }

  // ------------------------------------------------------------------ messages

  /** QueueMess: fill the delivery slot of d. */
  function QueueMess(i: Ipc, d: nat, source: Endpoint, content: Content): Ipc
    requires d < |i.procs|
  {
    WithProc(i, d, i.procs[d].(deliverMsg := Message(source, content),
                               misc := i.procs[d].misc + {DeliverMsg}))
  }

  /** BuildNotifyMessage: HARDWARE and SYSTEM notifications carry and clear the
      receiver's pending interrupts or signals. */
  function NotifyContent(i: Ipc, src: nat, d: nat): Content
    requires d < |i.procs| && i.procs[d].privId < |i.privs|
  {
    var v := i.privs[i.procs[d].privId];
    Notification(if src == HARDWARE then v.intPending else if src == SYSTEM then v.sigPending else {})
  }

  function NotifyTaken(i: Ipc, src: nat, d: nat): Ipc
    requires d < |i.procs| && i.procs[d].privId < |i.privs|
  {
    var k := i.procs[d].privId;
    if src == HARDWARE then WithPriv(i, k, i.privs[k].(intPending := {}))
    else if src == SYSTEM then WithPriv(i, k, i.privs[k].(sigPending := {}))
    else i
  }

  ghost function MiniNotify(s: State, c: nat, dst: Endpoint): (r: (State, Code))
    requires StateShape(s) && c < |s.ipc.procs|
    ensures StateShape(r.0) && |r.0.ipc.procs| == |s.ipc.procs|
    ensures r.0.ipc.cq == s.ipc.cq
  {
    var i := s.ipc;
    if !IsOkEndpoint(i, dst) then (s, EDEADSRCDST)
    else
      var d: nat := dst.slot;
      if WillReceive(i.procs[d], i.procs[c].endpoint) && ReplyPend !in i.procs[d].misc then
        var j := QueueMess(NotifyTaken(i, c, d), d, i.procs[c].endpoint, NotifyContent(i, c, d));
        (RtsUnset(s.(ipc := j), d, {Receiving}), OK)
      else
        var k := i.procs[d].privId;
        (s.(ipc := WithPriv(i, k, i.privs[k].(
            notifyPending := i.privs[k].notifyPending + {i.procs[c].privId}))), OK)
  }

  // ------------------------------------------------------------------- signals

  /** send_sig to a slot in use (the C function panics on an empty one). */
  ghost function SendSig(s: State, p: nat, sig: nat): (r: State)
    requires StateShape(s) && p < |s.ipc.procs|
    ensures StateShape(r) && |r.ipc.procs| == |s.ipc.procs|
    ensures r.ipc.cq == s.ipc.cq
  {
    var k := s.ipc.procs[p].privId;
    var v := s.ipc.privs[k];
    MiniNotify(s.(ipc := WithPriv(s.ipc, k, v.(sigPending := v.sigPending + {sig}))),
               SYSTEM, s.ipc.procs[p].endpoint).0
  }

  ghost function CauseSig(s: State, p: nat, sig: nat): (r: State)
    requires StateShape(s) && p < |s.ipc.procs|
    ensures StateShape(r) && |r.ipc.procs| == |s.ipc.procs|
    ensures r.ipc.cq == s.ipc.cq
  {
    var x := s.ipc.procs[p];
    if sig in x.pending then s
    else
      var s1 := s.(ipc := WithProc(s.ipc, p, x.(pending := x.pending + {sig})));
      if Signaled in x.rts then s1
      else SendSig(RtsSet(s1, p, {Signaled, SigPending}), PM, SIGKSIG)
  }

  ghost function SigDelayDone(s: State, p: nat): (r: State)
    requires StateShape(s) && p < |s.ipc.procs|
    ensures StateShape(r) && |r.ipc.procs| == |s.ipc.procs|
    ensures r.ipc.cq == s.ipc.cq
  {
    var x := s.ipc.procs[p];
    CauseSig(s.(ipc := WithProc(s.ipc, p, x.(misc := x.misc - {SigDelay}))), p, SIGNDELAY)
  }

  // ------------------------------------------------------------------- sending

  /** Copies from and to an element of a table of asynchronous sends: reading its flags, its
      destination and its message, and marking it as done. */
  datatype Fault = NoFlags | NoDest | NoMessage | NoMark

  /** Outcome of the memory accesses a call makes: mapping the caller's buffer for
      sending, copying the message, mapping the buffer for receiving, and which copies
      fault for element n of the table of privilege structure k. */
  datatype Access = Access(sendMapped: bool, copied: bool, receiveMapped: bool, table: map<(nat, nat), set<Fault>>)

  predicate Faults(io: Access, k: nat, n: nat, f: Fault) {
    (k, n) in io.table && f in io.table[(k, n)]
  }

  /** Deliver a letter to a process that waits for it. */
  function DeliverLetter(i: Ipc, c: nat, d: nat, content: Content): Ipc
    requires c < |i.procs| && d < |i.procs|
  {
    var from, to := i.procs[c].endpoint, i.procs[d].endpoint;
    var h := i.hist;
    QueueMess(i, d, from, content).(hist := h.(
      letters := h.letters + [Letter(from, to, content)],
      delivered := h.delivered + [Delivery(|h.letters|, to, Message(from, content))]))
  }

  /** Note the letter, the destination and the place in its caller queue. */
  function QueueLetter(i: Ipc, c: nat, dst: Endpoint, content: Content): Ipc
    requires c < |i.procs| && dst.Ep? && 0 <= dst.slot < |i.cq|
  {
    var h := i.hist;
    var x := i.procs[c];
    WithProc(i, c, x.(sendTo := dst, sendMsg := content, sendId := |h.letters|)).(
      cq := i.cq[dst.slot := i.cq[dst.slot] + [c]],
      hist := h.(letters := h.letters + [Letter(x.endpoint, dst, content)]))
  }

  ghost function MiniSend(s: State, c: nat, dst: Endpoint, content: Content,
                          nonBlocking: bool, io: Access): (r: (State, Code))
    requires StateShape(s) && c < |s.ipc.procs| && IsOkEndpoint(s.ipc, dst)
    ensures StateShape(r.0) && |r.0.ipc.procs| == |s.ipc.procs|
  {
    var i := s.ipc;
    var d: nat := dst.slot;
    if !io.sendMapped then (s, EFAULT)
    else if NoEndpoint in i.procs[d].rts then (s, EDSTDIED)
    else if WillReceive(i.procs[d], i.procs[c].endpoint) then
      if !io.copied then (s, EFAULT)
      else (RtsUnset(s.(ipc := DeliverLetter(i, c, d, content)), d, {Receiving}), OK)
    else if nonBlocking then (s, ENOTREADY)
    else if !io.copied then (s, EFAULT)
    else
      var s1 := RtsSet(s, c, {Sending});
      (s1.(ipc := QueueLetter(s1.ipc, c, dst, content)), OK)
  }

  // ---------------------------------------------------------- asynchronous sends

  predicate BadFlags(e: AsynEntry) {
    e.flags != {} && (Reserved in e.flags || Valid !in e.flags)
  }

  /** Waiting to be sent: in use, well formed, not done. */
  predicate Undone(e: AsynEntry) {
    e.flags != {} && !BadFlags(e) && Done !in e.flags
  }

  function MarkDone(e: AsynEntry, c: Code): AsynEntry {
    e.(result := c, flags := e.flags + {Done})
  }

  datatype Scan =
    | Bad(late: bool)
    | Faulted(late: bool)
    | Found(k: nat, late: bool)
    | NotFound(done: bool, postponed: bool)

  /** try_one's search of the table t of structure v for an element to send to dst. */
  function ScanTable(t: seq<AsynEntry>, k: nat, dst: Endpoint, replyPend: bool,
                     done: bool, postponed: bool, v: nat, io: Access): (r: Scan)
    requires k <= |t|
    ensures r.Found? ==> k <= r.k < |t| && Undone(t[r.k]) && t[r.k].dst == dst
                         && !(NoReply in t[r.k].flags && replyPend)
    ensures r.Bad? ==> exists m :: k <= m < |t| && BadFlags(t[m])
    ensures r.NotFound? && r.done ==> done && forall m :: k <= m < |t| ==> !Undone(t[m])
    ensures r.NotFound? && !r.postponed ==>
              !postponed && forall m :: k <= m < |t| && Undone(t[m]) ==> t[m].dst != dst
    decreases |t| - k
  {
    if k == |t| then NotFound(done, postponed)
    else if Faults(io, v, k, NoFlags) then Faulted(postponed)
    else if t[k].flags == {} then ScanTable(t, k + 1, dst, replyPend, done, postponed, v, io)
    else if BadFlags(t[k]) then Bad(postponed)
    else if Done in t[k].flags then ScanTable(t, k + 1, dst, replyPend, done, postponed, v, io)
    else if Faults(io, v, k, NoDest) then Faulted(postponed)
    else if t[k].dst != dst then ScanTable(t, k + 1, dst, replyPend, false, postponed, v, io)
    else if NoReply in t[k].flags && replyPend then ScanTable(t, k + 1, dst, replyPend, false, true, v, io)
    else if Faults(io, v, k, NoMessage) then Faulted(postponed)
    else Found(k, postponed)
  }

  function Scanned(i: Ipc, v: nat, dst: nat, io: Access): Scan
    requires v < |i.privs| && dst < |i.procs|
  {
    ScanTable(i.privs[v].asyn, 0, i.procs[dst].endpoint, ReplyPend in i.procs[dst].misc, true, false, v, io)
  }

  /** Element n of table v goes into the slot of dst. */
  function Sent(i: Ipc, v: nat, n: nat, src: nat, dst: nat): Ipc
    requires v < |i.privs| && n < |i.privs[v].asyn| && src < |i.procs| && dst < |i.procs|
  {
    QueueMess(i, dst, i.procs[src].endpoint, Data(i.privs[v].asyn[n].body)).(
      hist := i.hist.(asynSent := i.hist.asynSent + [(i.privs[v].serial, n)]))
  }

  /** Returns the new state, the code and whether a message was postponed.  If the element
      cannot be marked as done, its message has been handed over all the same. */
  function TryOne(i: Ipc, src: nat, dst: nat, io: Access): (r: (Ipc, Code, bool))
    requires |i.privs| == NR_SYS_PROCS && src < |i.procs| && dst < |i.procs|
    requires i.procs[src].privId < NR_SYS_PROCS && i.procs[dst].privId < NR_SYS_PROCS
  {
    var k := i.procs[src].privId;
    var v := i.privs[k];
    if k == USER_PRIV_ID || |v.asyn| == 0 || !MaySendTo(i, src, dst) then (i, EAGAIN, false)
    else
      match Scanned(i, k, dst, io)
      case Bad(late) => (WithPriv(i, k, v.(asyn := [])), EINVAL, late)
      case Faulted(late) => (i, EFAULT, late)
      case NotFound(done, postponed) =>
        (if done then WithPriv(i, k, v.(asyn := [])) else i, EAGAIN, postponed)
      case Found(n, late) =>
        var j := Sent(i, k, n, src, dst);
        if Faults(io, k, n, NoMark) then (j, EFAULT, late)
        else (WithPriv(j, k, v.(asyn := v.asyn[n := MarkDone(v.asyn[n], OK)])), OK, false)
  }

  /** try_async from privilege structure k on. */
  function TryAsyncFrom(i: Ipc, c: nat, k: nat, postponed: bool, io: Access): (r: (Ipc, Code))
    requires |i.privs| == NR_SYS_PROCS && c < |i.procs| && k <= NR_SYS_PROCS
    requires forall p :: 0 <= p < |i.procs| ==> i.procs[p].privId < NR_SYS_PROCS
    requires forall j :: 0 <= j < |i.privs| && i.privs[j].owner.Some? ==> i.privs[j].owner.value < |i.procs|
    decreases NR_SYS_PROCS - k
  {
    if k == NR_SYS_PROCS then
      (if postponed then i
       else WithProc(i, c, i.procs[c].(misc := i.procs[c].misc - {AsynMsg})), ESRCH)
    else if i.privs[k].owner.None? then TryAsyncFrom(i, c, k + 1, postponed, io)
    else
      var (j, code, later) := TryOne(i, i.privs[k].owner.value, c, io);
      if code == OK then (j, OK) else TryAsyncFrom(j, c, k + 1, postponed || later, io)
  }

  function TryAsync(i: Ipc, c: nat, io: Access): (Ipc, Code)
    requires |i.privs| == NR_SYS_PROCS && c < |i.procs|
    requires forall p :: 0 <= p < |i.procs| ==> i.procs[p].privId < NR_SYS_PROCS
    requires forall j :: 0 <= j < |i.privs| && i.privs[j].owner.Some? ==> i.privs[j].owner.value < |i.procs|
  {
    TryAsyncFrom(i, c, 0, false, io)
  }

  /** An element of the caller's table is marked as done, if it can be. */
  function MarkIn(s: State, e: AsynEntry, code: Code, k: nat, n: nat, io: Access): (State, AsynEntry, Code) {
    if Faults(io, k, n, NoMark) then (s, e, EFAULT) else (s, MarkDone(e, code), OK)
  }

  /** One element of the table handed to SENDA; serial numbers the call. */
  ghost function SendaOne(s: State, c: nat, e: AsynEntry, n: nat, io: Access): (r: (State, AsynEntry, Code))
    requires StateShape(s) && c < |s.ipc.procs|
    ensures StateShape(r.0) && |r.0.ipc.procs| == |s.ipc.procs|
  {
    var i := s.ipc;
    var k := i.procs[c].privId;
    if !Undone(e) then (s, e, OK)
    else if Faults(io, k, n, NoDest) then (s, e, EFAULT)
    else if !IsOkEndpoint(i, e.dst) then MarkIn(s, e, EDEADSRCDST, k, n, io)
    else
      var d: nat := e.dst.slot;
      var x := i.procs[d];
      if !MaySendTo(i, c, d) then MarkIn(s, e, ECALLDENIED, k, n, io)
      else if NoEndpoint in x.rts then MarkIn(s, e, EDSTDIED, k, n, io)
      else if WillReceive(x, i.procs[c].endpoint) && (NoReply !in e.flags || ReplyPend !in x.misc) then
        if Faults(io, k, n, NoMessage) then MarkIn(s, e, EFAULT, k, n, io)
        else
          var j := QueueMess(i, d, i.procs[c].endpoint, Data(e.body)).(
                     hist := i.hist.(asynSent := i.hist.asynSent + [(i.hist.serial, n)]));
          MarkIn(RtsUnset(s.(ipc := j), d, {Receiving}), e, OK, k, n, io)
      else
        (s.(ipc := WithProc(i, d, x.(misc := x.misc + {AsynMsg}))), e, OK)
  }

  /** mini_senda's loop from element n on, and whether all went well. */
  ghost function SendaFrom(s: State, c: nat, t: seq<AsynEntry>, n: nat, io: Access): (r: (State, seq<AsynEntry>, Code))
    requires StateShape(s) && c < |s.ipc.procs| && n <= |t|
    ensures StateShape(r.0) && |r.0.ipc.procs| == |s.ipc.procs| && |r.1| == |t|
    decreases |t| - n
  {
    if n == |t| then (s, t, OK)
    else if Faults(io, s.ipc.procs[c].privId, n, NoFlags) then (s, t, EFAULT)
    else if BadFlags(t[n]) then (s, t, EINVAL)
    else
      var (s1, e, code) := SendaOne(s, c, t[n], n, io);
      if code != OK then (s1, t, code) else SendaFrom(s1, c, t[n := e], n + 1, io)
  }

  /** A SENDA call begins: the previous table of the caller is forgotten. */
  function OpenCall(i: Ipc, c: nat, t: seq<AsynEntry>): Ipc
    requires c < |i.procs| && i.procs[c].privId < |i.privs|
  {
    var k, h := i.procs[c].privId, i.hist;
    WithPriv(i, k, i.privs[k].(asyn := [])).(
      hist := h.(serial := h.serial + 1, calls := h.calls + [SendaCall(i.procs[c].endpoint, t)]))
  }

  ghost function MiniSenda(s: State, c: nat, t: seq<AsynEntry>, io: Access): (r: (State, Code))
    requires StateShape(s) && c < |s.ipc.procs|
    ensures StateShape(r.0) && |r.0.ipc.procs| == |s.ipc.procs|
  {
    var k := s.ipc.procs[c].privId;
    if SysProc !in s.ipc.privs[k].flags then (s, EPERM)
    else
      var s1 := s.(ipc := OpenCall(s.ipc, c, t));
      if |t| == 0 then (s1, OK)
      else if !io.sendMapped then (s1, EFAULT)
      else if |t| > 16 * |s.ipc.procs| then (s1, EDOM)
      else
        var (s2, t2, code) := SendaFrom(s1, c, t, 0, io);
        if code == OK && exists n :: 0 <= n < |t2| && Undone(t2[n]) then
          (s2.(ipc := WithPriv(s2.ipc, k, s2.ipc.privs[k].(asyn := t2, serial := s2.ipc.hist.serial))), OK)
        else (s2, code)
  }

  // ------------------------------------------------------------------ receiving

  /** The lowest set bit in [lo, hi), or hi. */
  function LowestBit(bits: set<nat>, lo: nat, hi: nat): (k: nat)
    requires lo <= hi
    ensures lo <= k <= hi && (k < hi ==> k in bits)
    ensures forall j :: lo <= j < k ==> j !in bits
    decreases hi - lo
  {
    if lo == hi || lo in bits then lo else LowestBit(bits, lo + 1, hi)
  }

  /** mini_receive's search of the pending notifications, chunk by chunk: only the
      lowest bit of a chunk is looked at.  src is None for ANY. */
  function FindNotify(privs: seq<Priv>, bits: set<nat>, src: Option<nat>, chunk: nat): (r: Option<nat>)
    requires |privs| == NR_SYS_PROCS && chunk <= NR_SYS_CHUNKS
    ensures r.Some? ==> r.value < NR_SYS_PROCS && r.value in bits
    ensures r.Some? && src.Some? ==> privs[r.value].owner == src
    decreases NR_SYS_CHUNKS - chunk
  {
    if chunk == NR_SYS_CHUNKS then None
    else
      var hi := (chunk + 1) * BITCHUNK_BITS;
      var id := LowestBit(bits, chunk * BITCHUNK_BITS, hi);
      if id == hi then FindNotify(privs, bits, src, chunk + 1)
      else if id >= NR_SYS_PROCS then None
      else if src.Some? && privs[id].owner != src then FindNotify(privs, bits, src, chunk + 1)
      else Some(id)
  }

  /** The first acceptable process in a caller queue, or its length. */
  function FindCaller(q: seq<nat>, src: Option<nat>, k: nat): (r: nat)
    requires k <= |q|
    ensures k <= r <= |q|
    ensures r < |q| && src.Some? ==> q[r] == src.value
    ensures src.None? ==> r == k
    ensures src.Some? ==> forall j :: k <= j < r ==> q[j] != src.value
    decreases |q| - k
  {
    if k == |q| || src.None? || q[k] == src.value then k else FindCaller(q, src, k + 1)
  }

  /** Hand the pending notification of privilege structure id to c. */
  function TakeNotify(i: Ipc, c: nat, id: nat): Ipc
    requires |i.privs| == NR_SYS_PROCS && c < |i.procs| && i.procs[c].privId < NR_SYS_PROCS
    requires id < NR_SYS_PROCS && i.privs[id].owner.Some? && i.privs[id].owner.value < |i.procs|
  {
    var k := i.procs[c].privId;
    var src := i.privs[id].owner.value;
    var j := WithPriv(i, k, i.privs[k].(notifyPending := i.privs[k].notifyPending - {id}));
    QueueMess(NotifyTaken(j, src, c), c, i.procs[src].endpoint, NotifyContent(j, src, c))
  }

  /** Unlink the k-th process queued at c; its letter has been copied. */
  function Unlink(i: Ipc, c: nat, k: nat): Ipc
    requires c < |i.procs| && c < |i.cq| && k < |i.cq[c]| && i.cq[c][k] < |i.procs|
  {
    var y := i.procs[i.cq[c][k]];
    i.(cq := i.cq[c := RemoveAt(i.cq[c], k)],
       hist := i.hist.(delivered := i.hist.delivered +
         [Delivery(y.sendId, i.procs[c].endpoint, Message(y.endpoint, y.sendMsg))]))
  }

  /** Take the letter of the k-th process queued at c. */
  ghost function TakeQueued(s: State, c: nat, k: nat): (r: State)
    requires StateShape(s) && c < |s.ipc.procs| && k < |s.ipc.cq[c]|
    ensures StateShape(r) && |r.ipc.procs| == |s.ipc.procs|
  {
    var x := s.ipc.cq[c][k];
    var y := s.ipc.procs[x];
    var s1 := s.(ipc := QueueMess(s.ipc, c, y.endpoint, y.sendMsg));
    var s2 := if SigDelay in y.misc then SigDelayDone(s1, x) else s1;
    var s3 := RtsUnset(s2, x, {Sending});
    RemoveAtElements(s3.ipc.cq[c], k);
    s3.(ipc := Unlink(s3.ipc, c, k))
  }

  ghost function BlockReceive(s: State, c: nat, src: Endpoint): (r: State)
    requires StateShape(s) && c < |s.ipc.procs|
    ensures StateShape(r) && |r.ipc.procs| == |s.ipc.procs|
  {
    RtsSet(s.(ipc := WithProc(s.ipc, c, s.ipc.procs[c].(getFrom := src))), c, {Receiving})
  }

  /** The asynchronous part of mini_receive. */
  ghost function ReceiveAsync(i: Ipc, c: nat, src: Option<nat>, io: Access): (r: (Ipc, Code))
    requires IpcShape(i) && c < |i.procs| && (src.Some? ==> src.value < |i.procs|)
  {
    if AsynMsg !in i.procs[c].misc then (i, EAGAIN)
    else if src.Some? then (TryOne(i, src.value, c, io).0, TryOne(i, src.value, c, io).1)
    else TryAsync(i, c, io)
  }

  /** mini_receive for a caller that is not sending: notifications first, except for
      SENDREC, then the caller queue, then asynchronous tables, else block. */
  ghost function ReceiveNow(s: State, c: nat, src: Endpoint, nonBlocking: bool, io: Access): (r: (State, Code))
    requires StateShape(s) && c < |s.ipc.procs| && (src != ANY ==> src.Ep? && 0 <= src.slot < |s.ipc.procs|)
    requires forall id :: id in s.ipc.privs[s.ipc.procs[c].privId].notifyPending ==>
               id < NR_SYS_PROCS && s.ipc.privs[id].owner.Some?
    ensures StateShape(r.0) && |r.0.ipc.procs| == |s.ipc.procs|
  {
    var i := s.ipc;
    var want: Option<nat> := if src == ANY then None else Some(src.slot);
    var note := if ReplyPend in i.procs[c].misc then None
                else FindNotify(i.privs, i.privs[i.procs[c].privId].notifyPending, want, 0);
    if note.Some? then (s.(ipc := TakeNotify(i, c, note.value)), OK)
    else
      var k := FindCaller(i.cq[c], want, 0);
      if k < |i.cq[c]| then (TakeQueued(s, c, k), OK)
      else
        var (j, code) := ReceiveAsync(i, c, want, io);
        ReceiveAsyncShape(i, c, want, io);
        if code == OK then (s.(ipc := j), OK)
        else if nonBlocking then (s.(ipc := j), ENOTREADY)
        else (BlockReceive(s.(ipc := j), c, src), OK)
  }

  ghost function MiniReceive(s: State, c: nat, src: Endpoint, nonBlocking: bool, io: Access): (r: (State, Code))
    requires StateShape(s) && c < |s.ipc.procs| && (src != ANY ==> IsOkEndpoint(s.ipc, src))
    requires forall id :: id in s.ipc.privs[s.ipc.procs[c].privId].notifyPending ==>
               id < NR_SYS_PROCS && s.ipc.privs[id].owner.Some?
    ensures StateShape(r.0) && |r.0.ipc.procs| == |s.ipc.procs|
  {
    if !io.receiveMapped then (s, EFAULT)
    else if src != ANY && NoEndpoint in s.ipc.procs[src.slot].rts then (s, ESRCDIED)
    else if Sending !in s.ipc.procs[c].rts then ReceiveNow(s, c, src, nonBlocking, io)
    else if nonBlocking then (s, ENOTREADY)
    else (BlockReceive(s, c, src), OK)
  }

  lemma TryOneShape(i: Ipc, src: nat, c: nat, io: Access)
    requires IpcShape(i) && src < |i.procs| && c < |i.procs|
    ensures IpcShape(TryOne(i, src, c, io).0) && |TryOne(i, src, c, io).0.procs| == |i.procs|
  {
  }

  lemma {:induction false} TryAsyncShape(i: Ipc, c: nat, k: nat, postponed: bool, io: Access)
    requires IpcShape(i) && c < |i.procs| && k <= NR_SYS_PROCS
    ensures var j := TryAsyncFrom(i, c, k, postponed, io).0; IpcShape(j) && |j.procs| == |i.procs|
    decreases NR_SYS_PROCS - k
  {
    if k == NR_SYS_PROCS {
    } else if i.privs[k].owner.None? {
      TryAsyncShape(i, c, k + 1, postponed, io);
    } else {
      TryOneShape(i, i.privs[k].owner.value, c, io);
      var (j, code, later) := TryOne(i, i.privs[k].owner.value, c, io);
      if code != OK {
        TryAsyncShape(j, c, k + 1, postponed || later, io);
      }
    }
  }

  lemma ReceiveAsyncShape(i: Ipc, c: nat, src: Option<nat>, io: Access)
    requires IpcShape(i) && c < |i.procs| && (src.Some? ==> src.value < |i.procs|)
    ensures var j := ReceiveAsync(i, c, src, io).0; IpcShape(j) && |j.procs| == |i.procs|
  {
    if src.Some? { TryOneShape(i, src.value, c, io); } else { TryAsyncShape(i, c, 0, false, io); }
  }
}
