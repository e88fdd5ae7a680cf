/** The asynchronous operations keep the kernel invariant. */
module SendaOps {
  import opened KernelTypes
  import opened Scheduler
  import opened Ipc
  import opened IpcInv
  import opened Letters
  import opened AsyncSends
  import opened KernelOps

  // -------------------------------------------------------- receiving from tables

  /** An ordinary message went from a table into the slot of c. */
  ghost predicate AsyncHanded(i: Ipc, j: Ipc, c: nat, source: Endpoint) {
    && c < |i.procs| && |j.procs| == |i.procs|
    && j.procs[c].deliverMsg.content.Data? && j.procs[c].deliverMsg.source == source
    && Handed(i, j, c, j.procs[c].deliverMsg) && FewerBits(i, j)
    && j.hist.letters == i.hist.letters && j.hist.delivered == i.hist.delivered && j.hist.dropped == i.hist.dropped
  }

  lemma TryOneEffect(i: Ipc, src: nat, c: nat, io: Access)
    requires IpcShape(i) && src < |i.procs| && c < |i.procs| && Receiving !in i.procs[c].rts
    requires !Unmarked(i, i.procs[src].privId, c, io)
    ensures var r := TryOne(i, src, c, io);
            if r.1 == OK then
              && AsyncHanded(i, r.0, c, i.procs[src].endpoint)
              && |r.0.procs| == |i.procs| && r.0.procs[c].deliverMsg.source == i.procs[src].endpoint
            else Fewer(i, r.0)
  {
    assert i.procs[c].rts - {Receiving} == i.procs[c].rts;
  }

  /** Tables dropped, and perhaps c's MF_ASYNMSG. */
  ghost predicate Told(i: Ipc, j: Ipc, c: nat) {
    && c < |i.procs| && j.cq == i.cq && j.hist == i.hist && FewerBits(i, j)
    && (forall k :: 0 <= k < |i.privs| ==> j.privs[k].notifyPending == i.privs[k].notifyPending)
    && (j.procs == i.procs || j.procs == i.procs[c := i.procs[c].(misc := i.procs[c].misc - {AsynMsg})])
  }

  lemma HandedLater(i: Ipc, j: Ipc, k: Ipc, c: nat, source: Endpoint)
    requires Fewer(i, j) && AsyncHanded(j, k, c, source)
    ensures AsyncHanded(i, k, c, source)
  {
  }

  lemma ToldLater(i: Ipc, j: Ipc, k: Ipc, c: nat)
    requires Fewer(i, j) && Told(j, k, c)
    ensures Told(i, k, c)
  {
  }

  lemma {:induction false} SameFinder(i: Ipc, j: Ipc, c: nat, k: nat, io: Access)
    requires c < |i.procs| && j.procs == i.procs && k <= |i.privs| == |j.privs|
    requires forall m :: k <= m < |i.privs| ==> j.privs[m] == i.privs[m]
    ensures FirstFinder(j, c, k, io) == FirstFinder(i, c, k, io)
    ensures var f := FirstFinder(i, c, k, io); f < |i.privs| ==> (Unmarked(j, f, c, io) <==> Unmarked(i, f, c, io))
    decreases |i.privs| - k
  {
    if k < |i.privs| {
      assert Scanned(j, k, c, io) == Scanned(i, k, c, io) && (Looks(j, k, c) <==> Looks(i, k, c));
      SameFinder(i, j, c, k + 1, io);
    }
  }

  /** The first element that try_async finds from table k on can be marked. */
  predicate CanMark(i: Ipc, c: nat, k: nat, io: Access)
    requires c < |i.procs| && k <= |i.privs|
  {
    var f := FirstFinder(i, c, k, io);
    f < |i.privs| ==> !Unmarked(i, f, c, io)
  }

  lemma {:induction false} TryAsyncEffect(i: Ipc, c: nat, k: nat, postponed: bool, io: Access)
    requires IpcShape(i) && PrivInv(i) && c < |i.procs| && k <= NR_SYS_PROCS && Receiving !in i.procs[c].rts
    requires CanMark(i, c, k, io)
    ensures var r := TryAsyncFrom(i, c, k, postponed, io);
            if r.1 == OK then |r.0.procs| == |i.procs| && AsyncHanded(i, r.0, c, r.0.procs[c].deliverMsg.source)
            else Told(i, r.0, c)
    decreases NR_SYS_PROCS - k
  {
    hide TryOne, Unmarked, Finds, PrivInv, AsyncHanded;
    if k == NR_SYS_PROCS {
    } else if i.privs[k].owner.None? {
      TryAsyncEffect(i, c, k + 1, postponed, io);
    } else {
      hide Told;
      var src := i.privs[k].owner.value;
      TryOneShape(i, src, c, io);
      TryOneCases(i, k, c, io);
      NotUnmarked(i, c, k, io);
      TryOneEffect(i, src, c, io);
      var (j, code, later) := TryOne(i, src, c, io);
      if code != OK {
        TryOnePriv(i, src, c, io);
        SameFinder(i, j, c, k + 1, io);
        TryAsyncEffect(j, c, k + 1, postponed || later, io);
        var r := TryAsyncFrom(j, c, k + 1, postponed || later, io);
        if r.1 == OK { HandedLater(i, j, r.0, c, r.0.procs[c].deliverMsg.source); } else { ToldLater(i, j, r.0, c); }
      }
    }
  }

  lemma NotUnmarked(i: Ipc, c: nat, k: nat, io: Access)
    requires c < |i.procs| && k < |i.privs| && i.privs[k].owner.Some? && CanMark(i, c, k, io)
    ensures !Unmarked(i, k, c, io) && (!Finds(i, k, c, io) ==> CanMark(i, c, k + 1, io))
  {
  }

  lemma AsyncHandedInv(i: Ipc, j: Ipc, c: nat, source: Endpoint)
    requires MessageInv(i) && AsyncHanded(i, j, c, source) && c != IDLE && IpcShape(j) && AsyncInv(j)
    requires Receiving !in i.procs[c].rts && (ReplyPend in i.procs[c].misc ==> source == i.procs[c].awaits)
    ensures MessageInv(j)
  {
    HandedInv(i, j, c, j.procs[c].deliverMsg);
    SameLettersInv(i, j);
  }

  lemma ToldInv(i: Ipc, j: Ipc, c: nat)
    requires MessageInv(i) && Told(i, j, c) && IpcShape(j) && AsyncInv(j)
    ensures MessageInv(j)
    ensures forall p :: 0 <= p < |i.procs| ==> j.procs[p].rts == i.procs[p].rts
  {
    QuietCore(i, j);
    QuietGraph(i, j);
    PrivsKept(i, j);
    SameLettersInv(i, j);
  }

  lemma MessageParts(i: Ipc)
    requires MessageInv(i)
    ensures IpcShape(i) && NameInv(i) && PrivInv(i) && AsyncInv(i)
  {
  }

  lemma TryAsyncIs(i: Ipc, c: nat, io: Access)
    requires IpcShape(i) && c < |i.procs|
    ensures TryAsync(i, c, io) == TryAsyncFrom(i, c, 0, false, io)
    ensures !Loses(i, c, io) ==> CanMark(i, c, 0, io)
  {
  }

  /** No copy faults in a way that makes the asynchronous part of a receive lose track. */
  ghost predicate AsyncSafe(i: Ipc, c: nat, src: Option<nat>, io: Access)
    requires IpcShape(i) && c < |i.procs| && (src.Some? ==> src.value < |i.procs|)
  {
    AsynMsg in i.procs[c].misc ==>
      if src.Some? then !Unmarked(i, i.procs[src.value].privId, c, io) else !Loses(i, c, io)
  }

  /** The asynchronous part of a receive keeps the tables right exactly if it is safe. */
  lemma ReceiveAsyncExact(i: Ipc, c: nat, src: Option<nat>, io: Access)
    requires MessageInv(i) && c < |i.procs| && Live(i.procs[c]) && (src.Some? ==> src.value < |i.procs|)
    ensures AsyncInv(ReceiveAsync(i, c, src, io).0) <==> AsyncSafe(i, c, src, io)
  {
    MessageParts(i);
    hide TryOne, TryAsyncFrom, MessageInv, AsyncInv, PrivInv, NameInv, Loses, Unmarked;
    if AsynMsg in i.procs[c].misc {
      if src.Some? { TryOneExact(i, src.value, c, io); } else { TryAsyncInv(i, c, io); }
    }
  }

  lemma ReceiveAsyncEffect(i: Ipc, c: nat, src: Option<nat>, io: Access)
    requires MessageInv(i) && c < |i.procs| && Live(i.procs[c]) && Receiving !in i.procs[c].rts
    requires (src.Some? ==> src.value < |i.procs|) && AsyncSafe(i, c, src, io)
    ensures var (j, code) := ReceiveAsync(i, c, src, io);
            IpcShape(j) && AsyncInv(j) && |j.procs| == |i.procs| && if code != OK then Told(i, j, c) else
              AsyncHanded(i, j, c, if src.Some? then i.procs[src.value].endpoint else j.procs[c].deliverMsg.source)
  {
    hide TryOne, TryAsyncFrom, MessageInv, AsyncInv, PrivInv, NameInv, IpcShape, Loses, Unmarked, CanMark;
    MessageParts(i);
    ReceiveAsyncExact(i, c, src, io);
    ReceiveAsyncShape(i, c, src, io);
    if AsynMsg in i.procs[c].misc {
      if src.Some? {
        TryOneEffect(i, src.value, c, io);
      } else {
        TryAsyncIs(i, c, io);
        TryAsyncEffect(i, c, 0, false, io);
      }
    }
  }

  /** The asynchronous part of mini_receive. */
  lemma ReceiveAsyncInv(i: Ipc, c: nat, src: Option<nat>, io: Access)
    requires MessageInv(i) && c < |i.procs| && c != IDLE && Live(i.procs[c]) && Receiving !in i.procs[c].rts
    requires (src.Some? ==> src.value < |i.procs|) && AsyncSafe(i, c, src, io)
    requires ReplyPend in i.procs[c].misc ==> src.Some? && i.procs[src.value].endpoint == i.procs[c].awaits
    ensures MessageInv(ReceiveAsync(i, c, src, io).0)
  {
    hide ReceiveAsync, MessageInv, AsyncHanded, Told, AsyncInv;
    MessageParts(i);
    ReceiveAsyncEffect(i, c, src, io);
    var (j, code) := ReceiveAsync(i, c, src, io);
    if code == OK {
      AsyncHandedInv(i, j, c, if src.Some? then i.procs[src.value].endpoint else j.procs[c].deliverMsg.source);
    } else {
      ToldInv(i, j, c);
    }
  }

  // ----------------------------------------------------------------- mini_senda

  /** The state of mini_senda's loop before element n: table k is not registered, the
      elements seen are in order, and this call has sent only elements marked done. */
  ghost predicate SendaLoop(i: Ipc, k: nat, t: seq<AsynEntry>, n: nat) {
    && k < |i.privs| && i.privs[k].asyn == [] && n <= |t|
    && (forall m :: 0 <= m < n ==> !BadFlags(t[m]))
    && (forall m :: 0 <= m < n && Undone(t[m]) ==> ElementOk(i, k, t[m]))
    && (forall m :: 0 <= m < |i.privs| && i.privs[m].asyn != [] ==> i.privs[m].serial < i.hist.serial)
    && (forall a :: 0 <= a < |i.hist.asynSent| && i.hist.asynSent[a].0 == i.hist.serial ==>
          i.hist.asynSent[a].1 < n && Done in t[i.hist.asynSent[a].1].flags)
  }

  lemma SendaSent(i: Ipc, j: Ipc, k: nat, t: seq<AsynEntry>, n: nat)
    requires AsyncInv(i) && SendaLoop(i, k, t, n) && |i.procs| == |j.procs| && j.privs == i.privs
    requires j.hist == i.hist.(asynSent := i.hist.asynSent + [(i.hist.serial, n)])
    requires forall p :: 0 <= p < |i.procs| ==> StillTold(i.procs[p], j.procs[p])
    ensures AsyncInv(j)
  {
    var i' := i.(hist := j.hist);
    forall a | 0 <= a < |i.hist.asynSent| ensures i.hist.asynSent[a] != (i.hist.serial, n) {}
    forall m, a | 0 <= m < |i.privs| && 0 <= a < |i'.hist.asynSent| ensures Marked(i'.privs[m], i'.hist.asynSent[a]) {
      if a < |i.hist.asynSent| { assert Marked(i.privs[m], i.hist.asynSent[a]); }
    }
    forall m | 0 <= m < |i.privs| ensures TableOk(i', m) {
      assert TableOk(i, m);
      forall x | 0 <= x < |i.privs[m].asyn| && Undone(i.privs[m].asyn[x]) ensures ElementOk(i', m, i.privs[m].asyn[x]) {
        assert ElementOk(i, m, i.privs[m].asyn[x]);
      }
    }
    SameTablesInv(i', j);
  }

  /** A message from the table is put into the slot of a waiting process. */
  lemma SendaDeliver(s: State, c: nat, e: AsynEntry, t: seq<AsynEntry>, n: nat, d: nat)
    requires KernelInv(s) && c < |s.ipc.procs| && d < |s.ipc.procs| && SendaLoop(s.ipc, s.ipc.procs[c].privId, t, n)
    requires WillReceive(s.ipc.procs[d], s.ipc.procs[c].endpoint)
    ensures var i := s.ipc;
            var j := QueueMess(i, d, i.procs[c].endpoint, Data(e.body)).(
                       hist := i.hist.(asynSent := i.hist.asynSent + [(i.hist.serial, n)]));
            KernelInv(RtsUnset(s.(ipc := j), d, {Receiving}))
  {
    hide SchedInv, Enqueue, MessageInv;
    var i := s.ipc;
    var m := Message(i.procs[c].endpoint, Data(e.body));
    var i1 := QueueMess(i, d, m.source, m.content).(
                hist := i.hist.(asynSent := i.hist.asynSent + [(i.hist.serial, n)]));
    SendaDelivered(i, c, e, t, n, d);
    SameReady(i, i1);
    RtsUnsetSched(s.(ipc := i1), d, {Receiving});
  }

  lemma SendaDelivered(i: Ipc, c: nat, e: AsynEntry, t: seq<AsynEntry>, n: nat, d: nat)
    requires MessageInv(i) && c < |i.procs| && d < |i.procs| && SendaLoop(i, i.procs[c].privId, t, n)
    requires WillReceive(i.procs[d], i.procs[c].endpoint)
    ensures var j := QueueMess(i, d, i.procs[c].endpoint, Data(e.body)).(
                       hist := i.hist.(asynSent := i.hist.asynSent + [(i.hist.serial, n)]));
            MessageInv(UnsetFlags(j, d, {Receiving}))
  {
    var m := Message(i.procs[c].endpoint, Data(e.body));
    var i1 := QueueMess(i, d, m.source, m.content).(
                hist := i.hist.(asynSent := i.hist.asynSent + [(i.hist.serial, n)]));
    var j := UnsetFlags(i1, d, {Receiving});
    assert WaitOk(i, d);
    HandedInv(i, j, d, m);
    hide CoreInv, GraphInv, PrivInv, LetterInv;
    SameLettersInv(i, j);
    SendaSent(i, j, i.procs[c].privId, t, n);
  }

  /** The receiver is told that something is pending. */
  lemma SendaTell(s: State, d: nat)
    requires KernelInv(s) && d < |s.ipc.procs|
    ensures KernelInv(s.(ipc := WithProc(s.ipc, d, s.ipc.procs[d].(misc := s.ipc.procs[d].misc + {AsynMsg}))))
  {
    var j := WithProc(s.ipc, d, s.ipc.procs[d].(misc := s.ipc.procs[d].misc + {AsynMsg}));
    QuietInv(s.ipc, j);
    SameReady(s.ipc, j);
  }

  lemma SendaOneInv(s: State, c: nat, t: seq<AsynEntry>, n: nat, io: Access)
    requires KernelInv(s) && c < |s.ipc.procs| && n < |t| && !BadFlags(t[n])
    requires SendaLoop(s.ipc, s.ipc.procs[c].privId, t, n)
    ensures KernelInv(SendaOne(s, c, t[n], n, io).0)
  {
    hide MessageInv, SchedInv, SendaLoop;
    var i := s.ipc;
    if Undone(t[n]) && IsOkEndpoint(i, t[n].dst) {
      var d: nat := t[n].dst.slot;
      if MaySendTo(i, c, d) && NoEndpoint !in i.procs[d].rts {
        if WillReceive(i.procs[d], i.procs[c].endpoint) && (NoReply !in t[n].flags || ReplyPend !in i.procs[d].misc) {
          SendaDeliver(s, c, t[n], t, n, d);
        } else {
          SendaTell(s, d);
        }
      }
    }
  }

  /** What one element may change: slots, receiving flags and MF_ASYNMSG marks. */
  ghost predicate SendaFrame(i: Ipc, j: Ipc) {
    && |j.procs| == |i.procs| && j.privs == i.privs && j.hist.serial == i.hist.serial
    && forall p :: 0 <= p < |i.procs| ==>
         && j.procs[p].endpoint == i.procs[p].endpoint && j.procs[p].privId == i.procs[p].privId
         && (AsynMsg in i.procs[p].misc ==> AsynMsg in j.procs[p].misc)
         && (Live(j.procs[p]) <==> Live(i.procs[p])) && (SlotFree in j.procs[p].rts <==> SlotFree in i.procs[p].rts)
  }

  lemma SendaOneFrame(s: State, c: nat, e: AsynEntry, n: nat, io: Access)
    requires StateShape(s) && c < |s.ipc.procs|
    ensures var (s1, f, code) := SendaOne(s, c, e, n, io);
            SendaFrame(s.ipc, s1.ipc) &&
            (s1.ipc.hist.asynSent == s.ipc.hist.asynSent
             || (s1.ipc.hist.asynSent == s.ipc.hist.asynSent + [(s.ipc.hist.serial, n)]
                 && (code == OK ==> Done in f.flags)))
  {
    hide Enqueue, MaySendTo;
    if IsOkEndpoint(s.ipc, e.dst) {
      var d: nat := e.dst.slot;
      var j := QueueMess(s.ipc, d, s.ipc.procs[c].endpoint, Data(e.body)).(
                 hist := s.ipc.hist.(asynSent := s.ipc.hist.asynSent + [(s.ipc.hist.serial, n)]));
      assert SendaFrame(s.ipc, RtsUnset(s.(ipc := j), d, {Receiving}).ipc);
    }
  }

  lemma SendaOneElement(s: State, c: nat, e: AsynEntry, n: nat, io: Access)
    requires StateShape(s) && NameInv(s.ipc) && c < |s.ipc.procs| && !BadFlags(e)
    ensures var (s1, f, code) := SendaOne(s, c, e, n, io);
            code == OK ==> !BadFlags(f) && (Undone(f) ==> ElementOk(s1.ipc, s.ipc.procs[c].privId, f))
  {
    hide Enqueue;
    if e.dst.Ep? && 0 <= e.dst.slot < |s.ipc.procs| {
      assert NamesOk(s.ipc, e.dst.slot);
    }
  }

  lemma SendaOneLoop(s: State, c: nat, t: seq<AsynEntry>, n: nat, io: Access)
    requires StateShape(s) && NameInv(s.ipc) && c < |s.ipc.procs| && n < |t| && !BadFlags(t[n])
    requires SendaLoop(s.ipc, s.ipc.procs[c].privId, t, n)
    ensures var (s1, e, code) := SendaOne(s, c, t[n], n, io);
            code == OK ==> SendaLoop(s1.ipc, s.ipc.procs[c].privId, t[n := e], n + 1)
  {
    hide SendaOne;
    SendaOneFrame(s, c, t[n], n, io);
    SendaOneElement(s, c, t[n], n, io);
    var i, k := s.ipc, s.ipc.procs[c].privId;
    var (s1, e, code) := SendaOne(s, c, t[n], n, io);
    if code != OK { return; }
    var t1, j := t[n := e], s1.ipc;
    forall m | 0 <= m < n + 1 && Undone(t1[m]) ensures ElementOk(j, k, t1[m]) {
      if m < n {
        assert ElementOk(i, k, t[m]);
      }
    }
    forall a | 0 <= a < |j.hist.asynSent| && j.hist.asynSent[a].0 == j.hist.serial
      ensures j.hist.asynSent[a].1 < n + 1 && Done in t1[j.hist.asynSent[a].1].flags
    {
      if a < |i.hist.asynSent| {
        assert j.hist.asynSent[a] == i.hist.asynSent[a];
      }
    }
  }

  lemma {:induction false} SendaFromInv(s: State, c: nat, t: seq<AsynEntry>, n: nat, io: Access)
    requires KernelInv(s) && c < |s.ipc.procs| && n <= |t|
    requires SendaLoop(s.ipc, s.ipc.procs[c].privId, t, n)
    ensures var (s1, t1, code) := SendaFrom(s, c, t, n, io);
            KernelInv(s1) && SendaFrame(s.ipc, s1.ipc)
            && (code == OK ==> SendaLoop(s1.ipc, s.ipc.procs[c].privId, t1, |t1|))
    decreases |t| - n
  {
    hide KernelInv, SendaOne, SendaLoop, SendaFrame, NameInv;
    KernelNames(s);
    SendaFrameSame(s.ipc);
    if n < |t| && !BadFlags(t[n]) && !Faults(io, s.ipc.procs[c].privId, n, NoFlags) {
      SendaOneInv(s, c, t, n, io);
      SendaOneLoop(s, c, t, n, io);
      SendaOneFrame(s, c, t[n], n, io);
      var (s1, e, code) := SendaOne(s, c, t[n], n, io);
      if code == OK {
        SamePriv(s.ipc, s1.ipc, c);
        SendaFromInv(s1, c, t[n := e], n + 1, io);
        hide StateShape;
        SendaFrameTrans(s.ipc, s1.ipc, SendaFrom(s1, c, t[n := e], n + 1, io).0.ipc);
      }
    }
  }

  lemma SendaFrameSame(i: Ipc)
    ensures SendaFrame(i, i)
  {
  }

  lemma KernelNames(s: State)
    requires KernelInv(s)
    ensures StateShape(s) && NameInv(s.ipc)
  {
  }

  lemma SamePriv(i: Ipc, j: Ipc, c: nat)
    requires SendaFrame(i, j) && c < |i.procs|
    ensures |j.procs| == |i.procs| && j.procs[c].privId == i.procs[c].privId
  {
  }

  lemma SendaFrameTrans(i: Ipc, j: Ipc, l: Ipc)
    requires SendaFrame(i, j) && SendaFrame(j, l)
    ensures SendaFrame(i, l)
  {
  }

  /** The finished table is registered. */
  lemma RegisterInv(i: Ipc, c: nat, t: seq<AsynEntry>)
    requires MessageInv(i) && c < |i.procs| && SlotFree !in i.procs[c].rts
    requires SendaLoop(i, i.procs[c].privId, t, |t|) && SysProc in i.privs[i.procs[c].privId].flags
    ensures var k := i.procs[c].privId;
            MessageInv(WithPriv(i, k, i.privs[k].(asyn := t, serial := i.hist.serial)))
  {
    var k := i.procs[c].privId;
    var j := WithPriv(i, k, i.privs[k].(asyn := t, serial := i.hist.serial));
    assert PrivOk(i, c);
    QuietCore(i, j);
    QuietGraph(i, j);
    SameLettersInv(i, j);
    PrivsKept(i, j);
    hide CoreInv, GraphInv, PrivInv, LetterInv;
    RegisterAsync(i, j, k, t);
  }

  lemma RegisterAsync(i: Ipc, j: Ipc, k: nat, t: seq<AsynEntry>)
    requires AsyncInv(i) && k < |i.privs| && SendaLoop(i, k, t, |t|) && SysProc in i.privs[k].flags
    requires i.privs[k].owner.Some? && i.privs[k].owner.value < |i.procs| && i.procs[i.privs[k].owner.value].privId == k
    requires j == WithPriv(i, k, i.privs[k].(asyn := t, serial := i.hist.serial))
    ensures AsyncInv(j)
  {
    forall m | 0 <= m < |j.privs| ensures TableOk(j, m) {
      assert TableOk(i, m);
      forall x | 0 <= x < |j.privs[m].asyn| && Undone(j.privs[m].asyn[x]) ensures ElementOk(j, m, j.privs[m].asyn[x]) {
        assert ElementOk(i, m, j.privs[m].asyn[x]);
      }
    }
    forall m, a | 0 <= m < |j.privs| && 0 <= a < |j.hist.asynSent| ensures Marked(j.privs[m], j.hist.asynSent[a]) {
      assert Marked(i.privs[m], i.hist.asynSent[a]);
    }
  }

  /** mini_senda first forgets the caller's previous table. */
  lemma ClearTableInv(i: Ipc, c: nat, t: seq<AsynEntry>)
    requires MessageInv(i) && c < |i.procs|
    ensures MessageInv(OpenCall(i, c, t)) && SendaLoop(OpenCall(i, c, t), i.procs[c].privId, t, 0)
  {
    var k := i.procs[c].privId;
    var i1 := WithPriv(i, k, i.privs[k].(asyn := []));
    var j := OpenCall(i, c, t);
    QuietCore(i, j);
    QuietGraph(i, j);
    PrivsKept(i, j);
    hide CoreInv, GraphInv, PrivInv, LetterInv;
    SameLettersInv(i, j);
    DropTable(i, i1, k);
    NextSerial(i1, j);
  }

  lemma NextSerial(i: Ipc, j: Ipc)
    requires AsyncInv(i) && j == i.(hist := i.hist.(serial := i.hist.serial + 1, calls := j.hist.calls))
    ensures AsyncInv(j) && forall m :: 0 <= m < |j.privs| && j.privs[m].asyn != [] ==> j.privs[m].serial < j.hist.serial
  {
    forall m | 0 <= m < |j.privs|
      ensures TableOk(j, m) && (j.privs[m].asyn != [] ==> j.privs[m].serial < j.hist.serial)
    {
      assert TableOk(i, m);
      forall x | 0 <= x < |j.privs[m].asyn| && Undone(j.privs[m].asyn[x]) ensures ElementOk(j, m, j.privs[m].asyn[x]) {
        assert ElementOk(i, m, j.privs[m].asyn[x]);
      }
    }
    forall m, a | 0 <= m < |j.privs| && 0 <= a < |j.hist.asynSent| ensures Marked(j.privs[m], j.hist.asynSent[a]) {
      assert Marked(i.privs[m], i.hist.asynSent[a]);
    }
  }

  lemma MiniSendaInv(s: State, c: nat, t: seq<AsynEntry>, io: Access)
    requires KernelInv(s) && c < |s.ipc.procs| && SlotFree !in s.ipc.procs[c].rts
    ensures KernelInv(MiniSenda(s, c, t, io).0)
  {
    hide MessageInv, SchedInv, SendaFrom, SendaLoop;
    var k := s.ipc.procs[c].privId;
    if SysProc in s.ipc.privs[k].flags {
      var s1 := s.(ipc := OpenCall(s.ipc, c, t));
      ClearTableInv(s.ipc, c, t);
      SameReady(s.ipc, s1.ipc);
      if 0 < |t| <= 16 * |s.ipc.procs| && io.sendMapped {
        SendaFromInv(s1, c, t, 0, io);
        var (s2, t2, code) := SendaFrom(s1, c, t, 0, io);
        if code == OK && exists n :: 0 <= n < |t2| && Undone(t2[n]) {
          RegisterInv(s2.ipc, c, t2);
          SameReady(s2.ipc, MiniSenda(s, c, t, io).0.ipc);
        }
      }
    }
  }
}
