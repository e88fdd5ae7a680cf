/** Processes dying: clear_endpoint of kernel/system.c and clear_proc of do_exit. */
module Lifecycle {
  import opened KernelTypes
  import opened Scheduler
  import opened WaitGraph
  import opened Ipc
  import opened IpcInv
  import opened Letters
  import opened AsyncSends
  import opened KernelOps

  // -------------------------------------------------------------- clear_endpoint

  /** Take rc off the queue it waits in and give up its table.  Its own queue is left alone. */
  function Detach(i: Ipc, rc: nat): Ipc
    requires rc < |i.procs| && i.procs[rc].privId < |i.privs| && |i.cq| == |i.procs|
    requires Sending in i.procs[rc].rts ==>
               i.procs[rc].sendTo.Ep? && 0 <= i.procs[rc].sendTo.slot < |i.cq| && rc in i.cq[i.procs[rc].sendTo.slot]
  {
    var x := i.procs[rc];
    var v := i.privs[x.privId];
    var sending := Sending in x.rts;
    var cq := if sending then
                var q := x.sendTo.slot;
                i.cq[q := RemoveAt(i.cq[q], IndexOf(i.cq[q], rc))]
              else i.cq;
    i.(procs := i.procs[rc := x.(rts := x.rts - {Sending, Receiving})],
       privs := if SysProc in v.flags then i.privs[x.privId := v.(asyn := [])] else i.privs,
       cq := cq,
       hist := if sending then i.hist.(dropped := i.hist.dropped + [x.sendId]) else i.hist)
  }

  /** Process p is told that the endpoint e, with privilege structure id, is gone. */
  ghost function ClearOne(s: State, e: Endpoint, id: nat, p: nat): (r: State)
    requires StateShape(s) && p < |s.ipc.procs|
    ensures StateShape(r) && |r.ipc.procs| == |s.ipc.procs|
  {
    if Empty(s.ipc.procs[p]) then s
    else
      var k := s.ipc.procs[p].privId;
      var v := s.ipc.privs[k];
      var s1 := s.(ipc := WithPriv(s.ipc, k, v.(notifyPending := v.notifyPending - {id})));
      var x := s1.ipc.procs[p];
      var s2 := if Receiving in x.rts && x.getFrom == e then
                  RtsUnset(s1.(ipc := WithProc(s1.ipc, p, x.(retreg := ESRCDIED))), p, {Receiving})
                else s1;
      var y := s2.ipc.procs[p];
      if Sending in y.rts && y.sendTo == e then
        var h := s2.ipc.hist;
        RtsUnset(s2.(ipc := WithProc(s2.ipc, p, y.(retreg := EDSTDIED)).(
                       hist := h.(dropped := h.dropped + [y.sendId]))), p, {Sending})
      else s2
  }

  ghost function ClearFrom(s: State, e: Endpoint, id: nat, p: nat): (r: State)
    requires StateShape(s) && p <= |s.ipc.procs|
    ensures StateShape(r) && |r.ipc.procs| == |s.ipc.procs|
    decreases |s.ipc.procs| - p
  {
    if p == |s.ipc.procs| then s else ClearFrom(ClearOne(s, e, id, p), e, id, p + 1)
  }

  ghost function ClearEndpoint(s: State, rc: nat): (r: State)
    requires KernelInv(s) && rc < |s.ipc.procs|
    ensures StateShape(r) && |r.ipc.procs| == |s.ipc.procs|
  {
    QueuedWhereSending(s.ipc, rc);
    var s1 := RtsSet(s, rc, {NoEndpoint});
    var j := Detach(s1.ipc, rc);
    DetachShape(s1.ipc, rc);
    ClearFrom(s1.(ipc := j), s.ipc.procs[rc].endpoint, s.ipc.procs[rc].privId, 0)
  }

  lemma QueuedWhereSending(i: Ipc, rc: nat)
    requires CoreInv(i) && rc < |i.procs|
    ensures Sending in i.procs[rc].rts ==>
              && i.procs[rc].sendTo.Ep? && 0 <= i.procs[rc].sendTo.slot < |i.cq| && i.procs[rc].sendTo.slot != rc
              && rc in i.cq[i.procs[rc].sendTo.slot]
  {
    assert NamesOk(i, rc);
    if Sending in i.procs[rc].rts {
      assert SendsTo(i, rc, i.procs[rc].sendTo.slot);
    }
  }

  lemma DetachShape(i: Ipc, rc: nat)
    requires IpcShape(i) && rc < |i.procs|
    requires Sending in i.procs[rc].rts ==>
               i.procs[rc].sendTo.Ep? && 0 <= i.procs[rc].sendTo.slot < |i.cq| && rc in i.cq[i.procs[rc].sendTo.slot]
    ensures IpcShape(Detach(i, rc))
  {
    if Sending in i.procs[rc].rts {
      var q: nat := i.procs[rc].sendTo.slot;
      var k := IndexOf(i.cq[q], rc);
      RemoveAtElements(i.cq[q], k);
      forall a | 0 <= a < |RemoveAt(i.cq[q], k)| ensures RemoveAt(i.cq[q], k)[a] < |i.procs| {
        assert RemoveAt(i.cq[q], k)[a] in RemoveAt(i.cq[q], k);
      }
    }
  }

  // ------------------------------------------------------------ its closed form

  predicate Drops(x: Proc, e: Endpoint) {
    !Empty(x) && Sending in x.rts && x.sendTo == e
  }

  function Cleared(x: Proc, e: Endpoint): Proc {
    if Empty(x) then x
    else
      var y := if Receiving in x.rts && x.getFrom == e
               then x.(retreg := ESRCDIED, rts := x.rts - {Receiving}) else x;
      if Sending in y.rts && y.sendTo == e then y.(retreg := EDSTDIED, rts := y.rts - {Sending}) else y
  }

  function DroppedFrom(procs: seq<Proc>, e: Endpoint, p: nat): seq<nat>
    requires p <= |procs|
    decreases |procs| - p
  {
    if p == |procs| then []
    else (if Drops(procs[p], e) then [procs[p].sendId] else []) + DroppedFrom(procs, e, p + 1)
  }

  /** What telling process p alone does to the messages. */
  ghost predicate OneCleared(i: Ipc, j: Ipc, e: Endpoint, id: nat, p: nat)
    requires p < |i.procs| && i.procs[p].privId < |i.privs|
  {
    var x := i.procs[p];
    && j.procs == i.procs[p := Cleared(x, e)] && j.cq == i.cq
    && j.privs == (if Empty(x) then i.privs else
                     i.privs[x.privId := i.privs[x.privId].(notifyPending := i.privs[x.privId].notifyPending - {id})])
    && j.hist == i.hist.(dropped := i.hist.dropped + if Drops(x, e) then [x.sendId] else [])
  }

  lemma ClearOneEffect(s: State, e: Endpoint, id: nat, p: nat)
    requires StateShape(s) && p < |s.ipc.procs|
    ensures OneCleared(s.ipc, ClearOne(s, e, id, p).ipc, e, id, p)
  {
    hide Enqueue, Shape;
  }

  /** What telling all processes from p on does. */
  ghost predicate AllCleared(i: Ipc, j: Ipc, e: Endpoint, id: nat, p: nat)
    requires p <= |i.procs|
  {
    && |j.procs| == |i.procs| && |j.privs| == |i.privs| && j.cq == i.cq
    && (forall x :: 0 <= x < |i.procs| ==> j.procs[x] == if x < p then i.procs[x] else Cleared(i.procs[x], e))
    && (forall k :: 0 <= k < |i.privs| ==>
          j.privs[k] == i.privs[k] || j.privs[k] == i.privs[k].(notifyPending := i.privs[k].notifyPending - {id}))
    && (forall x :: p <= x < |i.procs| && !Empty(i.procs[x]) ==>
          i.procs[x].privId < |i.privs| && id !in j.privs[i.procs[x].privId].notifyPending)
    && j.hist == i.hist.(dropped := i.hist.dropped + DroppedFrom(i.procs, e, p))
  }

  lemma ClearedStep(i: Ipc, m: Ipc, j: Ipc, e: Endpoint, id: nat, p: nat)
    requires p < |i.procs| && i.procs[p].privId < |i.privs| && OneCleared(i, m, e, id, p)
    requires AllCleared(m, j, e, id, p + 1)
    ensures AllCleared(i, j, e, id, p)
  {
    hide Cleared;
    DroppedFrame(i.procs, m.procs, e, p + 1);
  }

  lemma {:induction false} ClearFromEffect(s: State, e: Endpoint, id: nat, p: nat)
    requires StateShape(s) && p <= |s.ipc.procs|
    ensures AllCleared(s.ipc, ClearFrom(s, e, id, p).ipc, e, id, p)
    decreases |s.ipc.procs| - p
  {
    if p < |s.ipc.procs| {
      hide ClearOne, AllCleared, OneCleared;
      ClearOneEffect(s, e, id, p);
      var s1 := ClearOne(s, e, id, p);
      ClearFromEffect(s1, e, id, p + 1);
      ClearedStep(s.ipc, s1.ipc, ClearFrom(s1, e, id, p + 1).ipc, e, id, p);
    }
  }

  lemma {:induction false} DroppedFrame(a: seq<Proc>, b: seq<Proc>, e: Endpoint, p: nat)
    requires |a| == |b| && p <= |a| && forall x :: p <= x < |a| ==> a[x] == b[x]
    ensures DroppedFrom(a, e, p) == DroppedFrom(b, e, p)
    decreases |a| - p
  {
    if p < |a| { DroppedFrame(a, b, e, p + 1); }
  }

  lemma {:induction false} ClearFromSched(s: State, e: Endpoint, id: nat, p: nat)
    requires StateShape(s) && p <= |s.ipc.procs| && SchedInv(s.sched, Ready(s.ipc))
    ensures var r := ClearFrom(s, e, id, p); SchedInv(r.sched, Ready(r.ipc))
    decreases |s.ipc.procs| - p
  {
    if p < |s.ipc.procs| {
      hide SchedInv;
      ClearOneSched(s, e, id, p);
      ClearFromSched(ClearOne(s, e, id, p), e, id, p + 1);
    }
  }

  lemma ClearOneSched(s: State, e: Endpoint, id: nat, p: nat)
    requires StateShape(s) && p < |s.ipc.procs| && SchedInv(s.sched, Ready(s.ipc))
    ensures var r := ClearOne(s, e, id, p); SchedInv(r.sched, Ready(r.ipc))
  {
    hide SchedInv, Enqueue, RtsUnset;
    if !Empty(s.ipc.procs[p]) {
      var k := s.ipc.procs[p].privId;
      var v := s.ipc.privs[k];
      var s1 := s.(ipc := WithPriv(s.ipc, k, v.(notifyPending := v.notifyPending - {id})));
      SameReady(s.ipc, s1.ipc);
      var x := s1.ipc.procs[p];
      var t1 := s1.(ipc := WithProc(s1.ipc, p, x.(retreg := ESRCDIED)));
      SameReady(s1.ipc, t1.ipc);
      RtsUnsetSched(t1, p, {Receiving});
      var s2 := if Receiving in x.rts && x.getFrom == e then RtsUnset(t1, p, {Receiving}) else s1;
      var y := s2.ipc.procs[p];
      var h := s2.ipc.hist;
      var t2 := s2.(ipc := WithProc(s2.ipc, p, y.(retreg := EDSTDIED)).(hist := h.(dropped := h.dropped + [y.sendId])));
      SameReady(s2.ipc, t2.ipc);
      RtsUnsetSched(t2, p, {Sending});
    }
  }

  lemma {:induction false} DroppedMembers(procs: seq<Proc>, e: Endpoint, p: nat)
    requires p <= |procs|
    requires forall x, y :: 0 <= x < y < |procs| && Drops(procs[x], e) && Drops(procs[y], e) ==>
               procs[x].sendId != procs[y].sendId
    ensures Distinct(DroppedFrom(procs, e, p))
    ensures forall a :: 0 <= a < |DroppedFrom(procs, e, p)| ==> DroppedBy(procs, e, p, DroppedFrom(procs, e, p)[a])
    ensures forall x :: p <= x < |procs| && Drops(procs[x], e) ==> procs[x].sendId in DroppedFrom(procs, e, p)
    decreases |procs| - p
  {
    if p < |procs| {
      DroppedMembers(procs, e, p + 1);
      var rest := DroppedFrom(procs, e, p + 1);
      var all := DroppedFrom(procs, e, p);
      forall a | 0 <= a < |rest|
        ensures DroppedBy(procs, e, p, rest[a]) && (Drops(procs[p], e) ==> rest[a] != procs[p].sendId)
      {
        assert DroppedBy(procs, e, p + 1, rest[a]);
      }
      if Drops(procs[p], e) {
        assert all == [procs[p].sendId] + rest;
        assert DroppedBy(procs, e, p, procs[p].sendId);
      } else {
        assert all == rest;
      }
    }
  }

  ghost predicate DroppedBy(procs: seq<Proc>, e: Endpoint, p: nat, n: nat) {
    exists x :: p <= x < |procs| && Drops(procs[x], e) && procs[x].sendId == n
  }

  // ------------------------------------------------- clear_endpoint keeps it all

  /** rc is gone from j: the effect of clear_endpoint as a whole. */
  ghost predicate Gone(i: Ipc, j: Ipc, rc: nat) {
    && rc < |i.procs| == |j.procs| && |i.cq| == |j.cq| == |i.procs| && |i.privs| == |j.privs|
    && var e := i.procs[rc].endpoint;
    && (forall x :: 0 <= x < |i.procs| && x != rc ==> j.procs[x] == Cleared(i.procs[x], e))
    && j.procs[rc] == i.procs[rc].(rts := i.procs[rc].rts + {NoEndpoint} - {Sending, Receiving})
    && (forall q :: 0 <= q < |i.cq| ==>
          if Live(i.procs[q]) && rc in i.cq[q] then j.cq[q] == RemoveAt(i.cq[q], IndexOf(i.cq[q], rc))
            else j.cq[q] == i.cq[q])
    && (forall k :: 0 <= k < |i.privs| ==>
          && j.privs[k] == i.privs[k].(notifyPending := j.privs[k].notifyPending, asyn := j.privs[k].asyn)
          && (j.privs[k].notifyPending == i.privs[k].notifyPending
              || j.privs[k].notifyPending == i.privs[k].notifyPending - {i.procs[rc].privId})
          && (j.privs[k].asyn == i.privs[k].asyn || (k == i.procs[rc].privId && j.privs[k].asyn == [])))
    && (i.procs[rc].privId < |i.privs| && SysProc in i.privs[i.procs[rc].privId].flags ==>
          j.privs[i.procs[rc].privId].asyn == [])
    && (forall x :: 0 <= x < |i.procs| && !Empty(i.procs[x]) ==>
          i.procs[x].privId < |i.privs| && i.procs[rc].privId !in j.privs[i.procs[x].privId].notifyPending)
    && j.hist == i.hist.(dropped := i.hist.dropped +
         (if Sending in i.procs[rc].rts then [i.procs[rc].sendId] else [])
           + DroppedFrom(i.procs[rc := j.procs[rc]], e, 0))
  }

  lemma ClearedFlags(x: Proc, e: Endpoint)
    ensures var y := Cleared(x, e);
            && y == x.(rts := y.rts, retreg := y.retreg)
            && (forall f :: f != Sending && f != Receiving ==> (f in y.rts <==> f in x.rts))
            && (Sending in y.rts <==> Sending in x.rts && (Empty(x) || x.sendTo != e))
            && (Receiving in y.rts <==> Receiving in x.rts && (Empty(x) || x.getFrom != e))
            && (SlotFree in x.rts && x.rts == {SlotFree} ==> y == x)
  {
  }

  lemma GoneNames(i: Ipc, j: Ipc, rc: nat, e: Endpoint)
    requires CoreInv(i) && Gone(i, j, rc)
    ensures NamesLive(j, e) <==> NamesLive(i, e) && e != i.procs[rc].endpoint
  {
    hide Cleared;
    if e.Ep? && 0 <= e.slot < |i.procs| {
      ClearedFlags(i.procs[e.slot], i.procs[rc].endpoint);
      assert NamesOk(i, e.slot) && NamesOk(i, rc);
    }
  }

  lemma GoneQueues(i: Ipc, j: Ipc, rc: nat)
    requires CoreInv(i) && Gone(i, j, rc)
    ensures QueueInv(j)
  {
    hide Cleared;
    var e := i.procs[rc].endpoint;
    forall x | 0 <= x < |i.procs|
      ensures j.procs[x].endpoint == i.procs[x].endpoint && j.procs[x].sendTo == i.procs[x].sendTo
      ensures Sending in j.procs[x].rts <==> Sending in i.procs[x].rts && x != rc && i.procs[x].sendTo != e
    {
      ClearedFlags(i.procs[x], e);
      assert NamesOk(i, x);
    }
    forall q | 0 <= q < |i.procs| ensures i.procs[q].endpoint == e <==> q == rc {
      assert NamesOk(i, q) && NamesOk(i, rc);
    }
    forall q | 0 <= q < |j.procs| && Live(j.procs[q])
      ensures Distinct(j.cq[q])
      ensures forall p: nat :: p in j.cq[q] <==> p < |j.procs| && SendsTo(j, p, q)
    {
      ClearedFlags(i.procs[q], e);
      assert Live(i.procs[q]) && q != rc;
      if rc in i.cq[q] { RemoveAtElements(i.cq[q], IndexOf(i.cq[q], rc)); }
      forall p: nat ensures p in j.cq[q] <==> p < |j.procs| && SendsTo(j, p, q) {
        assert p in i.cq[q] <==> p < |i.procs| && SendsTo(i, p, q);
      }
    }
  }

  lemma GoneCore(i: Ipc, j: Ipc, rc: nat)
    requires CoreInv(i) && Gone(i, j, rc) && IpcShape(j) && SlotFree !in i.procs[rc].rts
    ensures CoreInv(j)
  {
    hide Cleared;
    GoneQueues(i, j, rc);
    var e := i.procs[rc].endpoint;
    forall p | 0 <= p < |j.procs| ensures NamesOk(j, p) && WaitOk(j, p) {
      assert NamesOk(i, p) && WaitOk(i, p);
      ClearedFlags(i.procs[p], e);
      GoneNames(i, j, rc, i.procs[p].sendTo);
      GoneNames(i, j, rc, i.procs[p].getFrom);
      if Live(i.procs[p]) && rc in i.cq[p] { RemoveAtElements(i.cq[p], IndexOf(i.cq[p], rc)); }
    }
  }

  lemma GoneGraph(i: Ipc, j: Ipc, rc: nat)
    requires CoreInv(i) && GraphInv(i) && Gone(i, j, rc)
    ensures GraphInv(j)
  {
    hide Cleared;
    forall p | 0 <= p < |i.procs| ensures WaitsFor(j)[p].None? || WaitsFor(j)[p] == WaitsFor(i)[p] {
      ClearedFlags(i.procs[p], i.procs[rc].endpoint);
      assert NamesOk(i, p);
    }
    SubgraphAcyclic(WaitsFor(j), WaitsFor(i));
  }

  lemma GonePrivs(i: Ipc, j: Ipc, rc: nat)
    requires IpcShape(i) && PrivInv(i) && Gone(i, j, rc) && IpcShape(j)
    ensures PrivInv(j)
  {
    hide Cleared;
    forall p | 0 <= p < |j.procs|
      ensures j.procs[p].privId == i.procs[p].privId && j.procs[p].getFrom == i.procs[p].getFrom
      ensures SlotFree in j.procs[p].rts <==> SlotFree in i.procs[p].rts
      ensures Receiving in j.procs[p].rts ==> Receiving in i.procs[p].rts
    {
      ClearedFlags(i.procs[p], i.procs[rc].endpoint);
    }
    PrivsKept(i, j);
  }

  lemma GoneTables(i: Ipc, j: Ipc, rc: nat)
    requires CoreInv(i) && AsyncInv(i) && Gone(i, j, rc)
    ensures AsyncInv(j)
  {
    hide Cleared;
    forall p | 0 <= p < |j.procs|
      ensures StillTold(i.procs[p], j.procs[p])
    {
      ClearedFlags(i.procs[p], i.procs[rc].endpoint);
    }
    forall k | 0 <= k < |j.privs| ensures TableOk(j, k) {
      assert TableOk(i, k);
      if j.privs[k].asyn != [] {
        forall n | 0 <= n < |j.privs[k].asyn| && Undone(j.privs[k].asyn[n])
          ensures ElementOk(j, k, j.privs[k].asyn[n])
        {
          var d := j.privs[k].asyn[n];
          assert ElementOk(i, k, d);
          assert StillTold(i.procs[d.dst.slot], j.procs[d.dst.slot]);
        }
        assert StillTold(i.procs[i.privs[k].owner.value], j.procs[i.privs[k].owner.value]);
      }
    }
    forall k, a | 0 <= k < |j.privs| && 0 <= a < |j.hist.asynSent| ensures Marked(j.privs[k], j.hist.asynSent[a]) {
      assert Marked(i.privs[k], i.hist.asynSent[a]);
    }
  }

  ghost predicate SendsLeft(i: Ipc, j: Ipc, rc: nat) {
    && rc < |i.procs| == |j.procs|
    && forall p :: 0 <= p < |j.procs| ==>
         && (Sending in j.procs[p].rts ==> SameSend(i.procs[p], j.procs[p]))
         && (Sending in j.procs[p].rts <==>
               Sending in i.procs[p].rts && p != rc && !Drops(i.procs[p], i.procs[rc].endpoint))
         && j.procs[p].sendId == i.procs[p].sendId
  }

  lemma GoneSends(i: Ipc, j: Ipc, rc: nat)
    requires CoreInv(i) && Gone(i, j, rc)
    ensures SendsLeft(i, j, rc)
  {
    hide Cleared;
    forall p | 0 <= p < |j.procs|
      ensures Sending in j.procs[p].rts ==> SameSend(i.procs[p], j.procs[p])
      ensures Sending in j.procs[p].rts <==>
                Sending in i.procs[p].rts && p != rc && !Drops(i.procs[p], i.procs[rc].endpoint)
      ensures j.procs[p].sendId == i.procs[p].sendId
    {
      ClearedFlags(i.procs[p], i.procs[rc].endpoint);
      assert NamesOk(i, p);
    }
  }

  /** The letter n is held by a process other than rc that was sending to rc. */
  ghost predicate HeldFor(i: Ipc, rc: nat, n: nat)
    requires rc < |i.procs|
  {
    exists p :: 0 <= p < |i.procs| && p != rc && Drops(i.procs[p], i.procs[rc].endpoint) && i.procs[p].sendId == n
  }

  lemma ToldMembers(i: Ipc, x: Proc, rc: nat)
    requires Once(i) && rc < |i.procs| && Sending !in x.rts
    ensures var more := DroppedFrom(i.procs[rc := x], i.procs[rc].endpoint, 0);
            && Distinct(more) && (forall a :: 0 <= a < |more| ==> HeldFor(i, rc, more[a]))
            && (forall p :: 0 <= p < |i.procs| && p != rc && Drops(i.procs[p], i.procs[rc].endpoint) ==>
                  i.procs[p].sendId in more)
  {
    var e := i.procs[rc].endpoint;
    var procs := i.procs[rc := x];
    assert !Drops(procs[rc], e);
    DroppedMembers(procs, e, 0);
    var more := DroppedFrom(procs, e, 0);
    forall a | 0 <= a < |more| ensures HeldFor(i, rc, more[a]) {
      assert DroppedBy(procs, e, 0, more[a]);
    }
    forall p | 0 <= p < |i.procs| && p != rc && Drops(i.procs[p], e) ensures i.procs[p].sendId in more {
      assert Drops(procs[p], e);
    }
  }

  /** The letters clear_endpoint drops are those of rc and of the senders to it. */
  lemma GoneDropped(i: Ipc, j: Ipc, rc: nat) returns (gone: seq<nat>)
    requires Once(i) && SendsLeft(i, j, rc)
    ensures gone == (if Sending in i.procs[rc].rts then [i.procs[rc].sendId] else []) +
                    DroppedFrom(i.procs[rc := j.procs[rc]], i.procs[rc].endpoint, 0)
    ensures Distinct(gone)
    ensures forall a :: 0 <= a < |gone| ==> exists p: nat :: Holds(i, p, gone[a]) && Sending !in j.procs[p].rts
    ensures forall p :: 0 <= p < |i.procs| && Sending in i.procs[p].rts && Sending !in j.procs[p].rts ==>
              i.procs[p].sendId in gone
  {
    hide DroppedFrom;
    ToldMembers(i, j.procs[rc], rc);
    var more := DroppedFrom(i.procs[rc := j.procs[rc]], i.procs[rc].endpoint, 0);
    var own := if Sending in i.procs[rc].rts then [i.procs[rc].sendId] else [];
    gone := own + more;
    forall a | 0 <= a < |more|
      ensures exists p: nat :: Holds(i, p, more[a]) && Sending !in j.procs[p].rts
      ensures own != [] ==> more[a] != own[0]
    {
      assert HeldFor(i, rc, more[a]);
      var x: nat :| x < |i.procs| && x != rc && Drops(i.procs[x], i.procs[rc].endpoint) && i.procs[x].sendId == more[a];
      assert Holds(i, x, more[a]) && Sending !in j.procs[x].rts;
    }
    forall a | 0 <= a < |gone| ensures exists p: nat :: Holds(i, p, gone[a]) && Sending !in j.procs[p].rts {
      if a < |own| {
        assert Holds(i, rc, gone[a]) && Sending !in j.procs[rc].rts;
      } else {
        assert gone[a] == more[a - |own|];
      }
    }
  }

  lemma GoneQueue(i: Ipc, j: Ipc, rc: nat, q: nat)
    requires Gone(i, j, rc) && q < |j.procs| && Live(j.procs[q])
    ensures Live(i.procs[q])
    ensures if rc in i.cq[q] then j.cq[q] == RemoveAt(i.cq[q], IndexOf(i.cq[q], rc)) else j.cq[q] == i.cq[q]
  {
    hide Cleared;
    ClearedFlags(i.procs[q], i.procs[rc].endpoint);
  }

  lemma GoneOrder(i: Ipc, j: Ipc, rc: nat)
    requires Ordered(i) && Gone(i, j, rc) && SendsLeft(i, j, rc)
    ensures Ordered(j)
  {
    assert |j.procs| == |i.procs| == |i.cq| == |j.cq| && rc < |i.procs|;
    hide Gone;
    forall q, a, b | 0 <= q < |j.cq| && q < |j.procs| && Live(j.procs[q]) && 0 <= a < b < |j.cq[q]|
      ensures Before(j, j.cq[q][a], j.cq[q][b])
    {
      GoneQueue(i, j, rc, q);
      if rc in i.cq[q] {
        var k := IndexOf(i.cq[q], rc);
        var a', b' := if a < k then a else a + 1, if b < k then b else b + 1;
        assert Before(i, i.cq[q][a'], i.cq[q][b']);
      } else {
        assert Before(i, i.cq[q][a], i.cq[q][b]);
      }
    }
  }

  lemma GoneLetters(i: Ipc, j: Ipc, rc: nat)
    requires CoreInv(i) && LetterInv(i) && Gone(i, j, rc)
    ensures LetterInv(j)
  {
    GoneSends(i, j, rc);
    var gone := GoneDropped(i, j, rc);
    GoneOrder(i, j, rc);
    hide Gone, CoreInv;
    GoneHistory(i, j, rc, gone);
    LettersDropped(i, j, gone);
  }

  lemma GoneHistory(i: Ipc, j: Ipc, rc: nat, gone: seq<nat>)
    requires Gone(i, j, rc)
    requires gone == (if Sending in i.procs[rc].rts then [i.procs[rc].sendId] else []) +
                     DroppedFrom(i.procs[rc := j.procs[rc]], i.procs[rc].endpoint, 0)
    ensures j.hist.letters == i.hist.letters && j.hist.delivered == i.hist.delivered
    ensures j.hist.dropped == i.hist.dropped + gone
  {
  }

  lemma GoneMessage(i: Ipc, j: Ipc, rc: nat)
    requires MessageInv(i) && Gone(i, j, rc) && IpcShape(j) && rc > PM && SlotFree !in i.procs[rc].rts
    ensures MessageInv(j)
  {
    hide Cleared, CoreInv, GraphInv, PrivInv, AsyncInv, LetterInv;
    assert IpcShape(i) by { CoreShape(i); }
    GoneCore(i, j, rc);
    GoneGraph(i, j, rc);
    GonePrivs(i, j, rc);
    GoneTables(i, j, rc);
    GoneLetters(i, j, rc);
    forall p | 0 <= p <= PM ensures Live(j.procs[p]) && (p == IDLE ==> j.procs[p] == i.procs[p]) {
      ClearedFlags(i.procs[p], i.procs[rc].endpoint);
      IdleCleared(i.procs[IDLE], i.procs[rc].endpoint);
    }
  }

  lemma CoreShape(i: Ipc)
    requires CoreInv(i)
    ensures IpcShape(i)
  {
  }

  lemma IdleCleared(x: Proc, e: Endpoint)
    requires x.rts == {}
    ensures Cleared(x, e) == x
  {
  }

  /** m is i after rc has been cut off but before the others are told. */
  ghost predicate CutOff(i: Ipc, m: Ipc, rc: nat) {
    && rc < |i.procs| && |i.cq| == |m.cq| == |i.procs| && |i.privs| == |m.privs|
    && m.procs == i.procs[rc := i.procs[rc].(rts := i.procs[rc].rts + {NoEndpoint} - {Sending, Receiving})]
    && (forall q :: 0 <= q < |i.cq| ==>
          if Live(i.procs[q]) && rc in i.cq[q] then m.cq[q] == RemoveAt(i.cq[q], IndexOf(i.cq[q], rc))
            else m.cq[q] == i.cq[q])
    && (forall k :: 0 <= k < |i.privs| ==>
          m.privs[k] == i.privs[k] || (k == i.procs[rc].privId && m.privs[k] == i.privs[k].(asyn := [])))
    && (i.procs[rc].privId < |i.privs| && SysProc in i.privs[i.procs[rc].privId].flags ==>
          m.privs[i.procs[rc].privId].asyn == [])
    && m.hist == i.hist.(dropped := i.hist.dropped + if Sending in i.procs[rc].rts then [i.procs[rc].sendId] else [])
  }

  lemma DetachCutsOff(i: Ipc, rc: nat)
    requires CoreInv(i) && rc < |i.procs|
    requires Sending in i.procs[rc].rts ==>
               i.procs[rc].sendTo.Ep? && 0 <= i.procs[rc].sendTo.slot < |i.cq| && rc in i.cq[i.procs[rc].sendTo.slot]
    ensures CutOff(i, Detach(SetFlags(i, rc, {NoEndpoint}), rc), rc)
  {
    NotElsewhere(i, rc);
    assert NamesOk(i, rc);
  }

  lemma CutOffCleared(i: Ipc, m: Ipc, j: Ipc, rc: nat)
    requires CutOff(i, m, rc) && AllCleared(m, j, i.procs[rc].endpoint, i.procs[rc].privId, 0)
    requires !Empty(m.procs[rc])
    ensures Gone(i, j, rc)
  {
    hide Cleared;
    RcCleared(m.procs[rc], i.procs[rc].endpoint);
    forall x | 0 <= x < |i.procs| && !Empty(i.procs[x])
      ensures i.procs[x].privId < |i.privs| && i.procs[rc].privId !in j.privs[i.procs[x].privId].notifyPending
    {
      assert !Empty(m.procs[x]) && m.procs[x].privId == i.procs[x].privId;
    }
  }

  lemma ClearEndpointGone(s: State, rc: nat)
    requires KernelInv(s) && rc < |s.ipc.procs| && SlotFree !in s.ipc.procs[rc].rts
    ensures Gone(s.ipc, ClearEndpoint(s, rc).ipc, rc)
  {
    hide Detach, CutOff, AllCleared, Dequeue, GraphInv, PrivInv, AsyncInv, LetterInv, SchedInv;
    var i := s.ipc;
    QueuedWhereSending(i, rc);
    var s1 := RtsSet(s, rc, {NoEndpoint});
    DetachShape(s1.ipc, rc);
    DetachCutsOff(i, rc);
    var m := Detach(s1.ipc, rc);
    ClearFromEffect(s1.(ipc := m), i.procs[rc].endpoint, i.procs[rc].privId, 0);
    CutOffBusy(i, m, rc);
    CutOffCleared(i, m, ClearEndpoint(s, rc).ipc, rc);
  }

  lemma CutOffBusy(i: Ipc, m: Ipc, rc: nat)
    requires CutOff(i, m, rc)
    ensures |m.procs| == |i.procs| && !Empty(m.procs[rc])
  {
    assert NoEndpoint in m.procs[rc].rts;
  }

  lemma NotElsewhere(i: Ipc, rc: nat)
    requires CoreInv(i) && rc < |i.procs|
    ensures forall q :: 0 <= q < |i.cq| && Live(i.procs[q]) && rc in i.cq[q] ==>
              Sending in i.procs[rc].rts && i.procs[rc].sendTo.Ep? && i.procs[rc].sendTo.slot == q
  {
    forall q | 0 <= q < |i.cq| && Live(i.procs[q]) && rc in i.cq[q]
      ensures Sending in i.procs[rc].rts && i.procs[rc].sendTo.Ep? && i.procs[rc].sendTo.slot == q
    {
      assert SendsTo(i, rc, q) && NamesOk(i, q);
    }
  }

  lemma RcCleared(x: Proc, e: Endpoint)
    requires Sending !in x.rts && Receiving !in x.rts
    ensures Cleared(x, e) == x
  {
  }

  /** A live process other than a kernel task or PM loses its endpoint. */
  lemma ClearEndpointInv(s: State, rc: nat)
    requires KernelInv(s) && PM < rc < |s.ipc.procs| && SlotFree !in s.ipc.procs[rc].rts
    ensures KernelInv(ClearEndpoint(s, rc))
  {
    ClearEndpointGone(s, rc);
    GoneMessage(s.ipc, ClearEndpoint(s, rc).ipc, rc);
    ClearEndpointSched(s, rc);
  }

  lemma ClearEndpointSched(s: State, rc: nat)
    requires KernelInv(s) && PM < rc < |s.ipc.procs|
    ensures var r := ClearEndpoint(s, rc); SchedInv(r.sched, Ready(r.ipc))
  {
    hide SchedInv, Dequeue, GraphInv, PrivInv, AsyncInv, LetterInv;
    QueuedWhereSending(s.ipc, rc);
    var s1 := RtsSet(s, rc, {NoEndpoint});
    var m := Detach(s1.ipc, rc);
    DetachShape(s1.ipc, rc);
    RtsSetSched(s, rc, {NoEndpoint});
    assert NoEndpoint in m.procs[rc].rts;
    assert Ready(m) == Ready(s1.ipc);
    ClearFromSched(s1.(ipc := m), s.ipc.procs[rc].endpoint, s.ipc.procs[rc].privId, 0);
  }

  // ----------------------------------------------------------------- clear_proc

  /** The slot and, for a system process, the privilege structure become free. */
  function FreeSlot(i: Ipc, rc: nat): Ipc
    requires rc < |i.procs| && i.procs[rc].privId < |i.privs|
  {
    var k := i.procs[rc].privId;
    i.(procs := i.procs[rc := i.procs[rc].(rts := {SlotFree})],
       privs := if SysProc in i.privs[k].flags then i.privs[k := i.privs[k].(owner := None)] else i.privs)
  }

  /** clear_proc() of do_exit; a slot already free is left alone. */
  ghost function Exit(s: State, rc: nat): (r: State)
    requires KernelInv(s) && rc < |s.ipc.procs|
    ensures StateShape(r) && |r.ipc.procs| == |s.ipc.procs|
  {
    hide MessageInv, SchedInv, ClearEndpoint;
    if Empty(s.ipc.procs[rc]) then s
    else
      var s1 := ClearEndpoint(s, rc);
      s1.(ipc := FreeSlot(s1.ipc, rc),
          sched := if s1.ipc.procs[rc].rts == {} then Dequeue(s1.sched, rc) else s1.sched)
  }

  /** rc is cut off and nothing refers to its privilege structure any more. */
  ghost predicate Unreferenced(i: Ipc, rc: nat) {
    && rc < |i.procs| && i.procs[rc].privId < |i.privs|
    && SlotFree !in i.procs[rc].rts && NoEndpoint in i.procs[rc].rts && Sending !in i.procs[rc].rts
       && Receiving !in i.procs[rc].rts
    && (forall x :: 0 <= x < |i.procs| && SlotFree !in i.procs[x].rts ==>
          i.procs[x].privId < |i.privs| && i.procs[rc].privId !in i.privs[i.procs[x].privId].notifyPending)
    && (SysProc in i.privs[i.procs[rc].privId].flags ==> i.privs[i.procs[rc].privId].asyn == [])
  }

  lemma GoneUnreferenced(i: Ipc, j: Ipc, rc: nat)
    requires Gone(i, j, rc) && IpcShape(i) && SlotFree !in i.procs[rc].rts
    ensures Unreferenced(j, rc)
  {
    hide Cleared;
    forall x | 0 <= x < |j.procs| && SlotFree !in j.procs[x].rts
      ensures j.procs[x].privId < |j.privs| && j.procs[rc].privId !in j.privs[j.procs[x].privId].notifyPending
    {
      ClearedFlags(i.procs[x], i.procs[rc].endpoint);
    }
  }

  lemma FreeCore(i: Ipc, rc: nat)
    requires CoreInv(i) && GraphInv(i) && Unreferenced(i, rc)
    ensures CoreInv(FreeSlot(i, rc)) && GraphInv(FreeSlot(i, rc))
  {
    var j := FreeSlot(i, rc);
    forall e ensures NamesLive(i, e) <==> NamesLive(j, e) {}
    forall p | 0 <= p < |j.procs| ensures NamesOk(j, p) && WaitOk(j, p) {
      assert NamesOk(i, p) && WaitOk(i, p);
    }
    assert WaitsFor(j) == WaitsFor(i);
  }

  lemma FreePrivs(i: Ipc, rc: nat)
    requires IpcShape(i) && PrivInv(i) && Unreferenced(i, rc)
    ensures IpcShape(FreeSlot(i, rc)) && PrivInv(FreeSlot(i, rc))
  {
    var j := FreeSlot(i, rc);
    assert OwnerOk(i, USER_PRIV_ID);
    forall p | 0 <= p < |j.procs| ensures PrivOk(j, p) { assert PrivOk(i, p) && PrivOk(i, rc); }
    forall k | 0 <= k < |j.privs| ensures OwnerOk(j, k) { assert OwnerOk(i, k) && PrivOk(i, rc); }
  }

  lemma FreeTables(i: Ipc, rc: nat)
    requires AsyncInv(i) && Unreferenced(i, rc)
    ensures AsyncInv(FreeSlot(i, rc))
  {
    var j := FreeSlot(i, rc);
    forall e ensures NamesLive(i, e) <==> NamesLive(j, e) {}
    forall k | 0 <= k < |j.privs| ensures TableOk(j, k) {
      assert TableOk(i, k);
      forall n | 0 <= n < |j.privs[k].asyn| && Undone(j.privs[k].asyn[n]) ensures ElementOk(j, k, j.privs[k].asyn[n]) {
        assert ElementOk(i, k, j.privs[k].asyn[n]);
      }
    }
    forall k, a | 0 <= k < |j.privs| && 0 <= a < |j.hist.asynSent| ensures Marked(j.privs[k], j.hist.asynSent[a]) {
      assert Marked(i.privs[k], i.hist.asynSent[a]);
    }
  }

  lemma ExitInv(s: State, rc: nat)
    requires KernelInv(s) && PM < rc < |s.ipc.procs|
    ensures KernelInv(Exit(s, rc))
  {
    if !Empty(s.ipc.procs[rc]) {
      assert NamesOk(s.ipc, rc);
      ClearEndpointGone(s, rc);
      ClearEndpointInv(s, rc);
      var i := ClearEndpoint(s, rc).ipc;
      GoneUnreferenced(s.ipc, i, rc);
      hide Gone, MessageInv, SchedInv, ClearEndpoint;
      FreeMessage(i, rc);
      FreeReady(i, rc);
    }
  }

  lemma FreeMessage(i: Ipc, rc: nat)
    requires MessageInv(i) && Unreferenced(i, rc) && PM < rc
    ensures MessageInv(FreeSlot(i, rc))
  {
    hide CoreInv, GraphInv, PrivInv, AsyncInv, LetterInv;
    CoreShape(i);
    FreeCore(i, rc);
    FreePrivs(i, rc);
    FreeTables(i, rc);
    FreeReady(i, rc);
    SameLettersInv(i, FreeSlot(i, rc));
  }

  lemma FreeReady(i: Ipc, rc: nat)
    requires Unreferenced(i, rc)
    ensures Ready(FreeSlot(i, rc)) == Ready(i) && i.procs[rc].rts != {} && SameLetters(i, FreeSlot(i, rc))
  {
  }
}
