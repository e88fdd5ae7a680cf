/** The message-passing invariant, and what the elementary changes do to it. */
module IpcInv {
  import opened KernelTypes
  import opened WaitGraph
  import opened Ipc

  // ---------------------------------------------------------------- invariants

  /** Endpoints name their own slot, free slots have no other flag, blocked processes
      are live and name only live ones, and a process both sending and receiving is
      inside one SENDREC. */
  ghost predicate NamesOk(i: Ipc, p: nat)
    requires p < |i.procs|
  {
    var x := i.procs[p];
    && x.endpoint.Ep? && x.endpoint.slot == p
    && (SlotFree in x.rts ==> x.rts == {SlotFree})
    && (Sending in x.rts ==> NoEndpoint !in x.rts && NamesLive(i, x.sendTo) && x.sendTo.slot != p)
    && (Sending in x.rts ==> x.sendMsg.Data?)
    && (Receiving in x.rts ==> NoEndpoint !in x.rts && (x.getFrom != ANY ==> NamesLive(i, x.getFrom)))
    && (Sending in x.rts && Receiving in x.rts ==> x.getFrom == x.sendTo && ReplyPend in x.misc)
  }

  ghost predicate NameInv(i: Ipc) {
    forall p :: 0 <= p < |i.procs| ==> NamesOk(i, p)
  }

  ghost predicate SendsTo(i: Ipc, p: nat, q: nat)
    requires p < |i.procs| && q < |i.procs|
  {
    Sending in i.procs[p].rts && i.procs[p].sendTo == i.procs[q].endpoint
  }

  /** The caller queue of a live q holds, once each, exactly the processes sending to q.
      That of a dead one is left over from its life and means nothing. */
  ghost predicate QueueInv(i: Ipc)
    requires |i.cq| == |i.procs|
  {
    && (forall q, p: nat :: 0 <= q < |i.procs| && Live(i.procs[q]) ==>
          (p in i.cq[q] <==> p < |i.procs| && SendsTo(i, p, q)))
    && (forall q :: 0 <= q < |i.procs| && Live(i.procs[q]) ==> Distinct(i.cq[q]))
  }

  /** A waiting receiver has an empty delivery slot and nothing it waits for is queued;
      a SENDREC waits for, and gets, an ordinary message of its partner. */
  ghost predicate WaitOk(i: Ipc, p: nat)
    requires p < |i.procs| == |i.cq|
  {
    var x := i.procs[p];
    && (Receiving in x.rts ==> DeliverMsg !in x.misc)
    && (Receiving in x.rts && x.getFrom.Ep? ==> !(x.getFrom.slot >= 0 && x.getFrom.slot in i.cq[p]))
    && (Receiving in x.rts && x.getFrom == ANY ==>
          i.cq[p] == [] && Sending !in x.rts && ReplyPend !in x.misc)
    && (ReplyPend in x.misc && Receiving in x.rts ==> x.getFrom == x.awaits)
    && (ReplyPend in x.misc && DeliverMsg in x.misc ==>
          x.deliverMsg.source == x.awaits && x.deliverMsg.content.Data?)
  }

  ghost predicate WaitInv(i: Ipc)
    requires |i.cq| == |i.procs|
  {
    forall p :: 0 <= p < |i.procs| ==> WaitOk(i, p)
  }

  ghost predicate CoreInv(i: Ipc) {
    IpcShape(i) && NameInv(i) && QueueInv(i) && WaitInv(i)
  }

  // -------------------------------------------------------------- the wait graph

  function SlotOf(e: Endpoint): Option<nat> {
    if e.Ep? && e.slot >= 0 then Some(e.slot) else None
  }

  /** Whom deadlock() finds a process to depend on. */
  function BlockedOn(x: Proc): Option<nat> {
    if Receiving in x.rts then SlotOf(x.getFrom)
    else if Sending in x.rts then SlotOf(x.sendTo)
    else None
  }

  function WaitsFor(i: Ipc): Graph {
    seq(|i.procs|, p requires 0 <= p < |i.procs| => BlockedOn(i.procs[p]))
  }

  ghost predicate GraphInv(i: Ipc) {
    Acyclic(WaitsFor(i))
  }

  // ---------------------------------------------------------- elementary changes

  /** x and y differ in nothing that message passing looks at. */
  ghost predicate SameCore(x: Proc, y: Proc) {
    && x.endpoint == y.endpoint
    && (forall f :: f in {SlotFree, Sending, Receiving, NoEndpoint} ==> (f in x.rts <==> f in y.rts))
    && (SlotFree in x.rts ==> x.rts == y.rts)
    && x.getFrom == y.getFrom && x.sendTo == y.sendTo && x.sendMsg == y.sendMsg && x.sendId == y.sendId
    && (ReplyPend in x.misc <==> ReplyPend in y.misc) && (DeliverMsg in x.misc <==> DeliverMsg in y.misc)
    && x.deliverMsg == y.deliverMsg && x.awaits == y.awaits
  }

  ghost predicate Quiet(i: Ipc, j: Ipc) {
    && |i.procs| == |j.procs| && i.cq == j.cq
    && forall p :: 0 <= p < |i.procs| ==> SameCore(i.procs[p], j.procs[p])
  }

  lemma QuietCore(i: Ipc, j: Ipc)
    requires CoreInv(i) && Quiet(i, j) && IpcShape(j)
    ensures CoreInv(j)
  {
    forall p | 0 <= p < |j.procs| ensures NamesOk(j, p) && WaitOk(j, p) {
      assert NamesOk(i, p) && WaitOk(i, p) && SameCore(i.procs[p], j.procs[p]);
      QuietNames(i, j, i.procs[p].sendTo);
      QuietNames(i, j, i.procs[p].getFrom);
    }
    forall p | 0 <= p < |j.procs|
      ensures i.procs[p].endpoint == j.procs[p].endpoint && i.procs[p].sendTo == j.procs[p].sendTo
      ensures Sending in i.procs[p].rts <==> Sending in j.procs[p].rts
    {
      assert SameCore(i.procs[p], j.procs[p]);
    }
  }

  lemma QuietNames(i: Ipc, j: Ipc, e: Endpoint)
    requires Quiet(i, j)
    ensures NamesLive(i, e) <==> NamesLive(j, e)
  {
    if e.Ep? && 0 <= e.slot < |i.procs| {
      assert SameCore(i.procs[e.slot], j.procs[e.slot]);
    }
  }

  lemma QuietGraph(i: Ipc, j: Ipc)
    requires Quiet(i, j)
    ensures WaitsFor(i) == WaitsFor(j)
  {
    forall p | 0 <= p < |i.procs| ensures WaitsFor(i)[p] == WaitsFor(j)[p] {
      assert SameCore(i.procs[p], j.procs[p]);
    }
  }

  /** A message goes into the slot of d, which stops receiving if it was. */
  ghost predicate Handed(i: Ipc, j: Ipc, d: nat, m: Message) {
    && d < |i.procs| && j.cq == i.cq
    && j.procs == i.procs[d := i.procs[d].(
         deliverMsg := m, misc := i.procs[d].misc + {DeliverMsg}, rts := i.procs[d].rts - {Receiving})]
  }

  /** m may answer what d waits for. */
  ghost predicate Acceptable(i: Ipc, d: nat, m: Message)
    requires d < |i.procs|
  {
    ReplyPend in i.procs[d].misc ==> m.source == i.procs[d].awaits && m.content.Data?
  }

  lemma HandedCore(i: Ipc, j: Ipc, d: nat, m: Message)
    requires CoreInv(i) && Handed(i, j, d, m) && IpcShape(j) && Acceptable(i, d, m)
    requires Receiving in i.procs[d].rts ==> Sending !in i.procs[d].rts
    ensures CoreInv(j)
  {
    forall e ensures NamesLive(i, e) <==> NamesLive(j, e) {}
    forall p | 0 <= p < |j.procs| ensures NamesOk(j, p) && WaitOk(j, p) {
      assert NamesOk(i, p) && WaitOk(i, p);
    }
  }

  lemma HandedGraph(i: Ipc, j: Ipc, d: nat, m: Message)
    requires GraphInv(i) && Handed(i, j, d, m)
    requires Receiving in i.procs[d].rts ==> Sending !in i.procs[d].rts
    ensures GraphInv(j)
  {
    SubgraphAcyclic(WaitsFor(j), WaitsFor(i));
  }

  /** c starts sending to dst and is queued there. */
  ghost predicate Queued(i: Ipc, j: Ipc, c: nat, dst: Endpoint) {
    && c < |i.procs| == |j.procs| == |i.cq| && dst.Ep? && 0 <= dst.slot < |i.procs|
    && j.procs == i.procs[c := i.procs[c].(rts := i.procs[c].rts + {Sending}, sendTo := dst,
                                           sendMsg := j.procs[c].sendMsg, sendId := j.procs[c].sendId)]
    && j.cq == i.cq[dst.slot := i.cq[dst.slot] + [c]]
    && j.procs[c].sendMsg.Data?
  }

  lemma QueuedCore(i: Ipc, j: Ipc, c: nat, dst: Endpoint)
    requires CoreInv(i) && Closed(WaitsFor(i)) && Queued(i, j, c, dst) && IpcShape(j)
    requires i.procs[c].rts == {} && NamesLive(i, dst) && dst.slot != c
    requires !Reaches(WaitsFor(i), dst.slot, c)
    requires !WillReceive(i.procs[dst.slot], i.procs[c].endpoint)
    ensures CoreInv(j)
  {
    var g, d: nat := WaitsFor(i), dst.slot;
    forall e ensures NamesLive(i, e) <==> NamesLive(j, e) {}
    assert WaitOk(i, d) && NamesOk(i, d);
    if g[d].Some? {
      assert Walk(g, d, 1) == Walk(g, g[d].value, 0);
    }
    assert g[d] != Some(c);
    forall p | 0 <= p < |j.procs| ensures NamesOk(j, p) && WaitOk(j, p) {
      assert NamesOk(i, p) && WaitOk(i, p);
    }
    QueuedQueues(i, j, c, dst);
  }

  lemma QueuedQueues(i: Ipc, j: Ipc, c: nat, dst: Endpoint)
    requires CoreInv(i) && Queued(i, j, c, dst)
    requires i.procs[c].rts == {} && NamesLive(i, dst)
    ensures |j.cq| == |j.procs| && QueueInv(j)
  {
    var d: nat := dst.slot;
    assert c !in i.cq[d];
    forall q | 0 <= q < |i.procs| ensures i.procs[q].endpoint == dst <==> q == d {
      assert NamesOk(i, q);
    }
  }

  lemma QueuedGraph(i: Ipc, j: Ipc, c: nat, dst: Endpoint)
    requires GraphInv(i) && Queued(i, j, c, dst)
    requires i.procs[c].rts == {} && !Reaches(WaitsFor(i), dst.slot, c)
    ensures GraphInv(j)
  {
    AddEdge(WaitsFor(i), c, dst.slot);
    assert WaitsFor(j) == WaitsFor(i)[c := Some(dst.slot)];
  }

  /** c starts receiving from src. */
  ghost predicate Waiting(i: Ipc, j: Ipc, c: nat, src: Endpoint) {
    && c < |i.procs| && j.cq == i.cq
    && j.procs == i.procs[c := i.procs[c].(rts := i.procs[c].rts + {Receiving}, getFrom := src)]
  }

  lemma WaitingCore(i: Ipc, j: Ipc, c: nat, src: Endpoint)
    requires CoreInv(i) && Waiting(i, j, c, src) && IpcShape(j)
    requires Live(i.procs[c]) && DeliverMsg !in i.procs[c].misc
    requires src != ANY ==> NamesLive(i, src) && src.slot !in i.cq[c]
    requires src == ANY ==> i.cq[c] == [] && ReplyPend !in i.procs[c].misc
    requires Sending in i.procs[c].rts ==> src == i.procs[c].sendTo && ReplyPend in i.procs[c].misc
    requires ReplyPend in i.procs[c].misc ==> src == i.procs[c].awaits
    ensures CoreInv(j)
  {
    forall e ensures NamesLive(i, e) <==> NamesLive(j, e) {}
    forall p | 0 <= p < |j.procs| ensures NamesOk(j, p) && WaitOk(j, p) {
      assert NamesOk(i, p) && WaitOk(i, p);
    }
  }

  lemma WaitingGraph(i: Ipc, j: Ipc, c: nat, src: Endpoint)
    requires GraphInv(i) && Waiting(i, j, c, src)
    requires src != ANY ==> src.Ep? && 0 <= src.slot < |i.procs|
    requires Receiving !in i.procs[c].rts
    requires if Sending in i.procs[c].rts then src == i.procs[c].sendTo
             else src != ANY ==> !Reaches(WaitsFor(i), src.slot, c)
    ensures GraphInv(j)
  {
    if Sending in i.procs[c].rts || src == ANY {
      assert WaitsFor(j) == WaitsFor(i);
    } else {
      AddEdge(WaitsFor(i), c, src.slot);
      assert WaitsFor(j) == WaitsFor(i)[c := Some(src.slot)];
    }
  }

  /** The k-th process queued at c stops sending and leaves the queue. */
  ghost predicate Unqueued(i: Ipc, j: Ipc, c: nat, k: nat) {
    && c < |i.procs| == |i.cq| && k < |i.cq[c]| && i.cq[c][k] < |i.procs|
    && var x := i.cq[c][k];
    && j.procs == i.procs[x := i.procs[x].(rts := i.procs[x].rts - {Sending})]
    && j.cq == i.cq[c := RemoveAt(i.cq[c], k)]
  }

  lemma UnqueuedCore(i: Ipc, j: Ipc, c: nat, k: nat)
    requires CoreInv(i) && Unqueued(i, j, c, k) && IpcShape(j) && Live(i.procs[c])
    ensures CoreInv(j)
  {
    var x := i.cq[c][k];
    RemoveAtElements(i.cq[c], k);
    assert x in i.cq[c];
    forall q | 0 <= q < |i.procs| ensures i.procs[q].endpoint == i.procs[c].endpoint <==> q == c {
      assert NamesOk(i, q) && NamesOk(i, c);
    }
    forall e ensures NamesLive(i, e) <==> NamesLive(j, e) {}
    forall p | 0 <= p < |j.procs| ensures NamesOk(j, p) && WaitOk(j, p) {
      assert NamesOk(i, p) && WaitOk(i, p);
    }
    assert QueueInv(j);
  }

  lemma UnqueuedGraph(i: Ipc, j: Ipc, c: nat, k: nat)
    requires CoreInv(i) && GraphInv(i) && Unqueued(i, j, c, k) && Live(i.procs[c])
    ensures GraphInv(j)
  {
    assert NamesOk(i, i.cq[c][k]);
    SubgraphAcyclic(WaitsFor(j), WaitsFor(i));
  }
}
