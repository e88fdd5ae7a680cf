/** From the history to the delivery slots: what was accepted, registered or raised is what
    its receiver finds in its slot, and nothing else is found there. */
module Handover {
  import opened KernelTypes
  import opened Scheduler
  import opened WaitGraph
  import opened Ipc
  import opened IpcInv
  import opened AsyncSends
  import opened KernelOps
  import opened SendaOps
  import opened Syscalls
  import opened Lifecycle
  import opened Forking
  import opened KernelSteps
  import opened Progress

  // ----------------------------------------------------------------- slots

  /** The process x is in use and has a message in its slot that nobody can replace. */
  predicate Full(x: Proc) { DeliverMsg in x.misc && Receiving !in x.rts && SlotFree !in x.rts }

  ghost predicate WaitersInUse(i: Ipc) {
    forall p :: 0 <= p < |i.procs| && Receiving in i.procs[p].rts ==> SlotFree !in i.procs[p].rts
  }

  /** The process that e names has m in its slot. */
  predicate InSlot(i: Ipc, e: Endpoint, m: Message) {
    && e.Ep? && 0 <= e.slot < |i.procs| && i.procs[e.slot].endpoint == e
    && Full(i.procs[e.slot]) && i.procs[e.slot].deliverMsg == m
  }

  /** Element a.1 of SENDA call a.0 was given to be sent. */
  predicate IsPost(h: History, a: (nat, nat)) {
    && 1 <= a.0 <= |h.calls| && a.1 < |h.calls[a.0 - 1].table|
    && Undone(h.calls[a.0 - 1].table[a.1])
  }

  function PostTo(h: History, a: (nat, nat)): Endpoint
    requires IsPost(h, a)
  {
    h.calls[a.0 - 1].table[a.1].dst
  }

  function PostMessage(h: History, a: (nat, nat)): Message
    requires IsPost(h, a)
  {
    Message(h.calls[a.0 - 1].from, Data(h.calls[a.0 - 1].table[a.1].body))
  }

  // ------------------------------------------------- tables and the calls they came with

  predicate SameElement(e: AsynEntry, was: AsynEntry) {
    e.dst == was.dst && e.body == was.body && (Undone(e) ==> Undone(was))
  }

  /** Table k is that of the SENDA call it is numbered after, made by its owner. */
  ghost predicate Registered(i: Ipc, k: nat)
    requires k < |i.privs|
  {
    var v := i.privs[k];
    v.asyn != [] ==>
      && 1 <= v.serial <= |i.hist.calls| && v.owner.Some? && v.owner.value < |i.procs|
      && i.procs[v.owner.value].endpoint == i.hist.calls[v.serial - 1].from
      && |v.asyn| == |i.hist.calls[v.serial - 1].table|
      && forall n :: 0 <= n < |v.asyn| ==> SameElement(v.asyn[n], i.hist.calls[v.serial - 1].table[n])
  }

  ghost predicate PostInv(i: Ipc) {
    i.hist.serial == |i.hist.calls| && forall k :: 0 <= k < |i.privs| ==> Registered(i, k)
  }

  // ----------------------------------------------------- what a step does to the slots

  ghost predicate SameNames(i: Ipc, j: Ipc) {
    && |j.procs| == |i.procs| && |j.privs| == |i.privs|
    && (forall p :: 0 <= p < |i.procs| ==>
          j.procs[p].endpoint == i.procs[p].endpoint && j.procs[p].privId == i.procs[p].privId)
    && (forall k :: 0 <= k < |i.privs| ==> j.privs[k].owner == i.privs[k].owner)
  }

  /** No message is taken out of a slot or replaced there. */
  ghost predicate SlotsStay(i: Ipc, j: Ipc) {
    |j.procs| == |i.procs| &&
    forall p :: 0 <= p < |i.procs| && Full(i.procs[p]) ==>
      Full(j.procs[p]) && j.procs[p].deliverMsg == i.procs[p].deliverMsg
  }

  /** Every new delivery of a letter is in the slot of its receiver. */
  ghost predicate LettersHanded(i: Ipc, j: Ipc) {
    && i.hist.delivered <= j.hist.delivered
    && forall n :: |i.hist.delivered| <= n < |j.hist.delivered| ==>
         InSlot(j, j.hist.delivered[n].to, j.hist.delivered[n].message)
  }

  /** So is every element newly sent, as it was when SENDA was called. */
  ghost predicate PostsHanded(i: Ipc, j: Ipc) {
    && i.hist.asynSent <= j.hist.asynSent
    && forall n :: |i.hist.asynSent| <= n < |j.hist.asynSent| ==>
         var a := j.hist.asynSent[n];
         IsPost(j.hist, a) && InSlot(j, PostTo(j.hist, a), PostMessage(j.hist, a))
  }

  ghost predicate ByLetter(i: Ipc, j: Ipc, p: nat)
    requires p < |j.procs|
  {
    exists n :: |i.hist.delivered| <= n < |j.hist.delivered| && j.hist.delivered[n].to == j.procs[p].endpoint
                && j.hist.delivered[n].message == j.procs[p].deliverMsg
  }

  ghost predicate ByPost(i: Ipc, j: Ipc, p: nat)
    requires p < |j.procs|
  {
    exists n :: |i.hist.asynSent| <= n < |j.hist.asynSent| && IsPost(j.hist, j.hist.asynSent[n])
                && PostTo(j.hist, j.hist.asynSent[n]) == j.procs[p].endpoint
                && PostMessage(j.hist, j.hist.asynSent[n]) == j.procs[p].deliverMsg
  }

  /** The slot of y holds an ordinary message that that of x did not. */
  predicate NewData(x: Proc, y: Proc) {
    DeliverMsg in y.misc && y.deliverMsg.content.Data? && !(DeliverMsg in x.misc && x.deliverMsg == y.deliverMsg)
  }

  /** An ordinary message that is new in a slot, except perhaps c's, was just delivered
      there. */
  ghost predicate Explained(i: Ipc, j: Ipc, c: nat) {
    |j.procs| == |i.procs| &&
    forall p :: 0 <= p < |i.procs| && p != c && NewData(i.procs[p], j.procs[p]) ==> ByLetter(i, j, p) || ByPost(i, j, p)
  }

  /** p, which had nothing in its slot, has a notification of src there. */
  ghost predicate Informed(i: Ipc, j: Ipc, p: nat, src: nat) {
    && p < |i.procs| == |j.procs| && src < |j.procs| && !Full(i.procs[p]) && Full(j.procs[p])
    && j.procs[p].deliverMsg.source == j.procs[src].endpoint && j.procs[p].deliverMsg.content.Notification?
  }

  ghost predicate BitTaken(i: Ipc, j: Ipc, k: nat, id: nat) {
    && id < |i.privs| && i.privs[id].owner.Some?
    && exists p: nat :: Informed(i, j, p, i.privs[id].owner.value) && i.procs[p].privId == k
  }

  /** A pending notification goes away only into the slot of a process it is pending for. */
  ghost predicate BitsTaken(i: Ipc, j: Ipc) {
    |j.privs| == |i.privs| &&
    forall k, id :: 0 <= k < |i.privs| && id in i.privs[k].notifyPending && id !in j.privs[k].notifyPending ==>
      BitTaken(i, j, k, id)
  }

  ghost predicate Carried(i: Ipc, j: Ipc, k: nat, src: nat, x: nat) {
    exists p: nat :: Informed(i, j, p, src) && i.procs[p].privId == k && x in j.procs[p].deliverMsg.content.arg
  }

  /** Pending signals and interrupts go away only with the notification that carries them. */
  ghost predicate SignalsTaken(i: Ipc, j: Ipc) {
    && |j.privs| == |i.privs|
    && (forall k, x :: 0 <= k < |i.privs| && x in i.privs[k].sigPending && x !in j.privs[k].sigPending ==>
          Carried(i, j, k, SYSTEM, x))
    && (forall k, x :: 0 <= k < |i.privs| && x in i.privs[k].intPending && x !in j.privs[k].intPending ==>
          Carried(i, j, k, HARDWARE, x))
  }

  ghost predicate TablesStay(i: Ipc, j: Ipc) {
    && i.hist.calls <= j.hist.calls && |j.privs| == |i.privs|
    && (i.hist.serial == |i.hist.calls| ==> j.hist.serial == |j.hist.calls|)
    && forall k :: 0 <= k < |i.privs| && Registered(i, k) ==> Registered(j, k)
  }

  /** All of this; c is a slot that is not explained yet. */
  ghost predicate Hands(i: Ipc, j: Ipc, c: nat) {
    && SameNames(i, j) && SlotsStay(i, j) && LettersHanded(i, j) && PostsHanded(i, j) && Explained(i, j, c)
    && BitsTaken(i, j) && SignalsTaken(i, j) && TablesStay(i, j)
  }

  // ------------------------------------------------------------------ transitivity

  lemma LettersTrans(i: Ipc, j: Ipc, k: Ipc)
    requires LettersHanded(i, j) && LettersHanded(j, k) && SlotsStay(j, k) && SameNames(j, k)
    ensures LettersHanded(i, k)
  {
    forall n | |i.hist.delivered| <= n < |k.hist.delivered|
      ensures InSlot(k, k.hist.delivered[n].to, k.hist.delivered[n].message)
    {
      if n < |j.hist.delivered| { assert InSlot(j, j.hist.delivered[n].to, j.hist.delivered[n].message); }
    }
  }

  lemma PostsTrans(i: Ipc, j: Ipc, k: Ipc)
    requires PostsHanded(i, j) && PostsHanded(j, k) && SlotsStay(j, k) && SameNames(j, k)
    requires j.hist.calls <= k.hist.calls
    ensures PostsHanded(i, k)
  {
    forall n | |i.hist.asynSent| <= n < |k.hist.asynSent|
      ensures var a := k.hist.asynSent[n];
              IsPost(k.hist, a) && InSlot(k, PostTo(k.hist, a), PostMessage(k.hist, a))
    {
      if n < |j.hist.asynSent| {
        var a := j.hist.asynSent[n];
        assert IsPost(j.hist, a) && InSlot(j, PostTo(j.hist, a), PostMessage(j.hist, a));
      }
    }
  }

  lemma ExplainedTrans(i: Ipc, j: Ipc, k: Ipc, c: nat)
    requires Explained(i, j, c) && Explained(j, k, c) && SameNames(i, j) && SameNames(j, k)
    requires i.hist.delivered <= j.hist.delivered <= k.hist.delivered
    requires i.hist.asynSent <= j.hist.asynSent <= k.hist.asynSent && j.hist.calls <= k.hist.calls
    ensures Explained(i, k, c)
  {
    forall p | 0 <= p < |i.procs| && p != c && NewData(i.procs[p], k.procs[p])
      ensures ByLetter(i, k, p) || ByPost(i, k, p)
    {
      if NewData(j.procs[p], k.procs[p]) {
        LaterBy(i, j, k, p);
      } else {
        assert NewData(i.procs[p], j.procs[p]);
        EarlierBy(i, j, k, p);
      }
    }
  }

  lemma LaterBy(i: Ipc, j: Ipc, k: Ipc, p: nat)
    requires p < |k.procs| && (ByLetter(j, k, p) || ByPost(j, k, p))
    requires i.hist.delivered <= j.hist.delivered && i.hist.asynSent <= j.hist.asynSent
    ensures ByLetter(i, k, p) || ByPost(i, k, p)
  {
  }

  lemma EarlierBy(i: Ipc, j: Ipc, k: Ipc, p: nat)
    requires p < |j.procs| == |k.procs| && (ByLetter(i, j, p) || ByPost(i, j, p))
    requires k.procs[p].endpoint == j.procs[p].endpoint && k.procs[p].deliverMsg == j.procs[p].deliverMsg
    requires j.hist.delivered <= k.hist.delivered && j.hist.asynSent <= k.hist.asynSent && j.hist.calls <= k.hist.calls
    ensures ByLetter(i, k, p) || ByPost(i, k, p)
  {
    if ByLetter(i, j, p) {
      var n :| |i.hist.delivered| <= n < |j.hist.delivered| && j.hist.delivered[n].to == j.procs[p].endpoint
               && j.hist.delivered[n].message == j.procs[p].deliverMsg;
      assert k.hist.delivered[n] == j.hist.delivered[n];
    } else {
      var n :| |i.hist.asynSent| <= n < |j.hist.asynSent| && IsPost(j.hist, j.hist.asynSent[n])
               && PostTo(j.hist, j.hist.asynSent[n]) == j.procs[p].endpoint
               && PostMessage(j.hist, j.hist.asynSent[n]) == j.procs[p].deliverMsg;
      assert k.hist.asynSent[n] == j.hist.asynSent[n];
    }
  }

  lemma InformedTrans(i: Ipc, j: Ipc, k: Ipc, p: nat, src: nat)
    requires SameNames(i, j) && SameNames(j, k) && SlotsStay(i, j) && SlotsStay(j, k)
    requires Informed(i, j, p, src) || Informed(j, k, p, src)
    ensures Informed(i, k, p, src)
    ensures Informed(i, j, p, src) ==> k.procs[p].deliverMsg == j.procs[p].deliverMsg
  {
  }

  lemma BitsTrans(i: Ipc, j: Ipc, k: Ipc)
    requires BitsTaken(i, j) && BitsTaken(j, k) && SameNames(i, j) && SameNames(j, k)
    requires SlotsStay(i, j) && SlotsStay(j, k)
    ensures BitsTaken(i, k)
  {
    hide SlotsStay;
    forall v, id | 0 <= v < |i.privs| && id in i.privs[v].notifyPending && id !in k.privs[v].notifyPending
      ensures BitTaken(i, k, v, id)
    {
      if id !in j.privs[v].notifyPending {
        assert BitTaken(i, j, v, id);
        var p: nat :| Informed(i, j, p, i.privs[id].owner.value) && i.procs[p].privId == v;
        InformedTrans(i, j, k, p, i.privs[id].owner.value);
      } else {
        assert BitTaken(j, k, v, id);
        var p: nat :| Informed(j, k, p, j.privs[id].owner.value) && j.procs[p].privId == v;
        InformedTrans(i, j, k, p, j.privs[id].owner.value);
      }
    }
  }

  lemma CarriedTrans(i: Ipc, j: Ipc, k: Ipc, v: nat, src: nat, x: nat)
    requires SameNames(i, j) && SameNames(j, k) && SlotsStay(i, j) && SlotsStay(j, k)
    requires Carried(i, j, v, src, x) || Carried(j, k, v, src, x)
    ensures Carried(i, k, v, src, x)
  {
    hide SlotsStay;
    if Carried(i, j, v, src, x) {
      var p: nat :| Informed(i, j, p, src) && i.procs[p].privId == v && x in j.procs[p].deliverMsg.content.arg;
      InformedTrans(i, j, k, p, src);
    } else {
      var p: nat :| Informed(j, k, p, src) && j.procs[p].privId == v && x in k.procs[p].deliverMsg.content.arg;
      InformedTrans(i, j, k, p, src);
    }
  }

  lemma SignalsTrans(i: Ipc, j: Ipc, k: Ipc)
    requires SignalsTaken(i, j) && SignalsTaken(j, k) && SameNames(i, j) && SameNames(j, k)
    requires SlotsStay(i, j) && SlotsStay(j, k)
    ensures SignalsTaken(i, k)
  {
    hide SlotsStay, Carried, SameNames;
    forall v, x | 0 <= v < |i.privs| && x in i.privs[v].sigPending && x !in k.privs[v].sigPending
      ensures Carried(i, k, v, SYSTEM, x)
    {
      CarriedTrans(i, j, k, v, SYSTEM, x);
    }
    forall v, x | 0 <= v < |i.privs| && x in i.privs[v].intPending && x !in k.privs[v].intPending
      ensures Carried(i, k, v, HARDWARE, x)
    {
      CarriedTrans(i, j, k, v, HARDWARE, x);
    }
  }

  lemma HandsTrans(i: Ipc, j: Ipc, k: Ipc, c: nat)
    requires Hands(i, j, c) && Hands(j, k, c)
    ensures Hands(i, k, c)
  {
    hide Registered, InSlot, NewData, IsPost, PostTo, PostMessage, BitTaken, Carried;
    LettersTrans(i, j, k);
    PostsTrans(i, j, k);
    ExplainedTrans(i, j, k, c);
    BitsTrans(i, j, k);
    SignalsTrans(i, j, k);
  }

  // ------------------------------------------------------- what leaves the slots alone

  ghost predicate SlotSame(x: Proc, y: Proc) {
    && y.endpoint == x.endpoint && y.privId == x.privId && y.deliverMsg == x.deliverMsg
    && (DeliverMsg in y.misc <==> DeliverMsg in x.misc) && (SlotFree in x.rts <==> SlotFree in y.rts)
    && (Full(x) ==> Full(y))
  }

  ghost predicate MorePending(v: Priv, w: Priv) {
    && w.owner == v.owner && v.notifyPending <= w.notifyPending && v.sigPending <= w.sigPending
    && v.intPending <= w.intPending && (w.asyn == [] || (w.asyn == v.asyn && w.serial == v.serial))
  }

  /** Slots, deliveries and calls as before; notifications and signals only added. */
  ghost predicate Still(i: Ipc, j: Ipc) {
    && |j.procs| == |i.procs| && |j.privs| == |i.privs|
    && j.hist.delivered == i.hist.delivered && j.hist.asynSent == i.hist.asynSent
    && j.hist.calls == i.hist.calls && j.hist.serial == i.hist.serial
    && (forall p :: 0 <= p < |i.procs| ==> SlotSame(i.procs[p], j.procs[p]))
    && (forall k :: 0 <= k < |i.privs| ==> MorePending(i.privs[k], j.privs[k]))
  }

  lemma StillHands(i: Ipc, j: Ipc, c: nat)
    requires Still(i, j)
    ensures Hands(i, j, c)
  {
    forall p | 0 <= p < |i.procs| ensures SlotSame(i.procs[p], j.procs[p]) {}
    forall k | 0 <= k < |i.privs| ensures MorePending(i.privs[k], j.privs[k]) {}
    assert SameNames(i, j);
    forall k | 0 <= k < |i.privs| && Registered(i, k) ensures Registered(j, k) {
      assert MorePending(i.privs[k], j.privs[k]);
    }
  }

  lemma SetHands(s: State, p: nat, f: set<RtsFlag>, c: nat)
    requires StateShape(s) && p < |s.ipc.procs| && SlotFree !in f && (Receiving in f ==> !Full(s.ipc.procs[p]))
    ensures Hands(s.ipc, RtsSet(s, p, f).ipc, c)
    ensures WaitersInUse(s.ipc) && Receiving !in f ==> WaitersInUse(RtsSet(s, p, f).ipc)
  {
    hide Dequeue;
    StillHands(s.ipc, RtsSet(s, p, f).ipc, c);
  }

  lemma UnsetHands(s: State, p: nat, f: set<RtsFlag>, c: nat)
    requires StateShape(s) && p < |s.ipc.procs| && SlotFree !in f
    requires Receiving in f ==> Receiving !in s.ipc.procs[p].rts || DeliverMsg !in s.ipc.procs[p].misc
    ensures Hands(s.ipc, RtsUnset(s, p, f).ipc, c)
  {
    hide Enqueue;
    StillHands(s.ipc, RtsUnset(s, p, f).ipc, c);
  }

  // -------------------------------------------------------------- notifications

  /** d waits for c, or for anybody, and not for the answer to a SENDREC. */
  predicate Listens(i: Ipc, c: nat, d: nat)
    requires c < |i.procs| && d < |i.procs|
  {
    WillReceive(i.procs[d], i.procs[c].endpoint) && ReplyPend !in i.procs[d].misc
  }

  /** c's notification is in the slot of d, with d's pending signals or interrupts in it if
      c is SYSTEM or HARDWARE, and these are no longer pending. */
  ghost predicate NotePut(i: Ipc, j: Ipc, c: nat, d: nat) {
    && c < |i.procs| && d < |i.procs| == |j.procs| && i.procs[d].privId < |i.privs| == |j.privs|
    && DeliverMsg in j.procs[d].misc && Receiving !in j.procs[d].rts
    && var v, w := i.privs[i.procs[d].privId], j.privs[i.procs[d].privId];
    && j.procs[d].deliverMsg == Message(i.procs[c].endpoint, Notification(
         if c == HARDWARE then v.intPending else if c == SYSTEM then v.sigPending else {}))
    && w.intPending == (if c == HARDWARE then {} else v.intPending)
    && w.sigPending == (if c == SYSTEM then {} else v.sigPending)
    && w.notifyPending == v.notifyPending
  }

  /** c's bit is set among the notifications pending for d, and nothing else changed. */
  ghost predicate NotePends(i: Ipc, j: Ipc, c: nat, d: nat) {
    && c < |i.procs| && d < |i.procs| && i.procs[d].privId < |i.privs| && j.procs == i.procs
    && j.privs == i.privs[i.procs[d].privId := i.privs[i.procs[d].privId].(
         notifyPending := i.privs[i.procs[d].privId].notifyPending + {i.procs[c].privId})]
  }

  /** mini_notify to a process in use never loses the notification: it is in the slot of the
      process if that listens to the caller, and pending otherwise. */
  lemma NotifyExact(s: State, c: nat, dst: Endpoint)
    requires StateShape(s) && c < |s.ipc.procs|
    ensures MiniNotify(s, c, dst).1 == if IsOkEndpoint(s.ipc, dst) then OK else EDEADSRCDST
    ensures !IsOkEndpoint(s.ipc, dst) ==> MiniNotify(s, c, dst).0 == s
    ensures var i, j := s.ipc, MiniNotify(s, c, dst).0.ipc;
            && j.cq == i.cq && j.hist == i.hist
            && (IsOkEndpoint(i, dst) ==>
                  if Listens(i, c, dst.slot) then NotePut(i, j, c, dst.slot) else NotePends(i, j, c, dst.slot))
  {
    hide Enqueue;
  }

  /** The slot of d gets a notification of c, and what it carries stops pending. */
  ghost predicate Notes(i: Ipc, j: Ipc, c: nat, d: nat) {
    && c < |i.procs| == |j.procs| && d < |i.procs| && i.procs[d].privId < |i.privs| == |j.privs|
    && j.hist == i.hist && Informed(i, j, d, c)
    && j.procs[d].endpoint == i.procs[d].endpoint && j.procs[d].privId == i.procs[d].privId
    && (forall p :: 0 <= p < |i.procs| && p != d ==> j.procs[p] == i.procs[p])
    && (forall k :: 0 <= k < |i.privs| && k != i.procs[d].privId ==> j.privs[k] == i.privs[k])
    && var v, w := i.privs[i.procs[d].privId], j.privs[i.procs[d].privId];
    && w.owner == v.owner && w.asyn == v.asyn && w.serial == v.serial
    && (w.notifyPending == v.notifyPending
        || (i.procs[c].privId < |i.privs| && i.privs[i.procs[c].privId].owner == Some(c)
            && w.notifyPending == v.notifyPending - {i.procs[c].privId}))
    && (w.sigPending == v.sigPending || (c == SYSTEM && j.procs[d].deliverMsg.content.arg == v.sigPending))
    && (w.intPending == v.intPending || (c == HARDWARE && j.procs[d].deliverMsg.content.arg == v.intPending))
  }

  lemma NotesHands(i: Ipc, j: Ipc, c: nat, d: nat, e: nat)
    requires Notes(i, j, c, d)
    ensures Hands(i, j, e)
  {
    assert SameNames(i, j) && SlotsStay(i, j) && LettersHanded(i, j) && PostsHanded(i, j);
    assert forall p :: 0 <= p < |i.procs| ==> !NewData(i.procs[p], j.procs[p]);
    forall k, id | 0 <= k < |i.privs| && id in i.privs[k].notifyPending && id !in j.privs[k].notifyPending
      ensures BitTaken(i, j, k, id)
    {
      assert Informed(i, j, d, i.privs[id].owner.value) && i.procs[d].privId == k;
    }
    forall k, x | 0 <= k < |i.privs| && x in i.privs[k].sigPending && x !in j.privs[k].sigPending
      ensures Carried(i, j, k, SYSTEM, x)
    {
      assert Informed(i, j, d, SYSTEM) && i.procs[d].privId == k;
    }
    forall k, x | 0 <= k < |i.privs| && x in i.privs[k].intPending && x !in j.privs[k].intPending
      ensures Carried(i, j, k, HARDWARE, x)
    {
      assert Informed(i, j, d, HARDWARE) && i.procs[d].privId == k;
    }
    forall k | 0 <= k < |i.privs| && Registered(i, k) ensures Registered(j, k) {}
  }

  lemma NotifyHands(s: State, c: nat, dst: Endpoint, e: nat)
    requires StateShape(s) && WaitersInUse(s.ipc) && c < |s.ipc.procs|
    ensures Hands(s.ipc, MiniNotify(s, c, dst).0.ipc, e)
  {
    hide Enqueue, Hands;
    var i, j := s.ipc, MiniNotify(s, c, dst).0.ipc;
    if IsOkEndpoint(i, dst) && Listens(i, c, dst.slot) {
      NotesHands(i, j, c, dst.slot, e);
    } else {
      StillHands(i, j, e);
    }
  }

  lemma SendSigHands(s: State, p: nat, sig: nat, e: nat)
    requires StateShape(s) && WaitersInUse(s.ipc) && p < |s.ipc.procs|
    ensures Hands(s.ipc, SendSig(s, p, sig).ipc, e)
  {
    hide MiniNotify, Hands;
    var k := s.ipc.procs[p].privId;
    var v := s.ipc.privs[k];
    var s1 := s.(ipc := WithPriv(s.ipc, k, v.(sigPending := v.sigPending + {sig})));
    StillHands(s.ipc, s1.ipc, e);
    NotifyHands(s1, SYSTEM, s.ipc.procs[p].endpoint, e);
    HandsTrans(s.ipc, s1.ipc, SendSig(s, p, sig).ipc, e);
  }

  lemma CauseSigHands(s: State, p: nat, sig: nat, e: nat)
    requires StateShape(s) && WaitersInUse(s.ipc) && p < |s.ipc.procs|
    ensures Hands(s.ipc, CauseSig(s, p, sig).ipc, e)
  {
    hide SendSig, RtsSet, Hands;
    var x := s.ipc.procs[p];
    var s1 := s.(ipc := WithProc(s.ipc, p, x.(pending := x.pending + {sig})));
    StillHands(s.ipc, s.ipc, e);
    StillHands(s.ipc, s1.ipc, e);
    var s2 := RtsSet(s1, p, {Signaled, SigPending});
    SetHands(s1, p, {Signaled, SigPending}, e);
    HandsTrans(s.ipc, s1.ipc, s2.ipc, e);
    SendSigHands(s2, PM, SIGKSIG, e);
    HandsTrans(s.ipc, s2.ipc, SendSig(s2, PM, SIGKSIG).ipc, e);
  }

  lemma SigDelayHands(s: State, p: nat, e: nat)
    requires StateShape(s) && WaitersInUse(s.ipc) && p < |s.ipc.procs|
    ensures Hands(s.ipc, SigDelayDone(s, p).ipc, e)
  {
    hide CauseSig, Hands;
    var x := s.ipc.procs[p];
    var s1 := s.(ipc := WithProc(s.ipc, p, x.(misc := x.misc - {SigDelay})));
    StillHands(s.ipc, s1.ipc, e);
    CauseSigHands(s1, p, SIGNDELAY, e);
    HandsTrans(s.ipc, s1.ipc, SigDelayDone(s, p).ipc, e);
  }

  lemma TakeNotifyHands(i: Ipc, c: nat, id: nat, e: nat)
    requires IpcShape(i) && c < |i.procs| && DeliverMsg !in i.procs[c].misc && Receiving !in i.procs[c].rts
    requires SlotFree !in i.procs[c].rts
    requires id < NR_SYS_PROCS && i.privs[id].owner.Some? && i.procs[i.privs[id].owner.value].privId == id
    ensures Hands(i, TakeNotify(i, c, id), e)
  {
    hide Hands;
    NotesHands(i, TakeNotify(i, c, id), i.privs[id].owner.value, c, e);
  }

  // ------------------------------------------------------------------------ letters

  lemma SendHands(s: State, c: nat, dst: Endpoint, content: Content, nonBlocking: bool, io: Access, e: nat)
    requires StateShape(s) && c < |s.ipc.procs| && IsOkEndpoint(s.ipc, dst)
    requires Receiving in s.ipc.procs[dst.slot].rts ==> DeliverMsg !in s.ipc.procs[dst.slot].misc
    requires WaitersInUse(s.ipc)
    ensures Hands(s.ipc, MiniSend(s, c, dst, content, nonBlocking, io).0.ipc, e)
  {
    hide RtsSet, RtsUnset, DeliverLetter, QueueLetter, Hands;
    StillHands(s.ipc, s.ipc, e);
    var d: nat := dst.slot;
    if WillReceive(s.ipc.procs[d], s.ipc.procs[c].endpoint) {
      DirectHands(s, c, dst, content, e);
    } else {
      QueuedHands(s, c, dst, content, e);
    }
  }

  lemma DirectHands(s: State, c: nat, dst: Endpoint, content: Content, e: nat)
    requires StateShape(s) && c < |s.ipc.procs| && IsOkEndpoint(s.ipc, dst)
    requires DeliverMsg !in s.ipc.procs[dst.slot].misc && SlotFree !in s.ipc.procs[dst.slot].rts
    ensures StateShape(s.(ipc := DeliverLetter(s.ipc, c, dst.slot, content)))
    ensures Hands(s.ipc, RtsUnset(s.(ipc := DeliverLetter(s.ipc, c, dst.slot, content)), dst.slot, {Receiving}).ipc, e)
  {
    hide Enqueue;
    var i, d: nat := s.ipc, dst.slot;
    var j := RtsUnset(s.(ipc := DeliverLetter(i, c, d, content)), d, {Receiving}).ipc;
    var m := Message(i.procs[c].endpoint, content);
    assert j.hist.delivered[|i.hist.delivered|] == Delivery(|i.hist.letters|, dst, m);
    assert ByLetter(i, j, d);
    OneFilled(i, j, d, e);
  }

  /** Only the slot of d, which was empty, changed, and what is in it is new in the history. */
  lemma OneFilled(i: Ipc, j: Ipc, d: nat, e: nat)
    requires |i.procs| == |j.procs| && d < |i.procs| && DeliverMsg !in i.procs[d].misc && Full(j.procs[d])
    requires j.procs[d].endpoint == i.procs[d].endpoint && j.procs[d].privId == i.procs[d].privId
    requires forall p :: 0 <= p < |i.procs| && p != d ==> SlotSame(i.procs[p], j.procs[p])
    requires |j.privs| == |i.privs| && forall k :: 0 <= k < |i.privs| ==> MorePending(i.privs[k], j.privs[k])
    requires LettersHanded(i, j) && PostsHanded(i, j) && (e == d || ByLetter(i, j, d) || ByPost(i, j, d))
    requires i.hist.calls == j.hist.calls && i.hist.serial == j.hist.serial
    ensures Hands(i, j, e)
  {
    forall p | 0 <= p < |i.procs| && p != d ensures SlotSame(i.procs[p], j.procs[p]) {}
    assert SameNames(i, j) && SlotsStay(i, j);
    forall k | 0 <= k < |i.privs| ensures MorePending(i.privs[k], j.privs[k]) {}
    forall k | 0 <= k < |i.privs| && Registered(i, k) ensures Registered(j, k) {}
  }

  lemma QueuedHands(s: State, c: nat, dst: Endpoint, content: Content, e: nat)
    requires StateShape(s) && c < |s.ipc.procs| && IsOkEndpoint(s.ipc, dst)
    ensures Hands(s.ipc, QueueLetter(RtsSet(s, c, {Sending}).ipc, c, dst, content), e)
  {
    hide Dequeue, Hands;
    StillHands(s.ipc, QueueLetter(RtsSet(s, c, {Sending}).ipc, c, dst, content), e);
  }

  lemma UnlinkHands(i: Ipc, j: Ipc, c: nat, k: nat)
    requires c < |i.procs| == |i.cq| && k < |i.cq[c]| && i.cq[c][k] < |i.procs| && j == Unlink(i, c, k)
    requires i.procs[c].endpoint.Ep? && i.procs[c].endpoint.slot == c && Full(i.procs[c])
    requires var y := i.procs[i.cq[c][k]]; i.procs[c].deliverMsg == Message(y.endpoint, y.sendMsg)
    ensures Hands(i, j, c) && j.procs == i.procs
    ensures |j.hist.delivered| == |i.hist.delivered| + 1
    ensures j.hist.delivered[|i.hist.delivered|].to == j.procs[c].endpoint
    ensures j.hist.delivered[|i.hist.delivered|].message == j.procs[c].deliverMsg
  {
    forall v | 0 <= v < |i.privs| && Registered(i, v) ensures Registered(j, v) {}
  }

  /** What is left to explain is explained. */
  lemma HandsAll(i: Ipc, j: Ipc, c: nat, e: nat)
    requires Hands(i, j, c) && c < |i.procs| && ByLetter(i, j, c)
    ensures Hands(i, j, e)
  {
  }

  lemma TakeQueuedHands(s: State, c: nat, k: nat, e: nat)
    requires StateShape(s) && c < |s.ipc.procs| && k < |s.ipc.cq[c]| && NamesOk(s.ipc, c) && WaitersInUse(s.ipc)
    requires SlotFree !in s.ipc.procs[c].rts && DeliverMsg !in s.ipc.procs[c].misc
    requires Receiving !in s.ipc.procs[c].rts && c != s.ipc.cq[c][k]
    ensures Hands(s.ipc, TakeQueued(s, c, k).ipc, e)
  {
    hide SigDelayDone, RtsUnset, Unlink, Hands;
    var x := s.ipc.cq[c][k];
    var y := s.ipc.procs[x];
    var s1 := s.(ipc := QueueMess(s.ipc, c, y.endpoint, y.sendMsg));
    OneFilled(s.ipc, s1.ipc, c, c);
    var s2 := if SigDelay in y.misc then SigDelayDone(s1, x) else s1;
    StillHands(s1.ipc, s1.ipc, c);
    SigDelayHands(s1, x, c);
    SigDelayDoneFrame(s1, x);
    HandsTrans(s.ipc, s1.ipc, s2.ipc, c);
    var s3 := RtsUnset(s2, x, {Sending});
    UnsetHands(s2, x, {Sending}, c);
    HandsTrans(s.ipc, s2.ipc, s3.ipc, c);
    UnsetSender(s2, x);
    StillFull(s1.ipc, s2.ipc, s3.ipc, c);
    RemoveAtElements(s3.ipc.cq[c], k);
    var j := Unlink(s3.ipc, c, k);
    UnlinkHands(s3.ipc, j, c, k);
    HandsTrans(s.ipc, s3.ipc, j, c);
    LastLetter(s.ipc, s3.ipc, j, c);
    HandsAll(s.ipc, j, c, e);
  }

  lemma UnsetSender(s: State, x: nat)
    requires StateShape(s) && x < |s.ipc.procs|
    ensures var z := RtsUnset(s, x, {Sending}).ipc.procs[x];
            z.endpoint == s.ipc.procs[x].endpoint && z.sendMsg == s.ipc.procs[x].sendMsg
  {
  }

  lemma StillFull(i: Ipc, j: Ipc, k: Ipc, c: nat)
    requires Hands(i, j, c) && Hands(j, k, c) && c < |i.procs| && Full(i.procs[c])
    ensures c < |k.procs| && Full(k.procs[c]) && k.procs[c].deliverMsg == i.procs[c].deliverMsg
    ensures k.procs[c].endpoint == i.procs[c].endpoint
  {
  }

  lemma LastLetter(i: Ipc, j: Ipc, k: Ipc, c: nat)
    requires Hands(i, j, c) && c < |k.procs| && |k.hist.delivered| == |j.hist.delivered| + 1
    requires k.hist.delivered[|j.hist.delivered|].to == k.procs[c].endpoint
    requires k.hist.delivered[|j.hist.delivered|].message == k.procs[c].deliverMsg
    ensures ByLetter(i, k, c)
  {
    assert |i.hist.delivered| <= |j.hist.delivered|;
  }

  // ----------------------------------------------------------- asynchronous sends

  /** try_one may hand element e to c. */
  predicate Eligible(i: Ipc, e: AsynEntry, c: nat)
    requires c < |i.procs|
  {
    Undone(e) && e.dst == i.procs[c].endpoint && !(NoReply in e.flags && ReplyPend in i.procs[c].misc)
  }

  /** The first element of table k that c may be given is in c's slot, as a message of the
      owner of the table, and is marked as done; other tables were at most dropped. */
  ghost predicate GaveFirst(i: Ipc, j: Ipc, k: nat, n: nat, c: nat) {
    && k < |i.privs| == |j.privs| && n < |i.privs[k].asyn| && c < |i.procs|
    && i.privs[k].owner.Some? && i.privs[k].owner.value < |i.procs|
    && var v, e := i.privs[k], i.privs[k].asyn[n];
    && Eligible(i, e, c) && (forall m :: 0 <= m < n ==> !Eligible(i, v.asyn[m], c))
    && j.procs == i.procs[c := i.procs[c].(
         deliverMsg := Message(i.procs[v.owner.value].endpoint, Data(e.body)), misc := i.procs[c].misc + {DeliverMsg})]
    && j.privs[k] == v.(asyn := v.asyn[n := e.(result := OK, flags := e.flags + {Done})])
    && (forall m :: 0 <= m < |i.privs| && m != k ==>
          j.privs[m] == i.privs[m] || j.privs[m] == i.privs[m].(asyn := []))
    && j.cq == i.cq && j.hist == i.hist.(asynSent := i.hist.asynSent + [(v.serial, n)])
  }

  /** Nothing before the element that is found could have been handed over. */
  lemma {:induction false} FoundFirst(t: seq<AsynEntry>, k: nat, dst: Endpoint, reply: bool, done: bool, late: bool,
                                      v: nat, io: Access)
    requires k <= |t|
    ensures var r := ScanTable(t, k, dst, reply, done, late, v, io);
            r.Found? ==>
              forall m :: k <= m < r.k ==> !(Undone(t[m]) && t[m].dst == dst && !(NoReply in t[m].flags && reply))
    decreases |t| - k
  {
    if k < |t| {
      FoundFirst(t, k + 1, dst, reply, done, late, v, io);
      FoundFirst(t, k + 1, dst, reply, false, late, v, io);
      FoundFirst(t, k + 1, dst, reply, false, true, v, io);
    }
  }

  /** A try_one that succeeds hands over the first element that it may. */
  lemma TryOneGives(i: Ipc, src: nat, c: nat, io: Access)
    requires IpcShape(i) && PrivInv(i) && src < |i.procs| && c < |i.procs| && SlotFree !in i.procs[src].rts
    requires TryOne(i, src, c, io).1 == OK
    ensures var k := i.procs[src].privId;
            i.privs[k].owner == Some(src) && Finds(i, k, c, io)
            && GaveFirst(i, TryOne(i, src, c, io).0, k, Scanned(i, k, c, io).k, c)
  {
    var k := i.procs[src].privId;
    assert PrivOk(i, src);
    FoundFirst(i.privs[k].asyn, 0, i.procs[c].endpoint, ReplyPend in i.procs[c].misc, true, false, k, io);
  }

  /** A try_async that succeeds, and can mark what it hands over, hands over the first
      element that it may of the first table that has one. */
  lemma {:induction false} TryAsyncGives(i: Ipc, c: nat, k: nat, postponed: bool, io: Access)
    requires IpcShape(i) && PrivInv(i) && c < |i.procs| && k <= NR_SYS_PROCS && CanMark(i, c, k, io)
    ensures var r, f := TryAsyncFrom(i, c, k, postponed, io), FirstFinder(i, c, k, io);
            && (r.1 == OK <==> f < |i.privs|)
            && (r.1 == OK ==> GaveFirst(i, r.0, f, Scanned(i, f, c, io).k, c))
    decreases NR_SYS_PROCS - k
  {
    hide TryOne, Unmarked, Finds, PrivInv, GaveFirst, Scanned, FirstFinder, CanMark;
    FinderSteps(i, c, k, io);
    if k == NR_SYS_PROCS {
    } else if i.privs[k].owner.None? {
      TryAsyncGives(i, c, k + 1, postponed, io);
    } else {
      var src := i.privs[k].owner.value;
      TryOneShape(i, src, c, io);
      TryOneCases(i, k, c, io);
      NotUnmarked(i, c, k, io);
      var (j, code, later) := TryOne(i, src, c, io);
      if code == OK {
        OwnerInUse(i, k, c, io);
        TryOneGives(i, src, c, io);
      } else {
        TryOnePriv(i, src, c, io);
        SameCanMark(i, j, c, k + 1, io);
        SameFound(i, j, c, k + 1, io);
        TryAsyncGives(j, c, k + 1, postponed || later, io);
        var f := FirstFinder(i, c, k + 1, io);
        if f < |i.privs| {
          GaveLater(i, j, TryAsyncFrom(j, c, k + 1, postponed || later, io).0, f, Scanned(i, f, c, io).k, c);
        }
      }
    }
  }

  lemma FinderSteps(i: Ipc, c: nat, k: nat, io: Access)
    requires c < |i.procs| && k <= |i.privs|
    ensures k == |i.privs| ==> FirstFinder(i, c, k, io) == |i.privs|
    ensures k < |i.privs| && i.privs[k].owner.Some? && Finds(i, k, c, io) ==> FirstFinder(i, c, k, io) == k
    ensures k < |i.privs| && !(i.privs[k].owner.Some? && Finds(i, k, c, io)) ==>
              && FirstFinder(i, c, k, io) == FirstFinder(i, c, k + 1, io)
              && (CanMark(i, c, k, io) ==> CanMark(i, c, k + 1, io))
  {
  }

  lemma SameCanMark(i: Ipc, j: Ipc, c: nat, k: nat, io: Access)
    requires c < |i.procs| && j.procs == i.procs && k <= |i.privs| == |j.privs|
    requires forall m :: k <= m < |i.privs| ==> j.privs[m] == i.privs[m]
    ensures FirstFinder(j, c, k, io) == FirstFinder(i, c, k, io) && (CanMark(i, c, k, io) ==> CanMark(j, c, k, io))
  {
    SameFinder(i, j, c, k, io);
  }

  lemma OwnerInUse(i: Ipc, k: nat, c: nat, io: Access)
    requires IpcShape(i) && PrivInv(i) && k < |i.privs| && c < |i.procs| && i.privs[k].owner.Some? && Finds(i, k, c, io)
    ensures SlotFree !in i.procs[i.privs[k].owner.value].rts
  {
    assert OwnerOk(i, k);
  }

  lemma SameFound(i: Ipc, j: Ipc, c: nat, k: nat, io: Access)
    requires c < |i.procs| && j.procs == i.procs && k <= |i.privs| == |j.privs|
    requires forall m :: k <= m < |i.privs| ==> j.privs[m] == i.privs[m]
    ensures var f := FirstFinder(i, c, k, io);
            f < |i.privs| ==>
              j.privs[f] == i.privs[f] && Scanned(i, f, c, io).Found? && Scanned(j, f, c, io) == Scanned(i, f, c, io)
  {
  }

  lemma GaveLater(i: Ipc, j: Ipc, r: Ipc, k: nat, n: nat, c: nat)
    requires Fewer(i, j) && GaveFirst(j, r, k, n, c) && j.privs[k] == i.privs[k]
    ensures GaveFirst(i, r, k, n, c)
  {
    forall m | 0 <= m < n ensures !Eligible(i, i.privs[k].asyn[m], c) { assert !Eligible(j, j.privs[k].asyn[m], c); }
  }

  lemma GaveHands(i: Ipc, j: Ipc, k: nat, n: nat, c: nat, e: nat)
    requires IpcShape(i) && GaveFirst(i, j, k, n, c) && Registered(i, k) && NamesOk(i, c)
    requires DeliverMsg !in i.procs[c].misc && Receiving !in i.procs[c].rts && SlotFree !in i.procs[c].rts
    ensures Hands(i, j, e)
  {
    var a := (i.privs[k].serial, n);
    assert SameElement(i.privs[k].asyn[n], i.hist.calls[a.0 - 1].table[n]);
    assert j.hist.asynSent[|i.hist.asynSent|] == a;
    assert InSlot(j, PostTo(j.hist, a), PostMessage(j.hist, a));
    assert ByPost(i, j, c);
    assert SameNames(i, j) && SlotsStay(i, j) && LettersHanded(i, j) && PostsHanded(i, j) && Explained(i, j, e);
    assert BitsTaken(i, j) && SignalsTaken(i, j);
    forall m | 0 <= m < |i.privs| && Registered(i, m) ensures Registered(j, m) {
      forall x | 0 <= x < |j.privs[m].asyn|
        ensures SameElement(j.privs[m].asyn[x], i.hist.calls[j.privs[m].serial - 1].table[x])
      {
        assert SameElement(i.privs[m].asyn[x], i.hist.calls[i.privs[m].serial - 1].table[x]);
      }
    }
  }

  /** Which table, and which of its elements, a receive takes. */
  ghost predicate Gave(i: Ipc, j: Ipc, c: nat, src: Option<nat>) {
    exists k: nat, n: nat :: GaveFirst(i, j, k, n, c) && (src.Some? ==> i.privs[k].owner == src)
  }

  /** The asynchronous part of a receive hands over an element if it succeeds, of the named
      source if there is one, and otherwise leaves the slots alone. */
  lemma ReceiveAsyncGives(i: Ipc, c: nat, src: Option<nat>, io: Access)
    requires MessageInv(i) && c < |i.procs| && Live(i.procs[c]) && Receiving !in i.procs[c].rts
    requires src.Some? ==> src.value < |i.procs| && SlotFree !in i.procs[src.value].rts
    requires AsyncSafe(i, c, src, io)
    ensures var (j, code) := ReceiveAsync(i, c, src, io); if code == OK then Gave(i, j, c, src) else Still(i, j)
  {
    hide TryOne, TryAsyncFrom, MessageInv, GaveFirst, IpcShape, Loses, Unmarked, CanMark, PrivInv, AsyncInv, FewerBits,
      Scanned, FirstFinder;
    MessageParts(i);
    var (j, code) := ReceiveAsync(i, c, src, io);
    if AsynMsg !in i.procs[c].misc {
    } else if src.Some? {
      if code == OK {
        TryOneGives(i, src.value, c, io);
      } else {
        TryOneEffect(i, src.value, c, io);
      }
    } else {
      TryAsyncIs(i, c, io);
      TryAsyncGives(i, c, 0, false, io);
      var f := FirstFinder(i, c, 0, io);
      if code == OK {
        assert GaveFirst(i, j, f, Scanned(i, f, c, io).k, c);
      } else {
        TryAsyncQuiet(i, c, 0, false, io);
      }
    }
  }

  lemma {:induction false} TryAsyncQuiet(i: Ipc, c: nat, k: nat, postponed: bool, io: Access)
    requires IpcShape(i) && PrivInv(i) && c < |i.procs| && k <= NR_SYS_PROCS && FirstFinder(i, c, k, io) == |i.privs|
    ensures Still(i, TryAsyncFrom(i, c, k, postponed, io).0)
    decreases NR_SYS_PROCS - k
  {
    hide TryOne, Finds, PrivInv, Unmarked;
    if k == NR_SYS_PROCS {
    } else if i.privs[k].owner.None? {
      TryAsyncQuiet(i, c, k + 1, postponed, io);
    } else {
      var src := i.privs[k].owner.value;
      TryOneShape(i, src, c, io);
      TryOneCases(i, k, c, io);
      var (j, code, later) := TryOne(i, src, c, io);
      TryOnePriv(i, src, c, io);
      SameFinder(i, j, c, k + 1, io);
      TryAsyncQuiet(j, c, k + 1, postponed || later, io);
      StillTrans(i, j, TryAsyncFrom(j, c, k + 1, postponed || later, io).0);
    }
  }

  lemma StillTrans(i: Ipc, j: Ipc, k: Ipc)
    requires Fewer(i, j) && Still(j, k)
    ensures Still(i, k)
  {
    forall v | 0 <= v < |i.privs| ensures MorePending(i.privs[v], k.privs[v]) {
      assert MorePending(j.privs[v], k.privs[v]);
    }
    forall p | 0 <= p < |i.procs| ensures SlotSame(i.procs[p], k.procs[p]) {
      assert SlotSame(j.procs[p], k.procs[p]);
    }
  }

  // ------------------------------------------------------------------ mini_receive

  lemma BlockHands(s: State, c: nat, src: Endpoint, e: nat)
    requires StateShape(s) && c < |s.ipc.procs| && !Full(s.ipc.procs[c])
    ensures Hands(s.ipc, BlockReceive(s, c, src).ipc, e)
  {
    hide Dequeue, Hands;
    StillHands(s.ipc, BlockReceive(s, c, src).ipc, e);
  }

  lemma ReceiveNowHands(s: State, c: nat, src: Endpoint, nonBlocking: bool, io: Access, e: nat)
    requires KernelInv(s) && PostInv(s.ipc) && MayReceive(s, c, src) && Sending !in s.ipc.procs[c].rts
    requires OwnsBits(s, c) && (Fruitless(s, c, src) ==> TablesSafe(s, c, src, nonBlocking, io))
    ensures Hands(s.ipc, ReceiveNow(s, c, src, nonBlocking, io).0.ipc, e)
  {
    hide MessageInv, SchedInv, BlockReceive, TakeQueued, TakeNotify, ReceiveAsync, GraphInv, WaitsFor, Reaches, Hands,
      AsyncSafe, Gave;
    var i := s.ipc;
    var want: Option<nat> := if src == ANY then None else Some(src.slot);
    var note := if ReplyPend in i.procs[c].misc then None
                else FindNotify(i.privs, i.privs[i.procs[c].privId].notifyPending, want, 0);
    var k := FindCaller(i.cq[c], want, 0);
    if note.Some? {
      OwnersNamed(s, note.value);
      TakeNotifyHands(i, c, note.value, e);
    } else if k < |i.cq[c]| {
      NotInOwnQueue(s, c, k);
      SendaParts(s);
      TakeQueuedHands(s, c, k, e);
    } else {
      SourceInUse(s, src);
      ReceiveAsyncGives(i, c, want, io);
      ReceiveAsyncShape(i, c, want, io);
      var (j, code) := ReceiveAsync(i, c, want, io);
      if code == OK {
        AsyncHands(s, j, c, want, e);
      } else {
        StillHands(i, j, e);
        assert SlotSame(i.procs[c], j.procs[c]);
        BlockHands(s.(ipc := j), c, src, e);
        HandsTrans(i, j, BlockReceive(s.(ipc := j), c, src).ipc, e);
      }
    }
  }

  lemma AsyncHands(s: State, j: Ipc, c: nat, src: Option<nat>, e: nat)
    requires KernelInv(s) && PostInv(s.ipc) && Gave(s.ipc, j, c, src) && c < |s.ipc.procs|
    requires DeliverMsg !in s.ipc.procs[c].misc && Receiving !in s.ipc.procs[c].rts && SlotFree !in s.ipc.procs[c].rts
    ensures Hands(s.ipc, j, e)
  {
    hide Hands;
    assert NamesOk(s.ipc, c);
    hide MessageInv, SchedInv;
    var k: nat, n: nat :| GaveFirst(s.ipc, j, k, n, c) && (src.Some? ==> s.ipc.privs[k].owner == src);
    GaveHands(s.ipc, j, k, n, c, e);
  }

  lemma OwnersNamed(s: State, id: nat)
    requires KernelInv(s) && id < NR_SYS_PROCS && s.ipc.privs[id].owner.Some?
    ensures s.ipc.procs[s.ipc.privs[id].owner.value].privId == id
  {
    assert OwnerOk(s.ipc, id);
  }

  lemma NotInOwnQueue(s: State, c: nat, k: nat)
    requires KernelInv(s) && c < |s.ipc.procs| && Live(s.ipc.procs[c]) && k < |s.ipc.cq[c]|
    ensures s.ipc.cq[c][k] != c && NamesOk(s.ipc, c)
  {
    assert s.ipc.cq[c][k] in s.ipc.cq[c];
    assert NamesOk(s.ipc, c);
  }

  lemma SourceInUse(s: State, src: Endpoint)
    requires KernelInv(s)
    ensures IsOkEndpoint(s.ipc, src) ==> SlotFree !in s.ipc.procs[src.slot].rts
  {
    if IsOkEndpoint(s.ipc, src) { assert NamesOk(s.ipc, src.slot); }
  }

  lemma ReceiveHands(s: State, c: nat, src: Endpoint, nonBlocking: bool, io: Access, e: nat)
    requires KernelInv(s) && PostInv(s.ipc) && MayReceive(s, c, src) && OwnsBits(s, c)
    requires ReceiveSafe(s, c, src, nonBlocking, io)
    ensures Hands(s.ipc, MiniReceive(s, c, src, nonBlocking, io).0.ipc, e)
  {
    hide MessageInv, SchedInv, BlockReceive, ReceiveNow, GraphInv, WaitsFor, Reaches, Fruitless, TablesSafe, Hands,
      PostInv;
    StillHands(s.ipc, s.ipc, e);
    BlockHands(s, c, src, e);
    if io.receiveMapped && !(src != ANY && NoEndpoint in s.ipc.procs[src.slot].rts) && Sending !in s.ipc.procs[c].rts {
      ReceiveNowHands(s, c, src, nonBlocking, io, e);
    }
  }

  // -------------------------------------------------------------------- mini_senda

  /** The call being made is the last one, and t differs from its table in nothing that is
      still to be looked at. */
  ghost predicate Opened(i: Ipc, c: nat, t: seq<AsynEntry>, n: nat) {
    && c < |i.procs| && n <= |t| && i.hist.serial == |i.hist.calls| > 0
    && var call := i.hist.calls[|i.hist.calls| - 1];
    && call.from == i.procs[c].endpoint && |call.table| == |t|
    && (forall m :: 0 <= m < n ==> SameElement(t[m], call.table[m]))
    && (forall m :: n <= m < |t| ==> t[m] == call.table[m])
  }

  lemma SendaDeliverHands(s: State, c: nat, t: seq<AsynEntry>, n: nat, e: nat)
    requires StateShape(s) && Opened(s.ipc, c, t, n) && n < |t| && Undone(t[n]) && IsOkEndpoint(s.ipc, t[n].dst)
    requires DeliverMsg !in s.ipc.procs[t[n].dst.slot].misc && SlotFree !in s.ipc.procs[t[n].dst.slot].rts
    ensures var i, d := s.ipc, t[n].dst.slot;
            var j := QueueMess(i, d, i.procs[c].endpoint, Data(t[n].body)).(
                       hist := i.hist.(asynSent := i.hist.asynSent + [(i.hist.serial, n)]));
            Hands(i, RtsUnset(s.(ipc := j), d, {Receiving}).ipc, e)
  {
    hide Enqueue, Hands;
    var i, d: nat := s.ipc, t[n].dst.slot;
    var j := QueueMess(i, d, i.procs[c].endpoint, Data(t[n].body)).(
               hist := i.hist.(asynSent := i.hist.asynSent + [(i.hist.serial, n)]));
    var r := RtsUnset(s.(ipc := j), d, {Receiving}).ipc;
    var a := (i.hist.serial, n);
    assert r.hist.asynSent[|i.hist.asynSent|] == a && IsPost(r.hist, a);
    assert InSlot(r, PostTo(r.hist, a), PostMessage(r.hist, a));
    assert ByPost(i, r, d);
    OneFilled(i, r, d, e);
  }

  lemma SendaOneHands(s: State, c: nat, t: seq<AsynEntry>, n: nat, io: Access, e: nat)
    requires StateShape(s) && Opened(s.ipc, c, t, n) && n < |t| && WaitersInUse(s.ipc)
    requires forall d :: 0 <= d < |s.ipc.procs| && Receiving in s.ipc.procs[d].rts ==>
               DeliverMsg !in s.ipc.procs[d].misc
    ensures Hands(s.ipc, SendaOne(s, c, t[n], n, io).0.ipc, e)
  {
    hide RtsUnset, Hands, StateShape, Opened;
    OpenedSize(s.ipc, c, t, n);
    StillHands(s.ipc, s.ipc, e);
    if Undone(t[n]) && IsOkEndpoint(s.ipc, t[n].dst) {
      var d: nat := t[n].dst.slot;
      StillHands(s.ipc, WithProc(s.ipc, d, s.ipc.procs[d].(misc := s.ipc.procs[d].misc + {AsynMsg})), e);
      if WillReceive(s.ipc.procs[d], s.ipc.procs[c].endpoint) { SendaDeliverHands(s, c, t, n, e); }
    }
  }

  lemma SendaOneOpened(s: State, c: nat, t: seq<AsynEntry>, n: nat, io: Access)
    requires StateShape(s) && Opened(s.ipc, c, t, n) && n < |t|
    ensures var (s1, f, code) := SendaOne(s, c, t[n], n, io);
            SameElement(f, t[n]) && (code == OK ==> Opened(s1.ipc, c, t[n := f], n + 1))
  {
    hide Enqueue, StateShape;
    var (s1, f, code) := SendaOne(s, c, t[n], n, io);
    assert s1.ipc.hist.calls == s.ipc.hist.calls && s1.ipc.hist.serial == s.ipc.hist.serial;
    assert s1.ipc.procs[c].endpoint == s.ipc.procs[c].endpoint;
  }

  lemma {:induction false} SendaFromHands(s: State, c: nat, t: seq<AsynEntry>, n: nat, io: Access, e: nat)
    requires KernelInv(s) && Opened(s.ipc, c, t, n) && SendaLoop(s.ipc, s.ipc.procs[c].privId, t, n)
    ensures var (r, u, code) := SendaFrom(s, c, t, n, io);
            Hands(s.ipc, r.ipc, e) && (code == OK ==> Opened(r.ipc, c, u, |u|))
    decreases |t| - n
  {
    hide KernelInv, SendaOne, Hands, Opened, SendaLoop, NameInv, SendaFrame;
    StillHands(s.ipc, s.ipc, e);
    SendaParts(s);
    KernelNames(s);
    OpenedSize(s.ipc, c, t, n);
    if n < |t| && !BadFlags(t[n]) && !Faults(io, s.ipc.procs[c].privId, n, NoFlags) {
      SendaOneHands(s, c, t, n, io, e);
      SendaOneOpened(s, c, t, n, io);
      SendaOneInv(s, c, t, n, io);
      var (s1, f, code) := SendaOne(s, c, t[n], n, io);
      if code == OK {
        SendaOneLoop(s, c, t, n, io);
        SendaOneFrame(s, c, t[n], n, io);
        SamePriv(s.ipc, s1.ipc, c);
        SendaFromHands(s1, c, t[n := f], n + 1, io, e);
        HandsTrans(s.ipc, s1.ipc, SendaFrom(s1, c, t[n := f], n + 1, io).0.ipc, e);
      }
    }
  }

  lemma OpenedSize(i: Ipc, c: nat, t: seq<AsynEntry>, n: nat)
    requires Opened(i, c, t, n)
    ensures c < |i.procs| && n <= |t|
  {
  }

  lemma SendaParts(s: State)
    requires KernelInv(s)
    ensures StateShape(s) && WaitersInUse(s.ipc)
    ensures forall d :: 0 <= d < |s.ipc.procs| && Receiving in s.ipc.procs[d].rts ==> DeliverMsg !in s.ipc.procs[d].misc
  {
    forall d | 0 <= d < |s.ipc.procs| && Receiving in s.ipc.procs[d].rts
      ensures DeliverMsg !in s.ipc.procs[d].misc && SlotFree !in s.ipc.procs[d].rts
    {
      assert WaitOk(s.ipc, d) && NamesOk(s.ipc, d);
    }
  }

  /** A call begins: the old table goes, and the call is noted. */
  lemma OpenHands(i: Ipc, c: nat, t: seq<AsynEntry>, e: nat)
    requires IpcShape(i) && c < |i.procs| && PostInv(i)
    ensures Hands(i, OpenCall(i, c, t), e) && PostInv(OpenCall(i, c, t)) && Opened(OpenCall(i, c, t), c, t, 0)
  {
    var j := OpenCall(i, c, t);
    forall k | 0 <= k < |i.privs| ensures Registered(j, k) { assert Registered(i, k); }
  }

  /** It ends: the table as it is now is registered. */
  lemma RegisterHands(i: Ipc, c: nat, t: seq<AsynEntry>, e: nat)
    requires IpcShape(i) && Opened(i, c, t, |t|) && i.privs[i.procs[c].privId].owner == Some(c)
    ensures var k := i.procs[c].privId;
            Hands(i, WithPriv(i, k, i.privs[k].(asyn := t, serial := i.hist.serial)), e)
  {
    var k := i.procs[c].privId;
    var j := WithPriv(i, k, i.privs[k].(asyn := t, serial := i.hist.serial));
    forall m | 0 <= m < |i.privs| && Registered(i, m) ensures Registered(j, m) {}
  }

  lemma OwnsTable(s: State, c: nat)
    requires KernelInv(s) && c < |s.ipc.procs| && SlotFree !in s.ipc.procs[c].rts
    requires SysProc in s.ipc.privs[s.ipc.procs[c].privId].flags
    ensures s.ipc.privs[s.ipc.procs[c].privId].owner == Some(c)
  {
    assert PrivOk(s.ipc, c);
  }

  lemma OpenInv(s: State, c: nat, t: seq<AsynEntry>)
    requires KernelInv(s) && c < |s.ipc.procs|
    ensures KernelInv(s.(ipc := OpenCall(s.ipc, c, t)))
    ensures SendaLoop(OpenCall(s.ipc, c, t), s.ipc.procs[c].privId, t, 0)
  {
    hide MessageInv, SchedInv, SendaLoop;
    ClearTableInv(s.ipc, c, t);
    SameReady(s.ipc, OpenCall(s.ipc, c, t));
  }

  lemma MiniSendaHands(s: State, c: nat, t: seq<AsynEntry>, io: Access, e: nat)
    requires KernelInv(s) && PostInv(s.ipc) && c < |s.ipc.procs| && SlotFree !in s.ipc.procs[c].rts
    ensures Hands(s.ipc, MiniSenda(s, c, t, io).0.ipc, e)
  {
    hide MessageInv, SchedInv, SendaFrom, SendaLoop, Hands, Opened, PostInv, SendaFrame;
    var k := s.ipc.procs[c].privId;
    StillHands(s.ipc, s.ipc, e);
    if SysProc in s.ipc.privs[k].flags {
      var s1 := s.(ipc := OpenCall(s.ipc, c, t));
      OwnsTable(s, c);
      OpenHands(s.ipc, c, t, e);
      OpenInv(s, c, t);
      if 0 < |t| <= 16 * |s.ipc.procs| && io.sendMapped {
        SendaFromHands(s1, c, t, 0, io, e);
        SendaFromInv(s1, c, t, 0, io);
        var (s2, t2, code) := SendaFrom(s1, c, t, 0, io);
        HandsTrans(s.ipc, s1.ipc, s2.ipc, e);
        if code == OK {
          SamePriv(s1.ipc, s2.ipc, c);
          SameOwner(s.ipc, s2.ipc, k, e);
          RegisterHands(s2.ipc, c, t2, e);
          HandsTrans(s.ipc, s2.ipc, WithPriv(s2.ipc, k, s2.ipc.privs[k].(asyn := t2, serial := s2.ipc.hist.serial)), e);
        }
      }
    }
  }

  lemma SameOwner(i: Ipc, j: Ipc, k: nat, e: nat)
    requires Hands(i, j, e) && k < |i.privs|
    ensures k < |j.privs| && j.privs[k].owner == i.privs[k].owner
  {
  }

  // ---------------------------------------------------------------------- sys_call

  lemma HandsPosts(i: Ipc, j: Ipc, e: nat)
    requires Hands(i, j, e) && PostInv(i)
    ensures PostInv(j)
  {
  }

  /** Every safe trap hands over what it delivers. */
  lemma SysCallHands(s: State, t: Trap, e: nat)
    requires KernelInv(s) && PostInv(s.ipc) && CanTrap(s) && TrapSafe(s, t)
    ensures Hands(s.ipc, SysCall(s, t).0.ipc, e)
  {
    hide MessageInv, SchedInv, MiniSend, MiniReceive, MiniNotify, MiniSenda, Hands, PostInv, MarkReply, ClearReply,
      ReceiveSafe, Opened;
    GraphClosed(s);
    SendaParts(s);
    var c := s.sched.procPtr;
    StillHands(s.ipc, s.ipc, e);
    if CheckTrap(s, t) == OK {
      if t.callNr == SENDREC {
        SendRecHands(s, t, e);
      } else if t.callNr == SEND || t.callNr == SENDNB {
        SendHands(s, c, t.ep, Data(t.body), t.callNr == SENDNB, t.io, e);
      } else if t.callNr == RECEIVE {
        ReceiveTrapHands(s, t, e);
      } else if t.callNr == NOTIFY {
        NotifyHands(s, c, t.ep, e);
      } else if t.callNr == SENDA {
        MiniSendaHands(s, c, t.table, t.io, e);
      }
    }
  }

  lemma ReceiveTrapHands(s: State, t: Trap, e: nat)
    requires KernelInv(s) && PostInv(s.ipc) && CanTrap(s) && TrapSafe(s, t)
    requires t.callNr == RECEIVE && CheckTrap(s, t) == OK
    ensures Hands(s.ipc, SysCall(s, t).0.ipc, e)
  {
    hide MessageInv, SchedInv, MiniReceive, Hands, PostInv, ReceiveSafe, MayReceive, Deadlock;
    var c := s.sched.procPtr;
    var s0 := s.(ipc := ClearReply(s.ipc, c));
    GraphClosed(s);
    MarkReplyInv(s, c, t.ep);
    ReceiveMay(s, t);
    CallerHasBits(s, c);
    StillHands(s.ipc, s0.ipc, e);
    HandsPosts(s.ipc, s0.ipc, e);
    ReceiveHands(s0, c, t.ep, false, t.io, e);
    HandsTrans(s.ipc, s0.ipc, SysCall(s, t).0.ipc, e);
  }

  lemma SendRecHands(s: State, t: Trap, e: nat)
    requires KernelInv(s) && PostInv(s.ipc) && CanTrap(s) && TrapSafe(s, t)
    requires t.callNr == SENDREC && CheckTrap(s, t) == OK
    ensures Hands(s.ipc, SysCall(s, t).0.ipc, e)
  {
    hide MessageInv, SchedInv, MiniReceive, MiniSend, Hands, PostInv, ReceiveSafe, MayReceive, Deadlock, CheckTrap;
    var c := s.sched.procPtr;
    var s0 := s.(ipc := MarkReply(s.ipc, c, t.ep));
    NamedDestination(s, t);
    MarkReplyInv(s, c, t.ep);
    SendRecInv(s, t);
    SendaParts(s0);
    StillHands(s.ipc, s0.ipc, e);
    SendHands(s0, c, t.ep, Data(t.body), false, t.io, e);
    var (s1, code) := MiniSend(s0, c, t.ep, Data(t.body), false, t.io);
    HandsTrans(s.ipc, s0.ipc, s1.ipc, e);
    if code == OK {
      HandsPosts(s.ipc, s1.ipc, e);
      SentMayReceive(s0, c, t.ep, Data(t.body), t.io);
      CallerHasBits(s0, c);
      SentEndpoint(s0, c, t.ep, Data(t.body), t.io) by { OkSlot(s0, t.ep); }
      ReceiveHands(s1, c, t.ep, false, t.io, e);
      HandsTrans(s.ipc, s1.ipc, SysCall(s, t).0.ipc, e);
    }
  }

  /** A SEND, SENDREC or SENDNB that passes its checks names another process. */
  lemma NamedDestination(s: State, t: Trap)
    requires KernelInv(s) && CanTrap(s) && CheckTrap(s, t) == OK && t.callNr in {SEND, SENDREC, SENDNB}
    ensures IsOkEndpoint(s.ipc, t.ep) && t.ep.slot != s.sched.procPtr
  {
    NeverSelf(s.ipc, s.sched.procPtr, t.ep.slot);
  }

  // --------------------------------------------------------------- schedcheck

  /** What dispatching may do to the slots: hand a message over to its process unless the copy
      faults, and tell VM of faults. */
  ghost predicate Dispatches(i: Ipc, j: Ipc, faults: map<nat, bool>) {
    && SameNames(i, j) && j.hist == i.hist
    && (forall p :: 0 <= p < |i.procs| ==> HandedOver(i.procs[p], j.procs[p], p in faults))
    && (forall k :: 0 <= k < |i.privs| ==>
          && j.privs[k].asyn == i.privs[k].asyn && j.privs[k].serial == i.privs[k].serial
          && i.privs[k].notifyPending <= j.privs[k].notifyPending && i.privs[k].intPending == j.privs[k].intPending)
    && (forall k, x :: 0 <= k < |i.privs| && x in i.privs[k].sigPending && x !in j.privs[k].sigPending ==>
          ToldVm(i, j, k, x))
  }

  ghost predicate HandedOver(x: Proc, y: Proc, fault: bool) {
    && SlotKept(x, y) && !NewData(x, y) && (SlotFree in x.rts <==> SlotFree in y.rts)
    && (Full(x) && fault ==> DeliverMsg in y.misc)
  }

  /** VM was waiting, and the notification that it got carried x. */
  ghost predicate ToldVm(i: Ipc, j: Ipc, k: nat, x: nat) {
    && VM < |i.procs| == |j.procs| && SYSTEM < |j.procs| && i.procs[VM].privId == k
    && Receiving in i.procs[VM].rts && Receiving !in j.procs[VM].rts
    && (DeliverMsg in j.procs[VM].misc ==>
          && j.procs[VM].deliverMsg.source == j.procs[SYSTEM].endpoint
          && j.procs[VM].deliverMsg.content.Notification? && x in j.procs[VM].deliverMsg.content.arg)
  }

  lemma DispatchesTrans(i: Ipc, j: Ipc, k: Ipc, faults: map<nat, bool>)
    requires Dispatches(i, j, faults) && Dispatches(j, k, faults)
    ensures Dispatches(i, k, faults)
  {
    forall p | 0 <= p < |i.procs| ensures HandedOver(i.procs[p], k.procs[p], p in faults) {
      assert HandedOver(i.procs[p], j.procs[p], p in faults) && HandedOver(j.procs[p], k.procs[p], p in faults);
    }
    forall v, x | 0 <= v < |i.privs| && x in i.privs[v].sigPending && x !in k.privs[v].sigPending
      ensures ToldVm(i, k, v, x)
    {
      if x in j.privs[v].sigPending {
        assert ToldVm(j, k, v, x) && HandedOver(i.procs[VM], j.procs[VM], VM in faults);
      } else {
        assert ToldVm(i, j, v, x) && HandedOver(j.procs[VM], k.procs[VM], VM in faults);
      }
    }
  }

  lemma DeliveredDispatches(s: State, p: nat, faults: map<nat, bool>)
    requires p < |s.ipc.procs| && p !in faults
    ensures Dispatches(s.ipc, Delivered(s, p).ipc, faults)
  {
  }

  lemma SuspendedDispatches(s: State, p: nat, tell: bool, faults: map<nat, bool>)
    requires StateShape(s) && p < |s.ipc.procs|
    ensures Dispatches(s.ipc, Suspended(s, p, tell).ipc, faults)
  {
    hide Dequeue, Enqueue, Dispatches;
    var s1 := RtsSet(s, p, {VmRequest});
    assert Dispatches(s.ipc, s1.ipc, faults) by { FlagDispatches(s, p, faults); }
    TellDispatches(s1, faults);
    DispatchesTrans(s.ipc, s1.ipc, MiniNotify(s1, SYSTEM, Ep(0, VM)).0.ipc, faults);
  }

  lemma FlagDispatches(s: State, p: nat, faults: map<nat, bool>)
    requires StateShape(s) && p < |s.ipc.procs|
    ensures Dispatches(s.ipc, RtsSet(s, p, {VmRequest}).ipc, faults)
  {
    hide Dequeue;
  }

  lemma TellDispatches(s: State, faults: map<nat, bool>)
    requires StateShape(s)
    ensures Dispatches(s.ipc, MiniNotify(s, SYSTEM, Ep(0, VM)).0.ipc, faults)
  {
    hide Enqueue;
  }

  lemma SameDispatches(i: Ipc, faults: map<nat, bool>)
    ensures Dispatches(i, i, faults)
  {
  }

  lemma {:induction false} DeliverLoopDispatches(s: State, faults: map<nat, bool>)
    requires KernelInv(s) && s.sched.nextPtr.None?
    ensures Dispatches(s.ipc, DeliverLoop(s, faults).ipc, faults)
    decreases Work(s.ipc)
  {
    hide KernelInv, Enqueue, Dequeue, MiniNotify, Work, Dispatches, Delivered;
    var p := s.sched.procPtr;
    LoopParts(s);
    SameDispatches(s.ipc, faults);
    if DeliverMsg in s.ipc.procs[p].misc {
      if p !in faults {
        DeliveredInv(s, p);
        DeliveredWork(s, p);
        DeliveredAdvance(s, p);
        DeliveredDispatches(s, p, faults);
        DeliverLoopDispatches(Delivered(s, p), faults);
        DispatchesTrans(s.ipc, Delivered(s, p).ipc, DeliverLoop(s, faults).ipc, faults);
      } else {
        SuspendedInv(s, p, faults[p]);
        SuspendedWork(s, p, faults[p]);
        var s1 := Suspended(s, p, faults[p]);
        SwitchInv(s1);
        SuspendedDispatches(s, p, faults[p], faults);
        DeliverLoopDispatches(Switch(s1), faults);
        DispatchesTrans(s.ipc, s1.ipc, DeliverLoop(s, faults).ipc, faults);
      }
    }
  }

  lemma DispatchesHand(i: Ipc, j: Ipc, faults: map<nat, bool>)
    requires Dispatches(i, j, faults)
    ensures LettersHanded(i, j) && PostsHanded(i, j) && Explained(i, j, |i.procs|) && BitsTaken(i, j)
    ensures PostInv(i) ==> PostInv(j)
  {
    assert forall p :: 0 <= p < |i.procs| ==> HandedOver(i.procs[p], j.procs[p], p in faults);
    if PostInv(i) {
      forall k | 0 <= k < |j.privs| ensures Registered(j, k) { assert Registered(i, k); }
    }
  }

  // ------------------------------------------------------------- death and birth

  /** Only notifications of the dead process go, and the messages in slots stay. */
  lemma GoneHands(i: Ipc, j: Ipc, rc: nat)
    requires Gone(i, j, rc)
    ensures SlotsStay(i, j) && LettersHanded(i, j) && PostsHanded(i, j) && Explained(i, j, |i.procs|)
    ensures SignalsTaken(i, j) && (PostInv(i) ==> PostInv(j))
    ensures forall k, id :: 0 <= k < |i.privs| && id in i.privs[k].notifyPending && id !in j.privs[k].notifyPending ==>
              id == i.procs[rc].privId
  {
    hide Cleared;
    forall p | 0 <= p < |i.procs| ensures SlotSame(i.procs[p], j.procs[p]) {
      ClearedFlags(i.procs[p], i.procs[rc].endpoint);
    }
    if PostInv(i) {
      forall k | 0 <= k < |j.privs| ensures Registered(j, k) { assert Registered(i, k); }
    }
  }

  lemma FreeHands(i: Ipc, j: Ipc, rc: nat)
    requires Gone(i, j, rc) && i.procs[rc].privId < |i.privs|
    ensures var r := FreeSlot(j, rc);
            && LettersHanded(i, r) && PostsHanded(i, r) && Explained(i, r, |i.procs|)
            && |r.procs| == |i.procs| && (forall p :: 0 <= p < |i.procs| && p != rc ==> r.procs[p] == j.procs[p])
            && SignalsTaken(i, r) && (PostInv(i) ==> PostInv(r))
            && forall k, id ::
                 0 <= k < |i.privs| && id in i.privs[k].notifyPending && id !in r.privs[k].notifyPending ==>
                   id == i.procs[rc].privId
  {
    GoneHands(i, j, rc);
    var r := FreeSlot(j, rc);
    if PostInv(i) {
      forall k | 0 <= k < |r.privs| ensures Registered(r, k) { assert Registered(j, k); }
    }
  }

  /** A new process has nothing in its slot. */
  lemma ForkHands(s: State, e: Endpoint, c: nat, inhibit: bool)
    requires KernelInv(s) && c < |s.ipc.procs|
    ensures var i, j := s.ipc, Fork(s, e, c, inhibit).0.ipc;
            && LettersHanded(i, j) && PostsHanded(i, j) && Explained(i, j, |i.procs|) && BitsTaken(i, j)
            && SlotsStay(i, j) && SignalsTaken(i, j) && (PostInv(i) ==> PostInv(j))
  {
    var i, j := s.ipc, Fork(s, e, c, inhibit).0.ipc;
    if ForkOk(i, e, c) {
      assert WaitOk(i, e.slot);
      if PostInv(i) {
        forall k | 0 <= k < |j.privs| ensures Registered(j, k) {
          assert Registered(i, k) && OwnerOk(i, k) && TableOk(i, k);
        }
      }
    }
  }
}
