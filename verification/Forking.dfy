/** do_fork: a process table slot becomes live, as a copy of its parent's. */
module Forking {
  import opened KernelTypes
  import opened Scheduler
  import opened WaitGraph
  import opened Ipc
  import opened IpcInv
  import opened Letters
  import opened AsyncSends
  import opened KernelOps

  /** Division of the C language: towards zero. */
  function CHalf(n: int): int {
    if n >= 0 then n / 2 else -((-n) / 2)
  }

  /** The child's process table entry. */
  function Child(i: Ipc, p: nat, c: nat, inhibit: bool): Proc
    requires p < |i.procs| && c < |i.procs| && i.procs[c].endpoint.Ep? && i.procs[p].privId < |i.privs|
  {
    var x := i.procs[p];
    var system := SysProc in i.privs[x.privId].flags;
    x.(endpoint := Ep(i.procs[c].endpoint.gen + 1, c),
       retreg := OK,
       privId := if system then USER_PRIV_ID else x.privId,
       rts := x.rts + (if system then {NoPriv} else {}) + (if inhibit then {VmInhibit} else {})
              - {Signaled, SigPending, PStop},
       pending := {})
  }

  /** The whole struct proc is copied, the head of the caller queue included. */
  function Forked(i: Ipc, p: nat, c: nat, inhibit: bool): Ipc
    requires p < |i.procs| == |i.cq| && c < |i.procs| && i.procs[c].endpoint.Ep? && i.procs[p].privId < |i.privs|
  {
    i.(procs := i.procs[c := Child(i, p, c, inhibit)], cq := i.cq[c := i.cq[p]])
  }

  /** Parent and child share the ticks; the odd one goes to the child. */
  function ForkedSched(s: Sched, v: Priv, p: nat, c: nat): Sched
    requires p < |s.ent| && c < |s.ent|
  {
    var e := s.ent[p];
    s.(ent := s.ent[c := e.(ticksLeft := CHalf(e.ticksLeft + 1),
                            preemptible := Preemptible in v.flags, billable := Billable in v.flags)]
                   [p := e.(ticksLeft := CHalf(e.ticksLeft))])
  }

  predicate ForkOk(i: Ipc, e: Endpoint, c: nat)
    requires c < |i.procs| && forall p :: 0 <= p < |i.procs| ==> i.procs[p].privId < |i.privs|
  {
    && IsOkEndpoint(i, e) && Empty(i.procs[c])
    && Receiving in i.procs[e.slot].rts && i.privs[i.procs[e.slot].privId].asyn == []
  }

  ghost function Fork(s: State, e: Endpoint, c: nat, inhibit: bool): (r: (State, Code))
    requires KernelInv(s) && c < |s.ipc.procs|
  {
    var i := s.ipc;
    if !ForkOk(i, e, c) then (s, EINVAL)
    else
      assert NamesOk(i, c);
      var j := Forked(i, e.slot, c, inhibit);
      (State(j, ForkedSched(s.sched, j.privs[j.procs[c].privId], e.slot, c)), OK)
  }

  // --------------------------------------------------------------- what it keeps

  /** The parent p is alone: nobody is queued at it and it is queued nowhere. */
  predicate Alone(i: Ipc, p: nat)
    requires p < |i.procs| == |i.cq|
  {
    i.cq[p] == [] && Sending !in i.procs[p].rts
  }

  /** What is pending for the structure of all users, which the child shares, can be taken.
      With a user process in use it always can. */
  predicate UserBits(i: Ipc)
    requires |i.privs| == NR_SYS_PROCS
  {
    forall id :: id in i.privs[USER_PRIV_ID].notifyPending ==> id < NR_SYS_PROCS && i.privs[id].owner.Some?
  }

  lemma UserHasBits(i: Ipc, p: nat)
    requires IpcShape(i) && PrivInv(i) && p < |i.procs|
    requires SlotFree !in i.procs[p].rts && i.procs[p].privId == USER_PRIV_ID
    ensures UserBits(i)
  {
    assert PrivOk(i, p);
  }

  lemma ChildFlags(i: Ipc, p: nat, c: nat, inhibit: bool)
    requires p < |i.procs| && c < |i.procs| && i.procs[c].endpoint.Ep? && i.procs[p].privId < |i.privs|
    ensures var y := Child(i, p, c, inhibit);
            forall f :: f in {SlotFree, Sending, Receiving, NoEndpoint} ==> (f in y.rts <==> f in i.procs[p].rts)
  {
  }

  ghost predicate Birth(i: Ipc, p: nat, c: nat) {
    && CoreInv(i) && p < |i.procs| && c < |i.procs| && Empty(i.procs[c])
    && Live(i.procs[p]) && Receiving in i.procs[p].rts
  }

  lemma ForkedNames(i: Ipc, p: nat, c: nat, inhibit: bool, e: Endpoint)
    requires Birth(i, p, c) && i.procs[c].endpoint.Ep?
    ensures NamesLive(Forked(i, p, c, inhibit), e) <==>
              NamesLive(i, e) || e == Ep(i.procs[c].endpoint.gen + 1, c)
  {
    ChildFlags(i, p, c, inhibit);
    if e.Ep? && e.slot == c { assert SlotFree in i.procs[c].rts; }
  }

  /** Nobody live refers to the free slot c. */
  lemma NobodyNames(i: Ipc, c: nat, q: nat)
    requires CoreInv(i) && c < |i.procs| && Empty(i.procs[c]) && q < |i.procs|
    ensures WaitsFor(i)[q] != Some(c) && (Live(i.procs[q]) ==> c !in i.cq[q])
  {
    assert SlotFree in i.procs[c].rts;
    assert NamesOk(i, q) && NamesOk(i, c);
    assert !SendsTo(i, c, q);
  }

  lemma ForkedQueues(i: Ipc, p: nat, c: nat, inhibit: bool)
    requires Birth(i, p, c) && i.procs[c].endpoint.Ep? && Alone(i, p)
    ensures QueueInv(Forked(i, p, c, inhibit))
  {
    var j := Forked(i, p, c, inhibit);
    ChildFlags(i, p, c, inhibit);
    NobodyNames(i, c, c);
    forall q, x: nat | 0 <= q < |j.procs| && Live(j.procs[q])
      ensures x in j.cq[q] <==> x < |j.procs| && SendsTo(j, x, q)
    {
      if x < |j.procs| && x != c {
        assert NamesOk(i, x);
        if q == c {
          assert i.procs[x].sendTo == j.procs[c].endpoint ==> !NamesLive(i, i.procs[x].sendTo);
        } else {
          assert SendsTo(j, x, q) <==> SendsTo(i, x, q);
        }
      }
      NobodyNames(i, c, q);
    }
  }

  lemma ForkedCore(i: Ipc, p: nat, c: nat, inhibit: bool)
    requires Birth(i, p, c) && i.procs[c].endpoint.Ep? && Alone(i, p)
    ensures CoreInv(Forked(i, p, c, inhibit))
  {
    var j := Forked(i, p, c, inhibit);
    ForkedQueues(i, p, c, inhibit);
    ChildFlags(i, p, c, inhibit);
    hide Child;
    forall x | 0 <= x < |j.procs| ensures NamesOk(j, x) && WaitOk(j, x) {
      assert NamesOk(i, x) && WaitOk(i, x) && NamesOk(i, p) && WaitOk(i, p);
      var y := if x == c then i.procs[p] else i.procs[x];
      ForkedNames(i, p, c, inhibit, y.sendTo);
      ForkedNames(i, p, c, inhibit, y.getFrom);
      ChildFields(i, p, c, inhibit);
    }
  }

  lemma ChildFields(i: Ipc, p: nat, c: nat, inhibit: bool)
    requires p < |i.procs| && c < |i.procs| && i.procs[c].endpoint.Ep? && i.procs[p].privId < |i.privs|
    ensures var x, y := i.procs[p], Child(i, p, c, inhibit);
            && y.endpoint == Ep(i.procs[c].endpoint.gen + 1, c)
            && y.sendTo == x.sendTo && y.getFrom == x.getFrom && y.misc == x.misc
            && y.awaits == x.awaits && y.deliverMsg == x.deliverMsg
  {
  }

  lemma ForkedGraph(i: Ipc, p: nat, c: nat, inhibit: bool)
    requires Birth(i, p, c) && i.procs[c].endpoint.Ep? && GraphInv(i)
    ensures GraphInv(Forked(i, p, c, inhibit))
  {
    var j := Forked(i, p, c, inhibit);
    ChildFlags(i, p, c, inhibit);
    forall q | 0 <= q < |i.procs| ensures WaitsFor(i)[q] != Some(c) { NobodyNames(i, c, q); }
    assert WaitsFor(j) == WaitsFor(i)[c := BlockedOn(i.procs[p])];
    assert NamesOk(i, p);
    FreshNode(WaitsFor(i), c, BlockedOn(i.procs[p]));
  }

  lemma ForkedPrivs(i: Ipc, p: nat, c: nat, inhibit: bool)
    requires Birth(i, p, c) && i.procs[c].endpoint.Ep? && PrivInv(i)
    ensures IpcShape(Forked(i, p, c, inhibit))
    ensures PrivInv(Forked(i, p, c, inhibit)) <==> UserBits(i)
  {
    var j := Forked(i, p, c, inhibit);
    ChildFlags(i, p, c, inhibit);
    assert PrivOk(i, p) && OwnerOk(i, USER_PRIV_ID) && PrivOk(i, INIT);
    assert SlotFree in i.procs[c].rts;
    assert SysProc !in i.privs[i.procs[p].privId].flags ==> i.procs[p].privId == USER_PRIV_ID;
    assert j.procs[c].privId == USER_PRIV_ID;
    if UserBits(i) {
      forall x | 0 <= x < |j.procs| ensures PrivOk(j, x) { assert PrivOk(i, x); }
      forall k | 0 <= k < |j.privs| ensures OwnerOk(j, k) { assert OwnerOk(i, k); }
    } else {
      assert !PrivOk(j, c);
    }
  }

  /** Elements addressed to an earlier life of the slot stay dead letters. */
  lemma ForkedTables(i: Ipc, p: nat, c: nat, inhibit: bool)
    requires Birth(i, p, c) && i.procs[c].endpoint.Ep? && PrivInv(i) && AsyncInv(i)
    ensures AsyncInv(Forked(i, p, c, inhibit))
  {
    var j := Forked(i, p, c, inhibit);
    assert SlotFree in i.procs[c].rts;
    forall k | 0 <= k < |j.privs| ensures TableOk(j, k) {
      assert TableOk(i, k) && OwnerOk(i, k);
      forall n | 0 <= n < |j.privs[k].asyn| && Undone(j.privs[k].asyn[n]) ensures ElementOk(j, k, j.privs[k].asyn[n]) {
        assert ElementOk(i, k, j.privs[k].asyn[n]);
      }
    }
    forall k, a | 0 <= k < |j.privs| && 0 <= a < |j.hist.asynSent| ensures Marked(j.privs[k], j.hist.asynSent[a]) {
      assert Marked(i.privs[k], i.hist.asynSent[a]);
    }
  }

  lemma ForkedLetters(i: Ipc, p: nat, c: nat, inhibit: bool)
    requires Birth(i, p, c) && i.procs[c].endpoint.Ep? && Alone(i, p) && LetterInv(i)
    ensures LetterInv(Forked(i, p, c, inhibit))
  {
    var j := Forked(i, p, c, inhibit);
    ChildFlags(i, p, c, inhibit);
    forall x | 0 <= x < |j.procs| && Sending in j.procs[x].rts ensures HoldsLetter(j, x) {
      assert HoldsLetter(i, x);
    }
    forall n | 0 <= n < |j.hist.letters| ensures Accounted(j, n) {
      assert Accounted(i, n);
      if x: nat :| Holds(i, x, n) { assert Holds(j, x, n); }
    }
    forall q, a, b | 0 <= q < |j.cq| && q < |j.procs| && Live(j.procs[q]) && 0 <= a < b < |j.cq[q]|
      ensures Before(j, j.cq[q][a], j.cq[q][b])
    {
      NobodyNames(i, c, q);
      assert j.cq[q][a] in j.cq[q] && j.cq[q][b] in j.cq[q];
      assert Before(i, i.cq[q][a], i.cq[q][b]);
    }
  }

  lemma ForkedMessage(i: Ipc, p: nat, c: nat, inhibit: bool)
    requires MessageInv(i) && Birth(i, p, c) && i.procs[c].endpoint.Ep? && Alone(i, p) && UserBits(i)
    ensures MessageInv(Forked(i, p, c, inhibit))
  {
    hide CoreInv, GraphInv, PrivInv, AsyncInv, LetterInv;
    ForkedCore(i, p, c, inhibit);
    ForkedGraph(i, p, c, inhibit);
    ForkedPrivs(i, p, c, inhibit);
    ForkedTables(i, p, c, inhibit);
    ForkedLetters(i, p, c, inhibit);
    assert SlotFree in i.procs[c].rts;
  }

  lemma ForkedSchedInv(s: State, p: nat, c: nat, inhibit: bool)
    requires KernelInv(s) && Birth(s.ipc, p, c) && s.ipc.procs[c].endpoint.Ep?
    ensures var j := Forked(s.ipc, p, c, inhibit);
            var t := ForkedSched(s.sched, j.privs[j.procs[c].privId], p, c);
            Shape(t) && SchedInv(t, Ready(j))
  {
    hide MessageInv;
    var j := Forked(s.ipc, p, c, inhibit);
    ChildFlags(s.ipc, p, c, inhibit);
    assert Receiving in j.procs[c].rts && SlotFree in s.ipc.procs[c].rts;
    assert Ready(j) == Ready(s.ipc);
    var run := Ready(s.ipc);
    assert p !in run && c !in run && IDLE in run;
    var t := ForkedSched(s.sched, j.privs[j.procs[c].privId], p, c);
    var e := t.ent[c];
    OffListEntry(s.sched, run, c, e);
    OffListEntry(s.sched.(ent := s.sched.ent[c := e]), run, p, t.ent[p]);
    assert t == s.sched.(ent := s.sched.ent[c := e][p := t.ent[p]]);
  }

  /** Shared caller queues, or a child that is sending without being queued, break
      the queue invariant. */
  lemma ForkedBroken(i: Ipc, p: nat, c: nat, inhibit: bool)
    requires Birth(i, p, c) && i.procs[c].endpoint.Ep? && !Alone(i, p)
    ensures !CoreInv(Forked(i, p, c, inhibit))
  {
    var j := Forked(i, p, c, inhibit);
    ChildFlags(i, p, c, inhibit);
    assert NamesOk(i, p) && NamesOk(i, c) && SlotFree in i.procs[c].rts;
    if i.cq[p] != [] {
      var x := i.cq[p][0];
      assert x in i.cq[p] && SendsTo(i, x, p);
      NobodyNames(i, c, p);
      assert x in j.cq[c] && !SendsTo(j, x, c);
    } else {
      var q: nat := i.procs[p].sendTo.slot;
      NobodyNames(i, c, q);
      assert SendsTo(j, c, q) && c !in j.cq[q];
    }
  }

  /** A fork that is carried out keeps the kernel invariant exactly when the parent is alone
      and the structure of the users has nothing pending from the dead; one that is refused
      changes nothing. */
  lemma ForkExact(s: State, e: Endpoint, c: nat, inhibit: bool)
    requires KernelInv(s) && c < |s.ipc.procs|
    ensures Fork(s, e, c, inhibit).1 == (if ForkOk(s.ipc, e, c) then OK else EINVAL)
    ensures KernelInv(Fork(s, e, c, inhibit).0) <==> (ForkOk(s.ipc, e, c) ==> Alone(s.ipc, e.slot) && UserBits(s.ipc))
  {
    var i := s.ipc;
    if ForkOk(i, e, c) {
      var p: nat := e.slot;
      assert NamesOk(i, c) && NamesOk(i, p);
      assert Birth(i, p, c);
      hide CoreInv, SchedInv, GraphInv, PrivInv, AsyncInv, LetterInv, VitalInv;
      if !Alone(i, p) {
        ForkedBroken(i, p, c, inhibit);
      } else if UserBits(i) {
        ForkedMessage(i, p, c, inhibit);
        ForkedSchedInv(s, p, c, inhibit);
      } else {
        ForkedPrivs(i, p, c, inhibit);
      }
    }
  }
}
